# Vehicle ignition and trip engine, in Dafny

This project models the single-vehicle telemetry server. A simulated vehicle
is ticked every three seconds: while its ignition is on it takes a small
random step and reports a 20-80 km/h speed; while it is off it stands still
at speed 0. Every tick broadcasts a `vehicleUpdate` snapshot to the
connected socket.io clients. `POST /toggle-ignition` flips the ignition: on
opens a trip, off closes it and stores it in the SQLite `trips` table.
`GET /trips` lists the completed trips, newest first. A client that connects
is sent the current snapshot once.

The server exists in two variants, and each is modelled in its own module:

- `MetricsServer` models `main/project/src/types/index.ts`. It keeps the open
  trip in memory with its speed samples. At trip end it writes one
  `completed` row with the duration, distance, maximum speed and average
  speed.
- `LegacyServer` models `main/server/index.js`. It keeps only the open
  trip's id. It inserts an `active` row when a trip starts and updates that
  row to `completed` when it ends. It computes no metrics.

Shared pieces:

- `Telemetry` holds the snapshot types, the random-walk ranges and
  JavaScript's `Math.round`.
- `TripMetrics` holds the trip-end metrics.
- `TripStore` models the `trips` table as a map from trip id to row, with
  the INSERT, the UPDATE and the listing query.
- `Scenarios` holds worked runs of both engines.

How the model is built:

- Each module-level state becomes the fields of an `Engine` class.
- Each event-loop handler becomes one method, because Node runs each
  handler to completion.
- Each method's contract ties the new state, `Snapshot()`, to a pure
  transition function (`Tick`, `Toggle`) of the old state.
- The lemmas beside those functions state what the source promises: the
  invariant `Inv`, the effects of each branch, and the trip-row metrics.

Modelling conventions:

- Every `Math.random()` outcome is a parameter. Its range is exactly what
  the source's expression produces; the `...Covers` lemmas show every value
  in the range is reachable.
- Time is an integer number of milliseconds, passed in as `now`. It never
  goes backwards (`clock <= now`).
- Every socket.io emit is appended to `outbox`.
- A trip's id is the millisecond stamp that the source writes after
  `trip-`.

## Model

| member | source | states |
|---|---|---|
| `Telemetry.RoundHalfUp` | main/project/src/types/index.ts:41 | Math.round gives the integer within half of x, halves rounding up |
| `Telemetry.WalkDelta` | main/project/src/types/index.ts:37-38 | a walk step from a Math.random() draw lies in [-0.00025, 0.00025) |
| `Telemetry.WalkDeltaCovers` | main/project/src/types/index.ts:37-38 | every value in [-0.00025, 0.00025) is the step of some draw in [0, 1) |
| `Telemetry.SimSpeed` | main/project/src/types/index.ts:41 | a moving tick's speed is an integer from 20 to 80 km/h |
| `Telemetry.SimSpeedCovers` | main/project/src/types/index.ts:41 | every integer speed from 20 to 80 is produced by some draw |
| `Telemetry.SimHeading` | main/project/src/types/index.ts:48 | a tick's heading is an integer from 0 to 360 inclusive |
| `Telemetry.SimHeadingCovers` | main/project/src/types/index.ts:48 | every heading from 0 to 360 is produced by some draw |
| `Telemetry.ChronologicalEmit` | main/project/src/types/index.ts:52-54 | appending a snapshot no older than the current one keeps the emitted snapshots in time order |
| `Telemetry.IgnitionMessage` | main/project/src/types/index.ts:112 | the response reads "Ignition is now ON" when the new state is on and "Ignition is now OFF" when it is off |
| `TripMetrics.DurationMinutes` | main/project/src/types/index.ts:85 | the duration is the whole number of minutes within half a minute of the elapsed time, and it is never negative for a trip that ends after it starts |
| `TripMetrics.DurationIsMathRound` | main/project/src/types/index.ts:85 | the integer formula (elapsed + 30000) div 60000 equals Math.round(elapsed / 60000) for every elapsed time |
| `TripMetrics.MaxSpeed` | main/project/src/types/index.ts:94 | the maximum is 0 without samples; otherwise it is at least every sample and equal to one of them |
| `TripMetrics.Sum` | main/project/src/types/index.ts:95 | the `reduce` total of the samples; a total of non-negative speeds is non-negative |
| `TripMetrics.AvgSpeed` | main/project/src/types/index.ts:95 | 0 without samples; otherwise the integer r with n(2r - 1) <= 2 * sum < n(2r + 1), the mean rounded half up |
| `TripMetrics.HalfUpQuotient` | main/project/src/types/index.ts:95 | floor((2t + n) / 2n) is the integer within half of t / n, halves rounding up |
| `TripMetrics.AvgSpeedIsMathRound` | main/project/src/types/index.ts:95 | for a non-empty trip, the integer average equals Math.round(sum / count) over the reals |
| `TripMetrics.TripSpeedBounds` | main/project/src/types/index.ts:94-101 | for samples in [20, 80]: 0 <= avg <= max <= 80; avg >= 20 when there is a sample; both are 0 when there is none |
| `TripStore.InsertRow` | main/project/src/types/index.ts:97-107 | an INSERT adds the row under its id and keeps every other row; if the id is already taken the table is unchanged; rows stay keyed by their own id |
| `TripStore.CompleteRow` | main/server/index.js:67-72 | the UPDATE sets endTime, endLat, endLon and status 'completed' on the row with that id, if there is one, and changes no other row and no key |
| `TripStore.InsertNewestFirst` | main/project/src/types/index.ts:116 | placing a row into a newest-first list keeps it newest first, and the result is a permutation of the old rows plus that row (multiset equality) |
| `TripStore.SelectCompleted` | main/project/src/types/index.ts:116 | the query returns every completed row and nothing else, each once, ordered by startTime descending |
| `MetricsServer.SamplesSinceStart` | main/project/src/types/index.ts:42-79 | the speeds of the moving ticks since the latest ignition-on, which `tripDataPoints` holds; never more samples than events |
| `MetricsServer.SamplesAreMovingSpeeds` | main/project/src/types/index.ts:41-42 | every trip sample is the speed of a moving tick that happened |
| `MetricsServer.SamplesAfter` | main/project/src/types/index.ts:42-79 | ignition-on empties the samples; a moving tick appends its speed; ignition-off and stopped ticks leave the samples as they were |
| `MetricsServer.CompletedTrip` | main/project/src/types/index.ts:84-102 | the trip-end row carries the trip's id, the vehicle id, the trip's start time and start position, the end time, the current position as end position, the haversine distance from start to end, a non-negative duration, and speed metrics with 0 <= avg <= max <= 80 |
| `MetricsServer.Tick` | main/project/src/types/index.ts:34-55 | the tick handler's transition: the published position is the walk position, the location is stamped now, and the samples gain exactly the published speed when moving and are kept otherwise |
| `MetricsServer.Toggle` | main/project/src/types/index.ts:68-113 | the toggle handler's transition: afterwards a trip is open exactly when the ignition is on, no stored key is dropped, and the only key added is the closed trip's id |
| `MetricsServer.InitialInv` | main/project/src/types/index.ts:19-31 | the start-up state has the ignition off, no open trip, and satisfies the invariant |
| `MetricsServer.TickKeepsInv` | main/project/src/types/index.ts:34-55 | a tick preserves the invariant: a trip is open iff the ignition is on, the samples are the current trip's moving speeds, and the speed is 0 or in [20, 80] |
| `MetricsServer.TickWithIgnitionOff` | main/project/src/types/index.ts:35-50 | with the ignition off a tick keeps the position, reports speed 0 and takes no sample |
| `MetricsServer.TickWithIgnitionOn` | main/project/src/types/index.ts:36-50 | with the ignition on a tick moves by the step, reports a speed in [20, 80] and appends exactly that speed to the samples |
| `MetricsServer.TickRefreshesStatus` | main/project/src/types/index.ts:51-54 | after a tick isMoving equals ignitionOn and lastUpdate is now; the trip and the table are unchanged; exactly one snapshot, the new status, is broadcast |
| `MetricsServer.ToggleKeepsInv` | main/project/src/types/index.ts:68-111 | a toggle preserves the invariant |
| `MetricsServer.ToggleFlipsIgnition` | main/project/src/types/index.ts:69-111 | a toggle negates ignitionOn and changes nothing else in the status, so isMoving keeps its old value; exactly one snapshot is broadcast |
| `MetricsServer.ToggleOnStartsTrip` | main/project/src/types/index.ts:72-79 | turning on opens a trip with id and start time now at the current location, empties the samples and writes nothing |
| `MetricsServer.ToggleOffEndsTrip` | main/project/src/types/index.ts:83-108 | turning off with an open trip inserts its completed row, built from the samples collected so far, and clears the trip |
| `MetricsServer.ToggleOffWithoutTrip` | main/project/src/types/index.ts:83 | turning off with no open trip writes no row |
| `MetricsServer.ToggleOffFindsTrip` | main/project/src/types/index.ts:69-83 | in every reachable state, an ignition-off finds a trip to close |
| `MetricsServer.EndedTripRecord` | main/project/src/types/index.ts:84-108 | the stored row is the closed trip: its vehicle id, start time and start position, the handler's time and the current position as end, the haversine distance, rounded duration >= 0, the max and rounded average of the samples, 0 <= avg <= max <= 80, and avg >= 20 once there is a sample |
| `MetricsServer.SaveCallbackAsWritten` | main/project/src/types/index.ts:104-107 | the callback as written: it reports the error, or the id of whatever trip `activeTrip` holds when it runs, and throws exactly when the save succeeded and `activeTrip` is null |
| `MetricsServer.SaveCallbackAsWrittenThrows` | main/project/src/types/index.ts:104-108 | the success callback of every trip-end INSERT reads `activeTrip.id` after `activeTrip` became null, so it throws |
| `MetricsServer.SaveCallback` | main/project/src/types/index.ts:104-106 | the corrected callback never throws: it reports the error, or the id it was given |
| `MetricsServer.SaveCallbackReportsSavedTrip` | main/project/src/types/index.ts:97-108 | with the id captured when the INSERT is issued, a successful save of the trip an ignition-off closes reports the id of the completed row that INSERT stored |
| `MetricsServer.Engine.constructor` | main/project/src/types/index.ts:19-31 | the engine starts in the initial state over the stored rows, and the invariant holds |
| `MetricsServer.Engine.UpdateVehicleLocation` | main/project/src/types/index.ts:34-55 | the tick handler performs `Tick` on the state and keeps the invariant |
| `MetricsServer.Engine.ToggleIgnition` | main/project/src/types/index.ts:68-113 | the toggle handler performs `Toggle` on the state, keeps the invariant, answers with the message for the new ignition state, and returns the id of the trip it closed (none when it turns the ignition on), whose row is then in the table |
| `MetricsServer.Engine.OnTripSaved` | main/project/src/types/index.ts:104-107 | the INSERT callback (as corrected) for a trip the toggle closed never throws: it reports the error, or the id of the row stored under that trip id |
| `MetricsServer.Engine.OnConnection` | main/project/src/types/index.ts:62-65 | a new connection is sent the current status once and only on its own socket; nothing else changes |
| `MetricsServer.Engine.ListTrips` | main/project/src/types/index.ts:115-120 | GET /trips returns exactly the completed rows, newest first |
| `LegacyServer.InitialInv` | main/server/index.js:15-22 | the start-up state has the ignition off, no open trip id, and satisfies the invariant |
| `LegacyServer.Tick` | main/server/index.js:25-40 | the tick handler's transition: the location moves by the two steps while on and stays put while off; the inserted-row bookkeeping is kept and the clock is now |
| `LegacyServer.StartedTrip` | main/server/index.js:60-61 | the trip-start row holds the id, vehicle id, start time, start position and 'active'; every other column is NULL |
| `LegacyServer.Toggle` | main/server/index.js:54-77 | the toggle handler's transition: afterwards a trip id is open exactly when the ignition is on, it is `now` after turning on, and the table's keys gain `now` on turning on and are kept on turning off |
| `LegacyServer.TickKeepsInv` | main/server/index.js:25-40 | a tick preserves the invariant: a trip id is open iff the ignition is on, and the speed is 0 or in [20, 80] |
| `LegacyServer.TickWithIgnitionOff` | main/server/index.js:26-34 | with the ignition off the location is kept and the speed becomes 0 |
| `LegacyServer.TickWithIgnitionOn` | main/server/index.js:27-34 | with the ignition on the location moves by the step and the speed is in [20, 80] |
| `LegacyServer.TickRefreshesStatus` | main/server/index.js:35-39 | after a tick isMoving equals ignitionOn and lastUpdate is now; heading and the location timestamp are untouched; the trip id and table are unchanged; one snapshot is broadcast |
| `LegacyServer.ToggleKeepsInv` | main/server/index.js:54-77 | a toggle preserves the invariant, including that only the open trip's row can be active among the rows this server inserted |
| `LegacyServer.ToggleFlipsIgnition` | main/server/index.js:55-75 | a toggle negates ignitionOn, changes nothing else in the status, and broadcasts one snapshot |
| `LegacyServer.ToggleOnInsertsActiveRow` | main/server/index.js:58-64 | turning on opens trip `now` and inserts one new 'active' row, started now at the current location; no other row changes |
| `LegacyServer.ToggleOffCompletesRow` | main/server/index.js:65-72 | turning off sets the open row's endTime, end position and status 'completed', changes no other row, and clears the trip id |
| `LegacyServer.ToggleOffFindsTrip` | main/server/index.js:55-66 | in every reachable state, an ignition-off finds an open trip id whose row exists |
| `LegacyServer.ToggleOffWithoutTrip` | main/server/index.js:66 | turning off with no open trip leaves the table unchanged |
| `LegacyServer.AtMostOneActive` | main/server/index.js:58-72 | among the rows this server inserted, at most one is 'active' at any time |
| `LegacyServer.Engine.constructor` | main/server/index.js:15-22 | the engine starts in the initial state over the stored rows, and the invariant holds |
| `LegacyServer.Engine.UpdateVehicleLocation` | main/server/index.js:25-40 | the tick handler performs `Tick` on the state and keeps the invariant |
| `LegacyServer.Engine.ToggleIgnition` | main/server/index.js:54-77 | the toggle handler performs `Toggle` on the state, keeps the invariant, and answers with the message for the new ignition state |
| `LegacyServer.Engine.OnConnection` | main/server/index.js:48-51 | a new connection is sent the current status once and only on its own socket |
| `LegacyServer.Engine.ListTrips` | main/server/index.js:79-84 | GET /trips returns exactly the completed rows, newest first |
| `Scenarios.ShortTripSpeeds` | main/project/src/types/index.ts:94-95 | samples 30, 45 and 60 give a max of 60 and an average of 45 |
| `Scenarios.ShortTrip` | main/project/src/types/index.ts:68-113 | on at 0 s, three ticks at 30/45/60 km/h, off at 9 s: one completed row with duration 0, max 60, avg 45, end position (12.9720, 77.5950), and the distance from start to end |
| `Scenarios.ShortTripListing` | main/project/src/types/index.ts:115-120 | the same run on the engine, then GET /trips, lists exactly that row |
| `Scenarios.MovingLagsIgnition` | main/project/src/types/index.ts:51-69 | right after the ignition turns on the status still says not moving; the next tick says moving |
| `Scenarios.JoinMidTrip` | main/project/src/types/index.ts:62-65 | a client joining after the first moving tick is sent that tick's status, once |
| `Scenarios.LegacyShortTrip` | main/server/index.js:54-77 | the same trip on the older engine inserts an 'active' row at start, and the end updates it to 'completed' with the end position and no metrics |

## Left out

- The haversine arithmetic (main/project/src/types/index.ts:87-92) is left
  out: it is floating-point trigonometry. The distance is a function of
  the start and end coordinates, supplied when the engine is built.
- `toFixed(2)` on the distance is left out; the stored distance is the
  unformatted value.
- Floating point: latitudes, longitudes and the random-walk steps are exact
  reals, so rounding error in `currentLatitude += ...` is not modelled.
- `Math.random()` is not modelled. Each draw's outcome is a method
  parameter in the range the source's expression produces.
- Some handlers read the clock more than once: the tick in
  main/project/src/types/index.ts (lines 49 and 52) and both toggles
  (index.ts lines 70 and 74 or 84; main/server/index.js lines 56 and 59).
  The model uses a single `now` per handler, so a trip's id, its start time
  and its end time coincide with that handler's `now`. The legacy tick and
  both connection handlers read the clock once or not at all.
- The INSERT and UPDATE statements are asynchronous `db.run` calls
  (main/project/src/types/index.ts:104, main/server/index.js:61 and 68).
  The model applies each one to the table when its handler runs, so no
  other handler can run between the statement and its effect.
- MaxSpeed: does not model the `RangeError` that `Math.max(...tripDataPoints)`
  (main/project/src/types/index.ts:94) throws when a trip holds more samples
  than the JavaScript engine accepts as call arguments (on the order of
  10^5, about three and a half days of ticks). In that case the handler
  stops after line 69 turned the ignition off: `activeTrip` stays set with
  the ignition off, no row is written, nothing is broadcast, and Express
  answers 500. The model's maximum is defined for every length.
- Timestamps are milliseconds. The ISO-8601 strings the source stores order
  the same way as those milliseconds.
- The "trip-" prefix of trip ids is implicit.
- Logging (`console.log`/`console.error`) is left out, except what the
  trip-end save callback reports (see Findings).
- The legacy variant's start and end callbacks are left out. They only log.
  The end callback (main/server/index.js:68-71) reads `activeTripId` after
  line 72 has set it to null, so a successful save logs "Trip ended: null".
  This is the same stale read as the one under Findings, but it does not
  throw.
- SQLite failures other than a duplicate primary key are left out: I/O
  errors, a missing table, the `db.all` error branch of `/trips` (a 500
  response). The connection and schema set-up and `process.exit` are also
  not modelled.
- Express routing, CORS, the HTTP response object and the socket.io
  transport are left out. A response is the method's return value, and an
  emit is an `outbox` entry.
- The `setInterval` scheduling is left out. A tick happens whenever the
  tick method is called.
- The `/register` and `/login` handlers and the React front end are not
  part of this model.
- Neither `Inv` states the constant `vehicleId`. The transition lemmas
  state that `Tick` keeps it, and the scenarios fix it.

Behaviour of the code worth knowing:

- A toggle does not update `isMoving`. It keeps its old value until the
  next tick (`ToggleFlipsIgnition`, `MovingLagsIgnition`).
- `tripDataPoints` is not cleared when a trip ends. It is reset at the next
  ignition-on (`SamplesAfter`).
- In main/project/src/types/index.ts a tick redraws the heading even when
  stopped, and the heading can be 360. The older variant never changes the
  heading or the location's timestamp.
- The toggle flips `ignitionOn` before branching, and a trip is open
  exactly while the ignition is on. So "turning off with no active trip"
  cannot happen in either variant (`MetricsServer.ToggleOffFindsTrip`,
  `LegacyServer.ToggleOffFindsTrip`). Its branch is
  still modelled and writes nothing (`ToggleOffWithoutTrip`).
- Two trips started in the same millisecond get the same trip id. The
  second INSERT then fails on the primary key (`InsertRow`). In
  main/project/src/types/index.ts the table keeps the first row. In
  main/server/index.js `activeTripId` is set even when that INSERT fails
  (line 59), so the trip-end UPDATE (lines 67-68) rewrites the first row's
  endTime, endLat and endLon and marks it completed (`CompleteRow`).
- `AtMostOneActive` speaks only of the rows this server inserted. A row
  left 'active' by an earlier run that stopped mid-trip is never closed by
  main/server/index.js, since nothing reads old rows back into
  `activeTripId`, so such rows can stay active beside the open trip.

## Findings

| source | as written | input that shows it | evidently intended | confidence | as-written member | corrected member |
|---|---|---|---|---|---|---|
| main/project/src/types/index.ts:104-108 | the `db.run` success callback logs `activeTrip.id`. It runs after the handler has returned, and line 108 has already set `activeTrip` to null, so the callback throws a TypeError. If another ignition-on comes first, it logs the next trip's id instead | toggle on, then toggle off, and the INSERT succeeds | log the id of the trip that was just saved (captured when the INSERT is issued) | high; not executed | `MetricsServer.SaveCallbackAsWrittenThrows` | `MetricsServer.SaveCallback` |
