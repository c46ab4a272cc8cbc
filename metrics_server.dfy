/**
 * The fuller server variant (main/project/src/types/index.ts): a 3-second
 * tick that random-walks the vehicle while the ignition is on, and an
 * ignition toggle that opens a trip in memory and, on the next toggle,
 * writes it to the `trips` table as one completed row with its metrics.
 *
 * Each handler runs to completion on the event loop, so each is one method
 * of `Engine`. Math.random() draws and the clock are parameters; every
 * socket.io emit is appended to `outbox`. What each handler does to the
 * module-level state is the function `Tick` or `Toggle` on a `State` value;
 * the lemmas state what the source promises of them.
 */
module MetricsServer {
  import opened Wrappers
  import opened Telemetry
  import opened TripMetrics
  import opened TripStore

  /** `activeTrip`: the trip opened by the last ignition-on. */
  datatype ActiveTrip = ActiveTrip(id: int, startTime: int, startLat: real, startLon: real)

  /** What has happened to the engine, oldest first (proof bookkeeping). */
  datatype Event = Ticked(speed: int, moving: bool) | Toggled(on: bool)

  /**
   * The speeds of the moving ticks since the latest ignition-on: what
   * `tripDataPoints` must hold. Turning the ignition off does not clear them.
   */
  function SamplesSinceStart(events: seq<Event>): (r: seq<int>)
    ensures |r| <= |events|
  {
    if events == [] then []
    else
      var before := SamplesSinceStart(events[..|events| - 1]);
      match events[|events| - 1]
      case Toggled(on) => if on then [] else before
      case Ticked(speed, moving) => if moving then before + [speed] else before
  }

  /** Every trip sample is the speed of a moving tick that happened. */
  lemma {:induction false} SamplesAreMovingSpeeds(events: seq<Event>)
    ensures forall x :: x in SamplesSinceStart(events) ==> Ticked(x, true) in events
  {
    if events != [] {
      var init := events[..|events| - 1];
      SamplesAreMovingSpeeds(init);
      assert events == init + [events[|events| - 1]];
    }
  }

  /** How one more event changes the trip samples. */
  lemma SamplesAfter(events: seq<Event>, e: Event)
    ensures e == Toggled(true) ==> SamplesSinceStart(events + [e]) == []
    ensures e.Ticked? && e.moving ==> SamplesSinceStart(events + [e]) == SamplesSinceStart(events) + [e.speed]
    ensures e == Toggled(false) || (e.Ticked? && !e.moving) ==>
      SamplesSinceStart(events + [e]) == SamplesSinceStart(events)
  {
    assert (events + [e])[..|events|] == events;
  }

  /**
   * The row the trip-end branch inserts: the trip closed at `at` and
   * `endTime`, with the metrics of its speed samples.
   */
  function CompletedTrip(trip: ActiveTrip, vehicleId: string, at: Location, endTime: int, samples: seq<int>,
                         haversineKm: (Coordinate, Coordinate) -> real): (r: TripRecord)
    ensures r.id == trip.id && r.vehicleId == vehicleId && r.status == Completed
    ensures r.startTime == trip.startTime && r.endTime == Some(endTime)
    ensures r.startLat == trip.startLat && r.startLon == trip.startLon
    ensures r.endLat == Some(at.latitude) && r.endLon == Some(at.longitude)
    ensures r.distance == Some(haversineKm(Coordinate(trip.startLat, trip.startLon),
                                           Coordinate(at.latitude, at.longitude)))
    ensures r.duration.Some? && r.maxSpeed.Some? && r.avgSpeed.Some?
    ensures trip.startTime <= endTime ==> r.duration.value >= 0
    ensures SamplesInRange(samples) ==>
      && 0 <= r.avgSpeed.value <= r.maxSpeed.value <= 80
      && (|samples| == 0 ==> r.maxSpeed.value == 0 && r.avgSpeed.value == 0)
      && (|samples| > 0 ==> 20 <= r.avgSpeed.value)
  {
    var row := TripRecord(
      trip.id, vehicleId, trip.startTime, Some(endTime),
      trip.startLat, trip.startLon, Some(at.latitude), Some(at.longitude),
      Some(haversineKm(Coordinate(trip.startLat, trip.startLon), Coordinate(at.latitude, at.longitude))),
      Some(DurationMinutes(trip.startTime, endTime)),
      Some(MaxSpeed(samples)), Some(AvgSpeed(samples)),
      Completed);
    if SamplesInRange(samples) then TripSpeedBounds(samples); row else row
  }

  /**
   * The module-level state: `vehicleStatus`, the walk variables
   * `currentLatitude`/`currentLongitude`, `activeTrip`, `tripDataPoints`,
   * the `trips` table and the emitted snapshots, plus the latest time a
   * handler has seen and the history of handler events.
   */
  datatype State = State(
    status: VehicleStatus,
    latitude: real,
    longitude: real,
    trip: Option<ActiveTrip>,
    samples: seq<int>,
    trips: map<int, TripRecord>,
    outbox: seq<Emit>,
    clock: int,
    events: seq<Event>)

  /** What holds between handlers. */
  ghost predicate Inv(s: State)
  {
    && WellKeyed(s.trips)
    // a trip is open exactly while the ignition is on
    && (s.trip.Some? <==> s.status.ignitionOn)
    // the walk variables and the published location agree
    && s.latitude == s.status.location.latitude
    && s.longitude == s.status.location.longitude
    // a stopped vehicle reports speed 0, a moving one 20 to 80 km/h
    && IsReportedSpeed(s.status.location.speed)
    && (s.status.isMoving <==> s.status.location.speed != 0)
    // the samples are the moving ticks of the latest trip
    && s.samples == SamplesSinceStart(s.events)
    && SamplesInRange(s.samples)
    && (s.trip.Some? ==> s.trip.value.startTime <= s.clock)
    && s.status.lastUpdate <= s.clock
    && Chronological(s.outbox, s.status.lastUpdate)
  }

  /** The state at start-up, over the rows already in the database. */
  function Initial(now: int, stored: map<int, TripRecord>): State
  {
    State(VehicleStatus(VehicleId, Location(StartLatitude, StartLongitude, 0, 0, now), false, false, now),
          StartLatitude, StartLongitude, None, [], stored, [], now, [])
  }

  lemma InitialInv(now: int, stored: map<int, TripRecord>)
    requires WellKeyed(stored)
    ensures Inv(Initial(now, stored))
    ensures !Initial(now, stored).status.ignitionOn && Initial(now, stored).trip == None
  {
  }

  /**
   * `updateVehicleLocation` at time `now`. `dLat` and `dLon` are the values
   * of `WalkDelta`, `speed` of `SimSpeed` and `heading` of `SimHeading`;
   * `dLat`, `dLon` and `speed` are only used while the ignition is on.
   */
  function Tick(s: State, now: int, dLat: real, dLon: real, speed: int, heading: int): (r: State)
    ensures r.status.location.latitude == r.latitude && r.status.location.longitude == r.longitude
    ensures r.status.location.timestamp == now && r.clock == now
    ensures r.samples == if r.status.isMoving then s.samples + [r.status.location.speed] else s.samples
  {
    var moving := s.status.ignitionOn;
    var latitude := if moving then s.latitude + dLat else s.latitude;
    var longitude := if moving then s.longitude + dLon else s.longitude;
    var currentSpeed := if moving then speed else 0;
    var status := s.status.(location := Location(latitude, longitude, currentSpeed, heading, now),
                            isMoving := moving, lastUpdate := now);
    s.(status := status, latitude := latitude, longitude := longitude,
       samples := if moving then s.samples + [currentSpeed] else s.samples,
       outbox := s.outbox + [Broadcast(status)],
       clock := now, events := s.events + [Ticked(currentSpeed, moving)])
  }

  /** POST /toggle-ignition at time `now`. */
  function Toggle(s: State, now: int, haversineKm: (Coordinate, Coordinate) -> real): (r: State)
    ensures r.trip.Some? <==> r.status.ignitionOn
    ensures s.trips.Keys <= r.trips.Keys <= s.trips.Keys + (if s.trip.Some? then {s.trip.value.id} else {})
  {
    var status := s.status.(ignitionOn := !s.status.ignitionOn);
    var emitted := s.(status := status, outbox := s.outbox + [Broadcast(status)],
                      clock := now, events := s.events + [Toggled(status.ignitionOn)]);
    if status.ignitionOn then
      emitted.(trip := Some(ActiveTrip(now, now, status.location.latitude, status.location.longitude)),
               samples := [])
    else if s.trip.Some? then
      emitted.(trips := InsertRow(s.trips, CompletedTrip(s.trip.value, status.vehicleId, status.location,
                                                         now, s.samples, haversineKm)),
               trip := None)
    else emitted
  }

  lemma TickKeepsInv(s: State, now: int, dLat: real, dLon: real, speed: int, heading: int)
    requires Inv(s) && s.clock <= now
    requires IsWalkStep(dLat) && IsWalkStep(dLon) && IsMovingSpeed(speed) && IsHeading(heading)
    ensures Inv(Tick(s, now, dLat, dLon, speed, heading))
  {
    var r := Tick(s, now, dLat, dLon, speed, heading);
    SamplesAfter(s.events, r.events[|s.events|]);
    assert r.events == s.events + [r.events[|s.events|]];
    ChronologicalEmit(s.outbox, s.status.lastUpdate, Broadcast(r.status));
  }

  /** With the ignition off the vehicle holds its position at speed 0 and no sample is taken. */
  lemma TickWithIgnitionOff(s: State, now: int, dLat: real, dLon: real, speed: int, heading: int)
    requires !s.status.ignitionOn
    ensures var r := Tick(s, now, dLat, dLon, speed, heading);
      && r.latitude == s.latitude && r.longitude == s.longitude
      && r.status.location == Location(s.latitude, s.longitude, 0, heading, now)
      && r.samples == s.samples
  {
  }

  /** With the ignition on the vehicle takes one step and its 20-80 km/h speed becomes the next sample. */
  lemma TickWithIgnitionOn(s: State, now: int, dLat: real, dLon: real, speed: int, heading: int)
    requires s.status.ignitionOn && IsMovingSpeed(speed)
    ensures var r := Tick(s, now, dLat, dLon, speed, heading);
      && r.status.location == Location(s.latitude + dLat, s.longitude + dLon, speed, heading, now)
      && 20 <= r.status.location.speed <= 80
      && r.samples == s.samples + [speed]
  {
  }

  /**
   * Every tick sets `isMoving` to the ignition state and refreshes
   * `lastUpdate`, leaves the trip and the table alone and emits exactly
   * one snapshot, the new status.
   */
  lemma TickRefreshesStatus(s: State, now: int, dLat: real, dLon: real, speed: int, heading: int)
    ensures var r := Tick(s, now, dLat, dLon, speed, heading);
      && r.status.isMoving == r.status.ignitionOn == s.status.ignitionOn
      && r.status.lastUpdate == now && r.status.vehicleId == s.status.vehicleId
      && r.trip == s.trip && r.trips == s.trips
      && r.outbox == s.outbox + [Broadcast(r.status)]
  {
  }

  lemma ToggleKeepsInv(s: State, now: int, haversineKm: (Coordinate, Coordinate) -> real)
    requires Inv(s) && s.clock <= now
    ensures Inv(Toggle(s, now, haversineKm))
  {
    var r := Toggle(s, now, haversineKm);
    SamplesAfter(s.events, Toggled(r.status.ignitionOn));
    ChronologicalEmit(s.outbox, s.status.lastUpdate, Broadcast(r.status));
  }

  /**
   * A toggle negates `ignitionOn` and nothing else in the status: the
   * location holds and `isMoving` keeps its stale value until the next tick.
   * Exactly one snapshot is emitted.
   */
  lemma ToggleFlipsIgnition(s: State, now: int, haversineKm: (Coordinate, Coordinate) -> real)
    ensures var r := Toggle(s, now, haversineKm);
      && r.status == s.status.(ignitionOn := !s.status.ignitionOn)
      && r.status.isMoving == s.status.isMoving
      && r.latitude == s.latitude && r.longitude == s.longitude
      && r.outbox == s.outbox + [Broadcast(r.status)]
  {
  }

  /** Turning on opens a trip at the current time and location and empties the samples. */
  lemma ToggleOnStartsTrip(s: State, now: int, haversineKm: (Coordinate, Coordinate) -> real)
    requires !s.status.ignitionOn
    ensures var r := Toggle(s, now, haversineKm);
      && r.trip == Some(ActiveTrip(now, now, s.status.location.latitude, s.status.location.longitude))
      && r.samples == []
      && r.trips == s.trips
  {
  }

  /** Turning off closes the open trip into one completed row and clears it. */
  lemma ToggleOffEndsTrip(s: State, now: int, haversineKm: (Coordinate, Coordinate) -> real)
    requires s.status.ignitionOn && s.trip.Some?
    ensures var r := Toggle(s, now, haversineKm);
      && r.trip == None
      && r.samples == s.samples
      && r.trips == InsertRow(s.trips, CompletedTrip(s.trip.value, s.status.vehicleId, s.status.location,
                                                     now, s.samples, haversineKm))
  {
  }

  /** Turning off with no open trip writes nothing. */
  lemma ToggleOffWithoutTrip(s: State, now: int, haversineKm: (Coordinate, Coordinate) -> real)
    requires s.status.ignitionOn && s.trip.None?
    ensures Toggle(s, now, haversineKm).trips == s.trips
    ensures Toggle(s, now, haversineKm).trip == None
  {
  }

  /**
   * The row written at trip end: it is the open trip, completed now, with
   * the distance between where it started and where the vehicle stands,
   * a non-negative duration, and speeds with 0 <= avg <= max <= 80 (avg at
   * least 20 once there is a sample, both 0 without one).
   */
  lemma EndedTripRecord(s: State, now: int, haversineKm: (Coordinate, Coordinate) -> real)
    requires Inv(s) && s.clock <= now && s.status.ignitionOn
    requires s.trip.Some? && s.trip.value.id !in s.trips
    ensures var r := Toggle(s, now, haversineKm);
      var row := r.trips[s.trip.value.id];
      && r.trips.Keys == s.trips.Keys + {s.trip.value.id}
      && row.status == Completed && row.vehicleId == s.status.vehicleId
      && row.startTime == s.trip.value.startTime && row.endTime == Some(now)
      && row.startLat == s.trip.value.startLat && row.startLon == s.trip.value.startLon
      && row.endLat == Some(s.latitude) && row.endLon == Some(s.longitude)
      && row.distance == Some(haversineKm(Coordinate(s.trip.value.startLat, s.trip.value.startLon),
                                          Coordinate(s.latitude, s.longitude)))
      && row.duration == Some(DurationMinutes(s.trip.value.startTime, now)) && row.duration.value >= 0
      && row.maxSpeed == Some(MaxSpeed(s.samples)) && row.avgSpeed == Some(AvgSpeed(s.samples))
      && 0 <= row.avgSpeed.value <= row.maxSpeed.value <= 80
      && (|s.samples| > 0 ==> 20 <= row.avgSpeed.value)
      && (|s.samples| == 0 ==> row.maxSpeed.value == 0 && row.avgSpeed.value == 0)
  {
    var row := CompletedTrip(s.trip.value, s.status.vehicleId, s.status.location, now, s.samples, haversineKm);
    assert Toggle(s, now, haversineKm).trips == InsertRow(s.trips, row);
  }

  /** In every reachable state an ignition-off finds a trip to close. */
  lemma ToggleOffFindsTrip(s: State)
    requires Inv(s) && s.status.ignitionOn
    ensures s.trip.Some?
  {
  }

  /** What the `db.run` callback of the trip-end INSERT logs. */
  datatype SaveReport = SaveFailed(message: string) | Saved(id: int) | ThrewTypeError

  /**
   * The callback as written: on success it reads `activeTrip.id` when it
   * runs, after the handler has already set `activeTrip` to null.
   */
  function SaveCallbackAsWritten(err: Option<string>, tripWhenCalled: Option<ActiveTrip>): (r: SaveReport)
    ensures r == ThrewTypeError <==> err.None? && tripWhenCalled.None?
    ensures err.Some? ==> r == SaveFailed(err.value)
    ensures err.None? && tripWhenCalled.Some? ==> r == Saved(tripWhenCalled.value.id)
  {
    match err
    case Some(message) => SaveFailed(message)
    case None => if tripWhenCalled.Some? then Saved(tripWhenCalled.value.id) else ThrewTypeError
  }

  /** Every successful save of a trip that the handler closes throws instead of logging. */
  lemma SaveCallbackAsWrittenThrows(s: State, now: int, haversineKm: (Coordinate, Coordinate) -> real)
    requires Inv(s) && s.status.ignitionOn
    ensures SaveCallbackAsWritten(None, Toggle(s, now, haversineKm).trip) == ThrewTypeError
  {
  }

  /**
   * With the id captured when the INSERT is issued, the success report of
   * the trip an ignition-off closes names the completed row it stored.
   */
  lemma SaveCallbackReportsSavedTrip(s: State, now: int, haversineKm: (Coordinate, Coordinate) -> real)
    requires Inv(s) && s.status.ignitionOn
    requires s.trip.Some? && s.trip.value.id !in s.trips
    ensures var r := Toggle(s, now, haversineKm);
      var id := s.trip.value.id;
      && id in r.trips && r.trips[id].status == Completed
      && SaveCallback(None, id) == Saved(r.trips[id].id)
  {
    var row := CompletedTrip(s.trip.value, s.status.vehicleId, s.status.location, now, s.samples, haversineKm);
    assert Toggle(s, now, haversineKm).trips == InsertRow(s.trips, row);
  }

  /** The callback with the trip id captured when the INSERT is issued. */
  function SaveCallback(err: Option<string>, savedId: int): (r: SaveReport)
    ensures r != ThrewTypeError
    ensures err.Some? ==> r == SaveFailed(err.value)
    ensures err.None? ==> r == Saved(savedId)
  {
    match err
    case Some(message) => SaveFailed(message)
    case None => Saved(savedId)
  }

  class Engine {
    /** The great-circle distance the server computes; its arithmetic is not modelled. */
    const haversineKm: (Coordinate, Coordinate) -> real

    var currentLatitude: real
    var currentLongitude: real
    var vehicleStatus: VehicleStatus
    var activeTrip: Option<ActiveTrip>
    var tripDataPoints: seq<int>
    /** The `trips` table. */
    var trips: map<int, TripRecord>
    /** Every 'vehicleUpdate' event emitted so far. */
    var outbox: seq<Emit>

    /** The latest time a handler has seen. */
    ghost var clock: int
    ghost var events: seq<Event>

    ghost function Snapshot(): State
      reads this
    {
      State(vehicleStatus, currentLatitude, currentLongitude, activeTrip, tripDataPoints, trips, outbox, clock, events)
    }

    ghost predicate Valid()
      reads this
    {
      Inv(Snapshot())
    }

    /** The module-level state at start-up, over the rows already in the database. */
    constructor (now: int, haversineKm: (Coordinate, Coordinate) -> real, stored: map<int, TripRecord>)
      requires WellKeyed(stored)
      ensures Valid() && Snapshot() == Initial(now, stored) && this.haversineKm == haversineKm
    {
      this.haversineKm := haversineKm;
      currentLatitude := StartLatitude;
      currentLongitude := StartLongitude;
      vehicleStatus := VehicleStatus(VehicleId, Location(StartLatitude, StartLongitude, 0, 0, now), false, false, now);
      activeTrip := None;
      tripDataPoints := [];
      trips := stored;
      outbox := [];
      clock := now;
      events := [];
      InitialInv(now, stored);
    }

    /**
     * `updateVehicleLocation`, the 3-second tick. The random outcomes are
     * parameters whose ranges are exactly what the source's expressions
     * produce (`WalkDeltaCovers`, `SimSpeedCovers`, `SimHeadingCovers`).
     */
    method UpdateVehicleLocation(now: int, dLat: real, dLon: real, speed: int, heading: int)
      requires Valid() && clock <= now
      requires IsWalkStep(dLat) && IsWalkStep(dLon) && IsMovingSpeed(speed) && IsHeading(heading)
      modifies this
      ensures Valid()
      ensures Snapshot() == Tick(old(Snapshot()), now, dLat, dLon, speed, heading)
    {
      ghost var before := Snapshot();
      var isMoving := vehicleStatus.ignitionOn;
      var latitude, longitude := currentLatitude, currentLongitude;
      if isMoving {
        latitude := latitude + dLat;
        longitude := longitude + dLon;
      }
      var currentSpeed := if isMoving then speed else 0;
      var samples := tripDataPoints;
      if isMoving {
        samples := samples + [currentSpeed];
      }
      var status := vehicleStatus.(location := Location(latitude, longitude, currentSpeed, heading, now),
                                   isMoving := isMoving, lastUpdate := now);
      TickKeepsInv(before, now, dLat, dLon, speed, heading);
      currentLatitude, currentLongitude, tripDataPoints, vehicleStatus, outbox, events, clock :=
        latitude, longitude, samples, status, outbox + [Broadcast(status)], events + [Ticked(currentSpeed, isMoving)], now;
    }

    /**
     * POST /toggle-ignition. Turning on opens a trip at the current location
     * and empties the samples; turning off closes the open trip into one
     * completed row. The response reports the new ignition state.
     */
    method ToggleIgnition(now: int) returns (message: string, closed: Option<int>)
      requires Valid() && clock <= now
      modifies this
      ensures Valid()
      ensures Snapshot() == Toggle(old(Snapshot()), now, haversineKm)
      ensures message == IgnitionMessage(vehicleStatus.ignitionOn)
      ensures closed == (if old(vehicleStatus.ignitionOn) && old(activeTrip).Some?
                         then Some(old(activeTrip).value.id) else None)
      ensures closed.Some? ==> closed.value in trips
    {
      ghost var before := Snapshot();
      var status := vehicleStatus.(ignitionOn := !vehicleStatus.ignitionOn);
      var trip, samples, table := activeTrip, tripDataPoints, trips;
      closed := None;
      if status.ignitionOn {
        trip := Some(ActiveTrip(now, now, status.location.latitude, status.location.longitude));
        samples := [];
      } else if trip.Some? {
        table := InsertRow(table, CompletedTrip(trip.value, status.vehicleId, status.location, now, samples, haversineKm));
        closed := Some(trip.value.id);
        trip := None;
      }
      ToggleKeepsInv(before, now, haversineKm);
      vehicleStatus, activeTrip, tripDataPoints, trips, outbox, events, clock :=
        status, trip, samples, table, outbox + [Broadcast(status)], events + [Toggled(status.ignitionOn)], now;
      message := IgnitionMessage(status.ignitionOn);
    }

    /**
     * The callback of the trip-end INSERT of the trip `closed` that
     * `ToggleIgnition` reported: a success names the row now stored under
     * that id, whatever the handler has done to `activeTrip` since.
     */
    method OnTripSaved(err: Option<string>, closed: int) returns (report: SaveReport)
      requires Valid() && closed in trips
      ensures report != ThrewTypeError
      ensures err.None? ==> report == Saved(trips[closed].id)
      ensures err.Some? ==> report == SaveFailed(err.value)
    {
      report := SaveCallback(err, closed);
    }

    /** A socket connects: it alone is sent the current snapshot, once. */
    method OnConnection(socket: nat)
      requires Valid()
      modifies this`outbox
      ensures Valid()
      ensures Snapshot() == old(Snapshot()).(outbox := old(outbox) + [ToSocket(socket, vehicleStatus)])
    {
      outbox := outbox + [ToSocket(socket, vehicleStatus)];
    }

    /** GET /trips. */
    method ListTrips() returns (rows: seq<TripRecord>)
      requires Valid()
      ensures IsCompletedListing(trips, rows)
    {
      rows := SelectCompleted(trips);
    }
  }
}
