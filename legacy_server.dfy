/**
 * The older server variant (main/server/index.js). It keeps only the id of
 * the open trip: turning the ignition on inserts an 'active' row, turning
 * it off updates that row to 'completed'. No metrics are computed and the
 * tick neither redraws the heading nor restamps the location.
 */
module LegacyServer {
  import opened Wrappers
  import opened Telemetry
  import opened TripStore

  /**
   * The module-level state: `vehicleStatus`, `activeTripId`, the `trips`
   * table and the emitted snapshots, plus the latest time a handler has
   * seen and the ids of the rows this server has inserted.
   */
  datatype State = State(
    status: VehicleStatus,
    tripId: Option<int>,
    trips: map<int, TripRecord>,
    outbox: seq<Emit>,
    clock: int,
    insertedIds: set<int>)

  /** What holds between handlers. */
  ghost predicate Inv(s: State)
  {
    && WellKeyed(s.trips)
    // a trip is open exactly while the ignition is on, and its row exists
    && (s.tripId.Some? <==> s.status.ignitionOn)
    && (s.tripId.Some? ==> s.tripId.value in s.trips)
    // a stopped vehicle reports speed 0, a moving one 20 to 80 km/h
    && IsReportedSpeed(s.status.location.speed)
    && (s.status.isMoving <==> s.status.location.speed != 0)
    // of the rows this server inserted, only the open trip's can be active
    && (forall id :: id in s.insertedIds ==>
          id in s.trips && (s.trips[id].status == Active ==> s.tripId == Some(id)))
    && s.status.lastUpdate <= s.clock
    && Chronological(s.outbox, s.status.lastUpdate)
  }

  /** The state at start-up, over the rows already in the database. */
  function Initial(now: int, stored: map<int, TripRecord>): State
  {
    State(VehicleStatus(VehicleId, Location(StartLatitude, StartLongitude, 0, 0, now), false, false, now),
          None, stored, [], now, {})
  }

  lemma InitialInv(now: int, stored: map<int, TripRecord>)
    requires WellKeyed(stored)
    ensures Inv(Initial(now, stored))
    ensures !Initial(now, stored).status.ignitionOn && Initial(now, stored).tripId == None
  {
  }

  /**
   * `updateVehicleLocation` at time `now`: `dLat` and `dLon` are values of
   * `WalkDelta` and `speed` of `SimSpeed`, used only while the ignition is on.
   */
  function Tick(s: State, now: int, dLat: real, dLon: real, speed: int): (r: State)
    ensures r.insertedIds == s.insertedIds && r.clock == now
    ensures r.status.location.latitude == s.status.location.latitude + (if s.status.ignitionOn then dLat else 0.0)
    ensures r.status.location.longitude == s.status.location.longitude + (if s.status.ignitionOn then dLon else 0.0)
  {
    var moving := s.status.ignitionOn;
    var location := s.status.location;
    var stepped := if moving then location.(latitude := location.latitude + dLat,
                                            longitude := location.longitude + dLon)
                   else location;
    var status := s.status.(location := stepped.(speed := if moving then speed else 0),
                            isMoving := moving, lastUpdate := now);
    s.(status := status, outbox := s.outbox + [Broadcast(status)], clock := now)
  }

  /** The row the trip-start INSERT writes: only the start columns, status 'active'. */
  function StartedTrip(id: int, vehicleId: string, at: Location, startTime: int): (r: TripRecord)
    ensures r.id == id && r.vehicleId == vehicleId && r.startTime == startTime && r.status == Active
    ensures r.startLat == at.latitude && r.startLon == at.longitude
    ensures r.endTime.None? && r.endLat.None? && r.endLon.None?
    ensures r.distance.None? && r.duration.None? && r.maxSpeed.None? && r.avgSpeed.None?
  {
    TripRecord(id, vehicleId, startTime, None, at.latitude, at.longitude, None, None, None, None, None, None, Active)
  }

  /** POST /toggle-ignition at time `now`; the new trip's id is `now` too. */
  function Toggle(s: State, now: int): (r: State)
    ensures r.tripId.Some? <==> r.status.ignitionOn
    ensures r.status.ignitionOn ==> r.tripId == Some(now)
    ensures r.trips.Keys == s.trips.Keys + (if r.status.ignitionOn then {now} else {})
  {
    var status := s.status.(ignitionOn := !s.status.ignitionOn);
    var emitted := s.(status := status, outbox := s.outbox + [Broadcast(status)], clock := now);
    if status.ignitionOn then
      emitted.(tripId := Some(now),
               trips := InsertRow(s.trips, StartedTrip(now, status.vehicleId, status.location, now)),
               insertedIds := if now in s.trips then s.insertedIds else s.insertedIds + {now})
    else if s.tripId.Some? then
      emitted.(trips := CompleteRow(s.trips, s.tripId.value, now, status.location.latitude, status.location.longitude),
               tripId := None)
    else emitted
  }

  lemma TickKeepsInv(s: State, now: int, dLat: real, dLon: real, speed: int)
    requires Inv(s) && s.clock <= now && IsMovingSpeed(speed)
    ensures Inv(Tick(s, now, dLat, dLon, speed))
  {
    var r := Tick(s, now, dLat, dLon, speed);
    ChronologicalEmit(s.outbox, s.status.lastUpdate, Broadcast(r.status));
  }

  /** With the ignition off the location is kept and the speed is 0. */
  lemma TickWithIgnitionOff(s: State, now: int, dLat: real, dLon: real, speed: int)
    requires !s.status.ignitionOn
    ensures Tick(s, now, dLat, dLon, speed).status.location == s.status.location.(speed := 0)
  {
  }

  /** With the ignition on the vehicle takes one step at a 20-80 km/h speed. */
  lemma TickWithIgnitionOn(s: State, now: int, dLat: real, dLon: real, speed: int)
    requires s.status.ignitionOn && IsMovingSpeed(speed)
    ensures var location := Tick(s, now, dLat, dLon, speed).status.location;
      && location == s.status.location.(latitude := s.status.location.latitude + dLat,
                                        longitude := s.status.location.longitude + dLon,
                                        speed := speed)
      && 20 <= location.speed <= 80
  {
  }

  /**
   * Every tick sets `isMoving` to the ignition state and refreshes
   * `lastUpdate`; the heading and the location's timestamp are never
   * touched; the trip and the table are left alone; exactly one snapshot,
   * the new status, is emitted.
   */
  lemma TickRefreshesStatus(s: State, now: int, dLat: real, dLon: real, speed: int)
    ensures var r := Tick(s, now, dLat, dLon, speed);
      && r.status.isMoving == r.status.ignitionOn == s.status.ignitionOn
      && r.status.lastUpdate == now && r.status.vehicleId == s.status.vehicleId
      && r.status.location.heading == s.status.location.heading
      && r.status.location.timestamp == s.status.location.timestamp
      && r.tripId == s.tripId && r.trips == s.trips
      && r.outbox == s.outbox + [Broadcast(r.status)]
  {
  }

  lemma ToggleKeepsInv(s: State, now: int)
    requires Inv(s) && s.clock <= now
    ensures Inv(Toggle(s, now))
  {
    var r := Toggle(s, now);
    ChronologicalEmit(s.outbox, s.status.lastUpdate, Broadcast(r.status));
    if !s.status.ignitionOn {
      forall id | id in r.insertedIds
        ensures id in r.trips && (r.trips[id].status == Active ==> r.tripId == Some(id))
      {
        if id != now {
          assert id in s.insertedIds;
        }
      }
    }
  }

  /** A toggle negates `ignitionOn` and nothing else in the status, and emits exactly one snapshot. */
  lemma ToggleFlipsIgnition(s: State, now: int)
    ensures var r := Toggle(s, now);
      && r.status == s.status.(ignitionOn := !s.status.ignitionOn)
      && r.outbox == s.outbox + [Broadcast(r.status)]
  {
  }

  /**
   * Turning on opens trip `now` and inserts one new 'active' row for it,
   * started now at the current location; no other row changes. (If a row
   * with that id exists the INSERT fails and the table is unchanged.)
   */
  lemma ToggleOnInsertsActiveRow(s: State, now: int)
    requires !s.status.ignitionOn
    ensures var r := Toggle(s, now);
      && r.tripId == Some(now)
      && (now !in s.trips ==>
            && r.trips.Keys == s.trips.Keys + {now}
            && r.trips[now].status == Active && r.trips[now].startTime == now
            && r.trips[now].startLat == s.status.location.latitude
            && r.trips[now].startLon == s.status.location.longitude
            && r.trips[now].endTime == None)
      && (now in s.trips ==> r.trips == s.trips)
      && (forall k :: k in s.trips ==> k in r.trips && r.trips[k] == s.trips[k])
  {
  }

  /**
   * Turning off with an open trip stamps its row with the end time and end
   * position and marks it 'completed', then clears the open trip; every
   * other row is unchanged.
   */
  lemma ToggleOffCompletesRow(s: State, now: int)
    requires Inv(s) && s.status.ignitionOn
    ensures var r := Toggle(s, now);
      var id := s.tripId.value;
      && r.tripId == None
      && r.trips.Keys == s.trips.Keys
      && r.trips[id] == s.trips[id].(endTime := Some(now), endLat := Some(s.status.location.latitude),
                                     endLon := Some(s.status.location.longitude), status := Completed)
      && (forall k :: k in s.trips && k != id ==> r.trips[k] == s.trips[k])
  {
  }

  /** In every reachable state an ignition-off finds a trip id to close. */
  lemma ToggleOffFindsTrip(s: State)
    requires Inv(s) && s.status.ignitionOn
    ensures s.tripId.Some? && s.tripId.value in s.trips
  {
  }

  /** Turning off with no open trip leaves the table unchanged. */
  lemma ToggleOffWithoutTrip(s: State, now: int)
    requires s.status.ignitionOn && s.tripId.None?
    ensures Toggle(s, now).trips == s.trips && Toggle(s, now).tripId == None
  {
  }

  /** Of the rows this server inserted, at most one is active at any time. */
  lemma AtMostOneActive(s: State, a: int, b: int)
    requires Inv(s)
    requires a in s.insertedIds && b in s.insertedIds
    requires s.trips[a].status == Active && s.trips[b].status == Active
    ensures a == b
  {
  }

  class Engine {
    var vehicleStatus: VehicleStatus
    var activeTripId: Option<int>
    /** The `trips` table. */
    var trips: map<int, TripRecord>
    /** Every 'vehicleUpdate' event emitted so far. */
    var outbox: seq<Emit>

    /** The latest time a handler has seen. */
    ghost var clock: int
    /** The ids of the rows this server has inserted. */
    ghost var insertedIds: set<int>

    ghost function Snapshot(): State
      reads this
    {
      State(vehicleStatus, activeTripId, trips, outbox, clock, insertedIds)
    }

    ghost predicate Valid()
      reads this
    {
      Inv(Snapshot())
    }

    /** The module-level state at start-up, over the rows already in the database. */
    constructor (now: int, stored: map<int, TripRecord>)
      requires WellKeyed(stored)
      ensures Valid() && Snapshot() == Initial(now, stored)
    {
      vehicleStatus := VehicleStatus(VehicleId, Location(StartLatitude, StartLongitude, 0, 0, now), false, false, now);
      activeTripId := None;
      trips := stored;
      outbox := [];
      clock := now;
      insertedIds := {};
      InitialInv(now, stored);
    }

    /**
     * `updateVehicleLocation`, the 3-second tick. The random outcomes are
     * parameters in exactly the ranges the source's expressions produce.
     */
    method UpdateVehicleLocation(now: int, dLat: real, dLon: real, speed: int)
      requires Valid() && clock <= now
      requires IsWalkStep(dLat) && IsWalkStep(dLon) && IsMovingSpeed(speed)
      modifies this
      ensures Valid()
      ensures Snapshot() == Tick(old(Snapshot()), now, dLat, dLon, speed)
    {
      ghost var before := Snapshot();
      var isMoving := vehicleStatus.ignitionOn;
      var location := vehicleStatus.location;
      if isMoving {
        location := location.(latitude := location.latitude + dLat, longitude := location.longitude + dLon);
      }
      location := location.(speed := if isMoving then speed else 0);
      var status := vehicleStatus.(location := location, isMoving := isMoving, lastUpdate := now);
      TickKeepsInv(before, now, dLat, dLon, speed);
      vehicleStatus, outbox, clock := status, outbox + [Broadcast(status)], now;
    }

    /** POST /toggle-ignition: start or end trip, broadcast, and report the new state. */
    method ToggleIgnition(now: int) returns (message: string)
      requires Valid() && clock <= now
      modifies this
      ensures Valid()
      ensures Snapshot() == Toggle(old(Snapshot()), now)
      ensures message == IgnitionMessage(vehicleStatus.ignitionOn)
    {
      ghost var before := Snapshot();
      var status := vehicleStatus.(ignitionOn := !vehicleStatus.ignitionOn);
      var tripId, table := activeTripId, trips;
      ghost var ids := insertedIds;
      if status.ignitionOn {
        tripId := Some(now);
        ids := if now in table then ids else ids + {now};
        table := InsertRow(table, StartedTrip(now, status.vehicleId, status.location, now));
      } else if tripId.Some? {
        table := CompleteRow(table, tripId.value, now, status.location.latitude, status.location.longitude);
        tripId := None;
      }
      ToggleKeepsInv(before, now);
      vehicleStatus, activeTripId, trips, outbox, clock, insertedIds :=
        status, tripId, table, outbox + [Broadcast(status)], now, ids;
      message := IgnitionMessage(status.ignitionOn);
    }

    /** A socket connects: it alone is sent the current snapshot, once. */
    method OnConnection(socket: nat)
      requires Valid()
      modifies this`outbox
      ensures Valid()
      ensures Snapshot() == old(Snapshot()).(outbox := old(outbox) + [ToSocket(socket, vehicleStatus)])
    {
      outbox := outbox + [ToSocket(socket, vehicleStatus)];
    }

    /** GET /trips. */
    method ListTrips() returns (rows: seq<TripRecord>)
      requires Valid()
      ensures IsCompletedListing(trips, rows)
    {
      rows := SelectCompleted(trips);
    }
  }
}
