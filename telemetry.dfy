/**
 * Value types shared by both server variants: the vehicle snapshot that is
 * broadcast, the simulated random walk, and JavaScript's Math.round.
 */
module Telemetry {

  /** The one vehicle the server simulates. */
  const VehicleId: string := "vehicle-1-demo"

  /** Where the simulated vehicle starts. */
  const StartLatitude: real := 12.9716
  const StartLongitude: real := 77.5946

  datatype Coordinate = Coordinate(latitude: real, longitude: real)

  /** `vehicleStatus.location`; timestamps are milliseconds since the epoch. */
  datatype Location = Location(latitude: real, longitude: real, speed: int, heading: int, timestamp: int)

  /** `vehicleStatus`, the snapshot every 'vehicleUpdate' event carries. */
  datatype VehicleStatus = VehicleStatus(
    vehicleId: string,
    location: Location,
    ignitionOn: bool,
    isMoving: bool,
    lastUpdate: int)

  /** One 'vehicleUpdate' event: to every client, or to one newly connected socket. */
  datatype Emit = Broadcast(status: VehicleStatus) | ToSocket(socket: nat, status: VehicleStatus)

  /** A value Math.random() can return. */
  predicate IsRandomDraw(r: real)
  {
    0.0 <= r < 1.0
  }

  /** Math.round: the nearest integer, halves rounded up. */
  function RoundHalfUp(x: real): (n: int)
    ensures n as real - 0.5 <= x < n as real + 0.5
  {
    (x + 0.5).Floor
  }

  /** A per-axis step of the random walk: at most 0.00025 degrees either way. */
  predicate IsWalkStep(d: real)
  {
    -0.00025 <= d < 0.00025
  }

  /** A speed a moving tick reports, in km/h. */
  predicate IsMovingSpeed(s: int)
  {
    20 <= s <= 80
  }

  /** A heading a tick reports, in degrees. */
  predicate IsHeading(h: int)
  {
    0 <= h <= 360
  }

  /** One axis of the random walk: `(Math.random() - 0.5) * 0.0005` degrees. */
  function WalkDelta(draw: real): (d: real)
    requires IsRandomDraw(draw)
    ensures IsWalkStep(d)
  {
    (draw - 0.5) * 0.0005
  }

  /** Every step the tick accepts is one the random walk can take. */
  lemma WalkDeltaCovers(d: real)
    requires IsWalkStep(d)
    ensures exists draw :: IsRandomDraw(draw) && WalkDelta(draw) == d
  {
    var draw := d / 0.0005 + 0.5;
    assert IsRandomDraw(draw) && WalkDelta(draw) == d;
  }

  /** The speed of a moving tick: `Math.round(Math.random() * 60 + 20)` km/h. */
  function SimSpeed(draw: real): (s: int)
    requires IsRandomDraw(draw)
    ensures IsMovingSpeed(s)
  {
    RoundHalfUp(draw * 60.0 + 20.0)
  }

  /** Every speed from 20 to 80 km/h is one a moving tick can report. */
  lemma SimSpeedCovers(s: int)
    requires IsMovingSpeed(s)
    ensures exists draw :: IsRandomDraw(draw) && SimSpeed(draw) == s
  {
    var draw := if s == 20 then 0.0 else (s as real - 20.25) / 60.0;
    assert draw * 60.0 + 20.0 == if s == 20 then 20.0 else s as real - 0.25;
    assert IsRandomDraw(draw) && SimSpeed(draw) == s;
  }

  /** The heading of a tick: `Math.round(Math.random() * 360)`; 360 itself can occur. */
  function SimHeading(draw: real): (h: int)
    requires IsRandomDraw(draw)
    ensures IsHeading(h)
  {
    RoundHalfUp(draw * 360.0)
  }

  /** Every heading from 0 to 360 degrees is one a tick can report. */
  lemma SimHeadingCovers(h: int)
    requires IsHeading(h)
    ensures exists draw :: IsRandomDraw(draw) && SimHeading(draw) == h
  {
    var draw := if h == 0 then 0.0 else (h as real - 0.25) / 360.0;
    assert draw * 360.0 == if h == 0 then 0.0 else h as real - 0.25;
    assert IsRandomDraw(draw) && SimHeading(draw) == h;
  }

  /** A speed the simulator can report: 0 when stopped, 20 to 80 km/h when moving. */
  predicate IsReportedSpeed(s: int)
  {
    s == 0 || 20 <= s <= 80
  }

  /** Every speed sample of a trip comes from a moving tick. */
  predicate SamplesInRange(samples: seq<int>)
  {
    forall i :: 0 <= i < |samples| ==> 20 <= samples[i] <= 80
  }

  /**
   * Emitted snapshots never go back in time: their `lastUpdate` stamps are
   * non-decreasing and none is later than the current one.
   */
  predicate Chronological(outbox: seq<Emit>, latest: int)
  {
    && (forall i, j :: 0 <= i < j < |outbox| ==> outbox[i].status.lastUpdate <= outbox[j].status.lastUpdate)
    && (forall i :: 0 <= i < |outbox| ==> outbox[i].status.lastUpdate <= latest)
  }

  /** Emitting a snapshot at least as recent as every earlier one keeps the outbox chronological. */
  lemma ChronologicalEmit(outbox: seq<Emit>, latest: int, e: Emit)
    requires Chronological(outbox, latest) && latest <= e.status.lastUpdate
    ensures Chronological(outbox + [e], e.status.lastUpdate)
  {
  }

  /** The body of the /toggle-ignition response. */
  function IgnitionMessage(ignitionOn: bool): (m: string)
    ensures ignitionOn ==> m == "Ignition is now ON"
    ensures !ignitionOn ==> m == "Ignition is now OFF"
  {
    "Ignition is now " + (if ignitionOn then "ON" else "OFF")
  }
}
