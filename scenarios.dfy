/**
 * Worked runs of both engines: a short trip of three moving ticks, the
 * `isMoving` lag after a toggle, and a client joining in the middle of a
 * trip. Each run starts from an empty table at time 0.
 */
module Scenarios {
  import opened Wrappers
  import opened Telemetry
  import opened TripMetrics
  import opened TripStore
  import MetricsServer
  import LegacyServer

  /** One walk step per axis of each tick: three of them move the vehicle 0.0004 degrees. */
  const Step: real := 0.0004 / 3.0

  /** The row the short trip leaves in the table of the fuller variant. */
  function ShortTripRow(haversineKm: (Coordinate, Coordinate) -> real): TripRecord
  {
    TripRecord(0, VehicleId, 0, Some(9000), 12.9716, 77.5946, Some(12.9720), Some(77.5950),
               Some(haversineKm(Coordinate(12.9716, 77.5946), Coordinate(12.9720, 77.5950))),
               Some(0), Some(60), Some(45), Completed)
  }

  /** The speed samples of the short trip give a maximum of 60 and a rounded mean of 45. */
  lemma ShortTripSpeeds()
    ensures MaxSpeed([30, 45, 60]) == 60 && AvgSpeed([30, 45, 60]) == 45
  {
    assert [30, 45, 60][..2] == [30, 45];
    assert [30, 45][..1] == [30];
    assert [30][..0] == [];
  }

  /**
   * Ignition on at t=0, three ticks at 3, 6 and 9 s reporting 30, 45 and
   * 60 km/h, ignition off at 9 s: one completed row with duration 0
   * minutes (9 s rounds down), max 60, average 45, and the distance between
   * the start and end positions.
   */
  lemma ShortTrip(haversineKm: (Coordinate, Coordinate) -> real)
    ensures var s0 := MetricsServer.Initial(0, map[]);
      var s1 := MetricsServer.Toggle(s0, 0, haversineKm);
      var s2 := MetricsServer.Tick(s1, 3000, Step, Step, 30, 10);
      var s3 := MetricsServer.Tick(s2, 6000, Step, Step, 45, 20);
      var s4 := MetricsServer.Tick(s3, 9000, Step, Step, 60, 30);
      var s5 := MetricsServer.Toggle(s4, 9000, haversineKm);
      && s4.samples == [30, 45, 60]
      && s5.trips == map[0 := ShortTripRow(haversineKm)]
      && s5.trip == None && !s5.status.ignitionOn
      && |s5.outbox| == 5
  {
    var s0 := MetricsServer.Initial(0, map[]);
    var s1 := MetricsServer.Toggle(s0, 0, haversineKm);
    var s2 := MetricsServer.Tick(s1, 3000, Step, Step, 30, 10);
    var s3 := MetricsServer.Tick(s2, 6000, Step, Step, 45, 20);
    var s4 := MetricsServer.Tick(s3, 9000, Step, Step, 60, 30);
    MetricsServer.ToggleOnStartsTrip(s0, 0, haversineKm);
    assert s1.trip == Some(MetricsServer.ActiveTrip(0, 0, 12.9716, 77.5946)) && s1.samples == [];
    assert s4.trip == s1.trip && s4.trips == map[] && s4.status.ignitionOn;
    assert s4.samples == [30, 45, 60];
    assert s4.status.location.latitude == 12.9720 && s4.status.location.longitude == 77.5950;
    assert s4.status.vehicleId == VehicleId;
    var s5 := MetricsServer.Toggle(s4, 9000, haversineKm);
    MetricsServer.ToggleOffEndsTrip(s4, 9000, haversineKm);
    ShortTripSpeeds();
    assert DurationMinutes(0, 9000) == 0;
    var row := MetricsServer.CompletedTrip(s4.trip.value, VehicleId, s4.status.location, 9000, [30, 45, 60], haversineKm);
    assert row == ShortTripRow(haversineKm);
    assert s5.trips == InsertRow(map[], row);
  }

  /**
   * Right after the ignition is turned on the published status still says
   * the vehicle is not moving; the next tick corrects it.
   */
  lemma MovingLagsIgnition(haversineKm: (Coordinate, Coordinate) -> real)
    ensures var s1 := MetricsServer.Toggle(MetricsServer.Initial(0, map[]), 0, haversineKm);
      var s2 := MetricsServer.Tick(s1, 3000, Step, Step, 30, 10);
      && s1.status.ignitionOn && !s1.status.isMoving
      && s2.status.ignitionOn && s2.status.isMoving
  {
  }

  /** A completed row alone in the table is the whole listing. */
  lemma SingleRowListing(row: TripRecord, rows: seq<TripRecord>)
    requires row.status == Completed
    requires IsCompletedListing(map[row.id := row], rows)
    ensures rows == [row]
  {
    var table := map[row.id := row];
    assert CompletedAmong(table, table.Keys) == {row.id};
    assert |rows| == 1;
    assert rows[0].id in table;
  }

  /** The short trip driven through the fuller engine, then GET /trips. */
  method ShortTripListing(haversineKm: (Coordinate, Coordinate) -> real) returns (rows: seq<TripRecord>)
    ensures rows == [ShortTripRow(haversineKm)]
  {
    var e := new MetricsServer.Engine(0, haversineKm, map[]);
    var _, _ := e.ToggleIgnition(0);
    e.UpdateVehicleLocation(3000, Step, Step, 30, 10);
    e.UpdateVehicleLocation(6000, Step, Step, 45, 20);
    e.UpdateVehicleLocation(9000, Step, Step, 60, 30);
    var _, _ := e.ToggleIgnition(9000);
    ShortTrip(haversineKm);
    rows := e.ListTrips();
    SingleRowListing(ShortTripRow(haversineKm), rows);
  }

  /**
   * A client that connects during a trip is sent, once and only itself,
   * the status of the latest tick.
   */
  method JoinMidTrip(haversineKm: (Coordinate, Coordinate) -> real, socket: nat) returns (sent: Emit)
    ensures sent.ToSocket? && sent.socket == socket
    ensures sent.status == VehicleStatus(VehicleId, Location(12.9716 + Step, 77.5946 + Step, 30, 10, 3000),
                                         true, true, 3000)
  {
    var e := new MetricsServer.Engine(0, haversineKm, map[]);
    var _, _ := e.ToggleIgnition(0);
    e.UpdateVehicleLocation(3000, Step, Step, 30, 10);
    e.OnConnection(socket);
    sent := e.outbox[|e.outbox| - 1];
  }

  /**
   * The same trip on the older engine: the row is inserted 'active' at
   * start and updated to 'completed' with the end position, and no metric
   * columns are ever written.
   */
  lemma LegacyShortTrip()
    ensures var s0 := LegacyServer.Initial(0, map[]);
      var s1 := LegacyServer.Toggle(s0, 0);
      var s2 := LegacyServer.Tick(s1, 3000, Step, Step, 30);
      var s3 := LegacyServer.Tick(s2, 6000, Step, Step, 45);
      var s4 := LegacyServer.Tick(s3, 9000, Step, Step, 60);
      var s5 := LegacyServer.Toggle(s4, 9000);
      && s1.trips == map[0 := TripRecord(0, VehicleId, 0, None, 12.9716, 77.5946, None, None,
                                         None, None, None, None, Active)]
      && s5.trips == map[0 := TripRecord(0, VehicleId, 0, Some(9000), 12.9716, 77.5946, Some(12.9720), Some(77.5950),
                                         None, None, None, None, Completed)]
      && s5.tripId == None
  {
    var s0 := LegacyServer.Initial(0, map[]);
    var s1 := LegacyServer.Toggle(s0, 0);
    var s2 := LegacyServer.Tick(s1, 3000, Step, Step, 30);
    var s3 := LegacyServer.Tick(s2, 6000, Step, Step, 45);
    var s4 := LegacyServer.Tick(s3, 9000, Step, Step, 60);
    assert s4.status.location.latitude == 12.9720 && s4.status.location.longitude == 77.5950;
  }
}
