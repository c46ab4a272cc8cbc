/**
 * The SQLite `trips` table, as a map from trip id to row. A trip id is the
 * millisecond stamp written after "trip-"; columns a row has no value for
 * (SQL NULL) are None.
 */
module TripStore {
  import opened Wrappers

  datatype Status = Active | Completed

  datatype TripRecord = TripRecord(
    id: int,
    vehicleId: string,
    startTime: int,
    endTime: Option<int>,
    startLat: real,
    startLon: real,
    endLat: Option<real>,
    endLon: Option<real>,
    distance: Option<real>,
    duration: Option<int>,
    maxSpeed: Option<int>,
    avgSpeed: Option<int>,
    status: Status)

  /** `id TEXT PRIMARY KEY`: each row is stored under its own id. */
  predicate WellKeyed(table: map<int, TripRecord>)
  {
    forall k :: k in table ==> table[k].id == k
  }

  /**
   * `INSERT INTO trips ...`: adds the row unless its id is taken, in which
   * case SQLite refuses the statement and the table is left as it was.
   */
  function InsertRow(table: map<int, TripRecord>, row: TripRecord): (r: map<int, TripRecord>)
    ensures row.id in table ==> r == table
    ensures row.id !in table ==> r.Keys == table.Keys + {row.id} && r[row.id] == row
    ensures forall k :: k in table ==> k in r && r[k] == table[k]
    ensures WellKeyed(table) ==> WellKeyed(r)
  {
    if row.id in table then table else table[row.id := row]
  }

  /**
   * `UPDATE trips SET endTime = ?, endLat = ?, endLon = ?, status = 'completed'
   * WHERE id = ?`: closes the row with that id, if there is one.
   */
  function CompleteRow(table: map<int, TripRecord>, id: int, endTime: int, endLat: real, endLon: real)
    : (r: map<int, TripRecord>)
    ensures r.Keys == table.Keys
    ensures id in table ==>
      r[id] == table[id].(endTime := Some(endTime), endLat := Some(endLat), endLon := Some(endLon), status := Completed)
    ensures forall k :: k in table && k != id ==> r[k] == table[k]
    ensures WellKeyed(table) ==> WellKeyed(r)
  {
    if id in table
    then table[id := table[id].(endTime := Some(endTime), endLat := Some(endLat), endLon := Some(endLon), status := Completed)]
    else table
  }

  /** Rows listed newest trip first (`ORDER BY startTime DESC`). */
  predicate NewestFirst(rows: seq<TripRecord>)
  {
    forall i, j :: 0 <= i < j < |rows| ==> rows[i].startTime >= rows[j].startTime
  }

  /** The ids of the completed rows among `ids`. */
  function CompletedAmong(table: map<int, TripRecord>, ids: set<int>): set<int>
  {
    set k | k in ids && k in table && table[k].status == Completed
  }

  /**
   * `SELECT * FROM trips WHERE status = 'completed' ORDER BY startTime DESC`:
   * every completed row and nothing else, newest first, as many rows as
   * there are completed trips (so none is listed twice).
   */
  predicate IsCompletedListing(table: map<int, TripRecord>, rows: seq<TripRecord>)
  {
    && NewestFirst(rows)
    && (forall i :: 0 <= i < |rows| ==>
          rows[i].id in table && table[rows[i].id] == rows[i] && rows[i].status == Completed)
    && (forall k :: k in table && table[k].status == Completed ==> table[k] in rows)
    && |rows| == |CompletedAmong(table, table.Keys)|
  }

  /** A row no older than any of `rows` may head them. */
  lemma PrependNewestFirst(row: TripRecord, rows: seq<TripRecord>)
    requires NewestFirst(rows)
    requires forall x :: x in rows ==> x.startTime <= row.startTime
    ensures NewestFirst([row] + rows)
  {
    forall i, j | 0 <= i < j < |[row] + rows|
      ensures ([row] + rows)[i].startTime >= ([row] + rows)[j].startTime
    {
      if i == 0 {
        assert ([row] + rows)[j] in rows;
      }
    }
  }

  /** Places a row among rows already ordered newest first. */
  function InsertNewestFirst(rows: seq<TripRecord>, row: TripRecord): (r: seq<TripRecord>)
    requires NewestFirst(rows)
    ensures NewestFirst(r)
    ensures |r| == |rows| + 1
    ensures forall x :: x in r <==> x in rows || x == row
    ensures multiset(r) == multiset(rows) + multiset{row}
  {
    if |rows| == 0 || row.startTime >= rows[0].startTime then
      PrependNewestFirst(row, rows);
      [row] + rows
    else
      var tail := InsertNewestFirst(rows[1..], row);
      assert rows == [rows[0]] + rows[1..];
      PrependNewestFirst(rows[0], tail);
      [rows[0]] + tail
  }

  /** A non-empty set of ids has an element to pick. */
  lemma HasElement(ids: set<int>)
    requires ids != {}
    ensures exists k :: k in ids
  {
    if forall k :: k !in ids {
      assert false;
    }
  }

  /** The query behind GET /trips. */
  method SelectCompleted(table: map<int, TripRecord>) returns (rows: seq<TripRecord>)
    requires WellKeyed(table)
    ensures IsCompletedListing(table, rows)
  {
    rows := [];
    var pending := table.Keys;
    while pending != {}
      invariant pending <= table.Keys
      invariant NewestFirst(rows)
      invariant forall i :: 0 <= i < |rows| ==>
        rows[i].id in table.Keys - pending && table[rows[i].id] == rows[i] && rows[i].status == Completed
      invariant forall k :: k in table.Keys - pending && table[k].status == Completed ==> table[k] in rows
      invariant |rows| == |CompletedAmong(table, table.Keys - pending)|
      decreases pending
    {
      HasElement(pending);
      var k :| k in pending;
      ghost var done := table.Keys - pending;
      if table[k].status == Completed {
        var before := rows;
        rows := InsertNewestFirst(rows, table[k]);
        forall i | 0 <= i < |rows|
          ensures rows[i].id in done + {k} && table[rows[i].id] == rows[i] && rows[i].status == Completed
        {
          assert rows[i] in before || rows[i] == table[k];
        }
        assert CompletedAmong(table, done + {k}) == CompletedAmong(table, done) + {k};
      } else {
        assert CompletedAmong(table, done + {k}) == CompletedAmong(table, done);
      }
      pending := pending - {k};
      assert table.Keys - pending == done + {k};
    }
    assert table.Keys - pending == table.Keys;
  }
}
