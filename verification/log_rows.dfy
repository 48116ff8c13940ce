/**
 * The formatted log record the web front end tabulates, and the
 * newest-first ordering `sortByDate` imposes on every group of records
 * (Presentation/webApp/Wrapper/wrapperLogData.js).
 */
module LogRows {
  import opened Wrappers

  /**
   * One formatted log: `date` is the rendered timestamp, `value` the
   * unit-suffixed reading, `station` the owning station's name (absent when
   * the station has no `name` field).
   */
  datatype Row = Row(
    date: string,
    sensorName: string,
    sensorType: Option<string>,
    value: string,
    station: Option<string>,
    timestamp: int)

  /** Every record is at least as recent as every record after it. */
  predicate NewestFirst(rows: seq<Row>) {
    forall i, j :: 0 <= i < j < |rows| ==> rows[i].timestamp >= rows[j].timestamp
  }

  /** No record is newer than `t`. */
  predicate NoNewerThan(rows: seq<Row>, t: int) {
    forall j :: 0 <= j < |rows| ==> rows[j].timestamp <= t
  }

  /**
   * Places `r` before the first record that is not newer than it, so that a
   * record inserted from the left stays ahead of later ones with the same
   * timestamp (the stability ES2019 requires of `Array.prototype.sort`).
   */
  function InsertByDate(r: Row, rows: seq<Row>): (out: seq<Row>)
    ensures multiset(out) == multiset(rows) + multiset{r}
  {
    if |rows| == 0 || r.timestamp >= rows[0].timestamp then [r] + rows
    else
      assert rows == [rows[0]] + rows[1..];
      [rows[0]] + InsertByDate(r, rows[1..])
  }

  lemma {:induction false} InsertKeepsBound(r: Row, rows: seq<Row>, t: int)
    requires NoNewerThan(rows, t) && r.timestamp <= t
    ensures NoNewerThan(InsertByDate(r, rows), t)
  {
    if |rows| > 0 && r.timestamp < rows[0].timestamp {
      InsertKeepsBound(r, rows[1..], t);
    }
  }

  lemma {:induction false} InsertKeepsOrder(r: Row, rows: seq<Row>)
    requires NewestFirst(rows)
    ensures NewestFirst(InsertByDate(r, rows))
  {
    if |rows| == 0 || r.timestamp >= rows[0].timestamp {
      var out := [r] + rows;
      assert forall j :: 0 < j < |out| ==> out[j] == rows[j - 1];
    } else {
      var tail := rows[1..];
      InsertKeepsOrder(r, tail);
      InsertKeepsBound(r, tail, rows[0].timestamp);
      var rest := InsertByDate(r, tail);
      var out := [rows[0]] + rest;
      assert forall j :: 0 < j < |out| ==> out[j] == rest[j - 1];
    }
  }

  /**
   * `rows.sort(sortByDate)` with comparator `b.timestamp - a.timestamp`:
   * a stable sort, newest first, that only rearranges the records.
   */
  function SortByDate(rows: seq<Row>): (out: seq<Row>)
    ensures NewestFirst(out)
    ensures multiset(out) == multiset(rows)
  {
    if |rows| == 0 then [] else
      assert rows == [rows[0]] + rows[1..];
      var rest := SortByDate(rows[1..]);
      InsertKeepsOrder(rows[0], rest);
      InsertByDate(rows[0], rest)
  }
}
