/**
 * The web front end's log wrapper (Presentation/webApp/Wrapper/wrapperLogData.js):
 * a snapshot of stations, their sensors and their logs is regrouped into a
 * view keyed by station name, holding the logs of the last day, and a view
 * keyed by sensor type, holding the logs of the last hour. Every group holds
 * formatted records sorted newest first.
 *
 * The clock, the date library's day and hour differences, the date text and
 * `Number.prototype.toString` are parameters (a `Context`). A JSON object is
 * a sequence of its values in `for...in` order.
 */
module LogView {
  import opened Wrappers
  import opened LogRows

  /** One stored reading. */
  datatype Log = Log(timestamp: int, sensorName: string, sensorType: Option<string>, value: real)

  /**
   * A sensor node: `kind` is its `type` field, `sensorType` the separate
   * `sensorType` field the sensor view tests for, `logs` its `logs` object
   * (empty when absent).
   */
  datatype Sensor = Sensor(kind: Option<string>, sensorType: Option<string>, logs: seq<Log>)

  /** A station node: its `name` field and its `sensors` object (empty when absent). */
  datatype Station = Station(name: Option<string>, sensors: seq<Sensor>)

  /** `rawData.data.data`: absent (null or undefined), or the stations object. */
  datatype StationsField = Absent | Stations(entries: seq<Station>)

  /** `rawData.data`, the body of the backend's reply. */
  datatype Body = Body(data: StationsField)

  /**
   * The value handed to the wrapper: null or undefined, or an object with
   * `ownKeys` own keys whose `data` field is `body` (None when that field is
   * null or undefined).
   */
  datatype RawData = Nullish | Object(ownKeys: nat, body: Option<Body>)

  /** The only failure: reading a property of `undefined` raises a TypeError. */
  datatype ViewError = TypeError

  /**
   * What the wrapper reads from its surroundings: the date library's whole
   * days and whole hours between a log's timestamp and now, the date text
   * written into each record, and the text of a number.
   */
  datatype Context = Context(
    dayDiff: int -> int,
    hourDiff: int -> int,
    dateText: int -> string,
    render: real -> string)

  /** A grouped view: group key to its records. */
  type View = map<string, seq<Row>>

  /** `isJSONObjectEmpty`: null or undefined, or an object without own keys. */
  predicate IsJsonObjectEmpty(present: bool, ownKeys: nat) {
    !present || ownKeys == 0
  }

  /** The property key JavaScript uses for a field value: `undefined` becomes the text "undefined". */
  function PropertyKey(field: Option<string>): string {
    field.GetOr("undefined")
  }

  // ---------------------------------------------------------------------
  // formatValue

  /** The first five characters of a text (`slice(0, 5)`). */
  function FirstFive(s: string): (p: string)
    ensures |p| == if |s| < 5 then |s| else 5
    ensures p <= s
  {
    if |s| <= 5 then s else s[..5]
  }

  /** The unit `formatValue` appends for a sensor type. */
  function Unit(dataType: Option<string>): string {
    if dataType == Some("temperature") then "C"
    else if dataType == Some("humidity") then "%"
    else if dataType == Some("windDirection") then "degrees"
    else if dataType == Some("windIntensity") then "m/s"
    else "mm/h"
  }

  /** The units a formatted value can end with. */
  const Units: seq<string> := ["C", "%", "degrees", "m/s", "mm/h"]

  /** `formatValue`: the first five characters of the value's text, a space, and the unit. */
  function FormatValue(value: real, dataType: Option<string>, render: real -> string): (s: string)
    ensures |s| <= 5 + 1 + 7
    ensures Unit(dataType) in Units
    ensures EndsWithUnit(s, Unit(dataType)) && s[..|s| - |Unit(dataType)| - 1] == FirstFive(render(value))
  {
    FirstFive(render(value)) + " " + Unit(dataType)
  }

  /** `s` ends with a space and `unit`, after at most five characters. */
  predicate EndsWithUnit(s: string, unit: string) {
    |unit| + 1 <= |s| <= |unit| + 6 && s[|s| - |unit| - 1..] == " " + unit
  }

  /**
   * Splits a displayed value into the value text and the unit, recognising
   * the unit from the end.
   */
  function SplitFormatted(s: string): Option<(string, string)> {
    if EndsWithUnit(s, "C") then Some((s[..|s| - 2], "C"))
    else if EndsWithUnit(s, "%") then Some((s[..|s| - 2], "%"))
    else if EndsWithUnit(s, "degrees") then Some((s[..|s| - 8], "degrees"))
    else if EndsWithUnit(s, "m/s") then Some((s[..|s| - 4], "m/s"))
    else if EndsWithUnit(s, "mm/h") then Some((s[..|s| - 5], "mm/h"))
    else None
  }

  /**
   * No unit is a suffix of a later one in `Units`: the last characters, and
   * for "degrees" against "m/s" the last but one, tell them apart. One lemma
   * per unit keeps each proof small.
   */
  lemma SplitUnit(p: string, u: string)
    requires |p| <= 5 && u in Units
    ensures SplitFormatted(p + " " + u) == Some((p, u))
  {
    if u == "C" { SplitCelsius(p, u); }
    else if u == "%" { SplitPercent(p, u); }
    else if u == "degrees" { SplitDegrees(p, u); }
    else if u == "m/s" { SplitSpeed(p, u); }
    else { SplitRain(p, u); }
  }

  lemma SplitCelsius(p: string, u: string)
    requires |p| <= 5 && u == "C"
    ensures SplitFormatted(p + " " + u) == Some((p, u))
  {
    var s := p + " " + u;
    assert s[..|p|] == p;
    assert s[|s| - 2..] == " C";
  }

  lemma SplitPercent(p: string, u: string)
    requires |p| <= 5 && u == "%"
    ensures SplitFormatted(p + " " + u) == Some((p, u))
  {
    var s := p + " " + u;
    assert s[..|p|] == p;
    assert s[|s| - 2..] == " %";
    assert s[|s| - 2..][1] == '%';
  }

  lemma SplitDegrees(p: string, u: string)
    requires |p| <= 5 && u == "degrees"
    ensures SplitFormatted(p + " " + u) == Some((p, u))
  {
    var s := p + " " + u;
    var n := |s|;
    assert s[..|p|] == p;
    assert s[n - 8..] == " degrees";
    assert s[n - 2..][1] == 's';
    assert s[n - 2..] != " C" && s[n - 2..] != " %";
  }

  lemma SplitSpeed(p: string, u: string)
    requires |p| <= 5 && u == "m/s"
    ensures SplitFormatted(p + " " + u) == Some((p, u))
  {
    var s := p + " " + u;
    var n := |s|;
    assert s[..|p|] == p;
    assert s[n - 4..] == " m/s";
    assert s[n - 2..][0] == '/';
    assert s[n - 2..] != " C" && s[n - 2..] != " %";
    assert n < 8 || s[n - 8..][6] == '/';
    assert !EndsWithUnit(s, "degrees");
  }

  lemma SplitRain(p: string, u: string)
    requires |p| <= 5 && u == "mm/h"
    ensures SplitFormatted(p + " " + u) == Some((p, u))
  {
    var s := p + " " + u;
    var n := |s|;
    assert s[..|p|] == p;
    assert s[n - 5..] == " mm/h";
    assert s[n - 2..][1] == 'h';
    assert s[n - 2..] != " C" && s[n - 2..] != " %";
    assert n < 8 || s[n - 8..][7] == 'h';
    assert !EndsWithUnit(s, "degrees");
    assert s[n - 4..][3] == 'h';
    assert !EndsWithUnit(s, "m/s");
  }

  /**
   * A displayed value gives back exactly the five-character prefix of the
   * number's text and the unit of the sensor type: no two different
   * prefixes or units look alike.
   */
  lemma FormatValueSplits(value: real, dataType: Option<string>, render: real -> string)
    ensures SplitFormatted(FormatValue(value, dataType, render))
            == Some((FirstFive(render(value)), Unit(dataType)))
  {
    SplitUnit(FirstFive(render(value)), Unit(dataType));
  }

  /**
   * The truncation quirk: readings whose texts share their first five
   * characters are displayed identically.
   */
  lemma FormatValueTruncates(v1: real, v2: real, dataType: Option<string>, render: real -> string)
    requires |render(v1)| >= 5 && |render(v2)| >= 5
    requires render(v1)[..5] == render(v2)[..5]
    ensures FormatValue(v1, dataType, render) == FormatValue(v2, dataType, render)
  {
  }

  /** A negative reading loses a digit to its sign: "-23.456789" shows as "-23.4 C". */
  lemma NegativeTemperatureShown(render: real -> string)
    requires render(-23.456789) == "-23.456789"
    ensures FormatValue(-23.456789, Some("temperature"), render) == "-23.4 C"
  {
  }

  // ---------------------------------------------------------------------
  // Records and time windows

  /** The record built for one log of one station. */
  function RowOf(st: Station, log: Log, ctx: Context): Row {
    Row(ctx.dateText(log.timestamp), log.sensorName, log.sensorType,
        FormatValue(log.value, log.sensorType, ctx.render), st.name, log.timestamp)
  }

  /** The positions of the logs whose difference from now, under `window`, is 0. */
  function InWindow(logs: seq<Log>, window: int -> int): set<int> {
    set i | 0 <= i < |logs| && window(logs[i].timestamp) == 0
  }

  /** Shifting every position by one keeps the number of positions. */
  lemma {:induction false} ShiftedCount(positions: set<int>)
    ensures |set i | i in positions :: i + 1| == |positions|
    decreases |positions|
  {
    if positions != {} {
      if forall y :: y !in positions { assert false; }
      var x :| x in positions;
      var rest := positions - {x};
      ShiftedCount(rest);
      var shifted, shiftedRest := set i | i in positions :: i + 1, set i | i in rest :: i + 1;
      assert shifted == shiftedRest + {x + 1} by {
        forall j | j in shifted ensures j in shiftedRest + {x + 1} {
          var i :| i in positions && j == i + 1;
          if i != x { assert i in rest; }
        }
      }
      assert x + 1 !in shiftedRest;
    }
  }

  /** The positions in window of `logs` are those of its tail shifted by one, plus 0 when its head is in window. */
  lemma InWindowCount(logs: seq<Log>, window: int -> int)
    requires |logs| > 0
    ensures |InWindow(logs, window)| == |InWindow(logs[1..], window)| + (if window(logs[0].timestamp) == 0 then 1 else 0)
  {
    var tail := InWindow(logs[1..], window);
    var shifted := set i | i in tail :: i + 1;
    ShiftedCount(tail);
    assert InWindow(logs, window) == shifted + (if window(logs[0].timestamp) == 0 then {0} else {}) by {
      forall i | i in InWindow(logs, window) && i > 0 ensures i in shifted {
        assert logs[1..][i - 1] == logs[i];
        assert i - 1 in tail;
      }
    }
    assert 0 !in shifted;
  }

  /**
   * The records of the logs whose difference from now, under `window`, is 0,
   * in log order.
   */
  function WindowRows(st: Station, logs: seq<Log>, window: int -> int, ctx: Context): (rows: seq<Row>)
    ensures forall r :: r in rows ==> window(r.timestamp) == 0 && r.station == st.name
    ensures forall log :: log in logs && window(log.timestamp) == 0 ==> RowOf(st, log, ctx) in rows
    ensures forall r :: r in rows ==>
              exists log :: log in logs && window(log.timestamp) == 0 && r == RowOf(st, log, ctx)
    ensures |rows| <= |logs|
  {
    if |logs| == 0 then []
    else
      var rest := WindowRows(st, logs[1..], window, ctx);
      assert forall log :: log in logs ==> log == logs[0] || log in logs[1..];
      if window(logs[0].timestamp) == 0 then [RowOf(st, logs[0], ctx)] + rest else rest
  }

  /** There is exactly one record per log in the window, so none is listed twice. */
  lemma {:induction false} WindowRowsCount(st: Station, logs: seq<Log>, window: int -> int, ctx: Context)
    ensures |WindowRows(st, logs, window, ctx)| == |InWindow(logs, window)|
  {
    if |logs| == 0 {
      assert InWindow(logs, window) == {};
    } else {
      WindowRowsCount(st, logs[1..], window, ctx);
      InWindowCount(logs, window);
    }
  }

  // ---------------------------------------------------------------------
  // getDataOrderedByStation

  /**
   * The sensor loop of one station: each sensor's records of the day are
   * pushed onto the group, which is then sorted.
   */
  function SensorPasses(group: seq<Row>, st: Station, sensors: seq<Sensor>, ctx: Context): seq<Row>
  {
    if |sensors| == 0 then group
    else
      var before := SensorPasses(group, st, sensors[..|sensors| - 1], ctx);
      SortByDate(before + WindowRows(st, sensors[|sensors| - 1].logs, ctx.dayDiff, ctx))
  }

  /** The records of the day of every listed sensor of a station, unsorted. */
  function DayRows(st: Station, sensors: seq<Sensor>, ctx: Context): seq<Row> {
    if |sensors| == 0 then []
    else DayRows(st, sensors[..|sensors| - 1], ctx) + WindowRows(st, sensors[|sensors| - 1].logs, ctx.dayDiff, ctx)
  }

  lemma {:induction false} SensorPassesCollects(group: seq<Row>, st: Station, sensors: seq<Sensor>, ctx: Context)
    ensures multiset(SensorPasses(group, st, sensors, ctx)) == multiset(group) + multiset(DayRows(st, sensors, ctx))
    ensures NewestFirst(group) ==> NewestFirst(SensorPasses(group, st, sensors, ctx))
  {
    if |sensors| > 0 {
      SensorPassesCollects(group, st, sensors[..|sensors| - 1], ctx);
    }
  }

  /** The station loop over the first stations, from an empty response. */
  function StationView(stations: seq<Station>, ctx: Context): View {
    if |stations| == 0 then map[]
    else
      var acc := StationView(stations[..|stations| - 1], ctx);
      var st := stations[|stations| - 1];
      var key := PropertyKey(st.name);
      var group := if key in acc then acc[key] else [];
      acc[key := SensorPasses(group, st, st.sensors, ctx)]
  }

  /** Reference: every record of the day of every station whose name gives `key`, in visiting order. */
  function StationRows(stations: seq<Station>, key: string, ctx: Context): seq<Row> {
    if |stations| == 0 then []
    else
      var st := stations[|stations| - 1];
      StationRows(stations[..|stations| - 1], key, ctx)
        + (if PropertyKey(st.name) == key then DayRows(st, st.sensors, ctx) else [])
  }

  /** The station names that occur as keys. */
  function StationKeys(stations: seq<Station>): set<string> {
    set i | 0 <= i < |stations| :: PropertyKey(stations[i].name)
  }

  /**
   * The station view has one key per station name, even for stations none
   * of whose logs qualify, and each group is newest first and holds exactly
   * the records of the day of the stations with that name.
   */
  lemma {:induction false} StationViewKeys(stations: seq<Station>, ctx: Context)
    ensures StationView(stations, ctx).Keys == StationKeys(stations)
  {
    if |stations| > 0 {
      var prefix := stations[..|stations| - 1];
      StationViewKeys(prefix, ctx);
      assert forall i :: 0 <= i < |prefix| ==> prefix[i] == stations[i];
    }
  }

  lemma {:induction false} StationViewGroups(stations: seq<Station>, ctx: Context)
    ensures StationView(stations, ctx).Keys == StationKeys(stations)
    ensures forall key :: key in StationView(stations, ctx) ==>
              NewestFirst(StationView(stations, ctx)[key])
              && multiset(StationView(stations, ctx)[key]) == multiset(StationRows(stations, key, ctx))
  {
    StationViewKeys(stations, ctx);
    if |stations| > 0 {
      var prefix := stations[..|stations| - 1];
      var st := stations[|stations| - 1];
      StationViewGroups(prefix, ctx);
      var acc := StationView(prefix, ctx);
      var key := PropertyKey(st.name);
      var group := if key in acc then acc[key] else [];
      SensorPassesCollects(group, st, st.sensors, ctx);
      var view := StationView(stations, ctx);
      assert view == acc[key := SensorPasses(group, st, st.sensors, ctx)];
      if key !in acc {
        StationViewKeys(prefix, ctx);
        StationRowsOfAbsentKey(prefix, key, ctx);
      }
      forall k | k in view
        ensures NewestFirst(view[k]) && multiset(view[k]) == multiset(StationRows(stations, k, ctx))
      {
        if k == key {
          assert StationRows(stations, k, ctx) == StationRows(prefix, k, ctx) + DayRows(st, st.sensors, ctx);
        } else {
          assert view[k] == acc[k];
          assert StationRows(stations, k, ctx) == StationRows(prefix, k, ctx) + [];
        }
      }
    }
  }

  lemma {:induction false} StationRowsOfAbsentKey(stations: seq<Station>, key: string, ctx: Context)
    requires key !in StationKeys(stations)
    ensures StationRows(stations, key, ctx) == []
  {
    if |stations| > 0 {
      var prefix := stations[..|stations| - 1];
      assert StationKeys(prefix) <= StationKeys(stations) by {
        assert forall i :: 0 <= i < |prefix| ==> prefix[i] == stations[i];
      }
      StationRowsOfAbsentKey(prefix, key, ctx);
    }
  }

  lemma {:induction false} DayRowsQualify(st: Station, sensors: seq<Sensor>, ctx: Context)
    ensures forall r :: r in DayRows(st, sensors, ctx) ==> ctx.dayDiff(r.timestamp) == 0 && r.station == st.name
  {
    if |sensors| > 0 {
      DayRowsQualify(st, sensors[..|sensors| - 1], ctx);
    }
  }

  lemma {:induction false} StationRowsQualify(stations: seq<Station>, key: string, ctx: Context)
    ensures forall r :: r in StationRows(stations, key, ctx) ==>
              ctx.dayDiff(r.timestamp) == 0 && PropertyKey(r.station) == key
  {
    if |stations| > 0 {
      var st := stations[|stations| - 1];
      StationRowsQualify(stations[..|stations| - 1], key, ctx);
      DayRowsQualify(st, st.sensors, ctx);
    }
  }

  /**
   * Soundness of the station view: a record in the group of `key` comes
   * from the last day and from a station whose name gives `key`.
   */
  lemma StationViewRowsQualify(stations: seq<Station>, ctx: Context, key: string, r: Row)
    requires key in StationView(stations, ctx) && r in StationView(stations, ctx)[key]
    ensures ctx.dayDiff(r.timestamp) == 0 && PropertyKey(r.station) == key
  {
    StationViewGroups(stations, ctx);
    assert r in multiset(StationRows(stations, key, ctx));
    StationRowsQualify(stations, key, ctx);
  }

  lemma {:induction false} DayRowsListLog(st: Station, sensors: seq<Sensor>, ctx: Context, j: nat, log: Log)
    requires j < |sensors| && log in sensors[j].logs && ctx.dayDiff(log.timestamp) == 0
    ensures RowOf(st, log, ctx) in DayRows(st, sensors, ctx)
  {
    if j < |sensors| - 1 {
      DayRowsListLog(st, sensors[..|sensors| - 1], ctx, j, log);
    }
  }

  lemma {:induction false} StationRowsListLog(stations: seq<Station>, ctx: Context, i: nat, j: nat, log: Log)
    requires i < |stations| && j < |stations[i].sensors| && log in stations[i].sensors[j].logs
    requires ctx.dayDiff(log.timestamp) == 0
    ensures RowOf(stations[i], log, ctx) in StationRows(stations, PropertyKey(stations[i].name), ctx)
  {
    if i < |stations| - 1 {
      StationRowsListLog(stations[..|stations| - 1], ctx, i, j, log);
    } else {
      DayRowsListLog(stations[i], stations[i].sensors, ctx, j, log);
    }
  }

  /**
   * Completeness of the station view: every log of the last day appears,
   * formatted, in the group of its station's name.
   */
  lemma StationViewListsLog(stations: seq<Station>, ctx: Context, i: nat, j: nat, log: Log)
    requires i < |stations| && j < |stations[i].sensors| && log in stations[i].sensors[j].logs
    requires ctx.dayDiff(log.timestamp) == 0
    ensures PropertyKey(stations[i].name) in StationView(stations, ctx)
    ensures RowOf(stations[i], log, ctx) in StationView(stations, ctx)[PropertyKey(stations[i].name)]
  {
    var key := PropertyKey(stations[i].name);
    StationViewGroups(stations, ctx);
    assert key in StationKeys(stations);
    StationRowsListLog(stations, ctx, i, j, log);
    assert RowOf(stations[i], log, ctx) in multiset(StationRows(stations, key, ctx));
  }

  // ---------------------------------------------------------------------
  // getDataOrderedBySensor

  /** One iteration of the sensor loop: a sensor together with the station that owns it. */
  datatype Visit = Visit(station: Station, sensor: Sensor)

  /** The sensors of the listed stations in visiting order. */
  function Visits(stations: seq<Station>): seq<Visit> {
    if |stations| == 0 then []
    else
      var st := stations[|stations| - 1];
      Visits(stations[..|stations| - 1]) + seq(|st.sensors|, j requires 0 <= j < |st.sensors| => Visit(st, st.sensors[j]))
  }

  /** The group a sensor's records go to: its `type` field as a property key. */
  function TypeKey(v: Visit): string {
    PropertyKey(v.sensor.kind)
  }

  /** A sensor without a `sensorType` field (re)creates its group as `[]`. */
  predicate Resets(v: Visit) {
    v.sensor.sensorType.None?
  }

  /** The records of the hour of one visited sensor. */
  function HourRows(v: Visit, ctx: Context): seq<Row> {
    WindowRows(v.station, v.sensor.logs, ctx.hourDiff, ctx)
  }

  /**
   * One iteration: reset the group when the sensor lacks `sensorType`; then
   * push and sort, which fails when the group was never created.
   */
  function SensorStep(acc: View, v: Visit, ctx: Context): Result<View, ViewError> {
    var key := TypeKey(v);
    var acc' := if Resets(v) then acc[key := []] else acc;
    if key !in acc' then Failure(TypeError)
    else Success(acc'[key := SortByDate(acc'[key] + HourRows(v, ctx))])
  }

  /** The sensor loop over the given visits, from an empty response. */
  function SensorView(visits: seq<Visit>, ctx: Context): Result<View, ViewError> {
    if |visits| == 0 then Success(map[])
    else
      match SensorView(visits[..|visits| - 1], ctx)
      case Failure(e) => Failure(e)
      case Success(acc) => SensorStep(acc, visits[|visits| - 1], ctx)
  }

  /** The groups created by the given visits. */
  function ResetKeys(visits: seq<Visit>): set<string> {
    set i | 0 <= i < |visits| && Resets(visits[i]) :: TypeKey(visits[i])
  }

  /** Every sensor that has a `sensorType` field finds its group already created. */
  predicate GroupsCreatedInTime(visits: seq<Visit>) {
    forall i :: 0 <= i < |visits| ==> Resets(visits[i]) || TypeKey(visits[i]) in ResetKeys(visits[..i])
  }

  /**
   * Reference: the records of the hour of the sensors of type `key` from
   * the last reset of that group on; earlier records are discarded.
   */
  function RowsSinceReset(visits: seq<Visit>, key: string, ctx: Context): seq<Row> {
    if |visits| == 0 then []
    else
      var v := visits[|visits| - 1];
      var earlier := RowsSinceReset(visits[..|visits| - 1], key, ctx);
      if TypeKey(v) != key then earlier
      else if Resets(v) then HourRows(v, ctx)
      else earlier + HourRows(v, ctx)
  }

  lemma ResetKeysOfPrefix(visits: seq<Visit>)
    requires |visits| > 0
    ensures var v := visits[|visits| - 1];
            ResetKeys(visits) == ResetKeys(visits[..|visits| - 1]) + (if Resets(v) then {TypeKey(v)} else {})
  {
    var prefix := visits[..|visits| - 1];
    assert forall i :: 0 <= i < |prefix| ==> prefix[i] == visits[i];
  }

  lemma GroupsCreatedOfPrefix(visits: seq<Visit>)
    requires |visits| > 0
    ensures var v := visits[|visits| - 1];
            GroupsCreatedInTime(visits)
            <==> GroupsCreatedInTime(visits[..|visits| - 1]) && (Resets(v) || TypeKey(v) in ResetKeys(visits[..|visits| - 1]))
  {
    var prefix := visits[..|visits| - 1];
    assert forall i :: 0 <= i < |prefix| ==> prefix[..i] == visits[..i];
    assert forall i :: 0 <= i < |prefix| ==> prefix[i] == visits[i];
  }

  /**
   * The sensor view succeeds exactly when every sensor with a `sensorType`
   * field comes after a sensor of the same type without one. It then has
   * one key per type of such a resetting sensor, and each group is newest
   * first and holds exactly the records of the hour since the group's last
   * reset.
   */
  lemma {:induction false} SensorViewGroups(visits: seq<Visit>, ctx: Context)
    ensures SensorView(visits, ctx).Success? <==> GroupsCreatedInTime(visits)
    ensures SensorView(visits, ctx).Success? ==>
              var view := SensorView(visits, ctx).value;
              view.Keys == ResetKeys(visits)
              && forall key :: key in view ==>
                   NewestFirst(view[key])
                   && multiset(view[key]) == multiset(RowsSinceReset(visits, key, ctx))
  {
    if |visits| > 0 {
      var prefix := visits[..|visits| - 1];
      var v := visits[|visits| - 1];
      SensorViewGroups(prefix, ctx);
      ResetKeysOfPrefix(visits);
      GroupsCreatedOfPrefix(visits);
      var before := SensorView(prefix, ctx);
      if before.Success? {
        var acc := before.value;
        var key := TypeKey(v);
        assert SensorView(visits, ctx) == SensorStep(acc, v, ctx);
        var acc' := if Resets(v) then acc[key := []] else acc;
        if key in acc' {
          var view := acc'[key := SortByDate(acc'[key] + HourRows(v, ctx))];
          assert SensorView(visits, ctx) == Success(view);
          forall k | k in view
            ensures NewestFirst(view[k]) && multiset(view[k]) == multiset(RowsSinceReset(visits, k, ctx))
          {
            if k != key {
              assert view[k] == acc[k];
              assert RowsSinceReset(visits, k, ctx) == RowsSinceReset(prefix, k, ctx);
            }
          }
        }
      }
    }
  }

  lemma {:induction false} RowsSinceResetQualify(visits: seq<Visit>, key: string, ctx: Context)
    ensures forall r :: r in RowsSinceReset(visits, key, ctx) ==> ctx.hourDiff(r.timestamp) == 0
  {
    if |visits| > 0 {
      RowsSinceResetQualify(visits[..|visits| - 1], key, ctx);
    }
  }

  /** Soundness of the sensor view: every record in it comes from the last hour. */
  lemma SensorViewRowsQualify(visits: seq<Visit>, ctx: Context, key: string, r: Row)
    requires SensorView(visits, ctx).Success?
    requires key in SensorView(visits, ctx).value && r in SensorView(visits, ctx).value[key]
    ensures ctx.hourDiff(r.timestamp) == 0
  {
    SensorViewGroups(visits, ctx);
    assert r in multiset(RowsSinceReset(visits, key, ctx));
    RowsSinceResetQualify(visits, key, ctx);
  }

  /**
   * The reset quirk: a sensor without `sensorType` discards the records
   * earlier sensors of the same type put in its group.
   */
  lemma ResetDiscardsEarlierRows(visits: seq<Visit>, ctx: Context)
    requires |visits| > 0 && Resets(visits[|visits| - 1])
    requires SensorView(visits, ctx).Success?
    ensures var v := visits[|visits| - 1];
            TypeKey(v) in SensorView(visits, ctx).value
            && multiset(SensorView(visits, ctx).value[TypeKey(v)]) == multiset(HourRows(v, ctx))
  {
    var v := visits[|visits| - 1];
    SensorViewGroups(visits, ctx);
    ResetKeysOfPrefix(visits);
  }

  // ---------------------------------------------------------------------
  // The two entry points

  /**
   * The stations both entry points visit. An empty raw value or an
   * empty `data.data` gives no stations; a non-empty raw value without a
   * `data` object raises a TypeError.
   */
  function StationsOf(raw: RawData): (r: Result<seq<Station>, ViewError>)
    ensures IsJsonObjectEmpty(!raw.Nullish?, if raw.Object? then raw.ownKeys else 0) ==> r == Success([])
    ensures raw.Object? && raw.ownKeys > 0 && raw.body.None? ==> r == Failure(TypeError)
    ensures raw.Object? && raw.ownKeys > 0 && raw.body.Some? ==>
              r.Success? && (raw.body.value.data.Stations? ==> r.value == raw.body.value.data.entries)
    ensures r.Success? && r.value != [] ==> raw.Object? && raw.body.Some? && raw.body.value.data.Stations?
  {
    match raw
    case Nullish => Success([])
    case Object(ownKeys, body) =>
      if IsJsonObjectEmpty(true, ownKeys) then Success([])
      else if body.None? then Failure(TypeError)
      else
        match body.value.data
        case Absent => Success([])
        case Stations(entries) => Success(entries)
  }

  /** `getDataOrderedByStation`. */
  function ByStation(raw: RawData, ctx: Context): (r: Result<View, ViewError>)
    ensures r.Success? <==> StationsOf(raw).Success?
    ensures r.Success? && StationsOf(raw).value == [] ==> r.value == map[]
    ensures r.Success? ==> r.value.Keys == StationKeys(StationsOf(raw).value)
  {
    var stations :- StationsOf(raw);
    StationViewGroups(stations, ctx);
    Success(StationView(stations, ctx))
  }

  /** `getDataOrderedBySensor`. */
  function BySensor(raw: RawData, ctx: Context): (r: Result<View, ViewError>)
    ensures StationsOf(raw).Failure? ==> r.Failure?
    ensures StationsOf(raw).Success? ==> (r.Success? <==> GroupsCreatedInTime(Visits(StationsOf(raw).value)))
    ensures r.Success? && StationsOf(raw).value == [] ==> r.value == map[]
    ensures r.Success? ==> r.value.Keys == ResetKeys(Visits(StationsOf(raw).value))
  {
    var stations :- StationsOf(raw);
    SensorViewGroups(Visits(stations), ctx);
    SensorView(Visits(stations), ctx)
  }
}
