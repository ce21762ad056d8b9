/**
 * The location page: four sequential loads (the location, its latest
 * values, its sensors, its flags) that stop at the first failure, and the
 * per-row resolution of the latest table (time, value, coordinates, the
 * row's sensor found by a first-match search, and the parameter's name and
 * unit) beside the sensor cards' own fallbacks.
 */
module LocationShowPage {
  import opened Wrappers
  import opened Decimal
  import opened Php
  import opened OpenAQ

  /**
   * The page's four calls on the location id, in the order the load makes
   * them; each list is its first call followed by the calls still to come.
   */
  function LocationCalls(n: int): seq<Endpoint> {
    [Location(n)] + LatestCalls(n)
  }

  function LatestCalls(n: int): seq<Endpoint> {
    [Latest(n)] + SensorCalls(n)
  }

  function SensorCalls(n: int): seq<Endpoint> {
    [SensorsAt(n)] + [LocationFlags(n)]
  }

  /** The page component's state; `id` is the route parameter. */
  class Component {
    const id: Value
    var location: Value
    var latest: Value
    var sensors: Value
    var flags: Value
    var error: Option<Failure>

    constructor(id: Value)
      ensures this.id == id && location == Null
      ensures latest == List([]) && sensors == List([]) && flags == List([]) && error == None
    {
      this.id := id;
      location := Null;
      latest := List([]);
      sensors := List([]);
      flags := List([]);
      error := None;
    }

    /**
     * The load (also run on mount). The four calls run in order on
     * `(int) $id` and stop at the first that throws; each field is assigned
     * from its own call as soon as that call succeeds, so a field whose call
     * was not reached or failed keeps its old value. The error is the
     * failure that stopped the load, or is cleared.
     */
    method Load(aq: Client, upstream: Request -> Response)
      modifies this`location, this`latest, this`sensors, this`flags, this`error, aq, aq.store
      ensures var n := ToInt(id);
              var run := RunCalls(old(aq.Snap()), aq.base, aq.apiKey, LocationCalls(n), upstream);
              var o := run.outcomes;
              && aq.Snap() == run.after
              && location == (if Succeeded(o, 0) then FirstResultOr(o[0].envelope, Null) else old(location))
              && latest == (if Succeeded(o, 1) then ResultsOr(o[1].envelope, List([])) else old(latest))
              && sensors == (if Succeeded(o, 2) then ResultsOr(o[2].envelope, List([])) else old(sensors))
              && flags == (if Succeeded(o, 3) then ResultsOr(o[3].envelope, List([])) else old(flags))
              && error == Failed(o)
    {
      var n := ToInt(id);
      ghost var s0 := aq.Snap();
      var r1 := aq.Fetch(Location(n), upstream);
      if r1.Err? {
        RunCallsStop(s0, aq.base, aq.apiKey, Location(n), LatestCalls(n), upstream);
        error := Some(r1.failure);
        return;
      }
      RunCallsThen(s0, aq.base, aq.apiKey, Location(n), LatestCalls(n), upstream);
      location := FirstResultOr(r1.envelope, Null);
      ghost var s1 := aq.Snap();
      LoadLatest(aq, upstream, n);
      ghost var rest := RunCalls(s1, aq.base, aq.apiKey, LatestCalls(n), upstream).outcomes;
      SucceededShift(r1, rest, 0);
      SucceededShift(r1, rest, 1);
      SucceededShift(r1, rest, 2);
    }

    /** The latest, sensors and flags calls, once the location call has succeeded. */
    method LoadLatest(aq: Client, upstream: Request -> Response, n: int)
      modifies this`latest, this`sensors, this`flags, this`error, aq, aq.store
      ensures var run := RunCalls(old(aq.Snap()), aq.base, aq.apiKey, LatestCalls(n), upstream);
              var o := run.outcomes;
              && aq.Snap() == run.after
              && latest == (if Succeeded(o, 0) then ResultsOr(o[0].envelope, List([])) else old(latest))
              && sensors == (if Succeeded(o, 1) then ResultsOr(o[1].envelope, List([])) else old(sensors))
              && flags == (if Succeeded(o, 2) then ResultsOr(o[2].envelope, List([])) else old(flags))
              && error == Failed(o)
    {
      ghost var s0 := aq.Snap();
      var r2 := aq.Fetch(Latest(n), upstream);
      if r2.Err? {
        RunCallsStop(s0, aq.base, aq.apiKey, Latest(n), SensorCalls(n), upstream);
        error := Some(r2.failure);
        return;
      }
      RunCallsThen(s0, aq.base, aq.apiKey, Latest(n), SensorCalls(n), upstream);
      latest := ResultsOr(r2.envelope, List([]));
      ghost var s1 := aq.Snap();
      LoadSensors(aq, upstream, n);
      ghost var rest := RunCalls(s1, aq.base, aq.apiKey, SensorCalls(n), upstream).outcomes;
      SucceededShift(r2, rest, 0);
      SucceededShift(r2, rest, 1);
    }

    /** The sensors and flags calls, once the location and latest calls have succeeded. */
    method LoadSensors(aq: Client, upstream: Request -> Response, n: int)
      modifies this`sensors, this`flags, this`error, aq, aq.store
      ensures var run := RunCalls(old(aq.Snap()), aq.base, aq.apiKey, SensorCalls(n), upstream);
              var o := run.outcomes;
              && aq.Snap() == run.after
              && sensors == (if Succeeded(o, 0) then ResultsOr(o[0].envelope, List([])) else old(sensors))
              && flags == (if Succeeded(o, 1) then ResultsOr(o[1].envelope, List([])) else old(flags))
              && error == Failed(o)
    {
      ghost var s0 := aq.Snap();
      var r3 := aq.Fetch(SensorsAt(n), upstream);
      if r3.Err? {
        RunCallsStop(s0, aq.base, aq.apiKey, SensorsAt(n), [LocationFlags(n)], upstream);
        error := Some(r3.failure);
        return;
      }
      RunCallsThen(s0, aq.base, aq.apiKey, SensorsAt(n), [LocationFlags(n)], upstream);
      sensors := ResultsOr(r3.envelope, List([]));
      var r4 := aq.Fetch(LocationFlags(n), upstream);
      if r4.Err? {
        error := Some(r4.failure);
        return;
      }
      flags := ResultsOr(r4.envelope, List([]));
      error := None;
    }
  }

  /**
   * The load's outcomes are the four calls' answers in the state before the
   * load: call k succeeded exactly when it and every call before it
   * succeed, it then returned its answer, and the error is the first
   * failing call's failure, or none.
   */
  lemma LoadOutcomes(s: Snapshot, base: string, apiKey: string, n: int, upstream: Request -> Response)
    ensures var o := RunCalls(s, base, apiKey, LocationCalls(n), upstream).outcomes;
            var a1 := AnswerIn(s, base, apiKey, Location(n), upstream);
            var a2 := AnswerIn(s, base, apiKey, Latest(n), upstream);
            var a3 := AnswerIn(s, base, apiKey, SensorsAt(n), upstream);
            var a4 := AnswerIn(s, base, apiKey, LocationFlags(n), upstream);
            && (Succeeded(o, 0) <==> a1.Ok?) && (Succeeded(o, 0) ==> o[0] == a1)
            && (Succeeded(o, 1) <==> a1.Ok? && a2.Ok?) && (Succeeded(o, 1) ==> o[1] == a2)
            && (Succeeded(o, 2) <==> a1.Ok? && a2.Ok? && a3.Ok?) && (Succeeded(o, 2) ==> o[2] == a3)
            && (Succeeded(o, 3) <==> a1.Ok? && a2.Ok? && a3.Ok? && a4.Ok?) && (Succeeded(o, 3) ==> o[3] == a4)
            && Failed(o) == (if a1.Err? then Some(a1.failure)
                             else if a2.Err? then Some(a2.failure)
                             else if a3.Err? then Some(a3.failure)
                             else if a4.Err? then Some(a4.failure)
                             else None)
  {
    var es := [Location(n), Latest(n), SensorsAt(n), LocationFlags(n)];
    assert LocationCalls(n) == es;
    RunCallsOutcomes(s, base, apiKey, es, upstream);
  }

  // ---- Per-row resolution of the latest table ----

  /** A latest row's sensor id: `sensorsId` when set, else `sensorId`, else null. */
  function RowSensorId(row: Value): Value {
    Coalesce(row, [[Field("sensorsId")], [Field("sensorId")]], Null)
  }

  /** A sensor matches a row's sensor id when its `id` (null when unset) loosely equals it. */
  predicate SensorMatches(sx: Value, sid: Value) {
    LooseEquals(LookupOr(sx, [Field("id")], Null), sid)
  }

  /** Position i holds the first sensor matching sid. */
  predicate FirstMatchAt(xs: seq<Value>, sid: Value, i: int) {
    0 <= i < |xs| && SensorMatches(xs[i], sid) && forall j :: 0 <= j < i ==> !SensorMatches(xs[j], sid)
  }

  predicate AnyMatch(xs: seq<Value>, sid: Value) {
    exists i :: 0 <= i < |xs| && SensorMatches(xs[i], sid)
  }

  /**
   * What the search must find: the first visited sensor whose id matches a
   * truthy sid, and null when sid is falsy or nothing matches.
   */
  predicate MatchedSensor(sensors: Value, sid: Value, sensor: Value) {
    var xs := Elements(sensors);
    if Truthy(sid) && AnyMatch(xs, sid) then exists i :: 0 <= i < |xs| && FirstMatchAt(xs, sid, i) && sensor == xs[i]
    else sensor == Null
  }

  /** The search for the row's sensor: a `foreach` over the sensors that stops at the first match. */
  method FindSensor(sensors: Value, sid: Value) returns (sensor: Value)
    ensures MatchedSensor(sensors, sid, sensor)
  {
    sensor := Null;
    if Truthy(sid) {
      var xs := Elements(sensors);
      var i := 0;
      while i < |xs|
        invariant 0 <= i <= |xs|
        invariant sensor == Null
        invariant forall j :: 0 <= j < i ==> !SensorMatches(xs[j], sid)
      {
        if SensorMatches(xs[i], sid) {
          sensor := xs[i];
          assert FirstMatchAt(xs, sid, i);
          return;
        }
        i := i + 1;
      }
    }
  }

  /** A null entry never matches a truthy sid, so a null result always means "not found". */
  lemma NullNeverMatches(sid: Value)
    requires Truthy(sid)
    ensures !SensorMatches(Null, sid)
  {
  }

  /** The search's specification determines its result. */
  lemma MatchedSensorUnique(sensors: Value, sid: Value, s1: Value, s2: Value)
    requires MatchedSensor(sensors, sid, s1) && MatchedSensor(sensors, sid, s2)
    ensures s1 == s2
  {
    var xs := Elements(sensors);
    if Truthy(sid) && AnyMatch(xs, sid) {
      var i1 :| 0 <= i1 < |xs| && FirstMatchAt(xs, sid, i1) && s1 == xs[i1];
      var i2 :| 0 <= i2 < |xs| && FirstMatchAt(xs, sid, i2) && s2 == xs[i2];
      FirstMatchUnique(xs, sid, i1, i2);
    }
  }

  /** Only one position holds the first match. */
  lemma FirstMatchUnique(xs: seq<Value>, sid: Value, i: int, j: int)
    requires FirstMatchAt(xs, sid, i) && FirstMatchAt(xs, sid, j)
    ensures i == j
  {
  }

  /**
   * The row's time, read from `datetime` or else `date`: for an array, its
   * local time, else its UTC time, else the empty string; for anything
   * else, the value itself, or the empty string when neither key is set.
   */
  function TimeString(row: Value): Value {
    var dt := Coalesce(row, [[Field("datetime")], [Field("date")]], Null);
    if dt.List? || dt.Object? then Coalesce(dt, [[Field("local")], [Field("utc")]], Str(""))
    else LookupOr(dt, [], Str(""))
  }

  /**
   * The time cell `t` read from `row[key]`, whose value is `d`: for an
   * array, its `local` entry, else its `utc` entry, else ''; for anything
   * else, `d` itself.
   */
  predicate TimeFrom(row: Value, key: string, d: Value, t: Value) {
    if d.List? || d.Object? then
      match Lookup(row, [Field(key), Field("local")])
      case Some(local) => t == local
      case None =>
        match Lookup(row, [Field(key), Field("utc")])
        case Some(utc) => t == utc
        case None => t == Str("")
    else t == d
  }

  /**
   * The time's cases: the time is read from `datetime` when it is set, else
   * from `date` (an array giving its local time, else its UTC time, else
   * ''), and is '' when neither is set.
   */
  lemma TimeStringCases(row: Value)
    ensures match Lookup(row, [Field("datetime")])
              case Some(d) => TimeFrom(row, "datetime", d, TimeString(row))
              case None =>
                match Lookup(row, [Field("date")])
                case Some(d) => TimeFrom(row, "date", d, TimeString(row))
                case None => TimeString(row) == Str("")
  {
    CoalesceFirstDefined(row, [[Field("datetime")], [Field("date")]], Null);
    var key := if Lookup(row, [Field("datetime")]).Some? then "datetime" else "date";
    var dt := Coalesce(row, [[Field("datetime")], [Field("date")]], Null);
    if Lookup(row, [Field(key)]).Some? {
      LookupAppend(row, [Field(key)], [Field("local")]);
      LookupAppend(row, [Field(key)], [Field("utc")]);
      if dt.List? || dt.Object? {
        CoalesceFirstDefined(dt, [[Field("local")], [Field("utc")]], Str(""));
      }
    }
  }

  /** The row's coordinates: latitude, ", ", longitude when both are set, else '—'. */
  function CoordString(row: Value): string {
    var coords := LookupOr(row, [Field("coordinates")], Null);
    if Truthy(coords) && Lookup(coords, [Field("latitude")]).Some? && Lookup(coords, [Field("longitude")]).Some? then
      Render(Lookup(coords, [Field("latitude")]).value) + ", " + Render(Lookup(coords, [Field("longitude")]).value)
    else "—"
  }

  /** A set key implies a non-empty, hence truthy, array. */
  lemma SetFieldMeansTruthy(v: Value, name: string)
    requires Lookup(v, [Field(name)]).Some?
    ensures Truthy(v)
  {
    assert Step(v, Field(name)).Some?;
  }

  /**
   * The truthiness test on the coordinates adds nothing: the string is the
   * two rendered values exactly when both nested keys are set, '—' otherwise.
   */
  lemma CoordStringCases(row: Value)
    ensures var lat := Lookup(row, [Field("coordinates"), Field("latitude")]);
            var lon := Lookup(row, [Field("coordinates"), Field("longitude")]);
            && (lat.Some? && lon.Some? ==> CoordString(row) == Render(lat.value) + ", " + Render(lon.value))
            && (lat.None? || lon.None? ==> CoordString(row) == "—")
  {
    LookupAppend(row, [Field("coordinates")], [Field("latitude")]);
    LookupAppend(row, [Field("coordinates")], [Field("longitude")]);
    var coords := LookupOr(row, [Field("coordinates")], Null);
    if Lookup(coords, [Field("latitude")]).Some? {
      SetFieldMeansTruthy(coords, "latitude");
    }
  }

  /** A sensor's parameter object, or an empty list when it has none. */
  function SensorParameter(sensor: Value): Value {
    LookupOr(sensor, [Field("parameter")], List([]))
  }

  /** The latest table's name label: the camel-case display name, then the snake-case one, then the plain name, else a dash. */
  function LatestParamName(p: Value): Value {
    Coalesce(p, [[Field("displayName")], [Field("display_name")], [Field("name")]], Str("—"))
  }

  /** The latest table's unit label: the plural spelling, then the singular one, else a dash. */
  function LatestParamUnit(p: Value): Value {
    Coalesce(p, [[Field("units")], [Field("unit")]], Str("—"))
  }

  /** The sensor cards' name label: the snake-case display name first, then the camel-case one, then the plain name, else the word "parameter". */
  function CardParamName(p: Value): Value {
    Coalesce(p, [[Field("display_name")], [Field("displayName")], [Field("name")]], Str("parameter"))
  }

  /** The sensor cards' unit label: the singular spelling first, then the plural one, else a dash. */
  function CardParamUnit(p: Value): Value {
    Coalesce(p, [[Field("unit")], [Field("units")]], Str("—"))
  }

  /**
   * The two blocks agree whenever a name is set under some key, at most
   * one spelling of the display name is set, and at most one spelling of
   * the unit is set (with no unit at all, both show a dash).
   */
  lemma BlocksAgreeOnOneSpelling(p: Value)
    requires Lookup(p, [Field("displayName")]).None? || Lookup(p, [Field("display_name")]).None?
    requires Lookup(p, [Field("displayName")]).Some? || Lookup(p, [Field("display_name")]).Some?
             || Lookup(p, [Field("name")]).Some?
    requires Lookup(p, [Field("units")]).None? || Lookup(p, [Field("unit")]).None?
    ensures LatestParamName(p) == CardParamName(p)
    ensures LatestParamUnit(p) == CardParamUnit(p)
  {
  }

  /**
   * The orders do differ: a parameter with both spellings shows different
   * names in the two blocks, and one with no name field shows different
   * defaults.
   */
  lemma BlocksCanDisagree()
    ensures var p := Object([("displayName", Str("PM2.5")), ("display_name", Str("pm25"))]);
            LatestParamName(p) == Str("PM2.5") && CardParamName(p) == Str("pm25")
    ensures LatestParamName(Object([])) == Str("—") && CardParamName(Object([])) == Str("parameter")
  {
    var p := Object([("displayName", Str("PM2.5")), ("display_name", Str("pm25"))]);
    assert Lookup(p, [Field("displayName")]) == Some(Str("PM2.5")) by {
      assert Step(p, Field("displayName")) == Some(Str("PM2.5"));
    }
    assert Lookup(p, [Field("display_name")]) == Some(Str("pm25")) by {
      assert Step(p, Field("display_name")) == Some(Str("pm25"));
    }
  }

  /** One resolved row of the latest table. */
  datatype RowView = RowView(
    time: Value,
    value: Value,
    coords: string,
    sensorId: Value,
    sensor: Value,
    paramName: Value,
    paramUnit: Value)

  /** The `@php` block run for each row of the latest table. */
  method ResolveRow(row: Value, sensors: Value) returns (view: RowView)
    ensures view.time == TimeString(row)
    ensures view.value == LookupOr(row, [Field("value")], Str(""))
    ensures view.coords == CoordString(row)
    ensures view.sensorId == RowSensorId(row)
    ensures MatchedSensor(sensors, view.sensorId, view.sensor)
    ensures view.paramName == LatestParamName(SensorParameter(view.sensor))
    ensures view.paramUnit == LatestParamUnit(SensorParameter(view.sensor))
  {
    var sid := RowSensorId(row);
    var sensor := FindSensor(sensors, sid);
    var p := SensorParameter(sensor);
    view := RowView(TimeString(row), LookupOr(row, [Field("value")], Str("")), CoordString(row),
                    sid, sensor, LatestParamName(p), LatestParamUnit(p));
  }
}
