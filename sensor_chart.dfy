/**
 * The sensor chart: loads the daily or hourly series of one sensor over a
 * date range, takes the parameter's name and unit from the first point,
 * and asks the front end to redraw; a failed load only records the error.
 */
module SensorChart {
  import opened Wrappers
  import opened Php
  import opened OpenAQ

  /** The filters of the series request, in the order they are sent. */
  function ChartQuery(from: Value, to: Value): Query {
    [("datetime_from", from), ("datetime_to", to), ("limit", Int(1000))]
  }

  /** `agg === 'day'` picks the daily aggregate; every other value picks the hourly one. */
  function ChartEndpoint(sensorId: Value, agg: Value, from: Value, to: Value): Endpoint {
    if agg == Str("day") then Days(ToInt(sensorId), ChartQuery(from, to))
    else Hours(ToInt(sensorId), ChartQuery(from, to))
  }

  /**
   * The route the chart requests: the days route exactly for the string
   * "day", the hours route otherwise, both for `(int) $sensorId`, cached
   * for the default TTL.
   */
  lemma ChartRoute(sensorId: Value, agg: Value, from: Value, to: Value)
    ensures var c := Describe(ChartEndpoint(sensorId, agg, from, to));
            && ParseRoute(c.path) == Some(if agg == Str("day") then DaysOfSensor(ToInt(sensorId))
                                          else HoursOfSensor(ToInt(sensorId)))
            && c.ttl == DefaultTtl
  {
    var e := ChartEndpoint(sensorId, agg, from, to);
    EndpointRoute(e);
    EndpointTable(e);
    assert e.Days? || e.Hours?;
  }

  /** Both routes send the same three filters, in this order: the range and a limit of 1000. */
  lemma ChartFilters(sensorId: Value, agg: Value, from: Value, to: Value)
    ensures var q := Describe(ChartEndpoint(sensorId, agg, from, to)).query;
            && KeysOf(q) == ["datetime_from", "datetime_to", "limit"]
            && FieldOf(q, "datetime_from") == Some(from)
            && FieldOf(q, "datetime_to") == Some(to)
            && FieldOf(q, "limit") == Some(Int(1000))
  {
    var q := ChartQuery(from, to);
    assert Describe(ChartEndpoint(sensorId, agg, from, to)).query == q;
    assert KeysOf(q) == ["datetime_from", "datetime_to", "limit"];
    assert DistinctKeys(q);
    FieldOfDistinct(q, 1);
    FieldOfDistinct(q, 2);
  }

  /** The first point's parameter object: an empty list when there is no first point or it has none. */
  function FirstParameter(series: Value): Value {
    var first := LookupOr(series, [At(0)], Null);
    LookupOr(first, [Field("parameter")], List([]))
  }

  /** The parameter's name: the first set of its camel-case, snake-case and plain spellings, or null. */
  function ParamName(param: Value): Value {
    Coalesce(param, [[Field("displayName")], [Field("display_name")], [Field("name")]], Null)
  }

  /** The parameter's unit: `units` when set, else `unit`, else null. */
  function ParamUnit(param: Value): Value {
    Coalesce(param, [[Field("units")], [Field("unit")]], Null)
  }

  /**
   * The two-step read of the first point's parameter is the nested access
   * `$series[0]['parameter'] ?? []`; with no first point it is `[]`.
   */
  lemma FirstParameterNested(series: Value)
    ensures FirstParameter(series) == LookupOr(series, [At(0), Field("parameter")], List([]))
    ensures Lookup(series, [At(0)]).None? ==> FirstParameter(series) == List([])
  {
    LookupAppend(series, [At(0)], [Field("parameter")]);
    if Lookup(series, [At(0)]).None? {
      assert Step(Null, Field("parameter")) == None;
    }
  }

  /** The name is null exactly when none of its three spellings is set. */
  lemma ParamNameNullIff(param: Value)
    ensures ParamName(param) == Null <==>
              && Lookup(param, [Field("displayName")]).None?
              && Lookup(param, [Field("display_name")]).None?
              && Lookup(param, [Field("name")]).None?
  {
    CoalesceFirstDefined(param, [[Field("displayName")], [Field("display_name")], [Field("name")]], Null);
  }

  /** The unit is null exactly when neither of its two spellings is set. */
  lemma ParamUnitNullIff(param: Value)
    ensures ParamUnit(param) == Null <==>
              Lookup(param, [Field("units")]).None? && Lookup(param, [Field("unit")]).None?
  {
    CoalesceFirstDefined(param, [[Field("units")], [Field("unit")]], Null);
  }

  /** A series without a first point labels the chart with null name and unit. */
  lemma EmptySeriesUnlabelled(series: Value)
    requires Lookup(series, [At(0)]).None?
    ensures ParamName(FirstParameter(series)) == Null && ParamUnit(FirstParameter(series)) == Null
  {
    FirstParameterNested(series);
    ParamNameNullIff(List([]));
    ParamUnitNullIff(List([]));
  }

  /** The `draw-chart` event and what it carries. */
  datatype DrawChart = DrawChart(series: Value, agg: Value, paramName: Value, paramUnit: Value)

  /** The component's state; `events` records the `draw-chart` events sent to the front end. */
  class Component {
    var sensorId: Value
    var agg: Value
    var from: Value
    var to: Value
    var series: Value
    var error: Option<Failure>
    var paramName: Value
    var paramUnit: Value
    var events: seq<DrawChart>

    /** The initial state; the default range ends at the clock's date and starts seven days earlier. */
    constructor(sensorId: Value, agg: Value, from: Value, to: Value)
      ensures this.sensorId == sensorId && this.agg == agg && this.from == from && this.to == to
      ensures series == List([]) && error == None && paramName == Null && paramUnit == Null
      ensures events == []
    {
      this.sensorId := sensorId;
      this.agg := agg;
      this.from := from;
      this.to := to;
      series := List([]);
      error := None;
      paramName := Null;
      paramUnit := Null;
      events := [];
    }

    /**
     * The load (run on mount and on `refresh-chart`). On success the series
     * is the upstream's `results` (or `[]`), the error is cleared, name and
     * unit come from the first point's parameter, and one `draw-chart`
     * event carries them; on failure only the error changes and no event
     * is sent.
     */
    method Load(aq: Client, upstream: Request -> Response)
      modifies this`series, this`error, this`paramName, this`paramUnit, this`events, aq, aq.store
      ensures match old(aq.Answer(Describe(ChartEndpoint(sensorId, agg, from, to)), upstream))
        case Ok(env) =>
          var s := ResultsOr(env, List([]));
          && series == s
          && error == None
          && paramName == ParamName(FirstParameter(s))
          && paramUnit == ParamUnit(FirstParameter(s))
          && events == old(events) + [DrawChart(s, agg, paramName, paramUnit)]
        case Err(f) =>
          && error == Some(f)
          && series == old(series) && paramName == old(paramName) && paramUnit == old(paramUnit)
          && events == old(events)
      ensures aq.Snap() == RunCalls(old(aq.Snap()), aq.base, aq.apiKey, [ChartEndpoint(sensorId, agg, from, to)], upstream).after
    {
      var res := aq.Fetch(ChartEndpoint(sensorId, agg, from, to), upstream);
      if res.Err? {
        error := Some(res.failure);
        return;
      }
      series := ResultsOr(res.envelope, List([]));
      error := None;
      var param := FirstParameter(series);
      paramName := ParamName(param);
      paramUnit := ParamUnit(param);
      events := events + [DrawChart(series, agg, paramName, paramUnit)];
    }
  }
}
