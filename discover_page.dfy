/**
 * The station-search page: builds the locations query from the form state
 * (a fixed base, then the nearby-search and parameter filters when PHP
 * truthiness allows), fetches it, and keeps the results and the rate-limit
 * headers, or the failure.
 */
module DiscoverPage {
  import opened Wrappers
  import opened Php
  import opened OpenAQ

  /** The nearby filters are sent only when latitude, longitude and radius are all truthy. */
  predicate Nearby(lat: Value, lon: Value, radius: Value) {
    Truthy(lat) && Truthy(lon) && Truthy(radius)
  }

  /** The `coordinates` filter: latitude and longitude rendered as strings, joined by a comma. */
  function Coordinates(lat: Value, lon: Value): Value {
    Str(Render(lat) + "," + Render(lon))
  }

  function BaseQuery(iso: Value, limit: Value, page: Value): Query {
    [("iso", iso), ("limit", limit), ("page", page), ("order_by", Str("id")), ("sort_order", Str("desc"))]
  }

  /** The query the search sends, in the order its keys are sent. */
  function SearchQuery(iso: Value, limit: Value, page: Value,
                       lat: Value, lon: Value, radius: Value, parameterId: Value): Query {
    BaseQuery(iso, limit, page)
    + (if Nearby(lat, lon, radius) then [("coordinates", Coordinates(lat, lon)), ("radius", radius)] else [])
    + (if Truthy(parameterId) then [("parameters_id", parameterId)] else [])
  }

  /** The base array's keys, none repeated. */
  lemma BaseKeys(iso: Value, limit: Value, page: Value)
    ensures KeysOf(BaseQuery(iso, limit, page)) == ["iso", "limit", "page", "order_by", "sort_order"]
    ensures DistinctKeys(BaseQuery(iso, limit, page))
  {
  }

  /** None of the filter keys is among the keys already in the array when it is assigned. */
  lemma FilterKeysFresh(iso: Value, limit: Value, page: Value, coordinates: Value, radius: Value)
    ensures var b := BaseQuery(iso, limit, page);
            && "coordinates" !in KeysOf(b)
            && "radius" !in KeysOf(b + [("coordinates", coordinates)])
            && "parameters_id" !in KeysOf(b)
            && "parameters_id" !in KeysOf(b + [("coordinates", coordinates), ("radius", radius)])
  {
    var b := BaseQuery(iso, limit, page);
    BaseKeys(iso, limit, page);
    KeysOfAppend(b, [("coordinates", coordinates)]);
    KeysOfAppend(b, [("coordinates", coordinates), ("radius", radius)]);
  }

  /** The keys in the order they are sent, none repeated. */
  lemma SearchQueryKeyOrder(iso: Value, limit: Value, page: Value,
                            lat: Value, lon: Value, radius: Value, parameterId: Value)
    ensures var q := SearchQuery(iso, limit, page, lat, lon, radius, parameterId);
            && KeysOf(q) == ["iso", "limit", "page", "order_by", "sort_order"]
                            + (if Nearby(lat, lon, radius) then ["coordinates", "radius"] else [])
                            + (if Truthy(parameterId) then ["parameters_id"] else [])
            && DistinctKeys(q)
  {
    var b := BaseQuery(iso, limit, page);
    var c := Coordinates(lat, lon);
    var n: Query := if Nearby(lat, lon, radius) then [("coordinates", c), ("radius", radius)] else [];
    var p: Query := if Truthy(parameterId) then [("parameters_id", parameterId)] else [];
    FiltersAppended(iso, limit, page, c, radius, parameterId, n, p);
    assert SearchQuery(iso, limit, page, lat, lon, radius, parameterId) == b + n + p;
  }

  /** Appending either filter group, or both, to the base keeps the keys distinct and in order. */
  lemma FiltersAppended(iso: Value, limit: Value, page: Value, c: Value, radius: Value, parameterId: Value,
                        n: Query, p: Query)
    requires n == [] || n == [("coordinates", c), ("radius", radius)]
    requires p == [] || p == [("parameters_id", parameterId)]
    ensures var b := BaseQuery(iso, limit, page);
            && KeysOf(b + n + p) == ["iso", "limit", "page", "order_by", "sort_order"]
                                    + (if n == [] then [] else ["coordinates", "radius"])
                                    + (if p == [] then [] else ["parameters_id"])
            && DistinctKeys(b + n + p)
  {
    var b := BaseQuery(iso, limit, page);
    BaseKeys(iso, limit, page);
    FilterKeysFresh(iso, limit, page, c, radius);
    if n != [] {
      AppendFresh(b, "coordinates", c);
      AppendFresh(b + [("coordinates", c)], "radius", radius);
      assert b + [("coordinates", c)] + [("radius", radius)] == b + n;
    } else {
      assert b + n == b;
    }
    if p != [] {
      AppendFresh(b + n, "parameters_id", parameterId);
    } else {
      assert b + n + p == b + n;
    }
  }

  /** The five base pairs are always sent with their values. */
  lemma SearchQueryBase(iso: Value, limit: Value, page: Value,
                        lat: Value, lon: Value, radius: Value, parameterId: Value)
    ensures var q := SearchQuery(iso, limit, page, lat, lon, radius, parameterId);
            && FieldOf(q, "iso") == Some(iso) && FieldOf(q, "limit") == Some(limit)
            && FieldOf(q, "page") == Some(page)
            && FieldOf(q, "order_by") == Some(Str("id")) && FieldOf(q, "sort_order") == Some(Str("desc"))
  {
    var q := SearchQuery(iso, limit, page, lat, lon, radius, parameterId);
    SearchQueryKeyOrder(iso, limit, page, lat, lon, radius, parameterId);
    FieldOfDistinct(q, 2);
    FieldOfDistinct(q, 3);
    FieldOfDistinct(q, 4);
  }

  /** Coordinates and radius are sent exactly when the nearby test holds, with the state's values. */
  lemma SearchQueryNearby(iso: Value, limit: Value, page: Value,
                          lat: Value, lon: Value, radius: Value, parameterId: Value)
    ensures var q := SearchQuery(iso, limit, page, lat, lon, radius, parameterId);
            && FieldOf(q, "coordinates") == (if Nearby(lat, lon, radius) then Some(Coordinates(lat, lon)) else None)
            && FieldOf(q, "radius") == (if Nearby(lat, lon, radius) then Some(radius) else None)
  {
    var q := SearchQuery(iso, limit, page, lat, lon, radius, parameterId);
    SearchQueryKeyOrder(iso, limit, page, lat, lon, radius, parameterId);
    HasKeyIffListed(q, "coordinates");
    HasKeyIffListed(q, "radius");
    FieldOfPresent(q, "coordinates");
    FieldOfPresent(q, "radius");
    if Nearby(lat, lon, radius) {
      FieldOfDistinct(q, 5);
      FieldOfDistinct(q, 6);
    }
  }

  /** parameters_id is sent exactly when the parameter id is truthy, with its value. */
  lemma SearchQueryParameter(iso: Value, limit: Value, page: Value,
                             lat: Value, lon: Value, radius: Value, parameterId: Value)
    ensures var q := SearchQuery(iso, limit, page, lat, lon, radius, parameterId);
            FieldOf(q, "parameters_id") == (if Truthy(parameterId) then Some(parameterId) else None)
  {
    var q := SearchQuery(iso, limit, page, lat, lon, radius, parameterId);
    SearchQueryKeyOrder(iso, limit, page, lat, lon, radius, parameterId);
    HasKeyIffListed(q, "parameters_id");
    FieldOfPresent(q, "parameters_id");
    if Truthy(parameterId) {
      FieldOfDistinct(q, |q| - 1);
    }
  }

  /**
   * The query as the page builds it, by assignment into the array: the
   * result is the search query above.
   */
  method BuildQuery(iso: Value, limit: Value, page: Value,
                    lat: Value, lon: Value, radius: Value, parameterId: Value) returns (query: Query)
    ensures query == SearchQuery(iso, limit, page, lat, lon, radius, parameterId)
  {
    query := BaseQuery(iso, limit, page);
    var coordinates := Str(Render(lat) + "," + Render(lon));
    FilterKeysFresh(iso, limit, page, coordinates, radius);
    ghost var n: Query := [];
    if Truthy(lat) && Truthy(lon) && Truthy(radius) {
      PutFresh(query, "coordinates", coordinates);
      query := Put(query, "coordinates", coordinates);
      PutFresh(query, "radius", radius);
      query := Put(query, "radius", radius);
      n := [("coordinates", coordinates), ("radius", radius)];
    }
    PutFresh(query, "parameters_id", parameterId);
    ghost var p: Query := [];
    if Truthy(parameterId) {
      query := Put(query, "parameters_id", parameterId);
      p := [("parameters_id", parameterId)];
    }
    assert query == BaseQuery(iso, limit, page) + n + p;
  }

  /** The page component's state. */
  class Component {
    var iso: Value
    var lat: Value
    var lon: Value
    var radius: Value
    var parameterId: Value
    var limit: Value
    var page: Value
    var results: Value
    var quota: Value
    var error: Option<Failure>

    /** The initial state; the default country and position come from configuration. */
    constructor(iso: Value, lat: Value, lon: Value, radius: Value)
      ensures this.iso == iso && this.lat == lat && this.lon == lon && this.radius == radius
      ensures parameterId == Null && limit == Int(20) && page == Int(1)
      ensures results == List([]) && quota == Null && error == None
    {
      this.iso := iso;
      this.lat := lat;
      this.lon := lon;
      this.radius := radius;
      parameterId := Null;
      limit := Int(20);
      page := Int(1);
      results := List([]);
      quota := Null;
      error := None;
    }

    /**
     * The search (also run on mount). On success the results are the
     * upstream's `results` (or `[]`), the quota is the envelope's
     * rate-limit triple (always present, so never the null default) and the
     * error is cleared; on failure only the error changes. The form's
     * inputs are outside the frame, so they stay as they are.
     */
    method Load(aq: Client, upstream: Request -> Response)
      modifies this`results, this`quota, this`error, aq, aq.store
      ensures match old(aq.Answer(Describe(Locations(SearchQuery(iso, limit, page, lat, lon, radius, parameterId))), upstream))
        case Ok(env) =>
          && results == ResultsOr(env, List([]))
          && quota == HeadersArray(env.headers)
          && error == None
        case Err(f) =>
          error == Some(f) && results == old(results) && quota == old(quota)
      ensures aq.Snap() == RunCalls(old(aq.Snap()), aq.base, aq.apiKey, [Locations(SearchQuery(iso, limit, page, lat, lon, radius, parameterId))], upstream).after
    {
      var query := BuildQuery(iso, limit, page, lat, lon, radius, parameterId);
      var res := aq.Fetch(Locations(query), upstream);
      if res.Err? {
        error := Some(res.failure);
        return;
      }
      EnvelopeShape(res.envelope, [Field("results")]);
      results := ResultsOr(res.envelope, List([]));
      quota := LookupOr(EnvelopeArray(res.envelope), [Field("headers")], Null);
      error := None;
    }
  }
}
