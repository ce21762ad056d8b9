/**
 * The cached gateway to the OpenAQ v3 REST API: base-URL trimming, the
 * endpoint table (path template, query, TTL), the cache key, the
 * cache-aside `remember` step and the client object that performs it.
 */
module OpenAQ {
  import opened Wrappers
  import opened Decimal
  import opened Php

  // ---- Construction: rtrim($base, '/') ----

  /** `rtrim(s, '/')`: s without its trailing run of slashes. */
  function TrimTrailingSlashes(s: string): (r: string)
    ensures |r| == 0 || r[|r| - 1] != '/'
    ensures |r| <= |s| && s[..|r|] == r
    ensures forall i :: |r| <= i < |s| ==> s[i] == '/'
    decreases |s|
  {
    if |s| > 0 && s[|s| - 1] == '/' then TrimTrailingSlashes(s[..|s| - 1]) else s
  }

  /** Trimming twice trims nothing more. */
  lemma TrimIdempotent(s: string)
    ensures TrimTrailingSlashes(TrimTrailingSlashes(s)) == TrimTrailingSlashes(s)
  {
  }

  // ---- Routes: the path templates of the API ----

  /** A path template of the API with its integer id substituted. */
  datatype Resource =
    | AllLocations
    | OneLocation(id: int)
    | LatestAtLocation(id: int)
    | SensorsOfLocation(id: int)
    | FlagsOfLocation(id: int)
    | AllSensors
    | OneSensor(id: int)
    | FlagsOfSensor(id: int)
    | MeasurementsOfSensor(id: int)
    | HoursOfSensor(id: int)
    | DaysOfSensor(id: int)
    | YearlyDaysOfSensor(id: int)
    | AllParameters
    | LatestOfParameter(id: int)
    | AllProviders
    | AllCountries

  /** The '/'-separated segments of a resource's path. */
  function Segments(r: Resource): seq<string> {
    match r
    case AllLocations => ["v3", "locations"]
    case OneLocation(id) => ["v3", "locations", IntToString(id)]
    case LatestAtLocation(id) => ["v3", "locations", IntToString(id), "latest"]
    case SensorsOfLocation(id) => ["v3", "locations", IntToString(id), "sensors"]
    case FlagsOfLocation(id) => ["v3", "locations", IntToString(id), "flags"]
    case AllSensors => ["v3", "sensors"]
    case OneSensor(id) => ["v3", "sensors", IntToString(id)]
    case FlagsOfSensor(id) => ["v3", "sensors", IntToString(id), "flags"]
    case MeasurementsOfSensor(id) => ["v3", "sensors", IntToString(id), "measurements"]
    case HoursOfSensor(id) => ["v3", "sensors", IntToString(id), "hours"]
    case DaysOfSensor(id) => ["v3", "sensors", IntToString(id), "days"]
    case YearlyDaysOfSensor(id) => ["v3", "sensors", IntToString(id), "days", "yearly"]
    case AllParameters => ["v3", "parameters"]
    case LatestOfParameter(id) => ["v3", "parameters", IntToString(id), "latest"]
    case AllProviders => ["v3", "providers"]
    case AllCountries => ["v3", "countries"]
  }

  /** "/s1/s2/..." */
  function JoinPath(segs: seq<string>): string
    decreases |segs|
  {
    if |segs| == 0 then "" else "/" + segs[0] + JoinPath(segs[1..])
  }

  /** The path of a resource, e.g. "/v3/locations/42/latest". */
  function PathOf(r: Resource): string {
    JoinPath(Segments(r))
  }

  /** The length of the leading segment of t: everything before the first '/'. */
  function SegmentLength(t: string): (n: nat)
    ensures n <= |t| && '/' !in t[..n]
    ensures n < |t| ==> t[n] == '/'
    decreases |t|
  {
    if |t| == 0 || t[0] == '/' then 0
    else
      var n := 1 + SegmentLength(t[1..]);
      assert t[..n] == [t[0]] + t[1..][..n - 1];
      n
  }

  /** Splits "/s1/s2/..." into its segments; None when it does not start with '/'. */
  function SplitPath(s: string): Option<seq<string>>
    decreases |s|
  {
    if |s| == 0 then Some([])
    else if s[0] != '/' then None
    else
      var n := SegmentLength(s[1..]);
      match SplitPath(s[1 + n..])
      case None => None
      case Some(rest) => Some([s[1..1 + n]] + rest)
  }

  /** Recognises the segments of a resource. */
  function ResourceOfSegments(segs: seq<string>): Option<Resource> {
    if |segs| < 2 || segs[0] != "v3" then None
    else if |segs| == 2 then
      if segs[1] == "locations" then Some(AllLocations)
      else if segs[1] == "sensors" then Some(AllSensors)
      else if segs[1] == "parameters" then Some(AllParameters)
      else if segs[1] == "providers" then Some(AllProviders)
      else if segs[1] == "countries" then Some(AllCountries)
      else None
    else match ParseInt(segs[2])
      case None => None
      case Some(id) =>
        var tail := segs[3..];
        if segs[1] == "locations" then
          if tail == [] then Some(OneLocation(id))
          else if tail == ["latest"] then Some(LatestAtLocation(id))
          else if tail == ["sensors"] then Some(SensorsOfLocation(id))
          else if tail == ["flags"] then Some(FlagsOfLocation(id))
          else None
        else if segs[1] == "sensors" then
          if tail == [] then Some(OneSensor(id))
          else if tail == ["flags"] then Some(FlagsOfSensor(id))
          else if tail == ["measurements"] then Some(MeasurementsOfSensor(id))
          else if tail == ["hours"] then Some(HoursOfSensor(id))
          else if tail == ["days"] then Some(DaysOfSensor(id))
          else if tail == ["days", "yearly"] then Some(YearlyDaysOfSensor(id))
          else None
        else if segs[1] == "parameters" then
          if tail == ["latest"] then Some(LatestOfParameter(id)) else None
        else None
  }

  /** Reads a request path back into the resource it names. */
  function ParseRoute(path: string): Option<Resource> {
    match SplitPath(path)
    case None => None
    case Some(segs) => ResourceOfSegments(segs)
  }

  lemma {:induction false} SegmentLengthOf(seg: string, rest: string)
    requires '/' !in seg
    requires |rest| == 0 || rest[0] == '/'
    ensures SegmentLength(seg + rest) == |seg|
    decreases |seg|
  {
    if |seg| > 0 {
      assert (seg + rest)[1..] == seg[1..] + rest;
      SegmentLengthOf(seg[1..], rest);
    } else {
      assert seg + rest == rest;
    }
  }

  /** Splitting "/seg" followed by a path splits off seg and then splits the rest. */
  lemma SplitStep(seg: string, tail: string)
    requires '/' !in seg
    requires |tail| == 0 || tail[0] == '/'
    ensures SplitPath("/" + seg + tail) ==
              match SplitPath(tail)
              case None => None
              case Some(rest) => Some([seg] + rest)
  {
    var s := "/" + seg + tail;
    assert s[1..] == seg + tail;
    SegmentLengthOf(seg, tail);
    assert s[1..1 + |seg|] == seg;
    assert s[1 + |seg|..] == tail;
  }

  /** Splitting a joined path gives back its segments. */
  lemma {:induction false} SplitJoin(segs: seq<string>)
    requires forall i :: 0 <= i < |segs| ==> '/' !in segs[i]
    ensures SplitPath(JoinPath(segs)) == Some(segs)
    decreases |segs|
  {
    if |segs| > 0 {
      var tail := JoinPath(segs[1..]);
      assert JoinPath(segs) == "/" + segs[0] + tail;
      SplitStep(segs[0], tail);
      SplitJoin(segs[1..]);
      assert [segs[0]] + segs[1..] == segs;
    }
  }

  /** The segments of every resource are recognised as that resource. */
  lemma RecogniseSegments(r: Resource)
    ensures ResourceOfSegments(Segments(r)) == Some(r)
  {
    if |Segments(r)| > 2 {
      RecogniseWithId(r);
    } else {
      RecogniseCollection(r);
    }
  }

  /** The two-segment paths: the collections. */
  lemma RecogniseCollection(r: Resource)
    requires |Segments(r)| <= 2
    ensures ResourceOfSegments(Segments(r)) == Some(r)
  {
  }

  /** The paths with an id in their third segment. */
  lemma RecogniseWithId(r: Resource)
    requires |Segments(r)| > 2
    ensures ResourceOfSegments(Segments(r)) == Some(r)
  {
    IntToStringRoundTrip(r.id);
    if r.OneLocation? || r.LatestAtLocation? || r.SensorsOfLocation? || r.FlagsOfLocation? {
      RecogniseLocationPath(r);
    } else if r.LatestOfParameter? {
      assert Segments(r)[1] == "parameters";
    } else {
      RecogniseSensorPath(r);
    }
  }

  /** The id paths under /v3/locations. */
  lemma RecogniseLocationPath(r: Resource)
    requires r.OneLocation? || r.LatestAtLocation? || r.SensorsOfLocation? || r.FlagsOfLocation?
    requires ParseInt(IntToString(r.id)) == Some(r.id)
    ensures ResourceOfSegments(Segments(r)) == Some(r)
  {
    assert Segments(r)[1] == "locations";
  }

  /** The id paths under /v3/sensors. */
  lemma RecogniseSensorPath(r: Resource)
    requires r.OneSensor? || r.FlagsOfSensor? || r.MeasurementsOfSensor? || r.HoursOfSensor?
          || r.DaysOfSensor? || r.YearlyDaysOfSensor?
    requires ParseInt(IntToString(r.id)) == Some(r.id)
    ensures ResourceOfSegments(Segments(r)) == Some(r)
  {
    assert Segments(r)[1] == "sensors";
  }



  /** Every path template reads back as the resource it was built from. */
  lemma ParseRoutePathOf(r: Resource)
    ensures ParseRoute(PathOf(r)) == Some(r)
  {
    var segs := Segments(r);
    forall i | 0 <= i < |segs| ensures '/' !in segs[i] {
    }
    SplitJoin(segs);
    RecogniseSegments(r);
  }

  /** Distinct resources have distinct paths. */
  lemma PathOfInjective(r1: Resource, r2: Resource)
    requires PathOf(r1) == PathOf(r2)
    ensures r1 == r2
  {
    ParseRoutePathOf(r1);
    ParseRoutePathOf(r2);
  }

  // ---- The endpoint table ----

  const DefaultTtl := 60

  /** One public method of the service, with its arguments. */
  datatype Endpoint =
    | Locations(q: Query)
    | Location(id: int)
    | Latest(locationId: int)
    | SensorsAt(locationId: int)
    | LocationFlags(locationId: int)
    | Sensors(q: Query)
    | Sensor(sensorId: int)
    | SensorFlags(sensorId: int)
    | Measurements(sensorId: int, q: Query)
    | Hours(sensorId: int, q: Query)
    | Days(sensorId: int, q: Query)
    | DaysYearly(sensorId: int, q: Query)
    | Parameters
    | ParameterLatest(paramId: int, q: Query)
    | Providers(q: Query)
    | Countries(q: Query)

  /** The arguments of one `get` call. */
  datatype Call = Call(path: string, query: Query, ttl: int)

  /**
   * What each public method passes to `get`: the path of the resource it
   * names, its filter array (none for the id-only methods) and the TTL of
   * that resource.
   */
  function Describe(e: Endpoint): Call {
    Call(PathOf(ResourceOf(e)), if TakesFilters(e) then e.q else [], TtlOf(ResourceOf(e)))
  }

  /** The TTL each resource is cached for: an hour for the parameter list, ten minutes for providers and countries. */
  function TtlOf(r: Resource): int {
    match r
    case AllParameters => 3600
    case AllProviders => 600
    case AllCountries => 600
    case _ => DefaultTtl
  }

  /** The methods that pass a caller-supplied filter array. */
  predicate TakesFilters(e: Endpoint) {
    e.Locations? || e.Sensors? || e.Measurements? || e.Hours? || e.Days? || e.DaysYearly?
    || e.ParameterLatest? || e.Providers? || e.Countries?
  }

  /** The path a method sends reads back as the resource it names. */
  lemma EndpointRoute(e: Endpoint)
    ensures ParseRoute(Describe(e).path) == Some(ResourceOf(e))
  {
    ParseRoutePathOf(ResourceOf(e));
  }

  /**
   * The table as callers see it: filters pass through unchanged and id-only
   * methods send no query; the parameter list is cached for 3600 s,
   * providers and countries for 600 s, and every other method for 60 s.
   */
  lemma EndpointTable(e: Endpoint)
    ensures TakesFilters(e) ==> Describe(e).query == e.q
    ensures !TakesFilters(e) ==> Describe(e).query == []
    ensures Describe(e).ttl == (if e == Parameters then 3600 else if e.Providers? || e.Countries? then 600 else 60)
  {
  }

  // ---- The cache key ----

  /**
   * The cache key: md5 of the path followed by the JSON encoding of the
   * query, which keeps the query's insertion order. It is modelled as the
   * pair itself.
   */
  datatype CacheKey = CacheKey(path: string, encodedQuery: Query)

  function KeyOf(c: Call): CacheKey {
    CacheKey(c.path, c.query)
  }

  /** The resource a method's path is built from. */
  function ResourceOf(e: Endpoint): Resource {
    match e
    case Locations(_) => AllLocations
    case Location(id) => OneLocation(id)
    case Latest(id) => LatestAtLocation(id)
    case SensorsAt(id) => SensorsOfLocation(id)
    case LocationFlags(id) => FlagsOfLocation(id)
    case Sensors(_) => AllSensors
    case Sensor(id) => OneSensor(id)
    case SensorFlags(id) => FlagsOfSensor(id)
    case Measurements(id, _) => MeasurementsOfSensor(id)
    case Hours(id, _) => HoursOfSensor(id)
    case Days(id, _) => DaysOfSensor(id)
    case DaysYearly(id, _) => YearlyDaysOfSensor(id)
    case Parameters => AllParameters
    case ParameterLatest(id, _) => LatestOfParameter(id)
    case Providers(_) => AllProviders
    case Countries(_) => AllCountries
  }

  /** The method call a resource and a query stand for. */
  function EndpointOf(r: Resource, q: Query): Endpoint {
    match r
    case AllLocations => Locations(q)
    case OneLocation(id) => Location(id)
    case LatestAtLocation(id) => Latest(id)
    case SensorsOfLocation(id) => SensorsAt(id)
    case FlagsOfLocation(id) => LocationFlags(id)
    case AllSensors => Sensors(q)
    case OneSensor(id) => Sensor(id)
    case FlagsOfSensor(id) => SensorFlags(id)
    case MeasurementsOfSensor(id) => Measurements(id, q)
    case HoursOfSensor(id) => Hours(id, q)
    case DaysOfSensor(id) => Days(id, q)
    case YearlyDaysOfSensor(id) => DaysYearly(id, q)
    case AllParameters => Parameters
    case LatestOfParameter(id) => ParameterLatest(id, q)
    case AllProviders => Providers(q)
    case AllCountries => Countries(q)
  }

  /** The resource and the query a method sends determine the method call. */
  lemma DescribeDetermines(e: Endpoint)
    ensures EndpointOf(ResourceOf(e), Describe(e).query) == e
  {
    match e
    case Locations(_) =>
    case Location(id) =>
    case Latest(id) =>
    case SensorsAt(id) =>
    case LocationFlags(id) =>
    case Sensors(_) =>
    case Sensor(id) =>
    case SensorFlags(id) =>
    case Measurements(id, _) =>
    case Hours(id, _) =>
    case Days(id, _) =>
    case DaysYearly(id, _) =>
    case Parameters =>
    case ParameterLatest(id, _) =>
    case Providers(_) =>
    case Countries(_) =>
  }

  /** Two different method calls never share a cache entry. */
  lemma EndpointsNeverShareKey(e1: Endpoint, e2: Endpoint)
    requires KeyOf(Describe(e1)) == KeyOf(Describe(e2))
    ensures e1 == e2
  {
    PathOfInjective(ResourceOf(e1), ResourceOf(e2));
    DescribeDetermines(e1);
    DescribeDetermines(e2);
  }

  /** The same filters in another insertion order make another cache key. */
  lemma KeyDependsOnQueryOrder()
    ensures KeyOf(Describe(Locations([("iso", Str("ID")), ("page", Int(1))])))
         != KeyOf(Describe(Locations([("page", Int(1)), ("iso", Str("ID"))])))
  {
  }

  // ---- Requests, responses and the envelope ----

  /** One outbound GET: the full URL, the query parameters and the headers. */
  datatype Request = Request(url: string, query: Query, headers: seq<(string, string)>)

  /** The GET that `get` issues on a miss. */
  function RequestFor(base: string, apiKey: string, c: Call): Request {
    Request(base + c.path, c.query, [("X-API-Key", apiKey)])
  }

  /**
   * What the upstream answers: a response (body already decoded as JSON, a
   * body that is not JSON decoding to null; header lines by lower-case
   * name), or a transport failure.
   */
  datatype Response =
    | Response(status: int, body: Value, headerLines: map<string, string>)
    | Unreachable(reason: string)

  /** The exception `->throw()` or the transport raises; its message is what pages show. */
  datatype Failure = Transport(reason: string) | HttpError(status: int, body: Value)

  datatype RateLimit = RateLimit(used: string, remaining: string, reset: string)

  /** The array `get` returns: `['data' => ..., 'headers' => [...]]`. */
  datatype Envelope = Envelope(data: Value, headers: RateLimit)

  datatype Outcome = Ok(envelope: Envelope) | Err(failure: Failure)

  /** `$res->header(name)`: the header line, or "" when the header is absent. */
  function HeaderLine(lines: map<string, string>, name: string): string {
    if name in lines then lines[name] else ""
  }

  /** A status that makes `->throw()` raise: a client or server error. */
  predicate Throws(status: int) {
    status >= 400
  }

  /** The closure passed to `Cache::remember`: throw on failure, else build the envelope. */
  function Receive(resp: Response): (r: Outcome)
    ensures r.Ok? <==> resp.Response? && !Throws(resp.status)
    ensures r.Ok? ==> r.envelope.data == resp.body
    ensures r.Ok? ==> r.envelope.headers == RateLimit(
      HeaderLine(resp.headerLines, "x-ratelimit-used"),
      HeaderLine(resp.headerLines, "x-ratelimit-remaining"),
      HeaderLine(resp.headerLines, "x-ratelimit-reset"))
    ensures resp.Unreachable? ==> r == Err(Transport(resp.reason))
    ensures resp.Response? && Throws(resp.status) ==> r == Err(HttpError(resp.status, resp.body))
  {
    match resp
    case Unreachable(reason) => Err(Transport(reason))
    case Response(status, body, lines) =>
      if Throws(status) then Err(HttpError(status, body))
      else Ok(Envelope(body, RateLimit(
        HeaderLine(lines, "x-ratelimit-used"),
        HeaderLine(lines, "x-ratelimit-remaining"),
        HeaderLine(lines, "x-ratelimit-reset"))))
  }

  /** The envelope as the PHP array callers index into. */
  function EnvelopeArray(env: Envelope): Value {
    Object([
      ("data", env.data),
      ("headers", HeadersArray(env.headers))])
  }

  function HeadersArray(h: RateLimit): Value {
    Object([("used", Str(h.used)), ("remaining", Str(h.remaining)), ("reset", Str(h.reset))])
  }

  /**
   * The envelope has exactly the keys data and headers, its headers exactly
   * used, remaining and reset; `$res['headers']` is always set, and
   * `$res['data'][...]` reads the upstream body.
   */
  lemma EnvelopeShape(env: Envelope, p: seq<Seg>)
    ensures KeysOf(EnvelopeArray(env).fields) == ["data", "headers"]
    ensures KeysOf(HeadersArray(env.headers).fields) == ["used", "remaining", "reset"]
    ensures Lookup(EnvelopeArray(env), [Field("headers")]) == Some(HeadersArray(env.headers))
    ensures Lookup(EnvelopeArray(env), [Field("data")] + p) == Lookup(env.data, p)
  {
    var a := EnvelopeArray(env);
    assert Lookup(a, [Field("headers")]) == Some(HeadersArray(env.headers)) by {
      FieldOfDistinct(a.fields, 1);
      assert Step(a, Field("headers")) == Some(HeadersArray(env.headers));
    }
    LookupAppend(a, [Field("data")], p);
    if env.data != Null {
      assert Lookup(a, [Field("data")]) == Some(env.data) by {
        assert Step(a, Field("data")) == Some(env.data);
      }
    } else {
      assert Lookup(a, [Field("data")]) == None by {
        assert Step(a, Field("data")) == None;
      }
      if |p| > 0 {
        assert Step(Null, p[0]) == None;
      }
    }
  }

  /** The body's `results`, read through the envelope, or the default when unset. */
  function ResultsOr(env: Envelope, default: Value): (r: Value)
    ensures r == LookupOr(env.data, [Field("results")], default)
  {
    EnvelopeShape(env, [Field("results")]);
    LookupOr(EnvelopeArray(env), [Field("data"), Field("results")], default)
  }

  /** The first of the body's `results`, read through the envelope, or the default when unset. */
  function FirstResultOr(env: Envelope, default: Value): (r: Value)
    ensures r == LookupOr(env.data, [Field("results"), At(0)], default)
  {
    EnvelopeShape(env, [Field("results"), At(0)]);
    LookupOr(EnvelopeArray(env), [Field("data"), Field("results"), At(0)], default)
  }

  // ---- The cache-aside step: Cache::remember ----

  datatype Entry = Entry(envelope: Envelope, expiresAt: int)

  type Cache = map<CacheKey, Entry>

  /** An entry is served while the clock is before its expiry. */
  predicate Live(entries: Cache, now: int, k: CacheKey) {
    k in entries && now < entries[k].expiresAt
  }

  /** `put(k, env, ttl)`: store until now + ttl; a non-positive TTL forgets the key. */
  function Stored(entries: Cache, now: int, k: CacheKey, env: Envelope, ttl: int): Cache {
    if ttl > 0 then entries[k := Entry(env, now + ttl)] else entries - {k}
  }

  /**
   * `Cache::remember(k, ttl, fetch)`: a live entry is returned as it is and
   * the store is unchanged; otherwise the fetch runs, a failure propagates
   * and stores nothing, and a success is stored and returned.
   */
  function Remember(entries: Cache, now: int, k: CacheKey, ttl: int, fetched: Outcome): (Outcome, Cache) {
    if Live(entries, now, k) then (Ok(entries[k].envelope), entries)
    else match fetched
      case Err(_) => (fetched, entries)
      case Ok(env) => (fetched, Stored(entries, now, k, env, ttl))
  }

  /** A hit neither looks at the upstream nor changes the store. */
  lemma HitIgnoresUpstream(entries: Cache, now: int, k: CacheKey, ttl: int, f1: Outcome, f2: Outcome)
    requires Live(entries, now, k)
    ensures Remember(entries, now, k, ttl, f1) == Remember(entries, now, k, ttl, f2)
    ensures Remember(entries, now, k, ttl, f1) == (Ok(entries[k].envelope), entries)
  {
  }

  /**
   * A successful miss with TTL T at time t is served, unchanged and without
   * a new fetch, at every later time before t + T; from t + T on the next
   * call fetches again.
   */
  lemma ServedUntilExpiry(entries: Cache, t: int, k: CacheKey, ttl: int, fetched: Outcome,
                          t2: int, ttl2: int, refetched: Outcome)
    requires !Live(entries, t, k) && fetched.Ok? && ttl > 0 && t <= t2
    ensures var (r1, e1) := Remember(entries, t, k, ttl, fetched);
            var (r2, e2) := Remember(e1, t2, k, ttl2, refetched);
            && r1 == fetched
            && (t2 < t + ttl ==> r2 == r1 && e2 == e1)
            && (t2 >= t + ttl ==> r2 == refetched)
  {
  }

  /** A failed miss stores nothing, so the next identical call fetches again. */
  lemma FailureNotCached(entries: Cache, now: int, k: CacheKey, ttl: int, failed: Outcome,
                         later: int, ttl2: int, refetched: Outcome)
    requires !Live(entries, now, k) && failed.Err? && now <= later
    ensures Remember(entries, now, k, ttl, failed) == (failed, entries)
    ensures Remember(entries, later, k, ttl2, refetched).0 == refetched
  {
  }

  /** Only the entry under the call's own key can change. */
  lemma OtherKeysUntouched(entries: Cache, now: int, k: CacheKey, ttl: int, fetched: Outcome, k2: CacheKey)
    requires k2 != k
    ensures var e := Remember(entries, now, k, ttl, fetched).1;
            (k2 in e <==> k2 in entries) && (k2 in e ==> e[k2] == entries[k2])
  {
  }

  /** What `get` returns for a call, given the store, the clock and the upstream. */
  function AnswerFrom(entries: Cache, now: int, base: string, apiKey: string, c: Call,
                      upstream: Request -> Response): Outcome {
    Remember(entries, now, KeyOf(c), c.ttl, Receive(upstream(RequestFor(base, apiKey, c)))).0
  }

  /** A call under one key leaves the answer to a call under another key as it was. */
  lemma AnswerIndependent(entries: Cache, now: int, k: CacheKey, ttl: int, fetched: Outcome,
                          base: string, apiKey: string, c: Call, upstream: Request -> Response)
    requires KeyOf(c) != k
    ensures AnswerFrom(Remember(entries, now, k, ttl, fetched).1, now, base, apiKey, c, upstream)
         == AnswerFrom(entries, now, base, apiKey, c, upstream)
  {
    OtherKeysUntouched(entries, now, k, ttl, fetched, KeyOf(c));
  }

  /** The store, its clock and the log of sent GETs, as one value. */
  datatype Snapshot = Snapshot(entries: Cache, now: int, sent: seq<Request>)

  /** What a sequence of calls leaves: the new state and the outcomes the calls returned. */
  datatype Run = Run(after: Snapshot, outcomes: seq<Outcome>)

  /**
   * The method calls `es` made one after another from state `s`, at one
   * clock reading, stopping after the first call that fails (a page's
   * calls in sequence, where an exception ends the load). A miss appends
   * its GET to the log; a hit sends nothing.
   */
  function RunCalls(s: Snapshot, base: string, apiKey: string, es: seq<Endpoint>,
                    upstream: Request -> Response): Run
    decreases |es|
  {
    if |es| == 0 then Run(s, [])
    else
      var c := Describe(es[0]);
      var req := RequestFor(base, apiKey, c);
      var sent := if Live(s.entries, s.now, KeyOf(c)) then s.sent else s.sent + [req];
      var (r, entries) := Remember(s.entries, s.now, KeyOf(c), c.ttl, Receive(upstream(req)));
      var next := Snapshot(entries, s.now, sent);
      if r.Err? then Run(next, [r])
      else
        var rest := RunCalls(next, base, apiKey, es[1..], upstream);
        Run(rest.after, [r] + rest.outcomes)
  }

  /** The call in position k was made and succeeded. */
  predicate Succeeded(outcomes: seq<Outcome>, k: nat) {
    k < |outcomes| && outcomes[k].Ok?
  }

  /** The failure that ended a run, if one did. */
  function Failed(outcomes: seq<Outcome>): Option<Failure> {
    if |outcomes| > 0 && outcomes[|outcomes| - 1].Err? then Some(outcomes[|outcomes| - 1].failure) else None
  }

  /** After a first success, call k + 1 of a run is call k of the rest, and the run fails as the rest does. */
  lemma SucceededShift(r: Outcome, rest: seq<Outcome>, k: nat)
    requires r.Ok?
    ensures Succeeded([r] + rest, k + 1) == Succeeded(rest, k)
    ensures Succeeded(rest, k) ==> ([r] + rest)[k + 1] == rest[k]
    ensures Succeeded([r] + rest, 0) && ([r] + rest)[0] == r
    ensures Failed([r] + rest) == Failed(rest)
  {
  }

  /** The answer a call gets in state `s`. */
  function AnswerIn(s: Snapshot, base: string, apiKey: string, e: Endpoint, upstream: Request -> Response): Outcome {
    AnswerFrom(s.entries, s.now, base, apiKey, Describe(e), upstream)
  }

  /** A run whose first call fails ends with that call. */
  lemma RunCallsStop(s: Snapshot, base: string, apiKey: string, e: Endpoint, es: seq<Endpoint>,
                     upstream: Request -> Response)
    requires AnswerIn(s, base, apiKey, e, upstream).Err?
    ensures RunCalls(s, base, apiKey, [e] + es, upstream) == RunCalls(s, base, apiKey, [e], upstream)
  {
    assert ([e] + es)[0] == e;
  }

  /**
   * A run whose first call succeeds is that call's answer followed by the
   * run of the rest from the state the first call leaves.
   */
  lemma RunCallsThen(s: Snapshot, base: string, apiKey: string, e: Endpoint, es: seq<Endpoint>,
                     upstream: Request -> Response)
    requires AnswerIn(s, base, apiKey, e, upstream).Ok?
    ensures var rest := RunCalls(RunCalls(s, base, apiKey, [e], upstream).after, base, apiKey, es, upstream);
            var run := RunCalls(s, base, apiKey, [e] + es, upstream);
            && run.after == rest.after
            && run.outcomes == [AnswerIn(s, base, apiKey, e, upstream)] + rest.outcomes
  {
    assert ([e] + es)[0] == e && ([e] + es)[1..] == es;
    assert [e][1..] == [];
  }

  /**
   * A run keeps the clock, makes at most one outcome per call and at least
   * one when there are calls, every outcome but the last is a success, and
   * a run that stops early ends in a failure.
   */
  lemma {:induction false} RunCallsShape(s: Snapshot, base: string, apiKey: string,
                                         es: seq<Endpoint>, upstream: Request -> Response)
    ensures var run := RunCalls(s, base, apiKey, es, upstream);
            var o := run.outcomes;
            && run.after.now == s.now
            && |o| <= |es| && (|es| > 0 ==> |o| > 0)
            && (forall j :: 0 <= j < |o| - 1 ==> o[j].Ok?)
            && (0 < |o| < |es| ==> o[|o| - 1].Err?)
    decreases |es|
  {
    if |es| > 0 {
      var c := Describe(es[0]);
      var req := RequestFor(base, apiKey, c);
      var sent := if Live(s.entries, s.now, KeyOf(c)) then s.sent else s.sent + [req];
      var (r, entries) := Remember(s.entries, s.now, KeyOf(c), c.ttl, Receive(upstream(req)));
      var next := Snapshot(entries, s.now, sent);
      if r.Ok? {
        RunCallsShape(next, base, apiKey, es[1..], upstream);
        var rest := RunCalls(next, base, apiKey, es[1..], upstream);
        assert RunCalls(s, base, apiKey, es, upstream).outcomes == [r] + rest.outcomes;
      }
    }
  }

  /**
   * Among distinct calls, the outcomes are the calls' answers in the state
   * before the run, up to and including the first failure: every outcome
   * but the last is a success, and a run that stops early ends in a
   * failure. The clock does not move.
   */
  lemma {:induction false} RunCallsOutcomes(s: Snapshot, base: string, apiKey: string,
                                            es: seq<Endpoint>, upstream: Request -> Response)
    requires forall j, m :: 0 <= j < m < |es| ==> es[j] != es[m]
    ensures var run := RunCalls(s, base, apiKey, es, upstream);
            var o := run.outcomes;
            && run.after.now == s.now
            && |o| <= |es| && (|es| > 0 ==> |o| > 0)
            && (forall j :: 0 <= j < |o| ==> o[j] == AnswerIn(s, base, apiKey, es[j], upstream))
            && (forall j :: 0 <= j < |o| - 1 ==> o[j].Ok?)
            && (0 < |o| < |es| ==> o[|o| - 1].Err?)
    decreases |es|
  {
    RunCallsShape(s, base, apiKey, es, upstream);
    if |es| > 0 {
      var c := Describe(es[0]);
      var req := RequestFor(base, apiKey, c);
      var sent := if Live(s.entries, s.now, KeyOf(c)) then s.sent else s.sent + [req];
      var (r, entries) := Remember(s.entries, s.now, KeyOf(c), c.ttl, Receive(upstream(req)));
      var next := Snapshot(entries, s.now, sent);
      if r.Ok? {
        forall j, m | 0 <= j < m < |es[1..]| ensures es[1..][j] != es[1..][m] {
          assert es[1..][j] == es[j + 1] && es[1..][m] == es[m + 1];
        }
        RunCallsOutcomes(next, base, apiKey, es[1..], upstream);
        var rest := RunCalls(next, base, apiKey, es[1..], upstream);
        var o := RunCalls(s, base, apiKey, es, upstream).outcomes;
        assert o == [r] + rest.outcomes;
        forall j | 1 <= j < |o|
          ensures o[j] == AnswerIn(s, base, apiKey, es[j], upstream)
        {
          assert o[j] == rest.outcomes[j - 1] && es[1..][j - 1] == es[j];
          if KeyOf(Describe(es[j])) == KeyOf(c) {
            EndpointsNeverShareKey(es[j], es[0]);
          }
          AnswerIndependent(s.entries, s.now, KeyOf(c), c.ttl, Receive(upstream(req)),
                            base, apiKey, Describe(es[j]), upstream);
        }
      }
    }
  }


  /** A key none of the calls uses keeps its entry, or its absence. */
  lemma {:induction false} RunCallsOtherKeys(s: Snapshot, base: string, apiKey: string,
                                             es: seq<Endpoint>, upstream: Request -> Response, k: CacheKey)
    requires forall j :: 0 <= j < |es| ==> KeyOf(Describe(es[j])) != k
    ensures var after := RunCalls(s, base, apiKey, es, upstream).after;
            && after.now == s.now
            && (k in after.entries <==> k in s.entries)
            && (k in after.entries ==> after.entries[k] == s.entries[k])
    decreases |es|
  {
    if |es| > 0 {
      var c := Describe(es[0]);
      var req := RequestFor(base, apiKey, c);
      var sent := if Live(s.entries, s.now, KeyOf(c)) then s.sent else s.sent + [req];
      var (r, entries) := Remember(s.entries, s.now, KeyOf(c), c.ttl, Receive(upstream(req)));
      OtherKeysUntouched(s.entries, s.now, KeyOf(c), c.ttl, Receive(upstream(req)), k);
      if r.Ok? {
        forall j | 0 <= j < |es[1..]| ensures KeyOf(Describe(es[1..][j])) != k {
          assert es[1..][j] == es[j + 1];
        }
        RunCallsOtherKeys(Snapshot(entries, s.now, sent), base, apiKey, es[1..], upstream, k);
      }
    }
  }

  /**
   * A method call that is not among the calls answers afterwards exactly
   * as before, whatever the upstream says.
   */
  lemma RunCallsOthers(s: Snapshot, base: string, apiKey: string, es: seq<Endpoint>,
                       upstream: Request -> Response, e: Endpoint, up2: Request -> Response)
    requires e !in es
    ensures AnswerIn(RunCalls(s, base, apiKey, es, upstream).after, base, apiKey, e, up2)
         == AnswerIn(s, base, apiKey, e, up2)
  {
    var k := KeyOf(Describe(e));
    forall j | 0 <= j < |es| ensures KeyOf(Describe(es[j])) != k {
      if KeyOf(Describe(es[j])) == k {
        EndpointsNeverShareKey(es[j], e);
      }
    }
    RunCallsOtherKeys(s, base, apiKey, es, upstream, k);
  }

  /**
   * Among distinct calls, a call that misses the store, succeeds with all
   * the calls before it, and has a positive TTL is stored: for its TTL it is
   * answered from the store with its first answer, whatever the upstream
   * says then.
   */
  lemma {:induction false} RunCallsCached(s: Snapshot, base: string, apiKey: string,
                                          es: seq<Endpoint>, upstream: Request -> Response,
                                          i: nat, later: int, up2: Request -> Response)
    requires i < |es|
    requires forall j, m :: 0 <= j < m < |es| ==> es[j] != es[m]
    requires forall j :: 0 <= j <= i ==> AnswerIn(s, base, apiKey, es[j], upstream).Ok?
    requires !Live(s.entries, s.now, KeyOf(Describe(es[i])))
    requires Describe(es[i]).ttl > 0 && s.now <= later < s.now + Describe(es[i]).ttl
    ensures var after := RunCalls(s, base, apiKey, es, upstream).after;
            && Live(after.entries, later, KeyOf(Describe(es[i])))
            && AnswerIn(Snapshot(after.entries, later, after.sent), base, apiKey, es[i], up2)
               == AnswerIn(s, base, apiKey, es[i], upstream)
    decreases i
  {
    var c := Describe(es[0]);
    var req := RequestFor(base, apiKey, c);
    var sent := if Live(s.entries, s.now, KeyOf(c)) then s.sent else s.sent + [req];
    var (r, entries) := Remember(s.entries, s.now, KeyOf(c), c.ttl, Receive(upstream(req)));
    var next := Snapshot(entries, s.now, sent);
    assert AnswerIn(s, base, apiKey, es[0], upstream).Ok?;
    assert RunCalls(s, base, apiKey, es, upstream).after == RunCalls(next, base, apiKey, es[1..], upstream).after;
    if i == 0 {
      forall j | 0 <= j < |es[1..]| ensures KeyOf(Describe(es[1..][j])) != KeyOf(c) {
        assert es[1..][j] == es[j + 1];
        if KeyOf(Describe(es[j + 1])) == KeyOf(c) {
          EndpointsNeverShareKey(es[j + 1], es[0]);
        }
      }
      RunCallsOtherKeys(next, base, apiKey, es[1..], upstream, KeyOf(c));
    } else {
      forall j | 0 <= j <= i - 1
        ensures AnswerIn(next, base, apiKey, es[1..][j], upstream) == AnswerIn(s, base, apiKey, es[j + 1], upstream)
      {
        assert es[1..][j] == es[j + 1];
        if KeyOf(Describe(es[j + 1])) == KeyOf(c) {
          EndpointsNeverShareKey(es[j + 1], es[0]);
        }
        AnswerIndependent(s.entries, s.now, KeyOf(c), c.ttl, Receive(upstream(req)),
                          base, apiKey, Describe(es[j + 1]), upstream);
      }
      if KeyOf(Describe(es[i])) == KeyOf(c) {
        EndpointsNeverShareKey(es[i], es[0]);
      }
      OtherKeysUntouched(s.entries, s.now, KeyOf(c), c.ttl, Receive(upstream(req)), KeyOf(Describe(es[i])));
      forall j, m | 0 <= j < m < |es[1..]| ensures es[1..][j] != es[1..][m] {
        assert es[1..][j] == es[j + 1] && es[1..][m] == es[m + 1];
      }
      RunCallsCached(next, base, apiKey, es[1..], upstream, i - 1, later, up2);
      assert es[1..][i - 1] == es[i];
    }
  }

  // ---- The stateful parts: the shared cache store and the client ----

  /** The process-wide cache store and its clock (seconds). */
  class CacheStore {
    var entries: Cache
    var now: int

    constructor(start: int)
      ensures entries == map[] && now == start
    {
      entries := map[];
      now := start;
    }

    method Advance(seconds: nat)
      modifies this
      ensures now == old(now) + seconds && entries == old(entries)
    {
      now := now + seconds;
    }

    method Put(k: CacheKey, env: Envelope, ttl: int)
      modifies this
      ensures entries == Stored(old(entries), now, k, env, ttl) && now == old(now)
    {
      if ttl > 0 {
        entries := entries[k := Entry(env, now + ttl)];
      } else {
        entries := entries - {k};
      }
    }
  }

  /** The service object: its trimmed base URL, the API key, the store, and the GETs it has sent. */
  class Client {
    const base: string
    const apiKey: string
    const store: CacheStore
    var sent: seq<Request>

    constructor(configuredBase: string, apiKey: string, store: CacheStore)
      ensures base == TrimTrailingSlashes(configuredBase)
      ensures this.apiKey == apiKey && this.store == store && sent == []
    {
      base := TrimTrailingSlashes(configuredBase);
      this.apiKey := apiKey;
      this.store := store;
      sent := [];
    }

    /** What `get` would return for this call now. */
    function Answer(c: Call, upstream: Request -> Response): Outcome
      reads store
    {
      AnswerFrom(store.entries, store.now, base, apiKey, c, upstream)
    }

    /** The part of the state that calls change: the store, its clock and the log. */
    function Snap(): Snapshot
      reads this, store
    {
      Snapshot(store.entries, store.now, sent)
    }

    /**
     * `get(path, query, ttl)`: on a hit the stored envelope comes back and no
     * request is sent; on a miss exactly one GET to base + path, with the
     * query and the X-API-Key header, is sent and its outcome is stored
     * (success only) and returned.
     */
    method Get(c: Call, upstream: Request -> Response) returns (r: Outcome)
      modifies this, store
      ensures r == old(Answer(c, upstream))
      ensures store.now == old(store.now)
      ensures (r, store.entries) == Remember(old(store.entries), store.now, KeyOf(c), c.ttl,
                                             Receive(upstream(RequestFor(base, apiKey, c))))
      ensures sent == if old(Live(store.entries, store.now, KeyOf(c))) then old(sent)
                      else old(sent) + [RequestFor(base, apiKey, c)]
    {
      var k := KeyOf(c);
      if Live(store.entries, store.now, k) {
        r := Ok(store.entries[k].envelope);
        return;
      }
      var req := RequestFor(base, apiKey, c);
      sent := sent + [req];
      r := Receive(upstream(req));
      if r.Ok? {
        store.Put(k, r.envelope, c.ttl);
      }
    }

    /**
     * One of the public endpoint methods: `get` on the method's path, query
     * and TTL. Every other method's answer stays as it was
     * (`RunCallsOthers`).
     */
    method Fetch(e: Endpoint, upstream: Request -> Response) returns (r: Outcome)
      modifies this, store
      ensures r == old(Answer(Describe(e), upstream))
      ensures RunCalls(old(Snap()), base, apiKey, [e], upstream) == Run(Snap(), [r])
    {
      r := Get(Describe(e), upstream);
    }
  }
}
