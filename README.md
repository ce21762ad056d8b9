# OpenAQ dashboard core, modelled in Dafny

The system is a Laravel/Livewire dashboard over the OpenAQ v3 air-quality REST API. This project models its core and proves properties of the model.

**The gateway** (`app/Services/OpenAQ.php`):
- trims the configured base URL;
- maps each public method to a path, a query and a cache TTL;
- derives the cache key from the path and the query;
- wraps each GET in `Cache::remember`, with `->throw()` on HTTP errors;
- returns an envelope `['data' => body, 'headers' => [used, remaining, reset]]`.

**The four pages and components that use it:**
- **Parameter sync** (`parameters.blade.php`): maps the `/v3/parameters` results to rows and filters out rows without an id or a name. It upserts the rest into the local table, keyed by `openaq_id`, then reloads and reports the count.
- **Station search** (`discover.blade.php`): builds the `/v3/locations` query from the form state. `coordinates`/`radius` and `parameters_id` are added only when PHP truthiness allows.
- **Location page** (`location-show.blade.php`): makes four sequential calls that stop at the first exception. For each row of the latest table it resolves:
  - the time (`datetime`/`date`, `local`/`utc`);
  - the coordinates;
  - the matching sensor, by a first-match `foreach` under PHP's loose `==`;
  - the parameter's name and unit.
- **Sensor chart** (`sensor-chart.blade.php`): chooses the `days` or `hours` endpoint, takes the parameter's name and unit from the first point, and emits a `draw-chart` event.

**Modules**, one file each:
- `Wrappers`: `Option`.
- `Decimal`: PHP's rendering of `int` in strings and its `(int)` cast of strings.
- `Php`: the PHP value model. It covers:
  - `??` under isset semantics;
  - truthiness, loose `==` and `(int)`;
  - `collect`, `data_get`, `foreach`;
  - ordered string-keyed arrays with PHP assignment semantics.
- `OpenAQ`: routes and a path parser, the endpoint table, the cache key, the pure `Remember` step, and two classes. `CacheStore` is the process-wide store and its clock. `Client` is the service object; it logs the requests it sends.
- `ParametersPage`, `DiscoverPage`, `LocationShowPage` and `SensorChart`: one class per Livewire component, whose fields are the component's state.

**How outside things are represented:**
- **The upstream API** is a function `Request -> Response`, passed to each call. It stands for what the network would answer at that moment.
- **The clock** is `CacheStore.now` (seconds). The `now()` timestamps of the sync are a `clock` parameter.
- **The state a call changes** is a `Snapshot`: the store's entries, its clock, and the log of GETs the client has sent. `RunCalls` is the run of a page's calls in order from one snapshot, stopping at the first failure. It gives the outcomes of the calls and the snapshot they leave.
- **Each page method** states its new fields in terms of that run's outcomes. It also states that the client's snapshot afterwards is the run's final snapshot: which entries are stored, that the clock has not moved, and which GETs were sent. Lemmas about `RunCalls` then give the consequences:
  - the outcomes are the calls' answers in the state before the load (`RunCallsOutcomes`). This holds because two different endpoint calls never share a cache key (`EndpointsNeverShareKey`);
  - every other endpoint call answers afterwards as before (`RunCallsOthers`);
  - a call that missed and succeeded is served from the store, unchanged, for its TTL (`RunCallsCached`);
  - a second parameter sync within 3600 s sends no request and gets the same answer (`ResyncWithinHour`).

**Points where the code behaves in a way a reader may not expect**; the model follows the code:
- The cache key is the JSON encoding of the query as given. The key therefore depends on the insertion order of the filters (`KeyDependsOnQueryOrder`); it is not a canonical form.
- Laravel's `header()` returns `""` for a missing header, so the rate-limit triple holds strings, never null.
- `->throw()` raises for status >= 400, not for every non-2xx status.
- A body that is not JSON decodes to null; no separate decode error exists.
- A missing base URL is not rejected; `rtrim` yields the empty string.
- A cache TTL <= 0 forgets the key.
- A sync batch that repeats an `openaq_id` is modelled as applied row by row, so the last row wins. This is a modelling choice: what a real database does with such a batch depends on its driver, and PostgreSQL rejects it.

## Model

| member | source | states |
|---|---|---|
| Decimal.IntToString | app/Services/OpenAQ.php:38 | The rendering is non-empty and contains no '/', so it fills exactly one path segment |
| Decimal.NatToString | app/Services/OpenAQ.php:38 | The rendering is a non-empty digit string with no leading zero |
| Decimal.IntToStringRoundTrip | app/Services/OpenAQ.php:38-68 | The decimal rendering interpolated into a path parses back to the same integer |
| Decimal.IntToStringInjective | app/Services/OpenAQ.php:38-68 | Distinct ids render to distinct path segments |
| Decimal.LeadingInt | resources/views/livewire/pages/location-show.blade.php:19 | PHP's `(int)` of a string: its leading signed digit run, 0 when there is none; `LeadingIntOfIntToString` states its round trip |
| Decimal.LeadingIntOfIntToString | resources/views/livewire/pages/location-show.blade.php:19 | `(int)` of an integer's rendering gives the integer back |
| Php.Step | resources/views/livewire/pages/location-show.blade.php:80 | One `??` access never yields a set null: a null value counts as missing |
| Php.Lookup | resources/views/livewire/pages/location-show.blade.php:80-81 | A nested `??` access never yields a set null |
| Php.LookupOr | resources/views/livewire/pages/parameters.blade.php:28-32 | `$v[...] ?? d` is the value found when the access is set, and d exactly when it is not |
| Php.Coalesce | resources/views/livewire/pages/parameters.blade.php:30-31 | A `??` chain over several accesses; `CoalesceFirstDefined` states its meaning |
| Php.CoalesceFirstDefined | resources/views/livewire/pages/parameters.blade.php:30-31 | A `??` chain yields the first set access (with all earlier ones unset), or the default when none is set |
| Php.LookupAppend | resources/views/livewire/pages/location-show.blade.php:81 | A nested access equals the tail access applied to what the head access finds, and is unset when the head is unset |
| Php.Truthy | resources/views/livewire/pages/discover.blade.php:30-34 | PHP's truthiness: null, false, 0, a zero float, "", "0" and the empty array are falsy; `SearchQueryNearby`, `SearchQueryParameter` and `FindSensor` state what the pages do with it |
| Php.LooseEquals | resources/views/livewire/pages/location-show.blade.php:92 | PHP 8's loose `==` for the operand kinds the sensor search compares; `NullNeverMatches` and `FindSensor` state its use |
| Php.ToInt | resources/views/livewire/pages/location-show.blade.php:19 | PHP's `(int)` cast of every value kind, floats by their rendering's leading digits; `ChartRoute` and `LocationShowPage.Component.Load` state where it is applied |
| Php.Render | resources/views/livewire/pages/discover.blade.php:31 | PHP's string conversion used by interpolation and `.`; `SearchQueryNearby` states the coordinates string it builds |
| Php.DataGet | resources/views/livewire/pages/parameters.blade.php:24 | `data_get` for one key: the stored value, even null, when the key exists; `PayloadMembers` states what the sync makes of the items |
| Php.CollectItems | resources/views/livewire/pages/parameters.blade.php:26 | The items `collect` iterates: none for null, a one-item collection for a scalar; `PayloadMembers` states the payload built from them |
| Php.Elements | resources/views/livewire/pages/location-show.blade.php:91 | The values `foreach` visits, in order: a list's items or an array's values, none for a scalar; `FindSensor` states the search over them |
| Php.FieldOfPresent | resources/views/livewire/pages/discover.blade.php:23-34 | A key lookup finds a value exactly when some pair carries the key |
| Php.HasKeyIffListed | resources/views/livewire/pages/discover.blade.php:23-34 | A key is present exactly when it is in the array's key list |
| Php.FieldOfDistinct | resources/views/livewire/pages/discover.blade.php:23-34 | With distinct keys, looking up a pair's key returns that pair's value |
| Php.FieldOfAppend | resources/views/livewire/pages/discover.blade.php:30-34 | A lookup in a concatenation looks in the first part first |
| Php.KeysOfAppend | resources/views/livewire/pages/discover.blade.php:30-34 | The keys of a concatenation are the concatenated keys |
| Php.Put | resources/views/livewire/pages/discover.blade.php:31-34 | `$q[k] = v` on an ordered array; `PutShape`, `PutLookup` and `PutFresh` state its meaning |
| Php.PutShape | resources/views/livewire/pages/discover.blade.php:31-34 | Assigning an existing key keeps every position's key; assigning a new key appends the pair at the end |
| Php.PutLookup | resources/views/livewire/pages/discover.blade.php:31-34 | After `$q[k] = v`, k reads v, every other key reads as before, and distinct keys stay distinct |
| Php.PutFresh | resources/views/livewire/pages/discover.blade.php:31-34 | Assigning an absent key appends exactly that pair, and its key goes last |
| Php.AppendFresh | resources/views/livewire/pages/discover.blade.php:31-34 | Appending an absent key keeps the keys distinct |
| OpenAQ.TrimTrailingSlashes | app/Services/OpenAQ.php:14 | The trimmed base is a prefix of the configured base, does not end in '/', and only slashes were removed |
| OpenAQ.TrimIdempotent | app/Services/OpenAQ.php:14 | Trimming a trimmed base changes nothing |
| OpenAQ.PathOf | app/Services/OpenAQ.php:37-72 | The path string of each resource, `/v3/...` with the id interpolated; `ParseRoutePathOf` and `PathOfInjective` state that it identifies the resource |
| OpenAQ.SplitJoin | app/Services/OpenAQ.php:37-72 | Splitting a joined path gives back its segments |
| OpenAQ.RecogniseSegments | app/Services/OpenAQ.php:37-72 | The segments of each path template are recognised as that template, ids included |
| OpenAQ.RecogniseCollection | app/Services/OpenAQ.php:37-72 | The same, for the two-segment collection paths |
| OpenAQ.RecogniseWithId | app/Services/OpenAQ.php:38-68 | The same, for the paths that carry an id |
| OpenAQ.RecogniseLocationPath | app/Services/OpenAQ.php:38-41 | The same, for the id paths under /v3/locations |
| OpenAQ.RecogniseSensorPath | app/Services/OpenAQ.php:45-61 | The same, for the id paths under /v3/sensors |
| OpenAQ.ParseRoutePathOf | app/Services/OpenAQ.php:37-72 | Every path the service builds parses back to the resource it was built from |
| OpenAQ.PathOfInjective | app/Services/OpenAQ.php:37-72 | Different resources (template or id) give different paths |
| OpenAQ.Describe | app/Services/OpenAQ.php:37-72 | The public methods' table: each call's path, query and TTL; `EndpointRoute`, `EndpointTable` and `DescribeDetermines` state its content |
| OpenAQ.TtlOf | app/Services/OpenAQ.php:17-72 | The TTL each resource is fetched with; `EndpointTable` states the values |
| OpenAQ.EndpointRoute | app/Services/OpenAQ.php:37-72 | The path each public method passes to `get` names that method's resource |
| OpenAQ.EndpointTable | app/Services/OpenAQ.php:37-72 | Filter-taking methods pass their filters unchanged, id-only methods pass no query, and the TTL is 3600 s for parameters, 600 s for providers and countries, and the 60 s default elsewhere |
| OpenAQ.DescribeDetermines | app/Services/OpenAQ.php:37-72 | A method call can be recovered from its resource and the query it sends |
| OpenAQ.KeyOf | app/Services/OpenAQ.php:19 | The cache key: the path with the query as given; `EndpointsNeverShareKey` and `KeyDependsOnQueryOrder` state what it distinguishes |
| OpenAQ.EndpointsNeverShareKey | app/Services/OpenAQ.php:19 | Two method calls with the same cache key are the same call |
| OpenAQ.KeyDependsOnQueryOrder | app/Services/OpenAQ.php:19 | The same filters in another order give another cache key |
| OpenAQ.RequestFor | app/Services/OpenAQ.php:21-22 | The GET a miss sends: base + path, the query, and the X-API-Key header; `Client.Get` states when it is sent |
| OpenAQ.Throws | app/Services/OpenAQ.php:23 | The statuses `->throw()` raises for, 400 and above; `Receive` states its use |
| OpenAQ.HeaderLine | app/Services/OpenAQ.php:28-30 | `header()` of a response: the header's value, or "" when it is absent; `Receive` states its use |
| OpenAQ.Receive | app/Services/OpenAQ.php:20-32 | Success exactly for a response below 400, with the body as data and the three rate-limit header lines ("" when absent); a transport failure or an HTTP error otherwise |
| OpenAQ.EnvelopeArray | app/Services/OpenAQ.php:25-32 | The envelope as the array callers index into; `EnvelopeShape`, `ResultsOr` and `FirstResultOr` state how it reads |
| OpenAQ.HeadersArray | app/Services/OpenAQ.php:27-31 | The `headers` entry of the envelope; `EnvelopeShape` states its keys |
| OpenAQ.EnvelopeShape | app/Services/OpenAQ.php:25-32 | The envelope has exactly the keys data and headers, headers has exactly used, remaining and reset, `['headers']` is always set, and `['data']` followed by any path reads that path on the body |
| OpenAQ.ResultsOr | resources/views/livewire/pages/discover.blade.php:37 | Reading `['data']['results'] ?? d` through the envelope is reading `['results'] ?? d` on the body |
| OpenAQ.FirstResultOr | resources/views/livewire/pages/location-show.blade.php:19 | Reading `['data']['results'][0] ?? d` through the envelope is reading `['results'][0] ?? d` on the body |
| OpenAQ.Live | app/Services/OpenAQ.php:20 | A key holds an entry that has not expired at the current time; `HitIgnoresUpstream` and `ServedUntilExpiry` state what a live key means for a call |
| OpenAQ.Stored | app/Services/OpenAQ.php:20 | The entries after a put: the envelope kept until now + ttl, or the key forgotten when ttl <= 0; `CacheStore.Put` and `ServedUntilExpiry` state its effect |
| OpenAQ.Remember | app/Services/OpenAQ.php:20 | `Cache::remember` on the store's entries: a live entry is returned, otherwise the fetched outcome, and a success is stored; the lemmas below state its behaviour |
| OpenAQ.HitIgnoresUpstream | app/Services/OpenAQ.php:20 | A live entry is returned as is, the store is unchanged, and the upstream's answer plays no part |
| OpenAQ.ServedUntilExpiry | app/Services/OpenAQ.php:20 | A stored success is served unchanged until its TTL elapses, and from then on the call fetches again |
| OpenAQ.FailureNotCached | app/Services/OpenAQ.php:20-23 | A failed fetch stores nothing and propagates, so the next identical call fetches again |
| OpenAQ.OtherKeysUntouched | app/Services/OpenAQ.php:19-20 | A call changes no entry under another key |
| OpenAQ.AnswerIndependent | app/Services/OpenAQ.php:19-20 | A call under one key leaves the answer for every other key unchanged |
| OpenAQ.RunCalls | app/Services/OpenAQ.php:17-34 | A page's calls in order from one state, at one clock reading, stopping at the first failure: each miss logs its GET and stores a success, a hit sends nothing; the lemmas below state its behaviour |
| OpenAQ.RunCallsStop | resources/views/livewire/pages/location-show.blade.php:18-25 | A run whose first call throws ends with that call |
| OpenAQ.RunCallsThen | resources/views/livewire/pages/location-show.blade.php:18-23 | A run whose first call succeeds is that answer followed by the run of the rest from the state the first call leaves |
| OpenAQ.RunCallsShape | resources/views/livewire/pages/location-show.blade.php:18-25 | A run keeps the clock, makes at most one outcome per call, every outcome but the last is a success, and a run that stops early ends in a failure |
| OpenAQ.RunCallsOutcomes | resources/views/livewire/pages/location-show.blade.php:18-25 | Among distinct calls, each outcome is that call's answer in the state before the run, up to and including the first failure |
| OpenAQ.RunCallsOtherKeys | app/Services/OpenAQ.php:19-20 | A key none of the calls uses keeps its entry, or its absence, and the clock does not move |
| OpenAQ.RunCallsOthers | app/Services/OpenAQ.php:19-20 | An endpoint call not among the run's calls answers afterwards exactly as before, whatever the upstream says |
| OpenAQ.RunCallsCached | app/Services/OpenAQ.php:20 | A call that missed and succeeded, after calls that all succeeded, is live in the store for its TTL and answered with its first answer whatever the upstream says |
| OpenAQ.CacheStore.constructor | app/Services/OpenAQ.php:20 | The store starts empty at the given clock reading |
| OpenAQ.CacheStore.Advance | app/Services/OpenAQ.php:20 | Time passes: the clock moves forward by the given seconds and the entries stay, so TTLs can lapse |
| OpenAQ.CacheStore.Put | app/Services/OpenAQ.php:20 | Storing keeps the entry until now + ttl; a ttl <= 0 forgets the key |
| OpenAQ.Client.constructor | app/Services/OpenAQ.php:12-15 | The client holds the trimmed base, its key and the store, and has sent nothing |
| OpenAQ.Client.Get | app/Services/OpenAQ.php:17-34 | Returns the remember step's answer and leaves the store in the remember step's state at the same clock reading; one GET to base + path, with the query and the X-API-Key header, is logged exactly on a miss |
| OpenAQ.Client.Fetch | app/Services/OpenAQ.php:37-72 | A public method call returns its table entry's answer, and the store, clock and log it leaves are those of the one-call run |
| ParametersPage.RowOf | resources/views/livewire/pages/parameters.blade.php:26-35 | The row built from one item, each column by its `??` chain; `ItemWithoutIdOrNameDropped` and `PayloadMembers` state what is kept |
| ParametersPage.Keep | resources/views/livewire/pages/parameters.blade.php:36 | The filter's test, a non-null openaq_id and name; `SurvivorsMembers` and `ItemWithoutIdOrNameDropped` state what it keeps |
| ParametersPage.Rows | resources/views/livewire/pages/parameters.blade.php:26-35 | The map gives one row per item |
| ParametersPage.Survivors | resources/views/livewire/pages/parameters.blade.php:36 | The `filter()->values()` step; `SurvivorsMembers` and `SurvivorsAppend` state its meaning |
| ParametersPage.SurvivorsMembers | resources/views/livewire/pages/parameters.blade.php:36 | The filter keeps exactly the rows that have id and name |
| ParametersPage.SurvivorsAppend | resources/views/livewire/pages/parameters.blade.php:36 | The filter distributes over concatenation |
| ParametersPage.PayloadMembers | resources/views/livewire/pages/parameters.blade.php:26-36 | The payload holds exactly the mapped rows that have a non-null id and name, and no more rows than there are items |
| ParametersPage.PayloadAppend | resources/views/livewire/pages/parameters.blade.php:26-36 | Map and filter keep the items' order: the payload of a concatenation is the concatenation of the payloads |
| ParametersPage.Payload | resources/views/livewire/pages/parameters.blade.php:26-36 | Map then filter; `PayloadMembers` and `PayloadAppend` state its content and order |
| ParametersPage.SyncItems | resources/views/livewire/pages/parameters.blade.php:24 | The items the sync maps: `data_get($res, 'data.results', [])`, collected; `SyncItemsOfBody` states it |
| ParametersPage.SyncItemsOfBody | resources/views/livewire/pages/parameters.blade.php:24-26 | Reading `data.results` through the envelope is reading `results` on the body; a stored null results entry, or a body that is not an array, gives no items |
| ParametersPage.ItemWithoutIdOrNameDropped | resources/views/livewire/pages/parameters.blade.php:28-36 | An item whose id or name is missing or null contributes no row |
| ParametersPage.IndexOfId | resources/views/livewire/pages/parameters.blade.php:39 | The position found holds the id, and None means no row holds it |
| ParametersPage.Overwrite | resources/views/livewire/pages/parameters.blade.php:39 | The update of an existing row: name, display_name, units, description and updated_at are replaced, the rest kept; `UpsertApplies` states it column by column |
| ParametersPage.ValidTable | database/migrations/2025_10_19_000000_create_openaq_parameters_table.php:12-13 | The table's constraints, a unique openaq_id and a non-null name (and id); `UpsertKeepsValid` and `Table.Upsert` state that the upsert keeps them |
| ParametersPage.UpsertRow | resources/views/livewire/pages/parameters.blade.php:39 | The upsert of one row keyed by openaq_id; `UpsertRowFacts` and `UpsertRowOtherId` state its effect |
| ParametersPage.UpsertAll | resources/views/livewire/pages/parameters.blade.php:39 | The batch upsert, row after row; `UpsertKeepsValid`, `UpsertIds`, `UpsertUntouched` and `UpsertApplies` state its effect |
| ParametersPage.UpsertRowFacts | resources/views/livewire/pages/parameters.blade.php:39 | One upserted row adds its id to the table's ids, leaves rows with other ids in place, and keeps the table valid |
| ParametersPage.UpsertKeepsValid | resources/views/livewire/pages/parameters.blade.php:39 | Upserting a filtered payload keeps ids unique and every row with id and name |
| ParametersPage.UpsertIds | resources/views/livewire/pages/parameters.blade.php:39 | After the upsert the ids are the old ids plus the payload's ids |
| ParametersPage.UpsertUntouched | resources/views/livewire/pages/parameters.blade.php:39 | A row whose id is not in the payload stays where and as it was |
| ParametersPage.UpsertRowOtherId | resources/views/livewire/pages/parameters.blade.php:39 | Upserting one row keeps another id's position and row |
| ParametersPage.UpsertApplies | resources/views/livewire/pages/parameters.blade.php:39 | With distinct ids in the batch, an existing id's row is overwritten in place, keeping created_at and updating the other five columns, and a new id's row is added |
| ParametersPage.Table.Upsert | resources/views/livewire/pages/parameters.blade.php:39 | The table becomes the upsert of the payload and stays valid |
| ParametersPage.Table.constructor | database/migrations/2025_10_19_000000_create_openaq_parameters_table.php:10-18 | The newly created table is empty and valid |
| ParametersPage.ResyncWithinHour | app/Services/OpenAQ.php:64 | After a sync whose fetch missed and succeeded at time t, a sync before t + 3600 sends no request and gets the same answer whatever the upstream says; from t + 3600 on it sends the GET again |
| ParametersPage.Component.constructor | resources/views/livewire/pages/parameters.blade.php:9 | The initial state: no rows, no error, no notice |
| ParametersPage.Component.Mount | resources/views/livewire/pages/parameters.blade.php:12-18 | The rows are loaded from the table |
| ParametersPage.Component.Sync | resources/views/livewire/pages/parameters.blade.php:21-55 | On success, an empty payload leaves the table alone and a non-empty one is upserted; the rows are reloaded, the notice reports the payload's size and the error clears. On failure the error holds the failure, the notice clears, and rows and table are unchanged. Either way the store, clock and log are those of the one-call run of the parameters endpoint |
| DiscoverPage.SearchQuery | resources/views/livewire/pages/discover.blade.php:23-34 | The query the search sends; the lemmas below state its keys and values |
| DiscoverPage.BaseQuery | resources/views/livewire/pages/discover.blade.php:23-29 | The five base keys and their values; `BaseKeys` and `SearchQueryBase` state them |
| DiscoverPage.Coordinates | resources/views/livewire/pages/discover.blade.php:31 | The interpolated "lat,lon" string; `SearchQueryNearby` states when it is sent |
| DiscoverPage.Nearby | resources/views/livewire/pages/discover.blade.php:30 | The test that lat, lon and radius are all truthy; `SearchQueryNearby` states that it decides whether coordinates and radius are sent |
| DiscoverPage.SearchQueryKeyOrder | resources/views/livewire/pages/discover.blade.php:23-34 | The query's keys are the five base keys, then coordinates and radius when nearby, then parameters_id when set, with no key repeated |
| DiscoverPage.FiltersAppended | resources/views/livewire/pages/discover.blade.php:30-34 | Either filter group, both or neither appended to the base gives distinct keys in that order |
| DiscoverPage.FilterKeysFresh | resources/views/livewire/pages/discover.blade.php:30-34 | No filter key is already present when it is assigned |
| DiscoverPage.SearchQueryBase | resources/views/livewire/pages/discover.blade.php:23-29 | iso, limit and page carry the state's values; order_by is "id" and sort_order is "desc" |
| DiscoverPage.SearchQueryNearby | resources/views/livewire/pages/discover.blade.php:30-33 | coordinates ("lat,lon") and radius are sent exactly when lat, lon and radius are all truthy |
| DiscoverPage.SearchQueryParameter | resources/views/livewire/pages/discover.blade.php:34 | parameters_id is sent, with its value, exactly when it is truthy |
| DiscoverPage.BuildQuery | resources/views/livewire/pages/discover.blade.php:23-34 | Building the array by assignment gives the search query |
| DiscoverPage.Component.constructor | resources/views/livewire/pages/discover.blade.php:8-19 | The initial state: the configured country, position and radius, no parameter, limit 20, page 1, no results, no quota and no error |
| DiscoverPage.Component.Load | resources/views/livewire/pages/discover.blade.php:21-43 | On success the results are `data.results` or `[]`, the quota is the rate-limit triple, and the error clears. On failure only the error changes. Either way the store, clock and log are those of the one-call run of the locations endpoint with the search query |
| LocationShowPage.LocationCalls | resources/views/livewire/pages/location-show.blade.php:19-22 | The load's four calls on `(int) $id`, in order: location, latest, sensors, flags |
| LocationShowPage.Component.constructor | resources/views/livewire/pages/location-show.blade.php:8-15 | The initial state: the given id, a null location, empty latest, sensors and flags, and no error |
| LocationShowPage.Component.Load | resources/views/livewire/pages/location-show.blade.php:17-27 | The store, clock and log afterwards are those of the run of the four calls. Each field takes its call's result when the run reached that call and it succeeded, and keeps its value otherwise; the error is the failure that stopped the run, or clears |
| LocationShowPage.Component.LoadLatest | resources/views/livewire/pages/location-show.blade.php:20-26 | The same, for the run of the latest, sensors and flags calls: its store, clock and log, and the three fields and the error |
| LocationShowPage.Component.LoadSensors | resources/views/livewire/pages/location-show.blade.php:21-26 | The same, for the run of the sensors and flags calls |
| LocationShowPage.LoadOutcomes | resources/views/livewire/pages/location-show.blade.php:17-27 | Call k of the load succeeded exactly when it and all calls before it answer with success in the state before the load, it then carries its answer, and the error is the first failing call's failure |
| LocationShowPage.RowSensorId | resources/views/livewire/pages/location-show.blade.php:88 | A row's sensor id, `sensorsId` before `sensorId`; `ResolveRow` states its use |
| LocationShowPage.SensorMatches | resources/views/livewire/pages/location-show.blade.php:92 | The test that a sensor's id, or null when unset, loosely equals the row's sensor id; `FindSensor` and `NullNeverMatches` state its use |
| LocationShowPage.MatchedSensor | resources/views/livewire/pages/location-show.blade.php:89-94 | The first-match specification of the sensor search; `FindSensor` is proved against it and `MatchedSensorUnique` shows it determines one sensor |
| LocationShowPage.FindSensor | resources/views/livewire/pages/location-show.blade.php:88-94 | The search returns the first sensor whose id loosely equals a truthy sid, and null when sid is falsy or nothing matches |
| LocationShowPage.MatchedSensorUnique | resources/views/livewire/pages/location-show.blade.php:89-94 | The first-match specification determines one sensor |
| LocationShowPage.FirstMatchUnique | resources/views/livewire/pages/location-show.blade.php:92 | Only one position holds the first match |
| LocationShowPage.NullNeverMatches | resources/views/livewire/pages/location-show.blade.php:92 | A null sensor entry (no `id`) never loosely equals a truthy sid, so a null search result can only mean that nothing matched |
| LocationShowPage.TimeString | resources/views/livewire/pages/location-show.blade.php:80-81 | The time cell; `TimeStringCases` states its cases |
| LocationShowPage.TimeStringCases | resources/views/livewire/pages/location-show.blade.php:80-81 | The time is read from `datetime` when it is set, else from `date`. An array gives its `local` entry, else its `utc` entry, else ''; anything else is shown as is. With neither key set, the time is '' |
| LocationShowPage.CoordString | resources/views/livewire/pages/location-show.blade.php:83-86 | The coordinates cell; `CoordStringCases` states its cases |
| LocationShowPage.SetFieldMeansTruthy | resources/views/livewire/pages/location-show.blade.php:84 | A set key implies a truthy array |
| LocationShowPage.CoordStringCases | resources/views/livewire/pages/location-show.blade.php:83-86 | The coordinates show "lat, lon" exactly when both nested keys are set, and '—' otherwise |
| LocationShowPage.SensorParameter | resources/views/livewire/pages/location-show.blade.php:96 | The matched sensor's parameter, or `[]`; `ResolveRow` states its use |
| LocationShowPage.LatestParamName | resources/views/livewire/pages/location-show.blade.php:97 | The table's name label, camel-case spelling first, '—' when none is set; compared with the cards' by the two lemmas below |
| LocationShowPage.LatestParamUnit | resources/views/livewire/pages/location-show.blade.php:98 | The table's unit label, `units` first, '—' when none is set |
| LocationShowPage.CardParamName | resources/views/livewire/pages/location-show.blade.php:127 | The cards' name label, snake-case spelling first, 'parameter' when none is set |
| LocationShowPage.CardParamUnit | resources/views/livewire/pages/location-show.blade.php:128 | The cards' unit label, `unit` first, '—' when none is set |
| LocationShowPage.BlocksAgreeOnOneSpelling | resources/views/livewire/pages/location-show.blade.php:96-128 | The table and the cards show the same name and unit when a name is set under some key and at most one spelling each of the display name and of the unit is present |
| LocationShowPage.BlocksCanDisagree | resources/views/livewire/pages/location-show.blade.php:96-128 | With both spellings, or with no name at all, the two blocks show different labels |
| LocationShowPage.ResolveRow | resources/views/livewire/pages/location-show.blade.php:79-99 | A row resolves to its time, value, coordinates, sensor id, the first matching sensor, and that sensor's parameter name and unit |
| SensorChart.ChartEndpoint | resources/views/livewire/sensor-chart.blade.php:18-26 | The call the chart makes; `ChartRoute` and `ChartFilters` state its route and filters |
| SensorChart.ChartQuery | resources/views/livewire/sensor-chart.blade.php:19-25 | The three filters of the series request; `ChartFilters` states their keys, order and values |
| SensorChart.ChartRoute | resources/views/livewire/sensor-chart.blade.php:18-26 | The days route exactly when agg is the string "day", else the hours route, for `(int)` of the sensor id, with the default TTL |
| SensorChart.ChartFilters | resources/views/livewire/sensor-chart.blade.php:19-25 | Both routes send datetime_from, datetime_to and limit = 1000, in that order |
| SensorChart.FirstParameter | resources/views/livewire/sensor-chart.blade.php:31-32 | The first point's parameter; `FirstParameterNested` states its meaning |
| SensorChart.FirstParameterNested | resources/views/livewire/sensor-chart.blade.php:31-32 | The two-step read is the nested access `$series[0]['parameter'] ?? []`, and gives `[]` when there is no first point |
| SensorChart.ParamName | resources/views/livewire/sensor-chart.blade.php:33 | The chart's name label; `ParamNameNullIff` states when it is null |
| SensorChart.ParamNameNullIff | resources/views/livewire/sensor-chart.blade.php:33 | The name is null exactly when none of displayName, display_name or name is set |
| SensorChart.ParamUnit | resources/views/livewire/sensor-chart.blade.php:34 | The chart's unit label; `ParamUnitNullIff` states when it is null |
| SensorChart.ParamUnitNullIff | resources/views/livewire/sensor-chart.blade.php:34 | The unit is null exactly when neither units nor unit is set |
| SensorChart.EmptySeriesUnlabelled | resources/views/livewire/sensor-chart.blade.php:31-34 | A series without a first point gives a null name and a null unit |
| SensorChart.Component.constructor | resources/views/livewire/sensor-chart.blade.php:5-14 | The initial state: the given sensor, aggregation and range, an empty series, no error, null labels and no events sent |
| SensorChart.Component.Load | resources/views/livewire/sensor-chart.blade.php:16-41 | On success the series is `data.results` or `[]`, the error clears, name and unit come from the first point's parameter, and one draw-chart event carries series, agg, name and unit. On failure only the error changes and no event is sent. Either way the store, clock and log are those of the one-call run of the chart's endpoint |

## Left out

- Framework internals are modelled only by the behaviour the core relies on: Laravel's HTTP client, the cache driver, Livewire's lifecycle, Blade rendering and Eloquent.
- The md5 hash and the `openaq:` key prefix are left out. The cache key is the (path, query) pair itself; md5 collisions are not modelled.
- The `services.openaq.*` configuration and the `DEFAULT_*` environment values are constructor arguments.
- `now()`, and date defaults computed from it (`sensor-chart.blade.php:8-9`), are left out. Timestamps are a clock parameter; the chart's date range is a constructor argument.
- OpenAQ.Client.Get: the clock does not move during a call, so a fetched entry expires ttl seconds after the call starts. Laravel computes the expiry when it stores the entry, after the GET has returned, so the real entry lives ttl seconds from the response. The time a request takes is not modelled.
- Concurrency, and cache races between requests, are left out. Calls are sequential.
- Floats are left out. A float is held as its PHP rendering plus a flag telling whether it is zero. Arithmetic on floats does not occur in the core.
- Php.ToInt: a float is cast through the leading digits of its rendering. That truncates toward zero for a plain rendering such as `1.5` or `-2.7`, but is wrong for an exponent rendering: `1.5E-7` casts to 1 where PHP gives 0, and `1.0E+25` casts to 1. Integers are unbounded, so a value beyond PHP_INT_MAX (or below PHP_INT_MIN) is not saturated to that bound as PHP's `(int)` does. A string is cast through `Decimal.LeadingInt`, with the gaps listed on its line.
- Decimal.LeadingInt: unbounded, with no saturation at PHP_INT_MAX or PHP_INT_MIN. Leading whitespace is not skipped, so `" 5"` casts to 0 where PHP gives 5. Exponent forms such as `"1e3"` cast by their leading digits (1) where PHP gives 1000.
- Php.LooseEquals: an integer equals a string only when the string is a sign and decimal digits with the same value, and two strings are equal only when identical. PHP 8 compares numeric strings by value, so the model says false where PHP says true for `5 == "5.0"`, `5 == " 5"`, `5 == "+5"` and `"1" == "01"`. Float comparisons and array comparisons by value are not modelled either.
- Php.Elements and Php.Render: PHP 8 warns on `foreach` over a scalar and on converting an array to a string, and Laravel's error handler turns those warnings into an ErrorException. The model instead iterates nothing over a scalar and renders an array as "Array". So a search with an array-valued latitude or longitude (`discover.blade.php:31`) is modelled as sending "Array,Array" rather than failing without a request. In the location view, an array-valued latitude or longitude (`location-show.blade.php:85`) and a `$sensors` that is not an array (`:91`) are modelled as rendering rather than as a page error. Only malformed upstream data or crafted component properties reach these paths.
- Php.Step: a PHP string offset `$s[i]` indexes bytes, while the model indexes characters, so a multi-byte string gives a different character. Only malformed data reaches a string offset in the core: `$this->series[0]` on a string series (`sensor-chart.blade.php:31`) or `['results'][0]` on a string (`location-show.blade.php:19`).
- Php.FieldOf: an `Object` value can repeat a key, and the model reads the first copy, while `json_decode` keeps the last. Decoded bodies are taken to have distinct keys. `List([])` and `Object([])` are both PHP's one empty array; the model treats them as different values, so `LooseEquals` calls them unequal, and `KeyOf` gives different keys to two queries that differ only in holding one form rather than the other.
- The exception message (`$e->getMessage()`) is modelled as the `Failure` value it is built from; the message text is not.
- ParametersPage.Component.Sync: the `orderBy('display_name')->orderBy('name')` reload is modelled as the table's rows in storage order; the sort order is not modelled. Database failures during the upsert or the reload are not modelled either; only the API call's failure is.
- ParametersPage.Component.Mount: the same reload (`parameters.blade.php:13-17`), in storage order; the sort order is not modelled.
- ParametersPage.Table.Upsert: rows are matched on `openaq_id` by equality of PHP values, so `Int(2)`, `Str("2")` and a float 2.0 are different keys. The unsigned big-integer column would store all three as 2 and match them. PHP's integer width is not modelled either. No column's type is applied: the string columns `name`, `display_name` and `units` and the text column `description` would store a decoded `Int(5)` as "5" and reload it as a string. The model's rows keep `Int(5)`, and `Sync`'s reloaded rows are the stored rows as they are.
- The Blade markup of all pages is left out: the location header (`location-show.blade.php:34-60`), links, and the sensor-detail or chart choice (lines 143-153). So are sensor-detail.blade.php and the routes.
- The chart's JavaScript and Chart.js drawing are left out; the `draw-chart` dispatch is recorded as an event in `events`.
- The `mount` hooks of the search, location and chart pages and the chart's `refresh-chart` listener only call the load, so they are not separate members.
