/**
 * The parameters page: a manual sync that fetches the parameter list,
 * maps each item to a table row with field-name fallbacks, drops rows
 * without an id or a name, upserts the rest into the local table keyed
 * by openaq_id, and reports how many rows it upserted.
 */
module ParametersPage {
  import opened Wrappers
  import opened Decimal
  import opened Php
  import opened OpenAQ

  /** A row of the openaq_parameters table (timestamps from an abstract clock). */
  datatype Record = Record(
    openaqId: Value,
    name: Value,
    displayName: Value,
    units: Value,
    description: Value,
    updatedAt: int,
    createdAt: int)

  /** The mapping of one upstream item to a row. */
  function RowOf(item: Value, clock: int): Record {
    Record(
      LookupOr(item, [Field("id")], Null),
      LookupOr(item, [Field("name")], Null),
      Coalesce(item, [[Field("displayName")], [Field("display_name")]], Null),
      Coalesce(item, [[Field("units")], [Field("unit")]], Null),
      LookupOr(item, [Field("description")], Null),
      clock,
      clock)
  }

  /** The filter: rows keep only when openaq_id and name are both non-null. */
  predicate Keep(r: Record) {
    r.openaqId != Null && r.name != Null
  }

  /** One candidate row per item, in order. */
  function Rows(items: seq<Value>, clock: int): (rows: seq<Record>)
    ensures |rows| == |items|
  {
    seq(|items|, i requires 0 <= i < |items| => RowOf(items[i], clock))
  }

  /** The rows that keep, in order and renumbered. */
  function Survivors(rows: seq<Record>): seq<Record>
    decreases |rows|
  {
    if |rows| == 0 then [] else (if Keep(rows[0]) then [rows[0]] else []) + Survivors(rows[1..])
  }

  /** The payload the sync upserts. */
  function Payload(items: seq<Value>, clock: int): seq<Record> {
    Survivors(Rows(items, clock))
  }

  /** The items of the answer's `data.results` (none when it is missing), as the collection sees them. */
  function SyncItems(env: Envelope): seq<Value> {
    CollectItems(DataGet(DataGet(EnvelopeArray(env), "data", List([])), "results", List([])))
  }

  /**
   * Reading `data.results` through the envelope is reading `results` on the
   * body: a stored null is kept as is (and collects to no items), and a
   * missing key gives the empty list.
   */
  lemma SyncItemsOfBody(env: Envelope)
    ensures SyncItems(env) == CollectItems(DataGet(env.data, "results", List([])))
    ensures env.data.Object? && FieldOf(env.data.fields, "results") == Some(Null) ==> SyncItems(env) == []
    ensures !env.data.Object? ==> SyncItems(env) == []
  {
    assert DataGet(EnvelopeArray(env), "data", List([])) == env.data;
  }

  lemma {:induction false} SurvivorsAppend(a: seq<Record>, b: seq<Record>)
    ensures Survivors(a + b) == Survivors(a) + Survivors(b)
    decreases |a|
  {
    if |a| == 0 {
      assert a + b == b;
    } else {
      assert (a + b)[0] == a[0];
      assert (a + b)[1..] == a[1..] + b;
      SurvivorsAppend(a[1..], b);
    }
  }

  /** The filter keeps order: the payload of a concatenation is the concatenation of payloads. */
  lemma PayloadAppend(a: seq<Value>, b: seq<Value>, clock: int)
    ensures Payload(a + b, clock) == Payload(a, clock) + Payload(b, clock)
  {
    assert Rows(a + b, clock) == Rows(a, clock) + Rows(b, clock);
    SurvivorsAppend(Rows(a, clock), Rows(b, clock));
  }

  lemma {:induction false} SurvivorsMembers(rows: seq<Record>)
    ensures forall r :: r in Survivors(rows) <==> r in rows && Keep(r)
    ensures |Survivors(rows)| <= |rows|
    decreases |rows|
  {
    if |rows| > 0 {
      SurvivorsMembers(rows[1..]);
      assert rows == [rows[0]] + rows[1..];
    }
  }

  /**
   * Exactly the mapped items that pass the filter make the payload: each
   * payload row is the row of some item and has an id and a name, and each
   * item whose row has both is in the payload.
   */
  lemma PayloadMembers(items: seq<Value>, clock: int)
    ensures forall r :: r in Payload(items, clock) ==> Keep(r)
    ensures forall r :: r in Payload(items, clock) <==>
      exists i :: 0 <= i < |items| && r == RowOf(items[i], clock) && Keep(r)
    ensures |Payload(items, clock)| <= |items|
  {
    var rows := Rows(items, clock);
    SurvivorsMembers(rows);
    forall r ensures r in rows <==> exists i :: 0 <= i < |items| && r == RowOf(items[i], clock) {
      if r in rows {
        var i :| 0 <= i < |rows| && rows[i] == r;
      }
      if exists i :: 0 <= i < |items| && r == RowOf(items[i], clock) {
        var i :| 0 <= i < |items| && r == RowOf(items[i], clock);
        assert rows[i] == r;
      }
    }
  }

  /** An item whose id or name is missing or null contributes nothing. */
  lemma ItemWithoutIdOrNameDropped(item: Value, clock: int)
    requires Lookup(item, [Field("id")]).None? || Lookup(item, [Field("name")]).None?
    ensures Payload([item], clock) == []
  {
    var r := RowOf(item, clock);
    assert r.openaqId == Null || r.name == Null;
    assert Rows([item], clock) == [r];
    assert Survivors([r]) == [] + Survivors([r][1..]);
  }

  // ---- The table and its upsert keyed by openaq_id ----

  /** The position of the row holding `id`, if any. */
  function IndexOfId(rows: seq<Record>, id: Value): (r: Option<nat>)
    ensures r.Some? ==> r.value < |rows| && rows[r.value].openaqId == id
    ensures r.None? ==> forall j :: 0 <= j < |rows| ==> rows[j].openaqId != id
    decreases |rows|
  {
    if |rows| == 0 then None
    else if rows[|rows| - 1].openaqId == id then Some(|rows| - 1)
    else IndexOfId(rows[..|rows| - 1], id)
  }

  /** The update columns name, display_name, units, description and updated_at; created_at is kept. */
  function Overwrite(existing: Record, incoming: Record): Record {
    existing.(name := incoming.name, displayName := incoming.displayName, units := incoming.units,
              description := incoming.description, updatedAt := incoming.updatedAt)
  }

  /** Upsert of one row: update the row with its id in place, or append it. */
  function UpsertRow(rows: seq<Record>, r: Record): seq<Record> {
    match IndexOfId(rows, r.openaqId)
    case Some(i) => rows[i := Overwrite(rows[i], r)]
    case None => rows + [r]
  }

  /** The batch upsert, one row after the other. */
  function UpsertAll(rows: seq<Record>, payload: seq<Record>): seq<Record>
    decreases |payload|
  {
    if |payload| == 0 then rows else UpsertAll(UpsertRow(rows, payload[0]), payload[1..])
  }

  /** The table's constraints: openaq_id unique, id and name non-null. */
  predicate ValidTable(rows: seq<Record>) {
    && (forall i, j :: 0 <= i < j < |rows| ==> rows[i].openaqId != rows[j].openaqId)
    && (forall i :: 0 <= i < |rows| ==> Keep(rows[i]))
  }

  function IdSet(rows: seq<Record>): set<Value> {
    set i | 0 <= i < |rows| :: rows[i].openaqId
  }

  predicate DistinctIds(rows: seq<Record>) {
    forall i, j :: 0 <= i < j < |rows| ==> rows[i].openaqId != rows[j].openaqId
  }

  lemma UpsertRowFacts(rows: seq<Record>, r: Record)
    ensures |UpsertRow(rows, r)| >= |rows|
    ensures IdSet(UpsertRow(rows, r)) == IdSet(rows) + {r.openaqId}
    ensures forall i :: 0 <= i < |rows| && rows[i].openaqId != r.openaqId ==> UpsertRow(rows, r)[i] == rows[i]
    ensures ValidTable(rows) && Keep(r) ==> ValidTable(UpsertRow(rows, r))
  {
    var u := UpsertRow(rows, r);
    match IndexOfId(rows, r.openaqId)
    case Some(i) =>
      assert forall j :: 0 <= j < |u| ==> u[j].openaqId == rows[j].openaqId;
      assert IdSet(u) == IdSet(rows);
    case None =>
      assert forall j :: 0 <= j < |rows| ==> u[j] == rows[j];
      assert u[|rows|] == r;
      assert IdSet(u) == IdSet(rows) + {r.openaqId};
  }

  /** Upserting keeps the table's constraints, whatever the batch (even with repeated ids). */
  lemma {:induction false} UpsertKeepsValid(rows: seq<Record>, payload: seq<Record>)
    requires ValidTable(rows)
    requires forall k :: 0 <= k < |payload| ==> Keep(payload[k])
    ensures ValidTable(UpsertAll(rows, payload))
    decreases |payload|
  {
    if |payload| > 0 {
      UpsertRowFacts(rows, payload[0]);
      UpsertKeepsValid(UpsertRow(rows, payload[0]), payload[1..]);
    }
  }

  /** After the upsert the table holds exactly the old ids and the payload's ids. */
  lemma {:induction false} UpsertIds(rows: seq<Record>, payload: seq<Record>)
    ensures IdSet(UpsertAll(rows, payload)) == IdSet(rows) + IdSet(payload)
    decreases |payload|
  {
    if |payload| > 0 {
      UpsertRowFacts(rows, payload[0]);
      UpsertIds(UpsertRow(rows, payload[0]), payload[1..]);
      assert IdSet(payload) == {payload[0].openaqId} + IdSet(payload[1..]) by {
        forall x | x in IdSet(payload) ensures x in {payload[0].openaqId} + IdSet(payload[1..]) {
          var i :| 0 <= i < |payload| && payload[i].openaqId == x;
          if i > 0 { assert payload[1..][i - 1] == payload[i]; }
        }
        forall x | x in IdSet(payload[1..]) ensures x in IdSet(payload) {
          var i :| 0 <= i < |payload[1..]| && payload[1..][i].openaqId == x;
          assert payload[i + 1] == payload[1..][i];
        }
      }
    }
  }

  /** A row whose id is not in the batch keeps its position and every field. */
  lemma {:induction false} UpsertUntouched(rows: seq<Record>, payload: seq<Record>, i: int)
    requires 0 <= i < |rows|
    requires rows[i].openaqId !in IdSet(payload)
    ensures i < |UpsertAll(rows, payload)| && UpsertAll(rows, payload)[i] == rows[i]
    decreases |payload|
  {
    if |payload| > 0 {
      assert payload[0].openaqId in IdSet(payload);
      UpsertRowFacts(rows, payload[0]);
      assert IdSet(payload[1..]) <= IdSet(payload) by {
        forall x | x in IdSet(payload[1..]) ensures x in IdSet(payload) {
          var k :| 0 <= k < |payload[1..]| && payload[1..][k].openaqId == x;
          assert payload[k + 1] == payload[1..][k];
        }
      }
      UpsertUntouched(UpsertRow(rows, payload[0]), payload[1..], i);
    }
  }

  /** Upserting one id leaves where any other id is found, and that row, as they were. */
  lemma UpsertRowOtherId(rows: seq<Record>, r: Record, id: Value)
    requires ValidTable(rows) && id != r.openaqId
    ensures IndexOfId(UpsertRow(rows, r), id).Some? == IndexOfId(rows, id).Some?
    ensures IndexOfId(rows, id).Some? ==>
      var i := IndexOfId(rows, id).value;
      IndexOfId(UpsertRow(rows, r), id) == Some(i) && UpsertRow(rows, r)[i] == rows[i]
  {
    var u := UpsertRow(rows, r);
    UpsertRowFacts(rows, r);
    assert forall j :: 0 <= j < |rows| ==> u[j].openaqId == rows[j].openaqId;
    assert |u| > |rows| ==> u[|rows|] == r;
    match IndexOfId(rows, id)
    case None =>
      assert forall j :: 0 <= j < |u| ==> u[j].openaqId != id;
    case Some(i) =>
      var k := IndexOfId(u, id);
      assert k.Some?;
      assert k.value == i;
  }

  /**
   * With distinct ids in the batch, each payload row is applied: an id
   * already in the table is updated in place, keeping created_at, and a new
   * id is added as the payload row.
   */
  lemma {:induction false} UpsertApplies(rows: seq<Record>, payload: seq<Record>, k: int)
    requires ValidTable(rows) && DistinctIds(payload)
    requires forall m :: 0 <= m < |payload| ==> Keep(payload[m])
    requires 0 <= k < |payload|
    ensures var p := payload[k];
            var after := UpsertAll(rows, payload);
            match IndexOfId(rows, p.openaqId)
            case Some(i) => i < |after| && after[i] == Overwrite(rows[i], p)
            case None => exists j :: |rows| <= j < |after| && after[j] == p
    decreases |payload|
  {
    var p := payload[k];
    var u := UpsertRow(rows, payload[0]);
    UpsertRowFacts(rows, payload[0]);
    var rest := payload[1..];
    assert DistinctIds(rest) by {
      forall a, b | 0 <= a < b < |rest| ensures rest[a].openaqId != rest[b].openaqId {
        assert rest[a] == payload[a + 1] && rest[b] == payload[b + 1];
      }
    }
    if k == 0 {
      assert p.openaqId !in IdSet(rest) by {
        forall m | 0 <= m < |rest| ensures rest[m].openaqId != p.openaqId {
          assert rest[m] == payload[m + 1];
        }
      }
      match IndexOfId(rows, p.openaqId)
      case Some(i) =>
        UpsertUntouched(u, rest, i);
      case None =>
        assert u[|rows|] == p;
        UpsertUntouched(u, rest, |rows|);
    } else {
      assert rest[k - 1] == p;
      assert p.openaqId != payload[0].openaqId;
      UpsertRowOtherId(rows, payload[0], p.openaqId);
      UpsertApplies(u, rest, k - 1);
      assert UpsertAll(rows, payload) == UpsertAll(u, rest);
      if IndexOfId(rows, p.openaqId).None? {
        assert IndexOfId(u, p.openaqId).None?;
        var j :| |u| <= j < |UpsertAll(u, rest)| && UpsertAll(u, rest)[j] == p;
        assert |rows| <= j < |UpsertAll(rows, payload)| && UpsertAll(rows, payload)[j] == p;
      }
    }
  }

  /** The local table. */
  class Table {
    var rows: seq<Record>

    predicate Valid()
      reads this
    {
      ValidTable(rows)
    }

    constructor()
      ensures Valid() && rows == []
    {
      rows := [];
    }

    /** The upsert keyed on `openaq_id`, updating every other column of a row that already exists. */
    method Upsert(payload: seq<Record>)
      requires Valid()
      requires forall k :: 0 <= k < |payload| ==> Keep(payload[k])
      modifies this
      ensures Valid()
      ensures rows == UpsertAll(old(rows), payload)
    {
      UpsertKeepsValid(rows, payload);
      rows := UpsertAll(rows, payload);
    }
  }

  /**
   * The parameter list is cached for an hour: after a sync whose fetch
   * missed the store and succeeded at time t, a sync at any time in
   * [t, t + 3600) sends no request and gets the same answer, whatever the
   * upstream says then; from t + 3600 on it sends the request again.
   */
  lemma ResyncWithinHour(s: Snapshot, base: string, apiKey: string, upstream: Request -> Response,
                         later: int, up2: Request -> Response)
    requires !Live(s.entries, s.now, KeyOf(Describe(Parameters)))
    requires AnswerIn(s, base, apiKey, Parameters, upstream).Ok?
    requires s.now <= later
    ensures var first := RunCalls(s, base, apiKey, [Parameters], upstream);
            var again := RunCalls(Snapshot(first.after.entries, later, first.after.sent), base, apiKey, [Parameters], up2);
            && (later < s.now + 3600 ==> again.after.sent == first.after.sent && again.outcomes == first.outcomes)
            && (later >= s.now + 3600 ==>
                  again.after.sent == first.after.sent + [RequestFor(base, apiKey, Describe(Parameters))])
  {
    var c := Describe(Parameters);
    assert c.ttl == 3600;
    var first := RunCalls(s, base, apiKey, [Parameters], upstream);
    assert first.after.entries == Stored(s.entries, s.now, KeyOf(c), AnswerIn(s, base, apiKey, Parameters, upstream).envelope, 3600);
  }

  /** The page component's state. */
  class Component {
    var rows: seq<Record>
    var error: Option<Failure>
    var notice: Option<string>

    constructor()
      ensures rows == [] && error == None && notice == None
    {
      rows := [];
      error := None;
      notice := None;
    }

    /** On mount the rows come from the local table. */
    method Mount(db: Table)
      modifies this
      ensures rows == db.rows && error == old(error) && notice == old(notice)
    {
      rows := db.rows;
    }

    /**
     * The sync action. On success the table holds the upserted payload
     * (unchanged when the payload is empty), the rows are reloaded, the
     * notice reports the payload's size and the error is cleared. When the
     * fetch throws, the error holds the failure, the notice is cleared and
     * neither the rows nor the table change.
     */
    method Sync(aq: Client, upstream: Request -> Response, db: Table, clock: int)
      requires db.Valid()
      modifies this, aq, aq.store, db
      ensures db.Valid()
      ensures match old(aq.Answer(Describe(Parameters), upstream))
        case Ok(env) =>
          var payload := Payload(SyncItems(env), clock);
          && db.rows == (if payload == [] then old(db.rows) else UpsertAll(old(db.rows), payload))
          && rows == db.rows
          && notice == Some("Parameters synced: " + IntToString(|payload|))
          && error == None
        case Err(f) =>
          error == Some(f) && notice == None && rows == old(rows) && db.rows == old(db.rows)
      ensures aq.Snap() == RunCalls(old(aq.Snap()), aq.base, aq.apiKey, [Parameters], upstream).after
    {
      var res := aq.Fetch(Parameters, upstream);
      if res.Err? {
        error := Some(res.failure);
        notice := None;
        return;
      }
      var items := SyncItems(res.envelope);
      var payload := Payload(items, clock);
      if payload != [] {
        PayloadMembers(items, clock);
        assert forall k :: 0 <= k < |payload| ==> payload[k] in payload;
        db.Upsert(payload);
      }
      rows := db.rows;
      notice := Some("Parameters synced: " + IntToString(|payload|));
      error := None;
    }
  }
}
