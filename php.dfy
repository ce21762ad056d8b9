/**
 * The PHP values the dashboard passes around: decoded JSON bodies, component
 * state and query arrays. An associative array is a sequence of (key, value)
 * pairs in insertion order; a list is a sequence of values.
 */
module Php {
  import opened Wrappers
  import opened Decimal

  /**
   * A PHP value. A float is opaque: only its rendering in a string and
   * whether it is zero (its truthiness) matter to the code modelled. An
   * `Object` stands for a decoded JSON object, whose keys are distinct;
   * `List([])` and `Object([])` are two spellings of PHP's one empty array.
   */
  datatype Value =
    | Null
    | Bool(b: bool)
    | Int(i: int)
    | Float(rendering: string, isZero: bool)
    | Str(s: string)
    | List(items: seq<Value>)
    | Object(fields: seq<(string, Value)>)

  /** One array access: `$v['name']` or `$v[3]`. */
  datatype Seg = Field(name: string) | At(index: int)

  /** The value stored under `name` (the first pair with that key), if any. */
  function FieldOf(fields: seq<(string, Value)>, name: string): Option<Value>
    decreases |fields|
  {
    if |fields| == 0 then None
    else if fields[0].0 == name then Some(fields[0].1)
    else FieldOf(fields[1..], name)
  }

  /**
   * One access under `isset` semantics, as the left operand of `??` sees it:
   * None when the key is missing, the value is null, or the base is not an
   * array (a string base only answers integer offsets, counted from the end
   * when negative). An integer offset into an object finds the decimal key.
   */
  function Step(v: Value, seg: Seg): (r: Option<Value>)
    ensures r != Some(Null)
  {
    var raw := match v
      case List(items) =>
        if seg.At? && 0 <= seg.index < |items| then Some(items[seg.index]) else None
      case Object(fields) =>
        FieldOf(fields, if seg.Field? then seg.name else IntToString(seg.index))
      case Str(s) =>
        if seg.At? && -|s| <= seg.index < |s| then
          Some(Str([s[if seg.index < 0 then |s| + seg.index else seg.index]]))
        else None
      case _ => None;
    if raw == Some(Null) then None else raw
  }

  /** `$v[s1][s2]...` under `isset` semantics: None unless every step is set and non-null. */
  function Lookup(v: Value, path: seq<Seg>): (r: Option<Value>)
    ensures r != Some(Null)
    decreases |path|
  {
    if |path| == 0 then (if v == Null then None else Some(v))
    else match Step(v, path[0])
      case None => None
      case Some(w) => Lookup(w, path[1..])
  }

  /**
   * The chain `$v[p1] ?? $v[p2] ?? ... ?? default`: the first access that is
   * set and non-null, or `default` when none is.
   */
  function Coalesce(v: Value, paths: seq<seq<Seg>>, default: Value): Value
    decreases |paths|
  {
    if |paths| == 0 then default
    else match Lookup(v, paths[0])
      case Some(w) => w
      case None => Coalesce(v, paths[1..], default)
  }

  /** The chain's result is the first defined access, or the default when none is defined. */
  lemma {:induction false} CoalesceFirstDefined(v: Value, paths: seq<seq<Seg>>, default: Value)
    ensures var r := Coalesce(v, paths, default);
            || (exists i :: 0 <= i < |paths| && Lookup(v, paths[i]) == Some(r) &&
                  forall j :: 0 <= j < i ==> Lookup(v, paths[j]).None?)
            || ((forall j :: 0 <= j < |paths| ==> Lookup(v, paths[j]).None?) && r == default)
    decreases |paths|
  {
    if |paths| > 0 && Lookup(v, paths[0]).None? {
      CoalesceFirstDefined(v, paths[1..], default);
      assert forall j :: 1 <= j < |paths| ==> paths[j] == paths[1..][j - 1];
      var r := Coalesce(v, paths, default);
      if exists i :: 0 <= i < |paths[1..]| && Lookup(v, paths[1..][i]) == Some(r) &&
                     forall j :: 0 <= j < i ==> Lookup(v, paths[1..][j]).None? {
        var i :| 0 <= i < |paths[1..]| && Lookup(v, paths[1..][i]) == Some(r) &&
                 forall j :: 0 <= j < i ==> Lookup(v, paths[1..][j]).None?;
        assert Lookup(v, paths[i + 1]) == Some(r);
        assert forall j :: 0 <= j < i + 1 ==> Lookup(v, paths[j]).None? by {
          forall j | 0 <= j < i + 1 ensures Lookup(v, paths[j]).None? {
            if j > 0 { assert paths[j] == paths[1..][j - 1]; }
          }
        }
      }
    }
  }

  /** `Lookup` followed by `?? default`. */
  function LookupOr(v: Value, path: seq<Seg>, default: Value): (r: Value)
    ensures Lookup(v, path).Some? ==> Some(r) == Lookup(v, path)
    ensures Lookup(v, path).None? ==> r == default
  {
    Lookup(v, path).GetOr(default)
  }

  /** PHP's conversion to bool, used by `if ($x)` and `&&`. */
  predicate Truthy(v: Value) {
    match v
    case Null => false
    case Bool(b) => b
    case Int(i) => i != 0
    case Float(_, zero) => !zero
    case Str(s) => s != "" && s != "0"
    case List(items) => items != []
    case Object(fields) => fields != []
  }

  /** PHP's conversion to string, used by interpolation and `.`. */
  function Render(v: Value): string {
    match v
    case Null => ""
    case Bool(b) => if b then "1" else ""
    case Int(i) => IntToString(i)
    case Float(text, _) => text
    case Str(s) => s
    case List(_) => "Array"
    case Object(_) => "Array"
  }

  /**
   * PHP 8's loose `==`, for the kinds of operands the dashboard compares:
   * null and bool compare by truthiness (null equals ""), an integer equals
   * a string holding its decimal rendering, otherwise the comparison is
   * structural.
   */
  predicate LooseEquals(a: Value, b: Value) {
    if a.Bool? || b.Bool? then Truthy(a) == Truthy(b)
    else if a.Null? && b.Str? then b.s == ""
    else if a.Str? && b.Null? then a.s == ""
    else if a.Null? || b.Null? then !Truthy(a) && !Truthy(b)
    else if a.Int? && b.Str? then
      (if ParseInt(b.s).Some? then ParseInt(b.s) == Some(a.i) else IntToString(a.i) == b.s)
    else if a.Str? && b.Int? then
      (if ParseInt(a.s).Some? then ParseInt(a.s) == Some(b.i) else IntToString(b.i) == a.s)
    else a == b
  }

  /** PHP's `(int)` cast. A float is truncated through its rendering. */
  function ToInt(v: Value): int {
    match v
    case Null => 0
    case Bool(b) => if b then 1 else 0
    case Int(i) => i
    case Float(text, _) => LeadingInt(text)
    case Str(s) => LeadingInt(s)
    case List(items) => if items == [] then 0 else 1
    case Object(fields) => if fields == [] then 0 else 1
  }

  /** The values `foreach` visits; a scalar is not iterated. */
  function Elements(v: Value): seq<Value> {
    match v
    case List(items) => items
    case Object(fields) => seq(|fields|, i requires 0 <= i < |fields| => fields[i].1)
    case _ => []
  }

  /** The items of `collect($v)`: null is empty, a scalar becomes a one-item collection. */
  function CollectItems(v: Value): seq<Value> {
    match v
    case Null => []
    case List(items) => items
    case Object(fields) => Elements(v)
    case _ => [v]
  }

  /**
   * `data_get($v, 'name', $default)` for one segment: the stored value when
   * the key exists (even when it holds null), the default otherwise.
   */
  function DataGet(v: Value, name: string, default: Value): Value {
    if v.Object? then FieldOf(v.fields, name).GetOr(default) else default
  }

  /** A nested access is the access of the remaining keys on what the first keys find. */
  lemma {:induction false} LookupAppend(v: Value, p: seq<Seg>, q: seq<Seg>)
    ensures Lookup(v, p + q) == match Lookup(v, p) case None => None case Some(w) => Lookup(w, q)
    decreases |p|
  {
    if |p| > 0 {
      assert (p + q)[0] == p[0];
      assert (p + q)[1..] == p[1..] + q;
      match Step(v, p[0])
      case None =>
        assert Lookup(v, p + q) == None;
      case Some(w) =>
        LookupAppend(w, p[1..], q);
        assert Lookup(v, p + q) == Lookup(w, p[1..] + q);
    } else {
      assert p + q == q;
    }
  }

  // ---- Ordered string-keyed arrays (query strings) ----

  /** A PHP array with string keys, in insertion order. */
  type Query = seq<(string, Value)>

  function KeysOf(q: Query): seq<string> {
    seq(|q|, i requires 0 <= i < |q| => q[i].0)
  }

  predicate DistinctKeys(q: Query) {
    forall i, j :: 0 <= i < j < |q| ==> q[i].0 != q[j].0
  }

  predicate HasKey(q: Query, k: string) {
    exists i :: 0 <= i < |q| && q[i].0 == k
  }

  /** The keys of a concatenation, in order. */
  lemma KeysOfAppend(a: Query, b: Query)
    ensures KeysOf(a + b) == KeysOf(a) + KeysOf(b)
  {
  }

  /** A lookup finds a value exactly when some pair has the key. */
  lemma {:induction false} FieldOfPresent(q: Query, k: string)
    ensures FieldOf(q, k).Some? <==> HasKey(q, k)
    decreases |q|
  {
    if |q| > 0 && q[0].0 != k {
      FieldOfPresent(q[1..], k);
      assert forall i :: 1 <= i < |q| ==> q[i] == q[1..][i - 1];
    }
  }

  /** A key is present exactly when it is among the listed keys. */
  lemma HasKeyIffListed(q: Query, k: string)
    ensures HasKey(q, k) <==> k in KeysOf(q)
  {
    if k in KeysOf(q) {
      var i :| 0 <= i < |q| && KeysOf(q)[i] == k;
      assert q[i].0 == k;
    }
    if HasKey(q, k) {
      var i :| 0 <= i < |q| && q[i].0 == k;
      assert KeysOf(q)[i] == k;
    }
  }

  /** With distinct keys, each pair is what a lookup of its key finds. */
  lemma {:induction false} FieldOfDistinct(q: Query, i: int)
    requires DistinctKeys(q) && 0 <= i < |q|
    ensures FieldOf(q, q[i].0) == Some(q[i].1)
    decreases i
  {
    if i > 0 {
      assert q[0].0 != q[i].0;
      assert q[1..][i - 1] == q[i];
      FieldOfDistinct(q[1..], i - 1);
    }
  }

  /** Assigning a key the array does not hold appends the pair. */
  lemma PutFresh(q: Query, k: string, v: Value)
    requires k !in KeysOf(q)
    ensures Put(q, k, v) == q + [(k, v)]
    ensures KeysOf(Put(q, k, v)) == KeysOf(q) + [k]
  {
    HasKeyIffListed(q, k);
    PutShape(q, k, v);
    KeysOfAppend(q, [(k, v)]);
  }

  /** Appending a key the array does not hold keeps the keys distinct. */
  lemma AppendFresh(q: Query, k: string, v: Value)
    requires DistinctKeys(q) && k !in KeysOf(q)
    ensures DistinctKeys(q + [(k, v)]) && KeysOf(q + [(k, v)]) == KeysOf(q) + [k]
  {
    HasKeyIffListed(q, k);
    KeysOfAppend(q, [(k, v)]);
  }

  /** A lookup in a concatenation finds the first part's pair first. */
  lemma {:induction false} FieldOfAppend(a: Query, b: Query, k: string)
    ensures FieldOf(a + b, k) == if FieldOf(a, k).Some? then FieldOf(a, k) else FieldOf(b, k)
    decreases |a|
  {
    if |a| > 0 {
      assert (a + b)[0] == a[0];
      assert (a + b)[1..] == a[1..] + b;
      FieldOfAppend(a[1..], b, k);
    } else {
      assert a + b == b;
    }
  }

  /**
   * `$q[k] = v`: an existing key keeps its position and takes the new value;
   * a new key is appended.
   */
  function Put(q: Query, k: string, v: Value): Query
    decreases |q|
  {
    if |q| == 0 then [(k, v)]
    else if q[0].0 == k then [(k, v)] + q[1..]
    else [q[0]] + Put(q[1..], k, v)
  }

  /** Assignment keeps the keys of an array that holds the key, and appends to one that does not. */
  lemma {:induction false} PutShape(q: Query, k: string, v: Value)
    ensures HasKey(q, k) ==> |Put(q, k, v)| == |q| && forall i :: 0 <= i < |q| ==> Put(q, k, v)[i].0 == q[i].0
    ensures !HasKey(q, k) ==> Put(q, k, v) == q + [(k, v)]
    decreases |q|
  {
    if |q| > 0 && q[0].0 != k {
      PutShape(q[1..], k, v);
      assert HasKey(q, k) ==> HasKey(q[1..], k);
      assert forall i :: 1 <= i < |q| ==> q[i] == q[1..][i - 1];
    }
  }

  /**
   * After `$q[k] = v` the key reads back v, every other key reads what it
   * read before, and no key is repeated that was not repeated before.
   */
  lemma {:induction false} PutLookup(q: Query, k: string, v: Value)
    ensures FieldOf(Put(q, k, v), k) == Some(v)
    ensures forall k' :: k' != k ==> FieldOf(Put(q, k, v), k') == FieldOf(q, k')
    ensures DistinctKeys(q) ==> DistinctKeys(Put(q, k, v))
    decreases |q|
  {
    if |q| > 0 && q[0].0 != k {
      PutLookup(q[1..], k, v);
      PutShape(q[1..], k, v);
      var rest := Put(q[1..], k, v);
      assert Put(q, k, v) == [q[0]] + rest;
      assert forall i :: 1 <= i < |q| ==> q[i] == q[1..][i - 1];
      if DistinctKeys(q) {
        assert DistinctKeys(q[1..]);
        assert forall i :: 0 <= i < |rest| ==> rest[i].0 != q[0].0 by {
          if HasKey(q[1..], k) {
            assert forall i :: 0 <= i < |rest| ==> rest[i].0 == q[1..][i].0;
          } else {
            assert rest == q[1..] + [(k, v)];
          }
        }
      }
    }
  }
}
