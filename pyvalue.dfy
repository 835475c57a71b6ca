/**
 * The dynamically typed values the repository passes around (YAML/JSON
 * documents, payloads, proposals) and the Python built-in behaviour the
 * core code leans on: truthiness, `in`, `len`, iteration, subscripting,
 * `dict.get`, `dict.update` and `str()` of an exception.
 *
 * A Python `dict` keeps insertion order, so it is an association list whose
 * keys are distinct; looking a key up finds its first (and only) entry.
 */
module PyValue {
  import opened Wrappers
  import opened Text

  datatype Value =
    | Str(s: string)
    | Int(i: int)
    | Float(r: real)
    | Bool(b: bool)
    | NoneValue
    | List(items: seq<Value>)
    | Dict(entries: seq<(Value, Value)>)

  type Entries = seq<(Value, Value)>

  /** The exceptions the core raises or lets through. */
  datatype Exception =
    | TypeError(msg: string)
    | AttributeError(msg: string)
    | KeyError(key: Value)
    | IndexError(msg: string)
    | ValueError(msg: string)
    | KeyboardInterrupt
    // any other subclass of Exception; BaseException subclasses outside
    // Exception (SystemExit, GeneratorExit) are not modelled
    | OtherError(kind: string, msg: string)
      // the pdpbiogen package's own exceptions (all derive from PDPBioGenError)
    | ValidationError(msg: string)
    | ConfigurationError(msg: string)
    | GraphvizError(msg: string)
    | PDPBioGenError(msg: string)

  /** `isinstance(e, PDPBioGenError)`. */
  predicate IsPdpError(e: Exception) {
    e.ValidationError? || e.ConfigurationError? || e.GraphvizError? || e.PDPBioGenError?
  }

  /** `type(v).__name__`. */
  function TypeName(v: Value): string {
    match v
    case Str(_) => "str"
    case Int(_) => "int"
    case Float(_) => "float"
    case Bool(_) => "bool"
    case NoneValue => "NoneType"
    case List(_) => "list"
    case Dict(_) => "dict"
  }

  /** `f"{type(v)}"`. */
  function ClassRepr(v: Value): string {
    "<class '" + TypeName(v) + "'>"
  }

  /** `bool(v)`. */
  predicate Truthy(v: Value) {
    match v
    case Str(s) => s != []
    case Int(i) => i != 0
    case Float(r) => r != 0.0
    case Bool(b) => b
    case NoneValue => false
    case List(xs) => xs != []
    case Dict(es) => es != []
  }

  /** Only the mutable containers are unhashable. */
  predicate Hashable(v: Value) {
    !v.List? && !v.Dict?
  }

  /**
   * `str(v)` for the hashable values that appear inside messages. A float is
   * rendered exactly only when it is integral (`3.0`).
   */
  function Show(v: Value): string {
    match v
    case Str(s) => s
    case Int(i) => IntToString(i)
    case Float(r) => if r == r.Floor as real then IntToString(r.Floor) + ".0" else "<float>"
    case Bool(b) => if b then "True" else "False"
    case NoneValue => "None"
    case List(_) => "[...]"
    case Dict(_) => "{...}"
  }

  /** `str(e)`. */
  function Message(e: Exception): string {
    match e
    case TypeError(m) => m
    case AttributeError(m) => m
    case KeyError(k) => if k.Str? then "'" + k.s + "'" else Show(k)
    case IndexError(m) => m
    case ValueError(m) => m
    case KeyboardInterrupt => ""
    case OtherError(_, m) => m
    case ValidationError(m) => m
    case ConfigurationError(m) => m
    case GraphvizError(m) => m
    case PDPBioGenError(m) => m
  }

  // ---------------------------------------------------------------- dicts

  function Keys(es: Entries): (ks: seq<Value>)
    ensures |ks| == |es| && forall i :: 0 <= i < |es| ==> ks[i] == es[i].0
  {
    seq(|es|, i requires 0 <= i < |es| => es[i].0)
  }

  ghost predicate DistinctKeys(es: Entries) {
    forall i, j :: 0 <= i < j < |es| ==> es[i].0 != es[j].0
  }

  /** The position of key `k`, searching from the front. */
  function IndexOf(es: Entries, k: Value): (r: Option<nat>)
    ensures r.Some? ==> r.value < |es| && es[r.value].0 == k
                        && forall j :: 0 <= j < r.value ==> es[j].0 != k
    ensures r.None? ==> forall j :: 0 <= j < |es| ==> es[j].0 != k
  {
    if es == [] then None
    else if es[0].0 == k then Some(0)
    else match IndexOf(es[1..], k)
      case Some(i) => Some(i + 1)
      case None => None
  }

  /** `k in d`. */
  predicate HasKey(es: Entries, k: Value) {
    IndexOf(es, k).Some?
  }

  /** `d.get(k)`, with `None` for a missing key. */
  function Get(es: Entries, k: Value): (r: Option<Value>)
    ensures r.Some? <==> exists i :: 0 <= i < |es| && es[i].0 == k
  {
    match IndexOf(es, k)
    case Some(i) => Some(es[i].1)
    case None => None
  }

  /** `d.get(k, default)`. */
  function GetOr(es: Entries, k: Value, default: Value): Value {
    Get(es, k).GetOr(default)
  }

  /** `d[k] = v`: an existing key keeps its position, a new key goes last. */
  function Set(es: Entries, k: Value, v: Value): (r: Entries)
    ensures Keys(r) == if HasKey(es, k) then Keys(es) else Keys(es) + [k]
  {
    match IndexOf(es, k)
    case Some(i) => es[i := (k, v)]
    case None => es + [(k, v)]
  }

  /** `d.update(e)`: the entries of `e` are set one by one, in order. */
  function Update(d: Entries, e: Entries): Entries
    decreases |e|
  {
    if e == [] then d else Update(Set(d, e[0].0, e[0].1), e[1..])
  }

  /** Reading a key right after setting it gives the new value; other keys are untouched. */
  lemma GetSet(es: Entries, k: Value, v: Value, q: Value)
    ensures Get(Set(es, k, v), q) == if q == k then Some(v) else Get(es, q)
  {
    var r := Set(es, k, v);
    if HasKey(es, k) {
      assert Keys(r) == Keys(es);
    }
    if q == k && !HasKey(es, k) {
      IndexOfFirst(r, q, |es|);
    } else if IndexOf(es, q).Some? {
      IndexOfFirst(r, q, IndexOf(es, q).value);
    } else if q != k {
      assert IndexOf(r, q) == None;
    }
  }

  /** The first position holding a key is the one `IndexOf` finds. */
  lemma IndexOfFirst(es: Entries, k: Value, j: nat)
    requires j < |es| && es[j].0 == k
    requires forall i :: 0 <= i < j ==> es[i].0 != k
    ensures IndexOf(es, k) == Some(j)
  {
  }

  /** After `d.update(e)` a key of `e` reads `e`'s value and any other key reads `d`'s. */
  lemma {:induction false} UpdateGet(d: Entries, e: Entries, q: Value)
    requires DistinctKeys(e)
    ensures Get(Update(d, e), q) == if HasKey(e, q) then Get(e, q) else Get(d, q)
    decreases |e|
  {
    if e != [] {
      var k, v := e[0].0, e[0].1;
      var d' := Set(d, k, v);
      assert DistinctKeys(e[1..]) by {
        forall i, j | 0 <= i < j < |e[1..]|
          ensures e[1..][i].0 != e[1..][j].0
        {
          assert e[1..][i] == e[i + 1] && e[1..][j] == e[j + 1];
        }
      }
      UpdateGet(d', e[1..], q);
      GetSet(d, k, v, q);
      if q == k {
        forall j | 0 <= j < |e[1..]|
          ensures e[1..][j].0 != q
        {
          assert e[1..][j] == e[j + 1];
        }
        assert IndexOf(e[1..], q).None?;
        assert IndexOf(e, q) == Some(0);
      } else {
        assert IndexOf(e, q).Some? <==> IndexOf(e[1..], q).Some?;
        assert Get(e, q) == Get(e[1..], q);
      }
    }
  }

  /** `d.update(e)` keeps `d`'s keys in place and appends `e`'s new keys in `e`'s order. */
  lemma {:induction false} UpdateKeys(d: Entries, e: Entries)
    ensures Keys(Update(d, e)) == Keys(d) + NewKeys(d, e)
    decreases |e|
  {
    if e != [] {
      var d' := Set(d, e[0].0, e[0].1);
      UpdateKeys(d', e[1..]);
    }
  }

  /** Setting a key keeps a dict's keys distinct. */
  lemma SetDistinct(es: Entries, k: Value, v: Value)
    requires DistinctKeys(es)
    ensures DistinctKeys(Set(es, k, v))
  {
    var r := Set(es, k, v);
    assert forall i :: 0 <= i < |r| ==> r[i].0 == Keys(r)[i];
    assert forall i :: 0 <= i < |es| ==> es[i].0 == Keys(es)[i];
  }

  /** `d.update(e)` keeps `d`'s keys distinct, whatever `e` holds. */
  lemma {:induction false} UpdateDistinct(d: Entries, e: Entries)
    requires DistinctKeys(d)
    ensures DistinctKeys(Update(d, e))
    decreases |e|
  {
    if e != [] {
      SetDistinct(d, e[0].0, e[0].1);
      UpdateDistinct(Set(d, e[0].0, e[0].1), e[1..]);
    }
  }

  /** The keys of `e` that `d.update(e)` adds, in the order they are added. */
  function NewKeys(d: Entries, e: Entries): seq<Value>
    decreases |e|
  {
    if e == [] then []
    else
      var d' := Set(d, e[0].0, e[0].1);
      (if HasKey(d, e[0].0) then [] else [e[0].0]) + NewKeys(d', e[1..])
  }

  /** Updating with an empty dict changes nothing. */
  lemma UpdateEmpty(d: Entries)
    ensures Update(d, []) == d
  {
  }

  // ----------------------------------------------------- container protocol

  /** `list(v)`: what a `for` loop over `v` visits, or `None` when `v` is not iterable. */
  function Iterate(v: Value): Option<seq<Value>> {
    match v
    case List(xs) => Some(xs)
    case Dict(es) => Some(Keys(es))
    case Str(s) => Some(seq(|s|, i requires 0 <= i < |s| => Str([s[i]])))
    case _ => None
  }

  /** An iterable value is falsy exactly when iterating it visits nothing. */
  lemma FalsyIterableIsEmpty(v: Value)
    requires Iterate(v).Some?
    ensures Truthy(v) <==> |Iterate(v).value| > 0
  {
  }

  /** `len(v)`, or `None` when `v` has no length. */
  function Len(v: Value): (r: Option<nat>)
    ensures r.Some? <==> Iterate(v).Some?
    ensures r.Some? ==> r.value == |Iterate(v).value|
  {
    match v
    case List(xs) => Some(|xs|)
    case Dict(es) => Some(|es|)
    case Str(s) => Some(|s|)
    case _ => None
  }

  function NotIterable(v: Value): Exception {
    TypeError("'" + TypeName(v) + "' object is not iterable")
  }

  function NoAttribute(v: Value, attr: string): Exception {
    AttributeError("'" + TypeName(v) + "' object has no attribute '" + attr + "'")
  }

  /** `x in c`. */
  function Contains(c: Value, x: Value): Result<bool, Exception> {
    match c
    case Dict(es) =>
      if Hashable(x) then Success(HasKey(es, x))
      else Failure(TypeError("unhashable type: '" + TypeName(x) + "'"))
    case List(xs) => Success(x in xs)
    case Str(s) =>
      if x.Str? then Success(IsSubstringOf(x.s, s))
      else Failure(TypeError("'in <string>' requires string as left operand, not " + TypeName(x)))
    case _ => Failure(TypeError("argument of type '" + TypeName(c) + "' is not iterable"))
  }

  /** Substring search, computed. */
  function IsSubstringOf(t: string, s: string): (r: bool)
    ensures r <==> IsSubstring(t, s)
    decreases |s|
  {
    if |t| > |s| then
      assert forall i :: !OccursAt(t, s, i);
      false
    else if s[..|t|] == t then
      assert OccursAt(t, s, 0);
      true
    else
      var tail := s[1..];
      var found := IsSubstringOf(t, tail);
      if found then
        var i :| OccursAt(t, tail, i);
        OccursShift(t, s, i);
        true
      else
        assert forall i :: OccursAt(t, s, i) ==> i > 0 && OccursAt(t, tail, i - 1) by {
          forall i | OccursAt(t, s, i) ensures i > 0 && OccursAt(t, tail, i - 1) {
            assert i > 0;
            assert s[i..i + |t|] == tail[i - 1..i - 1 + |t|];
          }
        }
        false
  }

  /** An integer index into a sequence of length `n`, Python style (negative counts from the end). */
  function IndexFor(key: Value, n: nat): Option<nat> {
    var k := if key.Bool? then (if key.b then 1 else 0) else if key.Int? then key.i else 0;
    var j := if k < 0 then k + n else k;
    if 0 <= j < n then Some(j) else None
  }

  /** `c[key]`. */
  function GetItem(c: Value, key: Value): Result<Value, Exception> {
    match c
    case Dict(es) =>
      if !Hashable(key) then Failure(TypeError("unhashable type: '" + TypeName(key) + "'"))
      else if HasKey(es, key) then Success(Get(es, key).value)
      else Failure(KeyError(key))
    case List(xs) =>
      if !(key.Int? || key.Bool?) then
        Failure(TypeError("list indices must be integers or slices, not " + TypeName(key)))
      else (match IndexFor(key, |xs|)
        case Some(j) => Success(xs[j])
        case None => Failure(IndexError("list index out of range")))
    case Str(s) =>
      if !(key.Int? || key.Bool?) then
        Failure(TypeError("string indices must be integers, not '" + TypeName(key) + "'"))
      else (match IndexFor(key, |s|)
        case Some(j) => Success(Str([s[j]]))
        case None => Failure(IndexError("string index out of range")))
    case _ => Failure(TypeError("'" + TypeName(c) + "' object is not subscriptable"))
  }

  /** `isinstance(v, (int, float))`; a `bool` is an `int` in Python. */
  predicate IsNumber(v: Value) {
    v.Int? || v.Float? || v.Bool?
  }

  /** The numeric value of an `int`, `float` or `bool`. */
  function AsReal(v: Value): real
    requires IsNumber(v)
  {
    match v
    case Int(i) => i as real
    case Float(r) => r
    case Bool(b) => if b then 1.0 else 0.0
  }
}
