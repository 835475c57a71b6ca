/**
 * The three domain mappers of pdpbiogen/modules: each reads one entry of a
 * payload dict (a missing entry counts as empty) and summarises it.
 */
module DomainMappers {
  import opened Wrappers
  import opened PyValue

  const NeuralCountKey: Value := Str("neural_count")
  const MeanLengthKey: Value := Str("mean_length")
  const VariantCountKey: Value := Str("variant_count")
  const TopVariantKey: Value := Str("top_variant")
  const MeasureCountKey: Value := Str("measure_count")
  const AvgValueKey: Value := Str("avg_value")

  /** `payload.get(key, default)`: only a dict has `get`. */
  function PayloadGet(payload: Value, key: string, default: Value): (r: Result<Value, Exception>)
    ensures r.Success? <==> payload.Dict?
    ensures payload.Dict? && !HasKey(payload.entries, Str(key)) ==> r == Success(default)
  {
    if payload.Dict? then Success(GetOr(payload.entries, Str(key), default))
    else Failure(NoAttribute(payload, "get"))
  }

  function NoLen(v: Value): Exception {
    TypeError("object of type '" + TypeName(v) + "' has no len()")
  }

  /** `len(v)`, raising for a value without a length. */
  function Length(v: Value): (r: Result<nat, Exception>)
    ensures r.Success? <==> Iterate(v).Some?
    ensures r.Success? ==> r.value == |Iterate(v).value|
  {
    match Len(v)
    case Some(n) => Success(n)
    case None => Failure(NoLen(v))
  }

  // ------------------------------------------------------------ neural

  /** Every item has a length between `lo` and `hi`. */
  ghost predicate LengthsWithin(items: seq<Value>, lo: nat, hi: nat) {
    forall i :: 0 <= i < |items| ==> Len(items[i]).Some? && lo <= Len(items[i]).value <= hi
  }

  /** `sum(len(s) for s in items)`: the first item without a length raises. */
  function TotalLength(items: seq<Value>): (r: Result<nat, Exception>)
    ensures r.Success? <==> forall i :: 0 <= i < |items| ==> Len(items[i]).Some?
    ensures r.Failure? ==> r.error.TypeError?
  {
    if items == [] then Success(0)
    else
      var n :- Length(items[0]);
      var rest :- TotalLength(items[1..]);
      assert forall i :: 1 <= i < |items| ==> items[i] == items[1..][i - 1];
      Success(n + rest)
  }

  /** The total of lengths between `lo` and `hi` lies between `lo` and `hi` times the count. */
  lemma {:induction false} TotalLengthBounds(items: seq<Value>, lo: nat, hi: nat)
    requires LengthsWithin(items, lo, hi)
    ensures TotalLength(items).Success?
    ensures lo * |items| <= TotalLength(items).value <= hi * |items|
  {
    if items != [] {
      var tail := items[1..];
      assert LengthsWithin(tail, lo, hi) by {
        forall i | 0 <= i < |tail| ensures Len(tail[i]).Some? && lo <= Len(tail[i]).value <= hi {
          assert tail[i] == items[i + 1];
        }
      }
      TotalLengthBounds(tail, lo, hi);
      var first := Len(items[0]).value;
      var rest := TotalLength(tail).value;
      assert TotalLength(items).value == first + rest;
      TotalStep(first, rest, |tail|, lo, hi);
    }
  }

  /** One more length within `[lo, hi]` widens the total's bounds by `lo` and `hi`. */
  lemma TotalStep(first: nat, rest: nat, n: nat, lo: nat, hi: nat)
    requires lo <= first <= hi && lo * n <= rest <= hi * n
    ensures lo * (n + 1) <= first + rest <= hi * (n + 1)
  {
    assert lo * (n + 1) == lo * n + lo;
    assert hi * (n + 1) == hi * n + hi;
  }

  /** `NeuralMapper.map`. */
  function NeuralMap(payload: Value): Result<Value, Exception> {
    var signals :- PayloadGet(payload, "signals", List([]));
    var count :- Length(signals);
    var mean :-
      if Truthy(signals) then
        FalsyIterableIsEmpty(signals);
        var total :- TotalLength(Iterate(signals).value);
        Success(Float(total as real / count as real))
      else Success(Int(0));
    Success(Dict([(NeuralCountKey, Int(count)), (MeanLengthKey, mean)]))
  }

  /**
   * For a list of signals: `neural_count` is the number of signals, and
   * `mean_length` is the float total of their lengths over their number,
   * which lies between the shortest and longest signal's length (it is the
   * integer 0 for no signals).
   */
  lemma NeuralSummary(payload: Value, signals: seq<Value>, lo: nat, hi: nat)
    requires payload.Dict? && Get(payload.entries, Str("signals")) == Some(List(signals))
    requires LengthsWithin(signals, lo, hi)
    ensures NeuralMap(payload).Success?
    ensures var out := NeuralMap(payload).value;
            && out.Dict? && |out.entries| == 2
            && out.entries[0] == (NeuralCountKey, Int(|signals|))
            && out.entries[1].0 == MeanLengthKey
            && (signals == [] ==> out.entries[1].1 == Int(0))
            && (signals != [] ==> out.entries[1].1 == Float(TotalLength(signals).value as real / |signals| as real))
            && (signals != [] ==> lo as real <= out.entries[1].1.r <= hi as real)
  {
    TotalLengthBounds(signals, lo, hi);
    if signals != [] {
      MeanBetween(TotalLength(signals).value, |signals|, lo, hi);
    }
  }

  /** A total between `lo * n` and `hi * n`, divided by `n`, lies between `lo` and `hi`. */
  lemma MeanBetween(total: nat, n: nat, lo: nat, hi: nat)
    requires n > 0 && lo * n <= total <= hi * n
    ensures lo as real <= total as real / n as real <= hi as real
  {
    var m := total as real / n as real;
    assert m * n as real == total as real;
    assert (lo * n) as real == lo as real * n as real;
    assert (hi * n) as real == hi as real * n as real;
  }

  /** Without a `signals` entry both fields are 0. */
  lemma NeuralMissingSignals(payload: Value)
    requires payload.Dict? && !HasKey(payload.entries, Str("signals"))
    ensures NeuralMap(payload) == Success(Dict([(NeuralCountKey, Int(0)), (MeanLengthKey, Int(0))]))
  {
  }

  // ------------------------------------------------------------ genomic

  /** `GenomicMapper.map`. */
  function GenomicMap(payload: Value): Result<Value, Exception> {
    var variants :- PayloadGet(payload, "variants", List([]));
    var count :- Length(variants);
    var top :- if Truthy(variants) then GetItem(variants, Int(0)) else Success(NoneValue);
    Success(Dict([(VariantCountKey, Int(count)), (TopVariantKey, top)]))
  }

  /**
   * For a list of variants: `variant_count` is their number and
   * `top_variant` the first one, or None when there are none; a missing
   * entry counts as no variants.
   */
  lemma GenomicSummary(payload: Value, variants: seq<Value>)
    requires payload.Dict?
    requires Get(payload.entries, Str("variants")) == Some(List(variants)) || (variants == [] && !HasKey(payload.entries, Str("variants")))
    ensures GenomicMap(payload) == Success(Dict([(VariantCountKey, Int(|variants|)),
                                                 (TopVariantKey, if variants == [] then NoneValue else variants[0])]))
  {
  }

  // ------------------------------------------------------------ metabolic

  /** `d.values()`. */
  function DictValues(es: Entries): (vs: seq<Value>)
    ensures |vs| == |es| && forall i :: 0 <= i < |es| ==> vs[i] == es[i].1
  {
    seq(|es|, i requires 0 <= i < |es| => es[i].1)
  }

  /** `a + b` on two numbers: an int unless either side is a float. */
  function AddNumbers(a: Value, b: Value): (r: Value)
    requires IsNumber(a) && IsNumber(b)
    ensures IsNumber(r) && AsReal(r) == AsReal(a) + AsReal(b)
    ensures r.Float? <==> a.Float? || b.Float?
  {
    if a.Float? || b.Float? then Float(AsReal(a) + AsReal(b))
    else
      var x := if a.Int? then a.i else if a.b then 1 else 0;
      var y := if b.Int? then b.i else if b.b then 1 else 0;
      Int(x + y)
  }

  /** The arithmetic total of the numbers in `vals`, added from the back. */
  ghost function RealTotal(vals: seq<Value>): real {
    if vals == [] then 0.0
    else
      var last := vals[|vals| - 1];
      RealTotal(vals[..|vals| - 1]) + (if IsNumber(last) then AsReal(last) else 0.0)
  }

  /** Adding from the front gives the same total as adding from the back. */
  lemma {:induction false} RealTotalFront(vals: seq<Value>)
    requires vals != []
    ensures RealTotal(vals) == (if IsNumber(vals[0]) then AsReal(vals[0]) else 0.0) + RealTotal(vals[1..])
  {
    if |vals| > 1 {
      var init := vals[..|vals| - 1];
      RealTotalFront(init);
      assert init[1..] == vals[1..][..|vals[1..]| - 1];
    }
  }

  /** `sum(vals, acc)`: each value is added in turn, and the first non-number raises. */
  function SumValues(vals: seq<Value>, acc: Value): (r: Result<Value, Exception>)
    requires IsNumber(acc)
    ensures r.Success? <==> forall i :: 0 <= i < |vals| ==> IsNumber(vals[i])
    ensures r.Success? ==> IsNumber(r.value) && AsReal(r.value) == AsReal(acc) + RealTotal(vals)
    decreases |vals|
  {
    if vals == [] then Success(acc)
    else if !IsNumber(vals[0]) then
      Failure(TypeError("unsupported operand type(s) for +: '" + TypeName(acc) + "' and '" + TypeName(vals[0]) + "'"))
    else
      RealTotalFront(vals);
      assert forall i :: 1 <= i < |vals| ==> vals[i] == vals[1..][i - 1];
      SumValues(vals[1..], AddNumbers(acc, vals[0]))
  }

  /** `MetabolicMapper.map`: the average is computed before the count. */
  function MetabolicMap(payload: Value): Result<Value, Exception> {
    var measures :- PayloadGet(payload, "measures", Dict([]));
    var avg :-
      if !Truthy(measures) then Success(Int(0))
      else if !measures.Dict? then Failure(NoAttribute(measures, "values"))
      else
        var total :- SumValues(DictValues(measures.entries), Int(0));
        Success(Float(AsReal(total) / |measures.entries| as real));
    var count :- Length(measures);
    Success(Dict([(MeasureCountKey, Int(count)), (AvgValueKey, avg)]))
  }

  /**
   * For a dict of numeric measures: `measure_count` is the number of keys and
   * `avg_value` their arithmetic mean (the integer 0 for no measures); a
   * missing entry counts as no measures.
   */
  lemma MetabolicSummary(payload: Value, measures: Entries)
    requires payload.Dict?
    requires Get(payload.entries, Str("measures")) == Some(Dict(measures)) || (measures == [] && !HasKey(payload.entries, Str("measures")))
    requires forall i :: 0 <= i < |measures| ==> IsNumber(measures[i].1)
    ensures MetabolicMap(payload) ==
              Success(Dict([(MeasureCountKey, Int(|measures|)),
                            (AvgValueKey, if measures == [] then Int(0)
                                          else Float(RealTotal(DictValues(measures)) / |measures| as real))]))
  {
    if measures != [] {
      var vs := DictValues(measures);
      assert forall i :: 0 <= i < |vs| ==> IsNumber(vs[i]);
      assert SumValues(vs, Int(0)).Success?;
    }
  }

  /** A non-number among the measures makes the mapper raise a TypeError. */
  lemma MetabolicRejectsNonNumber(payload: Value, measures: Entries, k: nat)
    requires payload.Dict? && Get(payload.entries, Str("measures")) == Some(Dict(measures))
    requires k < |measures| && !IsNumber(measures[k].1)
    ensures MetabolicMap(payload).Failure? && MetabolicMap(payload).error.TypeError?
  {
    assert DictValues(measures)[k] == measures[k].1;
    assert SumValues(DictValues(measures), Int(0)).Failure?;
    SumValuesFailsWithTypeError(DictValues(measures), Int(0));
  }

  /** A failing sum always raises a TypeError. */
  lemma {:induction false} SumValuesFailsWithTypeError(vals: seq<Value>, acc: Value)
    requires IsNumber(acc) && SumValues(vals, acc).Failure?
    ensures SumValues(vals, acc).error.TypeError?
    decreases |vals|
  {
    if vals != [] && IsNumber(vals[0]) {
      SumValuesFailsWithTypeError(vals[1..], AddNumbers(acc, vals[0]));
    }
  }

  /** The documented example: measures 2 and 4 average to 3. */
  lemma MetabolicExample()
    ensures var payload := Dict([(Str("measures"), Dict([(Str("x"), Int(2)), (Str("y"), Int(4))]))]);
            MetabolicMap(payload) == Success(Dict([(MeasureCountKey, Int(2)), (AvgValueKey, Float(3.0))]))
  {
    var ms := [(Str("x"), Int(2)), (Str("y"), Int(4))];
    var payload := Dict([(Str("measures"), Dict(ms))]);
    assert Get(payload.entries, Str("measures")) == Some(Dict(ms));
    MetabolicSummary(payload, ms);
    var vs := DictValues(ms);
    assert vs == [Int(2), Int(4)];
    assert vs[..1] == [Int(2)];
    assert vs[..1][..0] == [];
    assert RealTotal(vs[..1]) == 2.0;
    assert RealTotal(vs) == 6.0;
  }
}
