/**
 * The deterministic parts of the healing simulation (quantum/healing_sim.py):
 * gene log2 fold changes scale the flux bounds of the metabolic model's
 * reactions, and after flux-balance analysis the reactions whose flux
 * changed most are reported. The solver is abstract: a solution is given
 * as a value. Python floats are reals.
 */
module HealingSim {
  import opened Wrappers
  import opened Text

  // ------------------------------------------------------------ reactions

  /** A flux bound: `None`, an infinite or NaN float, or a finite one. */
  datatype Bound = Unset | NotFinite | Finite(value: real)

  /** A reaction of the metabolic model; its bounds are updated in place. */
  class Reaction {
    const id: string
    /** The ids of the genes attached to the reaction. */
    const genes: seq<string>
    var lowerBound: Bound
    var upperBound: Bound

    constructor(id: string, genes: seq<string>, lowerBound: Bound, upperBound: Bound)
      ensures this.id == id && this.genes == genes
      ensures this.lowerBound == lowerBound && this.upperBound == upperBound
    {
      this.id := id;
      this.genes := genes;
      this.lowerBound := lowerBound;
      this.upperBound := upperBound;
    }

    /**
     * COBRA's `upper_bound` setter: the new bound is checked against the
     * current lower bound, and the ValueError leaves the reaction unchanged.
     */
    method SetUpperBound(b: Bound) returns (err: Option<BoundsError>)
      modifies this
      ensures err == Clash(id, old(lowerBound), b)
      ensures lowerBound == old(lowerBound)
      ensures upperBound == if err.None? then b else old(upperBound)
    {
      err := Clash(id, lowerBound, b);
      if err.None? {
        upperBound := b;
      }
    }

    /** COBRA's `lower_bound` setter: the new bound is checked against the current upper bound. */
    method SetLowerBound(b: Bound) returns (err: Option<BoundsError>)
      modifies this
      ensures err == Clash(id, b, old(upperBound))
      ensures upperBound == old(upperBound)
      ensures lowerBound == if err.None? then b else old(lowerBound)
    {
      err := Clash(id, b, upperBound);
      if err.None? {
        lowerBound := b;
      }
    }
  }

  /** The ValueError COBRA raises for a lower bound above the upper bound, with the offending pair. */
  datatype BoundsError = BoundsError(reaction: string, lower: real, upper: real)

  /** The error a bound pair raises when assigned: only two finite bounds in the wrong order clash. */
  function Clash(id: string, lower: Bound, upper: Bound): (e: Option<BoundsError>)
    ensures e.Some? <==> lower.Finite? && upper.Finite? && lower.value > upper.value
    ensures e.Some? ==> e.value == BoundsError(id, lower.value, upper.value)
  {
    if lower.Finite? && upper.Finite? && lower.value > upper.value then Some(BoundsError(id, lower.value, upper.value))
    else None
  }

  /** The reactions of a model are distinct objects. */
  ghost predicate DistinctReactions(reactions: seq<Reaction>) {
    forall i, j :: 0 <= i < j < |reactions| ==> reactions[i] != reactions[j]
  }

  // ---------------------------------------------------------- gene scores

  /** `{g: fc for g, fc in zip(gene_list, log2fc)}` over the first `n` pairs. */
  function ScoresUpTo(geneList: seq<string>, log2fc: seq<real>, n: nat): map<string, real>
    requires n <= |geneList| && n <= |log2fc|
  {
    if n == 0 then map[]
    else ScoresUpTo(geneList, log2fc, n - 1)[geneList[n - 1] := log2fc[n - 1]]
  }

  /** The number of pairs `zip` produces. */
  function PairCount(geneList: seq<string>, log2fc: seq<real>): (n: nat)
    ensures n <= |geneList| && n <= |log2fc|
    ensures n == |geneList| || n == |log2fc|
  {
    if |geneList| < |log2fc| then |geneList| else |log2fc|
  }

  /** The gene → score dictionary: later duplicates of a gene overwrite earlier ones. */
  function GeneScores(geneList: seq<string>, log2fc: seq<real>): map<string, real> {
    ScoresUpTo(geneList, log2fc, PairCount(geneList, log2fc))
  }

  /** `gene_score.get(g, 0.0)`. */
  function Score(scores: map<string, real>, gene: string): real {
    if gene in scores then scores[gene] else 0.0
  }

  /** A gene that is not among the paired genes scores 0.0. */
  lemma {:induction false} ScoreAbsent(geneList: seq<string>, log2fc: seq<real>, n: nat, gene: string)
    requires n <= |geneList| && n <= |log2fc|
    requires forall i :: 0 <= i < n ==> geneList[i] != gene
    ensures Score(ScoresUpTo(geneList, log2fc, n), gene) == 0.0
  {
    if n > 0 {
      ScoreAbsent(geneList, log2fc, n - 1, gene);
    }
  }

  /** A paired gene scores the fold change of its last pair. */
  lemma {:induction false} ScoreLastPair(geneList: seq<string>, log2fc: seq<real>, n: nat, i: nat)
    requires i < n <= |geneList| && n <= |log2fc|
    requires forall j :: i < j < n ==> geneList[j] != geneList[i]
    ensures Score(ScoresUpTo(geneList, log2fc, n), geneList[i]) == log2fc[i]
  {
    if i < n - 1 {
      ScoreLastPair(geneList, log2fc, n - 1, i);
    }
  }

  /** Every score is a paired fold change or the default 0.0, so it lies in any range holding both. */
  lemma {:induction false} ScoreBounds(geneList: seq<string>, log2fc: seq<real>, n: nat, gene: string, lo: real, hi: real)
    requires n <= |geneList| && n <= |log2fc|
    requires lo <= 0.0 <= hi
    requires forall i :: 0 <= i < |log2fc| ==> lo <= log2fc[i] <= hi
    ensures lo <= Score(ScoresUpTo(geneList, log2fc, n), gene) <= hi
  {
    if n > 0 && geneList[n - 1] != gene {
      ScoreBounds(geneList, log2fc, n - 1, gene, lo, hi);
    }
  }

  // ------------------------------------------------------------ the factor

  /** The sum of the values. */
  function Total(vals: seq<real>): real {
    if vals == [] then 0.0 else Total(vals[..|vals| - 1]) + vals[|vals| - 1]
  }

  /** `np.mean` of a non-empty list. */
  function Mean(vals: seq<real>): real
    requires vals != []
  {
    Total(vals) / |vals| as real
  }

  /** Values within `[lo, hi]` sum to between `lo * n` and `hi * n`. */
  lemma {:induction false} TotalBounds(vals: seq<real>, lo: real, hi: real)
    requires forall i :: 0 <= i < |vals| ==> lo <= vals[i] <= hi
    ensures lo * |vals| as real <= Total(vals) <= hi * |vals| as real
  {
    if vals != [] {
      var init := vals[..|vals| - 1];
      TotalBounds(init, lo, hi);
      assert lo * |vals| as real == lo * |init| as real + lo;
      assert hi * |vals| as real == hi * |init| as real + hi;
    }
  }

  /** The mean of values within `[lo, hi]` lies within `[lo, hi]`. */
  lemma MeanBounds(vals: seq<real>, lo: real, hi: real)
    requires vals != []
    requires forall i :: 0 <= i < |vals| ==> lo <= vals[i] <= hi
    ensures lo <= Mean(vals) <= hi
  {
    TotalBounds(vals, lo, hi);
    var n := |vals| as real;
    assert Mean(vals) * n == Total(vals);
  }

  /** `max(lo, min(hi, x))`. */
  function Clamp(x: real, lo: real, hi: real): (r: real)
    requires lo <= hi
    ensures lo <= r <= hi
    ensures lo <= x <= hi ==> r == x
    ensures x < lo ==> r == lo
    ensures hi < x ==> r == hi
  {
    var capped := if hi < x then hi else x;
    if capped < lo then lo else capped
  }

  const MinFactor: real := 0.2
  const MaxFactor: real := 2.0

  /** `[gene_score.get(g, 0.0) for g in genes]`. */
  function GeneValues(genes: seq<string>, scores: map<string, real>): (vals: seq<real>)
    ensures |vals| == |genes|
    ensures forall i :: 0 <= i < |genes| ==> vals[i] == Score(scores, genes[i])
  {
    seq(|genes|, i requires 0 <= i < |genes| => Score(scores, genes[i]))
  }

  /** The factor for a reaction with genes: one plus the mean score, clipped to `[0.2, 2.0]`. */
  function Factor(genes: seq<string>, scores: map<string, real>): real
    requires genes != []
  {
    Clamp(1.0 + Mean(GeneValues(genes, scores)), MinFactor, MaxFactor)
  }

  /** The factor always lies in `[0.2, 2.0]`. */
  lemma FactorRange(genes: seq<string>, scores: map<string, real>)
    requires genes != []
    ensures MinFactor <= Factor(genes, scores) <= MaxFactor
  {
  }

  /**
   * With fold changes within `[-0.5, 0.5]` (the range the feature mapping
   * produces) the clip never applies: the factor is one plus the mean score,
   * between 0.5 and 1.5.
   */
  lemma BoundedScoresFactor(geneList: seq<string>, log2fc: seq<real>, genes: seq<string>)
    requires genes != []
    requires forall i :: 0 <= i < |log2fc| ==> -0.5 <= log2fc[i] <= 0.5
    ensures var scores := GeneScores(geneList, log2fc);
            Factor(genes, scores) == 1.0 + Mean(GeneValues(genes, scores)) &&
            0.5 <= Factor(genes, scores) <= 1.5
  {
    var scores := GeneScores(geneList, log2fc);
    var vals := GeneValues(genes, scores);
    forall i | 0 <= i < |vals|
      ensures -0.5 <= vals[i] <= 0.5
    {
      ScoreBounds(geneList, log2fc, PairCount(geneList, log2fc), genes[i], -0.5, 0.5);
    }
    MeanBounds(vals, -0.5, 0.5);
  }

  // -------------------------------------------------------------- scaling

  /** A finite bound is multiplied by the factor; `None` and infinite bounds are kept. */
  function Scale(b: Bound, factor: real): (r: Bound)
    ensures r.Finite? <==> b.Finite?
    ensures b.Finite? ==> r.value == b.value * factor
    ensures !b.Finite? ==> r == b
  {
    if b.Finite? then Finite(b.value * factor) else b
  }

  /** The bound a reaction with these genes ends with: untouched without genes. */
  function Rescaled(b: Bound, genes: seq<string>, scores: map<string, real>): Bound {
    if genes == [] then b else Scale(b, Factor(genes, scores))
  }

  /**
   * Scaling by a factor in `[0.2, 2.0]` keeps each finite bound's sign, so a
   * blocked direction stays blocked, and keeps the lower bound below the upper.
   */
  lemma ScalingKeepsFeasibility(lower: Bound, upper: Bound, genes: seq<string>, scores: map<string, real>)
    requires lower.Finite? && upper.Finite? && lower.value <= upper.value
    ensures var l, u := Rescaled(lower, genes, scores), Rescaled(upper, genes, scores);
            l.Finite? && u.Finite? && l.value <= u.value &&
            (l.value < 0.0 <==> lower.value < 0.0) &&
            (l.value == 0.0 <==> lower.value == 0.0) &&
            (u.value > 0.0 <==> upper.value > 0.0) &&
            (u.value == 0.0 <==> upper.value == 0.0)
  {
    if genes != [] {
      FactorRange(genes, scores);
      ScaleFeasible(lower, upper, Factor(genes, scores));
    }
  }

  /** Scaling both finite bounds by one positive factor keeps them ordered and keeps their signs. */
  lemma ScaleFeasible(lower: Bound, upper: Bound, f: real)
    requires lower.Finite? && upper.Finite? && lower.value <= upper.value && f > 0.0
    ensures var l, u := Scale(lower, f), Scale(upper, f);
            l.Finite? && u.Finite? && l.value <= u.value &&
            (l.value < 0.0 <==> lower.value < 0.0) &&
            (l.value == 0.0 <==> lower.value == 0.0) &&
            (u.value > 0.0 <==> upper.value > 0.0) &&
            (u.value == 0.0 <==> upper.value == 0.0)
  {
    var l, u := Scale(lower, f), Scale(upper, f);
    ScaleByPositive(lower.value, upper.value, f);
    assert l.value <= u.value;
    assert l.value < 0.0 <==> lower.value < 0.0;
    assert l.value == 0.0 <==> lower.value == 0.0;
    assert u.value > 0.0 <==> upper.value > 0.0;
  }

  /** Multiplying by a positive factor keeps order and sign. */
  lemma ScaleByPositive(x: real, y: real, f: real)
    requires f > 0.0 && x <= y
    ensures x * f <= y * f
    ensures (x * f < 0.0 <==> x < 0.0) && (x * f == 0.0 <==> x == 0.0)
    ensures (y * f > 0.0 <==> y > 0.0) && (y * f == 0.0 <==> y == 0.0)
  {
    assert (y - x) * f >= 0.0;
  }

  /** Where one reaction's rescaling leaves its bounds, and the error it raised, if any. */
  datatype RescaleResult = RescaleResult(lower: Bound, upper: Bound, error: Option<BoundsError>) {
    /** The bounds as a (lower, upper) pair. */
    function Bounds(): (Bound, Bound) {
      (lower, upper)
    }
  }

  /**
   * One iteration of `apply_gene_delta_to_model` on a reaction's bounds: the
   * upper bound is assigned first, checked against the old lower bound, then
   * the lower bound, checked against the new upper bound; the first
   * assignment that raises stops the iteration.
   */
  function RescaleOutcome(id: string, lower: Bound, upper: Bound, genes: seq<string>, scores: map<string, real>): RescaleResult {
    if genes == [] then RescaleResult(lower, upper, None)
    else RescaleBy(id, lower, upper, Factor(genes, scores))
  }

  /** The two bound assignments of one reaction with factor `f`. */
  function RescaleBy(id: string, lower: Bound, upper: Bound, f: real): RescaleResult {
    var u := Scale(upper, f);
    var e := Clash(id, lower, u);
    if e.Some? then RescaleResult(lower, upper, e)
    else
      var l := Scale(lower, f);
      var e' := Clash(id, l, u);
      if e'.Some? then RescaleResult(lower, u, e') else RescaleResult(l, u, None)
  }

  /**
   * A rescaling that raises nothing leaves both bounds as `Rescaled` says;
   * one that raises needs genes and never changes the lower bound.
   */
  lemma RescaleOutcomeClean(id: string, lower: Bound, upper: Bound, genes: seq<string>, scores: map<string, real>)
    ensures var o := RescaleOutcome(id, lower, upper, genes, scores);
            && (o.error.None? ==> o.lower == Rescaled(lower, genes, scores) && o.upper == Rescaled(upper, genes, scores))
            && (o.error.Some? ==> genes != [] && o.lower == lower)
  {
  }

  /**
   * For ordered finite bounds only the first assignment can raise: exactly
   * when the scaled upper bound falls below the old lower bound, and then
   * the reaction keeps both of its bounds.
   */
  lemma OrderedRescaleFailsIff(id: string, lower: Bound, upper: Bound, genes: seq<string>, scores: map<string, real>)
    requires lower.Finite? && upper.Finite? && lower.value <= upper.value && genes != []
    ensures var o := RescaleOutcome(id, lower, upper, genes, scores);
            var f := Factor(genes, scores);
            && (o.error.Some? <==> lower.value > upper.value * f)
            && (o.error.Some? ==> o.lower == lower && o.upper == upper &&
                                  o.error == Some(BoundsError(id, lower.value, upper.value * f)))
  {
    var f := Factor(genes, scores);
    FactorRange(genes, scores);
    var l, u := Scale(lower, f), Scale(upper, f);
    ScaleByPositive(lower.value, upper.value, f);
    assert Clash(id, l, u).None?;
  }

  /** Bounds on either side of zero, or with a `None` or infinite end, rescale without error. */
  lemma StraddlingBoundsRescale(id: string, lower: Bound, upper: Bound, genes: seq<string>, scores: map<string, real>)
    requires !lower.Finite? || !upper.Finite? || lower.value <= 0.0 <= upper.value
    ensures RescaleOutcome(id, lower, upper, genes, scores).error.None?
  {
    if genes != [] && lower.Finite? && upper.Finite? {
      var f := Factor(genes, scores);
      FactorRange(genes, scores);
      ScaleByPositive(lower.value, upper.value, f);
    }
  }

  /**
   * A reaction forced to carry flux between 5 and 6, whose only gene has
   * fold change -0.5: the factor is 0.5, the new upper bound 3.0 falls below
   * the lower bound 5.0, and the assignment raises before either bound moves.
   */
  lemma ShrinkingUpperBoundRaises()
    ensures RescaleOutcome("R", Finite(5.0), Finite(6.0), ["g"], GeneScores(["g"], [-0.5])) ==
            RescaleResult(Finite(5.0), Finite(6.0), Some(BoundsError("R", 5.0, 3.0)))
  {
    var scores := GeneScores(["g"], [-0.5]);
    assert scores == map["g" := -0.5];
    assert GeneValues(["g"], scores) == [-0.5];
    assert Mean([-0.5]) == -0.5;
    assert Factor(["g"], scores) == 0.5;
  }

  /** One iteration of `apply_gene_delta_to_model`: the reaction ends as `RescaleOutcome` says. */
  method RescaleReaction(rxn: Reaction, geneScore: map<string, real>) returns (err: Option<BoundsError>)
    modifies rxn
    ensures var o := RescaleOutcome(rxn.id, old(rxn.lowerBound), old(rxn.upperBound), rxn.genes, geneScore);
            rxn.lowerBound == o.lower && rxn.upperBound == o.upper && err == o.error
  {
    err := None;
    var genes := rxn.genes;
    if genes != [] {
      var factor := Factor(genes, geneScore);
      err := ScaleBounds(rxn, factor);
    }
  }

  /** The two bound assignments of one reaction, upper bound first, stopping at the one that raises. */
  method ScaleBounds(rxn: Reaction, factor: real) returns (err: Option<BoundsError>)
    modifies rxn
    ensures var o := RescaleBy(rxn.id, old(rxn.lowerBound), old(rxn.upperBound), factor);
            rxn.lowerBound == o.lower && rxn.upperBound == o.upper && err == o.error
  {
    ghost var u := Scale(rxn.upperBound, factor);
    ghost var l := Scale(rxn.lowerBound, factor);
    err := None;
    if rxn.upperBound.Finite? {
      err := rxn.SetUpperBound(Finite(rxn.upperBound.value * factor));
    }
    assert err == Clash(rxn.id, rxn.lowerBound, u);
    if err.Some? {
      return;
    }
    assert rxn.upperBound == u;
    if rxn.lowerBound.Finite? {
      err := rxn.SetLowerBound(Finite(rxn.lowerBound.value * factor));
    }
    assert err == Clash(rxn.id, l, u);
  }

  /** The reactions' bounds, as (lower, upper) pairs. */
  ghost function BoundsOf(reactions: seq<Reaction>): (r: seq<(Bound, Bound)>)
    reads set x | x in reactions
    ensures |r| == |reactions|
    ensures forall i :: 0 <= i < |reactions| ==> r[i] == BoundsAt(reactions, i)
  {
    if reactions == [] then []
    else [BoundsAt(reactions, 0)] + BoundsOf(reactions[1..])
  }

  /** Reaction `i`'s bounds, as a (lower, upper) pair. */
  ghost function BoundsAt(reactions: seq<Reaction>, i: int): (Bound, Bound)
    requires 0 <= i < |reactions|
    reads reactions[i]
  {
    (reactions[i].lowerBound, reactions[i].upperBound)
  }

  /** What rescaling reaction `i` from its bounds in `before` gives. */
  function OutcomeAt(reactions: seq<Reaction>, before: seq<(Bound, Bound)>, scores: map<string, real>, i: int): RescaleResult
    requires |before| == |reactions| && 0 <= i < |reactions|
  {
    RescaleOutcome(reactions[i].id, before[i].0, before[i].1, reactions[i].genes, scores)
  }

  /** The index of the first reaction whose rescaling raises, or the number of reactions when none does. */
  function FirstClash(reactions: seq<Reaction>, before: seq<(Bound, Bound)>, scores: map<string, real>): (k: nat)
    requires |before| == |reactions|
    ensures k <= |reactions|
    ensures forall j :: 0 <= j < k ==> OutcomeAt(reactions, before, scores, j).error.None?
    ensures k < |reactions| ==> OutcomeAt(reactions, before, scores, k).error.Some?
  {
    if reactions == [] then 0
    else if OutcomeAt(reactions, before, scores, 0).error.Some? then 0
    else
      var k := FirstClash(reactions[1..], before[1..], scores);
      assert forall j :: 1 <= j < k + 1 ==>
        OutcomeAt(reactions, before, scores, j) == OutcomeAt(reactions[1..], before[1..], scores, j - 1);
      1 + k
  }

  /**
   * `apply_gene_delta_to_model`: reactions are rescaled in order until one
   * bound assignment raises. The reactions before it are rescaled, it keeps
   * what its assignments left, the later ones are untouched, and its error
   * escapes; when nothing raises every reaction with genes has its finite
   * bounds scaled by its factor.
   */
  method ApplyGeneDelta(reactions: seq<Reaction>, geneList: seq<string>, log2fc: seq<real>) returns (err: Option<BoundsError>)
    requires DistinctReactions(reactions)
    modifies set r | r in reactions
    ensures var scores := GeneScores(geneList, log2fc);
            var before := old(BoundsOf(reactions));
            var k := FirstClash(reactions, before, scores);
            && (err.None? <==> k == |reactions|)
            && (err.Some? ==> err == OutcomeAt(reactions, before, scores, k).error)
            && (forall i :: 0 <= i < |reactions| && i <= k ==>
                  BoundsAt(reactions, i) == OutcomeAt(reactions, before, scores, i).Bounds())
            && (forall i :: k < i < |reactions| ==> BoundsAt(reactions, i) == before[i])
    ensures err.None? ==> forall i :: 0 <= i < |reactions| ==>
              reactions[i].upperBound == Rescaled(old(reactions[i].upperBound), reactions[i].genes, GeneScores(geneList, log2fc)) &&
              reactions[i].lowerBound == Rescaled(old(reactions[i].lowerBound), reactions[i].genes, GeneScores(geneList, log2fc))
  {
    var geneScore := GeneScores(geneList, log2fc);
    ghost var before := BoundsOf(reactions);
    ghost var k := FirstClash(reactions, before, geneScore);
    err := None;
    var i := 0;
    while i < |reactions| && err.None?
      invariant 0 <= i <= |reactions|
      invariant err.None? ==> i <= k
      invariant err.Some? ==> i == k + 1 && err == OutcomeAt(reactions, before, geneScore, k).error
      invariant forall j :: 0 <= j < i ==> BoundsAt(reactions, j) == OutcomeAt(reactions, before, geneScore, j).Bounds()
      invariant forall j :: i <= j < |reactions| ==> BoundsAt(reactions, j) == before[j]
    {
      ghost var o := OutcomeAt(reactions, before, geneScore, i);
      assert forall j :: 0 <= j < |reactions| && j != i ==> reactions[j] != reactions[i];
      err := RescaleReaction(reactions[i], geneScore);
      assert BoundsAt(reactions, i) == o.Bounds() && err == o.error;
      i := i + 1;
    }
    if err.None? {
      forall j | 0 <= j < |reactions|
        ensures reactions[j].upperBound == Rescaled(before[j].1, reactions[j].genes, geneScore)
        ensures reactions[j].lowerBound == Rescaled(before[j].0, reactions[j].genes, geneScore)
      {
        assert BoundsAt(reactions, j) == OutcomeAt(reactions, before, geneScore, j).Bounds();
        RescaleOutcomeClean(reactions[j].id, before[j].0, before[j].1, reactions[j].genes, geneScore);
      }
    }
  }

  // ------------------------------------------------------------ flux report

  /** An optimisation result: the objective value and the flux of each reaction id. */
  datatype Solution = Solution(objectiveValue: real, fluxes: map<string, real>)

  /** `fluxes.get(r_id, 0.0)`. */
  function Flux(sol: Solution, id: string): real {
    if id in sol.fluxes then sol.fluxes[id] else 0.0
  }

  /** A reaction id and its flux change. */
  type FluxChange = (string, real)

  /** `diffs[k] = v`: the value replaces that of an existing key in place, or a new entry goes last. */
  function Assign(diffs: seq<FluxChange>, k: string, v: real): (r: seq<FluxChange>)
    ensures (forall i :: 0 <= i < |diffs| ==> diffs[i].0 != k) ==> r == diffs + [(k, v)]
  {
    if diffs == [] then [(k, v)]
    else if diffs[0].0 == k then [(k, v)] + diffs[1..]
    else [diffs[0]] + Assign(diffs[1..], k, v)
  }

  /** After `diffs[k] = v` every entry is the one assigned or was there before. */
  lemma {:induction false} AssignEntries(diffs: seq<FluxChange>, k: string, v: real)
    ensures forall x :: x in Assign(diffs, k, v) ==> x == (k, v) || x in diffs
  {
    if diffs != [] && diffs[0].0 != k {
      AssignEntries(diffs[1..], k, v);
      assert forall x :: x in diffs[1..] ==> x in diffs;
    }
  }

  /** The `diffs` dictionary after the given reaction ids: after-flux minus before-flux. */
  function Diffs(ids: seq<string>, before: Solution, after: Solution): seq<FluxChange> {
    if ids == [] then []
    else
      var id := ids[|ids| - 1];
      Assign(Diffs(ids[..|ids| - 1], before, after), id, Flux(after, id) - Flux(before, id))
  }

  /** Every entry's change is its reaction's after-flux minus its before-flux. */
  lemma {:induction false} DiffValues(ids: seq<string>, before: Solution, after: Solution)
    ensures forall x :: x in Diffs(ids, before, after) ==> x.1 == Flux(after, x.0) - Flux(before, x.0)
  {
    if ids != [] {
      var id := ids[|ids| - 1];
      DiffValues(ids[..|ids| - 1], before, after);
      AssignEntries(Diffs(ids[..|ids| - 1], before, after), id, Flux(after, id) - Flux(before, id));
    }
  }

  /** For distinct ids there is one entry per reaction, in reaction order. */
  lemma {:induction false} DiffsInOrder(ids: seq<string>, before: Solution, after: Solution)
    requires forall i, j :: 0 <= i < j < |ids| ==> ids[i] != ids[j]
    ensures |Diffs(ids, before, after)| == |ids|
    ensures forall i :: 0 <= i < |ids| ==> Diffs(ids, before, after)[i] == (ids[i], Flux(after, ids[i]) - Flux(before, ids[i]))
  {
    if ids != [] {
      var init := ids[..|ids| - 1];
      var id := ids[|ids| - 1];
      var d := Diffs(init, before, after);
      assert |d| == |init| && forall i :: 0 <= i < |init| ==> d[i] == (init[i], Flux(after, init[i]) - Flux(before, init[i])) by {
        DiffsInOrder(init, before, after);
      }
      var r := Diffs(ids, before, after);
      assert r == d + [(id, Flux(after, id) - Flux(before, id))] by {
        forall i | 0 <= i < |d|
          ensures d[i].0 != id
        {
          assert d[i].0 == init[i] == ids[i];
        }
      }
      forall i | 0 <= i < |ids|
        ensures r[i] == (ids[i], Flux(after, ids[i]) - Flux(before, ids[i]))
      {
        if i < |init| {
          assert r[i] == d[i] && init[i] == ids[i];
        }
      }
    }
  }

  function Abs(x: real): (r: real)
    ensures r >= 0.0 && (r == x || r == -x)
  {
    if x < 0.0 then -x else x
  }

  /** Non-increasing absolute change. */
  predicate SortedByChange(s: seq<FluxChange>) {
    forall i, j :: 0 <= i < j < |s| ==> Abs(s[j].1) <= Abs(s[i].1)
  }

  /** Inserts after every entry whose absolute change is at least as large. */
  function InsertByChange(x: FluxChange, s: seq<FluxChange>): (r: seq<FluxChange>)
    requires SortedByChange(s)
    ensures SortedByChange(r)
    ensures multiset(r) == multiset(s) + multiset{x}
  {
    if s == [] then [x]
    else if Abs(s[0].1) < Abs(x.1) then [x] + s
    else
      var rest := InsertByChange(x, s[1..]);
      ChangesBelow(x, s, rest);
      PrependSortedByChange(s[0], rest);
      assert s == [s[0]] + s[1..];
      [s[0]] + rest
  }

  /** What is inserted behind the first entry of a sorted list changes no more than that entry. */
  lemma ChangesBelow(x: FluxChange, s: seq<FluxChange>, rest: seq<FluxChange>)
    requires s != [] && SortedByChange(s) && Abs(x.1) <= Abs(s[0].1)
    requires multiset(rest) == multiset(s[1..]) + multiset{x}
    ensures forall i :: 0 <= i < |rest| ==> Abs(rest[i].1) <= Abs(s[0].1)
  {
    forall i | 0 <= i < |rest|
      ensures Abs(rest[i].1) <= Abs(s[0].1)
    {
      assert rest[i] in multiset(rest);
      if rest[i] != x {
        assert rest[i] in multiset(s[1..]);
        var k :| 0 <= k < |s[1..]| && s[1..][k] == rest[i];
        assert s[k + 1] == rest[i];
      }
    }
  }

  /** An entry changing at least as much as every entry of a sorted list can go in front of it. */
  lemma PrependSortedByChange(h: FluxChange, t: seq<FluxChange>)
    requires SortedByChange(t) && forall i :: 0 <= i < |t| ==> Abs(t[i].1) <= Abs(h.1)
    ensures SortedByChange([h] + t)
  {
    var r := [h] + t;
    forall i, j | 0 <= i < j < |r|
      ensures Abs(r[j].1) <= Abs(r[i].1)
    {
      assert r[j] == t[j - 1];
      if i > 0 {
        assert r[i] == t[i - 1];
      }
    }
  }

  /** `sorted(diffs.items(), key=abs of the change, reverse=True)`. */
  function SortByChange(xs: seq<FluxChange>): (r: seq<FluxChange>)
    ensures SortedByChange(r)
    ensures multiset(r) == multiset(xs)
  {
    if xs == [] then []
    else
      var init := xs[..|xs| - 1];
      assert xs == init + [xs[|xs| - 1]];
      InsertByChange(xs[|xs| - 1], SortByChange(init))
  }

  /** How many changes are reported. */
  const TopCount := 20

  /** The first `TopCount` entries of the sorted changes. */
  function Top(diffs: seq<FluxChange>): seq<FluxChange> {
    var sorted := SortByChange(diffs);
    if |sorted| <= TopCount then sorted else sorted[..TopCount]
  }

  /** Nothing after a prefix of a sorted sequence has a larger absolute change than anything in it. */
  lemma SortedPrefixDominates(s: seq<FluxChange>, n: nat)
    requires SortedByChange(s) && n <= |s|
    ensures multiset(s[..n]) <= multiset(s)
    ensures forall x :: x in multiset(s) - multiset(s[..n]) ==>
              forall k :: 0 <= k < n ==> Abs(x.1) <= Abs(s[k].1)
  {
    assert s == s[..n] + s[n..];
    assert multiset(s) == multiset(s[..n]) + multiset(s[n..]);
    forall x | x in multiset(s) - multiset(s[..n])
      ensures forall k :: 0 <= k < n ==> Abs(x.1) <= Abs(s[k].1)
    {
      assert x in multiset(s[n..]);
      var m :| n <= m < |s| && s[m] == x;
    }
  }

  /**
   * The report keeps `min(20, n)` of the changes, in non-increasing order of
   * absolute change, and every change it leaves out is no larger than any it
   * keeps.
   */
  lemma TopSelection(diffs: seq<FluxChange>)
    ensures |Top(diffs)| == if |diffs| < TopCount then |diffs| else TopCount
    ensures SortedByChange(Top(diffs))
    ensures multiset(Top(diffs)) <= multiset(diffs)
    ensures forall x :: x in multiset(diffs) - multiset(Top(diffs)) ==>
              forall k :: 0 <= k < |Top(diffs)| ==> Abs(x.1) <= Abs(Top(diffs)[k].1)
  {
    var sorted := SortByChange(diffs);
    assert |sorted| == |multiset(sorted)| == |multiset(diffs)| == |diffs|;
    var n := if |sorted| <= TopCount then |sorted| else TopCount;
    assert sorted[..|sorted|] == sorted;
    assert Top(diffs) == sorted[..n];
    SortedPrefixDominates(sorted, n);
  }

  /** The report of `run_fba_and_report`. */
  datatype FbaReport = FbaReport(objectiveBaseline: real, objectiveChanged: real, topFluxChanges: seq<FluxChange>)

  /** The solution compared against: the given baseline, or the current model's own solution. */
  function BaselineOf(baseline: Option<Solution>, current: Solution): Solution {
    if baseline.Some? then baseline.value else current
  }

  function Ids(reactions: seq<Reaction>): (ids: seq<string>)
    ensures |ids| == |reactions|
    ensures forall i :: 0 <= i < |reactions| ==> ids[i] == reactions[i].id
  {
    if reactions == [] then [] else Ids(reactions[..|reactions| - 1]) + [reactions[|reactions| - 1].id]
  }

  /**
   * `run_fba_and_report`, with `current` the solution of optimising the
   * model as it is now: the objectives, and the 20 largest flux changes.
   */
  method RunFbaAndReport(reactions: seq<Reaction>, baseline: Option<Solution>, current: Solution) returns (report: FbaReport)
    ensures report.objectiveBaseline == BaselineOf(baseline, current).objectiveValue
    ensures report.objectiveChanged == current.objectiveValue
    ensures report.topFluxChanges == Top(Diffs(Ids(reactions), BaselineOf(baseline, current), current))
  {
    var before := if baseline.None? then current else baseline.value;
    var sol := current;
    var ids := Ids(reactions);
    var diffs := [];
    for i := 0 to |reactions|
      invariant diffs == Diffs(ids[..i], before, sol)
    {
      assert ids[..i + 1][..i] == ids[..i];
      var rId := reactions[i].id;
      var vBefore := Flux(before, rId);
      var vAfter := Flux(sol, rId);
      diffs := Assign(diffs, rId, vAfter - vBefore);
    }
    assert ids[..|reactions|] == ids;
    report := FbaReport(before.objectiveValue, sol.objectiveValue, Top(diffs));
  }

  /**
   * Without a baseline the model is compared with itself: both objectives
   * are the current one and every reported change is zero.
   */
  lemma NoBaselineNoChange(reactions: seq<Reaction>, current: Solution)
    ensures BaselineOf(None, current).objectiveValue == current.objectiveValue
    ensures forall x :: x in Top(Diffs(Ids(reactions), BaselineOf(None, current), current)) ==> x.1 == 0.0
  {
    var diffs := Diffs(Ids(reactions), current, current);
    DiffValues(Ids(reactions), current, current);
    TopSelection(diffs);
    forall x | x in Top(diffs)
      ensures x.1 == 0.0
    {
      assert x in multiset(Top(diffs));
      assert x in multiset(diffs);
    }
  }

  // ------------------------------------------------------- default genes

  const DefaultGeneCount := 200

  /** `f"GENE{i:05d}"`. */
  function GeneName(i: nat): string {
    "GENE" + ZeroPad(i, 5)
  }

  /** The gene list used when none is given. */
  function DefaultGeneList(): (genes: seq<string>)
    ensures |genes| == DefaultGeneCount
    ensures forall i :: 0 <= i < DefaultGeneCount ==> genes[i] == GeneName(i)
  {
    seq(DefaultGeneCount, i requires 0 <= i < DefaultGeneCount => GeneName(i))
  }

  lemma ShortNumber(n: nat)
    requires n < 1000
    ensures |NatToString(n)| <= 3
  {
    if n >= 10 {
      var m := n / 10;
      assert NatToString(n) == NatToString(m) + [DigitChar(n % 10)];
      if m >= 10 {
        assert NatToString(m) == NatToString(m / 10) + [DigitChar(m % 10)];
        assert m / 10 < 10;
      }
    }
  }

  /**
   * The default genes are 200 distinct nine-character ids: `GENE` and the
   * index written with five digits, which read back as the index.
   */
  lemma DefaultGenes(i: nat, j: nat)
    requires i < DefaultGeneCount && j < DefaultGeneCount
    ensures |DefaultGeneList()[i]| == 9 && DefaultGeneList()[i][..4] == "GENE"
    ensures ParseDigits(DefaultGeneList()[i][4..]) == i
    ensures i != j ==> DefaultGeneList()[i] != DefaultGeneList()[j]
  {
    var gi, gj := GeneName(i), GeneName(j);
    ShortNumber(i);
    ShortNumber(j);
    assert gi[4..] == ZeroPad(i, 5) && gj[4..] == ZeroPad(j, 5);
    ParseZeroPad(i, 5);
    ParseZeroPad(j, 5);
  }

  /** The first and last default ids. */
  lemma DefaultGeneEnds()
    ensures DefaultGeneList()[0] == "GENE00000"
    ensures DefaultGeneList()[DefaultGeneCount - 1] == "GENE00199"
  {
    assert NatToString(0) == "0";
    assert NatToString(199) == "199";
    assert Zeros(4) == "0000";
    assert Zeros(2) == "00";
  }
}
