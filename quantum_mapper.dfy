/**
 * The weighted-consensus "entangler" (dpbiogen/quantum/mapper.py): agents
 * hold a numeric deviation from a healthy 0.0; registered groups are pulled
 * to their weighted mean, neural agents weighing `multiplier` times as much
 * as biological ones. Floats are modelled as reals.
 */
module QuantumMapper {

  class Agent {
    const name: string
    var state: real
    const isNeural: bool

    constructor(name: string, initialState: real, isNeural: bool)
      ensures this.name == name && state == initialState && this.isNeural == isNeural
    {
      this.name := name;
      state := initialState;
      this.isNeural := isNeural;
    }
  }

  // ------------------------------------------------------- the specification

  /** The current states of a set of agents. */
  function StatesOf(agents: set<Agent>): (st: map<Agent, real>)
    reads agents
    ensures st.Keys == agents
  {
    map a | a in agents :: a.state
  }

  function Weight(a: Agent, multiplier: real): real {
    if a.isNeural then multiplier else 1.0
  }

  /** Σ w·s over the group, in list order (an agent listed twice counts twice). */
  function WeightedSum(g: seq<Agent>, st: map<Agent, real>, multiplier: real): real
    requires forall a :: a in g ==> a in st
  {
    if g == [] then 0.0
    else WeightedSum(g[..|g| - 1], st, multiplier) + Weight(g[|g| - 1], multiplier) * st[g[|g| - 1]]
  }

  /** Σ w over the group. */
  function TotalWeight(g: seq<Agent>, multiplier: real): real {
    if g == [] then 0.0 else TotalWeight(g[..|g| - 1], multiplier) + Weight(g[|g| - 1], multiplier)
  }

  /** One group's collapse: every member takes the weighted mean, unless the group is too small or weighs nothing. */
  function CollapseGroup(g: seq<Agent>, st: map<Agent, real>, multiplier: real): (r: map<Agent, real>)
    requires forall a :: a in g ==> a in st
    ensures r.Keys == st.Keys
  {
    if |g| < 2 || TotalWeight(g, multiplier) == 0.0 then st
    else
      var target := WeightedSum(g, st, multiplier) / TotalWeight(g, multiplier);
      map a | a in st :: if a in g then target else st[a]
  }

  ghost predicate Covers(groups: seq<seq<Agent>>, st: map<Agent, real>) {
    forall i, a :: 0 <= i < |groups| && a in groups[i] ==> a in st
  }

  /** The groups collapse one after another, in registration order, each seeing the states the earlier ones left. */
  function CollapseAll(groups: seq<seq<Agent>>, st: map<Agent, real>, multiplier: real): (r: map<Agent, real>)
    requires Covers(groups, st)
    ensures r.Keys == st.Keys
  {
    if groups == [] then st
    else
      var init := groups[..|groups| - 1];
      assert Covers(init, st) by {
        forall i, a | 0 <= i < |init| && a in init[i] ensures a in st {
          assert init[i] == groups[i];
        }
      }
      CollapseGroup(groups[|groups| - 1], CollapseAll(init, st, multiplier), multiplier)
  }

  // ----------------------------------------------------------- the classes

  class Entangler {
    var groups: seq<seq<Agent>>
    const multiplier: real

    constructor(multiplier: real)
      ensures groups == [] && this.multiplier == multiplier
    {
      groups := [];
      this.multiplier := multiplier;
    }

    /** Every agent some group lists. */
    function Members(): (s: set<Agent>)
      reads this
      ensures forall i, a :: 0 <= i < |groups| && a in groups[i] ==> a in s
    {
      set i, a | 0 <= i < |groups| && a in groups[i] :: a
    }

    /** `entangle`: a copy of the list is kept only when it has at least two agents. */
    method Entangle(agents: seq<Agent>)
      modifies this
      ensures groups == if |agents| > 1 then old(groups) + [agents] else old(groups)
    {
      if |agents| > 1 {
        groups := groups + [agents];
      }
    }

    /** `collapse_symmetry`. */
    method CollapseSymmetry()
      modifies Members()
      ensures forall a :: a in Members() ==>
                a.state == CollapseAll(groups, old(StatesOf(Members())), multiplier)[a]
    {
      ghost var st0 := StatesOf(Members());
      var gi := 0;
      while gi < |groups|
        invariant 0 <= gi <= |groups|
        invariant Covers(groups[..gi], st0)
        invariant forall a :: a in Members() ==> a.state == CollapseAll(groups[..gi], st0, multiplier)[a]
      {
        ghost var cur := CollapseAll(groups[..gi], st0, multiplier);
        var group := groups[gi];
        assert forall a :: a in group ==> a in Members();
        if |group| >= 2 {
          var weightedSum, totalWeight := Accumulate(group, cur);
          if totalWeight != 0.0 {
            var target := weightedSum / totalWeight;
            for k := 0 to |group|
              invariant forall a :: a in Members() ==> a.state == if a in group[..k] then target else cur[a]
            {
              group[k].state := target;
              assert group[..k + 1] == group[..k] + [group[k]];
            }
            assert group[..|group|] == group;
          }
        }
        assert groups[..gi + 1][..gi] == groups[..gi];
        assert groups[..gi + 1][gi] == group;
        gi := gi + 1;
      }
      assert groups[..gi] == groups;
    }

    /** The two accumulator loops over one group. */
    method Accumulate(group: seq<Agent>, ghost cur: map<Agent, real>) returns (weightedSum: real, totalWeight: real)
      requires forall a :: a in group ==> a in cur && a.state == cur[a]
      ensures weightedSum == WeightedSum(group, cur, multiplier)
      ensures totalWeight == TotalWeight(group, multiplier)
    {
      weightedSum, totalWeight := 0.0, 0.0;
      for k := 0 to |group|
        invariant weightedSum == WeightedSum(group[..k], cur, multiplier)
        invariant totalWeight == TotalWeight(group[..k], multiplier)
      {
        var a := group[k];
        var w := if a.isNeural then multiplier else 1.0;
        assert group[..k + 1][..k] == group[..k];
        weightedSum := weightedSum + w * a.state;
        totalWeight := totalWeight + w;
      }
      assert group[..|group|] == group;
    }
  }

  /** Σ |state| over the non-neural agents. */
  function BioDeviationOf(agents: seq<Agent>): (r: real)
    reads set a | a in agents
    ensures r >= 0.0
  {
    if agents == [] then 0.0
    else
      var last := agents[|agents| - 1];
      BioDeviationOf(agents[..|agents| - 1]) + (if last.isNeural then 0.0 else Abs(last.state))
  }

  function Abs(x: real): real {
    if x < 0.0 then -x else x
  }

  class Mapper {
    var agents: seq<Agent>
    const entangler: Entangler

    constructor(multiplier: real)
      ensures agents == [] && fresh(entangler)
      ensures entangler.groups == [] && entangler.multiplier == multiplier
    {
      agents := [];
      entangler := new Entangler(multiplier);
    }

    /** `add_agent`: a new agent is appended and returned. */
    method AddAgent(name: string, initialState: real, isNeural: bool) returns (agent: Agent)
      modifies this
      ensures fresh(agent) && agents == old(agents) + [agent]
      ensures agent.name == name && agent.state == initialState && agent.isNeural == isNeural
    {
      agent := new Agent(name, initialState, isNeural);
      agents := agents + [agent];
    }

    /** `entangle_group`. */
    method EntangleGroup(group: seq<Agent>)
      modifies entangler
      ensures entangler.groups == if |group| > 1 then old(entangler.groups) + [group] else old(entangler.groups)
    {
      entangler.Entangle(group);
    }

    /**
     * `collapse`: the groups share their agents with `agents`, so the
     * agents listed here change too; agents in no group keep their state.
     */
    method Collapse()
      modifies entangler.Members()
      ensures forall a :: a in agents ==>
                a.state == if a in entangler.Members()
                           then CollapseAll(entangler.groups, old(StatesOf(entangler.Members())), entangler.multiplier)[a]
                           else old(a.state)
    {
      entangler.CollapseSymmetry();
    }

    /** `bio_deviation`. */
    function BioDeviation(): real
      reads this, set a | a in agents
    {
      BioDeviationOf(agents)
    }
  }

  // --------------------------------------------------------------- lemmas

  /** The bio deviation is zero exactly when every non-neural agent sits at the healthy 0.0. */
  lemma {:induction false} BioDeviationZeroIff(agents: seq<Agent>)
    ensures BioDeviationOf(agents) == 0.0 <==> forall a :: a in agents && !a.isNeural ==> a.state == 0.0
  {
    if agents != [] {
      var init := agents[..|agents| - 1];
      BioDeviationZeroIff(init);
      assert forall a :: a in agents <==> a in init || a == agents[|agents| - 1];
    }
  }

  /** After a group's collapse (when it happens) all its members share one state. */
  lemma GroupSynchronized(g: seq<Agent>, st: map<Agent, real>, multiplier: real)
    requires forall a :: a in g ==> a in st
    requires |g| >= 2 && TotalWeight(g, multiplier) != 0.0
    ensures forall a, b :: a in g && b in g ==> CollapseGroup(g, st, multiplier)[a] == CollapseGroup(g, st, multiplier)[b]
  {
  }

  /** A group too small or weighing nothing is left as it is; so is every agent outside the group. */
  lemma GroupLeavesOthers(g: seq<Agent>, st: map<Agent, real>, multiplier: real, a: Agent)
    requires forall x :: x in g ==> x in st
    requires a in st
    ensures (|g| < 2 || TotalWeight(g, multiplier) == 0.0) ==> CollapseGroup(g, st, multiplier) == st
    ensures a !in g ==> CollapseGroup(g, st, multiplier)[a] == st[a]
  {
  }

  lemma {:induction false} WeightedSumBounds(g: seq<Agent>, st: map<Agent, real>, multiplier: real, lo: real, hi: real)
    requires multiplier > 0.0
    requires forall a :: a in g ==> a in st && lo <= st[a] <= hi
    ensures lo * TotalWeight(g, multiplier) <= WeightedSum(g, st, multiplier) <= hi * TotalWeight(g, multiplier)
  {
    if g != [] {
      var init := g[..|g| - 1];
      var last := g[|g| - 1];
      assert forall a :: a in init ==> a in g;
      var w := Weight(last, multiplier);
      var ti, si := TotalWeight(init, multiplier), WeightedSum(init, st, multiplier);
      assert lo * ti <= si <= hi * ti by {
        WeightedSumBounds(init, st, multiplier, lo, hi);
      }
      assert lo <= st[last] <= hi && w > 0.0 by {
        assert last in g;
      }
      BoundStep(ti, si, w, st[last], lo, hi, TotalWeight(g, multiplier), WeightedSum(g, st, multiplier));
    }
  }

  /** Adding one positively weighted term inside the bounds keeps the sum inside the bounds. */
  lemma BoundStep(ti: real, si: real, w: real, x: real, lo: real, hi: real, t: real, s: real)
    requires w > 0.0 && lo <= x <= hi
    requires lo * ti <= si <= hi * ti
    requires t == ti + w && s == si + w * x
    ensures lo * t <= s <= hi * t
  {
    MulMonotone(w, lo, x);
    MulMonotone(w, x, hi);
    assert lo * (ti + w) == lo * ti + w * lo;
    assert hi * (ti + w) == hi * ti + w * hi;
  }

  lemma MulMonotone(w: real, x: real, y: real)
    requires w >= 0.0 && x <= y
    ensures w * x <= w * y
  {
    assert w * y - w * x == w * (y - x);
  }

  /** For a positive divisor, bounds on the numerator scale down to bounds on the quotient. */
  lemma DivBetween(ws: real, tw: real, lo: real, hi: real)
    requires tw > 0.0 && lo * tw <= ws <= hi * tw
    ensures lo <= ws / tw <= hi
  {
    var q := ws / tw;
    assert q * tw == ws;
  }

  lemma {:induction false} TotalWeightPositive(g: seq<Agent>, multiplier: real)
    requires multiplier > 0.0 && g != []
    ensures TotalWeight(g, multiplier) > 0.0
  {
    if |g| > 1 {
      TotalWeightPositive(g[..|g| - 1], multiplier);
    }
  }

  /**
   * With a positive multiplier the common value is a weighted mean, so it
   * lies between the smallest and the largest state in the group.
   */
  lemma CollapsedBetween(g: seq<Agent>, st: map<Agent, real>, multiplier: real, lo: real, hi: real)
    requires multiplier > 0.0 && |g| >= 2
    requires forall a :: a in g ==> a in st && lo <= st[a] <= hi
    ensures forall a :: a in g ==> lo <= CollapseGroup(g, st, multiplier)[a] <= hi
  {
    TotalWeightPositive(g, multiplier);
    WeightedSumBounds(g, st, multiplier, lo, hi);
    DivBetween(WeightedSum(g, st, multiplier), TotalWeight(g, multiplier), lo, hi);
  }

  lemma {:induction false} WeightedSumConstant(g: seq<Agent>, st: map<Agent, real>, multiplier: real, c: real)
    requires forall a :: a in g ==> a in st && st[a] == c
    ensures WeightedSum(g, st, multiplier) == c * TotalWeight(g, multiplier)
  {
    if g != [] {
      assert forall a :: a in g[..|g| - 1] ==> a in g;
      WeightedSumConstant(g[..|g| - 1], st, multiplier, c);
    }
  }

  /** Collapsing a group a second time changes nothing. */
  lemma CollapseGroupIdempotent(g: seq<Agent>, st: map<Agent, real>, multiplier: real)
    requires forall a :: a in g ==> a in st
    ensures CollapseGroup(g, CollapseGroup(g, st, multiplier), multiplier) == CollapseGroup(g, st, multiplier)
  {
    var once := CollapseGroup(g, st, multiplier);
    if |g| >= 2 && TotalWeight(g, multiplier) != 0.0 {
      var target := WeightedSum(g, st, multiplier) / TotalWeight(g, multiplier);
      WeightedSumConstant(g, once, multiplier, target);
    }
  }

  /** An agent that belongs to no group keeps its state across the whole collapse. */
  lemma {:induction false} UngroupedUnchanged(groups: seq<seq<Agent>>, st: map<Agent, real>, multiplier: real, a: Agent)
    requires Covers(groups, st) && a in st
    requires forall i :: 0 <= i < |groups| ==> a !in groups[i]
    ensures CollapseAll(groups, st, multiplier)[a] == st[a]
  {
    if groups != [] {
      var init := groups[..|groups| - 1];
      assert Covers(init, st) by {
        forall i, x | 0 <= i < |init| && x in init[i] ensures x in st {
          assert init[i] == groups[i];
        }
      }
      UngroupedUnchanged(init, st, multiplier, a);
    }
  }

  /**
   * After the whole collapse, the members of group `i` share one state,
   * provided the group actually collapsed and none of its members is
   * listed again in a later group (a later, overlapping group would move
   * some of them again).
   */
  lemma {:induction false} GroupEndsSynchronized(groups: seq<seq<Agent>>, st: map<Agent, real>, multiplier: real,
                                                 i: nat, n: nat)
    requires Covers(groups, st) && i < n <= |groups|
    requires |groups[i]| >= 2 && TotalWeight(groups[i], multiplier) != 0.0
    requires forall j, a :: i < j < n && a in groups[i] ==> a !in groups[j]
    ensures forall a, b :: a in groups[i] && b in groups[i] ==>
              CollapseAll(groups[..n], st, multiplier)[a] == CollapseAll(groups[..n], st, multiplier)[b]
  {
    var prefix := groups[..n];
    var init := prefix[..n - 1];
    assert init == groups[..n - 1];
    assert Covers(prefix, st) && Covers(init, st);
    var before := CollapseAll(init, st, multiplier);
    assert CollapseAll(prefix, st, multiplier) == CollapseGroup(groups[n - 1], before, multiplier);
    if n - 1 == i {
      GroupSynchronized(groups[i], before, multiplier);
    } else {
      GroupEndsSynchronized(groups, st, multiplier, i, n - 1);
      forall a | a in groups[i] ensures CollapseGroup(groups[n - 1], before, multiplier)[a] == before[a] {
        GroupLeavesOthers(groups[n - 1], before, multiplier, a);
      }
    }
  }
}
