/**
 * Multi-domain agent collaboration
 * (srcpdpbiogenllm_super_symmetrymulti_agent_collaboration.py): one agent
 * per domain, each proposing a plan from its own slice of the biological
 * state, and a strategy that resolves the proposals into one plan. The
 * agents' proposals and the conflict resolver are not part of this model;
 * they are given as functions.
 */
module Collaboration {
  import opened Wrappers
  import opened PyValue

  /** The agent classes; a generic agent remembers its domain. */
  datatype AgentKind = NeuralAgent | GenomicAgent | MetabolicAgent | ClinicalAgent | DomainAgent(domain: string)

  /** The `if`/`elif` ladder of `_initialize_domain_agents`. */
  function KindFor(domain: string): (k: AgentKind)
    ensures k.DomainAgent? <==> domain !in {"neural", "genomic", "metabolic", "clinical"}
    ensures k.DomainAgent? ==> k.domain == domain
    ensures k == NeuralAgent <==> domain == "neural"
  {
    if domain == "neural" then NeuralAgent
    else if domain == "genomic" then GenomicAgent
    else if domain == "metabolic" then MetabolicAgent
    else if domain == "clinical" then ClinicalAgent
    else DomainAgent(domain)
  }

  /** The `agents` dict: domain → agent, in insertion order. */
  type AgentTable = seq<(string, AgentKind)>

  function DomainsOf(agents: AgentTable): (ds: seq<string>)
    ensures |ds| == |agents| && forall i :: 0 <= i < |agents| ==> ds[i] == agents[i].0
  {
    seq(|agents|, i requires 0 <= i < |agents| => agents[i].0)
  }

  ghost predicate DistinctDomains(agents: AgentTable) {
    forall i, j :: 0 <= i < j < |agents| ==> agents[i].0 != agents[j].0
  }

  /** `agents[domain] = agent`: an existing domain keeps its place, a new one goes last. */
  function SetAgent(agents: AgentTable, domain: string, kind: AgentKind): (r: AgentTable)
    requires DistinctDomains(agents)
    ensures DistinctDomains(r)
    ensures DomainsOf(r) == if domain in DomainsOf(agents) then DomainsOf(agents) else DomainsOf(agents) + [domain]
    ensures forall i :: 0 <= i < |r| ==> r[i].1 == if r[i].0 == domain then kind else agents[i].1
  {
    if domain in DomainsOf(agents) then
      var r := agents[DomainIndex(agents, domain) := (domain, kind)];
      assert DomainsOf(r) == DomainsOf(agents);
      r
    else
      var r := agents + [(domain, kind)];
      assert DomainsOf(r) == DomainsOf(agents) + [domain];
      r
  }

  /** Where a domain already in the table sits. */
  function DomainIndex(agents: AgentTable, domain: string): (k: nat)
    requires domain in DomainsOf(agents)
    ensures k < |agents| && agents[k].0 == domain
  {
    if agents[0].0 == domain then 0
    else
      assert DomainsOf(agents) == [agents[0].0] + DomainsOf(agents[1..]);
      1 + DomainIndex(agents[1..], domain)
  }

  /** The agents after registering the given domains in order. */
  function AgentsFor(domains: seq<string>): (r: AgentTable)
    ensures DistinctDomains(r)
  {
    if domains == [] then []
    else
      var d := domains[|domains| - 1];
      SetAgent(AgentsFor(domains[..|domains| - 1]), d, KindFor(d))
  }

  /**
   * Exactly one agent per distinct domain name: the table's domains are
   * distinct, they are exactly the listed domains, and each agent is the
   * kind its domain calls for.
   */
  lemma {:induction false} AgentsForTable(domains: seq<string>)
    ensures DistinctDomains(AgentsFor(domains))
    ensures forall d :: d in DomainsOf(AgentsFor(domains)) <==> d in domains
    ensures forall i :: 0 <= i < |AgentsFor(domains)| ==> AgentsFor(domains)[i].1 == KindFor(AgentsFor(domains)[i].0)
  {
    if domains != [] {
      var init := domains[..|domains| - 1];
      AgentsForTable(init);
      assert domains == init + [domains[|domains| - 1]];
    }
  }

  /** `agent.propose_integration(brain_instructions, state)`. */
  type Proposer = (AgentKind, Value, Value) -> Entries

  /** The per-domain proposals, in the agents' order. */
  type ProposalTable = seq<(string, Entries)>

  /** `biological_state.get(domain, {})`. */
  function StateFor(state: Entries, domain: string): Value {
    GetOr(state, Str(domain), Dict([]))
  }

  /** Every agent's proposal, keyed by its domain. */
  function Proposals(agents: AgentTable, propose: Proposer, brain: Value, state: Entries): ProposalTable {
    if agents == [] then []
    else
      var (domain, kind) := agents[|agents| - 1];
      Proposals(agents[..|agents| - 1], propose, brain, state)
        + [(domain, propose(kind, brain, StateFor(state, domain)))]
  }

  /** One proposal per agent, in the same order, each made from that domain's state or `{}`. */
  lemma {:induction false} ProposalsShape(agents: AgentTable, propose: Proposer, brain: Value, state: Entries)
    ensures |Proposals(agents, propose, brain, state)| == |agents|
    ensures forall i :: 0 <= i < |agents| ==>
              Proposals(agents, propose, brain, state)[i] ==
              (agents[i].0, propose(agents[i].1, brain, StateFor(state, agents[i].0)))
  {
    if agents != [] {
      var init := agents[..|agents| - 1];
      ProposalsShape(init, propose, brain, state);
      assert forall i :: 0 <= i < |init| ==> init[i] == agents[i];
    }
  }

  /** A domain absent from the biological state is given `{}`, a present one its entry. */
  lemma StateForLookup(state: Entries, domain: string)
    ensures !HasKey(state, Str(domain)) ==> StateFor(state, domain) == Dict([])
    ensures HasKey(state, Str(domain)) ==> Some(StateFor(state, domain)) == Get(state, Str(domain))
  {
  }

  /** `ConflictResolver`. */
  datatype Resolver = Resolver(
    collaborativeResolve: ProposalTable -> Entries,
    emergentResolve: ProposalTable -> Entries,
    mergeWithPriority: (Entries, Entries, string) -> Entries)

  /** `agent_proposals.get(domain)`. */
  function ProposalOf(proposals: ProposalTable, domain: string): Option<Entries> {
    if proposals == [] then None
    else if proposals[0].0 == domain then Some(proposals[0].1)
    else ProposalOf(proposals[1..], domain)
  }

  /** The plan after merging, in order, every non-neural proposal into `start`. */
  function MergeOthers(resolver: Resolver, start: Entries, proposals: ProposalTable): Entries {
    if proposals == [] then start
    else
      var before := MergeOthers(resolver, start, proposals[..|proposals| - 1]);
      var (domain, proposal) := proposals[|proposals| - 1];
      if domain != "neural" then Update(before, resolver.mergeWithPriority(before, proposal, domain))
      else before
  }

  /** `_hierarchical_resolution`: the neural proposal (or `{}`) with the others merged in. */
  function Hierarchical(resolver: Resolver, proposals: ProposalTable): Entries {
    MergeOthers(resolver, ProposalOf(proposals, "neural").GetOr([]), proposals)
  }

  /** The non-neural proposals, in order. */
  function Others(proposals: ProposalTable): (r: ProposalTable)
    ensures forall i :: 0 <= i < |r| ==> r[i].0 != "neural"
  {
    if proposals == [] then []
    else
      var last := proposals[|proposals| - 1];
      Others(proposals[..|proposals| - 1]) + (if last.0 != "neural" then [last] else [])
  }

  /** The neural proposal is not merged again: merging all proposals is merging only the others. */
  lemma {:induction false} NeuralNotMergedAgain(resolver: Resolver, start: Entries, proposals: ProposalTable)
    ensures MergeOthers(resolver, start, proposals) == MergeOthers(resolver, start, Others(proposals))
  {
    if proposals != [] {
      var init := proposals[..|proposals| - 1];
      var last := proposals[|proposals| - 1];
      NeuralNotMergedAgain(resolver, start, init);
      if last.0 == "neural" {
        assert Others(proposals) == Others(init) + [];
        assert Others(init) + [] == Others(init);
      } else {
        var others := Others(init) + [last];
        assert Others(proposals) == others;
        assert others[..|others| - 1] == Others(init);
        assert others[|others| - 1] == last;
      }
    }
  }

  /** The starting plan's keys stay first, in their order: merging only adds keys after them. */
  lemma {:induction false} StartKeysKept(resolver: Resolver, start: Entries, proposals: ProposalTable)
    ensures |Keys(start)| <= |Keys(MergeOthers(resolver, start, proposals))|
    ensures Keys(MergeOthers(resolver, start, proposals))[..|Keys(start)|] == Keys(start)
  {
    if proposals != [] {
      var init := proposals[..|proposals| - 1];
      StartKeysKept(resolver, start, init);
      var before := MergeOthers(resolver, start, init);
      var (domain, proposal) := proposals[|proposals| - 1];
      if domain != "neural" {
        UpdateKeys(before, resolver.mergeWithPriority(before, proposal, domain));
        var nk := NewKeys(before, resolver.mergeWithPriority(before, proposal, domain));
        assert (Keys(before) + nk)[..|Keys(start)|] == Keys(before)[..|Keys(start)|];
      }
    }
  }

  /** Without non-neural proposals the hierarchical plan is the neural proposal itself, or `{}`. */
  lemma {:induction false} OnlyNeural(resolver: Resolver, proposals: ProposalTable)
    requires forall i :: 0 <= i < |proposals| ==> proposals[i].0 == "neural"
    ensures Hierarchical(resolver, proposals) == if proposals == [] then [] else proposals[0].1
  {
    NeuralNotMergedAgain(resolver, ProposalOf(proposals, "neural").GetOr([]), proposals);
    NoOthers(proposals);
  }

  lemma {:induction false} NoOthers(proposals: ProposalTable)
    requires forall i :: 0 <= i < |proposals| ==> proposals[i].0 == "neural"
    ensures Others(proposals) == []
  {
    if proposals != [] {
      NoOthers(proposals[..|proposals| - 1]);
    }
  }

  /** The strategy dispatch of `coordinate_integration`; any unknown strategy is emergent. */
  function Resolve(strategy: string, resolver: Resolver, proposals: ProposalTable): Entries {
    if strategy == "collaborative" then resolver.collaborativeResolve(proposals)
    else if strategy == "hierarchical" then Hierarchical(resolver, proposals)
    else resolver.emergentResolve(proposals)
  }

  class MultiAgentCollaboration {
    const domains: seq<string>
    const strategy: string
    const agents: AgentTable
    const resolver: Resolver
    const propose: Proposer

    /** `__init__`: one agent per domain; the resolver and the agents' behaviour come from outside. */
    constructor(domains: seq<string>, strategy: string, resolver: Resolver, propose: Proposer)
      ensures this.domains == domains && this.strategy == strategy
      ensures this.resolver == resolver && this.propose == propose
      ensures agents == AgentsFor(domains)
    {
      this.domains := domains;
      this.strategy := strategy;
      this.resolver := resolver;
      this.propose := propose;
      var table := InitializeDomainAgents(domains);
      agents := table;
    }

    /** `_initialize_domain_agents`. */
    static method InitializeDomainAgents(domains: seq<string>) returns (agents: AgentTable)
      ensures agents == AgentsFor(domains)
    {
      agents := [];
      for i := 0 to |domains|
        invariant agents == AgentsFor(domains[..i])
      {
        assert domains[..i + 1][..i] == domains[..i];
        agents := SetAgent(agents, domains[i], KindFor(domains[i]));
      }
      assert domains[..|domains|] == domains;
    }

    /** `_hierarchical_resolution`, as the loop it is. */
    method HierarchicalResolution(proposals: ProposalTable) returns (coordinated: Entries)
      ensures coordinated == Hierarchical(resolver, proposals)
    {
      var neuralPriority := ProposalOf(proposals, "neural").GetOr([]);
      coordinated := neuralPriority;
      for i := 0 to |proposals|
        invariant coordinated == MergeOthers(resolver, neuralPriority, proposals[..i])
      {
        assert proposals[..i + 1][..i] == proposals[..i];
        var (domain, proposal) := proposals[i];
        if domain != "neural" {
          coordinated := Update(coordinated, resolver.mergeWithPriority(coordinated, proposal, domain));
        }
      }
      assert proposals[..|proposals|] == proposals;
    }

    /** `coordinate_integration`: collect every agent's proposal, then resolve by strategy. */
    method CoordinateIntegration(brain: Value, state: Entries) returns (plan: Entries)
      ensures plan == Resolve(strategy, resolver, Proposals(agents, propose, brain, state))
    {
      var proposals: ProposalTable := [];
      for i := 0 to |agents|
        invariant proposals == Proposals(agents[..i], propose, brain, state)
      {
        assert agents[..i + 1][..i] == agents[..i];
        var (domain, agent) := agents[i];
        var proposal := propose(agent, brain, StateFor(state, domain));
        proposals := proposals + [(domain, proposal)];
      }
      assert agents[..|agents|] == agents;
      if strategy == "collaborative" {
        plan := resolver.collaborativeResolve(proposals);
      } else if strategy == "hierarchical" {
        plan := HierarchicalResolution(proposals);
      } else {
        plan := resolver.emergentResolve(proposals);
      }
    }
  }
}
