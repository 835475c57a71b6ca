/**
 * The end-to-end orchestrator (pdpbiogen/core/integrator.py): every domain
 * input is dispatched to its mapper, the outputs are combined, one agent
 * step runs on them, and the result is validated before it is returned.
 */
module Integration {
  import opened Wrappers
  import opened PyValue
  import opened DomainManagement
  import opened PipelineValidation

  const DomainsKey: Value := Str("domains")

  /** `agent_system.step(combined)`; the agent system itself is not part of this model. */
  type AgentStep = Value -> Result<Value, Exception>

  /** The outputs dict after mapping the given input entries in order; the first error stops it. */
  function MapAll(dm: DomainManager, es: Entries): Result<Entries, Exception> {
    if es == [] then Success([])
    else
      var outputs :- MapAll(dm, es[..|es| - 1]);
      var (domain, payload) := es[|es| - 1];
      var out :- dm.Map(domain, payload);
      Success(Set(outputs, domain, out))
  }

  /** `{"domains": outputs}`. */
  function Combined(outputs: Entries): Value {
    Dict([(DomainsKey, Dict(outputs))])
  }

  /** What `run(inputs)` returns or raises. */
  function RunResult(dm: DomainManager, step: AgentStep, inputs: Value): Result<Value, Exception> {
    if !inputs.Dict? then Failure(NoAttribute(inputs, "items"))
    else
      var outputs :- MapAll(dm, inputs.entries);
      var agent :- step(Combined(outputs));
      var result := Dict([(CombinedKey, Combined(outputs)), (AgentKey, agent)]);
      match ValidateCombinedOutput(result)
      case Fail(e) => Failure(e)
      case Pass => Success(result)
  }

  class Integrator {
    const domainManager: DomainManager
    const agentStep: AgentStep

    /** `__init__`: a fresh DomainManager when none is given. */
    constructor(domainManager: DomainManager?, agentStep: AgentStep)
      ensures domainManager != null ==> this.domainManager == domainManager
      ensures domainManager == null ==> fresh(this.domainManager) && this.domainManager.mappers == Mappers
      ensures this.agentStep == agentStep
    {
      if domainManager != null {
        this.domainManager := domainManager;
      } else {
        this.domainManager := new DomainManager();
      }
      this.agentStep := agentStep;
    }

    /** The loop of `run`: each input entry's mapper output is stored under its domain. */
    method MapInputs(items: Entries) returns (r: Result<Entries, Exception>)
      ensures r == MapAll(domainManager, items)
    {
      var outputs: Entries := [];
      for i := 0 to |items|
        invariant MapAll(domainManager, items[..i]) == Success(outputs)
      {
        assert items[..i + 1][..i] == items[..i];
        var (domain, payload) := items[i];
        var mapOut := domainManager.Map(domain, payload);
        if mapOut.Failure? {
          MapAllStopsAtFailure(domainManager, items, i + 1);
          return Failure(mapOut.error);
        }
        outputs := Set(outputs, domain, mapOut.value);
      }
      assert items[..|items|] == items;
      r := Success(outputs);
    }

    /** `run`: the mapping loop, then the agent step, then validation. */
    method Run(inputs: Value) returns (r: Result<Value, Exception>)
      ensures r == RunResult(domainManager, agentStep, inputs)
    {
      if !inputs.Dict? {
        return Failure(NoAttribute(inputs, "items"));
      }
      var outputs :- MapInputs(inputs.entries);
      var combined := Combined(outputs);
      var agentResult :- agentStep(combined);
      var result := Dict([(CombinedKey, combined), (AgentKey, agentResult)]);
      var check := ValidateCombinedOutput(result);
      if check.Fail? {
        return Failure(check.error);
      }
      r := Success(result);
    }
  }

  /** Once a prefix of the inputs fails, mapping the whole input fails with the same error. */
  lemma {:induction false} MapAllStopsAtFailure(dm: DomainManager, es: Entries, n: nat)
    requires n <= |es| && MapAll(dm, es[..n]).Failure?
    ensures MapAll(dm, es) == MapAll(dm, es[..n])
    decreases |es| - n
  {
    if n == |es| {
      assert es[..n] == es;
    } else {
      assert es[..n + 1][..n] == es[..n];
      MapAllStopsAtFailure(dm, es, n + 1);
    }
  }

  /**
   * A successful mapping has exactly the input's domains as keys, in input
   * order, each holding that domain's mapper output.
   */
  lemma {:induction false} MapAllOutputs(dm: DomainManager, es: Entries)
    requires DistinctKeys(es)
    requires MapAll(dm, es).Success?
    ensures var outputs := MapAll(dm, es).value;
            && Keys(outputs) == Keys(es)
            && forall i :: 0 <= i < |es| ==> dm.Map(es[i].0, es[i].1).Success? && outputs[i] == (es[i].0, dm.Map(es[i].0, es[i].1).value)
  {
    if es != [] {
      var init := es[..|es| - 1];
      var (domain, payload) := es[|es| - 1];
      assert DistinctKeys(init);
      MapAllOutputs(dm, init);
      var outputs := MapAll(dm, init).value;
      assert !HasKey(outputs, domain) by {
        assert forall i :: 0 <= i < |init| ==> Keys(outputs)[i] == init[i].0;
      }
      assert Keys(outputs) + [domain] == Keys(es);
    }
  }

  /**
   * `run` returns only when every domain mapped, the agent step succeeded
   * on exactly `{"domains": outputs}`, and its result carries a numeric
   * score; the result then has exactly the keys `combined` and `agent`.
   */
  lemma RunSucceeds(dm: DomainManager, step: AgentStep, inputs: Value)
    requires RunResult(dm, step, inputs).Success?
    ensures inputs.Dict? && MapAll(dm, inputs.entries).Success?
    ensures var outputs := MapAll(dm, inputs.entries).value;
            && step(Combined(outputs)).Success?
            && RunResult(dm, step, inputs).value ==
               Dict([(CombinedKey, Combined(outputs)), (AgentKey, step(Combined(outputs)).value)])
            && WellFormedOutput(RunResult(dm, step, inputs).value)
  {
    ValidateCombinedOutputIff(RunResult(dm, step, inputs).value);
  }

  /**
   * An input entry whose domain is not registered aborts the run before the
   * agent step: the outcome is a failure and does not depend on the step
   * at all; when every earlier entry mapped, it is "Unknown domain: <d>".
   */
  lemma UnknownDomainAborts(dm: DomainManager, step1: AgentStep, step2: AgentStep, inputs: Entries, k: nat)
    requires k < |inputs| && !(inputs[k].0.Str? && inputs[k].0.s in dm.mappers)
    ensures RunResult(dm, step1, Dict(inputs)).Failure?
    ensures RunResult(dm, step1, Dict(inputs)) == RunResult(dm, step2, Dict(inputs))
    ensures MapAll(dm, inputs[..k]).Success? ==>
              RunResult(dm, step1, Dict(inputs)) == Failure(UnknownDomain(inputs[k].0))
  {
    var prefix := inputs[..k + 1];
    assert prefix[..k] == inputs[..k];
    assert MapAll(dm, prefix).Failure?;
    MapAllStopsAtFailure(dm, inputs, k + 1);
  }
}
