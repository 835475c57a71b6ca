/**
 * The check on the integrator's result (pdpbiogen/validation/validators.py):
 * the two top-level keys must be present and the agent result must carry a
 * numeric `score`.
 */
module PipelineValidation {
  import opened Wrappers
  import opened PyValue

  const CombinedKey: Value := Str("combined")
  const AgentKey: Value := Str("agent")
  const ScoreKey: Value := Str("score")

  const MissingKeys: Exception := ValueError("Malformed pipeline output: missing keys")
  const InvalidScore: Exception := ValueError("Invalid agent score")

  /** `validate_combined_output`: Pass where the source returns True. */
  function ValidateCombinedOutput(obj: Value): Outcome<Exception> {
    match Contains(obj, CombinedKey)
    case Failure(e) => Fail(e)
    case Success(hasCombined) =>
      if !hasCombined then Fail(MissingKeys)
      else match Contains(obj, AgentKey)
      case Failure(e) => Fail(e)
      case Success(hasAgent) =>
        if !hasAgent then Fail(MissingKeys)
        else match GetItem(obj, AgentKey)
        case Failure(e) => Fail(e)
        case Success(agent) =>
          match Contains(agent, ScoreKey)
          case Failure(e) => Fail(e)
          case Success(hasScore) =>
            if !hasScore then Fail(InvalidScore)
            else match GetItem(agent, ScoreKey)
            case Failure(e) => Fail(e)
            case Success(score) => if IsNumber(score) then Pass else Fail(InvalidScore)
  }

  /** The output is a dict with both keys, and its agent result a dict with a numeric score. */
  ghost predicate WellFormedOutput(obj: Value) {
    && obj.Dict? && HasKey(obj.entries, CombinedKey) && HasKey(obj.entries, AgentKey)
    && var agent := Get(obj.entries, AgentKey).value;
       agent.Dict? && HasKey(agent.entries, ScoreKey) && IsNumber(Get(agent.entries, ScoreKey).value)
  }

  /** Validation accepts exactly the well-formed outputs (a bool score counts as a number). */
  lemma ValidateCombinedOutputIff(obj: Value)
    ensures ValidateCombinedOutput(obj).Pass? <==> WellFormedOutput(obj)
  {
    if ValidateCombinedOutput(obj).Pass? {
      var agent := GetItem(obj, AgentKey).value;
      assert obj.Dict?;
      assert agent.Dict?;
    }
  }

  /** A dict missing either top-level key is rejected with "missing keys". */
  lemma MissingKeyRejected(entries: Entries)
    requires !HasKey(entries, CombinedKey) || !HasKey(entries, AgentKey)
    ensures ValidateCombinedOutput(Dict(entries)) == Fail(MissingKeys)
  {
  }

  /**
   * With both keys present and a dict agent result, a missing or
   * non-numeric score is rejected with "Invalid agent score".
   */
  lemma BadScoreRejected(entries: Entries, agent: Entries)
    requires HasKey(entries, CombinedKey) && Get(entries, AgentKey) == Some(Dict(agent))
    requires !HasKey(agent, ScoreKey) || !IsNumber(Get(agent, ScoreKey).value)
    ensures ValidateCombinedOutput(Dict(entries)) == Fail(InvalidScore)
  {
  }
}
