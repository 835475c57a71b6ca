/**
 * `PathwayValidator` (pdpbiogen/validator.py): static checks on a pathway
 * configuration loaded from YAML. Each check either passes or raises; the
 * first problem found is the one reported.
 */
module PathwayValidator {
  import opened Wrappers
  import opened Text
  import opened PyValue

  type Check = Outcome<Exception>

  // ------------------------------------------------------------ molecule ids

  predicate IsIdStart(c: char) {
    ('a' <= c <= 'z') || ('A' <= c <= 'Z') || c == '_'
  }

  predicate IsIdChar(c: char) {
    IsIdStart(c) || ('0' <= c <= '9')
  }

  /** Where the greedy `[a-zA-Z0-9_]*` starting at `i` stops. */
  function WordRunEnd(s: string, i: nat): (k: nat)
    requires i <= |s|
    ensures i <= k <= |s|
    ensures forall j :: i <= j < k ==> IsIdChar(s[j])
    ensures k == |s| || !IsIdChar(s[k])
    decreases |s| - i
  {
    if i < |s| && IsIdChar(s[i]) then WordRunEnd(s, i + 1) else i
  }

  /**
   * `re.match(r'^[a-zA-Z_][a-zA-Z0-9_]*$', s)`. The star is greedy and
   * backing off cannot help (the character given back is an identifier
   * character, which `$` never matches), and `$` matches at the very end or
   * just before a newline that ends the string.
   */
  predicate MatchesIdPattern(s: string) {
    && |s| > 0
    && IsIdStart(s[0])
    && var k := WordRunEnd(s, 1);
       k == |s| || (k == |s| - 1 && s[k] == '\n')
  }

  /** A letter or underscore followed by letters, digits or underscores. */
  ghost predicate IsIdentifier(s: string) {
    |s| > 0 && IsIdStart(s[0]) && forall i :: 1 <= i < |s| ==> IsIdChar(s[i])
  }

  /** The accepted ids are the identifiers, optionally followed by one newline. */
  lemma MatchesIdPatternIff(s: string)
    ensures MatchesIdPattern(s) <==>
      IsIdentifier(s) || (|s| >= 2 && s[|s| - 1] == '\n' && IsIdentifier(s[..|s| - 1]))
  {
    if |s| > 0 && IsIdStart(s[0]) {
      var k := WordRunEnd(s, 1);
      if IsIdentifier(s) {
        assert k == |s|;
      } else if |s| >= 2 && s[|s| - 1] == '\n' && IsIdentifier(s[..|s| - 1]) {
        var p := s[..|s| - 1];
        assert forall j :: 1 <= j < |p| ==> IsIdChar(p[j]);
        assert k == |s| - 1;
      }
    }
  }

  ghost predicate ValidMoleculeId(v: Value) {
    v.Str? && (IsIdentifier(v.s) || (|v.s| >= 2 && v.s[|v.s| - 1] == '\n' && IsIdentifier(v.s[..|v.s| - 1])))
  }

  /** `validate_molecule_id`. */
  function ValidateMoleculeId(id: Value): (r: Check)
    ensures r.Pass? <==> ValidMoleculeId(id)
    ensures r.Fail? ==> r.error.ValidationError?
  {
    MatchesIdPatternIffAll();
    if !id.Str? then
      Fail(ValidationError("Molecule ID must be string, got " + ClassRepr(id)))
    else if !MatchesIdPattern(id.s) then
      Fail(ValidationError("Invalid molecule ID: '" + id.s
                           + "'. Must start with letter/underscore and contain only alphanumeric characters."))
    else Pass
  }

  lemma MatchesIdPatternIffAll()
    ensures forall s :: MatchesIdPattern(s) <==>
      IsIdentifier(s) || (|s| >= 2 && s[|s| - 1] == '\n' && IsIdentifier(s[..|s| - 1]))
  {
    forall s {
      MatchesIdPatternIff(s);
    }
  }

  /** A non-string id is rejected with "Molecule ID must be string". */
  lemma NonStringIdRejected(id: Value)
    requires !id.Str?
    ensures ValidateMoleculeId(id).Fail?
    ensures "Molecule ID must be string" <= Message(ValidateMoleculeId(id).error)
  {
  }

  /** The pattern's `$` lets one trailing newline through: `"A\n"` is accepted, `"A\n\n"` is not. */
  lemma TrailingNewlineAccepted()
    ensures ValidateMoleculeId(Str("A\n")).Pass?
    ensures ValidateMoleculeId(Str("A\n\n")).Fail?
  {
    assert WordRunEnd("A\n", 1) == 1;
    assert WordRunEnd("A\n\n", 1) == 1;
  }

  // ------------------------------------------------------------------ colours

  ghost predicate ValidColor(v: Value) {
    v.Str? && v.s != []
  }

  /** `validate_color`: any non-empty string. */
  function ValidateColor(color: Value): (r: Check)
    ensures r.Pass? <==> ValidColor(color)
    ensures r.Fail? ==> r.error.ValidationError?
  {
    if !color.Str? then Fail(ValidationError("Color must be string, got " + ClassRepr(color)))
    else if color.s == [] then Fail(ValidationError("Color cannot be empty"))
    else Pass
  }

  // ---------------------------------------------------------------- molecules

  const ColorKey: Value := Str("color")

  ghost predicate ValidMolecule(e: (Value, Value)) {
    && ValidMoleculeId(e.0)
    && e.1.Dict?
    && (HasKey(e.1.entries, ColorKey) ==> ValidColor(Get(e.1.entries, ColorKey).value))
  }

  ghost predicate ValidMolecules(molecules: Value) {
    && Truthy(molecules)
    && molecules.Dict?
    && forall i :: 0 <= i < |molecules.entries| ==> ValidMolecule(molecules.entries[i])
  }

  /** The body of the loop over `molecules.items()`. */
  function CheckMolecule(e: (Value, Value)): (r: Check)
    ensures r.Pass? <==> ValidMolecule(e)
  {
    var (id, config) := e;
    match ValidateMoleculeId(id)
    case Fail(err) => Fail(err)
    case Pass =>
      if !config.Dict? then
        Fail(ValidationError("Molecule '" + Show(id) + "' configuration must be a dictionary"))
      else if HasKey(config.entries, ColorKey) then ValidateColor(Get(config.entries, ColorKey).value)
      else Pass
  }

  function CheckMolecules(es: Entries): Check {
    if es == [] then Pass
    else match CheckMolecule(es[0])
      case Fail(err) => Fail(err)
      case Pass => CheckMolecules(es[1..])
  }

  /** `validate_molecules`. */
  function ValidateMolecules(molecules: Value): Check {
    if !Truthy(molecules) then Fail(ValidationError("No molecules defined in configuration"))
    else if !molecules.Dict? then Fail(NoAttribute(molecules, "items"))
    else CheckMolecules(molecules.entries)
  }

  /** An empty or falsy molecules section is rejected with "No molecules defined". */
  lemma EmptyMoleculesRejected(molecules: Value)
    requires !Truthy(molecules)
    ensures ValidateMolecules(molecules) == Fail(ValidationError("No molecules defined in configuration"))
  {
  }

  lemma {:induction false} CheckMoleculesIff(es: Entries)
    ensures CheckMolecules(es).Pass? <==> forall i :: 0 <= i < |es| ==> ValidMolecule(es[i])
  {
    if es != [] {
      CheckMoleculesIff(es[1..]);
      assert forall i :: 1 <= i < |es| ==> es[i] == es[1..][i - 1];
    }
  }

  /** The molecules section passes exactly when it is a non-empty dict of valid entries. */
  lemma ValidateMoleculesIff(molecules: Value)
    ensures ValidateMolecules(molecules).Pass? <==> ValidMolecules(molecules)
  {
    if molecules.Dict? {
      CheckMoleculesIff(molecules.entries);
    }
  }

  // ------------------------------------------------------------- interactions

  const FromKey: Value := Str("from")
  const ToKey: Value := Str("to")

  ghost predicate ValidInteraction(x: Value, molecules: Value) {
    && x.Dict?
    && HasKey(x.entries, FromKey) && HasKey(x.entries, ToKey)
    && Contains(molecules, Get(x.entries, FromKey).value) == Success(true)
    && Contains(molecules, Get(x.entries, ToKey).value) == Success(true)
    && (HasKey(x.entries, ColorKey) ==> ValidColor(Get(x.entries, ColorKey).value))
  }

  ghost predicate ValidInteractions(interactions: Value, molecules: Value) {
    || !Truthy(interactions)
    || (&& Iterate(interactions).Some?
        && forall i :: 0 <= i < |Iterate(interactions).value| ==>
             ValidInteraction(Iterate(interactions).value[i], molecules))
  }

  function UndefinedMolecule(i: nat, role: string, v: Value): Exception {
    ValidationError("Interaction " + IntToString(i) + ": " + role + " molecule '" + Show(v) + "' not defined")
  }

  /** The body of the loop over `enumerate(interactions)`, at index `i`. */
  function CheckInteraction(x: Value, i: nat, molecules: Value): (r: Check)
    ensures r.Pass? <==> ValidInteraction(x, molecules)
  {
    if !x.Dict? then
      Fail(ValidationError("Interaction at index " + IntToString(i) + " must be a dictionary"))
    else if !HasKey(x.entries, FromKey) || !HasKey(x.entries, ToKey) then
      Fail(ValidationError("Interaction at index " + IntToString(i) + " must have 'from' and 'to' keys"))
    else
      var source := Get(x.entries, FromKey).value;
      var target := Get(x.entries, ToKey).value;
      match Contains(molecules, source)
      case Failure(err) => Fail(err)
      case Success(false) => Fail(UndefinedMolecule(i, "source", source))
      case Success(true) =>
        match Contains(molecules, target)
        case Failure(err) => Fail(err)
        case Success(false) => Fail(UndefinedMolecule(i, "target", target))
        case Success(true) =>
          if HasKey(x.entries, ColorKey) then ValidateColor(Get(x.entries, ColorKey).value)
          else Pass
  }

  function CheckInteractions(items: seq<Value>, molecules: Value, i: nat): Check
    requires i <= |items|
    decreases |items| - i
  {
    if i == |items| then Pass
    else match CheckInteraction(items[i], i, molecules)
      case Fail(err) => Fail(err)
      case Pass => CheckInteractions(items, molecules, i + 1)
  }

  /** `validate_interactions`: an empty or missing list only logs a warning. */
  function ValidateInteractions(interactions: Value, molecules: Value): Check {
    if !Truthy(interactions) then Pass
    else match Iterate(interactions)
      case None => Fail(NotIterable(interactions))
      case Some(items) => CheckInteractions(items, molecules, 0)
  }

  lemma {:induction false} CheckInteractionsIff(items: seq<Value>, molecules: Value, i: nat)
    requires i <= |items|
    ensures CheckInteractions(items, molecules, i).Pass? <==>
            forall j :: i <= j < |items| ==> ValidInteraction(items[j], molecules)
    decreases |items| - i
  {
    if i < |items| {
      var ok := CheckInteraction(items[i], i, molecules).Pass?;
      var restOk := CheckInteractions(items, molecules, i + 1).Pass?;
      assert restOk <==> forall j :: i + 1 <= j < |items| ==> ValidInteraction(items[j], molecules) by {
        CheckInteractionsIff(items, molecules, i + 1);
      }
      assert CheckInteractions(items, molecules, i).Pass? <==> ok && restOk;
      assert ok <==> ValidInteraction(items[i], molecules);
    }
  }

  /** The interactions pass exactly when they are falsy or every one of them is valid. */
  lemma ValidateInteractionsIff(interactions: Value, molecules: Value)
    ensures ValidateInteractions(interactions, molecules).Pass? <==> ValidInteractions(interactions, molecules)
  {
    if Truthy(interactions) && Iterate(interactions).Some? {
      CheckInteractionsIff(Iterate(interactions).value, molecules, 0);
    }
  }

  /** The first failing interaction is the one reported. */
  lemma {:induction false} FirstFailingInteraction(items: seq<Value>, molecules: Value, i: nat, k: nat)
    requires i <= k < |items|
    requires forall j :: i <= j < k ==> ValidInteraction(items[j], molecules)
    requires CheckInteraction(items[k], k, molecules).Fail?
    ensures CheckInteractions(items, molecules, i) == CheckInteraction(items[k], k, molecules)
    decreases k - i
  {
    if i < k {
      FirstFailingInteraction(items, molecules, i + 1, k);
    }
  }

  /**
   * When neither end of an interaction is defined, the undefined source is
   * what gets reported.
   */
  lemma SourceReportedBeforeTarget(items: seq<Value>, molecules: Value, k: nat)
    requires molecules.Dict? && k < |items|
    requires forall j :: 0 <= j < k ==> ValidInteraction(items[j], molecules)
    requires items[k].Dict? && HasKey(items[k].entries, FromKey) && HasKey(items[k].entries, ToKey)
    requires Hashable(Get(items[k].entries, FromKey).value)
    requires !HasKey(molecules.entries, Get(items[k].entries, FromKey).value)
    ensures CheckInteractions(items, molecules, 0) ==
            Fail(UndefinedMolecule(k, "source", Get(items[k].entries, FromKey).value))
  {
    FirstFailingInteraction(items, molecules, 0, k);
  }

  // ------------------------------------------------------------ configuration

  const MoleculesKey: Value := Str("molecules")
  const InteractionsKey: Value := Str("interactions")

  ghost predicate ValidConfiguration(data: Value) {
    && data.Dict?
    && HasKey(data.entries, MoleculesKey)
    && ValidMolecules(Get(data.entries, MoleculesKey).value)
    && (HasKey(data.entries, InteractionsKey) ==>
          ValidInteractions(Get(data.entries, InteractionsKey).value, Get(data.entries, MoleculesKey).value))
  }

  /** `validate_configuration`. */
  function ValidateConfiguration(data: Value): Check {
    if !data.Dict? then Fail(ValidationError("Configuration must be a dictionary"))
    else if !HasKey(data.entries, MoleculesKey) then
      Fail(ValidationError("Configuration must contain 'molecules' section"))
    else
      var molecules := Get(data.entries, MoleculesKey).value;
      match ValidateMolecules(molecules)
      case Fail(err) => Fail(err)
      case Pass =>
        if HasKey(data.entries, InteractionsKey) then
          ValidateInteractions(Get(data.entries, InteractionsKey).value, molecules)
        else Pass
  }

  /**
   * A configuration passes exactly when it is a dict with a valid molecules
   * section and, when it has an interactions key, interactions valid against
   * those same molecules.
   */
  lemma ValidateConfigurationIff(data: Value)
    ensures ValidateConfiguration(data).Pass? <==> ValidConfiguration(data)
  {
    if data.Dict? && HasKey(data.entries, MoleculesKey) {
      var molecules := Get(data.entries, MoleculesKey).value;
      ValidateMoleculesIff(molecules);
      if HasKey(data.entries, InteractionsKey) {
        ValidateInteractionsIff(Get(data.entries, InteractionsKey).value, molecules);
      }
    }
  }

  /** A dict without a molecules key is rejected with the "molecules section" message. */
  lemma MissingMoleculesRejected(data: Value)
    requires data.Dict? && !HasKey(data.entries, MoleculesKey)
    ensures ValidateConfiguration(data) == Fail(ValidationError("Configuration must contain 'molecules' section"))
  {
  }
}
