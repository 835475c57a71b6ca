/**
 * The biological critic (srcpdpbiogenllm_verified_criticbiological_critic.py):
 * a proposal is run past four plausibility checks, each failing check adds
 * its violations and its corrector's corrections, and the corrections are
 * overlaid on a copy of the proposal. The checker and the constraint solver
 * are not part of this model; they are given as functions.
 */
module Critic {
  import opened Wrappers
  import opened PyValue

  /** `BiologicalPlausibilityChecker`. */
  datatype Checker = Checker(
    energyOk: Entries -> bool,
    massBalanceOk: Entries -> bool,
    thermodynamicsOk: Entries -> bool,
    biologicalViolations: Entries -> seq<string>,
    dosageOk: (Value, Value) -> bool,
    timingOk: Entries -> bool)

  /** `BiologicalConstraintSolver`: each corrector answers a dict of corrections. */
  datatype Solver = Solver(
    correctEnergy: Entries -> Entries,
    correctMassBalance: Entries -> Entries,
    correctThermodynamics: Entries -> Entries,
    correctBiological: (Entries, seq<string>) -> Entries)

  /** Every corrector answers a genuine dict (distinct keys). */
  ghost predicate SolverAnswersDicts(s: Solver) {
    && (forall p :: DistinctKeys(s.correctEnergy(p)))
    && (forall p :: DistinctKeys(s.correctMassBalance(p)))
    && (forall p :: DistinctKeys(s.correctThermodynamics(p)))
    && (forall p, v :: DistinctKeys(s.correctBiological(p, v)))
  }

  const EnergyViolation := "Energy conservation violation"
  const MassBalanceViolation := "Mass balance violation"
  const ThermodynamicViolation := "Thermodynamic feasibility violation"
  const TimingViolation := "Biologically implausible timing"

  /** The dict `verify_biological_plausibility` returns. */
  datatype PlausibilityReport = PlausibilityReport(
    isPlausible: bool, violations: seq<string>, corrections: Entries, correctedProposal: Entries)

  /** The dict `verify_healing_instructions` returns. */
  datatype HealingReport = HealingReport(
    validInstructions: bool, violations: seq<string>, verifiedInstructions: Entries)

  /** The violations of a proposal: energy, mass balance, thermodynamics, then the checker's own list. */
  function Violations(c: Checker, p: Entries): seq<string> {
    Found(c.energyOk(p), [EnergyViolation])
    + Found(c.massBalanceOk(p), [MassBalanceViolation])
    + Found(c.thermodynamicsOk(p), [ThermodynamicViolation])
    + c.biologicalViolations(p)
  }

  /** What a check contributes: nothing when it passes. */
  function Found<T>(ok: bool, found: seq<T>): seq<T> {
    if ok then [] else found
  }

  /** The corrections of the failing checks, in the order the checks run. */
  function Patches(c: Checker, s: Solver, p: Entries): seq<Entries> {
    var bio := c.biologicalViolations(p);
    (if c.energyOk(p) then [] else [s.correctEnergy(p)])
    + (if c.massBalanceOk(p) then [] else [s.correctMassBalance(p)])
    + (if c.thermodynamicsOk(p) then [] else [s.correctThermodynamics(p)])
    + (if bio == [] then [] else [s.correctBiological(p, bio)])
  }

  /** Starting from `{}`, each dict of corrections is merged in with `update`. */
  function Merged(patches: seq<Entries>): Entries {
    if patches == [] then []
    else Update(Merged(patches[..|patches| - 1]), patches[|patches| - 1])
  }

  /** The value the last dict holding `k` gives it. */
  function LastValue(patches: seq<Entries>, k: Value): Option<Value> {
    if patches == [] then None
    else
      var last := patches[|patches| - 1];
      if HasKey(last, k) then Get(last, k) else LastValue(patches[..|patches| - 1], k)
  }

  /** Merged dicts: a key reads the value of the last dict that holds it, and the keys stay distinct. */
  lemma {:induction false} MergedGet(patches: seq<Entries>, k: Value)
    requires forall i :: 0 <= i < |patches| ==> DistinctKeys(patches[i])
    ensures Get(Merged(patches), k) == LastValue(patches, k)
    ensures DistinctKeys(Merged(patches))
  {
    if patches != [] {
      var init := patches[..|patches| - 1];
      MergedGet(init, k);
      UpdateGet(Merged(init), patches[|patches| - 1], k);
      UpdateDistinct(Merged(init), patches[|patches| - 1]);
    }
  }

  /** The failing checks' corrections are all genuine dicts. */
  lemma PatchesAreDicts(c: Checker, s: Solver, p: Entries)
    requires SolverAnswersDicts(s)
    ensures forall i :: 0 <= i < |Patches(c, s, p)| ==> DistinctKeys(Patches(c, s, p)[i])
  {
    var bio := c.biologicalViolations(p);
    assert DistinctKeys(s.correctEnergy(p)) && DistinctKeys(s.correctMassBalance(p));
    assert DistinctKeys(s.correctThermodynamics(p)) && DistinctKeys(s.correctBiological(p, bio));
  }

  /** `_apply_corrections`: a copy of the original, updated with the corrections. */
  function ApplyCorrections(original: Entries, corrections: Entries): (r: Entries)
    requires DistinctKeys(corrections)
    ensures forall k :: Get(r, k) == if HasKey(corrections, k) then Get(corrections, k) else Get(original, k)
  {
    forall k ensures Get(Update(original, corrections), k) ==
                     if HasKey(corrections, k) then Get(corrections, k) else Get(original, k) {
      UpdateGet(original, corrections, k);
    }
    Update(original, corrections)
  }

  class BiologicalCritic {
    const strictMode: bool
    const checker: Checker
    const solver: Solver

    /** `__init__`; the checker and the solver come from outside. */
    constructor(strictMode: bool, checker: Checker, solver: Solver)
      ensures this.strictMode == strictMode && this.checker == checker && this.solver == solver
    {
      this.strictMode := strictMode;
      this.checker := checker;
      this.solver := solver;
    }

    /**
     * `verify_biological_plausibility`: the proposal is plausible exactly
     * when nothing was violated; the corrections are the failing checks'
     * corrections merged in check order, and the corrected proposal is the
     * proposal overlaid with them.
     */
    method VerifyBiologicalPlausibility(proposal: Entries) returns (r: PlausibilityReport)
      requires SolverAnswersDicts(solver)
      ensures r.violations == Violations(checker, proposal)
      ensures r.isPlausible <==> r.violations == []
      ensures r.corrections == Merged(Patches(checker, solver, proposal))
      ensures DistinctKeys(r.corrections)
      ensures r.correctedProposal == ApplyCorrections(proposal, r.corrections)
    {
      var violations: seq<string> := [];
      var corrections: Entries := [];
      ghost var patches: seq<Entries> := [];
      violations, corrections, patches := Record(checker.energyOk(proposal),
        violations, corrections, patches, [EnergyViolation], solver.correctEnergy(proposal));
      assert violations == Found(checker.energyOk(proposal), [EnergyViolation]);
      assert patches == if checker.energyOk(proposal) then [] else [solver.correctEnergy(proposal)];
      violations, corrections, patches := Record(checker.massBalanceOk(proposal),
        violations, corrections, patches, [MassBalanceViolation], solver.correctMassBalance(proposal));
      violations, corrections, patches := Record(checker.thermodynamicsOk(proposal),
        violations, corrections, patches, [ThermodynamicViolation], solver.correctThermodynamics(proposal));
      var biologicalViolations := checker.biologicalViolations(proposal);
      violations, corrections, patches := Record(biologicalViolations == [],
        violations, corrections, patches, biologicalViolations, solver.correctBiological(proposal, biologicalViolations));
      assert Found(biologicalViolations == [], biologicalViolations) == biologicalViolations;
      assert violations == Violations(checker, proposal);
      assert patches == Patches(checker, solver, proposal);
      assert DistinctKeys(corrections) by {
        PatchesAreDicts(checker, solver, proposal);
        MergedGet(patches, NoneValue);
      }
      r := PlausibilityReport(|violations| == 0, violations, corrections, ApplyCorrections(proposal, corrections));
    }

    /**
     * One check: when it fails, its violations are appended and its
     * corrector's corrections merged in; when it passes, nothing changes.
     */
    static method Record(ok: bool, violations: seq<string>, corrections: Entries, ghost patches: seq<Entries>,
                         found: seq<string>, patch: Entries)
      returns (violations': seq<string>, corrections': Entries, ghost patches': seq<Entries>)
      requires corrections == Merged(patches)
      ensures violations' == violations + Found(ok, found)
      ensures patches' == patches + (if ok then [] else [patch])
      ensures corrections' == Merged(patches')
    {
      violations', corrections', patches' := violations, corrections, patches;
      if !ok {
        violations' := violations + found;
        corrections' := Update(corrections, patch);
        patches' := patches + [patch];
        assert patches'[..|patches'| - 1] == patches;
      }
    }

    /** One "Excessive <gf> dosage: <dosage>" per growth factor whose dosage fails, in dict order. */
    function DosageViolations(factors: Entries): seq<string> {
      if factors == [] then []
      else
        var (gf, dosage) := factors[|factors| - 1];
        DosageViolations(factors[..|factors| - 1])
          + (if checker.dosageOk(gf, dosage) then [] else [DosageViolation(gf, dosage)])
    }

    /** The dosage violations of two runs of entries, one after the other, keep that order. */
    lemma {:induction false} DosageViolationsAppend(a: Entries, b: Entries)
      ensures DosageViolations(a + b) == DosageViolations(a) + DosageViolations(b)
      decreases |b|
    {
      if b == [] {
        assert a + b == a;
      } else {
        var b' := b[..|b| - 1];
        assert (a + b)[..|a + b| - 1] == a + b';
        var (gf, dosage) := b[|b| - 1];
        assert (a + b)[|a + b| - 1] == (gf, dosage);
        var extra := if checker.dosageOk(gf, dosage) then [] else [DosageViolation(gf, dosage)];
        assert DosageViolations(a + b) == DosageViolations(a + b') + extra;
        assert DosageViolations(b) == DosageViolations(b') + extra by {
          assert b[..|b| - 1] == b';
        }
        DosageViolationsAppend(a, b');
      }
    }

    /** No dosage violation exactly when every growth factor's dosage passes. */
    lemma {:induction false} DosageViolationsEmptyIff(factors: Entries)
      ensures DosageViolations(factors) == [] <==>
              forall i :: 0 <= i < |factors| ==> checker.dosageOk(factors[i].0, factors[i].1)
    {
      if factors != [] {
        var init := factors[..|factors| - 1];
        DosageViolationsEmptyIff(init);
        assert forall i :: 0 <= i < |init| ==> init[i] == factors[i];
      }
    }

    /** The growth-factor part of `verify_healing_instructions`, as a loop over the dict's items. */
    method CheckDosages(factors: Entries) returns (violations: seq<string>)
      ensures violations == DosageViolations(factors)
    {
      violations := [];
      for i := 0 to |factors|
        invariant violations == DosageViolations(factors[..i])
      {
        assert factors[..i + 1][..i] == factors[..i];
        var (gf, dosage) := factors[i];
        if !checker.dosageOk(gf, dosage) {
          violations := violations + [DosageViolation(gf, dosage)];
        }
      }
      assert factors[..|factors|] == factors;
    }

    /**
     * `verify_healing_instructions`: dosage violations (only when
     * `growth_factors` is present) then the timing violation; the
     * instructions are valid exactly when nothing was violated, and they are
     * handed back unchanged. A `growth_factors` entry that is not a dict
     * raises, as `.items()` does.
     */
    method VerifyHealingInstructions(instructions: Entries) returns (r: Result<HealingReport, Exception>)
      ensures r.Failure? <==> HasKey(instructions, GrowthFactorsKey) && !Get(instructions, GrowthFactorsKey).value.Dict?
      ensures r.Failure? ==> r.error == NoAttribute(Get(instructions, GrowthFactorsKey).value, "items")
      ensures r.Success? ==>
                && r.value.violations ==
                   (if HasKey(instructions, GrowthFactorsKey)
                    then DosageViolations(Get(instructions, GrowthFactorsKey).value.entries) else [])
                   + (if checker.timingOk(instructions) then [] else [TimingViolation])
                && (r.value.validInstructions <==> r.value.violations == [])
                && r.value.verifiedInstructions == instructions
    {
      var healingViolations: seq<string> := [];
      if HasKey(instructions, GrowthFactorsKey) {
        var factors := Get(instructions, GrowthFactorsKey).value;
        if !factors.Dict? {
          return Failure(NoAttribute(factors, "items"));
        }
        healingViolations := CheckDosages(factors.entries);
      }
      if !checker.timingOk(instructions) {
        healingViolations := healingViolations + [TimingViolation];
      }
      r := Success(HealingReport(|healingViolations| == 0, healingViolations, instructions));
    }
  }

  const GrowthFactorsKey: Value := Str("growth_factors")

  /** `f"Excessive {gf} dosage: {dosage}"`. */
  function DosageViolation(gf: Value, dosage: Value): string {
    "Excessive " + Show(gf) + " dosage: " + Show(dosage)
  }

  /** Every dosage violation message starts "Excessive", so none of them is the timing violation. */
  lemma DosageViolationNotTiming(gf: Value, dosage: Value)
    ensures DosageViolation(gf, dosage)[..9] == "Excessive"
    ensures DosageViolation(gf, dosage) != TimingViolation
  {
    assert DosageViolation(gf, dosage)[0] == 'E' != TimingViolation[0];
  }
}
