// From a number a guest printed to the level a run reports: what DATA means.
module Evidence {
  import opened Core
  import opened Plans
  import opened Proofs
  import opened Values
  import opened Checks
  import opened PlanYaml
  import Engine

  /** The answers of the registry carry the plan's names, in its order. */
  lemma RegistryAnswersFor(checks: seq<CheckSpec>, results: seq<CheckResult>)
    requires AnswersAll(Configs(checks), results)
    ensures Engine.AnswersFor(checks, results)
  {
    forall i | 0 <= i < |checks| ensures results[i].name == checks[i].DisplayName() {
      assert Truthful(Configs(checks)[i], results[i]);
      NameOfPlannedCheck(checks[i]);
    }
  }

  /** A command check that passed on a finite number within every bound its
      plan declares, of which there is at least one. */
  predicate Measured(c: CheckSpec, r: CheckResult) {
    && c.typ == "command" && c.capture != "" && r.OK()
    && c.assertion.Some? && c.assertion.value.Any()
    && c.capture in r.captured && r.captured[c.capture].Finite?
    && Meets(r.captured[c.capture].v, c.assertion.value)
  }

  /** A check that earned DATA by itself and passed measured the data. */
  lemma PassedAtData(c: CheckSpec, r: CheckResult)
    requires c.proves == "" && c.ProvenLevel() == ProofData && (c.capture != "" ==> c.typ == "command")
    requires Truthful(c.ToCore(), r) && r.OK()
    ensures Measured(c, r)
  {
    NoDeclarationDeduces();
    assert c.ProvesTheData();
  }

  /** DATA comes from a check that passed and would prove it. */
  lemma DataHasACheck(checks: seq<CheckSpec>, results: seq<CheckResult>) returns (i: int)
    ensures LevelProven(Pairs(Configs(checks), results)) == ProofData ==>
              0 <= i < |checks| && i < |results| && results[i].OK() && checks[i].ProvenLevel() == ProofData
  {
    var pairs := Pairs(Configs(checks), results);
    i := 0;
    LevelProvenMeans(pairs);
    if LevelProven(pairs) == ProofData {
      var c :| c in pairs && c.result.OK() && c.config.proves == ProofData;
      i :| 0 <= i < |pairs| && pairs[i] == c;
    }
  }

  /** Theorem: a plan that declares nothing about what its checks prove, run to
      DATA, measured the data. */
  lemma DataWasMeasured(p: Plan, scheduleOk: bool, results: seq<CheckResult>, base: ProofLevel)
    requires WellFormed(p, scheduleOk) && forall c :: c in p.checks ==> c.proves == ""
    requires AnswersAll(Configs(p.checks), results)
    requires base == ProofNone || base == ProofBoot
    requires Engine.LevelFor(Some(results), p, base) == ProofData
    ensures exists i :: 0 <= i < |p.checks| && Measured(p.checks[i], results[i])
  {
    WellFormedMeans(p, scheduleOk);
    var i := DataHasACheck(p.checks, results);
    assert p.checks[i] in p.checks && Truthful(Configs(p.checks)[i], results[i]);
    PassedAtData(p.checks[i], results[i]);
  }

  /** And a validated plan never claims more than it promised. */
  lemma ValidatedPlansKeepTheirPromise(p: Plan, scheduleOk: bool, ran: Option<seq<CheckResult>>, base: ProofLevel)
    requires WellFormed(p, scheduleOk) && (base == ProofNone || base == ProofBoot)
    ensures Engine.LevelFor(ran, p, base).Rank() <= Engine.PlanCeiling(p)
  {
    WellFormedMeans(p, scheduleOk);
    Engine.CeilingHolds(p, ran, base);
  }
}
