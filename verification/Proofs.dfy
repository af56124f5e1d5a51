// What a set of executed checks establishes (internal/core/proof.go).
module Proofs {
  import opened Core
  import opened Plans

  /** A check's configuration beside the result it produced. */
  datatype ProofCheck = ProofCheck(config: CheckConfig, result: CheckResult)

  function Contribution(c: ProofCheck): ProofLevel {
    if c.result.status == CheckPass then c.config.proves else ProofNone
  }

  function LevelProven(checks: seq<ProofCheck>): ProofLevel {
    if checks == [] then ProofNone
    else
      var last := checks[|checks| - 1];
      LevelProven(checks[..|checks| - 1]).Raise(Contribution(last))
  }

  /** It is the highest contribution, and some passing check's own level. */
  lemma {:induction false} LevelProvenMeans(checks: seq<ProofCheck>)
    ensures LevelProven(checks).Recorded()
    ensures forall c :: c in checks && c.result.status == CheckPass ==>
              c.config.proves.Rank() <= LevelProven(checks).Rank()
    ensures LevelProven(checks) == ProofNone
            || exists c :: c in checks && c.result.status == CheckPass && c.config.proves == LevelProven(checks)
  {
    if checks != [] {
      var init, last := checks[..|checks| - 1], checks[|checks| - 1];
      LevelProvenMeans(init);
      assert forall c :: c in checks <==> c in init || c == last;
    }
  }

  method ProvenBy(checks: seq<ProofCheck>) returns (level: ProofLevel)
    ensures level == LevelProven(checks)
  {
    level := ProofNone;
    for i := 0 to |checks|
      invariant level == LevelProven(checks[..i])
    {
      assert checks[..i + 1][..i] == checks[..i];
      LevelProvenMeans(checks[..i]);
      if checks[i].result.status == CheckPass {
        level := level.Raise(checks[i].config.proves);
      }
    }
    assert checks[..|checks|] == checks;
  }

  /** Results paired with their configurations, as far as both reach. */
  function Pairs(cfgs: seq<CheckConfig>, results: seq<CheckResult>): seq<ProofCheck> {
    var n := if |cfgs| < |results| then |cfgs| else |results|;
    seq(n, i requires 0 <= i < n => ProofCheck(cfgs[i], results[i]))
  }

  function Configs(checks: seq<CheckSpec>): seq<CheckConfig> {
    seq(|checks|, i requires 0 <= i < |checks| => checks[i].ToCore())
  }

  /** Whatever the checks answer, they establish no more than the plan's
      highest check would. */
  lemma ProvenNeverExceedsHighest(checks: seq<CheckSpec>, results: seq<CheckResult>)
    ensures LevelProven(Pairs(Configs(checks), results)).Rank() <= HighestLevel(checks).Rank()
  {
    var pairs := Pairs(Configs(checks), results);
    var level := LevelProven(pairs);
    LevelProvenMeans(pairs);
    if level != ProofNone {
      var c :| c in pairs && c.result.OK() && c.config.proves == level;
      var i :| 0 <= i < |pairs| && pairs[i] == c;
      assert checks[i] in checks && c.config == checks[i].ToCore();
    }
  }
}
