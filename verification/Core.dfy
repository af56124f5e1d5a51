// The vocabulary every other module shares: run states, verdicts, proof
// levels, check outcomes and captured numbers (internal/core).
module Core {

  datatype Option<+T> = None | Some(value: T)

  const SECOND := 1_000_000_000

  function MaxOf(a: int, b: int): int { if a > b then a else b }

  /** A float64 without its rounding: a real, or one of the values that are not
      numbers. Every comparison with NaN is false. */
  datatype Num = Finite(v: real) | NaN | PosInf | NegInf {
    predicate Less(other: Num) {
      match (this, other)
      case (Finite(a), Finite(b)) => a < b
      case (Finite(_), PosInf) => true
      case (NegInf, Finite(_)) => true
      case (NegInf, PosInf) => true
      case _ => false
    }

    predicate Same(other: Num) { this == other && !NaN? }

    predicate AtMost(other: Num) { Less(other) || Same(other) }
  }

  datatype RunState =
    | Unset
    | Queued
    | DiscoveringBackup
    | Preparing
    | Restoring
    | Starting
    | WaitingForGuest
    | RunningChecks
    | GeneratingReport
    | CleaningUp
    | RunSuccess
    | RunFailed
    | RunCancelled
    | RunCleanupFailed
    | RunInconclusive
  {
    /** No further transition is expected. */
    predicate Terminal() {
      RunSuccess? || RunFailed? || RunCancelled? || RunCleanupFailed? || RunInconclusive?
    }
  }

  /** NoResult is the empty string of a run that reached no verdict. */
  datatype RunResult = NoResult | ResultSuccess | ResultDegraded | ResultFailed

  datatype ProofLevel = ProofUnknown | ProofNone | ProofBoot | ProofService | ProofData {
    function Rank(): int {
      match this
      case ProofUnknown => -1
      case ProofNone => 0
      case ProofBoot => 1
      case ProofService => 2
      case ProofData => 3
    }

    predicate Recorded() { Rank() >= 0 }

    /** Whichever of the two levels establishes more. */
    function Raise(other: ProofLevel): (r: ProofLevel)
      ensures r.Rank() >= Rank() && r.Rank() >= other.Rank()
      ensures r == this || r == other
    {
      if other.Rank() > Rank() then other else this
    }
  }

  datatype StepStatus = StepRunning | StepDone | StepFailed | StepSkipped

  datatype CheckStatus = CheckPass | CheckFail | CheckError | CheckSkipped

  /** What a check reports back. `captured`, `baseline` and `driftSkipped` are
      the three entries of Details the rest of the product reads. */
  datatype CheckResult = CheckResult(
    name: string,
    typ: string,
    status: CheckStatus,
    attempts: nat,
    captured: map<string, Num>,
    baseline: map<string, Num>,
    driftSkipped: bool)
  {
    predicate OK() { status == CheckPass }
  }

  /** A declared bound; every part is optional because zero is a bound. */
  datatype AssertSpec = AssertSpec(min: Option<Num>, max: Option<Num>, equals: Option<Num>) {
    predicate Any() { min.Some? || max.Some? || equals.Some? }
  }

  datatype DriftSpec = DriftSpec(maxDrop: Num, isPercent: bool)

  function FirstNonEmpty(a: string, b: string): string {
    if a != "" then a else b
  }

  // ------------------------------------------------ sequences

  lemma TakeNext<T>(s: seq<T>, i: nat)
    requires i < |s|
    ensures s[..i + 1] == s[..i] + [s[i]]
  {
  }

  lemma TakeEnds<T>(s: seq<T>)
    ensures s[..0] == [] && s[..|s|] == s
  {
  }

  lemma TakeJoined<T>(a: seq<T>, b: seq<T>, k: nat)
    requires k <= |a + b|
    ensures (a + b)[..k] == if k <= |a| then a[..k] else a + b[..k - |a|]
  {
  }

  lemma PrefixGrows<T>(a: seq<T>, b: seq<T>, whole: seq<T>)
    requires a <= whole && b <= whole[|a|..]
    ensures a + b <= whole
  {
    assert whole == a + whole[|a|..];
  }

  lemma MiddleTaken<T>(s: seq<T>)
    requires |s| > 1
    ensures s[..|s| - 1][0] == s[0] && s[..|s| - 1][1..] == s[1..][..|s| - 2] && s[1..][|s| - 2] == s[|s| - 1]
  {
  }

  lemma Regrouped<T>(a: seq<T>, b: seq<T>, c: seq<T>)
    ensures a + b + c == a + (b + c)
  {
  }
}
