// How far a workload's recovery can be trusted, and why
// (internal/report/confidence.go).
module Confidence {
  import opened Core

  const DAY := 86_400_000_000_000

  datatype Run = Run(
    result: RunResult, state: RunState, level: ProofLevel, completedAt: int, rto: int, rtoTarget: int)
  {
    predicate RTOExceeded() { rtoTarget > 0 && rto > rtoTarget }
    predicate HasVerdict() { result != NoResult }
  }

  datatype Input = Input(lastRun: Option<Run>, history: seq<Option<Run>>, latestBackupAt: Option<int>, now: int)

  datatype Weights = Weights(
    ageGraceDays: real, agePerDayPenalty: real, ageMaxPenalty: int,
    noSuccessPenalty: int, lastRunFailedPenalty: int, lastRunDegradedPenalty: int,
    rtoExceededPenalty: int, cleanupFailedPenalty: int, noBackupPenalty: int,
    backupStaleAfter: int, backupStalePenalty: int, failureRateMaxPenalty: int,
    proofNoneCap: int, proofBootCap: int, proofServiceCap: int)

  const DEFAULT_WEIGHTS := Weights(7.0, 2.0, 40, 35, 30, 15, 10, 15, 50, 2 * DAY, 20, 30, 40, 60, 85)

  datatype Cause =
    | NeverTested | Age | NoSuccess | LastFailed | LastDegraded | RTOMissed | CleanupFailed | NoBackup
    | StaleBackup | FailureRate | Capped

  /** points is what the reason took off, or the ceiling it imposed. */
  datatype Reason = Reason(cause: Cause, points: int)

  datatype Confidence = Confidence(score: int, reasons: seq<Reason>, tested: bool, proof: ProofLevel)

  /** Zero stands for no ceiling. */
  function ProofCap(w: Weights, level: ProofLevel): int {
    match level
    case ProofNone => w.proofNoneCap
    case ProofBoot => w.proofBootCap
    case ProofService => w.proofServiceCap
    case _ => 0
  }

  /** math.Round: half away from zero. */
  function Round(x: real): int {
    if x >= 0.0 then (x + 0.5).Floor else -((-x + 0.5).Floor)
  }

  function Runs(input: Input): seq<Option<Run>> { [input.lastRun] + input.history }

  /** The newest run that succeeded, the last run first. */
  function NewestSuccess(runs: seq<Option<Run>>): Option<Run> {
    if runs == [] then None
    else if runs[0].Some? && runs[0].value.result == ResultSuccess then runs[0]
    else NewestSuccess(runs[1..])
  }

  /** The level of the newest run that reached a verdict and recorded one. */
  function NewestProof(runs: seq<Option<Run>>): ProofLevel {
    if runs == [] then ProofUnknown
    else if runs[0].Some? && runs[0].value.HasVerdict() && runs[0].value.level.Recorded() then runs[0].value.level
    else NewestProof(runs[1..])
  }

  predicate Counts(r: Option<Run>) { r.Some? && r.value.HasVerdict() }

  function Counted(history: seq<Option<Run>>): nat {
    if history == [] then 0
    else Counted(history[..|history| - 1]) + if Counts(history[|history| - 1]) then 1 else 0
  }

  function FailedRuns(history: seq<Option<Run>>): (n: nat)
    ensures n <= Counted(history)
  {
    if history == [] then 0
    else
      var last := history[|history| - 1];
      FailedRuns(history[..|history| - 1]) + if Counts(last) && last.value.result != ResultSuccess then 1 else 0
  }

  // ------------------------------------------------ the penalties

  /** Days past the grace, for an age in nanoseconds. */
  function DaysOver(w: Weights, age: int): real { age as real / DAY as real - w.ageGraceDays }

  function AgePoints(w: Weights, over: real): int { Round(over * w.agePerDayPenalty) }

  function AgePenalty(w: Weights, age: int): int {
    var over := DaysOver(w, age);
    if over <= 0.0 then 0
    else if AgePoints(w, over) > w.ageMaxPenalty then w.ageMaxPenalty
    else AgePoints(w, over)
  }

  function RatePoints(w: Weights, failed: nat, counted: nat): int
    requires counted > 0
  {
    Round(failed as real / counted as real * w.failureRateMaxPenalty as real)
  }

  function RatePenalty(w: Weights, history: seq<Option<Run>>): int {
    if Counted(history) == 0 then 0 else RatePoints(w, FailedRuns(history), Counted(history))
  }

  /** A penalty of zero or less is none, and is not mentioned. */
  function Listed(cause: Cause, points: int): seq<Reason> {
    if points > 0 then [Reason(cause, points)] else []
  }

  function AgeTaken(input: Input, w: Weights): int {
    var success := NewestSuccess(Runs(input));
    if success.Some? then AgePenalty(w, input.now - success.value.completedAt) else 0
  }

  function NoSuccessTaken(input: Input, w: Weights): int {
    if NewestSuccess(Runs(input)).None? then w.noSuccessPenalty else 0
  }

  function FailedTaken(last: Run, w: Weights): int {
    if last.result == ResultFailed then w.lastRunFailedPenalty else 0
  }

  function DegradedTaken(last: Run, w: Weights): int {
    if last.result == ResultDegraded then w.lastRunDegradedPenalty else 0
  }

  function RTOTaken(last: Run, w: Weights): int {
    if last.HasVerdict() && last.RTOExceeded() then w.rtoExceededPenalty else 0
  }

  function CleanupTaken(last: Run, w: Weights): int {
    if last.state == RunCleanupFailed then w.cleanupFailedPenalty else 0
  }

  function NoBackupTaken(input: Input, w: Weights): int {
    if input.latestBackupAt.None? then w.noBackupPenalty else 0
  }

  function StaleTaken(input: Input, w: Weights): int {
    if input.latestBackupAt.Some? && input.now - input.latestBackupAt.value > w.backupStaleAfter
    then w.backupStalePenalty else 0
  }

  function AboutAge(input: Input, w: Weights): seq<Reason> {
    Listed(Age, AgeTaken(input, w)) + Listed(NoSuccess, NoSuccessTaken(input, w))
  }

  function AboutOutcome(last: Run, w: Weights): seq<Reason> {
    Listed(LastFailed, FailedTaken(last, w)) + Listed(LastDegraded, DegradedTaken(last, w))
  }

  function AboutCourse(last: Run, w: Weights): seq<Reason> {
    Listed(RTOMissed, RTOTaken(last, w)) + Listed(CleanupFailed, CleanupTaken(last, w))
  }

  function AboutBackups(input: Input, w: Weights): seq<Reason> {
    Listed(NoBackup, NoBackupTaken(input, w)) + Listed(StaleBackup, StaleTaken(input, w))
  }

  function AboutHistory(history: seq<Option<Run>>, w: Weights): seq<Reason> {
    Listed(FailureRate, RatePenalty(w, history))
  }

  /** Every penalty, in the order they are told. */
  function Penalties(input: Input, w: Weights): seq<Reason>
    requires input.lastRun.Some?
  {
    AboutAge(input, w) + AboutOutcome(input.lastRun.value, w) + AboutCourse(input.lastRun.value, w)
    + AboutBackups(input, w) + AboutHistory(input.history, w)
  }

  function Sum(reasons: seq<Reason>): int {
    if reasons == [] then 0 else Sum(reasons[..|reasons| - 1]) + reasons[|reasons| - 1].points
  }

  function Proven(input: Input): ProofLevel { NewestProof(Runs(input)) }

  function Clamp(x: int): int { if x < 0 then 0 else if x > 100 then 100 else x }

  predicate IsCapped(w: Weights, level: ProofLevel, score: int) {
    0 < ProofCap(w, level) < score
  }

  /** Penalties first, the ceiling last, and never outside 0..100. */
  function Closed(penalties: seq<Reason>, proof: ProofLevel, w: Weights): Confidence {
    var score := 100 - Sum(penalties);
    if IsCapped(w, proof, score) then
      Confidence(Clamp(ProofCap(w, proof)), penalties + [Reason(Capped, ProofCap(w, proof))], true, proof)
    else Confidence(Clamp(score), penalties, true, proof)
  }

  function Graded(input: Input, w: Weights): Confidence {
    if input.lastRun.None? then Confidence(0, [Reason(NeverTested, 0)], false, ProofUnknown)
    else Closed(Penalties(input, w), Proven(input), w)
  }

  // ------------------------------------------------ the computation

  method Apply(score0: int, reasons0: seq<Reason>, penalty: int, cause: Cause)
    returns (score: int, reasons: seq<Reason>)
    ensures reasons == reasons0 + Listed(cause, penalty)
    ensures score0 - score == Sum(reasons) - Sum(reasons0)
  {
    if penalty <= 0 {
      return score0, reasons0;
    }
    score, reasons := score0 - penalty, reasons0 + [Reason(cause, penalty)];
    assert reasons[..|reasons0|] == reasons0;
  }

  method FailureRateOf(history: seq<Option<Run>>) returns (failed: nat, counted: nat)
    ensures failed == FailedRuns(history) && counted == Counted(history)
  {
    failed, counted := 0, 0;
    for i := 0 to |history|
      invariant failed == FailedRuns(history[..i]) && counted == Counted(history[..i])
    {
      assert history[..i + 1][..i] == history[..i];
      if history[i].None? || history[i].value.result == NoResult {
        continue;
      }
      counted := counted + 1;
      if history[i].value.result != ResultSuccess {
        failed := failed + 1;
      }
    }
    assert history[..|history|] == history;
  }

  method MostRecentSuccess(input: Input) returns (success: Option<Run>)
    ensures success == NewestSuccess(Runs(input))
  {
    assert Runs(input)[1..] == input.history;
    if input.lastRun.Some? && input.lastRun.value.result == ResultSuccess {
      return input.lastRun;
    }
    for i := 0 to |input.history|
      invariant NewestSuccess(Runs(input)) == NewestSuccess(input.history[i..])
    {
      var r := input.history[i];
      if r.Some? && r.value.result == ResultSuccess {
        return r;
      }
    }
    return None;
  }

  method ProvenLevel(input: Input) returns (level: ProofLevel)
    ensures level == Proven(input)
  {
    var runs := Runs(input);
    for i := 0 to |runs|
      invariant NewestProof(runs) == NewestProof(runs[i..])
    {
      var r := runs[i];
      if r.None? || r.value.result == NoResult {
        continue;
      }
      if r.value.level.Recorded() {
        return r.value.level;
      }
    }
    return ProofUnknown;
  }

  /** The score, and for each reason the one fact it is given for and the points
      it costs; nothing else is ever listed. */
  method Score(input: Input, w: Weights) returns (c: Confidence)
    ensures c == Graded(input, w)
    ensures c.tested <==> input.lastRun.Some?
    ensures !c.tested ==> c.score == 0 && c.proof == ProofUnknown && c.reasons == [Reason(NeverTested, 0)]
    ensures c.tested ==> forall r :: r in c.reasons ==> r.points > 0 && r.cause != NeverTested
    ensures InOrder(c.reasons)
    // the last run
    ensures c.tested ==> forall p :: Reason(LastFailed, p) in c.reasons <==>
              input.lastRun.value.result == ResultFailed && p == w.lastRunFailedPenalty > 0
    ensures c.tested ==> forall p :: Reason(LastDegraded, p) in c.reasons <==>
              input.lastRun.value.result == ResultDegraded && p == w.lastRunDegradedPenalty > 0
    ensures c.tested ==> forall p :: Reason(RTOMissed, p) in c.reasons <==>
              && input.lastRun.value.result != NoResult && p == w.rtoExceededPenalty > 0
              && 0 < input.lastRun.value.rtoTarget < input.lastRun.value.rto
    ensures c.tested ==> forall p :: Reason(CleanupFailed, p) in c.reasons <==>
              input.lastRun.value.state == RunCleanupFailed && p == w.cleanupFailedPenalty > 0
    // the backups
    ensures c.tested ==> forall p :: Reason(NoBackup, p) in c.reasons <==>
              input.latestBackupAt == None && p == w.noBackupPenalty > 0
    ensures c.tested ==> forall p :: Reason(StaleBackup, p) in c.reasons <==>
              && input.latestBackupAt.Some? && input.now - input.latestBackupAt.value > w.backupStaleAfter
              && p == w.backupStalePenalty > 0
    // the runs on record
    ensures c.tested ==> forall p :: Reason(NoSuccess, p) in c.reasons <==>
              && p == w.noSuccessPenalty > 0
              && forall r :: r in [input.lastRun] + input.history && r.Some? ==> r.value.result != ResultSuccess
    ensures c.tested ==> forall i, p :: NewestSuccessAt([input.lastRun] + input.history, i) ==>
              (Reason(Age, p) in c.reasons <==>
                 p > 0 && AgedBy(([input.lastRun] + input.history)[i].value.completedAt, input.now, w, p))
    ensures c.tested ==> forall p :: Reason(Age, p) in c.reasons ==>
              exists i :: NewestSuccessAt([input.lastRun] + input.history, i)
    ensures c.tested ==> forall p :: Reason(FailureRate, p) in c.reasons <==>
              p > 0 && RatedBy(FailedPlaces(input.history), VerdictPlaces(input.history), w, p)
    // what was proven
    ensures c.tested ==> forall p :: Reason(Capped, p) in c.reasons <==>
              && 0 < p < 100 - Sum(Deductions(c.reasons))
              && ((c.proof == ProofNone && p == w.proofNoneCap) || (c.proof == ProofBoot && p == w.proofBootCap)
                  || (c.proof == ProofService && p == w.proofServiceCap))
    ensures c.tested ==> forall i :: NewestProofAt([input.lastRun] + input.history, i) ==>
              c.proof == ([input.lastRun] + input.history)[i].value.level
    ensures c.tested && (forall i :: !NewestProofAt([input.lastRun] + input.history, i)) ==> c.proof == ProofUnknown
  {
    c := Compute(input, w);
    if input.lastRun.Some? {
      ReasonsCost(input, w);
      ReasonsAreInOrder(input, w);
      AgeReasons(input, w);
      LastFailedReasons(input, w);
      LastDegradedReasons(input, w);
      RTOMissedReasons(input, w);
      CleanupFailedReasons(input, w);
      NoBackupReasons(input, w);
      StaleBackupReasons(input, w);
      NoSuccessReasons(input, w);
      FailureRateReasons(input, w);
      CeilingReasons(input, w);
      ProofIsTheNewest(input);
    }
  }

  method Compute(input: Input, w: Weights) returns (c: Confidence)
    ensures c == Graded(input, w)
  {
    if input.lastRun.None? {
      return Confidence(0, [Reason(NeverTested, 0)], false, ProofUnknown);
    }
    var score, reasons := Charge(input, w);
    var proof := ProvenLevel(input);
    var ceiling := ProofCap(w, proof);
    if ceiling > 0 && score > ceiling {
      score, reasons := ceiling, reasons + [Reason(Capped, ceiling)];
    }
    c := Confidence(Clamp(score), reasons, true, proof);
  }

  method Charge(input: Input, w: Weights) returns (score: int, reasons: seq<Reason>)
    requires input.lastRun.Some?
    ensures reasons == Penalties(input, w) && score == 100 - Sum(reasons)
  {
    score, reasons := GradeAge(input, w);
    score, reasons := GradeOutcome(input.lastRun.value, w, score, reasons);
    score, reasons := GradeCourse(input.lastRun.value, w, score, reasons);
    score, reasons := GradeBackups(input, w, score, reasons);
    score, reasons := GradeHistory(input.history, w, score, reasons);
  }

  method GradeAge(input: Input, w: Weights) returns (score: int, reasons: seq<Reason>)
    ensures reasons == AboutAge(input, w) && score == 100 - Sum(reasons)
  {
    score, reasons := 100, [];
    var success := MostRecentSuccess(input);
    if success.Some? {
      var age := input.now - success.value.completedAt;
      var over := DaysOver(w, age);
      if over > 0.0 {
        var penalty := AgePoints(w, over);
        if penalty > w.ageMaxPenalty {
          penalty := w.ageMaxPenalty;
        }
        score, reasons := Apply(score, reasons, penalty, Age);
      }
    } else {
      score, reasons := Apply(score, reasons, w.noSuccessPenalty, NoSuccess);
    }
  }

  method GradeOutcome(last: Run, w: Weights, score0: int, reasons0: seq<Reason>)
    returns (score: int, reasons: seq<Reason>)
    ensures reasons == reasons0 + AboutOutcome(last, w) && score0 - score == Sum(reasons) - Sum(reasons0)
  {
    score, reasons := score0, reasons0;
    match last.result {
      case ResultFailed => score, reasons := Apply(score, reasons, w.lastRunFailedPenalty, LastFailed);
      case ResultDegraded => score, reasons := Apply(score, reasons, w.lastRunDegradedPenalty, LastDegraded);
      case _ =>
    }
  }

  method GradeCourse(last: Run, w: Weights, score0: int, reasons0: seq<Reason>)
    returns (score: int, reasons: seq<Reason>)
    ensures reasons == reasons0 + AboutCourse(last, w) && score0 - score == Sum(reasons) - Sum(reasons0)
  {
    score, reasons := score0, reasons0;
    if last.result != NoResult && last.RTOExceeded() {
      score, reasons := Apply(score, reasons, w.rtoExceededPenalty, RTOMissed);
    }
    assert reasons == reasons0 + Listed(RTOMissed, RTOTaken(last, w));
    if last.state == RunCleanupFailed {
      score, reasons := Apply(score, reasons, w.cleanupFailedPenalty, CleanupFailed);
    }
    Regrouped(reasons0, Listed(RTOMissed, RTOTaken(last, w)), Listed(CleanupFailed, CleanupTaken(last, w)));
  }

  method GradeBackups(input: Input, w: Weights, score0: int, reasons0: seq<Reason>)
    returns (score: int, reasons: seq<Reason>)
    ensures reasons == reasons0 + AboutBackups(input, w) && score0 - score == Sum(reasons) - Sum(reasons0)
  {
    score, reasons := score0, reasons0;
    if input.latestBackupAt.None? {
      score, reasons := Apply(score, reasons, w.noBackupPenalty, NoBackup);
    } else if input.now - input.latestBackupAt.value > w.backupStaleAfter {
      score, reasons := Apply(score, reasons, w.backupStalePenalty, StaleBackup);
    }
  }

  method GradeHistory(history: seq<Option<Run>>, w: Weights, score0: int, reasons0: seq<Reason>)
    returns (score: int, reasons: seq<Reason>)
    ensures reasons == reasons0 + AboutHistory(history, w) && score0 - score == Sum(reasons) - Sum(reasons0)
  {
    score, reasons := score0, reasons0;
    var failed, counted := FailureRateOf(history);
    if counted > 0 {
      score, reasons := Apply(score, reasons, RatePoints(w, failed, counted), FailureRate);
    }
  }

  // ------------------------------------------------ what the score means

  predicate AllTaken(reasons: seq<Reason>) {
    forall r :: r in reasons ==> r.points > 0 && r.cause != Capped
  }

  lemma {:induction false} TakenAddUp(reasons: seq<Reason>)
    requires AllTaken(reasons)
    ensures Sum(reasons) >= |reasons|
  {
    if reasons != [] {
      TakenAddUp(reasons[..|reasons| - 1]);
      assert reasons[|reasons| - 1] in reasons;
    }
  }

  lemma JoinedAreTaken(a: seq<Reason>, b: seq<Reason>)
    requires AllTaken(a) && AllTaken(b)
    ensures AllTaken(a + b)
  {
  }

  lemma PenaltiesAreTaken(input: Input, w: Weights)
    requires input.lastRun.Some?
    ensures AllTaken(Penalties(input, w)) && Sum(Penalties(input, w)) >= |Penalties(input, w)|
  {
    var a, b, c := AboutAge(input, w), AboutOutcome(input.lastRun.value, w), AboutCourse(input.lastRun.value, w);
    var d, e := AboutBackups(input, w), AboutHistory(input.history, w);
    JoinedAreTaken(a, b);
    JoinedAreTaken(a + b, c);
    JoinedAreTaken(a + b + c, d);
    JoinedAreTaken(a + b + c + d, e);
    TakenAddUp(Penalties(input, w));
  }

  /** The listed penalties, without the ceiling. */
  function Deductions(reasons: seq<Reason>): seq<Reason> {
    if reasons != [] && reasons[|reasons| - 1].cause == Capped then reasons[..|reasons| - 1] else reasons
  }

  function Ceiling(w: Weights, level: ProofLevel): int {
    if 0 < ProofCap(w, level) < 100 then ProofCap(w, level) else 100
  }

  function MinOf(a: int, b: int): int { if a < b then a else b }

  /** What is listed behind the penalties is the ceiling, if anything. */
  lemma DeductionsAreThePenalties(penalties: seq<Reason>, ceiling: int)
    requires forall r :: r in penalties ==> r.cause != Capped
    ensures Deductions(penalties) == penalties
    ensures Deductions(penalties + [Reason(Capped, ceiling)]) == penalties
  {
    assert (penalties + [Reason(Capped, ceiling)])[..|penalties|] == penalties;
  }

  /** Nothing lost, nothing listed; and what is listed adds up. */
  predicate Explained(c: Confidence, w: Weights) {
    && 0 <= c.score <= 100
    && c.score == MaxOf(0, MinOf(Ceiling(w, c.proof), 100 - Sum(Deductions(c.reasons))))
    && (c.reasons == [] <==> c.score == 100)
  }

  lemma ScoreUnderCeiling(penalties: seq<Reason>, proof: ProofLevel, w: Weights)
    requires Sum(penalties) >= 0
    ensures var c := Closed(penalties, proof, w);
      0 <= c.score <= 100 && c.score == MaxOf(0, MinOf(Ceiling(w, proof), 100 - Sum(penalties)))
  {
  }

  lemma NothingLostNothingListed(penalties: seq<Reason>, proof: ProofLevel, w: Weights)
    requires Sum(penalties) >= |penalties|
    ensures var c := Closed(penalties, proof, w); c.reasons == [] <==> c.score == 100
  {
    if penalties == [] {
      assert Sum(penalties) == 0;
    } else {
      assert Sum(penalties) > 0;
    }
  }

  lemma ClosedListsThePenalties(penalties: seq<Reason>, proof: ProofLevel, w: Weights)
    requires AllTaken(penalties)
    ensures Deductions(Closed(penalties, proof, w).reasons) == penalties
    ensures Closed(penalties, proof, w).proof == proof
  {
    DeductionsAreThePenalties(penalties, ProofCap(w, proof));
  }

  lemma ClosedIsExplained(penalties: seq<Reason>, proof: ProofLevel, w: Weights)
    requires AllTaken(penalties) && Sum(penalties) >= |penalties|
    ensures Explained(Closed(penalties, proof, w), w)
  {
    ClosedListsThePenalties(penalties, proof, w);
    ScoreUnderCeiling(penalties, proof, w);
    NothingLostNothingListed(penalties, proof, w);
  }

  /** Theorem: the score is fully explained. It is a hundred less the listed
      penalties, under the ceiling of what was proven, and never leaves 0..100;
      and nothing is listed exactly when nothing was lost. */
  lemma ScoreIsExplained(input: Input, w: Weights)
    requires input.lastRun.Some?
    ensures Explained(Graded(input, w), w)
  {
    PenaltiesAreTaken(input, w);
    ClosedIsExplained(Penalties(input, w), Proven(input), w);
  }

  // ------------------------------------------------ what each reason means

  /** The newest of these runs that succeeded. */
  predicate NewestSuccessAt(runs: seq<Option<Run>>, i: int) {
    && 0 <= i < |runs| && runs[i].Some? && runs[i].value.result == ResultSuccess
    && forall j :: 0 <= j < i && runs[j].Some? ==> runs[j].value.result != ResultSuccess
  }

  /** The newest of these runs with a verdict and a recorded level. */
  predicate NewestProofAt(runs: seq<Option<Run>>, i: int) {
    && 0 <= i < |runs| && runs[i].Some? && runs[i].value.result != NoResult && runs[i].value.level != ProofUnknown
    && forall j :: 0 <= j < i && runs[j].Some? && runs[j].value.result != NoResult ==>
         runs[j].value.level == ProofUnknown
  }

  /** q is x rounded to an integer, a half away from zero. */
  predicate RoundsTo(x: real, q: int) {
    if x >= 0.0 then q as real - 0.5 <= x < q as real + 0.5 else q as real - 0.5 < x <= q as real + 0.5
  }

  lemma RoundIsNearest(x: real, q: int)
    ensures Round(x) == q <==> RoundsTo(x, q)
  {
    if x >= 0.0 {
      var f := (x + 0.5).Floor;
      assert f as real <= x + 0.5 < f as real + 1.0;
    } else {
      var f := (-x + 0.5).Floor;
      assert f as real <= -x + 0.5 < f as real + 1.0;
    }
  }

  /** p points for a success that old: so many for each day past the grace, and
      never more than the most it can cost. */
  predicate AgedBy(completedAt: int, now: int, w: Weights, p: int) {
    var over := DaysOver(w, now - completedAt);
    over > 0.0 && RoundsUnder(over * w.agePerDayPenalty, w.ageMaxPenalty, p)
  }

  /** p is x rounded, or the most there is when x rounds to more. */
  predicate RoundsUnder(x: real, most: int, p: int) {
    if p < most then RoundsTo(x, p) else p == most && x >= most as real - 0.5
  }

  function VerdictPlaces(history: seq<Option<Run>>): set<int> {
    set i | 0 <= i < |history| && history[i].Some? && history[i].value.result != NoResult
  }

  function FailedPlaces(history: seq<Option<Run>>): set<int> {
    set i | 0 <= i < |history| && history[i].Some? && history[i].value.result in {ResultDegraded, ResultFailed}
  }

  /** p points for that many failures among that many drills with a verdict. */
  predicate RatedBy(failed: set<int>, counted: set<int>, w: Weights, p: int) {
    |counted| > 0 && RoundsTo(|failed| as real / |counted| as real * w.failureRateMaxPenalty as real, p)
  }

  /** What a cause takes off a workload that was tested. */
  function Taken(input: Input, w: Weights, cause: Cause): int
    requires input.lastRun.Some?
  {
    match cause
    case Age => AgeTaken(input, w)
    case NoSuccess => NoSuccessTaken(input, w)
    case LastFailed => FailedTaken(input.lastRun.value, w)
    case LastDegraded => DegradedTaken(input.lastRun.value, w)
    case RTOMissed => RTOTaken(input.lastRun.value, w)
    case CleanupFailed => CleanupTaken(input.lastRun.value, w)
    case NoBackup => NoBackupTaken(input, w)
    case StaleBackup => StaleTaken(input, w)
    case FailureRate => RatePenalty(w, input.history)
    case _ => 0
  }

  lemma InOneOfFive<T>(a: seq<T>, b: seq<T>, c: seq<T>, d: seq<T>, e: seq<T>, x: T)
    ensures x in a + b + c + d + e <==> x in a || x in b || x in c || x in d || x in e
  {
  }

  lemma PenaltyIsListed(input: Input, w: Weights, r: Reason)
    requires input.lastRun.Some?
    ensures r in Penalties(input, w) <==> r.points == Taken(input, w, r.cause) > 0
  {
    var last := input.lastRun.value;
    PartsAreListed(input, w, r);
    InOneOfFive(AboutAge(input, w), AboutOutcome(last, w), AboutCourse(last, w),
                AboutBackups(input, w), AboutHistory(input.history, w), r);
  }

  lemma PartsAreListed(input: Input, w: Weights, r: Reason)
    requires input.lastRun.Some?
    ensures var last, taken := input.lastRun.value, r.points == Taken(input, w, r.cause) > 0;
      && (r in AboutAge(input, w) <==> r.cause in {Age, NoSuccess} && taken)
      && (r in AboutOutcome(last, w) <==> r.cause in {LastFailed, LastDegraded} && taken)
      && (r in AboutCourse(last, w) <==> r.cause in {RTOMissed, CleanupFailed} && taken)
      && (r in AboutBackups(input, w) <==> r.cause in {NoBackup, StaleBackup} && taken)
      && (r in AboutHistory(input.history, w) <==> r.cause == FailureRate && taken)
  {
  }

  lemma {:induction false} SuccessIsNewest(runs: seq<Option<Run>>, i: int)
    ensures NewestSuccessAt(runs, i) ==> NewestSuccess(runs) == runs[i]
    ensures NewestSuccess(runs).Some? ==> exists j :: NewestSuccessAt(runs, j)
    ensures NewestSuccess(runs).None? <==>
              forall r :: r in runs && r.Some? ==> r.value.result != ResultSuccess
  {
    if runs != [] {
      if runs[0].Some? && runs[0].value.result == ResultSuccess {
        assert NewestSuccessAt(runs, 0);
      } else {
        SuccessIsNewest(runs[1..], i - 1);
        assert NewestSuccessAt(runs, i) ==> NewestSuccessAt(runs[1..], i - 1);
        if NewestSuccess(runs[1..]).Some? {
          var j :| NewestSuccessAt(runs[1..], j);
          assert NewestSuccessAt(runs, j + 1);
        }
      }
    }
  }

  lemma {:induction false} ProofIsNewest(runs: seq<Option<Run>>, i: int)
    ensures NewestProofAt(runs, i) ==> NewestProof(runs) == runs[i].value.level
    ensures NewestProof(runs) != ProofUnknown ==> exists j :: NewestProofAt(runs, j)
  {
    if runs != [] {
      if runs[0].Some? && runs[0].value.HasVerdict() && runs[0].value.level.Recorded() {
        assert NewestProofAt(runs, 0);
      } else {
        ProofIsNewest(runs[1..], i - 1);
        assert NewestProofAt(runs, i) ==> NewestProofAt(runs[1..], i - 1);
        if NewestProof(runs[1..]) != ProofUnknown {
          var j :| NewestProofAt(runs[1..], j);
          assert NewestProofAt(runs, j + 1);
        }
      }
    }
  }

  lemma {:induction false} VerdictsAreCounted(history: seq<Option<Run>>)
    ensures Counted(history) == |VerdictPlaces(history)|
  {
    if history == [] {
      assert VerdictPlaces(history) == {};
    } else {
      var k := |history| - 1;
      VerdictsAreCounted(history[..k]);
      assert VerdictPlaces(history) == VerdictPlaces(history[..k]) + if Counts(history[k]) then {k} else {};
    }
  }

  lemma {:induction false} FailuresAreCounted(history: seq<Option<Run>>)
    ensures FailedRuns(history) == |FailedPlaces(history)|
  {
    if history == [] {
      assert FailedPlaces(history) == {};
    } else {
      var k := |history| - 1;
      var failed := Counts(history[k]) && history[k].value.result != ResultSuccess;
      FailuresAreCounted(history[..k]);
      assert FailedPlaces(history) == FailedPlaces(history[..k]) + if failed then {k} else {};
    }
  }

  lemma RoundedUnder(x: real, most: int, p: int)
    requires p > 0
    ensures (if Round(x) > most then most else Round(x)) == p <==> RoundsUnder(x, most, p)
  {
    RoundIsNearest(x, Round(x));
    RoundIsNearest(x, p);
  }

  lemma AgeIsTaken(completedAt: int, now: int, w: Weights, p: int)
    requires p > 0
    ensures AgePenalty(w, now - completedAt) == p <==> AgedBy(completedAt, now, w, p)
  {
    var over := DaysOver(w, now - completedAt);
    RoundedUnder(over * w.agePerDayPenalty, w.ageMaxPenalty, p);
  }

  /** A day has 86 400 seconds, and only days past the grace count. */
  lemma DaysOverMeans(w: Weights, age: int)
    ensures DaysOver(w, age) == age as real / 86_400_000_000_000.0 - w.ageGraceDays
  {
  }

  lemma RatePointsRound(w: Weights, failed: nat, counted: nat, p: int)
    requires counted > 0
    ensures RatePoints(w, failed, counted) == p
            <==> RoundsTo(failed as real / counted as real * w.failureRateMaxPenalty as real, p)
  {
    RoundIsNearest(failed as real / counted as real * w.failureRateMaxPenalty as real, p);
  }

  lemma RateIsTaken(history: seq<Option<Run>>, w: Weights, p: int)
    requires p > 0
    ensures RatePenalty(w, history) == p <==> RatedBy(FailedPlaces(history), VerdictPlaces(history), w, p)
  {
    VerdictsAreCounted(history);
    FailuresAreCounted(history);
    if Counted(history) > 0 {
      RatePointsRound(w, FailedRuns(history), Counted(history), p);
    }
  }

  lemma ClosedLists(penalties: seq<Reason>, proof: ProofLevel, w: Weights, r: Reason)
    ensures r in Closed(penalties, proof, w).reasons <==>
              r in penalties || (r == Reason(Capped, ProofCap(w, proof)) && 0 < r.points < 100 - Sum(penalties))
  {
  }

  /** The order in which reasons are told, and each of them once. */
  predicate InOrder(reasons: seq<Reason>) {
    forall i, j :: 0 <= i < j < |reasons| ==> Place(reasons[i].cause) < Place(reasons[j].cause)
  }

  function Place(cause: Cause): int {
    match cause
    case NeverTested => 0
    case Age => 1
    case NoSuccess => 2
    case LastFailed => 3
    case LastDegraded => 4
    case RTOMissed => 5
    case CleanupFailed => 6
    case NoBackup => 7
    case StaleBackup => 8
    case FailureRate => 9
    case Capped => 10
  }

  predicate Between(reasons: seq<Reason>, lo: int, hi: int) {
    InOrder(reasons) && forall r :: r in reasons ==> lo <= Place(r.cause) < hi
  }

  lemma OrderJoins(a: seq<Reason>, b: seq<Reason>, lo: int, mid: int, hi: int)
    requires Between(a, lo, mid) && Between(b, mid, hi) && lo <= mid <= hi
    ensures Between(a + b, lo, hi)
  {
    forall i, j | 0 <= i < j < |a + b| ensures Place((a + b)[i].cause) < Place((a + b)[j].cause) {
      assert i < |a| ==> a[i] in a;
      assert j >= |a| ==> b[j - |a|] in b;
    }
  }

  lemma PairInOrder(c: Cause, p: int, d: Cause, q: int)
    requires Place(c) < Place(d)
    ensures Between(Listed(c, p) + Listed(d, q), Place(c), Place(d) + 1)
  {
  }

  lemma AgeInOrder(input: Input, w: Weights)
    ensures Between(AboutAge(input, w), 1, 3)
  {
    PairInOrder(Age, AgeTaken(input, w), NoSuccess, NoSuccessTaken(input, w));
  }

  lemma OutcomeInOrder(last: Run, w: Weights)
    ensures Between(AboutOutcome(last, w), 3, 5)
  {
    PairInOrder(LastFailed, FailedTaken(last, w), LastDegraded, DegradedTaken(last, w));
  }

  lemma CourseInOrder(last: Run, w: Weights)
    ensures Between(AboutCourse(last, w), 5, 7)
  {
    PairInOrder(RTOMissed, RTOTaken(last, w), CleanupFailed, CleanupTaken(last, w));
  }

  lemma BackupsInOrder(input: Input, w: Weights)
    ensures Between(AboutBackups(input, w), 7, 9)
  {
    PairInOrder(NoBackup, NoBackupTaken(input, w), StaleBackup, StaleTaken(input, w));
  }

  lemma OneInOrder(c: Cause, p: int)
    ensures Between(Listed(c, p), Place(c), Place(c) + 1)
  {
  }

  lemma FiveInOrder(a: seq<Reason>, b: seq<Reason>, c: seq<Reason>, d: seq<Reason>, e: seq<Reason>, ceiling: int)
    requires Between(a, 1, 3) && Between(b, 3, 5) && Between(c, 5, 7) && Between(d, 7, 9) && Between(e, 9, 10)
    ensures InOrder(a + b + c + d + e) && InOrder(a + b + c + d + e + [Reason(Capped, ceiling)])
  {
    OrderJoins(a, b, 1, 3, 5);
    OrderJoins(a + b, c, 1, 5, 7);
    OrderJoins(a + b + c, d, 1, 7, 9);
    OrderJoins(a + b + c + d, e, 1, 9, 10);
    OrderJoins(a + b + c + d + e, [Reason(Capped, ceiling)], 1, 10, 11);
  }

  lemma ReasonsAreInOrder(input: Input, w: Weights)
    requires input.lastRun.Some?
    ensures InOrder(Graded(input, w).reasons)
  {
    var last := input.lastRun.value;
    AgeInOrder(input, w);
    OutcomeInOrder(last, w);
    CourseInOrder(last, w);
    BackupsInOrder(input, w);
    OneInOrder(FailureRate, RatePenalty(w, input.history));
    FiveInOrder(AboutAge(input, w), AboutOutcome(last, w), AboutCourse(last, w), AboutBackups(input, w),
                AboutHistory(input.history, w), ProofCap(w, Proven(input)));
  }

  /** What is listed adds up, one reason after the other. */
  lemma SumMeans(reasons: seq<Reason>, r: Reason)
    ensures Sum([]) == 0 && Sum(reasons + [r]) == Sum(reasons) + r.points
  {
    assert (reasons + [r])[..|reasons|] == reasons;
  }

  lemma CappedIsListed(penalties: seq<Reason>, proof: ProofLevel, w: Weights, p: int)
    requires AllTaken(penalties)
    ensures var c := Closed(penalties, proof, w);
      && Deductions(c.reasons) == penalties && c.proof == proof
      && (Reason(Capped, p) in c.reasons <==> p == ProofCap(w, proof) && 0 < p < 100 - Sum(penalties))
  {
    ClosedListsThePenalties(penalties, proof, w);
  }

  lemma CeilingReason(input: Input, w: Weights, p: int)
    requires input.lastRun.Some?
    ensures Reason(Capped, p) in Graded(input, w).reasons <==>
              && 0 < p < 100 - Sum(Deductions(Graded(input, w).reasons))
              && ((Proven(input) == ProofNone && p == w.proofNoneCap)
                  || (Proven(input) == ProofBoot && p == w.proofBootCap)
                  || (Proven(input) == ProofService && p == w.proofServiceCap))
  {
    PenaltiesAreTaken(input, w);
    CappedIsListed(Penalties(input, w), Proven(input), w, p);
  }

  lemma AgeTakenIs(input: Input, w: Weights, i: int)
    requires input.lastRun.Some? && NewestSuccessAt(Runs(input), i)
    ensures AgeTaken(input, w) == AgePenalty(w, input.now - Runs(input)[i].value.completedAt)
  {
    SuccessIsNewest(Runs(input), i);
  }

  lemma ReasonIsTaken(input: Input, w: Weights, cause: Cause, p: int)
    requires input.lastRun.Some? && cause != Capped
    ensures Reason(cause, p) in Graded(input, w).reasons <==> p == Taken(input, w, cause) > 0
  {
    PenaltyIsListed(input, w, Reason(cause, p));
    ClosedLists(Penalties(input, w), Proven(input), w, Reason(cause, p));
  }

  lemma AgeReason(input: Input, w: Weights, i: int, p: int)
    requires input.lastRun.Some? && NewestSuccessAt([input.lastRun] + input.history, i)
    ensures Reason(Age, p) in Graded(input, w).reasons <==>
              p > 0 && AgedBy(([input.lastRun] + input.history)[i].value.completedAt, input.now, w, p)
  {
    ReasonIsTaken(input, w, Age, p);
    AgeTakenIs(input, w, i);
    if p > 0 {
      AgeIsTaken(Runs(input)[i].value.completedAt, input.now, w, p);
    }
  }

  lemma AgeReasons(input: Input, w: Weights)
    requires input.lastRun.Some?
    ensures var c, runs := Graded(input, w), [input.lastRun] + input.history;
      && (forall i, p :: NewestSuccessAt(runs, i) ==>
            (Reason(Age, p) in c.reasons <==> p > 0 && AgedBy(runs[i].value.completedAt, input.now, w, p)))
      && (forall p :: Reason(Age, p) in c.reasons ==> exists i :: NewestSuccessAt(runs, i))
  {
    var c, runs := Graded(input, w), [input.lastRun] + input.history;
    forall i, p | NewestSuccessAt(runs, i)
      ensures Reason(Age, p) in c.reasons <==> p > 0 && AgedBy(runs[i].value.completedAt, input.now, w, p)
    {
      AgeReason(input, w, i, p);
    }
    forall p | Reason(Age, p) in c.reasons ensures exists i :: NewestSuccessAt(runs, i) {
      ReasonIsTaken(input, w, Age, p);
      SuccessIsNewest(runs, 0);
    }
  }

  lemma LastFailedReasons(input: Input, w: Weights)
    requires input.lastRun.Some?
    ensures forall p :: Reason(LastFailed, p) in Graded(input, w).reasons <==>
              input.lastRun.value.result == ResultFailed && p == w.lastRunFailedPenalty > 0
  {
    forall p
      ensures Reason(LastFailed, p) in Graded(input, w).reasons <==>
              input.lastRun.value.result == ResultFailed && p == w.lastRunFailedPenalty > 0
    {
      ReasonIsTaken(input, w, LastFailed, p);
    }
  }

  lemma LastDegradedReasons(input: Input, w: Weights)
    requires input.lastRun.Some?
    ensures forall p :: Reason(LastDegraded, p) in Graded(input, w).reasons <==>
              input.lastRun.value.result == ResultDegraded && p == w.lastRunDegradedPenalty > 0
  {
    forall p
      ensures Reason(LastDegraded, p) in Graded(input, w).reasons <==>
              input.lastRun.value.result == ResultDegraded && p == w.lastRunDegradedPenalty > 0
    {
      ReasonIsTaken(input, w, LastDegraded, p);
    }
  }

  lemma RTOMissedReasons(input: Input, w: Weights)
    requires input.lastRun.Some?
    ensures forall p :: Reason(RTOMissed, p) in Graded(input, w).reasons <==>
              && input.lastRun.value.result != NoResult && p == w.rtoExceededPenalty > 0
              && 0 < input.lastRun.value.rtoTarget < input.lastRun.value.rto
  {
    forall p
      ensures Reason(RTOMissed, p) in Graded(input, w).reasons <==>
              && input.lastRun.value.result != NoResult && p == w.rtoExceededPenalty > 0
              && 0 < input.lastRun.value.rtoTarget < input.lastRun.value.rto
    {
      ReasonIsTaken(input, w, RTOMissed, p);
    }
  }

  lemma CleanupFailedReasons(input: Input, w: Weights)
    requires input.lastRun.Some?
    ensures forall p :: Reason(CleanupFailed, p) in Graded(input, w).reasons <==>
              input.lastRun.value.state == RunCleanupFailed && p == w.cleanupFailedPenalty > 0
  {
    forall p
      ensures Reason(CleanupFailed, p) in Graded(input, w).reasons <==>
              input.lastRun.value.state == RunCleanupFailed && p == w.cleanupFailedPenalty > 0
    {
      ReasonIsTaken(input, w, CleanupFailed, p);
    }
  }

  lemma NoBackupReasons(input: Input, w: Weights)
    requires input.lastRun.Some?
    ensures forall p :: Reason(NoBackup, p) in Graded(input, w).reasons <==>
              input.latestBackupAt == None && p == w.noBackupPenalty > 0
  {
    forall p
      ensures Reason(NoBackup, p) in Graded(input, w).reasons <==>
              input.latestBackupAt == None && p == w.noBackupPenalty > 0
    {
      ReasonIsTaken(input, w, NoBackup, p);
    }
  }

  lemma StaleBackupReasons(input: Input, w: Weights)
    requires input.lastRun.Some?
    ensures forall p :: Reason(StaleBackup, p) in Graded(input, w).reasons <==>
              && input.latestBackupAt.Some? && input.now - input.latestBackupAt.value > w.backupStaleAfter
              && p == w.backupStalePenalty > 0
  {
    forall p
      ensures Reason(StaleBackup, p) in Graded(input, w).reasons <==>
              && input.latestBackupAt.Some? && input.now - input.latestBackupAt.value > w.backupStaleAfter
              && p == w.backupStalePenalty > 0
    {
      ReasonIsTaken(input, w, StaleBackup, p);
    }
  }

  lemma NoSuccessReasons(input: Input, w: Weights)
    requires input.lastRun.Some?
    ensures forall p :: Reason(NoSuccess, p) in Graded(input, w).reasons <==>
              && p == w.noSuccessPenalty > 0
              && forall r :: r in [input.lastRun] + input.history && r.Some? ==> r.value.result != ResultSuccess
  {
    forall p
      ensures Reason(NoSuccess, p) in Graded(input, w).reasons <==>
              && p == w.noSuccessPenalty > 0
              && forall r :: r in [input.lastRun] + input.history && r.Some? ==> r.value.result != ResultSuccess
    {
      ReasonIsTaken(input, w, NoSuccess, p);
      SuccessIsNewest(Runs(input), 0);
    }
  }

  lemma FailureRateReasons(input: Input, w: Weights)
    requires input.lastRun.Some?
    ensures forall p :: Reason(FailureRate, p) in Graded(input, w).reasons <==>
              p > 0 && RatedBy(FailedPlaces(input.history), VerdictPlaces(input.history), w, p)
  {
    forall p
      ensures Reason(FailureRate, p) in Graded(input, w).reasons <==>
              p > 0 && RatedBy(FailedPlaces(input.history), VerdictPlaces(input.history), w, p)
    {
      ReasonIsTaken(input, w, FailureRate, p);
      if p > 0 { RateIsTaken(input.history, w, p); }
    }
  }

  lemma ReasonsCost(input: Input, w: Weights)
    requires input.lastRun.Some?
    ensures forall r :: r in Graded(input, w).reasons ==> r.points > 0 && r.cause != NeverTested
  {
    forall r | r in Graded(input, w).reasons ensures r.points > 0 && r.cause != NeverTested {
      if r.cause == Capped {
        ClosedLists(Penalties(input, w), Proven(input), w, r);
        PenaltyIsListed(input, w, r);
      } else {
        ReasonIsTaken(input, w, r.cause, r.points);
      }
    }
  }

  lemma CeilingReasons(input: Input, w: Weights)
    requires input.lastRun.Some?
    ensures forall p :: Reason(Capped, p) in Graded(input, w).reasons <==>
              && 0 < p < 100 - Sum(Deductions(Graded(input, w).reasons))
              && ((Proven(input) == ProofNone && p == w.proofNoneCap)
                  || (Proven(input) == ProofBoot && p == w.proofBootCap)
                  || (Proven(input) == ProofService && p == w.proofServiceCap))
  {
    forall p
      ensures Reason(Capped, p) in Graded(input, w).reasons <==>
              && 0 < p < 100 - Sum(Deductions(Graded(input, w).reasons))
              && ((Proven(input) == ProofNone && p == w.proofNoneCap)
                  || (Proven(input) == ProofBoot && p == w.proofBootCap)
                  || (Proven(input) == ProofService && p == w.proofServiceCap))
    {
      CeilingReason(input, w, p);
    }
  }

  lemma ProofIsTheNewest(input: Input)
    ensures var runs := [input.lastRun] + input.history;
      && (forall i :: NewestProofAt(runs, i) ==> Proven(input) == runs[i].value.level)
      && ((forall i :: !NewestProofAt(runs, i)) ==> Proven(input) == ProofUnknown)
  {
    var runs := Runs(input);
    ProofIsNewest(runs, 0);
    forall i | NewestProofAt(runs, i) ensures Proven(input) == runs[i].value.level {
      ProofIsNewest(runs, i);
    }
  }

  // ------------------------------------------------ what does not count

  /** The history without its gaps and the runs that reached no verdict. */
  function OnlyVerdicts(history: seq<Option<Run>>): seq<Option<Run>> {
    if history == [] then []
    else
      OnlyVerdicts(history[..|history| - 1])
      + if Counts(history[|history| - 1]) then [history[|history| - 1]] else []
  }

  lemma {:induction false} VerdictsCountTheSame(history: seq<Option<Run>>)
    ensures Counted(OnlyVerdicts(history)) == Counted(history)
    ensures FailedRuns(OnlyVerdicts(history)) == FailedRuns(history)
  {
    if history != [] {
      var init, last := history[..|history| - 1], history[|history| - 1];
      VerdictsCountTheSame(init);
      if Counts(last) {
        assert (OnlyVerdicts(init) + [last])[..|OnlyVerdicts(init)|] == OnlyVerdicts(init);
      } else {
        assert OnlyVerdicts(init) + [] == OnlyVerdicts(init);
      }
    }
  }

  lemma {:induction false} OnlyVerdictsFront(r: Option<Run>, history: seq<Option<Run>>)
    ensures OnlyVerdicts([r] + history) == (if Counts(r) then [r] else []) + OnlyVerdicts(history)
  {
    if history == [] {
      assert [r] + [] == [r];
    } else {
      var init := history[..|history| - 1];
      OnlyVerdictsFront(r, init);
      assert ([r] + history)[..|history|] == [r] + init;
    }
  }

  lemma {:induction false} SearchesSkip(history: seq<Option<Run>>)
    ensures NewestSuccess(OnlyVerdicts(history)) == NewestSuccess(history)
    ensures NewestProof(OnlyVerdicts(history)) == NewestProof(history)
  {
    if history != [] {
      SearchesSkip(history[1..]);
      OnlyVerdictsFront(history[0], history[1..]);
      assert history == [history[0]] + history[1..];
      var rest := OnlyVerdicts(history[1..]);
      if Counts(history[0]) {
        assert ([history[0]] + rest)[1..] == rest;
      } else {
        assert OnlyVerdicts(history) == rest;
      }
    }
  }

  function Thinned(input: Input): Input { input.(history := OnlyVerdicts(input.history)) }

  lemma SameFacts(input: Input)
    ensures NewestSuccess(Runs(Thinned(input))) == NewestSuccess(Runs(input))
    ensures NewestProof(Runs(Thinned(input))) == NewestProof(Runs(input))
    ensures Counted(Thinned(input).history) == Counted(input.history)
    ensures FailedRuns(Thinned(input).history) == FailedRuns(input.history)
  {
    SearchesSkip(input.history);
    VerdictsCountTheSame(input.history);
    assert Runs(input)[1..] == input.history && Runs(Thinned(input))[1..] == Thinned(input).history;
  }

  /** Theorem: runs that reached no verdict, and gaps, change nothing. */
  lemma VerdictlessRunsDoNotCount(input: Input, w: Weights)
    ensures Graded(Thinned(input), w) == Graded(input, w)
  {
    if input.lastRun.Some? {
      SameFacts(input);
    }
  }

  // ------------------------------------------------ time

  lemma ScaleUp(a: real, b: real, c: real)
    requires a <= b && c >= 0.0
    ensures a * c <= b * c
  {
    assert (b - a) * c >= 0.0;
  }

  lemma RoundGrows(x: real, y: real)
    requires x <= y
    ensures Round(x) <= Round(y)
  {
  }

  lemma DaysGrow(w: Weights, age: int, later: int)
    requires age <= later
    ensures DaysOver(w, age) <= DaysOver(w, later)
  {
  }

  lemma AgeGrows(w: Weights, age: int, later: int)
    requires age <= later && w.agePerDayPenalty >= 0.0
    ensures MaxOf(0, AgePenalty(w, age)) <= MaxOf(0, AgePenalty(w, later))
  {
    var over, more := DaysOver(w, age), DaysOver(w, later);
    DaysGrow(w, age, later);
    ScaleUp(over, more, w.agePerDayPenalty);
    RoundGrows(over * w.agePerDayPenalty, more * w.agePerDayPenalty);
  }

  lemma AgeTakenGrows(input: Input, w: Weights, later: int)
    requires input.now <= later && w.agePerDayPenalty >= 0.0
    ensures MaxOf(0, AgeTaken(input, w)) <= MaxOf(0, AgeTaken(input.(now := later), w))
  {
    var success := NewestSuccess(Runs(input));
    assert Runs(input.(now := later)) == Runs(input);
    if success.Some? {
      AgeGrows(w, input.now - success.value.completedAt, later - success.value.completedAt);
    }
  }

  lemma {:induction false} SumJoined(a: seq<Reason>, b: seq<Reason>)
    ensures Sum(a + b) == Sum(a) + Sum(b)
  {
    if b == [] {
      assert a + b == a;
    } else {
      SumJoined(a, b[..|b| - 1]);
      assert (a + b)[..|a + b| - 1] == a + b[..|b| - 1];
    }
  }

  lemma SumListed(cause: Cause, points: int)
    ensures Sum(Listed(cause, points)) == MaxOf(0, points)
  {
    assert [Reason(cause, points)][..0] == [];
  }

  lemma SumOfTwo(a: Cause, p: int, b: Cause, q: int)
    ensures Sum(Listed(a, p) + Listed(b, q)) == MaxOf(0, p) + MaxOf(0, q)
  {
    SumJoined(Listed(a, p), Listed(b, q));
    SumListed(a, p);
    SumListed(b, q);
  }

  lemma SumOfFive(a: seq<Reason>, b: seq<Reason>, c: seq<Reason>, d: seq<Reason>, e: seq<Reason>)
    ensures Sum(a + b + c + d + e) == Sum(a) + Sum(b) + Sum(c) + Sum(d) + Sum(e)
  {
    SumJoined(a, b);
    SumJoined(a + b, c);
    SumJoined(a + b + c, d);
    SumJoined(a + b + c + d, e);
  }

  /** What the penalties come to, block by block. */
  lemma SumOfPenalties(input: Input, w: Weights)
    requires input.lastRun.Some?
    ensures Sum(Penalties(input, w)) ==
              Sum(AboutAge(input, w)) + Sum(AboutOutcome(input.lastRun.value, w))
              + Sum(AboutCourse(input.lastRun.value, w)) + Sum(AboutBackups(input, w))
              + Sum(AboutHistory(input.history, w))
  {
    SumOfFive(AboutAge(input, w), AboutOutcome(input.lastRun.value, w), AboutCourse(input.lastRun.value, w),
              AboutBackups(input, w), AboutHistory(input.history, w));
  }

  lemma AboutAgeGrows(input: Input, w: Weights, later: int)
    requires input.now <= later && w.agePerDayPenalty >= 0.0
    ensures Sum(AboutAge(input, w)) <= Sum(AboutAge(input.(now := later), w))
  {
    var next := input.(now := later);
    AgeTakenGrows(input, w, later);
    assert Runs(next) == Runs(input);
    SumOfTwo(Age, AgeTaken(input, w), NoSuccess, NoSuccessTaken(input, w));
    SumOfTwo(Age, AgeTaken(next, w), NoSuccess, NoSuccessTaken(next, w));
  }

  lemma AboutBackupsGrows(input: Input, w: Weights, later: int)
    requires input.now <= later
    ensures Sum(AboutBackups(input, w)) <= Sum(AboutBackups(input.(now := later), w))
  {
    var next := input.(now := later);
    SumOfTwo(NoBackup, NoBackupTaken(input, w), StaleBackup, StaleTaken(input, w));
    SumOfTwo(NoBackup, NoBackupTaken(next, w), StaleBackup, StaleTaken(next, w));
  }

  lemma PenaltiesGrow(input: Input, w: Weights, later: int)
    requires input.lastRun.Some? && input.now <= later && w.agePerDayPenalty >= 0.0
    ensures Sum(Penalties(input, w)) <= Sum(Penalties(input.(now := later), w))
  {
    SumOfPenalties(input, w);
    SumOfPenalties(input.(now := later), w);
    AboutAgeGrows(input, w, later);
    AboutBackupsGrows(input, w, later);
  }

  /** Theorem: left alone, a workload's score never rises. */
  lemma ScoreNeverRisesWithTime(input: Input, w: Weights, later: int)
    requires input.now <= later && w.agePerDayPenalty >= 0.0
    ensures Graded(input.(now := later), w).score <= Graded(input, w).score
  {
    if input.lastRun.Some? {
      PenaltiesGrow(input, w, later);
      assert Runs(input.(now := later)) == Runs(input);
    }
  }

  // ------------------------------------------------ the product's own weights

  lemma OneFailure(now: int, w: Weights)
    requires w.noSuccessPenalty == 35 && w.lastRunFailedPenalty == 30 && w.backupStaleAfter >= 0
    ensures var last := Run(ResultFailed, RunFailed, ProofData, now, 0, 0);
      var input := Input(Some(last), [], Some(now), now);
      Penalties(input, w) == [Reason(NoSuccess, 35), Reason(LastFailed, 30)] && Proven(input) == ProofData
  {
    var last := Run(ResultFailed, RunFailed, ProofData, now, 0, 0);
    var input := Input(Some(last), [], Some(now), now);
    var runs := Runs(input);
    assert runs == [Some(last)] && runs[0].value.result == ResultFailed && runs[1..] == [];
    SuccessIsNewest(runs, 0);
    assert NewestSuccess(runs).None?;
    assert AboutAge(input, w) == [Reason(NoSuccess, 35)];
    assert AboutOutcome(last, w) == [Reason(LastFailed, 30)];
    assert AboutCourse(last, w) == [] && AboutBackups(input, w) == [] && AboutHistory(input.history, w) == [];
  }

  /** One failed drill that reached DATA, and a fresh backup: having no success
      costs 35, and the failure 30. */
  lemma OneFailedDrill(now: int)
    ensures var last := Run(ResultFailed, RunFailed, ProofData, now, 0, 0);
      Graded(Input(Some(last), [], Some(now), now), DEFAULT_WEIGHTS)
      == Confidence(35, [Reason(NoSuccess, 35), Reason(LastFailed, 30)], true, ProofData)
  {
    OneFailure(now, DEFAULT_WEIGHTS);
    SumMeans([], Reason(NoSuccess, 35));
    SumMeans([Reason(NoSuccess, 35)], Reason(LastFailed, 30));
    assert [] + [Reason(NoSuccess, 35)] == [Reason(NoSuccess, 35)];
    assert [Reason(NoSuccess, 35)] + [Reason(LastFailed, 30)] == [Reason(NoSuccess, 35), Reason(LastFailed, 30)];
  }
}
