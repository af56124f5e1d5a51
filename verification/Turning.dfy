// When the score falls although nothing got worse: a failed drill of the past
// read as a success (internal/report/confidence.go).
module Turning {
  import opened Core
  import opened Confidence

  lemma ClosedFalls(a: seq<Reason>, b: seq<Reason>, proof: ProofLevel, w: Weights)
    requires Sum(a) >= 0 && Sum(b) >= 0
    ensures Closed(b, proof, w).score < Closed(a, proof, w).score <==>
              Sum(b) > Sum(a) && Sum(a) < 100 && 100 - Sum(b) < Ceiling(w, proof)
  {
    ScoreUnderCeiling(a, proof, w);
    ScoreUnderCeiling(b, proof, w);
  }

  /** Theorem: between two gradings of the same proof level, the score falls
      exactly when the penalties grow, they had left something to lose, and
      what is left now shows under the ceiling. */
  lemma ScoreFalls(a: Input, b: Input, w: Weights)
    requires a.lastRun.Some? && b.lastRun.Some? && Proven(a) == Proven(b)
    ensures Graded(b, w).score < Graded(a, w).score <==>
              && Sum(Penalties(b, w)) > Sum(Penalties(a, w))
              && Sum(Penalties(a, w)) < 100
              && 100 - Sum(Penalties(b, w)) < Ceiling(w, Proven(a))
  {
    PenaltiesAreTaken(a, w);
    PenaltiesAreTaken(b, w);
    ClosedFalls(Penalties(a, w), Penalties(b, w), Proven(a), w);
  }

  // ------------------------------------------------ turning one drill

  predicate Failing(input: Input, i: nat) {
    i < |input.history| && Counts(input.history[i]) && input.history[i].value.result != ResultSuccess
  }

  /** The same workload, had that drill fully succeeded. */
  function Turned(input: Input, i: nat): Input
    requires Failing(input, i)
  {
    var r := input.history[i].value;
    input.(history := input.history[i := Some(r.(result := ResultSuccess, state := RunSuccess))])
  }

  /** The last run and the drills listed before i. */
  function Newer(input: Input, i: nat): seq<Option<Run>>
    requires i < |input.history|
  {
    [input.lastRun] + input.history[..i]
  }

  lemma {:induction false} SuccessFoundFirst(front: seq<Option<Run>>, back: seq<Option<Run>>)
    ensures NewestSuccess(front + back) ==
              if NewestSuccess(front).Some? then NewestSuccess(front) else NewestSuccess(back)
  {
    if front == [] {
      assert front + back == back;
    } else {
      SuccessFoundFirst(front[1..], back);
      assert (front + back)[1..] == front[1..] + back;
    }
  }

  lemma {:induction false} ProofFoundFirst(front: seq<Option<Run>>, back: seq<Option<Run>>)
    ensures NewestProof(front + back) ==
              if NewestProof(front).Recorded() then NewestProof(front) else NewestProof(back)
  {
    if front == [] {
      assert front + back == back;
    } else {
      ProofFoundFirst(front[1..], back);
      assert (front + back)[1..] == front[1..] + back;
    }
  }

  lemma Around(input: Input, i: nat)
    requires Failing(input, i)
    ensures Runs(input) == Newer(input, i) + input.history[i..]
    ensures Runs(Turned(input, i)) == Newer(input, i) + Turned(input, i).history[i..]
    ensures Turned(input, i).history[i..][1..] == input.history[i..][1..]
  {
  }

  lemma TurnedFacts(input: Input, i: nat)
    requires Failing(input, i)
    ensures NewestSuccess(Runs(Turned(input, i))) ==
              if NewestSuccess(Newer(input, i)).Some? then NewestSuccess(Newer(input, i))
              else Turned(input, i).history[i]
    ensures NewestSuccess(Newer(input, i)).Some? ==>
              NewestSuccess(Runs(input)) == NewestSuccess(Newer(input, i))
    ensures Proven(Turned(input, i)) == Proven(input)
  {
    var before, after := input.history[i..], Turned(input, i).history[i..];
    Around(input, i);
    SuccessFoundFirst(Newer(input, i), before);
    SuccessFoundFirst(Newer(input, i), after);
    ProofFoundFirst(Newer(input, i), before);
    ProofFoundFirst(Newer(input, i), after);
    assert NewestSuccess(after) == after[0];
    assert NewestProof(after) == NewestProof(before);
  }

  lemma {:induction false} OneFewerFailed(history: seq<Option<Run>>, i: nat, run: Run)
    requires i < |history| && Counts(history[i]) && history[i].value.result != ResultSuccess
    requires run.result == ResultSuccess
    ensures Counted(history[i := Some(run)]) == Counted(history) > 0
    ensures FailedRuns(history[i := Some(run)]) == FailedRuns(history) - 1
  {
    var k := |history| - 1;
    var next := history[i := Some(run)];
    if i == k {
      assert next[..k] == history[..k];
    } else {
      OneFewerFailed(history[..k], i, run);
      assert next[..k] == history[..k][i := Some(run)];
    }
  }

  // ------------------------------------------------ what it changes

  /** What the search for a success costs, with or without one. */
  function AgeSide(input: Input, w: Weights): int {
    MaxOf(0, AgeTaken(input, w)) + MaxOf(0, NoSuccessTaken(input, w))
  }

  /** What it costs once the drill at i counts as one: nothing new when a newer
      success is on record, and otherwise the age of that drill. */
  function AgeAfter(input: Input, w: Weights, i: nat): int
    requires Failing(input, i)
  {
    if NewestSuccess(Newer(input, i)).Some? then AgeSide(input, w)
    else MaxOf(0, AgePenalty(w, input.now - input.history[i].value.completedAt))
  }

  function RateBefore(input: Input, w: Weights): int { MaxOf(0, RatePenalty(w, input.history)) }

  /** One failure fewer among as many drills. */
  function RateAfter(input: Input, w: Weights): int
    requires FailedRuns(input.history) > 0
  {
    MaxOf(0, RatePoints(w, FailedRuns(input.history) - 1, Counted(input.history)))
  }

  lemma {:induction false} FailingIsCounted(history: seq<Option<Run>>, i: nat)
    requires i < |history| && Counts(history[i]) && history[i].value.result != ResultSuccess
    ensures FailedRuns(history) > 0
  {
    if i < |history| - 1 {
      FailingIsCounted(history[..|history| - 1], i);
    }
  }

  /** By how much the penalties grow, read off the workload as it stands. */
  function Change(input: Input, w: Weights, i: nat): int
    requires Failing(input, i)
  {
    FailingIsCounted(input.history, i);
    AgeAfter(input, w, i) + RateAfter(input, w) - AgeSide(input, w) - RateBefore(input, w)
  }

  lemma AgeSum(input: Input, w: Weights)
    ensures Sum(AboutAge(input, w)) == AgeSide(input, w)
  {
    SumOfTwo(Age, AgeTaken(input, w), NoSuccess, NoSuccessTaken(input, w));
  }

  lemma AgeTurned(input: Input, w: Weights, i: nat)
    requires Failing(input, i)
    ensures Sum(AboutAge(Turned(input, i), w)) == AgeAfter(input, w, i)
  {
    TurnedFacts(input, i);
    AgeSum(Turned(input, i), w);
  }

  lemma RateTurned(input: Input, w: Weights, i: nat)
    requires Failing(input, i) && FailedRuns(input.history) > 0
    ensures Sum(AboutHistory(input.history, w)) == RateBefore(input, w)
    ensures Sum(AboutHistory(Turned(input, i).history, w)) == RateAfter(input, w)
  {
    var next := Turned(input, i);
    OneFewerFailed(input.history, i, next.history[i].value);
    SumListed(FailureRate, RatePenalty(w, input.history));
    SumListed(FailureRate, RatePenalty(w, next.history));
  }

  lemma SumsAround(input: Input, w: Weights, i: nat)
    requires Failing(input, i) && input.lastRun.Some?
    ensures Sum(Penalties(Turned(input, i), w)) == Sum(Penalties(input, w)) + Change(input, w, i)
  {
    FailingIsCounted(input.history, i);
    SumOfPenalties(input, w);
    SumOfPenalties(Turned(input, i), w);
    AgeSum(input, w);
    AgeTurned(input, w, i);
    RateTurned(input, w, i);
    assert AboutBackups(Turned(input, i), w) == AboutBackups(input, w);
  }

  /** Theorem: reading a failed drill of the past as a success lowers the score
      exactly when the age it brings in and the smaller failure rate together
      cost more than what they replace, something was left to lose, and what is
      left then shows under the ceiling. */
  lemma TurningLowersTheScore(input: Input, w: Weights, i: nat)
    requires Failing(input, i) && input.lastRun.Some?
    ensures Graded(Turned(input, i), w).score < Graded(input, w).score <==>
              && Change(input, w, i) > 0
              && Sum(Penalties(input, w)) < 100
              && 100 - Sum(Penalties(input, w)) - Change(input, w, i) < Ceiling(w, Proven(input))
  {
    TurnedFacts(input, i);
    SumsAround(input, w, i);
    ScoreFalls(input, Turned(input, i), w);
  }

  /** With no success on record at all, what is replaced is the penalty for
      having none. */
  lemma FirstSuccess(input: Input, w: Weights, i: nat)
    requires Failing(input, i) && NewestSuccess(Runs(input)).None?
    ensures FailedRuns(input.history) > 0
    ensures Change(input, w, i) ==
              MaxOf(0, AgePenalty(w, input.now - input.history[i].value.completedAt)) + RateAfter(input, w)
              - MaxOf(0, w.noSuccessPenalty) - RateBefore(input, w)
  {
    FailingIsCounted(input.history, i);
    TurnedFacts(input, i);
  }

  /** With only older successes on record, it is the age of the newest of them. */
  lemma NewestSuccessMoves(input: Input, w: Weights, i: nat)
    requires Failing(input, i) && NewestSuccess(Newer(input, i)).None? && NewestSuccess(Runs(input)).Some?
    ensures FailedRuns(input.history) > 0
    ensures Change(input, w, i) ==
              MaxOf(0, AgePenalty(w, input.now - input.history[i].value.completedAt)) + RateAfter(input, w)
              - MaxOf(0, AgePenalty(w, input.now - NewestSuccess(Runs(input)).value.completedAt))
              - RateBefore(input, w)
  {
    FailingIsCounted(input.history, i);
  }

  lemma RateNeverGrows(w: Weights, failed: nat, counted: nat)
    requires 0 < failed <= counted
    ensures MaxOf(0, RatePoints(w, failed - 1, counted)) <= MaxOf(0, RatePoints(w, failed, counted))
  {
    var few, many := (failed - 1) as real / counted as real, failed as real / counted as real;
    var m := w.failureRateMaxPenalty as real;
    assert 0.0 <= few <= many;
    if m >= 0.0 {
      ScaleUp(few, many, m);
      RoundGrows(few * m, many * m);
    } else {
      ScaleUp(0.0, few, -m);
      assert few * m <= 0.0;
      RoundGrows(few * m, 0.0);
    }
  }

  predicate HasRecentSuccess(input: Input, i: nat)
    requires Failing(input, i)
  {
    var newest := NewestSuccess(Runs(input));
    newest.Some? && (NewestSuccess(Newer(input, i)).Some?
                     || newest.value.completedAt <= input.history[i].value.completedAt)
  }

  lemma RecentSuccessCostsNothing(input: Input, w: Weights, i: nat)
    requires Failing(input, i) && w.agePerDayPenalty >= 0.0 && HasRecentSuccess(input, i)
    ensures AgeAfter(input, w, i) <= AgeSide(input, w)
  {
    if NewestSuccess(Newer(input, i)).None? {
      AgeGrows(w, input.now - input.history[i].value.completedAt,
               input.now - NewestSuccess(Runs(input)).value.completedAt);
    }
  }

  /** Theorem: as long as a success at least as recent is on record, and the
      daily penalty is not negative, turning a failure never lowers the score. */
  lemma RecentSuccessProtects(input: Input, w: Weights, i: nat)
    requires Failing(input, i) && input.lastRun.Some? && w.agePerDayPenalty >= 0.0 && HasRecentSuccess(input, i)
    ensures Graded(Turned(input, i), w).score >= Graded(input, w).score
  {
    FailingIsCounted(input.history, i);
    RateNeverGrows(w, FailedRuns(input.history), Counted(input.history));
    RecentSuccessCostsNothing(input, w, i);
    TurningLowersTheScore(input, w, i);
  }

  // ------------------------------------------------ under the product's weights

  function Failure(completedAt: int): Run { Run(ResultFailed, RunFailed, ProofData, completedAt, 0, 0) }

  function Failures(n: nat, completedAt: int): (h: seq<Option<Run>>)
    ensures |h| == n && AllAre(h, Failure(completedAt))
  {
    seq(n, i => Some(Failure(completedAt)))
  }

  predicate AllAre(h: seq<Option<Run>>, r: Run) { forall k :: 0 <= k < |h| ==> h[k] == Some(r) }

  lemma {:induction false} AllCount(h: seq<Option<Run>>, r: Run)
    requires AllAre(h, r) && r.HasVerdict() && r.result != ResultSuccess
    ensures Counted(h) == |h| == FailedRuns(h)
  {
    if h != [] {
      AllCount(h[..|h| - 1], r);
    }
  }

  lemma {:induction false} NoneSucceeded(h: seq<Option<Run>>, r: Run)
    requires AllAre(h, r) && r.result != ResultSuccess
    ensures NewestSuccess(h) == None
  {
    if h != [] {
      NoneSucceeded(h[1..], r);
    }
  }

  /** n drills that failed `age` ago, and one that was cancelled just now. */
  function OldFailures(n: nat, age: int): Input {
    Input(Some(Run(NoResult, RunCancelled, ProofNone, age, 0, 0)), Failures(n, 0), Some(age), age)
  }

  lemma AllOfThemFailed(n: nat)
    requires n > 0
    ensures RatePoints(DEFAULT_WEIGHTS, n, n) == 30
  {
    assert n as real / n as real == 1.0;
  }

  lemma ScaledBelow(a: real, b: real, c: real)
    requires c > 0.0
    ensures a < b <==> a * c < b * c
  {
    if a < b {
      assert (b - a) * c > 0.0;
    } else {
      ScaleUp(b, a, c);
    }
  }

  /** A share that falls short of the whole by one in n. */
  lemma ShareBounds(rate: real, many: real)
    requires many >= 1.0 && rate * many == many - 1.0
    ensures rate >= 0.0 && (rate < 0.85 <==> 3.0 * many < 20.0)
  {
    ScaledBelow(rate, 0.85, many);
    ScaledBelow(rate, 0.0, many);
    assert 0.85 * many == many * 0.85;
  }

  lemma ShareOfThirty(rate: real, n: nat)
    requires n > 0 && rate >= 0.0 && (rate < 0.85 <==> 3.0 * n as real < 20.0)
    ensures 0 <= Round(rate * 30.0) && (Round(rate * 30.0) > 25 <==> n >= 7)
  {
  }

  /** One success among n drills leaves 26 points of the rate, or more, from
      the seventh on. */
  lemma AllButOneFailed(n: nat)
    requires n > 0
    ensures 0 <= RatePoints(DEFAULT_WEIGHTS, n - 1, n)
    ensures RatePoints(DEFAULT_WEIGHTS, n - 1, n) > 25 <==> n >= 7
  {
    var rate := (n - 1) as real / n as real;
    assert rate * n as real == (n - 1) as real;
    ShareBounds(rate, n as real);
    ShareOfThirty(rate, n);
    assert DEFAULT_WEIGHTS.failureRateMaxPenalty as real == 30.0;
  }

  lemma OldSuccessCosts(age: int)
    requires age >= 27 * DAY
    ensures AgePenalty(DEFAULT_WEIGHTS, age) == 40
  {
    assert age as real / DAY as real >= 27.0;
  }

  lemma OldFailuresKnown(n: nat, age: int)
    requires n > 0
    ensures NewestSuccess(Runs(OldFailures(n, age))) == None && Proven(OldFailures(n, age)) == ProofData
    ensures var history := OldFailures(n, age).history; Counted(history) == n == FailedRuns(history)
  {
    var input := OldFailures(n, age);
    AllCount(input.history, Failure(0));
    NoneSucceeded(input.history, Failure(0));
    assert Runs(input)[1..] == input.history;
    assert input.history[0] == Some(Failure(0)) && NewestProof(input.history) == ProofData;
    assert !Runs(input)[0].value.HasVerdict() && NewestProof(Runs(input)) == NewestProof(Runs(input)[1..]);
  }

  lemma OldFailuresCost(n: nat, age: int)
    requires n > 0
    ensures RateBefore(OldFailures(n, age), DEFAULT_WEIGHTS) == 30
    ensures Sum(Penalties(OldFailures(n, age), DEFAULT_WEIGHTS)) == 65
  {
    var input, w := OldFailures(n, age), DEFAULT_WEIGHTS;
    OldFailuresKnown(n, age);
    AllOfThemFailed(n);
    SumOfPenalties(input, w);
    AgeSum(input, w);
    SumListed(FailureRate, RatePenalty(w, input.history));
    assert AboutOutcome(input.lastRun.value, w) == [] == AboutCourse(input.lastRun.value, w);
    assert AboutBackups(input, w) == [];
  }

  lemma OldFailureTurned(n: nat, age: int, i: nat, w: Weights)
    requires i < n && Failing(OldFailures(n, age), i)
    requires AgePenalty(w, age) == 40 && w.noSuccessPenalty == 35
    requires RateBefore(OldFailures(n, age), w) == 30 && RatePoints(w, n - 1, n) >= 0
    ensures Change(OldFailures(n, age), w, i) == RatePoints(w, n - 1, n) - 25
  {
    var input := OldFailures(n, age);
    OldFailuresKnown(n, age);
    FirstSuccess(input, w, i);
    assert input.now - input.history[i].value.completedAt == age;
    assert RateAfter(input, w) == RatePoints(w, n - 1, n);
  }

  /** Theorem: under the product's own weights, reading one of n failures of at
      least 27 days ago as a success lowers the score as soon as there are
      seven of them, and never before. */
  lemma SevenOldFailures(n: nat, age: int, i: nat)
    requires i < n && age >= 27 * DAY
    ensures Failing(OldFailures(n, age), i)
    ensures var before, after := OldFailures(n, age), Turned(OldFailures(n, age), i);
      Graded(after, DEFAULT_WEIGHTS).score < Graded(before, DEFAULT_WEIGHTS).score <==> n >= 7
  {
    OldFailuresKnown(n, age);
    OldFailuresCost(n, age);
    AllButOneFailed(n);
    OldSuccessCosts(age);
    OldFailureTurned(n, age, i, DEFAULT_WEIGHTS);
    TurningLowersTheScore(OldFailures(n, age), DEFAULT_WEIGHTS, i);
    assert Ceiling(DEFAULT_WEIGHTS, ProofData) == 100;
  }
}
