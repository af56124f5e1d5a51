// When a finished drill is worth a message, and what somebody who reads only
// the messages ends up knowing (internal/notify/story.go).
module Story {
  import opened Core

  /** What the product asserts about a workload. */
  datatype Story = Story(result: RunResult, level: ProofLevel)

  datatype Kind =
    | FirstVerdict | VerdictChanged | ProofDropped | BecameUnevaluable | EvaluableAgain | ValueCollapsed

  datatype Transition = Transition(kind: Kind, current: Story, previous: Option<Story>)

  /** One drill of a workload, as the history keeps it. */
  datatype Run = Run(state: RunState, result: RunResult, level: ProofLevel) {
    function Told(): Story { Story(result, level) }
    predicate HasVerdict() { result != NoResult }
  }

  function Decide(state: RunState, current: Story, previous: Option<Story>, previousUnevaluable: bool)
    : Option<Transition>
  {
    if !state.Terminal() then None
    else if state == RunCancelled then None
    else if state == RunInconclusive then
      if previousUnevaluable then None else Some(Transition(BecameUnevaluable, current, previous))
    else if previous.None? then Some(Transition(FirstVerdict, current, previous))
    else if current.result != previous.value.result then Some(Transition(VerdictChanged, current, previous))
    else if previousUnevaluable then Some(Transition(EvaluableAgain, current, previous))
    else if current.level.Recorded() && previous.value.level.Recorded()
            && current.level.Rank() < previous.value.level.Rank() then
      Some(Transition(ProofDropped, current, previous))
    else None
  }

  // ------------------------------------------------ the store's two questions

  /** The newest drill that reached a verdict; verdict-less ones are skipped. */
  function Previous(h: seq<Run>): Option<Story> {
    if h == [] then None
    else if h[|h| - 1].HasVerdict() then Some(h[|h| - 1].Told())
    else Previous(h[..|h| - 1])
  }

  /** Whether the drill just before reached none, whatever came earlier. */
  predicate JustUnevaluable(h: seq<Run>) {
    h != [] && h[|h| - 1].state == RunInconclusive
  }

  function Message(h: seq<Run>, r: Run): Option<Transition> {
    Decide(r.state, r.Told(), Previous(h), JustUnevaluable(h))
  }

  // ------------------------------------------------ which kind of news

  /** The newest drill of a history that reached a verdict. */
  predicate NewestVerdict(h: seq<Run>, i: int) {
    && 0 <= i < |h| && h[i].result != NoResult
    && forall j :: i < j < |h| ==> h[j].result == NoResult
  }

  lemma {:induction false} PreviousIsNewest(h: seq<Run>)
    ensures Previous(h).None? <==> forall i :: 0 <= i < |h| ==> h[i].result == NoResult
    ensures forall i :: NewestVerdict(h, i) ==> Previous(h) == Some(Story(h[i].result, h[i].level))
    ensures Previous(h).Some? ==> exists i :: NewestVerdict(h, i)
  {
    if h != [] {
      var k := |h| - 1;
      PreviousIsNewest(h[..k]);
      if h[k].result != NoResult {
        assert NewestVerdict(h, k);
      } else {
        forall i | NewestVerdict(h, i) ensures NewestVerdict(h[..k], i) {
        }
        if Previous(h[..k]).Some? {
          var i :| NewestVerdict(h[..k], i);
          assert NewestVerdict(h, i);
        }
      }
    }
  }

  predicate Announces(h: seq<Run>, r: Run, kind: Kind) {
    Message(h, r).Some? && Message(h, r).value.kind == kind
  }

  /** Theorem: a first verdict is announced exactly when no earlier drill
      reached one, and a drill that cannot be evaluated exactly when it enters
      a block of such drills, whatever was known before. */
  lemma FirstAndUnevaluable(h: seq<Run>, r: Run)
    ensures Announces(h, r, FirstVerdict) <==>
              r.state in {RunSuccess, RunFailed, RunCleanupFailed}
              && forall i :: 0 <= i < |h| ==> h[i].result == NoResult
    ensures Announces(h, r, BecameUnevaluable) <==>
              r.state == RunInconclusive && (h == [] || h[|h| - 1].state != RunInconclusive)
  {
    PreviousIsNewest(h);
  }

  /** Theorem: against the newest earlier verdict, a different one is announced
      as changed; the same one is announced as evaluable again right after a
      drill that was not, and otherwise only as a proof that dropped, when both
      levels are recorded and the new one is the lower. */
  lemma AgainstTheNewestVerdict(h: seq<Run>, r: Run, i: int)
    requires NewestVerdict(h, i)
    ensures Announces(h, r, VerdictChanged) <==>
              r.state in {RunSuccess, RunFailed, RunCleanupFailed} && r.result != h[i].result
    ensures Announces(h, r, EvaluableAgain) <==>
              && r.state in {RunSuccess, RunFailed, RunCleanupFailed} && r.result == h[i].result
              && h[|h| - 1].state == RunInconclusive
    ensures Announces(h, r, ProofDropped) <==>
              && r.state in {RunSuccess, RunFailed, RunCleanupFailed} && r.result == h[i].result
              && h[|h| - 1].state != RunInconclusive
              && ((r.level == ProofNone && h[i].level in {ProofBoot, ProofService, ProofData})
                  || (r.level == ProofBoot && h[i].level in {ProofService, ProofData})
                  || (r.level == ProofService && h[i].level == ProofData))
    ensures Message(h, r).Some? ==>
              Message(h, r).value.current == Story(r.result, r.level)
              && Message(h, r).value.previous == Some(Story(h[i].result, h[i].level))
  {
    PreviousIsNewest(h);
  }

  /** And nothing else is ever announced: every message is of one of these
      kinds, and a cancelled or unfinished drill is not spoken about. */
  lemma NothingElseIsSaid(h: seq<Run>, r: Run)
    ensures Message(h, r).Some? ==>
              && r.state in {RunSuccess, RunFailed, RunCleanupFailed, RunInconclusive}
              && Message(h, r).value.kind != ValueCollapsed
              && (Message(h, r).value.kind != FirstVerdict && Message(h, r).value.kind != BecameUnevaluable ==>
                    exists i :: NewestVerdict(h, i))
  {
    PreviousIsNewest(h);
  }

  // ------------------------------------------------ the reader

  /** What a reader of the messages holds: the last verdict and level they were
      given, and whether they were last told the workload cannot be seen. */
  datatype Belief = Belief(verdict: Option<RunResult>, level: ProofLevel, blind: bool)

  const NOTHING_YET := Belief(None, ProofUnknown, false)

  function Hearing(b: Belief, m: Option<Transition>): Belief {
    match m
    case None => b
    case Some(t) =>
      if t.kind == BecameUnevaluable then b.(blind := true)
      else Belief(Some(t.current.result), t.current.level, false)
  }

  function Believed(h: seq<Run>): Belief {
    if h == [] then NOTHING_YET
    else Hearing(Believed(h[..|h| - 1]), Message(h[..|h| - 1], h[|h| - 1]))
  }

  function VerdictOf(s: Option<Story>): Option<RunResult> {
    if s.Some? then Some(s.value.result) else None
  }

  /** A drill stopped or left undecided reached no verdict, as the engine
      records it; the drill has ended. */
  predicate Recorded(r: Run) {
    && r.state.Terminal()
    && (r.state == RunCancelled || r.state == RunInconclusive ==> r.result == NoResult)
  }

  /** A drill without a verdict that still reads as one: the engine leaves it
      when a stopped or undecided drill then fails its cleanup, and so does
      whoever settles a drill whose worker died. */
  predicate LostItsReason(r: Run) {
    r.result == NoResult && r.state != RunCancelled && r.state != RunInconclusive
  }

  predicate AllRecorded(h: seq<Run>) { forall r :: r in h ==> Recorded(r) }

  predicate NoneLost(h: seq<Run>) { forall r :: r in h ==> !LostItsReason(r) }

  predicate InSync(h: seq<Run>) { Believed(h).verdict == VerdictOf(Previous(h)) }

  lemma {:induction false} PreviousHasVerdict(h: seq<Run>)
    ensures Previous(h).Some? ==> Previous(h).value.result != NoResult
  {
    if h != [] { PreviousHasVerdict(h[..|h| - 1]); }
  }

  lemma {:induction false} ReaderHoldsTheVerdict(h: seq<Run>)
    requires AllRecorded(h) && NoneLost(h)
    ensures InSync(h)
  {
    if h != [] {
      ReaderHoldsTheVerdict(h[..|h| - 1]);
      assert h[|h| - 1] in h;
    }
  }

  /** Right after a drill that lost its reason the reader holds an empty
      verdict, which is nobody's. */
  lemma LostReasonMisleads(h: seq<Run>, r: Run)
    requires Recorded(r) && LostItsReason(r)
    ensures !InSync(h + [r]) && Believed(h + [r]).verdict == Some(NoResult)
  {
    assert (h + [r])[..|h|] == h;
    PreviousHasVerdict(h);
  }

  /** Theorem: a reader of the messages alone holds the verdict of the latest
      drill that reached one, after every drill of a history, exactly when no
      drill without a verdict is recorded as anything but cancelled or
      inconclusive. */
  lemma MessagesAreEnough(h: seq<Run>)
    requires AllRecorded(h)
    ensures (forall n :: 0 <= n <= |h| ==> InSync(h[..n])) <==> NoneLost(h)
  {
    if NoneLost(h) {
      forall n | 0 <= n <= |h| ensures InSync(h[..n]) {
        ReaderHoldsTheVerdict(h[..n]);
      }
    } else {
      var i :| 0 <= i < |h| && LostItsReason(h[i]);
      LostReasonMisleads(h[..i], h[i]);
      assert h[..i + 1] == h[..i] + [h[i]];
    }
  }

  // ------------------------------------------------ the level

  /** The drill whose verdict the reader was last given. */
  function LastTold(h: seq<Run>): Option<Run> {
    if h == [] then None
    else
      var init, r := h[..|h| - 1], h[|h| - 1];
      if r.state != RunInconclusive && Message(init, r).Some? then Some(r) else LastTold(init)
  }

  lemma {:induction false} BelievedIsLastTold(h: seq<Run>)
    ensures Believed(h).verdict == VerdictOf(if LastTold(h).Some? then Some(LastTold(h).value.Told()) else None)
    ensures Believed(h).level == if LastTold(h).Some? then LastTold(h).value.level else ProofUnknown
  {
    if h != [] {
      BelievedIsLastTold(h[..|h| - 1]);
    }
  }

  /** A drill that did not record its level repeats the verdict of the drill
      before it, right after one that could be seen, although the drill the
      reader was last told about had recorded its level. */
  predicate Forgets(h: seq<Run>, i: nat)
    requires i < |h|
  {
    var before := h[..i];
    && h[i].HasVerdict() && !h[i].level.Recorded()
    && VerdictOf(Previous(before)) == Some(h[i].result) && !JustUnevaluable(before)
    && LastTold(before).Some? && LastTold(before).value.level.Recorded()
  }

  /** The level the reader believes is not above the real one. */
  predicate Modest(h: seq<Run>) {
    Previous(h).Some? ==> Believed(h).level.Rank() <= Previous(h).value.level.Rank()
  }

  /** One more drill keeps the belief modest unless it forgets its level. */
  lemma ModestStep(h: seq<Run>, r: Run)
    requires Recorded(r) && !LostItsReason(r) && InSync(h) && Modest(h)
    ensures Modest(h + [r]) <==> !Forgets(h + [r], |h|)
  {
    var next := h + [r];
    assert next[..|h|] == h;
    BelievedIsLastTold(h);
    PreviousHasVerdict(h);
  }

  /** Theorem: the level the reader believes is never above the real one, after
      any drill of a history, exactly when no drill forgets to record its level
      while repeating, in silence, a verdict told with a recorded one. */
  lemma NeverOverstated(h: seq<Run>)
    requires AllRecorded(h) && NoneLost(h)
    ensures (forall n :: 0 <= n <= |h| ==> Modest(h[..n])) <==> (forall i :: 0 <= i < |h| ==> !Forgets(h, i))
  {
    if forall i :: 0 <= i < |h| ==> !Forgets(h, i) {
      forall n | 0 <= n <= |h| ensures Modest(h[..n]) {
        StaysModest(h, n);
      }
    } else {
      var i :| 0 <= i < |h| && Forgets(h, i);
      if Modest(h[..i]) {
        ForgetsAt(h, i);
        assert !Modest(h[..i + 1]);
      }
    }
  }

  lemma ForgetsAt(h: seq<Run>, i: nat)
    requires AllRecorded(h) && NoneLost(h) && i < |h| && Modest(h[..i])
    ensures Modest(h[..i + 1]) <==> !Forgets(h, i)
  {
    assert h[..i + 1] == h[..i] + [h[i]];
    assert (h[..i] + [h[i]])[..i] == h[..i];
    assert h[i] in h;
    ReaderHoldsTheVerdict(h[..i]);
    ModestStep(h[..i], h[i]);
  }

  lemma {:induction false} StaysModest(h: seq<Run>, n: nat)
    requires AllRecorded(h) && NoneLost(h) && n <= |h|
    requires forall i :: 0 <= i < |h| ==> !Forgets(h, i)
    ensures Modest(h[..n])
  {
    if n > 0 {
      StaysModest(h, n - 1);
      ForgetsAt(h, n - 1);
    }
  }

  /** So recorded levels are enough. */
  lemma RecordedLevelsAreNeverOverstated(h: seq<Run>)
    requires AllRecorded(h) && NoneLost(h) && forall r :: r in h ==> r.level.Recorded()
    ensures forall n :: 0 <= n <= |h| ==> Modest(h[..n])
  {
    forall i | 0 <= i < |h| ensures !Forgets(h, i) {
      assert h[i] in h;
    }
    NeverOverstated(h);
  }

  // ------------------------------------------------ not being able to see

  /** Whether the drill at i is spoken about. */
  predicate Said(h: seq<Run>, i: nat)
    requires i < |h|
  {
    Message(h[..i], h[i]).Some?
  }

  function Messages(h: seq<Run>, from: nat, end: nat): nat
    requires from <= end <= |h|
  {
    if from == end then 0 else Messages(h, from, end - 1) + if Said(h, end - 1) then 1 else 0
  }

  /** Drills from..end were all inconclusive, and the one before was not. */
  predicate Block(h: seq<Run>, from: nat, end: nat) {
    && from < end <= |h|
    && (from == 0 || h[from - 1].state != RunInconclusive)
    && forall i :: from <= i < end ==> h[i].state == RunInconclusive
  }

  /** Theorem: consecutive drills that could not be evaluated are one
      situation, told once, however many they are. */
  lemma {:induction false} OneMessagePerBlock(h: seq<Run>, from: nat, end: nat)
    requires Block(h, from, end)
    ensures Messages(h, from, end) == 1 && Said(h, from)
    decreases end
  {
    if end == from + 1 {
      assert Messages(h, from, from) == 0;
      assert from > 0 ==> h[..from][from - 1] == h[from - 1];
    } else {
      OneMessagePerBlock(h, from, end - 1);
      assert h[..end - 1][end - 2] == h[end - 2];
    }
  }

  /** Theorem: the reader knows whether the last drill could be evaluated, after
      every drill of a history, exactly when no drill was cancelled right after
      one that could not be. */
  lemma ReaderKnowsWhetherSeen(h: seq<Run>)
    requires AllRecorded(h)
    ensures (forall n :: 0 <= n <= |h| ==> (Believed(h[..n]).blind <==> JustUnevaluable(h[..n])))
      <==> (forall i :: 0 < i < |h| ==> !(h[i - 1].state == RunInconclusive && h[i].state == RunCancelled))
  {
    if forall i :: 0 < i < |h| ==> !(h[i - 1].state == RunInconclusive && h[i].state == RunCancelled) {
      forall n | 0 <= n <= |h| ensures Believed(h[..n]).blind <==> JustUnevaluable(h[..n]) {
        SightIsKept(h, n);
      }
    } else {
      var i :| 0 < i < |h| && h[i - 1].state == RunInconclusive && h[i].state == RunCancelled;
      assert h[..i + 1][..i] == h[..i] && JustUnevaluable(h[..i]) && !JustUnevaluable(h[..i + 1]);
      assert Believed(h[..i + 1]) == Believed(h[..i]);
    }
  }

  lemma {:induction false} SightIsKept(h: seq<Run>, n: nat)
    requires AllRecorded(h) && n <= |h|
    requires forall i :: 0 < i < |h| ==> !(h[i - 1].state == RunInconclusive && h[i].state == RunCancelled)
    ensures Believed(h[..n]).blind <==> JustUnevaluable(h[..n])
  {
    if n > 0 {
      SightIsKept(h, n - 1);
      assert h[..n][..n - 1] == h[..n - 1] && h[n - 1] in h;
    }
  }

  /** Whether the workload could not be seen the last time anybody let a drill
      run to its end. */
  predicate OutOfSight(h: seq<Run>) {
    h != [] &&
    if h[|h| - 1].state == RunCancelled then OutOfSight(h[..|h| - 1]) else h[|h| - 1].state == RunInconclusive
  }

  /** The drill at i came back into sight behind a cancelled one, with the
      verdict the reader already holds and no fall of the level. */
  predicate HiddenReturn(h: seq<Run>, i: nat)
    requires i < |h|
  {
    var before := h[..i];
    && h[i].state != RunCancelled && h[i].state != RunInconclusive
    && OutOfSight(before) && h[i - 1].state == RunCancelled
    && VerdictOf(Previous(before)) == Some(h[i].result)
    && !(h[i].level.Recorded() && Previous(before).value.level.Recorded()
         && h[i].level.Rank() < Previous(before).value.level.Rank())
  }

  lemma SightStep(h: seq<Run>, i: nat)
    requires AllRecorded(h) && i < |h|
    requires Believed(h[..i]).blind <==> OutOfSight(h[..i])
    ensures (Believed(h[..i + 1]).blind <==> OutOfSight(h[..i + 1])) <==> !HiddenReturn(h, i)
  {
    assert h[..i + 1][..i] == h[..i] && h[i] in h;
  }

  /** Theorem: the reader knows whether the workload was in sight at the last
      drill that ran to its end exactly when no return into sight hides behind
      a cancelled drill. */
  lemma CancellationHidesTheReturn(h: seq<Run>)
    requires AllRecorded(h)
    ensures (forall n :: 0 <= n <= |h| ==> (Believed(h[..n]).blind <==> OutOfSight(h[..n])))
      <==> (forall i :: 0 <= i < |h| ==> !HiddenReturn(h, i))
  {
    if forall i :: 0 <= i < |h| ==> !HiddenReturn(h, i) {
      forall n | 0 <= n <= |h| ensures Believed(h[..n]).blind <==> OutOfSight(h[..n]) {
        SightWithoutHiding(h, n);
      }
    } else {
      var i :| 0 <= i < |h| && HiddenReturn(h, i);
      if Believed(h[..i]).blind <==> OutOfSight(h[..i]) {
        SightStep(h, i);
      }
    }
  }

  lemma {:induction false} SightWithoutHiding(h: seq<Run>, n: nat)
    requires AllRecorded(h) && n <= |h| && forall i :: 0 <= i < |h| ==> !HiddenReturn(h, i)
    ensures Believed(h[..n]).blind <==> OutOfSight(h[..n])
  {
    if n > 0 {
      SightWithoutHiding(h, n - 1);
      SightStep(h, n - 1);
    }
  }

  /** Such histories exist: a success, a drill that could not be evaluated, one
      that was cancelled, and the same success again. */
  lemma AHiddenReturn()
    ensures var h := [Run(RunSuccess, ResultSuccess, ProofData), Run(RunInconclusive, NoResult, ProofNone),
                      Run(RunCancelled, NoResult, ProofNone), Run(RunSuccess, ResultSuccess, ProofData)];
      AllRecorded(h) && NoneLost(h) && HiddenReturn(h, 3)
  {
    var a := Run(RunSuccess, ResultSuccess, ProofData);
    var b := Run(RunInconclusive, NoResult, ProofNone);
    var c := Run(RunCancelled, NoResult, ProofNone);
    assert [a, b, c, a][..3] == [a, b, c] && [a, b, c][..2] == [a, b] && [a, b][..1] == [a] && [a][..0] == [];
    assert Previous([a]) == Some(a.Told()) == Previous([a, b]);
  }

  /** And so do histories that forget: DATA, then the same verdict without a
      level. */
  lemma AForgottenLevel()
    ensures var h := [Run(RunSuccess, ResultSuccess, ProofData), Run(RunSuccess, ResultSuccess, ProofUnknown)];
      AllRecorded(h) && NoneLost(h) && Forgets(h, 1)
  {
    var a, b := Run(RunSuccess, ResultSuccess, ProofData), Run(RunSuccess, ResultSuccess, ProofUnknown);
    assert [a, b][..1] == [a] && [a][..0] == [];
    assert Previous([a]) == Some(a.Told());
  }
}
