// Where the parts meet: what the engine guarantees is what the messages rely on.
module Composition {
  import opened Core
  import Engine
  import Story

  /** The row a drill leaves in the history, from how its workflow ended and
      whether its cleanup failed. */
  function RowOf(ending: Engine.Ending, grade: RunResult, orphaned: bool, level: ProofLevel): Story.Run {
    Story.Run(if orphaned then RunCleanupFailed else ending.State(), Engine.ResultFor(ending, grade), level)
  }

  /** Every drill of the engine is recorded the way the messages assume, and
      the one exception they cannot survive is exactly a drill that was stopped
      or left undecided and whose cleanup then failed. */
  lemma EngineRunsAreRecorded(ending: Engine.Ending, grade: RunResult, orphaned: bool, level: ProofLevel)
    requires grade == ResultSuccess || grade == ResultDegraded
    ensures Story.Recorded(RowOf(ending, grade, orphaned, level))
    ensures Story.LostItsReason(RowOf(ending, grade, orphaned, level)) <==>
              orphaned && (ending.Stopped? || ending.Undecided?)
  {
  }

  /** Theorem: over any drills of the engine, a reader of the messages always
      holds the latest verdict exactly when no drill that was stopped or left
      undecided also failed its cleanup. */
  lemma ReadersOfEngineRuns(
      endings: seq<Engine.Ending>, grades: seq<RunResult>, orphaned: seq<bool>, levels: seq<ProofLevel>)
    requires |endings| == |grades| == |orphaned| == |levels|
    requires forall i :: 0 <= i < |grades| ==> grades[i] == ResultSuccess || grades[i] == ResultDegraded
    ensures var h := Rows(endings, grades, orphaned, levels);
      (forall n :: 0 <= n <= |h| ==> Story.InSync(h[..n])) <==>
        forall i :: 0 <= i < |endings| ==> !(orphaned[i] && (endings[i].Stopped? || endings[i].Undecided?))
  {
    var h := Rows(endings, grades, orphaned, levels);
    forall i | 0 <= i < |h|
      ensures Story.Recorded(h[i])
      ensures Story.LostItsReason(h[i]) <==> orphaned[i] && (endings[i].Stopped? || endings[i].Undecided?)
    {
      EngineRunsAreRecorded(endings[i], grades[i], orphaned[i], levels[i]);
    }
    assert forall i :: 0 <= i < |h| ==> h[i] in h;
    Story.MessagesAreEnough(h);
  }

  function Rows(
    endings: seq<Engine.Ending>, grades: seq<RunResult>, orphaned: seq<bool>, levels: seq<ProofLevel>)
    : (rows: seq<Story.Run>)
    requires |endings| == |grades| == |orphaned| == |levels|
    ensures |rows| == |endings|
    ensures forall i :: 0 <= i < |rows| ==> rows[i] == RowOf(endings[i], grades[i], orphaned[i], levels[i])
  {
    seq(|endings|, i requires 0 <= i < |endings| => RowOf(endings[i], grades[i], orphaned[i], levels[i]))
  }
}
