// The recorder mirrors a drill into the history as it happens, and writes its
// outcome last (internal/journal). Nothing it does can fail a drill: every
// write is attempted, and a refused one is only remembered.
module Journal {
  import opened Core
  import opened Trace
  import opened Engine
  import opened Names

  datatype Write =
    | CreateRun(id: string, state: RunState)
    | SetTempWorkload(id: string, tempId: string, node: string)
    | AppendEvent(id: string, n: nat, ev: Event)
    | SaveStep(id: string, i: nat, step: Step)
    | SaveCheck(id: string, i: nat, check: CheckResult)
    | SaveCheckValue(id: string, i: nat, name: string, v: Num)
    | UpdateRun(id: string, state: RunState, result: RunResult)

  /** A store that accepts or refuses each write as its script says. `writes`
      is everything attempted, in order. */
  class Store {
    const script: nat -> bool
    var writes: seq<Write>
    var refused: nat

    constructor (script: nat -> bool)
      ensures writes == [] && refused == 0 && this.script == script
    {
      this.script := script;
      writes, refused := [], 0;
    }

    method Try(w: Write) returns (ok: bool)
      modifies this
      ensures writes == old(writes) + [w] && ok == script(|old(writes)|)
      ensures refused == old(refused) + (if ok then 0 else 1)
    {
      ok := script(|writes|);
      writes := writes + [w];
      if !ok {
        refused := refused + 1;
      }
    }
  }

  // ------------------------------------------------ what is written

  /** What the recorder remembers between events. */
  datatype Desk = Desk(runId: string, tempId: string, eventSeq: nat, checkSeq: nat)

  /** A recorder that has seen no event, bound to a run (AttachTo) or, with an
      empty id, not yet. */
  function Bound(attached: string): Desk { Desk(attached, "", 0, 0) }

  /** The row exists before anything refers to it, and it names the temporary
      workload as soon as one is allocated, once. */
  function Opening(d: Desk, id: string, e: Event): seq<Write> {
    (if d.runId == "" then [CreateRun(id, e.state)] else [])
    + (if e.tempId != "" && d.tempId == "" then [SetTempWorkload(id, e.tempId, e.node)] else [])
  }

  function Line(d: Desk, id: string, e: Event): seq<Write> {
    [AppendEvent(id, d.eventSeq + 1, e)]
    + (if e.check.Some? then [SaveCheck(id, d.checkSeq, e.check.value)] else [])
  }

  function Written(d: Desk, runId: string, e: Event): seq<Write> {
    if d.runId == "" && runId == "" then []
    else
      var id := if d.runId == "" then runId else d.runId;
      Opening(d, id, e) + Line(d, id, e)
  }

  function After(d: Desk, runId: string, e: Event): Desk {
    if d.runId == "" && runId == "" then d
    else Desk(if d.runId == "" then runId else d.runId,
              if d.tempId == "" then e.tempId else d.tempId,
              d.eventSeq + 1,
              if e.check.Some? then d.checkSeq + 1 else d.checkSeq)
  }

  /** Theorem: what an event writes, and where. The row exists first, and is
      created only by a recorder that knew none; the temporary workload is named
      next, once; then the event, under the next number; then the check it
      carries, at the next row. An event of no run at all writes nothing. */
  lemma WrittenMeans(d: Desk, runId: string, e: Event)
    ensures d.runId == "" && runId == "" ==> Written(d, runId, e) == []
    ensures d.runId != "" || runId != "" ==>
      var w, id := Written(d, runId, e), if d.runId != "" then d.runId else runId;
      var created := if d.runId == "" then 1 else 0;
      var named := if e.tempId != "" && d.tempId == "" then 1 else 0;
      && |w| == created + named + (if e.check.Some? then 2 else 1)
      && (d.runId == "" ==> w[0] == CreateRun(id, e.state))
      && (e.tempId != "" && d.tempId == "" ==> w[created] == SetTempWorkload(id, e.tempId, e.node))
      && w[created + named] == AppendEvent(id, d.eventSeq + 1, e)
      && (e.check.Some? ==> w[created + named + 1] == SaveCheck(id, d.checkSeq, e.check.value))
  {
  }

  /** And what the recorder remembers of it: its run, the first workload it was
      told of, and how many events and checks it has numbered. */
  lemma RememberedMeans(d: Desk, runId: string, e: Event)
    requires d.runId != "" || runId != ""
    ensures var next := After(d, runId, e);
      && next.runId == (if d.runId != "" then d.runId else runId)
      && next.tempId == (if d.tempId != "" then d.tempId else e.tempId)
      && next.eventSeq == d.eventSeq + 1
      && next.checkSeq == d.checkSeq + (if e.check == None then 0 else 1)
  {
  }

  function StepWrites(id: string, steps: seq<Step>): seq<Write> {
    if steps == [] then []
    else
      var n := |steps| - 1;
      StepWrites(id, steps[..n]) + [SaveStep(id, n, steps[n])]
  }

  function ValueWrites(id: string, i: nat, names: seq<string>, values: map<string, Num>): seq<Write>
    requires forall n :: n in names ==> n in values
  {
    if names == [] then []
    else
      var n := |names| - 1;
      ValueWrites(id, i, names[..n], values) + [SaveCheckValue(id, i, names[n], values[names[n]])]
  }

  /** Each check at its own seq, and its values at the same one, by name. */
  function CheckWrites(id: string, checks: seq<CheckResult>): seq<Write> {
    if checks == [] then []
    else
      var n := |checks| - 1;
      CheckWrites(id, checks[..n]) + OneCheck(id, n, checks[n])
  }

  /** The timeline first, the outcome last. */
  function FinalWrites(
    id: string, steps: seq<Step>, checks: seq<CheckResult>, state: RunState, result: RunResult): seq<Write>
  {
    StepWrites(id, steps) + CheckWrites(id, checks) + [UpdateRun(id, state, result)]
  }

  /** A recorder that never learnt which run it records creates the row first. */
  function Closing(
    known: string, id: string, steps: seq<Step>, checks: seq<CheckResult>, state: RunState, result: RunResult)
    : seq<Write>
  {
    (if known == "" then [CreateRun(id, state)] else []) + FinalWrites(id, steps, checks, state, result)
  }

  lemma OneMoreValue(id: string, i: nat, names: seq<string>, j: nat, values: map<string, Num>)
    requires j < |names| && forall n :: n in names ==> n in values
    ensures ValueWrites(id, i, names[..j + 1], values)
         == ValueWrites(id, i, names[..j], values) + [SaveCheckValue(id, i, names[j], values[names[j]])]
  {
    assert names[..j + 1][..j] == names[..j];
  }

  function OneCheck(id: string, i: nat, check: CheckResult): seq<Write> {
    [SaveCheck(id, i, check)] + ValueWrites(id, i, InOrder(check.captured.Keys), check.captured)
  }

  lemma OneMoreCheck(id: string, checks: seq<CheckResult>, i: nat)
    requires i < |checks|
    ensures CheckWrites(id, checks[..i + 1]) == CheckWrites(id, checks[..i]) + OneCheck(id, i, checks[i])
  {
    assert checks[..i + 1][..i] == checks[..i];
  }

  lemma {:induction false} StepsAreWritten(id: string, steps: seq<Step>, w: Write)
    ensures w in StepWrites(id, steps) <==> w.SaveStep? && w.id == id && w.i < |steps| && w.step == steps[w.i]
  {
    if steps != [] {
      StepsAreWritten(id, steps[..|steps| - 1], w);
    }
  }

  lemma {:induction false} ValuesAreWritten(
      id: string, i: nat, names: seq<string>, values: map<string, Num>, w: Write)
    requires forall n :: n in names ==> n in values
    ensures w in ValueWrites(id, i, names, values) <==>
              w.SaveCheckValue? && w.id == id && w.i == i && w.name in names && w.v == values[w.name]
  {
    if names != [] {
      var k := |names| - 1;
      ValuesAreWritten(id, i, names[..k], values, w);
      assert forall n :: n in names <==> n in names[..k] || n == names[k];
    }
  }

  lemma {:induction false} ChecksAreWritten(id: string, checks: seq<CheckResult>, w: Write)
    ensures w in CheckWrites(id, checks) <==>
              && (w.SaveCheck? || w.SaveCheckValue?) && w.id == id && w.i < |checks|
              && (w.SaveCheck? ==> w.check == checks[w.i])
              && (w.SaveCheckValue? ==> w.name in checks[w.i].captured && w.v == checks[w.i].captured[w.name])
  {
    if checks != [] {
      var n := |checks| - 1;
      ChecksAreWritten(id, checks[..n], w);
      ValuesAreWritten(id, n, InOrder(checks[n].captured.Keys), checks[n].captured, w);
    }
  }

  /** Theorem: the closing writes are the outcome, last; before it every step and
      every check at its own place and every number a check captured, and nothing
      else but the row itself, first, when nobody had made it. */
  lemma ClosingMeans(
      known: string, id: string, steps: seq<Step>, checks: seq<CheckResult>, state: RunState, result: RunResult,
      w: Write)
    ensures var all := Closing(known, id, steps, checks, state, result);
      && all != [] && all[|all| - 1] == UpdateRun(id, state, result)
      && (known == "" ==> all[0] == CreateRun(id, state))
      && (w in all <==>
            match w
            case SaveStep(r, i, step) => r == id && i < |steps| && step == steps[i]
            case SaveCheck(r, i, check) => r == id && i < |checks| && check == checks[i]
            case SaveCheckValue(r, i, name, v) =>
              r == id && i < |checks| && name in checks[i].captured && v == checks[i].captured[name]
            case UpdateRun(r, st, res) => r == id && st == state && res == result
            case CreateRun(r, st) => r == id && st == state && known == ""
            case _ => false)
  {
    StepsAreWritten(id, steps, w);
    ChecksAreWritten(id, checks, w);
  }

  // ------------------------------------------------ the recorder

  class Recorder {
    const store: Store
    var runId: string
    var tempId: string
    var eventSeq: nat
    var checkSeq: nat

    constructor (store: Store)
      ensures this.store == store && View() == Bound("")
    {
      this.store := store;
      runId, tempId, eventSeq, checkSeq := "", "", 0, 0;
    }

    function View(): Desk reads this { Desk(runId, tempId, eventSeq, checkSeq) }

    /** Binds the recorder to a run whose row already exists. */
    method AttachTo(id: string)
      modifies this`runId
      ensures View() == old(View()).(runId := id)
    {
      runId := id;
    }

    method Emit(id: string, e: Event)
      modifies this, store
      ensures View() == After(old(View()), id, e) && store.refused >= old(store.refused)
      ensures store.writes == old(store.writes) + Written(old(View()), id, e)
    {
      if runId == "" && id == "" {
        return;
      }
      ghost var before := View();
      Open(id, e);
      eventSeq := eventSeq + 1;
      var row := checkSeq;
      if e.check.Some? {
        checkSeq := checkSeq + 1;
      }
      var _ := store.Try(AppendEvent(runId, eventSeq, e));
      if e.check.Some? {
        var _ := store.Try(SaveCheck(runId, row, e.check.value));
      }
      Regrouped(old(store.writes), Opening(before, runId, e), Line(before, runId, e));
    }

    method Open(id: string, e: Event)
      requires runId != "" || id != ""
      modifies this`runId, this`tempId, store
      ensures runId == (if old(runId) == "" then id else old(runId))
      ensures tempId == (if old(tempId) == "" then e.tempId else old(tempId))
      ensures store.refused >= old(store.refused)
      ensures store.writes == old(store.writes) + Opening(old(View()), runId, e)
    {
      if runId == "" {
        runId := id;
        var _ := store.Try(CreateRun(id, e.state));
      }
      if e.tempId != "" && tempId == "" {
        tempId := e.tempId;
        var _ := store.Try(SetTempWorkload(runId, e.tempId, e.node));
      }
    }

    /** Writes the timeline, then the outcome. With no refused write, exactly
        the timeline precedes the outcome; the outcome is attempted last
        whatever was refused, unless the run's row could not be created. */
    method Finish(run: RecoveryRun)
      modifies this`runId, store
      ensures store.refused >= old(store.refused)
      ensures store.refused == old(store.refused) ==>
                store.writes == old(store.writes)
                                + Closing(old(runId), run.id, run.steps, run.checks, run.state, run.result)
      ensures old(runId) != "" ==>
                store.writes != []
                && store.writes[|store.writes| - 1] == UpdateRun(run.id, run.state, run.result)
    {
      if runId == "" {
        var created := store.Try(CreateRun(run.id, run.state));
        if !created {
          return;
        }
        runId := run.id;
      }
      SaveAll(run);
      Regrouped(old(store.writes), if old(runId) == "" then [CreateRun(run.id, run.state)] else [],
              FinalWrites(run.id, run.steps, run.checks, run.state, run.result));
    }

    method SaveAll(run: RecoveryRun)
      modifies store
      ensures store.refused >= old(store.refused)
      ensures store.refused == old(store.refused) ==>
                store.writes == old(store.writes) + FinalWrites(run.id, run.steps, run.checks, run.state, run.result)
      ensures store.writes != [] && store.writes[|store.writes| - 1] == UpdateRun(run.id, run.state, run.result)
    {
      SaveSteps(run);
      SaveChecks(run);
      var _ := store.Try(UpdateRun(run.id, run.state, run.result));
      Regrouped(old(store.writes), StepWrites(run.id, run.steps), CheckWrites(run.id, run.checks));
      Regrouped(old(store.writes), StepWrites(run.id, run.steps) + CheckWrites(run.id, run.checks),
              [UpdateRun(run.id, run.state, run.result)]);
    }

    method SaveSteps(run: RecoveryRun)
      modifies store
      ensures store.refused >= old(store.refused)
      ensures store.refused == old(store.refused) ==>
                store.writes == old(store.writes) + StepWrites(run.id, run.steps)
    {
      for i := 0 to |run.steps|
        invariant store.refused == old(store.refused)
        invariant store.writes == old(store.writes) + StepWrites(run.id, run.steps[..i])
      {
        assert run.steps[..i + 1][..i] == run.steps[..i];
        var ok := store.Try(SaveStep(run.id, i, run.steps[i]));
        if !ok {
          return;
        }
      }
      assert run.steps[..|run.steps|] == run.steps;
    }

    method SaveChecks(run: RecoveryRun)
      modifies store
      ensures store.refused >= old(store.refused)
      ensures store.refused == old(store.refused) ==>
                store.writes == old(store.writes) + CheckWrites(run.id, run.checks)
    {
      var valuesFailed := false;
      for i := 0 to |run.checks|
        invariant store.refused >= old(store.refused) + (if valuesFailed then 1 else 0)
        invariant !valuesFailed ==> store.refused == old(store.refused)
        invariant !valuesFailed ==>
                    store.writes == old(store.writes) + CheckWrites(run.id, run.checks[..i])
      {
        OneMoreCheck(run.id, run.checks, i);
        Regrouped(old(store.writes), CheckWrites(run.id, run.checks[..i]), OneCheck(run.id, i, run.checks[i]));
        var ok;
        ok, valuesFailed := SaveOne(run, i, valuesFailed);
        if !ok {
          return;
        }
      }
      assert run.checks[..|run.checks|] == run.checks;
    }

    /** One check and, unless values have been refused before, its values. */
    method SaveOne(run: RecoveryRun, i: nat, valuesFailed: bool) returns (ok: bool, failed: bool)
      requires i < |run.checks|
      modifies store
      ensures store.refused >= old(store.refused)
      ensures !ok || (failed && !valuesFailed) ==> store.refused > old(store.refused)
      ensures valuesFailed ==> failed
      ensures ok && !failed ==> store.refused == old(store.refused)
                                && store.writes == old(store.writes) + OneCheck(run.id, i, run.checks[i])
    {
      ok := store.Try(SaveCheck(run.id, i, run.checks[i]));
      failed := valuesFailed;
      if ok && !valuesFailed {
        Regrouped(old(store.writes), [SaveCheck(run.id, i, run.checks[i])],
                ValueWrites(run.id, i, InOrder(run.checks[i].captured.Keys), run.checks[i].captured));
        failed := SaveValues(run, i);
      }
    }

    /** Stops at the first refusal. */
    method SaveValues(run: RecoveryRun, i: nat) returns (failed: bool)
      requires i < |run.checks|
      modifies store
      ensures store.refused == old(store.refused) + (if failed then 1 else 0)
      ensures !failed ==>
                store.writes == old(store.writes)
                  + ValueWrites(run.id, i, InOrder(run.checks[i].captured.Keys), run.checks[i].captured)
    {
      var values := run.checks[i].captured;
      var names := InOrder(values.Keys);
      for j := 0 to |names|
        invariant store.refused == old(store.refused)
        invariant store.writes == old(store.writes) + ValueWrites(run.id, i, names[..j], values)
      {
        OneMoreValue(run.id, i, names, j, values);
        Regrouped(old(store.writes), ValueWrites(run.id, i, names[..j], values),
                [SaveCheckValue(run.id, i, names[j], values[names[j]])]);
        var ok := store.Try(SaveCheckValue(run.id, i, names[j], values[names[j]]));
        if !ok {
          return true;
        }
      }
      assert names[..|names|] == names;
      return false;
    }
  }
}
