// What the recorder's write order guarantees: crash consistency, and a history
// that can find the temporary workload before it exists. The engine's log and
// the recorder's writes are read here as one trace.
module History {
  import opened Core
  import opened Trace
  import opened Plans
  import opened World
  import opened Engine
  import opened Names
  import opened Journal

  // ------------------------------------------------ what is stored

  /** One run as the database holds it after some prefix of the writes. */
  datatype Stored = Stored(
    state: Option<RunState>,
    tempId: string,
    steps: map<nat, Step>,
    checks: map<nat, CheckResult>,
    values: map<(nat, string), Num>,
    events: map<nat, Event>)
  {
    predicate Terminal() { state.Some? && state.value.Terminal() }

    function Apply(w: Write): Stored {
      match w
      case CreateRun(_, s) => if state.Some? then this else this.(state := Some(s))
      case SetTempWorkload(_, t, _) => this.(tempId := t)
      case AppendEvent(_, n, ev) => if n in events then this else this.(events := events[n := ev])
      case SaveStep(_, i, step) => this.(steps := steps[i := step])
      case SaveCheck(_, i, check) => this.(checks := checks[i := check])
      case SaveCheckValue(_, i, name, v) => this.(values := values[(i, name) := v])
      case UpdateRun(_, s, _) => this.(state := Some(s))
    }
  }

  const NOTHING := Stored(None, "", map[], map[], map[], map[])

  function Replay(db: Stored, ws: seq<Write>): Stored {
    if ws == [] then db else Replay(db, ws[..|ws| - 1]).Apply(ws[|ws| - 1])
  }

  lemma OneReplayed(db: Stored, w: Write)
    ensures Replay(db, [w]) == db.Apply(w)
  {
    assert [w][..0] == [] && Replay(db, []) == db;
  }

  lemma ReplayNext(db: Stored, ws: seq<Write>, w: Write)
    ensures Replay(db, ws + [w]) == Replay(db, ws).Apply(w)
  {
    assert (ws + [w])[..|ws|] == ws;
  }

  lemma {:induction false} ReplayJoin(db: Stored, a: seq<Write>, b: seq<Write>)
    ensures Replay(db, a + b) == Replay(Replay(db, a), b)
  {
    if b == [] {
      assert a + b == a;
    } else {
      var n := |b| - 1;
      ReplayJoin(db, a, b[..n]);
      assert (a + b)[..|a + b| - 1] == a + b[..n];
    }
  }

  /** Everything the finished run holds is in the database. */
  predicate Complete(db: Stored, steps: seq<Step>, checks: seq<CheckResult>) {
    && (forall i :: 0 <= i < |steps| ==> i in db.steps && db.steps[i] == steps[i])
    && ChecksStored(db, checks)
  }

  predicate ChecksStored(db: Stored, checks: seq<CheckResult>) {
    && (forall i :: 0 <= i < |checks| ==> i in db.checks && db.checks[i] == checks[i])
    && (forall i, name :: 0 <= i < |checks| && name in checks[i].captured ==>
          (i, name) in db.values && db.values[(i, name)] == checks[i].captured[name])
  }

  /** A write that cannot by itself make a run terminal. */
  predicate Harmless(w: Write) {
    !w.UpdateRun? && (w.CreateRun? ==> !w.state.Terminal())
  }

  predicate AllHarmless(ws: seq<Write>) {
    forall i :: 0 <= i < |ws| ==> Harmless(ws[i])
  }

  lemma OneHarmless(db: Stored, w: Write)
    requires !db.Terminal() && Harmless(w)
    ensures !db.Apply(w).Terminal()
  {
  }

  lemma {:induction false} HarmlessKeepsOpen(db: Stored, ws: seq<Write>)
    requires !db.Terminal() && AllHarmless(ws)
    ensures !Replay(db, ws).Terminal()
  {
    if ws != [] {
      var n := |ws| - 1;
      HarmlessKeepsOpen(db, ws[..n]);
      OneHarmless(Replay(db, ws[..n]), ws[n]);
    }
  }

  lemma {:induction false} StepWritesSaveSteps(id: string, steps: seq<Step>)
    ensures forall i :: 0 <= i < |StepWrites(id, steps)| ==> StepWrites(id, steps)[i].SaveStep?
  {
    if steps != [] {
      StepWritesSaveSteps(id, steps[..|steps| - 1]);
    }
  }

  lemma {:induction false} StepsLand(db: Stored, id: string, steps: seq<Step>)
    ensures forall i :: 0 <= i < |steps| ==>
              i in Replay(db, StepWrites(id, steps)).steps && Replay(db, StepWrites(id, steps)).steps[i] == steps[i]
  {
    if steps != [] {
      var n := |steps| - 1;
      StepsLand(db, id, steps[..n]);
      var before := StepWrites(id, steps[..n]);
      assert (before + [SaveStep(id, n, steps[n])])[..|before|] == before;
      var r := Replay(db, StepWrites(id, steps));
      assert r == Replay(db, before).Apply(SaveStep(id, n, steps[n]));
      assert forall i :: 0 <= i < n ==> steps[..n][i] == steps[i];
    }
  }

  /** The values of every other check are what they were. */
  ghost predicate OthersKept(db: Stored, r: Stored, i: nat) {
    forall k, n :: k != i && (k, n) in db.values ==> (k, n) in r.values && r.values[(k, n)] == db.values[(k, n)]
  }

  predicate RowHolds(r: Stored, i: nat, values: map<string, Num>) {
    forall n :: n in values ==> (i, n) in r.values && r.values[(i, n)] == values[n]
  }

  lemma {:induction false} ValuesLand(db: Stored, id: string, i: nat, names: seq<string>, values: map<string, Num>)
    requires forall n :: n in names ==> n in values
    ensures var r := Replay(db, ValueWrites(id, i, names, values));
      && (forall n :: n in names ==> (i, n) in r.values && r.values[(i, n)] == values[n])
      && OthersKept(db, r, i) && r.steps == db.steps && r.checks == db.checks && r.state == db.state
  {
    if names != [] {
      var n := |names| - 1;
      ValuesLand(db, id, i, names[..n], values);
      var before := ValueWrites(id, i, names[..n], values);
      ReplayNext(db, before, SaveCheckValue(id, i, names[n], values[names[n]]));
    }
  }

  lemma {:induction false} ValueWritesAreHarmless(id: string, i: nat, names: seq<string>, values: map<string, Num>)
    requires forall n :: n in names ==> n in values
    ensures forall w :: w in ValueWrites(id, i, names, values) ==> Harmless(w)
  {
    if names != [] {
      ValueWritesAreHarmless(id, i, names[..|names| - 1], values);
    }
  }

  lemma OneCheckLands(db: Stored, id: string, i: nat, check: CheckResult)
    ensures var r := Replay(db, OneCheck(id, i, check));
      && r.checks == db.checks[i := check] && r.steps == db.steps && r.state == db.state
      && RowHolds(r, i, check.captured) && OthersKept(db, r, i)
    ensures forall w :: w in OneCheck(id, i, check) ==> Harmless(w)
  {
    var names := InOrder(check.captured.Keys);
    var head := SaveCheck(id, i, check);
    ReplayJoin(db, [head], ValueWrites(id, i, names, check.captured));
    OneReplayed(db, head);
    ValuesLand(db.Apply(head), id, i, names, check.captured);
    ValueWritesAreHarmless(id, i, names, check.captured);
  }

  lemma OneMoreStored(db: Stored, r: Stored, checks: seq<CheckResult>, n: nat)
    requires n + 1 == |checks| && ChecksStored(db, checks[..n])
    requires r.checks == db.checks[n := checks[n]]
    requires RowHolds(r, n, checks[n].captured) && OthersKept(db, r, n)
    ensures ChecksStored(r, checks)
  {
    var init := checks[..n];
    forall i, name | 0 <= i < |checks| && name in checks[i].captured
      ensures (i, name) in r.values && r.values[(i, name)] == checks[i].captured[name]
    {
      if i < n {
        assert init[i] == checks[i];
      }
    }
    forall i | 0 <= i < |checks| ensures i in r.checks && r.checks[i] == checks[i] {
      if i < n {
        assert init[i] == checks[i];
      }
    }
  }

  lemma {:induction false} ChecksLand(db: Stored, id: string, checks: seq<CheckResult>)
    ensures ChecksStored(Replay(db, CheckWrites(id, checks)), checks)
    ensures Replay(db, CheckWrites(id, checks)).steps == db.steps
    ensures forall w :: w in CheckWrites(id, checks) ==> Harmless(w)
  {
    if checks != [] {
      var n := |checks| - 1;
      var before := CheckWrites(id, checks[..n]);
      ChecksLand(db, id, checks[..n]);
      ReplayJoin(db, before, OneCheck(id, n, checks[n]));
      OneCheckLands(Replay(db, before), id, n, checks[n]);
      OneMoreStored(Replay(db, before), Replay(Replay(db, before), OneCheck(id, n, checks[n])), checks, n);
      assert CheckWrites(id, checks) == before + OneCheck(id, n, checks[n]);
    }
  }

  /** Theorem: on a run whose row is already there and not terminal, whatever
      prefix of the final writes a crash leaves behind, a terminal state in the
      database means the whole timeline is there with it. */
  lemma CrashConsistent(
    db: Stored, id: string, steps: seq<Step>, checks: seq<CheckResult>, state: RunState, result: RunResult, k: nat)
    requires !db.Terminal() && k <= |FinalWrites(id, steps, checks, state, result)|
    ensures var left := Replay(db, FinalWrites(id, steps, checks, state, result)[..k]);
            left.Terminal() ==> Complete(left, steps, checks) && left.state == Some(state)
  {
    var ws := FinalWrites(id, steps, checks, state, result);
    if k < |ws| {
      TimelineIsHarmless(id, steps, checks);
      var timeline := StepWrites(id, steps) + CheckWrites(id, checks);
      assert ws[..k] == timeline[..k];
      PrefixKeepsOpen(db, timeline, k);
    } else {
      assert ws[..k] == ws;
      TimelineLands(db, id, steps, checks);
      OutcomeLands(db, StepWrites(id, steps) + CheckWrites(id, checks), id, steps, checks, state, result);
    }
  }

  lemma OutcomeLands(
    db: Stored, timeline: seq<Write>, id: string, steps: seq<Step>, checks: seq<CheckResult>,
    state: RunState, result: RunResult)
    requires Complete(Replay(db, timeline), steps, checks)
    ensures var left := Replay(db, timeline + [UpdateRun(id, state, result)]);
            Complete(left, steps, checks) && left.state == Some(state)
  {
    assert (timeline + [UpdateRun(id, state, result)])[..|timeline|] == timeline;
  }

  lemma PrefixKeepsOpen(db: Stored, ws: seq<Write>, k: nat)
    requires !db.Terminal() && k <= |ws| && AllHarmless(ws)
    ensures !Replay(db, ws[..k]).Terminal()
  {
    HarmlessKeepsOpen(db, ws[..k]);
  }

  lemma TimelineIsHarmless(id: string, steps: seq<Step>, checks: seq<CheckResult>)
    ensures AllHarmless(StepWrites(id, steps) + CheckWrites(id, checks))
  {
    StepWritesSaveSteps(id, steps);
    ChecksLand(NOTHING, id, checks);
    var first, second := StepWrites(id, steps), CheckWrites(id, checks);
    forall i | 0 <= i < |first + second| ensures Harmless((first + second)[i]) {
      if i >= |first| { assert second[i - |first|] in second; }
    }
  }

  lemma TimelineLands(db: Stored, id: string, steps: seq<Step>, checks: seq<CheckResult>)
    ensures Complete(Replay(db, StepWrites(id, steps) + CheckWrites(id, checks)), steps, checks)
  {
    StepsLand(db, id, steps);
    ChecksLand(Replay(db, StepWrites(id, steps)), id, checks);
    ReplayJoin(db, StepWrites(id, steps), CheckWrites(id, checks));
  }

  /** What a crash after k of these writes leaves behind is not yet terminal,
      or complete. */
  ghost predicate CutIsConsistent(
    db: Stored, writes: seq<Write>, steps: seq<Step>, checks: seq<CheckResult>, state: RunState, k: nat)
    requires k <= |writes|
  {
    var left := Replay(db, writes[..k]);
    left.Terminal() ==> Complete(left, steps, checks) && left.state == Some(state)
  }

  ghost predicate AlwaysConsistent(
    db: Stored, writes: seq<Write>, steps: seq<Step>, checks: seq<CheckResult>, state: RunState)
  {
    forall k :: 0 <= k <= |writes| ==> CutIsConsistent(db, writes, steps, checks, state, k)
  }

  /** Right after its row was created terminal, nothing else is stored. */
  lemma CreatedTerminal(id: string, state: RunState, result: RunResult, steps: seq<Step>, checks: seq<CheckResult>)
    requires state.Terminal()
    ensures var writes := Closing("", id, steps, checks, state, result);
      1 <= |writes| && (CutIsConsistent(NOTHING, writes, steps, checks, state, 1) <==> steps == [] && checks == [])
  {
    var writes := Closing("", id, steps, checks, state, result);
    OneReplayed(NOTHING, CreateRun(id, state));
    assert writes[..1] == [CreateRun(id, state)];
    NothingIsThere(NOTHING.(state := Some(state)), steps, checks);
  }

  lemma NothingIsThere(left: Stored, steps: seq<Step>, checks: seq<CheckResult>)
    requires left.steps == map[] && left.checks == map[]
    ensures Complete(left, steps, checks) <==> steps == [] && checks == []
  {
    if steps != [] {
      assert 0 !in left.steps;
    } else if checks != [] {
      assert 0 !in left.checks;
    }
  }

  /** With no timeline to lose, the two writes of such a run are both safe. */
  lemma NothingToLose(id: string, state: RunState, result: RunResult, k: nat)
    requires state.Terminal() && k <= |Closing("", id, [], [], state, result)|
    ensures CutIsConsistent(NOTHING, Closing("", id, [], [], state, result), [], [], state, k)
  {
    var create, update := CreateRun(id, state), UpdateRun(id, state, result);
    var writes := Closing("", id, [], [], state, result);
    OneReplayed(NOTHING, create);
    assert writes == [create, update] && [create, update][..1] == [create];
    if k == 2 {
      assert writes[..k] == [create, update];
    } else if k == 1 {
      assert writes[..k] == [create];
    } else {
      assert writes[..k] == [];
    }
  }

  /** Theorem: a run nobody was told about is created in its last state, and
      that is crash consistent exactly when it has no timeline at all. */
  lemma UnannouncedRunHasNoTimeline(
    id: string, steps: seq<Step>, checks: seq<CheckResult>, state: RunState, result: RunResult)
    requires state.Terminal()
    ensures AlwaysConsistent(NOTHING, Closing("", id, steps, checks, state, result), steps, checks, state)
            <==> steps == [] && checks == []
  {
    CreatedTerminal(id, state, result, steps, checks);
    if steps == [] && checks == [] {
      forall k | 0 <= k <= |Closing("", id, [], [], state, result)|
        ensures CutIsConsistent(NOTHING, Closing("", id, [], [], state, result), [], [], state, k)
      {
        NothingToLose(id, state, result, k);
      }
    }
  }

  // ------------------------------------------------ engine and recorder

  datatype Deed = Did(c: Call) | Wrote(w: Write)

  function Wrotes(ws: seq<Write>): (ds: seq<Deed>)
    ensures |ds| == |ws| && forall i :: 0 <= i < |ws| ==> ds[i] == Wrote(ws[i])
  {
    seq(|ws|, i requires 0 <= i < |ws| => Wrote(ws[i]))
  }

  function DeskAfter(d: Desk, runId: string, log: seq<Action>): Desk {
    if log == [] then d
    else
      var last := log[|log| - 1];
      var before := DeskAfter(d, runId, log[..|log| - 1]);
      if last.Emitted? then After(before, runId, last.ev) else before
  }

  /** Provider calls and history writes in the order they happen, when every
      event of the engine goes to the recorder. */
  function Combined(d: Desk, runId: string, log: seq<Action>): seq<Deed> {
    if log == [] then []
    else
      var last := log[|log| - 1];
      Combined(d, runId, log[..|log| - 1])
      + (if last.Called? then [Did(last.c)]
         else Wrotes(Written(DeskAfter(d, runId, log[..|log| - 1]), runId, last.ev)))
  }

  /** What a stretch of the combined trace wrote: its check rows, the numbers
      of its events, and the workloads it named. */
  datatype Summary = Summary(rows: seq<(nat, CheckResult)>, numbers: seq<nat>, named: seq<string>) {
    function Add(w: Write): Summary {
      match w
      case SaveCheck(_, i, check) => this.(rows := rows + [(i, check)])
      case AppendEvent(_, n, _) => this.(numbers := numbers + [n])
      case SetTempWorkload(_, t, _) => this.(named := named + [t])
      case _ => this
    }

    function AddAll(ws: seq<Write>): Summary {
      if ws == [] then this else AddAll(ws[..|ws| - 1]).Add(ws[|ws| - 1])
    }
  }

  function Summarize(ds: seq<Deed>): Summary {
    if ds == [] then Summary([], [], [])
    else
      var last := ds[|ds| - 1];
      if last.Did? then Summarize(ds[..|ds| - 1]) else Summarize(ds[..|ds| - 1]).Add(last.w)
  }

  lemma {:induction false} SummarizeWrites(ds: seq<Deed>, ws: seq<Write>)
    ensures Summarize(ds + Wrotes(ws)) == Summarize(ds).AddAll(ws)
  {
    if ws == [] {
      assert ds + Wrotes(ws) == ds;
    } else {
      var n := |ws| - 1;
      SummarizeWrites(ds, ws[..n]);
      assert (ds + Wrotes(ws))[..|ds| + n] == ds + Wrotes(ws[..n]);
    }
  }

  lemma SummarizeCall(ds: seq<Deed>, c: Call)
    ensures Summarize(ds + [Did(c)]) == Summarize(ds)
  {
    assert (ds + [Did(c)])[..|ds|] == ds;
  }

  lemma {:induction false} AddAllJoin(s: Summary, a: seq<Write>, b: seq<Write>)
    ensures s.AddAll(a + b) == s.AddAll(a).AddAll(b)
  {
    if b == [] {
      assert a + b == a;
    } else {
      var n := |b| - 1;
      AddAllJoin(s, a, b[..n]);
      assert (a + b)[..|a + b| - 1] == a + b[..n];
    }
  }

  lemma AddOne(s: Summary, w: Write)
    ensures s.AddAll([w]) == s.Add(w)
  {
    assert [w][..0] == [];
  }

  lemma AddOpening(s: Summary, d: Desk, id: string, e: Event)
    ensures s.AddAll(Opening(d, id, e))
         == s.(named := s.named + if e.tempId != "" && d.tempId == "" then [e.tempId] else [])
  {
    var first := if d.runId == "" then [CreateRun(id, e.state)] else [];
    var second := if e.tempId != "" && d.tempId == "" then [SetTempWorkload(id, e.tempId, e.node)] else [];
    AddAllJoin(s, first, second);
    AddOne(s, CreateRun(id, e.state));
    AddOne(s, SetTempWorkload(id, e.tempId, e.node));
  }

  lemma AddLine(s: Summary, d: Desk, id: string, e: Event)
    ensures s.AddAll(Line(d, id, e))
         == s.(numbers := s.numbers + [d.eventSeq + 1],
               rows := s.rows + if e.check.Some? then [(d.checkSeq, e.check.value)] else [])
  {
    var first := AppendEvent(id, d.eventSeq + 1, e);
    AddOne(s, first);
    if e.check.Some? {
      var second := SaveCheck(id, d.checkSeq, e.check.value);
      AddAllJoin(s, [first], [second]);
      AddOne(s.Add(first), second);
    } else {
      assert Line(d, id, e) == [first];
    }
  }

  /** One event's share of the summary. */
  lemma SummarizeEvent(ds: seq<Deed>, d: Desk, runId: string, e: Event)
    requires d.runId != "" || runId != ""
    ensures var s, t := Summarize(ds), Summarize(ds + Wrotes(Written(d, runId, e)));
            && t.rows == s.rows + (if e.check.Some? then [(d.checkSeq, e.check.value)] else [])
            && t.numbers == s.numbers + [d.eventSeq + 1]
            && t.named == s.named + (if e.tempId != "" && d.tempId == "" then [e.tempId] else [])
  {
    var id := if d.runId == "" then runId else d.runId;
    SummarizeWrites(ds, Written(d, runId, e));
    AddAllJoin(Summarize(ds), Opening(d, id, e), Line(d, id, e));
    AddOpening(Summarize(ds), d, id, e);
    AddLine(Summarize(ds).AddAll(Opening(d, id, e)), d, id, e);
  }

  function Numbered(checks: seq<CheckResult>): (rows: seq<(nat, CheckResult)>)
    ensures |rows| == |checks|
  {
    seq(|checks|, i requires 0 <= i < |checks| => (i, checks[i]))
  }

  function UpTo(n: nat): seq<nat> { seq(n, i => i + 1) }

  lemma NumberedGrows(checks: seq<CheckResult>, more: seq<CheckResult>)
    requires |more| <= 1
    ensures Numbered(checks + more) == Numbered(checks) + (if more == [] then [] else [(|checks|, more[0])])
  {
    assert |more| == 1 ==> (checks + more)[|checks|] == more[0];
  }

  function EventCount(log: seq<Action>): nat {
    if log == [] then 0 else EventCount(log[..|log| - 1]) + (if log[|log| - 1].Emitted? then 1 else 0)
  }

  /** A desk that is bound, or fed named events, stays able to write. */
  lemma {:induction false} StaysBound(attached: string, runId: string, log: seq<Action>)
    ensures attached != "" ==> DeskAfter(Bound(attached), runId, log).runId == attached
  {
    if log != [] {
      StaysBound(attached, runId, log[..|log| - 1]);
    }
  }

  /** The recorder's counters: how many events and check results it has seen. */
  lemma {:induction false} CountersMatchTheRun(attached: string, runId: string, log: seq<Action>)
    requires attached != "" || runId != ""
    ensures DeskAfter(Bound(attached), runId, log).checkSeq == |CheckEvents(log)|
    ensures DeskAfter(Bound(attached), runId, log).eventSeq == EventCount(log)
  {
    if log != [] {
      StaysBound(attached, runId, log[..|log| - 1]);
      CountersMatchTheRun(attached, runId, log[..|log| - 1]);
    }
  }

  lemma UpToNext(n: nat)
    ensures UpTo(n + 1) == UpTo(n) + [n + 1]
  {
  }

  /** Theorem: the check rows written while a drill runs are its check results,
      each at its own position, and its events are numbered from 1 without a
      gap. */
  lemma {:induction false} RowsMatchTheRun(attached: string, runId: string, log: seq<Action>)
    requires attached != "" || runId != ""
    ensures Summarize(Combined(Bound(attached), runId, log)).rows == Numbered(CheckEvents(log))
    ensures Summarize(Combined(Bound(attached), runId, log)).numbers == UpTo(EventCount(log))
  {
    if log != [] {
      var init, last := log[..|log| - 1], log[|log| - 1];
      RowsMatchTheRun(attached, runId, init);
      CountersMatchTheRun(attached, runId, init);
      StaysBound(attached, runId, init);
      var before := Combined(Bound(attached), runId, init);
      NumberedGrows(CheckEvents(init), CheckEvent(last));
      UpToNext(EventCount(init));
      if last.Called? {
        SummarizeCall(before, last.c);
      } else {
        SummarizeEvent(before, DeskAfter(Bound(attached), runId, init), runId, last.ev);
      }
    }
  }

  /** The history names a workload once, when the first event that carries its
      id arrives, and names no other. */
  lemma {:induction false} NamedOnce(r: Rules, attached: string, runId: string, log: seq<Action>)
    requires !Watch(r, log).bad && (attached != "" || runId != "")
    ensures var k := Watch(r, log).known;
            && DeskAfter(Bound(attached), runId, log).tempId == (if k.named then k.TempId() else "")
            && Summarize(Combined(Bound(attached), runId, log)).named
               == (if k.named && k.TempId() != "" then [k.TempId()] else [])
  {
    if log != [] {
      var init, last := log[..|log| - 1], log[|log| - 1];
      var m := BadSticks(r, log);
      NamedOnce(r, attached, runId, init);
      StaysBound(attached, runId, init);
      MonitorIsWitnessed(r, init);
      var before := Combined(Bound(attached), runId, init);
      if last.Called? {
        NamedStays(r, m, last.c, last.a);
        SummarizeCall(before, last.c);
      } else {
        SummarizeEvent(before, DeskAfter(Bound(attached), runId, init), runId, last.ev);
      }
    }
  }

  lemma NamedStays(r: Rules, m: Monitor, c: Call, a: Answer)
    requires m.Allows(r, c) && (m.known.named ==> m.known.id.Some?)
    requires m.known.id.Some? ==> m.count.allocates > 0
    ensures m.known.Clear(r, c, a).named == m.known.named
    ensures m.known.named ==> m.known.Clear(r, c, a).id == m.known.id
  {
  }

  /** Theorem: by the time a restore is submitted the history has been told
      which workload it creates, exactly when the allocated id is not empty. */
  lemma HistoryKnowsBeforeRestore(r: Rules, attached: string, runId: string, log: seq<Action>, i: nat)
    requires !Watch(r, log).bad && (attached != "" || runId != "")
    requires i < |log| && log[i].Called? && log[i].c.Restore?
    ensures Summarize(Combined(Bound(attached), runId, log[..i])).named == [log[i].c.id] <==> log[i].c.id != ""
  {
    AllowedThroughout(r, log, i);
    NamedOnce(r, attached, runId, log[..i]);
  }

  // ------------------------------------------------ the whole run

  function Mirrored(d: Desk, runId: string, log: seq<Action>): seq<Write> {
    if log == [] then []
    else
      var last := log[|log| - 1];
      Mirrored(d, runId, log[..|log| - 1])
      + (if last.Called? then [] else Written(DeskAfter(d, runId, log[..|log| - 1]), runId, last.ev))
  }

  lemma WrittenIsHarmless(d: Desk, runId: string, e: Event)
    requires !e.state.Terminal()
    ensures AllHarmless(Written(d, runId, e))
  {
    var id := if d.runId == "" then runId else d.runId;
    HarmlessJoin(Opening(d, id, e), Line(d, id, e));
  }

  lemma HarmlessJoin(a: seq<Write>, b: seq<Write>)
    requires AllHarmless(a) && AllHarmless(b)
    ensures AllHarmless(a + b)
  {
  }

  lemma {:induction false} MirroredIsHarmless(r: Rules, d: Desk, runId: string, log: seq<Action>)
    requires !Watch(r, log).bad
    ensures AllHarmless(Mirrored(d, runId, log))
  {
    if log != [] {
      var init, last := log[..|log| - 1], log[|log| - 1];
      var m := BadSticks(r, log);
      MirroredIsHarmless(r, d, runId, init);
      if last.Emitted? {
        WrittenIsHarmless(DeskAfter(d, runId, init), runId, last.ev);
        HarmlessJoin(Mirrored(d, runId, init), Written(DeskAfter(d, runId, init), runId, last.ev));
      }
    }
  }

  /** The recorder, given every event of the engine's log and then the finished
      run, writes the mirrored events and the closing writes, and nothing else. */
  method RecordRun(rec: Recorder, run: RecoveryRun, runId: string, log: seq<Action>)
    modifies rec, rec.store
    ensures rec.store.refused >= old(rec.store.refused)
    ensures rec.store.refused == old(rec.store.refused) ==>
              rec.store.writes == old(rec.store.writes) + Mirrored(old(rec.View()), runId, log)
                                  + Closing(DeskAfter(old(rec.View()), runId, log).runId,
                                            run.id, run.steps, run.checks, run.state, run.result)
  {
    TakeEnds(log);
    for i := 0 to |log|
      invariant rec.View() == DeskAfter(old(rec.View()), runId, log[..i])
      invariant rec.store.refused >= old(rec.store.refused)
      invariant rec.store.writes == old(rec.store.writes) + Mirrored(old(rec.View()), runId, log[..i])
    {
      TakeNext(log, i);
      OneMoreAction(old(rec.View()), runId, log[..i], log[i]);
      if log[i].Emitted? {
        ghost var before := Mirrored(old(rec.View()), runId, log[..i]);
        Regrouped(old(rec.store.writes), before, Written(rec.View(), runId, log[i].ev));
        rec.Emit(runId, log[i].ev);
      }
    }
    rec.Finish(run);
  }

  lemma OneMoreAction(d: Desk, runId: string, log: seq<Action>, a: Action)
    ensures DeskAfter(d, runId, log + [a])
         == if a.Emitted? then After(DeskAfter(d, runId, log), runId, a.ev) else DeskAfter(d, runId, log)
    ensures Mirrored(d, runId, log + [a])
         == Mirrored(d, runId, log) + if a.Emitted? then Written(DeskAfter(d, runId, log), runId, a.ev) else []
  {
    assert (log + [a])[..|log|] == log;
  }

  lemma EarlyCut(
    db: Stored, early: seq<Write>, writes: seq<Write>,
    steps: seq<Step>, checks: seq<CheckResult>, state: RunState, k: nat)
    requires !db.Terminal() && AllHarmless(early)
    requires k <= |early| && k <= |writes| && writes[..k] == early[..k]
    ensures CutIsConsistent(db, writes, steps, checks, state, k)
  {
    PrefixKeepsOpen(db, early, k);
  }

  lemma LateCut(
    db: Stored, early: seq<Write>, writes: seq<Write>, runId: string,
    steps: seq<Step>, checks: seq<CheckResult>, state: RunState, result: RunResult, n: nat, k: nat)
    requires !db.Terminal() && AllHarmless(early) && n <= |FinalWrites(runId, steps, checks, state, result)|
    requires k <= |writes| && writes[..k] == early + FinalWrites(runId, steps, checks, state, result)[..n]
    ensures CutIsConsistent(db, writes, steps, checks, state, k)
  {
    HarmlessKeepsOpen(db, early);
    ReplayJoin(db, early, FinalWrites(runId, steps, checks, state, result)[..n]);
    CrashConsistent(Replay(db, early), runId, steps, checks, state, result, n);
  }

  /** Theorem: a drill whose recorder knew its run when it finished, because it
      was attached to one or because some event had been emitted, and whose
      writes were not refused (RecordRun), is crash consistent from its first
      write to its last: at every point, a terminal state in the database means
      every step, check and captured value is there too. */
  lemma WholeRunIsCrashConsistent(
    r: Rules, db: Stored, attached: string, runId: string, log: seq<Action>, id: string,
    steps: seq<Step>, checks: seq<CheckResult>, state: RunState, result: RunResult)
    requires !Watch(r, log).bad && !db.Terminal()
    requires DeskAfter(Bound(attached), runId, log).runId != ""
    ensures AlwaysConsistent(
              db, Mirrored(Bound(attached), runId, log)
                  + Closing(DeskAfter(Bound(attached), runId, log).runId, id, steps, checks, state, result),
              steps, checks, state)
  {
    MirroredIsHarmless(r, Bound(attached), runId, log);
    var early, late := Mirrored(Bound(attached), runId, log), FinalWrites(id, steps, checks, state, result);
    assert Closing(DeskAfter(Bound(attached), runId, log).runId, id, steps, checks, state, result) == late;
    forall k | 0 <= k <= |early + late| ensures CutIsConsistent(db, early + late, steps, checks, state, k) {
      TakeJoined(early, late, k);
      if k <= |early| {
        EarlyCut(db, early, early + late, steps, checks, state, k);
      } else {
        LateCut(db, early, early + late, id, steps, checks, state, result, k - |early|, k);
      }
    }
  }

  /** And it knew its run exactly when one of the two was the case. */
  lemma {:induction false} KnowsItsRun(attached: string, runId: string, log: seq<Action>)
    ensures DeskAfter(Bound(attached), runId, log).runId != "" <==>
              attached != "" || (runId != "" && Announced(log))
  {
    if log != [] {
      var k := |log| - 1;
      KnowsItsRun(attached, runId, log[..k]);
      StaysBound(attached, runId, log[..k]);
    }
  }

  /** What a recorder writes about a log that announced the drill. */
  lemma AnnouncedRunIsConsistent(
    r: Rules, m: Monitor, told: seq<CheckResult>, db: Stored, attached: string, runId: string, log: seq<Action>,
    steps: seq<Step>, checks: seq<CheckResult>, state: RunState, result: RunResult)
    requires Mirrors(r, log, m, told, true) && !m.bad && !db.Terminal() && (attached != "" || runId != "")
    ensures AlwaysConsistent(
              db, Mirrored(Bound(attached), runId, log)
                  + Closing(DeskAfter(Bound(attached), runId, log).runId, runId, steps, checks, state, result),
              steps, checks, state)
  {
    assert Watch(r, log) == m && Announced(log);
    KnowsItsRun(attached, runId, log);
    WholeRunIsCrashConsistent(r, db, attached, runId, log, runId, steps, checks, state, result);
  }

  /** Theorem: every drill of the engine, whatever the world does to it, leaves a
      history that is crash consistent from its first write to its last, unless
      a write was refused: the engine never ends a drill unannounced. */
  method RecordedDrill(engine: Engine, p: Plan, opts: RunOptions, rec: Recorder, ghost db: Stored)
    returns (run: RecoveryRun, err: RunError)
    requires engine.w.Valid() && engine.w.mon == IDLE && engine.w.told == []
    requires engine.w.rules
             == RulesOf(p, opts, engine.w.rules.validates, engine.w.rules.reports, engine.w.rules.finalizes)
    requires rec.View() == Bound(rec.runId) && (rec.runId != "" || opts.runId != "")
    requires !db.Terminal()
    modifies engine.w, rec, rec.store
    ensures rec.store.refused == old(rec.store.refused) ==>
              && old(rec.store.writes) <= rec.store.writes
              && AlwaysConsistent(db, rec.store.writes[|old(rec.store.writes)|..], run.steps, run.checks, run.state)
  {
    ghost var attached := rec.runId;
    run, err := Announce(engine, p, opts);
    AnnouncedRunIsConsistent(engine.w.rules, engine.w.mon, engine.w.told, db, attached, run.id, engine.w.log,
                             run.steps, run.checks, run.state, run.result);
    RecordRun(rec, run, run.id, engine.w.log);
    Beyond(old(rec.store.writes), Mirrored(Bound(attached), run.id, engine.w.log),
           Closing(DeskAfter(Bound(attached), run.id, engine.w.log).runId,
                   run.id, run.steps, run.checks, run.state, run.result));
  }

  lemma Beyond(a: seq<Write>, b: seq<Write>, c: seq<Write>)
    ensures a <= a + b + c && (a + b + c)[|a|..] == b + c
  {
  }

  method Announce(engine: Engine, p: Plan, opts: RunOptions) returns (run: RecoveryRun, err: RunError)
    requires engine.w.Valid() && engine.w.mon == IDLE && engine.w.told == []
    requires engine.w.rules
             == RulesOf(p, opts, engine.w.rules.validates, engine.w.rules.reports, engine.w.rules.finalizes)
    modifies engine.w
    ensures fresh(run) && run.id == opts.runId && engine.w.Valid() && engine.w.announced
  {
    ghost var came, ending, atEnd, base;
    run, err, came, ending, atEnd, base := engine.Run(p, opts);
    assert Announced(engine.w.log);
  }
}
