// What a drill does to the outside world, written down as it happens: every
// provider call with its answer and every progress event (internal/recovery).
//
// A Monitor reads such a log from left to right. It knows what has been
// established so far, and turns bad at the first action the safety rules do
// not allow. The engine is proved never to turn it bad; the lemmas below say
// what that means for the log itself.
module Trace {
  import opened Core

  datatype ProviderError = ProviderError(code: int, retryable: bool, unverified: bool)

  datatype Fault = NoFault | Error(e: ProviderError) | Panic

  datatype CtxErr = Alive | Canceled | DeadlineExceeded

  datatype Backup = Backup(id: string, node: string, createdAt: int)

  datatype GuestStatus = GuestStatus(running: bool, agentReady: bool, primaryIP: string)

  /** One entry of the script: how a provider call ends, what it carries, how
      long it takes, and whether the run's context ends meanwhile. Stop and
      Delete read `refused` instead of `fault`. */
  datatype Answer = Answer(
    fault: Fault,
    refused: Option<ProviderError>,
    ctx: CtxErr,
    elapsed: nat,
    name: string,
    node: string,
    backup: Option<Backup>,
    backups: seq<Backup>,
    id: string,
    freeBytes: int,
    task: Option<bool>,
    status: Option<GuestStatus>,
    results: seq<CheckResult>)

  datatype Call =
    | GetWorkload(id: string)
    | LookUpBackup
    | ValidateIsolation(node: string)
    | NodeCapacity(node: string)
    | Allocate
    | Restore(id: string, node: string, backup: Backup)
    | WaitForJob
    | FinalizeRestore(id: string, node: string)
    | Start(id: string)
    | GetStatus(id: string)
    | RunAllChecks
    | Stop(id: string)
    | Delete(id: string)

  datatype StepName =
    | DiscoverBackup | PrepareEnvironment | RestoreStep | StartStep | WaitForGuest | RunChecks | Cleanup

  datatype Event = Event(
    state: RunState, step: StepName, status: StepStatus, failed: bool,
    tempId: string, node: string, check: Option<CheckResult>)

  datatype Action = Called(c: Call, a: Answer) | Emitted(ev: Event)

  datatype Exchange = Exchange(c: Call, a: Answer)

  predicate Recalls(log: seq<Action>, last: Option<Exchange>) {
    last.Some? ==> Called(last.value.c, last.value.a) in log
  }

  function FaultOf(c: Call, a: Answer): Fault {
    if c.Stop? || c.Delete? then
      (if a.refused.Some? then Error(a.refused.value) else NoFault)
    else a.fault
  }

  /** A provider that panics, or that reports success and hands back nothing
      where the engine dereferences something. */
  predicate Derails(c: Call, a: Answer) {
    || a.fault == Panic
    || (c.LookUpBackup? && a.fault.NoFault? && a.backup.None?)
    || (c.GetStatus? && a.fault.NoFault? && a.status.None?)
  }

  /** What a drill was configured with, and what its provider can do. */
  datatype Rules = Rules(
    dryRun: bool, isolated: bool, validates: bool, reports: bool, finalizes: bool, memoryMB: int)
  {
    predicate NeedsCapacity() { reports && memoryMB > 0 }
    function NeededBytes(): int { memoryMB * 1024 * 1024 }
  }

  predicate ClearsNetwork(a: Answer) {
    a.fault.NoFault? || (a.fault.Error? && a.fault.e.unverified)
  }

  predicate ClearsCapacity(r: Rules, a: Answer) {
    a.fault.NoFault? && a.freeBytes >= r.NeededBytes()
  }

  predicate JobSucceeded(a: Answer) { a.fault.NoFault? && a.task == Some(true) }

  /** How many calls of each kind were made. */
  datatype Counts = Counts(
    allocates: nat, restores: nat, finalizes: nat, starts: nat, statusReads: nat, stops: nat, deletes: nat)
  {
    predicate NothingAfterAllocate() { restores == 0 && NothingAfterRestore() }
    predicate NothingAfterRestore() { finalizes == 0 && NothingAfterFinalize() }
    predicate NothingAfterFinalize() { starts == 0 && NothingAfterStart() }
    predicate NothingAfterStart() { stops == 0 && deletes == 0 }

    function Count(c: Call): Counts {
      match c
      case Allocate => this.(allocates := allocates + 1)
      case Restore(_, _, _) => this.(restores := restores + 1)
      case FinalizeRestore(_, _) => this.(finalizes := finalizes + 1)
      case Start(_) => this.(starts := starts + 1)
      case GetStatus(_) => this.(statusReads := statusReads + 1)
      case Stop(_) => this.(stops := stops + 1)
      case Delete(_) => this.(deletes := deletes + 1)
      case _ => this
    }
  }

  /** The node that was cleared for a restore, and the identity reserved. */
  datatype Clearance = Clearance(
    network: Option<string>, capacity: Option<string>, id: Option<string>, named: bool)
  {
    function Clear(r: Rules, c: Call, a: Answer): Clearance {
      match c
      case ValidateIsolation(node) => if ClearsNetwork(a) then this.(network := Some(node)) else this
      case NodeCapacity(node) => if ClearsCapacity(r, a) then this.(capacity := Some(node)) else this
      case Allocate => this.(id := if a.fault.NoFault? then Some(a.id) else None)
      case _ => this
    }

    predicate Owns(i: string) { id == Some(i) }

    function TempId(): string { if id.Some? then id.value else "" }

    predicate Node(r: Rules, node: string) {
      && r.isolated
      && (r.validates ==> network == Some(node))
      && (r.NeedsCapacity() ==> capacity == Some(node))
    }
  }

  /** What the provider has acknowledged. */
  datatype Progress = Progress(
    from: Option<Backup>, jobHeld: bool, jobDone: bool, hardened: bool, started: bool, lastStatus: Option<GuestStatus>,
    results: Option<seq<CheckResult>>, deleted: bool)
  {
    function Note(c: Call, a: Answer): Progress {
      match c
      case Restore(_, _, b) => this.(from := Some(b), jobHeld := a.fault.NoFault?)
      case GetStatus(_) => if a.fault.NoFault? then this.(lastStatus := a.status) else this
      case WaitForJob => this.(jobDone := jobDone || JobSucceeded(a))
      case FinalizeRestore(_, _) => this.(hardened := a.fault.NoFault?)
      case Start(_) => this.(started := started || a.fault.NoFault?)
      case RunAllChecks => if a.fault == Panic then this else this.(results := Some(a.results))
      case Delete(_) => this.(deleted := a.refused.None?)
      case _ => this
    }

    predicate Bootable(r: Rules) { jobDone && (r.finalizes ==> hardened) }
  }

  datatype Monitor = Monitor(bad: bool, known: Clearance, count: Counts, made: Progress) {

    /** The safety rules, one line per call. */
    predicate Allows(r: Rules, c: Call) {
      match c
      case Allocate =>
        && !r.dryRun && count.allocates == 0 && count.NothingAfterAllocate()
        && r.isolated && (r.validates ==> known.network.Some?) && (r.NeedsCapacity() ==> known.capacity.Some?)
      case Restore(i, node, _) =>
        && !r.dryRun && known.Owns(i) && known.named && known.Node(r, node)
        && count.restores == 0 && count.NothingAfterRestore()
      case WaitForJob => made.jobHeld
      case FinalizeRestore(i, _) =>
        !r.dryRun && known.Owns(i) && made.jobDone && count.finalizes == 0 && count.NothingAfterFinalize()
      case Start(i) =>
        !r.dryRun && known.Owns(i) && made.Bootable(r) && count.starts < 3 && count.NothingAfterStart()
      case GetStatus(i) => known.Owns(i) && made.started
      case RunAllChecks => made.Bootable(r) && made.results.None?
      case Stop(i) => !r.dryRun && known.Owns(i) && made.jobHeld && count.stops < 3 && count.deletes == 0
      case Delete(i) =>
        !r.dryRun && known.Owns(i) && made.jobHeld && count.stops > 0 && count.deletes == 0
      case _ => true
    }

    /** No event carries a terminal state, and from the allocation on (and not
        before) every event names the temporary workload. */
    predicate AllowsEvent(ev: Event) {
      !ev.state.Terminal() && ev.tempId == known.TempId()
    }

    predicate AllowsAction(r: Rules, a: Action) {
      if a.Called? then Allows(r, a.c) else AllowsEvent(a.ev)
    }

    function Record(r: Rules, a: Action): Monitor {
      match a
      case Called(c, ans) => Monitor(bad, known.Clear(r, c, ans), count.Count(c), made.Note(c, ans))
      case Emitted(ev) => Monitor(bad, known.(named := known.named || known.id.Some?), count, made)
    }

    function Observe(r: Rules, a: Action): Monitor {
      if bad || !AllowsAction(r, a) then this.(bad := true) else Record(r, a)
    }
  }

  const IDLE := Monitor(false, Clearance(None, None, None, false), Counts(0, 0, 0, 0, 0, 0, 0),
                        Progress(None, false, false, false, false, None, None, false))

  function Watch(r: Rules, log: seq<Action>): Monitor {
    if log == [] then IDLE
    else Watch(r, log[..|log| - 1]).Observe(r, log[|log| - 1])
  }

  lemma WatchAppend(r: Rules, log: seq<Action>, a: Action)
    ensures Watch(r, log + [a]) == Watch(r, log).Observe(r, a)
  {
    assert (log + [a])[..|log|] == log;
  }

  /** A log whose monitor is not bad has only unbad prefixes, and what stands
      at each position was allowed where it stands. */
  lemma {:induction false} AllowedThroughout(r: Rules, log: seq<Action>, i: nat)
    requires !Watch(r, log).bad && i < |log|
    ensures !Watch(r, log[..i]).bad
    ensures log[i].Called? ==> Watch(r, log[..i]).Allows(r, log[i].c)
    ensures log[i].Emitted? ==> Watch(r, log[..i]).AllowsEvent(log[i].ev)
  {
    var init := log[..|log| - 1];
    if i < |init| {
      AllowedThroughout(r, init, i);
      assert init[..i] == log[..i];
    }
  }

  // ------------------------------------------------ the word of mutations

  datatype Kind = KAllocate | KRestore | KFinalize | KStart | KStop | KDelete

  function Mutation(a: Action): seq<Kind> {
    if a.Emitted? then []
    else match a.c
      case Allocate => [KAllocate]
      case Restore(_, _, _) => [KRestore]
      case FinalizeRestore(_, _) => [KFinalize]
      case Start(_) => [KStart]
      case Stop(_) => [KStop]
      case Delete(_) => [KDelete]
      case _ => []
  }

  function Mutations(log: seq<Action>): seq<Kind> {
    if log == [] then [] else Mutations(log[..|log| - 1]) + Mutation(log[|log| - 1])
  }

  function Times(k: Kind, n: nat): seq<Kind> {
    if n == 0 then [] else Times(k, n - 1) + [k]
  }

  function Word(a: nat, r: nat, f: nat, s: nat, t: nat, d: nat): seq<Kind> {
    Times(KAllocate, a) + Times(KRestore, r) + Times(KFinalize, f) + Times(KStart, s)
    + Times(KStop, t) + Times(KDelete, d)
  }

  ghost predicate IsDrillWord(w: seq<Kind>) {
    exists a, r, f, s, t, d ::
      && 0 <= a <= 1 && 0 <= r <= a && 0 <= f <= r && 0 <= s <= 3 * r && 0 <= t <= 3 * r && 0 <= d <= 1
      && (d > 0 ==> t > 0)
      && w == Word(a, r, f, s, t, d)
  }

  function WordOf(n: Counts): seq<Kind> {
    Word(n.allocates, n.restores, n.finalizes, n.starts, n.stops, n.deletes)
  }

  predicate Bounded(m: Monitor) {
    var n := m.count;
    && n.allocates <= 1 && n.restores <= n.allocates && n.finalizes <= n.restores
    && n.starts <= 3 * n.restores && n.stops <= 3 * n.restores && n.deletes <= 1
    && (n.deletes > 0 ==> n.stops > 0)
    && (m.known.id.Some? ==> n.allocates > 0) && (m.made.jobHeld ==> n.restores > 0)
    && (m.made.jobDone ==> m.made.jobHeld) && (m.made.deleted ==> n.deletes > 0)
  }

  /** Growing a block appends its letter as long as the blocks after it are empty. */
  lemma GrowBlock(front: seq<Kind>, k: Kind, n: nat)
    ensures front + Times(k, n + 1) == front + Times(k, n) + [k]
  {
  }

  lemma EmptyBlock(front: seq<Kind>, k: Kind)
    ensures front + Times(k, 0) == front
  {
  }

  /** One allowed call appends its letter to the word. */
  lemma WordStep(r: Rules, m: Monitor, c: Call, ans: Answer)
    requires m.Allows(r, c)
    ensures WordOf(m.count.Count(c)) == WordOf(m.count) + Mutation(Called(c, ans))
    ensures r.dryRun ==> Mutation(Called(c, ans)) == []
  {
    var n := m.count;
    match c
    case Allocate =>
      assert WordOf(n.Count(c)) == [KAllocate] && WordOf(n) == [];
    case Restore(_, _, _) =>
      assert WordOf(n.Count(c)) == Times(KAllocate, n.allocates) + [KRestore];
    case FinalizeRestore(_, _) =>
      assert WordOf(n.Count(c)) == Times(KAllocate, n.allocates) + Times(KRestore, n.restores) + [KFinalize];
    case Start(_) =>
      var front := Times(KAllocate, n.allocates) + Times(KRestore, n.restores) + Times(KFinalize, n.finalizes);
      GrowBlock(front, KStart, n.starts);
      EmptyBlock(front + Times(KStart, n.starts), KStop);
      EmptyBlock(front + Times(KStart, n.starts), KDelete);
      EmptyBlock(front + Times(KStart, n.starts + 1), KStop);
      EmptyBlock(front + Times(KStart, n.starts + 1), KDelete);
    case Stop(_) =>
      var front := Times(KAllocate, n.allocates) + Times(KRestore, n.restores) + Times(KFinalize, n.finalizes)
        + Times(KStart, n.starts);
      GrowBlock(front, KStop, n.stops);
      EmptyBlock(front + Times(KStop, n.stops), KDelete);
      EmptyBlock(front + Times(KStop, n.stops + 1), KDelete);
    case Delete(_) =>
      var front := Times(KAllocate, n.allocates) + Times(KRestore, n.restores) + Times(KFinalize, n.finalizes)
        + Times(KStart, n.starts) + Times(KStop, n.stops);
      GrowBlock(front, KDelete, n.deletes);
    case _ =>
  }

  lemma BoundedStep(r: Rules, m: Monitor, c: Call, ans: Answer)
    requires Bounded(m) && m.Allows(r, c)
    ensures Bounded(m.Record(r, Called(c, ans)))
  {
    match c
    case Allocate =>
    case Restore(_, _, _) =>
    case FinalizeRestore(_, _) =>
    case Start(_) =>
    case Stop(_) =>
    case Delete(_) =>
    case _ =>
  }

  lemma {:induction false} MutationsFollowMonitor(r: Rules, log: seq<Action>)
    requires !Watch(r, log).bad
    ensures Mutations(log) == WordOf(Watch(r, log).count) && Bounded(Watch(r, log))
    ensures r.dryRun ==> Mutations(log) == []
  {
    if log != [] {
      var m := BadSticks(r, log);
      MutationsFollowMonitor(r, log[..|log| - 1]);
      var act := log[|log| - 1];
      if act.Called? {
        WordStep(r, m, act.c, act.a);
        BoundedStep(r, m, act.c, act.a);
      }
    }
  }

  lemma BadSticks(r: Rules, log: seq<Action>) returns (m: Monitor)
    requires log != []
    ensures m == Watch(r, log[..|log| - 1]) && Watch(r, log) == m.Observe(r, log[|log| - 1])
    ensures !Watch(r, log).bad ==> !m.bad
  {
    m := Watch(r, log[..|log| - 1]);
  }

  /** Theorem: a drill's mutating calls spell
      Allocate? Restore? Finalize? Start{0,3} Stop{0,3} Delete?, nothing after
      the allocation happens without it, and a dry run spells nothing. */
  lemma MutationWord(r: Rules, log: seq<Action>)
    requires !Watch(r, log).bad
    ensures IsDrillWord(Mutations(log))
    ensures r.dryRun ==> Mutations(log) == []
  {
    MutationsFollowMonitor(r, log);
    var n := Watch(r, log).count;
    assert Mutations(log) == Word(n.allocates, n.restores, n.finalizes, n.starts, n.stops, n.deletes);
  }

  // ------------------------------------------------ what preceded what

  ghost predicate AllocatedBefore(log: seq<Action>, i: int, id: string) {
    exists j :: 0 <= j < i < |log| + 1 && log[j].Called? && log[j].c.Allocate?
      && log[j].a.fault.NoFault? && log[j].a.id == id
  }

  ghost predicate NamedBefore(log: seq<Action>, i: int, id: string) {
    exists j :: 0 <= j < i < |log| + 1 && log[j].Emitted? && log[j].ev.tempId == id
  }

  ghost predicate ValidatedBefore(log: seq<Action>, i: int, node: string) {
    exists j :: 0 <= j < i < |log| + 1 && log[j].Called? && log[j].c == ValidateIsolation(node)
      && (log[j].a.fault.NoFault? || (log[j].a.fault.Error? && log[j].a.fault.e.unverified))
  }

  ghost predicate FitsBefore(r: Rules, log: seq<Action>, i: int, node: string) {
    exists j :: 0 <= j < i < |log| + 1 && log[j].Called? && log[j].c == NodeCapacity(node)
      && log[j].a.fault.NoFault? && log[j].a.freeBytes >= r.memoryMB * 1048576
  }

  ghost predicate RestoredBefore(log: seq<Action>, i: int, id: string) {
    exists j :: 0 <= j < i < |log| + 1 && log[j].Called? && log[j].c.Restore? && log[j].c.id == id
      && log[j].a.fault.NoFault?
  }

  ghost predicate JobDoneBefore(log: seq<Action>, i: int) {
    exists j :: 0 <= j < i < |log| + 1 && log[j].Called? && log[j].c.WaitForJob?
      && log[j].a.fault.NoFault? && log[j].a.task == Some(true)
  }

  ghost predicate HardenedBefore(log: seq<Action>, i: int, id: string) {
    exists j :: 0 <= j < i < |log| + 1 && log[j].Called? && log[j].c.FinalizeRestore? && log[j].c.id == id
      && log[j].a.fault.NoFault?
  }

  ghost predicate StartedBefore(log: seq<Action>, i: int) {
    exists j :: 0 <= j < i < |log| + 1 && log[j].Called? && log[j].c.Start? && log[j].a.fault.NoFault?
  }

  ghost predicate KnownIsWitnessed(r: Rules, log: seq<Action>, k: Clearance) {
    && (k.id.Some? ==> AllocatedBefore(log, |log|, k.id.value))
    && (k.named ==> k.id.Some? && NamedBefore(log, |log|, k.id.value))
    && (k.network.Some? ==> ValidatedBefore(log, |log|, k.network.value))
    && (k.capacity.Some? ==> FitsBefore(r, log, |log|, k.capacity.value))
  }

  ghost predicate MadeIsWitnessed(log: seq<Action>, k: Clearance, p: Progress) {
    && (p.jobHeld ==> k.id.Some? && RestoredBefore(log, |log|, k.id.value))
    && (p.jobDone ==> JobDoneBefore(log, |log|))
    && (p.hardened ==> k.id.Some? && HardenedBefore(log, |log|, k.id.value))
    && (p.started ==> StartedBefore(log, |log|))
  }

  ghost predicate Witnessed(r: Rules, log: seq<Action>, m: Monitor) {
    && KnownIsWitnessed(r, log, m.known)
    && MadeIsWitnessed(log, m.known, m.made)
    && (m.known.id.Some? ==> m.count.allocates > 0)
  }

  /** Whatever the monitor believes, some earlier action of the log shows. */
  lemma {:induction false} MonitorIsWitnessed(r: Rules, log: seq<Action>)
    requires !Watch(r, log).bad
    ensures Witnessed(r, log, Watch(r, log))
  {
    if log != [] {
      var m := BadSticks(r, log);
      MonitorIsWitnessed(r, log[..|log| - 1]);
      WitnessesStay(r, log, m);
      WitnessStep(r, log, m, log[|log| - 1]);
      assert Watch(r, log) == m.Record(r, log[|log| - 1]);
    }
  }

  lemma WitnessesStay(r: Rules, log: seq<Action>, m: Monitor)
    requires log != [] && Witnessed(r, log[..|log| - 1], m)
    ensures Witnessed(r, log, m)
  {
    var init := log[..|log| - 1];
    assert forall j :: 0 <= j < |init| ==> init[j] == log[j];
  }

  lemma WitnessStep(r: Rules, log: seq<Action>, m: Monitor, act: Action)
    requires log != [] && log[|log| - 1] == act && Witnessed(r, log, m)
    requires !m.bad && m.AllowsAction(r, act)
    ensures Witnessed(r, log, m.Record(r, act))
  {
    if act.Called? {
      KnownStep(r, log, m, act.c, act.a);
      MadeStep(r, log, m, act.c, act.a);
    }
  }

  lemma KnownStep(r: Rules, log: seq<Action>, m: Monitor, c: Call, ans: Answer)
    requires log != [] && log[|log| - 1] == Called(c, ans) && Witnessed(r, log, m) && m.Allows(r, c)
    ensures KnownIsWitnessed(r, log, m.known.Clear(r, c, ans))
    ensures m.known.Clear(r, c, ans).id.Some? ==> m.count.Count(c).allocates > 0
  {
    match c
    case ValidateIsolation(_) =>
    case NodeCapacity(_) =>
    case Allocate =>
    case _ =>
  }

  lemma MadeStep(r: Rules, log: seq<Action>, m: Monitor, c: Call, ans: Answer)
    requires log != [] && log[|log| - 1] == Called(c, ans) && Witnessed(r, log, m) && m.Allows(r, c)
    requires MadeIsWitnessed(log, m.known, m.made) && (m.made.jobHeld ==> m.count.allocates > 0)
    ensures MadeIsWitnessed(log, m.known.Clear(r, c, ans), m.made.Note(c, ans))
  {
    match c
    case Restore(_, _, _) =>
    case WaitForJob =>
    case FinalizeRestore(_, _) =>
    case Allocate =>
    case Start(_) =>
    case _ =>
  }

  /** Theorem: a restore is submitted only for the allocated id, onto a node
      whose isolated network was validated or reported unverifiable, which had
      room, and after an event had named the workload. */
  lemma RestoreIsCleared(r: Rules, log: seq<Action>, i: nat)
    requires !Watch(r, log).bad && i < |log| && log[i].Called? && log[i].c.Restore?
    ensures !r.dryRun && r.isolated
    ensures AllocatedBefore(log, i, log[i].c.id) && NamedBefore(log, i, log[i].c.id)
    ensures r.validates ==> ValidatedBefore(log, i, log[i].c.node)
    ensures r.reports && r.memoryMB > 0 ==> FitsBefore(r, log, i, log[i].c.node)
  {
    AllowedThroughout(r, log, i);
    MonitorIsWitnessed(r, log[..i]);
    assert forall j :: 0 <= j < i ==> log[..i][j] == log[j];
  }

  /** Theorem: nothing is allocated twice, in a dry run, or before the network
      was validated and the room measured, where the provider can. */
  lemma AllocationIsCleared(r: Rules, log: seq<Action>, i: nat)
    requires !Watch(r, log).bad && i < |log| && log[i].Called? && log[i].c.Allocate?
    ensures !r.dryRun && r.isolated && KAllocate !in Mutations(log[..i])
    ensures r.validates ==> exists node :: ValidatedBefore(log, i, node)
    ensures r.reports && r.memoryMB > 0 ==> exists node :: FitsBefore(r, log, i, node)
  {
    AllowedThroughout(r, log, i);
    MonitorIsWitnessed(r, log[..i]);
    MutationsFollowMonitor(r, log[..i]);
    assert forall j :: 0 <= j < i ==> log[..i][j] == log[j];
    var known := Watch(r, log[..i]).known;
    if r.validates {
      assert ValidatedBefore(log, i, known.network.value);
    }
    if r.NeedsCapacity() {
      assert FitsBefore(r, log, i, known.capacity.value);
    }
  }

  /** Theorem: a workload is powered on only after its restore was accepted,
      its job succeeded and, where the provider offers it, its hardening
      succeeded. */
  lemma StartIsCleared(r: Rules, log: seq<Action>, i: nat)
    requires !Watch(r, log).bad && i < |log| && log[i].Called? && log[i].c.Start?
    ensures AllocatedBefore(log, i, log[i].c.id) && RestoredBefore(log, i, log[i].c.id)
    ensures JobDoneBefore(log, i)
    ensures r.finalizes ==> HardenedBefore(log, i, log[i].c.id)
  {
    AllowedThroughout(r, log, i);
    MonitorIsWitnessed(r, log[..i]);
    MutationsFollowMonitor(r, log[..i]);
    assert forall j :: 0 <= j < i ==> log[..i][j] == log[j];
  }

  /** Theorem: a guest is asked only once it was powered on, and checked only
      once its restore had succeeded and, where offered, was hardened. */
  lemma GuestIsReached(r: Rules, log: seq<Action>, i: nat)
    requires !Watch(r, log).bad && i < |log| && log[i].Called? && (log[i].c.GetStatus? || log[i].c.RunAllChecks?)
    ensures log[i].c.GetStatus? ==> StartedBefore(log, i)
    ensures log[i].c.RunAllChecks? ==> JobDoneBefore(log, i)
    ensures log[i].c.RunAllChecks? && r.finalizes ==> exists id :: HardenedBefore(log, i, id)
  {
    AllowedThroughout(r, log, i);
    MonitorIsWitnessed(r, log[..i]);
    assert forall j :: 0 <= j < i ==> log[..i][j] == log[j];
    var made := Watch(r, log[..i]).made;
    if made.hardened {
      assert HardenedBefore(log, i, Watch(r, log[..i]).known.id.value);
    }
  }

  predicate ActsOn(c: Call, id: string) {
    match c
    case Restore(i, _, _) => i == id
    case FinalizeRestore(i, _) => i == id
    case Start(i) => i == id
    case GetStatus(i) => i == id
    case Stop(i) => i == id
    case Delete(i) => i == id
    case _ => false
  }

  /** Theorem: nothing is stopped or deleted but what this run restored. */
  lemma TeardownIsOwn(r: Rules, log: seq<Action>, i: nat)
    requires !Watch(r, log).bad && i < |log| && log[i].Called? && (log[i].c.Stop? || log[i].c.Delete?)
    ensures RestoredBefore(log, i, log[i].c.id) && AllocatedBefore(log, i, log[i].c.id)
  {
    AllowedThroughout(r, log, i);
    MonitorIsWitnessed(r, log[..i]);
    assert forall j :: 0 <= j < i ==> log[..i][j] == log[j];
  }

  /** Theorem: one id for the whole drill, and it is the allocated one. */
  lemma OneIdThroughout(r: Rules, log: seq<Action>, i: nat, id: string)
    requires !Watch(r, log).bad && i < |log| && log[i].Called? && ActsOn(log[i].c, id)
    ensures AllocatedBefore(log, i, id) && Watch(r, log).known.id == Some(id)
  {
    AllowedThroughout(r, log, i);
    MonitorIsWitnessed(r, log[..i]);
    assert forall j :: 0 <= j < i ==> log[..i][j] == log[j];
    IdSticks(r, log, i, id);
  }

  lemma {:induction false} IdSticks(r: Rules, log: seq<Action>, i: nat, id: string)
    requires !Watch(r, log).bad && i <= |log| && Watch(r, log[..i]).known.id == Some(id)
    ensures Watch(r, log).known.id == Some(id)
  {
    if i == |log| {
      assert log[..i] == log;
    } else {
      var init := log[..|log| - 1];
      var m := BadSticks(r, log);
      assert init[..i] == log[..i];
      IdSticks(r, init, i, id);
      MutationsFollowMonitor(r, init);
      IdStep(r, m, log[|log| - 1]);
    }
  }

  lemma IdStep(r: Rules, m: Monitor, act: Action)
    requires !m.bad && !m.Observe(r, act).bad && m.known.id.Some? && m.count.allocates > 0
    ensures m.Observe(r, act).known.id == m.known.id
  {
  }

  /** Theorem: no event carries a terminal state. */
  lemma EventsAreNotTerminal(r: Rules, log: seq<Action>, i: nat)
    requires !Watch(r, log).bad && i < |log| && log[i].Emitted?
    ensures log[i].ev.state !in {RunSuccess, RunFailed, RunCancelled, RunCleanupFailed, RunInconclusive}
  {
    AllowedThroughout(r, log, i);
  }

  // ------------------------------------------------ what it came to

  ghost predicate Accepted(log: seq<Action>, n: nat) {
    exists k :: 0 <= k < n <= |log| && log[k].Called? && log[k].c.Restore? && log[k].a.fault.NoFault?
  }

  ghost predicate Removed(log: seq<Action>, n: nat) {
    exists k :: 0 <= k < n <= |log| && log[k].Called? && log[k].c.Delete? && log[k].a.refused.None?
  }

  ghost predicate Examined(log: seq<Action>, n: nat, results: seq<CheckResult>) {
    exists k :: 0 <= k < n <= |log| && log[k].Called? && log[k].c.RunAllChecks? && log[k].a.fault != Panic
      && log[k].a.results == results
  }

  ghost predicate SeenLast(log: seq<Action>, n: nat, status: Option<GuestStatus>) {
    exists k :: 0 <= k < n <= |log| && log[k].Called? && log[k].c.GetStatus? && log[k].a.fault.NoFault?
      && log[k].a.status == status
      && forall j :: k < j < n && log[j].Called? && log[j].c.GetStatus? ==> !log[j].a.fault.NoFault?
  }

  /** Theorem: what the monitor says was made is what the log shows: a job is
      held exactly when a restore was accepted, the workload is gone exactly
      when a deletion was, the results are those the checks gave, and the guest
      was last seen as its last answer showed it. */
  lemma {:induction false} ProgressIsWhatHappened(r: Rules, log: seq<Action>)
    requires !Watch(r, log).bad
    ensures var made := Watch(r, log).made;
      && (made.jobHeld <==> Accepted(log, |log|)) && (made.deleted <==> Removed(log, |log|))
      && (made.results.Some? ==> Examined(log, |log|, made.results.value))
      && (made.lastStatus.Some? ==> SeenLast(log, |log|, made.lastStatus))
  {
    if log != [] {
      var n := |log| - 1;
      var m := BadSticks(r, log);
      ProgressIsWhatHappened(r, log[..n]);
      MutationsFollowMonitor(r, log[..n]);
      assert forall k :: 0 <= k < n ==> log[..n][k] == log[k];
      assert Accepted(log, n) == m.made.jobHeld && Removed(log, n) == m.made.deleted;
      assert m.made.results.Some? ==> Examined(log, n, m.made.results.value);
      assert m.made.lastStatus.Some? ==> SeenLast(log, n, m.made.lastStatus);
      AcceptedNext(r, log, m);
      RemovedNext(r, log, m);
      ExaminedNext(r, log, m);
      SeenNext(r, log, m);
    }
  }

  lemma AcceptedNext(r: Rules, log: seq<Action>, m: Monitor)
    requires log != [] && !m.bad && m.AllowsAction(r, log[|log| - 1]) && Bounded(m)
    requires Accepted(log, |log| - 1) == m.made.jobHeld
    ensures Accepted(log, |log|) == m.Record(r, log[|log| - 1]).made.jobHeld
  {
  }

  lemma RemovedNext(r: Rules, log: seq<Action>, m: Monitor)
    requires log != [] && !m.bad && m.AllowsAction(r, log[|log| - 1]) && Bounded(m)
    requires Removed(log, |log| - 1) == m.made.deleted
    ensures Removed(log, |log|) == m.Record(r, log[|log| - 1]).made.deleted
  {
  }

  lemma ExaminedNext(r: Rules, log: seq<Action>, m: Monitor)
    requires log != [] && !m.bad && m.AllowsAction(r, log[|log| - 1]) && Bounded(m)
    requires m.made.results.Some? ==> Examined(log, |log| - 1, m.made.results.value)
    ensures var made := m.Record(r, log[|log| - 1]).made;
      made.results.Some? ==> Examined(log, |log|, made.results.value)
  {
  }

  lemma SeenNext(r: Rules, log: seq<Action>, m: Monitor)
    requires log != [] && !m.bad && m.AllowsAction(r, log[|log| - 1]) && Bounded(m)
    requires m.made.lastStatus.Some? ==> SeenLast(log, |log| - 1, m.made.lastStatus)
    ensures var made := m.Record(r, log[|log| - 1]).made;
      made.lastStatus.Some? ==> SeenLast(log, |log|, made.lastStatus)
  {
  }

  // ------------------------------------------------ check events

  function CheckEvent(a: Action): seq<CheckResult> {
    if a.Emitted? && a.ev.check.Some? then [a.ev.check.value] else []
  }

  /** The check results the events carried, in emission order. */
  function CheckEvents(log: seq<Action>): seq<CheckResult> {
    if log == [] then [] else CheckEvents(log[..|log| - 1]) + CheckEvent(log[|log| - 1])
  }

  /** Somebody was told something. */
  predicate Announced(log: seq<Action>) {
    log != [] && (log[|log| - 1].Emitted? || Announced(log[..|log| - 1]))
  }

  /** The three summaries of a log are right. Stated of every log that is this
      one, so that they are unfolded only where they are asked for. */
  ghost predicate Mirrors(r: Rules, log: seq<Action>, m: Monitor, told: seq<CheckResult>, announced: bool) {
    forall l :: l == log ==> Watch(r, l) == m && CheckEvents(l) == told && Announced(l) == announced
  }

  /** An allowed action leaves the monitor good, and adds to each summary what
      it adds to the log. */
  lemma AllowedIsMirrored(
    r: Rules, log: seq<Action>, m: Monitor, told: seq<CheckResult>, announced: bool, a: Action)
    requires Mirrors(r, log, m, told, announced) && !m.bad && m.AllowsAction(r, a)
    ensures Mirrors(r, log + [a], m.Record(r, a), told + CheckEvent(a), announced || a.Emitted?)
    ensures !m.Record(r, a).bad
  {
    assert Watch(r, log) == m;
    WatchAppend(r, log, a);
    assert (log + [a])[..|log|] == log;
  }

  /** How often the guest's status was read. */
  function StatusReads(log: seq<Action>): nat {
    if log == [] then 0
    else StatusReads(log[..|log| - 1])
         + (if log[|log| - 1].Called? && log[|log| - 1].c.GetStatus? then 1 else 0)
  }

  lemma StatusStep(r: Rules, m: Monitor, act: Action)
    requires !m.bad && !m.Observe(r, act).bad
    ensures m.Observe(r, act).count.statusReads
         == m.count.statusReads + (if act.Called? && act.c.GetStatus? then 1 else 0)
  {
    if act.Called? {
      match act.c
      case GetStatus(_) =>
      case _ =>
    }
  }

  lemma {:induction false} StatusReadsAreWatched(r: Rules, log: seq<Action>)
    requires !Watch(r, log).bad
    ensures Watch(r, log).count.statusReads == StatusReads(log)
  {
    if log != [] {
      var m := BadSticks(r, log);
      StatusReadsAreWatched(r, log[..|log| - 1]);
      StatusStep(r, m, log[|log| - 1]);
    }
  }
}
