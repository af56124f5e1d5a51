// The recovery engine: find a backup, restore it into an isolated temporary
// workload, boot it, run the checks, grade the run, always clean up
// (internal/recovery).
module Engine {
  import opened Core
  import opened Plans
  import opened Proofs
  import opened Trace
  import opened World

  datatype Err =
    | Provider(e: ProviderError)
    | NoBackup
    | StaleBackup
    | NoNode
    | NotIsolated
    | NoCapacity
    | JobFailed
    | TimedOut
    | Interrupted
    | ChecksFailed(names: seq<string>)
    | ChecksInconclusive(names: seq<string>)
    | RecoveredPanic

  /** How a step of the workflow leaves it. */
  datatype Outcome = Went | Erred(e: Err) | Crashed

  /** The error Run hands back: the workflow's, the cleanup's, or both. */
  datatype RunError = NoError | Workflow(e: Err) | Orphan(d: ProviderError) | Joined(e: Err, d: ProviderError) {
    function WorkflowError(): Option<Err> { if Workflow? || Joined? then Some(e) else None }
    function CleanupError(): Option<ProviderError> { if Orphan? || Joined? then Some(d) else None }
  }

  /** The flattened text kept on the run itself. */
  datatype Message = Quiet | Says(e: Err) | SaysCancelled(e: Err) | SaysOrphaned(id: string, node: string)

  /** runId is the id the caller gave, or the one minted for this run. */
  datatype RunOptions = RunOptions(runId: string, node: string, isolated: bool, dryRun: bool, keepWorkload: bool)

  datatype Step = Step(
    name: StepName, state: RunState, status: StepStatus,
    startedAt: int, completedAt: Option<int>, failed: bool)

  class RecoveryRun {
    const id: string
    const startedAt: int
    const rtoTarget: int
    var sourceName: string
    var tempId: string
    var node: string
    var backup: Option<Backup>
    var state: RunState
    var result: RunResult
    var level: ProofLevel
    var completedAt: Option<int>
    var steps: seq<Step>
    var checks: seq<CheckResult>
    var rto: int
    var cleanupDone: bool
    var err: Message

    /** Every level the run has held, in order. */
    ghost var levels: seq<ProofLevel>

    constructor (p: Plan, opts: RunOptions, now: int)
      ensures id == opts.runId && startedAt == now && rtoTarget == p.rtoTarget
      ensures tempId == "" && backup == None && state == Queued && result == NoResult
      ensures level == ProofNone && completedAt == None && steps == [] && checks == []
      ensures rto == 0 && !cleanupDone && err == Quiet && LevelRose()
      ensures node == FirstNonEmpty(opts.node, p.restore.node)
    {
      id, startedAt, rtoTarget := opts.runId, now, p.rtoTarget;
      sourceName := FirstNonEmpty(p.workloadName, p.workloadId);
      node := FirstNonEmpty(opts.node, p.restore.node);
      tempId, backup, state, result, level := "", None, Queued, NoResult, ProofNone;
      completedAt, steps, checks, rto, cleanupDone, err := None, [], [], 0, false, Quiet;
      levels := [ProofNone];
    }

    /** It began at NONE and never fell on its way to where it is. */
    ghost predicate LevelRose()
      reads this
    {
      levels != [] && levels[0] == ProofNone && levels[|levels| - 1] == level && Rising(levels)
    }

    method RaiseLevel(to: ProofLevel)
      requires LevelRose()
      modifies this`level, this`levels
      ensures LevelRose() && level == old(level).Raise(to) && levels == old(levels) + [level]
    {
      level := level.Raise(to);
      levels := levels + [level];
    }

    predicate RTOExceeded() reads this { rtoTarget > 0 && rto > rtoTarget }
  }

  // ------------------------------------------------ pure parts

  predicate Rising(levels: seq<ProofLevel>) {
    forall i, j :: 0 <= i < j < |levels| ==> levels[i].Rank() <= levels[j].Rank()
  }

  function RulesOf(p: Plan, opts: RunOptions, validates: bool, reports: bool, finalizes: bool): Rules {
    Rules(opts.dryRun, opts.isolated, validates, reports, finalizes, p.restore.memoryLimitMB)
  }


  predicate GuestReady(s: GuestStatus, p: Plan) {
    && s.running
    && (p.startup.WaitsForAgent() ==> s.agentReady)
    && (p.startup.ip != "" || !p.startup.WaitsForIP() || s.primaryIP != "")
  }

  /** What a monitor becomes once an event has been emitted. */
  function Heard(m: Monitor): Monitor {
    m.(known := m.known.(named := m.known.named || m.known.id.Some?))
  }

  function PollBudget(timeout: int): nat {
    1 + (if timeout <= 0 then 0 else (timeout + DEFAULT_GUEST_POLL_EVERY - 1) / DEFAULT_GUEST_POLL_EVERY)
  }

  /** When the named step ended, if it did. */
  function EndOf(steps: seq<Step>, name: StepName): Option<int> {
    if steps == [] then None
    else if steps[0].name == name && steps[0].status != StepRunning then steps[0].completedAt
    else EndOf(steps[1..], name)
  }

  predicate FailsRun(checks: seq<CheckSpec>, r: CheckResult) {
    !r.OK() && r.status != CheckError && Critical(checks, r.name)
  }

  predicate LeavesUndecided(checks: seq<CheckSpec>, r: CheckResult) {
    r.status == CheckError && Critical(checks, r.name)
  }

  predicate Degrades(checks: seq<CheckSpec>, r: CheckResult) {
    r.status == CheckFail && !Critical(checks, r.name)
  }

  function FailedCritical(checks: seq<CheckSpec>, results: seq<CheckResult>): (names: seq<string>)
    ensures names == [] <==> forall r :: r in results ==> !FailsRun(checks, r)
  {
    if results == [] then []
    else
      var last := results[|results| - 1];
      FailedCritical(checks, results[..|results| - 1]) + if FailsRun(checks, last) then [last.name] else []
  }

  function Unevaluated(checks: seq<CheckSpec>, results: seq<CheckResult>): (names: seq<string>)
    ensures names == [] <==> forall r :: r in results ==> !LeavesUndecided(checks, r)
  {
    if results == [] then []
    else
      var last := results[|results| - 1];
      Unevaluated(checks, results[..|results| - 1]) + if LeavesUndecided(checks, last) then [last.name] else []
  }

  lemma OneMoreJudged(checks: seq<CheckSpec>, results: seq<CheckResult>, r: CheckResult)
    ensures FailedCritical(checks, results + [r])
         == FailedCritical(checks, results) + if FailsRun(checks, r) then [r.name] else []
    ensures Unevaluated(checks, results + [r])
         == Unevaluated(checks, results) + if LeavesUndecided(checks, r) then [r.name] else []
  {
    assert (results + [r])[..|results|] == results;
  }

  /** A failed critical check outranks one that could not be evaluated. */
  function Judge(checks: seq<CheckSpec>, results: seq<CheckResult>): (o: Outcome)
    ensures o == Went <==> forall r :: r in results ==> Critical(checks, r.name) ==> r.status == CheckPass
    ensures (o.Erred? && o.e.ChecksFailed?) <==>
              exists r :: r in results && Critical(checks, r.name)
                          && (r.status == CheckFail || r.status == CheckSkipped)
    ensures o.Went? || (o.Erred? && (o.e.ChecksFailed? || o.e.ChecksInconclusive?))
  {
    if FailedCritical(checks, results) != [] then Erred(ChecksFailed(FailedCritical(checks, results)))
    else if Unevaluated(checks, results) != [] then Erred(ChecksInconclusive(Unevaluated(checks, results)))
    else Went
  }

  function Combine(workflow: Option<Err>, cleanup: Option<ProviderError>): RunError {
    match (workflow, cleanup)
    case (Some(e), Some(d)) => Joined(e, d)
    case (Some(e), None) => Workflow(e)
    case (None, Some(d)) => Orphan(d)
    case (None, None) => NoError
  }

  /** A check that is not critical came back bad. */
  predicate AnyDegrades(checks: seq<CheckSpec>, results: seq<CheckResult>) {
    results != []
    && (Degrades(checks, results[|results| - 1]) || AnyDegrades(checks, results[..|results| - 1]))
  }

  lemma {:induction false} AnyDegradesMeans(checks: seq<CheckSpec>, results: seq<CheckResult>)
    ensures AnyDegrades(checks, results) <==> exists r :: r in results && Degrades(checks, r)
  {
    if results != [] {
      AnyDegradesMeans(checks, results[..|results| - 1]);
      var last := results[|results| - 1];
      assert forall r :: r in results <==> r in results[..|results| - 1] || r == last;
    }
  }

  /** SUCCESS, or DEGRADED when the target was missed or a check that is not
      critical came back bad. */
  function Grade(checks: seq<CheckSpec>, results: seq<CheckResult>, rto: int, target: int): RunResult {
    if (target > 0 && rto > target) || AnyDegrades(checks, results) then ResultDegraded else ResultSuccess
  }

  /** A backup this plan may restore, judged no earlier than `at`. */
  predicate Usable(p: Plan, b: Backup, at: int) {
    && (p.backup.strategy.Specific? ==> b.id == p.backup.id)
    && (p.backup.maxAge > 0 ==> at - b.createdAt <= p.backup.maxAge)
  }

  /** Only a usable backup, the run's own, was ever submitted for restore. */
  predicate RestoredUsable(from: Option<Backup>, p: Plan, backup: Option<Backup>, startedAt: int) {
    from.Some? ==> from == backup && Usable(p, backup.value, startedAt)
  }

  /** The boot counts only when the guest agent answered. */
  predicate BaseLevel(status: Option<GuestStatus>, base: ProofLevel) {
    base == ProofNone || (base == ProofBoot && status.Some? && status.value.agentReady)
  }

  /** What a wait that ended well saw, and what it established. */
  predicate Booted(p: Plan, status: Option<GuestStatus>, base: ProofLevel) {
    if p.startup.skip then status == None && base == ProofNone
    else status.Some? && GuestReady(status.value, p)
         && base == if status.value.agentReady then ProofBoot else ProofNone
  }

  /** What a run proved: the base, raised by what the checks that ran proved. */
  function LevelFor(ran: Option<seq<CheckResult>>, p: Plan, base: ProofLevel): ProofLevel {
    match ran
    case None => base
    case Some(results) => base.Raise(LevelProven(Pairs(Configs(p.checks), results)))
  }

  /** The checks that ran are the run's, were told to the listener, and
      decided the outcome. */
  predicate JudgedByChecks(
    ran: Option<seq<CheckResult>>, told: seq<CheckResult>, p: Plan, results: seq<CheckResult>, o: Outcome)
  {
    && told == results
    && (ran.None? ==> results == [])
    && (ran.Some? ==> ran == Some(results) && p.checks != [] && o == Judge(p.checks, results))
  }

  /** The measured time is the end of the last step the workflow took. */
  predicate TimedBy(steps: seq<Step>, p: Plan, rto: int, startedAt: int) {
    var n := if p.checks == [] then 4 else 5;
    && |steps| > n
    && steps[n].name == (if p.checks == [] then StepName.WaitForGuest else StepName.RunChecks)
    && steps[n].completedAt.Some?
    && rto == steps[n].completedAt.value - startedAt
  }

  /** The backup a lookup offers this plan. */
  ghost predicate Offers(p: Plan, a: Answer, b: Backup) {
    if p.backup.strategy.Specific? then
      exists i :: 0 <= i < |a.backups| && a.backups[i] == b && b.id == p.backup.id
                  && forall j :: 0 <= j < i ==> a.backups[j].id != p.backup.id
    else a.backup == Some(b)
  }

  /** An outcome that the last answer, or the rules, account for. */
  predicate Blamed(o: Outcome, last: Option<Exchange>, r: Rules) {
    match o
    case Went => true
    case Crashed => last.Some? && Derails(last.value.c, last.value.a)
    case Erred(e) =>
      match e
      case Provider(f) =>
        last.Some? && !last.value.c.GetWorkload? && last.value.a.fault == Error(f)
        && (last.value.c.ValidateIsolation? ==> !f.unverified)
      case NotIsolated => !r.isolated
      case NoCapacity =>
        last.Some? && r.memoryMB > 0 && last.value.c.NodeCapacity? && last.value.a.fault.NoFault?
        && last.value.a.freeBytes < r.memoryMB * 1048576
      case JobFailed =>
        last.Some? && last.value.c.WaitForJob? && last.value.a.fault.NoFault? && last.value.a.task != Some(true)
      case _ => false
  }

  /** An outcome that what the world did so far accounts for. */
  ghost predicate Reasoned(o: Outcome, last: Option<Exchange>, r: Rules, p: Plan, clock: int, ctx: CtxErr) {
    if o == Erred(NoBackup) then
      p.backup.strategy.Specific? && last.Some? && last.value.c.LookUpBackup? && last.value.a.fault.NoFault?
      && forall b :: b in last.value.a.backups ==> b.id != p.backup.id
    else if o == Erred(StaleBackup) then
      p.backup.maxAge > 0 && last.Some? && last.value.c.LookUpBackup? && last.value.a.fault.NoFault?
      && exists b :: Offers(p, last.value.a, b) && clock - b.createdAt > p.backup.maxAge
    else if o == Erred(TimedOut) then
      last.Some? && last.value.c.GetStatus? && last.value.a.fault.NoFault? && last.value.a.status.Some?
      && !GuestReady(last.value.a.status.value, p)
    else if o == Erred(Interrupted) then ctx != Alive
    else Blamed(o, last, r)
  }

  /** Nobody names a node to restore onto. */
  predicate Nowhere(p: Plan, opts: RunOptions, node: string, backup: Option<Backup>) {
    opts.node == "" && p.restore.node == "" && node == "" && (backup.Some? ==> backup.value.node == "")
  }

  /** Why a workflow that ran no checks ended the way it did. */
  ghost predicate Due(
    o: Outcome, last: Option<Exchange>, r: Rules, p: Plan, opts: RunOptions, clock: int, ctx: CtxErr,
    node: string, backup: Option<Backup>)
  {
    if o == Erred(NoNode) then Nowhere(p, opts, node, backup) else Reasoned(o, last, r, p, clock, ctx)
  }

  /** Theorem: no drill ends badly for nothing. Each error, and each panic, is
      one that the last answer, the rules, the plan or the context gave. */
  lemma EveryEndHasItsReason(
      o: Outcome, last: Option<Exchange>, r: Rules, p: Plan, opts: RunOptions, clock: int, ctx: CtxErr,
      node: string, backup: Option<Backup>)
    requires Due(o, last, r, p, opts, clock, ctx, node, backup)
    ensures o.Erred? ==> !o.e.ChecksFailed? && !o.e.ChecksInconclusive? && !o.e.RecoveredPanic?
    ensures o == Erred(NoNode) ==>
              opts.node == "" && p.restore.node == "" && node == "" && (backup.Some? ==> backup.value.node == "")
    ensures o == Erred(NotIsolated) ==> !r.isolated
    ensures o == Erred(Interrupted) ==> ctx != Alive
    ensures o != Went && o != Erred(NoNode) && o != Erred(NotIsolated) && o != Erred(Interrupted) ==> last.Some?
    ensures o.Erred? && o.e.Provider? ==>
              !last.value.c.GetWorkload? && last.value.a.fault == Error(o.e.e)
              && (last.value.c.ValidateIsolation? ==> !o.e.e.unverified)
    ensures o == Erred(NoBackup) ==>
              p.backup.strategy.Specific? && last.value.c.LookUpBackup? && last.value.a.fault.NoFault?
              && forall b :: b in last.value.a.backups ==> b.id != p.backup.id
    ensures o == Erred(StaleBackup) ==>
              0 < p.backup.maxAge && last.value.c.LookUpBackup? && last.value.a.fault.NoFault?
              && (!p.backup.strategy.Specific? ==>
                    last.value.a.backup.Some? && clock - last.value.a.backup.value.createdAt > p.backup.maxAge)
              && (p.backup.strategy.Specific? ==>
                    exists b :: b in last.value.a.backups && b.id == p.backup.id
                                && clock - b.createdAt > p.backup.maxAge)
    ensures o == Erred(NoCapacity) ==>
              0 < r.memoryMB && last.value.c.NodeCapacity? && last.value.a.fault.NoFault?
              && last.value.a.freeBytes < r.memoryMB * 1048576
    ensures o == Erred(JobFailed) ==>
              last.value.c.WaitForJob? && last.value.a.fault.NoFault? && last.value.a.task != Some(true)
    ensures o == Erred(TimedOut) ==>
              last.value.c.GetStatus? && last.value.a.fault.NoFault? && last.value.a.status.Some?
              && var seen := last.value.a.status.value;
                 !seen.running || (p.startup.waitForAgent == Some(true) && !seen.agentReady)
                 || (p.startup.waitForIP == Some(true) && p.startup.ip == "" && seen.primaryIP == "")
    ensures o.Crashed? ==>
              last.value.a.fault == Panic || (last.value.a.fault.NoFault?
                && ((last.value.c.LookUpBackup? && last.value.a.backup.None?)
                    || (last.value.c.GetStatus? && last.value.a.status.None?)))
  {
    if o == Erred(StaleBackup) {
      var b :| Offers(p, last.value.a, b) && clock - b.createdAt > p.backup.maxAge;
      if p.backup.strategy.Specific? {
        assert b in last.value.a.backups;
      }
    }
  }

  /** What a drill did and what its run says of it. */
  datatype Account = Account(
    ran: Option<seq<CheckResult>>, lastStatus: Option<GuestStatus>, from: Option<Backup>, told: seq<CheckResult>,
    statusReads: nat, checks: seq<CheckResult>, level: ProofLevel, backup: Option<Backup>, rto: int,
    node: string, last: Option<Exchange>)

  /** The clock and the run's context at the same moment. */
  datatype Moment = Moment(clock: int, ctx: CtxErr)

  /** What decided the outcome, what the run proved and how often it looked. */
  ghost predicate Tallies(
    a: Account, r: Rules, p: Plan, opts: RunOptions, startedAt: int, o: Outcome, base: ProofLevel, at: Moment)
  {
    && JudgedByChecks(a.ran, a.told, p, a.checks, o)
    && (o.Went? && p.checks != [] && !opts.dryRun ==> a.ran.Some?)
    && BaseLevel(a.lastStatus, base) && a.level == LevelFor(a.ran, p, base)
    && ((o.Went? && !opts.dryRun) || a.ran.Some? ==> Booted(p, a.lastStatus, base))
    && RestoredUsable(a.from, p, a.backup, startedAt)
    && (!o.Went? && a.ran.None? ==> a.rto == 0)
    && (a.ran.None? ==> Due(o, a.last, r, p, opts, at.clock, at.ctx, a.node, a.backup))
    && a.statusReads <= 3 * PollBudget(p.startup.timeout)
  }

  /** The account tallies. Stated of every account that is this one, so that it
      is unfolded only where it is asked for. */
  ghost predicate Accounted(
    a: Account, r: Rules, p: Plan, opts: RunOptions, startedAt: int, o: Outcome, base: ProofLevel, at: Moment)
  {
    forall b :: b == a ==> Tallies(b, r, p, opts, startedAt, o, base, at)
  }

  // ------------------------------------------------ the engine

  class Engine {
    const w: World

    constructor (w: World)
      ensures this.w == w
    {
      this.w := w;
    }

    /** Events name the workload the monitor knows. */
    ghost predicate Sound(run: RecoveryRun)
      reads w, run
    {
      w.Valid() && run.tempId == w.mon.known.TempId() && run.LevelRose()
    }

    method BeginStep(run: RecoveryRun, name: StepName, state: RunState) returns (idx: nat)
      requires Sound(run) && !state.Terminal()
      modifies w, run`state, run`steps
      ensures Sound(run) && w.Advanced() && w.mon == Heard(old(w.mon)) && w.told == old(w.told) && w.announced
      ensures idx == |old(run.steps)| && run.state == state
      ensures |run.steps| == idx + 1 && run.steps[..idx] == old(run.steps)
      ensures run.steps[idx].name == name && run.steps[idx].state == state
      ensures run.steps[idx].status == StepRunning && run.steps[idx].completedAt == None
      ensures old(w.clock) <= run.steps[idx].startedAt <= w.clock
      ensures w.last == old(w.last) && w.teardownBy == old(w.teardownBy)
      ensures w.log != [] && w.log[|w.log| - 1]
              == Emitted(Event(state, name, StepRunning, false, run.tempId, run.node, None))
    {
      run.state := state;
      var started := w.Now();
      run.steps := run.steps + [Step(name, state, StepRunning, started, None, false)];
      w.Emit(Event(state, name, StepRunning, false, run.tempId, run.node, None));
      idx := |run.steps| - 1;
    }

    method EndStep(run: RecoveryRun, idx: nat, status: StepStatus, failed: bool)
      requires Sound(run) && idx < |run.steps| && !run.steps[idx].state.Terminal() && status != StepRunning
      modifies w, run`steps
      ensures Sound(run) && w.Advanced() && w.mon == Heard(old(w.mon)) && w.told == old(w.told)
      ensures |run.steps| == |old(run.steps)|
      ensures forall i :: 0 <= i < |run.steps| && i != idx ==> run.steps[i] == old(run.steps[i])
      ensures run.steps[idx] == old(run.steps[idx]).(status := status, completedAt := run.steps[idx].completedAt,
                                                     failed := failed)
      ensures run.steps[idx].completedAt.Some? && old(w.clock) <= run.steps[idx].completedAt.value <= w.clock
      ensures w.last == old(w.last) && w.teardownBy == old(w.teardownBy) && w.log != []
      ensures w.log[|w.log| - 1] == Emitted(Event(run.steps[idx].state, run.steps[idx].name, status, failed,
                                                  run.tempId, run.node, None))
    {
      var t := w.Now();
      var st := run.steps[idx].(status := status, completedAt := Some(t), failed := failed);
      run.steps := run.steps[idx := st];
      w.Emit(Event(st.state, st.name, status, failed, run.tempId, run.node, None));
    }

    /** One call, and the backoff that follows a retryable error. */
    method Attempt(ctx: Context, backoff: int, c: Call, final: bool) returns (a: Answer, done: bool)
      requires w.Valid() && w.mon.Allows(w.rules, c)
      modifies w
      ensures w.Valid() && w.Advanced() && w.told == old(w.told) && w.teardownBy == old(w.teardownBy)
      ensures w.log == old(w.log) + [Called(c, a)] && w.mon == old(w.mon).Record(w.rules, Called(c, a))
      ensures w.last == if c.Stop? || c.Delete? then old(w.last) else Some(Exchange(c, a))
      ensures !done ==> FaultOf(c, a).Error? && FaultOf(c, a).e.retryable && !final
      ensures done && !final && FaultOf(c, a).Error? && FaultOf(c, a).e.retryable ==> w.Ended(ctx)
    {
      a := w.Invoke(c);
      if !FaultOf(c, a).Error? || !FaultOf(c, a).e.retryable || final {
        return a, true;
      }
      done := w.Sleep(ctx, backoff);
    }

    /** Calls c up to `attempts` times and at least once, again only after an
        error marked retryable and a backoff that was not interrupted. The last
        answer is the outcome. */
    method Retry(ctx: Context, attempts: int, backoff: int, c: Call)
      returns (last: Answer, ghost tries: seq<Action>)
      requires w.Valid() && Repeatable(c) && AllowedTimes(w.rules, w.mon, c, AtLeastOne(attempts))
      modifies w
      ensures w.Valid() && w.Advanced() && w.told == old(w.told) && w.teardownBy == old(w.teardownBy)
      ensures w.log == old(w.log) + tries && 1 <= |tries| <= (if attempts < 1 then 1 else attempts)
      ensures w.last == if c.Stop? || c.Delete? then old(w.last) else Some(Exchange(c, last))
      ensures tries[|tries| - 1] == Called(c, last)
      ensures forall k :: 0 <= k < |tries| - 1 ==>
                tries[k].Called? && tries[k].c == c
                && FaultOf(c, tries[k].a).Error? && FaultOf(c, tries[k].a).e.retryable
      ensures w.mon == FailedCalls(old(w.mon), c, |tries| - 1).Record(w.rules, Called(c, last))
      ensures FaultOf(c, last).Error? && FaultOf(c, last).e.retryable && |tries| < attempts ==>
                if ctx == RunContext then w.ctx != Alive else w.clock >= w.teardownBy
    {
      var limit := if attempts < 1 then 1 else attempts;
      var i := 0;
      tries := [];
      while true
        invariant 0 <= i < limit && |tries| == i && w.log == old(w.log) + tries
        invariant forall k :: 0 <= k < i ==>
                    tries[k].Called? && tries[k].c == c
                    && FaultOf(c, tries[k].a).Error? && FaultOf(c, tries[k].a).e.retryable
        invariant w.Valid() && w.Advanced() && w.told == old(w.told) && (c.Stop? ==> w.last == old(w.last))
        invariant w.teardownBy == old(w.teardownBy)
        invariant w.mon == FailedCalls(old(w.mon), c, |tries|)
        decreases limit - i
      {
        var done;
        last, done := Attempt(ctx, backoff, c, i == limit - 1);
        tries := tries + [Called(c, last)];
        if done {
          return;
        }
        FailedAgain(w.rules, old(w.mon), c, i, last);
        i := i + 1;
      }
    }

    // ---------------------------------------------- discover_backup

    /** Best effort: a source that cannot be read keeps the plan's name. */
    method ResolveSourceName(run: RecoveryRun, p: Plan) returns (o: Outcome)
      requires Sound(run)
      modifies w, run`sourceName, run`node
      ensures Sound(run) && w.Advanced() && w.mon == old(w.mon) && w.told == old(w.told)
      ensures !o.Erred? && Blamed(o, w.last, w.rules)
      ensures w.last.Some? && w.last.value.c == GetWorkload(p.workloadId)
      ensures run.node == if w.last.value.a.fault.NoFault? && old(run.node) == "" then w.last.value.a.node
                          else old(run.node)
      ensures run.sourceName == if w.last.value.a.fault.NoFault? && w.last.value.a.name != "" then w.last.value.a.name
                                else old(run.sourceName)
    {
      var a := w.Invoke(GetWorkload(p.workloadId));
      if a.fault == Panic {
        return Crashed;
      }
      if a.fault == NoFault {
        if a.name != "" {
          run.sourceName := a.name;
        }
        if run.node == "" {
          run.node := a.node;
        }
      }
      return Went;
    }

    /** The two backup strategies. A lookup that returns nothing at all leaves
        `backup` empty and the dereference that follows it panics. */
    method ResolveBackup(p: Plan) returns (backup: Option<Backup>, o: Outcome)
      requires w.Valid()
      modifies w
      ensures w.Valid() && w.Advanced() && w.mon == old(w.mon) && w.told == old(w.told)
      ensures Reasoned(o, w.last, w.rules, p, w.clock, w.ctx)
      ensures o.Went? ==> w.last.Some? && w.last.value.c.LookUpBackup? && w.last.value.a.fault.NoFault?
      ensures o.Went? && !p.backup.strategy.Specific? ==> backup == w.last.value.a.backup
      ensures o.Went? && p.backup.strategy.Specific? ==>
                exists i :: 0 <= i < |w.last.value.a.backups| && Some(w.last.value.a.backups[i]) == backup
                            && w.last.value.a.backups[i].id == p.backup.id
                            && forall j :: 0 <= j < i ==> w.last.value.a.backups[j].id != p.backup.id
    {
      backup := None;
      var a := w.Invoke(LookUpBackup);
      if a.fault == Panic {
        return None, Crashed;
      }
      if a.fault.Error? {
        return None, Erred(Provider(a.fault.e));
      }
      if p.backup.strategy.Specific? {
        for i := 0 to |a.backups|
          invariant forall j :: 0 <= j < i ==> a.backups[j].id != p.backup.id
        {
          if a.backups[i].id == p.backup.id {
            return Some(a.backups[i]), Went;
          }
        }
        return None, Erred(NoBackup);
      }
      return a.backup, Went;
    }

    method Discover(run: RecoveryRun, p: Plan) returns (o: Outcome)
      requires Sound(run)
      modifies w, run`state, run`steps, run`sourceName, run`node, run`backup
      ensures Sound(run) && w.Advanced() && w.mon == Heard(old(w.mon)) && w.told == old(w.told) && w.announced
      ensures StepTaken(old(run.steps), run.steps, StepName.DiscoverBackup, o)
      ensures o.Went? ==> run.backup.Some? && Usable(p, run.backup.value, old(w.clock))
      ensures !o.Went? ==> run.backup == old(run.backup)
      ensures Reasoned(o, w.last, w.rules, p, w.clock, w.ctx)
    {
      var idx := BeginStep(run, StepName.DiscoverBackup, DiscoveringBackup);
      o := ResolveSourceName(run, p);
      if o.Crashed? {
        return;
      }
      var backup;
      backup, o := FindBackup(p);
      if o.Crashed? {
        return;
      }
      if o.Went? {
        run.backup := Some(backup);
      }
      EndStep(run, idx, if o.Went? then StepDone else StepFailed, !o.Went?);
    }

    /** The backup the plan asks for, refused when it is older than max_age. */
    method FindBackup(p: Plan) returns (backup: Backup, o: Outcome)
      requires w.Valid()
      modifies w
      ensures w.Valid() && w.Advanced() && w.mon == old(w.mon) && w.told == old(w.told)
      ensures o.Went? ==> w.last.Some? && w.last.value.c.LookUpBackup? && Offers(p, w.last.value.a, backup)
      ensures o.Went? && p.backup.strategy.Specific? ==> backup.id == p.backup.id
      ensures o.Went? && p.backup.maxAge > 0 ==> old(w.clock) - backup.createdAt <= p.backup.maxAge
      ensures Reasoned(o, w.last, w.rules, p, w.clock, w.ctx)
    {
      backup := Backup("", "", 0);
      var found;
      found, o := ResolveBackup(p);
      if !o.Went? {
        return;
      }
      if found.None? {
        return backup, Crashed;
      }
      backup := found.value;
      if p.backup.maxAge > 0 {
        var now := w.Now();
        if now - backup.createdAt > p.backup.maxAge {
          return backup, Erred(StaleBackup);
        }
      }
    }

    // ---------------------------------------------- prepare_environment

    /** Where the restore lands: the options, the plan, the source, the backup. */
    method ResolveNode(run: RecoveryRun, p: Plan, opts: RunOptions) returns (node: string, o: Outcome)
      modifies run`node
      ensures o == Went || o == Erred(NoNode)
      ensures o.Erred? <==> opts.node == "" && p.restore.node == "" && old(run.node) == ""
                            && (run.backup.Some? ==> run.backup.value.node == "")
      ensures o.Erred? ==> run.node == ""
      ensures o.Went? ==> run.node == node != ""
      ensures o.Went? && opts.node != "" ==> node == opts.node
      ensures o.Went? && opts.node == "" && p.restore.node != "" ==> node == p.restore.node
      ensures o.Went? && opts.node == "" && p.restore.node == "" && old(run.node) != "" ==> node == old(run.node)
      ensures o.Went? && opts.node == "" && p.restore.node == "" && old(run.node) == "" ==>
                run.backup.Some? && node == run.backup.value.node
    {
      node := FirstNonEmpty(FirstNonEmpty(opts.node, p.restore.node), run.node);
      if node == "" && run.backup.Some? {
        node := run.backup.value.node;
      }
      if node == "" {
        return node, Erred(NoNode);
      }
      run.node := node;
      return node, Went;
    }

    /** Refuses a network that is not marked isolated, and one the provider
        can show not to be. "Could not verify" is not "unsafe". */
    method CheckNetworkIsolation(node: string) returns (o: Outcome)
      requires w.Valid()
      modifies w
      ensures w.Valid() && w.Advanced() && w.told == old(w.told)
      ensures w.mon.count == old(w.mon.count) && w.mon.made == old(w.mon.made)
      ensures w.mon.known == old(w.mon.known).(network := w.mon.known.network)
      ensures o == Erred(NotIsolated) <==> !w.rules.isolated
      ensures o.Went? && w.rules.validates ==>
                w.last.Some? && w.last.value.c == ValidateIsolation(node) && w.mon.known.network == Some(node)
                && (w.last.value.a.fault.NoFault?
                    || (w.last.value.a.fault.Error? && w.last.value.a.fault.e.unverified))
      ensures Blamed(o, w.last, w.rules)
    {
      if !w.rules.isolated {
        return Erred(NotIsolated);
      }
      if w.rules.validates {
        var a := w.Invoke(ValidateIsolation(node));
        if a.fault == Panic {
          return Crashed;
        }
        if a.fault.Error? && !a.fault.e.unverified {
          return Erred(Provider(a.fault.e));
        }
      }
      return Went;
    }

    method CheckCapacity(node: string) returns (o: Outcome)
      requires w.Valid()
      modifies w
      ensures w.Valid() && w.Advanced() && w.told == old(w.told)
      ensures w.mon.count == old(w.mon.count) && w.mon.made == old(w.mon.made)
      ensures w.mon.known == old(w.mon.known).(capacity := w.mon.known.capacity)
      ensures o.Went? && w.rules.memoryMB > 0 && w.rules.reports ==>
                w.last.Some? && w.last.value.c == NodeCapacity(node) && w.mon.known.capacity == Some(node)
                && w.last.value.a.fault.NoFault? && w.last.value.a.freeBytes >= w.rules.memoryMB * 1048576
      ensures Blamed(o, w.last, w.rules)
    {
      if w.rules.memoryMB <= 0 || !w.rules.reports {
        return Went;
      }
      var a := w.Invoke(NodeCapacity(node));
      if a.fault == Panic {
        return Crashed;
      }
      if a.fault.Error? {
        return Erred(Provider(a.fault.e));
      }
      if a.freeBytes < w.rules.NeededBytes() {
        return Erred(NoCapacity);
      }
      return Went;
    }

    /** The read-only half of preparing, shared with a dry run. */
    method Vet(run: RecoveryRun, p: Plan, opts: RunOptions, idx: nat) returns (node: string, o: Outcome)
      requires Sound(run) && idx < |run.steps| && !run.steps[idx].state.Terminal() && w.mon.known.id.None?
      modifies w, run`node, run`steps
      ensures Sound(run) && w.Advanced() && w.told == old(w.told)
      ensures w.mon.count == old(w.mon.count) && w.mon.made == old(w.mon.made)
      ensures w.mon.known.id.None? && w.mon.known.named == old(w.mon.known.named)
      ensures o.Went? ==> w.mon.known.Node(w.rules, node) && node != "" && run.node == node
      ensures !o.Erred? ==> run.steps == old(run.steps)
      ensures o.Erred? ==> Closed(old(run.steps), run.steps, idx, true)
      ensures if o == Erred(NoNode) then Nowhere(p, opts, run.node, run.backup) else Blamed(o, w.last, w.rules)
    {
      node, o := ResolveNode(run, p, opts);
      if o.Went? {
        o := CheckNetworkIsolation(node);
        if o.Went? {
          o := CheckCapacity(node);
        }
      }
      if o.Erred? {
        EndStep(run, idx, StepFailed, true);
      }
    }

    method Prepare(run: RecoveryRun, p: Plan, opts: RunOptions) returns (tempId: string, node: string, o: Outcome)
      requires Sound(run) && w.mon.known.id.None? && w.mon.count == IDLE.count && !w.mon.known.named
      requires !w.rules.dryRun
      modifies w, run`state, run`steps, run`node, run`tempId
      ensures Sound(run) && w.Advanced() && w.told == old(w.told)
      ensures w.mon.made == old(w.mon.made)
      ensures w.mon.count == IDLE.count || w.mon.count == IDLE.count.(allocates := 1)
      ensures o.Went? ==> w.mon.count == IDLE.count.(allocates := 1)
      ensures StepTaken(old(run.steps), run.steps, PrepareEnvironment, o)
      ensures o.Went? ==> w.mon.known.Owns(tempId) && w.mon.known.named && w.mon.known.Node(w.rules, node)
      ensures o.Went? ==> run.tempId == tempId && run.node == node
      ensures !o.Went? ==> w.mon.known.id.None?
      ensures if o == Erred(NoNode) then Nowhere(p, opts, run.node, run.backup) else Blamed(o, w.last, w.rules)
    {
      tempId := "";
      var idx := BeginStep(run, PrepareEnvironment, Preparing);
      node, o := Vet(run, p, opts, idx);
      if !o.Went? {
        return;
      }
      tempId, o := Reserve(run, idx);
    }

    /** The first call with a side effect, and the identity it hands out. */
    method Reserve(run: RecoveryRun, idx: nat) returns (tempId: string, o: Outcome)
      requires Sound(run) && w.mon.Allows(w.rules, Allocate) && w.mon.known.id.None?
      requires idx < |run.steps| && !run.steps[idx].state.Terminal()
      modifies w, run`steps, run`tempId
      ensures Sound(run) && w.Advanced() && w.told == old(w.told)
      ensures w.mon.made == old(w.mon.made)
      ensures w.mon.count == old(w.mon.count).(allocates := old(w.mon.count.allocates) + 1)
      ensures o.Crashed? ==> run.steps == old(run.steps)
      ensures !o.Crashed? ==> Closed(old(run.steps), run.steps, idx, o.Erred?)
      ensures o.Went? ==> run.tempId == tempId
                          && w.mon.known == old(w.mon.known).(id := Some(tempId), named := true)
      ensures !o.Went? ==> w.mon.known.id.None?
      ensures Blamed(o, w.last, w.rules)
    {
      tempId := "";
      var a := w.Invoke(Allocate);
      if a.fault == Panic {
        return tempId, Crashed;
      }
      if a.fault.Error? {
        EndStep(run, idx, StepFailed, true);
        return tempId, Erred(Provider(a.fault.e));
      }
      tempId := a.id;
      run.tempId := tempId;
      var _ := w.Now();
      var _ := w.Now();
      EndStep(run, idx, StepDone, false);
      return tempId, Went;
    }

    // ---------------------------------------------- restore

    /** Submits the restore once, waits for its job and hardens the result.
        From the moment Restore returns a job, cleanup is owed. */
    method RestoreWorkload(run: RecoveryRun, tempId: string, node: string)
      returns (o: Outcome, needsCleanup: bool)
      requires Sound(run) && run.backup.Some? && !w.rules.dryRun && w.mon.made == IDLE.made
      requires w.mon.known.Owns(tempId) && w.mon.known.named && w.mon.known.Node(w.rules, node)
      requires w.mon.count == IDLE.count.(allocates := 1)
      modifies w, run`state, run`steps
      ensures Sound(run) && w.Advanced() && w.told == old(w.told) && w.mon.known == old(w.mon.known)
      ensures StepTaken(old(run.steps), run.steps, RestoreStep, o)
      ensures w.mon.count == old(w.mon.count).(restores := 1, finalizes := w.mon.count.finalizes)
      ensures needsCleanup == w.mon.made.jobHeld && w.mon.made.from == run.backup
      ensures w.mon.made.results == None && !w.mon.made.deleted && w.mon.made.lastStatus == None
      ensures !w.mon.made.started
      ensures o.Went? ==> w.mon.made.Bootable(w.rules) && w.mon.made.jobHeld
      ensures Blamed(o, w.last, w.rules)
    {
      var idx := BeginStep(run, RestoreStep, Restoring);
      var a := w.Invoke(Restore(tempId, node, run.backup.value));
      needsCleanup := a.fault == NoFault;
      if a.fault == Panic {
        return Crashed, needsCleanup;
      }
      if a.fault.Error? {
        EndStep(run, idx, StepFailed, true);
        return Erred(Provider(a.fault.e)), needsCleanup;
      }
      o := AwaitJob();
      if o.Went? && w.rules.finalizes {
        o := Harden(tempId, node);
      }
      if !o.Crashed? {
        EndStep(run, idx, if o.Went? then StepDone else StepFailed, !o.Went?);
      }
    }

    method AwaitJob() returns (o: Outcome)
      requires w.Valid() && w.mon.made.jobHeld && !w.mon.made.jobDone
      modifies w
      ensures w.Valid() && w.Advanced() && w.told == old(w.told) && w.mon.known == old(w.mon.known)
      ensures w.mon.count == old(w.mon.count)
      ensures w.mon.made == old(w.mon.made).(jobDone := o.Went?)
      ensures o.Went? ==> w.last.Some? && w.last.value.c.WaitForJob? && w.last.value.a.task == Some(true)
      ensures Blamed(o, w.last, w.rules)
    {
      ThreeTimes(w.rules, w.mon, WaitForJob);
      var t, _ := Retry(RunContext, 3, 2 * SECOND, WaitForJob);
      o := if t.fault == Panic then Crashed
           else if t.fault.Error? then Erred(Provider(t.fault.e))
           else if t.task != Some(true) then Erred(JobFailed)
           else Went;
    }

    /** A workload that could not be hardened is never started. */
    method Harden(tempId: string, node: string) returns (o: Outcome)
      requires w.Valid() && w.mon.Allows(w.rules, FinalizeRestore(tempId, node))
      modifies w
      ensures w.Valid() && w.Advanced() && w.told == old(w.told) && w.mon.known == old(w.mon.known)
      ensures w.mon.count == old(w.mon.count).(finalizes := old(w.mon.count.finalizes) + 1)
      ensures w.mon.made == old(w.mon.made).(hardened := o.Went?)
      ensures Blamed(o, w.last, w.rules)
    {
      var f := w.Invoke(FinalizeRestore(tempId, node));
      o := if f.fault == Panic then Crashed
           else if f.fault.Error? then Erred(Provider(f.fault.e))
           else Went;
    }

    // ---------------------------------------------- start and wait

    method StartWorkload(run: RecoveryRun, p: Plan, tempId: string) returns (o: Outcome)
      requires Sound(run) && !w.rules.dryRun && w.mon.known.Owns(tempId) && w.mon.known.named
      requires w.mon.made.Bootable(w.rules) && !w.mon.made.started
      requires w.mon.count.starts == 0 && w.mon.count.NothingAfterStart()
      modifies w, run`state, run`steps
      ensures Sound(run) && w.Advanced() && w.told == old(w.told)
      ensures w.mon.known == old(w.mon.known)
      ensures w.mon.made == old(w.mon.made).(started := o.Went? && !p.startup.skip)
      ensures StepTaken(old(run.steps), run.steps, StartStep, o)
      ensures w.mon.count == old(w.mon.count).(starts := w.mon.count.starts)
      ensures p.startup.skip <==> w.mon.count.starts == 0
      ensures Blamed(o, w.last, w.rules)
    {
      var idx := BeginStep(run, StartStep, Starting);
      if p.startup.skip {
        EndStep(run, idx, StepSkipped, false);
        return Went;
      }
      o := PowerOn(tempId);
      if !o.Crashed? {
        EndStep(run, idx, if o.Went? then StepDone else StepFailed, !o.Went?);
      }
    }

    /** Safe to ask for again, and asked for at most three times. */
    method PowerOn(tempId: string) returns (o: Outcome)
      requires w.Valid() && w.mon.Allows(w.rules, Start(tempId)) && w.mon.count.starts == 0 && !w.mon.made.started
      modifies w
      ensures w.Valid() && w.Advanced() && w.told == old(w.told) && w.mon.known == old(w.mon.known)
      ensures w.mon.made == old(w.mon.made).(started := o.Went?)
      ensures w.mon.count == old(w.mon.count).(starts := w.mon.count.starts) && 1 <= w.mon.count.starts <= 3
      ensures w.last.Some? && w.last.value.c == Start(tempId) && (o.Went? <==> w.last.value.a.fault.NoFault?)
      ensures Blamed(o, w.last, w.rules)
    {
      ThreeTimes(w.rules, w.mon, Start(tempId));
      var a, _ := Retry(RunContext, 3, 2 * SECOND, Start(tempId));
      o := if a.fault == Panic then Crashed
           else if a.fault.Error? then Erred(Provider(a.fault.e))
           else Went;
    }

    /** Polls until the guest is up or the deadline has passed. */
    method AwaitGuest(run: RecoveryRun, p: Plan, tempId: string) returns (o: Outcome)
      requires Sound(run) && w.mon.known.Owns(tempId) && w.mon.known.named
      requires w.mon.made.lastStatus == None && (w.mon.made.started || p.startup.skip)
      modifies w, run`state, run`steps, run`level, run`levels
      ensures Sound(run) && w.Advanced() && w.told == old(w.told) && w.mon.known == old(w.mon.known)
      ensures w.mon.made == old(w.mon.made).(lastStatus := w.mon.made.lastStatus)
      ensures StepTaken(old(run.steps), run.steps, StepName.WaitForGuest, o)
      ensures w.mon.count == old(w.mon.count).(statusReads := w.mon.count.statusReads)
      ensures w.mon.count.statusReads - old(w.mon.count.statusReads)
           <= (if p.startup.skip then 0 else 3 * PollBudget(p.startup.timeout))
      ensures run.level == (if o.Went? && w.mon.made.lastStatus.Some? && w.mon.made.lastStatus.value.agentReady
                            then old(run.level).Raise(ProofBoot) else old(run.level))
      ensures p.startup.skip ==> w.mon.made.lastStatus == None && o.Went?
      ensures o.Went? && !p.startup.skip ==>
                w.mon.made.lastStatus.Some? && GuestReady(w.mon.made.lastStatus.value, p)
      ensures Reasoned(o, w.last, w.rules, p, w.clock, w.ctx)
    {
      var idx := BeginStep(run, StepName.WaitForGuest, WaitingForGuest);
      if p.startup.skip {
        EndStep(run, idx, StepSkipped, false);
        return Went;
      }
      o := Poll(run, p, tempId);
      if !o.Crashed? {
        EndStep(run, idx, if o.Went? then StepDone else StepFailed, !o.Went?);
      }
    }

    /** One poll: a read that is safe to repeat, at most three times. */
    method PollStatus(tempId: string) returns (status: GuestStatus, o: Outcome)
      requires w.Valid() && w.mon.known.Owns(tempId) && w.mon.made.started
      modifies w
      ensures w.Valid() && w.Advanced() && w.told == old(w.told) && w.mon.known == old(w.mon.known)
      ensures w.mon.made == old(w.mon.made).(lastStatus := w.mon.made.lastStatus)
      ensures w.mon.count == old(w.mon.count).(statusReads := w.mon.count.statusReads)
      ensures 1 <= w.mon.count.statusReads - old(w.mon.count.statusReads) <= 3
      ensures o.Went? ==> w.mon.made.lastStatus == Some(status) && w.last.Some? && w.last.value.c.GetStatus?
                          && w.last.value.a.fault.NoFault? && w.last.value.a.status == Some(status)
      ensures Blamed(o, w.last, w.rules)
    {
      status := GuestStatus(false, false, "");
      ThreeTimes(w.rules, w.mon, GetStatus(tempId));
      var a, tries := Retry(RunContext, 3, SECOND, GetStatus(tempId));
      if a.fault == Panic || (a.fault == NoFault && a.status.None?) {
        return status, Crashed;
      }
      if a.fault.Error? {
        return status, Erred(Provider(a.fault.e));
      }
      return a.status.value, Went;
    }

    /** Waits out one polling interval, unless the deadline is already here. */
    method Pause(deadline: int) returns (o: Outcome)
      requires w.Valid()
      modifies w`at, w`clock, w`ctx
      ensures w.Valid() && w.Advanced()
      ensures o == Went || o == Erred(TimedOut) || o == Erred(Interrupted)
      ensures o == Erred(TimedOut) ==> w.clock >= deadline
      ensures o == Erred(Interrupted) ==> w.ctx != Alive
      ensures o.Went? ==> old(w.clock) < deadline
                          && (w.clock >= deadline || w.clock >= old(w.clock) + DEFAULT_GUEST_POLL_EVERY)
    {
      var t := w.Now();
      if t >= deadline {
        return Erred(TimedOut);
      }
      var u := w.Now();
      var wait := if deadline - u < DEFAULT_GUEST_POLL_EVERY then deadline - u else DEFAULT_GUEST_POLL_EVERY;
      var interrupted := w.Sleep(RunContext, wait);
      o := if interrupted then Erred(Interrupted) else Went;
    }

    method Poll(run: RecoveryRun, p: Plan, tempId: string) returns (o: Outcome)
      requires w.Valid() && run.LevelRose()
      requires w.mon.known.Owns(tempId) && w.mon.made.started && w.mon.made.lastStatus == None
      modifies w, run`level, run`levels
      ensures w.Valid() && run.LevelRose() && w.Advanced() && w.told == old(w.told) && w.mon.known == old(w.mon.known)
      ensures w.mon.made == old(w.mon.made).(lastStatus := w.mon.made.lastStatus)
      ensures w.mon.count == old(w.mon.count).(statusReads := w.mon.count.statusReads)
      ensures w.mon.count.statusReads - old(w.mon.count.statusReads) <= 3 * PollBudget(p.startup.timeout)
      ensures run.level == (if o.Went? && w.mon.made.lastStatus.Some? && w.mon.made.lastStatus.value.agentReady
                            then old(run.level).Raise(ProofBoot) else old(run.level))
      ensures o.Went? ==> w.mon.made.lastStatus.Some? && GuestReady(w.mon.made.lastStatus.value, p)
      ensures Reasoned(o, w.last, w.rules, p, w.clock, w.ctx)
    {
      var status;
      status, o := PollUntilReady(p, tempId);
      if o.Went? && status.agentReady {
        run.RaiseLevel(ProofBoot);
      }
    }

    /** Until the guest is ready, a read fails for good, or the time is up. */
    method PollUntilReady(p: Plan, tempId: string) returns (status: GuestStatus, o: Outcome)
      requires w.Valid() && w.mon.known.Owns(tempId) && w.mon.made.started
      modifies w
      ensures w.Valid() && w.Advanced() && w.told == old(w.told) && w.mon.known == old(w.mon.known)
      ensures w.mon.made == old(w.mon.made).(lastStatus := w.mon.made.lastStatus)
      ensures w.mon.count == old(w.mon.count).(statusReads := w.mon.count.statusReads)
      ensures w.mon.count.statusReads - old(w.mon.count.statusReads) <= 3 * PollBudget(p.startup.timeout)
      ensures o.Went? ==> w.mon.made.lastStatus == Some(status) && status.running
      ensures o.Went? && p.startup.waitForAgent == Some(true) ==> status.agentReady
      ensures o.Went? && p.startup.waitForIP == Some(true) && p.startup.ip == "" ==> status.primaryIP != ""
      ensures o == Erred(TimedOut) ==> w.clock >= old(w.clock) + p.startup.timeout
      ensures Reasoned(o, w.last, w.rules, p, w.clock, w.ctx)
    {
      var now := w.Now();
      var deadline := now + p.startup.timeout;
      ghost var polls := 0;
      while true
        invariant w.Valid() && w.Advanced() && w.told == old(w.told) && w.mon.known == old(w.mon.known)
        invariant w.mon.made == old(w.mon.made).(lastStatus := w.mon.made.lastStatus)
        invariant w.mon.count == old(w.mon.count).(statusReads := w.mon.count.statusReads)
        invariant w.mon.count.statusReads - old(w.mon.count.statusReads) <= 3 * polls
        invariant polls > 0 ==> DEFAULT_GUEST_POLL_EVERY * (polls - 1) < p.startup.timeout
        invariant w.clock >= deadline || w.clock >= now + DEFAULT_GUEST_POLL_EVERY * polls
        decreases PollBudget(p.startup.timeout) - polls
      {
        PollsFitTheBudget(p.startup.timeout, polls);
        status, o := PollStatus(tempId);
        if !o.Went? || GuestReady(status, p) {
          return;
        }
        o := Pause(deadline);
        if !o.Went? {
          return;
        }
        polls := polls + 1;
      }
    }

    // ---------------------------------------------- run_checks

    /** Runs the checks, records what they prove, tells the listener about
        each result in order, and judges the critical ones. */
    method RunTheChecks(run: RecoveryRun, p: Plan) returns (o: Outcome)
      requires Sound(run) && run.checks == [] && w.told == []
      requires w.mon.made.results == None && w.mon.made.Bootable(w.rules)
      modifies w, run`state, run`steps, run`level, run`levels, run`checks
      ensures Sound(run) && w.Advanced()
      ensures w.mon.known == Heard(old(w.mon)).known && w.mon.count == old(w.mon.count)
      ensures StepTaken(old(run.steps), run.steps, StepName.RunChecks, o)
      ensures o.Crashed? ==> w.mon.made == old(w.mon.made) && run.level == old(run.level)
      ensures o.Crashed? ==> run.checks == [] && w.told == []
      ensures !o.Crashed? ==> w.mon.made == old(w.mon.made).(results := Some(run.checks)) && w.told == run.checks
      ensures !o.Crashed? ==> o == Judge(p.checks, run.checks)
      ensures !o.Crashed? ==> run.level == LevelFor(Some(run.checks), p, old(run.level))
      ensures o.Crashed? ==> Blamed(o, w.last, w.rules)
    {
      var idx := BeginStep(run, StepName.RunChecks, RunningChecks);
      o := Question(run, p);
      if !o.Crashed? {
        EndStep(run, idx, if o.Went? then StepDone else StepFailed, !o.Went?);
      }
    }

    method Question(run: RecoveryRun, p: Plan) returns (o: Outcome)
      requires Sound(run) && run.checks == [] && w.told == [] && w.mon == Heard(w.mon)
      requires w.mon.made.results == None && w.mon.made.Bootable(w.rules)
      modifies w, run`level, run`levels, run`checks
      ensures Sound(run) && w.Advanced() && w.mon.known == old(w.mon.known) && w.mon.count == old(w.mon.count)
      ensures o.Crashed? ==> w.mon.made == old(w.mon.made) && run.level == old(run.level)
      ensures o.Crashed? ==> run.checks == [] && w.told == [] && Blamed(o, w.last, w.rules)
      ensures !o.Crashed? ==> w.mon.made == old(w.mon.made).(results := Some(run.checks)) && w.told == run.checks
      ensures !o.Crashed? ==> o == Judge(p.checks, run.checks)
      ensures !o.Crashed? ==> run.level == LevelFor(Some(run.checks), p, old(run.level))
    {
      o := Execute(run, p);
      if o.Went? {
        TellResults(run);
        o := Verdict(p, run.checks);
      }
    }

    /** The level is recorded before the verdict is decided. */
    method Execute(run: RecoveryRun, p: Plan) returns (o: Outcome)
      requires w.Valid() && run.LevelRose() && w.mon.Allows(w.rules, RunAllChecks)
      modifies w, run`level, run`levels, run`checks
      ensures w.Valid() && run.LevelRose() && w.Advanced() && w.told == old(w.told)
      ensures w.mon.known == old(w.mon.known) && w.mon.count == old(w.mon.count)
      ensures o == Went || o == Crashed
      ensures o.Crashed? ==> w.mon.made == old(w.mon.made)
                             && run.level == old(run.level) && run.checks == old(run.checks)
      ensures o.Went? ==> w.mon.made == old(w.mon.made).(results := Some(run.checks))
      ensures o.Went? ==> run.level == LevelFor(Some(run.checks), p, old(run.level))
      ensures Blamed(o, w.last, w.rules)
    {
      var cfgs := Configs(p.checks);
      var a := w.Invoke(RunAllChecks);
      if a.fault == Panic {
        return Crashed;
      }
      run.checks := a.results;
      var proven := ProvenBy(Pairs(cfgs, run.checks));
      run.RaiseLevel(proven);
      return Went;
    }

    /** One event per result, in order. */
    method TellResults(run: RecoveryRun)
      requires Sound(run) && w.told == [] && w.mon == Heard(w.mon)
      modifies w
      ensures Sound(run) && w.Advanced() && w.told == run.checks && w.mon == old(w.mon) && w.last == old(w.last)
    {
      TakeEnds(run.checks);
      for i := 0 to |run.checks|
        invariant Sound(run) && w.Advanced() && w.told == run.checks[..i]
        invariant w.mon == old(w.mon) && w.last == old(w.last)
      {
        TakeNext(run.checks, i);
        TellOne(run, run.checks[i]);
      }
    }

    method TellOne(run: RecoveryRun, r: CheckResult)
      requires Sound(run)
      modifies w
      ensures Sound(run) && w.Advanced() && w.told == old(w.told) + [r] && w.mon == Heard(old(w.mon))
      ensures w.last == old(w.last) && w.log != []
      ensures w.log[|w.log| - 1]
              == Emitted(Event(RunningChecks, StepName.RunChecks,
                               if r.status == CheckPass then StepDone
                               else if r.status == CheckSkipped then StepSkipped else StepFailed,
                               false, run.tempId, run.node, Some(r)))
    {
      var _ := w.Now();
      w.Emit(Event(RunningChecks, StepName.RunChecks, StepStatusForCheck(r.status), false,
                   run.tempId, run.node, Some(r)));
    }

    method Verdict(p: Plan, results: seq<CheckResult>) returns (o: Outcome)
      ensures o == Judge(p.checks, results)
    {
      var failed, unevaluated := Classify(p, results);
      o := if failed != [] then Erred(ChecksFailed(failed))
           else if unevaluated != [] then Erred(ChecksInconclusive(unevaluated))
           else Went;
    }

    /** Splits what a critical check answered: bad news, and no news at all. */
    method Classify(p: Plan, results: seq<CheckResult>) returns (failed: seq<string>, unevaluated: seq<string>)
      ensures failed == FailedCritical(p.checks, results)
      ensures unevaluated == Unevaluated(p.checks, results)
    {
      var critical := CriticalByName(p.checks);
      failed, unevaluated := [], [];
      for i := 0 to |results|
        invariant failed == FailedCritical(p.checks, results[..i])
        invariant unevaluated == Unevaluated(p.checks, results[..i])
      {
        var r := results[i];
        TakeNext(results, i);
        OneMoreJudged(p.checks, results[..i], r);
        if r.OK() || !(r.name in critical && critical[r.name]) {
          continue;
        }
        if r.status == CheckError {
          unevaluated := unevaluated + [r.name];
          continue;
        }
        failed := failed + [r.name];
      }
      TakeEnds(results);
    }

    method CriticalByName(checks: seq<CheckSpec>) returns (m: map<string, bool>)
      ensures m == CriticalMap(checks)
    {
      m := map[];
      for i := 0 to |checks|
        invariant m == CriticalMap(checks[..i])
      {
        assert checks[..i + 1][..i] == checks[..i];
        m := m[checks[i].DisplayName() := checks[i].IsCritical()];
      }
      assert checks[..|checks|] == checks;
    }

    // ---------------------------------------------- grading

    /** The first finished step of that name, scanning from the front. */
    method StepEnd(run: RecoveryRun, name: StepName) returns (end: Option<int>)
      ensures end == EndOf(run.steps, name)
    {
      for i := 0 to |run.steps|
        invariant EndOf(run.steps, name) == EndOf(run.steps[i..], name)
      {
        if run.steps[i].name == name && run.steps[i].status != StepRunning {
          return run.steps[i].completedAt;
        }
      }
      return None;
    }

    /** To the end of run_checks, or of wait_for_guest, or nothing. */
    method ComputeRTO(run: RecoveryRun) returns (rto: int)
      ensures rto == TimeTaken(run.steps, run.startedAt)
    {
      var end := StepEnd(run, StepName.RunChecks);
      if end.None? {
        end := StepEnd(run, StepName.WaitForGuest);
      }
      rto := if end.Some? then end.value - run.startedAt else 0;
    }

    method GradeSuccess(run: RecoveryRun, p: Plan)
      modifies run`state, run`result
      ensures run.state == RunSuccess
      ensures run.result == Grade(p.checks, run.checks, run.rto, run.rtoTarget)
    {
      var degraded := run.RTOExceeded();
      if !degraded {
        var critical := CriticalByName(p.checks);
        for i := 0 to |run.checks|
          invariant !degraded && !AnyDegrades(p.checks, run.checks[..i])
        {
          var c := run.checks[i];
          if c.status == CheckFail && !(c.name in critical && critical[c.name]) {
            AnyDegradesMeans(p.checks, run.checks);
            assert c in run.checks && Degrades(p.checks, c);
            degraded := true;
            break;
          }
          assert run.checks[..i + 1][..i] == run.checks[..i];
        }
        assert run.checks[..|run.checks|] == run.checks;
      }
      run.state := RunSuccess;
      run.result := if degraded then ResultDegraded else ResultSuccess;
    }

    method MarkFailed(run: RecoveryRun, e: Err)
      modifies run`state, run`result, run`err
      ensures run.state == RunFailed && run.result == ResultFailed && run.err == Says(e)
    {
      run.result, run.state, run.err := ResultFailed, RunFailed, Says(e);
    }

    method MarkInconclusive(run: RecoveryRun, e: Err)
      modifies run`state, run`result, run`err
      ensures run.state == RunInconclusive && run.result == NoResult && run.err == Says(e)
    {
      run.state, run.result, run.err := RunInconclusive, NoResult, Says(e);
    }

    method MarkCancelled(run: RecoveryRun, e: Err)
      modifies run`state, run`result, run`err
      ensures run.state == RunCancelled && run.result == NoResult && run.err == SaysCancelled(e)
    {
      run.state, run.result, run.err := RunCancelled, NoResult, SaysCancelled(e);
    }

    // ---------------------------------------------- the workflow

    /** How the workflow's own ending is written on the run. */
    ghost predicate Marked(run: RecoveryRun, p: Plan, o: Outcome)
      reads run
    {
      match o
      case Crashed => true
      case Went =>
        && run.state == RunSuccess && run.err == Quiet
        && run.result == Grade(p.checks, run.checks, run.rto, run.rtoTarget)
      case Erred(e) =>
        if e.ChecksInconclusive? then
          run.state == RunInconclusive && run.result == NoResult && run.err == Says(e)
        else run.state == RunFailed && run.result == ResultFailed && run.err == Says(e)
    }

    /** Resolves the backup and validates the plan; creates nothing. */
    method Rehearse(run: RecoveryRun, p: Plan, opts: RunOptions) returns (o: Outcome)
      requires Sound(run) && w.mon == IDLE && w.told == [] && run.checks == [] && run.level == ProofNone
      modifies w, run`sourceName, run`node, run`backup, run`state, run`steps
      ensures Sound(run) && w.Advanced() && w.told == [] && w.announced
      ensures w.mon.count == IDLE.count && w.mon.made == IDLE.made && w.mon.known.id.None?
      ensures o.Went? ==> run.backup.Some? && run.node != "" && w.mon.known.Node(w.rules, run.node)
      ensures o.Went? && p.backup.strategy.Specific? ==> run.backup.value.id == p.backup.id
      ensures o.Went? && p.backup.maxAge > 0 ==> old(w.clock) - run.backup.value.createdAt <= p.backup.maxAge
      ensures Due(o, w.last, w.rules, p, opts, w.clock, w.ctx, run.node, run.backup)
    {
      o := Discover(run, p);
      if o.Went? {
        o := VetDry(run, p, opts);
      }
    }

    method MarkRehearsed(run: RecoveryRun, p: Plan, o: Outcome)
      requires run.rto == 0 && run.err == Quiet && run.checks == []
      requires o.Erred? ==> !o.e.ChecksInconclusive?
      modifies run`state, run`result, run`err, run`cleanupDone
      ensures Marked(run, p, o)
      ensures o.Went? ==> run.cleanupDone && run.result == ResultSuccess
    {
      if o.Went? {
        run.state, run.result, run.cleanupDone := RunSuccess, ResultSuccess, true;
      } else if o.Erred? {
        MarkFailed(run, o.e);
      }
    }

    method VetDry(run: RecoveryRun, p: Plan, opts: RunOptions) returns (o: Outcome)
      requires Sound(run) && w.mon.known.id.None?
      modifies w, run`state, run`steps, run`node
      ensures Sound(run) && w.Advanced() && w.told == old(w.told)
      ensures w.mon.count == old(w.mon.count) && w.mon.made == old(w.mon.made) && w.mon.known.id.None?
      ensures StepTaken(old(run.steps), run.steps, PrepareEnvironment, o)
      ensures o.Went? ==> run.node != "" && w.mon.known.Node(w.rules, run.node)
      ensures if o == Erred(NoNode) then Nowhere(p, opts, run.node, run.backup) else Blamed(o, w.last, w.rules)
    {
      var idx := BeginStep(run, PrepareEnvironment, Preparing);
      var node;
      node, o := Vet(run, p, opts, idx);
      if o.Went? {
        run.node := node;
        EndStep(run, idx, StepDone, false);
      }
    }

    /** The workflow of a real drill, up to the point where it is graded. */
    method Drill(run: RecoveryRun, p: Plan, opts: RunOptions)
      returns (o: Outcome, tempId: string, node: string, needsCleanup: bool, ghost base: ProofLevel)
      requires Sound(run) && w.mon == IDLE && w.told == [] && !w.rules.dryRun
      requires run.checks == [] && run.level == ProofNone && run.steps == [] && run.rto == 0 && !opts.dryRun
      requires w.clock >= run.startedAt
      modifies w, run`sourceName, run`tempId, run`node, run`backup
      modifies run`state, run`steps, run`level, run`levels, run`checks, run`rto
      ensures Sound(run) && w.Advanced() && w.announced
      ensures needsCleanup == w.mon.made.jobHeld
      ensures needsCleanup ==> w.mon.known.Owns(tempId) && w.mon.known.named
                               && tempId == run.tempId && node == run.node
      ensures w.mon.count.NothingAfterStart() && !w.mon.made.deleted
      ensures Accounted(AccountOf(run), w.rules, p, opts, run.startedAt, o, base, Now())
      ensures o.Went? || w.mon.made.results.Some? ==> TimedBy(run.steps, p, run.rto, run.startedAt)
    {
      needsCleanup, base := false, ProofNone;
      tempId, node, o := Secure(run, p, opts);
      if o.Went? {
        o, needsCleanup, base := Recover(run, p, tempId, node);
      }
    }

    /** A backup to restore, and a place for it. */
    method Secure(run: RecoveryRun, p: Plan, opts: RunOptions) returns (tempId: string, node: string, o: Outcome)
      requires Sound(run) && w.mon == IDLE && w.told == [] && !w.rules.dryRun && run.steps == []
      modifies w, run`sourceName, run`tempId, run`node, run`backup, run`state, run`steps
      ensures Sound(run) && w.Advanced() && w.told == [] && w.announced && w.mon.made == IDLE.made
      ensures w.mon.count == IDLE.count || w.mon.count == IDLE.count.(allocates := 1)
      ensures o.Went? ==> w.mon.count == IDLE.count.(allocates := 1)
      ensures o.Went? ==> w.mon.known.Owns(tempId) && w.mon.known.named && w.mon.known.Node(w.rules, node)
      ensures o.Went? ==> run.tempId == tempId && run.node == node
      ensures o.Went? ==> run.backup.Some? && Usable(p, run.backup.value, old(w.clock))
      ensures o.Went? ==> |run.steps| == 2 && run.steps[0].name == StepName.DiscoverBackup
                          && run.steps[1].name == PrepareEnvironment
      ensures Due(o, w.last, w.rules, p, opts, w.clock, w.ctx, run.node, run.backup)
    {
      tempId, node := "", "";
      o := Discover(run, p);
      if o.Went? {
        tempId, node, o := Prepare(run, p, opts);
      }
    }

    method Recover(run: RecoveryRun, p: Plan, tempId: string, node: string)
      returns (o: Outcome, needsCleanup: bool, ghost base: ProofLevel)
      requires Sound(run) && run.backup.Some? && !w.rules.dryRun && w.mon.made == IDLE.made
      requires w.mon.known.Owns(tempId) && w.mon.known.named && w.mon.known.Node(w.rules, node)
      requires w.mon.count == IDLE.count.(allocates := 1)
      requires run.checks == [] && w.told == [] && run.level == ProofNone && |run.steps| == 2
      requires run.steps[0].name == StepName.DiscoverBackup && run.steps[1].name == PrepareEnvironment
      modifies w, run`state, run`steps, run`level, run`levels, run`checks, run`rto
      ensures Sound(run) && w.Advanced() && w.mon.known == old(w.mon.known)
      ensures needsCleanup == w.mon.made.jobHeld && w.mon.made.from == run.backup
      ensures w.mon.count.NothingAfterStart() && !w.mon.made.deleted
      ensures w.mon.count.statusReads <= 3 * PollBudget(p.startup.timeout)
      ensures && JudgedByChecks(w.mon.made.results, w.told, p, run.checks, o)
              && BaseLevel(w.mon.made.lastStatus, base)
              && run.level == LevelFor(w.mon.made.results, p, base)
      ensures o.Went? || w.mon.made.results.Some? ==>
                TimedBy(run.steps, p, run.rto, run.startedAt) && Booted(p, w.mon.made.lastStatus, base)
      ensures !o.Went? && w.mon.made.results.None? ==> run.rto == old(run.rto)
      ensures o.Went? && p.checks != [] ==> w.mon.made.results.Some?
      ensures w.mon.made.results.None? ==> Reasoned(o, w.last, w.rules, p, w.clock, w.ctx)
    {
      base := ProofNone;
      o, needsCleanup := RestoreWorkload(run, tempId, node);
      if o.Went? {
        o, base := Exercise(run, p, tempId);
      }
    }

    /** Writes the workflow's ending on the run. */
    method Settle(run: RecoveryRun, p: Plan, o: Outcome)
      requires run.err == Quiet
      modifies run`state, run`result, run`err
      ensures Marked(run, p, o)
    {
      if o.Went? {
        GradeSuccess(run, p);
      } else if o.Erred? {
        if o.e.ChecksInconclusive? {
          MarkInconclusive(run, o.e);
        } else {
          MarkFailed(run, o.e);
        }
      }
    }

    /** Boot, wait, check, and stop the clock. */
    method Exercise(run: RecoveryRun, p: Plan, tempId: string) returns (o: Outcome, ghost base: ProofLevel)
      requires Sound(run) && !w.rules.dryRun && w.mon.known.Owns(tempId) && w.mon.known.named
      requires w.mon.made.Bootable(w.rules) && w.mon.made.results == None && w.mon.made.lastStatus == None
      requires !w.mon.made.started
      requires w.mon.count.starts == 0 && w.mon.count.statusReads == 0 && w.mon.count.NothingAfterStart()
      requires run.checks == [] && w.told == [] && run.level == ProofNone
      requires |run.steps| == 3
      requires forall i :: 0 <= i < 3 ==> run.steps[i].name != StepName.WaitForGuest
                                          && run.steps[i].name != StepName.RunChecks
      modifies w, run`state, run`steps, run`level, run`levels, run`checks, run`rto
      ensures Sound(run) && w.Advanced() && w.mon.known == old(w.mon.known)
      ensures w.mon.made == old(w.mon.made).(started := w.mon.made.started, lastStatus := w.mon.made.lastStatus,
                                            results := w.mon.made.results)
      ensures w.mon.count == old(w.mon.count).(starts := w.mon.count.starts, statusReads := w.mon.count.statusReads)
      ensures w.mon.count.statusReads <= 3 * PollBudget(p.startup.timeout)
      ensures && JudgedByChecks(w.mon.made.results, w.told, p, run.checks, o)
              && BaseLevel(w.mon.made.lastStatus, base)
              && run.level == LevelFor(w.mon.made.results, p, base)
      ensures o.Went? || w.mon.made.results.Some? ==>
                TimedBy(run.steps, p, run.rto, run.startedAt) && Booted(p, w.mon.made.lastStatus, base)
      ensures !o.Went? && w.mon.made.results.None? ==> run.rto == old(run.rto)
      ensures o.Went? && p.checks != [] ==> w.mon.made.results.Some?
      ensures w.mon.made.results.None? ==> Reasoned(o, w.last, w.rules, p, w.clock, w.ctx)
    {
      o := Boot(run, p, tempId);
      base := run.level;
      if o.Went? {
        o := Examine(run, p);
      }
    }

    method Boot(run: RecoveryRun, p: Plan, tempId: string) returns (o: Outcome)
      requires Sound(run) && !w.rules.dryRun && w.mon.known.Owns(tempId) && w.mon.known.named
      requires w.mon.made.Bootable(w.rules) && w.mon.made.lastStatus == None && !w.mon.made.started
      requires w.mon.count.starts == 0 && w.mon.count.statusReads == 0 && w.mon.count.NothingAfterStart()
      requires run.level == ProofNone
      modifies w, run`state, run`steps, run`level, run`levels
      ensures Sound(run) && w.Advanced() && w.told == old(w.told) && w.mon.known == old(w.mon.known)
      ensures w.mon.made == old(w.mon.made).(started := w.mon.made.started, lastStatus := w.mon.made.lastStatus)
      ensures w.mon.count == old(w.mon.count).(starts := w.mon.count.starts, statusReads := w.mon.count.statusReads)
      ensures w.mon.count.statusReads <= 3 * PollBudget(p.startup.timeout)
      ensures BaseLevel(w.mon.made.lastStatus, run.level)
      ensures Reasoned(o, w.last, w.rules, p, w.clock, w.ctx)
      ensures o.Went? ==> Booted(p, w.mon.made.lastStatus, run.level)
      ensures o.Went? ==> |run.steps| == |old(run.steps)| + 2
      ensures o.Went? ==> forall i :: 0 <= i < |old(run.steps)| ==> run.steps[i] == old(run.steps[i])
      ensures o.Went? ==> run.steps[|run.steps| - 2].name == StartStep
      ensures o.Went? ==> run.steps[|run.steps| - 1].name == StepName.WaitForGuest
                          && run.steps[|run.steps| - 1].status != StepRunning
                          && run.steps[|run.steps| - 1].completedAt.Some?
    {
      o := StartWorkload(run, p, tempId);
      if o.Went? {
        o := AwaitGuest(run, p, tempId);
      }
    }

    /** Runs the checks, if there are any, and measures the recovery time. */
    method Examine(run: RecoveryRun, p: Plan) returns (o: Outcome)
      requires Sound(run) && run.checks == [] && w.told == [] && w.mon.made.results == None
      requires w.mon.known.named && Waited(run.steps) && w.mon.made.Bootable(w.rules)
      modifies w, run`state, run`steps, run`level, run`levels, run`checks, run`rto
      ensures Sound(run) && w.Advanced() && w.mon.known == old(w.mon.known) && w.mon.count == old(w.mon.count)
      ensures w.mon.made == old(w.mon.made).(results := w.mon.made.results)
      ensures JudgedByChecks(w.mon.made.results, w.told, p, run.checks, o)
      ensures run.level == LevelFor(w.mon.made.results, p, old(run.level))
      ensures o.Went? || w.mon.made.results.Some? ==> TimedBy(run.steps, p, run.rto, run.startedAt)
      ensures !o.Went? && w.mon.made.results.None? ==> run.rto == old(run.rto)
      ensures o.Went? && p.checks != [] ==> w.mon.made.results.Some?
      ensures w.mon.made.results.None? ==> Blamed(o, w.last, w.rules)
    {
      if p.checks == [] {
        StopTheClock(run, p);
        return Went;
      }
      o := CheckIt(run, p);
    }

    method CheckIt(run: RecoveryRun, p: Plan) returns (o: Outcome)
      requires Sound(run) && run.checks == [] && w.told == [] && w.mon.made.results == None
      requires p.checks != [] && w.mon.known.named && Waited(run.steps) && w.mon.made.Bootable(w.rules)
      modifies w, run`state, run`steps, run`level, run`levels, run`checks, run`rto
      ensures Sound(run) && w.Advanced() && w.mon.known == old(w.mon.known) && w.mon.count == old(w.mon.count)
      ensures w.mon.made == old(w.mon.made).(results := w.mon.made.results)
      ensures JudgedByChecks(w.mon.made.results, w.told, p, run.checks, o)
      ensures run.level == LevelFor(w.mon.made.results, p, old(run.level))
      ensures o.Went? || w.mon.made.results.Some? ==> TimedBy(run.steps, p, run.rto, run.startedAt)
      ensures !o.Went? && w.mon.made.results.None? ==> run.rto == old(run.rto)
      ensures o.Went? && p.checks != [] ==> w.mon.made.results.Some?
      ensures w.mon.made.results.None? ==> Blamed(o, w.last, w.rules)
    {
      ghost var before := run.steps;
      o := RunTheChecks(run, p);
      if !o.Crashed? {
        ChecksFollow(before, run.steps, o);
        StopTheClock(run, p);
      }
    }

    method StopTheClock(run: RecoveryRun, p: Plan)
      requires if p.checks == [] then Waited(run.steps) else Checked(run.steps)
      modifies run`rto
      ensures TimedBy(run.steps, p, run.rto, run.startedAt)
      ensures var n := if p.checks == [] then 4 else 5;
        n < |run.steps| && run.steps[n].completedAt == Some(run.startedAt + run.rto)
    {
      if p.checks == [] {
        LastStepEnds(run.steps, StepName.WaitForGuest);
        NoSuchStep(run.steps, StepName.RunChecks);
      } else {
        LastStepEnds(run.steps, StepName.RunChecks);
      }
      run.rto := ComputeRTO(run);
    }

    // ---------------------------------------------- the deferred cleanup

    /** Decides whether the workload is kept; otherwise stops and deletes it.
        Whatever happens here, the graded state survives unless the delete
        itself failed. */
    method CleanUp(run: RecoveryRun, p: Plan, opts: RunOptions, tempId: string, node: string, needsCleanup: bool)
      returns (d: Option<ProviderError>)
      requires Sound(run) && needsCleanup == w.mon.made.jobHeld
      requires needsCleanup ==> !w.rules.dryRun && w.mon.known.Owns(tempId) && w.mon.known.named
      requires w.mon.count.NothingAfterStart() && !w.mon.made.deleted
      modifies w, run`state, run`steps, run`cleanupDone, run`err
      ensures Sound(run) && w.Advanced() && w.told == old(w.told) && w.mon.known == old(w.mon.known)
      ensures w.mon.made == old(w.mon.made).(deleted := w.mon.made.deleted)
      ensures w.mon.count == old(w.mon.count).(stops := w.mon.count.stops, deletes := w.mon.count.deletes)
      ensures |run.steps| >= |old(run.steps)|
      ensures forall i :: 0 <= i < |old(run.steps)| ==> run.steps[i] == old(run.steps[i])
      ensures run.state == if d.Some? then RunCleanupFailed else old(run.state)
      ensures run.err == if d.Some? then SaysOrphaned(tempId, node) else old(run.err)
      ensures w.last == old(w.last)
      ensures run.cleanupDone <==> !needsCleanup || w.mon.made.deleted
      ensures var incomplete := old(run.result) == ResultFailed || old(run.state) == RunFailed
                                || old(run.state) == RunCancelled || old(run.state) == RunInconclusive;
        w.mon.count.deletes == 0 <==>
          !needsCleanup || opts.keepWorkload || (incomplete && p.cleanup.keepOnFailure)
          || (!incomplete && p.cleanup.always == Some(false))
      ensures w.mon.count.deletes == 0 ==> w.mon.count.stops == 0 && d.None? && !w.mon.made.deleted
      ensures w.mon.count.deletes > 0 ==> w.mon.count.deletes == 1 && w.mon.count.stops >= 1
      ensures w.mon.count.deletes > 0 ==> (d.None? <==> w.mon.made.deleted)
      ensures needsCleanup && w.mon.count.deletes == 0 ==>
                run.steps != [] && run.steps[|run.steps| - 1].name == Cleanup
                && run.steps[|run.steps| - 1].status == StepSkipped
    {
      if !needsCleanup {
        run.cleanupDone := true;
        return None;
      }
      var incomplete := Incomplete(run.result, run.state);
      if opts.keepWorkload {
        LeaveRunning(run);
        return None;
      }
      if incomplete && p.cleanup.keepOnFailure {
        LeaveRunning(run);
        return None;
      }
      if !incomplete && !p.cleanup.CleanupAlways() {
        LeaveRunning(run);
        return None;
      }
      d := TearDown(run, tempId, node);
    }

    /** The cleanup, as it looks from the run. */
    method Dispose(run: RecoveryRun, p: Plan, opts: RunOptions,
                   tempId: string, node: string, needsCleanup: bool, ghost timed: bool)
      returns (d: Option<ProviderError>)
      requires Sound(run) && needsCleanup == w.mon.made.jobHeld
      requires needsCleanup ==> !w.rules.dryRun && w.mon.known.Owns(tempId) && w.mon.known.named
      requires w.mon.count.NothingAfterStart() && !w.mon.made.deleted
      modifies w, run`state, run`steps, run`cleanupDone, run`err
      ensures Sound(run) && w.Advanced() && w.told == old(w.told) && w.last == old(w.last)
      ensures w.mon.made == old(w.mon.made).(deleted := w.mon.made.deleted)
      ensures w.mon.count.statusReads == old(w.mon.count.statusReads)
      requires timed ==> TimedBy(run.steps, p, run.rto, run.startedAt)
      ensures timed ==> TimedBy(run.steps, p, run.rto, run.startedAt)
      ensures run.state == if d.Some? then RunCleanupFailed else old(run.state)
      ensures run.err == if d.Some? then SaysOrphaned(tempId, node) else old(run.err)
      ensures d.Some? ==> needsCleanup
      ensures LeftBehind(w.mon, opts, p, Incomplete(old(run.result), old(run.state)), d.Some?,
                         run.cleanupDone, run.steps)
    {
      ghost var result, state := run.result, run.state;
      d := CleanUp(run, p, opts, tempId, node, needsCleanup);
      PolicyDecides(w.mon, opts, p, result, state, d.Some?, run.cleanupDone, run.steps);
    }

    /** Records the skipped cleanup, and gives the run its graded state back. */
    method LeaveRunning(run: RecoveryRun)
      requires Sound(run) && Heard(w.mon) == w.mon
      modifies w, run`state, run`steps, run`cleanupDone
      ensures Sound(run) && w.Advanced() && w.told == old(w.told) && w.mon == old(w.mon) && w.last == old(w.last)
      ensures |run.steps| == |old(run.steps)| + 1 && run.state == old(run.state)
      ensures forall i :: 0 <= i < |old(run.steps)| ==> run.steps[i] == old(run.steps[i])
      ensures !run.cleanupDone && SkipRecorded(run.steps)
    {
      var graded := run.state;
      var idx := BeginStep(run, Cleanup, CleaningUp);
      EndStep(run, idx, StepSkipped, false);
      run.cleanupDone := false;
      run.state := graded;
    }

    /** Stop may be retried and may fail; Delete is issued once, and its
        failure is an orphan that trumps every other state. */
    method TearDown(run: RecoveryRun, tempId: string, node: string) returns (d: Option<ProviderError>)
      requires Sound(run) && !w.rules.dryRun && w.mon.made.jobHeld
      requires w.mon.known.Owns(tempId) && w.mon.known.named && w.mon.count.NothingAfterStart()
      modifies w, run`state, run`steps, run`cleanupDone, run`err
      ensures Sound(run) && w.Advanced() && w.told == old(w.told) && w.mon.known == old(w.mon.known)
      ensures w.mon.made == old(w.mon.made).(deleted := d.None?)
      ensures w.mon.count == old(w.mon.count).(stops := w.mon.count.stops, deletes := 1)
      ensures 1 <= w.mon.count.stops && run.cleanupDone == d.None? && w.last == old(w.last)
      ensures w.teardownBy == old(w.clock) + 600_000_000_000
      ensures |run.steps| == |old(run.steps)| + 1
      ensures forall i :: 0 <= i < |old(run.steps)| ==> run.steps[i] == old(run.steps[i])
      ensures d.Some? ==> run.state == RunCleanupFailed && run.err == SaysOrphaned(tempId, node)
      ensures d.None? ==> run.state == old(run.state) && run.err == old(run.err)
    {
      var graded := run.state;
      w.OpenTeardown();
      var idx := BeginStep(run, Cleanup, CleaningUp);
      ghost var stops;
      d, stops := Destroy(tempId);
      NoteTeardown(run, idx, tempId, node, d, graded);
    }

    method NoteTeardown(
        run: RecoveryRun, idx: nat, tempId: string, node: string, d: Option<ProviderError>, graded: RunState)
      requires Sound(run) && idx < |run.steps| && !run.steps[idx].state.Terminal()
      modifies w, run`state, run`steps, run`cleanupDone, run`err
      ensures Sound(run) && w.Advanced() && w.told == old(w.told) && w.mon == Heard(old(w.mon))
      ensures |run.steps| == |old(run.steps)| && w.last == old(w.last) && w.teardownBy == old(w.teardownBy)
      ensures forall i :: 0 <= i < |run.steps| && i != idx ==> run.steps[i] == old(run.steps[i])
      ensures run.cleanupDone == d.None?
      ensures run.state == if d.Some? then RunCleanupFailed else graded
      ensures run.err == if d.Some? then SaysOrphaned(tempId, node) else old(run.err)
    {
      run.cleanupDone := d.None?;
      if d.Some? {
        run.state, run.err := RunCleanupFailed, SaysOrphaned(tempId, node);
      }
      EndStep(run, idx, if d.Some? then StepFailed else StepDone, d.Some?);
      if d.None? {
        run.state := graded;
      }
    }

    /** Stops the workload as well as it can be stopped, and deletes it once. */
    method Destroy(tempId: string) returns (d: Option<ProviderError>, ghost stops: seq<Action>)
      requires w.Valid() && !w.rules.dryRun && w.mon.made.jobHeld && w.mon.known.Owns(tempId)
      requires w.mon.count.NothingAfterStart()
      modifies w
      ensures w.Valid() && w.Advanced() && w.told == old(w.told) && w.mon.known == old(w.mon.known)
      ensures w.mon.made == old(w.mon.made).(deleted := d.None?)
      ensures w.mon.count == old(w.mon.count).(stops := w.mon.count.stops, deletes := 1)
      ensures w.mon.count.stops == |stops| && 1 <= |stops| <= 3 && w.last == old(w.last)
      ensures w.teardownBy == old(w.teardownBy)
      ensures forall k :: 0 <= k < |stops| ==> stops[k].Called? && stops[k].c == Stop(tempId)
      ensures var last := stops[|stops| - 1].a.refused;
        |stops| < 3 && last.Some? && last.value.retryable ==> w.clock >= w.teardownBy
    {
      ThreeTimes(w.rules, w.mon, Stop(tempId));
      var last;
      last, stops := Retry(CleanupContext, 3, 2 * SECOND, Stop(tempId));
      var a := w.Invoke(Delete(tempId));
      d := a.refused;
    }

    // ---------------------------------------------- Run

    method Finalize(run: RecoveryRun)
      requires w.Valid()
      modifies w`at, w`clock, w`ctx, run`completedAt, run`state
      ensures w.Valid() && w.Advanced() && run.completedAt.Some?
      ensures run.state == if old(run.state) == Unset then RunFailed else old(run.state)
    {
      if run.completedAt.None? {
        var t := w.Now();
        run.completedAt := Some(t);
      }
      if run.state == Unset {
        run.state := RunFailed;
      }
    }

    /** What the deferred block does to the ending before it cleans up: a panic
        is a failure, and a failed workflow whose context was cancelled was
        stopped rather than failed. */
    method Reconsider(run: RecoveryRun, p: Plan, o: Outcome) returns (ending: Ending)
      requires Marked(run, p, o)
      modifies run`state, run`result, run`err
      ensures ending == EndingOf(o, w.ctx) && EndsAs(run, p, ending)
      ensures o.Erred? && w.ctx == Canceled ==>
                run.state == RunCancelled && run.result == NoResult && run.err == SaysCancelled(o.e)
      ensures o.Erred? && w.ctx != Canceled ==>
                run.state == old(run.state) && run.result == old(run.result) && run.err == old(run.err)
      ensures o.Crashed? ==> run.state == RunFailed && run.result == ResultFailed && run.err == Says(RecoveredPanic)
    {
      ending := EndingOf(o, w.ctx);
      if o.Crashed? {
        MarkFailed(run, RecoveredPanic);
      } else if o.Erred? && w.ctx == Canceled {
        MarkCancelled(run, o.e);
      }
    }

    method NewRun(p: Plan, opts: RunOptions) returns (run: RecoveryRun)
      requires w.Valid()
      modifies w`at, w`clock, w`ctx
      ensures fresh(run) && w.Valid() && run.LevelRose() && run.id == opts.runId
      ensures run.startedAt == w.clock && run.rtoTarget == p.rtoTarget && run.tempId == ""
      ensures run.checks == [] && run.level == ProofNone && run.steps == [] && run.err == Quiet && run.rto == 0
    {
      var started := w.Now();
      run := new RecoveryRun(p, opts, started);
    }

    method Run(p: Plan, opts: RunOptions)
      returns (run: RecoveryRun, err: RunError,
               ghost came: Outcome, ghost ending: Ending, ghost atEnd: Moment, ghost base: ProofLevel)
      requires w.Valid() && w.mon == IDLE && w.told == []
      requires w.rules == RulesOf(p, opts, w.rules.validates, w.rules.reports, w.rules.finalizes)
      modifies w
      ensures fresh(run) && w.Valid() && run.id == opts.runId
      // how the workflow ended: what it came to, and the context at that moment
      ensures atEnd.clock <= w.clock && (atEnd.ctx != Alive ==> w.ctx == atEnd.ctx)
      ensures ending.Completed? <==> came.Went?
      ensures ending.Panicked? <==> came.Crashed?
      ensures ending.Stopped? <==> came.Erred? && atEnd.ctx == Canceled
      ensures ending.Undecided? <==> came.Erred? && atEnd.ctx != Canceled && came.e.ChecksInconclusive?
      ensures ending.Broke? <==> came.Erred? && atEnd.ctx != Canceled && !came.e.ChecksInconclusive?
      ensures came.Erred? ==> ending.Error() == Some(came.e)
      // what is written of it
      ensures run.state.Terminal() && run.completedAt.Some?
      ensures run.state == if err.Orphan? || err.Joined? then RunCleanupFailed
                           else match ending
                             case Completed => RunSuccess
                             case Stopped(_) => RunCancelled
                             case Undecided(_) => RunInconclusive
                             case _ => RunFailed
      ensures run.result == NoResult <==> ending.Stopped? || ending.Undecided?
      ensures run.result == ResultFailed <==> ending.Broke? || ending.Panicked?
      ensures run.result == ResultDegraded <==>
                came.Went? && (0 < p.rtoTarget < run.rto
                               || exists r :: r in run.checks && r.status == CheckFail && !Critical(p.checks, r.name))
      ensures run.err == if err.Orphan? || err.Joined? then SaysOrphaned(run.tempId, run.node)
                         else match ending
                           case Completed => Quiet
                           case Stopped(e) => SaysCancelled(e)
                           case Undecided(e) => Says(e)
                           case Broke(e) => Says(e)
                           case Panicked => Says(RecoveredPanic)
      ensures err.NoError? <==> run.state == RunSuccess
      ensures err.Workflow? || err.Joined? <==> !came.Went?
      ensures err.Workflow? || err.Joined? ==> err.e == if came.Erred? then came.e else RecoveredPanic
      // what decided it
      ensures w.told == run.checks && (w.mon.made.results.None? ==> run.checks == [])
      ensures w.mon.made.results.Some? ==>
                w.mon.made.results == Some(run.checks) && p.checks != [] && came == Judge(p.checks, run.checks)
      ensures came.Went? && !opts.dryRun && p.checks != [] ==> w.mon.made.results.Some?
      ensures came.Erred? && (came.e.ChecksFailed? || came.e.ChecksInconclusive?) ==> w.mon.made.results.Some?
      // and otherwise the last answer, the rules, the plan or the context did
      ensures w.mon.made.results.None? ==>
                Due(came, w.last, w.rules, p, opts, atEnd.clock, atEnd.ctx, run.node, run.backup)
      // how long it took
      ensures (came.Went? && !opts.dryRun) || w.mon.made.results.Some? ==>
                TimedBy(run.steps, p, run.rto, run.startedAt)
      ensures !came.Went? && w.mon.made.results.None? ==> run.rto == 0
      // what it proved
      ensures run.level == LevelFor(w.mon.made.results, p, base) && run.LevelRose()
      ensures base == ProofNone || (base == ProofBoot && w.mon.made.lastStatus.Some?
                                    && w.mon.made.lastStatus.value.agentReady)
      ensures (came.Went? && !opts.dryRun) || w.mon.made.results.Some? ==>
                Booted(p, w.mon.made.lastStatus, base)
      ensures w.mon.made.from.Some? ==>
                w.mon.made.from == run.backup
                && (p.backup.strategy.Specific? ==> run.backup.value.id == p.backup.id)
                && (p.backup.maxAge > 0 ==> run.startedAt - run.backup.value.createdAt <= p.backup.maxAge)
      // what it left behind
      ensures LeftBehind(w.mon, opts, p, !came.Went?, err.Orphan? || err.Joined?, run.cleanupDone, run.steps)
      // whom it told
      ensures Announced(w.log)
      // how long it waited
      ensures w.mon.count.statusReads <= 3 || (w.mon.count.statusReads - 6) * SECOND < p.startup.timeout
    {
      run := NewRun(p, opts);
      ghost var refused;
      err, refused, came, ending, atEnd, base := Perform(run, p, opts);
      NilMeansSuccess(ending, refused);
      assert Tallies(AccountOf(run), w.rules, p, opts, run.startedAt, came, base, atEnd);
      EndingMeans(came, atEnd.ctx, Grade(p.checks, run.checks, run.rto, run.rtoTarget));
      AnyDegradesMeans(p.checks, run.checks);
      BudgetMeans(p.startup.timeout, w.mon.count.statusReads);
    }

    /** The workflow, and whatever it came to, the cleanup. */
    method Perform(run: RecoveryRun, p: Plan, opts: RunOptions)
      returns (err: RunError, ghost refused: Option<ProviderError>,
               ghost came: Outcome, ghost ending: Ending, ghost atEnd: Moment, ghost base: ProofLevel)
      requires Sound(run) && w.mon == IDLE && w.told == [] && w.rules.dryRun == opts.dryRun
      requires run.checks == [] && run.level == ProofNone && run.steps == [] && run.err == Quiet && run.rto == 0
      requires w.clock >= run.startedAt
      modifies w, run
      ensures w.Valid() && w.announced && run.LevelRose() && run.completedAt.Some?
      ensures ending == EndingOf(came, atEnd.ctx)
      ensures atEnd.clock <= w.clock && (atEnd.ctx != Alive ==> w.ctx == atEnd.ctx)
      ensures Scored(run.result, ending, p.checks, run.checks, run.rto, run.rtoTarget)
      ensures err == Combine(ending.Error(), refused)
      ensures run.state == if refused.Some? then RunCleanupFailed else ending.State()
      ensures run.err == if refused.Some? then SaysOrphaned(run.tempId, run.node) else ending.Message()
      ensures Accounted(AccountOf(run), w.rules, p, opts, run.startedAt, came, base, atEnd)
      ensures (came.Went? && !opts.dryRun) || w.mon.made.results.Some? ==>
                TimedBy(run.steps, p, run.rto, run.startedAt)
      ensures LeftBehind(w.mon, opts, p, !ending.Completed?, refused.Some?, run.cleanupDone, run.steps)
    {
      var e, tempId, node, needsCleanup;
      came, e, tempId, node, needsCleanup, base := Work(run, p, opts);
      ending, atEnd := e, Now();
      ghost var timed := (came.Went? && !opts.dryRun) || w.mon.made.results.Some?;
      err, refused := Conclude(run, p, opts, e.Error(), tempId, node, needsCleanup, timed);
    }

    ghost function Now(): Moment
      reads w
    {
      Moment(w.clock, w.ctx)
    }

    /** What the log and the run say about the checks and what they proved. */
    ghost function AccountOf(run: RecoveryRun): Account
      reads w, run
    {
      Account(w.mon.made.results, w.mon.made.lastStatus, w.mon.made.from, w.told, w.mon.count.statusReads,
              run.checks, run.level, run.backup, run.rto, run.node, w.last)
    }

    /** The cleanup, the completion time, and the error handed back. */
    method Conclude(run: RecoveryRun, p: Plan, opts: RunOptions, workflow: Option<Err>,
                    tempId: string, node: string, needsCleanup: bool, ghost timed: bool)
      returns (err: RunError, ghost refused: Option<ProviderError>)
      requires Sound(run) && needsCleanup == w.mon.made.jobHeld
      requires run.state != Unset
      requires needsCleanup ==> !w.rules.dryRun && w.mon.known.Owns(tempId) && w.mon.known.named
                                && tempId == run.tempId && node == run.node
      requires w.mon.count.NothingAfterStart() && !w.mon.made.deleted
      modifies w, run`state, run`steps, run`cleanupDone, run`err, run`completedAt
      ensures w.Valid() && w.Advanced() && run.completedAt.Some? && AccountOf(run) == old(AccountOf(run))
      requires timed ==> TimedBy(run.steps, p, run.rto, run.startedAt)
      ensures timed ==> TimedBy(run.steps, p, run.rto, run.startedAt)
      ensures err == Combine(workflow, refused)
      ensures run.state == if refused.Some? then RunCleanupFailed else old(run.state)
      ensures run.err == if refused.Some? then SaysOrphaned(run.tempId, run.node) else old(run.err)
      ensures LeftBehind(w.mon, opts, p, Incomplete(old(run.result), old(run.state)), refused.Some?,
                         run.cleanupDone, run.steps)
    {
      var d := Dispose(run, p, opts, tempId, node, needsCleanup, timed);
      Finalize(run);
      err, refused := Combine(workflow, d), d;
    }

    /** Everything up to the cleanup: the workflow and its grading. */
    method Work(run: RecoveryRun, p: Plan, opts: RunOptions)
      returns (ghost came: Outcome, e: Ending, tempId: string, node: string, needsCleanup: bool, ghost base: ProofLevel)
      requires Sound(run) && w.mon == IDLE && w.told == [] && w.rules.dryRun == opts.dryRun
      requires run.checks == [] && run.level == ProofNone && run.steps == [] && run.err == Quiet && run.rto == 0
      requires w.clock >= run.startedAt
      modifies w, run
      ensures Sound(run) && w.Advanced() && w.announced && run.completedAt == old(run.completedAt)
      ensures needsCleanup == w.mon.made.jobHeld
      ensures needsCleanup ==> !w.rules.dryRun && w.mon.known.Owns(tempId) && w.mon.known.named
                                && tempId == run.tempId && node == run.node
      ensures w.mon.count.NothingAfterStart() && !w.mon.made.deleted
      ensures e == EndingOf(came, w.ctx) && EndsAs(run, p, e)
      ensures run.state != Unset
      ensures Incomplete(run.result, run.state) == !e.Completed?
      ensures e.Stopped? <==> came.Erred? && w.ctx == Canceled
      ensures e.Undecided? <==> came.Erred? && w.ctx != Canceled && came.e.ChecksInconclusive?
      ensures e.Broke? <==> came.Erred? && w.ctx != Canceled && !came.e.ChecksInconclusive?
      ensures Accounted(AccountOf(run), w.rules, p, opts, run.startedAt, came, base, Now())
      ensures (came.Went? && !opts.dryRun) || w.mon.made.results.Some? ==>
                TimedBy(run.steps, p, run.rto, run.startedAt)
    {
      tempId, node, needsCleanup, base := "", "", false, ProofNone;
      var o: Outcome;
      if opts.dryRun {
        o := RehearseAndMark(run, p, opts);
      } else {
        o, tempId, node, needsCleanup, base := DrillAndSettle(run, p, opts);
      }
      came := o;
      e := Close(run, p, o);
    }

    method RehearseAndMark(run: RecoveryRun, p: Plan, opts: RunOptions) returns (o: Outcome)
      requires Sound(run) && w.mon == IDLE && w.told == [] && opts.dryRun
      requires run.checks == [] && run.level == ProofNone && run.err == Quiet && run.rto == 0
      modifies w, run`sourceName, run`node, run`backup, run`steps, run`state, run`result, run`err, run`cleanupDone
      ensures Sound(run) && w.Advanced() && w.announced
      ensures w.mon.count == IDLE.count && w.mon.made == IDLE.made
      ensures Marked(run, p, o) && Accounted(AccountOf(run), w.rules, p, opts, run.startedAt, o, ProofNone, Now())
    {
      o := Rehearse(run, p, opts);
      MarkRehearsed(run, p, o);
    }

    method DrillAndSettle(run: RecoveryRun, p: Plan, opts: RunOptions)
      returns (o: Outcome, tempId: string, node: string, needsCleanup: bool, ghost base: ProofLevel)
      requires Sound(run) && w.mon == IDLE && w.told == [] && !w.rules.dryRun && !opts.dryRun
      requires run.checks == [] && run.level == ProofNone && run.steps == [] && run.err == Quiet && run.rto == 0
      requires w.clock >= run.startedAt
      modifies w, run`sourceName, run`tempId, run`node, run`backup
      modifies run`state, run`steps, run`level, run`levels, run`checks, run`rto, run`result, run`err
      ensures Sound(run) && w.Advanced() && w.announced
      ensures needsCleanup == w.mon.made.jobHeld
      ensures needsCleanup ==> w.mon.known.Owns(tempId) && w.mon.known.named
                               && tempId == run.tempId && node == run.node
      ensures w.mon.count.NothingAfterStart() && !w.mon.made.deleted
      ensures Marked(run, p, o) && Accounted(AccountOf(run), w.rules, p, opts, run.startedAt, o, base, Now())
      ensures o.Went? || w.mon.made.results.Some? ==> TimedBy(run.steps, p, run.rto, run.startedAt)
    {
      o, tempId, node, needsCleanup, base := Drill(run, p, opts);
      Settle(run, p, o);
    }

    /** The last word on how the workflow ended. */
    method Close(run: RecoveryRun, p: Plan, o: Outcome) returns (e: Ending)
      requires Marked(run, p, o)
      modifies run`state, run`result, run`err
      ensures e == EndingOf(o, w.ctx) && EndsAs(run, p, e)
      ensures run.state != Unset
      ensures Incomplete(run.result, run.state) == !e.Completed?
      ensures AccountOf(run) == old(AccountOf(run))
    {
      e := Reconsider(run, p, o);
      EndingMeans(o, w.ctx, Grade(p.checks, run.checks, run.rto, run.rtoTarget));
    }

    /** The workflow's ending, as it is written on the run. */
    ghost predicate EndsAs(run: RecoveryRun, p: Plan, e: Ending)
      reads run
    {
      && run.state == e.State() && run.err == e.Message()
      && Scored(run.result, e, p.checks, run.checks, run.rto, run.rtoTarget)
    }
  }

  /** A failed workflow was stopped when its context was cancelled, and whatever
      did not complete is incomplete to the cleanup. */
  lemma EndingMeans(o: Outcome, ctx: CtxErr, grade: RunResult)
    requires grade == ResultSuccess || grade == ResultDegraded
    ensures var e := EndingOf(o, ctx);
      && (e.Completed? <==> o.Went?) && (e.Panicked? <==> o.Crashed?)
      && (e.Stopped? <==> o.Erred? && ctx == Canceled)
      && (e.Undecided? <==> o.Erred? && ctx != Canceled && o.e.ChecksInconclusive?)
      && (e.Broke? <==> o.Erred? && ctx != Canceled && !o.e.ChecksInconclusive?)
      && (ResultFor(e, grade) == NoResult <==> e.Stopped? || e.Undecided?)
      && (ResultFor(e, grade) == ResultFailed <==> e.Broke? || e.Panicked?)
      && (ResultFor(e, grade) == grade <==> e.Completed?)
      && Incomplete(ResultFor(e, grade), e.State()) == !e.Completed?
  {
  }

  /** How a run ended, before its cleanup: graded, failed, without a verdict,
      stopped by somebody, or crashed. */
  datatype Ending = Completed | Broke(e: Err) | Undecided(e: Err) | Stopped(e: Err) | Panicked {
    function State(): RunState {
      match this
      case Completed => RunSuccess
      case Broke(_) => RunFailed
      case Undecided(_) => RunInconclusive
      case Stopped(_) => RunCancelled
      case Panicked => RunFailed
    }

    function Error(): Option<Err> {
      match this
      case Completed => None
      case Broke(e) => Some(e)
      case Undecided(e) => Some(e)
      case Stopped(e) => Some(e)
      case Panicked => Some(RecoveredPanic)
    }

    function Message(): Message {
      match this
      case Completed => Quiet
      case Stopped(e) => SaysCancelled(e)
      case _ => Says(Error().value)
    }
  }

  function EndingOf(o: Outcome, ctx: CtxErr): Ending {
    match o
    case Went => Completed
    case Crashed => Panicked
    case Erred(e) =>
      if ctx == Canceled then Stopped(e)
      else if e.ChecksInconclusive? then Undecided(e)
      else Broke(e)
  }

  /** The error handed back is nil exactly for a graded run that cleaned up. */
  lemma NilMeansSuccess(e: Ending, d: Option<ProviderError>)
    ensures Combine(e.Error(), d).NoError? <==> e.State() == RunSuccess && d.None?
    ensures Combine(e.Error(), d).WorkflowError() == e.Error() && Combine(e.Error(), d).CleanupError() == d
    ensures e.State().Terminal()
  {
  }

  function ResultFor(ending: Ending, grade: RunResult): RunResult {
    match ending
    case Completed => grade
    case Broke(_) => ResultFailed
    case Panicked => ResultFailed
    case _ => NoResult
  }

  /** The result an ending carries. Stated of every list of results that is this
      one, so that the grading is unfolded only where it is asked for. */
  ghost predicate Scored(
    result: RunResult, e: Ending, checks: seq<CheckSpec>, results: seq<CheckResult>, rto: int, target: int)
  {
    forall rs :: rs == results ==> result == ResultFor(e, Grade(checks, rs, rto, target))
  }

  predicate Incomplete(result: RunResult, state: RunState) {
    result == ResultFailed || state == RunFailed || state == RunCancelled || state == RunInconclusive
  }

  predicate SkipRecorded(steps: seq<Step>) {
    steps != [] && steps[|steps| - 1].name == Cleanup && steps[|steps| - 1].status == StepSkipped
  }

  /** The cleanup obligation: once Restore returned a job, either the workload
      was deleted, exactly once, or a skip is recorded that the policy
      justifies; and CleanupDone says which. */
  predicate LeftBehind(
    m: Monitor, opts: RunOptions, p: Plan, incomplete: bool, orphaned: bool, cleanupDone: bool, steps: seq<Step>)
  {
    && (cleanupDone <==> !m.made.jobHeld || m.made.deleted)
    && (!m.made.jobHeld ==> !orphaned && m.count.stops == 0 && m.count.deletes == 0)
    && (m.made.jobHeld ==>
          if Kept(opts, p, incomplete) then
            m.count.stops == 0 && m.count.deletes == 0 && SkipRecorded(steps) && !orphaned && !m.made.deleted
          else
            m.count.stops >= 1 && m.count.deletes == 1 && (orphaned <==> !m.made.deleted))
  }

  lemma PolicyDecides(
      m: Monitor, opts: RunOptions, p: Plan, result: RunResult, state: RunState, orphaned: bool,
      cleanupDone: bool, steps: seq<Step>)
    requires cleanupDone <==> !m.made.jobHeld || m.made.deleted
    requires var incomplete := result == ResultFailed || state == RunFailed
                               || state == RunCancelled || state == RunInconclusive;
      m.count.deletes == 0 <==>
        !m.made.jobHeld || opts.keepWorkload || (incomplete && p.cleanup.keepOnFailure)
        || (!incomplete && p.cleanup.always == Some(false))
    requires m.count.deletes == 0 ==> m.count.stops == 0 && !orphaned && !m.made.deleted
    requires m.count.deletes > 0 ==> m.count.deletes == 1 && m.count.stops >= 1
    requires m.count.deletes > 0 ==> (orphaned <==> !m.made.deleted)
    requires m.made.jobHeld && m.count.deletes == 0 ==> SkipRecorded(steps)
    ensures LeftBehind(m, opts, p, Incomplete(result, state), orphaned, cleanupDone, steps)
  {
  }

  /** The only three reasons a restored workload is left running. */
  predicate Kept(opts: RunOptions, p: Plan, incomplete: bool) {
    opts.keepWorkload
    || (incomplete && p.cleanup.keepOnFailure)
    || (!incomplete && !p.cleanup.CleanupAlways())
  }

  lemma {:induction false} LastStepEnds(steps: seq<Step>, name: StepName)
    requires steps != [] && steps[|steps| - 1].name == name && steps[|steps| - 1].status != StepRunning
    requires forall i :: 0 <= i < |steps| - 1 ==> steps[i].name != name
    ensures EndOf(steps, name) == steps[|steps| - 1].completedAt
  {
    if |steps| > 1 {
      LastStepEnds(steps[1..], name);
    }
  }

  lemma {:induction false} NoSuchStep(steps: seq<Step>, name: StepName)
    requires forall i :: 0 <= i < |steps| ==> steps[i].name != name
    ensures EndOf(steps, name) == None
  {
    if steps != [] {
      NoSuchStep(steps[1..], name);
    }
  }

  function StepStatusForCheck(s: CheckStatus): StepStatus {
    match s
    case CheckPass => StepDone
    case CheckSkipped => StepSkipped
    case _ => StepFailed
  }

  function TimeTaken(steps: seq<Step>, startedAt: int): int {
    match EndOf(steps, StepName.RunChecks)
    case Some(end) => end - startedAt
    case None =>
      match EndOf(steps, StepName.WaitForGuest)
      case Some(end) => end - startedAt
      case None => 0
  }

  /** A wait reads the status three times a poll at the most, and polls every
      three seconds until its time is up. */
  lemma BudgetMeans(timeout: int, times: nat)
    ensures times <= 3 * PollBudget(timeout) ==> times <= 3 || (times - 6) * SECOND < timeout
  {
  }

  /** After `polls` waits of three seconds that all began before the deadline,
      one more poll still fits the budget. */
  lemma PollsFitTheBudget(timeout: int, polls: nat)
    requires polls > 0 ==> DEFAULT_GUEST_POLL_EVERY * (polls - 1) < timeout
    ensures polls < PollBudget(timeout)
  {
  }

  /** steps is before with the step at idx closed. */
  ghost predicate Closed(before: seq<Step>, steps: seq<Step>, idx: nat, failed: bool) {
    && |steps| == |before| && idx < |steps|
    && (forall i :: 0 <= i < |steps| && i != idx ==> steps[i] == before[i])
    && steps[idx].name == before[idx].name && steps[idx].state == before[idx].state
    && steps[idx].status == (if failed then StepFailed else StepDone) && steps[idx].failed == failed
    && steps[idx].completedAt.Some?
  }

  /** One step was added; it is still running exactly when a panic left it. */
  ghost predicate StepTaken(before: seq<Step>, steps: seq<Step>, name: StepName, o: Outcome) {
    && |steps| == |before| + 1
    && (forall i :: 0 <= i < |before| ==> steps[i] == before[i])
    && steps[|before|].name == name
    && (o.Went? ==> steps[|before|].status in {StepDone, StepSkipped} && !steps[|before|].failed)
    && (o.Erred? ==> steps[|before|].status == StepFailed && steps[|before|].failed)
    && (o.Crashed? ==> steps[|before|].status == StepRunning)
    && (steps[|before|].completedAt.Some? <==> !o.Crashed?)
  }

  predicate Over(s: Step, name: StepName) { s.name == name && s.status != StepRunning && s.completedAt.Some? }

  /** Five steps, the last of which waited for the guest. */
  predicate Waited(steps: seq<Step>) {
    && |steps| == 5 && Over(steps[4], StepName.WaitForGuest)
    && forall i :: 0 <= i < 5 ==>
         steps[i].name != StepName.RunChecks && (steps[i].name == StepName.WaitForGuest <==> i == 4)
  }

  /** And then the checks. */
  predicate Checked(steps: seq<Step>) {
    |steps| == 6 && Waited(steps[..5]) && Over(steps[5], StepName.RunChecks)
  }

  lemma ChecksFollow(before: seq<Step>, steps: seq<Step>, o: Outcome)
    requires Waited(before) && StepTaken(before, steps, StepName.RunChecks, o) && !o.Crashed?
    ensures Checked(steps)
  {
    assert steps[..5] == before;
  }

  /** The calls the engine repeats. */
  predicate Repeatable(c: Call) { c.WaitForJob? || c.GetStatus? || c.Start? || c.Stop? }

  function AtLeastOne(attempts: int): nat { if attempts < 1 then 1 else attempts }

  /** The call may be made that often in a row, as long as it fails. */
  ghost predicate AllowedTimes(r: Rules, m: Monitor, c: Call, times: nat) {
    forall n: nat :: n < times ==> FailedCalls(m, c, n).Allows(r, c)
  }

  /** Three times, for a call of which none was made before. */
  lemma ThreeTimes(r: Rules, m: Monitor, c: Call)
    requires m.Allows(r, c) && Repeatable(c)
    requires (c.Start? ==> m.count.starts == 0) && (c.Stop? ==> m.count.stops == 0)
    ensures AllowedTimes(r, m, c, 3)
  {
  }

  lemma FailedAgain(r: Rules, m: Monitor, c: Call, n: nat, a: Answer)
    requires Repeatable(c) && FaultOf(c, a) != NoFault
    ensures FailedCalls(m, c, n).Record(r, Called(c, a)) == FailedCalls(m, c, n + 1)
  {
  }

  /** A monitor after n calls of c that all failed. */
  function FailedCalls(m: Monitor, c: Call, n: nat): Monitor {
    match c
    case Start(_) => m.(count := m.count.(starts := m.count.starts + n))
    case GetStatus(_) => m.(count := m.count.(statusReads := m.count.statusReads + n))
    case Stop(_) => m.(count := m.count.(stops := m.count.stops + n))
    case _ => m
  }

  // ------------------------------------------------ what the verdicts mean

  /** The runner answers check by check, in order and under the plan's names. */
  predicate AnswersFor(checks: seq<CheckSpec>, results: seq<CheckResult>) {
    && |results| == |checks|
    && forall i :: 0 <= i < |checks| ==> results[i].name == checks[i].DisplayName()
  }

  /** Theorem: under unique names each result is judged by its own check's
      criticality, whatever the order of the other checks. */
  lemma JudgedByOwnCriticality(checks: seq<CheckSpec>, results: seq<CheckResult>, i: nat)
    requires UniqueNames(checks) && AnswersFor(checks, results) && i < |checks|
    ensures FailsRun(checks, results[i]) <==>
              checks[i].critical != Some(false)
              && (results[i].status == CheckFail || results[i].status == CheckSkipped)
    ensures LeavesUndecided(checks, results[i]) <==>
              checks[i].critical != Some(false) && results[i].status == CheckError
    ensures Degrades(checks, results[i]) <==> checks[i].critical == Some(false) && results[i].status == CheckFail
  {
    CriticalMapIsByCheck(checks, i);
  }

  /** The names reported are those of the critical checks that came back bad. */
  lemma {:induction false} FailuresAreNamed(checks: seq<CheckSpec>, results: seq<CheckResult>, name: string)
    ensures name in FailedCritical(checks, results) <==>
              Critical(checks, name)
              && exists r :: r in results && r.name == name && (r.status == CheckFail || r.status == CheckSkipped)
  {
    if results != [] {
      var init, last := results[..|results| - 1], results[|results| - 1];
      FailuresAreNamed(checks, init, name);
      assert forall r :: r in results <==> r in init || r == last;
    }
  }

  /** Or, when none did, of those that gave no answer. */
  lemma {:induction false} SilencesAreNamed(checks: seq<CheckSpec>, results: seq<CheckResult>, name: string)
    ensures name in Unevaluated(checks, results) <==>
              Critical(checks, name) && exists r :: r in results && r.name == name && r.status == CheckError
  {
    if results != [] {
      var init, last := results[..|results| - 1], results[|results| - 1];
      SilencesAreNamed(checks, init, name);
      assert forall r :: r in results <==> r in init || r == last;
    }
  }

  /** A run claims what its boot established, or the level of some check that
      passed, whichever is highest; without checks, the boot alone. */
  lemma ClaimedLevel(results: seq<CheckResult>, p: Plan, base: ProofLevel)
    requires base.Recorded()
    ensures LevelFor(None, p, base) == base
    ensures var level := LevelFor(Some(results), p, base);
      && base.Rank() <= level.Rank()
      && (forall i :: 0 <= i < |results| && i < |p.checks| && results[i].status == CheckPass ==>
            p.checks[i].ProvenLevel().Rank() <= level.Rank())
      && (level == base
          || exists i :: 0 <= i < |results| && i < |p.checks| && results[i].status == CheckPass
                         && p.checks[i].ProvenLevel() == level)
  {
    var pairs := Pairs(Configs(p.checks), results);
    var level := LevelFor(Some(results), p, base);
    LevelProvenMeans(pairs);
    forall i | 0 <= i < |results| && i < |p.checks| && results[i].status == CheckPass
      ensures p.checks[i].ProvenLevel().Rank() <= level.Rank()
    {
      assert pairs[i] in pairs && pairs[i].config.proves == p.checks[i].ProvenLevel();
    }
    if level != base {
      var c :| c in pairs && c.result.status == CheckPass && c.config.proves == level;
      var i :| 0 <= i < |pairs| && pairs[i] == c;
      assert p.checks[i].ProvenLevel() == level;
    }
  }

  /** A wait that ended well saw a guest that was up the way the plan asks, and
      established the boot exactly when the agent answered. */
  lemma BootMeans(p: Plan, status: Option<GuestStatus>, base: ProofLevel)
    ensures Booted(p, status, base) <==>
      if p.startup.skip then status == None && base == ProofNone
      else
        && status.Some? && status.value.running
        && (p.startup.waitForAgent == Some(true) ==> status.value.agentReady)
        && (p.startup.waitForIP == Some(true) && p.startup.ip == "" ==> status.value.primaryIP != "")
        && base == if status.value.agentReady then ProofBoot else ProofNone
  {
  }

  function PlanCeiling(p: Plan): int {
    if p.ProvenLevel().Rank() < ProofBoot.Rank() then ProofBoot.Rank() else p.ProvenLevel().Rank()
  }

  predicate SkippedPlanProvesLittle(p: Plan) {
    p.startup.skip ==> forall c :: c in p.checks ==> c.ProvenLevel().Rank() <= ProofBoot.Rank()
  }

  lemma CeilingHolds(p: Plan, ran: Option<seq<CheckResult>>, base: ProofLevel)
    requires SkippedPlanProvesLittle(p) && (base == ProofNone || base == ProofBoot)
    ensures LevelFor(ran, p, base).Rank() <= PlanCeiling(p)
  {
    if ran.Some? {
      ProvenNeverExceedsHighest(p.checks, ran.value);
    }
  }

  /** A plan that skips its startup and still passes a check worth more. */
  lemma CeilingBreaks(p: Plan) returns (passes: seq<CheckResult>)
    requires !SkippedPlanProvesLittle(p)
    ensures LevelFor(Some(passes), p, ProofNone).Rank() > PlanCeiling(p)
  {
    var i :| 0 <= i < |p.checks| && p.checks[i].ProvenLevel().Rank() > ProofBoot.Rank();
    passes := seq(|p.checks|, _ => CheckResult("", "", CheckPass, 1, map[], map[], false));
    var pairs := Pairs(Configs(p.checks), passes);
    assert pairs[i] in pairs && Contribution(pairs[i]) == p.checks[i].ProvenLevel();
    LevelProvenMeans(pairs);
  }

  /** Theorem: no drill of a plan claims more than the plan promises (or the
      boot), exactly when a plan that skips its startup carries no check worth
      more than the boot. Validation refuses every check on such a plan. */
  lemma LevelStaysWithinPlan(p: Plan)
    ensures SkippedPlanProvesLittle(p) <==>
              forall ran, base :: base == ProofNone || base == ProofBoot ==>
                LevelFor(ran, p, base).Rank() <= PlanCeiling(p)
  {
    if SkippedPlanProvesLittle(p) {
      forall ran, base | base == ProofNone || base == ProofBoot
        ensures LevelFor(ran, p, base).Rank() <= PlanCeiling(p)
      {
        CeilingHolds(p, ran, base);
      }
    } else {
      var passes := CeilingBreaks(p);
    }
  }
}
