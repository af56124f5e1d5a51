// Several dispatchers over one database, interleaved step by step, any of them
// stopping at any point (internal/notify/dispatcher.go). The claim comes before
// everything else; the key of a delivery is the run and the channel.
module Protocol {
  import opened Core
  import opened Story
  import opened Deliver

  /** Where one dispatcher is. Lists it read may be stale by the time it gets
      to them. */
  datatype Local =
    | Idle
    | Considering(todo: seq<string>)
    | Holding(run: string, todo: seq<string>)
    | Queueing(run: string, kind: Kind, channels: seq<string>, todo: seq<string>)
    | Delivering(due: seq<(nat, Delivery)>)
    | Recording(i: nat, outcome: Delivery, due: seq<(nat, Delivery)>)

  /** The database, the dispatchers, and two records of what happened: the runs
      somebody decided, and for each POST the state its row was in. */
  datatype World = World(
    clock: int,
    ended: set<string>,
    notified: set<string>,
    deliveries: seq<Delivery>,
    locals: map<nat, Local>,
    decided: seq<string>,
    posts: seq<(nat, DeliveryState)>)
  {
    function At(pid: nat): Local { if pid in locals then locals[pid] else Idle }

    function Move(pid: nat, l: Local): World { this.(locals := locals[pid := l]) }

    predicate Told(run: string, channel: string) {
      exists d :: d in deliveries && d.runId == run && d.channelId == channel
    }
  }

  const START := World(0, {}, {}, [], map[], [], [])

  /** One atomic step of one dispatcher, or of the world around them. */
  datatype Step =
    | RunEnds(run: string)
    | TimePasses(d: nat)
    | ListRuns(pid: nat, batch: seq<string>)
    | ClaimRun(pid: nat, fails: bool)
    | DecideRun(pid: nat, kind: Option<Kind>, channels: seq<string>)
    | QueueMessage(pid: nat, fails: bool)
    | ListDue(pid: nat, due: seq<nat>)
    | Post(pid: nat, e: Encounter)
    | Record(pid: nat, fails: bool)
    | Crash(pid: nat)

  function Rows(w: World, batch: seq<nat>): (rows: seq<(nat, Delivery)>)
    requires forall k :: 0 <= k < |batch| ==> batch[k] < |w.deliveries|
    ensures |rows| == |batch|
    ensures forall k :: 0 <= k < |rows| ==> rows[k].0 < |w.deliveries| && rows[k] == (batch[k], w.deliveries[batch[k]])
  {
    seq(|batch|, k requires 0 <= k < |batch| => (batch[k], w.deliveries[batch[k]]))
  }

  predicate Distinct<T(==)>(s: seq<T>) {
    forall i, j :: 0 <= i < j < |s| ==> s[i] != s[j]
  }

  predicate DueBatch(w: World, batch: seq<nat>) {
    Distinct(batch) && forall k :: 0 <= k < |batch| ==> batch[k] < |w.deliveries| && w.deliveries[batch[k]].Due(w.clock)
  }

  /** ClaimRunForNotify: one conditional update, won by whoever comes first. */
  function Claim(w: World, pid: nat, l: Local, fails: bool): World
    requires l.Considering? && l.todo != []
  {
    var run, rest := l.todo[0], l.todo[1..];
    if fails || run in w.notified then w.Move(pid, Considering(rest))
    else w.(notified := w.notified + {run}).Move(pid, Holding(run, rest))
  }

  /** Claimed, and then decided: too old, nothing to say, or a message. */
  function Conclude(w: World, pid: nat, l: Local, kind: Option<Kind>, channels: seq<string>): World
    requires l.Holding?
  {
    var after := if kind.Some? then Queueing(l.run, kind.value, channels, l.todo) else Considering(l.todo);
    w.(decided := w.decided + [l.run]).Move(pid, after)
  }

  function Queue(w: World, pid: nat, l: Local, fails: bool): World
    requires l.Queueing?
  {
    if l.channels == [] then w.Move(pid, Considering(l.todo))
    else
      var rest := l.(channels := l.channels[1..]);
      if fails || w.Told(l.run, l.channels[0]) then w.Move(pid, rest)
      else w.(deliveries := w.deliveries + [Fresh(l.run, l.channels[0], l.kind, w.clock)]).Move(pid, rest)
  }

  function PostRow(w: World, pid: nat, l: Local, e: Encounter): World
    requires l.Delivering? && l.due != []
  {
    var (i, row) := l.due[0];
    var tried := if i < |w.deliveries| then w.(posts := w.posts + [(i, w.deliveries[i].state)]) else w;
    match Attempted(row, e, w.clock)
    case None => tried.Move(pid, Delivering(l.due[1..]))
    case Some(outcome) => tried.Move(pid, Recording(i, outcome, l.due[1..]))
  }

  function RecordRow(w: World, pid: nat, l: Local, fails: bool): World
    requires l.Recording?
  {
    if fails || l.i >= |w.deliveries| then w.Move(pid, Delivering(l.due))
    else w.(deliveries := w.deliveries[l.i := l.outcome]).Move(pid, Delivering(l.due))
  }

  /** A step that is not possible where its dispatcher is changes nothing. */
  function Take(w: World, s: Step): World {
    match s
    case RunEnds(run) => w.(ended := w.ended + {run})
    case TimePasses(d) => w.(clock := w.clock + d)
    case ListRuns(pid, batch) =>
      if w.At(pid).Idle? && forall r :: r in batch ==> r in w.ended && r !in w.notified
      then w.Move(pid, Considering(batch)) else w
    case ClaimRun(pid, fails) =>
      var l := w.At(pid);
      if l.Considering? && l.todo != [] then Claim(w, pid, l, fails) else w
    case DecideRun(pid, kind, channels) =>
      if w.At(pid).Holding? then Conclude(w, pid, w.At(pid), kind, channels) else w
    case QueueMessage(pid, fails) => if w.At(pid).Queueing? then Queue(w, pid, w.At(pid), fails) else w
    case ListDue(pid, batch) =>
      var l := w.At(pid);
      if (l.Idle? || (l.Considering? && l.todo == [])) && DueBatch(w, batch)
      then w.Move(pid, Delivering(Rows(w, batch))) else w
    case Post(pid, e) =>
      var l := w.At(pid);
      if l.Delivering? && l.due != [] then PostRow(w, pid, l, e)
      else if l.Delivering? then w.Move(pid, Idle) else w
    case Record(pid, fails) => if w.At(pid).Recording? then RecordRow(w, pid, w.At(pid), fails) else w
    case Crash(pid) => w.Move(pid, Idle)
  }

  function Play(steps: seq<Step>): World {
    if steps == [] then START else Take(Play(steps[..|steps| - 1]), steps[|steps| - 1])
  }

  // ------------------------------------------------ what one step does

  /** A run is won by the dispatcher that finds it unclaimed and whose update is
      carried out; it is claimed from then on, for everybody. */
  lemma ClaimWins(w: World, pid: nat, fails: bool)
    requires w.At(pid).Considering? && w.At(pid).todo != []
    ensures var run, next := w.At(pid).todo[0], Take(w, ClaimRun(pid, fails));
      && (next.At(pid) == Holding(run, w.At(pid).todo[1..]) <==> !fails && run !in w.notified)
      && (next.At(pid) == Considering(w.At(pid).todo[1..]) <==> fails || run in w.notified)
      && next.notified == (if fails then w.notified else w.notified + {run})
      && next.deliveries == w.deliveries && next.decided == w.decided && next.posts == w.posts
  {
  }

  /** A message is queued for a channel that has none about the run, pending and
      due at once; otherwise the table stays as it is. */
  lemma MessageIsQueued(w: World, pid: nat, fails: bool)
    requires w.At(pid).Queueing? && w.At(pid).channels != []
    ensures var l, next := w.At(pid), Take(w, QueueMessage(pid, fails));
      && next.At(pid) == l.(channels := l.channels[1..])
      && (if !fails && forall d :: d in w.deliveries ==> d.runId != l.run || d.channelId != l.channels[0]
          then next.deliveries
               == w.deliveries + [Delivery(l.run, l.channels[0], l.kind, Pending, 0, Some(w.clock), 0, None)]
          else next.deliveries == w.deliveries)
  {
  }

  /** Only pending rows whose time has come are taken up. */
  lemma DueRowsAreTaken(w: World, pid: nat, batch: seq<nat>, k: nat)
    requires !w.At(pid).Delivering? && Take(w, ListDue(pid, batch)).At(pid).Delivering?
    ensures |Take(w, ListDue(pid, batch)).At(pid).due| == |batch|
    ensures k < |batch| ==>
      var (i, row) := Take(w, ListDue(pid, batch)).At(pid).due[k];
      i == batch[k] < |w.deliveries| && row == w.deliveries[i]
      && row.state == Pending && (row.nextAt.Some? ==> row.nextAt.value <= w.clock)
  {
  }

  // ------------------------------------------------ decided once

  /** Whoever holds a run claimed it, alone, and nobody has decided it yet. */
  predicate Alone(w: World, pid: nat) {
    w.At(pid).Holding? ==>
      && w.At(pid).run in w.notified && w.At(pid).run !in w.decided
      && forall q :: q in w.locals && q != pid && w.At(q).Holding? ==> w.At(q).run != w.At(pid).run
  }

  predicate DecidedOnce(w: World) {
    && Distinct(w.decided)
    && (forall r :: r in w.decided ==> r in w.notified)
    && (forall pid :: pid in w.locals ==> Alone(w, pid))
  }

  /** Moving on without a run in hand disturbs nobody. */
  lemma LetGo(w: World, v: World, pid: nat, l: Local)
    requires DecidedOnce(w) && v.notified == w.notified && v.decided == w.decided
    requires v.locals == w.locals[pid := l] && !l.Holding?
    ensures DecidedOnce(v)
  {
    forall q | q in v.locals ensures Alone(v, q) {
      if q != pid { assert Alone(w, q); }
    }
  }

  lemma ClaimIsExclusive(w: World, pid: nat, l: Local, fails: bool)
    requires DecidedOnce(w) && w.At(pid) == l && l.Considering? && l.todo != []
    ensures DecidedOnce(Claim(w, pid, l, fails))
  {
    var v := Claim(w, pid, l, fails);
    if v.notified == w.notified && !v.At(pid).Holding? {
      LetGo(w, v, pid, v.At(pid));
    } else {
      forall q | q in v.locals ensures Alone(v, q) {
        if q != pid { assert Alone(w, q); }
        forall p | p in v.locals && p != q && v.At(p).Holding? && v.At(q).Holding?
          ensures v.At(p).run != v.At(q).run
        {
          if p != pid { assert Alone(w, p); }
        }
      }
    }
  }

  lemma ConcludeOnce(w: World, pid: nat, l: Local, kind: Option<Kind>, channels: seq<string>)
    requires DecidedOnce(w) && w.At(pid) == l && l.Holding?
    ensures DecidedOnce(Conclude(w, pid, l, kind, channels))
  {
    var v := Conclude(w, pid, l, kind, channels);
    assert pid in w.locals && Alone(w, pid);
    forall q | q in v.locals ensures Alone(v, q) {
      if q != pid { assert Alone(w, q); }
    }
  }

  lemma StepDecidesOnce(w: World, s: Step)
    requires DecidedOnce(w)
    ensures DecidedOnce(Take(w, s))
  {
    var v := Take(w, s);
    match s
    case RunEnds(_) => Same(w, v);
    case TimePasses(_) => Same(w, v);
    case ClaimRun(pid, fails) =>
      var l := w.At(pid);
      if l.Considering? && l.todo != [] { ClaimIsExclusive(w, pid, l, fails); }
    case DecideRun(pid, kind, channels) =>
      if w.At(pid).Holding? { ConcludeOnce(w, pid, w.At(pid), kind, channels); }
    case ListRuns(pid, _) => if v != w { LetGo(w, v, pid, v.At(pid)); }
    case QueueMessage(pid, _) => if v != w { LetGo(w, v, pid, v.At(pid)); }
    case ListDue(pid, _) => if v != w { LetGo(w, v, pid, v.At(pid)); }
    case Post(pid, _) => if v != w { LetGo(w, v, pid, v.At(pid)); }
    case Record(pid, _) => if v != w { LetGo(w, v, pid, v.At(pid)); }
    case Crash(pid) => LetGo(w, v, pid, Idle);
  }

  lemma Same(w: World, v: World)
    requires DecidedOnce(w) && v.notified == w.notified && v.decided == w.decided && v.locals == w.locals
    ensures DecidedOnce(v)
  {
    forall q | q in v.locals ensures Alone(v, q) {
      assert Alone(w, q);
    }
  }

  // ------------------------------------------------ told once

  /** At most one row for a run and a channel. */
  predicate ToldOnce(ds: seq<Delivery>) {
    forall i, j :: 0 <= i < j < |ds| ==> ds[i].runId != ds[j].runId || ds[i].channelId != ds[j].channelId
  }

  predicate SameMessage(a: Delivery, b: Delivery) {
    a.runId == b.runId && a.channelId == b.channelId && a.kind == b.kind
  }

  /** What a dispatcher remembers of a row is still about the same message. */
  predicate Remembers(w: World, pid: nat) {
    var l := w.At(pid);
    && (l.Recording? ==> l.i < |w.deliveries| && SameMessage(l.outcome, w.deliveries[l.i]))
    && (l.Recording? || l.Delivering? ==>
          forall k :: 0 <= k < |l.due| ==>
            l.due[k].0 < |w.deliveries| && SameMessage(l.due[k].1, w.deliveries[l.due[k].0]))
  }

  predicate Tables(w: World) {
    ToldOnce(w.deliveries) && forall pid :: pid in w.locals ==> Remembers(w, pid)
  }

  /** Rows are only appended, or rewritten about the same message. */
  predicate Extends(ds: seq<Delivery>, more: seq<Delivery>) {
    |ds| <= |more| && forall i :: 0 <= i < |ds| ==> SameMessage(ds[i], more[i])
  }

  lemma OthersRemember(w: World, v: World, pid: nat, l: Local)
    requires Tables(w) && Extends(w.deliveries, v.deliveries) && ToldOnce(v.deliveries)
    requires v.locals == w.locals[pid := l] && Remembers(v, pid)
    ensures Tables(v)
  {
    forall q | q in v.locals ensures Remembers(v, q) {
      if q != pid { assert Remembers(w, q); }
    }
  }

  lemma QueueTellsOnce(w: World, pid: nat, l: Local, fails: bool)
    requires Tables(w) && l.Queueing?
    ensures Tables(Queue(w, pid, l, fails))
  {
    var v := Queue(w, pid, l, fails);
    OthersRemember(w, v, pid, v.At(pid));
  }

  lemma PostTellsOnce(w: World, pid: nat, l: Local, e: Encounter)
    requires Tables(w) && w.At(pid) == l && l.Delivering? && l.due != []
    ensures Tables(PostRow(w, pid, l, e))
  {
    assert pid in w.locals && Remembers(w, pid);
    var v := PostRow(w, pid, l, e);
    var rest := l.due[1..];
    assert forall k :: 0 <= k < |rest| ==> rest[k] == l.due[k + 1];
    OthersRemember(w, v, pid, v.At(pid));
  }

  lemma RecordTellsOnce(w: World, pid: nat, l: Local, fails: bool)
    requires Tables(w) && w.At(pid) == l && l.Recording?
    ensures Tables(RecordRow(w, pid, l, fails))
  {
    assert pid in w.locals && Remembers(w, pid);
    var v := RecordRow(w, pid, l, fails);
    assert Extends(w.deliveries, v.deliveries);
    OthersRemember(w, v, pid, v.At(pid));
  }

  lemma StepTellsOnce(w: World, s: Step)
    requires Tables(w)
    ensures Tables(Take(w, s))
  {
    var v := Take(w, s);
    match s
    case RunEnds(_) => forall q | q in v.locals ensures Remembers(v, q) { assert Remembers(w, q); }
    case TimePasses(_) => forall q | q in v.locals ensures Remembers(v, q) { assert Remembers(w, q); }
    case ListRuns(pid, _) => if v != w { OthersRemember(w, v, pid, v.At(pid)); }
    case ClaimRun(pid, _) => if v != w { OthersRemember(w, v, pid, v.At(pid)); }
    case DecideRun(pid, _, _) => if v != w { OthersRemember(w, v, pid, v.At(pid)); }
    case QueueMessage(pid, fails) => if w.At(pid).Queueing? { QueueTellsOnce(w, pid, w.At(pid), fails); }
    case ListDue(pid, _) => if v != w { OthersRemember(w, v, pid, v.At(pid)); }
    case Post(pid, e) =>
      var l := w.At(pid);
      if l.Delivering? && l.due != [] { PostTellsOnce(w, pid, l, e); }
      else if l.Delivering? { OthersRemember(w, v, pid, Idle); }
    case Record(pid, fails) => if w.At(pid).Recording? { RecordTellsOnce(w, pid, w.At(pid), fails); }
    case Crash(pid) => OthersRemember(w, v, pid, Idle);
  }

  /** Theorem: under every interleaving of any number of dispatchers, with
      crashes and store errors anywhere, no run is decided twice and no channel
      has two messages about one run. */
  lemma {:induction false} OncePerRunAndChannel(steps: seq<Step>)
    ensures DecidedOnce(Play(steps)) && Tables(Play(steps))
  {
    if steps != [] {
      OncePerRunAndChannel(steps[..|steps| - 1]);
      StepDecidesOnce(Play(steps[..|steps| - 1]), steps[|steps| - 1]);
      StepTellsOnce(Play(steps[..|steps| - 1]), steps[|steps| - 1]);
    }
  }

  // ------------------------------------------------ one deliverer

  /** Only this dispatcher ever reads the queue of messages to send. */
  predicate DeliversAlone(steps: seq<Step>, pid: nat) {
    forall s :: s in steps && s.ListDue? ==> s.pid == pid
  }

  predicate Busy(l: Local) { l.Delivering? || l.Recording? }

  /** What the deliverer still has to do is what the table says: its rows are
      pending there, each once, and unchanged since it read them. */
  predicate UpToDate(w: World, l: Local) {
    && (Busy(l) ==>
          && (forall k :: 0 <= k < |l.due| ==>
                l.due[k].0 < |w.deliveries| && w.deliveries[l.due[k].0] == l.due[k].1 && l.due[k].1.state == Pending)
          && forall j, k :: 0 <= j < k < |l.due| ==> l.due[j].0 != l.due[k].0)
    && (l.Recording? ==>
          && l.i < |w.deliveries| && WithinWindow(l.outcome)
          && l.outcome.attempts == w.deliveries[l.i].attempts + 1
          && forall k :: 0 <= k < |l.due| ==> l.due[k].0 != l.i)
  }

  predicate Settles(w: World, pid: nat) {
    && (forall d :: d in w.deliveries ==> WithinWindow(d))
    && (forall p :: p in w.posts ==> p.1 == Pending)
    && (forall q :: q in w.locals && q != pid ==> !Busy(w.At(q)))
    && UpToDate(w, w.At(pid))
  }

  /** Moving on with no message in hand disturbs no delivery. */
  lemma HandsFree(w: World, v: World, q: nat, l: Local, pid: nat)
    requires Settles(w, pid) && v.deliveries == w.deliveries && v.posts == w.posts
    requires v.locals == w.locals[q := l] && !Busy(l)
    ensures Settles(v, pid)
  {
    assert forall p :: p != q ==> v.At(p) == w.At(p);
  }

  lemma ListSettles(w: World, pid: nat, batch: seq<nat>)
    requires Settles(w, pid) && DueBatch(w, batch)
    ensures Settles(w.Move(pid, Delivering(Rows(w, batch))), pid)
  {
  }

  lemma StepSettles(w: World, s: Step, pid: nat)
    requires Settles(w, pid) && (s.ListDue? ==> s.pid == pid)
    ensures Settles(Take(w, s), pid)
  {
    var v := Take(w, s);
    match s
    case RunEnds(_) =>
    case TimePasses(_) =>
    case QueueMessage(q, fails) =>
      if w.At(q).Queueing? { QueueSettles(w, q, w.At(q), fails, pid); }
    case ListDue(q, batch) =>
      if v != w { ListSettles(w, pid, batch); }
    case Post(q, e) =>
      if w.At(q).Delivering? && w.At(q).due != [] { PostSettles(w, q, w.At(q), e); }
      else if w.At(q).Delivering? { HandsFree(w, v, q, Idle, pid); }
    case Record(q, fails) =>
      if w.At(q).Recording? { RecordSettles(w, q, w.At(q), fails); }
    case _ =>
      if v != w { HandsFree(w, v, s.pid, v.At(s.pid), pid); }
  }

  lemma QueueSettles(w: World, q: nat, l: Local, fails: bool, pid: nat)
    requires Settles(w, pid) && w.At(q) == l && l.Queueing?
    ensures Settles(Queue(w, q, l, fails), pid)
  {
  }

  lemma PostSettles(w: World, pid: nat, l: Local, e: Encounter)
    requires Settles(w, pid) && w.At(pid) == l && l.Delivering? && l.due != []
    ensures Settles(PostRow(w, pid, l, e), pid)
  {
    var (i, row) := l.due[0];
    assert row in w.deliveries && WithinWindow(row);
    AttemptCounts(row, e, w.clock);
    var rest := l.due[1..];
    assert forall k :: 0 <= k < |rest| ==> rest[k] == l.due[k + 1];
  }

  lemma RecordSettles(w: World, pid: nat, l: Local, fails: bool)
    requires Settles(w, pid) && w.At(pid) == l && l.Recording?
    ensures Settles(RecordRow(w, pid, l, fails), pid)
  {
  }

  /** Theorem: with one dispatcher delivering, however often it crashes, every
      POST is for a row that was still pending, and a row is settled by its
      fourth recorded attempt at the latest; so a settled row is never
      attempted again. */
  lemma {:induction false} DeliveriesSettle(steps: seq<Step>, pid: nat)
    requires DeliversAlone(steps, pid)
    ensures Settles(Play(steps), pid)
  {
    if steps != [] {
      DeliveriesSettle(steps[..|steps| - 1], pid);
      StepSettles(Play(steps[..|steps| - 1]), steps[|steps| - 1], pid);
    }
  }

  /** Two dispatchers that both read a row before either records it post a
      message once more after it was sent. */
  lemma TwoMayPostTheSame(w: World, a: nat, b: nat, d: Delivery)
    requires a != b && w.At(a) == Idle && w.At(b) == Idle && w.deliveries == [d] && d.Due(w.clock)
    ensures var ok := Posted(Reply(200, None));
      var both := Take(Take(w, ListDue(a, [0])), ListDue(b, [0]));
      var done := Take(Take(both, Post(a, ok)), Record(a, false));
      Take(done, Post(b, ok)).posts == w.posts + [(0, Pending), (0, Sent)]
  {
    var ok := Posted(Reply(200, None));
    var one := Take(w, ListDue(a, [0]));
    ReadsTheRow(w, a, d);
    var both := Take(one, ListDue(b, [0]));
    ReadsTheRow(one, b, d);
    var posted := Take(both, Post(a, ok));
    assert posted.posts == w.posts + [(0, Pending)] && posted.At(a).Recording? && posted.At(b) == both.At(b);
    var done := Take(posted, Record(a, false));
    assert done.deliveries[0].state == Sent && done.At(b) == both.At(b);
  }

  lemma ReadsTheRow(w: World, pid: nat, d: Delivery)
    requires w.At(pid) == Idle && w.deliveries == [d] && d.Due(w.clock)
    ensures Take(w, ListDue(pid, [0])) == w.Move(pid, Delivering([(0, d)]))
  {
    assert DueBatch(w, [0]);
    assert Rows(w, [0]) == [(0, d)];
  }

  // ------------------------------------------------ who may deliver

  /** Only these dispatchers ever read the queue of messages to send. */
  predicate DeliveredBy(steps: seq<Step>, pids: set<nat>) {
    forall s :: s in steps && s.ListDue? ==> s.pid in pids
  }

  predicate OnlyPending(posts: seq<(nat, DeliveryState)>) { forall p :: p in posts ==> p.1 == Pending }

  /** However these deliver, nothing already settled is posted again. */
  ghost predicate NeverTwice(pids: set<nat>) {
    forall steps :: DeliveredBy(steps, pids) ==> OnlyPending(Play(steps).posts)
  }

  lemma PlayNext(steps: seq<Step>, s: Step, pids: set<nat>)
    requires DeliveredBy(steps, pids) && (s.ListDue? ==> s.pid in pids)
    ensures Play(steps + [s]) == Take(Play(steps), s) && DeliveredBy(steps + [s], pids)
  {
    assert (steps + [s])[..|steps|] == steps;
  }

  lemma OneIsListed(a: nat, pids: set<nat>) returns (steps: seq<Step>)
    ensures DeliveredBy(steps, pids)
    ensures Play(steps) == World(0, {"run"}, {}, [], map[a := Considering(["run"])], [], [])
  {
    PlayNext([], RunEnds("run"), pids);
    steps := [] + [RunEnds("run")];
    assert Play(steps) == World(0, {"run"}, {}, [], map[], [], []);
    PlayNext(steps, ListRuns(a, ["run"]), pids);
    steps := steps + [ListRuns(a, ["run"])];
  }

  /** A run that ended, held by the dispatcher that claimed it. */
  lemma OneIsHeld(a: nat, pids: set<nat>) returns (steps: seq<Step>)
    ensures DeliveredBy(steps, pids) && Play(steps).locals == map[a := Holding("run", [])]
    ensures Play(steps).deliveries == [] && Play(steps).clock == 0 && Play(steps).posts == []
  {
    steps := OneIsListed(a, pids);
    PlayNext(steps, ClaimRun(a, false), pids);
    ClaimWins(Play(steps), a, false);
    steps := steps + [ClaimRun(a, false)];
    assert ["run"][1..] == [];
    assert Play(steps).locals[a] == Holding("run", []) && Play(steps).locals.Keys == {a};
  }

  /** It queues one message, and crashes. */
  lemma OneIsQueued(a: nat, pids: set<nat>) returns (steps: seq<Step>)
    ensures DeliveredBy(steps, pids) && Play(steps).locals == map[a := Idle]
    ensures Play(steps).deliveries == [Fresh("run", "channel", VerdictChanged, 0)]
    ensures Play(steps).clock == 0 && Play(steps).posts == []
  {
    steps := OneIsHeld(a, pids);
    var decide := DecideRun(a, Some(VerdictChanged), ["channel"]);
    PlayNext(steps, decide, pids);
    steps := steps + [decide];
    assert Play(steps).At(a) == Queueing("run", VerdictChanged, ["channel"], []);
    PlayNext(steps, QueueMessage(a, false), pids);
    steps := steps + [QueueMessage(a, false)];
    PlayNext(steps, Crash(a), pids);
    steps := steps + [Crash(a)];
  }

  /** Two dispatchers both read the row before either records what came of it. */
  lemma TwoPostTwice(a: nat, b: nat, pids: set<nat>) returns (steps: seq<Step>)
    requires a != b && a in pids && b in pids
    ensures DeliveredBy(steps, pids) && Play(steps).posts == [(0, Pending), (0, Sent)]
  {
    var ok := Posted(Reply(200, None));
    steps := OneIsQueued(a, pids);
    TwoMayPostTheSame(Play(steps), a, b, Fresh("run", "channel", VerdictChanged, 0));
    PlayNext(steps, ListDue(a, [0]), pids);
    steps := steps + [ListDue(a, [0])];
    PlayNext(steps, ListDue(b, [0]), pids);
    steps := steps + [ListDue(b, [0])];
    PlayNext(steps, Post(a, ok), pids);
    steps := steps + [Post(a, ok)];
    PlayNext(steps, Record(a, false), pids);
    steps := steps + [Record(a, false)];
    PlayNext(steps, Post(b, ok), pids);
    steps := steps + [Post(b, ok)];
  }

  lemma OneDeliversWell(pids: set<nat>, pid: nat)
    requires pids <= {pid}
    ensures NeverTwice(pids)
  {
    forall steps | DeliveredBy(steps, pids) ensures OnlyPending(Play(steps).posts) {
      DeliveriesSettle(steps, pid);
    }
  }

  lemma TwoAreMany(pids: set<nat>, a: nat, b: nat)
    requires a != b && a in pids && b in pids
    ensures |pids| >= 2
  {
    assert pids == {a, b} + (pids - {a, b});
  }

  /** Theorem: over every interleaving, crashes included, no settled message is
      ever posted again, exactly when at most one dispatcher delivers. */
  lemma NeverTwiceMeansAlone(pids: set<nat>)
    ensures NeverTwice(pids) <==> |pids| <= 1
  {
    if a, b :| a in pids && b in pids && a != b {
      TwoAreMany(pids, a, b);
      var steps := TwoPostTwice(a, b, pids);
      assert DeliveredBy(steps, pids) && (0, Sent) in Play(steps).posts;
    } else if a :| a in pids {
      assert pids == {a};
      OneDeliversWell(pids, a);
    } else {
      assert pids == {};
      OneDeliversWell(pids, 0);
    }
  }
}
