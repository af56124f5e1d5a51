// One dispatcher's pass over the history: claim a batch of finished drills,
// oldest first, and queue what each is worth saying
// (internal/notify/dispatcher.go).
module Dispatcher {
  import opened Core
  import opened Story
  import opened Deliver

  /** A finished drill in the order the store lists them, and whether anybody
      has considered it. */
  datatype RunRow = RunRow(id: string, notified: bool, completedAt: Option<int>, startedAt: Option<int>)

  /** How the world answers while one run is considered: the claim fails, or
      another dispatcher was faster; the story cannot be read; what Decide and
      the numbers have to say; which channels refuse to be written to. */
  datatype Turn = Turn(
    claimFails: bool, beaten: bool, now: int, storyFails: bool, said: Option<Kind>, refusing: set<string>)

  function Waiting(runs: seq<RunRow>): (n: nat)
    ensures n <= |runs|
  {
    if runs == [] then 0 else Waiting(runs[..|runs| - 1]) + if runs[|runs| - 1].notified then 0 else 1
  }

  /** The indices of the first `limit` runs nobody has considered. */
  function Oldest(runs: seq<RunRow>, limit: nat): (batch: seq<nat>)
    ensures |batch| == if Waiting(runs) < limit then Waiting(runs) else limit
    ensures forall k :: 0 <= k < |batch| ==> batch[k] < |runs| && !runs[batch[k]].notified
    ensures forall j, k :: 0 <= j < k < |batch| ==> batch[j] < batch[k]
  {
    if runs == [] then []
    else
      var before := Oldest(runs[..|runs| - 1], limit);
      if runs[|runs| - 1].notified || |before| == limit then before else before + [|runs| - 1]
  }

  lemma {:induction false} NoneWaits(runs: seq<RunRow>)
    ensures Waiting(runs) == 0 <==> forall r :: r in runs ==> r.notified
  {
    if runs != [] {
      NoneWaits(runs[..|runs| - 1]);
      assert forall r :: r in runs <==> r in runs[..|runs| - 1] || r == runs[|runs| - 1];
    }
  }

  /** Whoever is left waiting outside a full batch came later than all of it. */
  lemma {:induction false} OldestComeFirst(runs: seq<RunRow>, limit: nat, i: nat)
    requires i < |runs| && !runs[i].notified && i !in Oldest(runs, limit)
    ensures |Oldest(runs, limit)| == limit && forall k :: 0 <= k < limit ==> Oldest(runs, limit)[k] < i
  {
    var n := |runs| - 1;
    if i < n {
      OldestComeFirst(runs[..n], limit, i);
    }
  }

  lemma {:induction false} WaitingUpdate(runs: seq<RunRow>, i: nat)
    requires i < |runs| && !runs[i].notified
    ensures Waiting(runs[i := runs[i].(notified := true)]) == Waiting(runs) - 1
  {
    var k := |runs| - 1;
    var next := runs[i := runs[i].(notified := true)];
    if i == k {
      assert next[..k] == runs[..k];
    } else {
      WaitingUpdate(runs[..k], i);
      assert next[..k] == runs[..k][i := runs[i].(notified := true)];
    }
  }

  /** Read from the end of the drill, or from its start when it has none; a
      drill without any date is not news. */
  predicate TooOld(r: RunRow, maxAge: int, now: int) {
    if maxAge < 0 then false
    else match FirstOf(r.completedAt, r.startedAt)
      case None => true
      case Some(at) => now - at > maxAge
  }

  function FirstOf(a: Option<int>, b: Option<int>): Option<int> { if a.Some? then a else b }

  predicate HasMessage(ds: seq<Delivery>, run: string, channel: string) {
    exists d :: d in ds && d.runId == run && d.channelId == channel
  }

  /** The message a channel gets about a run, unless it has one already. */
  function WithMessage(ds: seq<Delivery>, run: string, kind: Kind, channel: string, t: Turn): seq<Delivery> {
    if channel in t.refusing || HasMessage(ds, run, channel) then ds
    else ds + [Fresh(run, channel, kind, t.now)]
  }

  function WithMessages(ds: seq<Delivery>, run: string, kind: Kind, channels: seq<string>, t: Turn): seq<Delivery> {
    if channels == [] then ds
    else
      var k := |channels| - 1;
      WithMessage(WithMessages(ds, run, kind, channels[..k], t), run, kind, channels[k], t)
  }

  /** Every channel of the list that accepts one has a message about the run,
      and nobody else's messages change. */
  lemma {:induction false} QueuedMeans(ds: seq<Delivery>, run: string, kind: Kind, channels: seq<string>, t: Turn)
    ensures var all := WithMessages(ds, run, kind, channels, t);
      && ds <= all
      && (forall c :: (exists d :: d in all && d.runId == run && d.channelId == c)
            <==> (exists d :: d in ds && d.runId == run && d.channelId == c) || (c in channels && c !in t.refusing))
      && (forall k :: |ds| <= k < |all| ==>
            all[k] == Delivery(run, all[k].channelId, kind, Pending, 0, Some(t.now), 0, None))
  {
    if channels != [] {
      var k := |channels| - 1;
      QueuedMeans(ds, run, kind, channels[..k], t);
      var before := WithMessages(ds, run, kind, channels[..k], t);
      OneQueued(before, run, kind, channels[k], t);
      assert forall c :: c in channels <==> c in channels[..k] || c == channels[k];
    }
  }

  lemma OneQueued(ds: seq<Delivery>, run: string, kind: Kind, channel: string, t: Turn)
    ensures var all := WithMessage(ds, run, kind, channel, t);
      && ds <= all
      && (forall c :: (exists d :: d in all && d.runId == run && d.channelId == c)
            <==> (exists d :: d in ds && d.runId == run && d.channelId == c) || (c == channel && c !in t.refusing))
      && (forall k :: |ds| <= k < |all| ==>
            all[k] == Delivery(run, all[k].channelId, kind, Pending, 0, Some(t.now), 0, None))
  {
    var row := Fresh(run, channel, kind, t.now);
    assert forall d :: d in ds + [row] <==> d in ds || d == row;
  }

  predicate Speaks(r: RunRow, t: Turn, maxAge: int) {
    !t.claimFails && !t.beaten && !TooOld(r, maxAge, t.now) && !t.storyFails && t.said.Some?
  }

  /** Runs were claimed, and nothing else about them changed. */
  predicate OnlyClaimed(before: seq<RunRow>, runs: seq<RunRow>) {
    && |runs| == |before|
    && forall i :: 0 <= i < |runs| ==>
         runs[i] == before[i].(notified := runs[i].notified) && (before[i].notified ==> runs[i].notified)
  }

  /** Those at the given places were, and no others. */
  predicate ExactlyClaimed(before: seq<RunRow>, runs: seq<RunRow>, places: seq<nat>) {
    && |runs| == |before|
    && forall i :: 0 <= i < |runs| ==> (runs[i].notified <==> before[i].notified || i in places)
  }

  predicate Places(runs: seq<RunRow>, todo: seq<nat>) {
    && (forall k :: 0 <= k < |todo| ==> todo[k] < |runs| && !runs[todo[k]].notified)
    && (forall j, k :: 0 <= j < k < |todo| ==> todo[j] < todo[k])
  }

  /** The runs after the first k of these were considered. */
  function ClaimedUpTo(runs: seq<RunRow>, todo: seq<nat>, turns: seq<Turn>, k: nat): (r: seq<RunRow>)
    requires k <= |todo| == |turns| && Places(runs, todo)
    ensures |r| == |runs|
  {
    if k == 0 then runs
    else
      var before := ClaimedUpTo(runs, todo, turns, k - 1);
      if turns[k - 1].claimFails then before
      else before[todo[k - 1] := before[todo[k - 1]].(notified := true)]
  }

  lemma {:induction false} OthersStay(runs: seq<RunRow>, todo: seq<nat>, turns: seq<Turn>, k: nat, j: nat)
    requires k <= j < |todo| == |turns| && Places(runs, todo)
    ensures ClaimedUpTo(runs, todo, turns, k)[todo[j]] == runs[todo[j]]
  {
    if k > 0 {
      OthersStay(runs, todo, turns, k - 1, j);
    }
  }

  lemma {:induction false} ClaimsOnlyClaim(runs: seq<RunRow>, todo: seq<nat>, turns: seq<Turn>, k: nat)
    requires k <= |todo| == |turns| && Places(runs, todo)
    ensures OnlyClaimed(runs, ClaimedUpTo(runs, todo, turns, k))
  {
    if k > 0 {
      ClaimsOnlyClaim(runs, todo, turns, k - 1);
    }
  }

  lemma {:induction false} ClaimsAreExact(runs: seq<RunRow>, todo: seq<nat>, turns: seq<Turn>, k: nat)
    requires k <= |todo| == |turns| && Places(runs, todo) && forall t :: t in turns ==> !t.claimFails
    ensures ExactlyClaimed(runs, ClaimedUpTo(runs, todo, turns, k), todo[..k])
  {
    if k > 0 {
      var j := k - 1;
      ClaimsAreExact(runs, todo, turns, j);
      assert turns[j] in turns;
      OneMoreClaimed(runs, ClaimedUpTo(runs, todo, turns, j), todo[..j], todo[j]);
      TakeNext(todo, j);
    }
  }

  lemma OneIsClaimed(runs: seq<RunRow>, todo: seq<nat>, turns: seq<Turn>, j: nat)
    requires j < |todo| == |turns| && Places(runs, todo) && forall t :: t in turns ==> !t.claimFails
    ensures Waiting(ClaimedUpTo(runs, todo, turns, j + 1)) == Waiting(ClaimedUpTo(runs, todo, turns, j)) - 1
  {
    var before := ClaimedUpTo(runs, todo, turns, j);
    OthersStay(runs, todo, turns, j, j);
    WaitingUpdate(before, todo[j]);
    assert turns[j] in turns;
    assert ClaimedUpTo(runs, todo, turns, j + 1) == before[todo[j] := before[todo[j]].(notified := true)];
  }

  lemma {:induction false} ClaimsAreCounted(runs: seq<RunRow>, todo: seq<nat>, turns: seq<Turn>, k: nat)
    requires k <= |todo| == |turns| && Places(runs, todo) && forall t :: t in turns ==> !t.claimFails
    ensures Waiting(ClaimedUpTo(runs, todo, turns, k)) == Waiting(runs) - k
  {
    if k > 0 {
      var j := k - 1;
      ClaimsAreCounted(runs, todo, turns, j);
      OneIsClaimed(runs, todo, turns, j);
    }
  }

  lemma OneMoreClaimed(before: seq<RunRow>, runs: seq<RunRow>, places: seq<nat>, i: nat)
    requires ExactlyClaimed(before, runs, places) && i < |runs|
    ensures ExactlyClaimed(before, runs[i := runs[i].(notified := true)], places + [i])
  {
  }

  class Ledger {
    var runs: seq<RunRow>
    var deliveries: seq<Delivery>

    constructor (runs: seq<RunRow>)
      ensures this.runs == runs && deliveries == []
    {
      this.runs, deliveries := runs, [];
    }

    /** A conditional update: true for the one caller who got there first. */
    method ClaimRunForNotify(i: nat) returns (won: bool)
      requires i < |runs|
      modifies this`runs
      ensures won == !old(runs)[i].notified
      ensures runs == old(runs)[i := old(runs)[i].(notified := true)]
    {
      won := !runs[i].notified;
      runs := runs[i := runs[i].(notified := true)];
    }

    method CreateDelivery(d: Delivery, refused: bool)
      modifies this`deliveries
      ensures deliveries == if refused || HasMessage(old(deliveries), d.runId, d.channelId)
                            then old(deliveries) else old(deliveries) + [d]
    {
      if !refused && !HasMessage(deliveries, d.runId, d.channelId) {
        deliveries := deliveries + [d];
      }
    }
  }

  datatype ChannelConfig = ChannelConfig(id: string, kind: string, on: bool)

  class Dispatcher {
    const ledger: Ledger
    const kinds: set<string>
    const batch: nat
    const maxAge: int
    var complainedAbout: map<string, string>
    ghost var warnings: seq<(string, string)>

    constructor (ledger: Ledger, kinds: set<string>, batch: nat, maxAge: int)
      ensures this.ledger == ledger && this.kinds == kinds && this.batch == batch && this.maxAge == maxAge
      ensures complainedAbout == map[] && warnings == []
    {
      this.ledger, this.kinds, this.batch, this.maxAge := ledger, kinds, batch, maxAge;
      complainedAbout, warnings := map[], [];
    }

    /** What is remembered about a channel is the last warning about it. */
    ghost predicate Matches(id: string) reads this {
      LastKind(warnings, id) == if id in complainedAbout then Some(complainedAbout[id]) else None
    }

    method Complain(c: ChannelConfig)
      requires forall id :: Matches(id)
      modifies this
      ensures forall id :: Matches(id)
      ensures warnings == if LastKind(old(warnings), c.id) == Some(c.kind) then old(warnings)
                          else old(warnings) + [(c.id, c.kind)]
    {
      assert Matches(c.id);
      if c.id in complainedAbout && complainedAbout[c.id] == c.kind {
        return;
      }
      ghost var before := warnings;
      complainedAbout := complainedAbout[c.id := c.kind];
      warnings := warnings + [(c.id, c.kind)];
      assert warnings[..|before|] == before;
      forall id ensures Matches(id) {
        assert old(Matches(id));
      }
    }

    /** The channels that will actually receive a message: switched on and of a
        kind that can be rendered. The others are complained about once. */
    method Resolve(configured: seq<ChannelConfig>) returns (channels: seq<string>)
      requires forall id :: Matches(id)
      modifies this
      ensures forall id :: Matches(id)
      ensures channels == Usable(configured, kinds)
      ensures warnings == Warned(old(warnings), configured, kinds)
    {
      channels := [];
      for i := 0 to |configured|
        invariant channels == Usable(configured[..i], kinds)
        invariant forall id :: Matches(id)
        invariant warnings == Warned(old(warnings), configured[..i], kinds)
      {
        var c := configured[i];
        assert configured[..i + 1][..i] == configured[..i];
        if !c.on {
          continue;
        }
        if c.kind !in kinds {
          Complain(c);
          continue;
        }
        channels := channels + [c.id];
      }
      assert configured[..|configured|] == configured;
    }

    /** One run: claimed first, so that it never comes round again, and only
        then passed over or spoken about. */
    method Consider(i: nat, channels: seq<string>, t: Turn)
      requires i < |ledger.runs| && !ledger.runs[i].notified
      modifies ledger
      ensures ledger.runs == if t.claimFails then old(ledger.runs)
                             else old(ledger.runs)[i := old(ledger.runs)[i].(notified := true)]
      ensures ledger.deliveries == if Speaks(old(ledger.runs)[i], t, maxAge)
                                   then WithMessages(old(ledger.deliveries), old(ledger.runs)[i].id,
                                                     t.said.value, channels, t)
                                   else old(ledger.deliveries)
      // who has a message about this run now
      ensures forall c ::
                (exists d :: d in ledger.deliveries && d.runId == old(ledger.runs)[i].id && d.channelId == c)
                <==> (exists d :: d in old(ledger.deliveries) && d.runId == old(ledger.runs)[i].id && d.channelId == c)
                     || (!t.claimFails && !t.beaten && !t.storyFails && t.said.Some?
                         && c in channels && c !in t.refusing
                         && (maxAge < 0
                             || (old(ledger.runs)[i].completedAt.Some?
                                 && t.now - old(ledger.runs)[i].completedAt.value <= maxAge)
                             || (old(ledger.runs)[i].completedAt.None? && old(ledger.runs)[i].startedAt.Some?
                                 && t.now - old(ledger.runs)[i].startedAt.value <= maxAge)))
      // and what the new ones say
      ensures old(ledger.deliveries) <= ledger.deliveries
      ensures forall k :: |old(ledger.deliveries)| <= k < |ledger.deliveries| ==>
                t.said.Some? && ledger.deliveries[k]
                == Delivery(old(ledger.runs)[i].id, ledger.deliveries[k].channelId, t.said.value,
                            Pending, 0, Some(t.now), 0, None)
    {
      if t.said.Some? {
        QueuedMeans(ledger.deliveries, ledger.runs[i].id, t.said.value, channels, t);
      }
      if t.claimFails {
        return;
      }
      var run := ledger.runs[i];
      if t.beaten {
        var _ := ledger.ClaimRunForNotify(i);
      }
      var won := ledger.ClaimRunForNotify(i);
      if !won || TooOld(run, maxAge, t.now) || t.storyFails || t.said.None? {
        return;
      }
      QueueAll(run.id, t.said.value, channels, t);
    }

    method QueueAll(run: string, kind: Kind, channels: seq<string>, t: Turn)
      modifies ledger`deliveries
      ensures ledger.deliveries == WithMessages(old(ledger.deliveries), run, kind, channels, t)
    {
      for k := 0 to |channels|
        invariant ledger.deliveries == WithMessages(old(ledger.deliveries), run, kind, channels[..k], t)
      {
        assert channels[..k + 1][..k] == channels[..k];
        ledger.CreateDelivery(Fresh(run, channels[k], kind, t.now), channels[k] in t.refusing);
      }
      assert channels[..|channels|] == channels;
    }

    /** decide: a batch of the oldest runs nobody has considered. A store that
        answers leaves that many fewer waiting, whatever was said. */
    method DecidePass(channels: seq<string>, turns: seq<Turn>)
      requires |turns| == |Oldest(ledger.runs, batch)|
      modifies ledger
      ensures OnlyClaimed(old(ledger.runs), ledger.runs)
      ensures (forall t :: t in turns ==> !t.claimFails) ==>
                Waiting(ledger.runs) == Waiting(old(ledger.runs)) - |turns|
      ensures (forall t :: t in turns ==> !t.claimFails) ==>
                ExactlyClaimed(old(ledger.runs), ledger.runs, Oldest(old(ledger.runs), batch))
    {
      var todo := Oldest(ledger.runs, batch);
      for k := 0 to |todo|
        invariant ledger.runs == ClaimedUpTo(old(ledger.runs), todo, turns, k)
      {
        OthersStay(old(ledger.runs), todo, turns, k, k);
        Consider(todo[k], channels, turns[k]);
      }
      ClaimsOnlyClaim(old(ledger.runs), todo, turns, |todo|);
      if forall t :: t in turns ==> !t.claimFails {
        ClaimsAreExact(old(ledger.runs), todo, turns, |todo|);
        ClaimsAreCounted(old(ledger.runs), todo, turns, |todo|);
        TakeEnds(todo);
      }
    }

    /** Pass after pass while the store answers and nothing new arrives: after
        as many as the backlog has batches, nobody is left waiting. */
    method Drain(channels: seq<string>, answers: (nat, nat) -> Turn) returns (passes: nat)
      requires batch > 0 && forall i: nat, k: nat :: !answers(i, k).claimFails
      modifies ledger
      ensures forall r :: r in ledger.runs ==> r.notified
      ensures passes == Passes(Waiting(old(ledger.runs)), batch)
    {
      passes := 0;
      while Waiting(ledger.runs) > 0
        invariant passes + Passes(Waiting(ledger.runs), batch) == Passes(Waiting(old(ledger.runs)), batch)
        decreases Waiting(ledger.runs)
      {
        var turns := seq(|Oldest(ledger.runs, batch)|, k requires k >= 0 => answers(passes, k));
        OnePass(ledger.runs, batch);
        DecidePass(channels, turns);
        passes := passes + 1;
      }
      NoneWaits(ledger.runs);
    }

    /** deliver: one attempt for each due row; a stopping process and a store
        that refuses the outcome leave the row exactly as it was. */
    method DeliverPass(due: seq<nat>, tries: seq<Try>)
      requires |tries| == |due|
      requires forall k :: 0 <= k < |due| ==> due[k] < |ledger.deliveries| && ledger.deliveries[due[k]].state == Pending
      requires forall j, k :: 0 <= j < k < |due| ==> due[j] != due[k]
      modifies ledger`deliveries
      ensures |ledger.deliveries| == |old(ledger.deliveries)|
      ensures forall i :: 0 <= i < |ledger.deliveries| && (forall k :: 0 <= k < |due| ==> due[k] != i) ==>
                ledger.deliveries[i] == old(ledger.deliveries)[i]
      ensures forall k :: 0 <= k < |due| ==>
                if tries[k].settleFails || tries[k].e == Posted(Stopping)
                then ledger.deliveries[due[k]] == old(ledger.deliveries)[due[k]]
                else Some(ledger.deliveries[due[k]])
                     == Attempted(old(ledger.deliveries)[due[k]], tries[k].e, tries[k].now)
    {
      for k := 0 to |due|
        invariant |ledger.deliveries| == |old(ledger.deliveries)|
        invariant forall i :: 0 <= i < |ledger.deliveries| && (forall j :: 0 <= j < k ==> due[j] != i) ==>
                    ledger.deliveries[i] == old(ledger.deliveries)[i]
        invariant forall j :: 0 <= j < k ==>
                    ledger.deliveries[due[j]] == Outcome(old(ledger.deliveries)[due[j]], tries[j])
      {
        var row, t := ledger.deliveries[due[k]], tries[k];
        var outcome := Attempted(row, t.e, t.now);
        if outcome.Some? && !t.settleFails {
          ledger.deliveries := ledger.deliveries[due[k] := outcome.value];
        }
      }
      forall k | 0 <= k < |due|
        ensures if tries[k].settleFails || tries[k].e == Posted(Stopping)
                then ledger.deliveries[due[k]] == old(ledger.deliveries)[due[k]]
                else Some(ledger.deliveries[due[k]])
                     == Attempted(old(ledger.deliveries)[due[k]], tries[k].e, tries[k].now)
      {
        AttemptSettles(old(ledger.deliveries)[due[k]], tries[k].e, tries[k].now);
      }
    }
  }

  /** How one attempt goes, and whether its outcome can be written down. */
  datatype Try = Try(e: Encounter, now: int, settleFails: bool)

  function Outcome(row: Delivery, t: Try): Delivery {
    var next := Attempted(row, t.e, t.now);
    if next.None? || t.settleFails then row else next.value
  }

  function LastKind(warnings: seq<(string, string)>, id: string): Option<string> {
    if warnings == [] then None
    else if warnings[|warnings| - 1].0 == id then Some(warnings[|warnings| - 1].1)
    else LastKind(warnings[..|warnings| - 1], id)
  }

  function Usable(configured: seq<ChannelConfig>, kinds: set<string>): seq<string> {
    if configured == [] then []
    else
      var c := configured[|configured| - 1];
      Usable(configured[..|configured| - 1], kinds) + if c.on && c.kind in kinds then [c.id] else []
  }

  function Warned(warnings: seq<(string, string)>, configured: seq<ChannelConfig>, kinds: set<string>)
    : seq<(string, string)>
  {
    if configured == [] then warnings
    else
      Complained(Warned(warnings, configured[..|configured| - 1], kinds), configured[|configured| - 1], kinds)
  }

  /** One line more, unless the last one about this channel named this kind. */
  function Complained(warnings: seq<(string, string)>, c: ChannelConfig, kinds: set<string>): seq<(string, string)> {
    if c.on && c.kind !in kinds && LastKind(warnings, c.id) != Some(c.kind)
    then warnings + [(c.id, c.kind)] else warnings
  }

  /** The channels that speak are the ones switched on and of a known kind, in
      the order they are configured. */
  lemma {:induction false} UsableMeans(configured: seq<ChannelConfig>, kinds: set<string>)
    ensures forall id :: id in Usable(configured, kinds) <==>
              exists c :: c in configured && c.id == id && c.on && c.kind in kinds
    ensures forall k :: 0 <= k <= |configured| ==> Usable(configured[..k], kinds) <= Usable(configured, kinds)
  {
    if configured != [] {
      var n := |configured| - 1;
      UsableMeans(configured[..n], kinds);
      assert forall c :: c in configured <==> c in configured[..n] || c == configured[n];
      forall k | 0 <= k <= |configured| ensures Usable(configured[..k], kinds) <= Usable(configured, kinds) {
        if k <= n {
          assert configured[..n][..k] == configured[..k];
        } else {
          assert configured[..k] == configured;
        }
      }
    }
  }

  /** Theorem: with distinct channels, the lines a pass adds are about channels
      that are switched on and of no known kind, exactly those whose last line,
      if there was one, named another kind. */
  lemma {:induction false} WarnedMeans(
    warnings: seq<(string, string)>, configured: seq<ChannelConfig>, kinds: set<string>)
    requires forall i, j :: 0 <= i < j < |configured| ==> configured[i].id != configured[j].id
    ensures var all := Warned(warnings, configured, kinds);
      && warnings <= all
      && (forall w :: w in all[|warnings|..] <==>
            exists c :: c in configured && w == (c.id, c.kind)
                        && c.on && c.kind !in kinds && LastKind(warnings, c.id) != Some(c.kind))
  {
    if configured != [] {
      var n := |configured| - 1;
      var before, last := Warned(warnings, configured[..n], kinds), configured[n];
      WarnedMeans(warnings, configured[..n], kinds);
      assert forall c :: c in configured <==> c in configured[..n] || c == last;
      OtherLinesDoNotCount(warnings, before, last.id);
      var all := Warned(warnings, configured, kinds);
      assert all == Complained(before, last, kinds);
      assert all[|warnings|..] == before[|warnings|..] + all[|before|..];
    }
  }

  /** Lines about other channels do not change the last one about this. */
  lemma {:induction false} OtherLinesDoNotCount(before: seq<(string, string)>, all: seq<(string, string)>, id: string)
    requires before <= all && forall w :: w in all[|before|..] ==> w.0 != id
    ensures LastKind(all, id) == LastKind(before, id)
  {
    if all != before {
      var k := |all| - 1;
      assert all[|before|..][k - |before|] == all[k] && all[..k][|before|..] == all[|before|..][..k - |before|];
      OtherLinesDoNotCount(before, all[..k], id);
    }
  }

  predicate SaidLast(warnings: seq<(string, string)>, id: string, kind: string, i: int) {
    0 <= i < |warnings| && warnings[i] == (id, kind) && forall j :: i < j < |warnings| ==> warnings[j].0 != id
  }

  lemma {:induction false} LastKindIsLast(warnings: seq<(string, string)>, id: string, kind: string, i: int)
    requires SaidLast(warnings, id, kind, i)
    ensures LastKind(warnings, id) == Some(kind)
  {
    var k := |warnings| - 1;
    if i < k {
      assert warnings[k].0 != id;
      LastKindIsLast(warnings[..k], id, kind, i);
    }
  }

  lemma {:induction false} NoLineNoKind(warnings: seq<(string, string)>, id: string)
    requires forall j :: 0 <= j < |warnings| ==> warnings[j].0 != id
    ensures LastKind(warnings, id) == None
  {
    if warnings != [] {
      NoLineNoKind(warnings[..|warnings| - 1], id);
    }
  }

  /** Theorem: a configuration that does not change is complained about once. */
  lemma {:induction false} NotTwice(warnings: seq<(string, string)>, configured: seq<ChannelConfig>, kinds: set<string>)
    requires forall i, j :: 0 <= i < j < |configured| ==> configured[i].id != configured[j].id
    ensures var once := Warned(warnings, configured, kinds); Warned(once, configured, kinds) == once
  {
    StillWarned(warnings, configured, kinds);
    Settled(Warned(warnings, configured, kinds), configured, kinds);
  }

  predicate Noted(warnings: seq<(string, string)>, c: ChannelConfig, kinds: set<string>) {
    c.on && c.kind !in kinds ==> LastKind(warnings, c.id) == Some(c.kind)
  }

  /** A line about one channel is the last one about it, and about no other. */
  lemma ComplaintIsNoted(warnings: seq<(string, string)>, last: ChannelConfig, c: ChannelConfig, kinds: set<string>)
    requires c == last || (c.id != last.id && Noted(warnings, c, kinds))
    ensures Noted(Complained(warnings, last, kinds), c, kinds)
  {
    assert (warnings + [(last.id, last.kind)])[..|warnings|] == warnings;
  }

  lemma {:induction false} StillWarned(
    warnings: seq<(string, string)>, configured: seq<ChannelConfig>, kinds: set<string>)
    requires forall i, j :: 0 <= i < j < |configured| ==> configured[i].id != configured[j].id
    ensures forall c :: c in configured ==> Noted(Warned(warnings, configured, kinds), c, kinds)
  {
    if configured != [] {
      var k := |configured| - 1;
      StillWarned(warnings, configured[..k], kinds);
      var before := Warned(warnings, configured[..k], kinds);
      forall c | c in configured ensures Noted(Warned(warnings, configured, kinds), c, kinds) {
        var i :| 0 <= i <= k && configured[i] == c;
        assert i < k ==> c in configured[..k];
        ComplaintIsNoted(before, configured[k], c, kinds);
      }
    }
  }

  lemma {:induction false} Settled(warnings: seq<(string, string)>, configured: seq<ChannelConfig>, kinds: set<string>)
    requires forall c :: c in configured ==> Noted(warnings, c, kinds)
    ensures Warned(warnings, configured, kinds) == warnings
  {
    if configured != [] {
      var k := |configured| - 1;
      Settled(warnings, configured[..k], kinds);
      assert configured[k] in configured;
    }
  }

  /** How many passes a backlog takes when nothing new arrives. */
  function Passes(waiting: nat, batch: nat): nat
    requires batch > 0
  {
    if waiting == 0 then 0 else 1 + Passes(if waiting > batch then waiting - batch else 0, batch)
  }

  /** Theorem: n waiting runs are considered in n / batch passes, rounded up:
      one fewer would leave some, and that many leave none. */
  lemma {:induction false} BacklogDrains(waiting: nat, batch: nat)
    requires batch > 0
    ensures waiting <= Passes(waiting, batch) * batch
    ensures waiting > 0 ==> (Passes(waiting, batch) - 1) * batch < waiting
  {
    if waiting > batch {
      BacklogDrains(waiting - batch, batch);
      var p := Passes(waiting - batch, batch);
      assert (p + 1) * batch == p * batch + batch;
      assert p * batch == (p - 1) * batch + batch;
    }
  }

  /** One pass leaves what Passes counts on. */
  lemma OnePass(runs: seq<RunRow>, batch: nat)
    requires batch > 0
    ensures Waiting(runs) - |Oldest(runs, batch)| == if Waiting(runs) > batch then Waiting(runs) - batch else 0
    ensures Waiting(runs) > 0 ==>
              Passes(Waiting(runs) - |Oldest(runs, batch)|, batch) == Passes(Waiting(runs), batch) - 1
  {
  }

  /** Theorem: whatever a run's message says and however often it is queued, a
      channel is told about it once. */
  lemma {:induction false} OneMessagePerChannel(
      ds: seq<Delivery>, run: string, kind: Kind, channels: seq<string>, t: Turn)
    requires forall i, j :: 0 <= i < j < |ds| ==> ds[i].runId != ds[j].runId || ds[i].channelId != ds[j].channelId
    ensures var all := WithMessages(ds, run, kind, channels, t);
      && (forall i, j :: 0 <= i < j < |all| ==> all[i].runId != all[j].runId || all[i].channelId != all[j].channelId)
      && ds <= all
      && (forall c :: c in channels && c !in t.refusing ==> HasMessage(all, run, c))
  {
    if channels != [] {
      var k := |channels| - 1;
      OneMessagePerChannel(ds, run, kind, channels[..k], t);
      var before := WithMessages(ds, run, kind, channels[..k], t);
      var all := WithMessages(ds, run, kind, channels, t);
      assert forall d :: d in before ==> d in all;
      forall c | c in channels && c !in t.refusing ensures HasMessage(all, run, c) {
        if c == channels[k] {
          assert HasMessage(before, run, c) || all[|before|] in all;
        } else {
          assert c in channels[..k];
        }
      }
    }
  }
}
