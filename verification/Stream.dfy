// A drill's progress as a stream that can be resumed (internal/api/sse.go). The
// store holds numbered events, appended in order; the stream polls it.
module Stream {
  import opened Core

  datatype Entry = Entry(id: int, state: RunState)

  /** Events in the order they were stored, numbered upwards from one. */
  predicate InOrder(log: seq<Entry>) {
    && (forall i :: 0 <= i < |log| ==> log[i].id > 0)
    && (forall i, j :: 0 <= i < j < |log| ==> log[i].id < log[j].id)
  }

  datatype Frame = Progress(e: Entry) | Done(state: RunState) | Heartbeat | Disconnected(state: RunState)

  /** One pass of the stream: how much the store held when the events were
      read, the state read after them, when neither failed, what the clock
      said, and how the pause after it ended. */
  datatype Poll = Poll(
    stored: nat, eventsFail: bool, state: Option<RunState>, eventsAt: int, now: int, gone: bool, stopping: bool)

  /** How many events carry a number up to n. */
  function Upto(log: seq<Entry>, n: int): (k: nat)
    ensures k <= |log|
  {
    if log == [] then 0
    else if log[|log| - 1].id <= n then |log|
    else Upto(log[..|log| - 1], n)
  }

  lemma {:induction false} UptoSplits(log: seq<Entry>, n: int)
    requires InOrder(log)
    ensures forall i :: 0 <= i < |log| ==> (log[i].id <= n <==> i < Upto(log, n))
  {
    if log != [] && log[|log| - 1].id > n {
      UptoSplits(log[..|log| - 1], n);
    }
  }

  /** The query a stream and the JSON listing share: everything after n. */
  method Events(log: seq<Entry>, stored: nat, n: int) returns (events: seq<Entry>)
    requires InOrder(log) && stored <= |log|
    ensures events == log[Smaller(Upto(log, n), stored)..stored]
  {
    events := [];
    UptoSplits(log, n);
    for i := 0 to stored
      invariant events == log[Smaller(Smaller(Upto(log, n), stored), i)..i]
    {
      if log[i].id > n {
        events := events + [log[i]];
      }
    }
  }

  function Smaller(a: nat, b: nat): nat { if a < b then a else b }

  function Entries(frames: seq<Frame>): seq<Entry> {
    if frames == [] then []
    else
      var last := frames[|frames| - 1];
      Entries(frames[..|frames| - 1]) + if last.Progress? then [last.e] else []
  }

  lemma EntriesAppend(frames: seq<Frame>, f: Frame)
    ensures Entries(frames + [f]) == Entries(frames) + if f.Progress? then [f.e] else []
  {
    assert (frames + [f])[..|frames|] == frames;
  }

  /** A last-event id that does not parse as a positive number is none. */
  function Cursor(lastEventId: Option<int>): int {
    if lastEventId.Some? && lastEventId.value > 0 then lastEventId.value else 0
  }

  predicate NoDone(frames: seq<Frame>) { forall f :: f in frames ==> !f.Done? }

  method Write(frames0: seq<Frame>, events: seq<Entry>) returns (frames: seq<Frame>)
    requires NoDone(frames0)
    ensures NoDone(frames) && Entries(frames) == Entries(frames0) + events
  {
    frames := frames0;
    for i := 0 to |events|
      invariant NoDone(frames) && Entries(frames) == Entries(frames0) + events[..i]
    {
      EntriesAppend(frames, Progress(events[i]));
      frames := frames + [Progress(events[i])];
    }
  }

  /** One pass over the events: what is new is written, and the cursor moves
      to the last of it. */
  method Forward(log: seq<Entry>, stored: nat, after0: int, frames0: seq<Frame>, ghost from: nat, ghost seen0: nat)
    returns (frames: seq<Frame>, after: int, moved: bool, ghost seen: nat)
    requires InOrder(log) && stored <= |log| && from <= seen0 <= |log|
    requires NoDone(frames0) && Entries(frames0) == log[from..seen0] && Upto(log, after0) == seen0
    ensures from <= seen <= |log| && NoDone(frames) && Entries(frames) == log[from..seen] && Upto(log, after) == seen
    ensures seen == if stored > seen0 then stored else seen0
    ensures moved <==> stored > seen0
  {
    var events := Events(log, stored, after0);
    frames := Write(frames0, events);
    after, moved, seen := after0, |events| > 0, seen0;
    if moved {
      after, seen := events[|events| - 1].id, stored;
      SliceGrows(log, from, seen0, stored);
      assert events[|events| - 1] == log[stored - 1];
      CursorAt(log, stored);
    }
  }

  lemma SliceGrows<T>(s: seq<T>, i: nat, j: nat, k: nat)
    requires i <= j <= k <= |s|
    ensures s[i..j] + s[j..k] == s[i..k]
  {
  }

  /** The cursor left by the k-th event says that k were delivered. */
  lemma CursorAt(log: seq<Entry>, k: nat)
    requires InOrder(log) && 0 < k <= |log|
    ensures Upto(log, log[k - 1].id) == k
  {
    UptoSplits(log, log[k - 1].id);
  }

  /** The entries are the next ones after the cursor: nothing skipped, nothing
      twice, possibly not all. */
  predicate Writes(log: seq<Entry>, cursor: Option<int>, entries: seq<Entry>) {
    entries <= log[Upto(log, Cursor(cursor))..]
  }

  predicate ReadsEnd(p: Poll) { !p.eventsFail && p.state.Some? && p.state.value.Terminal() }

  /** No pass follows this one. */
  predicate IsLast(p: Poll) { p.eventsFail || ReadsEnd(p) || p.gone || p.stopping }

  /** How much has been delivered once the passes are over, having begun at
      `seen`. */
  function Reached(seen: nat, polls: seq<Poll>): nat
    decreases polls
  {
    if polls == [] || polls[0].eventsFail then seen
    else
      var next := Furthest(seen, polls[0].stored);
      if IsLast(polls[0]) then next else Reached(next, polls[1..])
  }

  function Furthest(a: nat, b: nat): nat { if a < b then b else a }

  /** The terminal state the passes end on, if they end on one. */
  function EndState(polls: seq<Poll>): Option<RunState> {
    if polls == [] then None
    else if ReadsEnd(polls[0]) then polls[0].state
    else if IsLast(polls[0]) then None
    else EndState(polls[1..])
  }

  /** n passes were made: the last of them, and no other, ended the stream, or
      there were no more. */
  predicate Made(polls: seq<Poll>, n: nat) {
    && 0 < n <= |polls|
    && (forall k :: 0 <= k < n - 1 ==> GoesOn(polls[k]))
    && (n == |polls| || !GoesOn(polls[n - 1]))
  }

  predicate GoesOn(p: Poll) {
    && !p.eventsFail && !p.gone && !p.stopping
    && (p.state.Some? ==> p.state.value !in {RunSuccess, RunFailed, RunCancelled, RunCleanupFailed, RunInconclusive})
  }

  /** Theorem: the events delivered are those up to the most any pass found
      stored whose events could be read, or none when no pass found more; and
      `done` is said only with a terminal state that the last pass read, in which
      the events could be read too. */
  lemma {:induction false} PassesDecide(seen: nat, polls: seq<Poll>, n: nat)
    requires Made(polls, n)
    ensures seen <= Reached(seen, polls)
    ensures forall k :: 0 <= k < n && !polls[k].eventsFail ==> polls[k].stored <= Reached(seen, polls)
    ensures Reached(seen, polls) == seen
            || exists k :: 0 <= k < n && !polls[k].eventsFail && polls[k].stored == Reached(seen, polls)
    ensures EndState(polls) ==
              var last := polls[n - 1];
              if !last.eventsFail && last.state.Some?
                 && last.state.value in {RunSuccess, RunFailed, RunCancelled, RunCleanupFailed, RunInconclusive}
              then last.state else None
    ensures LastPass(polls) == n - 1
    decreases n
  {
    if n > 1 {
      var rest, next := polls[1..], Furthest(seen, polls[0].stored);
      assert GoesOn(polls[0]);
      assert forall k :: 0 <= k < |rest| ==> rest[k] == polls[k + 1];
      PassesDecide(next, rest, n - 1);
      if Reached(next, rest) != seen && Reached(next, rest) != polls[0].stored {
        var k :| 0 <= k < n - 1 && !rest[k].eventsFail && rest[k].stored == Reached(next, rest);
        assert polls[k + 1] == rest[k];
      }
    }
  }

  /** A stream says that the drill has ended in its last frame or not at all. */
  predicate EndsWith(frames: seq<Frame>, end: Option<RunState>) {
    if end.None? then NoDone(frames)
    else frames != [] && NoDone(frames[..|frames| - 1]) && frames[|frames| - 1] == Done(end.value)
  }

  /** One connection, until the drill has ended, a read fails, the server stops
      or the client goes away. */
  method StreamEvents(
    log: seq<Entry>, lastEventId: Option<int>, initial: RunState, polls: seq<Poll>, start: int, heartbeat: int)
    returns (frames: seq<Frame>)
    requires InOrder(log) && forall k :: 0 <= k < |polls| ==> polls[k].stored <= |log|
    ensures var from := Upto(log, Cursor(lastEventId));
      from <= Reached(from, polls) <= |log| && Entries(frames) == log[from..Reached(from, polls)]
    ensures EndsWith(frames, EndState(polls))
    ensures forall k :: 0 <= k < |frames| && frames[k].Done? ==>
              k == |frames| - 1 && EndState(polls) == Some(frames[k].state)
    ensures EndState(polls).Some? ==> frames != [] && frames[|frames| - 1] == Done(EndState(polls).value)
  {
    var after := Cursor(lastEventId);
    ghost var from := Upto(log, after);
    ghost var seen := from;
    frames := [];
    var lastBeat, state := start, initial;
    for k := 0 to |polls|
      invariant from <= seen <= |log| && Entries(frames) == log[from..seen] && NoDone(frames)
      invariant Upto(log, after) == seen
      invariant Reached(from, polls) == Reached(seen, polls[k..]) && EndState(polls) == EndState(polls[k..])
    {
      var p := polls[k];
      assert polls[k..][1..] == polls[k + 1..];
      if p.eventsFail {
        return;
      }
      var moved;
      frames, after, moved, seen := Forward(log, p.stored, after, frames, from, seen);
      if moved {
        lastBeat := p.eventsAt;
      }
      if p.state.Some? {
        state := p.state.value;
        if state.Terminal() {
          frames := WithLast(frames, Done(state));
          return;
        }
      }
      if p.now - lastBeat >= heartbeat {
        frames, lastBeat := WithLast(frames, Heartbeat), p.now;
      }
      if p.gone {
        return;
      }
      if p.stopping {
        frames := WithLast(frames, Disconnected(state));
        return;
      }
    }
  }

  function WithLast(frames: seq<Frame>, f: Frame): (r: seq<Frame>)
    ensures |r| == |frames| + 1 && r[|frames|] == f && r[..|frames|] == frames
    ensures !f.Progress? ==> Entries(r) == Entries(frames)
    ensures NoDone(frames) && !f.Done? ==> NoDone(r)
  {
    EntriesAppend(frames, f);
    frames + [f]
  }

  lemma DeliveredIsAPart(log: seq<Entry>, cursor: Option<int>, seen: nat)
    requires Upto(log, Cursor(cursor)) <= seen <= |log|
    ensures Writes(log, cursor, log[Upto(log, Cursor(cursor))..seen])
  {
  }

  // ------------------------------------------------ what done means

  /** Later passes see at least what earlier ones saw. */
  predicate Growing(log: seq<Entry>, polls: seq<Poll>) {
    && (forall k :: 0 <= k < |polls| ==> polls[k].stored <= |log|)
    && (forall j, k :: 0 <= j < k < |polls| ==> polls[j].stored <= polls[k].stored)
  }

  /** The pass that was the last one made. */
  function LastPass(polls: seq<Poll>): (k: nat)
    requires polls != []
    ensures k < |polls|
  {
    if IsLast(polls[0]) || |polls| == 1 then 0 else 1 + LastPass(polls[1..])
  }

  lemma {:induction false} ReachedByTheLastPass(log: seq<Entry>, seen: nat, polls: seq<Poll>)
    requires Growing(log, polls) && EndState(polls).Some?
    ensures polls != [] && ReadsEnd(polls[LastPass(polls)]) && EndState(polls) == polls[LastPass(polls)].state
    ensures Reached(seen, polls) == Furthest(seen, polls[LastPass(polls)].stored)
    decreases polls
  {
    if !IsLast(polls[0]) {
      assert polls[1..] != [];
      assert forall k :: 0 <= k < |polls| - 1 ==> polls[1..][k] == polls[k + 1];
      ReachedByTheLastPass(log, Furthest(seen, polls[0].stored), polls[1..]);
      assert polls[1..][LastPass(polls[1..])] == polls[1 + LastPass(polls[1..])];
    }
  }

  /** Theorem: a stream that said `done` has delivered everything there is to
      deliver exactly when everything was already stored when its last pass
      read the events, or the client had it all before. */
  lemma {:induction false} DoneMeansEverything(log: seq<Entry>, cursor: Option<int>, polls: seq<Poll>)
    requires Growing(log, polls) && EndState(polls).Some?
    ensures polls != []
    ensures Reached(Upto(log, Cursor(cursor)), polls) == |log| <==>
              polls[LastPass(polls)].stored == |log| || Upto(log, Cursor(cursor)) == |log|
  {
    ReachedByTheLastPass(log, Upto(log, Cursor(cursor)), polls);
  }

  /** So an event stored between the two reads of the last pass is missed: a
      client that follows from the start receives the first event and `done`. */
  lemma DoneIsNotEverything(log: seq<Entry>)
    requires InOrder(log) && |log| == 2
    ensures var polls := [Poll(1, false, Some(RunSuccess), 0, 0, false, false)];
      Growing(log, polls) && EndState(polls) == Some(RunSuccess) && Reached(Upto(log, Cursor(None)), polls) == 1
  {
    var polls := [Poll(1, false, Some(RunSuccess), 0, 0, false, false)];
    UptoSplits(log, 0);
    assert Upto(log, 0) == 0;
    DoneMeansEverything(log, None, polls);
  }

  // ------------------------------------------------ resuming

  /** A client: what it has received, connection after connection. */
  function LastId(received: seq<Entry>): Option<int> {
    if received == [] then None else Some(received[|received| - 1].id)
  }

  /** Connections, each cut off anywhere, each resumed with the last id. */
  predicate Session(log: seq<Entry>, parts: seq<seq<Entry>>) {
    parts == [] ||
    (var k := |parts| - 1; Session(log, parts[..k]) && Writes(log, LastId(Joined(parts[..k])), parts[k]))
  }

  function Joined(parts: seq<seq<Entry>>): seq<Entry> {
    if parts == [] then [] else Joined(parts[..|parts| - 1]) + parts[|parts| - 1]
  }

  lemma CursorIsHere(log: seq<Entry>, received: seq<Entry>)
    requires InOrder(log) && received <= log
    ensures Upto(log, Cursor(LastId(received))) == |received|
  {
    var n := Cursor(LastId(received));
    UptoSplits(log, n);
    if received != [] {
      assert received[|received| - 1] == log[|received| - 1];
    }
    if |received| < |log| {
      assert log[|received|].id > n;
    }
  }

  /** Theorem: whatever connections were cut, wherever, what a client holds is a
      prefix of what is stored: nothing twice, nothing missing in between. */
  lemma {:induction false} ResumedStreamIsAPrefix(log: seq<Entry>, parts: seq<seq<Entry>>)
    requires InOrder(log) && Session(log, parts)
    ensures Joined(parts) <= log
  {
    if parts != [] {
      var k := |parts| - 1;
      ResumedStreamIsAPrefix(log, parts[..k]);
      var before := Joined(parts[..k]);
      CursorIsHere(log, before);
      PrefixGrows(before, parts[k], log);
    }
  }

  /** However much of a connection arrives, it is such a part. */
  lemma AnyCutIsAPart(log: seq<Entry>, cursor: Option<int>, frames: seq<Frame>, cut: nat)
    requires Writes(log, cursor, Entries(frames)) && cut <= |frames|
    ensures Writes(log, cursor, Entries(frames[..cut]))
  {
    EntriesCut(frames, cut);
  }

  /** One connection: what its passes met, and how many of its frames arrived,
      if not all of them did. */
  datatype Connection = Connection(polls: seq<Poll>, initial: RunState, start: int, arrived: Option<nat>)
  {
    predicate Possible(log: seq<Entry>) { forall k :: 0 <= k < |polls| ==> polls[k].stored <= |log| }

    /** It arrived whole, to the `done` of a pass that found everything stored. */
    predicate SawTheEnd(log: seq<Entry>) {
      && arrived.None? && Growing(log, polls) && EndState(polls).Some?
      && polls != [] && polls[LastPass(polls)].stored == |log|
    }
  }

  /** One connection, resumed after the last event the client has. */
  method Resume(log: seq<Entry>, received0: seq<Entry>, c: Connection, heartbeat: int) returns (received: seq<Entry>)
    requires InOrder(log) && c.Possible(log) && received0 <= log
    ensures received0 <= received <= log
    ensures c.SawTheEnd(log) ==> received == log
    ensures c.arrived == None && Growing(log, c.polls) && EndState(c.polls).Some? ==>
              (c.polls != [] && c.polls[LastPass(c.polls)].stored == |log| ==> received == log)
  {
    var cursor := LastId(received0);
    var frames := StreamEvents(log, cursor, c.initial, c.polls, c.start, heartbeat);
    var cut := if c.arrived.Some? && c.arrived.value < |frames| then c.arrived.value else |frames|;
    received := received0 + Entries(frames[..cut]);
    CursorIsHere(log, received0);
    DeliveredIsAPart(log, cursor, Reached(|received0|, c.polls));
    AnyCutIsAPart(log, cursor, frames, cut);
    PrefixGrows(received0, Entries(frames[..cut]), log);
    if c.SawTheEnd(log) {
      assert frames[..cut] == frames;
      DoneMeansEverything(log, cursor, c.polls);
    }
  }

  /** A client that reconnects as often as it likes, each time with the id of
      the last event it has. Whatever was cut, it holds a prefix of what is
      stored; and everything, once one connection saw the end. */
  method Follow(log: seq<Entry>, connections: seq<Connection>, heartbeat: int) returns (received: seq<Entry>)
    requires InOrder(log) && forall c :: c in connections ==> c.Possible(log)
    ensures received <= log
    ensures (exists c :: c in connections && c.SawTheEnd(log)) ==> received == log
  {
    received := [];
    for k := 0 to |connections|
      invariant received <= log
      invariant (exists i :: 0 <= i < k && connections[i].SawTheEnd(log)) ==> received == log
    {
      received := Resume(log, received, connections[k], heartbeat);
    }
  }

  lemma {:induction false} EntriesCut(frames: seq<Frame>, cut: nat)
    requires cut <= |frames|
    ensures Entries(frames[..cut]) <= Entries(frames)
  {
    if cut < |frames| {
      EntriesCut(frames[..|frames| - 1], cut);
      assert frames[..|frames| - 1][..cut] == frames[..cut];
    } else {
      assert frames[..cut] == frames;
    }
  }
}
