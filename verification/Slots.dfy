// Which of a schedule's slots is due, and what to do about it
// (internal/scheduler/slots.go).
module Slots {
  import opened Core

  const MAX_COLLAPSE := 10_000

  /** A schedule as its slots, in order and without end, and the reading a
      clock on the wall of its location shows at an instant. */
  datatype Schedule = Schedule(at: nat -> int, wall: int -> int) {
    ghost predicate Valid() {
      forall m: nat, n: nat :: InOrder(m, n)
    }

    predicate InOrder(m: nat, n: nat) { m < n ==> at(m) < at(n) }

    /** No two slots show the same reading, unless they follow each other, as
        the repeated hour of an autumn night makes them. */
    ghost predicate RepeatsAreAdjacent() {
      forall m: nat, n: nat :: m < n && wall(at(m)) == wall(at(n)) ==> n == m + 1
    }

    ghost predicate NeverRepeats() {
      forall m: nat, n: nat :: m < n ==> wall(at(m)) != wall(at(n))
    }

    ghost predicate IsSlot(t: int) { exists n: nat :: at(n) == t }
  }

  function IndexFrom(s: Schedule, t: int, n: nat): (i: nat)
    requires s.Valid()
    ensures n <= i && t < s.at(i) && (n < i ==> s.at(i - 1) <= t)
    decreases if s.at(n) > t then 0 else t - s.at(n) + 1
  {
    assert s.InOrder(n, n + 1);
    if s.at(n) > t then n else IndexFrom(s, t, n + 1)
  }

  /** How many slots lie at or before t. */
  function Upto(s: Schedule, t: int): (i: nat)
    requires s.Valid()
    ensures t < s.at(i) && (0 < i ==> s.at(i - 1) <= t)
  {
    IndexFrom(s, t, 0)
  }

  lemma Order(s: Schedule, m: nat, n: nat)
    requires s.Valid()
    ensures m < n <==> s.at(m) < s.at(n)
    ensures m == n <==> s.at(m) == s.at(n)
  {
    assert s.InOrder(m, n) && s.InOrder(n, m);
  }

  lemma UptoCounts(s: Schedule, t: int, n: nat)
    requires s.Valid()
    ensures n < Upto(s, t) <==> s.at(n) <= t
  {
    var i := Upto(s, t);
    Order(s, n, i);
    if 0 < i { Order(s, n, i - 1); }
  }

  /** Schedule.Next. */
  function Next(s: Schedule, t: int): int
    requires s.Valid()
  {
    s.at(Upto(s, t))
  }

  /** It is the least slot strictly after t. */
  lemma NextIsLeast(s: Schedule, t: int, n: nat)
    requires s.Valid() && t < s.at(n)
    ensures t < Next(s, t) <= s.at(n) && s.IsSlot(Next(s, t))
  {
    UptoCounts(s, t, n);
    Order(s, Upto(s, t), n);
  }

  lemma UptoSlot(s: Schedule, n: nat)
    requires s.Valid()
    ensures Upto(s, s.at(n)) == n + 1 && Next(s, s.at(n)) == s.at(n + 1)
  {
    UptoCounts(s, s.at(n), n);
    UptoCounts(s, s.at(n), n + 1);
    Order(s, n, n + 1);
  }

  // ------------------------------------------------ the decision

  datatype Decision = Decision(slotAt: int, skip: bool, missed: nat)

  function Floor(last: Option<int>, startedAt: int): int {
    if last.Some? then last.value else startedAt
  }

  /** The slot right after the last decided one shows its reading again. */
  predicate Repeats(s: Schedule, last: Option<int>)
    requires s.Valid()
  {
    last.Some? && s.wall(Next(s, last.value)) == s.wall(last.value)
  }

  function FirstIndex(s: Schedule, last: Option<int>, startedAt: int): nat
    requires s.Valid()
  {
    Upto(s, Floor(last, startedAt)) + if Repeats(s, last) then 1 else 0
  }

  /** How many slots are due and not decided. */
  function Pending(s: Schedule, last: Option<int>, startedAt: int, now: int): nat
    requires s.Valid()
  {
    var first, due := FirstIndex(s, last, startedAt), Upto(s, now);
    if due > first then due - first else 0
  }

  function Min(a: nat, b: nat): nat { if a < b then a else b }

  /** Of k pending slots, the last one, or the 10001st. */
  function Ruling(s: Schedule, last: Option<int>, startedAt: int, now: int, grace: int): Option<Decision>
    requires s.Valid()
  {
    var k := Pending(s, last, startedAt, now);
    if k == 0 then None
    else
      var missed := Min(k, MAX_COLLAPSE + 1) - 1;
      var slotAt := s.at(FirstIndex(s, last, startedAt) + missed);
      Some(Decision(slotAt, now - slotAt > grace, missed))
  }

  method Decide(sched: Option<Schedule>, last: Option<int>, startedAt: int, now: int, grace: int)
    returns (d: Option<Decision>)
    requires sched.Some? ==> sched.value.Valid()
    ensures d == if sched.None? then None else Ruling(sched.value, last, startedAt, now, grace)
  {
    if sched.None? {
      return None;
    }
    var s := sched.value;
    var after := Floor(last, startedAt);
    var slot := Next(s, after);
    ghost var first := Upto(s, after);
    if last.Some? && s.wall(slot) == s.wall(last.value) {
      UptoSlot(s, first);
      slot := Next(s, slot);
      first := first + 1;
    }
    UptoCounts(s, now, first);
    if slot > now {
      return None;
    }
    var latest, missed := Advance(s, slot, now, first);
    d := Some(Decision(latest, now - latest > grace, missed));
  }

  /** From a due slot to the last one that is due, ten thousand steps at most. */
  method Advance(s: Schedule, from: int, now: int, ghost first: nat) returns (slot: int, missed: nat)
    requires s.Valid() && from == s.at(first) && first < Upto(s, now)
    ensures missed == Min(Upto(s, now) - first, MAX_COLLAPSE + 1) - 1 && slot == s.at(first + missed)
  {
    slot, missed := from, 0;
    while missed < MAX_COLLAPSE
      invariant 0 <= missed <= MAX_COLLAPSE && slot == s.at(first + missed)
      invariant first + missed < Upto(s, now)
    {
      UptoSlot(s, first + missed);
      UptoCounts(s, now, first + missed + 1);
      var next := Next(s, slot);
      if next > now {
        break;
      }
      slot := next;
      missed := missed + 1;
    }
  }

  // ------------------------------------------------ what it decides

  /** A slot a decision has to account for: after the floor, and not the one
      that only shows the last decided reading again. */
  predicate Owed(s: Schedule, last: Option<int>, startedAt: int, n: nat)
    requires s.Valid()
  {
    && s.at(n) > Floor(last, startedAt)
    && !(Repeats(s, last) && s.at(n) == Next(s, last.value))
  }

  lemma OwedFromFirst(s: Schedule, last: Option<int>, startedAt: int, n: nat)
    requires s.Valid()
    ensures Owed(s, last, startedAt, n) <==> n >= FirstIndex(s, last, startedAt)
  {
    var floor := Floor(last, startedAt);
    UptoCounts(s, floor, n);
    Order(s, n, Upto(s, floor));
  }

  /** Theorem: nothing is decided exactly when no owed slot is due. Otherwise an
      owed slot that is due is decided, it is skipped exactly when it is later
      than the grace period, and every due slot after it is left only because
      the walk stopped after ten thousand. */
  lemma RulingIsTheLatestDue(s: Schedule, last: Option<int>, startedAt: int, now: int, grace: int)
    requires s.Valid()
    ensures var d := Ruling(s, last, startedAt, now, grace);
      && (d.None? <==> forall n: nat :: Owed(s, last, startedAt, n) ==> s.at(n) > now)
      && (d.Some? ==>
            exists n: nat :: s.at(n) == d.value.slotAt
              && Owed(s, last, startedAt, n) && s.at(n) <= now
              && d.value.missed == n - FirstIndex(s, last, startedAt)
              && (d.value.skip <==> now - d.value.slotAt > grace)
              && (d.value.missed < 10_000 ==> s.at(n + 1) > now) && d.value.missed <= 10_000)
  {
    var first, due := FirstIndex(s, last, startedAt), Upto(s, now);
    forall n: nat ensures Owed(s, last, startedAt, n) && s.at(n) <= now <==> first <= n < due {
      OwedFromFirst(s, last, startedAt, n);
      UptoCounts(s, now, n);
    }
    var d := Ruling(s, last, startedAt, now, grace);
    if d.Some? {
      assert Owed(s, last, startedAt, first) && s.at(first) <= now;
      var n := first + d.value.missed;
      assert s.at(n) == d.value.slotAt && Owed(s, last, startedAt, n) && s.at(n) <= now;
      UptoCounts(s, now, n + 1);
    }
  }

  /** Which slots are owed: those after the last decided one, or after the start
      of a plan that has none, except that the very next slot is not owed when
      the clock on the wall shows its reading again. */
  lemma OwedMeans(s: Schedule, last: Option<int>, startedAt: int, n: nat)
    requires s.Valid()
    ensures last.None? ==> (Owed(s, last, startedAt, n) <==> s.at(n) > startedAt)
    ensures last.Some? ==>
              (Owed(s, last, startedAt, n) <==>
                 && s.at(n) > last.value
                 && !(s.wall(s.at(n)) == s.wall(last.value) && forall m: nat :: s.at(m) > last.value ==> n <= m))
  {
    if last.Some? {
      var i := Upto(s, last.value);
      Order(s, n, i);
      forall m: nat ensures s.at(m) > last.value <==> i <= m {
        UptoCounts(s, last.value, m);
      }
    }
  }

  /** Where the owed slots begin. */
  ghost predicate FirstOwed(s: Schedule, last: Option<int>, startedAt: int, first: nat)
    requires s.Valid()
  {
    forall m: nat :: Owed(s, last, startedAt, m) <==> first <= m
  }

  lemma FirstOwedIsThere(s: Schedule, last: Option<int>, startedAt: int) returns (first: nat)
    requires s.Valid()
    ensures FirstOwed(s, last, startedAt, first)
  {
    first := FirstIndex(s, last, startedAt);
    forall m: nat ensures Owed(s, last, startedAt, m) <==> first <= m {
      OwedFromFirst(s, last, startedAt, m);
    }
  }

  /** Theorem: slot n is the one decided exactly when it is owed and due, and
      either the next one is not due yet or ten thousand owed ones come before
      it, and never more. It is skipped when it is late by more than the grace,
      and only then. */
  lemma RulingDecides(
    s: Schedule, last: Option<int>, startedAt: int, now: int, grace: int, first: nat, n: nat)
    requires s.Valid() && FirstOwed(s, last, startedAt, first)
    ensures var d := Ruling(s, last, startedAt, now, grace);
      && (d.Some? && d.value.slotAt == s.at(n) <==>
            first <= n <= first + 10_000 && s.at(n) <= now && (n == first + 10_000 || now < s.at(n + 1)))
      && (d.Some? && d.value.slotAt == s.at(n) ==> (d.value.skip <==> now - s.at(n) > grace))
  {
    var from, due := FirstIndex(s, last, startedAt), Upto(s, now);
    OwedFromFirst(s, last, startedAt, first);
    OwedFromFirst(s, last, startedAt, from);
    assert Owed(s, last, startedAt, first) && Owed(s, last, startedAt, from) && first == from;
    UptoCounts(s, now, n);
    UptoCounts(s, now, n + 1);
    var d := Ruling(s, last, startedAt, now, grace);
    if d.Some? {
      Order(s, n, first + d.value.missed);
    }
  }

  /** What one decision uses up: the slot, those it stepped over, and the one
      that repeated a reading. */
  function Cost(s: Schedule, last: Option<int>, d: Decision): nat
    requires s.Valid()
  {
    1 + d.missed + if Repeats(s, last) then 1 else 0
  }

  lemma OneDecision(s: Schedule, last: Option<int>, startedAt: int, now: int, grace: int)
    requires s.Valid() && Ruling(s, last, startedAt, now, grace).Some?
    ensures var d := Ruling(s, last, startedAt, now, grace).value;
      && Upto(s, d.slotAt) == Upto(s, Floor(last, startedAt)) + Cost(s, last, d)
      && Upto(s, d.slotAt) <= Upto(s, now)
      && Floor(last, startedAt) < d.slotAt <= now && s.IsSlot(d.slotAt)
  {
    var d := Ruling(s, last, startedAt, now, grace).value;
    var n := FirstIndex(s, last, startedAt) + d.missed;
    UptoSlot(s, n);
    UptoCounts(s, now, n);
    UptoCounts(s, Floor(last, startedAt), n);
    assert s.at(n) == d.slotAt;
  }

  /** Successive decisions, each at its own reading of the clock. */
  function Decisions(s: Schedule, last: Option<int>, startedAt: int, nows: seq<int>, grace: int): seq<Decision>
    requires s.Valid()
    decreases nows
  {
    if nows == [] then []
    else match Ruling(s, last, startedAt, nows[0], grace)
      case None => Decisions(s, last, startedAt, nows[1..], grace)
      case Some(d) => [d] + Decisions(s, Some(d.slotAt), startedAt, nows[1..], grace)
  }

  function TotalCost(s: Schedule, last: Option<int>, ds: seq<Decision>): nat
    requires s.Valid()
    decreases ds
  {
    if ds == [] then 0 else Cost(s, last, ds[0]) + TotalCost(s, Some(ds[0].slotAt), ds[1..])
  }

  function FinalFloor(last: Option<int>, startedAt: int, ds: seq<Decision>): int {
    if ds == [] then Floor(last, startedAt) else ds[|ds| - 1].slotAt
  }

  /** Theorem: no slot is lost and none is counted twice. Over any run of
      decisions, what was decided, stepped over or recognised as a repeat adds
      up to the slots between where it began and where it ended. */
  lemma {:induction false} SlotsAreConserved(
      s: Schedule, last: Option<int>, startedAt: int, nows: seq<int>, grace: int)
    requires s.Valid()
    ensures var ds := Decisions(s, last, startedAt, nows, grace);
      TotalCost(s, last, ds) == Upto(s, FinalFloor(last, startedAt, ds)) - Upto(s, Floor(last, startedAt))
    decreases nows
  {
    if nows != [] {
      var r := Ruling(s, last, startedAt, nows[0], grace);
      if r.None? {
        SlotsAreConserved(s, last, startedAt, nows[1..], grace);
      } else {
        OneDecision(s, last, startedAt, nows[0], grace);
        SlotsAreConserved(s, Some(r.value.slotAt), startedAt, nows[1..], grace);
        assert ([r.value] + Decisions(s, Some(r.value.slotAt), startedAt, nows[1..], grace))[1..]
            == Decisions(s, Some(r.value.slotAt), startedAt, nows[1..], grace);
      }
    }
  }

  // ------------------------------------------------ catching up

  /** How many decisions at the same instant until nothing is due. */
  function Rounds(s: Schedule, last: Option<int>, startedAt: int, now: int): nat
    requires s.Valid()
    decreases var due, done := Upto(s, now), Upto(s, Floor(last, startedAt)); if due > done then due - done else 0
  {
    match Ruling(s, last, startedAt, now, 0)
    case None => 0
    case Some(d) =>
      OneDecision(s, last, startedAt, now, 0);
      1 + Rounds(s, Some(d.slotAt), startedAt, now)
  }

  /** n / 10001, rounded up. */
  function Batches(n: nat): nat { (n + MAX_COLLAPSE) / (MAX_COLLAPSE + 1) }

  function Beyond(n: nat): nat { if n > MAX_COLLAPSE + 1 then n - (MAX_COLLAPSE + 1) else 0 }

  lemma BatchesStep(k: nat, rest: nat)
    requires k > 0
    ensures rest <= Beyond(k) ==> 1 + Batches(rest) <= Batches(k)
    ensures rest == Beyond(k) ==> 1 + Batches(rest) == Batches(k)
  {
  }

  /** What is still pending once the ruling of this instant is claimed. */
  lemma PendingAfter(s: Schedule, last: Option<int>, startedAt: int, now: int)
    requires s.Valid() && Ruling(s, last, startedAt, now, 0).Some?
    ensures var slot := Some(Ruling(s, last, startedAt, now, 0).value.slotAt);
      && Pending(s, slot, startedAt, now) <= Beyond(Pending(s, last, startedAt, now))
      && (!Repeats(s, slot) ==>
            Pending(s, slot, startedAt, now) == Beyond(Pending(s, last, startedAt, now)))
  {
    OneDecision(s, last, startedAt, now, 0);
  }

  /** Theorem: a backlog of n slots is settled in n / 10001 decisions, rounded
      up; repeated readings can only make it fewer. */
  lemma {:induction false} BacklogSettles(s: Schedule, last: Option<int>, startedAt: int, now: int)
    requires s.Valid()
    ensures Rounds(s, last, startedAt, now) <= Batches(Pending(s, last, startedAt, now))
    ensures s.NeverRepeats() ==>
              Rounds(s, last, startedAt, now) == Batches(Pending(s, last, startedAt, now))
    decreases var due, done := Upto(s, now), Upto(s, Floor(last, startedAt)); if due > done then due - done else 0
  {
    var r := Ruling(s, last, startedAt, now, 0);
    if r.Some? {
      var slot := Some(r.value.slotAt);
      OneDecision(s, last, startedAt, now, 0);
      PendingAfter(s, last, startedAt, now);
      BatchesStep(Pending(s, last, startedAt, now), Pending(s, slot, startedAt, now));
      BacklogSettles(s, slot, startedAt, now);
      if s.NeverRepeats() {
        NoRepeat(s, slot);
      }
    }
  }

  lemma NoRepeat(s: Schedule, last: Option<int>)
    requires s.Valid() && s.NeverRepeats() && (last.Some? ==> s.IsSlot(last.value))
    ensures !Repeats(s, last)
  {
    if last.Some? {
      var n: nat :| s.at(n) == last.value;
      UptoSlot(s, n);
    }
  }

  // ------------------------------------------------ a whole history

  predicate Increasing(slots: seq<int>) {
    forall i, j :: 0 <= i < j < |slots| ==> slots[i] < slots[j]
  }

  /** Decided slots, in the order they were decided: real slots, strictly
      increasing, and the next one never only repeats a reading. */
  ghost predicate Lawful(s: Schedule, slots: seq<int>)
    requires s.Valid()
  {
    && Increasing(slots)
    && (forall i :: 0 <= i < |slots| ==> s.IsSlot(slots[i]))
    && (forall i :: 0 < i < |slots| ==>
          !(slots[i] == Next(s, slots[i - 1]) && s.wall(slots[i]) == s.wall(slots[i - 1])))
  }

  function LastOf(slots: seq<int>): Option<int> {
    if slots == [] then None else Some(slots[|slots| - 1])
  }

  /** Whatever is decided next keeps the history lawful, also after a restart,
      which only moves startedAt. */
  lemma RulingKeepsLawful(s: Schedule, slots: seq<int>, startedAt: int, now: int, grace: int)
    requires s.Valid() && Lawful(s, slots)
    ensures var d := Ruling(s, LastOf(slots), startedAt, now, grace);
      d.Some? ==> Lawful(s, slots + [d.value.slotAt])
  {
    var last := LastOf(slots);
    var r := Ruling(s, last, startedAt, now, grace);
    if r.Some? {
      OneDecision(s, last, startedAt, now, grace);
      if Repeats(s, last) {
        var i := Upto(s, last.value);
        var n := FirstIndex(s, last, startedAt) + r.value.missed;
        Order(s, i, n);
      }
    }
  }

  /** Theorem: when only neighbouring slots can show the same reading, no two
      decided slots ever do: one drill a night, also on the long one. */
  lemma OneDrillPerReading(s: Schedule, slots: seq<int>, i: nat, j: nat)
    requires s.Valid() && Lawful(s, slots) && s.RepeatsAreAdjacent() && i < j < |slots|
    ensures s.wall(slots[i]) != s.wall(slots[j])
  {
    var m: nat :| s.at(m) == slots[i];
    var n: nat :| s.at(n) == slots[j];
    Order(s, m, n);
    UptoSlot(s, m);
    var k: nat :| s.at(k) == slots[i + 1];
    Order(s, m, k);
    Order(s, k, n);
  }
}
