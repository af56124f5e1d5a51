// The scheduler: a tick over the catalogue of plans, and the slot table whose
// key makes a decision final (internal/scheduler/scheduler.go).
module Scheduler {
  import opened Core
  import opened Slots

  /** A row of the slot table. judgedAt is the clock reading it was ruled by. */
  datatype SlotRow = SlotRow(planId: string, slotAt: int, queued: bool, judgedAt: int)

  /** The decided slots of one plan, in the order they were claimed. */
  function OfPlan(rows: seq<SlotRow>, id: string): seq<int> {
    if rows == [] then []
    else
      var last := rows[|rows| - 1];
      OfPlan(rows[..|rows| - 1], id) + if last.planId == id then [last.slotAt] else []
  }

  /** The greatest slot on record for a plan, which is where it resumes. */
  function LastSlot(rows: seq<SlotRow>, id: string): Option<int> {
    if rows == [] then None
    else
      var before, last := LastSlot(rows[..|rows| - 1], id), rows[|rows| - 1];
      if last.planId == id && (before.None? || last.slotAt > before.value) then Some(last.slotAt) else before
  }

  predicate Decided(rows: seq<SlotRow>, id: string, slotAt: int) {
    exists r :: r in rows && r.planId == id && r.slotAt == slotAt
  }

  function Drills(rows: seq<SlotRow>): (n: nat)
    ensures n <= |rows|
  {
    if rows == [] then 0 else Drills(rows[..|rows| - 1]) + if rows[|rows| - 1].queued then 1 else 0
  }

  lemma {:induction false} DrillsAreTheQueued(rows: seq<SlotRow>)
    ensures Drills(rows) == |set i | 0 <= i < |rows| && rows[i].queued|
  {
    var all := set i | 0 <= i < |rows| && rows[i].queued;
    if rows == [] {
      assert all == {};
    } else {
      var k := |rows| - 1;
      DrillsAreTheQueued(rows[..k]);
      var before := set i | 0 <= i < k && rows[..k][i].queued;
      assert all == before + if rows[k].queued then {k} else {};
    }
  }

  /** The key of the table: no row names the plan and slot of an earlier one. */
  predicate UniqueKeys(rows: seq<SlotRow>) {
    rows == [] || (UniqueKeys(rows[..|rows| - 1])
                   && !Decided(rows[..|rows| - 1], rows[|rows| - 1].planId, rows[|rows| - 1].slotAt))
  }

  /** What is true of the table whatever happened so far: a plan has one row
      for a slot, and every queued drill was within its window at the reading
      it was queued by. */
  predicate Sound(rows: seq<SlotRow>, grace: int) {
    && UniqueKeys(rows)
    && (forall r :: r in rows ==> r.slotAt <= r.judgedAt && (r.queued ==> r.judgedAt - r.slotAt <= grace))
  }

  /** The plan's slots were decided in strictly increasing order. */
  predicate Ordered(rows: seq<SlotRow>, id: string) { Increasing(OfPlan(rows, id)) }

  lemma OfPlanAppend(rows: seq<SlotRow>, r: SlotRow, id: string)
    ensures OfPlan(rows + [r], id) == OfPlan(rows, id) + if r.planId == id then [r.slotAt] else []
    ensures LastSlot(rows + [r], id) ==
              if r.planId == id && (LastSlot(rows, id).None? || r.slotAt > LastSlot(rows, id).value)
              then Some(r.slotAt) else LastSlot(rows, id)
    ensures Drills(rows + [r]) == Drills(rows) + if r.queued then 1 else 0
  {
    assert (rows + [r])[..|rows|] == rows;
  }

  lemma {:induction false} LastSlotIsGreatest(rows: seq<SlotRow>, id: string, t: int)
    requires Decided(rows, id, t)
    ensures LastSlot(rows, id).Some? && t <= LastSlot(rows, id).value
  {
    var init, r := rows[..|rows| - 1], rows[|rows| - 1];
    assert rows == init + [r];
    var x :| x in rows && x.planId == id && x.slotAt == t;
    if x in init {
      LastSlotIsGreatest(init, id, t);
    }
  }

  lemma {:induction false} LastSlotIsDecided(rows: seq<SlotRow>, id: string)
    ensures LastSlot(rows, id).Some? ==> LastSlot(rows, id).value in OfPlan(rows, id)
    ensures LastSlot(rows, id).None? ==> OfPlan(rows, id) == []
  {
    if rows != [] {
      LastSlotIsDecided(rows[..|rows| - 1], id);
    }
  }

  /** While the slots are in order, the greatest is the one decided last. */
  lemma {:induction false} LastSlotIsLast(rows: seq<SlotRow>, id: string)
    requires Ordered(rows, id)
    ensures LastSlot(rows, id) == LastOf(OfPlan(rows, id))
  {
    if rows != [] {
      var init, r := rows[..|rows| - 1], rows[|rows| - 1];
      assert rows == init + [r];
      OfPlanAppend(init, r, id);
      assert Increasing(OfPlan(init, id)) by {
        assert OfPlan(init, id) <= OfPlan(rows, id);
      }
      LastSlotIsLast(init, id);
    }
  }

  lemma Grown(s: seq<int>, t: int)
    ensures Increasing(s + [t]) <==> Increasing(s) && (s == [] || s[|s| - 1] < t)
  {
    var g := s + [t];
    assert g[|s|] == t && forall i :: 0 <= i < |s| ==> g[i] == s[i];
  }

  /** A new row keeps the table sound, and its plan's slots in order exactly
      when it is later than every slot before it. */
  lemma ClaimKeepsSound(rows: seq<SlotRow>, r: SlotRow, grace: int)
    requires Sound(rows, grace) && !Decided(rows, r.planId, r.slotAt)
    requires r.slotAt <= r.judgedAt && (r.queued ==> r.judgedAt - r.slotAt <= grace)
    ensures Sound(rows + [r], grace)
    ensures var last := LastSlot(rows, r.planId);
      Ordered(rows + [r], r.planId) <==> Ordered(rows, r.planId) && (last.None? || last.value < r.slotAt)
  {
    assert (rows + [r])[..|rows|] == rows;
    OfPlanAppend(rows, r, r.planId);
    Grown(OfPlan(rows, r.planId), r.slotAt);
    if Ordered(rows, r.planId) {
      LastSlotIsLast(rows, r.planId);
    }
  }

  datatype Claim = Claimed | Duplicate | Refused

  class Table {
    var rows: seq<SlotRow>

    constructor ()
      ensures rows == []
    {
      rows := [];
    }

    /** The slot and the run it queues, in one transaction under a unique key. */
    method ClaimSlot(r: SlotRow, refused: bool) returns (c: Claim)
      modifies this
      ensures c == if refused then Refused else if old(Decided(rows, r.planId, r.slotAt)) then Duplicate else Claimed
      ensures rows == if c.Claimed? then old(rows) + [r] else old(rows)
    {
      if refused {
        return Refused;
      }
      for i := 0 to |rows|
        invariant forall k :: 0 <= k < i ==> !(rows[k].planId == r.planId && rows[k].slotAt == r.slotAt)
      {
        if rows[i].planId == r.planId && rows[i].slotAt == r.slotAt {
          assert rows[i] in rows;
          return Duplicate;
        }
      }
      rows := rows + [r];
      c := Claimed;
    }
  }

  // ------------------------------------------------ one tick

  /** What a stored plan's document and its schedule parse to. */
  datatype Timing = Unreadable | NoSchedule | BadSchedule | Every(s: Schedule)

  datatype PlanRow = PlanRow(id: string, version: int, timing: Timing)

  datatype Preparation = Ready | Busy | Broken

  /** One plan's turn in a tick, and how the world answers during it. */
  datatype Turn = Turn(
    plan: PlanRow, cancelled: bool, lastSlotFails: bool, now: int, prepared: Preparation, claimFails: bool)
  {
    ghost predicate Valid() { plan.timing.Every? ==> plan.timing.s.Valid() }
  }

  /** The row a turn would claim: what decide ruled, unless a drill of the same
      workload is still in flight. A document that no longer parses is skipped
      at the present instant, which need not be a slot. */
  function RowFor(rows: seq<SlotRow>, startedAt: int, grace: int, t: Turn): Option<SlotRow>
    requires t.plan.timing.Every? ==> t.plan.timing.s.Valid()
  {
    if t.plan.timing.Unreadable? then Some(SlotRow(t.plan.id, t.now, false, t.now))
    else if !t.plan.timing.Every? || t.lastSlotFails then None
    else match Ruling(t.plan.timing.s, LastSlot(rows, t.plan.id), startedAt, t.now, grace)
      case None => None
      case Some(d) =>
        if d.skip then Some(SlotRow(t.plan.id, d.slotAt, false, t.now))
        else match t.prepared
          case Ready => Some(SlotRow(t.plan.id, d.slotAt, true, t.now))
          case Busy => Some(SlotRow(t.plan.id, d.slotAt, false, t.now))
          case Broken => None
  }

  /** What decide ruled is later than every slot on record. */
  lemma RowForIsLate(rows: seq<SlotRow>, startedAt: int, grace: int, t: Turn)
    requires t.Valid() && RowFor(rows, startedAt, grace, t).Some?
    ensures var r, last := RowFor(rows, startedAt, grace, t).value, LastSlot(rows, t.plan.id);
      && r.planId == t.plan.id && r.slotAt <= r.judgedAt && (r.queued ==> r.judgedAt - r.slotAt <= grace)
      && (!t.plan.timing.Unreadable? ==> last.None? || last.value < r.slotAt)
  {
    if !t.plan.timing.Unreadable? {
      OneDecision(t.plan.timing.s, LastSlot(rows, t.plan.id), startedAt, t.now, grace);
    }
  }

  /** What a plan's turn leaves in the table. */
  function After(rows: seq<SlotRow>, startedAt: int, grace: int, t: Turn): seq<SlotRow>
    requires t.Valid()
  {
    var r := RowFor(rows, startedAt, grace, t);
    if r.None? || t.claimFails || Decided(rows, r.value.planId, r.value.slotAt) then rows else rows + [r.value]
  }

  /** The one turn that breaks a plan's order: its document does not parse, and
      the clock reads an instant before a slot that was already decided. */
  predicate Disorders(rows: seq<SlotRow>, t: Turn, id: string) {
    && t.plan.id == id && t.plan.timing.Unreadable? && !t.claimFails && !Decided(rows, id, t.now)
    && LastSlot(rows, id).Some? && t.now < LastSlot(rows, id).value
  }

  /** A turn keeps the table sound, and every plan's slots in order unless it is
      that one. */
  lemma TurnKeepsSound(rows: seq<SlotRow>, startedAt: int, grace: int, t: Turn, id: string)
    requires t.Valid() && Sound(rows, grace)
    ensures Sound(After(rows, startedAt, grace, t), grace)
    ensures Ordered(After(rows, startedAt, grace, t), id) <==> Ordered(rows, id) && !Disorders(rows, t, id)
  {
    if After(rows, startedAt, grace, t) != rows {
      var r := RowFor(rows, startedAt, grace, t).value;
      RowForIsLate(rows, startedAt, grace, t);
      ClaimKeepsSound(rows, r, grace);
      OfPlanAppend(rows, r, id);
      if r.planId != id {
        assert OfPlan(rows + [r], id) == OfPlan(rows, id);
      } else if LastSlot(rows, id) == Some(r.slotAt) {
        LastSlotIsDecided(rows, id);
        SlotIsDecided(rows, id, r.slotAt);
      }
    } else if !t.claimFails && t.plan.timing.Unreadable? && t.plan.id == id {
      assert Decided(rows, id, t.now);
    }
  }

  lemma {:induction false} SlotIsDecided(rows: seq<SlotRow>, id: string, t: int)
    requires t in OfPlan(rows, id)
    ensures Decided(rows, id, t)
  {
    var init, r := rows[..|rows| - 1], rows[|rows| - 1];
    assert r in rows;
    if t in OfPlan(init, id) {
      SlotIsDecided(init, id, t);
      var x :| x in init && x.planId == id && x.slotAt == t;
      assert x in rows;
    }
  }

  /** What a plan resumes from: nothing for a plan without a row, and otherwise
      the greatest slot one of its rows has. */
  lemma LastSlotMeans(rows: seq<SlotRow>, id: string, t: int)
    ensures LastSlot(rows, id).None? <==> forall r :: r in rows ==> r.planId != id
    ensures LastSlot(rows, id) == Some(t) <==>
              && (exists r :: r in rows && r.planId == id && r.slotAt == t)
              && (forall r :: r in rows && r.planId == id ==> r.slotAt <= t)
  {
    LastSlotIsDecided(rows, id);
    if LastSlot(rows, id).Some? {
      SlotIsDecided(rows, id, LastSlot(rows, id).value);
    }
    forall r | r in rows && r.planId == id ensures LastSlot(rows, id).Some? && r.slotAt <= LastSlot(rows, id).value {
      assert Decided(rows, id, r.slotAt);
      LastSlotIsGreatest(rows, id, r.slotAt);
    }
  }

  lemma AddedOrNot(rows: seq<SlotRow>, startedAt: int, grace: int, t: Turn, row: SlotRow)
    requires t.Valid()
    ensures After(rows, startedAt, grace, t) == rows + [row] <==>
              && RowFor(rows, startedAt, grace, t) == Some(row) && !t.claimFails
              && (forall r :: r in rows ==> r.planId != row.planId || r.slotAt != row.slotAt)
  {
    var r := RowFor(rows, startedAt, grace, t);
    assert |rows + [row]| != |rows|;
    if r.Some? && rows + [r.value] == rows + [row] {
      assert (rows + [row])[|rows|] == row && (rows + [r.value])[|rows|] == r.value;
    }
  }

  /** Theorem: a turn queues a drill for slot n exactly when its claim and its
      last-slot read succeed, nobody decided the slot, it is the one to decide
      (owed, due, and followed by none that is due, or the ten thousand and
      first), it is within the grace, and the workload is free. It records a
      skip instead exactly when the slot is late or the workload is busy, and
      when the drill could not be prepared it leaves the table alone. */
  lemma TurnQueues(rows: seq<SlotRow>, startedAt: int, grace: int, t: Turn, s: Schedule, first: nat, n: nat)
    requires s.Valid() && t.plan.timing == Every(s)
    requires FirstOwed(s, LastSlot(rows, t.plan.id), startedAt, first)
    ensures var after, slot := After(rows, startedAt, grace, t), s.at(n);
      var able := !t.claimFails && !t.lastSlotFails
                  && forall r :: r in rows ==> r.planId != t.plan.id || r.slotAt != slot;
      var decided := first <= n <= first + 10_000 && slot <= t.now && (n == first + 10_000 || t.now < s.at(n + 1));
      && (after == rows + [SlotRow(t.plan.id, slot, true, t.now)] <==>
            able && decided && t.now - slot <= grace && t.prepared == Ready)
      && (after == rows + [SlotRow(t.plan.id, slot, false, t.now)] <==>
            able && decided && (t.now - slot > grace || t.prepared == Busy))
  {
    RulingDecides(s, LastSlot(rows, t.plan.id), startedAt, t.now, grace, first, n);
    AddedOrNot(rows, startedAt, grace, t, SlotRow(t.plan.id, s.at(n), true, t.now));
    AddedOrNot(rows, startedAt, grace, t, SlotRow(t.plan.id, s.at(n), false, t.now));
  }

  /** And it adds no other row: nothing at all for a plan without a schedule or
      with one that does not parse, one of its slots for a plan that has one,
      and the present instant, as a skip, for a document nobody can read. */
  lemma TurnAddsNothingElse(rows: seq<SlotRow>, startedAt: int, grace: int, t: Turn, row: SlotRow)
    requires t.Valid() && After(rows, startedAt, grace, t) != rows
    requires After(rows, startedAt, grace, t) == rows + [row]
    ensures row.planId == t.plan.id && row.judgedAt == t.now
    ensures t.plan.timing != NoSchedule && t.plan.timing != BadSchedule
    ensures t.plan.timing == Unreadable ==> row.slotAt == t.now && !row.queued
    ensures t.plan.timing.Every? ==> exists n: nat :: t.plan.timing.s.at(n) == row.slotAt
  {
    AddedOrNot(rows, startedAt, grace, t, row);
    if t.plan.timing.Every? {
      RulingIsTheLatestDue(t.plan.timing.s, LastSlot(rows, t.plan.id), startedAt, t.now, grace);
    }
  }

  lemma UnreadableIsSkipped(rows: seq<SlotRow>, startedAt: int, grace: int, t: Turn)
    requires t.plan.timing == Unreadable
    ensures After(rows, startedAt, grace, t) == rows + [SlotRow(t.plan.id, t.now, false, t.now)] <==>
              !t.claimFails && forall r :: r in rows ==> r.planId != t.plan.id || r.slotAt != t.now
    ensures After(rows, startedAt, grace, t) == rows
            || After(rows, startedAt, grace, t) == rows + [SlotRow(t.plan.id, t.now, false, t.now)]
  {
    AddedOrNot(rows, startedAt, grace, t, SlotRow(t.plan.id, t.now, false, t.now));
  }

  /** One line more for a plan whose schedule does not parse, unless this
      version of it was the last one complained about. */
  function Complaints(said: seq<(string, int)>, about: map<string, int>, p: PlanRow): seq<(string, int)> {
    var last := if p.id in about then about[p.id] else 0;
    if p.timing.BadSchedule? && last != p.version then said + [(p.id, p.version)] else said
  }

  class Scheduler {
    const table: Table
    const grace: int
    const maxQueueDepth: int
    const startedAt: int
    var complainedAbout: map<string, int>
    ghost var complaints: seq<(string, int)>

    ghost predicate Valid() reads this, table { Sound(table.rows, grace) }

    /** A restart keeps the table and forgets everything else. */
    constructor (table: Table, grace: int, maxQueueDepth: int, now: int)
      requires Sound(table.rows, grace)
      ensures Valid() && this.table == table && this.grace == grace && this.startedAt == now
      ensures this.maxQueueDepth == maxQueueDepth && complainedAbout == map[] && complaints == []
    {
      this.table, this.grace, this.maxQueueDepth, this.startedAt := table, grace, maxQueueDepth, now;
      complainedAbout, complaints := map[], [];
    }

    /** One line per version of a plan whose schedule does not parse. */
    method Complain(p: PlanRow)
      modifies this
      ensures p.timing.BadSchedule? ==> complaints == Complaints(old(complaints), old(complainedAbout), p)
      ensures p.version != 0 ==> p.id in complainedAbout && complainedAbout[p.id] == p.version
      ensures forall id :: id != p.id ==>
                (id in complainedAbout <==> id in old(complainedAbout))
                && (id in complainedAbout ==> complainedAbout[id] == old(complainedAbout)[id])
    {
      var last := if p.id in complainedAbout then complainedAbout[p.id] else 0;
      if last != p.version {
        complainedAbout := complainedAbout[p.id := p.version];
        complaints := complaints + [(p.id, p.version)];
      }
    }

    method ConsiderPlan(t: Turn) returns (queued: bool)
      requires Valid() && t.Valid()
      modifies this, table
      ensures Valid()
      ensures table.rows == After(old(table.rows), startedAt, grace, t)
      ensures Drills(table.rows) == Drills(old(table.rows)) + if queued then 1 else 0
      ensures complaints == Complaints(old(complaints), old(complainedAbout), t.plan)
      ensures complaints == old(complaints) || complaints == old(complaints) + [(t.plan.id, t.plan.version)]
      ensures t.plan.version > 0 ==>
                (complaints == old(complaints) + [(t.plan.id, t.plan.version)] <==>
                   && t.plan.timing == BadSchedule
                   && !(t.plan.id in old(complainedAbout) && old(complainedAbout)[t.plan.id] == t.plan.version))
      ensures t.plan.timing == BadSchedule && t.plan.version > 0 ==>
                t.plan.id in complainedAbout && complainedAbout[t.plan.id] == t.plan.version
    {
      assert complaints + [(t.plan.id, t.plan.version)] != complaints;
      if t.plan.timing.Unreadable? {
        queued := ClaimRow(SlotRow(t.plan.id, t.now, false, t.now), t.claimFails, t);
        return;
      }
      if t.plan.timing.BadSchedule? {
        Complain(t.plan);
        return false;
      }
      if t.lastSlotFails {
        return false;
      }
      var last := LastSlot(table.rows, t.plan.id);
      var sched := if t.plan.timing.Every? then Some(t.plan.timing.s) else None;
      var d := Decide(sched, last, startedAt, t.now, grace);
      if d.None? {
        return false;
      }
      if d.value.skip {
        queued := ClaimRow(SlotRow(t.plan.id, d.value.slotAt, false, t.now), t.claimFails, t);
        return;
      }
      if t.prepared.Busy? {
        queued := ClaimRow(SlotRow(t.plan.id, d.value.slotAt, false, t.now), t.claimFails, t);
        return;
      }
      if t.prepared.Broken? {
        return false;
      }
      queued := ClaimRow(SlotRow(t.plan.id, d.value.slotAt, true, t.now), t.claimFails, t);
    }

    /** A slot somebody else decided is silence, not a failure. */
    method ClaimRow(r: SlotRow, claimFails: bool, ghost t: Turn) returns (queued: bool)
      requires Valid() && t.Valid() && claimFails == t.claimFails && RowFor(table.rows, startedAt, grace, t) == Some(r)
      modifies table
      ensures Valid() && table.rows == After(old(table.rows), startedAt, grace, t)
      ensures Drills(table.rows) == Drills(old(table.rows)) + if queued then 1 else 0
    {
      TurnKeepsSound(table.rows, startedAt, grace, t, r.planId);
      OfPlanAppend(table.rows, r, r.planId);
      var c := table.ClaimSlot(r, claimFails);
      queued := c.Claimed? && r.queued;
    }

    /** One pass over the catalogue, stopped by a full queue: a postponement,
        nothing is written for the plans that were not reached. */
    method Tick(turns: Option<seq<Turn>>, depthRead: Option<nat>) returns (ghost reached: nat)
      requires Valid() && (turns.Some? ==> AllValid(turns.value))
      modifies this, table
      ensures Valid()
      ensures turns.None? || depthRead.None? ==> table.rows == old(table.rows)
      ensures turns.Some? && depthRead.Some? ==>
                && reached <= |turns.value|
                && table.rows == AfterFirst(old(table.rows), startedAt, grace, turns.value, reached)
                && Drills(table.rows) - Drills(old(table.rows)) <= MaxOf(0, maxQueueDepth - depthRead.value)
                && (reached < |turns.value| ==>
                      turns.value[reached].cancelled
                      || depthRead.value + Drills(table.rows) - Drills(old(table.rows)) >= maxQueueDepth)
    {
      reached := 0;
      if turns.None? || depthRead.None? {
        return;
      }
      reached := Visit(turns.value, depthRead.value);
    }

    method Visit(turns: seq<Turn>, depthRead: nat) returns (ghost reached: nat)
      requires Valid() && AllValid(turns)
      modifies this, table
      ensures Valid() && reached <= |turns|
      ensures table.rows == AfterFirst(old(table.rows), startedAt, grace, turns, reached)
      ensures Drills(table.rows) - Drills(old(table.rows)) <= MaxOf(0, maxQueueDepth - depthRead)
      ensures reached < |turns| ==>
                turns[reached].cancelled || depthRead + Drills(table.rows) - Drills(old(table.rows)) >= maxQueueDepth
    {
      reached := 0;
      var depth := depthRead;
      for i := 0 to |turns|
        invariant Valid() && reached == i
        invariant table.rows == AfterFirst(old(table.rows), startedAt, grace, turns, i)
        invariant depth - depthRead == Drills(table.rows) - Drills(old(table.rows))
        invariant depth <= MaxOf(depthRead, maxQueueDepth)
      {
        if turns[i].cancelled {
          return;
        }
        if depth >= maxQueueDepth {
          return;
        }
        OneMoreAfter(old(table.rows), startedAt, grace, turns, i);
        var queued := TakeTurn(turns[i]);
        if queued {
          depth := depth + 1;
        }
        reached := i + 1;
      }
    }

    /** A turn as far as the table is concerned; none is taken any more once
        the context has ended. */
    method TakeTurn(t: Turn) returns (queued: bool)
      requires Valid() && t.Valid() && !t.cancelled
      modifies this, table
      ensures Valid() && table.rows == After(old(table.rows), startedAt, grace, t)
      ensures Drills(table.rows) == Drills(old(table.rows)) + if queued then 1 else 0
    {
      queued := ConsiderPlan(t);
    }
  }

  ghost predicate AllValid(turns: seq<Turn>) {
    forall k :: 0 <= k < |turns| ==> turns[k].Valid()
  }

  /** The table after the first n turns. */
  function AfterFirst(rows: seq<SlotRow>, startedAt: int, grace: int, turns: seq<Turn>, n: nat): seq<SlotRow>
    requires AllValid(turns) && n <= |turns|
  {
    if n == 0 then rows
    else After(AfterFirst(rows, startedAt, grace, turns, n - 1), startedAt, grace, turns[n - 1])
  }

  lemma OneMoreAfter(rows: seq<SlotRow>, startedAt: int, grace: int, turns: seq<Turn>, n: nat)
    requires AllValid(turns) && n < |turns|
    ensures AfterFirst(rows, startedAt, grace, turns, n + 1)
         == After(AfterFirst(rows, startedAt, grace, turns, n), startedAt, grace, turns[n])
  {
  }

  // ------------------------------------------------ whole histories

  /** One scheduler's life: when it started, and the turns it took, tick after
      tick. */
  datatype Life = Life(startedAt: int, turns: seq<Turn>)

  /** The plan id keeps the schedule s in every turn. */
  ghost predicate Steady(life: Life, id: string, s: Schedule) {
    AllValid(life.turns)
    && forall k :: 0 <= k < |life.turns| ==>
         life.turns[k].plan.id == id ==> life.turns[k].plan.timing == Every(s)
  }

  ghost predicate Livable(lives: seq<Life>) {
    forall k :: 0 <= k < |lives| ==> AllValid(lives[k].turns)
  }

  /** Turns taken by the first n of a succession of schedulers. */
  function History(grace: int, lives: seq<Life>, n: nat): seq<SlotRow>
    requires n <= |lives| && Livable(lives)
  {
    if n == 0 then []
    else
      var life := lives[n - 1];
      AfterFirst(History(grace, lives, n - 1), life.startedAt, grace, life.turns, |life.turns|)
  }

  /** No turn was the one that breaks the order of the plan's slots. */
  ghost predicate NoneDisorders(rows: seq<SlotRow>, grace: int, life: Life, n: nat, id: string)
    requires AllValid(life.turns) && n <= |life.turns|
  {
    forall k :: 0 <= k < n ==>
      !Disorders(AfterFirst(rows, life.startedAt, grace, life.turns, k), life.turns[k], id)
  }

  ghost predicate Unbroken(grace: int, lives: seq<Life>, n: nat, id: string)
    requires Livable(lives) && n <= |lives|
  {
    forall k :: 0 <= k < n ==> NoneDisorders(History(grace, lives, k), grace, lives[k], |lives[k].turns|, id)
  }

  lemma OneMoreTurn(rows: seq<SlotRow>, grace: int, life: Life, n: nat, id: string)
    requires AllValid(life.turns) && n < |life.turns|
    ensures var before := AfterFirst(rows, life.startedAt, grace, life.turns, n);
      NoneDisorders(rows, grace, life, n + 1, id)
      <==> (NoneDisorders(rows, grace, life, n, id) && !Disorders(before, life.turns[n], id))
  {
  }

  lemma OneMoreLife(grace: int, lives: seq<Life>, n: nat, id: string)
    requires Livable(lives) && n < |lives|
    ensures var before := History(grace, lives, n);
      Unbroken(grace, lives, n + 1, id)
      <==> (Unbroken(grace, lives, n, id) && NoneDisorders(before, grace, lives[n], |lives[n].turns|, id))
  {
  }

  lemma TurnStep(rows: seq<SlotRow>, grace: int, life: Life, n: nat, id: string)
    requires AllValid(life.turns) && n < |life.turns|
    requires var before := AfterFirst(rows, life.startedAt, grace, life.turns, n);
      Sound(before, grace) && (Ordered(before, id) <==> Ordered(rows, id) && NoneDisorders(rows, grace, life, n, id))
    ensures var after := AfterFirst(rows, life.startedAt, grace, life.turns, n + 1);
      && Sound(after, grace)
      && (Ordered(after, id) <==> Ordered(rows, id) && NoneDisorders(rows, grace, life, n + 1, id))
  {
    TurnKeepsSound(AfterFirst(rows, life.startedAt, grace, life.turns, n), life.startedAt, grace, life.turns[n], id);
    OneMoreTurn(rows, grace, life, n, id);
  }

  lemma {:induction false} TurnsStayOrdered(rows: seq<SlotRow>, grace: int, life: Life, n: nat, id: string)
    requires AllValid(life.turns) && n <= |life.turns| && Sound(rows, grace)
    ensures var after := AfterFirst(rows, life.startedAt, grace, life.turns, n);
      Sound(after, grace) && (Ordered(after, id) <==> Ordered(rows, id) && NoneDisorders(rows, grace, life, n, id))
  {
    if n > 0 {
      TurnsStayOrdered(rows, grace, life, n - 1, id);
      TurnStep(rows, grace, life, n - 1, id);
    }
  }

  lemma OrderStep(grace: int, lives: seq<Life>, n: nat, id: string)
    requires Livable(lives) && n < |lives| && Sound(History(grace, lives, n), grace)
    requires Ordered(History(grace, lives, n), id) <==> Unbroken(grace, lives, n, id)
    ensures Sound(History(grace, lives, n + 1), grace)
    ensures Ordered(History(grace, lives, n + 1), id) <==> Unbroken(grace, lives, n + 1, id)
  {
    OneMoreLife(grace, lives, n, id);
    TurnsStayOrdered(History(grace, lives, n), grace, lives[n], |lives[n].turns|, id);
  }

  lemma EmptyIsOrdered(grace: int, id: string)
    ensures Sound([], grace) && Ordered([], id)
  {
  }

  /** Theorem: over any number of restarts, edits of plans, clocks that may even
      go backwards, full queues and failed claims, a plan has one row for a slot
      and no drill is queued outside its window; and its slots are decided in
      strictly increasing order, exactly when no unreadable version of it was
      met at an instant before a slot already decided. */
  lemma {:induction false} HistoryIsOrdered(grace: int, lives: seq<Life>, n: nat, id: string)
    requires Livable(lives) && n <= |lives|
    ensures Sound(History(grace, lives, n), grace)
    ensures Ordered(History(grace, lives, n), id) <==> Unbroken(grace, lives, n, id)
  {
    if n > 0 {
      var k := n - 1;
      HistoryIsOrdered(grace, lives, k, id);
      OrderStep(grace, lives, k, id);
      assert k + 1 == n;
    } else {
      EmptyIsOrdered(grace, id);
    }
  }

  /** One clock set back is enough: the later row is the earlier slot. */
  lemma AClockSetBack(row: SlotRow, t: Turn, startedAt: int, grace: int)
    requires t.plan.id == row.planId && t.plan.timing.Unreadable? && !t.claimFails && t.now < row.slotAt
    ensures OfPlan(After([row], startedAt, grace, t), row.planId) == [row.slotAt, t.now]
    ensures Disorders([row], t, row.planId)
  {
    assert [row][..0] == [];
    assert OfPlan([row], row.planId) == [row.slotAt];
    OfPlanAppend([row], SlotRow(t.plan.id, t.now, false, t.now), row.planId);
  }

  ghost predicate Kept(rows: seq<SlotRow>, grace: int, id: string, s: Schedule)
    requires s.Valid()
  {
    Sound(rows, grace) && Lawful(s, OfPlan(rows, id))
  }

  /** The slot of a plan's own turn is the one its schedule rules. */
  lemma OwnTurn(rows: seq<SlotRow>, startedAt: int, grace: int, t: Turn, s: Schedule)
    requires s.Valid() && t.plan.timing == Every(s) && Lawful(s, OfPlan(rows, t.plan.id))
    requires LastSlot(rows, t.plan.id) == LastOf(OfPlan(rows, t.plan.id))
    ensures var r := RowFor(rows, startedAt, grace, t);
      r.Some? ==> r.value.planId == t.plan.id && Lawful(s, OfPlan(rows, t.plan.id) + [r.value.slotAt])
  {
    RulingKeepsLawful(s, OfPlan(rows, t.plan.id), startedAt, t.now, grace);
  }

  lemma TurnKeeps(rows: seq<SlotRow>, startedAt: int, grace: int, t: Turn, id: string, s: Schedule)
    requires s.Valid() && t.Valid() && (t.plan.id == id ==> t.plan.timing == Every(s))
    requires Kept(rows, grace, id, s)
    ensures Kept(After(rows, startedAt, grace, t), grace, id, s)
  {
    var r := RowFor(rows, startedAt, grace, t);
    TurnKeepsSound(rows, startedAt, grace, t, id);
    if After(rows, startedAt, grace, t) != rows {
      RowForIsLate(rows, startedAt, grace, t);
      OfPlanAppend(rows, r.value, id);
      if t.plan.id == id {
        LastSlotIsLast(rows, id);
        OwnTurn(rows, startedAt, grace, t, s);
      }
    }
  }

  lemma {:induction false} TurnsKeep(
      rows: seq<SlotRow>, grace: int, life: Life, n: nat, id: string, s: Schedule)
    requires s.Valid() && Kept(rows, grace, id, s) && Steady(life, id, s) && n <= |life.turns|
    ensures Kept(AfterFirst(rows, life.startedAt, grace, life.turns, n), grace, id, s)
  {
    if n > 0 {
      TurnsKeep(rows, grace, life, n - 1, id, s);
      var before := AfterFirst(rows, life.startedAt, grace, life.turns, n - 1);
      TurnKeeps(before, life.startedAt, grace, life.turns[n - 1], id, s);
    }
  }

  lemma {:induction false} LivesKeep(grace: int, lives: seq<Life>, n: nat, id: string, s: Schedule)
    requires s.Valid() && Livable(lives) && n <= |lives| && forall k :: 0 <= k < |lives| ==> Steady(lives[k], id, s)
    ensures Kept(History(grace, lives, n), grace, id, s)
  {
    if n > 0 {
      LivesKeep(grace, lives, n - 1, id, s);
      TurnsKeep(History(grace, lives, n - 1), grace, lives[n - 1], |lives[n - 1].turns|, id, s);
    }
  }

  /** Theorem: a plan that keeps its schedule has, over any number of restarts,
      clocks that may even go backwards, full queues and failed claims, slots of
      that schedule decided in strictly increasing order, no drill queued
      outside its window, and no reading of the wall clock decided twice when
      only neighbours can repeat it. */
  lemma WholeHistoryIsLawful(grace: int, lives: seq<Life>, id: string, s: Schedule)
    requires s.Valid() && Livable(lives) && forall k :: 0 <= k < |lives| ==> Steady(lives[k], id, s)
    ensures Kept(History(grace, lives, |lives|), grace, id, s)
    ensures s.RepeatsAreAdjacent() ==>
              var slots := OfPlan(History(grace, lives, |lives|), id);
              forall i, j :: 0 <= i < j < |slots| ==> s.wall(slots[i]) != s.wall(slots[j])
  {
    LivesKeep(grace, lives, |lives|, id, s);
    var slots := OfPlan(History(grace, lives, |lives|), id);
    if s.RepeatsAreAdjacent() {
      forall i, j | 0 <= i < j < |slots| ensures s.wall(slots[i]) != s.wall(slots[j]) {
        OneDrillPerReading(s, slots, i, j);
      }
    }
  }
}
