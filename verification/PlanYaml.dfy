// A plan written out and read back (internal/plan/plan.go, values.go,
// duration.go): checks as value trees, the conservative defaults, and what
// validation refuses.
module PlanYaml {
  import opened Core
  import opened Plans

  // ------------------------------------------------ writing a check

  const RESERVED := {"type", "name", "timeout", "retries", "retry_interval", "critical",
                     "proves", "capture", "assert", "drift"}

  /** How a duration and a percentage are spelled; the spelling is the
      formatter's business, what it reads back as is not. */
  datatype Spelling = Spelling(duration: int -> string, percentage: Num -> string)

  function AssertYaml(a: AssertSpec): Yaml {
    var m := map[];
    var m := if a.min.Some? then m["min" := Float(a.min.value)] else m;
    var m := if a.max.Some? then m["max" := Float(a.max.value)] else m;
    var m := if a.equals.Some? then m["equals" := Float(a.equals.value)] else m;
    Dict(m)
  }

  /** The percent sign comes back with the number: written bare, ten percent
      would read as ten rows. */
  function DriftYaml(d: DriftSpec, sp: Spelling): Yaml {
    Dict(map["max_drop" :=
               if d.isPercent then Figure(sp.percentage(d.maxDrop), d.maxDrop, true) else Float(d.maxDrop)])
  }

  /** What the typed part of a check writes under a key; Null is left out. */
  function Entry(c: CheckSpec, sp: Spelling, key: string): Yaml {
    if key == "type" then Str(c.typ)
    else if key == "name" then TextOrNothing(c.name)
    else if key == "timeout" then TimeOrNothing(c.timeout, sp)
    else if key == "retries" then (if c.retries != 0 then Int(c.retries) else Null)
    else if key == "retry_interval" then TimeOrNothing(c.retryInterval, sp)
    else if key == "critical" then (if c.critical.Some? then Bool(c.critical.value) else Null)
    else if key == "proves" then TextOrNothing(c.proves)
    else if key == "capture" then TextOrNothing(c.capture)
    else if key == "assert" then (if c.assertion.Some? then AssertYaml(c.assertion.value) else Null)
    else if key == "drift" then (if c.drift.Some? then DriftYaml(c.drift.value, sp) else Null)
    else Null
  }

  function TextOrNothing(s: string): Yaml { if s != "" then Str(s) else Null }

  function TimeOrNothing(d: int, sp: Spelling): Yaml { if d != 0 then Span(sp.duration(d), d) else Null }

  /** Written over whatever the params hold under the same keys. */
  function Typed(c: CheckSpec, sp: Spelling): map<string, Yaml> {
    map key | key in RESERVED && Entry(c, sp, key) != Null :: Entry(c, sp, key)
  }

  function Marshal(c: CheckSpec, sp: Spelling): Yaml {
    Dict(c.params + Typed(c, sp))
  }

  // ------------------------------------------------ reading it back

  function At(m: map<string, Yaml>, key: string): Yaml {
    if key in m then m[key] else Null
  }

  function ReadString(v: Yaml): Option<string> {
    match v
    case Null => Some("")
    case Bool(_) => Some(Shown(v))
    case Int(_) => Some(Shown(v))
    case _ => if IsString(v) then Some(Text(v)) else None
  }

  /** Truncation toward zero, as a Go conversion does it. */
  function Truncate(x: real): int {
    if x >= 0.0 then x.Floor else -((-x).Floor)
  }

  function ReadInt(v: Yaml): Option<int> {
    match v
    case Null => Some(0)
    case Int(n) => Some(n)
    case Float(Finite(x)) => Some(Truncate(x))
    case _ => None
  }

  function ReadDuration(v: Yaml): Option<int> {
    match v
    case Null => Some(0)
    case Int(n) => Some(n * SECOND)
    case Float(Finite(x)) => Some(Truncate(x * SECOND as real))
    case Span(_, d) => Some(d)
    case _ => None
  }

  function ReadFlag(v: Yaml): Option<Option<bool>> {
    match v
    case Null => Some(None)
    case Bool(b) => Some(Some(b))
    case _ => None
  }

  function ReadBound(v: Yaml): Option<Option<Num>> {
    match v
    case Null => Some(None)
    case Int(n) => Some(Some(Finite(n as real)))
    case Float(x) => Some(Some(x))
    case _ => None
  }

  function ReadAssert(v: Yaml): Option<Option<AssertSpec>> {
    match v
    case Null => Some(None)
    case Dict(m) =>
      var min, max, equals := ReadBound(At(m, "min")), ReadBound(At(m, "max")), ReadBound(At(m, "equals"));
      if min.None? || max.None? || equals.None? then None
      else Some(Some(AssertSpec(min.value, max.value, equals.value)))
    case _ => None
  }

  /** maxDrop: "10%", 500 or "500", and never a value that is not finite. */
  function ReadMaxDrop(v: Yaml): Option<DriftSpec> {
    match v
    case Null => Some(DriftSpec(Finite(0.0), false))
    case Int(n) => Some(DriftSpec(Finite(n as real), false))
    case Float(x) => if x.Finite? then Some(DriftSpec(x, false)) else None
    case Figure(_, x, percent) => if x.Finite? then Some(DriftSpec(x, percent)) else None
    case _ => None
  }

  function ReadDrift(v: Yaml): Option<Option<DriftSpec>> {
    match v
    case Null => Some(None)
    case Dict(m) =>
      var d := ReadMaxDrop(At(m, "max_drop"));
      if d.None? then None else Some(Some(d.value))
    case _ => None
  }

  function Unmarshal(v: Yaml): Option<CheckSpec> {
    if !v.Dict? then None
    else
      var m := v.entries;
      var typ, name := ReadString(At(m, "type")), ReadString(At(m, "name"));
      var timeout, interval := ReadDuration(At(m, "timeout")), ReadDuration(At(m, "retry_interval"));
      var retries, critical := ReadInt(At(m, "retries")), ReadFlag(At(m, "critical"));
      var proves, capture := ReadString(At(m, "proves")), ReadString(At(m, "capture"));
      var assertion, drift := ReadAssert(At(m, "assert")), ReadDrift(At(m, "drift"));
      if typ.None? || name.None? || timeout.None? || interval.None? || retries.None? || critical.None?
         || proves.None? || capture.None? || assertion.None? || drift.None? then None
      else
        Some(CheckSpec(typ.value, name.value, timeout.value, retries.value, interval.value, critical.value,
                       m - RESERVED, proves.value, TrimSpace(capture.value), assertion.value, drift.value))
  }

  /** What a plan file's values are read as: a bare number of seconds, a share
      of anything in percent only where the sign says so, whole numbers without
      their fraction, and nothing where the program does not know the kind. */
  lemma ReadAs(n: int, x: real, text: string, nanos: int, b: bool)
    ensures ReadDuration(Int(n)) == Some(n * 1_000_000_000) && ReadDuration(Span(text, nanos)) == Some(nanos)
    ensures ReadDuration(Null) == Some(0) && ReadDuration(Str(text)).None? && ReadDuration(Bool(b)).None?
    ensures ReadInt(Int(n)) == Some(n) && ReadInt(Null) == Some(0) && ReadInt(Str(text)).None?
    ensures ReadInt(Float(Finite(2.9))) == Some(2) && ReadInt(Float(Finite(-2.9))) == Some(-2)
    ensures ReadFlag(Null) == Some(None) && ReadFlag(Bool(b)) == Some(Some(b)) && ReadFlag(Int(n)).None?
    ensures ReadString(Str(text)) == Some(text) && ReadString(Null) == Some("") && ReadString(Dict(map[])).None?
    ensures ReadBound(Int(n)) == Some(Some(Finite(n as real))) && ReadBound(Float(Finite(x))) == Some(Some(Finite(x)))
    ensures ReadBound(Null) == Some(None) && ReadBound(Str(text)).None?
    ensures ReadMaxDrop(Figure(text, Finite(x), b)) == Some(DriftSpec(Finite(x), b))
    ensures ReadMaxDrop(Int(n)) == Some(DriftSpec(Finite(n as real), false))
    ensures ReadMaxDrop(Float(Finite(x))) == Some(DriftSpec(Finite(x), false))
    ensures ReadMaxDrop(Null) == Some(DriftSpec(Finite(0.0), false))
    ensures ReadMaxDrop(Float(NaN)).None? && ReadMaxDrop(Float(PosInf)).None? && ReadMaxDrop(Str(text)).None?
  {
    assert (2.9).Floor == 2 && (-(-2.9)).Floor == 2;
  }

  /** The keys a check is written under, and when one is left out. */
  lemma WrittenUnder(c: CheckSpec, sp: Spelling)
    requires c.params.Keys !! RESERVED
    ensures var m := Marshal(c, sp).entries;
      && (forall key :: key in c.params ==> key in m && m[key] == c.params[key])
      && (forall key :: key in m && key !in c.params ==> m[key] != Null)
      && m.Keys <= c.params.Keys + {"type", "name", "timeout", "retries", "retry_interval", "critical",
                                     "proves", "capture", "assert", "drift"}
      && At(m, "type") == Str(c.typ)
      && At(m, "name") == (if c.name != "" then Str(c.name) else Null)
      && At(m, "timeout") == (if c.timeout != 0 then Span(sp.duration(c.timeout), c.timeout) else Null)
      && At(m, "retries") == (if c.retries != 0 then Int(c.retries) else Null)
      && At(m, "retry_interval")
         == (if c.retryInterval != 0 then Span(sp.duration(c.retryInterval), c.retryInterval) else Null)
  {
    ParamsAreLeft(c, sp);
  }

  lemma WrittenValuesUnder(c: CheckSpec, sp: Spelling)
    requires c.params.Keys !! RESERVED
    ensures var m := Marshal(c, sp).entries;
      && At(m, "critical") == (if c.critical.Some? then Bool(c.critical.value) else Null)
      && At(m, "proves") == (if c.proves != "" then Str(c.proves) else Null)
      && At(m, "capture") == (if c.capture != "" then Str(c.capture) else Null)
      && (c.assertion.None? <==> At(m, "assert") == Null) && (c.drift.None? <==> At(m, "drift") == Null)
      && (c.assertion.Some? ==>
            && At(m, "assert").Dict?
            && forall x :: At(At(m, "assert").entries, "min") == Float(x) <==> c.assertion.value.min == Some(x))
      && (c.drift.Some? && c.drift.value.isPercent ==>
            At(m, "drift") == Dict(map["max_drop" := Figure(sp.percentage(c.drift.value.maxDrop),
                                                            c.drift.value.maxDrop, true)]))
  {
    ParamsAreLeft(c, sp);
  }

  // ------------------------------------------------ the round trip

  /** What a check built in code may hold that a plan file cannot say. */
  predicate Sayable(c: CheckSpec) {
    && c.params.Keys !! RESERVED
    && TrimSpace(c.capture) == c.capture
    && (c.drift.Some? ==> c.drift.value.maxDrop.Finite?)
  }

  lemma AssertSurvives(a: AssertSpec)
    ensures ReadAssert(AssertYaml(a)) == Some(Some(a))
  {
  }

  /** Ten percent stays ten percent, and ten rows ten rows. */
  lemma DriftSurvives(d: DriftSpec, sp: Spelling)
    ensures ReadDrift(DriftYaml(d, sp)) == if d.maxDrop.Finite? then Some(Some(d)) else None
  {
  }

  lemma EntryIsRead(c: CheckSpec, sp: Spelling, key: string)
    requires key in RESERVED
    ensures At(c.params + Typed(c, sp), key) == Entry(c, sp, key) || (key in c.params && Entry(c, sp, key) == Null)
  {
  }

  /** What the typed part of a check reads back as, field by field. */
  lemma TypedPart(c: CheckSpec, sp: Spelling)
    ensures ReadString(Entry(c, sp, "type")) == Some(c.typ) && ReadString(Entry(c, sp, "name")) == Some(c.name)
    ensures ReadDuration(Entry(c, sp, "timeout")) == Some(c.timeout)
    ensures ReadDuration(Entry(c, sp, "retry_interval")) == Some(c.retryInterval)
    ensures ReadInt(Entry(c, sp, "retries")) == Some(c.retries)
    ensures ReadFlag(Entry(c, sp, "critical")) == Some(c.critical)
  {
  }

  lemma TypedValues(c: CheckSpec, sp: Spelling)
    ensures ReadString(Entry(c, sp, "proves")) == Some(c.proves)
    ensures ReadString(Entry(c, sp, "capture")) == Some(c.capture)
    ensures ReadAssert(Entry(c, sp, "assert")) == Some(c.assertion)
    ensures ReadDrift(Entry(c, sp, "drift")) ==
              if c.drift.Some? && !c.drift.value.maxDrop.Finite? then None else Some(c.drift)
  {
    if c.assertion.Some? { AssertSurvives(c.assertion.value); }
    if c.drift.Some? { DriftSurvives(c.drift.value, sp); }
  }

  /** The keys of a written check that are not its own are its params. */
  lemma ParamsAreLeft(c: CheckSpec, sp: Spelling)
    requires c.params.Keys !! RESERVED
    ensures (c.params + Typed(c, sp)) - RESERVED == c.params
    ensures forall key :: key in RESERVED ==> At(c.params + Typed(c, sp), key) == Entry(c, sp, key)
  {
    forall key | key in RESERVED ensures At(c.params + Typed(c, sp), key) == Entry(c, sp, key) {
      EntryIsRead(c, sp, key);
    }
  }

  lemma SayableSurvives(c: CheckSpec, sp: Spelling)
    requires Sayable(c)
    ensures Unmarshal(Marshal(c, sp)) == Some(c)
  {
    TypedPart(c, sp);
    TypedValues(c, sp);
    ParamsAreLeft(c, sp);
  }

  /** Theorem: writing a check out and reading it back gives the same check,
      exactly for the checks a plan file can say. */
  lemma RoundTrip(c: CheckSpec, sp: Spelling)
    ensures Unmarshal(Marshal(c, sp)) == Some(c) <==> Sayable(c)
  {
    if Sayable(c) {
      SayableSurvives(c, sp);
    } else if c.params.Keys !! RESERVED {
      TypedValues(c, sp);
      ParamsAreLeft(c, sp);
    } else {
      var k :| k in c.params.Keys && k in RESERVED;
      var r := Unmarshal(Marshal(c, sp));
      assert r.Some? ==> k !in r.value.params;
    }
  }

  // ------------------------------------------------ the defaults

  predicate NeedsNetwork(checks: seq<CheckSpec>) {
    checks == [] || exists c :: c in checks && c.typ != "command"
  }

  predicate NeedsGuestAgent(checks: seq<CheckSpec>) {
    exists c :: c in checks && c.typ == "command"
  }

  function OrElse(v: int, fallback: int): int { if v == 0 then fallback else v }

  function DefaultedCheck(c: CheckSpec): CheckSpec {
    c.(timeout := OrElse(c.timeout, DEFAULT_CHECK_TIMEOUT),
       retryInterval := OrElse(c.retryInterval, DEFAULT_RETRY_INTERVAL))
  }

  function DefaultedChecks(checks: seq<CheckSpec>): (r: seq<CheckSpec>)
    ensures |r| == |checks| && forall i :: 0 <= i < |r| ==> r[i] == DefaultedCheck(checks[i])
  {
    seq(|checks|, i requires 0 <= i < |checks| => DefaultedCheck(checks[i]))
  }

  function DefaultedStartup(s: StartupSpec, checks: seq<CheckSpec>): StartupSpec {
    s.(timeout := OrElse(s.timeout, DEFAULT_STARTUP_TIMEOUT),
       waitForIP := if s.waitForIP.Some? then s.waitForIP
                    else Some(!s.skip && s.ip == "" && NeedsNetwork(checks)),
       waitForAgent := if s.waitForAgent.Some? then s.waitForAgent
                       else Some(!s.skip && NeedsGuestAgent(checks)))
  }

  function Defaulted(p: Plan): Plan {
    p.(backup := p.backup.(strategy := if p.backup.strategy.NoStrategy? then Latest else p.backup.strategy),
       restore := p.restore.(network := FirstNonEmpty(p.restore.network, "isolated"),
                             timeout := OrElse(p.restore.timeout, DEFAULT_RESTORE_TIMEOUT)),
       startup := DefaultedStartup(p.startup, p.checks),
       checks := DefaultedChecks(p.checks),
       cleanup := p.cleanup.(always := if p.cleanup.always.Some? then p.cleanup.always else Some(true)))
  }

  /** A plan as the program holds it while loading it. */
  class Document {
    var plan: Plan

    constructor (p: Plan)
      ensures plan == p
    {
      plan := p;
    }

    method ApplyDefaults()
      modifies this
      ensures plan == Defaulted(old(plan))
    {
      if plan.backup.strategy.NoStrategy? {
        plan := plan.(backup := plan.backup.(strategy := Latest));
      }
      if plan.restore.network == "" {
        plan := plan.(restore := plan.restore.(network := "isolated"));
      }
      if plan.restore.timeout == 0 {
        plan := plan.(restore := plan.restore.(timeout := DEFAULT_RESTORE_TIMEOUT));
      }
      DefaultStartup();
      if plan.cleanup.always.None? {
        plan := plan.(cleanup := plan.cleanup.(always := Some(true)));
      }
      DefaultChecks();
    }

    method DefaultStartup()
      modifies this
      ensures plan == old(plan).(startup := DefaultedStartup(old(plan).startup, old(plan).checks))
    {
      var s := plan.startup;
      if s.timeout == 0 {
        s := s.(timeout := DEFAULT_STARTUP_TIMEOUT);
      }
      if s.waitForIP.None? {
        var network := NeedsNetworkLoop();
        s := s.(waitForIP := Some(!s.skip && s.ip == "" && network));
      }
      if s.waitForAgent.None? {
        var agent := NeedsGuestAgentLoop();
        s := s.(waitForAgent := Some(!s.skip && agent));
      }
      plan := plan.(startup := s);
    }

    method NeedsNetworkLoop() returns (needed: bool)
      ensures needed == NeedsNetwork(plan.checks)
    {
      if |plan.checks| == 0 {
        return true;
      }
      for i := 0 to |plan.checks|
        invariant forall k :: 0 <= k < i ==> plan.checks[k].typ == "command"
      {
        if plan.checks[i].typ != "command" {
          assert plan.checks[i] in plan.checks;
          return true;
        }
      }
      return false;
    }

    method NeedsGuestAgentLoop() returns (needed: bool)
      ensures needed == NeedsGuestAgent(plan.checks)
    {
      for i := 0 to |plan.checks|
        invariant forall k :: 0 <= k < i ==> plan.checks[k].typ != "command"
      {
        if plan.checks[i].typ == "command" {
          assert plan.checks[i] in plan.checks;
          return true;
        }
      }
      return false;
    }

    method DefaultChecks()
      modifies this
      ensures plan == old(plan).(checks := DefaultedChecks(old(plan).checks))
    {
      var checks := plan.checks;
      for i := 0 to |checks|
        invariant |checks| == |plan.checks| && plan == old(plan)
        invariant forall k :: 0 <= k < i ==> checks[k] == DefaultedCheck(plan.checks[k])
        invariant forall k :: i <= k < |checks| ==> checks[k] == plan.checks[k]
      {
        if checks[i].timeout == 0 {
          checks := checks[i := checks[i].(timeout := DEFAULT_CHECK_TIMEOUT)];
        }
        if checks[i].retryInterval == 0 {
          checks := checks[i := checks[i].(retryInterval := DEFAULT_RETRY_INTERVAL)];
        }
      }
      plan := plan.(checks := checks);
    }

    /** Every problem at once, never only the first. */
    method Validate(scheduleOk: bool) returns (problems: seq<Problem>)
      ensures forall x :: x in problems <==> Wrong(plan, scheduleOk, x)
      ensures problems == [] <==> WellFormed(plan, scheduleOk)
    {
      problems := ValidateHead(scheduleOk);
      var seen: set<string> := {};
      for i := 0 to |plan.checks|
        invariant forall x :: x in problems && x.Head? ==> Wrong(plan, scheduleOk, x)
        invariant forall h :: Head(h) in problems <==> WrongHead(plan, scheduleOk, h)
        invariant forall k: nat, f :: Check(k, f) in problems <==> k < i && WrongCheck(plan.checks, k, f)
        invariant forall n :: n in seen <==> SeenBefore(plan.checks, i, n)
      {
        var c := plan.checks[i];
        var found := ValidateCheck(c, i, seen);
        problems := problems + found;
        SeenNext(plan.checks, i);
        if c.typ != "" {
          seen := seen + {c.DisplayName()};
        }
      }
      forall x ensures x in problems <==> Wrong(plan, scheduleOk, x) {
        match x
        case Head(_) =>
        case Check(_, _) =>
      }
      ProblemsOrNone(plan, scheduleOk, problems);
    }

    method ValidateHead(scheduleOk: bool) returns (problems: seq<Problem>)
      ensures forall x :: x in problems ==> x.Head?
      ensures forall h :: Head(h) in problems <==> WrongHead(plan, scheduleOk, h)
    {
      problems := ValidateSource();
      problems := Note(problems, plan.restore.cpuLimit < 0, Head(NegativeCPU));
      problems := Note(problems, plan.restore.memoryLimitMB < 0, Head(NegativeMemory));
      problems := Note(problems, plan.startup.skip && |plan.checks| > 0, Head(ChecksWithoutStartup));
      problems := Note(problems, !scheduleOk, Head(BadSchedule));
    }

    method ValidateSource() returns (problems: seq<Problem>)
      ensures forall x :: x in problems ==> x.Head? && x.h in SOURCE_FAULTS
      ensures forall h :: Head(h) in problems <==> h in SOURCE_FAULTS && WrongHead(plan, true, h)
    {
      problems := Note([], TrimSpace(plan.name) == "", Head(NoName));
      problems := Note(problems, plan.workloadId == "", Head(NoWorkloadId));
      problems := Note(problems, plan.workloadProvider == "", Head(NoProvider));
      match plan.backup.strategy {
        case Latest =>
        case Specific => problems := Note(problems, plan.backup.id == "", Head(NoBackupId));
        case _ => problems := Note(problems, true, Head(UnknownStrategy));
      }
    }

    method ValidateCheck(c: CheckSpec, i: nat, seen: set<string>) returns (problems: seq<Problem>)
      requires i < |plan.checks| && plan.checks[i] == c
      requires forall n :: n in seen <==> SeenBefore(plan.checks, i, n)
      ensures forall x :: x in problems ==> x.Check? && x.i == i
      ensures forall f :: Check(i, f) in problems <==> WrongCheck(plan.checks, i, f)
    {
      if c.typ == "" {
        return [Check(i, NoType)];
      }
      problems := ValidateValues(c, i);
      problems := Note(problems, c.proves != "" && ParseRecorded(c.proves).None?, Check(i, UnknownLevel));
      problems := Note(problems, c.DisplayName() in seen, Check(i, DuplicateName));
    }
  }

  method ValidateValues(c: CheckSpec, i: nat) returns (problems: seq<Problem>)
    ensures forall x :: x in problems ==> x.Check? && x.i == i && x.f in VALUE_FAULTS
    ensures forall f :: Check(i, f) in problems <==> f in VALUE_FAULTS && WrongValue(c, f)
  {
    problems := Note([], c.capture != "" && c.typ != "command", Check(i, CannotCapture));
    problems := Note(problems, c.assertion.Some? && !c.assertion.value.Any(), Check(i, NoBound));
    problems := Note(problems, c.assertion.Some? && c.capture == "", Check(i, NothingToBound));
    problems := Note(problems, c.drift.Some? && c.capture == "", Check(i, NothingToCompare));
    problems := Note(problems, c.drift.Some? && !StatesATolerance(c.drift.value), Check(i, NoTolerance));
  }

  method Note(problems: seq<Problem>, wrong: bool, x: Problem) returns (r: seq<Problem>)
    ensures forall y :: y in r <==> y in problems || (wrong && y == x)
  {
    r := if wrong then problems + [x] else problems;
  }

  /** Theorem: applying the defaults again changes nothing. */
  lemma DefaultsAreIdempotent(p: Plan)
    ensures Defaulted(Defaulted(p)) == Defaulted(p)
  {
    var q := Defaulted(p);
    assert DefaultedChecks(q.checks) == q.checks;
  }

  /** Theorem: what a plan that leaves something open is run with. Nothing it
      states is overruled. It is drilled from the latest backup, isolated, given
      an hour to restore and five minutes to boot, and cleaned up whatever
      happens; it waits for an address when a check needs the network and for
      the agent when a check runs inside, unless it skips its startup. */
  lemma DefaultsMean(p: Plan)
    ensures var q := Defaulted(p);
      && q.backup == p.backup.(strategy := if p.backup.strategy == NoStrategy then Latest else p.backup.strategy)
      && q.restore == p.restore.(network := if p.restore.network == "" then "isolated" else p.restore.network,
                                 timeout := if p.restore.timeout == 0 then 3_600_000_000_000 else p.restore.timeout)
      && q.startup.timeout == (if p.startup.timeout == 0 then 300_000_000_000 else p.startup.timeout)
      && (p.startup.waitForIP.Some? ==> q.startup.waitForIP == p.startup.waitForIP)
      && (p.startup.waitForIP.None? ==>
            (q.startup.waitForIP == Some(true) <==>
               && !p.startup.skip && p.startup.ip == ""
               && (p.checks == [] || exists i :: 0 <= i < |p.checks| && p.checks[i].typ != "command")))
      && (p.startup.waitForAgent.Some? ==> q.startup.waitForAgent == p.startup.waitForAgent)
      && (p.startup.waitForAgent.None? ==>
            (q.startup.waitForAgent == Some(true) <==>
               !p.startup.skip && exists i :: 0 <= i < |p.checks| && p.checks[i].typ == "command"))
      && q.startup.waitForIP.Some? && q.startup.waitForAgent.Some?
      && q.startup.skip == p.startup.skip && q.startup.ip == p.startup.ip
      && q.cleanup == p.cleanup.(always := if p.cleanup.always == None then Some(true) else p.cleanup.always)
      && q == p.(backup := q.backup, restore := q.restore, startup := q.startup,
                 checks := q.checks, cleanup := q.cleanup)
  {
    forall c | c in p.checks ensures exists i :: 0 <= i < |p.checks| && p.checks[i] == c {
    }
  }

  lemma CheckDefaultsMean(p: Plan, i: nat)
    requires i < |p.checks|
    ensures |Defaulted(p).checks| == |p.checks|
    ensures Defaulted(p).checks[i]
         == p.checks[i].(timeout := if p.checks[i].timeout == 0 then 30_000_000_000 else p.checks[i].timeout,
                         retryInterval := if p.checks[i].retryInterval == 0 then 5_000_000_000
                                          else p.checks[i].retryInterval)
  {
  }

  function Each<A, B>(xs: seq<A>, f: A -> B): (r: seq<B>)
    ensures |r| == |xs| && forall i :: 0 <= i < |r| ==> r[i] == f(xs[i])
  {
    seq(|xs|, i requires 0 <= i < |xs| => f(xs[i]))
  }

  /** All of them, or nothing when one cannot be read. */
  function Every<A, B>(ys: seq<B>, g: B -> Option<A>): Option<seq<A>> {
    if ys == [] then Some([])
    else
      var init, last := Every(ys[..|ys| - 1], g), g(ys[|ys| - 1]);
      if init.None? || last.None? then None else Some(init.value + [last.value])
  }

  /** All of them come back exactly when each of them does. */
  lemma {:induction false} EachSurvives<A, B>(xs: seq<A>, f: A -> B, g: B -> Option<A>)
    ensures Every(Each(xs, f), g) == Some(xs) <==> forall i :: 0 <= i < |xs| ==> g(f(xs[i])) == Some(xs[i])
  {
    if xs != [] {
      var k := |xs| - 1;
      EachSurvives(xs[..k], f, g);
      assert Each(xs, f)[..k] == Each(xs[..k], f);
      assert xs == xs[..k] + [xs[k]];
    }
  }

  function MarshalAll(checks: seq<CheckSpec>, sp: Spelling): seq<Yaml> {
    Each(checks, c => Marshal(c, sp))
  }

  function UnmarshalAll(trees: seq<Yaml>): Option<seq<CheckSpec>> {
    Every(trees, v => Unmarshal(v))
  }

  lemma ChecksSurvive(checks: seq<CheckSpec>, sp: Spelling)
    ensures UnmarshalAll(MarshalAll(checks, sp)) == Some(checks)
            <==> forall i :: 0 <= i < |checks| ==> Sayable(checks[i])
  {
    var f, g := (c: CheckSpec) => Marshal(c, sp), (v: Yaml) => Unmarshal(v);
    forall i | 0 <= i < |checks| ensures g(f(checks[i])) == Some(checks[i]) <==> Sayable(checks[i]) {
      RoundTrip(checks[i], sp);
    }
    EachSurvives(checks, f, g);
  }

  lemma DefaultsKeepTheConfig(c: CheckSpec)
    ensures DefaultedCheck(c).ToCore() == c.ToCore()
    ensures Sayable(c) ==> Sayable(DefaultedCheck(c))
  {
  }

  // ------------------------------------------------ validation

  datatype HeadFault =
    | NoName | NoWorkloadId | NoProvider | NoBackupId | UnknownStrategy | NegativeCPU | NegativeMemory
    | ChecksWithoutStartup | BadSchedule

  datatype CheckFault =
    | NoType | UnknownLevel | CannotCapture | NoBound | NothingToBound | NothingToCompare | NoTolerance
    | DuplicateName

  const SOURCE_FAULTS := {NoName, NoWorkloadId, NoProvider, NoBackupId, UnknownStrategy}

  const VALUE_FAULTS := {CannotCapture, NoBound, NothingToBound, NothingToCompare, NoTolerance}

  datatype Problem = Head(h: HeadFault) | Check(i: nat, f: CheckFault)

  /** A positive test, so that zero and a value that is no number are refused. */
  predicate StatesATolerance(d: DriftSpec) { Finite(0.0).Less(d.maxDrop) }

  predicate WrongHead(p: Plan, scheduleOk: bool, h: HeadFault) {
    match h
    case NoName => TrimSpace(p.name) == ""
    case NoWorkloadId => p.workloadId == ""
    case NoProvider => p.workloadProvider == ""
    case NoBackupId => p.backup.strategy.Specific? && p.backup.id == ""
    case UnknownStrategy => !p.backup.strategy.Latest? && !p.backup.strategy.Specific?
    case NegativeCPU => p.restore.cpuLimit < 0
    case NegativeMemory => p.restore.memoryLimitMB < 0
    case ChecksWithoutStartup => p.startup.skip && p.checks != []
    case BadSchedule => !scheduleOk
  }

  /** An earlier check that has a type carries this name. */
  predicate SeenBefore(checks: seq<CheckSpec>, i: nat, name: string)
    requires i <= |checks|
  {
    exists j :: 0 <= j < i && checks[j].typ != "" && checks[j].DisplayName() == name
  }

  lemma SeenNext(checks: seq<CheckSpec>, i: nat)
    requires i < |checks|
    ensures forall n :: SeenBefore(checks, i + 1, n) <==>
                          SeenBefore(checks, i, n) || (checks[i].typ != "" && checks[i].DisplayName() == n)
  {
    forall n | SeenBefore(checks, i, n) || (checks[i].typ != "" && checks[i].DisplayName() == n)
      ensures SeenBefore(checks, i + 1, n)
    {
      if checks[i].typ == "" || checks[i].DisplayName() != n {
        var j :| 0 <= j < i && checks[j].typ != "" && checks[j].DisplayName() == n;
        assert 0 <= j < i + 1;
      }
    }
  }

  /** What is wrong with the value a check captures and the bounds on it. */
  predicate WrongValue(c: CheckSpec, f: CheckFault) {
    match f
    case CannotCapture => c.capture != "" && c.typ != "command"
    case NoBound => c.assertion.Some? && !c.assertion.value.Any()
    case NothingToBound => c.assertion.Some? && c.capture == ""
    case NothingToCompare => c.drift.Some? && c.capture == ""
    case NoTolerance => c.drift.Some? && !StatesATolerance(c.drift.value)
    case _ => false
  }

  /** A check without a type is refused for that alone. */
  predicate WrongCheck(checks: seq<CheckSpec>, i: nat, f: CheckFault) {
    i < |checks| &&
    var c := checks[i];
    if c.typ == "" then f == NoType
    else match f
      case NoType => false
      case UnknownLevel => c.proves != "" && ParseRecorded(c.proves).None?
      case DuplicateName => SeenBefore(checks, i, c.DisplayName())
      case _ => WrongValue(c, f)
  }

  predicate Wrong(p: Plan, scheduleOk: bool, x: Problem) {
    match x
    case Head(h) => WrongHead(p, scheduleOk, h)
    case Check(i, f) => WrongCheck(p.checks, i, f)
  }

  ghost predicate WellFormed(p: Plan, scheduleOk: bool) {
    forall x :: !Wrong(p, scheduleOk, x)
  }

  lemma ProblemsOrNone(p: Plan, scheduleOk: bool, problems: seq<Problem>)
    requires forall x :: x in problems <==> Wrong(p, scheduleOk, x)
    ensures problems == [] <==> WellFormed(p, scheduleOk)
  {
    if problems != [] {
      assert problems[0] in problems;
    }
  }

  /** What the rest of the program relies on in a plan that passed: its checks
      have distinct names, only commands capture, every stated bound has a
      number to bound, and a plan that skips its startup has no checks. */
  lemma WellFormedMeans(p: Plan, scheduleOk: bool)
    requires WellFormed(p, scheduleOk)
    ensures UniqueNames(p.checks)
    ensures forall c :: c in p.checks ==> c.capture != "" ==> c.typ == "command"
    ensures forall c :: c in p.checks ==> c.assertion.Some? ==> c.capture != "" && c.ProvesTheData()
    ensures p.startup.skip ==> p.checks == []
  {
    forall i | 0 <= i < |p.checks| ensures p.checks[i].typ != "" {
      assert !Wrong(p, scheduleOk, Check(i, NoType));
    }
    forall i, j | 0 <= i < j < |p.checks| ensures p.checks[i].DisplayName() != p.checks[j].DisplayName() {
      assert !Wrong(p, scheduleOk, Check(j, DuplicateName));
    }
    forall i | 0 <= i < |p.checks|
      ensures p.checks[i].capture != "" ==> p.checks[i].typ == "command"
      ensures p.checks[i].assertion.Some? ==> p.checks[i].capture != "" && p.checks[i].ProvesTheData()
    {
      assert !Wrong(p, scheduleOk, Check(i, CannotCapture));
      assert !Wrong(p, scheduleOk, Check(i, NothingToBound));
      assert !Wrong(p, scheduleOk, Check(i, NoBound));
    }
    assert !Wrong(p, scheduleOk, Head(ChecksWithoutStartup));
  }

  /** What each reported problem is about. */
  lemma ProblemsMean(p: Plan, scheduleOk: bool)
    ensures Wrong(p, scheduleOk, Head(NoName)) <==> TrimSpace(p.name) == ""
    ensures Wrong(p, scheduleOk, Head(NoWorkloadId)) <==> p.workloadId == ""
    ensures Wrong(p, scheduleOk, Head(NoProvider)) <==> p.workloadProvider == ""
    ensures Wrong(p, scheduleOk, Head(NoBackupId)) <==> p.backup.strategy == Specific && p.backup.id == ""
    ensures Wrong(p, scheduleOk, Head(UnknownStrategy)) <==>
              p.backup.strategy != Latest && p.backup.strategy != Specific
    ensures Wrong(p, scheduleOk, Head(NegativeCPU)) <==> p.restore.cpuLimit < 0
    ensures Wrong(p, scheduleOk, Head(NegativeMemory)) <==> p.restore.memoryLimitMB < 0
    ensures Wrong(p, scheduleOk, Head(ChecksWithoutStartup)) <==> p.startup.skip && p.checks != []
    ensures Wrong(p, scheduleOk, Head(BadSchedule)) <==> !scheduleOk
  {
  }

  lemma CheckProblemsMean(p: Plan, scheduleOk: bool, i: nat)
    requires i < |p.checks|
    ensures var c := p.checks[i];
      && (Wrong(p, scheduleOk, Check(i, NoType)) <==> c.typ == "")
      && (c.typ == "" ==> forall f :: f != NoType ==> !Wrong(p, scheduleOk, Check(i, f)))
      && (c.typ != "" ==>
            && (Wrong(p, scheduleOk, Check(i, UnknownLevel)) <==> c.proves != "" && ParseRecorded(c.proves) == None)
            && (Wrong(p, scheduleOk, Check(i, CannotCapture)) <==> c.capture != "" && c.typ != "command")
            && (Wrong(p, scheduleOk, Check(i, NoBound)) <==> c.assertion == Some(AssertSpec(None, None, None)))
            && (Wrong(p, scheduleOk, Check(i, NothingToBound)) <==> c.assertion.Some? && c.capture == "")
            && (Wrong(p, scheduleOk, Check(i, NothingToCompare)) <==> c.drift.Some? && c.capture == "")
            && (Wrong(p, scheduleOk, Check(i, NoTolerance)) <==>
                  c.drift.Some? && (match c.drift.value.maxDrop
                                    case Finite(d) => d <= 0.0
                                    case PosInf => false
                                    case _ => true))
            && (Wrong(p, scheduleOk, Check(i, DuplicateName)) <==>
                  exists j :: 0 <= j < i && p.checks[j].typ != "" && p.checks[j].DisplayName() == c.DisplayName()))
  {
  }

  /** Theorem: a plan passes exactly when it has a name and a workload at some
      provider, takes the latest backup or names one, limits nothing below zero,
      has a schedule that parses, has no check it will not start the guest for,
      and all its checks can be run. */
  lemma WellFormedExactly(p: Plan, scheduleOk: bool)
    ensures WellFormed(p, scheduleOk) <==>
              && TrimSpace(p.name) != "" && p.workloadId != "" && p.workloadProvider != ""
              && (p.backup.strategy == Latest || (p.backup.strategy == Specific && p.backup.id != ""))
              && p.restore.cpuLimit >= 0 && p.restore.memoryLimitMB >= 0 && scheduleOk
              && !(p.startup.skip && p.checks != [])
              && forall i :: 0 <= i < |p.checks| ==> Runnable(p.checks, i)
  {
    if WellFormed(p, scheduleOk) {
      HeadExactly(p, scheduleOk);
      NoHeadIsWrong(p, scheduleOk);
      forall i | 0 <= i < |p.checks| ensures Runnable(p.checks, i) {
        forall f ensures !WrongCheck(p.checks, i, f) {
          assert !Wrong(p, scheduleOk, Check(i, f));
        }
        RunnableExactly(p.checks, i);
      }
    } else {
      var x :| Wrong(p, scheduleOk, x);
      match x
      case Head(h) => HeadExactly(p, scheduleOk);
      case Check(i, _) => RunnableExactly(p.checks, i);
    }
  }

  lemma HeadExactly(p: Plan, scheduleOk: bool)
    ensures (forall h :: !WrongHead(p, scheduleOk, h)) <==>
              && TrimSpace(p.name) != "" && p.workloadId != "" && p.workloadProvider != ""
              && (p.backup.strategy == Latest || (p.backup.strategy == Specific && p.backup.id != ""))
              && p.restore.cpuLimit >= 0 && p.restore.memoryLimitMB >= 0 && scheduleOk
              && !(p.startup.skip && p.checks != [])
  {
    if forall h :: !WrongHead(p, scheduleOk, h) {
      assert !WrongHead(p, scheduleOk, NoName) && !WrongHead(p, scheduleOk, NoWorkloadId);
      assert !WrongHead(p, scheduleOk, NoProvider) && !WrongHead(p, scheduleOk, NoBackupId);
      assert !WrongHead(p, scheduleOk, UnknownStrategy) && !WrongHead(p, scheduleOk, NegativeCPU);
      assert !WrongHead(p, scheduleOk, NegativeMemory) && !WrongHead(p, scheduleOk, ChecksWithoutStartup);
      assert !WrongHead(p, scheduleOk, BadSchedule);
    }
  }

  lemma NoHeadIsWrong(p: Plan, scheduleOk: bool)
    requires WellFormed(p, scheduleOk)
    ensures forall h :: !WrongHead(p, scheduleOk, h)
  {
    forall h ensures !WrongHead(p, scheduleOk, h) {
      assert !Wrong(p, scheduleOk, Head(h));
    }
  }

  /** A check that has a type, declares no unknown level, captures only as a
      command, bounds and compares only what it captures, by a bound there is
      and a tolerance above zero, and carries a name no earlier check has. */
  predicate Runnable(checks: seq<CheckSpec>, i: nat)
    requires i < |checks|
  {
    var c := checks[i];
    && c.typ != "" && (c.proves == "" || ParseRecorded(c.proves).Some?)
    && (c.capture != "" ==> c.typ == "command")
    && (c.assertion.Some? ==> c.capture != "" && c.assertion.value != AssertSpec(None, None, None))
    && (c.drift.Some? ==>
          && c.capture != ""
          && (c.drift.value.maxDrop == PosInf || (c.drift.value.maxDrop.Finite? && c.drift.value.maxDrop.v > 0.0)))
    && forall j :: 0 <= j < i && checks[j].typ != "" ==> checks[j].DisplayName() != c.DisplayName()
  }

  lemma RunnableExactly(checks: seq<CheckSpec>, i: nat)
    requires i < |checks|
    ensures Runnable(checks, i) <==> forall f :: !WrongCheck(checks, i, f)
  {
    if forall f :: !WrongCheck(checks, i, f) {
      assert !WrongCheck(checks, i, NoType) && !WrongCheck(checks, i, UnknownLevel);
      assert !WrongCheck(checks, i, CannotCapture) && !WrongCheck(checks, i, NoBound);
      assert !WrongCheck(checks, i, NothingToBound) && !WrongCheck(checks, i, NothingToCompare);
      assert !WrongCheck(checks, i, NoTolerance) && !WrongCheck(checks, i, DuplicateName);
    }
  }
}
