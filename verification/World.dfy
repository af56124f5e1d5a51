// Everything outside the recovery engine: an adversarial provider, a clock, a
// context that may end at any moment, and the listener of progress events.
// Every answer comes from a script, and nothing is assumed about the script.
module World {
  import opened Core
  import opened Trace

  const CLEANUP_TIMEOUT := 600_000_000_000

  datatype Context = RunContext | CleanupContext

  class World {
    const script: nat -> Answer
    const rules: Rules

    var at: nat
    var clock: int
    var ctx: CtxErr
    var teardownBy: int

    var log: seq<Action>

    ghost var mon: Monitor
    ghost var told: seq<CheckResult>
    /** The last answer the workflow got; the cleanup's are not its. */
    ghost var last: Option<Exchange>
    ghost var announced: bool

    /** The log so far is safe, and the summaries of it are right. */
    ghost predicate Valid() reads this {
      !mon.bad && Mirrors(rules, log, mon, told, announced) && Recalls(log, last)
    }

    constructor (script: nat -> Answer, rules: Rules, clock: int)
      ensures Valid() && log == [] && mon == IDLE && told == [] && ctx == Alive && last == None && !announced
      ensures this.script == script && this.rules == rules && this.clock == clock
    {
      this.script, this.rules, this.clock := script, rules, clock;
      at, ctx, teardownBy := 0, Alive, clock;
      log, mon, told, last, announced := [], IDLE, [], None, false;
    }

    /** Time passes, and a context that has ended stays ended. */
    twostate predicate Advanced() reads this {
      && old(clock) <= clock
      && (old(ctx) != Alive ==> ctx == old(ctx))
      && (old(announced) ==> announced)
    }

    predicate Ended(c: Context) reads this {
      if c.RunContext? then ctx != Alive else clock >= teardownBy
    }

    method Draw() returns (a: Answer)
      requires Valid()
      modifies this`at, this`clock, this`ctx
      ensures Valid() && Advanced() && clock == old(clock) + a.elapsed
    {
      a := script(at);
      at := at + 1;
      clock := clock + a.elapsed;
      if ctx == Alive {
        ctx := a.ctx;
      }
    }

    method Now() returns (t: int)
      requires Valid()
      modifies this`at, this`clock, this`ctx
      ensures Valid() && Advanced() && t == clock
    {
      var _ := Draw();
      t := clock;
    }

    method Invoke(c: Call) returns (a: Answer)
      requires Valid() && mon.Allows(rules, c)
      modifies this
      ensures Valid() && Advanced()
      ensures log == old(log) + [Called(c, a)]
      ensures mon == old(mon).Record(rules, Called(c, a))
      ensures teardownBy == old(teardownBy)
      ensures told == old(told) && last == (if c.Stop? || c.Delete? then old(last) else Some(Exchange(c, a)))
    {
      a := Draw();
      AllowedIsMirrored(rules, log, mon, told, announced, Called(c, a));
      log := log + [Called(c, a)];
      mon := mon.Record(rules, Called(c, a));
      if !c.Stop? && !c.Delete? {
        last := Some(Exchange(c, a));
      }
    }

    method Emit(ev: Event)
      requires Valid() && mon.AllowsEvent(ev)
      modifies this`log, this`mon, this`told, this`announced
      ensures Valid() && announced
      ensures log == old(log) + [Emitted(ev)]
      ensures mon == old(mon).Record(rules, Emitted(ev))
      ensures told == old(told) + CheckEvent(Emitted(ev))
    {
      AllowedIsMirrored(rules, log, mon, told, announced, Emitted(ev));
      log := log + [Emitted(ev)];
      mon := mon.Record(rules, Emitted(ev));
      told := told + CheckEvent(Emitted(ev));
      announced := true;
    }

    /** The cleanup runs on a context of its own, bounded from now on. */
    method OpenTeardown()
      requires Valid()
      modifies this`teardownBy
      ensures Valid() && teardownBy == clock + CLEANUP_TIMEOUT
    {
      teardownBy := clock + CLEANUP_TIMEOUT;
    }

    /** Waits d unless the context ends first; waiting for nothing is free. */
    method Sleep(c: Context, d: int) returns (interrupted: bool)
      requires Valid()
      modifies this`at, this`clock, this`ctx
      ensures Valid() && Advanced()
      ensures !interrupted ==> clock >= old(clock) + d
      ensures interrupted ==> Ended(c)
    {
      if d <= 0 {
        return false;
      }
      var start := clock;
      var a := Draw();
      interrupted := Ended(c) && a.fault != NoFault;
      if !interrupted && clock < start + d {
        clock := start + d;
      }
    }
  }
}
