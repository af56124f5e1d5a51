// A measured number that fell to zero is news of its own when nothing else
// about the drill was (internal/notify/collapse.go, dispatcher.go).
module Collapse {
  import opened Core
  import opened Names
  import opened Story

  // ------------------------------------------------ one value per name

  predicate Measures(byCheck: map<int, map<string, Num>>, k: int, name: string) {
    k in byCheck && name in byCheck[k]
  }

  ghost predicate OnlyOne(byCheck: map<int, map<string, Num>>, name: string) {
    exists k :: Measures(byCheck, k, name) && forall j :: Measures(byCheck, j, name) ==> j == k
  }

  /** Exactly the names one check measured, with what it measured. */
  ghost predicate FlattensTo(byCheck: map<int, map<string, Num>>, values: map<string, Num>) {
    && (forall n :: n in values <==> OnlyOne(byCheck, n))
    && (forall n, k :: n in values && Measures(byCheck, k, n) ==> values[n] == byCheck[k][n])
  }

  /** There is only one such flattening, so the order in which a map is walked
      cannot show in it. */
  lemma FlatteningIsUnique(byCheck: map<int, map<string, Num>>, a: map<string, Num>, b: map<string, Num>)
    requires FlattensTo(byCheck, a) && FlattensTo(byCheck, b)
    ensures a == b
  {
    forall n | n in a ensures n in b && a[n] == b[n] {
      assert OnlyOne(byCheck, n);
    }
    forall n | n in b ensures n in a {
      assert OnlyOne(byCheck, n);
    }
  }

  predicate Seen(byCheck: map<int, map<string, Num>>, done: set<int>, name: string) {
    exists k :: k in done && Measures(byCheck, k, name)
  }

  ghost predicate SeenTwice(byCheck: map<int, map<string, Num>>, done: set<int>, name: string) {
    exists j, k :: j in done && k in done && j != k && Measures(byCheck, j, name) && Measures(byCheck, k, name)
  }

  lemma SeenOn(byCheck: map<int, map<string, Num>>, done: set<int>, k: int, name: string)
    requires k !in done
    ensures Seen(byCheck, done + {k}, name) <==> Seen(byCheck, done, name) || Measures(byCheck, k, name)
    ensures SeenTwice(byCheck, done + {k}, name) <==>
              SeenTwice(byCheck, done, name) || (Seen(byCheck, done, name) && Measures(byCheck, k, name))
  {
    if Seen(byCheck, done, name) {
      var j :| j in done && Measures(byCheck, j, name);
      assert j in done + {k};
    }
    if Measures(byCheck, k, name) {
      assert k in done + {k};
    }
  }

  /** The state of the walk, for one name, after the checks in `done`. */
  ghost predicate Walked(
    byCheck: map<int, map<string, Num>>, done: set<int>, out: map<string, Num>, ambiguous: set<string>, n: string)
  {
    && (n in out <==> Seen(byCheck, done, n))
    && (n in ambiguous <==> SeenTwice(byCheck, done, n))
    && (n in out && n !in ambiguous ==>
          forall k :: k in done && Measures(byCheck, k, n) ==> out[n] == byCheck[k][n])
  }

  /** What walking over one more check's values does to a name. */
  ghost predicate Added(
    values: map<string, Num>, out0: map<string, Num>, ambiguous0: set<string>,
    out: map<string, Num>, ambiguous: set<string>, n: string)
  {
    && (n in out <==> n in out0 || n in values)
    && (n in ambiguous <==> n in ambiguous0 || (n in values && n in out0))
    && (n in out ==> out[n] == if n in out0 then out0[n] else values[n])
  }

  /** The walk over one check's values, taken in any order. */
  method WalkCheck(values: map<string, Num>, out0: map<string, Num>, ambiguous0: set<string>)
    returns (out: map<string, Num>, ambiguous: set<string>)
    ensures forall n :: Added(values, out0, ambiguous0, out, ambiguous, n)
  {
    out, ambiguous := out0, ambiguous0;
    var rest := values.Keys;
    while rest != {}
      invariant rest <= values.Keys
      invariant forall n :: n in out <==> n in out0 || (n in values && n !in rest)
      invariant forall n :: n in ambiguous <==> n in ambiguous0 || (n in values && n !in rest && n in out0)
      invariant forall n :: n in out ==> out[n] == if n in out0 then out0[n] else values[n]
      decreases |rest|
    {
      var name :| name in rest;
      rest := rest - {name};
      if name in out {
        ambiguous := ambiguous + {name};
      } else {
        out := out[name := values[name]];
      }
    }
  }

  lemma WalkedOn(
      byCheck: map<int, map<string, Num>>, done: set<int>, k: int,
      out0: map<string, Num>, ambiguous0: set<string>, out: map<string, Num>, ambiguous: set<string>, n: string)
    requires k in byCheck && k !in done
    requires Walked(byCheck, done, out0, ambiguous0, n)
    requires Added(byCheck[k], out0, ambiguous0, out, ambiguous, n)
    ensures Walked(byCheck, done + {k}, out, ambiguous, n)
  {
    SeenOn(byCheck, done, k, n);
  }

  lemma WalkedAll(byCheck: map<int, map<string, Num>>, out: map<string, Num>, ambiguous: set<string>, n: string)
    requires Walked(byCheck, byCheck.Keys, out, ambiguous, n)
    ensures n in out && n !in ambiguous <==> OnlyOne(byCheck, n)
    ensures n in out && n !in ambiguous ==> forall k :: Measures(byCheck, k, n) ==> out[n] == byCheck[k][n]
  {
    if n in out && n !in ambiguous {
      var k :| k in byCheck.Keys && Measures(byCheck, k, n);
      assert forall j :: Measures(byCheck, j, n) ==> j == k;
    }
  }

  /** The next key of a map, in whatever order the runtime walks it. */
  method AnyOf<K(==)>(keys: set<K>) returns (k: K)
    requires keys != {}
    ensures k in keys
  {
    k :| k in keys;
  }

  /** valuesByName: a name two checks measured is dropped, since nobody can say
      which of the two the previous drill measured. */
  method ValuesByName(byCheck: map<int, map<string, Num>>) returns (values: map<string, Num>)
    ensures FlattensTo(byCheck, values)
  {
    var out: map<string, Num>, ambiguous: set<string> := map[], {};
    var rest: set<int> := byCheck.Keys;
    while rest != {}
      invariant rest <= byCheck.Keys
      invariant forall n :: Walked(byCheck, byCheck.Keys - rest, out, ambiguous, n)
      decreases |rest|
    {
      var k := AnyOf(rest);
      var out1, ambiguous1 := WalkCheck(byCheck[k], out, ambiguous);
      forall n ensures Walked(byCheck, byCheck.Keys - (rest - {k}), out1, ambiguous1, n) {
        assert Added(byCheck[k], out, ambiguous, out1, ambiguous1, n);
        WalkedOn(byCheck, byCheck.Keys - rest, k, out, ambiguous, out1, ambiguous1, n);
        assert byCheck.Keys - rest + {k} == byCheck.Keys - (rest - {k});
      }
      out, ambiguous, rest := out1, ambiguous1, rest - {k};
    }
    values := out - ambiguous;
    forall n
      ensures n in values <==> OnlyOne(byCheck, n)
      ensures n in values ==> forall k :: Measures(byCheck, k, n) ==> values[n] == byCheck[k][n]
    {
      assert byCheck.Keys - rest == byCheck.Keys;
      WalkedAll(byCheck, out, ambiguous, n);
    }
  }

  // ------------------------------------------------ a fall to zero

  predicate IsZero(v: Num) { v.Same(Finite(0.0)) }

  /** The names that fell from a positive reading to zero. */
  function Fallen(values: map<string, Num>, earlier: map<string, Num>): set<string> {
    set n | n in values && IsZero(values[n]) && n in earlier && Finite(0.0).Less(earlier[n])
  }

  function FirstFallen(values: map<string, Num>, earlier: map<string, Num>): Option<string> {
    if Fallen(values, earlier) == {} then None else Some(FirstName(Fallen(values, earlier)))
  }

  /** A name that read more than nothing before and reads nothing now. */
  predicate Fell(earlier: map<string, Num>, values: map<string, Num>, n: string) {
    && n in values && values[n] == Finite(0.0)
    && n in earlier && (earlier[n].PosInf? || (earlier[n].Finite? && earlier[n].v > 0.0))
  }

  /** collapsed: the zeros in name order, up to the first that was positive. */
  method Collapsed(values: map<string, Num>, earlier: map<string, Num>) returns (name: Option<string>)
    ensures name == FirstFallen(values, earlier)
    ensures name.None? <==> forall n :: !Fell(earlier, values, n)
    ensures name.Some? ==> Fell(earlier, values, name.value)
    ensures name.Some? ==> forall n :: Fell(earlier, values, n) ==> Leq(name.value, n)
  {
    assert forall n :: n in Fallen(values, earlier) <==> Fell(earlier, values, n);
    var zeros := InOrder(set n | n in values && IsZero(values[n]));
    for i := 0 to |zeros|
      invariant forall k :: 0 <= k < i ==> zeros[k] !in Fallen(values, earlier)
    {
      if zeros[i] in earlier && Finite(0.0).Less(earlier[zeros[i]]) {
        assert zeros[i] in zeros;
        forall n | n in Fallen(values, earlier) ensures Leq(zeros[i], n) {
          assert n in zeros;
          var j :| 0 <= j < |zeros| && zeros[j] == n;
          LeqTotal(n, n);
        }
        assert Least(zeros[i], Fallen(values, earlier));
        LeastUnique(Fallen(values, earlier));
        return Some(zeros[i]);
      }
    }
    assert forall n :: n in Fallen(values, earlier) ==> n in zeros;
    assert Fallen(values, earlier) == {};
    return None;
  }

  predicate Zeroed(values: map<string, Num>) {
    exists n :: n in values && IsZero(values[n])
  }

  /** A collapse needs a verdict: a drill that reached none is no evidence. */
  function DecideCollapse(
    state: RunState, current: Story, previous: Option<Story>, values: map<string, Num>, earlier: map<string, Num>)
    : Option<Transition>
  {
    if !state.Terminal() || current.result == NoResult then None
    else if FirstFallen(values, earlier).None? then None
    else Some(Transition(ValueCollapsed, current, previous))
  }

  // ------------------------------------------------ over a history

  /** A drill and what it measured, by name; nothing when that was unreadable. */
  datatype Drill = Drill(run: Run, values: map<string, Num>)

  function Runs(h: seq<Drill>): (r: seq<Run>)
    ensures |r| == |h| && forall i :: 0 <= i < |r| ==> r[i] == h[i].run
  {
    seq(|h|, i requires 0 <= i < |h| => h[i].run)
  }

  /** What the newest earlier drill with a verdict measured. */
  function Earlier(h: seq<Drill>): Option<map<string, Num>> {
    if h == [] then None
    else if h[|h| - 1].run.HasVerdict() then Some(h[|h| - 1].values)
    else Earlier(h[..|h| - 1])
  }

  /** consider: what Decide has to say, and otherwise what the numbers have. */
  function Consider(h: seq<Drill>, d: Drill): Option<Transition> {
    var said := Message(Runs(h), d.run);
    if said.Some? then said
    else if !d.run.HasVerdict() || Earlier(h).None? || !Zeroed(d.values) then None
    else DecideCollapse(d.run.state, d.run.Told(), Previous(Runs(h)), d.values, Earlier(h).value)
  }

  /** The newest drill that reached a verdict. */
  predicate NewestDrill(h: seq<Drill>, i: int) {
    && 0 <= i < |h| && h[i].run.result != NoResult
    && forall j :: i < j < |h| ==> h[j].run.result == NoResult
  }

  lemma {:induction false} EarlierIsNewest(h: seq<Drill>, i: int)
    requires NewestDrill(h, i)
    ensures Earlier(h) == Some(h[i].values)
  {
    var n := |h| - 1;
    if i < n {
      assert h[n].run.result == NoResult;
      EarlierIsNewest(h[..n], i);
    }
  }

  lemma {:induction false} NoneIsEarlier(h: seq<Drill>)
    requires forall i :: 0 <= i < |h| ==> h[i].run.result == NoResult
    ensures Earlier(h) == None
  {
    if h != [] {
      NoneIsEarlier(h[..|h| - 1]);
    }
  }

  /** Theorem: the collapse messages of a history are exactly the falls from a
      positive reading to zero since the newest earlier drill that reached a
      verdict, on a drill that reached one too and that nothing else was said
      about. */
  lemma CollapsesAreTheSilentEdges(h: seq<Drill>, d: Drill, i: int)
    requires Recorded(d.run) && NewestDrill(h, i)
    ensures (Consider(h, d).Some? && Consider(h, d).value.kind == ValueCollapsed)
      <==> Message(Runs(h), d.run).None? && d.run.result != NoResult && exists n :: Fell(h[i].values, d.values, n)
    ensures Consider(h, d).Some? && Consider(h, d).value.kind == ValueCollapsed ==>
      Consider(h, d).value.current == Story(d.run.result, d.run.level)
      && Consider(h, d).value.previous == Some(Story(h[i].run.result, h[i].run.level))
  {
    EarlierIsNewest(h, i);
    PreviousIsNewest(Runs(h));
    assert NewestVerdict(Runs(h), i);
    var fallen := Fallen(d.values, h[i].values);
    assert forall n :: Fell(h[i].values, d.values, n) <==> n in fallen;
    if n :| n in fallen {
      assert Zeroed(d.values);
    }
  }

  /** Without an earlier verdict there is nothing to have fallen from, and
      whatever else there is to say about a drill is said instead. */
  lemma NothingToFallFrom(h: seq<Drill>, d: Drill)
    ensures (forall i :: 0 <= i < |h| ==> h[i].run.result == NoResult) ==> Consider(h, d) == Message(Runs(h), d.run)
    ensures Message(Runs(h), d.run).Some? ==> Consider(h, d) == Message(Runs(h), d.run)
  {
    if forall i :: 0 <= i < |h| ==> h[i].run.result == NoResult {
      NoneIsEarlier(h);
    }
  }
}
