// What a captured number is judged by: declared bounds, and the median of what
// previous drills measured (internal/checks/values.go).
module Values {
  import opened Core

  const DRIFT_WINDOW := 5

  // ------------------------------------------------ the median

  /** The readings a baseline is taken from, in the order given. */
  function FiniteOnes(values: seq<Num>): seq<real> {
    if values == [] then []
    else
      var last := values[|values| - 1];
      FiniteOnes(values[..|values| - 1]) + if last.Finite? then [last.v] else []
  }

  predicate Ascending(s: seq<real>) {
    forall i, j :: 0 <= i < j < |s| ==> s[i] <= s[j]
  }

  function Insert(x: real, s: seq<real>): (r: seq<real>)
    ensures |r| == |s| + 1
  {
    if s == [] || x <= s[0] then [x] + s else [s[0]] + Insert(x, s[1..])
  }

  /** slices.Sort, as the value it leaves behind. */
  function Sort(s: seq<real>): (r: seq<real>)
    ensures |r| == |s|
  {
    if s == [] then [] else Insert(s[0], Sort(s[1..]))
  }

  function Middle(sorted: seq<real>): real
    requires sorted != []
  {
    var mid := |sorted| / 2;
    if |sorted| % 2 == 1 then sorted[mid] else sorted[mid - 1] / 2.0 + sorted[mid] / 2.0
  }

  function Median(values: seq<Num>): Option<real> {
    var sorted := Sort(FiniteOnes(values));
    if sorted == [] then None else Some(Middle(sorted))
  }

  /** Baseline copies the finite values and sorts the copy: the caller's slice,
      which it may render beside the verdict, is only read. */
  method Baseline(values: array<Num>) returns (baseline: Option<real>)
    ensures baseline == Median(values[..])
  {
    var kept: seq<real> := [];
    for i := 0 to values.Length
      invariant kept == FiniteOnes(values[..i])
    {
      assert values[..i + 1][..i] == values[..i];
      if values[i].Finite? {
        kept := kept + [values[i].v];
      }
    }
    assert values[..values.Length] == values[..];
    if |kept| == 0 {
      return None;
    }
    var sorted := Sort(kept);
    var mid := |sorted| / 2;
    if |sorted| % 2 == 1 {
      return Some(sorted[mid]);
    }
    return Some(sorted[mid - 1] / 2.0 + sorted[mid] / 2.0);
  }

  lemma {:induction false} InsertKeepsOrder(x: real, s: seq<real>)
    requires Ascending(s)
    ensures Ascending(Insert(x, s))
    ensures Insert(x, s)[0] == x || (s != [] && Insert(x, s)[0] == s[0])
  {
    if s != [] && x > s[0] {
      InsertKeepsOrder(x, s[1..]);
      var rest := Insert(x, s[1..]);
      assert s[0] <= rest[0];
      forall j | 0 <= j < |rest| ensures s[0] <= rest[j] {
        assert j == 0 || rest[0] <= rest[j];
      }
    }
  }

  lemma {:induction false} SortIsAscending(s: seq<real>)
    ensures Ascending(Sort(s))
  {
    if s != [] {
      SortIsAscending(s[1..]);
      InsertKeepsOrder(s[0], Sort(s[1..]));
    }
  }

  /** How many readings equal x, and how many lie between two bounds. */
  function Count(s: seq<real>, lo: real, hi: real): (n: nat)
    ensures n <= |s|
  {
    if s == [] then 0 else (if lo <= s[0] <= hi then 1 else 0) + Count(s[1..], lo, hi)
  }

  lemma {:induction false} InsertCounts(x: real, s: seq<real>, lo: real, hi: real)
    ensures Count(Insert(x, s), lo, hi) == Count(s, lo, hi) + if lo <= x <= hi then 1 else 0
  {
    if s == [] || x <= s[0] {
      assert ([x] + s)[1..] == s;
    } else {
      InsertCounts(x, s[1..], lo, hi);
      assert ([s[0]] + Insert(x, s[1..]))[1..] == Insert(x, s[1..]);
    }
  }

  lemma {:induction false} SortCounts(s: seq<real>, lo: real, hi: real)
    ensures Count(Sort(s), lo, hi) == Count(s, lo, hi)
  {
    if s != [] {
      SortCounts(s[1..], lo, hi);
      InsertCounts(s[0], Sort(s[1..]), lo, hi);
    }
  }

  /** k readings outside the bounds at either end leave at most the others. */
  lemma {:induction false} OutsideIsNotCounted(s: seq<real>, k: nat, lo: real, hi: real)
    requires k <= |s|
    requires forall i :: 0 <= i < k ==> !(lo <= s[i] <= hi)
    ensures Count(s, lo, hi) <= |s| - k
  {
    if k > 0 {
      OutsideIsNotCounted(s[1..], k - 1, lo, hi);
    }
  }

  lemma {:induction false} OutsideAtTheEnd(s: seq<real>, k: nat, lo: real, hi: real)
    requires k <= |s|
    requires forall i :: k <= i < |s| ==> !(lo <= s[i] <= hi)
    ensures Count(s, lo, hi) <= k
  {
    if s != [] {
      OutsideAtTheEnd(s[1..], if k > 0 then k - 1 else 0, lo, hi);
    }
  }

  /** In an ascending sequence the readings that straddle the middle lie within
      any bounds that hold more than half of them. */
  lemma MajorityHoldsTheMiddle(s: seq<real>, j: nat, lo: real, hi: real)
    requires Ascending(s) && 2 * Count(s, lo, hi) > |s|
    requires j < |s| && |s| <= 2 * j + 2 && 2 * j <= |s|
    ensures lo <= s[j] <= hi
  {
    if s[j] < lo {
      OutsideIsNotCounted(s, j + 1, lo, hi);
    }
    if s[j] > hi {
      OutsideAtTheEnd(s, j, lo, hi);
    }
  }

  /** The baseline lies wherever more than half of the finite readings lie. */
  lemma BaselineFollowsTheMajority(values: seq<Num>, lo: real, hi: real)
    requires 2 * Count(FiniteOnes(values), lo, hi) > |FiniteOnes(values)|
    ensures Median(values).Some? && lo <= Median(values).value <= hi
  {
    var kept := FiniteOnes(values);
    var sorted := Sort(kept);
    SortIsAscending(kept);
    SortCounts(kept, lo, hi);
    var mid := |sorted| / 2;
    MajorityHoldsTheMiddle(sorted, mid, lo, hi);
    if |sorted| % 2 == 0 {
      MajorityHoldsTheMiddle(sorted, mid - 1, lo, hi);
    }
  }

  /** Theorem: the baseline is the median. For the finite readings in ascending
      order, however they were given, it is the middle one, or half the sum of
      the two in the middle; and there is none without a finite reading. */
  lemma BaselineIsTheMedian(values: seq<Num>, s: seq<real>)
    requires forall i, j :: 0 <= i < j < |s| ==> s[i] <= s[j]
    requires forall x: real :: multiset(s)[x] == multiset(values)[Finite(x)]
    ensures s == [] ==> Median(values) == None
    ensures |s| % 2 == 1 ==> Median(values) == Some(s[(|s| - 1) / 2])
    ensures |s| % 2 == 0 && s != [] ==> Median(values) == Some((s[|s| / 2 - 1] + s[|s| / 2]) / 2.0)
  {
    SortedMeans(values, s);
    MiddleMeans(s);
  }

  lemma SortedMeans(values: seq<Num>, s: seq<real>)
    requires Ascending(s) && forall x: real :: multiset(s)[x] == multiset(values)[Finite(x)]
    ensures Sort(FiniteOnes(values)) == s
  {
    forall x: real ensures multiset(FiniteOnes(values))[x] == multiset(s)[x] {
      FiniteOnesMember(values, x);
    }
    assert multiset(FiniteOnes(values)) == multiset(s);
    SortForgetsOrder(FiniteOnes(values), s);
    SortedStays(s);
  }

  lemma MiddleMeans(s: seq<real>)
    ensures |s| % 2 == 1 ==> Middle(s) == s[(|s| - 1) / 2]
    ensures |s| % 2 == 0 && s != [] ==> Middle(s) == (s[|s| / 2 - 1] + s[|s| / 2]) / 2.0
  {
  }

  lemma {:induction false} SortedStays(s: seq<real>)
    requires Ascending(s)
    ensures Sort(s) == s
  {
    if s != [] {
      SortedStays(s[1..]);
      assert Insert(s[0], s[1..]) == [s[0]] + s[1..];
    }
  }

  // ------------------------------------------------ permutation

  lemma {:induction false} InsertCommutes(x: real, y: real, s: seq<real>)
    ensures Insert(x, Insert(y, s)) == Insert(y, Insert(x, s))
  {
    if s != [] && s[0] < x && s[0] < y {
      InsertCommutes(x, y, s[1..]);
      assert ([s[0]] + Insert(y, s[1..]))[1..] == Insert(y, s[1..]);
      assert ([s[0]] + Insert(x, s[1..]))[1..] == Insert(x, s[1..]);
    } else {
      assert ([y] + s)[1..] == s && ([x] + s)[1..] == s;
      if s != [] {
        assert ([s[0]] + Insert(y, s[1..]))[1..] == Insert(y, s[1..]);
        assert ([s[0]] + Insert(x, s[1..]))[1..] == Insert(x, s[1..]);
      }
    }
  }

  function Without(s: seq<real>, k: nat): (r: seq<real>)
    requires k < |s|
    ensures |r| == |s| - 1
  {
    s[..k] + s[k + 1..]
  }

  lemma {:induction false} SortTakesAnyFirst(s: seq<real>, k: nat)
    requires k < |s|
    ensures Sort(s) == Insert(s[k], Sort(Without(s, k)))
  {
    if k == 0 {
      assert Without(s, 0) == s[1..];
    } else {
      SortTakesAnyFirst(s[1..], k - 1);
      assert Without(s, k)[0] == s[0] && Without(s, k)[1..] == Without(s[1..], k - 1);
      InsertCommutes(s[0], s[k], Sort(Without(s[1..], k - 1)));
    }
  }

  lemma RestIsTheSame(a: seq<real>, b: seq<real>, k: nat)
    requires multiset(a) == multiset(b) && a != [] && k < |b| && b[k] == a[0]
    ensures multiset(a[1..]) == multiset(Without(b, k))
  {
    assert a == [a[0]] + a[1..];
    assert b == b[..k] + [b[k]] + b[k + 1..];
    assert multiset(a) == multiset{a[0]} + multiset(a[1..]);
    assert multiset(b) == multiset(b[..k]) + multiset{b[k]} + multiset(b[k + 1..]);
    assert multiset(Without(b, k)) == multiset(b[..k]) + multiset(b[k + 1..]);
    assert multiset(a[1..]) == multiset(b) - multiset{b[k]};
  }

  lemma PlaceOf(a: seq<real>, b: seq<real>) returns (k: nat)
    requires multiset(a) == multiset(b) && a != []
    ensures k < |b| && b[k] == a[0]
  {
    assert a[0] in multiset(b);
    k :| k < |b| && b[k] == a[0];
  }

  lemma {:induction false} SortForgetsOrder(a: seq<real>, b: seq<real>)
    requires multiset(a) == multiset(b)
    ensures Sort(a) == Sort(b)
  {
    if a == [] {
      assert |multiset(b)| == |b| == 0;
    } else {
      var k := PlaceOf(a, b);
      RestIsTheSame(a, b, k);
      SortForgetsOrder(a[1..], Without(b, k));
      SortTakesAnyFirst(b, k);
    }
  }

  lemma {:induction false} FiniteOnesMember(values: seq<Num>, x: real)
    ensures multiset(FiniteOnes(values))[x] == multiset(values)[Finite(x)]
  {
    if values != [] {
      FiniteOnesMember(values[..|values| - 1], x);
      assert values == values[..|values| - 1] + [values[|values| - 1]];
    }
  }

  /** The order in which the store returned the readings does not matter. */
  lemma BaselineForgetsOrder(a: seq<Num>, b: seq<Num>)
    requires multiset(a) == multiset(b)
    ensures Median(a) == Median(b)
  {
    forall x: real
      ensures multiset(FiniteOnes(a))[x] == multiset(FiniteOnes(b))[x]
    {
      FiniteOnesMember(a, x);
      FiniteOnesMember(b, x);
    }
    assert multiset(FiniteOnes(a)) == multiset(FiniteOnes(b));
    SortForgetsOrder(FiniteOnes(a), FiniteOnes(b));
  }

  // ------------------------------------------------ declared bounds

  datatype Violation = Holds | NotFinite | BelowMinimum | AboveMaximum | NotEqual

  /** CheckAssert: the first bound violated, in the order the plan lists them. */
  function CheckAssert(value: Num, a: AssertSpec): Violation {
    if !value.Finite? then NotFinite
    else if a.min.Some? && value.Less(a.min.value) then BelowMinimum
    else if a.max.Some? && a.max.value.Less(value) then AboveMaximum
    else if a.equals.Some? && !value.Same(a.equals.value) then NotEqual
    else Holds
  }

  /** What a declared bound asks of a number: it is at least min, at most max,
      and exactly equals. A bound that is not a number asks nothing of a
      minimum or a maximum, and nothing can meet it as an exact value. */
  predicate Meets(x: real, a: AssertSpec) {
    && (a.min.Some? ==> match a.min.value
        case Finite(m) => m <= x
        case PosInf => false
        case _ => true)
    && (a.max.Some? ==> match a.max.value
        case Finite(m) => x <= m
        case NegInf => false
        case _ => true)
    && (a.equals.Some? ==> a.equals.value == Finite(x))
  }

  /** Theorem: which bound is reported, if any: the minimum before the maximum,
      and that before the exact value; both limits are inclusive. */
  lemma FirstViolation(x: real, a: AssertSpec)
    ensures CheckAssert(Finite(x), a) == BelowMinimum <==>
              a.min.Some? && (a.min.value == PosInf || (a.min.value.Finite? && x < a.min.value.v))
    ensures CheckAssert(Finite(x), a) == AboveMaximum <==>
              && CheckAssert(Finite(x), a) != BelowMinimum
              && a.max.Some? && (a.max.value == NegInf || (a.max.value.Finite? && x > a.max.value.v))
    ensures CheckAssert(Finite(x), a) == NotEqual <==>
              && CheckAssert(Finite(x), a) != BelowMinimum && CheckAssert(Finite(x), a) != AboveMaximum
              && a.equals.Some? && a.equals.value != Finite(x)
    ensures CheckAssert(Finite(x), a) != NotFinite
    ensures CheckAssert(NaN, a) == CheckAssert(PosInf, a) == CheckAssert(NegInf, a) == NotFinite
  {
  }

  lemma AssertHoldsExactly(value: Num, a: AssertSpec)
    ensures CheckAssert(value, a) == Holds <==> value.Finite? && Meets(value.v, a)
  {
  }

  // ------------------------------------------------ drift

  datatype Drift = Within | NotComparable | TooFar | BelowZeroBaseline

  function Abs(x: real): real { if x < 0.0 then -x else x }

  function CheckDrift(value: Num, baseline: Num, d: DriftSpec): Drift {
    if !value.Finite? || !baseline.Finite? then NotComparable
    else if value.v >= baseline.v then Within
    else
      var drop := baseline.v - value.v;
      if !d.isPercent then
        if Finite(drop).AtMost(d.maxDrop) then Within else TooFar
      else if baseline.v == 0.0 then BelowZeroBaseline
      else if Finite(drop / Abs(baseline.v) * 100.0).AtMost(d.maxDrop) then Within
      else TooFar
  }

  lemma ShareOf(drop: real, whole: real, pct: real)
    requires whole > 0.0
    ensures drop / whole * 100.0 <= pct <==> drop * 100.0 <= pct * whole
  {
    var share := drop / whole;
    assert drop == share * whole;
    if share * 100.0 <= pct {
      assert share * 100.0 * whole <= pct * whole;
    } else {
      assert share * 100.0 * whole > pct * whole;
    }
  }

  /** Theorem: within tolerance means, without a division, no fall, or none
      beyond maxDrop units, or none beyond that share of the baseline's
      magnitude. */
  lemma DriftWithinExactly(value: real, baseline: real, maxDrop: real, isPercent: bool)
    ensures CheckDrift(Finite(value), Finite(baseline), DriftSpec(Finite(maxDrop), isPercent)) == Within
      <==> (|| value >= baseline
            || (!isPercent && baseline - value <= maxDrop)
            || (isPercent && baseline > 0.0 && (baseline - value) * 100.0 <= maxDrop * baseline)
            || (isPercent && baseline < 0.0 && (baseline - value) * 100.0 <= maxDrop * -baseline))
  {
    if value < baseline && isPercent && baseline != 0.0 {
      ShareOf(baseline - value, Abs(baseline), maxDrop);
    }
  }

  /** What is said otherwise: nothing can be compared with a value that is not
      finite, no percentage of zero permits a fall, and everything else fell
      too far. A tolerance without a limit permits any fall but that one. */
  lemma DriftOtherwise(value: Num, baseline: Num, d: DriftSpec)
    ensures CheckDrift(value, baseline, d) == NotComparable <==> !(value.Finite? && baseline.Finite?)
    ensures CheckDrift(value, baseline, d) == BelowZeroBaseline <==>
              value.Finite? && baseline == Finite(0.0) && d.isPercent && value.v < 0.0
    ensures value.Finite? && baseline.Finite? && !d.maxDrop.Finite?
            && CheckDrift(value, baseline, d) != BelowZeroBaseline ==>
              (CheckDrift(value, baseline, d) == Within <==> value.v >= baseline.v || d.maxDrop == PosInf)
  {
  }

  // ------------------------------------------------ the ratchet

  predicate AllAtLeast(readings: seq<Num>, low: real) {
    forall r :: r in readings ==> r.Finite? && r.v >= low
  }

  /** The window the next drill reads: the newest readings first, five at most. */
  function Window(newest: seq<Num>, older: seq<Num>): (w: seq<Num>)
    requires |newest| <= DRIFT_WINDOW == |older|
  {
    newest + older[..DRIFT_WINDOW - |newest|]
  }

  lemma {:induction false} CountAtLeast(readings: seq<Num>, lo: real, hi: real, k: nat)
    requires k <= |readings|
    requires forall r :: r in readings ==> r.Finite?
    requires forall i :: k <= i < |readings| ==> lo <= readings[i].v <= hi
    ensures |FiniteOnes(readings)| == |readings|
    ensures Count(FiniteOnes(readings), lo, hi) >= |readings| - k
  {
    if readings != [] {
      var init := readings[..|readings| - 1];
      var last := readings[|readings| - 1];
      CountAtLeast(init, lo, hi, if k <= |init| then k else |init|);
      CountAppend(FiniteOnes(init), last.v, lo, hi);
    }
  }

  lemma {:induction false} CountAppend(s: seq<real>, x: real, lo: real, hi: real)
    ensures Count(s + [x], lo, hi) == Count(s, lo, hi) + if lo <= x <= hi then 1 else 0
  {
    if s == [] {
      assert [] + [x] == [x];
    } else {
      CountAppend(s[1..], x, lo, hi);
      assert (s + [x])[1..] == s[1..] + [x];
    }
  }

  function Highest(readings: seq<Num>, atLeast: real): (hi: real)
    ensures hi >= atLeast
    ensures forall r :: r in readings && r.Finite? ==> r.v <= hi
  {
    if readings == [] then atLeast
    else
      var rest := Highest(readings[1..], atLeast);
      if readings[0].Finite? && readings[0].v > rest then readings[0].v else rest
  }

  /** With at most two collapsed readings in the window, whatever they are, the
      baseline is still one of a healthy workload. */
  lemma BaselineSurvivesTwo(newest: seq<Num>, healthy: seq<Num>, low: real)
    requires |newest| <= 2 && |healthy| == DRIFT_WINDOW
    requires AllAtLeast(healthy, low) && forall r :: r in newest ==> r.Finite?
    ensures Median(Window(newest, healthy)).Some? && Median(Window(newest, healthy)).value >= low
  {
    var w := Window(newest, healthy);
    var hi := Highest(w, low);
    forall i | |newest| <= i < |w| ensures low <= w[i].v <= hi {
      assert w[i] == healthy[i - |newest|] && w[i] in w;
    }
    CountAtLeast(w, low, hi, |newest|);
    BaselineFollowsTheMajority(w, low, hi);
  }

  lemma AllInRange(w: seq<Num>, k: nat, x: real)
    requires k <= |w| && 2 * k > |w|
    requires forall r :: r in w ==> r.Finite?
    requires forall i :: 0 <= i < k ==> w[i] == Finite(x)
    ensures Median(w) == Some(x)
  {
    CountLeading(w, k, x);
    BaselineFollowsTheMajority(w, x, x);
  }

  lemma {:induction false} CountLeading(readings: seq<Num>, k: nat, x: real)
    requires k <= |readings|
    requires forall r :: r in readings ==> r.Finite?
    requires forall i :: 0 <= i < k ==> readings[i] == Finite(x)
    ensures |FiniteOnes(readings)| == |readings|
    ensures Count(FiniteOnes(readings), x, x) >= k
  {
    if readings != [] {
      var init := readings[..|readings| - 1];
      var last := readings[|readings| - 1];
      CountLeading(init, if k <= |init| then k else |init|, x);
      CountAppend(FiniteOnes(init), last.v, x, x);
    }
  }

  lemma FallBelowShare(value: real, low: real, b: real, pct: real)
    requires b >= low > 0.0 && 0.0 < pct < 100.0
    requires value * 100.0 < low * (100.0 - pct)
    ensures (b - value) * 100.0 > pct * b && value < b
  {
    var kept := 100.0 - pct;
    assert (b - low) * kept >= 0.0;
    assert b * kept >= low * kept;
    assert b * pct > 0.0;
    assert b * kept == b * 100.0 - b * pct;
  }

  /** A collapse keeps failing: after five readings of at least `low`, every one
      of the next three readings below the tolerated share of it is reported,
      although each of them enters the window the next is judged by. */
  lemma CollapseFailsThreeTimes(fallen: seq<Num>, healthy: seq<Num>, low: real, value: real, pct: real)
    requires |fallen| <= 2 && |healthy| == 5 && low > 0.0 && 0.0 < pct < 100.0
    requires AllAtLeast(healthy, low) && forall r :: r in fallen ==> r.Finite?
    requires value * 100.0 < low * (100.0 - pct)
    ensures var baseline := Median(Window(fallen, healthy));
      baseline.Some? && CheckDrift(Finite(value), Finite(baseline.value), DriftSpec(Finite(pct), true)) == TooFar
  {
    BaselineSurvivesTwo(fallen, healthy, low);
    var b := Median(Window(fallen, healthy)).value;
    FallBelowShare(value, low, b, pct);
    ShareOf(b - value, b, pct);
  }

  lemma ProductIsPositive(a: real, b: real)
    requires a > 0.0 && b > 0.0
    ensures a * b > 0.0
  {
  }

  function Zeros(k: nat): (s: seq<Num>)
    ensures |s| == k && forall i :: 0 <= i < k ==> s[i] == Finite(0.0)
  {
    seq(k, i => Finite(0.0))
  }

  /** The exact reach of the median: an empty database is reported on the first
      three drills, and from the fourth on it has become the baseline. */
  lemma ZeroIsReportedExactlyThreeTimes(k: nat, healthy: seq<Num>, low: real, pct: real)
    requires k <= 5 == |healthy| && low > 0.0 && 0.0 < pct < 100.0
    requires AllAtLeast(healthy, low)
    ensures var baseline := Median(Window(Zeros(k), healthy));
      && baseline.Some?
      && (CheckDrift(Finite(0.0), Finite(baseline.value), DriftSpec(Finite(pct), true)) != Within <==> k < 3)
  {
    if k < 3 {
      ProductIsPositive(low, 100.0 - pct);
      CollapseFailsThreeTimes(Zeros(k), healthy, low, 0.0, pct);
    } else {
      var w := Window(Zeros(k), healthy);
      forall r | r in w ensures r.Finite? {
        var i :| 0 <= i < |w| && w[i] == r;
        assert i < k || r == healthy[i - k];
      }
      AllInRange(w, k, 0.0);
    }
  }
}
