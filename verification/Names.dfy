// Names in byte order, as Go's sort.Strings puts them.
module Names {

  predicate Leq(a: string, b: string) {
    a == "" || (b != "" && (a[0] < b[0] || (a[0] == b[0] && Leq(a[1..], b[1..]))))
  }

  /** The first place where two names differ decides; a name that ends first
      comes first. */
  lemma {:induction false} LeqMeans(a: string, b: string, k: nat)
    requires k <= |a| && k <= |b| && a[..k] == b[..k]
    ensures k < |a| && k < |b| && a[k] < b[k] ==> Leq(a, b) && !Leq(b, a)
    ensures k == |a| ==> Leq(a, b)
  {
    if k > 0 {
      assert a[0] == a[..k][0] && b[0] == b[..k][0];
      assert a[1..][..k - 1] == a[..k][1..] && b[1..][..k - 1] == b[..k][1..];
      LeqMeans(a[1..], b[1..], k - 1);
    }
  }

  lemma {:induction false} LeqTotal(a: string, b: string)
    ensures Leq(a, b) || Leq(b, a)
  {
    if a != "" && b != "" && a[0] == b[0] {
      LeqTotal(a[1..], b[1..]);
    }
  }

  lemma {:induction false} LeqAntisymmetric(a: string, b: string)
    requires Leq(a, b) && Leq(b, a)
    ensures a == b
  {
    if a != "" {
      LeqAntisymmetric(a[1..], b[1..]);
      assert a == [a[0]] + a[1..] && b == [b[0]] + b[1..];
    }
  }

  lemma {:induction false} LeqTransitive(a: string, b: string, c: string)
    requires Leq(a, b) && Leq(b, c)
    ensures Leq(a, c)
  {
    if a != "" && a[0] == b[0] && b[0] == c[0] {
      LeqTransitive(a[1..], b[1..], c[1..]);
    }
  }

  predicate Least(a: string, names: set<string>) {
    a in names && forall b :: b in names ==> Leq(a, b)
  }

  lemma LeastExists(names: set<string>)
    requires names != {}
    ensures exists a :: Least(a, names)
    decreases |names|
  {
    var x :| x in names;
    var rest := names - {x};
    if rest == {} {
      LeqTotal(x, x);
      assert names == {x} && Least(x, names);
    } else {
      LeastExists(rest);
      var a :| Least(a, rest);
      LeqTotal(a, x);
      if Leq(a, x) {
        assert Least(a, names);
      } else {
        forall b | b in names ensures Leq(x, b) {
          if b == x { LeqTotal(x, x); } else { LeqTransitive(x, a, b); }
        }
        assert Least(x, names);
      }
    }
  }

  function FirstName(names: set<string>): (a: string)
    requires names != {}
    ensures Least(a, names)
  {
    LeastExists(names);
    LeastUnique(names);
    var a :| Least(a, names);
    a
  }

  lemma LeastUnique(names: set<string>)
    ensures forall a, b :: Least(a, names) && Least(b, names) ==> a == b
  {
    forall a, b | Least(a, names) && Least(b, names) ensures a == b {
      LeqAntisymmetric(a, b);
    }
  }

  predicate Sorted(s: seq<string>) {
    forall i, j :: 0 <= i < j < |s| ==> Leq(s[i], s[j]) && s[i] != s[j]
  }

  /** Every name once, in order. */
  function InOrder(names: set<string>): (s: seq<string>)
    ensures Sorted(s) && |s| == |names| && forall n :: n in s <==> n in names
    decreases |names|
  {
    if names == {} then []
    else
      var a := FirstName(names);
      var rest := InOrder(names - {a});
      assert forall j :: 0 <= j < |rest| ==> rest[j] in names - {a};
      [a] + rest
  }
}
