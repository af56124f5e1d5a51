// A query written with "?" placeholders in the dialect's own syntax
// (internal/store/dialect.go). A query is a string of bytes, and `itoa` stands
// for strconv.Itoa.
module Rebind {
  import opened Core

  datatype Dialect = SQLite | Postgres

  /** How many of the first i bytes are quotes. */
  function Quotes(q: string, i: nat): nat
    requires i <= |q|
  {
    if i == 0 then 0 else Quotes(q, i - 1) + if q[i - 1] == '\'' then 1 else 0
  }

  /** The byte at i stands inside a literal: after an odd number of quotes. */
  predicate Quoted(q: string, i: nat)
    requires i <= |q|
  {
    Quotes(q, i) % 2 == 1
  }

  predicate IsMark(q: string, i: nat)
    requires i < |q|
  {
    q[i] == '?' && !Quoted(q, i)
  }

  /** How many placeholders the first i bytes hold. */
  function Marks(q: string, i: nat): nat
    requires i <= |q|
  {
    if i == 0 then 0 else Marks(q, i - 1) + if IsMark(q, i - 1) then 1 else 0
  }

  /** What stands for the byte at i: a placeholder's own number, counted from
      one, or the byte itself. */
  function Piece(q: string, i: nat, itoa: nat -> string): string
    requires i < |q|
  {
    if IsMark(q, i) then "$" + itoa(Marks(q, i) + 1) else [q[i]]
  }

  /** The pieces of the first i bytes, in order. */
  function Numbered(q: string, i: nat, itoa: nat -> string): string
    requires i <= |q|
  {
    if i == 0 then "" else Numbered(q, i - 1, itoa) + Piece(q, i - 1, itoa)
  }

  method Rebind(d: Dialect, query: string, itoa: nat -> string) returns (r: string)
    ensures r == if d.Postgres? then Numbered(query, |query|, itoa) else query
  {
    if d != Postgres {
      return query;
    }
    var b, inLiteral, n := "", false, 0;
    for i := 0 to |query|
      invariant b == Numbered(query, i, itoa)
      invariant inLiteral == Quoted(query, i) && n == Marks(query, i)
    {
      var c := query[i];
      if c == '\'' {
        inLiteral := !inLiteral;
        b := b + [c];
      } else if c == '?' && !inLiteral {
        n := n + 1;
        b := b + ("$" + itoa(n));
      } else {
        b := b + [c];
      }
    }
    r := b;
  }

  /** Reads numbered placeholders back. It expects each number in its turn, so
      a digit behind a placeholder is never taken for part of it. */
  function Unbind(s: string, inLiteral: bool, n: nat, itoa: nat -> string): Option<string> {
    if s == "" then Some("")
    else if s[0] == '$' && !inLiteral then
      var number := itoa(n + 1);
      if |number| < |s| && s[1..|number| + 1] == number then
        Prepend('?', Unbind(s[|number| + 1..], inLiteral, n + 1, itoa))
      else None
    else Prepend(s[0], Unbind(s[1..], inLiteral != (s[0] == '\''), n, itoa))
  }

  function Prepend(c: char, rest: Option<string>): Option<string> {
    if rest.None? then None else Some([c] + rest.value)
  }

  /** No dollar sign outside a literal, from the byte at i on. */
  predicate DollarFree(q: string, i: nat)
    requires i <= |q|
  {
    forall k :: i <= k < |q| ==> q[k] == '$' ==> Quoted(q, k)
  }

  /** The pieces from the byte at i on. */
  function Rest(q: string, i: nat, itoa: nat -> string): string
    requires i <= |q|
    decreases |q| - i
  {
    if i == |q| then "" else Piece(q, i, itoa) + Rest(q, i + 1, itoa)
  }

  lemma {:induction false} NumberedIsRest(q: string, i: nat, itoa: nat -> string)
    requires i <= |q|
    ensures Numbered(q, |q|, itoa) == Numbered(q, i, itoa) + Rest(q, i, itoa)
    decreases |q| - i
  {
    if i < |q| {
      NumberedIsRest(q, i + 1, itoa);
      Regrouped(Numbered(q, i, itoa), Piece(q, i, itoa), Rest(q, i + 1, itoa));
    }
  }

  lemma MarkIsRead(number: string, rest: string, n: nat, itoa: nat -> string, q: string)
    requires number == itoa(n + 1) && Unbind(rest, false, n + 1, itoa) == Some(q)
    ensures Unbind("$" + number + rest, false, n, itoa) == Some("?" + q)
  {
    var s := "$" + number + rest;
    assert s[0] == '$' && s[1..|number| + 1] == number && s[|number| + 1..] == rest;
  }

  lemma ByteIsRead(c: char, rest: string, inLiteral: bool, n: nat, itoa: nat -> string, q: string)
    requires c == '$' ==> inLiteral
    requires Unbind(rest, inLiteral != (c == '\''), n, itoa) == Some(q)
    ensures Unbind([c] + rest, inLiteral, n, itoa) == Some([c] + q)
  {
    assert ([c] + rest)[1..] == rest;
  }

  lemma {:induction false} RestIsRead(q: string, i: nat, itoa: nat -> string)
    requires i <= |q| && DollarFree(q, i)
    ensures Unbind(Rest(q, i, itoa), Quoted(q, i), Marks(q, i), itoa) == Some(q[i..])
    decreases |q| - i
  {
    if i < |q| {
      RestIsRead(q, i + 1, itoa);
      var rest := Rest(q, i + 1, itoa);
      assert [q[i]] + q[i + 1..] == q[i..];
      assert Quoted(q, i + 1) == (Quoted(q, i) != (q[i] == '\''));
      if IsMark(q, i) {
        MarkIsRead(itoa(Marks(q, i) + 1), rest, Marks(q, i), itoa, q[i + 1..]);
      } else {
        ByteIsRead(q[i], rest, Quoted(q, i), Marks(q, i), itoa, q[i + 1..]);
      }
    } else {
      assert q[i..] == "";
    }
  }

  /** A text that was read back never holds a bare dollar sign. */
  predicate Clean(q: string, inLiteral: bool) {
    q == "" || ((q[0] == '$' ==> inLiteral) && Clean(q[1..], inLiteral != (q[0] == '\'')))
  }

  lemma {:induction false} ReadsClean(s: string, inLiteral: bool, n: nat, itoa: nat -> string)
    ensures var q := Unbind(s, inLiteral, n, itoa); q.Some? ==> Clean(q.value, inLiteral)
    decreases |s|
  {
    if s != "" {
      if s[0] == '$' && !inLiteral {
        var number := itoa(n + 1);
        if |number| < |s| && s[1..|number| + 1] == number {
          ReadsClean(s[|number| + 1..], inLiteral, n + 1, itoa);
          var rest := Unbind(s[|number| + 1..], inLiteral, n + 1, itoa);
          if rest.Some? { assert ("?" + rest.value)[1..] == rest.value; }
        }
      } else {
        ReadsClean(s[1..], inLiteral != (s[0] == '\''), n, itoa);
        var rest := Unbind(s[1..], inLiteral != (s[0] == '\''), n, itoa);
        if rest.Some? { assert ([s[0]] + rest.value)[1..] == rest.value; }
      }
    }
  }

  lemma {:induction false} CleanIsDollarFree(q: string, i: nat)
    requires i <= |q| && Clean(q[i..], Quoted(q, i))
    ensures DollarFree(q, i)
    decreases |q| - i
  {
    if i < |q| {
      assert q[i..][1..] == q[i + 1..];
      CleanIsDollarFree(q, i + 1);
    }
  }

  lemma ReadingBackIsDollarFree(s: string, q: string, itoa: nat -> string)
    requires Unbind(s, false, 0, itoa) == Some(q)
    ensures DollarFree(q, 0)
  {
    ReadsClean(s, false, 0, itoa);
    assert q[0..] == q;
    CleanIsDollarFree(q, 0);
  }

  lemma WholeIsRest(q: string, i: nat, itoa: nat -> string)
    requires i == 0
    ensures Numbered(q, |q|, itoa) == Rest(q, i, itoa) && !Quoted(q, i) && Marks(q, i) == i && q[i..] == q
  {
    NumberedIsRest(q, i, itoa);
  }

  lemma DollarFreeIsRead(q: string, i: nat, itoa: nat -> string)
    requires i == 0 && DollarFree(q, i)
    ensures Unbind(Numbered(q, |q|, itoa), false, i, itoa) == Some(q)
  {
    WholeIsRest(q, i, itoa);
    RestIsRead(q, i, itoa);
  }

  /** Theorem: numbering loses nothing. The numbered query reads back as the
      query it was made from, exactly when no dollar sign stood outside a
      literal, where it could be taken for a placeholder. */
  lemma NumberingIsInvertible(q: string, itoa: nat -> string)
    ensures Unbind(Numbered(q, |q|, itoa), false, 0, itoa) == Some(q) <==> DollarFree(q, 0)
  {
    var s := Numbered(q, |q|, itoa);
    if DollarFree(q, 0) {
      DollarFreeIsRead(q, 0, itoa);
    } else if Unbind(s, false, 0, itoa) == Some(q) {
      ReadingBackIsDollarFree(s, q, itoa);
    }
  }
}
