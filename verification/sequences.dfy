/** Ends of sequences, shared by the bounded lists and tables, and what is left
    of a sequence when elements are dropped. */
module Sequences {

  function Take<T>(s: seq<T>, n: nat): seq<T> {
    if |s| <= n then s else s[..n]
  }

  function Last<T>(s: seq<T>, n: nat): seq<T> {
    if |s| <= n then s else s[|s| - n..]
  }

  lemma TakeMore<T>(s: seq<T>, x: T, n: nat)
    ensures Take(s + [x], n) == if |Take(s, n)| < n then Take(s, n) + [x] else Take(s, n)
  {
  }

  lemma Associative<T>(a: seq<T>, b: seq<T>, c: seq<T>)
    ensures a + b + c == a + (b + c)
  {
  }

  lemma LastOfConcat<T>(older: seq<T>, kept: seq<T>, n: nat)
    requires |kept| >= n
    ensures Last(older + kept, n) == Last(kept, n)
  {
  }

  // ---- Subsequences ----

  /** `a` is `b` with some elements left out, in the same order. */
  predicate Within<T(==)>(a: seq<T>, b: seq<T>) {
    a == [] || (b != [] && (Within(a, b[1..]) || (a[0] == b[0] && Within(a[1..], b[1..]))))
  }

  lemma {:induction false} WithinItself<T>(a: seq<T>)
    ensures Within(a, a)
  {
    if a != [] {
      WithinItself(a[1..]);
    }
  }

  lemma {:induction false} WithinLater<T>(a: seq<T>, skipped: seq<T>, b: seq<T>)
    requires Within(a, b)
    ensures Within(a, skipped + b)
  {
    if skipped == [] {
      assert skipped + b == b;
    } else {
      WithinLater(a, skipped[1..], b);
      assert (skipped + b)[1..] == skipped[1..] + b;
    }
  }

  lemma {:induction false} WithinConcat<T>(a: seq<T>, b: seq<T>, c: seq<T>, d: seq<T>)
    requires Within(a, b) && Within(c, d)
    ensures Within(a + c, b + d)
    decreases |b|
  {
    if a == [] {
      WithinLater(c, b, d);
      assert a + c == c;
    } else if Within(a, b[1..]) {
      WithinConcat(a, b[1..], c, d);
      assert (b + d)[1..] == b[1..] + d;
    } else {
      WithinConcat(a[1..], b[1..], c, d);
      assert (b + d)[1..] == b[1..] + d && (a + c)[1..] == a[1..] + c;
    }
  }

  lemma {:induction false} WithinWithin<T>(a: seq<T>, b: seq<T>, c: seq<T>)
    requires Within(a, b) && Within(b, c)
    ensures Within(a, c)
    decreases |c|
  {
    if a != [] {
      if Within(b, c[1..]) {
        WithinWithin(a, b, c[1..]);
      } else if Within(a, b[1..]) {
        WithinWithin(a, b[1..], c[1..]);
      } else {
        WithinWithin(a[1..], b[1..], c[1..]);
      }
    }
  }

  lemma PrefixWithin<T>(a: seq<T>, n: nat, b: seq<T>)
    requires n <= |a| && Within(a, b)
    ensures Within(a[..n], b)
  {
    var none: seq<T> := [];
    WithinItself(a[..n]);
    WithinConcat(a[..n], a[..n], none, a[n..]);
    assert a[..n] + none == a[..n] && a[..n] + a[n..] == a;
    WithinWithin(a[..n], a, b);
  }
}
