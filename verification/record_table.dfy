/** Bounded tables of timestamped records, as kept by the failure nudge for
    episodes and for event ids: expiry and eviction of the oldest records. */
module RecordTable {
  import opened Basics
  import opened Sequences

  /** A SHA-256 digest read as a number. For digests of 64 lower-case hex
      digits the numeric order is the lexicographic order of the strings. */
  type Digest = nat

  datatype Record<+D> = Record(id: Digest, stamp: real, data: D)

  predicate DistinctIds<D(!new)>(rs: seq<Record<D>>) {
    forall i, j :: 0 <= i < j < |rs| ==> rs[i].id != rs[j].id
  }

  function Ids<D(!new)>(rs: seq<Record<D>>): set<Digest> {
    set i | 0 <= i < |rs| :: rs[i].id
  }

  /** The records that satisfy `keep`, in their original order. */
  function Filter<D(!new)>(rs: seq<Record<D>>, keep: Record<D> -> bool): (kept: seq<Record<D>>)
    ensures forall r :: r in kept <==> r in rs && keep(r)
    ensures |kept| <= |rs|
  {
    if rs == [] then []
    else if keep(rs[0]) then [rs[0]] + Filter(rs[1..], keep)
    else Filter(rs[1..], keep)
  }

  lemma {:induction false} FilterConcat<D(!new)>(a: seq<Record<D>>, b: seq<Record<D>>, keep: Record<D> -> bool)
    ensures Filter(a + b, keep) == Filter(a, keep) + Filter(b, keep)
  {
    if a == [] {
      assert a + b == b;
    } else {
      FilterConcat(a[1..], b, keep);
      assert (a + b)[1..] == a[1..] + b && (a + b)[0] == a[0];
      Associative([a[0]], Filter(a[1..], keep), Filter(b, keep));
    }
  }

  lemma {:induction false} FilterDistinct<D(!new)>(rs: seq<Record<D>>, keep: Record<D> -> bool)
    requires DistinctIds(rs)
    ensures DistinctIds(Filter(rs, keep))
  {
    if rs != [] {
      FilterDistinct(rs[1..], keep);
      forall r | r in Filter(rs[1..], keep)
        ensures r.id != rs[0].id
      {
        var k :| 0 <= k < |rs[1..]| && rs[1..][k] == r;
        assert rs[k + 1] == r;
      }
    }
  }

  lemma {:induction false} FilterAll<D(!new)>(rs: seq<Record<D>>, keep: Record<D> -> bool)
    ensures (forall r :: r in rs ==> keep(r)) <==> Filter(rs, keep) == rs
    ensures (forall r :: r in rs ==> keep(r)) <==> |Filter(rs, keep)| == |rs|
  {
    if rs != [] {
      FilterAll(rs[1..], keep);
      assert rs == [rs[0]] + rs[1..];
    }
  }

  lemma {:induction false} FilterCommutes<D(!new)>(rs: seq<Record<D>>, p: Record<D> -> bool, q: Record<D> -> bool)
    ensures |Filter(Filter(rs, p), q)| <= |Filter(rs, q)|
  {
    if rs != [] {
      FilterCommutes(rs[1..], p, q);
      var rest := Filter(rs[1..], p);
      if p(rs[0]) {
        assert ([rs[0]] + rest)[1..] == rest;
      }
    }
  }

  lemma {:induction false} FilterSame<D(!new)>(rs: seq<Record<D>>, p: Record<D> -> bool, q: Record<D> -> bool)
    requires forall r :: r in rs ==> p(r) == q(r)
    ensures Filter(rs, p) == Filter(rs, q)
  {
    if rs != [] {
      FilterSame(rs[1..], p, q);
    }
  }

  lemma {:induction false} IdCount<D(!new)>(rs: seq<Record<D>>)
    requires DistinctIds(rs)
    ensures |Ids(rs)| == |rs|
  {
    if rs != [] {
      IdCount(rs[1..]);
      assert Ids(rs) == {rs[0].id} + Ids(rs[1..]) by {
        forall d | d in Ids(rs) ensures d in {rs[0].id} + Ids(rs[1..]) {
          var i :| 0 <= i < |rs| && rs[i].id == d;
          if i > 0 {
            assert rs[1..][i - 1].id == d;
          }
        }
      }
      assert rs[0].id !in Ids(rs[1..]);
    } else {
      assert Ids(rs) == {};
    }
  }

  /** The position of the record with this id, as a first-match scan finds it. */
  function Find<D(!new)>(rs: seq<Record<D>>, id: Digest): (at: Option<nat>)
    ensures at.Some? ==> at.value < |rs| && rs[at.value].id == id
    ensures at.None? <==> id !in Ids(rs)
  {
    if rs == [] then None
    else if rs[0].id == id then Some(0)
    else
      var rest := Find(rs[1..], id);
      assert id in Ids(rs) ==> id in Ids(rs[1..]) by {
        if id in Ids(rs) {
          var i :| 0 <= i < |rs| && rs[i].id == id;
          assert rs[1..][i - 1].id == id;
        }
      }
      if rest.None? then None else Some(rest.value + 1)
  }

  /** The eviction order: by stamp, ties broken by id. */
  predicate Older<D(!new)>(a: Record<D>, b: Record<D>) {
    a.stamp < b.stamp || (a.stamp == b.stamp && a.id < b.id)
  }

  function Insert<D(!new)>(r: Record<D>, rs: seq<Record<D>>): seq<Record<D>> {
    if rs != [] && Older(rs[0], r) then [rs[0]] + Insert(r, rs[1..]) else [r] + rs
  }

  function SortByAge<D(!new)>(rs: seq<Record<D>>): seq<Record<D>> {
    if rs == [] then [] else Insert(rs[0], SortByAge(rs[1..]))
  }

  ghost predicate Sorted<D(!new)>(rs: seq<Record<D>>) {
    forall i, j :: 0 <= i < j < |rs| ==> !Older(rs[j], rs[i])
  }

  lemma SortedCons<D(!new)>(first: Record<D>, rest: seq<Record<D>>)
    requires Sorted(rest)
    requires forall k :: 0 <= k < |rest| ==> !Older(rest[k], first)
    ensures Sorted([first] + rest)
  {
    var out := [first] + rest;
    forall i, j | 0 <= i < j < |out|
      ensures !Older(out[j], out[i])
    {
      assert out[j] == rest[j - 1];
      if i > 0 {
        assert out[i] == rest[i - 1];
      }
    }
  }

  lemma {:induction false} InsertHolds<D(!new)>(r: Record<D>, rs: seq<Record<D>>)
    ensures multiset(Insert(r, rs)) == multiset(rs) + multiset{r}
  {
    if rs != [] && Older(rs[0], r) {
      InsertHolds(r, rs[1..]);
      assert rs == [rs[0]] + rs[1..];
    }
  }

  lemma {:induction false} InsertSorts<D(!new)>(r: Record<D>, rs: seq<Record<D>>)
    requires Sorted(rs)
    ensures Sorted(Insert(r, rs))
  {
    if rs != [] && Older(rs[0], r) {
      var rest := Insert(r, rs[1..]);
      InsertSorts(r, rs[1..]);
      InsertHolds(r, rs[1..]);
      forall k | 0 <= k < |rest|
        ensures !Older(rest[k], rs[0])
      {
        assert rest[k] in multiset(rest);
        if rest[k] != r {
          var i :| 0 <= i < |rs[1..]| && rs[1..][i] == rest[k];
          assert rs[1..][i] == rs[i + 1];
        }
      }
      SortedCons(rs[0], rest);
    } else {
      forall k | 0 <= k < |rs|
        ensures !Older(rs[k], r)
      {
        assert !Older(rs[0], r);
      }
      SortedCons(r, rs);
    }
  }

  lemma {:induction false} SortByAgeSorts<D(!new)>(rs: seq<Record<D>>)
    ensures Sorted(SortByAge(rs))
    ensures multiset(SortByAge(rs)) == multiset(rs)
    ensures |SortByAge(rs)| == |rs|
  {
    if rs != [] {
      SortByAgeSorts(rs[1..]);
      InsertSorts(rs[0], SortByAge(rs[1..]));
      InsertHolds(rs[0], SortByAge(rs[1..]));
      assert rs == [rs[0]] + rs[1..];
    }
    assert |multiset(SortByAge(rs))| == |multiset(rs)|;
  }

  /** Drop the oldest records until at most `cap` are left: sort by age, take
      the ids of the surplus, rebuild the list without them. */
  function EvictOldest<D(!new)>(rs: seq<Record<D>>, cap: nat): (kept: seq<Record<D>>)
    ensures forall r :: r in kept ==> r in rs
    ensures |rs| <= cap ==> kept == rs
  {
    if |rs| <= cap then rs
    else
      SortByAgeSorts(rs);
      var surplus := Ids(SortByAge(rs)[..|rs| - cap]);
      Filter(rs, (r: Record<D>) => r.id !in surplus)
  }

  lemma SortedDistinct<D(!new)>(rs: seq<Record<D>>)
    requires DistinctIds(rs)
    ensures DistinctIds(SortByAge(rs))
  {
    var out := SortByAge(rs);
    SortByAgeSorts(rs);
    forall i, j | 0 <= i < j < |out|
      ensures out[i].id != out[j].id
    {
      if out[i].id == out[j].id {
        MemberTwice(out, i, j);
        assert out[i] in multiset(rs) && out[j] in multiset(rs);
        assert out[i] == out[j];
        assert multiset(rs)[out[i]] >= 2;
        AtMostOnce(rs, out[i]);
      }
    }
  }

  lemma MemberTwice<D(!new)>(rs: seq<Record<D>>, i: nat, j: nat)
    requires i < j < |rs|
    ensures rs[i] == rs[j] ==> multiset(rs)[rs[i]] >= 2
  {
    assert rs == rs[..j] + rs[j..];
    assert rs[i] == rs[..j][i];
    assert rs[j] == rs[j..][0];
    assert rs[i] in rs[..j] && rs[j] in rs[j..];
  }

  lemma {:induction false} AtMostOnce<D(!new)>(rs: seq<Record<D>>, r: Record<D>)
    requires DistinctIds(rs)
    ensures multiset(rs)[r] <= 1
  {
    if rs != [] {
      AtMostOnce(rs[1..], r);
      assert rs == [rs[0]] + rs[1..];
      forall k | 0 <= k < |rs[1..]| ensures rs[1..][k] != rs[0] {
        assert rs[1..][k] == rs[k + 1];
      }
    }
  }

  /** Eviction keeps exactly `cap` records, every one of them younger than
      every evicted record, and keeps them in their original order. */
  lemma EvictOldestKeepsYoungest<D(!new)>(rs: seq<Record<D>>, cap: nat)
    requires DistinctIds(rs)
    ensures var kept := EvictOldest(rs, cap);
      && |kept| == Min(|rs|, cap)
      && DistinctIds(kept)
      && (forall r, x :: r in kept && x in rs && x !in kept ==> Older(x, r))
      && kept == Filter(rs, (r: Record<D>) => r in kept)
  {
    var kept := EvictOldest(rs, cap);
    FilterAll(rs, (r: Record<D>) => r in rs);
    if |rs| <= cap {
    } else {
      var out := SortByAge(rs);
      var n := |rs| - cap;
      SortByAgeSorts(rs);
      SortedDistinct(rs);
      var surplus := Ids(out[..n]);
      IdCount(out[..n]);
      IdCount(rs);
      FilterDistinct(rs, (r: Record<D>) => r.id !in surplus);
      IdCount(kept);
      assert surplus <= Ids(rs) by { SurplusWithin(rs, n); }
      assert Ids(kept) == Ids(rs) - surplus by { KeptIds(rs, kept, surplus); }
      FilterSame(rs, (r: Record<D>) => r.id !in surplus, (r: Record<D>) => r in kept);
      forall r, x | r in kept && x in rs && x !in kept
        ensures Older(x, r)
      {
        assert x.id in surplus;
        EvictedOlder(rs, n, x, r);
      }
    }
  }

  lemma SurplusWithin<D(!new)>(rs: seq<Record<D>>, n: nat)
    requires n <= |SortByAge(rs)|
    ensures Ids(SortByAge(rs)[..n]) <= Ids(rs)
  {
    var out := SortByAge(rs);
    SortByAgeSorts(rs);
    forall d | d in Ids(out[..n]) ensures d in Ids(rs) {
      var i :| 0 <= i < n && out[..n][i].id == d;
      assert out[i] in multiset(rs);
      var k :| 0 <= k < |rs| && rs[k] == out[i];
    }
  }

  lemma KeptIds<D(!new)>(rs: seq<Record<D>>, kept: seq<Record<D>>, surplus: set<Digest>)
    requires forall r :: r in kept <==> r in rs && r.id !in surplus
    ensures Ids(kept) == Ids(rs) - surplus
  {
    forall d | d in Ids(kept) ensures d in Ids(rs) - surplus {
      var i :| 0 <= i < |kept| && kept[i].id == d;
      assert kept[i] in rs;
    }
    forall d | d in Ids(rs) - surplus ensures d in Ids(kept) {
      var i :| 0 <= i < |rs| && rs[i].id == d;
      assert rs[i] in kept;
    }
  }

  lemma EvictedOlder<D(!new)>(rs: seq<Record<D>>, n: nat, x: Record<D>, r: Record<D>)
    requires DistinctIds(rs) && n <= |SortByAge(rs)| && x in rs && r in rs
    requires x.id in Ids(SortByAge(rs)[..n]) && r.id !in Ids(SortByAge(rs)[..n])
    ensures Older(x, r)
  {
    SortByAgeSorts(rs);
    SortedDistinct(rs);
    assert x in multiset(SortByAge(rs)) && r in multiset(SortByAge(rs));
    FirstAreOlder(SortByAge(rs), n, x, r);
  }

  lemma FirstAreOlder<D(!new)>(out: seq<Record<D>>, n: nat, x: Record<D>, r: Record<D>)
    requires Sorted(out) && DistinctIds(out) && n <= |out| && x in out && r in out
    requires x.id in Ids(out[..n]) && r.id !in Ids(out[..n])
    ensures Older(x, r)
  {
    var k :| 0 <= k < n && out[..n][k].id == x.id;
    var i :| 0 <= i < |out| && out[i] == x;
    var j :| 0 <= j < |out| && out[j] == r;
    forall m | 0 <= m < n ensures out[m].id in Ids(out[..n]) {
      assert out[..n][m] == out[m];
    }
    assert out[..n][k] == out[k] && i == k;
    assert !Older(out[j], out[i]) && out[i].id != out[j].id;
  }
}
