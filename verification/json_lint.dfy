/** What the walk's reference says: its preorder are the routes into the value,
    and its lint are the findings at their frames. */
module JsonLint {
  import opened Basics
  import opened Sequences
  import opened JsonWalk

  // ---- The preorder are the routes into the value ----

  /** Positions of members and items, from the outside in. */
  type Route = seq<nat>

  function FrameAt(nt: Notation, f: Frame, route: Route): Option<Frame>
    decreases |route|
  {
    if route == [] then Some(f)
    else match f.value
      case Scalar(_) => None
      case Object(ms) =>
        if route[0] >= |ms| then None
        else
          var m := ms[route[0]];
          FrameAt(nt, Frame(m.value, nt.childPath(f.path, m.key), f.depth + 1), route[1..])
      case Array(items) =>
        if route[0] >= |items| then None
        else FrameAt(nt, Frame(items[route[0]], nt.indexPath(f.path, route[0]), f.depth + 1), route[1..])
  }

  /** An outer value before what is inside it, and siblings in order. */
  predicate Ahead(a: Route, b: Route) {
    if b == [] then false
    else if a == [] then true
    else a[0] < b[0] || (a[0] == b[0] && Ahead(a[1..], b[1..]))
  }

  predicate Leads(nt: Notation, f: Frame, routes: seq<Route>, frames: seq<Frame>) {
    && |routes| == |frames|
    && (forall i :: 0 <= i < |routes| ==> FrameAt(nt, f, routes[i]) == Some(frames[i]))
    && (forall i, j :: 0 <= i < j < |routes| ==> Ahead(routes[i], routes[j]))
  }

  function Through(k: nat, routes: seq<Route>): (longer: seq<Route>)
    ensures |longer| == |routes| && forall i :: 0 <= i < |routes| ==> longer[i] == [k] + routes[i]
  {
    seq(|routes|, i requires 0 <= i < |routes| => [k] + routes[i])
  }

  lemma {:induction false} StepInto(nt: Notation, f: Frame, route: Route)
    requires route != []
    ensures FrameAt(nt, f, route)
            == if route[0] < |Children(nt, f)| then FrameAt(nt, Children(nt, f)[route[0]], route[1..]) else None
  {
  }

  lemma {:induction false} LeadsThrough(nt: Notation, f: Frame, k: nat, routes: seq<Route>, frames: seq<Frame>)
    requires k < |Children(nt, f)| && Leads(nt, Children(nt, f)[k], routes, frames)
    ensures Leads(nt, f, Through(k, routes), frames)
  {
    var longer := Through(k, routes);
    forall i | 0 <= i < |longer| ensures FrameAt(nt, f, longer[i]) == Some(frames[i]) {
      StepInto(nt, f, longer[i]);
      assert longer[i][1..] == routes[i];
    }
    forall i, j | 0 <= i < j < |longer| ensures Ahead(longer[i], longer[j]) {
      assert longer[i][1..] == routes[i] && longer[j][1..] == routes[j];
    }
  }

  lemma {:induction false} LeadsConcat(nt: Notation, f: Frame, a: seq<Route>, fs: seq<Frame>, b: seq<Route>, gs: seq<Frame>)
    requires Leads(nt, f, a, fs) && Leads(nt, f, b, gs)
    requires forall r, q :: r in a && q in b ==> Ahead(r, q)
    ensures Leads(nt, f, a + b, fs + gs)
  {
    var all := a + b;
    forall i, j | 0 <= i < j < |all| ensures Ahead(all[i], all[j]) {
      if i < |a| && j >= |a| {
        assert all[i] in a && all[j] in b;
      }
    }
  }

  /** The preorder visits every route into the value once, in order. */
  lemma {:induction false} PreorderIsRoutes(nt: Notation, f: Frame) returns (routes: seq<Route>)
    ensures Leads(nt, f, routes, Preorder(nt, f, None))
    ensures forall r :: r in routes <==> FrameAt(nt, f, r).Some?
    decreases f.value, Width(f.value) + 1
  {
    var kids := Children(nt, f);
    var inner := RoutesFrom(nt, f, 0);
    var none: Route := [];
    assert kids[0..] == kids;
    PreorderOf(nt, f, None);
    LeadsConcat(nt, f, [none], [f], inner, PreorderAll(nt, kids, None));
    routes := [none] + inner;
    forall r ensures r in routes <==> FrameAt(nt, f, r).Some? {
      if r != [] {
        StepInto(nt, f, r);
      }
    }
  }

  lemma {:induction false} RoutesFrom(nt: Notation, f: Frame, k: nat) returns (routes: seq<Route>)
    requires k <= |Children(nt, f)|
    ensures Leads(nt, f, routes, PreorderAll(nt, Children(nt, f)[k..], None))
    ensures forall r :: r in routes <==> r != [] && r[0] >= k && FrameAt(nt, f, r).Some?
    decreases f.value, Width(f.value) - k
  {
    var kids := Children(nt, f);
    routes := [];
    if k < |kids| {
      var one := PreorderIsRoutes(nt, kids[k]);
      var more := RoutesFrom(nt, f, k + 1);
      assert kids[k..][1..] == kids[k + 1..] && kids[k..][0] == kids[k];
      PreorderAllCons(nt, kids[k..], None);
      LeadsThrough(nt, f, k, one, Preorder(nt, kids[k], None));
      LeadsConcat(nt, f, Through(k, one), Preorder(nt, kids[k], None), more, PreorderAll(nt, kids[k + 1..], None));
      routes := Through(k, one) + more;
      forall r ensures r in routes <==> r != [] && r[0] >= k && FrameAt(nt, f, r).Some? {
        ThroughFirst(nt, f, k, one, r);
      }
    } else {
      forall r: Route | r != [] && r[0] >= k ensures FrameAt(nt, f, r).None? {
        StepInto(nt, f, r);
      }
    }
  }

  lemma {:induction false} ThroughFirst(nt: Notation, f: Frame, k: nat, one: seq<Route>, r: Route)
    requires k < |Children(nt, f)|
    requires forall q :: q in one <==> FrameAt(nt, Children(nt, f)[k], q).Some?
    ensures r in Through(k, one) <==> r != [] && r[0] == k && FrameAt(nt, f, r).Some?
  {
    if r != [] && r[0] == k {
      StepInto(nt, f, r);
      if r[1..] in one {
        var i :| 0 <= i < |one| && one[i] == r[1..];
        assert Through(k, one)[i] == r;
      }
      if r in Through(k, one) {
        var i :| 0 <= i < |one| && Through(k, one)[i] == r;
        assert r[1..] == one[i];
      }
    }
  }

  // ---- The lint of one frame ----

  /** The first difference, or the end of the first text. */
  predicate Differ(a: string, b: string, n: nat)
    requires n < |b| && n <= |a|
  {
    a[..n] == b[..n] && (n == |a| || a[n] < b[n])
  }

  /** The order of two texts: the first difference decides, and a prefix comes first. */
  predicate Precedes(a: string, b: string) {
    exists n: nat :: n < |b| && n <= |a| && Differ(a, b, n)
  }

  lemma {:induction false} PrecedesHead(a: string, b: string)
    requires a != "" && b != "" && a[0] != b[0]
    ensures Precedes(a, b) <==> a[0] < b[0]
  {
    assert Differ(a, b, 0) <==> a[0] < b[0];
    forall n: nat | 0 < n < |b| && n <= |a| ensures !Differ(a, b, n) {
      assert a[..n][0] == a[0] && b[..n][0] == b[0];
    }
  }

  lemma {:induction false} DifferTail(a: string, b: string, n: nat)
    requires a != "" && b != "" && a[0] == b[0] && n < |b| - 1 && n < |a|
    ensures Differ(a, b, n + 1) <==> Differ(a[1..], b[1..], n)
  {
    var m := n + 1;
    assert a[..m] == [a[0]] + a[1..][..n] && b[..m] == [b[0]] + b[1..][..n];
  }

  lemma {:induction false} PrecedesTail(a: string, b: string)
    requires a != "" && b != "" && a[0] == b[0]
    ensures Precedes(a, b) <==> Precedes(a[1..], b[1..])
  {
    if Precedes(a[1..], b[1..]) {
      var n :| 0 <= n < |b[1..]| && n <= |a[1..]| && Differ(a[1..], b[1..], n);
      DifferTail(a, b, n);
      assert Differ(a, b, n + 1);
    }
    if Precedes(a, b) {
      var n :| 0 <= n < |b| && n <= |a| && Differ(a, b, n);
      DifferTail(a, b, n - 1);
      assert Differ(a[1..], b[1..], n - 1);
    }
  }

  lemma {:induction false} LessIsPrecedes(a: string, b: string)
    ensures Less(a, b) <==> Precedes(a, b)
  {
    if b != "" {
      if a == "" {
        assert Differ(a, b, 0);
      } else if a[0] == b[0] {
        LessIsPrecedes(a[1..], b[1..]);
        PrecedesTail(a, b);
      } else {
        PrecedesHead(a, b);
      }
    }
  }

  predicate Rising(ks: seq<nat>) {
    forall i, j :: 0 <= i < j < |ks| ==> ks[i] < ks[j]
  }

  /** The warnings are those of the members at `ks`, in order. */
  predicate WarnsOf(nt: Notation, path: string, ms: seq<Member>, ks: seq<nat>, found: seq<Warning>) {
    && |found| == |ks| && Rising(ks)
    && forall i :: 0 <= i < |ks| ==> ks[i] < |ms| && found[i] == DynamicKey(nt.childPath(path, ms[ks[i]].key))
  }

  lemma {:induction false} WarnsOfMore(nt: Notation, path: string, ms: seq<Member>, n: nat,
                                       ks: seq<nat>, found: seq<Warning>)
    requires n < |ms| && WarnsOf(nt, path, ms[..n], ks, found)
    ensures WarnsOf(nt, path, ms, ks, found)
    ensures WarnsOf(nt, path, ms, ks + [n], found + [DynamicKey(nt.childPath(path, ms[n].key))])
  {
  }

  lemma {:induction false} DynamicKeysAre(nt: Notation, path: string, ms: seq<Member>) returns (ks: seq<nat>)
    ensures WarnsOf(nt, path, ms, ks, DynamicKeys(nt, path, ms))
    ensures forall k: nat :: k in ks <==> k < |ms| && nt.dynamic(ms[k].key)
  {
    ks := [];
    if ms != [] {
      var n := |ms| - 1;
      var before := DynamicKeysAre(nt, path, ms[..n]);
      WarnsOfMore(nt, path, ms, n, before, DynamicKeys(nt, path, ms[..n]));
      ks := if nt.dynamic(ms[n].key) then before + [n] else before;
      forall k: nat ensures k in ks <==> k < |ms| && nt.dynamic(ms[k].key) {
        assert k < n ==> ms[..n][k] == ms[k];
      }
    }
  }

  predicate Disordered(ms: seq<Member>) {
    exists k :: 0 < k < |ms| && Precedes(ms[k].key, ms[k - 1].key)
  }

  lemma {:induction false} SortedOrNot(ms: seq<Member>)
    ensures KeysSorted(ms) <==> !Disordered(ms)
  {
    forall k | 0 < k < |ms| ensures Less(ms[k].key, ms[k - 1].key) <==> Precedes(ms[k].key, ms[k - 1].key) {
      LessIsPrecedes(ms[k].key, ms[k - 1].key);
    }
  }

  /** A container at the depth limit or below it, unless it is empty. */
  predicate TooDeep(f: Frame, maxDepth: int) {
    f.depth >= maxDepth && !f.value.Scalar? && (f.value.Object? ==> f.value.members != [])
    && (f.value.Array? ==> f.value.items != [])
  }

  /** What one object reports: its dynamic keys in order, and then its disorder. */
  lemma {:induction false} ObjectReports(nt: Notation, f: Frame, maxDepth: int) returns (ks: seq<nat>)
    requires f.value.Object?
    ensures forall k: nat :: k in ks <==> k < |f.value.members| && nt.dynamic(f.value.members[k].key)
    ensures var found, n := LintOf(nt, f, maxDepth), |ks|;
      if TooDeep(f, maxDepth) then found == []
      else if Disordered(f.value.members) then
        |found| == n + 1 && found[n] == KeyOrder(f.path) && WarnsOf(nt, f.path, f.value.members, ks, found[..n])
      else WarnsOf(nt, f.path, f.value.members, ks, found)
  {
    var ms := f.value.members;
    ks := DynamicKeysAre(nt, f.path, ms);
    SortedOrNot(ms);
    var keys := DynamicKeys(nt, f.path, ms);
    if KeysSorted(ms) {
      assert keys + [] == keys;
    } else {
      assert (keys + [KeyOrder(f.path)])[..|keys|] == keys;
    }
  }

  /** What one list reports: tools whose names are out of order. */
  lemma {:induction false} ArrayReports(nt: Notation, f: Frame, maxDepth: int)
    requires f.value.Array?
    ensures var items := f.value.items;
      LintOf(nt, f, maxDepth)
      == if !TooDeep(f, maxDepth) && (exists q: string :: f.path == q + ".tools")
            && (forall k :: 0 <= k < |items| ==> IsNamed(items[k]))
            && (exists k :: 0 < k < |items| && Precedes(NameText(nt, items[k]), NameText(nt, items[k - 1])))
         then [ToolOrder(f.path)] else []
  {
    var items := f.value.items;
    if EndsWith(f.path, ".tools") {
      assert f.path == f.path[..|f.path| - |".tools"|] + ".tools";
    }
    if forall k :: 0 <= k < |items| ==> IsNamed(items[k]) {
      forall k | 0 < k < |items|
        ensures Less(NameText(nt, items[k]), NameText(nt, items[k - 1]))
                <==> Precedes(NameText(nt, items[k]), NameText(nt, items[k - 1]))
      {
        LessIsPrecedes(NameText(nt, items[k]), NameText(nt, items[k - 1]));
      }
    }
  }

  predicate Reports(nt: Notation, f: Frame, maxDepth: int, w: Warning) {
    w in LintOf(nt, f, maxDepth)
  }

  /** The lint of many frames is what each of them reports. */
  lemma {:induction false} LintIsOfEach(nt: Notation, fs: seq<Frame>, maxDepth: int, w: Warning)
    ensures w in Lint(nt, fs, maxDepth) <==> exists f :: f in fs && Reports(nt, f, maxDepth, w)
  {
    if fs != [] {
      var n := |fs| - 1;
      var before, last := fs[..n], fs[n];
      assert fs == before + [last];
      LintIsOfEach(nt, before, maxDepth, w);
      assert w in Lint(nt, fs, maxDepth) <==> w in Lint(nt, before, maxDepth) || Reports(nt, last, maxDepth, w);
    }
  }
}
