/** The bounded stack walk that lints a JSON request. */
module JsonWalk {
  import opened Basics
  import opened Sequences

  datatype Json = Scalar(text: string) | Object(members: seq<Member>) | Array(items: seq<Json>)
  datatype Member = Member(key: string, value: Json)

  datatype Warning =
    | DynamicKey(path: string)
    | KeyOrder(path: string)
    | ToolOrder(path: string)
    | Truncated(visited: nat)

  /** What the walk takes from elsewhere: the pattern of dynamic keys, the path
      notation and Python's text form of a value. */
  datatype Notation = Notation(
    dynamic: string -> bool,
    childPath: (string, string) -> string,
    indexPath: (string, nat) -> string,
    text: Json -> string)

  datatype Limits = Limits(maxNodes: int, maxDepth: int, maxWarnings: int)

  /** A stack entry. */
  datatype Frame = Frame(value: Json, path: string, depth: nat)

  // ---- The recursive reading ----

  function MemberFrame(nt: Notation, f: Frame, m: Member): (kid: Frame)
    ensures kid.value < m
  {
    match m case Member(key, value) => Frame(value, nt.childPath(f.path, key), f.depth + 1)
  }

  function Children(nt: Notation, f: Frame): (kids: seq<Frame>)
    ensures |kids| == Width(f.value)
    ensures forall k :: 0 <= k < |kids| ==> kids[k].value < f.value
  {
    match f.value
    case Scalar(_) => []
    case Object(ms) =>
      seq(|ms|, k requires 0 <= k < |ms| => MemberFrame(nt, f, ms[k]))
    case Array(items) =>
      seq(|items|, k requires 0 <= k < |items| => Frame(items[k], nt.indexPath(f.path, k), f.depth + 1))
  }

  function Width(v: Json): nat {
    match v
    case Scalar(_) => 0
    case Object(ms) => |ms|
    case Array(items) => |items|
  }

  /** A non-empty container at the depth limit or below it is not entered. */
  predicate Cut(f: Frame, maxDepth: int) {
    f.depth >= maxDepth && Width(f.value) > 0
  }

  function Entered(nt: Notation, f: Frame, maxDepth: Option<int>): (kids: seq<Frame>)
    ensures forall k :: 0 <= k < |kids| ==> kids[k].value < f.value
  {
    if maxDepth.Some? && Cut(f, maxDepth.value) then [] else Children(nt, f)
  }

  function Flat<T>(ss: seq<seq<T>>): seq<T> {
    if ss == [] then [] else ss[0] + Flat(ss[1..])
  }

  /** The preorder of a value, cut at a depth if one is given. */
  function Preorder(nt: Notation, f: Frame, maxDepth: Option<int>): (r: seq<Frame>)
    ensures |r| >= 1
    decreases f.value
  {
    var kids := Entered(nt, f, maxDepth);
    [f] + Flat(seq(|kids|, k requires 0 <= k < |kids| => Preorder(nt, kids[k], maxDepth)))
  }

  function Mapped<A, B>(p: A -> B, s: seq<A>): (r: seq<B>)
    ensures |r| == |s| && forall k :: 0 <= k < |s| ==> r[k] == p(s[k])
  {
    seq(|s|, k requires 0 <= k < |s| => p(s[k]))
  }

  function Order(nt: Notation, maxDepth: Option<int>): Frame -> seq<Frame> {
    f => Preorder(nt, f, maxDepth)
  }

  function PreorderAll(nt: Notation, fs: seq<Frame>, maxDepth: Option<int>): seq<Frame> {
    Flat(Mapped(Order(nt, maxDepth), fs))
  }

  lemma PreorderOf(nt: Notation, f: Frame, maxDepth: Option<int>)
    ensures Preorder(nt, f, maxDepth) == [f] + PreorderAll(nt, Entered(nt, f, maxDepth), maxDepth)
  {
    var kids := Entered(nt, f, maxDepth);
    assert Mapped(Order(nt, maxDepth), kids)
        == seq(|kids|, k requires 0 <= k < |kids| => Preorder(nt, kids[k], maxDepth));
  }

  lemma {:induction false} FlatAppend<T>(ss: seq<seq<T>>, tt: seq<seq<T>>)
    ensures Flat(ss + tt) == Flat(ss) + Flat(tt)
  {
    if ss == [] {
      assert ss + tt == tt;
    } else {
      FlatAppend(ss[1..], tt);
      assert (ss + tt)[1..] == ss[1..] + tt && (ss + tt)[0] == ss[0];
      assert Flat(ss + tt) == ss[0] + (Flat(ss[1..]) + Flat(tt));
    }
  }

  lemma {:induction false} FlatCovers<T>(ss: seq<seq<T>>)
    requires forall k :: 0 <= k < |ss| ==> |ss[k]| >= 1
    ensures |Flat(ss)| >= |ss|
  {
    if ss != [] {
      FlatCovers(ss[1..]);
    }
  }

  lemma FlatMapAppend<A, B>(p: A -> seq<B>, fs: seq<A>, gs: seq<A>)
    ensures Flat(Mapped(p, fs + gs)) == Flat(Mapped(p, fs)) + Flat(Mapped(p, gs))
  {
    assert Mapped(p, fs + gs) == Mapped(p, fs) + Mapped(p, gs);
    FlatAppend(Mapped(p, fs), Mapped(p, gs));
  }

  lemma PreorderAllAppend(nt: Notation, fs: seq<Frame>, gs: seq<Frame>, maxDepth: Option<int>)
    ensures PreorderAll(nt, fs + gs, maxDepth) == PreorderAll(nt, fs, maxDepth) + PreorderAll(nt, gs, maxDepth)
  {
    FlatMapAppend(Order(nt, maxDepth), fs, gs);
  }

  lemma PreorderAllCons(nt: Notation, fs: seq<Frame>, maxDepth: Option<int>)
    requires fs != []
    ensures PreorderAll(nt, fs, maxDepth)
            == Preorder(nt, fs[0], maxDepth) + PreorderAll(nt, fs[1..], maxDepth)
  {
    var p := Order(nt, maxDepth);
    assert Mapped(p, fs)[1..] == Mapped(p, fs[1..]);
    assert Mapped(p, fs)[0] == Preorder(nt, fs[0], maxDepth);
  }

  // ---- The depth limit ----

  predicate HasCut(fs: seq<Frame>, maxDepth: int) {
    exists k :: 0 <= k < |fs| && Cut(fs[k], maxDepth)
  }

  lemma HasCutAppend(fs: seq<Frame>, gs: seq<Frame>, maxDepth: int)
    ensures HasCut(fs + gs, maxDepth) <==> HasCut(fs, maxDepth) || HasCut(gs, maxDepth)
  {
    if HasCut(fs, maxDepth) {
      var k :| 0 <= k < |fs| && Cut(fs[k], maxDepth);
      assert Cut((fs + gs)[k], maxDepth);
    }
    if HasCut(gs, maxDepth) {
      var k :| 0 <= k < |gs| && Cut(gs[k], maxDepth);
      assert Cut((fs + gs)[|fs| + k], maxDepth);
    }
  }

  /** Cutting at a depth removes nothing exactly when the whole value has no
      container to cut, and a value that has one shows one. */
  lemma {:induction false} CuttingShows(nt: Notation, f: Frame, maxDepth: int)
    ensures HasCut(Preorder(nt, f, None), maxDepth) <==> HasCut(Preorder(nt, f, Some(maxDepth)), maxDepth)
    ensures !HasCut(Preorder(nt, f, None), maxDepth) ==> Preorder(nt, f, None) == Preorder(nt, f, Some(maxDepth))
    decreases f.value, 0
  {
    PreorderOf(nt, f, None);
    PreorderOf(nt, f, Some(maxDepth));
    HasCutAppend([f], PreorderAll(nt, Entered(nt, f, None), None), maxDepth);
    HasCutAppend([f], PreorderAll(nt, Entered(nt, f, Some(maxDepth)), Some(maxDepth)), maxDepth);
    if Cut(f, maxDepth) {
      assert Cut([f][0], maxDepth);
    } else {
      var kids := Children(nt, f);
      forall k | 0 <= k < |kids|
        ensures HasCut(Preorder(nt, kids[k], None), maxDepth)
                <==> HasCut(Preorder(nt, kids[k], Some(maxDepth)), maxDepth)
        ensures !HasCut(Preorder(nt, kids[k], None), maxDepth)
                ==> Preorder(nt, kids[k], None) == Preorder(nt, kids[k], Some(maxDepth))
      {
        CuttingShows(nt, kids[k], maxDepth);
      }
      CuttingShowsAll(nt, kids, maxDepth);
    }
  }

  lemma {:induction false} CuttingShowsAll(nt: Notation, fs: seq<Frame>, maxDepth: int)
    requires forall k :: 0 <= k < |fs| ==>
      (HasCut(Preorder(nt, fs[k], None), maxDepth) <==> HasCut(Preorder(nt, fs[k], Some(maxDepth)), maxDepth))
    requires forall k :: 0 <= k < |fs| && !HasCut(Preorder(nt, fs[k], None), maxDepth) ==>
      Preorder(nt, fs[k], None) == Preorder(nt, fs[k], Some(maxDepth))
    ensures HasCut(PreorderAll(nt, fs, None), maxDepth) <==> HasCut(PreorderAll(nt, fs, Some(maxDepth)), maxDepth)
    ensures !HasCut(PreorderAll(nt, fs, None), maxDepth)
            ==> PreorderAll(nt, fs, None) == PreorderAll(nt, fs, Some(maxDepth))
  {
    if fs != [] {
      CuttingShowsAll(nt, fs[1..], maxDepth);
      PreorderAllCons(nt, fs, None);
      PreorderAllCons(nt, fs, Some(maxDepth));
      HasCutAppend(Preorder(nt, fs[0], None), PreorderAll(nt, fs[1..], None), maxDepth);
      HasCutAppend(Preorder(nt, fs[0], Some(maxDepth)), PreorderAll(nt, fs[1..], Some(maxDepth)), maxDepth);
    }
  }

  /** Cutting leaves nodes out and keeps the order of the others. */
  lemma {:induction false} CuttingDrops(nt: Notation, f: Frame, maxDepth: int)
    ensures Within(Preorder(nt, f, Some(maxDepth)), Preorder(nt, f, None))
    decreases f.value, 0
  {
    var kids, entered := Children(nt, f), Entered(nt, f, Some(maxDepth));
    PreorderOf(nt, f, None);
    PreorderOf(nt, f, Some(maxDepth));
    WithinItself([f]);
    if !Cut(f, maxDepth) {
      forall k | 0 <= k < |kids|
        ensures Within(Preorder(nt, kids[k], Some(maxDepth)), Preorder(nt, kids[k], None))
      {
        CuttingDrops(nt, kids[k], maxDepth);
      }
      CuttingDropsAll(nt, kids, maxDepth);
    }
    WithinConcat([f], [f], PreorderAll(nt, entered, Some(maxDepth)), PreorderAll(nt, kids, None));
  }

  lemma {:induction false} CuttingDropsAll(nt: Notation, fs: seq<Frame>, maxDepth: int)
    requires forall k :: 0 <= k < |fs| ==> Within(Preorder(nt, fs[k], Some(maxDepth)), Preorder(nt, fs[k], None))
    ensures Within(PreorderAll(nt, fs, Some(maxDepth)), PreorderAll(nt, fs, None))
  {
    if fs != [] {
      CuttingDropsAll(nt, fs[1..], maxDepth);
      PreorderAllCons(nt, fs, None);
      PreorderAllCons(nt, fs, Some(maxDepth));
      WithinConcat(Preorder(nt, fs[0], Some(maxDepth)), Preorder(nt, fs[0], None),
                   PreorderAll(nt, fs[1..], Some(maxDepth)), PreorderAll(nt, fs[1..], None));
    }
  }

  // ---- What is reported of one node ----

  /** Python's order of strings. */
  predicate Less(a: string, b: string) {
    if b == "" then false
    else if a == "" then true
    else if a[0] == b[0] then Less(a[1..], b[1..])
    else a[0] < b[0]
  }

  function DynamicKeys(nt: Notation, path: string, ms: seq<Member>): seq<Warning> {
    if ms == [] then []
    else
      var before := DynamicKeys(nt, path, ms[..|ms| - 1]);
      var key := ms[|ms| - 1].key;
      if nt.dynamic(key) then before + [DynamicKey(nt.childPath(path, key))] else before
  }

  predicate KeysSorted(ms: seq<Member>) {
    forall k :: 0 < k < |ms| ==> !Less(ms[k].key, ms[k - 1].key)
  }

  function LintObject(nt: Notation, path: string, ms: seq<Member>): seq<Warning> {
    DynamicKeys(nt, path, ms) + if KeysSorted(ms) then [] else [KeyOrder(path)]
  }

  predicate IsNamed(v: Json) {
    v.Object? && exists k :: 0 <= k < |v.members| && v.members[k].key == "name"
  }

  function NameText(nt: Notation, v: Json): string
    requires IsNamed(v)
  {
    nt.text(Lookup(v.members, "name"))
  }

  function Lookup(ms: seq<Member>, key: string): Json
    requires exists k :: 0 <= k < |ms| && ms[k].key == key
  {
    if ms[0].key == key then ms[0].value else Lookup(ms[1..], key)
  }

  predicate EndsWith(s: string, suffix: string) {
    |suffix| <= |s| && s[|s| - |suffix|..] == suffix
  }

  predicate ToolsOutOfOrder(nt: Notation, path: string, items: seq<Json>) {
    && EndsWith(path, ".tools")
    && (forall k :: 0 <= k < |items| ==> IsNamed(items[k]))
    && exists k :: 0 < k < |items| && Less(NameText(nt, items[k]), NameText(nt, items[k - 1]))
  }

  function LintOf(nt: Notation, f: Frame, maxDepth: int): seq<Warning> {
    if Cut(f, maxDepth) then []
    else match f.value
      case Scalar(_) => []
      case Object(ms) => LintObject(nt, f.path, ms)
      case Array(items) => if ToolsOutOfOrder(nt, f.path, items) then [ToolOrder(f.path)] else []
  }

  /** Everything there is to report of the nodes, in order. */
  function Lint(nt: Notation, fs: seq<Frame>, maxDepth: int): seq<Warning> {
    if fs == [] then [] else Lint(nt, fs[..|fs| - 1], maxDepth) + LintOf(nt, fs[|fs| - 1], maxDepth)
  }

  lemma {:induction false} LintCons(nt: Notation, f: Frame, fs: seq<Frame>, maxDepth: int)
    ensures Lint(nt, [f] + fs, maxDepth) == LintOf(nt, f, maxDepth) + Lint(nt, fs, maxDepth)
    decreases |fs|
  {
    if fs == [] {
      LintSnoc(nt, fs, f, maxDepth);
      assert fs + [f] == [f] + fs;
    } else {
      var init, last := fs[..|fs| - 1], fs[|fs| - 1];
      LintCons(nt, f, init, maxDepth);
      assert fs == init + [last];
      Associative([f], init, [last]);
      LintSnoc(nt, [f] + init, last, maxDepth);
      Associative(LintOf(nt, f, maxDepth), Lint(nt, init, maxDepth), LintOf(nt, last, maxDepth));
    }
  }

  /** Fewer nodes report fewer findings, in the same order. */
  lemma {:induction false} LintWithin(nt: Notation, fs: seq<Frame>, gs: seq<Frame>, maxDepth: int)
    requires Within(fs, gs)
    ensures Within(Lint(nt, fs, maxDepth), Lint(nt, gs, maxDepth))
    decreases |gs|
  {
    if fs != [] {
      assert gs == [gs[0]] + gs[1..];
      LintCons(nt, gs[0], gs[1..], maxDepth);
      if Within(fs, gs[1..]) {
        LintWithin(nt, fs, gs[1..], maxDepth);
        WithinLater(Lint(nt, fs, maxDepth), LintOf(nt, gs[0], maxDepth), Lint(nt, gs[1..], maxDepth));
      } else {
        assert fs == [fs[0]] + fs[1..];
        LintCons(nt, fs[0], fs[1..], maxDepth);
        LintWithin(nt, fs[1..], gs[1..], maxDepth);
        WithinItself(LintOf(nt, fs[0], maxDepth));
        WithinConcat(LintOf(nt, fs[0], maxDepth), LintOf(nt, gs[0], maxDepth),
                     Lint(nt, fs[1..], maxDepth), Lint(nt, gs[1..], maxDepth));
      }
    }
  }

  lemma {:induction false} KeysWithin(nt: Notation, path: string, ms: seq<Member>, n: nat)
    requires n <= |ms|
    ensures Within(DynamicKeys(nt, path, ms[..n]), DynamicKeys(nt, path, ms))
    decreases |ms| - n
  {
    if n == |ms| {
      assert ms[..n] == ms;
      WithinItself(DynamicKeys(nt, path, ms));
    } else {
      var keys := DynamicKeys(nt, path, ms[..n + 1]);
      KeysWithin(nt, path, ms, n + 1);
      KeysSnoc(nt, path, ms, n);
      PrefixWithin(keys, |DynamicKeys(nt, path, ms[..n])|, DynamicKeys(nt, path, ms));
    }
  }

  /** The first members of an object report nothing that all of them do not. */
  lemma ObjectWithin(nt: Notation, path: string, ms: seq<Member>, n: nat)
    requires n <= |ms|
    ensures Within(LintObject(nt, path, ms[..n]), LintObject(nt, path, ms))
  {
    var some, all := ms[..n], ms;
    KeysWithin(nt, path, ms, n);
    WithinItself([KeyOrder(path)]);
    if KeysSorted(all) {
      assert KeysSorted(some);
    }
    WithinConcat(DynamicKeys(nt, path, some), DynamicKeys(nt, path, all),
                 if KeysSorted(some) then [] else [KeyOrder(path)], if KeysSorted(all) then [] else [KeyOrder(path)]);
  }

  // ---- The walk ----

  /** The warnings kept of those found, and whether any was turned away. */
  ghost predicate Keeps(warnings: seq<Warning>, capped: bool, found: seq<Warning>, max: int) {
    && warnings == found[..Min(|found|, Max(0, max))]
    && capped == (|found| > Max(0, max))
  }

  method AddWarning(warnings: seq<Warning>, capped: bool, item: Warning, max: int, ghost found: seq<Warning>)
    returns (warnings': seq<Warning>, capped': bool)
    requires Keeps(warnings, capped, found, max)
    ensures Keeps(warnings', capped', found + [item], max)
  {
    if |warnings| < max {
      warnings', capped' := warnings + [item], capped;
    } else {
      warnings', capped' := warnings, true;
    }
  }

  /** Reports key `i` if it looks dynamic. */
  method ReportKey(nt: Notation, path: string, ms: seq<Member>, i: nat, max: int,
                   warnings: seq<Warning>, capped: bool, ghost found: seq<Warning>)
    returns (warnings': seq<Warning>, capped': bool)
    requires i < |ms|
    requires Keeps(warnings, capped, found + DynamicKeys(nt, path, ms[..i]), max)
    ensures Keeps(warnings', capped', found + DynamicKeys(nt, path, ms[..i + 1]), max)
  {
    warnings', capped' := warnings, capped;
    KeysSnoc(nt, path, ms, i);
    if nt.dynamic(ms[i].key) {
      var item := DynamicKey(nt.childPath(path, ms[i].key));
      ghost var before := DynamicKeys(nt, path, ms[..i]);
      warnings', capped' := AddWarning(warnings, capped, item, max, found + before);
      assert found + before + [item] == found + (before + [item]);
    }
  }

  /** Reports keys out of order, once the keys themselves have been reported. */
  method ReportOrder(nt: Notation, path: string, sorted: bool, max: int,
                     warnings: seq<Warning>, capped: bool, ghost found: seq<Warning>, ghost ms: seq<Member>)
    returns (warnings': seq<Warning>, capped': bool)
    requires sorted == KeysSorted(ms) && Keeps(warnings, capped, found + DynamicKeys(nt, path, ms), max)
    ensures Keeps(warnings', capped', found + LintObject(nt, path, ms), max)
  {
    warnings', capped' := warnings, capped;
    ghost var before := DynamicKeys(nt, path, ms);
    if !sorted {
      warnings', capped' := AddWarning(warnings, capped, KeyOrder(path), max, found + before);
      assert found + before + [KeyOrder(path)] == found + (before + [KeyOrder(path)]);
    } else {
      assert found + before == found + (before + []);
    }
  }

  ghost predicate OrderedSoFar(ms: seq<Member>, i: nat, previous: Option<string>, sorted: bool) {
    && i <= |ms|
    && previous == (if i == 0 then None else Some(ms[i - 1].key))
    && sorted == KeysSorted(ms[..i])
  }

  method CompareKey(ms: seq<Member>, i: nat, previous: Option<string>, sorted: bool)
    returns (previous': Option<string>, sorted': bool)
    requires i < |ms| && OrderedSoFar(ms, i, previous, sorted)
    ensures OrderedSoFar(ms, i + 1, previous', sorted')
  {
    SortedSnoc(ms, i);
    previous', sorted' := Some(ms[i].key), sorted;
    if previous.Some? && Less(ms[i].key, previous.value) {
      sorted' := false;
    }
  }

  /** The child that finds a free slot, if there is one. */
  lemma KidSnoc(nt: Notation, f: Frame, slots: nat, i: nat)
    requires f.value.Object? && i < |f.value.members|
    ensures var all := Children(nt, f);
      all[..Min(i + 1, slots)]
      == if i < slots then all[..Min(i, slots)] + [MemberFrame(nt, f, f.value.members[i])] else all[..Min(i, slots)]
  {
  }

  /** The loop over an object's members: it stops at the first member that
      finds no free slot, after that member's key has been looked at. */
  method ScanMembers(nt: Notation, f: Frame, slots: nat, max: int,
                     warnings: seq<Warning>, capped: bool, ghost found: seq<Warning>)
    returns (kids: seq<Frame>, full: bool, warnings': seq<Warning>, capped': bool)
    requires f.value.Object? && Keeps(warnings, capped, found, max)
    ensures full == (|f.value.members| > slots)
    ensures kids == Children(nt, f)[..Min(|f.value.members|, slots)]
    ensures Keeps(warnings', capped',
                  found + LintObject(nt, f.path, f.value.members[..Min(|f.value.members|, slots + 1)]), max)
  {
    var ms := f.value.members;
    var sorted, previous: Option<string> := true, None;
    kids, full, warnings', capped' := [], false, warnings, capped;
    var i: nat := 0;
    assert found + DynamicKeys(nt, f.path, ms[..i]) == found;
    assert OrderedSoFar(ms, 0, previous, sorted);
    while i < |ms| && !full
      invariant i <= |ms| && full == (i == slots + 1) && i <= slots + 1
      invariant OrderedSoFar(ms, i, previous, sorted)
      invariant kids == Children(nt, f)[..Min(i, slots)]
      invariant Keeps(warnings', capped', found + DynamicKeys(nt, f.path, ms[..i]), max)
      decreases |ms| - i
    {
      KidSnoc(nt, f, slots, i);
      previous, sorted := CompareKey(ms, i, previous, sorted);
      warnings', capped' := ReportKey(nt, f.path, ms, i, max, warnings', capped', found);
      if |kids| >= slots {
        full := true;
      } else {
        kids := kids + [MemberFrame(nt, f, ms[i])];
      }
      i := i + 1;
    }
    warnings', capped' := ReportOrder(nt, f.path, sorted, max, warnings', capped', found, ms[..i]);
  }

  lemma KeysSnoc(nt: Notation, path: string, ms: seq<Member>, i: nat)
    requires i < |ms|
    ensures DynamicKeys(nt, path, ms[..i + 1]) == DynamicKeys(nt, path, ms[..i])
            + if nt.dynamic(ms[i].key) then [DynamicKey(nt.childPath(path, ms[i].key))] else []
  {
    assert ms[..i + 1][..i] == ms[..i];
  }

  lemma SortedSnoc(ms: seq<Member>, i: nat)
    requires i < |ms|
    ensures KeysSorted(ms[..i + 1]) <==> KeysSorted(ms[..i]) && (i > 0 ==> !Less(ms[i].key, ms[i - 1].key))
  {
    if KeysSorted(ms[..i + 1]) {
      forall k | 0 < k < i ensures !Less(ms[..i][k].key, ms[..i][k - 1].key) {
        assert ms[..i + 1][k] == ms[..i][k];
      }
      assert i > 0 ==> ms[..i + 1][i] == ms[i];
    }
  }

  method ScanItems(nt: Notation, f: Frame, slots: nat) returns (kids: seq<Frame>, full: bool)
    requires f.value.Array?
    ensures full == (|f.value.items| > slots)
    ensures kids == Children(nt, f)[..Min(|f.value.items|, slots)]
  {
    var items := f.value.items;
    kids, full := [], false;
    var i := 0;
    while i < |items| && !full
      invariant 0 <= i <= |items|
      invariant full == (i == slots + 1) && i <= slots + 1
      invariant kids == Children(nt, f)[..Min(i, slots)]
      decreases |items| - i
    {
      if |kids| >= slots {
        full := true;
      } else {
        kids := kids + [Frame(items[i], nt.indexPath(f.path, i), f.depth + 1)];
      }
      i := i + 1;
    }
  }

  /** One node: what it reports, and the frames that find a free slot. */
  method Visit(nt: Notation, f: Frame, slots: nat, lim: Limits,
               warnings: seq<Warning>, capped: bool, ghost found: seq<Warning>)
    returns (kids: seq<Frame>, full: bool, deep: bool,
             warnings': seq<Warning>, capped': bool, ghost found': seq<Warning>)
    requires Keeps(warnings, capped, found, lim.maxWarnings)
    ensures deep == Cut(f, lim.maxDepth)
    ensures var all := Entered(nt, f, Some(lim.maxDepth));
      full == (|all| > slots) && kids == all[..Min(|all|, slots)]
    ensures Keeps(warnings', capped', found', lim.maxWarnings)
    ensures !full ==> found' == found + LintOf(nt, f, lim.maxDepth)
    ensures found <= found' && Within(found'[|found|..], LintOf(nt, f, lim.maxDepth))
  {
    WithinItself(LintOf(nt, f, lim.maxDepth));
    kids, full, deep, warnings', capped', found' := [], false, false, warnings, capped, found;
    if Cut(f, lim.maxDepth) {
      deep := true;
    } else if f.value.Object? {
      kids, full, warnings', capped' := ScanMembers(nt, f, slots, lim.maxWarnings, warnings, capped, found);
      var ms := f.value.members;
      found' := found + LintObject(nt, f.path, ms[..Min(|ms|, slots + 1)]);
      ObjectWithin(nt, f.path, ms, Min(|ms|, slots + 1));
      if !full {
        assert ms[..|ms|] == ms;
      }
    } else if f.value.Array? {
      if ToolsOutOfOrder(nt, f.path, f.value.items) {
        warnings', capped' := AddWarning(warnings, capped, ToolOrder(f.path), lim.maxWarnings, found);
        found' := found + [ToolOrder(f.path)];
      }
      kids, full := ScanItems(nt, f, slots);
    }
  }

  lemma PreorderUnfolds(nt: Notation, f: Frame, rest: seq<Frame>, maxDepth: Option<int>)
    ensures PreorderAll(nt, [f] + rest, maxDepth) == [f] + PreorderAll(nt, Entered(nt, f, maxDepth) + rest, maxDepth)
  {
    var fs, kids := [f] + rest, Entered(nt, f, maxDepth);
    PreorderAllCons(nt, fs, maxDepth);
    assert fs[0] == f && fs[1..] == rest;
    PreorderOf(nt, f, maxDepth);
    PreorderAllAppend(nt, kids, rest, maxDepth);
    Associative([f], PreorderAll(nt, kids, maxDepth), PreorderAll(nt, rest, maxDepth));
  }

  lemma VisitAdvances(nt: Notation, visits: seq<Frame>, f: Frame, rest: seq<Frame>, maxDepth: Option<int>)
    ensures visits + PreorderAll(nt, [f] + rest, maxDepth)
            == (visits + [f]) + PreorderAll(nt, Entered(nt, f, maxDepth) + rest, maxDepth)
    ensures |PreorderAll(nt, [f] + rest, maxDepth)| >= 1 + |Entered(nt, f, maxDepth)| + |rest|
  {
    var next := Entered(nt, f, maxDepth) + rest;
    PreorderUnfolds(nt, f, rest, maxDepth);
    PreorderCovers(nt, next, maxDepth);
    Associative(visits, [f], PreorderAll(nt, next, maxDepth));
  }

  lemma PreorderCovers(nt: Notation, fs: seq<Frame>, maxDepth: Option<int>)
    ensures |PreorderAll(nt, fs, maxDepth)| >= |fs|
  {
    FlatCovers(Mapped(Order(nt, maxDepth), fs));
  }

  /** The whole value fits the node budget and the depth limit. */
  ghost predicate Fits(nt: Notation, root: Frame, lim: Limits) {
    |Preorder(nt, root, None)| <= lim.maxNodes && !HasCut(Preorder(nt, root, None), lim.maxDepth)
  }

  /** The free slots that a visit leaves for the children of the node. */
  function Slots(lim: Limits, visited: nat, waiting: nat): nat {
    Max(0, lim.maxNodes - (visited + 1) - waiting)
  }

  /** The stack, written with its top first, after this many visits. */
  function StackAt(nt: Notation, root: Frame, lim: Limits, visited: nat): seq<Frame> {
    if visited == 0 then [root]
    else
      var stack := StackAt(nt, root, lim, visited - 1);
      if stack == [] then []
      else
        var kids := Entered(nt, stack[0], Some(lim.maxDepth));
        kids[..Min(|kids|, Slots(lim, visited - 1, |stack| - 1))] + stack[1..]
  }

  /** The stack never holds more than the node budget has left. */
  lemma {:induction false} StackIsBounded(nt: Notation, root: Frame, lim: Limits, visited: nat)
    ensures |StackAt(nt, root, lim, visited)| <= Max(0, Max(1, lim.maxNodes) - visited)
  {
    if visited > 0 {
      StackIsBounded(nt, root, lim, visited - 1);
    }
  }

  /** The nodes still to visit: none is missing until the budget cuts. */
  ghost predicate Pending(nt: Notation, root: Frame, lim: Limits,
                          visits: seq<Frame>, stack: seq<Frame>, cappedNodes: bool) {
    var order := Preorder(nt, root, Some(lim.maxDepth));
    if cappedNodes then |visits| + |stack| == lim.maxNodes && |order| > lim.maxNodes
    else visits + PreorderAll(nt, stack, Some(lim.maxDepth)) == order
  }

  lemma StepPending(nt: Notation, root: Frame, lim: Limits, visits: seq<Frame>,
                    stack: seq<Frame>, kids: seq<Frame>, cappedNodes: bool, full: bool)
    requires stack != [] && Pending(nt, root, lim, visits, stack, cappedNodes) && |visits| < lim.maxNodes
    requires var all, slots := Entered(nt, stack[0], Some(lim.maxDepth)), Slots(lim, |visits|, |stack| - 1);
      full == (|all| > slots) && kids == all[..Min(|all|, slots)]
    requires |visits| + |stack| <= lim.maxNodes
    ensures Pending(nt, root, lim, visits + [stack[0]], kids + stack[1..], cappedNodes || full)
    ensures |visits| + 1 + |kids + stack[1..]| <= lim.maxNodes
  {
    assert [stack[0]] + stack[1..] == stack;
    VisitAdvances(nt, visits, stack[0], stack[1..], Some(lim.maxDepth));
    if !full {
      assert kids == Entered(nt, stack[0], Some(lim.maxDepth));
    }
  }

  /** The nodes visited and still to visit are of the preorder, and in its order. */
  ghost predicate InOrder(nt: Notation, root: Frame, lim: Limits, visits: seq<Frame>, stack: seq<Frame>) {
    Within(visits + PreorderAll(nt, stack, Some(lim.maxDepth)), Preorder(nt, root, Some(lim.maxDepth)))
  }

  lemma FewerKids(nt: Notation, all: seq<Frame>, n: nat, rest: seq<Frame>, maxDepth: Option<int>)
    requires n <= |all|
    ensures Within(PreorderAll(nt, all[..n] + rest, maxDepth), PreorderAll(nt, all + rest, maxDepth))
  {
    var some, later := PreorderAll(nt, all[..n], maxDepth), PreorderAll(nt, rest, maxDepth);
    assert all == all[..n] + all[n..];
    PreorderAllAppend(nt, all[..n], all[n..], maxDepth);
    PreorderAllAppend(nt, all[..n], rest, maxDepth);
    PreorderAllAppend(nt, all, rest, maxDepth);
    WithinItself(PreorderAll(nt, all, maxDepth));
    WithinItself(later);
    PrefixWithin(PreorderAll(nt, all, maxDepth), |some|, PreorderAll(nt, all, maxDepth));
    WithinConcat(some, PreorderAll(nt, all, maxDepth), later, later);
  }

  lemma StepInOrder(nt: Notation, root: Frame, lim: Limits, visits: seq<Frame>, stack: seq<Frame>, n: nat)
    requires stack != [] && n <= |Entered(nt, stack[0], Some(lim.maxDepth))|
    requires InOrder(nt, root, lim, visits, stack)
    ensures InOrder(nt, root, lim, visits + [stack[0]],
                    Entered(nt, stack[0], Some(lim.maxDepth))[..n] + stack[1..])
  {
    var d := Some(lim.maxDepth);
    var all, more := Entered(nt, stack[0], d), visits + [stack[0]];
    assert [stack[0]] + stack[1..] == stack;
    VisitAdvances(nt, visits, stack[0], stack[1..], d);
    FewerKids(nt, all, n, stack[1..], d);
    WithinItself(more);
    WithinConcat(more, more, PreorderAll(nt, all[..n] + stack[1..], d), PreorderAll(nt, all + stack[1..], d));
    WithinWithin(more + PreorderAll(nt, all[..n] + stack[1..], d), more + PreorderAll(nt, all + stack[1..], d),
                 Preorder(nt, root, d));
  }

  lemma VisitsInOrder(nt: Notation, root: Frame, lim: Limits, visits: seq<Frame>, stack: seq<Frame>)
    requires InOrder(nt, root, lim, visits, stack)
    ensures Within(visits, Preorder(nt, root, Some(lim.maxDepth)))
  {
    var all := visits + PreorderAll(nt, stack, Some(lim.maxDepth));
    PrefixWithin(all, |visits|, Preorder(nt, root, Some(lim.maxDepth)));
    assert all[..|visits|] == visits;
  }

  /** What is found when one more node is visited. */
  lemma FoundWithin(nt: Notation, visits: seq<Frame>, f: Frame, maxDepth: int,
                    found: seq<Warning>, found': seq<Warning>)
    requires Within(found, Lint(nt, visits, maxDepth))
    requires found <= found' && Within(found'[|found|..], LintOf(nt, f, maxDepth))
    ensures Within(found', Lint(nt, visits + [f], maxDepth))
  {
    LintSnoc(nt, visits, f, maxDepth);
    WithinConcat(found, Lint(nt, visits, maxDepth), found'[|found|..], LintOf(nt, f, maxDepth));
    assert found + found'[|found|..] == found';
  }

  predicate OnTop(nt: Notation, root: Frame, lim: Limits, visited: nat, f: Frame) {
    var stack := StackAt(nt, root, lim, visited);
    stack != [] && stack[0] == f
  }

  /** The walk so far visits what was on top of its stack each time. */
  ghost predicate Follows(nt: Notation, root: Frame, lim: Limits, visits: seq<Frame>, stack: seq<Frame>) {
    && stack == StackAt(nt, root, lim, |visits|)
    && forall k :: 0 <= k < |visits| ==> OnTop(nt, root, lim, k, visits[k])
  }

  lemma StackSteps(nt: Notation, root: Frame, lim: Limits, visited: nat, stack: seq<Frame>, kids: seq<Frame>)
    requires stack == StackAt(nt, root, lim, visited) && stack != []
    requires var all := Entered(nt, stack[0], Some(lim.maxDepth));
      kids == all[..Min(|all|, Slots(lim, visited, |stack| - 1))]
    ensures StackAt(nt, root, lim, visited + 1) == kids + stack[1..]
    ensures OnTop(nt, root, lim, visited, stack[0])
  {
  }

  lemma StepFollows(nt: Notation, root: Frame, lim: Limits, visits: seq<Frame>, stack: seq<Frame>, kids: seq<Frame>)
    requires Follows(nt, root, lim, visits, stack) && stack != []
    requires var all := Entered(nt, stack[0], Some(lim.maxDepth));
      kids == all[..Min(|all|, Slots(lim, |visits|, |stack| - 1))]
    ensures Follows(nt, root, lim, visits + [stack[0]], kids + stack[1..])
  {
    var more := visits + [stack[0]];
    StackSteps(nt, root, lim, |visits|, stack, kids);
    forall k | 0 <= k < |more| ensures OnTop(nt, root, lim, k, more[k]) {
      if k < |visits| {
        assert more[k] == visits[k];
      }
    }
  }

  /** What has been found, and whether a container has been cut. */
  ghost predicate Reported(nt: Notation, lim: Limits, visits: seq<Frame>, found: seq<Warning>,
                           cappedNodes: bool, cappedDepth: bool) {
    && cappedDepth == HasCut(visits, lim.maxDepth)
    && Within(found, Lint(nt, visits, lim.maxDepth))
    && (!cappedNodes ==> found == Lint(nt, visits, lim.maxDepth))
  }

  lemma StepReported(nt: Notation, lim: Limits, visits: seq<Frame>, f: Frame, found: seq<Warning>,
                     cappedNodes: bool, cappedDepth: bool, full: bool, found': seq<Warning>)
    requires Reported(nt, lim, visits, found, cappedNodes, cappedDepth)
    requires !full ==> found' == found + LintOf(nt, f, lim.maxDepth)
    requires found <= found' && Within(found'[|found|..], LintOf(nt, f, lim.maxDepth))
    ensures Reported(nt, lim, visits + [f], found', cappedNodes || full, cappedDepth || Cut(f, lim.maxDepth))
  {
    FoundWithin(nt, visits, f, lim.maxDepth, found, found');
    HasCutSnoc(visits, f, lim.maxDepth);
    LintSnoc(nt, visits, f, lim.maxDepth);
  }

  ghost predicate Walking(nt: Notation, root: Frame, lim: Limits,
                          visits: seq<Frame>, stack: seq<Frame>, cappedNodes: bool) {
    && |visits| <= Max(0, lim.maxNodes) && |visits| + |stack| <= Max(1, lim.maxNodes)
    && Follows(nt, root, lim, visits, stack)
    && Pending(nt, root, lim, visits, stack, cappedNodes)
    && InOrder(nt, root, lim, visits, stack)
  }

  lemma StartsWalking(nt: Notation, root: Frame, lim: Limits, visits: seq<Frame>)
    requires visits == []
    ensures Walking(nt, root, lim, visits, [root], false)
  {
    PreorderAllCons(nt, [root], Some(lim.maxDepth));
    WithinItself(Preorder(nt, root, Some(lim.maxDepth)));
  }

  lemma StepWalking(nt: Notation, root: Frame, lim: Limits, visits: seq<Frame>,
                    stack: seq<Frame>, kids: seq<Frame>, cappedNodes: bool, full: bool)
    requires Walking(nt, root, lim, visits, stack, cappedNodes) && stack != [] && |visits| < lim.maxNodes
    requires var all, slots := Entered(nt, stack[0], Some(lim.maxDepth)), Slots(lim, |visits|, |stack| - 1);
      full == (|all| > slots) && kids == all[..Min(|all|, slots)]
    ensures Walking(nt, root, lim, visits + [stack[0]], kids + stack[1..], cappedNodes || full)
  {
    StepFollows(nt, root, lim, visits, stack, kids);
    StepPending(nt, root, lim, visits, stack, kids, cappedNodes, full);
    StepInOrder(nt, root, lim, visits, stack, |kids|);
  }

  /** A walk that ends for want of nodes or of budget. */
  lemma EndsWalking(nt: Notation, root: Frame, lim: Limits, visits: seq<Frame>, stack: seq<Frame>, cappedNodes: bool)
    requires Walking(nt, root, lim, visits, stack, cappedNodes)
    requires stack == [] || |visits| >= lim.maxNodes
    ensures var order := Preorder(nt, root, Some(lim.maxDepth));
      && |visits| == Min(Max(0, lim.maxNodes), |order|) && Within(visits, order)
      && (cappedNodes || stack != [] <==> |order| > lim.maxNodes)
      && (|order| <= lim.maxNodes ==> visits == order)
  {
    PreorderCovers(nt, stack, Some(lim.maxDepth));
    VisitsInOrder(nt, root, lim, visits, stack);
  }

  /** The loop: with a node budget of `n` it visits exactly the preorder if
      that has at most `n` nodes, and otherwise exactly `n` nodes of it, in order. */
  method VisitAll(nt: Notation, root: Frame, lim: Limits)
    returns (warnings: seq<Warning>, visited: nat, cappedNodes: bool, cappedDepth: bool, cappedWarnings: bool,
             ghost visits: seq<Frame>, ghost found: seq<Warning>)
    ensures visited == Min(Max(0, lim.maxNodes), |Preorder(nt, root, Some(lim.maxDepth))|)
    ensures cappedNodes == (|Preorder(nt, root, Some(lim.maxDepth))| > lim.maxNodes)
    ensures visited == |visits|
    ensures forall k :: 0 <= k < visited ==> OnTop(nt, root, lim, k, visits[k])
    ensures Within(visits, Preorder(nt, root, Some(lim.maxDepth)))
    ensures !cappedNodes ==> visits == Preorder(nt, root, Some(lim.maxDepth))
    ensures Reported(nt, lim, visits, found, cappedNodes, cappedDepth)
    ensures Keeps(warnings, cappedWarnings, found, lim.maxWarnings)
  {
    cappedNodes, cappedDepth, cappedWarnings := false, false, false;
    var stack := [root];
    visited, warnings, visits, found := 0, [], [], [];
    StartsWalking(nt, root, lim, visits);
    while stack != []
      invariant visited == |visits|
      invariant Walking(nt, root, lim, visits, stack, cappedNodes)
      invariant Reported(nt, lim, visits, found, cappedNodes, cappedDepth)
      invariant Keeps(warnings, cappedWarnings, found, lim.maxWarnings)
      decreases lim.maxNodes - visited
    {
      if visited >= lim.maxNodes {
        EndsWalking(nt, root, lim, visits, stack, cappedNodes);
        cappedNodes := true;
        break;
      }
      var current := stack[0];
      ghost var before := found;
      var slots := Slots(lim, visited, |stack| - 1);
      visited := visited + 1;
      var kids, full, deep;
      kids, full, deep, warnings, cappedWarnings, found :=
        Visit(nt, current, slots, lim, warnings, cappedWarnings, found);
      StepWalking(nt, root, lim, visits, stack, kids, cappedNodes, full);
      StepReported(nt, lim, visits, current, before, cappedNodes, cappedDepth, full, found);
      visits := visits + [current];
      cappedNodes, cappedDepth := cappedNodes || full, cappedDepth || deep;
      stack := kids + stack[1..];
    }
    if stack == [] {
      EndsWalking(nt, root, lim, visits, stack, cappedNodes);
    }
  }

  lemma LintSnoc(nt: Notation, fs: seq<Frame>, f: Frame, maxDepth: int)
    ensures Lint(nt, fs + [f], maxDepth) == Lint(nt, fs, maxDepth) + LintOf(nt, f, maxDepth)
  {
    assert (fs + [f])[..|fs|] == fs;
  }

  lemma {:induction false} KeysAreGenuine(nt: Notation, path: string, ms: seq<Member>)
    ensures forall w :: w in DynamicKeys(nt, path, ms) ==> w.DynamicKey?
  {
    if ms != [] {
      KeysAreGenuine(nt, path, ms[..|ms| - 1]);
    }
  }

  /** The lint itself never says that the walk was cut. */
  lemma {:induction false} LintIsGenuine(nt: Notation, fs: seq<Frame>, maxDepth: int)
    ensures forall w :: w in Lint(nt, fs, maxDepth) ==> !w.Truncated?
  {
    if fs != [] {
      var last := fs[|fs| - 1];
      LintIsGenuine(nt, fs[..|fs| - 1], maxDepth);
      if last.value.Object? {
        KeysAreGenuine(nt, last.path, last.value.members);
      }
    }
  }

  /** A report but for the closing warning that the walk was cut. */
  function Findings(warnings: seq<Warning>): seq<Warning> {
    if warnings != [] && warnings[|warnings| - 1].Truncated? then warnings[..|warnings| - 1] else warnings
  }

  /** What a cut walk has found is of the whole lint, and in its order. */
  lemma FoundOfAll(nt: Notation, root: Frame, maxDepth: int, visits: seq<Frame>, found: seq<Warning>)
    requires Within(visits, Preorder(nt, root, Some(maxDepth))) && Within(found, Lint(nt, visits, maxDepth))
    ensures Within(visits, Preorder(nt, root, None))
    ensures Within(found, Lint(nt, Preorder(nt, root, None), maxDepth))
  {
    var order, all := Preorder(nt, root, Some(maxDepth)), Preorder(nt, root, None);
    CuttingDrops(nt, root, maxDepth);
    WithinWithin(visits, order, all);
    LintWithin(nt, visits, all, maxDepth);
    WithinWithin(found, Lint(nt, visits, maxDepth), Lint(nt, all, maxDepth));
  }

  lemma FindingsWithin(warnings: seq<Warning>, found: seq<Warning>, lint: seq<Warning>)
    requires Within(found, lint) && Findings(warnings) <= found
    ensures Within(Findings(warnings), lint)
  {
    PrefixWithin(found, |Findings(warnings)|, lint);
    assert found[..|Findings(warnings)|] == Findings(warnings);
  }

  /** The closing warning takes the last place if no other is free. */
  method CloseReport(warnings: seq<Warning>, visited: nat, cut: bool, max: int) returns (closed: seq<Warning>)
    requires |warnings| <= Max(0, max)
    ensures |closed| <= Max(0, max) && Findings(closed) <= warnings
    ensures !cut ==> closed == warnings
    ensures cut && max > 0 ==> closed != [] && closed[|closed| - 1] == Truncated(visited)
  {
    closed := warnings;
    if cut {
      var item := Truncated(visited);
      if max <= 0 {
        return;
      }
      if |closed| < max {
        closed := closed + [item];
      } else if closed != [] {
        closed := closed[|closed| - 1 := item];
      }
    }
  }

  /** The walk is cut exactly when the value or its lint does not fit. */
  lemma CutUnlessFits(nt: Notation, root: Frame, lim: Limits, visits: seq<Frame>, found: seq<Warning>, cappedNodes: bool)
    requires cappedNodes == (|Preorder(nt, root, Some(lim.maxDepth))| > lim.maxNodes)
    requires !cappedNodes ==> var order := Preorder(nt, root, Some(lim.maxDepth));
      visits == order && found == Lint(nt, order, lim.maxDepth)
    ensures var order := Preorder(nt, root, None);
      var lint := Lint(nt, order, lim.maxDepth);
      if cappedNodes || HasCut(visits, lim.maxDepth) then !Fits(nt, root, lim)
      else Fits(nt, root, lim) && visits == order && found == lint
  {
    CuttingShows(nt, root, lim.maxDepth);
  }

  lemma ReportIsWhole(fits: bool, order: seq<Frame>, lint: seq<Warning>, visits: seq<Frame>, found: seq<Warning>,
                      kept: seq<Warning>, cut: bool, capped: bool, closed: seq<Warning>, max: int)
    requires if cut then !fits else fits && visits == order && found == lint
    requires Keeps(kept, capped, found, max)
    requires !cut && !capped ==> closed == kept
    requires (cut || capped) && max > 0 ==> closed != [] && closed[|closed| - 1] == Truncated(|visits|)
    ensures if fits && |lint| <= Max(0, max) then closed == lint && visits == order
            else max > 0 ==> closed != [] && closed[|closed| - 1] == Truncated(|visits|)
  {
  }

  /** The walk and its report, which is the whole lint of the whole value
      exactly when the value fits and its lint does; otherwise it ends in the
      warning that says so, and before that warning it reports some of the
      lint, in order, and nothing else. */
  method WalkJson(nt: Notation, value: Json, path: string, lim: Limits)
    returns (warnings: seq<Warning>, ghost visits: seq<Frame>)
    ensures |visits| == Min(Max(0, lim.maxNodes), |Preorder(nt, Frame(value, path, 0), Some(lim.maxDepth))|)
    ensures |warnings| <= Max(0, lim.maxWarnings)
    ensures var order := Preorder(nt, Frame(value, path, 0), None);
      var lint := Lint(nt, order, lim.maxDepth);
      if Fits(nt, Frame(value, path, 0), lim) && |lint| <= Max(0, lim.maxWarnings)
      then warnings == lint && visits == order
      else lim.maxWarnings > 0 ==> warnings != [] && warnings[|warnings| - 1] == Truncated(|visits|)
    ensures var order := Preorder(nt, Frame(value, path, 0), None);
      Within(visits, order) && Within(Findings(warnings), Lint(nt, order, lim.maxDepth))
  {
    var root := Frame(value, path, 0);
    var visited, cappedNodes, cappedDepth, cappedWarnings;
    ghost var found;
    warnings, visited, cappedNodes, cappedDepth, cappedWarnings, visits, found := VisitAll(nt, root, lim);
    ghost var order := Preorder(nt, root, None);
    FoundOfAll(nt, root, lim.maxDepth, visits, found);
    CutUnlessFits(nt, root, lim, visits, found, cappedNodes);
    ghost var kept := warnings;
    warnings := CloseReport(warnings, visited, cappedNodes || cappedDepth || cappedWarnings, lim.maxWarnings);
    FindingsWithin(warnings, found, Lint(nt, order, lim.maxDepth));
    ReportIsWhole(Fits(nt, root, lim), order, Lint(nt, order, lim.maxDepth), visits, found,
                  kept, cappedNodes || cappedDepth, cappedWarnings, warnings, lim.maxWarnings);
  }

  lemma HasCutSnoc(fs: seq<Frame>, f: Frame, maxDepth: int)
    ensures HasCut(fs + [f], maxDepth) <==> HasCut(fs, maxDepth) || Cut(f, maxDepth)
  {
    HasCutAppend(fs, [f], maxDepth);
    if Cut(f, maxDepth) {
      assert Cut([f][0], maxDepth);
    }
  }
}
