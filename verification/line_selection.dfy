/** One-pass selection of filtered output lines, against its simple form. */
module LineSelection {
  import opened Basics
  import opened Sequences

  const MAX_EMIT_LINES: nat := 5000

  type Pattern = string -> bool

  /** A compiled filter; a pattern is the searching of one regular expression. */
  datatype CompiledFilter = CompiledFilter(
    includeRegex: seq<Pattern>,
    excludeRegex: seq<Pattern>,
    headLines: Option<nat>,
    tailLines: Option<nat>,
    maxLines: Option<nat>)

  datatype Selection = Selection(lines: seq<string>, inputLines: nat, inputComplete: bool)

  predicate AnyMatches(patterns: seq<Pattern>, line: string) {
    exists i :: 0 <= i < |patterns| && patterns[i](line)
  }

  predicate LineMatches(f: CompiledFilter, line: string) {
    (f.includeRegex == [] || AnyMatches(f.includeRegex, line)) && !AnyMatches(f.excludeRegex, line)
  }

  /** The capped lines that pass the filter. */
  function Kept(lines: seq<string>, f: CompiledFilter, cap: string -> string): seq<string> {
    if lines == [] then []
    else
      var before := Kept(lines[..|lines| - 1], f, cap);
      var line := cap(lines[|lines| - 1]);
      if LineMatches(f, line) then before + [line] else before
  }

  /** Some inclusion matches, if there are any, and no exclusion does. */
  ghost predicate Passes(f: CompiledFilter, line: string) {
    && (f.includeRegex != [] ==> exists p :: p in f.includeRegex && p(line))
    && (forall p :: p in f.excludeRegex ==> !p(line))
  }

  lemma {:induction false} MatchesIsPasses(f: CompiledFilter, line: string)
    ensures LineMatches(f, line) <==> Passes(f, line)
  {
    if p :| p in f.includeRegex && p(line) {
      var i :| 0 <= i < |f.includeRegex| && f.includeRegex[i] == p;
      assert AnyMatches(f.includeRegex, line);
    }
    if p :| p in f.excludeRegex && p(line) {
      var i :| 0 <= i < |f.excludeRegex| && f.excludeRegex[i] == p;
      assert AnyMatches(f.excludeRegex, line);
    }
  }

  /** The kept lines are the capped lines at these rising positions. */
  predicate Picks(lines: seq<string>, cap: string -> string, at: seq<nat>, kept: seq<string>) {
    && |at| == |kept|
    && (forall i :: 0 <= i < |at| ==> at[i] < |lines| && kept[i] == cap(lines[at[i]]))
    && (forall i, j :: 0 <= i < j < |at| ==> at[i] < at[j])
  }

  lemma {:induction false} PicksMore(lines: seq<string>, cap: string -> string, n: nat, at: seq<nat>, kept: seq<string>)
    requires n < |lines| && Picks(lines[..n], cap, at, kept)
    ensures Picks(lines, cap, at, kept) && Picks(lines, cap, at + [n], kept + [cap(lines[n])])
  {
  }

  /** The kept lines are the capped lines that pass, each once and in order. */
  lemma {:induction false} KeptAre(lines: seq<string>, f: CompiledFilter, cap: string -> string) returns (at: seq<nat>)
    ensures Picks(lines, cap, at, Kept(lines, f, cap))
    ensures forall k: nat :: k in at <==> k < |lines| && Passes(f, cap(lines[k]))
  {
    at := [];
    if lines != [] {
      var n := |lines| - 1;
      var before := KeptAre(lines[..n], f, cap);
      MatchesIsPasses(f, cap(lines[n]));
      PicksMore(lines, cap, n, before, Kept(lines[..n], f, cap));
      at := if Passes(f, cap(lines[n])) then before + [n] else before;
      forall k: nat ensures k in at <==> k < |lines| && Passes(f, cap(lines[k])) {
        assert k < n ==> lines[..n][k] == lines[k];
      }
    }
  }

  function HeadOf(f: CompiledFilter): nat {
    if f.headLines.Some? then f.headLines.value else 0
  }

  function TailOf(f: CompiledFilter): nat {
    if f.tailLines.Some? then f.tailLines.value else 0
  }

  predicate Windowed(f: CompiledFilter) {
    f.headLines.Some? || f.tailLines.Some?
  }

  function PlainLimit(f: CompiledFilter): nat {
    if f.maxLines.Some? then Min(f.maxLines.value, MAX_EMIT_LINES) else MAX_EMIT_LINES
  }

  /** Everything when it fits in the two windows, else both windows. */
  function HeadTail<T>(m: seq<T>, head: nat, tail: nat): seq<T> {
    if |m| <= head + tail then m else m[..head] + m[|m| - tail..]
  }

  function Cut(lines: seq<string>, f: CompiledFilter): seq<string> {
    Take(if f.maxLines.Some? then Take(lines, f.maxLines.value) else lines, MAX_EMIT_LINES)
  }

  /** The simple form of the selection from the kept lines. */
  function Selected(m: seq<string>, f: CompiledFilter): seq<string> {
    Cut(if Windowed(f) then HeadTail(m, HeadOf(f), TailOf(f)) else m, f)
  }

  /** The number of kept lines at which reading stops, if there is one. */
  function Enough(f: CompiledFilter): Option<nat> {
    if Windowed(f) then (if TailOf(f) == 0 && HeadOf(f) > 0 then Some(HeadOf(f)) else None)
    else Some(Max(1, PlainLimit(f)))
  }

  lemma {:induction false} KeptGrows(lines: seq<string>, n: nat, f: CompiledFilter, cap: string -> string)
    requires n <= |lines|
    ensures |Kept(lines[..n], f, cap)| <= |Kept(lines, f, cap)|
    ensures Kept(lines[..n], f, cap) == Kept(lines, f, cap)[..|Kept(lines[..n], f, cap)|]
    decreases |lines|
  {
    if n < |lines| {
      KeptGrows(lines[..|lines| - 1], n, f, cap);
      assert lines[..|lines| - 1][..n] == lines[..n];
    } else {
      assert lines[..n] == lines;
    }
  }

  lemma KeptStep(lines: seq<string>, n: nat, f: CompiledFilter, cap: string -> string)
    requires n < |lines|
    ensures Kept(lines[..n + 1], f, cap) ==
            Kept(lines[..n], f, cap) + if LineMatches(f, cap(lines[n])) then [cap(lines[n])] else []
  {
    assert lines[..n + 1][..n] == lines[..n];
  }

  /** Reading stopped at the first prefix with enough kept lines, or never. */
  predicate Stopped(lines: seq<string>, f: CompiledFilter, cap: string -> string, n: nat, complete: bool)
    requires n <= |lines|
  {
    if complete then
      n == |lines| && (Enough(f).Some? ==> |Kept(lines, f, cap)| < Enough(f).value)
    else
      && Enough(f).Some? && n > 0
      && |Kept(lines[..n], f, cap)| == Enough(f).value
      && |Kept(lines[..n - 1], f, cap)| < Enough(f).value
  }

  /** The head list and the bounded tail queue after the loop over the lines. */
  method CollectWindows(lines: seq<string>, f: CompiledFilter, cap: string -> string)
    returns (head: seq<string>, tail: seq<string>, matched: nat, count: nat, complete: bool)
    requires Windowed(f)
    ensures count <= |lines| && Stopped(lines, f, cap, count, complete)
    ensures var m := Kept(lines[..count], f, cap);
      matched == |m| && head == Take(m, HeadOf(f)) && tail == Last(m, TailOf(f))
  {
    var headN, tailN := HeadOf(f), TailOf(f);
    head, tail, matched, count, complete := [], [], 0, 0, true;
    while count < |lines|
      invariant count <= |lines| && complete
      invariant var m := Kept(lines[..count], f, cap);
        && matched == |m| && head == Take(m, headN) && tail == Last(m, tailN)
        && (Enough(f).Some? ==> |m| < Enough(f).value)
    {
      KeptStep(lines, count, f, cap);
      var line := cap(lines[count]);
      count := count + 1;
      assert lines[..count][..count - 1] == lines[..count - 1];
      if LineMatches(f, line) {
        matched := matched + 1;
        if |head| < headN {
          head := head + [line];
        }
        if tailN > 0 {
          tail := tail + [line];
          if |tail| > tailN {
            tail := tail[1..];
          }
        } else if headN > 0 && |head| >= headN {
          complete := false;
          return;
        }
      }
    }
    assert lines[..count] == lines;
  }

  lemma WindowsOverlap<T>(m: seq<T>, head: nat, tail: nat)
    ensures var h, t := Take(m, head), Last(m, tail);
      HeadTail(m, head, tail) ==
      h + if h != [] && t != [] then t[Max(0, |h| + |t| - |m|)..] else t
  {
  }

  /** Whatever was not read could not have changed the selection. */
  lemma StopIsHarmless(lines: seq<string>, n: nat, f: CompiledFilter, cap: string -> string, complete: bool)
    requires n <= |lines| && Stopped(lines, f, cap, n, complete)
    ensures Selected(Kept(lines[..n], f, cap), f) == Selected(Kept(lines, f, cap), f)
  {
    KeptGrows(lines, n, f, cap);
    if complete {
      assert lines[..n] == lines;
    } else {
      var part, m := Kept(lines[..n], f, cap), Kept(lines, f, cap);
      if Windowed(f) {
        assert HeadTail(m, HeadOf(f), 0) == part;
      } else {
        assert Cut(part, f) == Cut(m, f);
      }
    }
  }

  /** The loop without windows: it stops at the plain limit. */
  method CollectPlain(lines: seq<string>, f: CompiledFilter, cap: string -> string)
    returns (selected: seq<string>, count: nat, complete: bool)
    requires !Windowed(f)
    ensures count <= |lines| && Stopped(lines, f, cap, count, complete)
    ensures selected == Kept(lines[..count], f, cap)
  {
    var limit := PlainLimit(f);
    selected, count, complete := [], 0, true;
    while count < |lines| && complete
      invariant count <= |lines|
      invariant selected == Kept(lines[..count], f, cap)
      invariant if complete then |selected| < Max(1, limit) else Stopped(lines, f, cap, count, false)
      decreases |lines| - count, complete
    {
      KeptStep(lines, count, f, cap);
      var line := cap(lines[count]);
      count := count + 1;
      assert lines[..count][..count - 1] == lines[..count - 1];
      if LineMatches(f, line) {
        selected := selected + [line];
        if |selected| >= limit {
          complete := false;
        }
      }
    }
    assert complete ==> lines[..count] == lines;
  }

  /** The final cuts. */
  method Trim(lines: seq<string>, f: CompiledFilter) returns (selected: seq<string>)
    ensures selected == Cut(lines, f)
  {
    selected := lines;
    if f.maxLines.Some? && |selected| > f.maxLines.value {
      selected := selected[..f.maxLines.value];
    }
    if |selected| > MAX_EMIT_LINES {
      selected := selected[..MAX_EMIT_LINES];
    }
  }

  /** For every stream of lines the one-pass selection is the simple form, and
      it reports the input incomplete exactly when it stopped early. */
  method SelectLinesWithStats(lines: seq<string>, f: CompiledFilter, cap: string -> string)
    returns (s: Selection)
    ensures s.lines == Selected(Kept(lines, f, cap), f)
    ensures s.inputLines <= |lines| && Stopped(lines, f, cap, s.inputLines, s.inputComplete)
  {
    var selected: seq<string>;
    var count: nat := 0;
    var complete := true;
    if Windowed(f) {
      var head, tail, matched;
      head, tail, matched, count, complete := CollectWindows(lines, f, cap);
      WindowsOverlap(Kept(lines[..count], f, cap), HeadOf(f), TailOf(f));
      if head != [] && tail != [] {
        tail := tail[Max(0, |head| + |tail| - matched)..];
      }
      selected := head + tail;
    } else {
      selected, count, complete := CollectPlain(lines, f, cap);
    }
    StopIsHarmless(lines, count, f, cap, complete);
    selected := Trim(selected, f);
    s := Selection(selected, count, complete);
  }

  // ---- What the simple form means ----

  /** The positions that the two windows select. */
  function Positions(n: nat, head: nat, tail: nat): seq<nat> {
    if n <= head + tail then seq(n, i => i)
    else seq(head + tail, i => if i < head then i else n - tail + (i - head))
  }

  /** No line is selected twice, the order is kept, and every line of the
      first `head` and of the last `tail` is there. */
  lemma WindowsPickOnce<T>(m: seq<T>, head: nat, tail: nat)
    ensures var p := Positions(|m|, head, tail);
      && |HeadTail(m, head, tail)| == |p| == Min(|m|, head + tail)
      && (forall i :: 0 <= i < |p| ==> p[i] < |m| && HeadTail(m, head, tail)[i] == m[p[i]])
      && (forall i, j :: 0 <= i < j < |p| ==> p[i] < p[j])
      && (forall k :: 0 <= k < |m| && (k < head || k >= |m| - tail) ==> k in p)
  {
    var p := Positions(|m|, head, tail);
    forall k | 0 <= k < |m| && (k < head || k >= |m| - tail) ensures k in p {
      if |m| <= head + tail || k < head {
        assert p[k] == k;
      } else {
        assert p[k - (|m| - tail) + head] == k;
      }
    }
  }
}
