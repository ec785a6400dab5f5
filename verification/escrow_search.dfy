/** The artifact store: literal search over stored artifacts, and retrieval of
    the lines that a match points at. */
module EscrowSearch {
  import opened Basics
  import opened Sequences
  import opened TextLines

  const MAX_QUERY_LINES: nat := 5000
  const MAX_SEARCH_CONTEXT_LINES: nat := 20

  /** One line without its end, as splitting without ends returns it. */
  function Bare(line: string): string {
    if |line| >= 2 && line[|line| - 2] == '\r' && line[|line| - 1] == '\n' then line[..|line| - 2]
    else if Terminated(line) then line[..|line| - 1]
    else line
  }

  function BareLines(lines: seq<string>): seq<string> {
    seq(|lines|, i requires 0 <= i < |lines| => Bare(lines[i]))
  }

  predicate OccursAt(haystack: string, needle: string, i: nat) {
    i + |needle| <= |haystack| && haystack[i..i + |needle|] == needle
  }

  predicate Contains(haystack: string, needle: string) {
    exists i :: 0 <= i <= |haystack| && OccursAt(haystack, needle, i)
  }

  /** How a search compares text; case folding is left abstract. */
  datatype Search = Search(literal: string, fold: Option<string -> string>, contextLines: nat) {
    predicate Hits(line: string) {
      if fold.None? then Contains(line, literal) else Contains(fold.value(line), fold.value(literal))
    }
  }

  datatype NumberedLine = NumberedLine(line: nat, text: string)

  /** A search hit before its texts are capped for display. */
  datatype Match = Match(
    artifact: nat, line: nat, text: string,
    before: seq<NumberedLine>, after: seq<NumberedLine>,
    start: nat, end: nat)

  function Numbered(lines: seq<string>, first: nat, last: nat): seq<NumberedLine>
    requires 1 <= first <= last + 1 && last <= |lines|
  {
    seq(last + 1 - first, i requires 0 <= i < last + 1 - first => NumberedLine(first + i, lines[first + i - 1]))
  }

  function MatchRecord(artifact: nat, number: nat, lines: seq<string>, context: nat): Match
    requires 1 <= number <= |lines|
  {
    var start := Max(1, number - context);
    var end := Min(|lines|, number + context);
    Match(artifact, number, lines[number - 1],
          Numbered(lines, start, number - 1), Numbered(lines, number + 1, end), start, end)
  }

  /** All hits of one artifact's first `n` lines. */
  function HitsIn(artifact: nat, lines: seq<string>, s: Search, n: nat): seq<Match>
    requires n <= |lines|
  {
    if n == 0 then []
    else HitsIn(artifact, lines, s, n - 1) +
         if s.Hits(lines[n - 1]) then [MatchRecord(artifact, n, lines, s.contextLines)] else []
  }

  lemma {:induction false} HitIsRecord(artifact: nat, lines: seq<string>, s: Search, n: nat, m: Match)
    requires n <= |lines| && m in HitsIn(artifact, lines, s, n)
    ensures 1 <= m.line <= n && s.Hits(lines[m.line - 1])
    ensures m == MatchRecord(artifact, m.line, lines, s.contextLines)
  {
    if m in HitsIn(artifact, lines, s, n - 1) {
      HitIsRecord(artifact, lines, s, n - 1, m);
    }
  }

  lemma HitsStep(artifact: nat, lines: seq<string>, s: Search, i: nat, remaining: nat)
    requires i < |lines|
    ensures var hits, more := HitsIn(artifact, lines, s, i), HitsIn(artifact, lines, s, i + 1);
      if s.Hits(lines[i]) then
        |more| == |hits| + 1
        && Take(more, remaining) == if |Take(hits, remaining)| < remaining
           then Take(hits, remaining) + [MatchRecord(artifact, i + 1, lines, s.contextLines)]
           else Take(hits, remaining)
      else more == hits
  {
    if s.Hits(lines[i]) {
      TakeMore(HitsIn(artifact, lines, s, i), MatchRecord(artifact, i + 1, lines, s.contextLines), remaining);
    }
  }

  method SearchArtifactContent(artifact: nat, content: string, s: Search, remaining: nat)
    returns (matches: seq<Match>, matchedLines: nat)
    ensures var hits := HitsIn(artifact, BareLines(Split(content)), s, |Split(content)|);
      matches == Take(hits, remaining) && matchedLines == |hits|
  {
    var lines := BareLines(Split(content));
    matches, matchedLines := [], 0;
    for i := 0 to |lines|
      invariant matches == Take(HitsIn(artifact, lines, s, i), remaining)
      invariant matchedLines == |HitsIn(artifact, lines, s, i)|
    {
      HitsStep(artifact, lines, s, i, remaining);
      if s.Hits(lines[i]) {
        matchedLines := matchedLines + 1;
        if |matches| < remaining {
          matches := matches + [MatchRecord(artifact, i + 1, lines, s.contextLines)];
        }
      }
    }
  }

  /** A metadata candidate: its id, and its verified content if it has one. */
  datatype Candidate = Candidate(id: nat, content: Option<string>)

  /** What the scan loop has seen: ids, scanned artifacts and their contents. */
  datatype Scan = Scan(seen: set<nat>, scanned: nat, hits: seq<Match>)

  function ScanStep(scan: Scan, c: Candidate, s: Search, maxArtifacts: nat): Scan {
    if c.id in scan.seen then scan
    else
      var marked := scan.(seen := scan.seen + {c.id});
      if scan.scanned >= maxArtifacts || c.content.None? then marked
      else
        var lines := Split(c.content.value);
        marked.(scanned := scan.scanned + 1, hits := scan.hits + HitsIn(c.id, BareLines(lines), s, |lines|))
  }

  /** Every hit of every scanned artifact, with no limit on matches. */
  function ScanAll(cs: seq<Candidate>, s: Search, maxArtifacts: nat): Scan {
    if cs == [] then Scan({}, 0, [])
    else ScanStep(ScanAll(cs[..|cs| - 1], s, maxArtifacts), cs[|cs| - 1], s, maxArtifacts)
  }

  // ---- What a search has to find ----

  /** The first candidate of its id: a later one with the same id is skipped. */
  predicate FirstOfId(cs: seq<Candidate>, i: nat)
    requires i < |cs|
  {
    forall j :: 0 <= j < i ==> cs[j].id != cs[i].id
  }

  /** The candidate that the scan would take for its id. */
  predicate Available(cs: seq<Candidate>, i: nat)
    requires i < |cs|
  {
    FirstOfId(cs, i) && cs[i].content.Some?
  }

  function AvailableBefore(cs: seq<Candidate>, n: nat): nat
    requires n <= |cs|
  {
    if n == 0 then 0 else AvailableBefore(cs, n - 1) + if Available(cs, n - 1) then 1 else 0
  }

  function LinesOf(c: Candidate): seq<string>
    requires c.content.Some?
  {
    BareLines(Split(c.content.value))
  }

  /** A line of a candidate, counted from one. */
  datatype Spot = Spot(candidate: nat, line: nat)

  /** A hit line of one of the first `maxArtifacts` available candidates. */
  predicate IsHit(cs: seq<Candidate>, s: Search, maxArtifacts: nat, p: Spot) {
    && p.candidate < |cs| && Available(cs, p.candidate) && AvailableBefore(cs, p.candidate) < maxArtifacts
    && 1 <= p.line <= |LinesOf(cs[p.candidate])| && s.Hits(LinesOf(cs[p.candidate])[p.line - 1])
  }

  function RecordAt(cs: seq<Candidate>, s: Search, p: Spot): Match
    requires p.candidate < |cs| && cs[p.candidate].content.Some?
    requires 1 <= p.line <= |LinesOf(cs[p.candidate])|
  {
    MatchRecord(cs[p.candidate].id, p.line, LinesOf(cs[p.candidate]), s.contextLines)
  }

  predicate Ahead(p: Spot, q: Spot) {
    p.candidate < q.candidate || (p.candidate == q.candidate && p.line < q.line)
  }

  /** The spots in candidate and line order, and their records in the same order. */
  predicate Lists(cs: seq<Candidate>, s: Search, maxArtifacts: nat, ps: seq<Spot>, hits: seq<Match>) {
    && |hits| == |ps|
    && (forall a, b :: 0 <= a < b < |ps| ==> Ahead(ps[a], ps[b]))
    && (forall k :: 0 <= k < |ps| ==> IsHit(cs, s, maxArtifacts, ps[k]) && hits[k] == RecordAt(cs, s, ps[k]))
  }

  lemma {:induction false} MiddleIsContained(a: string, wanted: string, b: string)
    ensures Contains(a + wanted + b, wanted)
  {
    assert (a + wanted + b)[|a|..|a| + |wanted|] == wanted;
    assert OccursAt(a + wanted + b, wanted, |a|);
  }

  lemma {:induction false} ContainedIsMiddle(text: string, wanted: string) returns (a: string, b: string)
    requires Contains(text, wanted)
    ensures a + wanted + b == text
  {
    var i :| 0 <= i <= |text| && OccursAt(text, wanted, i);
    a, b := text[..i], text[i + |wanted|..];
  }

  lemma {:induction false} ContainsMeans(text: string, wanted: string)
    ensures Contains(text, wanted) <==> exists a: string, b: string :: a + wanted + b == text
  {
    if Contains(text, wanted) {
      var a, b := ContainedIsMiddle(text, wanted);
    }
    forall a: string, b: string | a + wanted + b == text ensures Contains(text, wanted) {
      MiddleIsContained(a, wanted, b);
    }
  }

  /** A literal hit is an occurrence of the literal in the line. */
  lemma {:induction false} HitsAreOccurrences(s: Search, line: string)
    ensures var text := if s.fold.None? then line else s.fold.value(line);
      var wanted := if s.fold.None? then s.literal else s.fold.value(s.literal);
      s.Hits(line) <==> exists a: string, b: string :: a + wanted + b == text
  {
    ContainsMeans(if s.fold.None? then line else s.fold.value(line),
                  if s.fold.None? then s.literal else s.fold.value(s.literal));
  }

  lemma {:induction false} SeenAreIds(cs: seq<Candidate>, s: Search, maxArtifacts: nat)
    ensures forall id :: id in ScanAll(cs, s, maxArtifacts).seen <==> exists i :: 0 <= i < |cs| && cs[i].id == id
  {
    if cs != [] {
      var n := |cs| - 1;
      SeenAreIds(cs[..n], s, maxArtifacts);
      forall id | exists i :: 0 <= i < |cs| && cs[i].id == id ensures id in ScanAll(cs, s, maxArtifacts).seen {
        var i :| 0 <= i < |cs| && cs[i].id == id;
        assert i < n ==> cs[..n][i].id == id;
      }
    }
  }

  lemma {:induction false} FirstIsUnseen(cs: seq<Candidate>, s: Search, maxArtifacts: nat, n: nat)
    requires n < |cs|
    ensures FirstOfId(cs, n) <==> cs[n].id !in ScanAll(cs[..n], s, maxArtifacts).seen
  {
    SeenAreIds(cs[..n], s, maxArtifacts);
    if !FirstOfId(cs, n) {
      var j :| 0 <= j < n && cs[j].id == cs[n].id;
      assert cs[..n][j].id == cs[n].id;
    }
  }

  lemma {:induction false} ListsConcat(cs: seq<Candidate>, s: Search, maxArtifacts: nat,
                                       ps: seq<Spot>, hits: seq<Match>, qs: seq<Spot>, more: seq<Match>)
    requires Lists(cs, s, maxArtifacts, ps, hits) && Lists(cs, s, maxArtifacts, qs, more)
    requires forall p, q :: p in ps && q in qs ==> Ahead(p, q)
    ensures Lists(cs, s, maxArtifacts, ps + qs, hits + more)
  {
    var all := ps + qs;
    forall a, b | 0 <= a < b < |all| ensures Ahead(all[a], all[b]) {
      if a < |ps| && b >= |ps| {
        assert all[a] in ps && all[b] in qs;
      }
    }
  }

  /** The hits of one scanned candidate's first `n` lines. */
  lemma {:induction false} SpotsOfOne(cs: seq<Candidate>, s: Search, maxArtifacts: nat, i: nat, n: nat)
    returns (ps: seq<Spot>)
    requires i < |cs| && Available(cs, i) && AvailableBefore(cs, i) < maxArtifacts && n <= |LinesOf(cs[i])|
    ensures Lists(cs, s, maxArtifacts, ps, HitsIn(cs[i].id, LinesOf(cs[i]), s, n))
    ensures forall p :: p in ps <==> IsHit(cs, s, maxArtifacts, p) && p.candidate == i && p.line <= n
  {
    ps := [];
    if n > 0 {
      var before := SpotsOfOne(cs, s, maxArtifacts, i, n - 1);
      ps := before;
      if s.Hits(LinesOf(cs[i])[n - 1]) {
        var p := Spot(i, n);
        ListsConcat(cs, s, maxArtifacts, before, HitsIn(cs[i].id, LinesOf(cs[i]), s, n - 1),
                    [p], [RecordAt(cs, s, p)]);
        ps := before + [p];
      }
    }
  }

  /** The scan counts the available candidates up to its limit. */
  lemma {:induction false} ScannedCounts(cs: seq<Candidate>, s: Search, maxArtifacts: nat, n: nat)
    requires n <= |cs|
    ensures ScanAll(cs[..n], s, maxArtifacts).scanned == Min(AvailableBefore(cs, n), maxArtifacts)
  {
    if n > 0 {
      var m := n - 1;
      ScannedCounts(cs, s, maxArtifacts, m);
      FirstIsUnseen(cs, s, maxArtifacts, m);
      assert cs[..n][..m] == cs[..m];
    }
  }

  /** The scan finds every hit of the first available candidates and no other. */
  lemma {:induction false} ScanFindsAll(cs: seq<Candidate>, s: Search, maxArtifacts: nat, n: nat)
    returns (ps: seq<Spot>)
    requires n <= |cs|
    ensures Lists(cs, s, maxArtifacts, ps, ScanAll(cs[..n], s, maxArtifacts).hits)
    ensures forall p :: p in ps <==> IsHit(cs, s, maxArtifacts, p) && p.candidate < n
  {
    ps := [];
    if n > 0 {
      var m := n - 1;
      var before := ScanFindsAll(cs, s, maxArtifacts, m);
      ScannedCounts(cs, s, maxArtifacts, m);
      FirstIsUnseen(cs, s, maxArtifacts, m);
      assert cs[..n][..m] == cs[..m];
      ps := before;
      if Available(cs, m) && AvailableBefore(cs, m) < maxArtifacts {
        var last := SpotsOfOne(cs, s, maxArtifacts, m, |LinesOf(cs[m])|);
        ListsConcat(cs, s, maxArtifacts, before, ScanAll(cs[..m], s, maxArtifacts).hits,
                    last, HitsIn(cs[m].id, LinesOf(cs[m]), s, |LinesOf(cs[m])|));
        ps := before + last;
      }
    }
  }

  // ---- The scan loop ----

  /** Across all artifacts the returned matches are the first `maxMatches` of
      all hits, and the reported truncation is exactly what is missing. The
      spots are those of all hits, in candidate and line order. */
  method SearchCommand(cs: seq<Candidate>, s: Search, maxArtifacts: nat, maxMatches: nat)
    returns (matches: seq<Match>, total: nat, truncated: nat, ghost spots: seq<Spot>)
    ensures forall p :: p in spots <==> IsHit(cs, s, maxArtifacts, p)
    ensures forall a, b :: 0 <= a < b < |spots| ==> Ahead(spots[a], spots[b])
    ensures total == |spots| && |matches| <= total
    ensures forall k :: 0 <= k < |matches| ==>
              IsHit(cs, s, maxArtifacts, spots[k]) && matches[k] == RecordAt(cs, s, spots[k])
    ensures matches == Take(ScanAll(cs, s, maxArtifacts).hits, maxMatches)
    ensures total == |ScanAll(cs, s, maxArtifacts).hits|
    ensures |matches| == Min(total, maxMatches) && truncated == total - |matches|
  {
    var seen: set<nat> := {};
    var scanned := 0;
    matches, total := [], 0;
    for i := 0 to |cs|
      invariant var scan := ScanAll(cs[..i], s, maxArtifacts);
        && seen == scan.seen && scanned == scan.scanned
        && matches == Take(scan.hits, maxMatches) && total == |scan.hits|
    {
      assert cs[..i + 1][..i] == cs[..i];
      var c := cs[i];
      if c.id in seen {
        continue;
      }
      seen := seen + {c.id};
      if scanned >= maxArtifacts || c.content.None? {
        continue;
      }
      scanned := scanned + 1;
      var found, count := SearchArtifactContent(c.id, c.content.value, s, Max(0, maxMatches - |matches|));
      total := total + count;
      matches := matches + found;
    }
    assert cs[..|cs|] == cs;
    spots := ScanFindsAll(cs, s, maxArtifacts, |cs|);
    truncated := Max(0, total - maxMatches);
  }

  // ---- Retrieval ----

  datatype Selector = Full | Lines(start: nat, end: nat) | Literal(pattern: string) | Head

  datatype QueryInfo = QueryInfo(returned: nat, matched: nat, total: nat)

  function LinesWith(lines: seq<string>, pattern: string): seq<string> {
    if lines == [] then []
    else (if Contains(lines[0], pattern) then [lines[0]] else []) + LinesWith(lines[1..], pattern)
  }

  /** The lines that a selector picks before the line limit. */
  function Picked(lines: seq<string>, sel: Selector, maxLines: nat): seq<string>
    requires sel.Lines? ==> 1 <= sel.start <= sel.end
  {
    match sel
    case Full => lines
    case Lines(start, end) => lines[Min(start - 1, |lines|)..Min(end, |lines|)]
    case Literal(pattern) => LinesWith(lines, pattern)
    case Head => Take(lines, maxLines)
  }

  function QueryContent(content: string, sel: Selector, maxLines: nat): (string, QueryInfo)
    requires sel.Lines? ==> 1 <= sel.start <= sel.end
  {
    var lines := Split(content);
    var picked := Picked(lines, sel, maxLines);
    var kept := if sel.Full? then picked else Take(picked, maxLines);
    (Join(kept), QueryInfo(|kept|, |picked|, |lines|))
  }

  /** The line limit that a line-range request gets when it names none. */
  function RangeLimit(start: nat, end: nat): nat
    requires start <= end
  {
    Min(end - start + 1, MAX_QUERY_LINES)
  }

  function Texts(lines: seq<NumberedLine>): seq<string> {
    seq(|lines|, i requires 0 <= i < |lines| => lines[i].text)
  }

  /** The lines that a match displays, in order. */
  function Displayed(m: Match): seq<NumberedLine> {
    m.before + [NumberedLine(m.line, m.text)] + m.after
  }

  lemma DisplayedIsWindow(artifact: nat, number: nat, lines: seq<string>, context: nat)
    requires 1 <= number <= |lines|
    ensures var m := MatchRecord(artifact, number, lines, context);
      && 1 <= m.start <= m.line <= m.end <= |lines|
      && Displayed(m) == Numbered(lines, m.start, m.end)
  {
  }

  lemma QueryOfRange(content: string, start: nat, end: nat)
    requires 1 <= start <= end <= |Split(content)| && end - start < MAX_QUERY_LINES
    ensures QueryContent(content, Lines(start, end), RangeLimit(start, end)) ==
            (Join(Split(content)[start - 1..end]),
             QueryInfo(end - start + 1, end - start + 1, |Split(content)|))
  {
  }

  lemma TextsOfWindow(lines: seq<string>, start: nat, end: nat)
    requires 1 <= start <= end <= |lines|
    ensures Texts(Numbered(BareLines(lines), start, end)) == BareLines(lines[start - 1..end])
  {
  }

  /** Retrieval with a match's own selector returns exactly the lines it
      displays: as many, with the same bare text, and splitting the returned
      text gives them back. */
  lemma RetrievalIsExact(artifact: nat, content: string, s: Search, m: Match)
    requires s.contextLines <= MAX_SEARCH_CONTEXT_LINES
    requires m in HitsIn(artifact, BareLines(Split(content)), s, |Split(content)|)
    ensures 1 <= m.start <= m.end <= |Split(content)|
    ensures var (text, info) := QueryContent(content, Lines(m.start, m.end), RangeLimit(m.start, m.end));
      && BareLines(Split(text)) == Texts(Displayed(m))
      && text == Join(Split(content)[m.start - 1..m.end])
      && info.returned == info.matched == |Displayed(m)| == m.end - m.start + 1
      && (forall i :: 0 <= i < |Displayed(m)| ==> Displayed(m)[i].line == m.start + i)
  {
    var lines := Split(content);
    HitIsRecord(artifact, BareLines(lines), s, |lines|, m);
    DisplayedIsWindow(artifact, m.line, BareLines(lines), s.contextLines);
    QueryOfRange(content, m.start, m.end);
    SliceSurvives(content, m.start - 1, m.end);
    TextsOfWindow(lines, m.start, m.end);
  }

  // ---- Everything a search returns ----

  predicate FoundIn(c: Candidate, s: Search, m: Match) {
    && c.content.Some? && m.artifact == c.id
    && m in HitsIn(c.id, BareLines(Split(c.content.value)), s, |Split(c.content.value)|)
  }

  ghost predicate Comes(cs: seq<Candidate>, s: Search, m: Match) {
    exists i :: 0 <= i < |cs| && FirstOfId(cs, i) && FoundIn(cs[i], s, m)
  }

  lemma ComesStill(cs: seq<Candidate>, c: Candidate, s: Search, m: Match)
    requires Comes(cs, s, m)
    ensures Comes(cs + [c], s, m)
  {
    var i :| 0 <= i < |cs| && FirstOfId(cs, i) && FoundIn(cs[i], s, m);
    assert (cs + [c])[i] == cs[i] && FirstOfId(cs + [c], i);
  }

  /** Every hit of a scan is a hit in the content of the one candidate that the
      scan took for its id. */
  lemma {:induction false} HitsComeFromCandidates(cs: seq<Candidate>, s: Search, maxArtifacts: nat)
    ensures forall m :: m in ScanAll(cs, s, maxArtifacts).hits ==> Comes(cs, s, m)
  {
    if cs != [] {
      var n := |cs| - 1;
      var before, c := cs[..n], cs[n];
      assert cs == before + [c];
      HitsComeFromCandidates(before, s, maxArtifacts);
      SeenAreIds(before, s, maxArtifacts);
      forall m | m in ScanAll(cs, s, maxArtifacts).hits ensures Comes(cs, s, m) {
        if m in ScanAll(before, s, maxArtifacts).hits {
          ComesStill(before, c, s, m);
        } else {
          HitIsRecord(c.id, BareLines(Split(c.content.value)), s, |Split(c.content.value)|, m);
          assert FoundIn(c, s, m);
          assert FirstOfId(cs, n) by {
            forall j | 0 <= j < n ensures cs[j].id != c.id {
              assert before[j] == cs[j];
            }
          }
        }
      }
    }
  }

  ghost predicate RetrievesExactly(content: string, m: Match) {
    && 1 <= m.start <= m.end
    && var (text, info) := QueryContent(content, Lines(m.start, m.end), RangeLimit(m.start, m.end));
    && BareLines(Split(text)) == Texts(Displayed(m))
    && info.returned == info.matched == |Displayed(m)|
  }

  /** Every match that a search returns comes from the content of its artifact,
      and retrieving it from there returns exactly the lines it displays. */
  lemma EveryMatchRetrieves(cs: seq<Candidate>, s: Search, maxArtifacts: nat, maxMatches: nat, m: Match)
    returns (i: nat)
    requires s.contextLines <= MAX_SEARCH_CONTEXT_LINES
    requires m in Take(ScanAll(cs, s, maxArtifacts).hits, maxMatches)
    ensures i < |cs| && cs[i].id == m.artifact && FirstOfId(cs, i) && cs[i].content.Some?
    ensures RetrievesExactly(cs[i].content.value, m)
  {
    HitsComeFromCandidates(cs, s, maxArtifacts);
    assert Comes(cs, s, m);
    i :| 0 <= i < |cs| && FirstOfId(cs, i) && FoundIn(cs[i], s, m);
    RetrievalIsExact(cs[i].id, cs[i].content.value, s, m);
  }

  /** Display strips trailing line feeds from a bare line; there are none. */
  lemma BareHasNoLineFeed(text: string, i: nat)
    requires i < |Split(text)|
    ensures '\n' !in Bare(Split(text)[i])
  {
    SplitIsProper(text);
    OnlyEndsAreBoundaries(Split(text)[i]);
  }

  lemma {:induction false} OnlyEndsAreBoundaries(line: string)
    requires IsLine(line)
    ensures forall c :: c in Bare(line) ==> !IsBoundary(c)
  {
    if !StartsWithCrLf(line) && !IsBoundary(line[0]) && |line| > 1 {
      OnlyEndsAreBoundaries(line[1..]);
      assert Bare(line) == [line[0]] + Bare(line[1..]);
    }
  }
}
