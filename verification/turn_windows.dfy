/** Turn windows: which response each observed byte is charged to, and the two
    ways of cutting the created tokens. */
module TurnWindows {
  import opened Basics
  import opened Counters

  /** What arrives between two responses. */
  datatype Volume = Volume(textBytes: nat, results: nat, assistantBytes: nat)

  function Plus(a: Volume, b: Volume): Volume {
    Volume(a.textBytes + b.textBytes, a.results + b.results, a.assistantBytes + b.assistantBytes)
  }

  lemma PlusLaws(a: Volume, b: Volume, c: Volume)
    ensures Plus(Plus(a, b), c) == Plus(a, Plus(b, c))
    ensures Plus(a, b) == Plus(b, a)
    ensures Plus(a, Nothing()) == a
  {
  }

  function Nothing(): Volume {
    Volume(0, 0, 0)
  }

  /** A volume counted several times. */
  function Scale(n: nat, v: Volume): Volume {
    if n == 0 then Nothing() else Plus(Scale(n - 1, v), v)
  }

  /** A member that may hold a text; an absent member is some value without one. */
  datatype Field = Words(text: string) | NoText(value: nat)

  /** A transcript row of one file. The reducer's view of it: whether it is a
      usage row, its two session members, its message id, its digest, what it
      created and its time. The audit's view: what it adds to the window and
      the tool of its last result. */
  datatype Row = Row(
    accepted: bool, snakeSession: Field, camelSession: Field, id: Option<string>, digest: nat,
    created: nat, stamp: Option<int>, adds: Volume, lastTool: Option<string>)

  predicate HasId(r: Row) {
    r.id.Some? && r.id.value != ""
  }

  // ---- The scan ----

  /** The scan's own notion of a response: a message of a `sessionId`, or a row by itself. */
  datatype GroupKey = Message(session: Field, id: string) | Alone(ordinal: nat)

  function GroupOf(r: Row, ordinal: nat): GroupKey {
    if HasId(r) then Message(r.camelSession, r.id.value) else Alone(ordinal)
  }

  /** What a row stores when the reducer accepts it. */
  datatype Snapshot = Snapshot(volume: Volume, preceding: Option<string>)

  /** What the scan carries from row to row; the snapshots are by row ordinal. */
  datatype Scan = Scan(
    ordinal: nat,
    previous: Option<GroupKey>,
    pending: Volume,
    lastTool: Option<string>,
    snapshots: map<nat, Snapshot>)

  const START := Scan(0, None, Nothing(), None, map[])

  function Observed(s: Scan, r: Row): Scan {
    var key := Some(GroupOf(r, s.ordinal));
    var reset := r.accepted && key != s.previous;
    Scan(
      s.ordinal + 1,
      if r.accepted then key else s.previous,
      Plus(if reset then Nothing() else s.pending, r.adds),
      if r.lastTool.Some? then r.lastTool else s.lastTool,
      if r.accepted then s.snapshots[s.ordinal := Snapshot(s.pending, s.lastTool)] else s.snapshots)
  }

  function Scanned(rows: seq<Row>): Scan {
    if rows == [] then START
    else Observed(Scanned(rows[..|rows| - 1]), rows[|rows| - 1])
  }

  /** The nonlocal variables that the row observer updates. */
  class RowObserver {
    var nextOrdinal: nat
    var previousGroupKey: Option<GroupKey>
    var pending: Volume
    var lastTool: Option<string>
    var snapshots: map<nat, Snapshot>

    function View(): Scan
      reads this
    {
      Scan(nextOrdinal, previousGroupKey, pending, lastTool, snapshots)
    }

    constructor ()
      ensures View() == START
    {
      nextOrdinal, previousGroupKey, pending, lastTool, snapshots := 0, None, Nothing(), None, map[];
    }

    method ObserveRow(r: Row)
      modifies this
      ensures View() == Observed(old(View()), r)
    {
      var ordinal := nextOrdinal;
      nextOrdinal := nextOrdinal + 1;
      if r.accepted {
        snapshots := snapshots[ordinal := Snapshot(pending, lastTool)];
        var key := GroupOf(r, ordinal);
        if Some(key) != previousGroupKey {
          previousGroupKey := Some(key);
          pending := Nothing();
        }
      }
      pending := Plus(pending, r.adds);
      if r.lastTool.Some? {
        lastTool := r.lastTool;
      }
    }
  }

  // ---- Every byte falls in one window ----

  function Total(rows: seq<Row>): Volume {
    if rows == [] then Nothing() else Plus(Total(rows[..|rows| - 1]), rows[|rows| - 1].adds)
  }

  /** What observing row `i` finds pending, and stores if it accepts the row. */
  function PendingAt(rows: seq<Row>, i: nat): Volume
    requires i < |rows|
  {
    Scanned(rows[..i]).pending
  }

  /** Row `i` opens a run: it is accepted and the last accepted row before it
      is of another group. */
  predicate OpensRun(rows: seq<Row>, i: nat)
    requires i < |rows|
  {
    rows[i].accepted && Scanned(rows[..i]).previous != Some(GroupOf(rows[i], i))
  }

  /** The windows of all runs. */
  function RunWindows(rows: seq<Row>): Volume {
    if rows == [] then Nothing()
    else
      var i := |rows| - 1;
      if OpensRun(rows, i) then Plus(RunWindows(rows[..i]), PendingAt(rows, i))
      else RunWindows(rows[..i])
  }

  lemma {:induction false} ScanCounts(rows: seq<Row>)
    ensures Scanned(rows).ordinal == |rows|
  {
    if rows != [] {
      ScanCounts(rows[..|rows| - 1]);
    }
  }

  /** The windows snapshotted at the first row of each run, plus what is still
      pending, are exactly everything observed. */
  lemma {:induction false} WindowsPartition(rows: seq<Row>)
    ensures Plus(RunWindows(rows), Scanned(rows).pending) == Total(rows)
  {
    if rows != [] {
      var i := |rows| - 1;
      WindowsPartition(rows[..i]);
      ScanCounts(rows[..i]);
      PlusLaws(RunWindows(rows[..i]), Scanned(rows[..i]).pending, rows[i].adds);
    }
  }

  /** The stored snapshot of an accepted row is what was pending before it. */
  lemma {:induction false} SnapshotIsStored(rows: seq<Row>, i: nat)
    requires i < |rows| && rows[i].accepted
    ensures i in Scanned(rows).snapshots
    ensures Scanned(rows).snapshots[i] == Snapshot(PendingAt(rows, i), Scanned(rows[..i]).lastTool)
  {
    var n := |rows| - 1;
    ScanCounts(rows[..n]);
    if i < n {
      SnapshotIsStored(rows[..n], i);
      assert rows[..n][..i] == rows[..i];
    }
  }

  // ---- Which rows a window holds ----

  /** Row `k` still counts among the pending: no run has opened after it. */
  predicate Held(rows: seq<Row>, k: nat)
    requires k < |rows|
    decreases |rows|
  {
    k == |rows| - 1 || (Held(rows[..|rows| - 1], k) && !OpensRun(rows, |rows| - 1))
  }

  /** The held rows among the first `m`. */
  function HeldVolume(rows: seq<Row>, m: nat): Volume
    requires m <= |rows|
  {
    if m == 0 then Nothing()
    else if Held(rows, m - 1) then Plus(HeldVolume(rows, m - 1), rows[m - 1].adds)
    else HeldVolume(rows, m - 1)
  }

  lemma {:induction false} HeldBefore(rows: seq<Row>, m: nat)
    requires m < |rows|
    ensures HeldVolume(rows, m)
            == if OpensRun(rows, |rows| - 1) then Nothing() else HeldVolume(rows[..|rows| - 1], m)
  {
    if m > 0 {
      HeldBefore(rows, m - 1);
    }
  }

  /** What is pending is the volume of the held rows. */
  lemma {:induction false} PendingIsHeld(rows: seq<Row>)
    ensures Scanned(rows).pending == HeldVolume(rows, |rows|)
  {
    if rows != [] {
      var n := |rows| - 1;
      PendingIsHeld(rows[..n]);
      ScanCounts(rows[..n]);
      HeldBefore(rows, n);
    }
  }

  // ---- Reading windows at any set of rows ----

  type Reads = nat -> bool

  function ReadWindows(rows: seq<Row>, readAt: Reads): Volume {
    if rows == [] then Nothing()
    else
      var i := |rows| - 1;
      if readAt(i) then Plus(ReadWindows(rows[..i], readAt), PendingAt(rows, i)) else ReadWindows(rows[..i], readAt)
  }

  /** How many of the windows read hold row `k`. */
  function TimesRead(rows: seq<Row>, readAt: Reads, k: nat): nat
    requires k < |rows|
    decreases |rows|
  {
    var n := |rows| - 1;
    if k == n then 0
    else TimesRead(rows[..n], readAt, k) + if readAt(n) && Held(rows[..n], k) then 1 else 0
  }

  /** How often row `k` counts: in the windows read, and among the pending. */
  function TimesCounted(rows: seq<Row>, readAt: Reads, k: nat): nat
    requires k < |rows|
  {
    TimesRead(rows, readAt, k) + if Held(rows, k) then 1 else 0
  }

  /** The first `m` rows, each as often as the windows read hold it. */
  function ReadVolume(rows: seq<Row>, readAt: Reads, m: nat): Volume
    requires m <= |rows|
  {
    if m == 0 then Nothing()
    else Plus(ReadVolume(rows, readAt, m - 1), Scale(TimesRead(rows, readAt, m - 1), rows[m - 1].adds))
  }

  lemma Swap(a: Volume, b: Volume, c: Volume, d: Volume)
    ensures Plus(Plus(a, b), Plus(c, d)) == Plus(Plus(a, c), Plus(b, d))
  {
  }

  /** One more row, held by the last window or not. */
  lemma ReadMore(read: Volume, held: Volume, times: nat, v: Volume)
    ensures Plus(Plus(read, held), Scale(times, v)) == Plus(Plus(read, Scale(times, v)), held)
    ensures Plus(Plus(read, held), Scale(times + 1, v)) == Plus(Plus(read, Scale(times, v)), Plus(held, v))
  {
  }

  lemma {:induction false} ReadBefore(rows: seq<Row>, readAt: Reads, m: nat)
    requires m < |rows|
    ensures var before := rows[..|rows| - 1];
      ReadVolume(rows, readAt, m)
      == if readAt(|rows| - 1) then Plus(ReadVolume(before, readAt, m), HeldVolume(before, m))
         else ReadVolume(before, readAt, m)
  {
    if m > 0 {
      var before := rows[..|rows| - 1];
      ReadBefore(rows, readAt, m - 1);
      ReadMore(ReadVolume(before, readAt, m - 1), HeldVolume(before, m - 1),
               TimesRead(before, readAt, m - 1), rows[m - 1].adds);
    }
  }

  /** No window holds the last row yet. */
  lemma LastIsUnread(rows: seq<Row>, readAt: Reads)
    requires rows != []
    ensures ReadVolume(rows, readAt, |rows|) == ReadVolume(rows, readAt, |rows| - 1)
  {
    var before := ReadVolume(rows, readAt, |rows| - 1);
    assert TimesRead(rows, readAt, |rows| - 1) == 0;
    PlusLaws(before, before, before);
  }

  lemma WeighStep(rows: seq<Row>, readAt: Reads)
    requires rows != []
    requires var before := rows[..|rows| - 1]; ReadWindows(before, readAt) == ReadVolume(before, readAt, |before|)
    ensures ReadWindows(rows, readAt) == ReadVolume(rows, readAt, |rows|)
  {
    var n := |rows| - 1;
    PendingIsHeld(rows[..n]);
    ReadBefore(rows, readAt, n);
    LastIsUnread(rows, readAt);
  }

  /** For every set of rows at which windows are read: the windows add up each
      row as often as they hold it. */
  lemma {:induction false} WindowsWeighRows(rows: seq<Row>, readAt: Reads)
    ensures ReadWindows(rows, readAt) == ReadVolume(rows, readAt, |rows|)
  {
    if rows == [] {
      NothingToWeigh(rows, readAt, |rows|);
    } else {
      WindowsWeighRows(rows[..|rows| - 1], readAt);
      WeighStep(rows, readAt);
    }
  }

  lemma NothingToWeigh(rows: seq<Row>, readAt: Reads, m: nat)
    requires m <= |rows| && m == 0
    ensures ReadVolume(rows, readAt, m) == Nothing()
  {
  }

  lemma NextToLast(rows: seq<Row>, readAt: Reads)
    requires |rows| >= 2
    ensures var n := |rows| - 1;
      TimesCounted(rows, readAt, n - 1) == (if readAt(n) then 1 else 0) + (if OpensRun(rows, n) then 0 else 1)
  {
    var n := |rows| - 1;
    var before := rows[..n];
    assert Held(before, n - 1) && TimesRead(before, readAt, n - 1) == 0;
  }

  /** Whatever arrives at whichever row counts exactly once, if and only if the
      windows are read at the rows that open a run and at no other. The window
      of the first row is empty. */
  lemma {:induction false} CountedOnceIffReadAtRuns(rows: seq<Row>, readAt: Reads)
    ensures (forall k :: 0 <= k < |rows| ==> TimesCounted(rows, readAt, k) == 1)
            <==> forall i :: 0 < i < |rows| ==> (readAt(i) <==> OpensRun(rows, i))
  {
    if rows != [] {
      var n := |rows| - 1;
      var before := rows[..n];
      CountedOnceIffReadAtRuns(before, readAt);
      forall i | 0 <= i < n ensures OpensRun(before, i) == OpensRun(rows, i) {
        assert before[..i] == rows[..i];
      }
      if n > 0 {
        NextToLast(rows, readAt);
      }
      if readAt(n) == OpensRun(rows, n) {
        assert forall k :: 0 <= k < n ==> TimesCounted(rows, readAt, k) == TimesCounted(before, readAt, k);
      }
    }
  }

  lemma {:induction false} CountedOnceIsTotal(rows: seq<Row>, readAt: Reads, m: nat)
    requires m <= |rows|
    requires forall k :: 0 <= k < |rows| ==> TimesCounted(rows, readAt, k) == 1
    ensures Plus(ReadVolume(rows, readAt, m), HeldVolume(rows, m)) == Total(rows[..m])
  {
    if m > 0 {
      CountedOnceIsTotal(rows, readAt, m - 1);
      assert rows[..m][..m - 1] == rows[..m - 1];
      var v := rows[m - 1].adds;
      assert Scale(1, v) == Plus(Scale(0, v), v);
      PlusLaws(v, Nothing(), v);
      assert TimesCounted(rows, readAt, m - 1) == 1;
      Swap(ReadVolume(rows, readAt, m - 1), HeldVolume(rows, m - 1), v, Nothing());
      Swap(ReadVolume(rows, readAt, m - 1), HeldVolume(rows, m - 1), Nothing(), v);
      PlusLaws(HeldVolume(rows, m - 1), Nothing(), v);
      PlusLaws(ReadVolume(rows, readAt, m - 1), Nothing(), v);
    }
  }

  // ---- The reducer's responses ----

  /** The reducer's own notion of a response: a message of a session, or all
      rows with the same digest. */
  datatype ResponseKey = ById(session: string, id: string) | ByDigest(session: string, digest: nat)

  function SessionOf(r: Row): string {
    if r.snakeSession.Words? then r.snakeSession.text
    else if r.camelSession.Words? then r.camelSession.text
    else ""
  }

  function ResponseOf(r: Row): ResponseKey {
    if HasId(r) then ById(SessionOf(r), r.id.value) else ByDigest(SessionOf(r), r.digest)
  }

  datatype Candidate = Candidate(ordinal: nat, created: nat, stamp: Option<int>)

  /** The accepted rows of one response, in order. */
  function Candidates(rows: seq<Row>, key: ResponseKey): seq<Candidate> {
    if rows == [] then []
    else
      var n := |rows| - 1;
      var before := Candidates(rows[..n], key);
      if rows[n].accepted && ResponseOf(rows[n]) == key
      then before + [Candidate(n, rows[n].created, rows[n].stamp)] else before
  }

  /** Precedence: a time beats none, then the later time, then the later row. */
  predicate Beats(a: Candidate, b: Candidate) {
    if a.stamp.Some? && b.stamp.Some? && a.stamp.value != b.stamp.value then a.stamp.value > b.stamp.value
    else if a.stamp.Some? != b.stamp.Some? then a.stamp.Some?
    else a.ordinal > b.ordinal
  }

  datatype Selection = Selection(created: nat, anchor: nat)

  function BestOf(cs: seq<Candidate>): Candidate
    requires cs != []
  {
    if |cs| == 1 then cs[0]
    else
      var before, last := BestOf(cs[..|cs| - 1]), cs[|cs| - 1];
      if Beats(before, last) then before else last
  }

  function FirstOf(cs: seq<Candidate>): nat
    requires cs != []
  {
    if |cs| == 1 then cs[0].ordinal else Min(FirstOf(cs[..|cs| - 1]), cs[|cs| - 1].ordinal)
  }

  lemma {:induction false} FirstIsLeast(cs: seq<Candidate>)
    requires cs != []
    ensures forall c :: c in cs ==> FirstOf(cs) <= c.ordinal
    ensures exists c :: c in cs && c.ordinal == FirstOf(cs)
  {
    if |cs| > 1 {
      var before, last := cs[..|cs| - 1], cs[|cs| - 1];
      FirstIsLeast(before);
      var c :| c in before && c.ordinal == FirstOf(before);
      assert c in cs && last in cs;
      forall d | d in cs ensures FirstOf(cs) <= d.ordinal {
        assert d in before || d == last;
      }
    } else {
      assert cs[0] in cs;
    }
  }

  /** The reducer's groups and what it selects from each. */
  class UsageReducer {
    var groups: map<ResponseKey, seq<Candidate>>
    ghost var rows: seq<Row>

    ghost predicate Valid()
      reads this
    {
      forall key :: Candidates(rows, key) == if key in groups then groups[key] else []
    }

    constructor ()
      ensures Valid() && rows == []
    {
      groups, rows := map[], [];
    }

    method Observe(r: Row, ordinal: nat)
      requires Valid() && ordinal == |rows|
      modifies this
      ensures Valid() && rows == old(rows) + [r]
    {
      if r.accepted {
        var key := ResponseOf(r);
        var before := if key in groups then groups[key] else [];
        groups := groups[key := before + [Candidate(ordinal, r.created, r.stamp)]];
      }
      assert (rows + [r])[..|rows|] == rows;
      rows := rows + [r];
    }

    /** The winner by precedence, and the lowest ordinal of the group. */
    method Finalize(key: ResponseKey) returns (s: Selection)
      requires Valid() && key in groups && groups[key] != []
      ensures s == Selection(BestOf(Candidates(rows, key)).created, FirstOf(Candidates(rows, key)))
    {
      var cs := groups[key];
      var best, first := cs[0], cs[0].ordinal;
      for i := 1 to |cs|
        invariant best == BestOf(cs[..i]) && first == FirstOf(cs[..i])
      {
        assert cs[..i + 1][..i] == cs[..i];
        if !Beats(best, cs[i]) {
          best := cs[i];
        }
        first := Min(first, cs[i].ordinal);
      }
      assert cs[..|cs|] == cs;
      s := Selection(best.created, first);
    }
  }

  // ---- What the consumer reads ----

  /** Row `i` is where the consumer reads: the anchor of a response that was
      selected, not `skipped` for overflow, and created tokens. */
  predicate IsRead(rows: seq<Row>, skipped: ResponseKey -> bool, i: nat) {
    && i < |rows| && rows[i].accepted
    && var cs := Candidates(rows, ResponseOf(rows[i]));
    cs != [] && FirstOf(cs) == i && BestOf(cs).created > 0 && !skipped(ResponseOf(rows[i]))
  }

  function ReadAt(rows: seq<Row>, skipped: ResponseKey -> bool): Reads {
    (i: nat) => IsRead(rows, skipped, i)
  }

  predicate Anchors(rows: seq<Row>, i: nat)
    requires i < |rows|
  {
    rows[i].accepted && forall j :: 0 <= j < i && rows[j].accepted ==> ResponseOf(rows[j]) != ResponseOf(rows[i])
  }

  lemma {:induction false} CandidatesAre(rows: seq<Row>, key: ResponseKey)
    ensures forall c :: c in Candidates(rows, key) ==>
      c.ordinal < |rows| && rows[c.ordinal].accepted && ResponseOf(rows[c.ordinal]) == key
    ensures forall i :: 0 <= i < |rows| && rows[i].accepted && ResponseOf(rows[i]) == key ==>
      Candidate(i, rows[i].created, rows[i].stamp) in Candidates(rows, key)
  {
    if rows != [] {
      var n := |rows| - 1;
      CandidatesAre(rows[..n], key);
      forall i | 0 <= i < |rows| && rows[i].accepted && ResponseOf(rows[i]) == key
        ensures Candidate(i, rows[i].created, rows[i].stamp) in Candidates(rows, key)
      {
        if i < n {
          assert rows[..n][i] == rows[i];
        }
      }
    }
  }

  lemma BeatsChains(a: Candidate, b: Candidate, c: Candidate)
    requires !Beats(a, b) && Beats(a, c)
    ensures Beats(b, c)
  {
  }

  /** The winner beats every other row of its group. */
  lemma {:induction false} BestWins(rows: seq<Row>, key: ResponseKey)
    requires Candidates(rows, key) != []
    ensures var cs := Candidates(rows, key);
      BestOf(cs) in cs && forall c :: c in cs && c != BestOf(cs) ==> Beats(BestOf(cs), c)
  {
    var n := |rows| - 1;
    var before, cs := Candidates(rows[..n], key), Candidates(rows, key);
    if before != [] {
      BestWins(rows[..n], key);
      CandidatesAre(rows[..n], key);
      if cs != before {
        var last := cs[|cs| - 1];
        assert cs[..|cs| - 1] == before && last.ordinal > BestOf(before).ordinal;
        forall c | c in cs && c != BestOf(cs) ensures Beats(BestOf(cs), c) {
          if c != last && c != BestOf(before) && !Beats(BestOf(before), last) {
            BeatsChains(BestOf(before), last, c);
          }
        }
      }
    }
  }

  /** The lowest ordinal of a group is its first accepted row. */
  lemma AnchorIsFirst(rows: seq<Row>, i: nat)
    requires i < |rows| && rows[i].accepted
    ensures var cs := Candidates(rows, ResponseOf(rows[i])); cs != [] && (FirstOf(cs) == i <==> Anchors(rows, i))
  {
    var key := ResponseOf(rows[i]);
    var cs := Candidates(rows, key);
    CandidatesAre(rows, key);
    assert Candidate(i, rows[i].created, rows[i].stamp) in cs;
    FirstIsLeast(cs);
    if Anchors(rows, i) {
      var c :| c in cs && c.ordinal == FirstOf(cs);
      assert c.ordinal >= i;
    }
    if FirstOf(cs) == i {
      forall j | 0 <= j < i && rows[j].accepted ensures ResponseOf(rows[j]) != key {
        assert Candidate(j, rows[j].created, rows[j].stamp) !in cs;
      }
    }
  }

  /** What arrives in a file counts exactly once in what the consumer reads and
      what is pending, wherever it arrives, if and only if the responses that
      created tokens are anchored exactly where the runs open. */
  lemma ConsumerCoversExactly(rows: seq<Row>, skipped: ResponseKey -> bool)
    ensures (forall k :: 0 <= k < |rows| ==> TimesCounted(rows, ReadAt(rows, skipped), k) == 1)
            <==> forall i :: 0 < i < |rows| ==> (IsRead(rows, skipped, i) <==> OpensRun(rows, i))
    ensures (forall i :: 0 < i < |rows| ==> (IsRead(rows, skipped, i) <==> OpensRun(rows, i)))
            ==> Plus(ReadWindows(rows, ReadAt(rows, skipped)), Scanned(rows).pending) == Total(rows)
  {
    var readAt := ReadAt(rows, skipped);
    CountedOnceIffReadAtRuns(rows, readAt);
    if forall i :: 0 < i < |rows| ==> (IsRead(rows, skipped, i) <==> OpensRun(rows, i)) {
      CountedOnceIsTotal(rows, readAt, |rows|);
      WindowsWeighRows(rows, readAt);
      PendingIsHeld(rows);
      assert rows[..|rows|] == rows;
    }
  }

  // ---- Why the two disagree ----

  /** A run that is not read: its response is anchored earlier, was skipped, or
      created nothing. */
  lemma UnreadRun(rows: seq<Row>, skipped: ResponseKey -> bool, i: nat)
    requires i < |rows| && OpensRun(rows, i)
    ensures var key := ResponseOf(rows[i]);
      && Candidates(rows, key) != []
      && (!IsRead(rows, skipped, i)
          <==> !Anchors(rows, i) || skipped(key) || BestOf(Candidates(rows, key)).created == 0)
  {
    AnchorIsFirst(rows, i);
  }

  /** Such a run is not covered: what arrives at some row does not count once. */
  lemma UnreadRunIsNotCovered(rows: seq<Row>, skipped: ResponseKey -> bool, i: nat) returns (k: nat)
    requires 0 < i < |rows| && OpensRun(rows, i) && !IsRead(rows, skipped, i)
    ensures k < |rows| && TimesCounted(rows, ReadAt(rows, skipped), k) != 1
  {
    ConsumerCoversExactly(rows, skipped);
    k :| 0 <= k < |rows| && TimesCounted(rows, ReadAt(rows, skipped), k) != 1;
  }

  /** The group of the last run was accepted at some earlier row. */
  lemma {:induction false} PreviousWasSeen(rows: seq<Row>)
    ensures var p := Scanned(rows).previous;
      p.Some? ==> exists j :: 0 <= j < |rows| && rows[j].accepted && GroupOf(rows[j], j) == p.value
  {
    if rows != [] {
      var i := |rows| - 1;
      ScanCounts(rows[..i]);
      if rows[i].accepted {
        assert GroupOf(rows[i], i) == Scanned(rows).previous.value;
      } else if Scanned(rows).previous.Some? {
        PreviousWasSeen(rows[..i]);
        var j :| 0 <= j < i && rows[..i][j].accepted && GroupOf(rows[..i][j], j) == Scanned(rows).previous.value;
        assert rows[j].accepted && GroupOf(rows[j], j) == Scanned(rows).previous.value;
      }
    }
  }

  /** Two rows share a message id and a `sessionId`, and differ in session. */
  predicate SharesMessage(a: Row, b: Row) {
    HasId(a) && HasId(b) && a.id == b.id && a.camelSession == b.camelSession && SessionOf(a) != SessionOf(b)
  }

  /** A row that is read inside a run shares its message with an earlier row of
      another session. */
  lemma ReadInsideRun(rows: seq<Row>, skipped: ResponseKey -> bool, i: nat) returns (j: nat)
    requires i < |rows| && IsRead(rows, skipped, i) && !OpensRun(rows, i)
    ensures j < i && rows[j].accepted && SharesMessage(rows[j], rows[i])
  {
    AnchorIsFirst(rows, i);
    PreviousWasSeen(rows[..i]);
    j :| 0 <= j < i && rows[..i][j].accepted && GroupOf(rows[..i][j], j) == GroupOf(rows[i], i);
    assert rows[..i][j] == rows[j];
  }

  lemma ScanOfOne(a: Row)
    ensures Scanned([a]).previous == (if a.accepted then Some(GroupOf(a, 0)) else None)
    ensures Scanned([a]).ordinal == 1
  {
    assert [a][..0] == [];
  }

  lemma ScanOfTwo(a: Row, t: Row)
    requires a.accepted && !t.accepted
    ensures Scanned([a, t]).previous == Some(GroupOf(a, 0)) && Held([a, t], 1)
  {
    ScanOfOne(a);
    assert [a, t][..1] == [a];
  }

  /** Identical rows without an id are one response and two runs: what arrives
      between them is never read. */
  lemma IdenticalRowsLoseAWindow(a: Row, t: Row, skipped: ResponseKey -> bool)
    requires a.accepted && !HasId(a) && !t.accepted
    ensures OpensRun([a, t, a], 2) && TimesCounted([a, t, a], ReadAt([a, t, a], skipped), 1) == 0
  {
    var rows := [a, t, a];
    assert rows[..2] == [a, t];
    ScanOfTwo(a, t);
    AnchorIsFirst(rows, 2);
    assert !Anchors(rows, 2) by { assert rows[0].accepted && ResponseOf(rows[0]) == ResponseOf(rows[2]); }
    NextToLast(rows, ReadAt(rows, skipped));
  }

  lemma OnlyCandidate(a: Row, t: Row, b: Row)
    requires !t.accepted && b.accepted && ResponseOf(a) != ResponseOf(b)
    ensures Candidates([a, t, b], ResponseOf(b)) == [Candidate(2, b.created, b.stamp)]
  {
    var key := ResponseOf(b);
    assert [a][..0] == [] && [a, t][..1] == [a] && [a, t, b][..2] == [a, t];
    assert Candidates([a], key) == [];
    assert Candidates([a, t], key) == [];
  }

  /** A message shared by two sessions is two responses and one run: what
      arrives between them is read and stays pending. */
  lemma SharedMessageCountsTwice(a: Row, t: Row, b: Row, skipped: ResponseKey -> bool)
    requires a.accepted && !t.accepted && b.accepted && SharesMessage(a, b)
    requires b.created > 0 && !skipped(ResponseOf(b))
    ensures TimesCounted([a, t, b], ReadAt([a, t, b], skipped), 1) == 2
  {
    var rows := [a, t, b];
    assert rows[..2] == [a, t];
    ScanOfTwo(a, t);
    AnchorIsFirst(rows, 2);
    assert Anchors(rows, 2);
    OnlyCandidate(a, t, b);
    NextToLast(rows, ReadAt(rows, skipped));
  }

  // ---- The label of a window ----

  /** A row names a tool exactly when it brings a result. */
  predicate Labelled(rows: seq<Row>) {
    forall k :: 0 <= k < |rows| ==> (rows[k].lastTool.Some? <==> rows[k].adds.results > 0)
  }

  /** The label kept for a window that brings results is that of its own last
      result, never one left over from an earlier window. */
  lemma {:induction false} LabelIsOfThisWindow(rows: seq<Row>) returns (k: nat)
    requires Labelled(rows) && Scanned(rows).pending.results > 0
    ensures k < |rows| && Held(rows, k) && rows[k].lastTool.Some? && Scanned(rows).lastTool == rows[k].lastTool
    ensures forall m :: k < m < |rows| ==> rows[m].lastTool.None?
  {
    var n := |rows| - 1;
    ScanCounts(rows[..n]);
    if rows[n].lastTool.Some? {
      k := n;
    } else {
      assert !OpensRun(rows, n);
      k := LabelIsOfThisWindow(rows[..n]);
      assert rows[..n][k] == rows[k];
      forall m | k < m < |rows| ensures rows[m].lastTool.None? {
        if m < n {
          assert rows[..n][m] == rows[m];
        }
      }
    }
  }

  // ---- Cutting the created tokens two ways ----

  const NO_PRECEDING_TOOL_LABEL := "no_tool_result"

  /** A selected response: created and cached tokens, and what its anchor stored. */
  datatype Selected = Selected(created: int, cacheRead: int, preceding: Option<string>, results: nat)

  datatype Cut = Cut(
    byTool: map<string, nat>, turnsByTool: map<string, nat>,
    coldTurns: nat, coldTokens: nat,
    rewriteTurns: nat, rewriteTokens: nat,
    incrementalTurns: nat, incrementalTokens: nat)

  type Kind = Selected -> bool

  /** The created tokens of the responses of one kind. */
  function Tokens(ss: seq<Selected>, kind: Kind): nat {
    if ss == [] then 0
    else
      var last := ss[|ss| - 1];
      Tokens(ss[..|ss| - 1], kind) + if last.created > 0 && kind(last) then last.created else 0
  }

  /** The responses of one kind that created any. */
  function Turns(ss: seq<Selected>, kind: Kind): nat {
    if ss == [] then 0
    else
      var last := ss[|ss| - 1];
      Turns(ss[..|ss| - 1], kind) + if last.created > 0 && kind(last) then 1 else 0
  }

  function Any(): Kind {
    s => true
  }

  function ColdStart(): Kind {
    (s: Selected) => s.cacheRead <= 0
  }

  function Rewrite(): Kind {
    (s: Selected) => 0 < s.cacheRead <= s.created
  }

  function Incremental(): Kind {
    (s: Selected) => 0 < s.cacheRead && s.created < s.cacheRead
  }

  /** The tool whose result came last in front of the response, if any did. */
  function LabelOf(s: Selected): string {
    if s.results == 0 || s.preceding.None? then NO_PRECEDING_TOOL_LABEL else s.preceding.value
  }

  function PrecededBy(tool: string): Kind {
    (s: Selected) => LabelOf(s) == tool
  }

  lemma CutSnoc(ss: seq<Selected>, i: nat, kind: Kind)
    requires i < |ss|
    ensures Tokens(ss[..i + 1], kind)
            == Tokens(ss[..i], kind) + if ss[i].created > 0 && kind(ss[i]) then ss[i].created else 0
    ensures Turns(ss[..i + 1], kind) == Turns(ss[..i], kind) + if ss[i].created > 0 && kind(ss[i]) then 1 else 0
  {
    assert ss[..i + 1][..i] == ss[..i];
  }

  /** Each tool's row holds its own responses, and the rows sum to all of them. */
  ghost predicate CutByTool(cut: Cut, ss: seq<Selected>) {
    && (forall tool: string :: Get(cut.byTool, tool) == Tokens(ss, PrecededBy(tool)))
    && (forall tool: string :: Get(cut.turnsByTool, tool) == Turns(ss, PrecededBy(tool)))
    && Sum(cut.byTool) == Tokens(ss, Any())
    && Sum(cut.turnsByTool) == Turns(ss, Any())
  }

  /** Each of the three buckets holds its own responses. */
  ghost predicate CutByCache(cut: Cut, ss: seq<Selected>) {
    && cut.coldTokens == Tokens(ss, ColdStart()) && cut.coldTurns == Turns(ss, ColdStart())
    && cut.rewriteTokens == Tokens(ss, Rewrite()) && cut.rewriteTurns == Turns(ss, Rewrite())
    && cut.incrementalTokens == Tokens(ss, Incremental()) && cut.incrementalTurns == Turns(ss, Incremental())
  }

  /** Whatever the cache reads are, the three kinds are all and disjoint. */
  lemma {:induction false} ThreeKinds(ss: seq<Selected>)
    ensures Tokens(ss, ColdStart()) + Tokens(ss, Rewrite()) + Tokens(ss, Incremental()) == Tokens(ss, Any())
    ensures Turns(ss, ColdStart()) + Turns(ss, Rewrite()) + Turns(ss, Incremental()) == Turns(ss, Any())
  {
    if ss != [] {
      ThreeKinds(ss[..|ss| - 1]);
    }
  }

  method CountByTool(cut: Cut, ss: seq<Selected>, i: nat) returns (cut': Cut)
    requires i < |ss| && ss[i].created > 0 && CutByTool(cut, ss[..i])
    ensures CutByTool(cut', ss[..i + 1])
    ensures cut' == cut.(byTool := cut'.byTool, turnsByTool := cut'.turnsByTool)
  {
    var s := ss[i];
    var preceding := if s.results == 0 then None else s.preceding;
    var tool := if preceding.Some? then preceding.value else NO_PRECEDING_TOOL_LABEL;
    SumAdd(cut.byTool, tool, s.created);
    SumAdd(cut.turnsByTool, tool, 1);
    CutSnoc(ss, i, Any());
    cut' := cut.(byTool := Add(cut.byTool, tool, s.created), turnsByTool := Add(cut.turnsByTool, tool, 1));
    forall t: string
      ensures Get(cut'.byTool, t) == Tokens(ss[..i + 1], PrecededBy(t))
      ensures Get(cut'.turnsByTool, t) == Turns(ss[..i + 1], PrecededBy(t))
    {
      CutSnoc(ss, i, PrecededBy(t));
      assert Get(cut.byTool, t) == Tokens(ss[..i], PrecededBy(t));
      assert Get(cut.turnsByTool, t) == Turns(ss[..i], PrecededBy(t));
    }
  }

  method CountByCache(cut: Cut, ss: seq<Selected>, i: nat) returns (cut': Cut)
    requires i < |ss| && ss[i].created > 0 && CutByCache(cut, ss[..i])
    ensures CutByCache(cut', ss[..i + 1])
    ensures cut'.byTool == cut.byTool && cut'.turnsByTool == cut.turnsByTool
  {
    var s := ss[i];
    CutSnoc(ss, i, ColdStart());
    CutSnoc(ss, i, Rewrite());
    CutSnoc(ss, i, Incremental());
    if s.cacheRead <= 0 {
      cut' := cut.(coldTurns := cut.coldTurns + 1, coldTokens := cut.coldTokens + s.created);
    } else if s.cacheRead <= s.created {
      cut' := cut.(rewriteTurns := cut.rewriteTurns + 1, rewriteTokens := cut.rewriteTokens + s.created);
    } else {
      cut' := cut.(incrementalTurns := cut.incrementalTurns + 1,
                   incrementalTokens := cut.incrementalTokens + s.created);
    }
  }

  /** Both cuts are exact row by row, and complete: by preceding tool, and by
      cold start, rewrite and increment, tokens and turns alike. */
  method ApplyUsageReduction(ss: seq<Selected>) returns (cut: Cut)
    ensures CutByTool(cut, ss) && CutByCache(cut, ss)
    ensures Sum(cut.byTool) == cut.coldTokens + cut.rewriteTokens + cut.incrementalTokens
    ensures Sum(cut.turnsByTool) == cut.coldTurns + cut.rewriteTurns + cut.incrementalTurns
  {
    cut := Cut(map[], map[], 0, 0, 0, 0, 0, 0);
    for i := 0 to |ss|
      invariant CutByTool(cut, ss[..i]) && CutByCache(cut, ss[..i])
    {
      if ss[i].created > 0 {
        cut := CountByTool(cut, ss, i);
        cut := CountByCache(cut, ss, i);
      } else {
        NothingCreated(ss, i);
      }
    }
    assert ss[..|ss|] == ss;
    ThreeKinds(ss);
  }

  lemma NothingCreated(ss: seq<Selected>, i: nat)
    requires i < |ss| && ss[i].created <= 0
    ensures forall kind: Kind :: Tokens(ss[..i + 1], kind) == Tokens(ss[..i], kind)
                                 && Turns(ss[..i + 1], kind) == Turns(ss[..i], kind)
  {
    forall kind: Kind ensures Tokens(ss[..i + 1], kind) == Tokens(ss[..i], kind)
                              && Turns(ss[..i + 1], kind) == Turns(ss[..i], kind)
    {
      CutSnoc(ss, i, kind);
    }
  }
}
