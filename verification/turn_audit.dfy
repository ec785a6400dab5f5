/** One transcript file as the scan sees it: rows that carry content blocks,
    the audit that measures them, and the turn windows over what it measured. */
module TurnAudit {
  import opened Basics
  import A = ToolAudit
  import W = TurnWindows

  /** A row: the reducer's view of it, the bytes of its own assistant content,
      and its content blocks. What it adds to a window is left to the audit. */
  datatype Entry = Entry(usage: W.Row, assistantBytes: nat, items: seq<A.Item>)

  predicate AllBlocks(items: seq<A.Item>) {
    forall k :: 0 <= k < |items| ==> A.IsBlock(items[k])
  }

  predicate Proper(entries: seq<Entry>) {
    forall i :: 0 <= i < |entries| ==> AllBlocks(entries[i].items)
  }

  function After(a: A.Audit, items: seq<A.Item>): A.Audit {
    if items == [] then a
    else A.Observed(After(a, items[..|items| - 1]), items[|items| - 1])
  }

  // ---- The scan over the audit ----

  /** The audit and the scan's variables. What a turn has seen is in the audit,
      but for the assistant bytes. */
  datatype Joint = Joint(
    audit: A.Audit, ordinal: nat, previous: Option<W.GroupKey>, assistantBytes: nat, snapshots: map<nat, W.Snapshot>)

  function Start(a: A.Audit): Joint {
    Joint(A.Observed(a, A.FileStart), 0, None, 0, map[])
  }

  function Seen(j: Joint): W.Snapshot {
    W.Snapshot(W.Volume(j.audit.textBytesSinceTurn, j.audit.resultsSinceTurn, j.assistantBytes), j.audit.lastTool)
  }

  /** Snapshot on accept, a new turn where the group changes, then the row's
      own content. */
  function Next(j: Joint, e: Entry): Joint {
    var key := Some(W.GroupOf(e.usage, j.ordinal));
    var turns := e.usage.accepted && key != j.previous;
    Joint(
      After(if turns then A.Observed(j.audit, A.TurnStart) else j.audit, e.items),
      j.ordinal + 1,
      if e.usage.accepted then key else j.previous,
      (if turns then 0 else j.assistantBytes) + e.assistantBytes,
      if e.usage.accepted then j.snapshots[j.ordinal := Seen(j)] else j.snapshots)
  }

  function Scanned(a: A.Audit, entries: seq<Entry>): Joint {
    if entries == [] then Start(a)
    else Next(Scanned(a, entries[..|entries| - 1]), entries[|entries| - 1])
  }

  // ---- The rows that the audit makes of the entries ----

  /** The audit with no turns between the rows. */
  function Whole(a: A.Audit, entries: seq<Entry>): A.Audit {
    if entries == [] then A.Observed(a, A.FileStart)
    else After(Whole(a, entries[..|entries| - 1]), entries[|entries| - 1].items)
  }

  function Growth(a: A.Audit, b: A.Audit, assistantBytes: nat): W.Volume {
    W.Volume(Max(0, A.Textual(b) - A.Textual(a)), Max(0, b.results - a.results), assistantBytes)
  }

  function RowOf(a: A.Audit, e: Entry): W.Row {
    var b := After(a, e.items);
    e.usage.(adds := Growth(a, b, e.assistantBytes), lastTool := if b.results > a.results then b.lastTool else None)
  }

  function Rows(a: A.Audit, entries: seq<Entry>): (rows: seq<W.Row>)
    ensures |rows| == |entries|
  {
    if entries == [] then []
    else
      var before := entries[..|entries| - 1];
      Rows(a, before) + [RowOf(Whole(a, before), entries[|entries| - 1])]
  }

  lemma {:induction false} RowsGrow(a: A.Audit, items: seq<A.Item>)
    requires AllBlocks(items)
    ensures var b := After(a, items);
      && b.results >= a.results && A.Textual(b) >= A.Textual(a)
      && (b.results > a.results ==> b.lastTool.Some?)
      && (b.results == a.results ==> b.lastTool == a.lastTool)
  {
    if items != [] {
      var n := |items| - 1;
      RowsGrow(a, items[..n]);
      A.BlockGrows(After(a, items[..n]), items[n]);
    }
  }

  /** One block: the turn grows beside everything else by what the totals grow. */
  lemma TurnStepsAlong(a: A.Audit, item: A.Item, text: nat, results: nat)
    requires A.IsBlock(item)
    ensures var b, v := A.Observed(a, item), Growth(a, A.Observed(a, item), 0);
      A.Observed(A.SetTurn(a, text, results), item) == A.SetTurn(b, text + v.textBytes, results + v.results)
  {
    var t := A.SetTurn(a, text, results);
    A.TurnIsApart(a, item, text, results);
    A.BlockGrows(a, item);
    A.BlockGrows(t, item);
    assert A.Textual(t) == A.Textual(a) && t.results == a.results;
  }

  /** The audit `t` is `b` but for a turn that began with these counts at `a`. */
  predicate RunsAlong(a: A.Audit, b: A.Audit, t: A.Audit, text: nat, results: nat) {
    var v := Growth(a, b, 0);
    t == A.SetTurn(b, text + v.textBytes, results + v.results)
  }

  lemma TurnStepsFurther(a: A.Audit, b: A.Audit, t: A.Audit, item: A.Item, text: nat, results: nat)
    requires A.IsBlock(item) && A.Textual(a) <= A.Textual(b) && a.results <= b.results
    requires RunsAlong(a, b, t, text, results)
    ensures RunsAlong(a, A.Observed(b, item), A.Observed(t, item), text, results)
  {
    var v := Growth(a, b, 0);
    TurnStepsAlong(b, item, text + v.textBytes, results + v.results);
    A.BlockGrows(b, item);
  }

  lemma AfterLast(a: A.Audit, items: seq<A.Item>, before: A.Audit, after: A.Audit)
    requires items != [] && before == After(a, items[..|items| - 1])
    requires after == A.Observed(before, items[|items| - 1])
    ensures After(a, items) == after
  {
  }

  /** Blocks act on the turn and on everything else independently. */
  lemma {:induction false} TurnRunsAlong(a: A.Audit, t: A.Audit, items: seq<A.Item>, text: nat, results: nat)
    requires AllBlocks(items) && t == A.SetTurn(a, text, results)
    ensures RunsAlong(a, After(a, items), After(t, items), text, results)
  {
    if items != [] {
      var n := |items| - 1;
      var b, m := After(a, items[..n]), After(t, items[..n]);
      RowsGrow(a, items[..n]);
      TurnRunsAlong(a, t, items[..n], text, results);
      TurnStepsFurther(a, b, m, items[n], text, results);
      AfterLast(a, items, b, A.Observed(b, items[n]));
      AfterLast(t, items, m, A.Observed(m, items[n]));
    }
  }

  /** The scan over the audit, and the scan over the rows that the audit makes. */
  predicate Agree(j: Joint, s: W.Scan, whole: A.Audit) {
    && j.audit == A.SetTurn(whole, s.pending.textBytes, s.pending.results)
    && j.assistantBytes == s.pending.assistantBytes
    && whole.lastTool == s.lastTool
    && j.ordinal == s.ordinal && j.previous == s.previous && j.snapshots == s.snapshots
  }

  /** The audit of the turn, run over the row's blocks. */
  lemma RowRunsAlong(whole: A.Audit, t: A.Audit, e: Entry, text: nat, results: nat)
    requires AllBlocks(e.items) && t == A.SetTurn(whole, text, results)
    ensures var adds := RowOf(whole, e).adds;
      After(t, e.items) == A.SetTurn(After(whole, e.items), text + adds.textBytes, results + adds.results)
  {
    TurnRunsAlong(whole, t, e.items, text, results);
  }

  lemma StepAgrees(j: Joint, s: W.Scan, whole: A.Audit, e: Entry)
    requires AllBlocks(e.items) && Agree(j, s, whole)
    ensures Agree(Next(j, e), W.Observed(s, RowOf(whole, e)), After(whole, e.items))
  {
    RowsGrow(whole, e.items);
    assert Seen(j) == W.Snapshot(s.pending, s.lastTool);
    if e.usage.accepted && Some(W.GroupOf(e.usage, j.ordinal)) != j.previous {
      RowRunsAlong(whole, A.Observed(j.audit, A.TurnStart), e, 0, 0);
    } else {
      RowRunsAlong(whole, j.audit, e, s.pending.textBytes, s.pending.results);
    }
  }

  lemma {:induction false} ScansAgree(a: A.Audit, entries: seq<Entry>)
    requires Proper(entries)
    ensures Agree(Scanned(a, entries), W.Scanned(Rows(a, entries)), Whole(a, entries))
  {
    if entries != [] {
      var n := |entries| - 1;
      var before := entries[..n];
      ScansAgree(a, before);
      StepAgrees(Scanned(a, before), W.Scanned(Rows(a, before)), Whole(a, before), entries[n]);
      assert Rows(a, entries)[..n] == Rows(a, before);
    }
  }

  function AssistantBytes(entries: seq<Entry>): nat {
    if entries == [] then 0
    else AssistantBytes(entries[..|entries| - 1]) + entries[|entries| - 1].assistantBytes
  }

  lemma {:induction false} RowsTotal(a: A.Audit, entries: seq<Entry>)
    requires Proper(entries)
    ensures var whole, total := Whole(a, entries), W.Total(Rows(a, entries));
      && total.textBytes == A.Textual(whole) - A.Textual(a)
      && total.results == whole.results - a.results
      && total.assistantBytes == AssistantBytes(entries)
  {
    if entries != [] {
      var n := |entries| - 1;
      RowsTotal(a, entries[..n]);
      RowsGrow(Whole(a, entries[..n]), entries[n].items);
      assert Rows(a, entries)[..n] == Rows(a, entries[..n]);
    }
  }

  /** The windows that the scan stored at the rows that open a run. */
  function RunSnapshots(rows: seq<W.Row>, snapshots: map<nat, W.Snapshot>): W.Volume {
    if rows == [] then W.Nothing()
    else
      var i := |rows| - 1;
      var before := RunSnapshots(rows[..i], snapshots);
      if W.OpensRun(rows, i) && i in snapshots then W.Plus(before, snapshots[i].volume) else before
  }

  lemma {:induction false} SnapshotsAreWindows(rows: seq<W.Row>, n: nat)
    requires n <= |rows|
    ensures RunSnapshots(rows[..n], W.Scanned(rows).snapshots) == W.RunWindows(rows[..n])
  {
    if n > 0 {
      SnapshotsAreWindows(rows, n - 1);
      assert rows[..n][..n - 1] == rows[..n - 1];
      if W.OpensRun(rows[..n], n - 1) {
        W.SnapshotIsStored(rows, n - 1);
      }
    }
  }

  /** What agreeing scans say of the turn's fields and of the totals. */
  lemma AgreeOnFields(j: Joint, s: W.Scan, whole: A.Audit)
    requires Agree(j, s, whole)
    ensures j.audit.textBytesSinceTurn == s.pending.textBytes && j.audit.resultsSinceTurn == s.pending.results
    ensures A.Textual(j.audit) == A.Textual(whole) && j.audit.results == whole.results
  {
  }

  lemma PlusFields(a: W.Volume, b: W.Volume, c: W.Volume)
    requires W.Plus(a, b) == c
    ensures a.textBytes + b.textBytes == c.textBytes && a.results + b.results == c.results
    ensures a.assistantBytes + b.assistantBytes == c.assistantBytes
  {
  }

  lemma StoredWindows(rows: seq<W.Row>)
    ensures RunSnapshots(rows, W.Scanned(rows).snapshots) == W.RunWindows(rows)
  {
    assert rows[..|rows|] == rows;
    SnapshotsAreWindows(rows, |rows|);
  }

  /** Over a whole file, turns and all: the text bytes stored at the first row
      of each run, plus those of the current turn, are all bytes of tool results
      that are not of images; and so for results and assistant bytes. */
  lemma TurnsCoverFile(a: A.Audit, entries: seq<Entry>)
    requires Proper(entries)
    ensures var j := Scanned(a, entries);
      var windows := RunSnapshots(Rows(a, entries), j.snapshots);
      && windows.textBytes + j.audit.textBytesSinceTurn == A.Textual(j.audit) - A.Textual(a)
      && windows.results + j.audit.resultsSinceTurn == j.audit.results - a.results
      && windows.assistantBytes + j.assistantBytes == AssistantBytes(entries)
  {
    var rows := Rows(a, entries);
    ScansAgree(a, entries);
    AgreeOnFields(Scanned(a, entries), W.Scanned(rows), Whole(a, entries));
    RowsTotal(a, entries);
    W.WindowsPartition(rows);
    PlusFields(W.RunWindows(rows), W.Scanned(rows).pending, W.Total(rows));
    StoredWindows(rows);
  }

  lemma {:induction false} RowsAreLabelled(a: A.Audit, entries: seq<Entry>)
    requires Proper(entries)
    ensures W.Labelled(Rows(a, entries))
  {
    if entries != [] {
      var n := |entries| - 1;
      RowsAreLabelled(a, entries[..n]);
      RowsGrow(Whole(a, entries[..n]), entries[n].items);
    }
  }

  /** A stored window with results is labelled by the last of its own results:
      a turn never inherits the label of an earlier one. */
  lemma LabelIsOfThisTurn(a: A.Audit, entries: seq<Entry>, i: nat) returns (k: nat)
    requires Proper(entries) && i < |entries| && entries[i].usage.accepted
    requires W.PendingAt(Rows(a, entries), i).results > 0
    ensures i in Scanned(a, entries).snapshots
    ensures var rows, stored := Rows(a, entries), Scanned(a, entries).snapshots[i];
      && stored.volume == W.PendingAt(rows, i)
      && k < i && W.Held(rows[..i], k) && stored.preceding == rows[k].lastTool && stored.preceding.Some?
      && forall m :: k < m < i ==> rows[m].adds.results == 0
  {
    var rows := Rows(a, entries);
    ScansAgree(a, entries);
    RowsAreLabelled(a, entries);
    UsageOf(a, entries, i);
    W.SnapshotIsStored(rows, i);
    k := W.LabelIsOfThisWindow(rows[..i]);
    forall m | k < m < i ensures rows[m].adds.results == 0 {
      assert rows[..i][m] == rows[m];
    }
    assert rows[..i][k] == rows[k];
  }

  lemma {:induction false} UsageOf(a: A.Audit, entries: seq<Entry>, i: nat)
    requires i < |entries|
    ensures Rows(a, entries)[i].accepted == entries[i].usage.accepted
  {
    if i < |entries| - 1 {
      UsageOf(a, entries[..|entries| - 1], i);
    }
  }
}
