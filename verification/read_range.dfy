/** The streaming proof that a logical line range of a large file is small
    enough to read, against its declarative meaning. */
module ReadRange {
  import opened Basics
  import opened ByteLines
  import opened ByteSource

  const READ_PROOF_CHUNK_BYTES: nat := 65536
  const MAX_READ_RANGE_INTEGER: nat := 0x7FFF_FFFF_FFFF_FFFF

  datatype Verdict = Allowed | ContentBudgetExceeded | FileChanged | ProofBudgetExhausted

  datatype Proof = Proof(verdict: Verdict, charged: nat, scanned: nat)

  datatype ProofError = InvalidParameters

  /** A zero-based line range and the two budgets. */
  datatype Query = Query(fileSize: int, offset: int, limit: int, contentBudget: int, proofBudget: int)
  {
    predicate Valid() {
      && fileSize >= 0 && offset >= 0 && limit > 0 && contentBudget >= 0 && proofBudget > 0
      && offset <= MAX_READ_RANGE_INTEGER
      && limit <= MAX_READ_RANGE_INTEGER - offset
    }

    predicate Selects(line: int) {
      offset <= line < offset + limit
    }
  }

  // ---- Declarative meaning ----

  /** The zero-based logical line of the byte at `i`: the line feeds before it. */
  function LineAt(data: Bytes, i: nat): nat
    requires i <= |data|
  {
    if i == 0 then 0 else LineAt(data, i - 1) + if data[i - 1] == LF then 1 else 0
  }

  /** The bytes other than line feeds in the selected lines of the first `n` bytes. */
  function Charged(data: Bytes, q: Query, n: nat): nat
    requires n <= |data|
  {
    if n == 0 then 0
    else Charged(data, q, n - 1) +
         if data[n - 1] != LF && q.Selects(LineAt(data, n - 1)) then 1 else 0
  }

  /** All bytes, line feeds included, in the selected lines of the first `n` bytes. */
  function Selected(data: Bytes, q: Query, n: nat): nat
    requires n <= |data|
  {
    if n == 0 then 0
    else Selected(data, q, n - 1) + if q.Selects(LineAt(data, n - 1)) then 1 else 0
  }

  /** How far the proof looks: the file as it was sized, within the proof
      budget, and no further than the bytes that the descriptor delivers. */
  function Horizon(data: Bytes, q: Query): nat
    requires q.Valid()
  {
    Min(|data|, Min(q.fileSize, q.proofBudget))
  }

  function Meaning(data: Bytes, q: Query): Verdict
    requires q.Valid()
  {
    var seen := Horizon(data, q);
    if Charged(data, q, seen) > q.contentBudget then ContentBudgetExceeded
    else if LineAt(data, seen) >= q.offset + q.limit || seen == q.fileSize then Allowed
    else if |data| < Min(q.fileSize, q.proofBudget) then FileChanged
    else ProofBudgetExhausted
  }

  /** After `n` bytes neither the budget nor the end of the range is reached. */
  predicate Undecided(data: Bytes, q: Query, n: nat)
    requires n <= |data|
  {
    Charged(data, q, n) <= q.contentBudget && LineAt(data, n) < q.offset + q.limit
  }

  lemma {:induction false} CountsGrow(data: Bytes, q: Query, m: nat, n: nat)
    requires m <= n <= |data|
    ensures LineAt(data, m) <= LineAt(data, n)
    ensures Charged(data, q, m) <= Charged(data, q, n)
    ensures Selected(data, q, m) <= Selected(data, q, n)
    ensures LineAt(data, m) >= q.offset + q.limit ==>
              Charged(data, q, m) == Charged(data, q, n) && Selected(data, q, m) == Selected(data, q, n)
    decreases n
  {
    if m < n {
      CountsGrow(data, q, m, n - 1);
    }
  }

  // ---- The streaming proof ----

  /** The bytes of one chunk, up to the first that decides. */
  method ProveChunk(ghost data: Bytes, q: Query, chunk: Bytes, line: nat, before: nat, start: nat)
    returns (decided: Option<Verdict>, lineIndex: nat, charged: nat, scanned: nat)
    requires q.Valid() && start + |chunk| <= |data| && chunk == data[start..start + |chunk|]
    requires line == LineAt(data, start) < q.offset + q.limit
    requires before == Charged(data, q, start) <= q.contentBudget
    requires start > 0 ==> Undecided(data, q, start - 1)
    ensures start <= scanned <= start + |chunk| && charged == Charged(data, q, scanned)
    ensures lineIndex == LineAt(data, scanned)
    ensures scanned > 0 ==> Undecided(data, q, scanned - 1)
    ensures decided.None? <==> charged <= q.contentBudget && lineIndex < q.offset + q.limit
    ensures decided.None? ==> scanned == start + |chunk|
    ensures decided.Some? ==> decided.value == if charged > q.contentBudget then ContentBudgetExceeded else Allowed
  {
    var selectedEnd := q.offset + q.limit;
    lineIndex, charged, scanned := line, before, start;
    for i := 0 to |chunk|
      invariant scanned == start + i
      invariant lineIndex == LineAt(data, scanned) < selectedEnd
      invariant charged == Charged(data, q, scanned) <= q.contentBudget
      invariant scanned > 0 ==> Undecided(data, q, scanned - 1)
    {
      assert chunk[i] == data[scanned];
      scanned := scanned + 1;
      if chunk[i] == LF {
        lineIndex := lineIndex + 1;
        if lineIndex >= selectedEnd {
          return Some(Allowed), lineIndex, charged, scanned;
        }
      } else if q.offset <= lineIndex < selectedEnd {
        charged := charged + 1;
        if charged > q.contentBudget {
          return Some(ContentBudgetExceeded), lineIndex, charged, scanned;
        }
      }
    }
    decided := None;
  }

  /** For every way in which the bytes arrive in chunks the outcome is the
      declarative one, and the scan stops at the first byte that decides it. */
  method ProveRawReadRange(file: RawFile, q: Query) returns (r: Result<Proof, ProofError>)
    modifies file`pos
    ensures r.Err? <==> !q.Valid()
    ensures r.Ok? ==>
              var p := r.value;
              && p.verdict == Meaning(file.data, q)
              && p.scanned <= Horizon(file.data, q)
              && p.charged == Charged(file.data, q, p.scanned)
              && (p.scanned > 0 ==> Undecided(file.data, q, p.scanned - 1))
  {
    if !q.Valid() {
      return Err(InvalidParameters);
    }
    var data := file.data;
    var lineIndex, charged, scanned := 0, 0, 0;
    file.SeekToStart();
    while scanned < q.fileSize && scanned < q.proofBudget
      invariant file.pos == scanned <= Horizon(data, q)
      invariant lineIndex == LineAt(data, scanned) < q.offset + q.limit
      invariant charged == Charged(data, q, scanned) <= q.contentBudget
      invariant scanned > 0 ==> Undecided(data, q, scanned - 1)
      decreases q.fileSize - scanned
    {
      var remaining := Min(READ_PROOF_CHUNK_BYTES, Min(q.fileSize - scanned, q.proofBudget - scanned));
      var chunk := file.Read(remaining);
      if chunk == [] {
        return Ok(Proof(FileChanged, charged, scanned));
      }
      var decided;
      decided, lineIndex, charged, scanned := ProveChunk(data, q, chunk, lineIndex, charged, scanned);
      if decided.Some? {
        CountsGrow(data, q, scanned, Horizon(data, q));
        return Ok(Proof(decided.value, charged, scanned));
      }
    }
    if scanned >= q.fileSize {
      return Ok(Proof(Allowed, charged, scanned));
    }
    return Ok(Proof(ProofBudgetExhausted, charged, scanned));
  }

  // ---- What an allowed range guarantees ----

  lemma {:induction false} NarrowerCharges(data: Bytes, q: Query, narrow: Query, n: nat)
    requires narrow.offset == q.offset && narrow.limit <= q.limit && n <= |data|
    ensures Charged(data, narrow, n) <= Charged(data, q, n)
  {
    if n > 0 {
      NarrowerCharges(data, q, narrow, n - 1);
    }
  }

  /** An allowed range stays allowed when its limit shrinks. */
  lemma AllowedShrinks(data: Bytes, q: Query, limit: int)
    requires q.Valid() && 0 < limit <= q.limit && Meaning(data, q) == Allowed
    ensures Meaning(data, q.(limit := limit)) == Allowed
  {
    NarrowerCharges(data, q, q.(limit := limit), Horizon(data, q));
  }

  /** The selected bytes are the charged ones plus one line feed per closed line. */
  lemma {:induction false} SelectedSplits(data: Bytes, q: Query, n: nat)
    requires q.offset >= 0 && q.limit > 0 && n <= |data|
    ensures Selected(data, q, n) ==
            Charged(data, q, n) + Max(0, Min(LineAt(data, n), q.offset + q.limit) - q.offset)
  {
    if n > 0 {
      SelectedSplits(data, q, n - 1);
    }
  }

  /** What an allowed range can put into the context, line feeds included, of
      the whole file as it was sized. */
  lemma AllowedIsSmall(data: Bytes, q: Query)
    requires q.Valid() && Meaning(data, q) == Allowed
    ensures Selected(data, q, Min(|data|, q.fileSize)) <= q.contentBudget + q.limit
  {
    var seen := Horizon(data, q);
    CountsGrow(data, q, seen, Min(|data|, q.fileSize));
    SelectedSplits(data, q, seen);
  }

  // ---- Exactly when a steady file is allowed ----

  /** The bytes of the pieces from one position to another. */
  function PieceBytes(pieces: seq<Bytes>, first: int, end: int): nat {
    if pieces == [] then 0
    else
      var n := |pieces| - 1;
      PieceBytes(pieces[..n], first, end) + if first <= n < end then |pieces[n]| else 0
  }

  lemma {:induction false} PieceMore(pieces: seq<Bytes>, piece: Bytes, first: int, end: int)
    ensures PieceBytes(pieces + [piece], first, end)
            == PieceBytes(pieces, first, end) + if first <= |pieces| < end then |piece| else 0
  {
    assert (pieces + [piece])[..|pieces|] == pieces;
  }

  /** One more byte grows the last piece or starts a new one. */
  lemma {:induction false} PiecesMore(data: Bytes, b: Byte, first: int, end: int)
    ensures |Split(data + [b])| == |Split(data)| + if b == LF then 1 else 0
    ensures PieceBytes(Split(data + [b]), first, end)
            == PieceBytes(Split(data), first, end) + if b != LF && first <= |Split(data)| - 1 < end then 1 else 0
  {
    var before := Split(data);
    if b == LF {
      SplitClosed(data);
      PieceMore(before, [], first, end);
    } else {
      SplitExtends(data, b);
      var k := |before| - 1;
      PieceMore(before[..k], before[k], first, end);
      PieceMore(before[..k], before[k] + [b], first, end);
      assert before == before[..k] + [before[k]];
    }
  }

  lemma {:induction false} NoPiece(data: Bytes, first: int, end: int)
    requires data == []
    ensures |Split(data)| == 1 && PieceBytes(Split(data), first, end) == 0
  {
    var none: seq<Bytes> := [];
    PieceMore(none, data, first, end);
    assert Split(data) == none + [data];
  }

  /** The pieces of splitting a prefix on line feeds hold its charged bytes, and
      the last one is the current line. */
  lemma {:induction false} ChargedInPieces(data: Bytes, q: Query, n: nat)
    requires n <= |data|
    ensures var pieces := Split(data[..n]);
      && LineAt(data, n) == |pieces| - 1
      && Charged(data, q, n) == PieceBytes(pieces, q.offset, q.offset + q.limit)
  {
    if n == 0 {
      NoPiece(data[..n], q.offset, q.offset + q.limit);
    } else {
      ChargedInPieces(data, q, n - 1);
      PiecesMore(data[..n - 1], data[n - 1], q.offset, q.offset + q.limit);
      assert data[..n] == data[..n - 1] + [data[n - 1]];
    }
  }

  /** A file that holds still and fits the proof budget is allowed if and only
      if its lines in the range, without their line feeds, fit the content budget. */
  lemma {:induction false} AllowedExactly(data: Bytes, q: Query)
    requires q.Valid() && |data| == q.fileSize <= q.proofBudget
    ensures Meaning(data, q) ==
            if PieceBytes(Split(data), q.offset, q.offset + q.limit) <= q.contentBudget then Allowed
            else ContentBudgetExceeded
  {
    ChargedInPieces(data, q, |data|);
    assert data[..|data|] == data;
  }
}
