/** Lines of a byte sequence: splitting on line feeds from the front, and the
    closed lines and open remainder of a growing prefix. */
module ByteLines {
  import opened Basics
  import opened Sequences

  /** The position of the first line feed. */
  function FindLf(data: Bytes): (at: Option<nat>)
    ensures at.Some? ==> at.value < |data| && data[at.value] == LF && LF !in data[..at.value]
    ensures at.None? <==> LF !in data
  {
    if data == [] then None
    else if data[0] == LF then Some(0)
    else
      var rest := FindLf(data[1..]);
      assert data == [data[0]] + data[1..];
      if rest.None? then None
      else
        assert data[..rest.value + 1] == [data[0]] + data[1..][..rest.value];
        Some(rest.value + 1)
  }

  /** The parts when one more byte stands in front. */
  function Prefixed(b: Byte, parts: seq<Bytes>): (more: seq<Bytes>)
    requires parts != []
    ensures more != []
  {
    if b == LF then [[]] + parts else [[b] + parts[0]] + parts[1..]
  }

  /** Splitting on the line feed byte; the separators are dropped. */
  function Split(data: Bytes): (parts: seq<Bytes>)
    ensures parts != []
  {
    if data == [] then [[]] else Prefixed(data[0], Split(data[1..]))
  }

  lemma PrefixedConcat(b: Byte, x: seq<Bytes>, y: seq<Bytes>)
    requires x != []
    ensures Prefixed(b, x + y) == Prefixed(b, x) + y
  {
  }

  /** Splitting around one line feed. */
  lemma {:induction false} SplitAround(a: Bytes, b: Bytes)
    ensures Split(a + ([LF] + b)) == Split(a) + Split(b)
  {
    var tail := [LF] + b;
    if a == [] {
      assert a + tail == tail && tail[1..] == b;
    } else {
      SplitAround(a[1..], b);
      PrefixedConcat(a[0], Split(a[1..]), Split(b));
      assert (a + tail)[1..] == a[1..] + tail;
    }
  }

  /** The bytes after the last line feed. */
  function Open(data: Bytes): Bytes {
    if data == [] || data[|data| - 1] == LF then [] else Open(data[..|data| - 1]) + [data[|data| - 1]]
  }

  /** The lines that a line feed has closed, each with its line feed. */
  function Closed(data: Bytes): seq<Bytes> {
    if data == [] then []
    else
      var init := data[..|data| - 1];
      if data[|data| - 1] == LF then Closed(init) + [Open(init) + [LF]] else Closed(init)
  }

  /** All lines with their ends, the unterminated last one included. */
  function KeepLines(data: Bytes): seq<Bytes> {
    Closed(data) + if Open(data) == [] then [] else [Open(data)]
  }

  lemma AppendByte(data: Bytes, b: Byte)
    requires b != LF
    ensures Open(data + [b]) == Open(data) + [b]
    ensures Closed(data + [b]) == Closed(data)
  {
    var more := data + [b];
    assert more[..|more| - 1] == data && more[|more| - 1] == b;
  }

  /** A piece without a line feed extends the open line. */
  lemma {:induction false} AppendPlain(data: Bytes, piece: Bytes)
    requires LF !in piece
    ensures Open(data + piece) == Open(data) + piece
    ensures Closed(data + piece) == Closed(data)
    decreases |piece|
  {
    if piece == [] {
      assert data + piece == data;
    } else {
      var init, last := piece[..|piece| - 1], piece[|piece| - 1];
      AppendPlain(data, init);
      assert piece == init + [last] && last in piece;
      AppendByte(data + init, last);
      Associative(data, init, [last]);
      Associative(Open(data), init, [last]);
    }
  }

  lemma AppendLf(data: Bytes)
    ensures Open(data + [LF]) == []
    ensures Closed(data + [LF]) == Closed(data) + [Open(data) + [LF]]
  {
    var more := data + [LF];
    assert more[..|more| - 1] == data && more[|more| - 1] == LF;
  }

  /** A piece that ends with its only line feed closes the open line. */
  lemma AppendLine(data: Bytes, piece: Bytes)
    requires piece != [] && piece[|piece| - 1] == LF && LF !in piece[..|piece| - 1]
    ensures Open(data + piece) == []
    ensures Closed(data + piece) == Closed(data) + [Open(data) + piece]
  {
    var init := piece[..|piece| - 1];
    AppendPlain(data, init);
    AppendLf(data + init);
    assert piece == init + [LF];
    assert data + piece == data + init + [LF];
    assert Open(data) + piece == Open(data) + init + [LF];
  }

  /** The parts when one more byte is added to the last one. */
  function Extended(parts: seq<Bytes>, b: Byte): seq<Bytes>
    requires parts != []
  {
    parts[..|parts| - 1] + [parts[|parts| - 1] + [b]]
  }

  lemma PrefixedExtended(first: Byte, parts: seq<Bytes>, b: Byte)
    requires parts != []
    ensures Prefixed(first, Extended(parts, b)) == Extended(Prefixed(first, parts), b)
  {
    if first != LF && |parts| == 1 {
      assert [first] + (parts[0] + [b]) == [first] + parts[0] + [b];
    }
  }

  lemma {:induction false} SplitExtends(data: Bytes, b: Byte)
    requires b != LF
    ensures Split(data + [b]) == Extended(Split(data), b)
  {
    if data == [] {
      var none: Bytes, one: Bytes := [], [b];
      assert data + [b] == one && one[1..] == none;
      assert one + none == one && none + one == one;
      assert Split(none) == [none];
      assert Split(one) == Prefixed(b, [none]) == [one];
      assert [none][..0] == [] && Extended([none], b) == [one];
    } else {
      SplitExtends(data[1..], b);
      PrefixedExtended(data[0], Split(data[1..]), b);
      assert (data + [b])[1..] == data[1..] + [b];
    }
  }

  /** Closed lines and open remainder are the pieces of splitting the whole on line feeds. */
  ghost predicate AgreesWithSplit(data: Bytes) {
    var parts, closed := Split(data), Closed(data);
    && |parts| == |closed| + 1
    && (forall i :: 0 <= i < |closed| ==> closed[i] == parts[i] + [LF])
    && parts[|closed|] == Open(data)
  }

  lemma SplitClosed(data: Bytes)
    ensures Split(data + [LF]) == Split(data) + [[]]
  {
    var none: Bytes := [];
    SplitAround(data, none);
    assert [LF] + none == [LF];
    assert Split(none) == [[]];
  }

  lemma AgreesAfterLf(init: Bytes)
    requires AgreesWithSplit(init)
    ensures AgreesWithSplit(init + [LF])
  {
    SplitClosed(init);
    AppendLf(init);
  }

  lemma AgreesAfterByte(init: Bytes, b: Byte)
    requires AgreesWithSplit(init) && b != LF
    ensures AgreesWithSplit(init + [b])
  {
    SplitExtends(init, b);
    AppendByte(init, b);
  }

  lemma {:induction false} LinesAreTheSplit(data: Bytes)
    ensures AgreesWithSplit(data)
    decreases |data|
  {
    if data != [] {
      var init, last := data[..|data| - 1], data[|data| - 1];
      assert data == init + [last];
      LinesAreTheSplit(init);
      if last == LF {
        AgreesAfterLf(init);
      } else {
        AgreesAfterByte(init, last);
      }
    }
  }
}
