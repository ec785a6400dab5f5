/** Iterating over the lines of a transcript without ever holding an oversized one. */
module BoundedLines {
  import opened Basics
  import opened ByteSource
  import opened ByteLines
  import opened Sequences

  const READ_CHUNK_BYTES: nat := 65536

  /** A yielded line: its number, and its text unless it was too long. */
  datatype Line = Line(number: nat, text: Option<string>)

  /** A line is measured with its terminator. */
  function Item(number: nat, line: Bytes, maxBytes: int, decode: Bytes -> string): Line {
    Line(number, if |line| > maxBytes then None else Some(decode(line)))
  }

  function Items(lines: seq<Bytes>, maxBytes: int, decode: Bytes -> string): seq<Line> {
    seq(|lines|, i requires 0 <= i < |lines| => Item(i + 1, lines[i], maxBytes, decode))
  }

  lemma ItemsAppend(lines: seq<Bytes>, line: Bytes, maxBytes: int, decode: Bytes -> string)
    ensures Items(lines + [line], maxBytes, decode) ==
            Items(lines, maxBytes, decode) + [Item(|lines| + 1, line, maxBytes, decode)]
  {
  }

  /** A piece that closes the current line adds its item. */
  lemma ItemsClose(data: Bytes, piece: Bytes, maxBytes: int, decode: Bytes -> string)
    requires piece != [] && piece[|piece| - 1] == LF && LF !in piece[..|piece| - 1]
    ensures Open(data + piece) == [] && |Closed(data + piece)| == |Closed(data)| + 1
    ensures Items(Closed(data + piece), maxBytes, decode) ==
            Items(Closed(data), maxBytes, decode) + [Item(|Closed(data)| + 1, Open(data) + piece, maxBytes, decode)]
  {
    AppendLine(data, piece);
    ItemsAppend(Closed(data), Open(data) + piece, maxBytes, decode);
  }

  lemma Advanced<T>(before: seq<T>, chunk: seq<T>, start: nat, used: nat)
    requires start + used <= |chunk|
    ensures before + chunk[..start] + chunk[start..][..used] == before + chunk[..start + used]
  {
    assert chunk[..start] + chunk[start..][..used] == chunk[..start + used];
  }

  /** The suspended iterator: line number, buffer and the oversized flag. */
  class LineIterator {
    const maxLineBytes: int
    const decode: Bytes -> string
    var lineNo: nat
    var buffer: Bytes
    var oversized: bool
    ghost var fed: Bytes

    /** The state depends only on the bytes fed, and the buffer is bounded. */
    ghost predicate Valid()
      reads this
    {
      && lineNo == |Closed(fed)| + 1
      && oversized == (|Open(fed)| > Max(0, maxLineBytes))
      && buffer == (if oversized then [] else Open(fed))
      && |buffer| <= Max(0, maxLineBytes)
    }

    /** Everything that has been yielded for the bytes fed so far. */
    ghost function Yielded(): seq<Line>
      reads this
    {
      Items(Closed(fed), maxLineBytes, decode)
    }

    constructor (maxLineBytes: int, decode: Bytes -> string)
      ensures Valid() && fed == [] && this.maxLineBytes == maxLineBytes && this.decode == decode
    {
      this.maxLineBytes, this.decode := maxLineBytes, decode;
      lineNo, buffer, oversized, fed := 1, [], false, [];
    }

    /** Take one piece of the current line, with or without its line feed. */
    method Gather(piece: Bytes)
      requires Valid() && piece != []
      modifies `buffer, `oversized
      ensures oversized == (|Open(fed)| + |piece| > Max(0, maxLineBytes))
      ensures buffer == if oversized then [] else Open(fed) + piece
    {
      if !oversized {
        if |buffer| + |piece| > maxLineBytes {
          buffer := [];
          oversized := true;
        } else {
          buffer := buffer + piece;
        }
      }
    }

    /** A piece without a line feed only grows the current line. */
    method Grow(piece: Bytes)
      requires Valid() && piece != [] && LF !in piece
      modifies this
      ensures Valid() && fed == old(fed) + piece && Closed(fed) == Closed(old(fed))
    {
      Gather(piece);
      AppendPlain(fed, piece);
      fed := fed + piece;
    }

    /** A piece up to the next line feed closes the current line and yields it. */
    method Close(piece: Bytes) returns (line: Line)
      requires Valid() && piece != [] && piece[|piece| - 1] == LF && LF !in piece[..|piece| - 1]
      modifies this
      ensures Valid() && fed == old(fed) + piece
      ensures Yielded() == old(Yielded()) + [line]
    {
      Gather(piece);
      ItemsClose(fed, piece, maxLineBytes, decode);
      line := Line(lineNo, if oversized then None else Some(decode(buffer)));
      fed := fed + piece;
      buffer := [];
      lineNo := lineNo + 1;
      oversized := false;
    }

    /** Process the next piece of a chunk: up to a line feed, or all of it. */
    method Advance(rest: Bytes) returns (used: nat, out: seq<Line>)
      requires Valid() && rest != []
      modifies this
      ensures 0 < used <= |rest|
      ensures Valid() && fed == old(fed) + rest[..used]
      ensures Yielded() == old(Yielded()) + out
    {
      var newline := FindLf(rest);
      if newline.None? {
        assert rest[..|rest|] == rest;
        Grow(rest);
        return |rest|, [];
      }
      used := newline.value + 1;
      var piece := rest[..used];
      assert piece[..|piece| - 1] == rest[..newline.value];
      var line := Close(piece);
      out := [line];
    }

    /** Process one chunk and yield the lines that it closes. */
    method Feed(chunk: Bytes) returns (out: seq<Line>)
      requires Valid()
      modifies this
      ensures Valid() && fed == old(fed) + chunk
      ensures Yielded() == old(Yielded()) + out
    {
      out := [];
      var start := 0;
      while start < |chunk|
        invariant start <= |chunk|
        invariant Valid() && fed == old(fed) + chunk[..start]
        invariant Yielded() == old(Yielded()) + out
      {
        var used, lines := Advance(chunk[start..]);
        Advanced(old(fed), chunk, start, used);
        Associative(old(Yielded()), out, lines);
        out := out + lines;
        start := start + used;
      }
      assert chunk[..|chunk|] == chunk;
    }

    /** The end of the file yields what is left of an unterminated line. */
    method Finish() returns (out: seq<Line>)
      requires Valid()
      ensures Items(KeepLines(fed), maxLineBytes, decode) == Yielded() + out
    {
      ItemsAppend(Closed(fed), Open(fed), maxLineBytes, decode);
      assert Closed(fed) + [] == Closed(fed);
      if oversized {
        return [Line(lineNo, None)];
      }
      if buffer != [] {
        return [Line(lineNo, Some(decode(buffer)))];
      }
      return [];
    }
  }

  /** The lines as yielded: numbered from one, without a text exactly when too long. */
  predicate Yields(out: seq<Line>, lines: seq<Bytes>, maxBytes: int, decode: Bytes -> string) {
    && |out| == |lines|
    && forall k :: 0 <= k < |lines| ==>
         && out[k].number == k + 1
         && (out[k].text.None? <==> |lines[k]| > maxBytes)
         && (out[k].text.Some? ==> out[k].text.value == decode(lines[k]))
  }

  lemma {:induction false} ItemsAreYielded(lines: seq<Bytes>, maxBytes: int, decode: Bytes -> string)
    ensures Yields(Items(lines, maxBytes, decode), lines, maxBytes, decode)
  {
  }

  /** For every way in which the file arrives in chunks, the yielded lines are
      those of splitting the whole input, numbered from one, with nothing in
      place of exactly the lines that are too long. */
  method IterBoundedLines(file: RawFile, maxLineBytes: int, decode: Bytes -> string) returns (out: seq<Line>)
    requires file.pos == 0
    modifies file`pos
    ensures out == Items(KeepLines(file.data), maxLineBytes, decode)
    ensures Yields(out, KeepLines(file.data), maxLineBytes, decode)
  {
    var it := new LineIterator(maxLineBytes, decode);
    out := [];
    var more := true;
    while more
      invariant file.pos <= |file.data| && it.Valid() && it.fed == file.data[..file.pos]
      invariant it.maxLineBytes == maxLineBytes && it.decode == decode
      invariant out == Items(Closed(it.fed), maxLineBytes, decode)
      invariant !more ==> file.pos == |file.data|
      decreases |file.data| - file.pos, more
    {
      var chunk := file.Read(READ_CHUNK_BYTES);
      if chunk == [] {
        more := false;
      } else {
        var lines := it.Feed(chunk);
        out := out + lines;
      }
    }
    assert it.fed == file.data;
    var rest := it.Finish();
    out := out + rest;
    ItemsAreYielded(KeepLines(file.data), maxLineBytes, decode);
  }
}
