/** Reading the last rows of an append-only ledger through a doubling window. */
module LedgerTail {
  import opened Basics
  import opened ByteLines
  import opened Sequences

  /** The rows of the lines that parse, in order. */
  function ParseLines<Row>(lines: seq<Bytes>, parse: Bytes -> Option<Row>): seq<Row> {
    if lines == [] then []
    else
      var rest := ParseLines(lines[1..], parse);
      var row := parse(lines[0]);
      if row.Some? then [row.value] + rest else rest
  }

  /** The rows are those of the lines at these rising positions. */
  predicate ReadOff<Row(==)>(lines: seq<Bytes>, parse: Bytes -> Option<Row>, at: seq<nat>, rows: seq<Row>) {
    && |at| == |rows|
    && (forall i :: 0 <= i < |at| ==> at[i] < |lines| && parse(lines[at[i]]) == Some(rows[i]))
    && (forall i, j :: 0 <= i < j < |at| ==> at[i] < at[j])
  }

  lemma {:induction false} ReadOffCons<Row>(lines: seq<Bytes>, parse: Bytes -> Option<Row>, at: seq<nat>, rows: seq<Row>,
                                            later: seq<nat>)
    requires lines != [] && ReadOff(lines[1..], parse, at, rows)
    requires |later| == |at| && forall i :: 0 <= i < |at| ==> later[i] == at[i] + 1
    ensures ReadOff(lines, parse, later, rows)
    ensures parse(lines[0]).Some? ==> ReadOff(lines, parse, [0] + later, [parse(lines[0]).value] + rows)
  {
  }

  /** The rows of some lines are what each line that parses says, in order. */
  lemma {:induction false} RowsAre<Row>(lines: seq<Bytes>, parse: Bytes -> Option<Row>) returns (at: seq<nat>)
    ensures ReadOff(lines, parse, at, ParseLines(lines, parse))
    ensures forall k: nat :: k in at <==> k < |lines| && parse(lines[k]).Some?
  {
    at := [];
    if lines != [] {
      var rest := RowsAre(lines[1..], parse);
      var later := seq(|rest|, i requires 0 <= i < |rest| => rest[i] + 1);
      ReadOffCons(lines, parse, rest, ParseLines(lines[1..], parse), later);
      at := if parse(lines[0]).Some? then [0] + later else later;
      forall k: nat ensures k in at <==> k < |lines| && parse(lines[k]).Some? {
        if k > 0 && k - 1 in rest {
          var i :| 0 <= i < |rest| && rest[i] == k - 1;
          assert later[i] == k;
        }
        assert k > 0 && k < |lines| ==> lines[1..][k - 1] == lines[k];
      }
    }
  }

  lemma {:induction false} ParseConcat<Row>(a: seq<Bytes>, b: seq<Bytes>, parse: Bytes -> Option<Row>)
    ensures ParseLines(a + b, parse) == ParseLines(a, parse) + ParseLines(b, parse)
  {
    if a == [] {
      assert a + b == b;
    } else {
      ParseConcat(a[1..], b, parse);
      assert (a + b)[1..] == a[1..] + b;
    }
  }

  /** The complete lines of the window that starts here. */
  function WindowLines(file: Bytes, start: nat): seq<Bytes>
    requires start <= |file|
  {
    var data := file[start..];
    var at := FindLf(data);
    if start == 0 then Split(data)
    else if at.None? then []
    else Split(data[at.value + 1..])
  }

  ghost predicate IsSuffix<T>(s: seq<T>, whole: seq<T>) {
    |s| <= |whole| && whole[|whole| - |s|..] == s
  }

  lemma SuffixOfConcat<T>(a: seq<T>, b: seq<T>)
    ensures IsSuffix(b, a + b)
    ensures IsSuffix([], a) && IsSuffix(a, a)
  {
  }

  lemma CutAt(file: Bytes, cut: nat)
    requires cut < |file| && file[cut] == LF
    ensures Split(file) == Split(file[..cut]) + Split(file[cut + 1..])
  {
    assert file == file[..cut] + ([LF] + file[cut + 1..]);
    SplitAround(file[..cut], file[cut + 1..]);
  }

  /** The rows of any window are the last rows of the whole file. */
  lemma WindowIsSuffix<Row>(file: Bytes, start: nat, parse: Bytes -> Option<Row>)
    requires start <= |file|
    ensures IsSuffix(ParseLines(WindowLines(file, start), parse), ParseLines(Split(file), parse))
  {
    var data := file[start..];
    var at := FindLf(data);
    if start == 0 {
      assert data == file;
      SuffixOfConcat(ParseLines(Split(file), parse), []);
    } else if at.Some? {
      var cut := start + at.value;
      assert data[at.value] == file[cut] && data[at.value + 1..] == file[cut + 1..];
      CutAt(file, cut);
      ParseConcat(Split(file[..cut]), Split(file[cut + 1..]), parse);
      SuffixOfConcat(ParseLines(Split(file[..cut]), parse), ParseLines(Split(file[cut + 1..]), parse));
    } else {
      SuffixOfConcat(ParseLines(Split(file), parse), []);
    }
  }

  lemma LastOfSuffix<T>(s: seq<T>, whole: seq<T>, n: nat)
    requires IsSuffix(s, whole) && (|s| >= n || s == whole)
    ensures Last(s, n) == Last(whole, n)
  {
  }

  /** For every content, initial window and pattern of malformed lines the
      result is the last `maxRows` rows of parsing the whole file. An empty
      line never parses. */
  method TailRecentLedgerRows<Row>(file: Bytes, initialBytes: int, maxRows: int, parse: Bytes -> Option<Row>)
    returns (recent: seq<Row>)
    requires parse([]).None?
    ensures recent == Last(ParseLines(Split(file), parse), Max(0, maxRows))
  {
    if maxRows <= 0 {
      return [];
    }
    var size := |file|;
    if size <= 0 {
      assert Split(file) == [[]];
      return [];
    }
    var window := Max(1, initialBytes);
    while true
      invariant window >= 1
      decreases Max(0, size - window)
    {
      var start := Max(0, size - window);
      var data := file[start..];
      var lines: seq<Bytes>;
      if start > 0 {
        var newlineAt := FindLf(data);
        if newlineAt.None? {
          lines := [];
        } else {
          lines := Split(data[newlineAt.value + 1..]);
        }
      } else {
        lines := Split(data);
      }
      assert lines == WindowLines(file, start);
      var rows := ParseLines(lines, parse);
      WindowIsSuffix(file, start, parse);
      if start == 0 {
        assert data == file;
        return Last(rows, maxRows);
      }
      if |rows| >= maxRows {
        LastOfSuffix(rows, ParseLines(Split(file), parse), maxRows);
        return Last(rows, maxRows);
      }
      window := Min(size, window * 2);
    }
  }
}
