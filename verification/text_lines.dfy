/** Splitting text into lines that keep their ends, as the output filter does
    and as the artifact store's queries do. */
module TextLines {
  import opened Basics

  predicate IsBoundary(c: char) {
    || c == '\n' || c == '\r' || c == '\U{0B}' || c == '\U{0C}' || c == '\U{1C}'
    || c == '\U{1D}' || c == '\U{1E}' || c == '\U{85}' || c == '\U{2028}' || c == '\U{2029}'
  }

  predicate StartsWithCrLf(text: string) {
    |text| >= 2 && text[0] == '\r' && text[1] == '\n'
  }

  /** The length of the first line of a text, its end included. */
  function FirstLine(text: string): (n: nat)
    ensures n <= |text|
    ensures text != "" ==> n > 0
  {
    if text == "" then 0
    else if StartsWithCrLf(text) then 2
    else if IsBoundary(text[0]) then 1
    else 1 + FirstLine(text[1..])
  }

  /** The lines of a text in the declarative form. */
  function Split(text: string): seq<string> {
    if text == "" then []
    else
      var n := FirstLine(text);
      [text[..n]] + Split(text[n..])
  }

  function Join(lines: seq<string>): string {
    if lines == [] then "" else lines[0] + Join(lines[1..])
  }

  predicate CrLfAt(text: string, i: nat) {
    i + 1 < |text| && text[i] == '\r' && text[i + 1] == '\n'
  }

  /** The first-line length from an index, by the character there. */
  lemma FirstLineAt(text: string, i: nat)
    requires i < |text|
    ensures FirstLine(text[i..]) ==
            if CrLfAt(text, i) then 2
            else if IsBoundary(text[i]) then 1
            else 1 + FirstLine(text[i + 1..])
  {
    assert text[i..][1..] == text[i + 1..];
  }

  /** The lines so far and the lines of the rest are the lines of the text. */
  ghost predicate Gathered(text: string, lines: seq<string>, start: nat) {
    start <= |text| && lines + Split(text[start..]) == Split(text)
  }

  /** No line ends between the two indices. */
  ghost predicate Within(text: string, start: nat, index: nat) {
    start <= index <= |text| && FirstLine(text[start..]) == index - start + FirstLine(text[index..])
  }

  /** Emitting the line that ends here leaves the rest of the text to split. */
  lemma EmitLine(text: string, lines: seq<string>, start: nat, index: nat, end: nat)
    requires Gathered(text, lines, start) && Within(text, start, index)
    requires start < end <= |text| && end == index + FirstLine(text[index..])
    ensures Gathered(text, lines + [text[start..end]], end) && Within(text, end, end)
  {
    var rest := text[start..];
    assert rest[..end - start] == text[start..end];
    assert rest[end - start..] == text[end..];
    assert Split(rest) == [text[start..end]] + Split(text[end..]);
    assert lines + ([text[start..end]] + Split(text[end..])) == lines + [text[start..end]] + Split(text[end..]);
  }

  lemma PassCharacter(text: string, start: nat, index: nat)
    requires Within(text, start, index) && index < |text| && !CrLfAt(text, index) && !IsBoundary(text[index])
    ensures Within(text, start, index + 1)
  {
    FirstLineAt(text, index);
  }

  lemma GatherNothing(text: string)
    ensures Gathered(text, [], 0) && Within(text, 0, 0)
  {
    assert text[0..] == text;
    assert [] + Split(text) == Split(text);
  }

  lemma AllGathered(text: string, lines: seq<string>)
    requires Gathered(text, lines, |text|)
    ensures lines == Split(text)
  {
    assert text[|text|..] == "";
  }

  /** What is left when no boundary is left is the last line. */
  lemma EmitRest(text: string, lines: seq<string>, start: nat)
    requires start < |text| && Gathered(text, lines, start) && Within(text, start, |text|)
    ensures lines + [text[start..]] == Split(text)
  {
    assert text[|text|..] == "";
    EmitLine(text, lines, start, |text|, |text|);
    assert text[start..|text|] == text[start..];
    AllGathered(text, lines + [text[start..]]);
  }

  /** One turn of the loop: a character is passed, or a line ends and is emitted. */
  method TakeCharacter(text: string, start: nat, index: nat, lines: seq<string>)
    returns (start': nat, index': nat, lines': seq<string>)
    requires Gathered(text, lines, start) && Within(text, start, index) && index < |text|
    ensures Gathered(text, lines', start') && Within(text, start', index') && index' > index
  {
    FirstLineAt(text, index);
    if CrLfAt(text, index) {
      index' := index + 2;
      EmitLine(text, lines, start, index, index');
      start', lines' := index', lines + [text[start..index']];
    } else if IsBoundary(text[index]) {
      index' := index + 1;
      EmitLine(text, lines, start, index, index');
      start', lines' := index', lines + [text[start..index']];
    } else {
      PassCharacter(text, start, index);
      start', index', lines' := start, index + 1, lines;
    }
  }

  /** The incremental splitter: two indices over the text. */
  method IterTextLinesKeepends(text: string) returns (lines: seq<string>)
    ensures lines == Split(text)
  {
    lines := [];
    var start: nat, index: nat := 0, 0;
    GatherNothing(text);
    while index < |text|
      invariant Gathered(text, lines, start) && Within(text, start, index)
    {
      start, index, lines := TakeCharacter(text, start, index, lines);
    }
    if start < |text| {
      EmitRest(text, lines, start);
      lines := lines + [text[start..]];
    } else {
      AllGathered(text, lines);
    }
  }

  /** No character is lost, added or moved. */
  lemma {:induction false} JoinSplit(text: string)
    ensures Join(Split(text)) == text
  {
    if text != "" {
      JoinSplit(text[FirstLine(text)..]);
    }
  }

  predicate Terminated(line: string) {
    line != "" && IsBoundary(line[|line| - 1])
  }

  predicate IsLine(line: string) {
    line != "" && FirstLine(line) == |line|
  }

  /** These two lines do not meet inside a carriage return, line feed pair. */
  predicate Separate(line: string, next: string) {
    Terminated(line) && !(line[|line| - 1] == '\r' && next != "" && next[0] == '\n')
  }

  /** A sequence of lines that splitting can produce. */
  predicate Proper(lines: seq<string>) {
    && (forall i :: 0 <= i < |lines| ==> IsLine(lines[i]))
    && (forall i :: 0 <= i < |lines| - 1 ==> Separate(lines[i], lines[i + 1]))
  }

  lemma {:induction false} FirstLineIsLine(text: string)
    requires text != ""
    ensures IsLine(text[..FirstLine(text)])
    ensures FirstLine(text) < |text| ==> Separate(text[..FirstLine(text)], text[FirstLine(text)..])
  {
    var n := FirstLine(text);
    if !StartsWithCrLf(text) && !IsBoundary(text[0]) && text[1..] != "" {
      FirstLineIsLine(text[1..]);
      assert text[..n][1..] == text[1..][..n - 1];
      assert text[n..] == text[1..][n - 1..];
    }
  }

  lemma {:induction false} SplitIsProper(text: string)
    ensures Proper(Split(text))
  {
    if text != "" {
      var n := FirstLine(text);
      var rest := Split(text[n..]);
      FirstLineIsLine(text);
      SplitIsProper(text[n..]);
      if n < |text| {
        assert rest[0][0] == text[n..][0];
      }
    }
  }

  lemma {:induction false} FirstLineOfConcat(line: string, rest: string)
    requires IsLine(line) && Separate(line, rest)
    ensures FirstLine(line + rest) == |line|
  {
    if !StartsWithCrLf(line) && !IsBoundary(line[0]) {
      FirstLineOfConcat(line[1..], rest);
      assert (line + rest)[1..] == line[1..] + rest;
    }
  }

  /** Proper lines survive being joined and split again. */
  lemma {:induction false} SplitJoin(lines: seq<string>)
    requires Proper(lines)
    ensures Split(Join(lines)) == lines
  {
    if |lines| == 1 {
      assert Join(lines[1..]) == "" && Join(lines) == lines[0];
      assert lines[0][|lines[0]|..] == "";
    } else if |lines| > 1 {
      var rest := Join(lines[1..]);
      SplitJoin(lines[1..]);
      assert rest == lines[1] + Join(lines[2..]) by { assert lines[1..][1..] == lines[2..]; }
      FirstLineOfConcat(lines[0], rest);
      assert (lines[0] + rest)[..|lines[0]|] == lines[0];
      assert (lines[0] + rest)[|lines[0]|..] == rest;
    }
  }

  /** So does any run of consecutive lines of a text. */
  lemma SliceSurvives(text: string, a: nat, b: nat)
    requires a <= b <= |Split(text)|
    ensures Split(Join(Split(text)[a..b])) == Split(text)[a..b]
  {
    SplitIsProper(text);
    SplitJoin(Split(text)[a..b]);
  }
}
