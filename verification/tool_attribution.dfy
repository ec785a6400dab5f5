/** Which tool each result is booked under, read off the blocks of a transcript
    alone: the use of its id that was last announced in the same file and has
    not been answered since. */
module ToolAttribution {
  import opened Basics
  import opened Counters
  import opened ToolAudit

  // ---- The declarative reading of a transcript ----

  function SumOf(blocks: seq<Block>, weight: Block -> nat): nat {
    if blocks == [] then 0 else weight(blocks[0]) + SumOf(blocks[1..], weight)
  }

  /** The bytes of a result that has a content. */
  function Bytes(c: Content): nat {
    match c
    case Missing => 0
    case Plain(size) => size
    case Structured(size) => size
    case Blocks(blocks) => SumOf(blocks, (b: Block) => b.size)
  }

  predicate IsResult(item: Item) {
    item.ToolResult? && !item.content.Missing?
  }

  /** The item ends what the announcement of `id` was for. */
  predicate Ends(item: Item, id: string) {
    || item.FileStart?
    || (item.ToolUse? && item.id == id)
    || (IsResult(item) && item.useId == Some(id))
  }

  /** Item `j` announces a use of `id` that still waits before item `n`. */
  predicate Waits(items: seq<Item>, j: nat, n: nat, id: string)
    requires n <= |items|
  {
    && j < n && items[j].ToolUse? && items[j].id == id
    && forall k :: j < k < n ==> !Ends(items[k], id)
  }

  /** The use that the result at `i` answers. */
  ghost function OwnUse(items: seq<Item>, i: nat): Option<Use>
    requires i < |items| && items[i].ToolResult?
  {
    if items[i].useId.Some? && exists j: nat :: Waits(items, j, i, items[i].useId.value) then
      var j: nat :| Waits(items, j, i, items[i].useId.value);
      Some(items[j].use)
    else None
  }

  ghost function Label(items: seq<Item>, i: nat): string
    requires i < |items| && items[i].ToolResult?
  {
    if OwnUse(items, i).Some? then OwnUse(items, i).value.name else "unattributed"
  }

  /** The bytes of the results among the first `n` items that carry this label. */
  ghost function BytesUnder(items: seq<Item>, n: nat, name: string): nat
    requires n <= |items|
  {
    if n == 0 then 0
    else BytesUnder(items, n - 1, name) +
         if IsResult(items[n - 1]) && Label(items, n - 1) == name then Bytes(items[n - 1].content) else 0
  }

  ghost function ResultsUnder(items: seq<Item>, n: nat, name: string): nat
    requires n <= |items|
  {
    if n == 0 then 0
    else ResultsUnder(items, n - 1, name) + if IsResult(items[n - 1]) && Label(items, n - 1) == name then 1 else 0
  }

  /** The bytes of the results whose own use names a file with this extension. */
  ghost function BytesOfExtension(items: seq<Item>, n: nat, extension: string): nat
    requires n <= |items|
  {
    if n == 0 then 0
    else BytesOfExtension(items, n - 1, extension) +
         if IsResult(items[n - 1]) && OwnUse(items, n - 1).Some?
            && OwnUse(items, n - 1).value.extension == Some(extension)
         then Bytes(items[n - 1].content) else 0
  }

  /** The label of the last result of the current file. */
  ghost function LastLabel(items: seq<Item>, n: nat): Option<string>
    requires n <= |items|
  {
    if n == 0 || items[n - 1].FileStart? then None
    else if IsResult(items[n - 1]) then Some(Label(items, n - 1))
    else LastLabel(items, n - 1)
  }

  function UseIds(items: seq<Item>): set<string> {
    set i | 0 <= i < |items| && items[i].ToolUse? :: items[i].id
  }

  function Names(items: seq<Item>): set<string> {
    (set i | 0 <= i < |items| && items[i].ToolUse? :: items[i].use.name) + {"unattributed"}
  }

  function Extensions(items: seq<Item>): set<string> {
    set i | 0 <= i < |items| && items[i].ToolUse? && items[i].use.extension.Some? :: items[i].use.extension.value
  }

  /** Every use is remembered and every label has a row. */
  predicate HasRoom(items: seq<Item>) {
    |UseIds(items)| < 20_000 && |Names(items)| <= 500 && |Extensions(items)| <= 200
  }

  // ---- The pending uses ----

  lemma {:induction false} WaitsOnce(items: seq<Item>, j: nat, k: nat, n: nat, id: string)
    requires n <= |items| && Waits(items, j, n, id) && Waits(items, k, n, id)
    ensures j == k
  {
  }

  ghost predicate PendingWaits(pending: map<string, Use>, items: seq<Item>, n: nat)
    requires n <= |items|
  {
    && (forall id :: id in pending ==> exists j: nat :: Waits(items, j, n, id) && pending[id] == items[j].use)
    && (forall j: nat, id :: Waits(items, j, n, id) ==> id in pending)
  }

  lemma {:induction false} WaitsOn(items: seq<Item>, j: nat, n: nat, id: string)
    requires n < |items|
    ensures Waits(items, j, n + 1, id)
            <==> if j == n then items[n].ToolUse? && items[n].id == id
                 else Waits(items, j, n, id) && !Ends(items[n], id)
  {
  }

  /** The correlation of a result finds its own use. */
  lemma {:induction false} FindsOwnUse(pending: map<string, Use>, items: seq<Item>, i: nat)
    requires i < |items| && items[i].ToolResult? && PendingWaits(pending, items, i)
    ensures Correlation(pending, items[i].useId) == OwnUse(items, i)
  {
    if items[i].useId.Some? {
      var id := items[i].useId.value;
      if id in pending {
        var j: nat :| Waits(items, j, i, id) && pending[id] == items[j].use;
        forall k: nat | Waits(items, k, i, id) ensures k == j {
          WaitsOnce(items, j, k, i, id);
        }
      }
    }
  }

  lemma {:induction false} RoomToWait(pending: map<string, Use>, items: seq<Item>, n: nat)
    requires n <= |items| && PendingWaits(pending, items, n)
    ensures |pending| <= |UseIds(items)|
  {
    forall id | id in pending.Keys ensures id in UseIds(items) {
      var j: nat :| Waits(items, j, n, id) && pending[id] == items[j].use;
    }
    SubsetSize(pending.Keys, UseIds(items));
  }

  /** The pending uses after one more item. */
  function PendingAfter(pending: map<string, Use>, item: Item): map<string, Use> {
    match item
    case ToolUse(id, use) => pending[id := use]
    case ToolResult(useId, content) =>
      if content.Missing? || useId.None? then pending else pending - {useId.value}
    case FileStart => map[]
    case TurnStart => pending
  }

  lemma {:induction false} ResultPending(a: Audit, useId: Option<string>, c: Content)
    requires !c.Missing?
    ensures ObservedResult(a, useId, c).pending
            == if useId.None? then a.pending else a.pending - {useId.value}
  {
    assert Size(c).Some?;
    if useId.Some? && useId.value !in a.pending {
      assert a.pending - {useId.value} == a.pending;
    }
  }

  lemma {:induction false} PendingMoves(a: Audit, items: seq<Item>, n: nat)
    requires n < |items| && HasRoom(items) && PendingWaits(a.pending, items, n)
    ensures Observed(a, items[n]).pending == PendingAfter(a.pending, items[n])
  {
    match items[n] {
      case ToolUse(_, _) =>
        RoomToWait(a.pending, items, n);
      case ToolResult(useId, c) =>
        if !c.Missing? {
          ResultPending(a, useId, c);
        }
      case _ =>
    }
  }

  lemma {:induction false} PendingStep(pending: map<string, Use>, items: seq<Item>, n: nat)
    requires n < |items| && PendingWaits(pending, items, n)
    ensures PendingWaits(PendingAfter(pending, items[n]), items, n + 1)
  {
    var after, m := PendingAfter(pending, items[n]), n + 1;
    forall id | id in after ensures exists j: nat :: Waits(items, j, m, id) && after[id] == items[j].use {
      if items[n].ToolUse? && items[n].id == id {
        WaitsOn(items, n, n, id);
        assert Waits(items, n, m, id);
      } else {
        var j: nat :| Waits(items, j, n, id) && pending[id] == items[j].use;
        WaitsOn(items, j, n, id);
        assert Waits(items, j, m, id);
      }
    }
    forall j: nat, id | Waits(items, j, m, id) ensures id in after {
      WaitsOn(items, j, n, id);
    }
  }

  // ---- The label tables ----

  lemma {:induction false} HasItsRow(name: string, seen: map<string, nat>, names: set<string>, limit: nat)
    requires seen.Keys <= names && name in names && |names| <= limit
    ensures BoundedLabel(name, seen, limit) == name
  {
    if name !in seen {
      SubsetSize(seen.Keys + {name}, names);
    }
  }

  lemma {:induction false} SizeIsBytes(c: Content)
    ensures Size(c) == if c.Missing? then None else Some(Bytes(c))
  {
    if c.Blocks? {
      SumsAgree(c.blocks);
    }
  }

  lemma {:induction false} SumSnoc(blocks: seq<Block>, last: Block, weight: Block -> nat)
    ensures SumOf(blocks + [last], weight) == SumOf(blocks, weight) + weight(last)
  {
    if blocks == [] {
      assert blocks + [last] == [last] && [last][1..] == blocks;
    } else {
      SumSnoc(blocks[1..], last, weight);
      assert (blocks + [last])[1..] == blocks[1..] + [last];
    }
  }

  lemma {:induction false} SumsAgree(blocks: seq<Block>)
    ensures BlocksSize(blocks) == SumOf(blocks, (b: Block) => b.size)
  {
    if blocks != [] {
      var n := |blocks| - 1;
      SumsAgree(blocks[..n]);
      SumSnoc(blocks[..n], blocks[n], (b: Block) => b.size);
      assert blocks == blocks[..n] + [blocks[n]];
    }
  }

  /** What one result does to the tables, by the label that it is booked under. */
  lemma {:induction false} ResultMoves(a: Audit, useId: Option<string>, c: Content, own: Option<Use>)
    requires !c.Missing? && own == Correlation(a.pending, useId)
    ensures var b, tool := ObservedResult(a, useId, c), ToolLabel(a.labels, own);
      && b.labels.toolBytes == Add(a.labels.toolBytes, tool, Bytes(c))
      && b.labels.toolResults == Add(a.labels.toolResults, tool, 1)
      && b.lastTool == Some(tool)
      && b.labels.extensionBytes ==
           (var e := ExtensionLabel(a.labels, own);
            if e.None? then a.labels.extensionBytes else Add(a.labels.extensionBytes, e.value, Bytes(c)))
  {
    SizeIsBytes(c);
  }

  lemma {:induction false} OtherMoves(a: Audit, item: Item)
    requires !IsResult(item)
    ensures var b := Observed(a, item);
      b.labels == a.labels && b.lastTool == if item.FileStart? then None else a.lastTool
  {
    if item.ToolResult? {
      SizeIsBytes(item.content);
    }
  }

  ghost predicate BytesBooked(rows: map<string, nat>, items: seq<Item>, n: nat)
    requires n <= |items|
  {
    rows.Keys <= Names(items) && forall name :: Get(rows, name) == BytesUnder(items, n, name)
  }

  ghost predicate ResultsBooked(rows: map<string, nat>, items: seq<Item>, n: nat)
    requires n <= |items|
  {
    forall name :: Get(rows, name) == ResultsUnder(items, n, name)
  }

  ghost predicate ExtensionsBooked(rows: map<string, nat>, items: seq<Item>, n: nat)
    requires n <= |items|
  {
    && rows.Keys <= Extensions(items)
    && forall extension :: Get(rows, extension) == BytesOfExtension(items, n, extension)
  }

  /** The tables hold, under each label, what the items say. */
  ghost predicate Booked(a: Audit, items: seq<Item>, n: nat)
    requires n <= |items|
  {
    && BytesBooked(a.labels.toolBytes, items, n)
    && ResultsBooked(a.labels.toolResults, items, n)
    && ExtensionsBooked(a.labels.extensionBytes, items, n)
    && a.lastTool == LastLabel(items, n)
  }

  lemma {:induction false} BytesStep(rows: map<string, nat>, items: seq<Item>, n: nat, tool: string)
    requires n < |items| && BytesBooked(rows, items, n) && IsResult(items[n])
    requires tool == Label(items, n) && tool in Names(items)
    ensures BytesBooked(Add(rows, tool, Bytes(items[n].content)), items, n + 1)
  {
    var more, m := Add(rows, tool, Bytes(items[n].content)), n + 1;
    forall name ensures Get(more, name) == BytesUnder(items, m, name) {
      assert Get(rows, name) == BytesUnder(items, n, name);
    }
  }

  lemma {:induction false} ResultsStep(rows: map<string, nat>, items: seq<Item>, n: nat, tool: string)
    requires n < |items| && ResultsBooked(rows, items, n) && IsResult(items[n]) && tool == Label(items, n)
    ensures ResultsBooked(Add(rows, tool, 1), items, n + 1)
  {
    var more, m := Add(rows, tool, 1), n + 1;
    forall name ensures Get(more, name) == ResultsUnder(items, m, name) {
      assert Get(rows, name) == ResultsUnder(items, n, name);
    }
  }

  lemma {:induction false} ExtensionsStep(rows: map<string, nat>, items: seq<Item>, n: nat, own: Option<Use>)
    requires n < |items| && ExtensionsBooked(rows, items, n) && IsResult(items[n]) && own == OwnUse(items, n)
    requires own.Some? && own.value.extension.Some? ==> own.value.extension.value in Extensions(items)
    ensures var more := if own.None? || own.value.extension.None? then rows
                        else Add(rows, own.value.extension.value, Bytes(items[n].content));
      ExtensionsBooked(more, items, n + 1)
  {
    var m := n + 1;
    var more := if own.None? || own.value.extension.None? then rows
                else Add(rows, own.value.extension.value, Bytes(items[n].content));
    forall extension ensures Get(more, extension) == BytesOfExtension(items, m, extension) {
      assert Get(rows, extension) == BytesOfExtension(items, n, extension);
    }
  }

  lemma {:induction false} OwnRow(a: Audit, items: seq<Item>, n: nat, own: Option<Use>)
    requires n < |items| && HasRoom(items) && Booked(a, items, n) && IsResult(items[n]) && own == OwnUse(items, n)
    ensures ToolLabel(a.labels, own) == Label(items, n) && Label(items, n) in Names(items)
    ensures ExtensionLabel(a.labels, own) == if own.None? then None else own.value.extension
    ensures own.Some? && own.value.extension.Some? ==> own.value.extension.value in Extensions(items)
  {
    if own.Some? {
      var j: nat :| Waits(items, j, n, items[n].useId.value) && own.value == items[j].use;
    }
    HasItsRow(Label(items, n), a.labels.toolBytes, Names(items), MAX_TOOL_LABELS);
    if own.Some? && own.value.extension.Some? {
      HasItsRow(own.value.extension.value, a.labels.extensionBytes, Extensions(items), MAX_EXTENSIONS);
    }
  }

  lemma {:induction false} ResultBooked(a: Audit, items: seq<Item>, n: nat, b: Audit)
    requires n < |items| && HasRoom(items) && Booked(a, items, n) && PendingWaits(a.pending, items, n)
    requires IsResult(items[n]) && b == ObservedResult(a, items[n].useId, items[n].content)
    ensures Booked(b, items, n + 1)
  {
    var own := OwnUse(items, n);
    FindsOwnUse(a.pending, items, n);
    ResultMoves(a, items[n].useId, items[n].content, own);
    OwnRow(a, items, n, own);
    BytesStep(a.labels.toolBytes, items, n, Label(items, n));
    ResultsStep(a.labels.toolResults, items, n, Label(items, n));
    ExtensionsStep(a.labels.extensionBytes, items, n, own);
  }

  lemma {:induction false} OtherBooked(a: Audit, items: seq<Item>, n: nat, b: Audit)
    requires n < |items| && Booked(a, items, n) && !IsResult(items[n])
    requires b.labels == a.labels && b.lastTool == if items[n].FileStart? then None else a.lastTool
    ensures Booked(b, items, n + 1)
  {
  }

  lemma {:induction false} StepBooked(a: Audit, items: seq<Item>, n: nat, b: Audit)
    requires n < |items| && HasRoom(items) && Booked(a, items, n) && PendingWaits(a.pending, items, n)
    requires b == Observed(a, items[n])
    ensures Booked(b, items, n + 1) && PendingWaits(b.pending, items, n + 1)
  {
    PendingMoves(a, items, n);
    PendingStep(a.pending, items, n);
    if IsResult(items[n]) {
      ResultBooked(a, items, n, b);
    } else {
      OtherMoves(a, items[n]);
      OtherBooked(a, items, n, b);
    }
  }

  lemma ObservedMore(items: seq<Item>, n: nat)
    requires n < |items|
    ensures ObservedAll(items[..n + 1]) == Observed(ObservedAll(items[..n]), items[n])
  {
    assert items[..n + 1][..n] == items[..n];
  }

  /** Over every transcript with room for its labels each label's row holds
      exactly the results whose own use has that name. */
  lemma {:induction false} AttributionIsExact(items: seq<Item>, n: nat)
    requires n <= |items| && HasRoom(items)
    ensures Booked(ObservedAll(items[..n]), items, n)
    ensures PendingWaits(ObservedAll(items[..n]).pending, items, n)
  {
    if n > 0 {
      AttributionIsExact(items, n - 1);
      ObservedMore(items, n - 1);
      StepBooked(ObservedAll(items[..n - 1]), items, n - 1, ObservedAll(items[..n]));
    }
  }

  // ---- Totals, classes and images ----

  /** A weight of each result among the first `n` items, added up. */
  ghost function Over(items: seq<Item>, n: nat, weight: (Content, Option<Use>) -> nat): nat
    requires n <= |items|
  {
    if n == 0 then 0
    else Over(items, n - 1, weight) +
         if IsResult(items[n - 1]) then weight(items[n - 1].content, OwnUse(items, n - 1)) else 0
  }

  function OverBlocks(c: Content, weight: Block -> nat): nat {
    if c.Blocks? then SumOf(c.blocks, weight) else 0
  }

  function NamesImage(own: Option<Use>): bool {
    own.Some? && own.value.extension.Some? && IsImageExtension(own.value.extension.value)
  }

  function NamesOther(own: Option<Use>): bool {
    own.Some? && own.value.extension.Some? && !IsImageExtension(own.value.extension.value)
  }

  /** Image bytes: image payloads, and what is no text in a file named as an image. */
  function ImageBytes(c: Content, own: Option<Use>): nat {
    if c.Structured? then if NamesImage(own) then c.size else 0
    else OverBlocks(c, ImagePart(own))
  }

  function ImagePart(own: Option<Use>): Block -> nat {
    (b: Block) => if b.image || (!b.textual && NamesImage(own)) then b.size else 0
  }

  /** Text bytes: plain content, text blocks, and the rest in a file named as no image. */
  function TextBytes(c: Content, own: Option<Use>): nat {
    if c.Plain? then c.size
    else if c.Structured? then if NamesOther(own) then c.size else 0
    else OverBlocks(c, TextPart(own))
  }

  function TextPart(own: Option<Use>): Block -> nat {
    (b: Block) => if !b.image && (b.textual || NamesOther(own)) then b.size else 0
  }

  function PayloadPart(): Block -> nat {
    (b: Block) => if b.image then 1 else 0
  }

  function ParsedPart(): Block -> nat {
    (b: Block) => if b.image && b.imageTokens.Some? then 1 else 0
  }

  function TokenPart(): Block -> nat {
    (b: Block) => if b.image && b.imageTokens.Some? then b.imageTokens.value else 0
  }

  lemma {:induction false} ClassesTell(own: Option<Use>, blocks: seq<Block>)
    ensures var e := if own.None? then None else own.value.extension;
      && ClassBytes(e, blocks, Image) == SumOf(blocks, ImagePart(own))
      && ClassBytes(e, blocks, Text) == SumOf(blocks, TextPart(own))
  {
    if blocks != [] {
      var n := |blocks| - 1;
      ClassesTell(own, blocks[..n]);
      SumSnoc(blocks[..n], blocks[n], ImagePart(own));
      SumSnoc(blocks[..n], blocks[n], TextPart(own));
      assert blocks == blocks[..n] + [blocks[n]];
    }
  }

  lemma {:induction false} PayloadsTell(blocks: seq<Block>)
    ensures var payloads := ImageBlocks(blocks);
      && |payloads| == SumOf(blocks, PayloadPart())
      && Parsed(payloads) == SumOf(blocks, ParsedPart())
      && Tokens(payloads) == SumOf(blocks, TokenPart())
  {
    if blocks != [] {
      var n := |blocks| - 1;
      PayloadsTell(blocks[..n]);
      SumSnoc(blocks[..n], blocks[n], PayloadPart());
      SumSnoc(blocks[..n], blocks[n], ParsedPart());
      SumSnoc(blocks[..n], blocks[n], TokenPart());
      assert blocks == blocks[..n] + [blocks[n]];
      var before := ImageBlocks(blocks[..n]);
      if blocks[n].image {
        PayloadMore(before, blocks[n]);
        assert ImageBlocks(blocks) == before + [blocks[n]];
      } else {
        assert ImageBlocks(blocks) == before;
      }
    }
  }

  lemma {:induction false} PayloadMore(payloads: seq<Block>, last: Block)
    ensures Parsed(payloads + [last]) == Parsed(payloads) + if last.imageTokens.Some? then 1 else 0
    ensures Tokens(payloads + [last])
            == Tokens(payloads) + if last.imageTokens.Some? then last.imageTokens.value else 0
  {
    assert (payloads + [last])[..|payloads|] == payloads;
  }

  lemma {:induction false} ClassTells(own: Option<Use>, c: Content)
    ensures var per := PerClass(if own.None? then None else own.value.extension, c);
      per.image == ImageBytes(c, own) && per.text == TextBytes(c, own)
  {
    if c.Blocks? {
      ClassesTell(own, c.blocks);
    }
  }

  function One(c: Content, own: Option<Use>): nat {
    1
  }

  function AllBytes(c: Content, own: Option<Use>): nat {
    Bytes(c)
  }

  function Correlated(c: Content, own: Option<Use>): nat {
    if own.Some? then 1 else 0
  }

  function ImagePayloads(c: Content, own: Option<Use>): nat {
    OverBlocks(c, PayloadPart())
  }

  function ParsedPayloads(c: Content, own: Option<Use>): nat {
    OverBlocks(c, ParsedPart())
  }

  function PayloadTokens(c: Content, own: Option<Use>): nat {
    OverBlocks(c, TokenPart())
  }

  ghost predicate Counts(a: Audit, items: seq<Item>, n: nat)
    requires n <= |items|
  {
    && a.results == Over(items, n, One)
    && a.totalBytes == Over(items, n, AllBytes)
    && a.correlated == Over(items, n, Correlated)
  }

  ghost predicate Classifies(a: Audit, items: seq<Item>, n: nat)
    requires n <= |items|
  {
    && a.classes.image == Over(items, n, ImageBytes)
    && a.classes.text == Over(items, n, TextBytes)
  }

  ghost predicate SeesImages(a: Audit, items: seq<Item>, n: nat)
    requires n <= |items|
  {
    && a.images.payloads == Over(items, n, ImagePayloads)
    && a.images.parsed == Over(items, n, ParsedPayloads)
    && a.images.tokens == Over(items, n, PayloadTokens)
  }

  lemma {:induction false} ResultTotals(a: Audit, useId: Option<string>, c: Content, own: Option<Use>)
    requires !c.Missing? && own == Correlation(a.pending, useId)
    requires ExtensionLabel(a.labels, own) == if own.None? then None else own.value.extension
    ensures var b := ObservedResult(a, useId, c);
      && b.results == a.results + One(c, own)
      && b.totalBytes == a.totalBytes + AllBytes(c, own)
      && b.correlated == a.correlated + Correlated(c, own)
      && b.classes.image == a.classes.image + ImageBytes(c, own)
      && b.classes.text == a.classes.text + TextBytes(c, own)
      && b.images.payloads == a.images.payloads + ImagePayloads(c, own)
      && b.images.parsed == a.images.parsed + ParsedPayloads(c, own)
      && b.images.tokens == a.images.tokens + PayloadTokens(c, own)
  {
    SizeIsBytes(c);
    ClassTells(own, c);
    if c.Blocks? {
      PayloadsTell(c.blocks);
    }
  }

  lemma {:induction false} OtherTotals(a: Audit, item: Item)
    requires !IsResult(item)
    ensures var b := Observed(a, item);
      && b.results == a.results && b.totalBytes == a.totalBytes && b.correlated == a.correlated
      && b.classes == a.classes && b.images == a.images
  {
    if item.ToolResult? {
      SizeIsBytes(item.content);
    }
  }

  lemma {:induction false} OverMore(items: seq<Item>, n: nat, weight: (Content, Option<Use>) -> nat)
    requires n < |items|
    ensures Over(items, n + 1, weight)
            == Over(items, n, weight) + if IsResult(items[n]) then weight(items[n].content, OwnUse(items, n)) else 0
  {
  }

  ghost predicate Totalled(a: Audit, items: seq<Item>, n: nat)
    requires n <= |items|
  {
    Counts(a, items, n) && Classifies(a, items, n) && SeesImages(a, items, n)
  }

  lemma {:induction false} CountsMore(a: Audit, items: seq<Item>, n: nat, b: Audit, own: Option<Use>)
    requires n < |items| && IsResult(items[n]) && own == OwnUse(items, n) && Counts(a, items, n)
    requires var c := items[n].content;
      && b.results == a.results + One(c, own)
      && b.totalBytes == a.totalBytes + AllBytes(c, own)
      && b.correlated == a.correlated + Correlated(c, own)
    ensures Counts(b, items, n + 1)
  {
    OverMore(items, n, One);
    OverMore(items, n, AllBytes);
    OverMore(items, n, Correlated);
  }

  lemma {:induction false} ClassifiesMore(a: Audit, items: seq<Item>, n: nat, b: Audit, own: Option<Use>)
    requires n < |items| && IsResult(items[n]) && own == OwnUse(items, n) && Classifies(a, items, n)
    requires var c := items[n].content;
      && b.classes.image == a.classes.image + ImageBytes(c, own)
      && b.classes.text == a.classes.text + TextBytes(c, own)
    ensures Classifies(b, items, n + 1)
  {
    OverMore(items, n, ImageBytes);
    OverMore(items, n, TextBytes);
  }

  lemma {:induction false} SeesMore(a: Audit, items: seq<Item>, n: nat, b: Audit, own: Option<Use>)
    requires n < |items| && IsResult(items[n]) && own == OwnUse(items, n) && SeesImages(a, items, n)
    requires var c := items[n].content;
      && b.images.payloads == a.images.payloads + ImagePayloads(c, own)
      && b.images.parsed == a.images.parsed + ParsedPayloads(c, own)
      && b.images.tokens == a.images.tokens + PayloadTokens(c, own)
    ensures SeesImages(b, items, n + 1)
  {
    OverMore(items, n, ImagePayloads);
    OverMore(items, n, ParsedPayloads);
    OverMore(items, n, PayloadTokens);
  }

  lemma {:induction false} ResultTotalled(a: Audit, items: seq<Item>, n: nat, b: Audit)
    requires n < |items| && HasRoom(items) && Booked(a, items, n) && PendingWaits(a.pending, items, n)
    requires Totalled(a, items, n) && IsResult(items[n]) && b == ObservedResult(a, items[n].useId, items[n].content)
    ensures Totalled(b, items, n + 1)
  {
    var own := OwnUse(items, n);
    FindsOwnUse(a.pending, items, n);
    OwnRow(a, items, n, own);
    ResultTotals(a, items[n].useId, items[n].content, own);
    CountsMore(a, items, n, b, own);
    ClassifiesMore(a, items, n, b, own);
    SeesMore(a, items, n, b, own);
  }

  lemma {:induction false} OtherTotalled(a: Audit, items: seq<Item>, n: nat, b: Audit)
    requires n < |items| && !IsResult(items[n]) && Totalled(a, items, n)
    requires b.results == a.results && b.totalBytes == a.totalBytes && b.correlated == a.correlated
    requires b.classes == a.classes && b.images == a.images
    ensures Totalled(b, items, n + 1)
  {
    forall weight: (Content, Option<Use>) -> nat ensures Over(items, n + 1, weight) == Over(items, n, weight) {
      OverMore(items, n, weight);
    }
  }

  lemma {:induction false} StepTotalled(a: Audit, items: seq<Item>, n: nat, b: Audit)
    requires n < |items| && HasRoom(items) && Booked(a, items, n) && PendingWaits(a.pending, items, n)
    requires Totalled(a, items, n) && b == Observed(a, items[n])
    ensures Totalled(b, items, n + 1)
  {
    if IsResult(items[n]) {
      ResultTotalled(a, items, n, b);
    } else {
      OtherTotals(a, items[n]);
      OtherTotalled(a, items, n, b);
    }
  }

  /** Every total is the sum of what the results themselves say: bytes, classes
      by each block and its file's name, and image payloads with their tokens. */
  lemma {:induction false} TotalsAreExact(items: seq<Item>, n: nat)
    requires n <= |items| && HasRoom(items)
    ensures Totalled(ObservedAll(items[..n]), items, n)
  {
    if n > 0 {
      TotalsAreExact(items, n - 1);
      AttributionIsExact(items, n - 1);
      ObservedMore(items, n - 1);
      StepTotalled(ObservedAll(items[..n - 1]), items, n - 1, ObservedAll(items[..n]));
    }
  }
}
