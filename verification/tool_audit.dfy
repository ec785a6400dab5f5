/** Accounting for the bytes that tool results carry: by tool, by kind of
    content and by image payload, with bounded label tables. */
module ToolAudit {
  import opened Basics
  import opened Counters

  const MAX_PENDING_USES: nat := 20_000
  const MAX_TOOL_LABELS: nat := 500
  const MAX_EXTENSIONS: nat := 200
  const OVERFLOW_LABEL := "(other)"
  const UNATTRIBUTED := "unattributed"

  /** Labels that are never folded into the overflow row. */
  predicate IsReserved(name: string) {
    name == OVERFLOW_LABEL || name == "(not-an-extension)" || name == "(none)"
  }

  predicate IsImageExtension(extension: string) {
    || extension == "png" || extension == "jpg" || extension == "jpeg" || extension == "gif"
    || extension == "webp" || extension == "bmp" || extension == "tif" || extension == "tiff"
    || extension == "ico" || extension == "heic" || extension == "heif" || extension == "avif"
  }

  datatype Class = Image | Text | Unknown

  /** What one content block shows the audit: its measured size, whether it is
      an image payload or a text block, and the token estimate of a payload
      whose dimensions could be read. */
  datatype Block = Block(size: nat, image: bool, textual: bool, imageTokens: Option<nat>)

  /** The content of a tool result. */
  datatype Content = Missing | Plain(size: nat) | Blocks(blocks: seq<Block>) | Structured(size: nat)

  datatype Use = Use(name: string, extension: Option<string>)

  /** What happens to the audit: the two block types that it looks at, the
      start of a file, and the start of a turn. */
  datatype Item =
    | ToolUse(id: string, use: Use)
    | ToolResult(useId: Option<string>, content: Content)
    | FileStart
    | TurnStart

  /** Bytes by kind of content. */
  datatype ByClass = ByClass(image: nat, text: nat, unknown: nat) {
    function At(k: Class): nat {
      match k case Image => image case Text => text case Unknown => unknown
    }

    function Plus(k: Class, amount: nat): ByClass {
      match k
      case Image => this.(image := image + amount)
      case Text => this.(text := text + amount)
      case Unknown => this.(unknown := unknown + amount)
    }

    function Merge(other: ByClass): ByClass {
      ByClass(image + other.image, text + other.text, unknown + other.unknown)
    }
  }

  function NoBytes(): ByClass {
    ByClass(0, 0, 0)
  }

  /** The label tables: results and bytes by tool, bytes by file extension. */
  datatype Labels = Labels(
    toolResults: map<string, nat>, toolBytes: map<string, nat>, extensionBytes: map<string, nat>)

  datatype Images = Images(payloads: nat, parsed: nat, unavailable: nat, tokens: nat)

  datatype Audit = Audit(
    results: nat,
    totalBytes: nat,
    labels: Labels,
    classes: ByClass,
    correlated: nat,
    uncorrelated: nat,
    attributionTruncated: bool,
    images: Images,
    pending: map<string, Use>,
    lastTool: Option<string>,
    textBytesSinceTurn: nat,
    resultsSinceTurn: nat)

  const EMPTY_AUDIT :=
    Audit(0, 0, Labels(map[], map[], map[]), NoBytes(), 0, 0, false, Images(0, 0, 0, 0), map[], None, 0, 0)

  // ---- Measuring one result ----

  function BlocksSize(blocks: seq<Block>): nat {
    if blocks == [] then 0 else BlocksSize(blocks[..|blocks| - 1]) + blocks[|blocks| - 1].size
  }

  function Size(c: Content): Option<nat> {
    match c
    case Missing => None
    case Plain(size) => Some(size)
    case Structured(size) => Some(size)
    case Blocks(blocks) => Some(BlocksSize(blocks))
  }

  function ByExtension(extension: Option<string>): Class {
    if extension.None? then Unknown
    else if IsImageExtension(extension.value) then Image
    else Text
  }

  function BlockClass(extension: Option<string>, b: Block): Class {
    if b.image then Image else if b.textual then Text else ByExtension(extension)
  }

  /** The class of content that is not split into blocks. */
  function WholeClass(extension: Option<string>, c: Content): Class {
    if c.Plain? then Text else ByExtension(extension)
  }

  /** The bytes of the blocks of one class. */
  function ClassBytes(extension: Option<string>, blocks: seq<Block>, k: Class): nat {
    if blocks == [] then 0
    else
      var last := blocks[|blocks| - 1];
      ClassBytes(extension, blocks[..|blocks| - 1], k) +
      if BlockClass(extension, last) == k then last.size else 0
  }

  /** A result's bytes by class: block by block when it has blocks, else as a whole. */
  function PerClass(extension: Option<string>, c: Content): ByClass {
    if c.Blocks? && c.blocks != [] then
      ByClass(ClassBytes(extension, c.blocks, Image), ClassBytes(extension, c.blocks, Text),
              ClassBytes(extension, c.blocks, Unknown))
    else NoBytes().Plus(WholeClass(extension, c), if Size(c).Some? then Size(c).value else 0)
  }

  lemma {:induction false} ClassesPartitionBlocks(extension: Option<string>, blocks: seq<Block>)
    ensures ClassBytes(extension, blocks, Image) + ClassBytes(extension, blocks, Text)
            + ClassBytes(extension, blocks, Unknown) == BlocksSize(blocks)
  {
    if blocks != [] {
      ClassesPartitionBlocks(extension, blocks[..|blocks| - 1]);
    }
  }

  /** Splitting a result into classes loses no byte. */
  lemma PerClassSums(extension: Option<string>, c: Content)
    requires Size(c).Some?
    ensures var per := PerClass(extension, c); per.image + per.text + per.unknown == Size(c).value
  {
    if c.Blocks? {
      ClassesPartitionBlocks(extension, c.blocks);
    }
  }

  /** The block loop, with the correction of a mismatch between the blocks and
      the whole, which is never needed. */
  method ToolResultClassBytes(extension: Option<string>, c: Content, totalSize: nat)
    returns (perClass: ByClass)
    requires Size(c) == Some(totalSize)
    ensures perClass == PerClass(extension, c)
    ensures perClass.image + perClass.text + perClass.unknown == totalSize
  {
    PerClassSums(extension, c);
    if !c.Blocks? || c.blocks == [] {
      return NoBytes().Plus(WholeClass(extension, c), totalSize);
    }
    perClass := NoBytes();
    var measured := 0;
    for i := 0 to |c.blocks|
      invariant forall k: Class :: perClass.At(k) == ClassBytes(extension, c.blocks[..i], k)
      invariant measured == BlocksSize(c.blocks[..i])
    {
      assert c.blocks[..i + 1][..i] == c.blocks[..i];
      var b := c.blocks[i];
      measured := measured + b.size;
      perClass := perClass.Plus(BlockClass(extension, b), b.size);
    }
    assert c.blocks[..|c.blocks|] == c.blocks;
    assert perClass.At(Image) == perClass.image && perClass.At(Text) == perClass.text
           && perClass.At(Unknown) == perClass.unknown;
    if measured != totalSize {
      assert false;
    }
  }

  // ---- Bounded labels ----

  /** A label keeps its own row while there is room; reserved labels always do. */
  function BoundedLabel(name: string, seen: map<string, nat>, limit: nat): string {
    if IsReserved(name) then name
    else if name in seen || |seen| < limit then name
    else OVERFLOW_LABEL
  }

  /** The labels of a table that are not reserved. */
  function Ordinary(m: map<string, nat>): set<string> {
    set name | name in m && !IsReserved(name)
  }

  predicate LabelsBounded(m: map<string, nat>, limit: nat) {
    |Ordinary(m)| <= limit
  }

  lemma LabelStaysBounded(m: map<string, nat>, name: string, limit: nat, amount: nat)
    requires LabelsBounded(m, limit)
    ensures LabelsBounded(Add(m, BoundedLabel(name, m, limit), amount), limit)
  {
    var kept := BoundedLabel(name, m, limit);
    var after := Ordinary(Add(m, kept, amount));
    if IsReserved(kept) || kept in m {
      assert after == Ordinary(m);
    } else {
      assert after == Ordinary(m) + {kept};
      SubsetSize(Ordinary(m), m.Keys);
    }
  }

  const RESERVED_COUNT: nat := 3

  lemma BoundedTableSize(m: map<string, nat>, limit: nat)
    requires LabelsBounded(m, limit)
    ensures |m| <= limit + RESERVED_COUNT
  {
    var reserved := {OVERFLOW_LABEL, "(not-an-extension)", "(none)"};
    SubsetSize(m.Keys, Ordinary(m) + reserved);
    assert |Ordinary(m) + reserved| <= |Ordinary(m)| + |reserved|;
  }

  // ---- One item ----

  function ObservedUse(a: Audit, id: string, use: Use): Audit {
    if |a.pending| >= MAX_PENDING_USES then a.(attributionTruncated := true)
    else a.(pending := a.pending[id := use])
  }

  function Payloads(c: Content): seq<Block> {
    if c.Blocks? then ImageBlocks(c.blocks) else []
  }

  function ImageBlocks(blocks: seq<Block>): seq<Block> {
    if blocks == [] then []
    else ImageBlocks(blocks[..|blocks| - 1]) +
         if blocks[|blocks| - 1].image then [blocks[|blocks| - 1]] else []
  }

  function Parsed(payloads: seq<Block>): nat {
    if payloads == [] then 0
    else Parsed(payloads[..|payloads| - 1]) + if payloads[|payloads| - 1].imageTokens.Some? then 1 else 0
  }

  function Tokens(payloads: seq<Block>): nat {
    if payloads == [] then 0
    else
      var last := payloads[|payloads| - 1];
      Tokens(payloads[..|payloads| - 1]) + if last.imageTokens.Some? then last.imageTokens.value else 0
  }

  lemma {:induction false} ParsedBound(payloads: seq<Block>)
    ensures Parsed(payloads) <= |payloads|
  {
    if payloads != [] {
      ParsedBound(payloads[..|payloads| - 1]);
    }
  }

  function Correlation(pending: map<string, Use>, id: Option<string>): Option<Use> {
    if id.Some? && id.value in pending then Some(pending[id.value]) else None
  }

  function ToolLabel(l: Labels, entry: Option<Use>): string {
    BoundedLabel(if entry.Some? then entry.value.name else UNATTRIBUTED, l.toolBytes, MAX_TOOL_LABELS)
  }

  function ExtensionLabel(l: Labels, entry: Option<Use>): Option<string> {
    if entry.Some? && entry.value.extension.Some? then
      Some(BoundedLabel(entry.value.extension.value, l.extensionBytes, MAX_EXTENSIONS))
    else None
  }

  function Attributed(l: Labels, entry: Option<Use>, size: nat): Labels {
    var tool, extension := ToolLabel(l, entry), ExtensionLabel(l, entry);
    Labels(Add(l.toolResults, tool, 1), Add(l.toolBytes, tool, size),
           if extension.None? then l.extensionBytes else Add(l.extensionBytes, extension.value, size))
  }

  function SeenImages(i: Images, payloads: seq<Block>): Images {
    Images(i.payloads + |payloads|, i.parsed + Parsed(payloads),
           i.unavailable + Max(0, |payloads| - Parsed(payloads)), i.tokens + Tokens(payloads))
  }

  /** The audit after a result of this size, once its classes are known. */
  function Charged(a: Audit, id: Option<string>, size: nat, per: ByClass, payloads: seq<Block>): Audit {
    var entry := Correlation(a.pending, id);
    Audit(
      a.results + 1,
      a.totalBytes + size,
      Attributed(a.labels, entry, size),
      a.classes.Merge(per),
      a.correlated + if entry.Some? then 1 else 0,
      a.uncorrelated + if entry.Some? then 0 else 1,
      a.attributionTruncated,
      SeenImages(a.images, payloads),
      if entry.Some? then a.pending - {id.value} else a.pending,
      Some(ToolLabel(a.labels, entry)),
      a.textBytesSinceTurn + Max(0, size - per.image),
      a.resultsSinceTurn + 1)
  }

  function ObservedResult(a: Audit, id: Option<string>, c: Content): Audit {
    if Size(c).None? then a
    else
      var per := PerClass(ExtensionLabel(a.labels, Correlation(a.pending, id)), c);
      Charged(a, id, Size(c).value, per, Payloads(c))
  }

  function Observed(a: Audit, item: Item): Audit {
    match item
    case ToolUse(id, use) => ObservedUse(a, id, use)
    case ToolResult(useId, c) => ObservedResult(a, useId, c)
    case FileStart => a.(pending := map[], lastTool := None, textBytesSinceTurn := 0, resultsSinceTurn := 0)
    case TurnStart => a.(textBytesSinceTurn := 0, resultsSinceTurn := 0)
  }

  // ---- The stateful form ----

  /** The audit object; each method handles one block. */
  class ToolResultBytesAudit {
    var results: nat
    var totalBytes: nat
    var labels: Labels
    var classes: ByClass
    var correlated: nat
    var uncorrelated: nat
    var attributionTruncated: bool
    var images: Images
    var pending: map<string, Use>
    var lastTool: Option<string>
    var textBytesSinceTurn: nat
    var resultsSinceTurn: nat

    function View(): Audit
      reads this
    {
      Audit(results, totalBytes, labels, classes, correlated, uncorrelated, attributionTruncated,
            images, pending, lastTool, textBytesSinceTurn, resultsSinceTurn)
    }

    constructor ()
      ensures View() == EMPTY_AUDIT
    {
      results, totalBytes, labels, classes := 0, 0, Labels(map[], map[], map[]), NoBytes();
      correlated, uncorrelated, attributionTruncated := 0, 0, false;
      images, pending, lastTool := Images(0, 0, 0, 0), map[], None;
      textBytesSinceTurn, resultsSinceTurn := 0, 0;
    }

    method StartFile()
      modifies `pending, `lastTool, `textBytesSinceTurn, `resultsSinceTurn
      ensures View() == Observed(old(View()), FileStart)
    {
      pending, lastTool := map[], None;
      textBytesSinceTurn, resultsSinceTurn := 0, 0;
    }

    method ObserveToolUse(id: string, use: Use)
      modifies `attributionTruncated, `pending
      ensures View() == ObservedUse(old(View()), id, use)
    {
      if |pending| >= MAX_PENDING_USES {
        attributionTruncated := true;
        return;
      }
      pending := pending[id := use];
    }

    method ObserveImages(payloads: seq<Block>)
      modifies `images
      ensures images == SeenImages(old(images), payloads)
    {
      for i := 0 to |payloads|
        invariant Parsed(payloads[..i]) <= i
        invariant images == SeenImages(old(images), payloads[..i])
      {
        assert payloads[..i + 1][..i] == payloads[..i];
        images := images.(payloads := images.payloads + 1);
        if payloads[i].imageTokens.None? {
          images := images.(unavailable := images.unavailable + 1);
          continue;
        }
        images := images.(parsed := images.parsed + 1, tokens := images.tokens + payloads[i].imageTokens.value);
      }
      assert payloads[..|payloads|] == payloads;
    }

    /** Look the use up, then charge the result to its bounded labels. */
    method Attribute(id: Option<string>, size: nat) returns (extension: Option<string>)
      modifies `correlated, `uncorrelated, `pending, `labels, `lastTool
      ensures var entry := Correlation(old(pending), id);
        && extension == ExtensionLabel(old(labels), entry)
        && labels == Attributed(old(labels), entry, size)
        && lastTool == Some(ToolLabel(old(labels), entry))
        && correlated == old(correlated) + (if entry.Some? then 1 else 0)
        && uncorrelated == old(uncorrelated) + (if entry.Some? then 0 else 1)
        && pending == if entry.Some? then old(pending) - {id.value} else old(pending)
    {
      var entry := Correlation(pending, id);
      var tool := UNATTRIBUTED;
      extension := None;
      if entry.None? {
        uncorrelated := uncorrelated + 1;
      } else {
        pending := pending - {id.value};
        correlated := correlated + 1;
        tool, extension := entry.value.name, entry.value.extension;
      }
      tool := BoundedLabel(tool, labels.toolBytes, MAX_TOOL_LABELS);
      labels := labels.(toolResults := Add(labels.toolResults, tool, 1),
                        toolBytes := Add(labels.toolBytes, tool, size));
      lastTool := Some(tool);
      if extension.Some? {
        extension := Some(BoundedLabel(extension.value, labels.extensionBytes, MAX_EXTENSIONS));
        labels := labels.(extensionBytes := Add(labels.extensionBytes, extension.value, size));
      }
    }

    /** What a measured result adds once it is attributed and classified. */
    method Charge(size: nat, perClass: ByClass, payloads: seq<Block>)
      modifies `results, `totalBytes, `classes, `textBytesSinceTurn, `resultsSinceTurn, `images
      ensures results == old(results) + 1 && totalBytes == old(totalBytes) + size
      ensures classes == old(classes).Merge(perClass)
      ensures textBytesSinceTurn == old(textBytesSinceTurn) + Max(0, size - perClass.image)
      ensures resultsSinceTurn == old(resultsSinceTurn) + 1
      ensures images == SeenImages(old(images), payloads)
    {
      results := results + 1;
      totalBytes := totalBytes + size;
      classes := classes.Merge(perClass);
      textBytesSinceTurn := textBytesSinceTurn + Max(0, size - perClass.image);
      resultsSinceTurn := resultsSinceTurn + 1;
      ObserveImages(payloads);
    }

    method ObserveToolResult(id: Option<string>, c: Content)
      modifies this
      ensures View() == ObservedResult(old(View()), id, c)
    {
      var measured := Size(c);
      if measured.None? {
        return;
      }
      var extension := Attribute(id, measured.value);
      var perClass := ToolResultClassBytes(extension, c, measured.value);
      Charge(measured.value, perClass, Payloads(c));
      assert View() == Charged(old(View()), id, measured.value, perClass, Payloads(c));
    }
  }

  // ---- Conservation over whole transcripts ----

  /** Both tool tables account for every result, and no table outgrows its limit. */
  ghost predicate LabelsConserve(l: Labels, results: nat, bytes: nat) {
    && Sum(l.toolBytes) == bytes
    && Sum(l.toolResults) == results
    && Sum(l.extensionBytes) <= bytes
    && LabelsBounded(l.toolBytes, MAX_TOOL_LABELS)
    && LabelsBounded(l.extensionBytes, MAX_EXTENSIONS)
  }

  /** Every byte is of one class, text or image; every result is correlated or
      not; every image payload is parsed or not. */
  predicate BytesConserve(a: Audit) {
    && a.classes.image + a.classes.text + a.classes.unknown == a.totalBytes
    && a.correlated + a.uncorrelated == a.results
    && a.images.payloads == a.images.parsed + a.images.unavailable
  }

  lemma AttributionConserves(l: Labels, entry: Option<Use>, size: nat, results: nat, bytes: nat)
    requires LabelsConserve(l, results, bytes)
    ensures LabelsConserve(Attributed(l, entry, size), results + 1, bytes + size)
  {
    var name := if entry.Some? then entry.value.name else UNATTRIBUTED;
    SumAdd(l.toolBytes, ToolLabel(l, entry), size);
    SumAdd(l.toolResults, ToolLabel(l, entry), 1);
    LabelStaysBounded(l.toolBytes, name, MAX_TOOL_LABELS, size);
    if entry.Some? && entry.value.extension.Some? {
      SumAdd(l.extensionBytes, ExtensionLabel(l, entry).value, size);
      LabelStaysBounded(l.extensionBytes, entry.value.extension.value, MAX_EXTENSIONS, size);
    }
  }

  function ObservedAll(items: seq<Item>): Audit {
    if items == [] then EMPTY_AUDIT
    else Observed(ObservedAll(items[..|items| - 1]), items[|items| - 1])
  }

  lemma ObservedConserves(a: Audit, item: Item, b: Audit)
    requires LabelsConserve(a.labels, a.results, a.totalBytes) && b == Observed(a, item)
    ensures LabelsConserve(b.labels, b.results, b.totalBytes)
  {
    if item.ToolResult? && Size(item.content).Some? {
      AttributionConserves(a.labels, Correlation(a.pending, item.useId), Size(item.content).value, a.results, a.totalBytes);
    }
  }

  /** After any sequence of blocks the per-tool bytes sum to the total and the
      per-tool results to the results. */
  lemma {:induction false} TablesConserve(items: seq<Item>)
    ensures var a := ObservedAll(items); LabelsConserve(a.labels, a.results, a.totalBytes)
  {
    if items != [] {
      var n := |items| - 1;
      TablesConserve(items[..n]);
      ObservedConserves(ObservedAll(items[..n]), items[n], ObservedAll(items));
    } else {
      assert Ordinary(map[]) == {};
    }
  }

  lemma ChargedFields(a: Audit, id: Option<string>, size: nat, per: ByClass, payloads: seq<Block>)
    requires Parsed(payloads) <= |payloads| && per.image <= size
    ensures var b := Charged(a, id, size, per, payloads);
      && b.totalBytes == a.totalBytes + size
      && b.textBytesSinceTurn == a.textBytesSinceTurn + size - per.image
      && b.classes.image == a.classes.image + per.image
      && b.classes.text == a.classes.text + per.text
      && b.classes.unknown == a.classes.unknown + per.unknown
      && b.results == a.results + 1 && b.resultsSinceTurn == a.resultsSinceTurn + 1
      && b.correlated + b.uncorrelated == a.correlated + a.uncorrelated + 1
      && b.images.payloads - a.images.payloads
         == (b.images.parsed - a.images.parsed) + (b.images.unavailable - a.images.unavailable)
  {
  }

  /** The bytes that are not of images. */
  function Textual(a: Audit): int {
    a.totalBytes - a.classes.image
  }

  predicate IsBlock(item: Item) {
    item.ToolUse? || item.ToolResult?
  }

  /** What a turn has seen since it began grows with the totals, and a result
      always leaves its label. */
  lemma BlockGrows(a: Audit, item: Item)
    requires IsBlock(item)
    ensures var b := Observed(a, item);
      && b.results >= a.results && Textual(b) >= Textual(a)
      && b.textBytesSinceTurn - a.textBytesSinceTurn == Textual(b) - Textual(a)
      && b.resultsSinceTurn - a.resultsSinceTurn == b.results - a.results
      && (b.results > a.results ==> b.lastTool.Some?)
      && (b.results == a.results ==> b.lastTool == a.lastTool)
  {
    if item.ToolResult? && Size(item.content).Some? {
      var extension := ExtensionLabel(a.labels, Correlation(a.pending, item.useId));
      PerClassSums(extension, item.content);
      ParsedBound(Payloads(item.content));
      ChargedFields(a, item.useId, Size(item.content).value, PerClass(extension, item.content), Payloads(item.content));
    }
  }

  function SetTurn(a: Audit, textBytes: nat, results: nat): Audit {
    a.(textBytesSinceTurn := textBytes, resultsSinceTurn := results)
  }

  /** Nothing but the turn itself looks at what a turn has seen. */
  lemma TurnIsApart(a: Audit, item: Item, textBytes: nat, results: nat)
    requires IsBlock(item)
    ensures Observed(SetTurn(a, textBytes, results), item)
            == SetTurn(Observed(a, item), Observed(SetTurn(a, textBytes, results), item).textBytesSinceTurn,
                       Observed(SetTurn(a, textBytes, results), item).resultsSinceTurn)
  {
  }

  lemma ChargedConserves(a: Audit, id: Option<string>, size: nat, per: ByClass, payloads: seq<Block>)
    requires BytesConserve(a) && per.image + per.text + per.unknown == size && Parsed(payloads) <= |payloads|
    ensures BytesConserve(Charged(a, id, size, per, payloads))
  {
    ChargedFields(a, id, size, per, payloads);
  }

  lemma ResultConserves(a: Audit, id: Option<string>, c: Content)
    requires BytesConserve(a)
    ensures BytesConserve(ObservedResult(a, id, c))
  {
    if Size(c).Some? {
      var extension := ExtensionLabel(a.labels, Correlation(a.pending, id));
      PerClassSums(extension, c);
      ParsedBound(Payloads(c));
      ChargedConserves(a, id, Size(c).value, PerClass(extension, c), Payloads(c));
    }
  }

  lemma ItemConserves(a: Audit, item: Item)
    requires BytesConserve(a)
    ensures BytesConserve(Observed(a, item))
  {
    if item.ToolResult? {
      ResultConserves(a, item.useId, item.content);
    }
  }

  /** After any sequence of blocks, turns and files the per-class bytes sum to
      the total, and results and payloads are fully classified. */
  lemma {:induction false} TranscriptConserves(items: seq<Item>)
    ensures BytesConserve(ObservedAll(items))
  {
    if items != [] {
      var a := ObservedAll(items[..|items| - 1]);
      TranscriptConserves(items[..|items| - 1]);
      ItemConserves(a, items[|items| - 1]);
    }
  }

  /** The label tables stay within their limit plus the reserved labels. */
  lemma TablesStayBounded(items: seq<Item>)
    ensures |ObservedAll(items).labels.toolBytes| <= MAX_TOOL_LABELS + RESERVED_COUNT
    ensures |ObservedAll(items).labels.extensionBytes| <= MAX_EXTENSIONS + RESERVED_COUNT
  {
    TablesConserve(items);
    BoundedTableSize(ObservedAll(items).labels.toolBytes, MAX_TOOL_LABELS);
    BoundedTableSize(ObservedAll(items).labels.extensionBytes, MAX_EXTENSIONS);
  }
}
