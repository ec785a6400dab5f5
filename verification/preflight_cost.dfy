/** Preflight costs: cache breakpoints as prompt prefixes, their incremental
    sizes, and the predicted cost between its two extremes. */
module PreflightCost {
  import opened Basics

  // ---- The request ----

  datatype Ttl = FiveMinutes | OneHour

  /** The `cache_control` entry of an object, if it has one. */
  datatype CacheControl = Absent | Unsupported | Provider(ttl: Ttl)

  /** A JSON value with its provider marker stripped, by identity. */
  type Value = nat

  datatype Part = Part(control: CacheControl, value: Value)

  datatype Explicit = NotAnObject | Item(kind: string, control: CacheControl, ttl: Ttl, value: Value)

  datatype Tools = NoTools | ToolList(tools: seq<Part>) | OtherTools(value: Value)

  datatype System = NoSystem | SystemList(blocks: seq<Part>) | OtherSystem(value: Value, cache: CacheControl)

  datatype Message =
    | Bare(value: Value)
    | Whole(control: CacheControl, value: Value)
    | Blocks(control: CacheControl, role: string, content: seq<Part>, value: Value)

  datatype Messages = NoMessages | MessageList(messages: seq<Message>) | OtherMessages(value: Value)

  datatype Request = Request(explicit: seq<Explicit>, tools: Tools, system: System, messages: Messages)

  // ---- Prompt units and breakpoints ----

  datatype Unit = Unit(kind: string, role: Option<string>, value: Value, position: seq<nat>)

  /** A unit as it is appended: with the time to live of its marker, if any. */
  datatype Mark = Mark(unit: Unit, ttl: Option<Ttl>)

  datatype Breakpoint = Breakpoint(index: nat, kind: string, ttl: Ttl, prefix: seq<Unit>, section: Unit)

  function UnitsOf(marks: seq<Mark>): (units: seq<Unit>)
    ensures |units| == |marks|
  {
    seq(|marks|, k requires 0 <= k < |marks| => marks[k].unit)
  }

  function Breakpoints(marks: seq<Mark>): seq<Breakpoint> {
    if marks == [] then []
    else
      var n := |marks| - 1;
      var before := Breakpoints(marks[..n]);
      match marks[n].ttl
      case None => before
      case Some(ttl) =>
        before + [Breakpoint(|before| + 1, marks[n].unit.kind, ttl, UnitsOf(marks), marks[n].unit)]
  }

  /** The lists that the parser grows. */
  class Prompt {
    var units: seq<Unit>
    var breakpoints: seq<Breakpoint>
    ghost var marks: seq<Mark>

    ghost predicate Valid()
      reads this
    {
      units == UnitsOf(marks) && breakpoints == Breakpoints(marks)
    }

    constructor ()
      ensures Valid() && marks == []
    {
      units, breakpoints, marks := [], [], [];
    }

    method AppendUnit(unit: Unit, ttl: Option<Ttl>)
      requires Valid()
      modifies this
      ensures Valid() && marks == old(marks) + [Mark(unit, ttl)]
    {
      ghost var next := marks + [Mark(unit, ttl)];
      assert next[..|marks|] == marks;
      assert UnitsOf(next) == units + [unit];
      units, marks := units + [unit], next;
      if ttl.Some? {
        breakpoints := breakpoints + [Breakpoint(|breakpoints| + 1, unit.kind, ttl.value, units, unit)];
      }
    }
  }

  function TtlOf(c: CacheControl): Option<Ttl> {
    if c.Provider? then Some(c.ttl) else None
  }

  // ---- What a request's units are ----

  function PartMarks(kind: string, role: Option<string>, at: seq<nat>, parts: seq<Part>): seq<Mark> {
    seq(|parts|, k requires 0 <= k < |parts| =>
      Mark(Unit(kind, role, parts[k].value, at + [k]), TtlOf(parts[k].control)))
  }

  function ExplicitMark(item: Explicit): seq<Mark> {
    match item
    case NotAnObject => []
    case Item(kind, control, ttl, value) =>
      [Mark(Unit(kind, None, value, []), if control.Absent? then Some(ttl) else TtlOf(control))]
  }

  function ExplicitMarks(items: seq<Explicit>): seq<Mark> {
    if items == [] then [] else ExplicitMarks(items[..|items| - 1]) + ExplicitMark(items[|items| - 1])
  }

  predicate AnyProvider(parts: seq<Part>) {
    exists k :: 0 <= k < |parts| && parts[k].control.Provider?
  }

  function MessageMarks(m: Message, i: nat): seq<Mark> {
    match m
    case Bare(value) => [Mark(Unit("message", None, value, [i]), None)]
    case Whole(control, value) => [Mark(Unit("message", None, value, [i]), TtlOf(control))]
    case Blocks(control, role, content, value) =>
      PartMarks("message_content", Some(role), [i], content)
      + if control.Provider? && !AnyProvider(content)
        then [Mark(Unit("message", None, value, [i]), TtlOf(control))] else []
  }

  function MessagesMarks(ms: seq<Message>): seq<Mark> {
    if ms == [] then [] else MessagesMarks(ms[..|ms| - 1]) + MessageMarks(ms[|ms| - 1], |ms| - 1)
  }

  function ToolsMarks(t: Tools): seq<Mark> {
    match t
    case NoTools => []
    case ToolList(tools) => PartMarks("tool", None, [], tools)
    case OtherTools(value) => [Mark(Unit("tools", None, value, []), None)]
  }

  function SystemMarks(s: System): seq<Mark> {
    match s
    case NoSystem => []
    case SystemList(blocks) => PartMarks("system", None, [], blocks)
    case OtherSystem(value, cache) => [Mark(Unit("system", None, value, []), TtlOf(cache))]
  }

  function AllMessagesMarks(m: Messages): seq<Mark> {
    match m
    case NoMessages => []
    case MessageList(ms) => MessagesMarks(ms)
    case OtherMessages(value) => [Mark(Unit("messages", None, value, []), None)]
  }

  function MarksOf(r: Request): seq<Mark> {
    ExplicitMarks(r.explicit) + ToolsMarks(r.tools) + SystemMarks(r.system) + AllMessagesMarks(r.messages)
  }

  // ---- Markers that are no provider markers ----

  function UnsupportedParts(parts: seq<Part>): nat {
    if parts == [] then 0
    else UnsupportedParts(parts[..|parts| - 1]) + if parts[|parts| - 1].control.Unsupported? then 1 else 0
  }

  function UnsupportedExplicit(items: seq<Explicit>): nat {
    if items == [] then 0
    else
      var last := items[|items| - 1];
      UnsupportedExplicit(items[..|items| - 1]) +
      if last.NotAnObject? || last.control.Unsupported? then 1 else 0
  }

  function UnsupportedIn(m: Message): nat {
    match m
    case Bare(_) => 0
    case Whole(control, _) => if control.Unsupported? then 1 else 0
    case Blocks(control, _, content, _) => UnsupportedParts(content) + if control.Unsupported? then 1 else 0
  }

  function UnsupportedMessages(ms: seq<Message>): nat {
    if ms == [] then 0 else UnsupportedMessages(ms[..|ms| - 1]) + UnsupportedIn(ms[|ms| - 1])
  }

  function UnsupportedMarkers(r: Request): nat {
    UnsupportedExplicit(r.explicit)
    + (if r.tools.ToolList? then UnsupportedParts(r.tools.tools) else 0)
    + (match r.system
       case NoSystem => 0
       case SystemList(blocks) => UnsupportedParts(blocks)
       case OtherSystem(_, cache) => if cache.Unsupported? then 1 else 0)
    + (if r.messages.MessageList? then UnsupportedMessages(r.messages.messages) else 0)
  }

  method AppendParts(p: Prompt, kind: string, role: Option<string>, at: seq<nat>, parts: seq<Part>)
    returns (unsupported: nat)
    requires p.Valid()
    modifies p
    ensures p.Valid() && p.marks == old(p.marks) + PartMarks(kind, role, at, parts)
    ensures unsupported == UnsupportedParts(parts)
  {
    unsupported := 0;
    ghost var all := PartMarks(kind, role, at, parts);
    for i := 0 to |parts|
      invariant p.Valid() && p.marks == old(p.marks) + all[..i]
      invariant unsupported == UnsupportedParts(parts[..i])
    {
      assert parts[..i + 1][..i] == parts[..i];
      if parts[i].control.Unsupported? {
        unsupported := unsupported + 1;
      }
      p.AppendUnit(Unit(kind, role, parts[i].value, at + [i]), TtlOf(parts[i].control));
      assert all[..i + 1] == all[..i] + [all[i]];
    }
    assert all[..|parts|] == all && parts[..|parts|] == parts;
  }

  lemma ExplicitSnoc(items: seq<Explicit>, i: nat, before: seq<Mark>)
    requires i < |items|
    ensures before + ExplicitMarks(items[..i + 1]) == before + ExplicitMarks(items[..i]) + ExplicitMark(items[i])
    ensures UnsupportedExplicit(items[..i + 1])
            == UnsupportedExplicit(items[..i]) + if items[i].NotAnObject? || items[i].control.Unsupported? then 1 else 0
  {
    assert items[..i + 1][..i] == items[..i];
  }

  method AppendExplicitItem(p: Prompt, item: Explicit) returns (unsupported: nat)
    requires p.Valid()
    modifies p
    ensures p.Valid() && p.marks == old(p.marks) + ExplicitMark(item)
    ensures unsupported == if item.NotAnObject? || item.control.Unsupported? then 1 else 0
  {
    unsupported := 0;
    match item {
      case NotAnObject => { unsupported := 1; }
      case Item(kind, control, ttl, value) => {
        if control.Unsupported? {
          unsupported := 1;
        }
        p.AppendUnit(Unit(kind, None, value, []), if control.Absent? then Some(ttl) else TtlOf(control));
      }
    }
  }

  method AppendExplicit(p: Prompt, items: seq<Explicit>) returns (unsupported: nat)
    requires p.Valid()
    modifies p
    ensures p.Valid() && p.marks == old(p.marks) + ExplicitMarks(items)
    ensures unsupported == UnsupportedExplicit(items)
  {
    unsupported := 0;
    for i := 0 to |items|
      invariant p.Valid() && p.marks == old(p.marks) + ExplicitMarks(items[..i])
      invariant unsupported == UnsupportedExplicit(items[..i])
    {
      ExplicitSnoc(items, i, old(p.marks));
      var more := AppendExplicitItem(p, items[i]);
      unsupported := unsupported + more;
    }
    assert items[..|items|] == items;
  }

  method AppendMessage(p: Prompt, m: Message, i: nat) returns (unsupported: nat)
    requires p.Valid()
    modifies p
    ensures p.Valid() && p.marks == old(p.marks) + MessageMarks(m, i)
    ensures unsupported == UnsupportedIn(m)
  {
    unsupported := 0;
    match m {
      case Bare(value) => { p.AppendUnit(Unit("message", None, value, [i]), None); }
      case Whole(control, value) => {
        if control.Unsupported? {
          unsupported := 1;
        }
        p.AppendUnit(Unit("message", None, value, [i]), TtlOf(control));
      }
      case Blocks(control, role, content, value) => {
        unsupported := AppendParts(p, "message_content", Some(role), [i], content);
        if control.Unsupported? {
          unsupported := unsupported + 1;
        }
        if control.Provider? && !AnyProvider(content) {
          p.AppendUnit(Unit("message", None, value, [i]), TtlOf(control));
        }
      }
    }
  }

  method AppendTools(p: Prompt, t: Tools) returns (unsupported: nat)
    requires p.Valid()
    modifies p
    ensures p.Valid() && p.marks == old(p.marks) + ToolsMarks(t)
    ensures unsupported == if t.ToolList? then UnsupportedParts(t.tools) else 0
  {
    unsupported := 0;
    match t {
      case NoTools => {}
      case ToolList(tools) => { unsupported := AppendParts(p, "tool", None, [], tools); }
      case OtherTools(value) => { p.AppendUnit(Unit("tools", None, value, []), None); }
    }
  }

  method AppendSystem(p: Prompt, s: System) returns (unsupported: nat)
    requires p.Valid()
    modifies p
    ensures p.Valid() && p.marks == old(p.marks) + SystemMarks(s)
    ensures unsupported == match s
      case NoSystem => 0
      case SystemList(blocks) => UnsupportedParts(blocks)
      case OtherSystem(_, cache) => if cache.Unsupported? then 1 else 0
  {
    unsupported := 0;
    match s {
      case NoSystem => {}
      case SystemList(blocks) => { unsupported := AppendParts(p, "system", None, [], blocks); }
      case OtherSystem(value, cache) => {
        if cache.Unsupported? {
          unsupported := 1;
        }
        p.AppendUnit(Unit("system", None, value, []), TtlOf(cache));
      }
    }
  }

  method AppendMessages(p: Prompt, m: Messages) returns (unsupported: nat)
    requires p.Valid()
    modifies p
    ensures p.Valid() && p.marks == old(p.marks) + AllMessagesMarks(m)
    ensures unsupported == if m.MessageList? then UnsupportedMessages(m.messages) else 0
  {
    unsupported := 0;
    match m {
      case NoMessages => {}
      case MessageList(ms) => { unsupported := AppendMessageList(p, ms); }
      case OtherMessages(value) => { p.AppendUnit(Unit("messages", None, value, []), None); }
    }
  }

  method AppendMessageList(p: Prompt, ms: seq<Message>) returns (unsupported: nat)
    requires p.Valid()
    modifies p
    ensures p.Valid() && p.marks == old(p.marks) + MessagesMarks(ms)
    ensures unsupported == UnsupportedMessages(ms)
  {
    unsupported := 0;
    for i := 0 to |ms|
      invariant p.Valid() && p.marks == old(p.marks) + MessagesMarks(ms[..i])
      invariant unsupported == UnsupportedMessages(ms[..i])
    {
      MessagesSnoc(ms, i, old(p.marks));
      var more := AppendMessage(p, ms[i], i);
      unsupported := unsupported + more;
    }
    assert ms[..|ms|] == ms;
  }

  /** The parser: its units and breakpoints are those of the request's marked
      units, and it counts every marker that is no provider marker. */
  method ExtractCacheBreakpoints(r: Request)
    returns (breakpoints: seq<Breakpoint>, units: seq<Unit>, unsupported: nat)
    ensures units == UnitsOf(MarksOf(r)) && breakpoints == Breakpoints(MarksOf(r))
    ensures unsupported == UnsupportedMarkers(r)
  {
    var p := new Prompt();
    var explicit := AppendExplicit(p, r.explicit);
    assert p.marks == ExplicitMarks(r.explicit);
    var tools := AppendTools(p, r.tools);
    var system := AppendSystem(p, r.system);
    var messages := AppendMessages(p, r.messages);
    assert p.marks == MarksOf(r);
    breakpoints, units, unsupported := p.breakpoints, p.units, explicit + tools + system + messages;
  }

  lemma MessagesSnoc(ms: seq<Message>, i: nat, before: seq<Mark>)
    requires i < |ms|
    ensures before + MessagesMarks(ms[..i + 1]) == before + MessagesMarks(ms[..i]) + MessageMarks(ms[i], i)
    ensures UnsupportedMessages(ms[..i + 1]) == UnsupportedMessages(ms[..i]) + UnsupportedIn(ms[i])
  {
    assert ms[..i + 1][..i] == ms[..i];
  }

  // ---- Every prefix extends the one before it ----

  lemma {:induction false} BreakpointsFollowUnits(marks: seq<Mark>, k: nat)
    requires k < |Breakpoints(marks)|
    ensures var b := Breakpoints(marks)[k];
      && b.index == k + 1
      && 0 < |b.prefix| <= |marks|
      && b.prefix == UnitsOf(marks)[..|b.prefix|]
      && b.section == b.prefix[|b.prefix| - 1] && b.kind == b.section.kind
      && marks[|b.prefix| - 1].ttl == Some(b.ttl)
  {
    var n := |marks| - 1;
    if k < |Breakpoints(marks[..n])| {
      BreakpointsFollowUnits(marks[..n], k);
      assert Breakpoints(marks)[k] == Breakpoints(marks[..n])[k];
      assert UnitsOf(marks)[..n] == UnitsOf(marks[..n]);
    } else {
      assert UnitsOf(marks)[..|marks|] == UnitsOf(marks);
    }
  }

  /** Each prefix is a proper prefix of every later one. */
  lemma {:induction false} PrefixesNest(marks: seq<Mark>, j: nat, k: nat)
    requires j < k < |Breakpoints(marks)|
    ensures Breakpoints(marks)[j].prefix < Breakpoints(marks)[k].prefix
  {
    var n := |marks| - 1;
    if k < |Breakpoints(marks[..n])| {
      PrefixesNest(marks[..n], j, k);
    } else {
      BreakpointsFollowUnits(marks[..n], j);
      assert UnitsOf(marks)[..n] == UnitsOf(marks[..n]);
    }
  }

  function Marked(marks: seq<Mark>): nat {
    if marks == [] then 0
    else Marked(marks[..|marks| - 1]) + if marks[|marks| - 1].ttl.Some? then 1 else 0
  }

  lemma {:induction false} OneBreakpointPerMarkedUnit(marks: seq<Mark>)
    ensures |Breakpoints(marks)| == Marked(marks)
  {
    if marks != [] {
      OneBreakpointPerMarkedUnit(marks[..|marks| - 1]);
    }
  }

  // ---- Incremental sizes ----

  const TOKEN_PROXY_CHARS_PER_TOKEN := 4

  function TokenProxy(chars: nat): nat {
    if chars == 0 then 0
    else Max(1, (chars + TOKEN_PROXY_CHARS_PER_TOKEN - 1) / TOKEN_PROXY_CHARS_PER_TOKEN)
  }

  /** Four characters to a token, rounded up. */
  lemma TokenProxyRoundsUp(chars: nat)
    ensures 4 * TokenProxy(chars) - 4 < chars <= 4 * TokenProxy(chars)
  {
  }

  /** The length of a list in canonical JSON: brackets, elements, commas. */
  function ListLength(width: Unit -> nat, units: seq<Unit>): nat {
    if units == [] then 2
    else if |units| == 1 then 2 + width(units[0])
    else ListLength(width, units[..|units| - 1]) + 1 + width(units[|units| - 1])
  }

  /** The two sizes of a prefix. */
  datatype Axis = Tokens | Bytes

  /** What one breakpoint is priced on and reported with. */
  datatype Fingerprint = Fingerprint(ttl: Ttl, tokens: nat, deltaTokens: nat, bytes: nat, deltaBytes: nat)

  function Size(f: Fingerprint, axis: Axis): nat {
    if axis.Tokens? then f.tokens else f.bytes
  }

  function Delta(f: Fingerprint, axis: Axis): nat {
    if axis.Tokens? then f.deltaTokens else f.deltaBytes
  }

  function SumDeltas(fs: seq<Fingerprint>, axis: Axis): nat {
    if fs == [] then 0 else SumDeltas(fs[..|fs| - 1], axis) + Delta(fs[|fs| - 1], axis)
  }

  function Largest(fs: seq<Fingerprint>, axis: Axis): nat {
    if fs == [] then 0 else Max(Largest(fs[..|fs| - 1], axis), Size(fs[|fs| - 1], axis))
  }

  /** The deltas of any number of breakpoints sum to the largest size among them. */
  ghost predicate Telescopes(fs: seq<Fingerprint>, axis: Axis) {
    forall k :: 0 <= k <= |fs| ==> SumDeltas(fs[..k], axis) == Largest(fs[..k], axis)
  }

  ghost predicate Sized(fs: seq<Fingerprint>, bps: seq<Breakpoint>, chars: seq<Unit> -> nat, bytes: seq<Unit> -> nat) {
    && |fs| == |bps|
    && forall k :: 0 <= k < |fs| ==>
      && fs[k].ttl == bps[k].ttl
      && fs[k].tokens == TokenProxy(chars(bps[k].prefix)) && fs[k].bytes == bytes(bps[k].prefix)
  }

  lemma SizedSnoc(fs: seq<Fingerprint>, f: Fingerprint, bps: seq<Breakpoint>, i: nat,
                  chars: seq<Unit> -> nat, bytes: seq<Unit> -> nat)
    requires i < |bps| && Sized(fs, bps[..i], chars, bytes)
    requires f.ttl == bps[i].ttl && f.tokens == TokenProxy(chars(bps[i].prefix)) && f.bytes == bytes(bps[i].prefix)
    ensures Sized(fs + [f], bps[..i + 1], chars, bytes)
  {
  }

  lemma TelescopesSnoc(fs: seq<Fingerprint>, f: Fingerprint, axis: Axis)
    requires Telescopes(fs, axis) && Delta(f, axis) == Max(0, Size(f, axis) - Largest(fs, axis))
    ensures Telescopes(fs + [f], axis) && Largest(fs + [f], axis) == Max(Largest(fs, axis), Size(f, axis))
  {
    var next := fs + [f];
    assert next[..|fs|] == fs && fs[..|fs|] == fs && next[..|next|] == next;
    forall k | 0 <= k <= |next| ensures SumDeltas(next[..k], axis) == Largest(next[..k], axis) {
      if k <= |fs| {
        assert next[..k] == fs[..k];
      }
    }
  }

  /** Running maxima: whatever the sizes are, the deltas telescope, in tokens
      and in bytes. */
  method BuildFingerprints(bps: seq<Breakpoint>, chars: seq<Unit> -> nat, bytes: seq<Unit> -> nat)
    returns (fs: seq<Fingerprint>)
    ensures Sized(fs, bps, chars, bytes) && forall axis: Axis :: Telescopes(fs, axis)
  {
    fs := [];
    var previousTokens, previousBytes := 0, 0;
    for i := 0 to |bps|
      invariant Sized(fs, bps[..i], chars, bytes) && Telescopes(fs, Tokens) && Telescopes(fs, Bytes)
      invariant previousTokens == Largest(fs, Tokens) && previousBytes == Largest(fs, Bytes)
    {
      var tokens, size := TokenProxy(chars(bps[i].prefix)), bytes(bps[i].prefix);
      var f := Fingerprint(bps[i].ttl, tokens, Max(0, tokens - previousTokens), size, Max(0, size - previousBytes));
      SizedSnoc(fs, f, bps, i, chars, bytes);
      TelescopesSnoc(fs, f, Tokens);
      TelescopesSnoc(fs, f, Bytes);
      previousTokens, previousBytes := Max(previousTokens, tokens), Max(previousBytes, size);
      fs := fs + [f];
    }
    assert bps[..|bps|] == bps;
  }

  // ---- The clamps never bind on a parsed request ----

  lemma {:induction false} ListLengthGrows(width: Unit -> nat, shorter: seq<Unit>, longer: seq<Unit>)
    requires [] < shorter < longer
    ensures ListLength(width, shorter) < ListLength(width, longer)
  {
    var n := |longer| - 1;
    assert shorter == longer[..|shorter|];
    if |shorter| < n {
      assert longer[..n][..|shorter|] == shorter;
      ListLengthGrows(width, shorter, longer[..n]);
    } else {
      assert shorter == longer[..n];
    }
  }

  lemma TokenProxyGrows(a: nat, b: nat)
    requires a <= b
    ensures TokenProxy(a) <= TokenProxy(b)
  {
    assert (a + 3) / 4 <= (b + 3) / 4;
  }

  lemma {:induction false} LargestOfRising(fs: seq<Fingerprint>, axis: Axis)
    requires fs != [] && forall j, k :: 0 <= j < k < |fs| ==> Size(fs[j], axis) <= Size(fs[k], axis)
    ensures Largest(fs, axis) == Size(fs[|fs| - 1], axis)
  {
    var n := |fs| - 1;
    if n > 0 {
      LargestOfRising(fs[..n], axis);
    }
  }

  function Lengths(width: Unit -> nat): seq<Unit> -> nat {
    units => ListLength(width, units)
  }

  lemma {:induction false} SizesRise(marks: seq<Mark>, fs: seq<Fingerprint>, charWidth: Unit -> nat, byteWidth: Unit -> nat)
    requires Sized(fs, Breakpoints(marks), Lengths(charWidth), Lengths(byteWidth))
    ensures forall j, k :: 0 <= j < k < |fs| ==> fs[j].tokens <= fs[k].tokens && fs[j].bytes < fs[k].bytes
  {
    var bps := Breakpoints(marks);
    forall j: nat, k: nat | 0 <= j < k < |fs|
      ensures fs[j].tokens <= fs[k].tokens && fs[j].bytes < fs[k].bytes
    {
      PrefixesNest(marks, j, k);
      BreakpointsFollowUnits(marks, j);
      ListLengthGrows(charWidth, bps[j].prefix, bps[k].prefix);
      ListLengthGrows(byteWidth, bps[j].prefix, bps[k].prefix);
      TokenProxyGrows(ListLength(charWidth, bps[j].prefix), ListLength(charWidth, bps[k].prefix));
    }
  }

  lemma RisingDelta(fs: seq<Fingerprint>, axis: Axis, k: nat)
    requires Telescopes(fs, axis) && 0 < k < |fs|
    requires forall i, j :: 0 <= i < j < |fs| ==> Size(fs[i], axis) <= Size(fs[j], axis)
    ensures Delta(fs[k], axis) == Size(fs[k], axis) - Size(fs[k - 1], axis)
  {
    LargestOfRising(fs[..k], axis);
    LargestOfRising(fs[..k + 1], axis);
    assert fs[..k + 1][..k] == fs[..k];
  }

  /** On the breakpoints of a request the sizes rise, so what can be cached is
      the last prefix and each delta is exactly what its prefix adds: no clamp
      ever binds. */
  lemma {:induction false} ClampsNeverBind(marks: seq<Mark>, fs: seq<Fingerprint>,
                                           charWidth: Unit -> nat, byteWidth: Unit -> nat, axis: Axis)
    requires Sized(fs, Breakpoints(marks), Lengths(charWidth), Lengths(byteWidth)) && Telescopes(fs, axis)
    ensures fs != [] ==> Largest(fs, axis) == Size(fs[|fs| - 1], axis)
    ensures forall k :: 0 < k < |fs| ==> Delta(fs[k], axis) == Size(fs[k], axis) - Size(fs[k - 1], axis)
  {
    SizesRise(marks, fs, charWidth, byteWidth);
    forall k: nat | 0 < k < |fs| ensures Delta(fs[k], axis) == Size(fs[k], axis) - Size(fs[k - 1], axis) {
      RisingDelta(fs, axis, k);
    }
    if fs != [] {
      LargestOfRising(fs, axis);
    }
  }

  // ---- Costs ----

  datatype Rates = Rates(input: real, write5m: real, write1h: real, read: real)

  function WriteMultiplier(r: Rates, ttl: Ttl): real {
    match ttl
    case FiveMinutes => r.write5m
    case OneHour => r.write1h
  }

  function Times(a: real, b: real): real {
    a * b
  }

  function Millions(tokens: int): (m: real)
    ensures m >= 0.0 && (tokens > 0 ==> m > 0.0)
  {
    Max(0, tokens) as real / 1000000.0
  }

  function Money(tokens: int, usdPerMtok: real, multiplier: real): real {
    Times(Times(Millions(tokens), usdPerMtok), multiplier)
  }

  function PriceOf(f: Fingerprint, hit: bool, r: Rates): real {
    Money(f.deltaTokens, r.input, if hit then r.read else WriteMultiplier(r, f.ttl))
  }

  /** The cost of the cacheable part when `hits` says which prefixes are cached. */
  function Cost(fs: seq<Fingerprint>, hits: seq<bool>, r: Rates): real
    requires |hits| == |fs|
  {
    if fs == [] then 0.0
    else
      var n := |fs| - 1;
      Cost(fs[..n], hits[..n], r) + PriceOf(fs[n], hits[n], r)
  }

  function Every(b: bool, n: nat): (s: seq<bool>)
    ensures |s| == n && forall k :: 0 <= k < n ==> s[k] == b
  {
    seq(n, _ => b)
  }

  /** The three running sums, and the tokens they price. */
  method PricePreflight(fs: seq<Fingerprint>, hits: seq<bool>, fullTokens: nat, r: Rates, outputUsd: real)
    returns (predicted: real, allMiss: real, allHit: real, pricedTokens: nat)
    requires |hits| == |fs| && Telescopes(fs, Tokens)
    ensures var fixed := Money(fullTokens - Largest(fs, Tokens), r.input, 1.0) + outputUsd;
      && predicted == fixed + Cost(fs, hits, r)
      && allMiss == fixed + Cost(fs, Every(false, |fs|), r)
      && allHit == fixed + Cost(fs, Every(true, |fs|), r)
    ensures pricedTokens == Max(fullTokens, Largest(fs, Tokens))
  {
    var cacheable := 0;
    for i := 0 to |fs|
      invariant cacheable == Largest(fs[..i], Tokens)
    {
      assert fs[..i + 1][..i] == fs[..i];
      cacheable := Max(cacheable, fs[i].tokens);
    }
    assert fs[..|fs|] == fs;
    var noncacheable := Max(0, fullTokens - cacheable);
    var fixed := Money(noncacheable, r.input, 1.0) + outputUsd;
    predicted, allMiss, allHit, pricedTokens := fixed, fixed, fixed, noncacheable;
    for i := 0 to |fs|
      invariant predicted == fixed + Cost(fs[..i], hits[..i], r)
      invariant allMiss == fixed + Cost(fs[..i], Every(false, i), r)
      invariant allHit == fixed + Cost(fs[..i], Every(true, i), r)
      invariant pricedTokens == noncacheable + SumDeltas(fs[..i], Tokens)
    {
      CostSnoc(fs, hits, i, r);
      predicted := predicted + PriceOf(fs[i], hits[i], r);
      allMiss := allMiss + PriceOf(fs[i], false, r);
      allHit := allHit + PriceOf(fs[i], true, r);
      pricedTokens := pricedTokens + fs[i].deltaTokens;
    }
    assert hits[..|fs|] == hits;
    assert SumDeltas(fs[..|fs|], Tokens) == Largest(fs[..|fs|], Tokens);
  }

  lemma CostSnoc(fs: seq<Fingerprint>, hits: seq<bool>, i: nat, r: Rates)
    requires |hits| == |fs| && i < |fs|
    ensures Cost(fs[..i + 1], hits[..i + 1], r) == Cost(fs[..i], hits[..i], r) + PriceOf(fs[i], hits[i], r)
    ensures forall b :: Cost(fs[..i + 1], Every(b, i + 1), r)
                        == Cost(fs[..i], Every(b, i), r) + PriceOf(fs[i], b, r)
    ensures SumDeltas(fs[..i + 1], Tokens) == SumDeltas(fs[..i], Tokens) + fs[i].deltaTokens
  {
    assert fs[..i + 1][..i] == fs[..i] && hits[..i + 1][..i] == hits[..i];
    forall b ensures Cost(fs[..i + 1], Every(b, i + 1), r)
                     == Cost(fs[..i], Every(b, i), r) + PriceOf(fs[i], b, r)
    {
      assert Every(b, i + 1)[..i] == Every(b, i);
    }
  }

  /** What the tokens of a prefix are priced as. */
  datatype PricedAs = Read | Written(ttl: Ttl)

  function Priced(f: Fingerprint, hit: bool): PricedAs {
    if hit then Read else Written(f.ttl)
  }

  function TokensPriced(fs: seq<Fingerprint>, hits: seq<bool>, kind: PricedAs): nat
    requires |hits| == |fs|
  {
    if fs == [] then 0
    else
      var n := |fs| - 1;
      TokensPriced(fs[..n], hits[..n], kind) + if Priced(fs[n], hits[n]) == kind then fs[n].deltaTokens else 0
  }

  type Price = nat -> real

  /** Prices add up. */
  ghost predicate Additive(price: Price) {
    price(0) == 0.0 && forall a: nat, b: nat :: price(a + b) == price(a) + price(b)
  }

  function PriceFor(r: Rates, kind: PricedAs): Price {
    (tokens: nat) => Money(tokens, r.input, if kind.Read? then r.read else WriteMultiplier(r, kind.ttl))
  }

  lemma MoneyAdds(a: nat, b: nat, rate: real, multiplier: real)
    ensures Money(a + b, rate, multiplier) == Money(a, rate, multiplier) + Money(b, rate, multiplier)
  {
    var x, y := Millions(a), Millions(b);
    assert Millions(a + b) == x + y;
    assert (x + y) * rate == x * rate + y * rate;
    assert (x * rate + y * rate) * multiplier == x * rate * multiplier + y * rate * multiplier;
  }

  /** A million tokens cost the rate. */
  lemma MillionCostsTheRate(rate: real, multiplier: real)
    ensures Money(1_000_000, rate, multiplier) == rate * multiplier
  {
    assert Millions(1_000_000) == 1.0;
  }

  lemma PricesAdd(r: Rates, kind: PricedAs)
    ensures Additive(PriceFor(r, kind))
  {
    var multiplier := if kind.Read? then r.read else WriteMultiplier(r, kind.ttl);
    forall a: nat, b: nat ensures PriceFor(r, kind)(a + b) == PriceFor(r, kind)(a) + PriceFor(r, kind)(b) {
      MoneyAdds(a, b, r.input, multiplier);
    }
    MoneyAdds(0, 0, r.input, multiplier);
  }

  /** What the prefixes priced as one kind cost. */
  function CostAt(fs: seq<Fingerprint>, hits: seq<bool>, kind: PricedAs, price: Price): real
    requires |hits| == |fs|
  {
    if fs == [] then 0.0
    else
      var n := |fs| - 1;
      CostAt(fs[..n], hits[..n], kind, price)
      + if Priced(fs[n], hits[n]) == kind then price(fs[n].deltaTokens) else 0.0
  }

  lemma {:induction false} CostAtTokens(fs: seq<Fingerprint>, hits: seq<bool>, kind: PricedAs, price: Price)
    requires |hits| == |fs| && Additive(price)
    ensures CostAt(fs, hits, kind, price) == price(TokensPriced(fs, hits, kind))
  {
    if fs != [] {
      CostAtTokens(fs[..|fs| - 1], hits[..|fs| - 1], kind, price);
    }
  }

  lemma {:induction false} PriceOfKind(f: Fingerprint, hit: bool, r: Rates)
    ensures PriceOf(f, hit, r) == PriceFor(r, Priced(f, hit))(f.deltaTokens)
  {
  }

  /** The cost of a list, with a price for each kind. */
  function CostWith(fs: seq<Fingerprint>, hits: seq<bool>, price: PricedAs -> Price): real
    requires |hits| == |fs|
  {
    if fs == [] then 0.0
    else
      var n := |fs| - 1;
      CostWith(fs[..n], hits[..n], price) + price(Priced(fs[n], hits[n]))(fs[n].deltaTokens)
  }

  lemma {:induction false} CostByKind(fs: seq<Fingerprint>, hits: seq<bool>, price: PricedAs -> Price)
    requires |hits| == |fs|
    ensures CostWith(fs, hits, price)
            == CostAt(fs, hits, Read, price(Read))
               + CostAt(fs, hits, Written(FiveMinutes), price(Written(FiveMinutes)))
               + CostAt(fs, hits, Written(OneHour), price(Written(OneHour)))
  {
    if fs != [] {
      var n := |fs| - 1;
      CostByKind(fs[..n], hits[..n], price);
      assert fs[n].ttl.FiveMinutes? || fs[n].ttl.OneHour?;
    }
  }

  function PricesOf(r: Rates): PricedAs -> Price {
    kind => PriceFor(r, kind)
  }

  lemma {:induction false} CostIsWith(fs: seq<Fingerprint>, hits: seq<bool>, r: Rates)
    requires |hits| == |fs|
    ensures Cost(fs, hits, r) == CostWith(fs, hits, PricesOf(r))
  {
    if fs != [] {
      var n := |fs| - 1;
      CostIsWith(fs[..n], hits[..n], r);
      PriceOfKind(fs[n], hits[n], r);
    }
  }

  /** The cost is that of all tokens read and all tokens written for each time
      to live, each at its own rate. */
  lemma {:induction false} CostByRates(fs: seq<Fingerprint>, hits: seq<bool>, r: Rates)
    requires |hits| == |fs|
    ensures Cost(fs, hits, r)
            == PriceFor(r, Read)(TokensPriced(fs, hits, Read))
               + PriceFor(r, Written(FiveMinutes))(TokensPriced(fs, hits, Written(FiveMinutes)))
               + PriceFor(r, Written(OneHour))(TokensPriced(fs, hits, Written(OneHour)))
  {
    CostIsWith(fs, hits, r);
    CostByKind(fs, hits, PricesOf(r));
    forall kind: PricedAs ensures CostAt(fs, hits, kind, PriceFor(r, kind)) == PriceFor(r, kind)(TokensPriced(fs, hits, kind)) {
      PricesAdd(r, kind);
      CostAtTokens(fs, hits, kind, PriceFor(r, kind));
    }
  }

  // ---- Between all hit and all miss ----

  /** Reading a priced prefix from the cache costs no more than writing it. */
  predicate ReadsAreCheaper(fs: seq<Fingerprint>, r: Rates) {
    forall k :: 0 <= k < |fs| && fs[k].deltaTokens > 0 && r.input > 0.0 ==>
      r.read <= WriteMultiplier(r, fs[k].ttl)
  }

  lemma TimesPositive(a: real, b: real)
    requires a >= 0.0 && b >= 0.0
    ensures Times(a, b) >= 0.0 && (a > 0.0 && b > 0.0 ==> Times(a, b) > 0.0)
  {
  }

  lemma TimesGrows(unit: real, a: real, b: real)
    requires unit >= 0.0 && a <= b
    ensures Times(unit, a) <= Times(unit, b)
    ensures unit > 0.0 && a < b ==> Times(unit, a) < Times(unit, b)
  {
    var d := b - a;
    TimesPositive(unit, d);
    assert unit * (a + d) == unit * a + unit * d;
    assert Times(unit, b) == Times(unit, a) + Times(unit, d);
  }

  lemma MoneyGrows(tokens: nat, rate: real, a: real, b: real)
    requires rate >= 0.0 && a <= b
    ensures Money(tokens, rate, a) <= Money(tokens, rate, b)
    ensures tokens > 0 && rate > 0.0 && a < b ==> Money(tokens, rate, a) < Money(tokens, rate, b)
  {
    TimesPositive(Millions(tokens), rate);
    TimesGrows(Times(Millions(tokens), rate), a, b);
  }

  lemma PriceOrdered(f: Fingerprint, r: Rates)
    requires r.input >= 0.0 && (f.deltaTokens > 0 && r.input > 0.0 ==> r.read <= WriteMultiplier(r, f.ttl))
    ensures PriceOf(f, true, r) <= PriceOf(f, false, r)
  {
    if f.deltaTokens > 0 && r.input > 0.0 {
      MoneyGrows(f.deltaTokens, r.input, r.read, WriteMultiplier(r, f.ttl));
    }
  }

  lemma {:induction false} CostOrdered(fs: seq<Fingerprint>, hits: seq<bool>, r: Rates)
    requires |hits| == |fs| && r.input >= 0.0 && ReadsAreCheaper(fs, r)
    ensures Cost(fs, Every(true, |fs|), r) <= Cost(fs, hits, r) <= Cost(fs, Every(false, |fs|), r)
  {
    if fs != [] {
      var n := |fs| - 1;
      CostOrdered(fs[..n], hits[..n], r);
      PriceOrdered(fs[n], r);
      assert Every(true, n + 1)[..n] == Every(true, n) && Every(false, n + 1)[..n] == Every(false, n);
    }
  }

  /** All hit but breakpoint `k`. */
  lemma {:induction false} MissingOne(fs: seq<Fingerprint>, k: nat, r: Rates)
    requires k < |fs|
    ensures Cost(fs, Every(true, |fs|)[k := false], r)
            == Cost(fs, Every(true, |fs|), r) - PriceOf(fs[k], true, r) + PriceOf(fs[k], false, r)
  {
    var n := |fs| - 1;
    assert Every(true, n + 1)[..n] == Every(true, n);
    if k < n {
      MissingOne(fs[..n], k, r);
      assert Every(true, n + 1)[k := false][..n] == Every(true, n)[k := false];
    } else {
      assert Every(true, n + 1)[k := false][..n] == Every(true, n);
    }
  }

  /** The prediction lies between the two extremes for every pattern of hits
      if and only if no priced prefix is dearer to read than to write. */
  lemma PredictedBetweenExtremes(fs: seq<Fingerprint>, r: Rates)
    requires r.input >= 0.0
    ensures (forall hits: seq<bool> | |hits| == |fs| ::
              Cost(fs, Every(true, |fs|), r) <= Cost(fs, hits, r) <= Cost(fs, Every(false, |fs|), r))
            <==> ReadsAreCheaper(fs, r)
  {
    if ReadsAreCheaper(fs, r) {
      forall hits: seq<bool> | |hits| == |fs|
        ensures Cost(fs, Every(true, |fs|), r) <= Cost(fs, hits, r) <= Cost(fs, Every(false, |fs|), r)
      {
        CostOrdered(fs, hits, r);
      }
    } else {
      var k :| 0 <= k < |fs| && fs[k].deltaTokens > 0 && r.input > 0.0 && r.read > WriteMultiplier(r, fs[k].ttl);
      MissingOne(fs, k, r);
      MoneyGrows(fs[k].deltaTokens, r.input, WriteMultiplier(r, fs[k].ttl), r.read);
      assert Cost(fs, Every(true, |fs|)[k := false], r) < Cost(fs, Every(true, |fs|), r);
    }
  }
}
