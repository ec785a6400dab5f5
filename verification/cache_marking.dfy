/** Which parts of a request become prompt units and which of those end a cache
    breakpoint, read off the request's own fields. */
module CacheMarking {
  import opened Basics
  import opened PreflightCost

  // ---- Places in a request ----

  datatype Place =
    | AtExplicit(i: nat)
    | AtTool(i: nat)
    | AllTools
    | AtSystem(i: nat)
    | AllSystem
    | AtContent(i: nat, j: nat)
    | AtMessage(i: nat)
    | AllMessages

  /** Explicit items, tools, system, messages; a whole message follows its parts. */
  function Section(p: Place): nat {
    match p
    case AtExplicit(_) => 0
    case AtTool(_) => 1
    case AllTools => 1
    case AtSystem(_) => 2
    case AllSystem => 2
    case AtContent(_, _) => 3
    case AtMessage(_) => 3
    case AllMessages => 3
  }

  function Index(p: Place): nat {
    if p.AllTools? || p.AllSystem? || p.AllMessages? then 0 else p.i
  }

  predicate Earlier(p: Place, q: Place) {
    || Section(p) < Section(q)
    || (Section(p) == Section(q) && Index(p) < Index(q))
    || (p.AtContent? && q.AtContent? && p.i == q.i && p.j < q.j)
    || (p.AtContent? && q.AtMessage? && p.i == q.i)
  }

  /** There is something at the place: an object among the explicit items, a
      listed part, an unlisted section, a message. A message with a list of
      parts counts itself only if it is marked and none of its parts is. */
  predicate Stands(r: Request, p: Place) {
    match p
    case AtExplicit(i) => i < |r.explicit| && r.explicit[i].Item?
    case AtTool(i) => r.tools.ToolList? && i < |r.tools.tools|
    case AllTools => r.tools.OtherTools?
    case AtSystem(i) => r.system.SystemList? && i < |r.system.blocks|
    case AllSystem => r.system.OtherSystem?
    case AtContent(i, j) =>
      r.messages.MessageList? && i < |r.messages.messages| && HasPart(r.messages.messages[i], j)
    case AtMessage(i) =>
      r.messages.MessageList? && i < |r.messages.messages| && CountsItself(r.messages.messages[i])
    case AllMessages => r.messages.OtherMessages?
  }

  predicate HasPart(m: Message, j: nat) {
    m.Blocks? && j < |m.content|
  }

  predicate CountsItself(m: Message) {
    m.Blocks? ==> m.control.Provider? && forall j :: 0 <= j < |m.content| ==> !m.content[j].control.Provider?
  }

  function UnitAt(r: Request, p: Place): Unit
    requires Stands(r, p)
  {
    match p
    case AtExplicit(i) => Unit(r.explicit[i].kind, None, r.explicit[i].value, [])
    case AtTool(i) => Unit("tool", None, r.tools.tools[i].value, [i])
    case AllTools => Unit("tools", None, r.tools.value, [])
    case AtSystem(i) => Unit("system", None, r.system.blocks[i].value, [i])
    case AllSystem => Unit("system", None, r.system.value, [])
    case AtContent(i, j) => ContentUnit(r.messages.messages[i], i, j)
    case AtMessage(i) => Unit("message", None, r.messages.messages[i].value, [i])
    case AllMessages => Unit("messages", None, r.messages.value, [])
  }

  function ContentUnit(m: Message, i: nat, j: nat): Unit
    requires HasPart(m, j)
  {
    Unit("message_content", Some(m.role), m.content[j].value, [i, j])
  }

  /** The thing's own cache control; an explicit item without one stands for
      its own time to live, and what cannot carry one has none. */
  function ControlAt(r: Request, p: Place): CacheControl
    requires Stands(r, p)
  {
    match p
    case AtExplicit(i) =>
      if r.explicit[i].control == Absent then Provider(r.explicit[i].ttl) else r.explicit[i].control
    case AtTool(i) => r.tools.tools[i].control
    case AtSystem(i) => r.system.blocks[i].control
    case AllSystem => r.system.cache
    case AtContent(i, j) => r.messages.messages[i].content[j].control
    case AtMessage(i) => if r.messages.messages[i].Bare? then Absent else r.messages.messages[i].control
    case AllTools => Absent
    case AllMessages => Absent
  }

  // ---- Lists of places beside lists of marks ----

  predicate InOrder(ps: seq<Place>) {
    forall a, b :: 0 <= a < b < |ps| ==> Earlier(ps[a], ps[b])
  }

  predicate MarksPlace(r: Request, p: Place, m: Mark) {
    && Stands(r, p) && m.unit == UnitAt(r, p)
    && forall ttl :: m.ttl == Some(ttl) <==> ControlAt(r, p) == Provider(ttl)
  }

  predicate Describes(r: Request, ps: seq<Place>, marks: seq<Mark>) {
    |ps| == |marks| && forall k :: 0 <= k < |ps| ==> MarksPlace(r, ps[k], marks[k])
  }

  lemma {:induction false} DescribesConcat(r: Request, ps: seq<Place>, ms: seq<Mark>, qs: seq<Place>, ns: seq<Mark>)
    requires Describes(r, ps, ms) && Describes(r, qs, ns) && InOrder(ps) && InOrder(qs)
    requires forall p, q :: p in ps && q in qs ==> Earlier(p, q)
    ensures Describes(r, ps + qs, ms + ns) && InOrder(ps + qs)
  {
    var all := ps + qs;
    forall a, b | 0 <= a < b < |all| ensures Earlier(all[a], all[b]) {
      if a < |ps| && b >= |ps| {
        assert all[a] in ps && all[b] in qs;
      }
    }
  }

  /** The places of one section, in order, with their marks. */
  predicate Covers(r: Request, ps: seq<Place>, marks: seq<Mark>, section: nat) {
    && Describes(r, ps, marks) && InOrder(ps)
    && (forall p :: p in ps ==> Section(p) == section)
  }

  lemma {:induction false} CoverExplicit(r: Request, n: nat) returns (ps: seq<Place>)
    requires n <= |r.explicit|
    ensures Covers(r, ps, ExplicitMarks(r.explicit[..n]), 0)
    ensures forall p :: p in ps ==> Stands(r, p) && p.AtExplicit? && p.i < n
    ensures forall i :: 0 <= i < n && Stands(r, AtExplicit(i)) ==> AtExplicit(i) in ps
  {
    ps := [];
    if n > 0 {
      var m := n - 1;
      var before := CoverExplicit(r, m);
      assert r.explicit[..n][..m] == r.explicit[..m];
      ps := before;
      if r.explicit[m].Item? {
        var more := ExplicitMark(r.explicit[m]);
        assert MarksPlace(r, AtExplicit(m), more[0]);
        DescribesConcat(r, before, ExplicitMarks(r.explicit[..m]), [AtExplicit(m)], more);
        ps := before + [AtExplicit(m)];
      }
    }
  }

  lemma {:induction false} CoverTools(r: Request) returns (ps: seq<Place>)
    ensures Covers(r, ps, ToolsMarks(r.tools), 1)
    ensures forall p :: Section(p) == 1 ==> (p in ps <==> Stands(r, p))
  {
    match r.tools {
      case NoTools => ps := [];
      case OtherTools(_) => ps := [AllTools];
      case ToolList(tools) =>
        ps := seq(|tools|, k requires 0 <= k < |tools| => AtTool(k));
        forall i: nat | i < |tools| ensures AtTool(i) in ps {
          assert ps[i] == AtTool(i);
        }
    }
  }

  lemma {:induction false} CoverSystem(r: Request) returns (ps: seq<Place>)
    ensures Covers(r, ps, SystemMarks(r.system), 2)
    ensures forall p :: Section(p) == 2 ==> (p in ps <==> Stands(r, p))
  {
    match r.system {
      case NoSystem => ps := [];
      case OtherSystem(_, _) => ps := [AllSystem];
      case SystemList(blocks) =>
        ps := seq(|blocks|, k requires 0 <= k < |blocks| => AtSystem(k));
        forall i: nat | i < |blocks| ensures AtSystem(i) in ps {
          assert ps[i] == AtSystem(i);
        }
    }
  }

  lemma {:induction false} CoverParts(r: Request, i: nat, m: Message) returns (ps: seq<Place>)
    requires r.messages.MessageList? && i < |r.messages.messages| && m == r.messages.messages[i] && m.Blocks?
    ensures Covers(r, ps, PartMarks("message_content", Some(m.role), [i], m.content), 3)
    ensures forall p :: p in ps <==> p.AtContent? && p.i == i && p.j < |m.content|
  {
    ps := seq(|m.content|, j requires 0 <= j < |m.content| => AtContent(i, j));
    var marks := PartMarks("message_content", Some(m.role), [i], m.content);
    forall j: nat | j < |m.content| ensures AtContent(i, j) in ps && MarksPlace(r, ps[j], marks[j]) {
      assert ps[j] == AtContent(i, j);
    }
  }

  lemma {:induction false} CoverMessage(r: Request, i: nat, m: Message) returns (ps: seq<Place>)
    requires r.messages.MessageList? && i < |r.messages.messages| && m == r.messages.messages[i]
    ensures Covers(r, ps, MessageMarks(m, i), 3)
    ensures forall p :: p in ps <==> Stands(r, p) && Section(p) == 3 && Index(p) == i
  {
    if m.Blocks? {
      var parts := CoverParts(r, i, m);
      var marks := PartMarks("message_content", Some(m.role), [i], m.content);
      if CountsItself(m) {
        var own := [Mark(Unit("message", None, m.value, [i]), TtlOf(m.control))];
        DescribesConcat(r, parts, marks, [AtMessage(i)], own);
        ps := parts + [AtMessage(i)];
        assert MessageMarks(m, i) == marks + own;
      } else {
        ps := parts;
        assert MessageMarks(m, i) == marks;
      }
    } else {
      ps := [AtMessage(i)];
    }
  }

  lemma {:induction false} CoverMessages(r: Request, n: nat) returns (ps: seq<Place>)
    requires r.messages.MessageList? && n <= |r.messages.messages|
    ensures Covers(r, ps, MessagesMarks(r.messages.messages[..n]), 3)
    ensures forall p :: p in ps <==> Stands(r, p) && Section(p) == 3 && Index(p) < n
  {
    ps := [];
    if n > 0 {
      var m := n - 1;
      var ms := r.messages.messages;
      var before := CoverMessages(r, m);
      var last := CoverMessage(r, m, ms[m]);
      assert ms[..n][..m] == ms[..m];
      DescribesConcat(r, before, MessagesMarks(ms[..m]), last, MessageMarks(ms[m], m));
      ps := before + last;
    }
  }

  lemma {:induction false} CoverAllMessages(r: Request) returns (ps: seq<Place>)
    ensures Covers(r, ps, AllMessagesMarks(r.messages), 3)
    ensures forall p :: Section(p) == 3 ==> (p in ps <==> Stands(r, p))
  {
    match r.messages {
      case NoMessages => ps := [];
      case OtherMessages(_) => ps := [AllMessages];
      case MessageList(ms) =>
        ps := CoverMessages(r, |ms|);
        assert ms[..|ms|] == ms;
    }
  }

  /** Every place of a request has exactly one mark, in the order of the places. */
  lemma {:induction false} EveryPlaceIsMarked(r: Request) returns (ps: seq<Place>)
    ensures InOrder(ps) && Describes(r, ps, MarksOf(r))
    ensures forall p :: p in ps <==> Stands(r, p)
  {
    var es := CoverExplicit(r, |r.explicit|);
    var ts := CoverTools(r);
    var ss := CoverSystem(r);
    var ms := CoverAllMessages(r);
    assert r.explicit[..|r.explicit|] == r.explicit;
    DescribesConcat(r, es, ExplicitMarks(r.explicit), ts, ToolsMarks(r.tools));
    DescribesConcat(r, es + ts, ExplicitMarks(r.explicit) + ToolsMarks(r.tools), ss, SystemMarks(r.system));
    DescribesConcat(r, es + ts + ss, ExplicitMarks(r.explicit) + ToolsMarks(r.tools) + SystemMarks(r.system),
                    ms, AllMessagesMarks(r.messages));
    ps := es + ts + ss + ms;
    forall p ensures p in ps <==> Stands(r, p) {
      assert p in ps <==> p in es || p in ts || p in ss || p in ms;
    }
  }

  // ---- Units and breakpoints of a request ----

  /** Unit `k` ends a breakpoint with this time to live. */
  predicate EndsBreakpoint(breakpoints: seq<Breakpoint>, k: nat, ttl: Ttl) {
    exists i :: 0 <= i < |breakpoints| && |breakpoints[i].prefix| == k + 1 && breakpoints[i].ttl == ttl
  }

  lemma {:induction false} MarksEnd(marks: seq<Mark>, k: nat, ttl: Ttl)
    requires k < |marks|
    ensures EndsBreakpoint(Breakpoints(marks), k, ttl) <==> marks[k].ttl == Some(ttl)
  {
    var bs := Breakpoints(marks);
    if EndsBreakpoint(bs, k, ttl) {
      var i :| 0 <= i < |bs| && |bs[i].prefix| == k + 1 && bs[i].ttl == ttl;
      BreakpointsFollowUnits(marks, i);
    }
    if marks[k].ttl == Some(ttl) {
      MarkEnds(marks, k, ttl);
    }
  }

  lemma {:induction false} MarkEnds(marks: seq<Mark>, k: nat, ttl: Ttl)
    requires k < |marks| && marks[k].ttl == Some(ttl)
    ensures EndsBreakpoint(Breakpoints(marks), k, ttl)
  {
    var n := |marks| - 1;
    var before, all := Breakpoints(marks[..n]), Breakpoints(marks);
    if k < n {
      MarkEnds(marks[..n], k, ttl);
      var i :| 0 <= i < |before| && |before[i].prefix| == k + 1 && before[i].ttl == ttl;
      assert all[i] == before[i];
    } else {
      assert all[|before|].ttl == ttl && |all[|before|].prefix| == k + 1;
    }
  }

  /** What the parser makes of a request: one unit for each place, in order, and
      a breakpoint after exactly those whose own control is a provider's. */
  lemma {:induction false} RequestIsParsed(r: Request, units: seq<Unit>, breakpoints: seq<Breakpoint>)
    returns (ps: seq<Place>)
    requires units == UnitsOf(MarksOf(r)) && breakpoints == Breakpoints(MarksOf(r))
    ensures InOrder(ps) && (forall p :: p in ps <==> Stands(r, p)) && |units| == |ps|
    ensures forall k :: 0 <= k < |ps| ==> Stands(r, ps[k]) && units[k] == UnitAt(r, ps[k])
    ensures forall k, ttl :: 0 <= k < |ps| ==>
              (EndsBreakpoint(breakpoints, k, ttl) <==> ControlAt(r, ps[k]) == Provider(ttl))
    ensures forall i :: 0 <= i < |breakpoints| ==>
              0 < |breakpoints[i].prefix| <= |units| && breakpoints[i].prefix == units[..|breakpoints[i].prefix|]
  {
    var marks := MarksOf(r);
    ps := EveryPlaceIsMarked(r);
    forall k, ttl | 0 <= k < |ps|
      ensures EndsBreakpoint(breakpoints, k, ttl) <==> ControlAt(r, ps[k]) == Provider(ttl)
    {
      assert MarksPlace(r, ps[k], marks[k]);
      MarksEnd(marks, k, ttl);
    }
    forall k | 0 <= k < |ps| ensures Stands(r, ps[k]) && units[k] == UnitAt(r, ps[k]) {
      assert MarksPlace(r, ps[k], marks[k]);
    }
    forall i | 0 <= i < |breakpoints|
      ensures 0 < |breakpoints[i].prefix| <= |units|
      ensures breakpoints[i].prefix == units[..|breakpoints[i].prefix|]
    {
      BreakpointsFollowUnits(marks, i);
    }
  }

  // ---- Markers that are no provider's ----

  /** An explicit entry that is no object, or a control that is no provider's. */
  predicate IsUnsupported(r: Request, p: Place) {
    match p
    case AtExplicit(i) =>
      i < |r.explicit| && (r.explicit[i].NotAnObject? || r.explicit[i].control == Unsupported)
    case AtTool(i) => r.tools.ToolList? && i < |r.tools.tools| && r.tools.tools[i].control == Unsupported
    case AtSystem(i) => r.system.SystemList? && i < |r.system.blocks| && r.system.blocks[i].control == Unsupported
    case AllSystem => r.system.OtherSystem? && r.system.cache == Unsupported
    case AtContent(i, j) =>
      r.messages.MessageList? && i < |r.messages.messages| && HasPart(r.messages.messages[i], j)
      && r.messages.messages[i].content[j].control == Unsupported
    case AtMessage(i) =>
      r.messages.MessageList? && i < |r.messages.messages| && MarksItselfWrongly(r.messages.messages[i])
    case AllTools => false
    case AllMessages => false
  }

  predicate MarksItselfWrongly(m: Message) {
    !m.Bare? && m.control == Unsupported
  }

  lemma {:induction false} OrderConcat(ps: seq<Place>, qs: seq<Place>)
    requires InOrder(ps) && InOrder(qs) && forall p, q :: p in ps && q in qs ==> Earlier(p, q)
    ensures InOrder(ps + qs)
  {
    var all := ps + qs;
    forall a, b | 0 <= a < b < |all| ensures Earlier(all[a], all[b]) {
      if a < |ps| && b >= |ps| {
        assert all[a] in ps && all[b] in qs;
      }
    }
  }

  /** The places of the parts that are marked with something unsupported. */
  lemma {:induction false} WrongParts(parts: seq<Part>, at: nat -> Place, n: nat) returns (ps: seq<Place>)
    requires n <= |parts|
    requires forall i: nat, j: nat :: i < j ==> Earlier(at(i), at(j))
    ensures |ps| == UnsupportedParts(parts[..n]) && InOrder(ps)
    ensures forall p :: p in ps <==> exists i: nat :: i < n && p == at(i) && parts[i].control == Unsupported
  {
    ps := [];
    if n > 0 {
      var m := n - 1;
      var before := WrongParts(parts, at, m);
      assert parts[..n][..m] == parts[..m];
      ps := before;
      if parts[m].control == Unsupported {
        OrderConcat(before, [at(m)]);
        ps := before + [at(m)];
      }
    }
  }

  lemma {:induction false} WrongExplicit(r: Request, n: nat) returns (ps: seq<Place>)
    requires n <= |r.explicit|
    ensures |ps| == UnsupportedExplicit(r.explicit[..n]) && InOrder(ps)
    ensures forall p :: p in ps <==> p.AtExplicit? && p.i < n && IsUnsupported(r, p)
  {
    ps := [];
    if n > 0 {
      var m := n - 1;
      var before := WrongExplicit(r, m);
      assert r.explicit[..n][..m] == r.explicit[..m];
      ps := before;
      if IsUnsupported(r, AtExplicit(m)) {
        OrderConcat(before, [AtExplicit(m)]);
        ps := before + [AtExplicit(m)];
      }
    }
  }

  lemma {:induction false} WrongTools(r: Request) returns (ps: seq<Place>)
    ensures |ps| == (if r.tools.ToolList? then UnsupportedParts(r.tools.tools) else 0) && InOrder(ps)
    ensures forall p :: p in ps <==> Section(p) == 1 && IsUnsupported(r, p)
  {
    ps := [];
    if r.tools.ToolList? {
      var tools := r.tools.tools;
      ps := WrongParts(tools, (i: nat) => AtTool(i), |tools|);
      assert tools[..|tools|] == tools;
    }
  }

  lemma {:induction false} WrongSystem(r: Request) returns (ps: seq<Place>)
    ensures |ps| == (match r.system
                     case NoSystem => 0
                     case SystemList(blocks) => UnsupportedParts(blocks)
                     case OtherSystem(_, cache) => if cache.Unsupported? then 1 else 0)
    ensures InOrder(ps) && forall p :: p in ps <==> Section(p) == 2 && IsUnsupported(r, p)
  {
    ps := [];
    match r.system {
      case NoSystem =>
      case OtherSystem(_, cache) =>
        if cache.Unsupported? {
          ps := [AllSystem];
        }
      case SystemList(blocks) =>
        ps := WrongParts(blocks, (i: nat) => AtSystem(i), |blocks|);
        assert blocks[..|blocks|] == blocks;
    }
  }

  lemma {:induction false} WrongMessage(r: Request, i: nat, m: Message) returns (ps: seq<Place>)
    requires r.messages.MessageList? && i < |r.messages.messages| && m == r.messages.messages[i]
    ensures |ps| == UnsupportedIn(m) && InOrder(ps)
    ensures forall p :: p in ps <==> Section(p) == 3 && Index(p) == i && IsUnsupported(r, p)
  {
    ps := [];
    if m.Blocks? {
      ps := WrongParts(m.content, (j: nat) => AtContent(i, j), |m.content|);
      assert m.content[..|m.content|] == m.content;
    }
    if MarksItselfWrongly(m) {
      OrderConcat(ps, [AtMessage(i)]);
      ps := ps + [AtMessage(i)];
    }
  }

  lemma {:induction false} WrongMessages(r: Request, n: nat) returns (ps: seq<Place>)
    requires r.messages.MessageList? && n <= |r.messages.messages|
    ensures |ps| == UnsupportedMessages(r.messages.messages[..n]) && InOrder(ps)
    ensures forall p :: p in ps <==> Section(p) == 3 && Index(p) < n && IsUnsupported(r, p)
  {
    ps := [];
    if n > 0 {
      var m := n - 1;
      var ms := r.messages.messages;
      var before := WrongMessages(r, m);
      var last := WrongMessage(r, m, ms[m]);
      assert ms[..n][..m] == ms[..m];
      OrderConcat(before, last);
      ps := before + last;
    }
  }

  /** The parser counts each unsupported marker once. */
  lemma {:induction false} EachWrongMarkerCounts(r: Request) returns (ps: seq<Place>)
    ensures |ps| == UnsupportedMarkers(r) && InOrder(ps)
    ensures forall p :: p in ps <==> IsUnsupported(r, p)
  {
    var es := WrongExplicit(r, |r.explicit|);
    var ts := WrongTools(r);
    var ss := WrongSystem(r);
    var ms: seq<Place> := [];
    assert r.explicit[..|r.explicit|] == r.explicit;
    if r.messages.MessageList? {
      ms := WrongMessages(r, |r.messages.messages|);
      assert r.messages.messages[..|r.messages.messages|] == r.messages.messages;
    }
    OrderConcat(es, ts);
    OrderConcat(es + ts, ss);
    OrderConcat(es + ts + ss, ms);
    ps := es + ts + ss + ms;
    forall p ensures p in ps <==> IsUnsupported(r, p) {
      assert p in ps <==> p in es || p in ts || p in ss || p in ms;
    }
  }
}
