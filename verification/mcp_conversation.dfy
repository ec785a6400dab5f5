/** What a client that keeps to the protocol gets: a whole conversation with the
    server, message by message, from what was asked and what the tools did. */
module McpConversation {
  import opened Basics
  import opened McpSession

  // ---- Well-formed messages ----

  predicate Asks(d: Data, name: string, id: Option<Id>) {
    ValidRequest(d) && d.rpcMethod == Some(name) && d.id == id
  }

  /** A request to initialize with this protocol version. */
  predicate Initializes(t: Turn, id: Id, version: string) {
    && t.wire.Parsed? && t.pipe && Asks(t.wire.data, "initialize", Some(id))
    && t.wire.data.params.Some? && t.wire.data.params.value.protocolVersion == Some(version)
  }

  predicate Confirms(t: Turn) {
    && t.wire.Parsed? && Asks(t.wire.data, "notifications/initialized", None)
    && (t.wire.data.params.Some? ==> t.wire.data.params.value.onlyMeta)
  }

  function NameOf(tool: Tool): string {
    match tool
    case Compress => "context_guard_compress"
    case Retrieve => "context_guard_retrieve"
    case Stats => "context_guard_stats"
  }

  datatype Request =
    | Ping(id: Id)
    | List(id: Id)
    | Call(id: Id, tool: Tool, outcome: Outcome)
    | Unknown(id: Id, name: string)

  /** The turn makes this request of a session that is ready. */
  predicate Makes(t: Turn, r: Request) {
    && t.wire.Parsed? && t.pipe
    && var d := t.wire.data;
      match r
      case Ping(id) => Asks(d, "ping", Some(id)) && (d.params.Some? ==> d.params.value.onlyMeta)
      case List(id) => Asks(d, "tools/list", Some(id)) && (d.params.Some? ==> d.params.value.onlyCursor)
      case Call(id, tool, outcome) =>
        && Asks(d, "tools/call", Some(id)) && t.outcome == outcome
        && d.params.Some? && d.params.value.callee == Some(NameOf(tool))
      case Unknown(id, name) =>
        && Asks(d, name, Some(id))
        && name !in ["ping", "initialize", "notifications/initialized", "tools/list", "tools/call"]
  }

  // ---- What is due ----

  /** A tool's report goes out if it passes the allowlist, leaks nothing and is
      small enough; a tool's failure goes out under its own code unless it leaks. */
  function Due(h: Host, outcome: Outcome): CallResult
    requires !outcome.Raises?
  {
    var problem := CallResult(Problem(ResponseTooLarge), true);
    match outcome
    case Reports(contents) =>
      var whole := CallResult(Report(contents), false);
      if h.allowed(contents) && !h.leaks(Report(contents)) && h.resultSize(whole) <= 131072 then whole else problem
    case FailsWith(code) => if h.leaks(Problem(code)) then problem else CallResult(Problem(code), true)
  }

  function ReplyTo(h: Host, r: Request): Response {
    match r
    case Ping(id) => Response(id, Pong)
    case List(id) => Response(id, Listing)
    case Call(id, _, outcome) =>
      Response(id, if outcome.Raises? then Error(-32603) else Called(Due(h, outcome)))
    case Unknown(id, _) => Response(id, Error(-32601))
  }

  function Replies(h: Host, rs: seq<Request>): (out: seq<Response>)
    ensures |out| == |rs|
  {
    seq(|rs|, i requires 0 <= i < |rs| => ReplyTo(h, rs[i]))
  }

  function Calls(rs: seq<Request>): nat {
    if rs == [] then 0 else Calls(rs[..|rs| - 1]) + if rs[|rs| - 1].Call? then 1 else 0
  }

  // ---- One request ----

  lemma {:induction false} DueIsResulted(h: Host, outcome: Outcome)
    requires !outcome.Raises?
    ensures ToolResult(h, outcome) == Due(h, outcome)
  {
  }

  lemma {:induction false} CallIsServed(h: Host, s: Session, d: Data, id: Id, tool: Tool, outcome: Outcome)
    requires Asks(d, "tools/call", Some(id)) && d.params.Some? && d.params.value.callee == Some(NameOf(tool))
    requires s.phase == Ready && s.attempts < 1000
    ensures var (s', r) := Served(h, s, d, outcome);
      && r == Some(ReplyTo(h, Call(id, tool, outcome)))
      && s'.phase == Ready && s'.attempts == s.attempts + 1
  {
    assert Callee(d) == Some(tool);
    if !outcome.Raises? {
      DueIsResulted(h, outcome);
    }
  }

  lemma {:induction false} RequestIsServed(h: Host, s: Session, t: Turn, r: Request)
    requires Makes(t, r) && s.phase == Ready && (r.Call? ==> s.attempts < 1000)
    ensures var (s', reply) := Served(h, s, t.wire.data, t.outcome);
      && reply == Some(ReplyTo(h, r))
      && s'.phase == Ready && s'.attempts == s.attempts + if r.Call? then 1 else 0
  {
    if r.Call? {
      CallIsServed(h, s, t.wire.data, r.id, r.tool, r.outcome);
    }
  }

  lemma {:induction false} ReplyIsValid(h: Host, t: Turn, r: Request)
    requires Makes(t, r)
    ensures ValidWireResponse(h, ReplyTo(h, r))
  {
  }

  // ---- A whole conversation ----

  predicate FitAll(h: Host, rs: seq<Request>) {
    forall i :: 0 <= i < |rs| ==> h.wireSize(ReplyTo(h, rs[i])) <= 131072
  }

  predicate MakeAll(turns: seq<Turn>, rs: seq<Request>) {
    |turns| == |rs| + 2 && forall i :: 0 <= i < |rs| ==> Makes(turns[i + 2], rs[i])
  }

  lemma {:induction false} Handshakes(h: Host, turns: seq<Turn>, id: Id, version: string)
    requires |turns| == 2 && Initializes(turns[0], id, version) && Confirms(turns[1])
    requires h.wireSize(Response(id, Handshake(Agreed(version)))) <= 131072
    ensures var log := Run(h, turns);
      && log.out == [Response(id, Handshake(Agreed(version)))] && log.exit.None?
      && log.session.phase == Ready && log.session.attempts == 0
  {
    var none: seq<Turn>, one := [], [turns[0]];
    assert turns[..1] == one && one[..0] == none;
    assert Run(h, none) == Log(START, [], None);
    assert Run(h, one) == Turned(h, Run(h, none), turns[0]);
  }

  /** The server agrees to a version that it supports and else offers its newest. */
  function Agreed(version: string): string {
    if version in ["2025-11-25", "2025-06-18", "2025-03-26"] then version else "2025-11-25"
  }

  /** The loop is running, the session is ready, and this is what went out. */
  predicate Serving(log: Log, out: seq<Response>, calls: nat) {
    log.out == out && log.exit.None? && log.session.phase == Ready && log.session.attempts == calls
  }

  lemma {:induction false} OneMoreReply(h: Host, log: Log, t: Turn, r: Request, out: seq<Response>, calls: nat, after: Log)
    requires Serving(log, out, calls) && Makes(t, r) && (r.Call? ==> calls < 1000)
    requires h.wireSize(ReplyTo(h, r)) <= 131072 && after == Turned(h, log, t)
    ensures Serving(after, out + [ReplyTo(h, r)], calls + if r.Call? then 1 else 0)
  {
    RequestIsServed(h, log.session, t, r);
    ReplyIsValid(h, t, r);
  }

  lemma {:induction false} RepliesMore(h: Host, rs: seq<Request>, n: nat, first: seq<Response>)
    requires |rs| == n + 1
    ensures first + Replies(h, rs) == first + Replies(h, rs[..n]) + [ReplyTo(h, rs[n])]
    ensures Calls(rs) == Calls(rs[..n]) + if rs[n].Call? then 1 else 0
  {
  }

  /** After the handshake every request of a well-formed conversation with at
      most a thousand calls gets the reply that it is due, and nothing else is
      written. */
  lemma {:induction false} ConversationIsServed(h: Host, turns: seq<Turn>, id: Id, version: string, rs: seq<Request>)
    requires MakeAll(turns, rs) && Initializes(turns[0], id, version) && Confirms(turns[1])
    requires FitAll(h, rs) && h.wireSize(Response(id, Handshake(Agreed(version)))) <= 131072
    requires Calls(rs) <= 1000
    ensures Serving(Run(h, turns), [Response(id, Handshake(Agreed(version)))] + Replies(h, rs), Calls(rs))
    decreases |rs|
  {
    var first := [Response(id, Handshake(Agreed(version)))];
    if rs == [] {
      Handshakes(h, turns, id, version);
    } else {
      var n, m := |rs| - 1, |turns| - 1;
      RepliesMore(h, rs, n, first);
      ConversationIsServed(h, turns[..m], id, version, rs[..n]);
      OneMoreReply(h, Run(h, turns[..m]), turns[m], rs[n], first + Replies(h, rs[..n]), Calls(rs[..n]), Run(h, turns));
    }
  }

  // ---- What is refused, and under which code ----

  predicate RefusedWith(h: Host, s: Session, d: Data, outcome: Outcome, code: int)
    requires ValidRequest(d)
  {
    d.id.Some? && Handled(h, s, d, outcome).1 == Answer(Response(d.id.value, Error(code)))
  }

  predicate HasBadParams(s: Session, d: Data)
    requires ValidRequest(d)
  {
    match d.rpcMethod.value
    case "ping" => d.params.Some? && !d.params.value.onlyMeta
    case "initialize" => s.phase == PreInit && (d.params.None? || d.params.value.protocolVersion.None?)
    case "tools/list" => s.phase == Ready && d.params.Some? && !d.params.value.onlyCursor
    case "tools/call" =>
      s.phase == Ready && (d.params.None? || forall tool: Tool :: d.params.value.callee != Some(NameOf(tool)))
    case _ => false
  }

  lemma {:induction false} ToolHasName(tool: Tool)
    ensures ToolNamed(NameOf(tool)) == Some(tool)
  {
    match tool {
      case Compress =>
      case Retrieve =>
      case Stats =>
    }
  }

  /** A request is refused under one of four codes, each for its own reason. */
  lemma {:induction false} RefusalCodes(h: Host, s: Session, d: Data, outcome: Outcome, code: int)
    requires ValidRequest(d) && d.id.Some?
    ensures var name := d.rpcMethod.value;
      RefusedWith(h, s, d, outcome, code) <==>
      || (code == -32602 && HasBadParams(s, d))
      || (code == -32600 && name == "initialize" && s.phase != PreInit)
      || (code == -32002 && s.phase != Ready && name != "ping" && name != "initialize")
      || (code == -32601 && s.phase == Ready
          && name !in ["ping", "initialize", "tools/list", "tools/call"])
  {
    forall tool: Tool ensures ToolNamed(NameOf(tool)) == Some(tool) {
      ToolHasName(tool);
    }
  }

  /** A line that is no request at all is answered under no id. */
  lemma {:induction false} BrokenLines(h: Host, log: Log, t: Turn)
    requires log.exit.None? && t.pipe && (t.wire.Parsed? ==> !ValidRequest(t.wire.data))
    requires h.wireSize(Response(Null, Error(-32600))) <= 131072 && h.wireSize(Response(Null, Error(-32700))) <= 131072
    ensures var code := if t.wire.NotJson? || t.wire.Unterminated? then -32700 else -32600;
      Turned(h, log, t).out == log.out + [Response(Null, Error(code))]
  {
  }
}
