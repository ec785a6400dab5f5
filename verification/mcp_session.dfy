/** The MCP server's session: lifecycle, per-tool accounting, and one answer
    for each request. */
module McpSession {
  import opened Basics
  import opened Counters

  // ---- Messages ----

  /** A JSON-RPC id. A text id has a UTF-8 length unless it cannot be encoded. */
  datatype Id = Null | Text(text: string, bytes: Option<nat>) | Number(number: int) | OtherId

  const MAX_SAFE_INTEGER: int := 0x1F_FFFF_FFFF_FFFF

  predicate ValidId(id: Id) {
    match id
    case Null => true
    case Text(_, bytes) => bytes.Some? && bytes.value <= 128
    case Number(n) => -MAX_SAFE_INTEGER <= n <= MAX_SAFE_INTEGER
    case OtherId => false
  }

  /** The shapes that `params` is checked for. */
  datatype Params =
    | NotAnObject
    | Params(onlyMeta: bool, protocolVersion: Option<string>, onlyCursor: bool, callee: Option<string>)

  /** A parsed line: the envelope members, and whether every scalar is safe. */
  datatype Data = Data(envelope: bool, rpcMethod: Option<string>, params: Option<Params>, id: Option<Id>, safe: bool)

  predicate ValidRequest(d: Data) {
    && d.envelope && d.rpcMethod.Some?
    && (d.params.Some? ==> d.params.value.Params?)
    && (d.id.Some? ==> ValidId(d.id.value))
    && d.safe
  }

  datatype Tool = Compress | Retrieve | Stats

  function ToolNamed(name: string): Option<Tool> {
    if name == "context_guard_compress" then Some(Compress)
    else if name == "context_guard_retrieve" then Some(Retrieve)
    else if name == "context_guard_stats" then Some(Stats)
    else None
  }

  datatype ErrorCode =
    | InvalidArguments | InputTooLarge | ResultTooLarge | ArtifactNotFound | ArtifactInvalid
    | NamespaceFull | NamespaceAmbiguous | HelperFailed | RateLimitReached | ResponseTooLarge

  /** A structured tool payload: an error of the table, or a report. */
  datatype Payload = Problem(code: ErrorCode) | Report(contents: nat)

  datatype CallResult = CallResult(payload: Payload, isError: bool)

  datatype Body = Pong | Handshake(version: string) | Listing | Called(result: CallResult) | Error(code: int)

  datatype Response = Response(id: Id, body: Body)

  /** What the model takes from elsewhere: which reports pass the payload
      allowlist, which payloads leak a private value, and encoded sizes. */
  datatype Host = Host(
    allowed: nat -> bool,
    leaks: Payload -> bool,
    resultSize: CallResult -> nat,
    wireSize: Response -> nat)

  const MAX_RESPONSE_BYTES := 131072
  const MAX_CALLS := 1000

  predicate ValidPayload(h: Host, p: Payload, isError: bool) {
    match p
    case Problem(_) => isError
    case Report(contents) => !isError && h.allowed(contents)
  }

  const NEWEST_VERSION := "2025-11-25"

  predicate SupportedVersion(v: string) {
    v == NEWEST_VERSION || v == "2025-06-18" || v == "2025-03-26"
  }

  predicate ValidWireResponse(h: Host, r: Response) {
    && ValidId(r.id)
    && match r.body
       case Handshake(version) => SupportedVersion(version)
       case Called(result) => ValidPayload(h, result.payload, result.isError)
       case _ => true
  }

  // ---- The session as a value ----

  datatype Phase = PreInit | WaitInitialized | Ready

  datatype Session = Session(
    phase: Phase, attempts: nat, calls: map<Tool, nat>, errors: map<Tool, nat>, protocolErrors: nat)

  const START := Session(PreInit, 0, map[], map[], 0)

  /** What the tool's own code did. */
  datatype Outcome = Reports(contents: nat) | FailsWith(code: ErrorCode) | Raises

  datatype Reply = Silent | Answer(response: Response) | Raised

  function Resulted(h: Host, payload: Payload, isError: bool): CallResult {
    var replaced := !ValidPayload(h, payload, isError) || h.leaks(payload);
    var r := if replaced then CallResult(Problem(ResponseTooLarge), true) else CallResult(payload, isError);
    if h.resultSize(r) > MAX_RESPONSE_BYTES && !r.isError then CallResult(Problem(ResponseTooLarge), true) else r
  }

  function ToolResult(h: Host, outcome: Outcome): CallResult
    requires !outcome.Raises?
  {
    match outcome
    case Reports(contents) => Resulted(h, Report(contents), false)
    case FailsWith(code) => Resulted(h, Problem(code), true)
  }

  function Recorded(s: Session, tool: Tool, r: CallResult): Session {
    if r.isError then s.(errors := Add(s.errors, tool, 1)) else s
  }

  function Reported(d: Data, body: Body): Reply {
    if d.id.None? then Silent else Answer(Response(d.id.value, body))
  }

  predicate CountsAsProtocolError(code: int) {
    code == -32600 || code == -32602 || code == -32603
  }

  function Failed(s: Session, d: Data, code: int): (Session, Reply) {
    (if CountsAsProtocolError(code) then s.(protocolErrors := s.protocolErrors + 1) else s, Reported(d, Error(code)))
  }

  predicate OnlyMeta(d: Data)
    requires ValidRequest(d)
  {
    d.params.None? || d.params.value.onlyMeta
  }

  /** The tool that a well-formed call names. */
  function Callee(d: Data): Option<Tool>
    requires ValidRequest(d)
  {
    if d.params.Some? && d.params.value.callee.Some? then ToolNamed(d.params.value.callee.value) else None
  }

  function Initialized(s: Session, d: Data): (Session, Reply)
    requires ValidRequest(d)
  {
    if s.phase != PreInit then Failed(s, d, -32600)
    else if d.params.None? || d.params.value.protocolVersion.None? then Failed(s, d, -32602)
    else if d.id.None? then (s, Silent)
    else
      var v := d.params.value.protocolVersion.value;
      (s.(phase := WaitInitialized), Reported(d, Handshake(if SupportedVersion(v) then v else NEWEST_VERSION)))
  }

  function Confirmed(s: Session, d: Data): (Session, Reply)
    requires ValidRequest(d)
  {
    if d.id.None? then
      if !OnlyMeta(d) then Failed(s, d, -32602)
      else if s.phase == WaitInitialized then (s.(phase := Ready), Silent)
      else (s, Silent)
    else Failed(s, d, if s.phase == Ready then -32601 else -32002)
  }

  function CalledTool(h: Host, s: Session, d: Data, outcome: Outcome): (Session, Reply)
    requires ValidRequest(d)
  {
    match Callee(d)
    case None => Failed(s, d, -32602)
    case Some(tool) =>
      if d.id.None? then (s, Silent)
      else
        var counted := s.(attempts := s.attempts + 1, calls := Add(s.calls, tool, 1));
        if counted.attempts > MAX_CALLS then
          var r := Resulted(h, Problem(RateLimitReached), true);
          (Recorded(counted, tool, r), Reported(d, Called(r)))
        else if outcome.Raises? then (counted, Raised)
        else
          var r := ToolResult(h, outcome);
          (Recorded(counted, tool, r), Reported(d, Called(r)))
  }

  /** One valid request or notification. */
  function Handled(h: Host, s: Session, d: Data, outcome: Outcome): (Session, Reply)
    requires ValidRequest(d)
  {
    var name := d.rpcMethod.value;
    if name == "ping" then
      if OnlyMeta(d) then (s, Reported(d, Pong)) else Failed(s, d, -32602)
    else if name == "initialize" then Initialized(s, d)
    else if name == "notifications/initialized" then Confirmed(s, d)
    else if s.phase != Ready then Failed(s, d, -32002)
    else if name == "tools/list" then
      if d.params.None? || d.params.value.onlyCursor then (s, Reported(d, Listing)) else Failed(s, d, -32602)
    else if name == "tools/call" then CalledTool(h, s, d, outcome)
    else Failed(s, d, -32601)
  }

  // ---- The server object ----

  class Server {
    var phase: Phase
    var attempts: nat
    var calls: map<Tool, nat>
    var errors: map<Tool, nat>
    var protocolErrors: nat

    function View(): Session
      reads this
    {
      Session(phase, attempts, calls, errors, protocolErrors)
    }

    constructor ()
      ensures View() == START
    {
      phase, attempts, calls, errors, protocolErrors := PreInit, 0, map[], map[], 0;
    }

    /** An error is counted exactly when an error is what goes out. */
    method Result(h: Host, tool: Tool, payload: Payload, isError: bool) returns (r: CallResult)
      modifies this`errors
      ensures r == Resulted(h, payload, isError) && View() == Recorded(old(View()), tool, r)
    {
      var p, e := payload, isError;
      if !ValidPayload(h, p, e) || h.leaks(p) {
        p, e := Problem(ResponseTooLarge), true;
      }
      if e {
        errors := Add(errors, tool, 1);
      }
      r := CallResult(p, e);
      if h.resultSize(r) > MAX_RESPONSE_BYTES {
        if !e {
          errors := Add(errors, tool, 1);
          r := CallResult(Problem(ResponseTooLarge), true);
        }
      }
    }

    method Failure(d: Data, code: int) returns (reply: Reply)
      modifies this`protocolErrors
      ensures (View(), reply) == Failed(old(View()), d, code)
    {
      if CountsAsProtocolError(code) {
        protocolErrors := protocolErrors + 1;
      }
      reply := Reported(d, Error(code));
    }

    method CallTool(h: Host, d: Data, outcome: Outcome) returns (reply: Reply)
      requires ValidRequest(d)
      modifies this
      ensures (View(), reply) == CalledTool(h, old(View()), d, outcome)
    {
      var callee := Callee(d);
      if callee.None? {
        reply := Failure(d, -32602);
        return;
      }
      if d.id.None? {
        return Silent;
      }
      var tool := callee.value;
      attempts, calls := attempts + 1, Add(calls, tool, 1);
      var r;
      if attempts > MAX_CALLS {
        r := Result(h, tool, Problem(RateLimitReached), true);
      } else {
        match outcome {
          case Raises => { return Raised; }
          case Reports(contents) => { r := Result(h, tool, Report(contents), false); }
          case FailsWith(code) => { r := Result(h, tool, Problem(code), true); }
        }
      }
      reply := Reported(d, Called(r));
    }

    method Handle(h: Host, d: Data, outcome: Outcome) returns (reply: Reply)
      requires ValidRequest(d)
      modifies this
      ensures (View(), reply) == Handled(h, old(View()), d, outcome)
    {
      var name, notification := d.rpcMethod.value, d.id.None?;
      if name == "ping" {
        if OnlyMeta(d) {
          reply := Reported(d, Pong);
        } else {
          reply := Failure(d, -32602);
        }
      } else if name == "initialize" {
        if phase != PreInit {
          reply := Failure(d, -32600);
        } else if d.params.None? || d.params.value.protocolVersion.None? {
          reply := Failure(d, -32602);
        } else if notification {
          reply := Silent;
        } else {
          var version := d.params.value.protocolVersion.value;
          phase := WaitInitialized;
          reply := Reported(d, Handshake(if SupportedVersion(version) then version else NEWEST_VERSION));
        }
      } else if name == "notifications/initialized" {
        if notification && !OnlyMeta(d) {
          reply := Failure(d, -32602);
          return;
        }
        if notification && phase == WaitInitialized {
          phase := Ready;
        }
        if notification {
          reply := Silent;
        } else if phase != Ready {
          reply := Failure(d, -32002);
        } else {
          reply := Failure(d, -32601);
        }
      } else if phase != Ready {
        reply := Failure(d, -32002);
      } else if name == "tools/list" {
        if d.params.None? || d.params.value.onlyCursor {
          reply := Reported(d, Listing);
        } else {
          reply := Failure(d, -32602);
        }
      } else if name == "tools/call" {
        reply := CallTool(h, d, outcome);
      } else {
        reply := Failure(d, -32601);
      }
    }
  }

  // ---- One answer ----

  /** A request is answered, with its own id and a response that passes the
      final schema check, unless the tool raised; a notification never is. */
  lemma AnswerIsValid(h: Host, s: Session, d: Data, outcome: Outcome)
    requires ValidRequest(d)
    ensures var reply := Handled(h, s, d, outcome).1;
      if d.id.None? then reply == Silent
      else !reply.Silent? && (reply.Answer? ==>
        reply.response.id == d.id.value && ValidWireResponse(h, reply.response))
  {
  }

  // ---- Accounting and lifecycle of one message ----

  ghost predicate SameCounters(s: Session, s': Session) {
    s'.attempts == s.attempts && s'.calls == s.calls && s'.errors == s.errors
  }

  /** Tools take effect only when the session is ready. */
  lemma OnlyReadyCallsTouchCounters(h: Host, s: Session, d: Data, outcome: Outcome)
    requires ValidRequest(d)
    ensures if s.phase == Ready && d.rpcMethod.value == "tools/call"
            then Handled(h, s, d, outcome) == CalledTool(h, s, d, outcome)
            else SameCounters(s, Handled(h, s, d, outcome).0)
                 && forall other :: Handled(h, s, d, other) == Handled(h, s, d, outcome)
  {
  }

  predicate Negotiates(d: Data) {
    && ValidRequest(d) && d.rpcMethod.value == "initialize" && d.id.Some?
    && d.params.Some? && d.params.value.protocolVersion.Some?
  }

  predicate Confirms(d: Data) {
    ValidRequest(d) && d.rpcMethod.value == "notifications/initialized" && d.id.None? && OnlyMeta(d)
  }

  /** The phase stays or takes its one next step, for one kind of message each. */
  lemma PhaseAdvances(h: Host, s: Session, d: Data, outcome: Outcome)
    requires ValidRequest(d)
    ensures Handled(h, s, d, outcome).0.phase
            == if s.phase == PreInit && Negotiates(d) then WaitInitialized
               else if s.phase == WaitInitialized && Confirms(d) then Ready
               else s.phase
  {
  }

  ghost predicate Sound(s: Session) {
    && Get(s.calls, Compress) + Get(s.calls, Retrieve) + Get(s.calls, Stats) == s.attempts
    && (forall t :: Get(s.errors, t) <= Get(s.calls, t))
    && (s.phase != Ready ==> s.attempts == 0)
  }

  /** A call that is counted adds one call, and at most one error, to its tool. */
  lemma CallCounts(h: Host, s: Session, d: Data, outcome: Outcome)
    requires ValidRequest(d)
    ensures var s' := CalledTool(h, s, d, outcome).0;
      s'.phase == s.phase &&
      if d.id.Some? && Callee(d).Some?
      then
        var tool := Callee(d).value;
        && s'.attempts == s.attempts + 1 && s'.calls == Add(s.calls, tool, 1)
        && (s'.errors == s.errors || s'.errors == Add(s.errors, tool, 1))
      else SameCounters(s, s')
  {
  }

  lemma AddOne(m: map<Tool, nat>, tool: Tool)
    ensures forall t :: Get(Add(m, tool, 1), t) == if t == tool then Get(m, t) + 1 else Get(m, t)
  {
  }

  lemma CallKeepsSound(h: Host, s: Session, d: Data, outcome: Outcome)
    requires ValidRequest(d) && Sound(s) && s.phase == Ready
    ensures Sound(CalledTool(h, s, d, outcome).0)
  {
    var s' := CalledTool(h, s, d, outcome).0;
    CallCounts(h, s, d, outcome);
    if d.id.Some? && Callee(d).Some? {
      AddOne(s.calls, Callee(d).value);
      AddOne(s.errors, Callee(d).value);
      assert Get(s'.calls, Compress) + Get(s'.calls, Retrieve) + Get(s'.calls, Stats) == s'.attempts;
    }
  }

  lemma HandledKeepsSound(h: Host, s: Session, d: Data, outcome: Outcome)
    requires ValidRequest(d) && Sound(s)
    ensures Sound(Handled(h, s, d, outcome).0)
  {
    OnlyReadyCallsTouchCounters(h, s, d, outcome);
    PhaseAdvances(h, s, d, outcome);
    if s.phase == Ready {
      CallKeepsSound(h, s, d, outcome);
    }
  }

  /** Past the limit a call is answered with an error and runs no tool. */
  lemma PastTheLimit(h: Host, s: Session, d: Data, outcome: Outcome)
    requires ValidRequest(d) && d.id.Some? && Callee(d).Some? && s.attempts >= MAX_CALLS
    ensures forall other :: CalledTool(h, s, d, other) == CalledTool(h, s, d, outcome)
    ensures var r := Resulted(h, Problem(RateLimitReached), true);
      && CalledTool(h, s, d, outcome).1 == Answer(Response(d.id.value, Called(r)))
      && r.isError && r.payload == Problem(if h.leaks(Problem(RateLimitReached)) then ResponseTooLarge else RateLimitReached)
  {
  }

  // ---- The server loop ----

  datatype Wire = Oversized | Unterminated | NotJson | NotAllowed | Parsed(data: Data)

  /** A line, what the called tool would do, and whether the pipe still takes output. */
  datatype Turn = Turn(wire: Wire, outcome: Outcome, pipe: bool)

  /** What the loop has done: the session, the responses written, and the exit
      code once it has returned. */
  datatype Log = Log(session: Session, out: seq<Response>, exit: Option<nat>)

  predicate Emits(h: Host, r: Response, pipe: bool) {
    ValidWireResponse(h, r) && h.wireSize(r) <= MAX_RESPONSE_BYTES && pipe
  }

  function Emitted(h: Host, out: seq<Response>, r: Response, pipe: bool): seq<Response> {
    if Emits(h, r, pipe) then out + [r] else out
  }

  function NoId(code: int): Response {
    Response(Null, Error(code))
  }

  function ProtocolError(s: Session): Session {
    s.(protocolErrors := s.protocolErrors + 1)
  }

  /** What the loop sends for a valid message, an exception included. */
  function Served(h: Host, s: Session, d: Data, outcome: Outcome): (Session, Option<Response>)
    requires ValidRequest(d)
  {
    var (s', reply) := Handled(h, s, d, outcome);
    match reply
    case Silent => (s', None)
    case Answer(r) => (s', Some(r))
    case Raised => (ProtocolError(s'), if d.id.None? then None else Some(Response(d.id.value, Error(-32603))))
  }

  function Turned(h: Host, log: Log, t: Turn): Log {
    if log.exit.Some? then log
    else match t.wire
      case Oversized => log.(out := Emitted(h, log.out, NoId(-32600), t.pipe), exit := Some(1))
      case Unterminated => log.(out := Emitted(h, log.out, NoId(-32700), t.pipe), exit := Some(1))
      case NotJson =>
        log.(session := ProtocolError(log.session), out := Emitted(h, log.out, NoId(-32700), t.pipe))
      case NotAllowed =>
        log.(session := ProtocolError(log.session), out := Emitted(h, log.out, NoId(-32600), t.pipe))
      case Parsed(d) =>
        if !ValidRequest(d) then
          log.(session := ProtocolError(log.session), out := Emitted(h, log.out, NoId(-32600), t.pipe))
        else
          var (s, r) := Served(h, log.session, d, t.outcome);
          if r.None? then log.(session := s)
          else Log(s, Emitted(h, log.out, r.value, t.pipe),
                   if Emits(h, r.value, t.pipe) then None else Some(1))
  }

  function Run(h: Host, turns: seq<Turn>): Log {
    if turns == [] then Log(START, [], None)
    else Turned(h, Run(h, turns[..|turns| - 1]), turns[|turns| - 1])
  }

  method Emit(h: Host, out: seq<Response>, r: Response, pipe: bool) returns (sent: bool, out': seq<Response>)
    ensures sent == Emits(h, r, pipe) && out' == Emitted(h, out, r, pipe)
  {
    if !ValidWireResponse(h, r) {
      return false, out;
    }
    if h.wireSize(r) > MAX_RESPONSE_BYTES {
      return false, out;
    }
    sent, out' := pipe, if pipe then out + [r] else out;
  }

  method ServeLine(h: Host, server: Server, t: Turn, out: seq<Response>)
    returns (out': seq<Response>, exit: Option<nat>)
    modifies server
    ensures Log(server.View(), out', exit) == Turned(h, Log(old(server.View()), out, None), t)
  {
    var sent;
    exit := None;
    match t.wire {
      case Oversized => {
        sent, out' := Emit(h, out, NoId(-32600), t.pipe);
        exit := Some(1);
      }
      case Unterminated => {
        sent, out' := Emit(h, out, NoId(-32700), t.pipe);
        exit := Some(1);
      }
      case NotJson => {
        server.protocolErrors := server.protocolErrors + 1;
        sent, out' := Emit(h, out, NoId(-32700), t.pipe);
      }
      case NotAllowed => {
        server.protocolErrors := server.protocolErrors + 1;
        sent, out' := Emit(h, out, NoId(-32600), t.pipe);
      }
      case Parsed(d) => {
        if !ValidRequest(d) {
          server.protocolErrors := server.protocolErrors + 1;
          sent, out' := Emit(h, out, NoId(-32600), t.pipe);
        } else {
          out', exit := ServeMessage(h, server, d, t, out);
        }
      }
    }
  }

  method ServeMessage(h: Host, server: Server, d: Data, t: Turn, out: seq<Response>)
    returns (out': seq<Response>, exit: Option<nat>)
    requires ValidRequest(d) && t.wire == Parsed(d)
    modifies server
    ensures Log(server.View(), out', exit) == Turned(h, Log(old(server.View()), out, None), t)
  {
    out', exit := out, None;
    var reply := server.Handle(h, d, t.outcome);
    if reply.Raised? {
      server.protocolErrors := server.protocolErrors + 1;
      reply := Reported(d, Error(-32603));
    }
    if reply.Answer? {
      var sent;
      sent, out' := Emit(h, out, reply.response, t.pipe);
      if !sent {
        exit := Some(1);
      }
    }
  }

  /** The loop until it exits or the input ends. */
  method Serve(h: Host, turns: seq<Turn>) returns (server: Server, out: seq<Response>, code: nat)
    ensures var log := Run(h, turns);
      && server.View() == log.session && out == log.out
      && code == if log.exit.Some? then log.exit.value else 0
  {
    server := new Server();
    out := [];
    var i, exit: Option<nat> := 0, None;
    while i < |turns| && exit.None?
      invariant 0 <= i <= |turns|
      invariant Run(h, turns[..i]) == Log(server.View(), out, exit)
      invariant fresh(server)
    {
      assert turns[..i + 1][..i] == turns[..i];
      out, exit := ServeLine(h, server, turns[i], out);
      i := i + 1;
    }
    code := if exit.Some? then exit.value else 0;
    assert turns[..|turns|] == turns;
    if exit.Some? {
      ExitIsFinal(h, turns, i);
    }
  }

  lemma {:induction false} ExitIsFinal(h: Host, turns: seq<Turn>, n: nat)
    requires n <= |turns| && Run(h, turns[..n]).exit.Some?
    ensures Run(h, turns) == Run(h, turns[..n])
  {
    if n == |turns| {
      assert turns[..n] == turns;
    } else {
      var m := |turns| - 1;
      assert turns[..m][..n] == turns[..n];
      ExitIsFinal(h, turns[..m], n);
    }
  }

  // ---- Whole runs ----

  /** The id under which a line is to be answered, if it is to be answered. */
  function Due(t: Turn): Option<Id> {
    if t.wire.Parsed? && ValidRequest(t.wire.data) then t.wire.data.id else Some(Null)
  }

  function DueIds(turns: seq<Turn>): seq<Id> {
    if turns == [] then []
    else
      var before, due := DueIds(turns[..|turns| - 1]), Due(turns[|turns| - 1]);
      if due.Some? then before + [due.value] else before
  }

  function Ids(out: seq<Response>): seq<Id> {
    seq(|out|, k requires 0 <= k < |out| => out[k].id)
  }

  /** Error responses without an id fit a response, and the pipe takes them. */
  ghost predicate Unobstructed(h: Host, turns: seq<Turn>) {
    && (forall code :: h.wireSize(NoId(code)) <= MAX_RESPONSE_BYTES)
    && forall k :: 0 <= k < |turns| ==> turns[k].pipe
  }

  lemma ServedAnswers(h: Host, s: Session, d: Data, outcome: Outcome)
    requires ValidRequest(d)
    ensures var r := Served(h, s, d, outcome).1;
      && r.Some? == d.id.Some?
      && (r.Some? ==> r.value.id == d.id.value && ValidWireResponse(h, r.value))
  {
    AnswerIsValid(h, s, d, outcome);
  }

  /** What a line is answered with does not fit a response line. */
  predicate Overflows(h: Host, s: Session, t: Turn) {
    && t.wire.Parsed? && ValidRequest(t.wire.data)
    && var r := Served(h, s, t.wire.data, t.outcome).1;
    r.Some? && h.wireSize(r.value) > MAX_RESPONSE_BYTES
  }

  /** With the pipe open, a line ends the session if and only if it is not a
      line or its answer does not fit, and otherwise is answered as due. */
  lemma TurnAnswersOnce(h: Host, log: Log, t: Turn)
    requires log.exit.None? && t.pipe && forall code :: h.wireSize(NoId(code)) <= MAX_RESPONSE_BYTES
    ensures Turned(h, log, t).exit.Some? <==> t.wire.Oversized? || t.wire.Unterminated? || Overflows(h, log.session, t)
    ensures var next := Turned(h, log, t);
      next.exit.None? ==>
        if Due(t).None? then next.out == log.out
        else |next.out| == |log.out| + 1 && next.out[..|log.out|] == log.out && next.out[|log.out|].id == Due(t).value
  {
    if t.wire.Parsed? && ValidRequest(t.wire.data) {
      ServedAnswers(h, log.session, t.wire.data, t.outcome);
    }
  }

  /** While the loop runs, every line but a notification has been answered
      once, in order and under its own id. */
  lemma {:induction false} OneAnswerEach(h: Host, turns: seq<Turn>)
    requires Unobstructed(h, turns) && Run(h, turns).exit.None?
    ensures Ids(Run(h, turns).out) == DueIds(turns)
  {
    if turns != [] {
      var n := |turns| - 1;
      OneAnswerEach(h, turns[..n]);
      TurnAnswersOnce(h, Run(h, turns[..n]), turns[n]);
    }
  }

  /** Whatever is written passes the final check and fits. */
  lemma {:induction false} EveryOutputIsValid(h: Host, turns: seq<Turn>)
    ensures forall r :: r in Run(h, turns).out ==> ValidWireResponse(h, r) && h.wireSize(r) <= MAX_RESPONSE_BYTES
  {
    if turns != [] {
      EveryOutputIsValid(h, turns[..|turns| - 1]);
    }
  }

  lemma TurnKeepsSound(h: Host, log: Log, t: Turn)
    requires Sound(log.session)
    ensures Sound(Turned(h, log, t).session)
  {
    if t.wire.Parsed? && ValidRequest(t.wire.data) {
      HandledKeepsSound(h, log.session, t.wire.data, t.outcome);
    }
  }

  /** Calls sum to attempts, errors never exceed calls, and nothing has been
      called before the session is ready. */
  lemma {:induction false} RunIsSound(h: Host, turns: seq<Turn>)
    ensures Sound(Run(h, turns).session)
  {
    if turns != [] {
      RunIsSound(h, turns[..|turns| - 1]);
      TurnKeepsSound(h, Run(h, turns[..|turns| - 1]), turns[|turns| - 1]);
    }
  }

  function Total(m: map<Tool, nat>): nat {
    Get(m, Compress) + Get(m, Retrieve) + Get(m, Stats)
  }

  predicate IsErrorAnswer(r: Response) {
    r.body.Called? && r.body.result.isError
  }

  function ErrorAnswers(out: seq<Response>): nat {
    if out == [] then 0
    else ErrorAnswers(out[..|out| - 1]) + if IsErrorAnswer(out[|out| - 1]) then 1 else 0
  }

  lemma CallErrors(h: Host, s: Session, d: Data, outcome: Outcome)
    requires ValidRequest(d)
    ensures var (s', reply) := CalledTool(h, s, d, outcome);
      Total(s'.errors) == Total(s.errors) + if reply.Answer? && IsErrorAnswer(reply.response) then 1 else 0
  {
    if Callee(d).Some? {
      AddOne(s.errors, Callee(d).value);
    }
  }

  lemma ServedErrors(h: Host, s: Session, d: Data, outcome: Outcome)
    requires ValidRequest(d)
    ensures var (s', r) := Served(h, s, d, outcome);
      Total(s'.errors) == Total(s.errors) + if r.Some? && IsErrorAnswer(r.value) then 1 else 0
  {
    if s.phase == Ready && d.rpcMethod.value == "tools/call" {
      OnlyReadyCallsTouchCounters(h, s, d, outcome);
      CallErrors(h, s, d, outcome);
    } else {
      OnlyReadyCallsTouchCounters(h, s, d, outcome);
      assert SameCounters(s, Handled(h, s, d, outcome).0);
    }
  }

  /** The error counters count the error results that were written. */
  lemma {:induction false} ErrorsAreAnswers(h: Host, turns: seq<Turn>)
    requires Run(h, turns).exit.None?
    ensures Total(Run(h, turns).session.errors) == ErrorAnswers(Run(h, turns).out)
  {
    if turns != [] {
      var n := |turns| - 1;
      var before, after := Run(h, turns[..n]), Run(h, turns);
      ErrorsAreAnswers(h, turns[..n]);
      if turns[n].wire.Parsed? && ValidRequest(turns[n].wire.data) {
        ServedErrors(h, before.session, turns[n].wire.data, turns[n].outcome);
      }
      assert after.out == before.out || after.out[..|before.out|] == before.out;
    }
  }

  /** The turn is a counted call. */
  predicate Attempts(log: Log, t: Turn) {
    && log.exit.None? && t.wire.Parsed? && ValidRequest(t.wire.data)
    && log.session.phase == Ready && t.wire.data.rpcMethod.value == "tools/call"
    && t.wire.data.id.Some? && Callee(t.wire.data).Some?
  }

  /** The turns whose outcome is consulted: calls that the limit lets through. */
  function Executions(h: Host, turns: seq<Turn>): nat {
    if turns == [] then 0
    else
      var n := |turns| - 1;
      var log := Run(h, turns[..n]);
      Executions(h, turns[..n]) + if Attempts(log, turns[n]) && log.session.attempts < MAX_CALLS then 1 else 0
  }

  lemma TurnAttempts(h: Host, log: Log, t: Turn)
    ensures Turned(h, log, t).session.attempts == log.session.attempts + if Attempts(log, t) then 1 else 0
    ensures !(Attempts(log, t) && log.session.attempts < MAX_CALLS) ==>
      forall other :: Turned(h, log, t.(outcome := other)) == Turned(h, log, t)
  {
    if log.exit.None? && t.wire.Parsed? && ValidRequest(t.wire.data) {
      OnlyReadyCallsTouchCounters(h, log.session, t.wire.data, t.outcome);
      CallCounts(h, log.session, t.wire.data, t.outcome);
      if Attempts(log, t) && log.session.attempts >= MAX_CALLS {
        PastTheLimit(h, log.session, t.wire.data, t.outcome);
      }
    }
  }

  /** No run executes more than a thousand calls. */
  lemma {:induction false} ExecutionsAreLimited(h: Host, turns: seq<Turn>)
    ensures Executions(h, turns) == Min(Run(h, turns).session.attempts, MAX_CALLS)
  {
    if turns != [] {
      var n := |turns| - 1;
      ExecutionsAreLimited(h, turns[..n]);
      TurnAttempts(h, Run(h, turns[..n]), turns[n]);
    }
  }

  predicate TurnNegotiates(t: Turn) {
    t.wire.Parsed? && Negotiates(t.wire.data)
  }

  predicate TurnConfirms(t: Turn) {
    t.wire.Parsed? && Confirms(t.wire.data)
  }

  lemma TurnPhase(h: Host, log: Log, t: Turn)
    requires log.exit.None?
    ensures Turned(h, log, t).session.phase
            == if log.session.phase == PreInit && TurnNegotiates(t) then WaitInitialized
               else if log.session.phase == WaitInitialized && TurnConfirms(t) then Ready
               else log.session.phase
  {
    if t.wire.Parsed? && ValidRequest(t.wire.data) {
      PhaseAdvances(h, log.session, t.wire.data, t.outcome);
    }
  }

  predicate Handshaken(turns: seq<Turn>) {
    exists i, j :: 0 <= i < j < |turns| && TurnNegotiates(turns[i]) && TurnConfirms(turns[j])
  }

  /** While the loop runs, the session is ready if and only if an initialize
      request has been followed by an initialized notification, and waits if
      and only if there has been only the first. */
  lemma {:induction false} ReadyIffHandshaken(h: Host, turns: seq<Turn>)
    requires Run(h, turns).exit.None?
    ensures (Run(h, turns).session.phase == Ready) <==> Handshaken(turns)
    ensures (Run(h, turns).session.phase == PreInit) <==> forall i :: 0 <= i < |turns| ==> !TurnNegotiates(turns[i])
  {
    if turns != [] {
      var n := |turns| - 1;
      var before := turns[..n];
      ReadyIffHandshaken(h, before);
      TurnPhase(h, Run(h, before), turns[n]);
      HandshakenSnoc(turns);
    }
  }

  lemma HandshakenSnoc(turns: seq<Turn>)
    requires turns != []
    ensures var n := |turns| - 1;
      Handshaken(turns) <==>
        (Handshaken(turns[..n]) || (TurnConfirms(turns[n]) && exists i :: 0 <= i < n && TurnNegotiates(turns[i])))
  {
    var n := |turns| - 1;
    if Handshaken(turns[..n]) {
      var i, j :| 0 <= i < j < n && TurnNegotiates(turns[..n][i]) && TurnConfirms(turns[..n][j]);
      assert TurnNegotiates(turns[i]) && TurnConfirms(turns[j]);
    }
    if Handshaken(turns) {
      var i, j :| 0 <= i < j < |turns| && TurnNegotiates(turns[i]) && TurnConfirms(turns[j]);
      if j < n {
        assert TurnNegotiates(turns[..n][i]) && TurnConfirms(turns[..n][j]);
      }
    }
  }

  // ---- The size gap between a result and its envelope ----

  /** A result that just fits is not sent once its envelope takes it past the
      limit: the request goes unanswered and the session ends. */
  lemma ResultAtTheLimitEndsTheSession(h: Host, s: Session, d: Data, contents: nat, out: seq<Response>)
    requires ValidRequest(d) && d.rpcMethod.value == "tools/call" && d.id.Some? && Callee(d).Some?
    requires s.phase == Ready && s.attempts < MAX_CALLS
    requires h.allowed(contents) && !h.leaks(Report(contents))
    requires h.resultSize(CallResult(Report(contents), false)) <= MAX_RESPONSE_BYTES
    requires h.wireSize(Response(d.id.value, Called(CallResult(Report(contents), false)))) > MAX_RESPONSE_BYTES
    ensures Turned(h, Log(s, out, None), Turn(Parsed(d), Reports(contents), true)).out == out
    ensures Turned(h, Log(s, out, None), Turn(Parsed(d), Reports(contents), true)).exit == Some(1)
  {
    assert Handled(h, s, d, Reports(contents)) == CalledTool(h, s, d, Reports(contents));
  }
}
