/** Bounded capture of two streams with an ordered pass-through on overflow:
    the locked section, the ticketed emission, and all their interleavings. */
module BoundedCapture {
  import opened Basics
  import opened Sequences

  datatype Stream = Stdout | Stderr

  /** One value per stream. */
  datatype PerStream<T> = PerStream(stdout: T, stderr: T) {
    function At(st: Stream): T {
      if st.Stdout? then stdout else stderr
    }

    function With(st: Stream, value: T): PerStream<T> {
      if st.Stdout? then this.(stdout := value) else this.(stderr := value)
    }
  }

  datatype Write = Write(stream: Stream, payload: Bytes)

  datatype Ticket = Ticket(order: nat, writes: seq<Write>)

  /** The fields of the capture. */
  datatype Fields = Fields(
    maxCaptureBytes: int,
    stdout: Bytes,
    stderr: Bytes,
    outputBytes: nat,
    captureLimited: bool,
    nextEmitOrder: nat,
    activeEmitOrder: nat)
  {
    function Buffer(st: Stream): Bytes {
      if st.Stdout? then stdout else stderr
    }
  }

  function Fresh(max: int): Fields {
    Fields(max, [], [], 0, false, 0, 0)
  }

  function Stored(f: Fields): nat {
    |f.stdout| + |f.stderr|
  }

  function Extend(f: Fields, st: Stream, chunk: Bytes): Fields {
    if st.Stdout? then f.(stdout := f.stdout + chunk) else f.(stderr := f.stderr + chunk)
  }

  /** The effect of `consume` up to the end of its locked section, and the
      pass-through work it hands to the caller. */
  function Admitted(f: Fields, st: Stream, chunk: Bytes): (Fields, Option<Ticket>) {
    var counted := f.(outputBytes := f.outputBytes + |chunk|);
    if chunk == [] then (f, None)
    else if f.captureLimited then
      (counted.(nextEmitOrder := f.nextEmitOrder + 1), Some(Ticket(f.nextEmitOrder, [Write(st, chunk)])))
    else
      var room := Max(0, f.maxCaptureBytes - Stored(f));
      if |chunk| <= room then (Extend(counted, st, chunk), None)
      else
        var full := Extend(counted, st, chunk[..room]);
        (full.(captureLimited := true, nextEmitOrder := f.nextEmitOrder + 1),
         Some(Ticket(f.nextEmitOrder,
                     [Write(Stdout, full.stdout), Write(Stderr, full.stderr), Write(st, chunk[room..])])))
  }

  /** The shared object. Each method is one critical section. */
  class Capture {
    const maxCaptureBytes: int
    var stdout: Bytes
    var stderr: Bytes
    var outputBytes: nat
    var captureLimited: bool
    var nextEmitOrder: nat
    var activeEmitOrder: nat

    function View(): Fields
      reads this
    {
      Fields(maxCaptureBytes, stdout, stderr, outputBytes, captureLimited, nextEmitOrder, activeEmitOrder)
    }

    constructor (max: int)
      ensures View() == Fresh(max)
    {
      maxCaptureBytes := max;
      stdout, stderr, outputBytes := [], [], 0;
      captureLimited, nextEmitOrder, activeEmitOrder := false, 0, 0;
    }

    method Admit(st: Stream, chunk: Bytes) returns (ticket: Option<Ticket>)
      modifies this
      ensures (View(), ticket) == Admitted(old(View()), st, chunk)
    {
      if chunk == [] {
        return None;
      }
      var passthrough: seq<Write> := [];
      outputBytes := outputBytes + |chunk|;
      if captureLimited {
        passthrough := [Write(st, chunk)];
      } else {
        var remaining := maxCaptureBytes - (|stdout| + |stderr|);
        if |chunk| <= remaining {
          if st.Stdout? { stdout := stdout + chunk; } else { stderr := stderr + chunk; }
          return None;
        }
        var overflow := chunk;
        if remaining > 0 {
          if st.Stdout? { stdout := stdout + chunk[..remaining]; } else { stderr := stderr + chunk[..remaining]; }
          overflow := chunk[remaining..];
        }
        assert remaining <= 0 ==> chunk[..0] == [] && chunk[0..] == chunk;
        assert stdout + [] == stdout && stderr + [] == stderr;
        captureLimited := true;
        passthrough := [Write(Stdout, stdout), Write(Stderr, stderr), Write(st, overflow)];
      }
      ticket := Some(Ticket(nextEmitOrder, passthrough));
      nextEmitOrder := nextEmitOrder + 1;
    }

    /** The turn passes as the step says that retires the ticket, whether its
        last write went out or a write failed. */
    method FinishTurn(ghost s: System)
      requires s.fields == View() && MyTurn(s, activeEmitOrder)
      modifies this`activeEmitOrder
      ensures View() == Retire(s, old(activeEmitOrder)).fields
      ensures forall order :: MyTurn(Retire(s, old(activeEmitOrder)), order) ==> order == old(activeEmitOrder) + 1
    {
      activeEmitOrder := activeEmitOrder + 1;
    }
  }

  // ---- Interleavings ----

  /** The capture, the writes still owed by each ticket holder, what reached
      the real streams, and (for the specification) what was consumed and
      what a failing write lost. */
  datatype System = System(
    fields: Fields,
    owed: map<nat, seq<Write>>,
    out: PerStream<Bytes>,
    consumed: PerStream<Bytes>,
    lost: PerStream<nat>)

  function Begin(max: int): System {
    System(Fresh(max), map[], PerStream([], []), PerStream([], []), PerStream(0, 0))
  }

  datatype Action =
    | Consume(st: Stream, chunk: Bytes)
    | Emit(order: nat)
    | EmitFails(order: nat)
    | Finish(order: nat)

  predicate MyTurn(s: System, order: nat) {
    order in s.owed && order == s.fields.activeEmitOrder
  }

  predicate Enabled(s: System, a: Action) {
    match a
    case Consume(_, _) => true
    case Emit(order) => MyTurn(s, order) && s.owed[order] != []
    case EmitFails(order) => MyTurn(s, order) && s.owed[order] != []
    case Finish(order) => MyTurn(s, order) && s.owed[order] == []
  }

  /** The bytes that a list of writes sends to one stream. */
  function Payload(writes: seq<Write>, st: Stream): Bytes {
    if writes == [] then []
    else (if writes[0].stream == st then writes[0].payload else []) + Payload(writes[1..], st)
  }

  function Retire(s: System, order: nat): System {
    s.(owed := s.owed - {order}, fields := s.fields.(activeEmitOrder := order + 1))
  }

  function Next(s: System, a: Action): System
    requires Enabled(s, a)
  {
    match a
    case Consume(st, chunk) =>
      var (f, ticket) := Admitted(s.fields, st, chunk);
      s.(fields := f,
         owed := if ticket.None? then s.owed else s.owed[ticket.value.order := ticket.value.writes],
         consumed := s.consumed.With(st, s.consumed.At(st) + chunk))
    case Emit(order) =>
      var w := s.owed[order][0];
      s.(owed := s.owed[order := s.owed[order][1..]], out := s.out.With(w.stream, s.out.At(w.stream) + w.payload))
    case EmitFails(order) =>
      var left := s.owed[order];
      Retire(s, order).(
        lost := PerStream(s.lost.stdout + |Payload(left, Stdout)|, s.lost.stderr + |Payload(left, Stderr)|))
    case Finish(order) => Retire(s, order)
  }

  predicate Legal(actions: seq<Action>, s: System)
  {
    actions == [] || (Enabled(s, actions[0]) && Legal(actions[1..], Next(s, actions[0])))
  }

  function Exec(actions: seq<Action>, s: System): System
    requires Legal(actions, s)
  {
    if actions == [] then s else Exec(actions[1..], Next(s, actions[0]))
  }

  // ---- Conservation ----

  /** The bytes that the tickets from `order` on still owe to one stream, in ticket order. */
  function OwedFrom(s: System, order: nat, st: Stream): Bytes
    decreases s.fields.nextEmitOrder - order
  {
    if order >= s.fields.nextEmitOrder then []
    else (if order in s.owed then Payload(s.owed[order], st) else []) + OwedFrom(s, order + 1, st)
  }

  function Pending(s: System, st: Stream): Bytes {
    OwedFrom(s, s.fields.activeEmitOrder, st)
  }

  /** The part of a chunk that belongs to one stream. */
  function Own(st: Stream, chunk: Bytes, of: Stream): Bytes {
    if of == st then chunk else []
  }

  /** The buffer counts only until the overflow hands it to ticket zero. */
  function Held(s: System, st: Stream): Bytes {
    if s.fields.captureLimited then [] else s.fields.Buffer(st)
  }

  function Accounted(s: System, st: Stream): Bytes
  {
    s.out.At(st) + Pending(s, st) + Held(s, st)
  }

  /** The tickets outstanding are those between the turn and the next number. */
  ghost predicate TicketsInOrder(s: System) {
    && s.fields.activeEmitOrder <= s.fields.nextEmitOrder
    && (forall k: nat :: k in s.owed <==> s.fields.activeEmitOrder <= k < s.fields.nextEmitOrder)
  }

  predicate WithinBounds(s: System) {
    && (!s.fields.captureLimited ==> s.fields.nextEmitOrder == 0 && Stored(s.fields) == s.fields.outputBytes)
    && Stored(s.fields) <= Max(0, s.fields.maxCaptureBytes)
    && (s.fields.captureLimited <==> s.fields.outputBytes > Max(0, s.fields.maxCaptureBytes))
    && s.fields.outputBytes == |s.consumed.stdout| + |s.consumed.stderr|
  }

  ghost predicate Inv(s: System) {
    && TicketsInOrder(s)
    && WithinBounds(s)
    && (forall st: Stream :: |Accounted(s, st)| + s.lost.At(st) == |s.consumed.At(st)|)
    && (forall st: Stream :: s.lost.At(st) == 0 ==> Accounted(s, st) == s.consumed.At(st))
  }

  lemma {:induction false} OwedSame(s: System, t: System, order: nat, st: Stream)
    requires t.fields.nextEmitOrder == s.fields.nextEmitOrder
    requires forall k: nat :: k >= order ==> (k in s.owed <==> k in t.owed) && (k in s.owed ==> s.owed[k] == t.owed[k])
    ensures OwedFrom(t, order, st) == OwedFrom(s, order, st)
    decreases s.fields.nextEmitOrder - order
  {
    if order < s.fields.nextEmitOrder {
      OwedSame(s, t, order + 1, st);
    }
  }

  /** A new ticket's bytes come last. */
  lemma {:induction false} OwedAppend(s: System, t: System, order: nat, writes: seq<Write>, st: Stream)
    requires order <= s.fields.nextEmitOrder && t.fields.nextEmitOrder == s.fields.nextEmitOrder + 1
    requires t.owed == s.owed[s.fields.nextEmitOrder := writes]
    ensures OwedFrom(t, order, st) == OwedFrom(s, order, st) + Payload(writes, st)
    decreases s.fields.nextEmitOrder - order
  {
    if order < s.fields.nextEmitOrder {
      OwedAppend(s, t, order + 1, writes, st);
      assert order in t.owed <==> order in s.owed;
    } else {
      assert OwedFrom(t, order + 1, st) == [];
    }
  }

  lemma StoreKeeps(s: System, st: Stream, chunk: Bytes, of: Stream)
    requires Inv(s) && Admitted(s.fields, st, chunk).1.None?
    ensures var t := Next(s, Consume(st, chunk));
      && t.out == s.out && Pending(t, of) == Pending(s, of)
      && Held(t, of) == Held(s, of) + Own(st, chunk, of)
  {
    OwedSame(s, Next(s, Consume(st, chunk)), s.fields.activeEmitOrder, of);
  }

  lemma TicketShape(s: System, st: Stream, chunk: Bytes)
    requires Admitted(s.fields, st, chunk).1.Some?
    ensures var t, ticket := Next(s, Consume(st, chunk)), Admitted(s.fields, st, chunk).1.value;
      && t.owed == s.owed[s.fields.nextEmitOrder := ticket.writes]
      && t.fields.nextEmitOrder == s.fields.nextEmitOrder + 1
      && t.fields.activeEmitOrder == s.fields.activeEmitOrder
      && t.fields.captureLimited && t.out == s.out
  {
  }

  lemma TicketPending(s: System, st: Stream, chunk: Bytes, of: Stream)
    requires Admitted(s.fields, st, chunk).1.Some? && s.fields.activeEmitOrder <= s.fields.nextEmitOrder
    ensures Pending(Next(s, Consume(st, chunk)), of)
            == Pending(s, of) + Payload(Admitted(s.fields, st, chunk).1.value.writes, of)
  {
    TicketShape(s, st, chunk);
    OwedAppend(s, Next(s, Consume(st, chunk)), s.fields.activeEmitOrder,
               Admitted(s.fields, st, chunk).1.value.writes, of);
  }

  lemma TicketKeeps(s: System, st: Stream, chunk: Bytes, of: Stream)
    requires Inv(s) && Admitted(s.fields, st, chunk).1.Some?
    ensures var t := Next(s, Consume(st, chunk));
      && t.out == s.out && Held(t, of) == []
      && Pending(t, of) == Pending(s, of) + Held(s, of) + Own(st, chunk, of)
  {
    TicketShape(s, st, chunk);
    TicketPending(s, st, chunk, of);
    PayloadOfTicket(s.fields, st, chunk, of);
    Associative(Pending(s, of), Held(s, of), Own(st, chunk, of));
  }

  lemma ConsumeKeeps(s: System, st: Stream, chunk: Bytes, of: Stream)
    requires Inv(s)
    ensures var t := Next(s, Consume(st, chunk));
      Accounted(t, of) == Accounted(s, of) + Own(st, chunk, of)
  {
    Regroup(s.out.At(of), Pending(s, of), Held(s, of), Own(st, chunk, of));
    if Admitted(s.fields, st, chunk).1.None? {
      StoreKeeps(s, st, chunk, of);
    } else {
      TicketKeeps(s, st, chunk, of);
    }
  }

  lemma Regroup(out: Bytes, pending: Bytes, held: Bytes, extra: Bytes)
    ensures out + pending + (held + extra) == (out + pending + held) + extra
    ensures out + (pending + held + extra) + [] == (out + pending + held) + extra
  {
  }

  /** The overflow ticket replays both buffers and then the rest of the chunk. */
  lemma PayloadOfTicket(f: Fields, st: Stream, chunk: Bytes, of: Stream)
    requires Admitted(f, st, chunk).1.Some?
    ensures Payload(Admitted(f, st, chunk).1.value.writes, of) ==
            (if f.captureLimited then [] else f.Buffer(of)) + Own(st, chunk, of)
  {
    if f.captureLimited {
      assert [Write(st, chunk)][1..] == [];
    } else {
      var room := Max(0, f.maxCaptureBytes - Stored(f));
      var full := Extend(f, st, chunk[..room]);
      PayloadOfReplay(full, st, chunk[room..], of);
      OverflowSplit(f, st, chunk, room, of);
    }
  }

  lemma OverflowSplit(f: Fields, st: Stream, chunk: Bytes, room: nat, of: Stream)
    requires room <= |chunk|
    ensures Extend(f, st, chunk[..room]).Buffer(of) + Own(st, chunk[room..], of) == f.Buffer(of) + Own(st, chunk, of)
  {
    if of == st {
      assert Extend(f, st, chunk[..room]).Buffer(of) == f.Buffer(of) + chunk[..room];
      Associative(f.Buffer(of), chunk[..room], chunk[room..]);
      assert chunk == chunk[..room] + chunk[room..];
    }
  }

  lemma PayloadOfReplay(full: Fields, st: Stream, rest: Bytes, of: Stream)
    ensures Payload([Write(Stdout, full.stdout), Write(Stderr, full.stderr), Write(st, rest)], of) ==
            full.Buffer(of) + Own(st, rest, of)
  {
    var a, b, c := Write(Stdout, full.stdout), Write(Stderr, full.stderr), Write(st, rest);
    assert [a, b, c][1..] == [b, c] && [b, c][1..] == [c] && [c][1..] == [];
    assert Payload([c], of) == Own(st, rest, of);
    assert Payload([b, c], of) == Own(Stderr, full.stderr, of) + Payload([c], of);
  }

  /** The written bytes are the first of those pending. */
  lemma EmitPending(s: System, order: nat, of: Stream)
    requires Inv(s) && Enabled(s, Emit(order))
    ensures var w := s.owed[order][0];
      Pending(s, of) == Own(w.stream, w.payload, of) + Pending(Next(s, Emit(order)), of)
  {
    var t := Next(s, Emit(order));
    var w := s.owed[order][0];
    OwedSame(s, t, order + 1, of);
    Associative(Own(w.stream, w.payload, of), Payload(t.owed[order], of), OwedFrom(t, order + 1, of));
  }

  lemma EmitKeeps(s: System, order: nat, of: Stream)
    requires Inv(s) && Enabled(s, Emit(order))
    ensures Accounted(Next(s, Emit(order)), of) == Accounted(s, of)
  {
    var t := Next(s, Emit(order));
    var w := s.owed[order][0];
    EmitPending(s, order, of);
    assert t.out.At(of) == s.out.At(of) + Own(w.stream, w.payload, of);
    assert Held(t, of) == Held(s, of);
    Associative(s.out.At(of), Own(w.stream, w.payload, of), Pending(t, of));
  }

  lemma RetireKeeps(s: System, order: nat, t: System, of: Stream)
    requires Inv(s) && MyTurn(s, order) && t.fields == s.fields.(activeEmitOrder := order + 1)
    requires t.owed == s.owed - {order}
    ensures Pending(s, of) == Payload(s.owed[order], of) + Pending(t, of)
  {
    OwedSame(s, t, order + 1, of);
  }

  /** Retiring a ticket loses what it still owed, and nothing if it owed nothing. */
  lemma RetireMoves(s: System, a: Action, of: Stream)
    requires Inv(s) && Enabled(s, a) && (a.EmitFails? || a.Finish?)
    ensures var t := Next(s, a);
      && t.consumed == s.consumed
      && t.lost.At(of) == s.lost.At(of) + (if a.EmitFails? then |Payload(s.owed[a.order], of)| else 0)
      && |Accounted(t, of)| + t.lost.At(of) == |Accounted(s, of)| + s.lost.At(of)
      && (t.lost.At(of) == s.lost.At(of) ==> Accounted(t, of) == Accounted(s, of))
  {
    var t := Next(s, a);
    var left := Payload(s.owed[a.order], of);
    RetireKeeps(s, a.order, t, of);
    assert t.lost.At(of) == s.lost.At(of) + |left|;
    assert |left| == 0 ==> left + Pending(t, of) == Pending(t, of);
  }

  /** What a step adds to the consumed and to the lost bytes of one stream. */
  lemma StepMovesAccounts(s: System, a: Action, of: Stream)
    requires Inv(s) && Enabled(s, a)
    ensures var t := Next(s, a);
      if a.Consume? then
        t.lost == s.lost && t.consumed.At(of) == s.consumed.At(of) + Own(a.st, a.chunk, of)
        && Accounted(t, of) == Accounted(s, of) + Own(a.st, a.chunk, of)
      else
        t.consumed == s.consumed
        && t.lost.At(of) == s.lost.At(of) + (if a.EmitFails? then |Payload(s.owed[a.order], of)| else 0)
        && |Accounted(t, of)| + t.lost.At(of) == |Accounted(s, of)| + s.lost.At(of)
        && (t.lost.At(of) == s.lost.At(of) ==> Accounted(t, of) == Accounted(s, of))
  {
    match a {
      case Consume(st, chunk) =>
        ConsumeKeeps(s, st, chunk, of);
      case Emit(order) =>
        EmitKeeps(s, order, of);
      case EmitFails(order) =>
        RetireMoves(s, a, of);
      case Finish(order) =>
        RetireMoves(s, a, of);
    }
  }

  lemma StepKeepsAccounts(s: System, a: Action, of: Stream)
    requires Inv(s) && Enabled(s, a)
    ensures var t := Next(s, a);
      && |Accounted(t, of)| + t.lost.At(of) == |t.consumed.At(of)|
      && (t.lost.At(of) == 0 ==> Accounted(t, of) == t.consumed.At(of))
  {
    StepMovesAccounts(s, a, of);
    assert Next(s, a).lost.At(of) >= s.lost.At(of);
  }

  lemma StepKeepsTickets(s: System, a: Action)
    requires TicketsInOrder(s) && Enabled(s, a)
    ensures TicketsInOrder(Next(s, a))
  {
    if a.Consume? && Admitted(s.fields, a.st, a.chunk).1.Some? {
      TicketShape(s, a.st, a.chunk);
    }
  }

  lemma StepKeepsBounds(s: System, a: Action)
    requires WithinBounds(s) && Enabled(s, a)
    ensures WithinBounds(Next(s, a))
  {
  }

  lemma StepKeepsInv(s: System, a: Action)
    requires Inv(s) && Enabled(s, a)
    ensures Inv(Next(s, a))
  {
    var t := Next(s, a);
    StepKeepsTickets(s, a);
    StepKeepsBounds(s, a);
    forall of: Stream
      ensures |Accounted(t, of)| + t.lost.At(of) == |t.consumed.At(of)|
      ensures t.lost.At(of) == 0 ==> Accounted(t, of) == t.consumed.At(of)
    {
      StepKeepsAccounts(s, a, of);
    }
  }

  lemma {:induction false} ExecKeepsInv(actions: seq<Action>, s: System)
    requires Inv(s) && Legal(actions, s)
    ensures Inv(Exec(actions, s))
  {
    if actions != [] {
      StepKeepsInv(s, actions[0]);
      ExecKeepsInv(actions[1..], Next(s, actions[0]));
    }
  }

  /** In every interleaving: written, then waiting, then buffered bytes of a
      stream are its consumed bytes, unless a failing write lost some of them. */
  lemma AccountedUnlessLost(max: int, actions: seq<Action>, st: Stream)
    requires Legal(actions, Begin(max))
    ensures var s := Exec(actions, Begin(max));
      Accounted(s, st) == s.consumed.At(st) <==> s.lost.At(st) == 0
  {
    ExecKeepsInv(actions, Begin(max));
  }

  /** What is left of a ticket ends in a write that writes something. */
  ghost predicate OwesSomething(s: System) {
    forall k: nat :: k in s.owed && s.owed[k] != [] ==> s.owed[k][|s.owed[k]| - 1].payload != []
  }

  lemma StepKeepsOwing(s: System, a: Action)
    requires OwesSomething(s) && Enabled(s, a)
    ensures OwesSomething(Next(s, a))
  {
    if a.Emit? {
      var rest := s.owed[a.order][1..];
      assert rest != [] ==> rest[|rest| - 1] == s.owed[a.order][|s.owed[a.order]| - 1];
    }
  }

  lemma {:induction false} LastWriteCounts(writes: seq<Write>)
    requires writes != []
    ensures |Payload(writes, Stdout)| + |Payload(writes, Stderr)| >= |writes[|writes| - 1].payload|
  {
    if |writes| > 1 {
      LastWriteCounts(writes[1..]);
    }
  }

  function LostBytes(s: System): nat {
    s.lost.stdout + s.lost.stderr
  }

  /** A step loses bytes if and only if it is a failing write. */
  lemma OnlyFailuresLose(s: System, a: Action)
    requires Inv(s) && OwesSomething(s) && Enabled(s, a)
    ensures if a.EmitFails? then LostBytes(Next(s, a)) > LostBytes(s) else LostBytes(Next(s, a)) == LostBytes(s)
  {
    StepMovesAccounts(s, a, Stdout);
    StepMovesAccounts(s, a, Stderr);
    if a.EmitFails? {
      LastWriteCounts(s.owed[a.order]);
    }
  }

  predicate SomeWriteFails(actions: seq<Action>) {
    exists i :: 0 <= i < |actions| && actions[i].EmitFails?
  }

  lemma {:induction false} LossesAreFailures(actions: seq<Action>, s: System)
    requires Inv(s) && OwesSomething(s) && Legal(actions, s)
    ensures LostBytes(Exec(actions, s)) >= LostBytes(s)
    ensures LostBytes(Exec(actions, s)) > LostBytes(s) <==> SomeWriteFails(actions)
  {
    if actions != [] {
      var a, rest := actions[0], actions[1..];
      StepKeepsInv(s, a);
      StepKeepsOwing(s, a);
      OnlyFailuresLose(s, a);
      LossesAreFailures(rest, Next(s, a));
      assert SomeWriteFails(actions) <==> a.EmitFails? || SomeWriteFails(rest) by {
        if SomeWriteFails(rest) {
          var i :| 0 <= i < |rest| && rest[i].EmitFails?;
          assert actions[i + 1].EmitFails?;
        }
        if SomeWriteFails(actions) {
          var i :| 0 <= i < |actions| && actions[i].EmitFails?;
          assert i > 0 ==> rest[i - 1].EmitFails?;
        }
      }
    }
  }

  /** In every interleaving: for both streams the written, then waiting, then
      buffered bytes are exactly the consumed bytes, if and only if no write of
      the run failed. */
  lemma Conservation(max: int, actions: seq<Action>)
    requires Legal(actions, Begin(max))
    ensures var s := Exec(actions, Begin(max));
      (forall st: Stream :: Accounted(s, st) == s.consumed.At(st)) <==> !SomeWriteFails(actions)
  {
    var s := Exec(actions, Begin(max));
    LossesAreFailures(actions, Begin(max));
    AccountedUnlessLost(max, actions, Stdout);
    AccountedUnlessLost(max, actions, Stderr);
    assert s.lost.At(Stdout) == s.lost.stdout && s.lost.At(Stderr) == s.lost.stderr;
    if LostBytes(s) == 0 {
      forall st: Stream ensures Accounted(s, st) == s.consumed.At(st) {
        assert st == Stdout || st == Stderr;
      }
    }
  }

  /** The store never exceeds its bound, and the capture overflows exactly when more was produced. */
  lemma StoreIsBounded(max: int, actions: seq<Action>)
    requires Legal(actions, Begin(max))
    ensures var s := Exec(actions, Begin(max));
      && Stored(s.fields) <= Max(0, max)
      && (s.fields.captureLimited <==> |s.consumed.stdout| + |s.consumed.stderr| > Max(0, max))
  {
    ExecKeepsInv(actions, Begin(max));
    ExecKeepsMax(actions, Begin(max));
  }

  /** The buffers hold the first bytes of their streams, and after an overflow
      the store is full. */
  predicate StoresFirst(s: System) {
    && s.fields.stdout <= s.consumed.stdout && s.fields.stderr <= s.consumed.stderr
    && (s.fields.captureLimited ==> Stored(s.fields) == Max(0, s.fields.maxCaptureBytes))
    && (!s.fields.captureLimited ==> s.fields.stdout == s.consumed.stdout && s.fields.stderr == s.consumed.stderr)
  }

  lemma PrefixGrows(a: Bytes, b: Bytes, more: Bytes)
    requires a <= b
    ensures a <= b + more
  {
  }

  lemma FirstPart(a: Bytes, chunk: Bytes, n: nat)
    requires n <= |chunk|
    ensures a + chunk[..n] <= a + chunk
  {
  }

  lemma {:induction false} LimitedStoresFirst(s: System, st: Stream, chunk: Bytes)
    requires StoresFirst(s) && s.fields.captureLimited
    ensures StoresFirst(Next(s, Consume(st, chunk)))
  {
    PrefixGrows(s.fields.stdout, s.consumed.stdout, chunk);
    PrefixGrows(s.fields.stderr, s.consumed.stderr, chunk);
  }

  lemma {:induction false} OverflowStoresFirst(s: System, st: Stream, chunk: Bytes, room: nat)
    requires StoresFirst(s) && WithinBounds(s) && !s.fields.captureLimited
    requires room == Max(0, s.fields.maxCaptureBytes - Stored(s.fields)) && |chunk| > room
    ensures StoresFirst(Next(s, Consume(st, chunk)))
  {
    FirstPart(s.consumed.At(st), chunk, room);
    var after := Next(s, Consume(st, chunk)).fields;
    assert after.stdout == if st.Stdout? then s.fields.stdout + chunk[..room] else s.fields.stdout;
    assert after.stderr == if st.Stdout? then s.fields.stderr else s.fields.stderr + chunk[..room];
  }

  lemma {:induction false} ConsumeStoresFirst(s: System, st: Stream, chunk: Bytes)
    requires StoresFirst(s) && WithinBounds(s)
    ensures StoresFirst(Next(s, Consume(st, chunk)))
  {
    var room := Max(0, s.fields.maxCaptureBytes - Stored(s.fields));
    if s.fields.captureLimited {
      LimitedStoresFirst(s, st, chunk);
    } else if |chunk| > room {
      OverflowStoresFirst(s, st, chunk, room);
    }
  }

  lemma {:induction false} StepStoresFirst(s: System, a: Action)
    requires StoresFirst(s) && WithinBounds(s) && Enabled(s, a)
    ensures StoresFirst(Next(s, a))
  {
    if a.Consume? {
      ConsumeStoresFirst(s, a.st, a.chunk);
    }
  }

  lemma {:induction false} ExecStoresFirst(actions: seq<Action>, s: System)
    requires Legal(actions, s) && StoresFirst(s) && WithinBounds(s)
    ensures StoresFirst(Exec(actions, s))
  {
    if actions != [] {
      StepStoresFirst(s, actions[0]);
      StepKeepsBounds(s, actions[0]);
      ExecStoresFirst(actions[1..], Next(s, actions[0]));
    }
  }

  /** In every interleaving the store holds everything until it overflows, and
      from then on exactly as many of the first bytes as it has room for. */
  lemma {:induction false} StoreIsFirstBytes(max: int, actions: seq<Action>)
    requires Legal(actions, Begin(max))
    ensures StoresFirst(Exec(actions, Begin(max)))
  {
    ExecStoresFirst(actions, Begin(max));
  }

  lemma {:induction false} ExecKeepsMax(actions: seq<Action>, s: System)
    requires Legal(actions, s)
    ensures Exec(actions, s).fields.maxCaptureBytes == s.fields.maxCaptureBytes
  {
    if actions != [] {
      ExecKeepsMax(actions[1..], Next(s, actions[0]));
    }
  }

  /** While any ticket is outstanding its next holder can act, and nobody else can emit. */
  lemma SomeHolderCanEmit(max: int, actions: seq<Action>, order: nat)
    requires Legal(actions, Begin(max))
    requires order in Exec(actions, Begin(max)).owed
    ensures var s := Exec(actions, Begin(max));
      var turn := s.fields.activeEmitOrder;
      && turn <= order
      && (Enabled(s, Emit(turn)) || Enabled(s, Finish(turn)))
      && (order != turn ==> !Enabled(s, Emit(order)) && !Enabled(s, EmitFails(order)) && !Enabled(s, Finish(order)))
  {
    ExecKeepsInv(actions, Begin(max));
    var s := Exec(actions, Begin(max));
    assert s.fields.activeEmitOrder in s.owed;
  }

  // ---- Draining ----

  /** The emission steps still to come. */
  function StepsLeft(s: System, order: nat): nat
    decreases s.fields.nextEmitOrder - order
  {
    if order >= s.fields.nextEmitOrder then 0
    else (if order in s.owed then |s.owed[order]| + 1 else 0) + StepsLeft(s, order + 1)
  }

  lemma {:induction false} StepsSame(s: System, t: System, order: nat)
    requires t.fields.nextEmitOrder == s.fields.nextEmitOrder
    requires forall k: nat :: k >= order ==> (k in s.owed <==> k in t.owed) && (k in s.owed ==> s.owed[k] == t.owed[k])
    ensures StepsLeft(t, order) == StepsLeft(s, order)
    decreases s.fields.nextEmitOrder - order
  {
    if order < s.fields.nextEmitOrder {
      StepsSame(s, t, order + 1);
    }
  }

  /** Once consuming stops, the holders can finish, and when nothing failed an
      overflowed capture has then replayed every consumed byte in order. */
  lemma {:induction false} Drains(s: System) returns (actions: seq<Action>)
    requires Inv(s)
    ensures forall i :: 0 <= i < |actions| ==> actions[i].Emit? || actions[i].Finish?
    ensures Legal(actions, s)
    ensures Exec(actions, s).owed == map[]
    ensures Exec(actions, s).consumed == s.consumed
    ensures forall st: Stream ::
              s.fields.captureLimited && s.lost.At(st) == 0 ==> Exec(actions, s).out.At(st) == s.consumed.At(st)
    decreases StepsLeft(s, s.fields.activeEmitOrder)
  {
    var turn := s.fields.activeEmitOrder;
    if turn == s.fields.nextEmitOrder {
      assert s.owed == map[];
      return [];
    }
    assert turn in s.owed;
    var a := if s.owed[turn] == [] then Finish(turn) else Emit(turn);
    var t := Next(s, a);
    StepKeepsInv(s, a);
    StepsSame(s, t, turn + 1);
    var rest := Drains(t);
    actions := [a] + rest;
    assert actions[1..] == rest;
  }
}
