/** The failure nudge's state machine: one transition per classified hook
    payload over the persisted episodes, event ids and counters. */
module FailureNudge {
  import opened Basics
  import opened Tally = Counters
  import opened RecordTable

  const STATE_TTL_SECONDS: real := 1800.0
  const MAX_EPISODES: nat := 256
  const MAX_EVENT_IDS: nat := 512
  const MAX_COUNTER: nat := 0x7FFF_FFFF_FFFF_FFFF

  datatype Protocol = Cgw1 | LegacyV0 | Direct | Foreign
  datatype Outcome = Failure | Success
  datatype Phase = Tracking | Emitted
  datatype HookName = PostToolUse | PostToolUseFailure

  datatype EpisodeData = EpisodeData(
    session: Digest, protocol: Protocol, command: Digest, phase: Phase, count: nat)
  datatype EventData = EventData(episode: Digest, outcome: Outcome)

  type Episode = Record<EpisodeData>
  type Event = Record<EventData>

  datatype Counter =
    | Dedupe | Conflict
    | EpisodeExpired | EventExpired | EpisodeEvicted | EventEvicted
    | TrackingStarted | NudgeEmitted | FailureAfterEmit | SuccessReset
    | Interrupted | MissingExit | AmbiguousExit
    | MalformedEvent | MissingSession | MissingToolId

  /** The counters that a rejected payload can move. */
  type Reason = c: Counter |
    c in {Interrupted, MissingExit, AmbiguousExit, MalformedEvent, MissingSession, MissingToolId}
    witness Interrupted

  type Counters = map<Counter, nat>

  datatype State = State(episodes: seq<Episode>, events: seq<Event>, counters: Counters)

  const EMPTY_STATE := State([], [], map[])

  /** A valid terminal event; `episodeKey` is the digest of the other identity fields. */
  datatype TerminalEvent = TerminalEvent(
    hook: HookName, outcome: Outcome, toolId: Digest,
    session: Digest, protocol: Protocol, command: Digest, episodeKey: Digest)

  /** What classification makes of a payload: not ours, counted and dropped, or an event. */
  datatype Classified = Silent | Rejected(reason: Reason) | Accepted(event: TerminalEvent)

  datatype StateError = InvalidState | InvalidTimestamp

  datatype Step = Step(payload: Classified, now: real)

  datatype Transition = Transition(state: State, nudge: Option<HookName>)

  // ---- Validation ----

  predicate ValidEpisode(r: Episode) {
    && r.stamp >= 0.0
    && 1 <= r.data.count <= MAX_COUNTER
    && (r.data.phase.Tracking? ==> r.data.count == 1)
    && (r.data.phase.Emitted? ==> r.data.count >= 2)
  }

  predicate ValidEvent(r: Event) {
    r.stamp >= 0.0
  }

  predicate Valid(s: State) {
    && (forall i :: 0 <= i < |s.episodes| ==> ValidEpisode(s.episodes[i]))
    && (forall i :: 0 <= i < |s.events| ==> ValidEvent(s.events[i]))
    && DistinctIds(s.episodes)
    && DistinctIds(s.events)
    && (forall n :: n in s.counters ==> s.counters[n] <= MAX_COUNTER)
  }

  /** Accepts exactly the valid values; an accepted one loses its zero counters
      and nothing else. */
  function ValidateState(s: State): (r: Result<State, StateError>)
    ensures r.Ok? <==> Valid(s)
    ensures r.Ok? ==> Valid(r.value) && NoZeroCounter(r.value)
    ensures r.Ok? ==> r.value.episodes == s.episodes && r.value.events == s.events
    ensures r.Ok? ==> forall n: Counter :: Get(r.value.counters, n) == Get(s.counters, n)
  {
    if Valid(s) then
      Ok(s.(counters := map n | n in s.counters && s.counters[n] != 0 :: s.counters[n]))
    else Err(InvalidState)
  }

  predicate NoZeroCounter(s: State) {
    forall n :: n in s.counters ==> s.counters[n] != 0
  }

  predicate Bounded(s: State) {
    |s.episodes| <= MAX_EPISODES && |s.events| <= MAX_EVENT_IDS
  }

  // ---- Specification of one transition ----

  function Bump(c: Counters, name: Counter, amount: int): Counters {
    if amount <= 0 then c else c[name := Min(MAX_COUNTER, Get(c, name) + amount)]
  }

  function Count(s: State, name: Counter): State {
    s.(counters := Bump(s.counters, name, 1))
  }

  function Alive<D(!new)>(rs: seq<Record<D>>, now: real): seq<Record<D>> {
    Filter(rs, (r: Record<D>) => now - r.stamp <= STATE_TTL_SECONDS)
  }

  function Pruned(s: State, now: real): State {
    var episodes := Alive(s.episodes, now);
    var events := Alive(s.events, now);
    var counters := Bump(s.counters, EpisodeExpired, |s.episodes| - |episodes|);
    State(episodes, events, Bump(counters, EventExpired, |s.events| - |events|))
  }

  function Evicted(s: State): State {
    var episodes := EvictOldest(s.episodes, MAX_EPISODES);
    var events := EvictOldest(s.events, MAX_EVENT_IDS);
    var counters := Bump(s.counters, EpisodeEvicted, |s.episodes| - MAX_EPISODES);
    State(episodes, events, Bump(counters, EventEvicted, |s.events| - MAX_EVENT_IDS))
  }

  /** The tables as the event lookup sees them. */
  function Tidy(s: State, now: real): State {
    Evicted(Pruned(s, now))
  }

  function NewEvent(e: TerminalEvent, now: real): Event {
    Record(e.toolId, now, EventData(e.episodeKey, e.outcome))
  }

  function NewEpisode(e: TerminalEvent, now: real): Episode {
    Record(e.episodeKey, now, EpisodeData(e.session, e.protocol, e.command, Tracking, 1))
  }

  /** The effect of a fresh event on the episode table, before the final eviction. */
  function Advance(s: State, e: TerminalEvent, now: real): Transition {
    var at := Find(s.episodes, e.episodeKey);
    if e.outcome.Success? then
      if at.None? then Transition(s, None)
      else
        var episodes := s.episodes[..at.value] + s.episodes[at.value + 1..];
        Transition(Count(s.(episodes := episodes), SuccessReset), None)
    else if at.None? then
      Transition(Count(s.(episodes := s.episodes + [NewEpisode(e, now)]), TrackingStarted), None)
    else
      var r := s.episodes[at.value];
      if r.data.phase.Tracking? then
        var r' := r.(stamp := now, data := r.data.(phase := Emitted, count := 2));
        Transition(Count(s.(episodes := s.episodes[at.value := r']), NudgeEmitted), Some(e.hook))
      else
        var r' := r.(stamp := now, data := r.data.(count := Min(MAX_COUNTER, r.data.count + 1)));
        Transition(Count(s.(episodes := s.episodes[at.value := r']), FailureAfterEmit), None)
  }

  /** What a payload does to the tidied state. */
  function React(tidy: State, step: Step): Transition {
    match step.payload
    case Silent => Transition(tidy, None)
    case Rejected(reason) => Transition(Count(tidy, reason), None)
    case Accepted(e) =>
      var seen := Find(tidy.events, e.toolId);
      if seen.Some? then
        var same := tidy.events[seen.value].data == EventData(e.episodeKey, e.outcome);
        Transition(Count(tidy, if same then Dedupe else Conflict), None)
      else
        var t := Advance(tidy.(events := tidy.events + [NewEvent(e, step.now)]), e, step.now);
        Transition(Evicted(t.state), t.nudge)
  }

  /** One transition from a state that validation has accepted. */
  function Apply(s: State, step: Step): Transition {
    React(Tidy(s, step.now), step)
  }

  // ---- The stateful form ----

  /** The dictionary that a transition works on. */
  class NudgeState {
    var episodes: seq<Episode>
    var events: seq<Event>
    var counters: Counters

    function View(): State
      reads this
    {
      State(episodes, events, counters)
    }

    constructor (s: State)
      ensures View() == s
    {
      episodes, events, counters := s.episodes, s.events, s.counters;
    }

    method IncrementCounter(name: Counter, amount: int := 1)
      modifies this`counters
      ensures counters == Bump(old(counters), name, amount)
    {
      if amount <= 0 {
        return;
      }
      counters := counters[name := Min(MAX_COUNTER, Get(counters, name) + amount)];
    }

    method PruneExpired(now: real)
      modifies this
      ensures View() == Pruned(old(View()), now)
      ensures forall r :: r in episodes <==> r in old(episodes) && now <= r.stamp + 1800.0
      ensures forall r :: r in events <==> r in old(events) && now <= r.stamp + 1800.0
    {
      var liveEpisodes := Alive(episodes, now);
      var liveEvents := Alive(events, now);
      IncrementCounter(EpisodeExpired, |episodes| - |liveEpisodes|);
      IncrementCounter(EventExpired, |events| - |liveEvents|);
      episodes, events := liveEpisodes, liveEvents;
    }

    method EnforceLru()
      modifies this
      ensures View() == Evicted(old(View()))
    {
      if |episodes| > MAX_EPISODES {
        var evict := |episodes| - MAX_EPISODES;
        episodes := EvictOldest(episodes, MAX_EPISODES);
        IncrementCounter(EpisodeEvicted, evict);
      }
      if |events| > MAX_EVENT_IDS {
        var evict := |events| - MAX_EVENT_IDS;
        events := EvictOldest(events, MAX_EVENT_IDS);
        IncrementCounter(EventEvicted, evict);
      }
    }

    method ObserveFresh(e: TerminalEvent, now: real) returns (nudge: Option<HookName>)
      modifies this
      ensures Transition(View(), nudge) == Advance(old(View()), e, now)
    {
      nudge := None;
      var at := Find(episodes, e.episodeKey);
      if e.outcome.Success? {
        if at.Some? {
          episodes := episodes[..at.value] + episodes[at.value + 1..];
          IncrementCounter(SuccessReset);
        }
      } else if at.None? {
        episodes := episodes + [NewEpisode(e, now)];
        IncrementCounter(TrackingStarted);
      } else {
        var r := episodes[at.value];
        if r.data.phase.Tracking? {
          episodes := episodes[at.value := r.(stamp := now, data := r.data.(phase := Emitted, count := 2))];
          IncrementCounter(NudgeEmitted);
          nudge := Some(e.hook);
        } else {
          var count := Min(MAX_COUNTER, r.data.count + 1);
          episodes := episodes[at.value := r.(stamp := now, data := r.data.(count := count))];
          IncrementCounter(FailureAfterEmit);
        }
      }
    }
  }

  /** The public transition: validate, tidy, look the event up, advance, tidy,
      validate again. It never rejects what it computed itself. */
  method ApplyPayload(value: State, payload: Classified, now: real)
    returns (r: Result<Transition, StateError>)
    ensures !Valid(value) ==> r == Err(InvalidState)
    ensures Valid(value) && now < 0.0 ==> r == Err(InvalidTimestamp)
    ensures Valid(value) && now >= 0.0 ==>
              r == Ok(Apply(ValidateState(value).value, Step(payload, now)))
  {
    var checked := ValidateState(value);
    if checked.Err? {
      return Err(checked.error);
    }
    if now < 0.0 {
      return Err(InvalidTimestamp);
    }
    var state := new NudgeState(checked.value);
    state.PruneExpired(now);
    state.EnforceLru();
    match payload {
      case Silent =>
        return Ok(Transition(state.View(), None));
      case Rejected(reason) =>
        state.IncrementCounter(reason);
        return Ok(Transition(state.View(), None));
      case Accepted(e) =>
        var seen := Find(state.events, e.toolId);
        if seen.Some? {
          if state.events[seen.value].data == EventData(e.episodeKey, e.outcome) {
            state.IncrementCounter(Dedupe);
          } else {
            state.IncrementCounter(Conflict);
          }
          return Ok(Transition(state.View(), None));
        }
        state.events := state.events + [NewEvent(e, now)];
        var nudge := state.ObserveFresh(e, now);
        state.EnforceLru();
        ApplyKeepsValid(checked.value, Step(payload, now));
        var final := ValidateState(state.View());
        return Ok(Transition(final.value, nudge));
    }
  }

  // ---- Every transition keeps the state valid and bounded ----

  lemma BumpKeeps(c: Counters, name: Counter, amount: int)
    requires forall n :: n in c ==> c[n] <= MAX_COUNTER
    ensures forall n :: n in Bump(c, name, amount) ==> Bump(c, name, amount)[n] <= MAX_COUNTER
    ensures (forall n :: n in c ==> c[n] != 0) ==> forall n :: n in Bump(c, name, amount) ==> Bump(c, name, amount)[n] != 0
  {
  }

  lemma EvictedEpisodesKeep(s: State, kept: seq<Episode>)
    requires Valid(s) && kept == EvictOldest(s.episodes, MAX_EPISODES)
    ensures DistinctIds(kept) && |kept| <= MAX_EPISODES
    ensures forall i :: 0 <= i < |kept| ==> ValidEpisode(kept[i])
  {
    EvictOldestKeepsYoungest(s.episodes, MAX_EPISODES);
    forall i | 0 <= i < |kept| ensures ValidEpisode(kept[i]) {
      assert kept[i] in s.episodes;
    }
  }

  lemma EvictedEventsKeep(s: State, kept: seq<Event>)
    requires Valid(s) && kept == EvictOldest(s.events, MAX_EVENT_IDS)
    ensures DistinctIds(kept) && |kept| <= MAX_EVENT_IDS
    ensures forall i :: 0 <= i < |kept| ==> ValidEvent(kept[i])
  {
    EvictOldestKeepsYoungest(s.events, MAX_EVENT_IDS);
    forall i | 0 <= i < |kept| ensures ValidEvent(kept[i]) {
      assert kept[i] in s.events;
    }
  }

  lemma EvictedKeeps(s: State)
    requires Valid(s)
    ensures Valid(Evicted(s)) && Bounded(Evicted(s))
    ensures NoZeroCounter(s) ==> NoZeroCounter(Evicted(s))
  {
    var counters := Bump(s.counters, EpisodeEvicted, |s.episodes| - MAX_EPISODES);
    BumpKeeps(s.counters, EpisodeEvicted, |s.episodes| - MAX_EPISODES);
    BumpKeeps(counters, EventEvicted, |s.events| - MAX_EVENT_IDS);
    EvictedEpisodesKeep(s, Evicted(s).episodes);
    EvictedEventsKeep(s, Evicted(s).events);
  }

  lemma PrunedKeeps(s: State, now: real)
    requires Valid(s)
    ensures Valid(Pruned(s, now))
    ensures NoZeroCounter(s) ==> NoZeroCounter(Pruned(s, now))
  {
    var t := Pruned(s, now);
    FilterDistinct(s.episodes, (r: Episode) => now - r.stamp <= STATE_TTL_SECONDS);
    FilterDistinct(s.events, (r: Event) => now - r.stamp <= STATE_TTL_SECONDS);
    forall i | 0 <= i < |t.episodes| ensures ValidEpisode(t.episodes[i]) {
      assert t.episodes[i] in s.episodes;
    }
    forall i | 0 <= i < |t.events| ensures ValidEvent(t.events[i]) {
      assert t.events[i] in s.events;
    }
  }

  lemma AbsentKey(episodes: seq<Episode>, key: Digest)
    requires Find(episodes, key).None?
    ensures forall i :: 0 <= i < |episodes| ==> episodes[i].id != key
  {
    forall i | 0 <= i < |episodes| ensures episodes[i].id != key {
      assert episodes[i].id in Ids(episodes);
    }
  }

  lemma AdvanceKeepsEpisodes(s: State, e: TerminalEvent, now: real)
    requires Valid(s) && now >= 0.0
    ensures var t := Advance(s, e, now).state.episodes;
      (forall i :: 0 <= i < |t| ==> ValidEpisode(t[i])) && DistinctIds(t)
  {
    if Find(s.episodes, e.episodeKey).None? {
      AbsentKey(s.episodes, e.episodeKey);
    }
  }

  lemma AdvanceKeeps(s: State, e: TerminalEvent, now: real)
    requires Valid(s) && now >= 0.0
    ensures Valid(Advance(s, e, now).state)
    ensures NoZeroCounter(s) ==> NoZeroCounter(Advance(s, e, now).state)
    ensures Advance(s, e, now).state.events == s.events
  {
    AdvanceKeepsEpisodes(s, e, now);
    forall name: Counter
      ensures forall n :: n in Bump(s.counters, name, 1) ==> Bump(s.counters, name, 1)[n] <= MAX_COUNTER
    {
      BumpKeeps(s.counters, name, 1);
    }
  }

  lemma ValidateFixes(s: State)
    requires Valid(s) && NoZeroCounter(s)
    ensures ValidateState(s) == Ok(s)
  {
    assert s.counters == map n | n in s.counters && s.counters[n] != 0 :: s.counters[n];
  }

  lemma TidyKeeps(s: State, now: real)
    requires Valid(s)
    ensures Valid(Tidy(s, now)) && Bounded(Tidy(s, now))
    ensures NoZeroCounter(s) ==> NoZeroCounter(Tidy(s, now))
  {
    PrunedKeeps(s, now);
    EvictedKeeps(Pruned(s, now));
  }

  lemma AppendEventKeeps(s: State, e: TerminalEvent, now: real)
    requires Valid(s) && now >= 0.0 && Find(s.events, e.toolId).None?
    ensures Valid(s.(events := s.events + [NewEvent(e, now)]))
  {
    forall i | 0 <= i < |s.events| ensures s.events[i].id != e.toolId {
      assert s.events[i].id in Ids(s.events);
    }
  }

  lemma FreshKeeps(tidy: State, e: TerminalEvent, now: real)
    requires Valid(tidy) && now >= 0.0 && Find(tidy.events, e.toolId).None?
    ensures var t := Evicted(Advance(tidy.(events := tidy.events + [NewEvent(e, now)]), e, now).state);
      Valid(t) && Bounded(t) && (NoZeroCounter(tidy) ==> NoZeroCounter(t))
  {
    var grown := tidy.(events := tidy.events + [NewEvent(e, now)]);
    AppendEventKeeps(tidy, e, now);
    AdvanceKeeps(grown, e, now);
    EvictedKeeps(Advance(grown, e, now).state);
  }

  lemma ReactKeeps(tidy: State, step: Step)
    requires Valid(tidy) && Bounded(tidy) && NoZeroCounter(tidy) && step.now >= 0.0
    ensures var t := React(tidy, step).state; Valid(t) && Bounded(t) && NoZeroCounter(t)
  {
    if step.payload.Accepted? && Find(tidy.events, step.payload.event.toolId).None? {
      FreshKeeps(tidy, step.payload.event, step.now);
    }
  }

  /** Validation accepts the state of every transition, and both tables are
      within their bounds, even when the loaded tables were not. */
  lemma ApplyKeepsValid(s: State, step: Step)
    requires Valid(s) && NoZeroCounter(s) && step.now >= 0.0
    ensures var t := Apply(s, step).state;
      Valid(t) && NoZeroCounter(t) && Bounded(t) && ValidateState(t) == Ok(t)
  {
    TidyKeeps(s, step.now);
    ReactKeeps(Tidy(s, step.now), step);
    ValidateFixes(Apply(s, step).state);
  }

  // ---- Runs ----

  predicate ValidSteps(steps: seq<Step>) {
    forall i :: 0 <= i < |steps| ==> steps[i].now >= 0.0
  }

  /** The state after a whole run from the empty state. */
  function Run(steps: seq<Step>): State {
    if steps == [] then EMPTY_STATE
    else Apply(Run(steps[..|steps| - 1]), steps[|steps| - 1]).state
  }

  lemma RunExtends(steps: seq<Step>, m: nat)
    requires m < |steps|
    ensures Run(steps[..m + 1]) == Apply(Run(steps[..m]), steps[m]).state
  {
    assert steps[..m + 1][..m] == steps[..m];
  }

  lemma {:induction false} RunIsValid(steps: seq<Step>)
    requires ValidSteps(steps)
    ensures Valid(Run(steps)) && NoZeroCounter(Run(steps)) && Bounded(Run(steps))
    ensures ValidateState(Run(steps)) == Ok(Run(steps))
  {
    if steps != [] {
      RunIsValid(steps[..|steps| - 1]);
      ApplyKeepsValid(Run(steps[..|steps| - 1]), steps[|steps| - 1]);
    }
    ValidateFixes(Run(steps));
  }
}
