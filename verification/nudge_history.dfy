/** The bounded tables refine an unbounded history: while nothing has expired
    or been evicted, a nudge is exactly the second failure in a row. */
module NudgeHistory {
  import opened Basics
  import opened Tally = Counters
  import opened RecordTable
  import opened FailureNudge

  // ---- The unbounded history ----

  predicate Seen(h: seq<TerminalEvent>, toolId: Digest) {
    exists i :: 0 <= i < |h| && h[i].toolId == toolId
  }

  /** The events with a new tool id, in arrival order. */
  function History(steps: seq<Step>): seq<TerminalEvent> {
    if steps == [] then []
    else Grow(History(steps[..|steps| - 1]), steps[|steps| - 1].payload)
  }

  function Grow(h: seq<TerminalEvent>, payload: Classified): seq<TerminalEvent> {
    if payload.Accepted? && !Seen(h, payload.event.toolId) then h + [payload.event] else h
  }

  predicate SameCommand(a: TerminalEvent, b: TerminalEvent) {
    a.session == b.session && a.protocol == b.protocol && a.command == b.command
  }

  /** Failures of the command since the start or its last success. */
  function Streak(h: seq<TerminalEvent>, e: TerminalEvent): nat {
    if h == [] then 0
    else
      var before := Streak(h[..|h| - 1], e);
      var last := h[|h| - 1];
      if !SameCommand(last, e) then before
      else if last.outcome.Success? then 0
      else before + 1
  }

  /** The episode keys of these events tell commands apart. */
  predicate Faithful(h: seq<TerminalEvent>, e: TerminalEvent) {
    forall i :: 0 <= i < |h| ==> (h[i].episodeKey == e.episodeKey <==> SameCommand(h[i], e))
  }

  // ---- The same count by episode key, which is what the table stores ----

  function KeyStreak(h: seq<TerminalEvent>, key: Digest): nat {
    if h == [] then 0
    else
      var before := KeyStreak(h[..|h| - 1], key);
      var last := h[|h| - 1];
      if last.episodeKey != key then before
      else if last.outcome.Success? then 0
      else before + 1
  }

  lemma {:induction false} StreakByKey(h: seq<TerminalEvent>, e: TerminalEvent)
    requires Faithful(h, e)
    ensures KeyStreak(h, e.episodeKey) == Streak(h, e)
  {
    if h != [] {
      StreakByKey(h[..|h| - 1], e);
    }
  }

  /** The tables hold exactly what the history says. */
  ghost predicate Mirrors(s: State, h: seq<TerminalEvent>) {
    && (forall d :: d in Ids(s.events) <==> Seen(h, d))
    && (forall i :: 0 <= i < |s.episodes| ==>
          var n := KeyStreak(h, s.episodes[i].id);
          n > 0 && s.episodes[i].data.count == Min(MAX_COUNTER, n)
          && (s.episodes[i].data.phase.Tracking? <==> n == 1))
    && (forall d :: KeyStreak(h, d) > 0 ==> d in Ids(s.episodes))
  }

  // ---- Runs that lose nothing ----

  predicate LossFree(c: Counters) {
    && Get(c, EpisodeExpired) == 0 && Get(c, EventExpired) == 0
    && Get(c, EpisodeEvicted) == 0 && Get(c, EventEvicted) == 0
  }

  lemma TwoBumpsLossFree(c: Counters, n1: Counter, a1: nat, n2: Counter, a2: nat)
    requires n1 != n2 && {n1, n2} <= {EpisodeExpired, EventExpired, EpisodeEvicted, EventEvicted}
    requires LossFree(Bump(Bump(c, n1, a1), n2, a2))
    ensures a1 == 0 && a2 == 0 && LossFree(c)
  {
    var c1 := Bump(c, n1, a1);
    var c2 := Bump(c1, n2, a2);
    assert Get(c2, n2) == 0 && Get(c2, n1) == Get(c1, n1) == 0;
  }

  lemma QuietPrune(s: State, now: real)
    requires LossFree(Pruned(s, now).counters)
    ensures Pruned(s, now) == s
  {
    TwoBumpsLossFree(s.counters, EpisodeExpired, |s.episodes| - |Alive(s.episodes, now)|,
                     EventExpired, |s.events| - |Alive(s.events, now)|);
    FilterAll(s.episodes, (r: Episode) => now - r.stamp <= STATE_TTL_SECONDS);
    FilterAll(s.events, (r: Event) => now - r.stamp <= STATE_TTL_SECONDS);
  }

  lemma QuietEvict(s: State)
    requires LossFree(Evicted(s).counters)
    ensures Evicted(s) == s
  {
    TwoBumpsLossFree(s.counters, EpisodeEvicted, Max(0, |s.episodes| - MAX_EPISODES),
                     EventEvicted, Max(0, |s.events| - MAX_EVENT_IDS));
  }

  lemma QuietTidy(s: State, now: real)
    requires LossFree(Tidy(s, now).counters)
    ensures Tidy(s, now) == s
  {
    QuietEvict(Pruned(s, now));
    QuietPrune(s, now);
  }

  lemma CountLossFree(s: State, name: Counter)
    requires LossFree(Count(s, name).counters)
    ensures LossFree(s.counters)
  {
    var c := Count(s, name).counters;
    assert forall n: Counter :: n != name ==> Get(c, n) == Get(s.counters, n);
    assert Get(c, name) > 0;
  }

  lemma QuietAdvance(s: State, e: TerminalEvent, now: real)
    requires LossFree(Advance(s, e, now).state.counters)
    ensures LossFree(s.counters)
  {
    var at := Find(s.episodes, e.episodeKey);
    if at.Some? || e.outcome.Failure? {
      var name :=
        if e.outcome.Success? then SuccessReset
        else if at.None? then TrackingStarted
        else if s.episodes[at.value].data.phase.Tracking? then NudgeEmitted
        else FailureAfterEmit;
      CountLossFree(s, name);
    }
  }

  // ---- One step ----

  lemma KeyStreakAppend(h: seq<TerminalEvent>, e: TerminalEvent, key: Digest)
    ensures KeyStreak(h + [e], key) ==
            if e.episodeKey != key then KeyStreak(h, key)
            else if e.outcome.Success? then 0 else KeyStreak(h, key) + 1
  {
    assert (h + [e])[..|h|] == h;
  }

  lemma AppendMirrorsEvents(s: State, h: seq<TerminalEvent>, e: TerminalEvent, now: real)
    requires Mirrors(s, h)
    ensures forall d :: d in Ids(s.events + [NewEvent(e, now)]) <==> Seen(h + [e], d)
  {
    var events := s.events + [NewEvent(e, now)];
    forall d ensures d in Ids(events) <==> Seen(h + [e], d) {
      assert events[|s.events|].id == e.toolId;
      assert (h + [e])[|h|].toolId == e.toolId;
      if d in Ids(s.events) {
        var i :| 0 <= i < |s.events| && s.events[i].id == d;
        assert events[i].id == d;
        var j :| 0 <= j < |h| && h[j].toolId == d;
        assert (h + [e])[j].toolId == d;
      } else if d != e.toolId {
        assert forall i :: 0 <= i < |s.events| ==> events[i] == s.events[i];
        assert forall j :: 0 <= j < |h| ==> (h + [e])[j] == h[j];
      }
    }
  }

  /** The episode table follows the streaks: absent, tracking, emitted, reset. */
  lemma AdvanceMirrors(s: State, h: seq<TerminalEvent>, e: TerminalEvent, now: real)
    requires DistinctIds(s.episodes) && Mirrors(s, h)
    ensures var s' := s.(events := s.events + [NewEvent(e, now)]);
      Mirrors(Advance(s', e, now).state, h + [e])
  {
    var s' := s.(events := s.events + [NewEvent(e, now)]);
    var t := Advance(s', e, now).state;
    AppendMirrorsEvents(s, h, e, now);
    forall d ensures KeyStreak(h + [e], d) ==
            if e.episodeKey != d then KeyStreak(h, d)
            else if e.outcome.Success? then 0 else KeyStreak(h, d) + 1
    {
      KeyStreakAppend(h, e, d);
    }
    AdvanceIds(s', e, now);
    forall i | 0 <= i < |t.episodes|
      ensures var n := KeyStreak(h + [e], t.episodes[i].id);
        n > 0 && t.episodes[i].data.count == Min(MAX_COUNTER, n)
        && (t.episodes[i].data.phase.Tracking? <==> n == 1)
    {
      AdvanceEntry(s', h, e, now, i);
    }
  }

  lemma AdvanceIds(s: State, e: TerminalEvent, now: real)
    requires DistinctIds(s.episodes)
    ensures Ids(Advance(s, e, now).state.episodes) ==
            if e.outcome.Success? then Ids(s.episodes) - {e.episodeKey} else Ids(s.episodes) + {e.episodeKey}
  {
    var at := Find(s.episodes, e.episodeKey);
    var t := Advance(s, e, now).state.episodes;
    if at.Some? && e.outcome.Success? {
      forall d | d in Ids(s.episodes) && d != e.episodeKey ensures d in Ids(t) {
        var i :| 0 <= i < |s.episodes| && s.episodes[i].id == d;
        assert t[if i < at.value then i else i - 1].id == d;
      }
      forall i | 0 <= i < |t| ensures t[i].id in Ids(s.episodes) - {e.episodeKey} {
        assert t[i] == s.episodes[if i < at.value then i else i + 1];
      }
    } else if at.Some? {
      assert forall i :: 0 <= i < |t| ==> t[i].id == s.episodes[i].id;
      forall d | d in Ids(s.episodes) ensures d in Ids(t) {
        var i :| 0 <= i < |s.episodes| && s.episodes[i].id == d;
        assert t[i].id == d;
      }
    } else if e.outcome.Failure? {
      assert t[|s.episodes|].id == e.episodeKey;
      forall d | d in Ids(s.episodes) ensures d in Ids(t) {
        var i :| 0 <= i < |s.episodes| && s.episodes[i].id == d;
        assert t[i].id == d;
      }
    }
  }

  lemma AdvanceEntry(s: State, h: seq<TerminalEvent>, e: TerminalEvent, now: real, i: nat)
    requires DistinctIds(s.episodes)
    requires forall k :: 0 <= k < |s.episodes| ==>
               var n := KeyStreak(h, s.episodes[k].id);
               n > 0 && s.episodes[k].data.count == Min(MAX_COUNTER, n)
               && (s.episodes[k].data.phase.Tracking? <==> n == 1)
    requires KeyStreak(h, e.episodeKey) > 0 ==> e.episodeKey in Ids(s.episodes)
    requires i < |Advance(s, e, now).state.episodes|
    ensures var r := Advance(s, e, now).state.episodes[i];
      var n := KeyStreak(h + [e], r.id);
      n > 0 && r.data.count == Min(MAX_COUNTER, n) && (r.data.phase.Tracking? <==> n == 1)
  {
    var at := Find(s.episodes, e.episodeKey);
    var r := Advance(s, e, now).state.episodes[i];
    KeyStreakAppend(h, e, r.id);
    if at.None? {
      if i < |s.episodes| {
        assert r == s.episodes[i] && s.episodes[i].id in Ids(s.episodes);
      }
    } else if e.outcome.Success? {
      var k := if i < at.value then i else i + 1;
      assert r == s.episodes[k];
    } else if i != at.value {
      assert r == s.episodes[i];
    }
  }

  /** The declarative rule: a fresh failure that is the second of its streak. */
  function ExpectedNudge(h: seq<TerminalEvent>, payload: Classified): Option<HookName> {
    if payload.Accepted? && !Seen(h, payload.event.toolId) && payload.event.outcome.Failure?
       && Streak(h, payload.event) == 1
    then Some(payload.event.hook) else None
  }

  lemma QuietStep(s: State, h: seq<TerminalEvent>, step: Step)
    requires Valid(s) && step.now >= 0.0 && Mirrors(s, h)
    requires LossFree(Apply(s, step).state.counters)
    requires step.payload.Accepted? ==> Faithful(h, step.payload.event)
    ensures Mirrors(Apply(s, step).state, Grow(h, step.payload))
    ensures Apply(s, step).nudge == ExpectedNudge(h, step.payload)
  {
    var tidy := Tidy(s, step.now);
    match step.payload {
      case Silent =>
        QuietTidy(s, step.now);
      case Rejected(reason) =>
        CountLossFree(tidy, reason);
        QuietTidy(s, step.now);
      case Accepted(e) =>
        var seen := Find(tidy.events, e.toolId);
        if seen.Some? {
          var same := tidy.events[seen.value].data == EventData(e.episodeKey, e.outcome);
          CountLossFree(tidy, if same then Dedupe else Conflict);
          QuietTidy(s, step.now);
        } else {
          QuietFresh(s, h, e, step.now);
        }
    }
  }

  lemma QuietFresh(s: State, h: seq<TerminalEvent>, e: TerminalEvent, now: real)
    requires Valid(s) && now >= 0.0 && Mirrors(s, h) && Faithful(h, e)
    requires Find(Tidy(s, now).events, e.toolId).None?
    requires LossFree(Apply(s, Step(Accepted(e), now)).state.counters)
    ensures var t := Apply(s, Step(Accepted(e), now));
      Mirrors(t.state, Grow(h, Accepted(e))) && t.nudge == ExpectedNudge(h, Accepted(e))
  {
    var tidy := Tidy(s, now);
    var grown := tidy.(events := tidy.events + [NewEvent(e, now)]);
    var t := Advance(grown, e, now);
    QuietEvict(t.state);
    QuietAdvance(grown, e, now);
    QuietTidy(s, now);
    AdvanceMirrors(s, h, e, now);
    StreakByKey(h, e);
    assert !Seen(h, e.toolId);
    var at := Find(s.episodes, e.episodeKey);
    assert at.Some? ==> KeyStreak(h, s.episodes[at.value].id) > 0;
  }

  // ---- Whole runs ----

  predicate AllFaithful(h: seq<TerminalEvent>, steps: seq<Step>) {
    forall i :: 0 <= i < |steps| && steps[i].payload.Accepted? ==> Faithful(h, steps[i].payload.event)
  }

  lemma {:induction false} LossFreePrefix(steps: seq<Step>)
    requires steps != [] && ValidSteps(steps) && LossFree(Run(steps).counters)
    ensures LossFree(Run(steps[..|steps| - 1]).counters)
  {
    var s := Run(steps[..|steps| - 1]);
    var step := steps[|steps| - 1];
    var tidy := Tidy(s, step.now);
    match step.payload {
      case Silent =>
      case Rejected(reason) =>
        CountLossFree(tidy, reason);
      case Accepted(e) =>
        var seen := Find(tidy.events, e.toolId);
        if seen.Some? {
          var same := tidy.events[seen.value].data == EventData(e.episodeKey, e.outcome);
          CountLossFree(tidy, if same then Dedupe else Conflict);
        } else {
          var grown := tidy.(events := tidy.events + [NewEvent(e, step.now)]);
          QuietEvict(Advance(grown, e, step.now).state);
          QuietAdvance(grown, e, step.now);
        }
    }
    QuietTidy(s, step.now);
  }

  /** While no loss counter has moved, the tables mirror the history and the
      last payload nudges exactly when the history says so. */
  lemma {:induction false} NudgeIsSecondFailure(steps: seq<Step>)
    requires ValidSteps(steps) && LossFree(Run(steps).counters)
    requires AllFaithful(History(steps), steps)
    ensures Mirrors(Run(steps), History(steps))
    ensures steps != [] ==>
              var before := steps[..|steps| - 1];
              var last := steps[|steps| - 1];
              Apply(Run(before), last).nudge == ExpectedNudge(History(before), last.payload)
  {
    if steps != [] {
      var before := steps[..|steps| - 1];
      var last := steps[|steps| - 1];
      LossFreePrefix(steps);
      FaithfulPrefix(steps);
      NudgeIsSecondFailure(before);
      RunIsValid(before);
      QuietStep(Run(before), History(before), last);
    }
  }

  lemma FaithfulPrefix(steps: seq<Step>)
    requires steps != [] && AllFaithful(History(steps), steps)
    ensures var before := steps[..|steps| - 1];
      var last := steps[|steps| - 1].payload;
      AllFaithful(History(before), before) && (last.Accepted? ==> Faithful(History(before), last.event))
  {
    var before := steps[..|steps| - 1];
    forall e | Faithful(History(steps), e) ensures Faithful(History(before), e) {
      forall i | 0 <= i < |History(before)|
        ensures History(before)[i].episodeKey == e.episodeKey <==> SameCommand(History(before)[i], e)
      {
        assert History(steps)[i] == History(before)[i];
      }
    }
  }
}
