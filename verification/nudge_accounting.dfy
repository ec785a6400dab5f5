/** What the nudge's counters mean: over every run, below saturation, they
    account for every live episode and every accepted failure. */
module NudgeAccounting {
  import opened Basics
  import opened Tally = Counters
  import opened RecordTable
  import opened FailureNudge

  predicate Unsaturated(c: Counters) {
    forall n: Counter :: Get(c, n) < MAX_COUNTER
  }

  /** The six counters that the books are kept in. */
  datatype Books = Books(
    started: nat, reset: nat, expired: nat, evicted: nat, nudged: nat, after: nat)
  {
    predicate Cover(live: nat, tracking: nat, failures: nat) {
      && live == started - reset - expired - evicted
      && failures == started + nudged + after
      && nudged + tracking <= started
    }

    function Add(name: Counter, amount: nat): Books {
      match name
      case TrackingStarted => this.(started := started + amount)
      case SuccessReset => this.(reset := reset + amount)
      case EpisodeExpired => this.(expired := expired + amount)
      case EpisodeEvicted => this.(evicted := evicted + amount)
      case NudgeEmitted => this.(nudged := nudged + amount)
      case FailureAfterEmit => this.(after := after + amount)
      case _ => this
    }
  }

  function BooksOf(c: Counters): Books {
    Books(Get(c, TrackingStarted), Get(c, SuccessReset), Get(c, EpisodeExpired),
          Get(c, EpisodeEvicted), Get(c, NudgeEmitted), Get(c, FailureAfterEmit))
  }

  function TrackingEpisodes(rs: seq<Episode>): seq<Episode> {
    Filter(rs, (r: Episode) => r.data.phase.Tracking?)
  }

  /** Live episodes = started - reset - expired - evicted, accepted failures =
      started + nudged + after, and nudges plus live tracking never exceed starts. */
  predicate Balanced(s: State, failures: nat) {
    BooksOf(s.counters).Cover(|s.episodes|, |TrackingEpisodes(s.episodes)|, failures)
  }

  lemma BumpExact(c: Counters, name: Counter, amount: int)
    requires Unsaturated(Bump(c, name, amount))
    ensures Unsaturated(c)
    ensures BooksOf(Bump(c, name, amount)) == BooksOf(c).Add(name, Max(amount, 0))
  {
    var c' := Bump(c, name, amount);
    assert Get(c', name) < MAX_COUNTER;
    forall n: Counter ensures Get(c, n) < MAX_COUNTER {
      assert Get(c', n) < MAX_COUNTER;
    }
  }

  lemma TwoBumps(c: Counters, n1: Counter, a1: int, n2: Counter, a2: int)
    requires Unsaturated(Bump(Bump(c, n1, a1), n2, a2))
    ensures Unsaturated(c)
    ensures BooksOf(Bump(Bump(c, n1, a1), n2, a2)) == BooksOf(c).Add(n1, Max(a1, 0)).Add(n2, Max(a2, 0))
  {
    BumpExact(Bump(c, n1, a1), n2, a2);
    BumpExact(c, n1, a1);
  }

  /** Losing episodes into the expired or evicted counter keeps the balance. */
  lemma LossBalances(s: State, t: State, name: Counter, failures: nat)
    requires name == EpisodeExpired || name == EpisodeEvicted
    requires |t.episodes| <= |s.episodes|
    requires BooksOf(t.counters) == BooksOf(s.counters).Add(name, |s.episodes| - |t.episodes|)
    requires |TrackingEpisodes(t.episodes)| <= |TrackingEpisodes(s.episodes)|
    ensures Balanced(s, failures) ==> Balanced(t, failures)
  {
  }

  lemma PrunedBooks(s: State, now: real)
    requires Unsaturated(Pruned(s, now).counters)
    ensures Unsaturated(s.counters)
    ensures var t := Pruned(s, now);
      BooksOf(t.counters) == BooksOf(s.counters).Add(EpisodeExpired, |s.episodes| - |t.episodes|)
  {
    TwoBumps(s.counters, EpisodeExpired, |s.episodes| - |Alive(s.episodes, now)|,
             EventExpired, |s.events| - |Alive(s.events, now)|);
  }

  lemma PrunedBalances(s: State, now: real, failures: nat)
    requires Unsaturated(Pruned(s, now).counters)
    ensures Unsaturated(s.counters)
    ensures Balanced(s, failures) ==> Balanced(Pruned(s, now), failures)
  {
    PrunedBooks(s, now);
    FilterCommutes(s.episodes, (r: Episode) => now - r.stamp <= STATE_TTL_SECONDS,
                   (r: Episode) => r.data.phase.Tracking?);
    LossBalances(s, Pruned(s, now), EpisodeExpired, failures);
  }

  lemma EvictedBooks(s: State)
    requires DistinctIds(s.episodes)
    requires Unsaturated(Evicted(s).counters)
    ensures Unsaturated(s.counters)
    ensures var t := Evicted(s);
      && |t.episodes| <= |s.episodes|
      && BooksOf(t.counters) == BooksOf(s.counters).Add(EpisodeEvicted, |s.episodes| - |t.episodes|)
  {
    EvictOldestKeepsYoungest(s.episodes, MAX_EPISODES);
    TwoBumps(s.counters, EpisodeEvicted, |s.episodes| - MAX_EPISODES, EventEvicted, |s.events| - MAX_EVENT_IDS);
  }

  lemma EvictedTracking(rs: seq<Episode>)
    requires DistinctIds(rs)
    ensures |TrackingEpisodes(EvictOldest(rs, MAX_EPISODES))| <= |TrackingEpisodes(rs)|
  {
    var kept := EvictOldest(rs, MAX_EPISODES);
    EvictOldestKeepsYoungest(rs, MAX_EPISODES);
    FilterCommutes(rs, (r: Episode) => r in kept, (r: Episode) => r.data.phase.Tracking?);
  }

  lemma EvictedBalances(s: State, failures: nat)
    requires DistinctIds(s.episodes)
    requires Unsaturated(Evicted(s).counters)
    ensures Unsaturated(s.counters)
    ensures Balanced(s, failures) ==> Balanced(Evicted(s), failures)
  {
    EvictedBooks(s);
    EvictedTracking(s.episodes);
    LossBalances(s, Evicted(s), EpisodeEvicted, failures);
  }

  lemma TrackingSplit(rs: seq<Episode>, at: nat)
    requires at < |rs|
    ensures |TrackingEpisodes(rs)| ==
            |TrackingEpisodes(rs[..at])| + |TrackingEpisodes([rs[at]])| + |TrackingEpisodes(rs[at + 1..])|
  {
    assert rs == rs[..at] + ([rs[at]] + rs[at + 1..]);
    var tracking := (r: Episode) => r.data.phase.Tracking?;
    FilterConcat(rs[..at], [rs[at]] + rs[at + 1..], tracking);
    FilterConcat([rs[at]], rs[at + 1..], tracking);
  }

  lemma TrackingRemoved(rs: seq<Episode>, at: nat)
    requires at < |rs|
    ensures |TrackingEpisodes(rs[..at] + rs[at + 1..])| <= |TrackingEpisodes(rs)|
  {
    TrackingSplit(rs, at);
    FilterConcat(rs[..at], rs[at + 1..], (r: Episode) => r.data.phase.Tracking?);
  }

  lemma TrackingAdded(rs: seq<Episode>, r: Episode)
    ensures |TrackingEpisodes(rs + [r])| <= |TrackingEpisodes(rs)| + 1
  {
    FilterConcat(rs, [r], (r: Episode) => r.data.phase.Tracking?);
  }

  lemma BookedStart(s: State, episodes: seq<Episode>, failures: nat)
    requires Unsaturated(Bump(s.counters, TrackingStarted, 1)) && |episodes| == |s.episodes| + 1
    requires |TrackingEpisodes(episodes)| <= |TrackingEpisodes(s.episodes)| + 1
    ensures Balanced(s, failures) ==>
              Balanced(s.(episodes := episodes, counters := Bump(s.counters, TrackingStarted, 1)), failures + 1)
  {
    BumpExact(s.counters, TrackingStarted, 1);
  }

  lemma BookedReset(s: State, episodes: seq<Episode>, failures: nat)
    requires Unsaturated(Bump(s.counters, SuccessReset, 1)) && |episodes| == |s.episodes| - 1
    requires |TrackingEpisodes(episodes)| <= |TrackingEpisodes(s.episodes)|
    ensures Balanced(s, failures) ==>
              Balanced(s.(episodes := episodes, counters := Bump(s.counters, SuccessReset, 1)), failures)
  {
    BumpExact(s.counters, SuccessReset, 1);
  }

  lemma StartBalances(s: State, e: TerminalEvent, now: real, failures: nat)
    requires Find(s.episodes, e.episodeKey).None? && e.outcome.Failure?
    requires Unsaturated(Advance(s, e, now).state.counters)
    ensures Unsaturated(s.counters)
    ensures Balanced(s, failures) ==> Balanced(Advance(s, e, now).state, failures + 1)
  {
    BumpExact(s.counters, TrackingStarted, 1);
    TrackingAdded(s.episodes, NewEpisode(e, now));
    BookedStart(s, s.episodes + [NewEpisode(e, now)], failures);
  }

  lemma ResetBalances(s: State, e: TerminalEvent, now: real, failures: nat)
    requires e.outcome.Success?
    requires Unsaturated(Advance(s, e, now).state.counters)
    ensures Unsaturated(s.counters)
    ensures Balanced(s, failures) ==> Balanced(Advance(s, e, now).state, failures)
  {
    var at := Find(s.episodes, e.episodeKey);
    if at.Some? {
      BumpExact(s.counters, SuccessReset, 1);
      TrackingRemoved(s.episodes, at.value);
      BookedReset(s, s.episodes[..at.value] + s.episodes[at.value + 1..], failures);
    }
  }

  lemma TrackingUpdate(rs: seq<Episode>, at: nat, r: Episode)
    requires at < |rs| && r.data.phase.Emitted?
    ensures |TrackingEpisodes(rs[at := r])| ==
            |TrackingEpisodes(rs)| - if rs[at].data.phase.Tracking? then 1 else 0
  {
    var rs' := rs[at := r];
    TrackingSplit(rs, at);
    TrackingSplit(rs', at);
    assert rs'[..at] == rs[..at];
    assert rs'[at + 1..] == rs[at + 1..];
  }

  lemma RepeatBalances(s: State, e: TerminalEvent, now: real, failures: nat)
    requires Find(s.episodes, e.episodeKey).Some? && e.outcome.Failure?
    requires Unsaturated(Advance(s, e, now).state.counters)
    ensures Unsaturated(s.counters)
    ensures Balanced(s, failures) ==> Balanced(Advance(s, e, now).state, failures + 1)
  {
    var at := Find(s.episodes, e.episodeKey).value;
    var tracking := s.episodes[at].data.phase.Tracking?;
    BumpExact(s.counters, if tracking then NudgeEmitted else FailureAfterEmit, 1);
    TrackingUpdate(s.episodes, at, Advance(s, e, now).state.episodes[at]);
  }

  lemma AdvanceBalances(s: State, e: TerminalEvent, now: real, failures: nat)
    requires Unsaturated(Advance(s, e, now).state.counters)
    ensures Unsaturated(s.counters)
    ensures Balanced(s, failures) ==>
              Balanced(Advance(s, e, now).state, failures + if e.outcome.Failure? then 1 else 0)
  {
    if e.outcome.Success? {
      ResetBalances(s, e, now, failures);
    } else if Find(s.episodes, e.episodeKey).None? {
      StartBalances(s, e, now, failures);
    } else {
      RepeatBalances(s, e, now, failures);
    }
  }

  lemma TidyBalances(s: State, now: real, failures: nat)
    requires Valid(s) && Unsaturated(Tidy(s, now).counters)
    ensures Unsaturated(s.counters)
    ensures Balanced(s, failures) ==> Balanced(Tidy(s, now), failures)
  {
    PrunedKeeps(s, now);
    EvictedBalances(Pruned(s, now), failures);
    PrunedBalances(s, now, failures);
  }

  /** The payload is a failure whose tool id the tidied table does not hold. */
  predicate FreshFailure(tidy: State, step: Step) {
    && step.payload.Accepted?
    && step.payload.event.outcome.Failure?
    && Find(tidy.events, step.payload.event.toolId).None?
  }

  function Failures(tidy: State, step: Step): nat {
    if FreshFailure(tidy, step) then 1 else 0
  }

  lemma CountBalances(s: State, name: Counter, failures: nat)
    requires name !in {TrackingStarted, SuccessReset, EpisodeExpired, EpisodeEvicted, NudgeEmitted, FailureAfterEmit}
    requires Unsaturated(Count(s, name).counters)
    ensures Unsaturated(s.counters)
    ensures Balanced(s, failures) ==> Balanced(Count(s, name), failures)
  {
    BumpExact(s.counters, name, 1);
    assert BooksOf(s.counters).Add(name, 1) == BooksOf(s.counters);
    assert Count(s, name).episodes == s.episodes;
  }

  lemma FreshBalances(tidy: State, e: TerminalEvent, now: real, failures: nat)
    requires Valid(tidy) && now >= 0.0 && Find(tidy.events, e.toolId).None?
    requires Unsaturated(Evicted(Advance(tidy.(events := tidy.events + [NewEvent(e, now)]), e, now).state).counters)
    ensures Unsaturated(tidy.counters)
    ensures Balanced(tidy, failures) ==>
              Balanced(Evicted(Advance(tidy.(events := tidy.events + [NewEvent(e, now)]), e, now).state),
                       failures + if e.outcome.Failure? then 1 else 0)
  {
    var grown := tidy.(events := tidy.events + [NewEvent(e, now)]);
    AppendEventKeeps(tidy, e, now);
    AdvanceKeeps(grown, e, now);
    EvictedBalances(Advance(grown, e, now).state, failures + if e.outcome.Failure? then 1 else 0);
    AdvanceBalances(grown, e, now, failures);
    assert Balanced(tidy, failures) ==> Balanced(grown, failures);
  }

  /** A payload that is no fresh event moves at most one other counter. */
  lemma DropCounts(tidy: State, step: Step)
    requires step.payload.Accepted? ==> Find(tidy.events, step.payload.event.toolId).Some?
    ensures var after := React(tidy, step).state;
      after == tidy || after == Count(tidy, Dedupe) || after == Count(tidy, Conflict)
      || (step.payload.Rejected? && after == Count(tidy, step.payload.reason))
  {
  }

  lemma DropBalances(tidy: State, step: Step, after: State, failures: nat)
    requires step.payload.Accepted? ==> Find(tidy.events, step.payload.event.toolId).Some?
    requires after == React(tidy, step).state && Unsaturated(after.counters)
    ensures Unsaturated(tidy.counters)
    ensures Balanced(tidy, failures) ==> Balanced(after, failures)
  {
    DropCounts(tidy, step);
    if after == tidy {
    } else if after == Count(tidy, Dedupe) {
      CountBalances(tidy, Dedupe, failures);
    } else if after == Count(tidy, Conflict) {
      CountBalances(tidy, Conflict, failures);
    } else {
      CountBalances(tidy, step.payload.reason, failures);
    }
  }

  lemma ReactFresh(tidy: State, step: Step)
    requires step.payload.Accepted? && Find(tidy.events, step.payload.event.toolId).None?
    ensures var e := step.payload.event;
      React(tidy, step).state
      == Evicted(Advance(tidy.(events := tidy.events + [NewEvent(e, step.now)]), e, step.now).state)
  {
  }

  lemma ReactFreshBalances(tidy: State, step: Step, after: State, failures: nat)
    requires Valid(tidy) && step.now >= 0.0
    requires step.payload.Accepted? && Find(tidy.events, step.payload.event.toolId).None?
    requires after == React(tidy, step).state && Unsaturated(after.counters)
    ensures Unsaturated(tidy.counters)
    ensures Balanced(tidy, failures) ==> Balanced(after, failures + Failures(tidy, step))
  {
    ReactFresh(tidy, step);
    FreshBalances(tidy, step.payload.event, step.now, failures);
  }

  lemma ReactDropBalances(tidy: State, step: Step, after: State, failures: nat)
    requires step.payload.Accepted? ==> Find(tidy.events, step.payload.event.toolId).Some?
    requires after == React(tidy, step).state && Unsaturated(after.counters)
    ensures Unsaturated(tidy.counters)
    ensures Balanced(tidy, failures) ==> Balanced(after, failures + Failures(tidy, step))
  {
    DropBalances(tidy, step, after, failures);
    assert failures + Failures(tidy, step) == failures;
  }

  /** One payload keeps the books, counting a failure exactly when it is fresh. */
  lemma ReactBalances(tidy: State, step: Step, after: State, failures: nat)
    requires Valid(tidy) && step.now >= 0.0
    requires after == React(tidy, step).state && Unsaturated(after.counters)
    ensures Unsaturated(tidy.counters)
    ensures Balanced(tidy, failures) ==> Balanced(after, failures + Failures(tidy, step))
  {
    if step.payload.Accepted? && Find(tidy.events, step.payload.event.toolId).None? {
      ReactFreshBalances(tidy, step, after, failures);
    } else {
      ReactDropBalances(tidy, step, after, failures);
    }
  }

  function AcceptedFailures(steps: seq<Step>): nat {
    if steps == [] then 0
    else
      var before := steps[..|steps| - 1];
      AcceptedFailures(before) + Failures(Tidy(Run(before), steps[|steps| - 1].now), steps[|steps| - 1])
  }

  lemma StepBalances(s: State, step: Step, after: State, failures: nat)
    requires Valid(s) && step.now >= 0.0
    requires after == React(Tidy(s, step.now), step).state && Unsaturated(after.counters)
    ensures Unsaturated(s.counters)
    ensures Balanced(s, failures) ==> Balanced(after, failures + Failures(Tidy(s, step.now), step))
  {
    TidyKeeps(s, step.now);
    ReactBalances(Tidy(s, step.now), step, after, failures);
    TidyBalances(s, step.now, failures);
  }

  /** Over every run whose counters have not saturated the books balance. */
  lemma {:induction false} RunBalances(steps: seq<Step>)
    requires ValidSteps(steps) && Unsaturated(Run(steps).counters)
    ensures Balanced(Run(steps), AcceptedFailures(steps))
  {
    if steps != [] {
      var before := steps[..|steps| - 1];
      RunIsValid(before);
      StepBalances(Run(before), steps[|steps| - 1], Run(steps), AcceptedFailures(before));
      RunBalances(before);
    }
  }
}
