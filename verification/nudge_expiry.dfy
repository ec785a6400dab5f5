/** What the nudge's tables hold in time. Over every run with at most 256 episode
    keys and 512 tool ids nothing is evicted, and everything that the state
    machine does is a matter of which earlier steps still last: a step lasts
    until a later one comes more than half an hour after it. */
module NudgeExpiry {
  import opened Basics
  import opened Tally = Counters
  import opened RecordTable
  import opened FailureNudge
  import opened NudgeHistory

  // ---- The declarative reading of a run ----

  /** No step after `j` and before `m` comes more than 1800 seconds after `j`. */
  predicate Lasts(steps: seq<Step>, j: nat, m: nat)
    requires j < |steps| && m <= |steps|
  {
    forall k :: j < k < m ==> steps[k].now <= steps[j].now + 1800.0
  }

  /** The step brings an event whose tool id no lasting fresh step has brought. */
  predicate Fresh(steps: seq<Step>, i: nat)
    requires i < |steps|
    decreases i
  {
    && steps[i].payload.Accepted?
    && forall j :: 0 <= j < i && Fresh(steps, j) && Lasts(steps, j, i + 1) ==>
         steps[j].payload.event.toolId != steps[i].payload.event.toolId
  }

  predicate FreshFailure(steps: seq<Step>, i: nat)
    requires i < |steps|
  {
    Fresh(steps, i) && steps[i].payload.event.outcome.Failure?
  }

  /** The last fresh step with this episode key among the first `n`. */
  predicate LastOf(steps: seq<Step>, p: nat, n: nat, key: Digest)
    requires n <= |steps|
  {
    && p < n && Fresh(steps, p) && steps[p].payload.event.episodeKey == key
    && forall m :: p < m < n && Fresh(steps, m) ==> steps[m].payload.event.episodeKey != key
  }

  /** That step was a failure and lasts until before `m`. */
  predicate Live(steps: seq<Step>, p: nat, n: nat, m: nat, key: Digest)
    requires n <= m <= |steps|
  {
    LastOf(steps, p, n, key) && steps[p].payload.event.outcome.Failure? && Lasts(steps, p, m)
  }

  /** A fresh failure finds step `p` to be the lasting last one of its episode. */
  predicate Follows(steps: seq<Step>, p: nat, i: nat)
    requires i < |steps| && steps[i].payload.Accepted?
  {
    Live(steps, p, i, i + 1, steps[i].payload.event.episodeKey)
  }

  predicate Opens(steps: seq<Step>, i: nat)
    requires i < |steps|
  {
    FreshFailure(steps, i) && forall p :: 0 <= p < i ==> !Follows(steps, p, i)
  }

  /** The second failure of an episode: the one before it opened it. */
  predicate IsSecond(steps: seq<Step>, i: nat)
    requires i < |steps|
  {
    FreshFailure(steps, i) && exists p :: 0 <= p < i && Follows(steps, p, i) && Opens(steps, p)
  }

  function Keys(steps: seq<Step>): set<Digest> {
    set i | 0 <= i < |steps| && steps[i].payload.Accepted? :: steps[i].payload.event.episodeKey
  }

  function ToolIds(steps: seq<Step>): set<Digest> {
    set i | 0 <= i < |steps| && steps[i].payload.Accepted? :: steps[i].payload.event.toolId
  }

  predicate Few(steps: seq<Step>) {
    |Keys(steps)| <= 256 && |ToolIds(steps)| <= 512
  }

  // ---- What the tables say ----

  function EventOf(steps: seq<Step>, j: nat): Event
    requires j < |steps| && steps[j].payload.Accepted?
  {
    var e := steps[j].payload.event;
    Record(e.toolId, steps[j].now, EventData(e.episodeKey, e.outcome))
  }

  predicate Kept(steps: seq<Step>, j: nat, n: nat, m: nat)
    requires n <= m <= |steps|
  {
    j < n && Fresh(steps, j) && Lasts(steps, j, m)
  }

  /** The events table lists the lasting fresh steps. */
  ghost predicate EventsListed(rs: seq<Event>, steps: seq<Step>, n: nat, m: nat)
    requires n <= m <= |steps|
  {
    && (forall j: nat :: Kept(steps, j, n, m) ==> EventOf(steps, j) in rs)
    && (forall r :: r in rs ==> exists j: nat :: Kept(steps, j, n, m) && r == EventOf(steps, j))
  }

  predicate Says(steps: seq<Step>, p: nat, n: nat, m: nat, r: Episode)
    requires n <= m <= |steps|
  {
    Live(steps, p, n, m, r.id) && r.stamp == steps[p].now && (r.data.phase.Tracking? <==> Opens(steps, p))
  }

  /** The episodes table lists the live failures, under the stamp of the last
      one, and says whether that one opened its episode. */
  ghost predicate EpisodesListed(rs: seq<Episode>, steps: seq<Step>, n: nat, m: nat)
    requires n <= m <= |steps|
  {
    && (forall p: nat, key :: Live(steps, p, n, m, key) ==> key in Ids(rs))
    && (forall r :: r in rs ==> exists p: nat :: Says(steps, p, n, m, r))
  }

  ghost predicate Timed(s: State, steps: seq<Step>, n: nat, m: nat)
    requires n <= m <= |steps|
  {
    EventsListed(s.events, steps, n, m) && EpisodesListed(s.episodes, steps, n, m)
  }

  // ---- Expiry ----

  lemma {:induction false} LastsMore(steps: seq<Step>, j: nat, n: nat)
    requires j < n < |steps|
    ensures Lasts(steps, j, n + 1) <==> Lasts(steps, j, n) && steps[n].now <= steps[j].now + 1800.0
  {
  }

  lemma {:induction false} PruneEvents(rs: seq<Event>, steps: seq<Step>, n: nat)
    requires n < |steps| && EventsListed(rs, steps, n, n)
    ensures EventsListed(Alive(rs, steps[n].now), steps, n, n + 1)
  {
    var live := Alive(rs, steps[n].now);
    forall j: nat | Kept(steps, j, n, n + 1) ensures EventOf(steps, j) in live {
      LastsMore(steps, j, n);
      assert Kept(steps, j, n, n);
    }
    forall r | r in live ensures exists j: nat :: Kept(steps, j, n, n + 1) && r == EventOf(steps, j) {
      var j: nat :| Kept(steps, j, n, n) && r == EventOf(steps, j);
      LastsMore(steps, j, n);
      assert Kept(steps, j, n, n + 1);
    }
  }

  lemma {:induction false} SaysMore(steps: seq<Step>, p: nat, n: nat, r: Episode)
    requires n < |steps| && Says(steps, p, n, n, r)
    ensures Says(steps, p, n, n + 1, r) <==> steps[n].now - r.stamp <= 1800.0
  {
    LastsMore(steps, p, n);
  }

  lemma {:induction false} LastIsOne(steps: seq<Step>, p: nat, q: nat, n: nat, key: Digest)
    requires n <= |steps| && LastOf(steps, p, n, key) && LastOf(steps, q, n, key)
    ensures p == q
  {
  }

  lemma {:induction false} PruneEpisodes(rs: seq<Episode>, steps: seq<Step>, n: nat)
    requires n < |steps| && EpisodesListed(rs, steps, n, n)
    ensures EpisodesListed(Alive(rs, steps[n].now), steps, n, n + 1)
  {
    var live, m := Alive(rs, steps[n].now), n + 1;
    forall p: nat, key | Live(steps, p, n, m, key) ensures key in Ids(live) {
      LastsMore(steps, p, n);
      assert Live(steps, p, n, n, key);
      var i :| 0 <= i < |rs| && rs[i].id == key;
      assert rs[i] in rs;
      var q: nat :| Says(steps, q, n, n, rs[i]);
      LastIsOne(steps, p, q, n, key);
      assert rs[i] in live;
      var k :| 0 <= k < |live| && live[k] == rs[i];
    }
    forall r | r in live ensures exists p: nat :: Says(steps, p, n, m, r) {
      var p: nat :| Says(steps, p, n, n, r);
      SaysMore(steps, p, n, r);
    }
  }

  // ---- Nothing is evicted ----

  lemma {:induction false} FewRecords(s: State, steps: seq<Step>, n: nat, m: nat)
    requires n <= m <= |steps| && Few(steps) && Timed(s, steps, n, m)
    requires DistinctIds(s.episodes) && DistinctIds(s.events)
    ensures |s.episodes| <= 256 && |s.events| <= 512
  {
    IdCount(s.events);
    IdCount(s.episodes);
    forall d | d in Ids(s.events) ensures d in ToolIds(steps) {
      var i :| 0 <= i < |s.events| && s.events[i].id == d;
      assert s.events[i] in s.events;
      var j: nat :| Kept(steps, j, n, m) && s.events[i] == EventOf(steps, j);
    }
    forall d | d in Ids(s.episodes) ensures d in Keys(steps) {
      var i :| 0 <= i < |s.episodes| && s.episodes[i].id == d;
      assert s.episodes[i] in s.episodes;
      var p: nat :| Says(steps, p, n, m, s.episodes[i]);
    }
    SubsetSize(Ids(s.events), ToolIds(steps));
    SubsetSize(Ids(s.episodes), Keys(steps));
  }

  lemma {:induction false} FewStay(s: State, steps: seq<Step>, n: nat, m: nat)
    requires n <= m <= |steps| && Few(steps) && Timed(s, steps, n, m) && Valid(s)
    ensures Evicted(s).episodes == s.episodes && Evicted(s).events == s.events
  {
    FewRecords(s, steps, n, m);
  }

  lemma {:induction false} TidyTimed(s: State, steps: seq<Step>, n: nat)
    requires n < |steps| && Few(steps) && Timed(s, steps, n, n) && Valid(s)
    ensures Timed(Tidy(s, steps[n].now), steps, n, n + 1)
  {
    PruneEvents(s.events, steps, n);
    PruneEpisodes(s.episodes, steps, n);
    PrunedKeeps(s, steps[n].now);
    FewStay(Pruned(s, steps[n].now), steps, n, n + 1);
  }

  // ---- One step ----

  /** The lookup by tool id finds the event exactly when the step is not fresh. */
  lemma {:induction false} FreshIsAbsent(rs: seq<Event>, steps: seq<Step>, n: nat)
    requires n < |steps| && EventsListed(rs, steps, n, n + 1) && steps[n].payload.Accepted?
    ensures Fresh(steps, n) <==> Find(rs, steps[n].payload.event.toolId).None?
  {
    var id, m := steps[n].payload.event.toolId, n + 1;
    if id in Ids(rs) {
      var i :| 0 <= i < |rs| && rs[i].id == id;
      assert rs[i] in rs;
      var j: nat :| Kept(steps, j, n, m) && rs[i] == EventOf(steps, j);
      assert !Fresh(steps, n);
    }
    if !Fresh(steps, n) {
      var j :| 0 <= j < n && Fresh(steps, j) && Lasts(steps, j, m) && steps[j].payload.event.toolId == id;
      assert Kept(steps, j, n, m);
      var i :| 0 <= i < |rs| && rs[i] == EventOf(steps, j);
      assert rs[i].id == id;
    }
  }

  lemma {:induction false} StaleStep(s: State, steps: seq<Step>, n: nat)
    requires n < |steps| && Timed(s, steps, n, n + 1) && !Fresh(steps, n)
    ensures Timed(s, steps, n + 1, n + 1)
  {
    var m := n + 1;
    forall j: nat ensures Kept(steps, j, m, m) <==> Kept(steps, j, n, m) {
    }
    forall p: nat, key ensures Live(steps, p, m, m, key) <==> Live(steps, p, n, m, key) {
      assert LastOf(steps, p, m, key) <==> LastOf(steps, p, n, key);
    }
    forall r | r in s.events ensures exists j: nat :: Kept(steps, j, m, m) && r == EventOf(steps, j) {
      var j: nat :| Kept(steps, j, n, m) && r == EventOf(steps, j);
      assert Kept(steps, j, m, m);
    }
    forall r | r in s.episodes ensures exists p: nat :: Says(steps, p, m, m, r) {
      var p: nat :| Says(steps, p, n, m, r);
      assert Says(steps, p, m, m, r);
    }
  }

  lemma {:induction false} FreshEvents(rs: seq<Event>, steps: seq<Step>, n: nat)
    requires n < |steps| && EventsListed(rs, steps, n, n + 1) && Fresh(steps, n)
    ensures EventsListed(rs + [EventOf(steps, n)], steps, n + 1, n + 1)
  {
    var m, more := n + 1, rs + [EventOf(steps, n)];
    forall j: nat | Kept(steps, j, m, m) ensures EventOf(steps, j) in more {
      if j < n {
        assert Kept(steps, j, n, m);
      }
    }
    forall r | r in more ensures exists j: nat :: Kept(steps, j, m, m) && r == EventOf(steps, j) {
      if r in rs {
        var j: nat :| Kept(steps, j, n, m) && r == EventOf(steps, j);
        assert Kept(steps, j, m, m);
      } else {
        assert Kept(steps, n, m, m);
      }
    }
  }

  /** A fresh step is the last of its own key and of no other. */
  lemma {:induction false} LastAfter(steps: seq<Step>, n: nat, p: nat, key: Digest)
    requires n < |steps| && Fresh(steps, n)
    ensures var own := key == steps[n].payload.event.episodeKey;
      Live(steps, p, n + 1, n + 1, key)
      <==> if own then p == n && FreshFailure(steps, n) else Live(steps, p, n, n + 1, key)
  {
    var m := n + 1;
    if key == steps[n].payload.event.episodeKey {
      assert LastOf(steps, n, m, key);
      if LastOf(steps, p, m, key) {
        LastIsOne(steps, p, n, m, key);
      }
    } else {
      assert LastOf(steps, p, m, key) <==> LastOf(steps, p, n, key);
    }
  }

  /** The episode lookup finds what a fresh failure follows. */
  lemma {:induction false} FindFollows(rs: seq<Episode>, steps: seq<Step>, n: nat)
    requires n < |steps| && EpisodesListed(rs, steps, n, n + 1) && steps[n].payload.Accepted?
    ensures var at := Find(rs, steps[n].payload.event.episodeKey);
      && (at.None? <==> forall p :: 0 <= p < n ==> !Follows(steps, p, n))
      && (at.Some? ==>
           exists p: nat :: Follows(steps, p, n) && (rs[at.value].data.phase.Tracking? <==> Opens(steps, p)))
  {
    var key, m := steps[n].payload.event.episodeKey, n + 1;
    var at := Find(rs, key);
    if at.Some? {
      assert rs[at.value] in rs;
      var p: nat :| Says(steps, p, n, m, rs[at.value]);
      assert Follows(steps, p, n);
    } else {
      forall p | 0 <= p < n ensures !Follows(steps, p, n) {
        assert !Live(steps, p, n, m, key);
      }
    }
  }

  /** What a fresh event leaves in the episode table: the other episodes as they
      were, and after a failure its own under the new stamp. */
  lemma {:induction false} AdvanceLeaves(s: State, e: TerminalEvent, now: real, r: Episode)
    requires DistinctIds(s.episodes) && r in Advance(s, e, now).state.episodes
    ensures if r.id != e.episodeKey then r in s.episodes
            else e.outcome.Failure? && r.stamp == now
                 && (r.data.phase.Tracking? <==> Find(s.episodes, e.episodeKey).None?)
  {
    var t := Advance(s, e, now).state.episodes;
    var at := Find(s.episodes, e.episodeKey);
    var k :| 0 <= k < |t| && t[k] == r;
    if at.None? {
      if k < |s.episodes| {
        assert r == s.episodes[k] && s.episodes[k].id in Ids(s.episodes);
      }
    } else if e.outcome.Success? {
      assert r == s.episodes[if k < at.value then k else k + 1];
    } else if k != at.value {
      assert r == s.episodes[k];
    }
  }

  lemma {:induction false} OwnEpisode(rs: seq<Episode>, steps: seq<Step>, n: nat, r: Episode)
    requires n < |steps| && FreshFailure(steps, n) && EpisodesListed(rs, steps, n, n + 1)
    requires r.id == steps[n].payload.event.episodeKey && r.stamp == steps[n].now
    requires r.data.phase.Tracking? <==> Find(rs, r.id).None?
    ensures Says(steps, n, n + 1, n + 1, r)
  {
    LastAfter(steps, n, n, r.id);
    FindFollows(rs, steps, n);
  }

  lemma {:induction false} FreshEpisodes(s: State, steps: seq<Step>, n: nat)
    requires n < |steps| && Fresh(steps, n) && DistinctIds(s.episodes)
    requires EpisodesListed(s.episodes, steps, n, n + 1)
    ensures EpisodesListed(Advance(s, steps[n].payload.event, steps[n].now).state.episodes, steps, n + 1, n + 1)
  {
    var e, now, m := steps[n].payload.event, steps[n].now, n + 1;
    var t := Advance(s, e, now).state.episodes;
    AdvanceIds(s, e, now);
    forall p: nat, key | Live(steps, p, m, m, key) ensures key in Ids(t) {
      LastAfter(steps, n, p, key);
    }
    forall r | r in t ensures exists p: nat :: Says(steps, p, m, m, r) {
      AdvanceLeaves(s, e, now, r);
      if r.id == e.episodeKey {
        OwnEpisode(s.episodes, steps, n, r);
      } else {
        var p: nat :| Says(steps, p, n, m, r);
        LastAfter(steps, n, p, r.id);
        assert Says(steps, p, m, m, r);
      }
    }
  }

  lemma {:induction false} FreshTimed(tidy: State, steps: seq<Step>, n: nat)
    requires n < |steps| && Fresh(steps, n) && Few(steps) && Valid(tidy) && steps[n].now >= 0.0
    requires Timed(tidy, steps, n, n + 1)
    ensures Timed(React(tidy, steps[n]).state, steps, n + 1, n + 1)
    ensures var e := steps[n].payload.event;
      React(tidy, steps[n]).nudge
      == Advance(tidy.(events := tidy.events + [EventOf(steps, n)]), e, steps[n].now).nudge
  {
    var e := steps[n].payload.event;
    var grown := tidy.(events := tidy.events + [EventOf(steps, n)]);
    var t := Advance(grown, e, steps[n].now).state;
    FreshIsAbsent(tidy.events, steps, n);
    FreshEvents(tidy.events, steps, n);
    FreshEpisodes(grown, steps, n);
    AppendEventKeeps(tidy, e, steps[n].now);
    AdvanceKeeps(grown, e, steps[n].now);
    FewStay(t, steps, n + 1, n + 1);
  }

  lemma {:induction false} StaleReact(tidy: State, steps: seq<Step>, n: nat)
    requires n < |steps| && !Fresh(steps, n) && Timed(tidy, steps, n, n + 1)
    ensures var t := React(tidy, steps[n]);
      t.state.episodes == tidy.episodes && t.state.events == tidy.events && t.nudge.None?
  {
    if steps[n].payload.Accepted? {
      FreshIsAbsent(tidy.events, steps, n);
    }
  }

  lemma {:induction false} StepTimed(s: State, steps: seq<Step>, n: nat)
    requires n < |steps| && Few(steps) && Valid(s) && steps[n].now >= 0.0 && Timed(s, steps, n, n)
    ensures Timed(Apply(s, steps[n]).state, steps, n + 1, n + 1)
  {
    var tidy := Tidy(s, steps[n].now);
    TidyTimed(s, steps, n);
    TidyKeeps(s, steps[n].now);
    if Fresh(steps, n) {
      FreshTimed(tidy, steps, n);
    } else {
      StaleReact(tidy, steps, n);
      StaleStep(React(tidy, steps[n]).state, steps, n);
    }
  }

  // ---- Whole runs ----

  /** After every run the tables hold the lasting steps and nothing else. */
  lemma {:induction false} RunIsTimed(steps: seq<Step>, n: nat)
    requires n <= |steps| && ValidSteps(steps) && Few(steps)
    ensures Timed(Run(steps[..n]), steps, n, n)
  {
    if n > 0 {
      RunIsTimed(steps, n - 1);
      RunIsValid(steps[..n - 1]);
      RunExtends(steps, n - 1);
      StepTimed(Run(steps[..n - 1]), steps, n - 1);
    }
  }

  lemma {:induction false} SecondFollows(tidy: State, steps: seq<Step>, n: nat)
    requires n < |steps| && FreshFailure(steps, n) && EpisodesListed(tidy.episodes, steps, n, n + 1)
    ensures var at := Find(tidy.episodes, steps[n].payload.event.episodeKey);
      IsSecond(steps, n) <==> at.Some? && tidy.episodes[at.value].data.phase.Tracking?
  {
    FindFollows(tidy.episodes, steps, n);
    forall p: nat, q: nat | Follows(steps, p, n) && Follows(steps, q, n) ensures p == q {
      LastIsOne(steps, p, q, n, steps[n].payload.event.episodeKey);
    }
  }

  function ExpectedInTime(steps: seq<Step>, n: nat): Option<HookName>
    requires n < |steps|
  {
    if IsSecond(steps, n) then Some(steps[n].payload.event.hook) else None
  }

  lemma {:induction false} ReactNudges(tidy: State, steps: seq<Step>, n: nat)
    requires n < |steps| && Timed(tidy, steps, n, n + 1)
    ensures React(tidy, steps[n]).nudge == ExpectedInTime(steps, n)
  {
    if Fresh(steps, n) {
      FreshIsAbsent(tidy.events, steps, n);
      if FreshFailure(steps, n) {
        SecondFollows(tidy, steps, n);
      }
    } else {
      StaleReact(tidy, steps, n);
    }
  }

  /** The nudge in a run, exactly: a fresh failure whose episode has one lasting
      failure, the one that opened it. */
  lemma {:induction false} NudgeIsSecondInTime(steps: seq<Step>, n: nat)
    requires n < |steps| && ValidSteps(steps) && Few(steps)
    ensures Apply(Run(steps[..n]), steps[n]).nudge == ExpectedInTime(steps, n)
  {
    RunIsTimed(steps, n);
    RunIsValid(steps[..n]);
    TidyTimed(Run(steps[..n]), steps, n);
    ReactNudges(Tidy(Run(steps[..n]), steps[n].now), steps, n);
  }

  // ---- What a failure leaves, and the clean slate after half an hour ----

  /** A fresh failure leaves its episode in the table under its own time. */
  lemma {:induction false} FailureLeaves(steps: seq<Step>, n: nat) returns (r: Episode)
    requires n < |steps| && ValidSteps(steps) && Few(steps) && FreshFailure(steps, n)
    ensures r in Run(steps[..n + 1]).episodes
    ensures r.id == steps[n].payload.event.episodeKey && r.stamp == steps[n].now
    ensures r.data.phase.Tracking? <==> Opens(steps, n)
  {
    var m, rs, key := n + 1, Run(steps[..n + 1]).episodes, steps[n].payload.event.episodeKey;
    RunIsTimed(steps, m);
    assert Live(steps, n, m, m, key);
    var i :| 0 <= i < |rs| && rs[i].id == key;
    r := rs[i];
    assert r in rs;
    var p: nat :| Says(steps, p, m, m, r);
    LastIsOne(steps, n, p, m, key);
  }

  /** A failure whose episode has not lasted starts anew: it does not nudge and
      is tracked like a first one. */
  lemma {:induction false} StaleFailureStartsAnew(steps: seq<Step>, p: nat, n: nat) returns (r: Episode)
    requires n < |steps| && ValidSteps(steps) && Few(steps) && FreshFailure(steps, n)
    requires LastOf(steps, p, n, steps[n].payload.event.episodeKey)
    requires exists k :: p < k <= n && steps[k].now > steps[p].now + 1800.0
    ensures Apply(Run(steps[..n]), steps[n]).nudge.None?
    ensures r in Run(steps[..n + 1]).episodes && r.id == steps[n].payload.event.episodeKey
    ensures r.stamp == steps[n].now && r.data.phase.Tracking?
  {
    forall q | 0 <= q < n ensures !Follows(steps, q, n) {
      if Follows(steps, q, n) {
        LastIsOne(steps, p, q, n, steps[n].payload.event.episodeKey);
        assert false;
      }
    }
    NudgeIsSecondInTime(steps, n);
    r := FailureLeaves(steps, n);
  }

  /** Two failures of one episode under different tool ids: the second nudges if
      and only if it comes within half an hour of the first. */
  lemma {:induction false} TwoFailures(a: Step, b: Step)
    requires a.now >= 0.0 && b.now >= 0.0 && a.payload.Accepted? && b.payload.Accepted?
    requires a.payload.event.outcome.Failure? && b.payload.event.outcome.Failure?
    requires a.payload.event.episodeKey == b.payload.event.episodeKey
    requires a.payload.event.toolId != b.payload.event.toolId
    ensures Apply(Run([a]), b).nudge == if b.now <= a.now + 1800.0 then Some(b.payload.event.hook) else None
  {
    var steps := [a, b];
    var key, one := a.payload.event.episodeKey, 1;
    assert steps[..one] == [a];
    TwoAreFew(a, b);
    assert Fresh(steps, 0);
    assert Fresh(steps, one);
    assert Opens(steps, 0);
    assert LastOf(steps, 0, one, key);
    assert Follows(steps, 0, one) <==> b.now <= a.now + 1800.0;
    NudgeIsSecondInTime(steps, one);
  }

  lemma {:induction false} TwoAreFew(a: Step, b: Step)
    requires a.payload.Accepted? && b.payload.Accepted?
    ensures Few([a, b])
  {
    SubsetSize(Keys([a, b]), {a.payload.event.episodeKey, b.payload.event.episodeKey});
    SubsetSize(ToolIds([a, b]), {a.payload.event.toolId, b.payload.event.toolId});
  }

  /** One tidying of tables within their bounds keeps exactly the records whose
      stamp is at most 1800 seconds old. */
  lemma {:induction false} ExpiryIsExact(s: State, now: real)
    requires |s.episodes| <= 256 && |s.events| <= 512
    ensures var t := Apply(s, Step(Silent, now)).state;
      && (forall r :: r in t.episodes <==> r in s.episodes && now <= r.stamp + 1800.0)
      && (forall r :: r in t.events <==> r in s.events && now <= r.stamp + 1800.0)
  {
  }

  // ---- Every counter counts what happened ----

  /** A lasting fresh step has brought the very same event. */
  predicate Repeats(steps: seq<Step>, n: nat)
    requires n < |steps| && steps[n].payload.Accepted?
  {
    exists j :: 0 <= j < n && Fresh(steps, j) && Lasts(steps, j, n + 1)
      && steps[j].payload.event.toolId == steps[n].payload.event.toolId
      && steps[j].payload.event.episodeKey == steps[n].payload.event.episodeKey
      && steps[j].payload.event.outcome == steps[n].payload.event.outcome
  }

  function Counted(steps: seq<Step>, n: nat): Option<Counter>
    requires n < |steps|
  {
    match steps[n].payload
    case Silent => None
    case Rejected(reason) => Some(reason)
    case Accepted(e) =>
      if !Fresh(steps, n) then Some(if Repeats(steps, n) then Dedupe else Conflict)
      else if e.outcome.Success? then
        if exists p :: 0 <= p < n && Follows(steps, p, n) then Some(SuccessReset) else None
      else Some(if Opens(steps, n) then TrackingStarted
                else if IsSecond(steps, n) then NudgeEmitted else FailureAfterEmit)
  }

  function After(c: Counters, moved: Option<Counter>): Counters {
    if moved.None? then c else Bump(c, moved.value, 1)
  }

  lemma {:induction false} RepeatIsFound(rs: seq<Event>, steps: seq<Step>, n: nat)
    requires n < |steps| && EventsListed(rs, steps, n, n + 1) && DistinctIds(rs)
    requires steps[n].payload.Accepted? && !Fresh(steps, n)
    ensures var e := steps[n].payload.event;
      var at := Find(rs, e.toolId);
      at.Some? && (rs[at.value].data == EventData(e.episodeKey, e.outcome) <==> Repeats(steps, n))
  {
    var e, m := steps[n].payload.event, n + 1;
    FreshIsAbsent(rs, steps, n);
    var r := rs[Find(rs, e.toolId).value];
    assert r in rs;
    var j: nat :| Kept(steps, j, n, m) && r == EventOf(steps, j);
    if Repeats(steps, n) {
      var k :| 0 <= k < n && Fresh(steps, k) && Lasts(steps, k, m)
               && steps[k].payload.event.toolId == e.toolId
               && steps[k].payload.event.episodeKey == e.episodeKey && steps[k].payload.event.outcome == e.outcome;
      assert Kept(steps, k, n, m);
      assert EventOf(steps, k) in rs;
    }
  }

  lemma {:induction false} StaleCounts(tidy: State, steps: seq<Step>, n: nat)
    requires n < |steps| && !Fresh(steps, n) && Timed(tidy, steps, n, n + 1) && Valid(tidy)
    ensures React(tidy, steps[n]).state.counters == After(tidy.counters, Counted(steps, n))
  {
    if steps[n].payload.Accepted? {
      RepeatIsFound(tidy.events, steps, n);
    }
  }

  lemma {:induction false} AdvanceCounts(grown: State, steps: seq<Step>, n: nat)
    requires n < |steps| && Fresh(steps, n) && EpisodesListed(grown.episodes, steps, n, n + 1)
    ensures Advance(grown, steps[n].payload.event, steps[n].now).state.counters
            == After(grown.counters, Counted(steps, n))
  {
    FindFollows(grown.episodes, steps, n);
    if FreshFailure(steps, n) {
      SecondFollows(grown, steps, n);
    }
  }

  lemma {:induction false} NoneEvicted(s: State)
    requires |s.episodes| <= 256 && |s.events| <= 512
    ensures Evicted(s).counters == s.counters
  {
  }

  lemma {:induction false} FreshCounts(tidy: State, steps: seq<Step>, n: nat)
    requires n < |steps| && Fresh(steps, n) && Few(steps) && Valid(tidy) && steps[n].now >= 0.0
    requires Timed(tidy, steps, n, n + 1)
    ensures React(tidy, steps[n]).state.counters == After(tidy.counters, Counted(steps, n))
  {
    var e := steps[n].payload.event;
    var grown := tidy.(events := tidy.events + [EventOf(steps, n)]);
    var t := Advance(grown, e, steps[n].now).state;
    FreshIsAbsent(tidy.events, steps, n);
    FreshEvents(tidy.events, steps, n);
    FreshEpisodes(grown, steps, n);
    AppendEventKeeps(tidy, e, steps[n].now);
    AdvanceKeeps(grown, e, steps[n].now);
    FewRecords(t, steps, n + 1, n + 1);
    NoneEvicted(t);
    AdvanceCounts(grown, steps, n);
  }

  const LOSSES: set<Counter> := {EpisodeExpired, EventExpired, EpisodeEvicted, EventEvicted}

  lemma {:induction false} TidyCounts(s: State, now: real, c: Counter)
    requires c !in LOSSES
    ensures Get(Tidy(s, now).counters, c) == Get(s.counters, c)
  {
  }

  lemma {:induction false} ReactCounts(tidy: State, steps: seq<Step>, n: nat, after: State)
    requires n < |steps| && Few(steps) && Valid(tidy) && steps[n].now >= 0.0
    requires Timed(tidy, steps, n, n + 1) && after == React(tidy, steps[n]).state
    ensures after.counters == After(tidy.counters, Counted(steps, n))
  {
    if Fresh(steps, n) {
      FreshCounts(tidy, steps, n);
    } else {
      StaleCounts(tidy, steps, n);
    }
  }

  lemma {:induction false} BumpTells(before: Counters, c: Counter, moved: Option<Counter>)
    requires Get(before, c) <= MAX_COUNTER
    ensures Get(After(before, moved), c) == Min(MAX_COUNTER, Get(before, c) + if moved == Some(c) then 1 else 0)
  {
  }

  lemma {:induction false} StepCounts(s: State, steps: seq<Step>, n: nat, c: Counter, after: State)
    requires n < |steps| && Few(steps) && Valid(s) && steps[n].now >= 0.0 && c !in LOSSES
    requires Timed(s, steps, n, n) && after == Apply(s, steps[n]).state
    ensures Get(after.counters, c)
            == Min(MAX_COUNTER, Get(s.counters, c) + if Counted(steps, n) == Some(c) then 1 else 0)
  {
    var tidy := Tidy(s, steps[n].now);
    TidyTimed(s, steps, n);
    TidyKeeps(s, steps[n].now);
    TidyCounts(s, steps[n].now, c);
    ReactCounts(tidy, steps, n, after);
    BumpTells(tidy.counters, c, Counted(steps, n));
  }

  lemma {:induction false} RunAt(steps: seq<Step>, n: nat)
    requires n <= |steps| && ValidSteps(steps) && Few(steps)
    ensures Valid(Run(steps[..n])) && Timed(Run(steps[..n]), steps, n, n)
  {
    RunIsTimed(steps, n);
    RunIsValid(steps[..n]);
  }

  /** In every run each counter but those of the losses moves by one exactly
      when what it counts has happened. */
  lemma {:induction false} CountersTell(steps: seq<Step>, n: nat, c: Counter, s: State, after: State)
    requires n < |steps| && ValidSteps(steps) && Few(steps) && c !in LOSSES
    requires s == Run(steps[..n]) && after == Apply(s, steps[n]).state
    ensures Get(after.counters, c)
            == Min(MAX_COUNTER, Get(s.counters, c) + if Counted(steps, n) == Some(c) then 1 else 0)
  {
    RunAt(steps, n);
    StepCounts(s, steps, n, c, after);
  }

  // ---- On time: the history without expiry ----

  /** No earlier step has brought this tool id. */
  predicate New(steps: seq<Step>, i: nat)
    requires i < |steps|
  {
    && steps[i].payload.Accepted?
    && forall j :: 0 <= j < i && steps[j].payload.Accepted? ==>
         steps[j].payload.event.toolId != steps[i].payload.event.toolId
  }

  predicate Neighbours(steps: seq<Step>, j: nat, k: nat)
    requires j < k < |steps|
  {
    && New(steps, j) && New(steps, k) && steps[j].payload.event.episodeKey == steps[k].payload.event.episodeKey
    && forall m :: j < m < k && New(steps, m) ==>
         steps[m].payload.event.episodeKey != steps[k].payload.event.episodeKey
  }

  predicate Repeated(steps: seq<Step>, j: nat, k: nat)
    requires j < k < |steps|
  {
    New(steps, j) && steps[k].payload.Accepted? && steps[k].payload.event.toolId == steps[j].payload.event.toolId
  }

  /** Nothing comes more than half an hour after it is needed: neither between a
      tool id and its repetition nor between neighbours of one episode. */
  ghost predicate Timely(steps: seq<Step>) {
    && (forall j, k :: 0 <= j < k < |steps| && Repeated(steps, j, k) ==> Lasts(steps, j, k + 1))
    && (forall j, k :: 0 <= j < k < |steps| && Neighbours(steps, j, k) ==> Lasts(steps, j, k + 1))
  }

  /** The step that brought a tool id first. */
  lemma {:induction false} FirstOf(steps: seq<Step>, i: nat) returns (j: nat)
    requires i < |steps| && steps[i].payload.Accepted?
    ensures j <= i && New(steps, j) && steps[j].payload.event.toolId == steps[i].payload.event.toolId
  {
    if New(steps, i) {
      j := i;
    } else {
      var k :| 0 <= k < i && steps[k].payload.Accepted?
               && steps[k].payload.event.toolId == steps[i].payload.event.toolId;
      j := FirstOf(steps, k);
    }
  }

  lemma {:induction false} FreshIsNew(steps: seq<Step>, i: nat)
    requires i < |steps| && Timely(steps)
    ensures Fresh(steps, i) <==> New(steps, i)
  {
    if Fresh(steps, i) {
      var j := FirstOf(steps, i);
      if j < i {
        assert Repeated(steps, j, i);
        FreshIsNew(steps, j);
      }
    }
  }

  lemma {:induction false} SeenIsBrought(steps: seq<Step>, n: nat, d: Digest)
    requires n <= |steps|
    ensures Seen(History(steps[..n]), d)
            <==> exists j :: 0 <= j < n && steps[j].payload.Accepted? && steps[j].payload.event.toolId == d
  {
    if n > 0 {
      var m := n - 1;
      var h, p := History(steps[..m]), steps[m].payload;
      SeenIsBrought(steps, m, d);
      assert steps[..n][..m] == steps[..m];
      assert History(steps[..n]) == Grow(h, p);
      GrowSees(h, p, d);
    }
  }

  lemma {:induction false} GrowSees(h: seq<TerminalEvent>, p: Classified, d: Digest)
    ensures Seen(Grow(h, p), d) <==> Seen(h, d) || (p.Accepted? && p.event.toolId == d)
  {
    var g := Grow(h, p);
    if Seen(h, d) {
      var i :| 0 <= i < |h| && h[i].toolId == d;
      assert g[i].toolId == d;
    }
    if p.Accepted? && p.event.toolId == d && !Seen(h, d) {
      assert g[|h|].toolId == d;
    }
    if Seen(g, d) {
      var i :| 0 <= i < |g| && g[i].toolId == d;
      if i < |h| {
        assert h[i].toolId == d;
      }
    }
  }

  lemma {:induction false} NewIsUnseen(steps: seq<Step>, n: nat)
    requires n < |steps| && steps[n].payload.Accepted?
    ensures New(steps, n) <==> !Seen(History(steps[..n]), steps[n].payload.event.toolId)
  {
    SeenIsBrought(steps, n, steps[n].payload.event.toolId);
  }

  lemma {:induction false} HistoryGrows(steps: seq<Step>, n: nat)
    requires n < |steps|
    ensures History(steps[..n + 1])
            == if New(steps, n) then History(steps[..n]) + [steps[n].payload.event] else History(steps[..n])
  {
    assert steps[..n + 1][..n] == steps[..n];
    if steps[n].payload.Accepted? {
      NewIsUnseen(steps, n);
    }
  }

  /** A failure was the last fresh step of the key. */
  predicate Failed(steps: seq<Step>, p: nat, n: nat, key: Digest)
    requires n <= |steps|
  {
    LastOf(steps, p, n, key) && steps[p].payload.event.outcome.Failure?
  }

  predicate FirstFailed(steps: seq<Step>, p: nat, n: nat, key: Digest)
    requires n <= |steps|
  {
    Failed(steps, p, n, key) && forall q :: 0 <= q < p ==> !Failed(steps, q, p, key)
  }

  lemma {:induction false} FailedStays(steps: seq<Step>, n: nat, key: Digest, p: nat)
    requires n < |steps| && !(Fresh(steps, n) && steps[n].payload.event.episodeKey == key)
    ensures Failed(steps, p, n + 1, key) <==> Failed(steps, p, n, key)
  {
  }

  lemma {:induction false} FailedMoves(steps: seq<Step>, n: nat, key: Digest, p: nat)
    requires n < |steps| && Fresh(steps, n) && steps[n].payload.event.episodeKey == key
    ensures Failed(steps, p, n + 1, key) <==> p == n && steps[n].payload.event.outcome.Failure?
  {
    var m := n + 1;
    assert LastOf(steps, n, m, key);
    if LastOf(steps, p, m, key) {
      LastIsOne(steps, p, n, m, key);
    }
  }

  predicate HasFailed(steps: seq<Step>, n: nat, key: Digest)
    requires n <= |steps|
  {
    exists p :: 0 <= p < n && Failed(steps, p, n, key)
  }

  predicate HasFirst(steps: seq<Step>, n: nat, key: Digest)
    requires n <= |steps|
  {
    exists p :: 0 <= p < n && FirstFailed(steps, p, n, key)
  }

  lemma {:induction false} FailuresMove(steps: seq<Step>, n: nat, key: Digest)
    requires n < |steps| && Fresh(steps, n) && steps[n].payload.event.episodeKey == key
    ensures var failed := steps[n].payload.event.outcome.Failure?;
      && (HasFailed(steps, n + 1, key) <==> failed)
      && (HasFirst(steps, n + 1, key) <==> failed && !HasFailed(steps, n, key))
  {
    var m := n + 1;
    forall p: nat ensures Failed(steps, p, m, key) <==> p == n && steps[n].payload.event.outcome.Failure? {
      FailedMoves(steps, n, key, p);
    }
    if steps[n].payload.event.outcome.Failure? {
      assert Failed(steps, n, m, key);
      assert FirstFailed(steps, n, m, key) <==> !HasFailed(steps, n, key);
    }
  }

  lemma {:induction false} FailuresStay(steps: seq<Step>, n: nat, key: Digest)
    requires n < |steps| && !(Fresh(steps, n) && steps[n].payload.event.episodeKey == key)
    ensures HasFailed(steps, n + 1, key) <==> HasFailed(steps, n, key)
    ensures HasFirst(steps, n + 1, key) <==> HasFirst(steps, n, key)
  {
    var m := n + 1;
    forall p: nat ensures Failed(steps, p, m, key) <==> Failed(steps, p, n, key) {
      FailedStays(steps, n, key, p);
    }
    if HasFirst(steps, n, key) {
      var p :| 0 <= p < n && FirstFailed(steps, p, n, key);
      assert FirstFailed(steps, p, m, key);
    }
    if HasFirst(steps, m, key) {
      var p :| 0 <= p < m && FirstFailed(steps, p, m, key);
      assert FirstFailed(steps, p, n, key);
    }
    if HasFailed(steps, n, key) {
      var p :| 0 <= p < n && Failed(steps, p, n, key);
      assert Failed(steps, p, m, key);
    }
  }

  /** The streak of a key, read off the steps. */
  lemma {:induction false} StreakInTime(steps: seq<Step>, n: nat, key: Digest)
    requires n <= |steps| && Timely(steps)
    ensures KeyStreak(History(steps[..n]), key) > 0 <==> HasFailed(steps, n, key)
    ensures KeyStreak(History(steps[..n]), key) == 1 <==> HasFirst(steps, n, key)
  {
    if n > 0 {
      var m := n - 1;
      StreakInTime(steps, m, key);
      StreakStep(steps, m, key);
      FreshIsNew(steps, m);
      if Fresh(steps, m) && steps[m].payload.event.episodeKey == key {
        FailuresMove(steps, m, key);
      } else {
        FailuresStay(steps, m, key);
      }
    }
  }

  lemma {:induction false} StreakStep(steps: seq<Step>, n: nat, key: Digest)
    requires n < |steps|
    ensures KeyStreak(History(steps[..n + 1]), key) ==
            if New(steps, n) && steps[n].payload.event.episodeKey == key then
              if steps[n].payload.event.outcome.Success? then 0 else KeyStreak(History(steps[..n]), key) + 1
            else KeyStreak(History(steps[..n]), key)
  {
    HistoryGrows(steps, n);
    if New(steps, n) {
      KeyStreakAppend(History(steps[..n]), steps[n].payload.event, key);
    }
  }

  lemma {:induction false} FollowsOnTime(steps: seq<Step>, p: nat, n: nat)
    requires p < n < |steps| && Timely(steps) && Fresh(steps, n)
    ensures Follows(steps, p, n) <==> Failed(steps, p, n, steps[n].payload.event.episodeKey)
  {
    if Failed(steps, p, n, steps[n].payload.event.episodeKey) {
      forall m | p <= m <= n ensures Fresh(steps, m) <==> New(steps, m) {
        FreshIsNew(steps, m);
      }
      assert Neighbours(steps, p, n);
    }
  }

  lemma {:induction false} SecondOnTime(steps: seq<Step>, n: nat)
    requires n < |steps| && Timely(steps) && FreshFailure(steps, n)
    ensures IsSecond(steps, n) <==> HasFirst(steps, n, steps[n].payload.event.episodeKey)
  {
    var key := steps[n].payload.event.episodeKey;
    forall p: nat | p < n ensures Follows(steps, p, n) <==> Failed(steps, p, n, key) {
      FollowsOnTime(steps, p, n);
    }
    forall p: nat | p < n && Failed(steps, p, n, key)
      ensures Opens(steps, p) <==> FirstFailed(steps, p, n, key)
    {
      forall q: nat | q < p ensures Follows(steps, q, p) <==> Failed(steps, q, p, key) {
        FollowsOnTime(steps, q, p);
      }
    }
    if HasFirst(steps, n, key) {
      var p :| 0 <= p < n && FirstFailed(steps, p, n, key);
      assert Follows(steps, p, n) && Opens(steps, p);
    }
    if IsSecond(steps, n) {
      var p :| 0 <= p < n && Follows(steps, p, n) && Opens(steps, p);
      assert FirstFailed(steps, p, n, key);
    }
  }

  /** In every run that is on time and small enough, a payload nudges exactly
      when the history without expiry says so. */
  lemma {:induction false} NudgeOnTime(steps: seq<Step>, n: nat)
    requires n < |steps| && ValidSteps(steps) && Few(steps) && Timely(steps)
    requires steps[n].payload.Accepted? ==> Faithful(History(steps[..n]), steps[n].payload.event)
    ensures Apply(Run(steps[..n]), steps[n]).nudge == ExpectedNudge(History(steps[..n]), steps[n].payload)
  {
    NudgeIsSecondInTime(steps, n);
    ExpectedOnTime(steps, n);
  }

  lemma {:induction false} ExpectedOnTime(steps: seq<Step>, n: nat)
    requires n < |steps| && Timely(steps)
    requires steps[n].payload.Accepted? ==> Faithful(History(steps[..n]), steps[n].payload.event)
    ensures ExpectedInTime(steps, n) == ExpectedNudge(History(steps[..n]), steps[n].payload)
  {
    FreshIsNew(steps, n);
    if steps[n].payload.Accepted? {
      NewIsUnseen(steps, n);
      if FreshFailure(steps, n) {
        SecondOnTime(steps, n);
        StreakInTime(steps, n, steps[n].payload.event.episodeKey);
        StreakByKey(History(steps[..n]), steps[n].payload.event);
      }
    }
  }
}
