/** Many hook processes sharing one state file under one advisory lock, with
    crashes and I/O failures at any point of a transaction. */
module NudgeProtocol {
  import opened Basics
  import opened RecordTable
  import opened FailureNudge

  type Pid = nat

  /** Where a process stands between reading its payload and exiting. The
      response travels with the position of its commit in the log. */
  datatype Process =
    | Waiting(payload: Classified)
    | Locked(payload: Classified)
    | Loaded(payload: Classified, state: State)
    | Applied(step: Step, next: State, nudge: Option<HookName>)
    | Persisted(commit: nat, nudge: Option<HookName>)
    | Replying(commit: nat, nudge: Option<HookName>)
    | Failing
    | Finished
    | Crashed

  /** A printed nudge and the commit that earned it. */
  datatype Printed = Printed(commit: nat, hook: HookName)

  datatype World = World(
    disk: Option<State>,
    lock: Option<Pid>,
    procs: map<Pid, Process>,
    log: seq<Step>,
    printed: seq<Printed>)

  const START := World(None, None, map[], [], [])

  datatype Action =
    | Spawn(pid: Pid, payload: Classified)
    | TakeLock(pid: Pid)
    | GiveUp(pid: Pid)
    | Load(pid: Pid)
    | LoadFails(pid: Pid)
    | Compute(pid: Pid, now: real)
    | Save(pid: Pid)
    | SaveFailsBeforeRename(pid: Pid)
    | SaveFailsAfterRename(pid: Pid)
    | Unlock(pid: Pid)
    | Print(pid: Pid)
    | Crash(pid: Pid)

  predicate HoldsLock(p: Process) {
    p.Locked? || p.Loaded? || p.Applied? || p.Persisted?
  }

  /** What loading reads: an absent file is the empty state. */
  function OnDisk(w: World): State {
    if w.disk.None? then EMPTY_STATE else w.disk.value
  }

  predicate Enabled(w: World, a: Action) {
    if a.Spawn? then a.pid !in w.procs
    else
      a.pid in w.procs &&
      var p := w.procs[a.pid];
      match a
      case Spawn(_, _) => false
      case TakeLock(_) => p.Waiting? && !p.payload.Silent? && w.lock.None?
      case GiveUp(_) => p.Waiting?
      case Load(_) => p.Locked?
      case LoadFails(_) => p.Locked?
      case Compute(_, now) => p.Loaded? && now >= 0.0
      case Save(_) => p.Applied?
      case SaveFailsBeforeRename(_) => p.Applied?
      case SaveFailsAfterRename(_) => p.Applied?
      case Unlock(_) => p.Persisted?
      case Print(_) => p.Replying? || p.Failing?
      case Crash(_) => !p.Crashed? && !p.Finished?
  }

  function Release(w: World, pid: Pid): Option<Pid> {
    if w.lock == Some(pid) then None else w.lock
  }

  function Become(w: World, pid: Pid, p: Process): World {
    w.(procs := w.procs[pid := p])
  }

  /** One atomic step of one process. A failed load or save releases the lock
      and leaves an empty reply; a rename that happened stays. */
  function Next(w: World, a: Action): World
    requires Enabled(w, a)
  {
    match a
    case Spawn(pid, payload) => Become(w, pid, Waiting(payload))
    case TakeLock(pid) => Become(w, pid, Locked(w.procs[pid].payload)).(lock := Some(pid))
    case GiveUp(pid) => Become(w, pid, Failing)
    case Load(pid) => Become(w, pid, Loaded(w.procs[pid].payload, OnDisk(w)))
    case LoadFails(pid) => Become(w, pid, Failing).(lock := Release(w, pid))
    case Compute(pid, now) =>
      var p := w.procs[pid];
      var t := Apply(p.state, Step(p.payload, now));
      Become(w, pid, Applied(Step(p.payload, now), t.state, t.nudge))
    case Save(pid) =>
      var p := w.procs[pid];
      Become(w, pid, Persisted(|w.log|, p.nudge)).(disk := Some(p.next), log := w.log + [p.step])
    case SaveFailsBeforeRename(pid) => Become(w, pid, Failing).(lock := Release(w, pid))
    case SaveFailsAfterRename(pid) =>
      var p := w.procs[pid];
      Become(w, pid, Failing).(disk := Some(p.next), log := w.log + [p.step], lock := Release(w, pid))
    case Unlock(pid) =>
      var p := w.procs[pid];
      Become(w, pid, Replying(p.commit, p.nudge)).(lock := Release(w, pid))
    case Print(pid) =>
      var p := w.procs[pid];
      var out := if p.Replying? && p.nudge.Some? then [Printed(p.commit, p.nudge.value)] else [];
      Become(w, pid, Finished).(printed := w.printed + out)
    case Crash(pid) => Become(w, pid, Crashed).(lock := Release(w, pid))
  }

  predicate Legal(actions: seq<Action>, w: World) {
    actions == [] || (Enabled(w, actions[0]) && Legal(actions[1..], Next(w, actions[0])))
  }

  function Exec(actions: seq<Action>, w: World): World
    requires Legal(actions, w)
  {
    if actions == [] then w else Exec(actions[1..], Next(w, actions[0]))
  }

  // ---- The invariant ----

  predicate Exclusive(w: World) {
    forall pid :: pid in w.procs ==> (HoldsLock(w.procs[pid]) <==> w.lock == Some(pid))
  }

  /** What one process carries agrees with the log. */
  predicate Consistent(w: World, p: Process) {
    match p
    case Loaded(_, state) => state == Run(w.log)
    case Applied(step, next, nudge) =>
      step.now >= 0.0 && Transition(next, nudge) == Apply(Run(w.log), step)
    case Persisted(commit, nudge) => commit < |w.log| && nudge == NudgeAt(w.log, commit)
    case Replying(commit, nudge) => commit < |w.log| && nudge == NudgeAt(w.log, commit)
    case _ => true
  }

  /** The response of the transaction at this position of the log. */
  function NudgeAt(log: seq<Step>, at: nat): Option<HookName>
    requires at < |log|
  {
    Apply(Run(log[..at]), log[at]).nudge
  }

  predicate Carries(p: Process, commit: nat) {
    (p.Persisted? || p.Replying?) && p.commit == commit
  }

  /** Each commit's reply is either still carried by one process or printed once. */
  ghost predicate OneReplyPerCommit(w: World) {
    && (forall i, j :: 0 <= i < j < |w.printed| ==> w.printed[i].commit != w.printed[j].commit)
    && (forall pid, i :: pid in w.procs && 0 <= i < |w.printed| ==>
          !Carries(w.procs[pid], w.printed[i].commit))
    && (forall p, q, n :: p in w.procs && q in w.procs && Carries(w.procs[p], n) && Carries(w.procs[q], n) ==> p == q)
  }

  function Faithful(log: seq<Step>): Printed -> bool {
    (p: Printed) => p.commit < |log| && NudgeAt(log, p.commit) == Some(p.hook)
  }

  predicate PrintedFaithfully(w: World) {
    forall i :: 0 <= i < |w.printed| ==> Faithful(w.log)(w.printed[i])
  }

  ghost predicate Inv(w: World) {
    && Exclusive(w)
    && (w.lock.Some? ==> w.lock.value in w.procs)
    && ValidSteps(w.log)
    && OnDisk(w) == Run(w.log)
    && (forall pid :: pid in w.procs ==> Consistent(w, w.procs[pid]))
    && OneReplyPerCommit(w)
    && PrintedFaithfully(w)
  }

  lemma NudgeAtExtend(log: seq<Step>, step: Step, at: nat)
    requires at < |log|
    ensures NudgeAt(log + [step], at) == NudgeAt(log, at)
  {
    assert (log + [step])[..at] == log[..at];
  }

  lemma RepliesStand(log: seq<Step>, step: Step)
    ensures forall at :: 0 <= at < |log| ==> NudgeAt(log + [step], at) == NudgeAt(log, at)
    ensures NudgeAt(log + [step], |log|) == Apply(Run(log), step).nudge
  {
    assert (log + [step])[..|log|] == log;
    forall at | 0 <= at < |log| ensures NudgeAt(log + [step], at) == NudgeAt(log, at) {
      NudgeAtExtend(log, step, at);
    }
  }

  lemma RunFurther(log: seq<Step>, step: Step, t: Transition)
    requires ValidSteps(log) && step.now >= 0.0 && t == Apply(Run(log), step)
    ensures ValidSteps(log + [step]) && Run(log + [step]) == t.state
  {
    assert (log + [step])[..|log|] == log;
  }

  lemma CommitKeepsFold(w: World, pid: Pid, w': World)
    requires Inv(w) && pid in w.procs && w.procs[pid].Applied?
    requires w'.disk == Some(w.procs[pid].next) && w'.log == w.log + [w.procs[pid].step]
    ensures ValidSteps(w'.log) && OnDisk(w') == Run(w'.log)
  {
    assert Consistent(w, w.procs[pid]);
    RunFurther(w.log, w.procs[pid].step, Transition(w.procs[pid].next, w.procs[pid].nudge));
  }

  lemma CommitKeepsConsistent(w: World, pid: Pid, q: Pid, w': World)
    requires Inv(w) && pid in w.procs && w.procs[pid].Applied? && q in w.procs && q != pid
    requires w'.log == w.log + [w.procs[pid].step]
    ensures Consistent(w', w.procs[q])
  {
    RepliesStand(w.log, w.procs[pid].step);
    assert Consistent(w, w.procs[q]);
    assert w.lock == Some(pid);
    assert !HoldsLock(w.procs[q]);
  }

  lemma CommitKeepsPrinted(w: World, step: Step, w': World)
    requires PrintedFaithfully(w) && w'.log == w.log + [step] && w'.printed == w.printed
    ensures PrintedFaithfully(w')
  {
    RepliesStand(w.log, step);
    forall i | 0 <= i < |w'.printed| ensures Faithful(w'.log)(w'.printed[i]) {
      assert Faithful(w.log)(w.printed[i]);
    }
  }

  /** A rename by the lock holder extends the log and keeps every other
      process consistent, because no other process is inside a transaction. */
  lemma CommitKeeps(w: World, pid: Pid, p: Process, w': World)
    requires Inv(w) && pid in w.procs && w.procs[pid].Applied?
    requires w'.disk == Some(w.procs[pid].next) && w'.log == w.log + [w.procs[pid].step]
    requires w'.printed == w.printed
    requires w'.procs == w.procs[pid := p]
    requires p.Failing? || p == Persisted(|w.log|, w.procs[pid].nudge)
    ensures ValidSteps(w'.log) && OnDisk(w') == Run(w'.log)
    ensures forall q :: q in w'.procs ==> Consistent(w', w'.procs[q])
    ensures PrintedFaithfully(w')
  {
    CommitKeepsFold(w, pid, w');
    CommitKeepsPrinted(w, w.procs[pid].step, w');
    forall q | q in w'.procs ensures Consistent(w', w'.procs[q]) {
      if q != pid {
        CommitKeepsConsistent(w, pid, q, w');
      } else {
        assert Consistent(w, w.procs[pid]);
        RepliesStand(w.log, w.procs[pid].step);
      }
    }
  }

  /** No reply belongs to a commit that has not been made. */
  ghost predicate NoneAhead(w: World) {
    && (forall q :: q in w.procs ==> !Carries(w.procs[q], |w.log|))
    && (forall i :: 0 <= i < |w.printed| ==> w.printed[i].commit < |w.log|)
  }

  lemma InvNoneAhead(w: World)
    requires Inv(w)
    ensures NoneAhead(w)
  {
    forall q | q in w.procs ensures !Carries(w.procs[q], |w.log|) {
      assert Consistent(w, w.procs[q]);
    }
  }

  /** A process may keep its reply or take the one of the commit just made. */
  lemma RepliesKept(w: World, pid: Pid, p: Process)
    requires OneReplyPerCommit(w) && NoneAhead(w)
    requires forall n :: Carries(p, n) ==> n == |w.log| || (pid in w.procs && Carries(w.procs[pid], n))
    ensures OneReplyPerCommit(w.(procs := w.procs[pid := p]))
  {
  }

  lemma RepliesPrinted(w: World, pid: Pid)
    requires OneReplyPerCommit(w) && pid in w.procs && w.procs[pid].Replying? && w.procs[pid].nudge.Some?
    ensures OneReplyPerCommit(Next(w, Print(pid)))
  {
    assert Carries(w.procs[pid], w.procs[pid].commit);
  }

  lemma HoldsOfOneMore<T>(before: seq<T>, after: seq<T>, holds: T -> bool)
    requires |after| == |before| + 1 && after[..|before|] == before
    requires (forall i :: 0 <= i < |before| ==> holds(before[i])) && holds(after[|before|])
    ensures forall i :: 0 <= i < |after| ==> holds(after[i])
  {
    forall i | 0 <= i < |after| ensures holds(after[i]) {
      if i < |before| {
        assert after[i] == before[i];
      }
    }
  }

  lemma PrintsFaithfully(w: World, pid: Pid)
    requires PrintedFaithfully(w) && pid in w.procs && w.procs[pid].Replying? && w.procs[pid].nudge.Some?
    requires Consistent(w, w.procs[pid])
    ensures PrintedFaithfully(Next(w, Print(pid)))
  {
    HoldsOfOneMore(w.printed, Next(w, Print(pid)).printed, Faithful(w.log));
  }

  predicate Prints(w: World, a: Action)
    requires Enabled(w, a)
  {
    a.Print? && w.procs[a.pid].Replying? && w.procs[a.pid].nudge.Some?
  }

  /** Every other step leaves the prints alone and can at most carry the reply
      to the next commit. */
  lemma QuietStep(w: World, a: Action)
    requires Enabled(w, a) && !Prints(w, a)
    ensures var w' := Next(w, a);
      && a.pid in w'.procs && w'.procs == w.procs[a.pid := w'.procs[a.pid]] && w'.printed == w.printed
      && forall n :: Carries(w'.procs[a.pid], n) ==> n == |w.log| || (a.pid in w.procs && Carries(w.procs[a.pid], n))
  {
  }

  lemma StepKeepsReplies(w: World, a: Action)
    requires Inv(w) && Enabled(w, a)
    ensures OneReplyPerCommit(Next(w, a))
  {
    if Prints(w, a) {
      RepliesPrinted(w, a.pid);
    } else {
      QuietStep(w, a);
      InvNoneAhead(w);
      RepliesKept(w, a.pid, Next(w, a).procs[a.pid]);
    }
  }

  lemma StepKeepsExclusive(w: World, a: Action)
    requires Exclusive(w) && (w.lock.Some? ==> w.lock.value in w.procs) && Enabled(w, a)
    ensures Exclusive(Next(w, a))
    ensures var w' := Next(w, a); w'.lock.Some? ==> w'.lock.value in w'.procs
  {
    assert forall q :: q in w.procs && q != a.pid ==> Next(w, a).procs[q] == w.procs[q];
  }

  lemma StepKeepsConsistent(w: World, a: Action)
    requires Inv(w) && Enabled(w, a) && !a.Save? && !a.SaveFailsAfterRename?
    ensures var w' := Next(w, a);
      && w'.log == w.log && OnDisk(w') == OnDisk(w)
      && (forall q :: q in w'.procs ==> Consistent(w', w'.procs[q]))
  {
    var w' := Next(w, a);
    if a.pid in w.procs {
      assert Consistent(w, w.procs[a.pid]);
    }
    assert Consistent(w', w'.procs[a.pid]);
    forall q | q in w'.procs && q != a.pid ensures Consistent(w', w'.procs[q]) {
      assert Consistent(w, w.procs[q]);
    }
  }

  lemma StepKeepsPrinted(w: World, a: Action)
    requires Inv(w) && Enabled(w, a) && Next(w, a).log == w.log
    ensures PrintedFaithfully(Next(w, a))
  {
    if Prints(w, a) {
      assert Consistent(w, w.procs[a.pid]);
      PrintsFaithfully(w, a.pid);
    } else {
      QuietStep(w, a);
    }
  }

  lemma StepKeepsInv(w: World, a: Action)
    requires Inv(w) && Enabled(w, a)
    ensures Inv(Next(w, a))
  {
    var w' := Next(w, a);
    StepKeepsReplies(w, a);
    StepKeepsExclusive(w, a);
    if a.Save? || a.SaveFailsAfterRename? {
      CommitKeeps(w, a.pid, w'.procs[a.pid], w');
    } else {
      StepKeepsConsistent(w, a);
      StepKeepsPrinted(w, a);
    }
  }

  lemma {:induction false} ExecKeepsInv(actions: seq<Action>, w: World)
    requires Legal(actions, w) && Inv(w)
    ensures Inv(Exec(actions, w))
  {
    if actions != [] {
      StepKeepsInv(w, actions[0]);
      ExecKeepsInv(actions[1..], Next(w, actions[0]));
    }
  }

  // ---- Between two nudges of one episode it was removed ----

  predicate Emitting(s: State, key: Digest) {
    exists i :: 0 <= i < |s.episodes| && s.episodes[i].id == key && s.episodes[i].data.phase.Emitted?
  }

  /** Committing this step loses the episode: it expired, was evicted, or a success reset it. */
  predicate Removes(s: State, step: Step, key: Digest) {
    key !in Ids(Tidy(s, step.now).episodes) || key !in Ids(Apply(s, step).state.episodes)
  }

  predicate NudgesFor(s: State, step: Step, key: Digest) {
    step.payload.Accepted? && step.payload.event.episodeKey == key && Apply(s, step).nudge.Some?
  }

  lemma TidyKeepsEmitted(s: State, now: real, key: Digest)
    requires Valid(s) && Emitting(s, key) && key in Ids(Tidy(s, now).episodes)
    ensures Emitting(Tidy(s, now), key)
  {
    var i :| 0 <= i < |s.episodes| && s.episodes[i].id == key && s.episodes[i].data.phase.Emitted?;
    var t := Tidy(s, now).episodes;
    var j :| 0 <= j < |t| && t[j].id == key;
    assert t[j] in Pruned(s, now).episodes && t[j] in s.episodes;
    var k :| 0 <= k < |s.episodes| && s.episodes[k] == t[j];
    assert k == i;
  }

  lemma EvictKeepsEmitted(s: State, key: Digest)
    requires DistinctIds(s.episodes) && Emitting(s, key) && key in Ids(Evicted(s).episodes)
    ensures Emitting(Evicted(s), key)
  {
    var i :| 0 <= i < |s.episodes| && s.episodes[i].id == key && s.episodes[i].data.phase.Emitted?;
    var t := Evicted(s).episodes;
    var j :| 0 <= j < |t| && t[j].id == key;
    assert t[j] in s.episodes;
    var k :| 0 <= k < |s.episodes| && s.episodes[k] == t[j];
    assert k == i;
  }

  lemma FindEmitted(s: State, key: Digest)
    requires DistinctIds(s.episodes) && Emitting(s, key)
    ensures Find(s.episodes, key).Some? && s.episodes[Find(s.episodes, key).value].data.phase.Emitted?
  {
    var i :| 0 <= i < |s.episodes| && s.episodes[i].id == key && s.episodes[i].data.phase.Emitted?;
    assert s.episodes[Find(s.episodes, key).value].id == s.episodes[i].id;
  }

  lemma NudgeNeedsTracking(s: State, step: Step, key: Digest)
    requires NudgesFor(s, step, key)
    ensures var episodes := Tidy(s, step.now).episodes;
      Find(episodes, key).Some? && episodes[Find(episodes, key).value].data.phase.Tracking?
  {
  }

  lemma EmittedCannotNudge(s: State, step: Step, key: Digest)
    requires Valid(s) && step.now >= 0.0 && Emitting(s, key)
    ensures !NudgesFor(s, step, key)
  {
    if NudgesFor(s, step, key) {
      NudgeNeedsTracking(s, step, key);
      TidyKeepsEmitted(s, step.now, key);
      TidyKeeps(s, step.now);
      FindEmitted(Tidy(s, step.now), key);
      assert false;
    }
  }

  lemma FailureKeepsEmitted(s: State, e: TerminalEvent, now: real, key: Digest)
    requires DistinctIds(s.episodes) && Emitting(s, key) && e.outcome.Failure?
    ensures Emitting(Advance(s, e, now).state, key)
  {
    var i :| 0 <= i < |s.episodes| && s.episodes[i].id == key && s.episodes[i].data.phase.Emitted?;
    var t := Advance(s, e, now).state.episodes;
    if Find(s.episodes, e.episodeKey).None? {
      assert t[i] == s.episodes[i];
    } else {
      assert t[i].id == key && t[i].data.phase.Emitted?;
    }
  }

  lemma SuccessRemovesOnlyItsOwn(s: State, e: TerminalEvent, now: real, key: Digest)
    requires DistinctIds(s.episodes) && Emitting(s, key) && e.outcome.Success?
    ensures if e.episodeKey != key then Emitting(Advance(s, e, now).state, key)
            else key !in Ids(Advance(s, e, now).state.episodes)
  {
    var i :| 0 <= i < |s.episodes| && s.episodes[i].id == key && s.episodes[i].data.phase.Emitted?;
    var at := Find(s.episodes, e.episodeKey);
    var t := Advance(s, e, now).state.episodes;
    if at.None? {
      assert t[i] == s.episodes[i];
    } else if e.episodeKey == key {
      assert at.value == i;
      assert forall j :: 0 <= j < |t| ==> t[j] == s.episodes[if j < i then j else j + 1];
    } else {
      assert t[if i < at.value then i else i - 1] == s.episodes[i];
    }
  }

  lemma AdvanceKeepsEmitted(s: State, e: TerminalEvent, now: real, key: Digest)
    requires DistinctIds(s.episodes) && Emitting(s, key)
    ensures e.episodeKey != key || e.outcome.Failure? ==> Emitting(Advance(s, e, now).state, key)
    ensures e.episodeKey == key && e.outcome.Success? ==> key !in Ids(Advance(s, e, now).state.episodes)
  {
    if e.outcome.Failure? {
      FailureKeepsEmitted(s, e, now, key);
    } else {
      SuccessRemovesOnlyItsOwn(s, e, now, key);
    }
  }

  /** An emitted episode stays emitted until a step removes it. */
  lemma EmittedPersists(s: State, step: Step, key: Digest)
    requires Valid(s) && step.now >= 0.0 && Emitting(s, key) && !Removes(s, step, key)
    ensures Emitting(Apply(s, step).state, key)
  {
    var tidy := Tidy(s, step.now);
    TidyKeepsEmitted(s, step.now, key);
    TidyKeeps(s, step.now);
    if step.payload.Accepted? && Find(tidy.events, step.payload.event.toolId).None? {
      var e := step.payload.event;
      var grown := tidy.(events := tidy.events + [NewEvent(e, step.now)]);
      var t := Advance(grown, e, step.now).state;
      AppendEventKeeps(tidy, e, step.now);
      AdvanceKeeps(grown, e, step.now);
      assert Emitting(grown, key);
      AdvanceKeepsEmitted(grown, e, step.now, key);
      assert forall d :: d in Ids(Evicted(t).episodes) ==> d in Ids(t.episodes) by {
        forall k | 0 <= k < |Evicted(t).episodes| ensures Evicted(t).episodes[k].id in Ids(t.episodes) {
          assert Evicted(t).episodes[k] in t.episodes;
        }
      }
      EvictKeepsEmitted(t, key);
    } else {
      assert Apply(s, step).state.episodes == tidy.episodes;
    }
  }

  /** After a nudge the episode is there, and emitted: the tables were within
      their bounds when it was found, and it is updated where it lies. */
  lemma NudgeLeavesEmitted(s: State, step: Step, key: Digest)
    requires Valid(s) && step.now >= 0.0 && NudgesFor(s, step, key)
    ensures Emitting(Apply(s, step).state, key) && !Removes(s, step, key)
  {
    var tidy := Tidy(s, step.now);
    TidyKeeps(s, step.now);
    var e := step.payload.event;
    var grown := tidy.(events := tidy.events + [NewEvent(e, step.now)]);
    var t := Advance(grown, e, step.now).state;
    var at := Find(grown.episodes, key).value;
    assert t.episodes[at].id == key && t.episodes[at].data.phase.Emitted?;
    assert |t.episodes| == |tidy.episodes| <= MAX_EPISODES;
    assert Apply(s, step).state.episodes == t.episodes;
  }

  predicate RemovedAt(log: seq<Step>, m: nat, key: Digest)
    requires m < |log|
  {
    Removes(Run(log[..m]), log[m], key)
  }

  /** Some commit strictly between the two removed the episode. */
  predicate RemovedBetween(log: seq<Step>, i: nat, j: nat, key: Digest)
    requires i < j < |log|
  {
    exists m :: i < m < j && RemovedAt(log, m, key)
  }

  lemma EmittedAfter(log: seq<Step>, i: nat, key: Digest)
    requires ValidSteps(log) && i < |log|
    requires NudgesFor(Run(log[..i]), log[i], key) || (Emitting(Run(log[..i]), key) && !RemovedAt(log, i, key))
    ensures Emitting(Run(log[..i + 1]), key)
  {
    var s := Run(log[..i]);
    RunIsValid(log[..i]);
    RunExtends(log, i);
    if NudgesFor(s, log[i], key) {
      NudgeLeavesEmitted(s, log[i], key);
    } else {
      EmittedPersists(s, log[i], key);
    }
  }

  lemma {:induction false} Persists(holds: nat -> bool, i: nat, m: nat)
    requires i <= m && holds(i)
    requires forall n :: i <= n < m && holds(n) ==> holds(n + 1)
    ensures holds(m)
    decreases m
  {
    if i < m {
      Persists(holds, i, m - 1);
    }
  }

  function EmittingAt(log: seq<Step>, key: Digest): nat -> bool {
    (n: nat) => n <= |log| && Emitting(Run(log[..n]), key)
  }

  lemma EmittingLasts(log: seq<Step>, n: nat, key: Digest)
    requires ValidSteps(log) && n < |log| && EmittingAt(log, key)(n) && !RemovedAt(log, n, key)
    ensures EmittingAt(log, key)(n + 1)
  {
    EmittedAfter(log, n, key);
  }

  lemma EmittedUntil(log: seq<Step>, i: nat, m: nat, key: Digest)
    requires ValidSteps(log) && i <= m <= |log|
    requires EmittingAt(log, key)(i)
    requires forall n :: i <= n < m ==> !RemovedAt(log, n, key)
    ensures EmittingAt(log, key)(m)
  {
    forall n: nat | i <= n < m && EmittingAt(log, key)(n) ensures EmittingAt(log, key)(n + 1) {
      EmittingLasts(log, n, key);
    }
    Persists(EmittingAt(log, key), i, m);
  }

  /** Strictly between two nudges of one episode some commit removed that episode. */
  lemma NudgesApart(log: seq<Step>, i: nat, j: nat, key: Digest)
    requires ValidSteps(log) && i < j < |log|
    ensures NudgesFor(Run(log[..i]), log[i], key) && NudgesFor(Run(log[..j]), log[j], key)
            ==> RemovedBetween(log, i, j, key)
  {
    if NudgesFor(Run(log[..i]), log[i], key) && !RemovedBetween(log, i, j, key) {
      EmittedAfter(log, i, key);
      EmittedUntil(log, i + 1, j, key);
      RunIsValid(log[..j]);
      EmittedCannotNudge(Run(log[..j]), log[j], key);
    }
  }

  // ---- Main results ----

  /** In every interleaving, the file holds the sequential fold of the
      committed payloads in lock order, and validation accepts it. */
  lemma DiskIsTheFold(actions: seq<Action>)
    requires Legal(actions, START)
    ensures var w := Exec(actions, START);
      OnDisk(w) == Run(w.log) && ValidateState(OnDisk(w)) == Ok(OnDisk(w)) && Bounded(OnDisk(w))
  {
    ExecKeepsInv(actions, START);
    RunIsValid(Exec(actions, START).log);
  }

  predicate PrintedFor(w: World, i: nat, key: Digest) {
    && i < |w.printed| && w.printed[i].commit < |w.log|
    && var step := w.log[w.printed[i].commit];
       step.payload.Accepted? && step.payload.event.episodeKey == key
  }

  /** In every interleaving, two printed nudges of one episode come from
      different commits, and a commit strictly between those removed the episode. */
  lemma OnePrintPerEpisode(actions: seq<Action>, i: nat, j: nat, key: Digest)
    requires Legal(actions, START)
    requires var w := Exec(actions, START); i != j && PrintedFor(w, i, key) && PrintedFor(w, j, key)
    ensures var w := Exec(actions, START);
      var a := Min(w.printed[i].commit, w.printed[j].commit);
      var b := Max(w.printed[i].commit, w.printed[j].commit);
      a < b && RemovedBetween(w.log, a, b, key)
  {
    ExecKeepsInv(actions, START);
    var w := Exec(actions, START);
    var ci, cj := w.printed[i].commit, w.printed[j].commit;
    assert NudgeAt(w.log, ci).Some? && NudgeAt(w.log, cj).Some?;
    if i < j { assert ci != cj; } else { assert cj != ci; }
    NudgesApart(w.log, Min(ci, cj), Max(ci, cj), key);
  }

  lemma NudgeIsEarned(s: State, step: Step)
    ensures var nudge := Apply(s, step).nudge;
      nudge.Some? ==> step.payload.Accepted? && step.payload.event.outcome.Failure?
                      && nudge.value == step.payload.event.hook
  {
  }

  lemma PrintIsEarned(w: World, i: nat)
    requires PrintedFaithfully(w) && i < |w.printed|
    ensures var commit := w.printed[i].commit;
      && commit < |w.log| && w.log[commit].payload.Accepted?
      && w.log[commit].payload.event.outcome.Failure?
      && w.printed[i].hook == w.log[commit].payload.event.hook
  {
    var p := w.printed[i];
    assert Faithful(w.log)(p);
    NudgeIsEarned(Run(w.log[..p.commit]), w.log[p.commit]);
  }

  /** Every printed nudge belongs to an accepted failure of the log. */
  lemma PrintsAreEarned(actions: seq<Action>, i: nat)
    requires Legal(actions, START)
    requires i < |Exec(actions, START).printed|
    ensures var w := Exec(actions, START);
      var commit := w.printed[i].commit;
      && commit < |w.log| && w.log[commit].payload.Accepted?
      && w.log[commit].payload.event.outcome.Failure?
      && w.printed[i].hook == w.log[commit].payload.event.hook
  {
    ExecKeepsInv(actions, START);
    PrintIsEarned(Exec(actions, START), i);
  }

  // ---- Every transaction can complete ----

  lemma {:induction false} TwoSteps(a: Action, b: Action, w: World, between: World, after: World)
    requires Enabled(w, a) && between == Next(w, a) && Enabled(between, b) && after == Next(between, b)
    ensures Legal([a, b], w) && Exec([a, b], w) == after
  {
    var none: seq<Action> := [];
    assert [a, b][1..] == [b] && [b][1..] == none;
    assert Legal(none, after) && Exec(none, after) == after;
    assert Legal([b], between) && Exec([b], between) == after;
  }

  lemma {:induction false} ExecConcat(a: seq<Action>, b: seq<Action>, w: World)
    requires Legal(a, w) && Legal(b, Exec(a, w))
    ensures Legal(a + b, w) && Exec(a + b, w) == Exec(b, Exec(a, w))
  {
    if a == [] {
      assert a + b == b;
    } else {
      ExecConcat(a[1..], b, Next(w, a[0]));
      assert (a + b)[1..] == a[1..] + b;
    }
  }

  function Printing(commit: nat, nudge: Option<HookName>): seq<Printed> {
    if nudge.Some? then [Printed(commit, nudge.value)] else []
  }

  /** Whoever carries a reply can release the lock and print it, whatever the
      others have done. */
  lemma {:induction false} ReplyIsPrinted(w: World, pid: Pid, p: Process)
    requires pid in w.procs && w.procs[pid] == p && p.Persisted? && w.lock == Some(pid)
    ensures Legal([Unlock(pid), Print(pid)], w)
    ensures Exec([Unlock(pid), Print(pid)], w)
            == w.(lock := None, procs := w.procs[pid := Finished], printed := w.printed + Printing(p.commit, p.nudge))
  {
    var released := Become(w, pid, Replying(p.commit, p.nudge)).(lock := None);
    var after := Become(released, pid, Finished).(printed := w.printed + Printing(p.commit, p.nudge));
    TwoSteps(Unlock(pid), Print(pid), w, released, after);
    assert w.procs[pid := Replying(p.commit, p.nudge)][pid := Finished] == w.procs[pid := Finished];
  }

  /** A new process takes the free lock. */
  lemma {:induction false} Enters(w: World, pid: Pid, payload: Classified)
    requires w.lock.None? && pid !in w.procs && !payload.Silent?
    ensures Legal([Spawn(pid, payload), TakeLock(pid)], w)
    ensures Exec([Spawn(pid, payload), TakeLock(pid)], w)
            == w.(lock := Some(pid), procs := w.procs[pid := Locked(payload)])
  {
    var spawned := Become(w, pid, Waiting(payload));
    var locked := Become(spawned, pid, Locked(payload)).(lock := Some(pid));
    TwoSteps(Spawn(pid, payload), TakeLock(pid), w, spawned, locked);
    assert w.procs[pid := Waiting(payload)][pid := Locked(payload)] == w.procs[pid := Locked(payload)];
  }

  /** It loads what is on disk and computes its transition. */
  lemma {:induction false} Computes(w: World, pid: Pid, payload: Classified, now: real, t: Transition)
    requires pid in w.procs && w.procs[pid] == Locked(payload) && now >= 0.0
    requires t == Apply(OnDisk(w), Step(payload, now))
    ensures Legal([Load(pid), Compute(pid, now)], w)
    ensures Exec([Load(pid), Compute(pid, now)], w)
            == Become(w, pid, Applied(Step(payload, now), t.state, t.nudge))
  {
    var loaded := Become(w, pid, Loaded(payload, OnDisk(w)));
    var applied := Become(loaded, pid, Applied(Step(payload, now), t.state, t.nudge));
    TwoSteps(Load(pid), Compute(pid, now), w, loaded, applied);
    assert applied.procs == w.procs[pid := Applied(Step(payload, now), t.state, t.nudge)];
  }

  lemma {:induction false} Saves(w: World, pid: Pid, p: Process)
    requires pid in w.procs && w.procs[pid] == p && p.Applied?
    ensures Legal([Save(pid)], w)
    ensures Exec([Save(pid)], w)
            == Become(w, pid, Persisted(|w.log|, p.nudge)).(disk := Some(p.next), log := w.log + [p.step])
  {
    var none: seq<Action> := [];
    var after := Next(w, Save(pid));
    assert [Save(pid)][1..] == none;
    assert Legal(none, after) && Exec(none, after) == after;
  }

  function Committing(pid: Pid, payload: Classified, now: real): seq<Action> {
    [Spawn(pid, payload), TakeLock(pid)] + [Load(pid), Compute(pid, now)] + [Save(pid)]
  }

  /** A new process comes as far as having computed its transition. */
  lemma {:induction false} EntersAndComputes(w: World, pid: Pid, payload: Classified, now: real, t: Transition)
    requires w.lock.None? && pid !in w.procs && !payload.Silent? && now >= 0.0
    requires t == Apply(OnDisk(w), Step(payload, now))
    ensures var enter, compute := [Spawn(pid, payload), TakeLock(pid)], [Load(pid), Compute(pid, now)];
      && Legal(enter + compute, w)
      && Exec(enter + compute, w)
         == w.(lock := Some(pid), procs := w.procs[pid := Applied(Step(payload, now), t.state, t.nudge)])
  {
    var locked := w.(lock := Some(pid), procs := w.procs[pid := Locked(payload)]);
    Enters(w, pid, payload);
    Computes(locked, pid, payload, now, t);
    ExecConcat([Spawn(pid, payload), TakeLock(pid)], [Load(pid), Compute(pid, now)], w);
    assert locked.procs[pid := Applied(Step(payload, now), t.state, t.nudge)]
        == w.procs[pid := Applied(Step(payload, now), t.state, t.nudge)];
  }

  lemma {:induction false} Commits(w: World, pid: Pid, payload: Classified, now: real, t: Transition, saved: World)
    requires w.lock.None? && pid !in w.procs && !payload.Silent? && now >= 0.0
    requires t == Apply(OnDisk(w), Step(payload, now))
    requires saved == World(Some(t.state), Some(pid), w.procs[pid := Persisted(|w.log|, t.nudge)],
                            w.log + [Step(payload, now)], w.printed)
    ensures Legal(Committing(pid, payload, now), w) && Exec(Committing(pid, payload, now), w) == saved
  {
    var applied := w.(lock := Some(pid), procs := w.procs[pid := Applied(Step(payload, now), t.state, t.nudge)]);
    EntersAndComputes(w, pid, payload, now, t);
    Saves(applied, pid, applied.procs[pid]);
    ExecConcat([Spawn(pid, payload), TakeLock(pid)] + [Load(pid), Compute(pid, now)], [Save(pid)], w);
    assert saved.procs == applied.procs[pid := Persisted(|w.log|, t.nudge)];
  }

  /** Where the lock is free a new process can run its whole transaction: it
      commits the transition of its payload from what is on disk, and prints the
      nudge if there is one. */
  lemma {:induction false} TransactionCompletes(w: World, pid: Pid, payload: Classified, now: real, t: Transition)
    requires w.lock.None? && pid !in w.procs && !payload.Silent? && now >= 0.0
    requires t == Apply(OnDisk(w), Step(payload, now))
    ensures Legal(Committing(pid, payload, now) + [Unlock(pid), Print(pid)], w)
    ensures Exec(Committing(pid, payload, now) + [Unlock(pid), Print(pid)], w)
            == World(Some(t.state), None, w.procs[pid := Finished], w.log + [Step(payload, now)],
                     w.printed + Printing(|w.log|, t.nudge))
  {
    var saved := World(Some(t.state), Some(pid), w.procs[pid := Persisted(|w.log|, t.nudge)],
                       w.log + [Step(payload, now)], w.printed);
    Commits(w, pid, payload, now, t, saved);
    ReplyIsPrinted(saved, pid, Persisted(|w.log|, t.nudge));
    ExecConcat(Committing(pid, payload, now), [Unlock(pid), Print(pid)], w);
    assert saved.procs[pid := Finished] == w.procs[pid := Finished];
  }
}
