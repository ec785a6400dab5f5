/** First use of the local HMAC key: many processes race through a lock
    directory, any of them may crash, and stale locks are reclaimed. */
module KeyStore {
  import opened Basics

  type Pid = nat
  type Key = nat

  /** The lock directory: who made it, and whether its owner file is written. */
  datatype Lock = Lock(owner: Pid, marked: bool)

  /** Where a process stands. `outcome` is the key it will return, if any. */
  datatype Process =
    | Starting
    | Contending
    | Reclaiming
    | Marking
    | Abandoning
    | Owning
    | Writing(key: Key)
    | Ready(key: Key)
    | Confirmed(key: Key)
    | Installed
    | Releasing(outcome: Option<Key>)
    | Moving(outcome: Option<Key>)
    | Moved(outcome: Option<Key>, owner: Pid)
    | Reading
    | Returned(key: Key)
    | Failed
    | Crashed

  datatype World = World(
    key: Option<Key>,
    lock: Option<Lock>,
    procs: map<Pid, Process>,
    installs: seq<Key>)

  const START := World(None, None, map[], [])

  datatype Action =
    | Spawn(pid: Pid)
    | LookForKey(pid: Pid)
    | MakeLock(pid: Pid)
    | SeeKey(pid: Pid)
    | JudgeStale(pid: Pid)
    | Reclaim(pid: Pid)
    | TimeOut(pid: Pid)
    | Mark(pid: Pid)
    | MarkFails(pid: Pid)
    | Abandon(pid: Pid)
    | Recheck(pid: Pid, picked: Key)
    | WriteTemp(pid: Pid)
    | Confirm(pid: Pid)
    | Install(pid: Pid)
    | IoFails(pid: Pid)
    | ReadBack(pid: Pid)
    | CheckOwner(pid: Pid)
    | MoveAway(pid: Pid)
    | Settle(pid: Pid)
    | LeaveLock(pid: Pid)
    | Read(pid: Pid)
    | Crash(pid: Pid)

  predicate Gone(p: Process) {
    p.Returned? || p.Failed? || p.Crashed?
  }

  predicate Enabled(w: World, a: Action) {
    if a.Spawn? then a.pid !in w.procs
    else
      a.pid in w.procs &&
      var p := w.procs[a.pid];
      match a
      case Spawn(_) => false
      case LookForKey(_) => p.Starting?
      case MakeLock(_) => p.Contending? && w.lock.None?
      case SeeKey(_) => p.Contending? && w.key.Some?
      case JudgeStale(_) => p.Contending? && w.key.None? && w.lock.Some?
      case Reclaim(_) => p.Reclaiming?
      case TimeOut(_) => p.Contending?
      case Mark(_) => p.Marking?
      case MarkFails(_) => p.Marking?
      case Abandon(_) => p.Abandoning?
      case Recheck(_, _) => p.Owning?
      case WriteTemp(_) => p.Writing?
      case Confirm(_) => p.Ready?
      case Install(_) => p.Confirmed?
      case IoFails(_) => p.Writing? || p.Ready? || p.Confirmed? || p.Installed?
      case ReadBack(_) => p.Installed?
      case CheckOwner(_) => p.Releasing?
      case MoveAway(_) => p.Moving?
      case Settle(_) => p.Moved?
      case LeaveLock(_) => p.Releasing? || p.Moving?
      case Read(_) => p.Reading?
      case Crash(_) => !Gone(p)
  }

  function Done(outcome: Option<Key>): Process {
    if outcome.Some? then Returned(outcome.value) else Failed
  }

  /** The owner file names this process. */
  predicate OwnerMatches(w: World, pid: Pid) {
    w.lock == Some(Lock(pid, true))
  }

  function Become(w: World, pid: Pid, p: Process): World {
    w.(procs := w.procs[pid := p])
  }

  function Next(w: World, a: Action): World
    requires Enabled(w, a)
  {
    match a
    case Spawn(pid) => Become(w, pid, Starting)
    case LookForKey(pid) => Become(w, pid, if w.key.Some? then Reading else Contending)
    case MakeLock(pid) => Become(w, pid, Marking).(lock := Some(Lock(pid, false)))
    case SeeKey(pid) => Become(w, pid, Reading)
    case JudgeStale(pid) => Become(w, pid, Reclaiming)
    case Reclaim(pid) => Become(w, pid, Contending).(lock := None)
    case TimeOut(pid) => Become(w, pid, if w.key.Some? then Reading else Failed)
    case Mark(pid) =>
      if w.lock.Some? then Become(w, pid, Owning).(lock := Some(Lock(pid, true)))
      else Become(w, pid, Abandoning)
    case MarkFails(pid) => Become(w, pid, Abandoning)
    case Abandon(pid) => Become(w, pid, Failed).(lock := None)
    case Recheck(pid, picked) => Become(w, pid, if w.key.Some? then Releasing(w.key) else Writing(picked))
    case WriteTemp(pid) => Become(w, pid, Ready(w.procs[pid].key))
    case Confirm(pid) =>
      Become(w, pid, if OwnerMatches(w, pid) then Confirmed(w.procs[pid].key) else Releasing(w.key))
    case Install(pid) =>
      var key := w.procs[pid].key;
      Become(w, pid, Installed).(key := Some(key), installs := w.installs + [key])
    case IoFails(pid) => Become(w, pid, Releasing(None))
    case ReadBack(pid) => Become(w, pid, Releasing(w.key))
    case CheckOwner(pid) =>
      var outcome := w.procs[pid].outcome;
      Become(w, pid, if OwnerMatches(w, pid) then Moving(outcome) else Done(outcome))
    case MoveAway(pid) =>
      var outcome := w.procs[pid].outcome;
      if w.lock.Some? then Become(w, pid, Moved(outcome, w.lock.value.owner)).(lock := None)
      else Become(w, pid, Done(outcome))
    case Settle(pid) =>
      var p := w.procs[pid];
      var done := Become(w, pid, Done(p.outcome));
      if p.owner != pid && w.lock.None? then done.(lock := Some(Lock(p.owner, true))) else done
    case LeaveLock(pid) => Become(w, pid, Done(w.procs[pid].outcome))
    case Read(pid) => Become(w, pid, Done(w.key))
    case Crash(pid) => Become(w, pid, Crashed)
  }

  /** A reclaim removes only the lock of a process that is no longer running. */
  predicate Orderly(w: World, a: Action) {
    a.Reclaim? && w.lock.Some? ==> w.lock.value.owner in w.procs && Gone(w.procs[w.lock.value.owner])
  }

  /** A run from the start: its last action and the world that it led to. */
  datatype Run = Begin | After(before: Run, action: Action, world: World) {
    function End(): World {
      if Begin? then START else world
    }
  }

  predicate Legal(run: Run) {
    run.After? ==>
      && Legal(run.before)
      && Enabled(run.before.End(), run.action)
      && run.world == Next(run.before.End(), run.action)
  }

  predicate OrderlyRun(run: Run) {
    run.After? ==> OrderlyRun(run.before) && Orderly(run.before.End(), run.action)
  }

  // ---- Mutual exclusion in orderly runs ----

  /** Inside the critical section: the lock on disk is this process's own. */
  predicate Critical(p: Process) {
    p.Marking? || p.Abandoning? || Armed(p)
  }

  predicate Armed(p: Process) {
    p.Owning? || p.Writing? || p.Ready? || p.Confirmed? || p.Installed? || p.Releasing? || p.Moving?
  }

  /** What each program point knows about the key and the lock. */
  predicate Knows(w: World, pid: Pid, p: Process) {
    && (Critical(p) ==> w.lock.Some? && w.lock.value.owner == pid)
    && (Armed(p) ==> OwnerMatches(w, pid))
    && (p.Writing? || p.Ready? || p.Confirmed? ==> w.key.None?)
    && (p.Installed? || p.Reading? ==> w.key.Some?)
    && (p.Releasing? || p.Moving? || p.Moved? ==> p.outcome.Some? ==> w.key == p.outcome)
    && (p.Moved? ==> p.owner == pid)
    && (p.Returned? ==> w.key == Some(p.key))
  }

  predicate Inv(w: World) {
    && w.installs == (if w.key.None? then [] else [w.key.value])
    && (forall pid :: pid in w.procs ==> Knows(w, pid, w.procs[pid]))
  }

  lemma StepKeepsInv(w: World, a: Action)
    requires Inv(w) && Enabled(w, a) && Orderly(w, a)
    ensures Inv(Next(w, a))
  {
    var w' := Next(w, a);
    if a.pid in w.procs {
      assert Knows(w, a.pid, w.procs[a.pid]);
    }
    assert Knows(w', a.pid, w'.procs[a.pid]);
    forall q | q in w'.procs && q != a.pid ensures Knows(w', q, w'.procs[q]) {
      assert Knows(w, q, w.procs[q]);
    }
  }

  lemma {:induction false} RunKeepsInv(run: Run)
    requires Legal(run) && OrderlyRun(run)
    ensures Inv(run.End())
  {
    if run.After? {
      RunKeepsInv(run.before);
      StepKeepsInv(run.before.End(), run.action);
    }
  }

  /** In runs in which a reclaim only ever hits the lock of a process that is
      gone, at most one process is in its critical section. */
  lemma OneOwner(run: Run, p: Pid, q: Pid)
    requires Legal(run) && OrderlyRun(run)
    requires var w := run.End();
      p in w.procs && q in w.procs && Critical(w.procs[p]) && Critical(w.procs[q])
    ensures p == q
  {
    RunKeepsInv(run);
  }

  // ---- One key ----

  /** The states in which losing the lock cannot be noticed before the next
      move that counts on it: marking a lock, removing one that could not be
      marked, installing after the last owner check, moving the lock away. */
  predicate Fragile(p: Process) {
    p.Marking? || p.Abandoning? || p.Confirmed? || p.Moving?
  }

  /** Somebody counts on the lock that lies there, and no key is installed. */
  predicate Delicate(w: World) {
    w.key.None? && w.lock.Some? && w.lock.value.owner in w.procs && Fragile(w.procs[w.lock.value.owner])
  }

  /** No reclaim hits the lock of a process in a fragile state. Any other live
      holder may lose its lock: the owner checks catch that. */
  predicate CarefulRun(run: Run) {
    run.After? ==> CarefulRun(run.before) && (run.action.Reclaim? ==> !Delicate(run.before.End()))
  }

  predicate Holds(w: World, pid: Pid) {
    w.lock.Some? && w.lock.value.owner == pid
  }

  predicate Unconfirmed(p: Process) {
    p.Writing? || p.Ready?
  }

  /** What a program point knows in a careful run. */
  predicate Senses(w: World, pid: Pid, p: Process) {
    && (w.key.None? && Fragile(p) ==> Holds(w, pid))
    && (w.key.None? && (p.Confirmed? || p.Moving?) ==> OwnerMatches(w, pid))
    && (w.key.None? && p.Moved? ==> p.owner == pid)
    && (w.key.Some? ==> !p.Confirmed?)
    && (w.key.Some? && Unconfirmed(p) ==> !Holds(w, pid))
    && (p.Installed? || p.Reading? ==> w.key.Some?)
    && (p.Releasing? || p.Moving? || p.Moved? ==> p.outcome.Some? ==> w.key == p.outcome)
    && (p.Returned? ==> w.key == Some(p.key))
  }

  /** A lock on its way back does not belong to a process that has yet to confirm. */
  predicate NoneReturned(w: World) {
    forall pid :: pid in w.procs && w.key.Some? && w.procs[pid].Moved? ==>
      w.procs[pid].owner in w.procs && !Unconfirmed(w.procs[w.procs[pid].owner])
  }

  predicate CarefulInv(w: World) {
    && w.installs == (if w.key.None? then [] else [w.key.value])
    && (w.lock.Some? ==> w.lock.value.owner in w.procs)
    && (forall pid :: pid in w.procs ==> Senses(w, pid, w.procs[pid]))
    && NoneReturned(w)
  }

  predicate CarefulAction(w: World, a: Action) {
    Enabled(w, a) && (a.Reclaim? ==> !Delicate(w))
  }

  lemma ActorSensesNoKey(w: World, a: Action)
    requires CarefulInv(w) && CarefulAction(w, a) && w.key.None?
    ensures a.pid in Next(w, a).procs && Senses(Next(w, a), a.pid, Next(w, a).procs[a.pid])
  {
    if a.pid in w.procs {
      assert Senses(w, a.pid, w.procs[a.pid]);
    }
  }

  lemma ActorSensesKey(w: World, a: Action)
    requires CarefulInv(w) && CarefulAction(w, a) && w.key.Some?
    ensures a.pid in Next(w, a).procs && Senses(Next(w, a), a.pid, Next(w, a).procs[a.pid])
  {
    if a.pid in w.procs {
      assert Senses(w, a.pid, w.procs[a.pid]);
    }
  }

  lemma ActorSenses(w: World, a: Action)
    requires CarefulInv(w) && CarefulAction(w, a)
    ensures a.pid in Next(w, a).procs && Senses(Next(w, a), a.pid, Next(w, a).procs[a.pid])
  {
    if w.key.None? {
      ActorSensesNoKey(w, a);
    } else {
      ActorSensesKey(w, a);
    }
  }

  lemma OtherSensesNoKey(w: World, a: Action, q: Pid)
    requires CarefulInv(w) && CarefulAction(w, a) && q in w.procs && q != a.pid && w.key.None?
    ensures q in Next(w, a).procs && Senses(Next(w, a), q, Next(w, a).procs[q])
  {
    assert Senses(w, q, w.procs[q]);
    if a.pid in w.procs {
      assert Senses(w, a.pid, w.procs[a.pid]);
    }
  }

  lemma OtherSensesKey(w: World, a: Action, q: Pid)
    requires CarefulInv(w) && CarefulAction(w, a) && q in w.procs && q != a.pid && w.key.Some?
    ensures q in Next(w, a).procs && Senses(Next(w, a), q, Next(w, a).procs[q])
  {
    assert Senses(w, q, w.procs[q]);
    if a.pid in w.procs {
      assert Senses(w, a.pid, w.procs[a.pid]);
    }
  }

  lemma OtherSenses(w: World, a: Action, q: Pid)
    requires CarefulInv(w) && CarefulAction(w, a) && q in w.procs && q != a.pid
    ensures q in Next(w, a).procs && Senses(Next(w, a), q, Next(w, a).procs[q])
  {
    if w.key.None? {
      OtherSensesNoKey(w, a, q);
    } else {
      OtherSensesKey(w, a, q);
    }
  }

  lemma LockStaysOwned(w: World, a: Action)
    requires CarefulInv(w) && CarefulAction(w, a)
    ensures var w' := Next(w, a);
      && w'.installs == (if w'.key.None? then [] else [w'.key.value])
      && (w'.lock.Some? ==> w'.lock.value.owner in w'.procs)
  {
    if a.pid in w.procs {
      assert Senses(w, a.pid, w.procs[a.pid]);
    }
  }

  lemma StillNoneReturned(w: World, a: Action)
    requires CarefulInv(w) && CarefulAction(w, a)
    ensures NoneReturned(Next(w, a))
  {
    var w' := Next(w, a);
    forall pid | pid in w'.procs && w'.key.Some? && w'.procs[pid].Moved?
      ensures w'.procs[pid].owner in w'.procs && !Unconfirmed(w'.procs[w'.procs[pid].owner])
    {
      if pid == a.pid {
        assert Senses(w, w.lock.value.owner, w.procs[w.lock.value.owner]);
      } else {
        assert Senses(w, pid, w.procs[pid]);
      }
    }
  }

  lemma {:induction false} CarefulStep(w: World, a: Action)
    requires CarefulInv(w) && CarefulAction(w, a)
    ensures CarefulInv(Next(w, a))
  {
    ActorSenses(w, a);
    LockStaysOwned(w, a);
    StillNoneReturned(w, a);
    forall q | q in Next(w, a).procs && q != a.pid ensures Senses(Next(w, a), q, Next(w, a).procs[q]) {
      OtherSenses(w, a, q);
    }
  }

  lemma {:induction false} CarefulRunKeepsInv(run: Run)
    requires Legal(run) && CarefulRun(run)
    ensures CarefulInv(run.End())
  {
    if run.After? {
      CarefulRunKeepsInv(run.before);
      CarefulStep(run.before.End(), run.action);
    }
  }

  /** In every careful interleaving at most one key is ever installed and every
      process that returns a key returns that one. */
  lemma OneKey(run: Run)
    requires Legal(run) && CarefulRun(run)
    ensures var w := run.End();
      && |w.installs| <= 1
      && (forall pid :: pid in w.procs && w.procs[pid].Returned? ==> w.installs == [w.procs[pid].key])
  {
    CarefulRunKeepsInv(run);
    var w := run.End();
    forall pid | pid in w.procs && w.procs[pid].Returned? ensures w.installs == [w.procs[pid].key] {
      assert Senses(w, pid, w.procs[pid]);
    }
  }

  /** Orderly runs are careful. */
  lemma {:induction false} OrderlyIsCareful(run: Run)
    requires OrderlyRun(run)
    ensures CarefulRun(run)
  {
    if run.After? {
      OrderlyIsCareful(run.before);
    }
  }

  // ---- Whoever comes later returns the key ----

  predicate Extends(run: Run, longer: Run) {
    longer == run || (longer.After? && Extends(run, longer.before))
  }

  lemma {:induction false} ExtendsFurther(a: Run, b: Run, c: Run)
    requires Extends(a, b) && Extends(b, c)
    ensures Extends(a, c)
  {
    if c != b {
      ExtendsFurther(a, b, c.before);
    }
  }

  function Then(run: Run, a: Action): Run
    requires Enabled(run.End(), a)
  {
    After(run, a, Next(run.End(), a))
  }

  /** In every careful run a process that reads returns the one installed key. */
  lemma {:induction false} ReadReturns(run: Run, pid: Pid)
    requires Legal(run) && CarefulRun(run) && Enabled(run.End(), Read(pid))
    ensures |run.End().installs| == 1
    ensures Then(run, Read(pid)).End().procs[pid] == Returned(run.End().installs[0])
  {
    CarefulRunKeepsInv(run);
    assert Senses(run.End(), pid, run.End().procs[pid]);
  }

  /** One step of a process that no lock concerns. */
  lemma {:induction false} QuietMove(run: Run, a: Action, p: Process) returns (longer: Run)
    requires Legal(run) && CarefulRun(run) && Enabled(run.End(), a) && !a.Reclaim?
    requires Next(run.End(), a) == Become(run.End(), a.pid, p)
    ensures Legal(longer) && CarefulRun(longer) && Extends(run, longer) && longer.End() == Become(run.End(), a.pid, p)
  {
    longer := Then(run, a);
    assert Extends(run, run);
  }

  /** Once a key is installed, a process that is starting, contending or reading
      can return it, whatever the others do: nothing else changes. */
  lemma {:induction false} ReaderReturns(run: Run, pid: Pid) returns (longer: Run)
    requires Legal(run) && CarefulRun(run) && run.End().key.Some? && pid in run.End().procs
    requires var p := run.End().procs[pid]; p.Starting? || p.Contending? || p.Reading?
    ensures Legal(longer) && CarefulRun(longer) && Extends(run, longer)
    ensures longer.End() == Become(run.End(), pid, Returned(run.End().key.value))
  {
    var w := run.End();
    var p := w.procs[pid];
    var reading := run;
    if p.Starting? {
      reading := QuietMove(run, LookForKey(pid), Reading);
    } else if p.Contending? {
      reading := QuietMove(run, SeeKey(pid), Reading);
    }
    longer := QuietMove(reading, Read(pid), Returned(w.key.value));
    assert w.procs[pid := Reading][pid := Returned(w.key.value)] == w.procs[pid := Returned(w.key.value)];
    ExtendsFurther(run, reading, longer);
  }

  /** Where a process stands that will return this key unless something fails. */
  predicate HeadsFor(p: Process, key: Key) {
    match p
    case Releasing(outcome) => outcome == Some(key)
    case Moving(outcome) => outcome == Some(key)
    case Moved(outcome, _) => outcome == Some(key)
    case Returned(returned) => returned == key
    case Confirmed(_) => false
    case Abandoning => false
    case Failed => false
    case _ => true
  }

  /** The actions that can go wrong for the process that takes them. */
  predicate CanFail(a: Action, pid: Pid) {
    a.pid == pid && (a.Mark? || a.MarkFails? || a.IoFails?)
  }

  lemma {:induction false} KeyStays(w: World, a: Action)
    requires CarefulInv(w) && CarefulAction(w, a) && w.key.Some?
    ensures Next(w, a).key == w.key
  {
    if a.pid in w.procs {
      assert Senses(w, a.pid, w.procs[a.pid]);
    }
  }

  /** A step of the process itself. */
  lemma {:induction false} HeadsOnItself(w: World, a: Action, key: Key)
    requires CarefulInv(w) && CarefulAction(w, a) && w.key == Some(key)
    requires a.pid in w.procs && HeadsFor(w.procs[a.pid], key) && !CanFail(a, a.pid)
    ensures a.pid in Next(w, a).procs && HeadsFor(Next(w, a).procs[a.pid], key)
  {
    assert Senses(w, a.pid, w.procs[a.pid]);
  }

  lemma {:induction false} HeadsOn(w: World, a: Action, pid: Pid, key: Key)
    requires CarefulInv(w) && CarefulAction(w, a) && w.key == Some(key)
    requires pid in w.procs && HeadsFor(w.procs[pid], key) && !CanFail(a, pid)
    ensures var w' := Next(w, a); w'.key == Some(key) && pid in w'.procs && HeadsFor(w'.procs[pid], key)
  {
    KeyStays(w, a);
    if a.pid == pid {
      HeadsOnItself(w, a, key);
    }
  }

  /** Somewhere between the two runs the process takes an action that can fail. */
  predicate MayFailBetween(run: Run, longer: Run, pid: Pid)
    requires Extends(run, longer)
  {
    longer != run && (CanFail(longer.action, pid) || MayFailBetween(run, longer.before, pid))
  }

  /** Once a key is installed every process returns that key, in every careful
      continuation: it ends nowhere else, unless it crashes or one of its own
      writes can fail. */
  lemma {:induction false} EndsWithTheKey(run: Run, longer: Run, pid: Pid)
    requires Legal(longer) && CarefulRun(longer) && Extends(run, longer)
    requires run.End().key.Some? && pid in run.End().procs
    requires HeadsFor(run.End().procs[pid], run.End().key.value) && !MayFailBetween(run, longer, pid)
    ensures var w := longer.End();
      && w.key == run.End().key && pid in w.procs
      && (Gone(w.procs[pid]) ==> w.procs[pid] in {Crashed, Returned(run.End().key.value)})
      && HeadsFor(w.procs[pid], run.End().key.value)
  {
    if longer != run {
      EndsWithTheKey(run, longer.before, pid);
      CarefulRunKeepsInv(longer.before);
      HeadsOn(longer.before.End(), longer.action, pid, run.End().key.value);
    }
  }

  // ---- Carefulness is needed, wherever it is not met ----

  /** The world with one process elsewhere and the lock as given. */
  function With(w: World, pid: Pid, p: Process, lock: Option<Lock>): World {
    w.(procs := w.procs[pid := p], lock := lock)
  }

  lemma Move(run: Run, base: World, a: Action, p: Process, lock: Option<Lock>, p': Process, lock': Option<Lock>)
    returns (longer: Run)
    requires Legal(run) && run.End() == With(base, a.pid, p, lock)
    requires Enabled(run.End(), a) && Next(run.End(), a) == With(run.End(), a.pid, p', lock')
    ensures longer == After(run, a, With(base, a.pid, p', lock')) && Legal(longer)
  {
    longer := After(run, a, With(base, a.pid, p', lock'));
    assert base.procs[a.pid := p][a.pid := p'] == base.procs[a.pid := p'];
  }

  lemma {:induction false} UnusedPid(used: set<Pid>) returns (pid: Pid)
    ensures forall q :: q in used ==> q < pid
  {
    pid := 0;
    if used != {} {
      var one :| one in used;
      var rest := UnusedPid(used - {one});
      pid := Max(rest, one + 1);
      forall q | q in used ensures q < pid {
        assert q == one || q in used - {one};
      }
    }
  }

  /** A new process finds no key. */
  lemma {:induction false} Newcomer(run: Run) returns (longer: Run, pid: Pid)
    requires Legal(run) && run.End().key.None?
    ensures Legal(longer) && Extends(run, longer) && (CarefulRun(run) ==> CarefulRun(longer))
    ensures pid !in run.End().procs && longer.End() == With(run.End(), pid, Contending, run.End().lock)
  {
    var w := run.End();
    pid := UnusedPid(w.procs.Keys);
    assert pid !in w.procs;
    var first := After(run, Spawn(pid), With(w, pid, Starting, w.lock));
    longer := Move(first, w, LookForKey(pid), Starting, w.lock, Contending, w.lock);
    assert Extends(run, first);
  }

  /** Where there is no key and no lock, a new process can come to the point of installing. */
  lemma {:induction false} NewcomerConfirms(run: Run, key: Key) returns (longer: Run, pid: Pid)
    requires Legal(run) && run.End().key.None? && run.End().lock.None?
    ensures Legal(longer) && Extends(run, longer)
    ensures pid !in run.End().procs
    ensures longer.End() == With(run.End(), pid, Confirmed(key), Some(Lock(pid, true)))
  {
    var w := run.End();
    var known;
    known, pid := Newcomer(run);
    var bare, mine := Some(Lock(pid, false)), Some(Lock(pid, true));
    var marking := Move(known, w, MakeLock(pid), Contending, None, Marking, bare);
    var owning := Move(marking, w, Mark(pid), Marking, bare, Owning, mine);
    longer := Confirms(owning, w, pid, key);
    assert Extends(known, marking) && Extends(known, owning);
    ExtendsFurther(known, owning, longer);
    ExtendsFurther(run, known, longer);
  }

  /** An owner that finds no key writes one and confirms. */
  lemma Confirms(run: Run, base: World, pid: Pid, key: Key) returns (longer: Run)
    requires Legal(run) && base.key.None? && run.End() == With(base, pid, Owning, Some(Lock(pid, true)))
    ensures Legal(longer) && Extends(run, longer)
    ensures longer.End() == With(base, pid, Confirmed(key), Some(Lock(pid, true)))
  {
    var mine := Some(Lock(pid, true));
    var writing := Move(run, base, Recheck(pid, key), Owning, mine, Writing(key), mine);
    var ready := Move(writing, base, WriteTemp(pid), Writing(key), mine, Ready(key), mine);
    longer := Move(ready, base, Confirm(pid), Ready(key), mine, Confirmed(key), mine);
    assert Extends(run, writing) && Extends(run, ready);
  }

  lemma OneMore(run: Run, longer: Run, a: Action)
    requires Legal(longer) && Extends(run, longer) && Enabled(longer.End(), a)
    ensures Legal(Then(longer, a)) && Extends(run, Then(longer, a))
  {
  }

  /** A process at the point of installing does so and returns its key. */
  lemma InstallsAndReturns(run: Run, p: Pid) returns (longer: Run)
    requires Legal(run) && p in run.End().procs && run.End().procs[p].Confirmed?
    ensures Legal(longer) && Extends(run, longer)
    ensures var w, k := run.End(), run.End().procs[p].key;
      longer.End() == World(Some(k), w.lock, w.procs[p := Returned(k)], w.installs + [k])
  {
    var once := Then(run, Install(p));
    var read := Then(once, ReadBack(p));
    OneMore(run, run, Install(p));
    OneMore(run, once, ReadBack(p));
    OneMore(run, read, LeaveLock(p));
    longer := Then(read, LeaveLock(p));
  }

  /** Of two processes at the point of installing one installs and returns its
      key, and then the other one installs. */
  lemma {:induction false} BothInstall(run: Run, p: Pid, q: Pid) returns (longer: Run)
    requires Legal(run) && BothConfirmed(run.End(), p, q)
    ensures Legal(longer) && Extends(run, longer)
    ensures var w, k, l := longer.End(), run.End().procs[p].key, run.End().procs[q].key;
      w.installs == run.End().installs + [k, l] && w.key == Some(l) && p in w.procs && w.procs[p] == Returned(k)
  {
    var once := InstallsAndReturns(run, p);
    assert once.End().procs[q] == run.End().procs[q];
    OneMore(run, once, Install(q));
    longer := Then(once, Install(q));
  }

  /** Two processes are about to install keys that differ. */
  predicate BothConfirmed(w: World, p: Pid, q: Pid) {
    && p != q && p in w.procs && q in w.procs
    && w.procs[p].Confirmed? && w.procs[q].Confirmed?
    && w.procs[p].key != w.procs[q].key
  }

  /** Once the lock of a fragile process is gone, a second process comes to
      the point of installing beside the first or beside a third. */
  lemma {:induction false} TwoConfirm(run: Run, p: Pid) returns (longer: Run, a: Pid, b: Pid)
    requires Legal(run) && run.End().key.None? && run.End().lock.None?
    requires p in run.End().procs && Fragile(run.End().procs[p])
    ensures Legal(longer) && Extends(run, longer) && longer.End().installs == run.End().installs
    ensures BothConfirmed(longer.End(), a, b)
  {
    var first := run.End().procs[p];
    var key := if first.Confirmed? then first.key + 1 else 1;
    var one;
    one, a := NewcomerConfirms(run, key);
    var w := one.End();
    match first {
      case Confirmed(_) => {
        longer, b := one, p;
      }
      case Marking => {
        var mine := Some(Lock(p, true));
        var owning := After(one, Mark(p), With(w, p, Owning, mine));
        longer := Confirms(owning, w, p, key + 1);
        b := p;
        assert Extends(one, owning);
        ExtendsFurther(one, owning, longer);
        ExtendsFurther(run, one, longer);
      }
      case Abandoning => {
        var freed := After(one, Abandon(p), With(w, p, Failed, None));
        longer, b := BesideConfirmed(run, one, freed, a);
      }
      case Moving(outcome) => {
        var freed := After(one, MoveAway(p), With(w, p, Moved(outcome, a), None));
        longer, b := BesideConfirmed(run, one, freed, a);
      }
    }
  }

  lemma {:induction false} BesideConfirmed(run: Run, one: Run, freed: Run, a: Pid) returns (longer: Run, b: Pid)
    requires Legal(freed) && Extends(run, one) && freed.After? && freed.before == one
    requires freed.End().key.None? && freed.End().lock.None?
    requires a in freed.End().procs && freed.End().procs[a].Confirmed?
    ensures Legal(longer) && Extends(run, longer) && longer.End().installs == freed.End().installs
    ensures BothConfirmed(longer.End(), a, b)
  {
    longer, b := NewcomerConfirms(freed, freed.End().procs[a].key + 1);
    assert Extends(one, freed);
    ExtendsFurther(one, freed, longer);
    ExtendsFurther(run, one, longer);
  }

  /** Two keys have been installed, and a process has returned the one that is gone. */
  predicate Deceived(w: World, pid: Pid) {
    && |w.installs| == 2 && w.installs[0] != w.installs[1] && w.key == Some(w.installs[1])
    && pid in w.procs && w.procs[pid] == Returned(w.installs[0])
  }

  /** Careful so far, and about to reclaim the lock that a fragile process counts on. */
  predicate Careless(run: Run, reclaimer: Pid) {
    CarefulRun(run) && Delicate(run.End()) && Enabled(run.End(), Reclaim(reclaimer))
  }

  /** Every careful run that ends with a fragile process counting on its lock
      has a continuation in which a newcomer reclaims that lock, two keys are
      installed and a process has returned the one that is gone. */
  lemma {:induction false} CarelessReclaimInstallsTwo(run: Run) returns (before: Run, reclaimer: Pid, longer: Run, deceived: Pid)
    requires Legal(run) && CarefulRun(run) && Delicate(run.End())
    ensures Extends(run, before) && Careless(before, reclaimer) && before.End().lock == run.End().lock
    ensures Legal(longer) && Extends(Then(before, Reclaim(reclaimer)), longer)
    ensures Deceived(longer.End(), deceived)
  {
    CarefulRunKeepsInv(run);
    var p := run.End().lock.value.owner;
    before, reclaimer := AboutToReclaim(run);
    var reclaimed := Then(before, Reclaim(reclaimer));
    assert reclaimed.End().procs[p] == run.End().procs[p];
    var confirmed, other;
    confirmed, deceived, other := TwoConfirm(reclaimed, p);
    longer := BothInstall(confirmed, deceived, other);
    ExtendsFurther(reclaimed, confirmed, longer);
  }

  /** A newcomer judges the lock stale. */
  lemma {:induction false} AboutToReclaim(run: Run) returns (before: Run, reclaimer: Pid)
    requires Legal(run) && CarefulRun(run) && run.End().key.None? && run.End().lock.Some?
    ensures Legal(before) && CarefulRun(before) && Extends(run, before)
    ensures reclaimer !in run.End().procs && before.End() == With(run.End(), reclaimer, Reclaiming, run.End().lock)
  {
    var w := run.End();
    var known;
    known, reclaimer := Newcomer(run);
    before := Move(known, w, JudgeStale(reclaimer), Contending, w.lock, Reclaiming, w.lock);
  }
}
