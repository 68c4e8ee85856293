/**
 * Children that the tracer never lets go on: those whose creator is gone before the tracer has learned from it
 * that they are its children.
 */
module Orphans {
  import opened Words
  import opened Syscalls
  import opened World
  import opened Tracer
  import opened System
  import opened Misread
  import opened MisreadRuns

  /** A creation that has not been reported yet. */
  ghost predicate HasChild(s: System, creator: Pid, child: Pid) {
    Announces(s, creator, child) && IsSpawn(s.tasks[creator].activity.status)
  }

  /** A child that the tracer does not know, and that no thread can tell it of any more. */
  ghost predicate Orphan(s: System, child: Pid) {
    child in s.tasks && child !in s.tracer.syscalls && forall q :: !Announces(s, q, child)
  }

  /**
   * What takes the news of a creation away: the creator is killed, be it before its report or between the report
   * and the question of what happened, or it is the leader of a process in which another thread execs.
   */
  ghost predicate Silences(s: System, a: Action, creator: Pid) {
    match a
    case Dies(p) => p == creator
    case Waits(w, _) => w.pid == creator && (w.msg.None? || (w.status == EventStop(Clone) && w.cloneFlags.None?))
    case Execs(p) => p in s.tasks && s.tasks[p].group == creator
    case _ => false
  }

  // ---------- reports and newborn children ----------

  /** A report of another thread that does not announce the child leaves it as it is. */
  lemma ChildHandled(c: Config, t: State, w: Wait, child: Pid)
    requires w.pid != child && child !in t.syscalls
    requires (IsSpawn(w.status) || IsExec(w.status)) && w.msg.Some? ==> w.msg.value != child
    ensures var (t', resumes) := Handle(c, t, w);
            && child !in t'.syscalls && (child in t'.suspended <==> child in t.suspended)
            && forall r :: r in resumes ==> r.pid != child
  {
    if w.pid in t.syscalls && w.status.EventStop? && w.msg.Some? { ChildEvent(c, t, w, child); }
  }

  lemma ChildEvent(c: Config, t: State, w: Wait, child: Pid)
    requires w.pid != child && child !in t.syscalls && w.pid in t.syscalls && w.status.EventStop? && w.msg.Some?
    requires (IsSpawn(w.status) || IsExec(w.status)) ==> w.msg.value != child
    ensures var (t', resumes) := OnEvent(c, t, w, w.status.event, w.msg.value);
            && child !in t'.syscalls && (child in t'.suspended <==> child in t.suspended)
            && forall r :: r in resumes ==> r.pid != child
  {}

  /** Whoever announces something after a report did so before. */
  lemma NothingNew(c: Config, s: System, w: Wait, killed: bool, p: Pid, q: Pid)
    requires Good(c, s) && Enabled(c, s, Waits(w, killed)) && Announces(AfterWait(c, s, w, killed), p, q)
    ensures Announces(s, p, q) && p != w.pid
  {
    ResumeAllKeeps(c, Reported(s, w.pid), Handle(c, s.tracer, w).1, p);
    assert p in s.tasks && TaskOk(c, s, p);
  }

  /** A report that is not about the child leaves it where it is. */
  lemma ChildReported(c: Config, s: System, w: Wait, killed: bool, child: Pid)
    requires Good(c, s) && Enabled(c, s, Waits(w, killed)) && w.pid != child
    requires child in s.tasks && child !in s.tracer.syscalls && !Announces(s, w.pid, child)
    ensures var s' := AfterWait(c, s, w, killed);
            child in s'.tasks && s'.tasks[child] == s.tasks[child] && child !in s'.tracer.syscalls
  {
    assert TaskOk(c, s, w.pid);
    ChildHandled(c, s.tracer, w, child);
    ResumeAllKeeps(c, Reported(s, w.pid), Handle(c, s.tracer, w).1, child);
  }

  // ---------- how a child becomes an orphan, and stays one ----------

  /** As long as no report is read, the creator goes on announcing the child. */
  lemma StillAnnounced(c: Config, s: System, a: Action, creator: Pid, child: Pid)
    requires Good(c, s) && Enabled(c, s, a) && HasChild(s, creator, child)
    requires !Silences(s, a, creator) && !(a.Waits? && a.w.pid == creator)
    ensures HasChild(Perform(c, s, a), creator, child)
  {
    assert TaskOk(c, s, creator);
    if a.Waits? { StaysAnnounced(c, s, a.w, a.killed, creator, child); }
  }

  lemma StaysAnnounced(c: Config, s: System, w: Wait, killed: bool, creator: Pid, child: Pid)
    requires Good(c, s) && Enabled(c, s, Waits(w, killed)) && HasChild(s, creator, child) && w.pid != creator
    ensures HasChild(AfterWait(c, s, w, killed), creator, child)
  {
    assert TaskOk(c, s, w.pid) && TaskOk(c, s, creator);
    OthersHandled(c, s.tracer, w, creator);
    ResumeAllKeeps(c, Reported(s, w.pid), Handle(c, s.tracer, w).1, creator);
  }

  /** A creation that is reported and read makes the child known. */
  lemma ReadMakesKnown(c: Config, s: System, w: Wait, killed: bool, child: Pid)
    requires Good(c, s) && Enabled(c, s, Waits(w, killed)) && HasChild(s, w.pid, child)
    requires !Silences(s, Waits(w, killed), w.pid)
    ensures child in AfterWait(c, s, w, killed).tracer.syscalls
  {
    SpawnTold(c, s, w, killed);
  }

  lemma SilencedIsOrphan(c: Config, s: System, a: Action, creator: Pid, child: Pid)
    requires Good(c, s) && Enabled(c, s, a) && HasChild(s, creator, child) && Silences(s, a, creator)
    ensures Orphan(Perform(c, s, a), child)
  {
    assert TaskOk(c, s, creator) && TaskOk(c, s, child);
    var s' := Perform(c, s, a);
    if a.Waits? {
      var r := Handle(c, s.tracer, a.w).1[0];
      AfterOne(c, s, a.w, a.killed, r.mode, r.signal);
    }
    forall q ensures !Announces(s', q, child) {
      if Announces(s', q, child) && q != creator { assert Announces(s, q, child); }
    }
  }

  /** A child that is announced becomes an orphan exactly if its creator is silenced. Else it is announced on, or known. */
  lemma OrphanedExactly(c: Config, s: System, a: Action, creator: Pid, child: Pid)
    requires Good(c, s) && Enabled(c, s, a) && HasChild(s, creator, child)
    ensures Orphan(Perform(c, s, a), child) <==> Silences(s, a, creator)
    ensures !Silences(s, a, creator) ==>
              HasChild(Perform(c, s, a), creator, child) || child in Perform(c, s, a).tracer.syscalls
  {
    if Silences(s, a, creator) {
      SilencedIsOrphan(c, s, a, creator, child);
    } else if a.Waits? && a.w.pid == creator {
      ReadMakesKnown(c, s, a.w, a.killed, child);
    } else {
      StillAnnounced(c, s, a, creator, child);
    }
  }

  /** An orphan stays one. Once it is held at its first stop, it never moves; and the loop never runs out of children. */
  lemma OrphanStays(c: Config, s: System, a: Action, child: Pid)
    requires Good(c, s) && Enabled(c, s, a) && Orphan(s, child)
    ensures Orphan(Perform(c, s, a), child) && a != FindsNoChild
    ensures s.tasks[child].activity.Held? ==> Perform(c, s, a).tasks[child] == s.tasks[child]
  {
    assert TaskOk(c, s, child);
    var s' := Perform(c, s, a);
    if a.Waits? {
      if a.w.pid != child {
        ChildReported(c, s, a.w, a.killed, child);
      } else {
        ResumeAllKeeps(c, Reported(s, child), [], child);
      }
      forall q ensures !Announces(s', q, child) {
        if Announces(s', q, child) { NothingNew(c, s, a.w, a.killed, q, child); }
      }
    } else {
      forall q ensures !Announces(s', q, child) {
        if Announces(s', q, child) { assert Announces(s, q, child); }
      }
    }
  }

  // ---------- in every run ----------

  /** A child that is not known and no orphan is announced by the one that created it. */
  lemma ChildOfSomeone(c: Config, s: System, child: Pid) returns (creator: Pid)
    requires Good(c, s) && s.tracer.outcome == Looping && child in s.tasks && child !in s.tracer.syscalls && !Orphan(s, child)
    ensures HasChild(s, creator, child)
  {
    creator :| Announces(s, creator, child);
    assert TaskOk(c, s, creator);
  }

  /** A thread that is known stays known until it ends. */
  lemma KnownStaysKnown(c: Config, s: System, a: Action, p: Pid)
    requires Good(c, s) && Enabled(c, s, a) && p in s.tasks && p in s.tracer.syscalls && p in Perform(c, s, a).tasks
    ensures p in Perform(c, s, a).tracer.syscalls
  {
    if a.Waits? {
      assert TaskOk(c, s, a.w.pid);
      if a.w.pid != p {
        OthersHandled(c, s.tracer, a.w, p);
      } else if !a.w.status.Ended? {
        OwnStaysKnown(c, s.tracer, a.w);
      }
    }
  }

  lemma OwnStaysKnown(c: Config, t: State, w: Wait)
    requires w.pid in t.syscalls && !w.status.Ended?
    ensures w.pid in Handle(c, t, w).0.syscalls
  {}

  ghost predicate SilencedAt(states: seq<System>, actions: seq<Action>, i: nat, child: Pid) {
    i < |actions| < |states| && exists q :: HasChild(states[i], q, child) && Silences(states[i], actions[i], q)
  }

  /** Once a creator has been silenced, the child is an orphan for the rest of the run. */
  lemma {:induction false} SilencedForEver(c: Config, states: seq<System>, actions: seq<Action>, i: nat, n: nat, child: Pid)
    requires Behaviour(c, states, actions) && Initial(c, states[0]) && i < n <= |actions| && SilencedAt(states, actions, i, child)
    ensures Orphan(states[n], child)
    decreases n
  {
    GoodInEveryRun(c, states, actions, n - 1);
    assert StateAt(c, states, actions, n - 1);
    if n == i + 1 {
      var q :| HasChild(states[i], q, child) && Silences(states[i], actions[i], q);
      OrphanedExactly(c, states[i], actions[i], q, child);
    } else {
      SilencedForEver(c, states, actions, i, n - 1, child);
      OrphanStays(c, states[n - 1], actions[n - 1], child);
    }
  }

  /** An orphan has had a creator that was silenced. */
  lemma {:induction false} OrphanWasSilenced(c: Config, states: seq<System>, actions: seq<Action>, n: nat, child: Pid)
      returns (i: nat)
    requires Behaviour(c, states, actions) && Initial(c, states[0]) && n <= |actions| && Orphan(states[n], child)
    ensures i < n && SilencedAt(states, actions, i, child)
    decreases n
  {
    assert n > 0;
    var s, a := states[n - 1], actions[n - 1];
    GoodInEveryRun(c, states, actions, n - 1);
    assert StateAt(c, states, actions, n - 1);
    CameFrom(c, s, a, child);
    if Orphan(s, child) {
      i := OrphanWasSilenced(c, states, actions, n - 1, child);
    } else {
      var creator := ChildOfSomeone(c, s, child);
      OrphanedExactly(c, s, a, creator, child);
      i := n - 1;
    }
  }

  /** An orphan was there before, and was not known. */
  lemma CameFrom(c: Config, s: System, a: Action, child: Pid)
    requires Good(c, s) && Enabled(c, s, a) && Orphan(Perform(c, s, a), child)
    ensures child in s.tasks && child !in s.tracer.syscalls
  {
    OnlySpawnsAdd(c, s, a, child);
    SpawnAnnounces(c, s, a);
    if child in s.tasks && child in s.tracer.syscalls { KnownStaysKnown(c, s, a, child); }
  }

  lemma OnlySpawnsAdd(c: Config, s: System, a: Action, p: Pid)
    requires Good(c, s) && Enabled(c, s, a)
    ensures p in Perform(c, s, a).tasks ==> p in s.tasks || (a.Spawns? && p == a.child)
  {
    match a
    case Execs(pid) => assert TaskOk(c, s, pid);
    case Waits(w, killed) => ResumeAllKeeps(c, Reported(s, w.pid), Handle(c, s.tracer, w).1, p);
    case _ =>
  }

  lemma SpawnAnnounces(c: Config, s: System, a: Action)
    requires Good(c, s) && Enabled(c, s, a)
    ensures a.Spawns? ==> Announces(Perform(c, s, a), a.pid, a.child)
  {
    if a.Spawns? { assert TaskOk(c, s, a.pid); }
  }

  /**
   * In every run, and for every child that the tracer does not know: exactly if its creator has been silenced, it
   * is an orphan, and will never be let go on. Else the creator announces it.
   */
  lemma OrphansInEveryRun(c: Config, states: seq<System>, actions: seq<Action>, n: nat, child: Pid)
    requires Behaviour(c, states, actions) && Initial(c, states[0]) && n <= |actions|
    requires states[n].tracer.outcome == Looping && child in states[n].tasks && child !in states[n].tracer.syscalls
    ensures Orphan(states[n], child) <==> exists i :: 0 <= i < n && SilencedAt(states, actions, i, child)
    ensures !Orphan(states[n], child) ==> exists creator :: HasChild(states[n], creator, child)
  {
    if Orphan(states[n], child) {
      var i := OrphanWasSilenced(c, states, actions, n, child);
    } else {
      GoodInEveryRun(c, states, actions, n);
      var creator := ChildOfSomeone(c, states[n], child);
      if i :| 0 <= i < n && SilencedAt(states, actions, i, child) { SilencedForEver(c, states, actions, i, n, child); }
    }
  }

  // ---------- numbers that are kept for nobody ----------

  /** An exec that has not been reported yet, by which thread `former` took the pid of its leader. */
  ghost predicate Replaces(s: System, leader: Pid, former: Pid) {
    Announces(s, leader, former) && IsExec(s.tasks[leader].activity.status)
  }

  /** A pid for which the loop keeps a number, though no thread has it and no report will tell. */
  ghost predicate Stale(s: System, p: Pid) {
    p in s.tracer.syscalls && p !in s.tasks && forall q :: !Replaces(s, q, p)
  }

  /** The thread is killed before it was asked what has happened. */
  predicate IsSilenced(a: Action, p: Pid) {
    match a
    case Dies(q) => q == p
    case Waits(w, _) => w.pid == p && w.msg.None?
    case _ => false
  }

  /** What is kept for a pid that is in use, or still to be replaced, does not become stale in any other way. */
  lemma NotStale(c: Config, s: System, a: Action, p: Pid)
    requires Good(c, s) && Enabled(c, s, a) && !Stale(s, p)
    requires forall q :: Replaces(s, q, p) ==> !IsSilenced(a, q)
    ensures Perform(c, s, a).tracer.outcome == Looping ==> !Stale(Perform(c, s, a), p)
  {
    var s' := Perform(c, s, a);
    if p in s.tasks {
      if p !in s'.tasks { GoneIsForgotten(c, s, a, p); }
    } else if q :| Replaces(s, q, p) {
      ReplacedStays(c, s, a, q, p);
    } else {
      NewIsThere(c, s, a, p);
    }
  }

  /** A thread whose pid goes away has ended, and is forgotten, or has taken another pid. */
  lemma GoneIsForgotten(c: Config, s: System, a: Action, p: Pid)
    requires Good(c, s) && Enabled(c, s, a) && p in s.tasks && p !in Perform(c, s, a).tasks
    ensures var s' := Perform(c, s, a);
            s'.tracer.outcome == Looping ==> p !in s'.tracer.syscalls || exists q :: Replaces(s', q, p)
  {
    var s' := Perform(c, s, a);
    match a
    case Execs(pid) =>
      assert TaskOk(c, s, pid);
      assert Replaces(s', s.tasks[p].group, p);
    case Waits(w, killed) =>
      ResumeAllKeeps(c, Reported(s, w.pid), Handle(c, s.tracer, w).1, p);
      if w.status.Ended? { EndHandled(c, s, w, killed); }
    case _ =>
  }

  lemma ReplacedStays(c: Config, s: System, a: Action, q: Pid, p: Pid)
    requires Good(c, s) && Enabled(c, s, a) && Replaces(s, q, p) && !IsSilenced(a, q)
    ensures p !in Perform(c, s, a).tracer.syscalls || Replaces(Perform(c, s, a), q, p)
  {
    assert TaskOk(c, s, q);
    if a.Waits? {
      if a.w.pid == q {
        ExecTold(c, s, a.w, a.killed);
      } else {
        assert TaskOk(c, s, a.w.pid);
        ReplacedReported(c, s, a.w, a.killed, q, p);
      }
    }
  }

  lemma ReplacedReported(c: Config, s: System, w: Wait, killed: bool, q: Pid, p: Pid)
    requires Good(c, s) && Enabled(c, s, Waits(w, killed)) && Replaces(s, q, p) && w.pid != q
    ensures Replaces(AfterWait(c, s, w, killed), q, p)
  {
    assert TaskOk(c, s, w.pid) && TaskOk(c, s, q);
    OthersHandled(c, s.tracer, w, q);
    ResumeAllKeeps(c, Reported(s, w.pid), Handle(c, s.tracer, w).1, q);
  }

  /** A number that is new is kept for a child, which is there. */
  lemma NewIsThere(c: Config, s: System, a: Action, p: Pid)
    requires Good(c, s) && Enabled(c, s, a) && p !in s.tasks && p !in s.tracer.syscalls
    ensures p in Perform(c, s, a).tracer.syscalls ==> p in Perform(c, s, a).tasks
  {
    if a.Waits? {
      NotToldOf(c, s, a.w, a.killed, p);
      ChildHandled(c, s.tracer, a.w, p);
    }
  }

  lemma NotToldOf(c: Config, s: System, w: Wait, killed: bool, p: Pid)
    requires Good(c, s) && Enabled(c, s, Waits(w, killed)) && p !in s.tasks && p !in s.tracer.syscalls
    ensures w.pid != p && ((IsSpawn(w.status) || IsExec(w.status)) && w.msg.Some? ==> w.msg.value != p)
  {
    assert TaskOk(c, s, w.pid);
  }

  lemma SilencedIsStale(c: Config, s: System, a: Action, q: Pid, p: Pid)
    requires Good(c, s) && Enabled(c, s, a) && Replaces(s, q, p) && IsSilenced(a, q)
    ensures Stale(Perform(c, s, a), p)
  {
    assert TaskOk(c, s, q);
    var s' := Perform(c, s, a);
    if a.Waits? {
      var r := Handle(c, s.tracer, a.w).1[0];
      AfterOne(c, s, a.w, a.killed, r.mode, r.signal);
    }
    forall q' ensures !Replaces(s', q', p) {
      if Replaces(s', q', p) && q' != q { assert Announces(s, q', p); }
    }
  }

  lemma StaleStays(c: Config, s: System, a: Action, p: Pid)
    requires Good(c, s) && Enabled(c, s, a) && Stale(s, p)
    ensures Stale(Perform(c, s, a), p)
  {
    var s' := Perform(c, s, a);
    OnlySpawnsAdd(c, s, a, p);
    if a.Waits? { StaleReported(c, s, a.w, a.killed, p); }
    forall q ensures !Replaces(s', q, p) {
      if Replaces(s', q, p) { NothingReplacesAnew(c, s, a, q, p); }
    }
  }

  lemma StaleReported(c: Config, s: System, w: Wait, killed: bool, p: Pid)
    requires Good(c, s) && Enabled(c, s, Waits(w, killed)) && Stale(s, p)
    ensures p in AfterWait(c, s, w, killed).tracer.syscalls
  {
    assert TaskOk(c, s, w.pid);
    assert !Replaces(s, w.pid, p);
    OthersHandled(c, s.tracer, w, p);
  }

  lemma NothingReplacesAnew(c: Config, s: System, a: Action, q: Pid, p: Pid)
    requires Good(c, s) && Enabled(c, s, a) && p !in s.tasks && Replaces(Perform(c, s, a), q, p)
    ensures Replaces(s, q, p)
  {
    if a.Waits? { NothingNew(c, s, a.w, a.killed, q, p); }
  }

  /**
   * While the loop goes on, it keeps a number for exactly the threads that it knows of and those that are still
   * to be reported to have taken another pid. A number becomes stale exactly if the latter is never learned.
   */
  lemma StaleExactly(c: Config, s: System, a: Action, p: Pid)
    requires Good(c, s) && Enabled(c, s, a) && Perform(c, s, a).tracer.outcome == Looping
    ensures Stale(Perform(c, s, a), p) <==> Stale(s, p) || exists q :: Replaces(s, q, p) && IsSilenced(a, q)
  {
    if Stale(s, p) {
      StaleStays(c, s, a, p);
    } else if q :| Replaces(s, q, p) && IsSilenced(a, q) {
      SilencedIsStale(c, s, a, q, p);
    } else {
      NotStale(c, s, a, p);
    }
  }

  // ---------- a run ----------

  /** The state after a fork, with what the creator does. */
  function Forked(c: Config, noted: u32, a: Activity): System {
    var s := Single(c, a, noted, StartWorld(c));
    s.(tasks := s.tasks[Other(c) := Task(Other(c), Stopped(Outside, SignalStop(19), 0))])
  }

  /** Then the child is suspended. */
  function Suspended(c: Config, noted: u32, a: Activity): System {
    var s := Single(c, a, noted, StartWorld(c));
    s.(tasks := s.tasks[Other(c) := Task(Other(c), Held(Outside, SignalStop(19)))],
       tracer := s.tracer.(suspended := map[Other(c) := SignalStop(19)]))
  }

  lemma ForkAndHold(c: Config, noted: u32)
    ensures Leads(c, Single(c, Running(CallLocation(c), Onward(c)), noted, StartWorld(c)),
                  Spawns(c.tracee, Other(c), Fork, false),
                  Waits(Report(Other(c), SignalStop(19), 0, AtEntry(0)), false),
                  Suspended(c, noted, Stopped(CallLocation(c), EventStop(Fork), Other(c))))
  {
    var s := Single(c, Running(CallLocation(c), Onward(c)), noted, StartWorld(c));
    var s1 := Perform(c, s, Spawns(c.tracee, Other(c), Fork, false));
    assert s1 == Forked(c, noted, Stopped(CallLocation(c), EventStop(Fork), Other(c)));
  }

  lemma CreatorDies(c: Config, noted: u32)
    ensures Leads(c, Suspended(c, noted, Stopped(CallLocation(c), EventStop(Fork), Other(c))),
                  Dies(c.tracee), Stops(c.tracee, Ended(137)), Suspended(c, noted, Stopped(Outside, Ended(137), 0)))
  {}

  /** What is left: the child, and a loop that waits for ever. */
  lemma CreatorIsGone(c: Config, noted: u32)
    requires c.followForks && c.waitDaemons
    ensures var s, end := Suspended(c, noted, Stopped(Outside, Ended(137), 0)), Waits(Report(c.tracee, Ended(137), 0, AtEntry(0)), false);
            && Enabled(c, s, end)
            && Perform(c, s, end).tasks == map[Other(c) := Task(Other(c), Held(Outside, SignalStop(19)))]
            && Perform(c, s, end).tracer.outcome == Looping && Other(c) !in Perform(c, s, end).tracer.syscalls
  {}

  /** The program forks and is killed before the tracer has learned of the fork. The child has been suspended. */
  lemma CreatorIsKilled(c: Config) returns (states: seq<System>, actions: seq<Action>, noted: u32)
    ensures Behaviour(c, states, actions) && Initial(c, states[0])
    ensures states[|actions|] == Suspended(c, noted, Stopped(Outside, Ended(137), 0))
  {
    StartIsInitial(c);
    states, actions, noted := [Single(c, Running(Outside, Onward(c)), SYSCALL_UNDEFINED, StartWorld(c))], [], SYSCALL_UNDEFINED;
    if !c.useSecComp {
      SingleEnters(c);
      noted := SYS_clone;
      states, actions := GrowTwice(c, states, actions, Stops(c.tracee, SyscallStop),
                                   Waits(Report(c.tracee, SyscallStop, 0, AtEntry(SYS_clone)), false),
                                   Single(c, Running(Entered, Trace), SYS_clone, StartWorld(c)));
    }
    states, actions := AddForkAndDeath(c, states, actions, noted);
  }

  lemma AddForkAndDeath(c: Config, states: seq<System>, actions: seq<Action>, noted: u32)
      returns (states': seq<System>, actions': seq<Action>)
    requires Behaviour(c, states, actions)
    requires states[|actions|] == Single(c, Running(CallLocation(c), Onward(c)), noted, StartWorld(c))
    ensures Behaviour(c, states', actions') && states'[0] == states[0]
    ensures states'[|actions'|] == Suspended(c, noted, Stopped(Outside, Ended(137), 0))
  {
    ForkAndHold(c, noted);
    states', actions' := GrowTwice(c, states, actions, Spawns(c.tracee, Other(c), Fork, false),
                                   Waits(Report(Other(c), SignalStop(19), 0, AtEntry(0)), false),
                                   Suspended(c, noted, Stopped(CallLocation(c), EventStop(Fork), Other(c))));
    CreatorDies(c, noted);
    states', actions' := GrowTwice(c, states', actions', Dies(c.tracee), Stops(c.tracee, Ended(137)),
                                   Suspended(c, noted, Stopped(Outside, Ended(137), 0)));
  }

  lemma NothingHappens(c: Config, s: System, child: Pid, a: Action)
    requires s.tasks == map[child := Task(child, Held(Outside, SignalStop(19)))] && child !in s.tracer.syscalls
    ensures !Enabled(c, s, a)
  {
    assert child in s.tasks;
  }

  /**
   * If it was the tracee, and the loop is to wait for daemons, it waits for ever, and so does the child: nothing
   * can happen any more.
   */
  lemma ChildIsLeft(c: Config) returns (states: seq<System>, actions: seq<Action>)
    requires c.followForks && c.waitDaemons
    ensures Behaviour(c, states, actions) && Initial(c, states[0])
    ensures states[|actions|].tracer.outcome == Looping && states[|actions|].tasks != map[]
    ensures forall a :: !Enabled(c, states[|actions|], a)
  {
    var noted;
    states, actions, noted := CreatorIsKilled(c);
    CreatorIsGone(c, noted);
    states, actions := Grow(c, states, actions, Waits(Report(c.tracee, Ended(137), 0, AtEntry(0)), false));
    forall a ensures !Enabled(c, states[|actions|], a) { NothingHappens(c, states[|actions|], Other(c), a); }
  }
}
