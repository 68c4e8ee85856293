/**
 * What becomes of an exec by a thread that is not the leader of its process, whether or not what the tracer has
 * noted for the leader is true of the thread (System.PhaseKept).
 */
module Misread {
  import opened Words
  import opened Syscalls
  import opened World
  import opened Invariants
  import opened Tracer
  import opened System

  /** The exec of a leader is no problem, nor is any exec where the seccomp stop takes the place of the entry. */
  lemma PhaseKeptAnyway(c: Config, s: System, pid: Pid)
    requires Good(c, s) && s.tracer.outcome == Looping && CanExec(c, s, pid)
    ensures InPlaceOfEntry(c) || s.tasks[pid].group == pid ==> PhaseKept(c, s, pid)
    ensures pid in s.tracer.syscalls && s.tasks[pid].group in s.tracer.syscalls
  {
    assert TaskOk(c, s, pid);
  }

  // ---------- what other threads do ----------

  /** Whether an action is one of the thread itself, or about it. */
  predicate Concerns(a: Action, pid: Pid) {
    match a
    case Stops(p, _) => p == pid
    case Spawns(p, _, _, _) => p == pid
    case Leaves(p) => p == pid
    case Execs(p) => p == pid
    case Dies(p) => p == pid
    case Waits(w, _) => w.pid == pid
    case FindsNoChild => false
  }

  /** The thread is alone in its process, and no event of another thread is about it. */
  ghost predicate Apart(s: System, pid: Pid) {
    && pid in s.tasks && s.tasks[pid].group == pid && Alone(s, pid, pid)
    && forall p :: p in s.tasks && p != pid && s.tasks[p].activity.Stopped? &&
                   (IsSpawn(s.tasks[p].activity.status) || IsExec(s.tasks[p].activity.status)) ==>
         s.tasks[p].activity.msg != pid
  }

  /** What the thread does, and what is noted for it. */
  ghost predicate IsAt(s: System, pid: Pid, a: Activity, noted: u32) {
    Apart(s, pid) && s.tasks[pid].activity == a && pid in s.tracer.syscalls && s.tracer.syscalls[pid] == noted
  }

  /** Requests change no groups, and whoever is stopped afterwards was stopped before. */
  lemma {:induction false} ResumeAllKeeps(c: Config, tasks: map<Pid, Task>, resumes: seq<Resume>, p: Pid)
    ensures var tasks' := ResumeAll(c, tasks, resumes);
            && (p in tasks' <==> p in tasks)
            && (p in tasks ==>
                  && tasks'[p].group == tasks[p].group
                  && (tasks'[p] == tasks[p] || tasks'[p].activity.Running? || tasks'[p].activity.Dying?))
            && (p in tasks && (forall r :: r in resumes ==> r.pid != p) ==> tasks'[p] == tasks[p])
  {
    if resumes != [] { ResumeAllKeeps(c, tasks, resumes[..|resumes| - 1], p); }
  }

  /** A report of another thread leads to no request to this one, and to no other note about it. */
  lemma OthersHandled(c: Config, t: State, w: Wait, pid: Pid)
    requires w.pid != pid && pid in t.syscalls
    requires (IsSpawn(w.status) || IsExec(w.status)) && w.msg.Some? ==> w.msg.value != pid
    ensures var (t', resumes) := Handle(c, t, w);
            && pid in t'.syscalls && t'.syscalls[pid] == t.syscalls[pid]
            && forall r :: r in resumes ==> r.pid != pid
  {
    if w.pid in t.syscalls && !w.status.Ended? {
      var u := if w.status.EventStop? then t.(syscalls := t.syscalls[w.pid := SYSCALL_UNDEFINED]) else t;
      OthersSyscall(c, u, w, pid);
      if (IsSpawn(w.status) || IsExec(w.status)) && w.msg.Some? { OthersEvent(c, t, w, pid); }
    }
  }

  lemma OthersSyscall(c: Config, t: State, w: Wait, pid: Pid)
    requires w.pid != pid && pid in t.syscalls && w.pid in t.syscalls
    ensures var (t', resumes) := OnSyscall(c, t, w);
            && pid in t'.syscalls && t'.syscalls[pid] == t.syscalls[pid]
            && forall r :: r in resumes ==> r.pid != pid
  {}

  lemma OthersEvent(c: Config, t: State, w: Wait, pid: Pid)
    requires w.pid != pid && pid in t.syscalls && w.pid in t.syscalls
    requires (IsSpawn(w.status) || IsExec(w.status)) && w.msg.Some? && w.msg.value != pid
    ensures var (t', resumes) := OnEvent(c, t, w, w.status.event, w.msg.value);
            && pid in t'.syscalls && t'.syscalls[pid] == t.syscalls[pid]
            && forall r :: r in resumes ==> r.pid != pid
  {}

  lemma OthersReported(c: Config, s: System, w: Wait, killed: bool, pid: Pid)
    requires Apart(s, pid) && pid in s.tracer.syscalls && Enabled(c, s, Waits(w, killed)) && w.pid != pid
    ensures var s' := AfterWait(c, s, w, killed);
            && Apart(s', pid) && s'.tasks[pid] == s.tasks[pid]
            && pid in s'.tracer.syscalls && s'.tracer.syscalls[pid] == s.tracer.syscalls[pid]
  {
    OthersHandled(c, s.tracer, w, pid);
    forall p ensures p in AfterWait(c, s, w, killed).tasks ==>
                       p in s.tasks && AfterWait(c, s, w, killed).tasks[p].group == s.tasks[p].group &&
                       (AfterWait(c, s, w, killed).tasks[p] == s.tasks[p] || !AfterWait(c, s, w, killed).tasks[p].activity.Stopped?)
    {
      ResumeAllKeeps(c, Reported(s, w.pid), Handle(c, s.tracer, w).1, p);
    }
    ResumeAllKeeps(c, Reported(s, w.pid), Handle(c, s.tracer, w).1, pid);
  }

  /** Nothing that does not concern the thread changes anything about it. */
  lemma OthersKeep(c: Config, s: System, action: Action, pid: Pid, a: Activity, noted: u32)
    requires IsAt(s, pid, a, noted) && Enabled(c, s, action) && !Concerns(action, pid)
    ensures IsAt(Perform(c, s, action), pid, a, noted)
  {
    if action.Waits? { OthersReported(c, s, action.w, action.killed, pid); }
  }

  // ---------- turns of the loop that concern the thread ----------

  lemma OwnReported(c: Config, s: System, w: Wait, mode: Mode, signal: nat, former: seq<Resume>)
    requires Apart(s, w.pid) && w.pid in s.tracer.syscalls && Enabled(c, s, Waits(w, false)) && !IsLast(w.status)
    requires Handle(c, s.tracer, w).1 == former + [Resume(w.pid, mode, signal)]
    requires forall r :: r in former ==> r.pid != w.pid
    ensures var s' := AfterWait(c, s, w, false);
            Apart(s', w.pid) && s'.tasks[w.pid].activity == GoesOn(c, s, w.pid, mode, false)
  {
    var tasks := ResumeAll(c, Reported(s, w.pid), former);
    assert (former + [Resume(w.pid, mode, signal)])[..|former|] == former;
    assert AfterWait(c, s, w, false).tasks == ResumeOne(c, tasks, Resume(w.pid, mode, signal));
    ResumeAllKeeps(c, Reported(s, w.pid), former, w.pid);
    forall p ensures p in tasks ==> p in s.tasks && tasks[p].group == s.tasks[p].group &&
                                    (tasks[p] == s.tasks[p] || !tasks[p].activity.Stopped?)
    {
      ResumeAllKeeps(c, Reported(s, w.pid), former, p);
    }
  }

  /** The turn that follows on any exec: if the loop goes on, the number noted for the leader is kept. */
  lemma ExecTurn(c: Config, s: System, w: Wait, former: Pid, noted: u32)
    requires IsAt(s, w.pid, Stopped(CallLocation(c), EventStop(PtraceEvent.Exec), former), noted)
    requires Enabled(c, s, Waits(w, false)) && AfterWait(c, s, w, false).tracer.outcome == Looping
    ensures IsAt(AfterWait(c, s, w, false), w.pid, Running(CallLocation(c), Onward(c)), noted)
  {
    if former == w.pid {
      OwnReported(c, s, w, Onward(c), SIGTRAP, []);
    } else {
      assert [Resume(former, Trace, 0)] + [Resume(w.pid, Onward(c), SIGTRAP)] == [Resume(former, Trace, 0), Resume(w.pid, Onward(c), SIGTRAP)];
      OwnReported(c, s, w, Onward(c), SIGTRAP, [Resume(former, Trace, 0)]);
    }
  }

  /** The stop before the entry, where the filter makes one: nothing is noted. */
  lemma FilterTurn(c: Config, s: System, w: Wait, noted: u32)
    requires IsAt(s, w.pid, Stopped(Outside, EventStop(Seccomp), 0), noted)
    requires c.useSecComp && !c.secCompV2 && Enabled(c, s, Waits(w, false))
    ensures IsAt(AfterWait(c, s, w, false), w.pid, Running(Outside, Trace), noted)
  {
    OwnReported(c, s, w, Trace, 0, []);
  }

  /** A system-call stop is taken for an entry exactly if nothing was noted, whatever it really is. */
  lemma SyscallTurn(c: Config, s: System, w: Wait, loc: Location, noted: u32)
    requires IsAt(s, w.pid, Stopped(loc, SyscallStop, 0), noted) && Enabled(c, s, Waits(w, false))
    ensures w.regs.Some?
    ensures var t, t' := s.tracer, AfterWait(c, s, w, false).tracer;
            if noted == SYSCALL_UNDEFINED
            then t'.exits == t.exits && t'.syscalls == t.syscalls[w.pid := GetSyscallNumber(w.regs.value)] &&
                 t'.outcome == if GetSyscallNumber(w.regs.value) == NOT_AN_ENTRY then Returned(-2) else Looping
            else t'.exits == t.exits + [(w.pid, w.regs.value)] && t'.outcome != Returned(-2)
    ensures AfterWait(c, s, w, false).completed == s.completed + if loc == Entered then [(w.pid, w.regs.value)] else []
  {}

  // ---------- the next stops of the thread ----------

  /** The actions that concern a thread, in order. */
  function Own(actions: seq<Action>, pid: Pid): seq<Action> {
    if actions == [] then []
    else Own(actions[..|actions| - 1], pid) + if Concerns(actions[|actions| - 1], pid) then [actions[|actions| - 1]] else []
  }

  /** What the thread does after `k` of `own`, for as long as the loop goes on. */
  ghost predicate Stage(c: Config, own: seq<Action>, k: nat, s: System, pid: Pid, former: Pid, noted: u32) {
    var a :=
      if k == 0 then Stopped(CallLocation(c), EventStop(PtraceEvent.Exec), former)
      else if k == 1 then Running(CallLocation(c), Onward(c))
      else if k == 2 then Stopped(CallLocation(c), if c.useSecComp then EventStop(Seccomp) else SyscallStop, 0)
      else if k == 3 then Running(Outside, Trace)
      else Stopped(Outside, SyscallStop, 0);
    IsAt(s, pid, a, noted)
  }

  /** The stops of a thread after its exec, without a filter and with one. */
  predicate NextStops(c: Config, own: seq<Action>, pid: Pid) {
    && (|own| == if c.useSecComp then 5 else 3)
    && (forall k :: 0 <= k < |own| && k % 2 == 0 ==> own[k].Waits? && own[k].w.pid == pid && !own[k].killed)
    && own[1] == Stops(pid, if c.useSecComp then EventStop(Seccomp) else SyscallStop)
    && (c.useSecComp ==> own[3] == Stops(pid, SyscallStop))
  }

  /** Whatever other threads do in between, the thread comes from stage to stage. */
  lemma {:induction false} StageReached(c: Config, states: seq<System>, actions: seq<Action>, n: nat, own: seq<Action>,
                                        pid: Pid, former: Pid, noted: u32)
    requires Behaviour(c, states, actions) && n < |actions| && NextStops(c, own, pid) && !InPlaceOfEntry(c)
    requires Own(actions[..n], pid) <= own && |Own(actions[..n], pid)| < |own|
    requires Stage(c, own, 0, states[0], pid, former, noted)
    ensures Stage(c, own, |Own(actions[..n], pid)|, states[n], pid, former, noted)
  {
    if n > 0 {
      var before := actions[..n - 1];
      assert actions[..n][..n - 1] == before;
      StageReached(c, states, actions, n - 1, own, pid, former, noted);
      assert StateAt(c, states, actions, n - 1) && StateAt(c, states, actions, n);
      var k := |Own(before, pid)|;
      if Concerns(actions[n - 1], pid) {
        assert actions[n - 1] == own[k];
        NextStage(c, own, k, states[n - 1], states[n], pid, former, noted);
      } else {
        OthersKeep(c, states[n - 1], actions[n - 1], pid, states[n - 1].tasks[pid].activity, noted);
      }
    }
  }

  lemma NextStage(c: Config, own: seq<Action>, k: nat, s: System, s': System, pid: Pid, former: Pid, noted: u32)
    requires NextStops(c, own, pid) && !InPlaceOfEntry(c) && k + 1 < |own| && Stage(c, own, k, s, pid, former, noted)
    requires NextState(c, s, own[k], s') && s'.tracer.outcome == Looping
    ensures Stage(c, own, k + 1, s', pid, former, noted)
  {
    if k == 0 {
      ExecTurn(c, s, own[0].w, former, noted);
    } else if k == 2 {
      FilterTurn(c, s, own[2].w, noted);
    }
  }

  /** The state right after the exec. */
  lemma ExecIsStage(c: Config, s: System, pid: Pid, own: seq<Action>)
    requires Good(c, s) && s.tracer.outcome == Looping && CanExec(c, s, pid)
    ensures s.tasks[pid].group in s.tracer.syscalls
    ensures Stage(c, own, 0, Replaced(c, s, pid), s.tasks[pid].group, pid, s.tracer.syscalls[s.tasks[pid].group])
  {
    assert TaskOk(c, s, pid);
    var leader := s.tasks[pid].group;
    forall p | p in s.tasks && p != pid && s.tasks[p].activity.Stopped? &&
               (IsSpawn(s.tasks[p].activity.status) || IsExec(s.tasks[p].activity.status))
      ensures s.tasks[p].activity.msg != leader || p == leader
    {
      assert TaskOk(c, s, p) && TaskOk(c, s, leader);
    }
  }

  /**
   * Without a filter, the next stop of the thread is the exit of its exec. Whatever other threads do in between,
   * it is passed on as such exactly if what was noted fits; otherwise it is taken for an entry, and the loop
   * gives up with -2.
   */
  lemma MisreadExecEndsTracing(c: Config, s: System, pid: Pid, states: seq<System>, actions: seq<Action>, n: nat, regs: Regs)
    requires Good(c, s) && s.tracer.outcome == Looping && CanExec(c, s, pid) && !c.useSecComp
    requires Behaviour(c, states, actions) && states[0] == Replaced(c, s, pid) && |actions| == n + 1
    requires NextStops(c, Own(actions, s.tasks[pid].group), s.tasks[pid].group)
    requires Concerns(actions[n], s.tasks[pid].group) && actions[n].Waits? && actions[n].w.regs == Some(regs) && regs.ret == 0
    ensures states[n + 1].completed == states[n].completed + [(s.tasks[pid].group, regs)]
    ensures PhaseKept(c, s, pid) <==> states[n + 1].tracer.exits == states[n].tracer.exits + [(s.tasks[pid].group, regs)]
    ensures !PhaseKept(c, s, pid) <==> states[n + 1].tracer.outcome == Returned(-2)
  {
    var leader, own := s.tasks[pid].group, Own(actions, s.tasks[pid].group);
    ExecIsStage(c, s, pid, own);
    var noted := s.tracer.syscalls[leader];
    assert own == Own(actions[..n], leader) + [actions[n]];
    assert own[2] == actions[n];
    StageReached(c, states, actions, n, own, leader, pid, noted);
    assert StateAt(c, states, actions, n);
    SyscallTurn(c, states[n], actions[n].w, Entered, noted);
  }

  /**
   * With the filter on Linux before 4.8, the thread is next stopped by the filter and then at the entry of the
   * call. The entry is noted exactly if what was noted before fits; otherwise it is taken for an exit, and
   * `SyscallExit` is called for a call that has not been made yet.
   */
  lemma MisreadExecReportsEntry(c: Config, s: System, pid: Pid, states: seq<System>, actions: seq<Action>, n: nat, regs: Regs)
    requires Good(c, s) && s.tracer.outcome == Looping && CanExec(c, s, pid) && c.useSecComp && !c.secCompV2
    requires Behaviour(c, states, actions) && states[0] == Replaced(c, s, pid) && |actions| == n + 1
    requires NextStops(c, Own(actions, s.tasks[pid].group), s.tasks[pid].group)
    requires Concerns(actions[n], s.tasks[pid].group) && actions[n].Waits? && actions[n].w.regs == Some(regs)
    ensures states[n + 1].completed == states[n].completed
    ensures var leader, t, t' := s.tasks[pid].group, states[n].tracer, states[n + 1].tracer;
            && (PhaseKept(c, s, pid) <==>
                  t'.exits == t.exits && t'.syscalls == t.syscalls[leader := regs.nr % 0x1_0000_0000])
            && (!PhaseKept(c, s, pid) <==> t'.exits == t.exits + [(leader, regs)])
    // If so, the thread goes on without being stopped at the exit.
    ensures !PhaseKept(c, s, pid) <==> IsAt(states[n + 1], s.tasks[pid].group, Running(Entered, Cont), SYSCALL_UNDEFINED)
  {
    var leader, own := s.tasks[pid].group, Own(actions, s.tasks[pid].group);
    ExecIsStage(c, s, pid, own);
    var noted := s.tracer.syscalls[leader];
    assert own == Own(actions[..n], leader) + [actions[n]];
    assert own[4] == actions[n];
    StageReached(c, states, actions, n, own, leader, pid, noted);
    assert StateAt(c, states, actions, n);
    SyscallTurn(c, states[n], actions[n].w, Outside, noted);
    EntryTurn(c, states[n], actions[n].w, noted);
  }

  lemma EntryTurn(c: Config, s: System, w: Wait, noted: u32)
    requires IsAt(s, w.pid, Stopped(Outside, SyscallStop, 0), noted) && Enabled(c, s, Waits(w, false)) && c.useSecComp
    ensures w.regs.Some?
    ensures var (s', nr) := (AfterWait(c, s, w, false), GetSyscallNumber(w.regs.value));
            if noted != SYSCALL_UNDEFINED then IsAt(s', w.pid, Running(Entered, Cont), SYSCALL_UNDEFINED)
            else w.pid in s'.tracer.syscalls && s'.tracer.syscalls[w.pid] == nr != SYSCALL_UNDEFINED
  {
    if noted != SYSCALL_UNDEFINED { OwnReported(c, s, w, Cont, 0, []); }
  }

  /**
   * What is next of such a thread is its end, or the exit of the call, of which nobody is told: in no turn of
   * the loop is the call reported as finished when it is. After that, what is noted fits again.
   */
  lemma ExitIsNotSeen(c: Config, s: System, a: Action, pid: Pid)
    requires IsAt(s, pid, Running(Entered, Cont), SYSCALL_UNDEFINED) && Enabled(c, s, a) && c.useSecComp && !c.secCompV2
    ensures Concerns(a, pid) ==> a == Dies(pid) || a == Leaves(pid) || (a.Stops? && IsLast(a.status))
    ensures var s' := Perform(c, s, a);
            if !Concerns(a, pid) then IsAt(s', pid, Running(Entered, Cont), SYSCALL_UNDEFINED)
            else s'.tracer == s.tracer && s'.completed == s.completed &&
                 (a == Leaves(pid) ==> IsAt(s', pid, Running(Outside, Cont), SYSCALL_UNDEFINED) &&
                                       Phase(c, s'.tasks[pid].activity, SYSCALL_UNDEFINED))
  {
    if !Concerns(a, pid) { OthersKeep(c, s, a, pid, Running(Entered, Cont), SYSCALL_UNDEFINED); }
  }

  // ---------- pids that are left behind ----------

  /** A report of a creation makes an assertion fail exactly if it is a process whose pid is known already. */
  lemma SpawnFailsExactly(c: Config, t: State, w: Wait)
    requires t.outcome == Looping && Closed(t.world) && w.pid in t.syscalls && w.pid in t.world.procMap
    requires IsSpawn(w.status) && w.msg.Some? && (w.status.event.Clone? ==> w.cloneFlags.Some?)
    ensures Handle(c, t, w).0.outcome == AssertionFailed <==> SpawnEvent(w).Process? && w.msg.value in t.world.procMap
  {}

  /**
   * The former pid of a thread that execs stays known to the context, though no thread has it any more. If the
   * kernel gives it to another thread, the entry is overwritten; if it gives it to a process, an assertion fails.
   */
  lemma FormerPidStays(c: Config, t: State, w: Wait, former: Pid, spawn: Wait)
    requires t.outcome == Looping && Inv(t.world) && w.pid in t.world.leaders && w.pid in t.syscalls
    requires IsExec(w.status) && w.msg == Some(former) && former != w.pid
    requires former in t.syscalls && former in t.world.procMap
    requires spawn.pid in t.syscalls && spawn.pid in t.world.procMap && spawn.pid != former
    requires IsSpawn(spawn.status) && spawn.msg == Some(former) && (spawn.status.event.Clone? ==> spawn.cloneFlags.Some?)
    ensures var t' := Handle(c, t, w).0;
            && t'.outcome == Looping && former !in t'.syscalls && former in t'.world.procMap
            && (Handle(c, t', spawn).0.outcome == AssertionFailed <==> SpawnEvent(spawn).Process?)
  {
    Permits(t, Event.Exec(w.pid, w.comm, w.cmdline), w.fs);
    Registers(t.world, Event.Exec(w.pid, w.comm, w.cmdline), w.fs);
    SpawnFailsExactly(c, Handle(c, t, w).0, spawn);
  }
}
