/** Runs of the program that lead to an exec which the tracer misreads, from the start to the misreading. */
module MisreadRuns {
  import opened Words
  import opened Syscalls
  import opened World
  import opened Tracer
  import opened System
  import opened Misread

  // ---------- runs that lead there ----------

  lemma Grow(c: Config, states: seq<System>, actions: seq<Action>, a: Action) returns (states': seq<System>, actions': seq<Action>)
    requires Behaviour(c, states, actions) && Enabled(c, states[|actions|], a)
    ensures Behaviour(c, states', actions') && actions' == actions + [a] && states'[0] == states[0]
    ensures states'[|actions'|] == Perform(c, states[|actions|], a)
  {
    states', actions' := states + [Perform(c, states[|actions|], a)], actions + [a];
    forall i | 0 <= i < |actions'| ensures StateAt(c, states', actions', i) {
      if i < |actions| { assert StateAt(c, states, actions, i); }
    }
  }

  function Report(pid: Pid, status: Status, msg: Pid, regs: Regs): Wait {
    Wait(pid, status, Some(msg), Some(0x1_0000), Some(regs), "", "", "", map[])
  }

  /** The registers at the entry of a call, where -38 is preset, and at its exit. */
  function AtEntry(nr: u64): Regs {
    Regs(nr, TWO_TO_64 - 38, 0, 0, 0, 0)
  }

  function AtExit(nr: u64, ret: u64): Regs {
    Regs(nr, ret, 0, 0, 0, 0)
  }

  const SYS_clone := 56
  const SYS_execve := 59

  /** A process of two threads, `leader` and `other`, that tracks no file. */
  function Pair(leader: Pid, other: Pid, a: Activity, b: Activity, noted: u32, noted': u32, world: World,
                exits: seq<(Pid, Regs)>): System
  {
    System(map[leader := Task(leader, a), other := Task(leader, b)],
           State(map[leader := noted, other := noted'], map[], world, EXIT_CODE_UNKNOWN, Looping, exits), exits)
  }

  function Single(c: Config, a: Activity, noted: u32, world: World): System {
    System(map[c.tracee := Task(c.tracee, a)],
           State(map[c.tracee := noted], map[], world, EXIT_CODE_UNKNOWN, Looping, []), [])
  }

  function StartWorld(c: Config): World {
    RegisterTracee(c.tracee, "", "", [], map[])
  }

  /** The pid of the second thread, and the context that knows it. */
  function Other(c: Config): Pid {
    c.tracee + 1
  }

  function PairWorld(c: Config): World {
    StartWorld(c).(procMap := map[c.tracee := 0, Other(c) := 0])
  }

  /** Two actions that lead from one state to another. */
  ghost predicate Leads(c: Config, s: System, a: Action, b: Action, s': System) {
    Enabled(c, s, a) && Enabled(c, Perform(c, s, a), b) && Perform(c, Perform(c, s, a), b) == s'
  }

  lemma GrowTwice(c: Config, states: seq<System>, actions: seq<Action>, a: Action, b: Action, s: System)
      returns (states': seq<System>, actions': seq<Action>)
    requires Behaviour(c, states, actions) && Leads(c, states[|actions|], a, b, s)
    ensures Behaviour(c, states', actions') && actions' == actions + [a] + [b]
    ensures states'[0] == states[0] && states'[|actions'|] == s
  {
    states', actions' := Grow(c, states, actions, a);
    states', actions' := Grow(c, states', actions', b);
  }

  lemma StartIsInitial(c: Config)
    ensures Initial(c, Single(c, Running(Outside, Onward(c)), SYSCALL_UNDEFINED, StartWorld(c)))
  {
    assert StartWorld(c) == RegisterTracee(c.tracee, "", "", [], map[]);
  }

  lemma SingleEnters(c: Config)
    requires !c.useSecComp
    ensures Leads(c, Single(c, Running(Outside, Trace), SYSCALL_UNDEFINED, StartWorld(c)),
                  Stops(c.tracee, SyscallStop), Waits(Report(c.tracee, SyscallStop, 0, AtEntry(SYS_clone)), false),
                  Single(c, Running(Entered, Trace), SYS_clone, StartWorld(c)))
  {
    var s := Single(c, Running(Outside, Trace), SYSCALL_UNDEFINED, StartWorld(c));
    AfterOne(c, Perform(c, s, Stops(c.tracee, SyscallStop)), Report(c.tracee, SyscallStop, 0, AtEntry(SYS_clone)), false, Trace, 0);
  }

  /** The thread creates another one, which is reported first. */
  lemma SingleSpawns(c: Config, noted: u32)
    ensures Leads(c, Single(c, Running(CallLocation(c), Onward(c)), noted, StartWorld(c)),
                  Spawns(c.tracee, Other(c), Clone, true),
                  Waits(Report(c.tracee, EventStop(Clone), Other(c), AtEntry(SYS_clone)), false),
                  Pair(c.tracee, Other(c), Running(CallLocation(c), Onward(c)), Stopped(Outside, SignalStop(19), 0),
                       noted, SYSCALL_UNDEFINED, PairWorld(c), []))
  {
    var s := Single(c, Running(CallLocation(c), Onward(c)), noted, StartWorld(c));
    var s1, w := Perform(c, s, Spawns(c.tracee, Other(c), Clone, true)), Report(c.tracee, EventStop(Clone), Other(c), AtEntry(SYS_clone));
    CloneIsHandled(c, noted);
    AfterOne(c, s1, w, false, Onward(c), SIGTRAP);
  }

  lemma CloneIsHandled(c: Config, noted: u32)
    ensures var t := Single(c, Dying, noted, StartWorld(c)).tracer;
            Handle(c, t, Report(c.tracee, EventStop(Clone), Other(c), AtEntry(SYS_clone))) ==
            (Pair(c.tracee, Other(c), Dying, Dying, noted, SYSCALL_UNDEFINED, PairWorld(c), []).tracer,
             [Resume(c.tracee, Onward(c), SIGTRAP)])
    ensures Other(c) !in StartWorld(c).procMap
  {
    assert StartWorld(c).procMap == map[c.tracee := 0];
  }

  lemma OtherGoesOn(c: Config, a: Activity, noted: u32)
    ensures var s := Pair(c.tracee, Other(c), a, Stopped(Outside, SignalStop(19), 0), noted, SYSCALL_UNDEFINED, PairWorld(c), []);
            var first := Waits(Report(Other(c), SignalStop(19), 0, AtEntry(0)), false);
            Enabled(c, s, first) && Perform(c, s, first) ==
            Pair(c.tracee, Other(c), a, Running(Outside, Onward(c)), noted, SYSCALL_UNDEFINED, PairWorld(c), [])
  {
    var s := Pair(c.tracee, Other(c), a, Stopped(Outside, SignalStop(19), 0), noted, SYSCALL_UNDEFINED, PairWorld(c), []);
    AfterOne(c, s, Report(Other(c), SignalStop(19), 0, AtEntry(0)), false, Onward(c), 19);
  }

  lemma LeaderLeaves(c: Config)
    requires !c.useSecComp
    ensures Leads(c, Pair(c.tracee, Other(c), Running(Entered, Trace), Running(Outside, Trace), SYS_clone, SYSCALL_UNDEFINED,
                          PairWorld(c), []),
                  Stops(c.tracee, SyscallStop), Waits(Report(c.tracee, SyscallStop, 0, AtExit(SYS_clone, 1)), false),
                  Pair(c.tracee, Other(c), Running(Outside, Trace), Running(Outside, Trace), SYSCALL_UNDEFINED,
                       SYSCALL_UNDEFINED, PairWorld(c), [(c.tracee, AtExit(SYS_clone, 1))]))
  {
    var s := Pair(c.tracee, Other(c), Running(Entered, Trace), Running(Outside, Trace), SYS_clone, SYSCALL_UNDEFINED, PairWorld(c), []);
    var s1, w := Perform(c, s, Stops(c.tracee, SyscallStop)), Report(c.tracee, SyscallStop, 0, AtExit(SYS_clone, 1));
    ExitIsHandled(c);
    AfterOne(c, s1, w, false, Trace, 0);
  }

  lemma ExitIsHandled(c: Config)
    requires !c.useSecComp
    ensures var t := Pair(c.tracee, Other(c), Dying, Dying, SYS_clone, SYSCALL_UNDEFINED, PairWorld(c), []).tracer;
            Handle(c, t, Report(c.tracee, SyscallStop, 0, AtExit(SYS_clone, 1))) ==
            (Pair(c.tracee, Other(c), Dying, Dying, SYSCALL_UNDEFINED, SYSCALL_UNDEFINED, PairWorld(c),
                  [(c.tracee, AtExit(SYS_clone, 1))]).tracer, [Resume(c.tracee, Trace, 0)])
  {
    var t := Pair(c.tracee, Other(c), Dying, Dying, SYS_clone, SYSCALL_UNDEFINED, PairWorld(c), []).tracer;
    var t' := Pair(c.tracee, Other(c), Dying, Dying, SYSCALL_UNDEFINED, SYSCALL_UNDEFINED, PairWorld(c),
                   [(c.tracee, AtExit(SYS_clone, 1))]).tracer;
    assert t.syscalls[c.tracee := SYSCALL_UNDEFINED] == t'.syscalls && t.exits + t'.exits == t'.exits;
    NopIsToldInVain(t', c.tracee, AtExit(SYS_clone, 1));
  }

  lemma NopIsToldInVain(t: State, pid: Pid, regs: Regs)
    requires Closed(t.world) && pid in t.world.procMap && Decode(regs) == Nop
    ensures Told(t, SyscallExit(pid, regs, ""), map[]) == t
  {}

  lemma OtherEnters(c: Config, exits: seq<(Pid, Regs)>)
    requires !c.useSecComp
    ensures Leads(c, Pair(c.tracee, Other(c), Running(Outside, Trace), Running(Outside, Trace), SYSCALL_UNDEFINED,
                          SYSCALL_UNDEFINED, PairWorld(c), exits),
                  Stops(Other(c), SyscallStop), Waits(Report(Other(c), SyscallStop, 0, AtEntry(SYS_execve)), false),
                  Pair(c.tracee, Other(c), Running(Outside, Trace), Running(Entered, Trace), SYSCALL_UNDEFINED, SYS_execve,
                       PairWorld(c), exits))
  {
    var s := Pair(c.tracee, Other(c), Running(Outside, Trace), Running(Outside, Trace), SYSCALL_UNDEFINED, SYSCALL_UNDEFINED,
                  PairWorld(c), exits);
    AfterOne(c, Perform(c, s, Stops(Other(c), SyscallStop)), Report(Other(c), SyscallStop, 0, AtEntry(SYS_execve)), false, Trace, 0);
  }

  lemma LeaderIsFiltered(c: Config)
    requires c.useSecComp && !c.secCompV2
    ensures Leads(c, Pair(c.tracee, Other(c), Running(Outside, Cont), Running(Outside, Cont), SYSCALL_UNDEFINED,
                          SYSCALL_UNDEFINED, PairWorld(c), []),
                  Stops(c.tracee, EventStop(Seccomp)),
                  Waits(Report(c.tracee, EventStop(Seccomp), 0, AtEntry(SYS_write)), false),
                  Pair(c.tracee, Other(c), Running(Outside, Trace), Running(Outside, Cont), SYSCALL_UNDEFINED,
                       SYSCALL_UNDEFINED, PairWorld(c), []))
  {
    var s := Pair(c.tracee, Other(c), Running(Outside, Cont), Running(Outside, Cont), SYSCALL_UNDEFINED, SYSCALL_UNDEFINED,
                  PairWorld(c), []);
    AfterOne(c, Perform(c, s, Stops(c.tracee, EventStop(Seccomp))), Report(c.tracee, EventStop(Seccomp), 0, AtEntry(SYS_write)),
             false, Trace, 0);
  }

  lemma LeaderEnters(c: Config)
    requires c.useSecComp && !c.secCompV2
    ensures Leads(c, Pair(c.tracee, Other(c), Running(Outside, Trace), Running(Outside, Cont), SYSCALL_UNDEFINED,
                          SYSCALL_UNDEFINED, PairWorld(c), []),
                  Stops(c.tracee, SyscallStop), Waits(Report(c.tracee, SyscallStop, 0, AtEntry(SYS_write)), false),
                  Pair(c.tracee, Other(c), Running(Entered, Trace), Running(Outside, Cont), SYS_write, SYSCALL_UNDEFINED,
                       PairWorld(c), []))
  {
    var s := Pair(c.tracee, Other(c), Running(Outside, Trace), Running(Outside, Cont), SYSCALL_UNDEFINED, SYSCALL_UNDEFINED,
                  PairWorld(c), []);
    AfterOne(c, Perform(c, s, Stops(c.tracee, SyscallStop)), Report(c.tracee, SyscallStop, 0, AtEntry(SYS_write)), false, Trace, 0);
  }

  /** From the start to a second thread that goes on. */
  lemma TwoThreads(c: Config, states: seq<System>, actions: seq<Action>, noted: u32)
      returns (states': seq<System>, actions': seq<Action>)
    requires Behaviour(c, states, actions)
    requires states[|actions|] == Single(c, Running(CallLocation(c), Onward(c)), noted, StartWorld(c))
    ensures Behaviour(c, states', actions') && states'[0] == states[0]
    ensures states'[|actions'|] == Pair(c.tracee, Other(c), Running(CallLocation(c), Onward(c)), Running(Outside, Onward(c)),
                                        noted, SYSCALL_UNDEFINED, PairWorld(c), [])
  {
    SingleSpawns(c, noted);
    OtherGoesOn(c, Running(CallLocation(c), Onward(c)), noted);
    states', actions' :=
      GrowTwice(c, states, actions, Spawns(c.tracee, Other(c), Clone, true),
                Waits(Report(c.tracee, EventStop(Clone), Other(c), AtEntry(SYS_clone)), false),
                Pair(c.tracee, Other(c), Running(CallLocation(c), Onward(c)), Stopped(Outside, SignalStop(19), 0),
                     noted, SYSCALL_UNDEFINED, PairWorld(c), []));
    states', actions' := Grow(c, states', actions', Waits(Report(Other(c), SignalStop(19), 0, AtEntry(0)), false));
  }

  /**
   * The program starts, creates a thread and goes on computing; the thread execs. Nothing is noted of the
   * leader, and the thread is inside of the call.
   */
  lemma IdleLeader(c: Config) returns (states: seq<System>, actions: seq<Action>)
    requires !c.useSecComp
    ensures Behaviour(c, states, actions) && Initial(c, states[0])
    ensures var s := states[|actions|];
            && s.tracer.outcome == Looping && CanExec(c, s, Other(c)) && s.tasks[Other(c)].group == c.tracee
            && !PhaseKept(c, s, Other(c))
  {
    StartIsInitial(c);
    SingleEnters(c);
    LeaderLeaves(c);
    var exits := [(c.tracee, AtExit(SYS_clone, 1))];
    OtherEnters(c, exits);
    states, actions := [Single(c, Running(Outside, Trace), SYSCALL_UNDEFINED, StartWorld(c))], [];
    states, actions :=
      GrowTwice(c, states, actions, Stops(c.tracee, SyscallStop),
                Waits(Report(c.tracee, SyscallStop, 0, AtEntry(SYS_clone)), false),
                Single(c, Running(Entered, Trace), SYS_clone, StartWorld(c)));
    states, actions := TwoThreads(c, states, actions, SYS_clone);
    states, actions :=
      GrowTwice(c, states, actions, Stops(c.tracee, SyscallStop),
                Waits(Report(c.tracee, SyscallStop, 0, AtExit(SYS_clone, 1)), false),
                Pair(c.tracee, Other(c), Running(Outside, Trace), Running(Outside, Trace), SYSCALL_UNDEFINED,
                     SYSCALL_UNDEFINED, PairWorld(c), exits));
    states, actions :=
      GrowTwice(c, states, actions, Stops(Other(c), SyscallStop),
                Waits(Report(Other(c), SyscallStop, 0, AtEntry(SYS_execve)), false),
                Pair(c.tracee, Other(c), Running(Outside, Trace), Running(Entered, Trace), SYSCALL_UNDEFINED, SYS_execve,
                     PairWorld(c), exits));
  }

  /** Here the leader is inside of a write when the thread execs. */
  lemma WritingLeader(c: Config) returns (states: seq<System>, actions: seq<Action>)
    requires c.useSecComp && !c.secCompV2
    ensures Behaviour(c, states, actions) && Initial(c, states[0])
    ensures var s := states[|actions|];
            && s.tracer.outcome == Looping && CanExec(c, s, Other(c)) && s.tasks[Other(c)].group == c.tracee
            && !PhaseKept(c, s, Other(c))
  {
    StartIsInitial(c);
    LeaderIsFiltered(c);
    LeaderEnters(c);
    states, actions := [Single(c, Running(Outside, Cont), SYSCALL_UNDEFINED, StartWorld(c))], [];
    states, actions := TwoThreads(c, states, actions, SYSCALL_UNDEFINED);
    states, actions :=
      GrowTwice(c, states, actions, Stops(c.tracee, EventStop(Seccomp)),
                Waits(Report(c.tracee, EventStop(Seccomp), 0, AtEntry(SYS_write)), false),
                Pair(c.tracee, Other(c), Running(Outside, Trace), Running(Outside, Cont), SYSCALL_UNDEFINED,
                     SYSCALL_UNDEFINED, PairWorld(c), []));
    states, actions :=
      GrowTwice(c, states, actions, Stops(c.tracee, SyscallStop),
                Waits(Report(c.tracee, SyscallStop, 0, AtEntry(SYS_write)), false),
                Pair(c.tracee, Other(c), Running(Entered, Trace), Running(Outside, Cont), SYS_write, SYSCALL_UNDEFINED,
                     PairWorld(c), []));
  }

  // ---------- the stops are always possible ----------

  /** After any exec, its report is possible, and the loop goes on. */
  lemma ExecIsReported(c: Config, s: System, pid: Pid)
    requires Good(c, s) && s.tracer.outcome == Looping && CanExec(c, s, pid)
    ensures var w := Report(s.tasks[pid].group, EventStop(PtraceEvent.Exec), pid, AtEntry(SYS_execve));
            Enabled(c, Replaced(c, s, pid), Waits(w, false)) &&
            AfterWait(c, Replaced(c, s, pid), w, false).tracer.outcome == Looping
  {
    var w := Report(s.tasks[pid].group, EventStop(PtraceEvent.Exec), pid, AtEntry(SYS_execve));
    assert w.pid in s.tracer.syscalls && w.pid in s.tracer.world.leaders && pid in s.tracer.syscalls by {
      assert TaskOk(c, s, pid);
    }
    Permits(s.tracer, Event.Exec(w.pid, w.comm, w.cmdline), w.fs);
  }

  /** A run goes on with the exec and its report. */
  lemma AddExec(c: Config, s: System, pid: Pid) returns (w: Wait, states: seq<System>)
    requires Good(c, s) && s.tracer.outcome == Looping && CanExec(c, s, pid)
    ensures w == Report(s.tasks[pid].group, EventStop(PtraceEvent.Exec), pid, AtEntry(SYS_execve))
    ensures Behaviour(c, states, [Waits(w, false)]) && states[0] == Replaced(c, s, pid)
    ensures w.pid in s.tracer.syscalls && states[1].tracer.outcome == Looping
    ensures IsAt(states[1], w.pid, Running(CallLocation(c), Onward(c)), s.tracer.syscalls[w.pid])
  {
    w := Report(s.tasks[pid].group, EventStop(PtraceEvent.Exec), pid, AtEntry(SYS_execve));
    ExecIsReported(c, s, pid);
    ExecIsStage(c, s, pid, []);
    ExecTurn(c, Replaced(c, s, pid), w, pid, s.tracer.syscalls[w.pid]);
    var actions;
    states, actions := Grow(c, [Replaced(c, s, pid)], [], Waits(w, false));
  }

  /** It goes on with the next system-call stop of the thread, and the report of that. */
  lemma AddStop(c: Config, states: seq<System>, actions: seq<Action>, pid: Pid, loc: Location, noted: u32, regs: Regs)
      returns (states': seq<System>)
    requires Behaviour(c, states, actions) && states[|actions|].tracer.outcome == Looping
    requires IsAt(states[|actions|], pid, Running(loc, Trace), noted)
    requires loc == Outside ==> LooksLikeEntry(regs)
    ensures Behaviour(c, states', actions + [Stops(pid, SyscallStop)] + [Waits(Report(pid, SyscallStop, 0, regs), false)])
    ensures states'[0] == states[0]
  {
    var actions';
    states', actions' := Grow(c, states, actions, Stops(pid, SyscallStop));
    states', actions' := Grow(c, states', actions', Waits(Report(pid, SyscallStop, 0, regs), false));
  }

  /** Or with the next stop of the filter. */
  lemma AddFilterStop(c: Config, states: seq<System>, actions: seq<Action>, pid: Pid, noted: u32)
      returns (states': seq<System>, actions': seq<Action>)
    requires Behaviour(c, states, actions) && states[|actions|].tracer.outcome == Looping
    requires IsAt(states[|actions|], pid, Running(Outside, Cont), noted) && c.useSecComp && !c.secCompV2
    ensures Behaviour(c, states', actions') && states'[0] == states[0]
    ensures actions' == actions + [Stops(pid, EventStop(Seccomp))] +
                        [Waits(Report(pid, EventStop(Seccomp), 0, AtEntry(SYS_write)), false)]
    ensures states'[|actions'|].tracer.outcome == Looping
    ensures IsAt(states'[|actions'|], pid, Running(Outside, Trace), noted)
  {
    states', actions' := Grow(c, states, actions, Stops(pid, EventStop(Seccomp)));
    FilterTurn(c, states'[|actions'|], Report(pid, EventStop(Seccomp), 0, AtEntry(SYS_write)), noted);
    states', actions' := Grow(c, states', actions', Waits(Report(pid, EventStop(Seccomp), 0, AtEntry(SYS_write)), false));
  }

  lemma {:induction false} OwnIsAll(actions: seq<Action>, pid: Pid)
    requires forall i :: 0 <= i < |actions| ==> Concerns(actions[i], pid)
    ensures Own(actions, pid) == actions
  {
    if actions != [] { OwnIsAll(actions[..|actions| - 1], pid); }
  }

  /** After any exec, the kernel can go on as MisreadExecEndsTracing has it. */
  lemma ExecGoesOn(c: Config, s: System, pid: Pid) returns (states: seq<System>, actions: seq<Action>, regs: Regs)
    requires Good(c, s) && s.tracer.outcome == Looping && CanExec(c, s, pid) && !c.useSecComp
    ensures Behaviour(c, states, actions) && states[0] == Replaced(c, s, pid) && |actions| == 3
    ensures NextStops(c, Own(actions, s.tasks[pid].group), s.tasks[pid].group)
    ensures Concerns(actions[2], s.tasks[pid].group) && actions[2].Waits? && actions[2].w.regs == Some(regs) && regs.ret == 0
  {
    var w;
    w, states := AddExec(c, s, pid);
    regs := AtExit(SYS_execve, 0);
    var exit := Report(w.pid, SyscallStop, 0, regs);
    states := AddStop(c, states, [Waits(w, false)], w.pid, Entered, s.tracer.syscalls[w.pid], regs);
    actions := [Waits(w, false), Stops(w.pid, SyscallStop), Waits(exit, false)];
    assert [Waits(w, false)] + [Stops(w.pid, SyscallStop)] + [Waits(exit, false)] == actions;
    OwnIsAll(actions, w.pid);
  }

  /** And as MisreadExecReportsEntry has it. */
  lemma ExecGoesOnFiltered(c: Config, s: System, pid: Pid) returns (states: seq<System>, actions: seq<Action>, regs: Regs)
    requires Good(c, s) && s.tracer.outcome == Looping && CanExec(c, s, pid) && c.useSecComp && !c.secCompV2
    ensures Behaviour(c, states, actions) && states[0] == Replaced(c, s, pid) && |actions| == 5
    ensures NextStops(c, Own(actions, s.tasks[pid].group), s.tasks[pid].group)
    ensures Concerns(actions[4], s.tasks[pid].group) && actions[4].Waits? && actions[4].w.regs == Some(regs)
  {
    var w;
    w, states := AddExec(c, s, pid);
    regs := AtEntry(SYS_write);
    var call, entry := Report(w.pid, EventStop(Seccomp), 0, AtEntry(SYS_write)), Report(w.pid, SyscallStop, 0, regs);
    states, actions := AddFilterStop(c, states, [Waits(w, false)], w.pid, s.tracer.syscalls[w.pid]);
    states := AddStop(c, states, actions, w.pid, Outside, s.tracer.syscalls[w.pid], regs);
    assert actions + [Stops(w.pid, SyscallStop)] + [Waits(entry, false)] ==
           [Waits(w, false), Stops(w.pid, EventStop(Seccomp)), Waits(call, false), Stops(w.pid, SyscallStop), Waits(entry, false)];
    actions := [Waits(w, false), Stops(w.pid, EventStop(Seccomp)), Waits(call, false), Stops(w.pid, SyscallStop), Waits(entry, false)];
    OwnIsAll(actions, w.pid);
  }

  /** A run of the model, then an exec that it leaves out, and a tracer that gives up although nothing is wrong. */
  lemma TracingIsGivenUp(c: Config) returns (states: seq<System>, actions: seq<Action>, after: seq<System>, rest: seq<Action>)
    requires !c.useSecComp
    ensures Behaviour(c, states, actions) && Initial(c, states[0]) && CanExec(c, states[|actions|], Other(c))
    ensures Behaviour(c, after, rest) && after[0] == Replaced(c, states[|actions|], Other(c))
    ensures after[|rest|].tracer.outcome == Returned(-2)
  {
    states, actions := IdleLeader(c);
    GoodInEveryRun(c, states, actions, |actions|);
    var regs;
    after, rest, regs := ExecGoesOn(c, states[|actions|], Other(c));
    MisreadExecEndsTracing(c, states[|actions|], Other(c), after, rest, 2, regs);
  }

  /** The same before Linux 4.8: a call that is still to come is told to the context as finished. */
  lemma EntryIsReported(c: Config) returns (states: seq<System>, actions: seq<Action>, after: seq<System>, rest: seq<Action>,
                                            regs: Regs)
    requires c.useSecComp && !c.secCompV2
    ensures Behaviour(c, states, actions) && Initial(c, states[0]) && CanExec(c, states[|actions|], Other(c))
    ensures Behaviour(c, after, rest) && after[0] == Replaced(c, states[|actions|], Other(c)) && |rest| == 5
    ensures after[5].tracer.exits == after[4].tracer.exits + [(c.tracee, regs)] && after[5].completed == after[4].completed
  {
    states, actions := WritingLeader(c);
    GoodInEveryRun(c, states, actions, |actions|);
    after, rest, regs := ExecGoesOnFiltered(c, states[|actions|], Other(c));
    MisreadExecReportsEntry(c, states[|actions|], Other(c), after, rest, 4, regs);
  }
}
