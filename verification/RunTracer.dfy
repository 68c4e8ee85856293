/** The event loop as the program runs it (src/optrace.cpp:101-302), on the objects of module Context. */
module RunTracer {
  import opened Words
  import opened Syscalls
  import opened World
  import Model = World
  import opened Tracer
  import opened Context

  /** What a sequence of reports leads to; after the last one, `wait3` finds no child. */
  function Replay(c: Config, t: State, waits: seq<Wait>): State
    decreases waits
  {
    if t.outcome != Looping then t
    else if waits == [] then NoChildLeft(t)
    else Replay(c, Handle(c, t, waits[0]).0, waits[1..])
  }

  /** The variables of `RunTracer`. */
  class TTracer {
    const Options: Config
    const Context: TContext
    var SyscallStateMap: map<Pid, u32>
    var SuspendedThreads: map<Pid, Status>
    var TraceeExitCode: int
    /** What ptrace was asked for, in order. */
    var Requests: seq<Resume>
    /** The calls of `SyscallExit`. */
    ghost var Exits: seq<(Pid, Regs)>

    ghost predicate Valid()
      reads this, Context, Context.Repr
    {
      Context.Valid() && this !in Context.Repr
    }

    ghost function Value(outcome: Outcome): State
      reads this, Context
    {
      State(SyscallStateMap, SuspendedThreads, Context.W, TraceeExitCode, outcome, Exits)
    }

    constructor (options: Config, context: TContext)
      requires context.Valid()
      ensures Valid() && Context == context && Options == options && Requests == []
      ensures Value(Looping) == Start(options, context.W)
    {
      Options, Context := options, context;
      SyscallStateMap := map[options.tracee := SYSCALL_UNDEFINED];
      SuspendedThreads, TraceeExitCode, Requests, Exits := map[], EXIT_CODE_UNKNOWN, [], [];
    }

    method PtraceRestartSyscall(pid: Pid, signal: nat)
      modifies `Requests
      ensures Requests == old(Requests) + [Resume(pid, Trace, signal)]
    {
      Requests := Requests + [Resume(pid, Trace, signal)];
    }

    method PtraceContinueSyscall(pid: Pid, signal: nat)
      modifies `Requests
      ensures Requests == old(Requests) + [Resume(pid, Cont, signal)]
    {
      Requests := Requests + [Resume(pid, Cont, signal)];
    }

    /** The closure `vanishThread`. */
    method VanishThread(pid: Pid, notify: bool)
      requires Valid() && pid in SyscallStateMap
      requires notify ==> pid in Context.ProcMap
      modifies `SyscallStateMap, `Requests, Context.Repr
      ensures Valid() && Context.Repr == old(Context.Repr)
      ensures SyscallStateMap == old(SyscallStateMap) - {pid}
      ensures Context.W == if notify then Model.VanishProcess(old(Context.W), pid) else old(Context.W)
      ensures Requests == old(Requests) + [Resume(pid, Trace, 0)]
    {
      SyscallStateMap := SyscallStateMap - {pid};
      if notify {
        Context.VanishProcess(pid);
      }
      PtraceRestartSyscall(pid, 0);
    }

    /** A thread exited or was killed; the result is the exit code if the loop is to be left. */
    method Ends(w: Wait) returns (rc: Option<int>)
      requires Valid() && w.status.Ended?
      requires Handle(Options, Value(Looping), w).0.outcome != AssertionFailed
      modifies this, Context.Repr
      ensures Valid() && Context.Repr == old(Context.Repr)
      ensures (Value(if rc.None? then Looping else Returned(rc.value)), Requests) ==
              (Handle(Options, old(Value(Looping)), w).0, old(Requests) + Handle(Options, old(Value(Looping)), w).1)
    {
      VanishThread(w.pid, true);
      if w.pid == Options.tracee {
        // The tracee decides when to stop, and with which code.
        if Options.followForks && Options.waitDaemons {
          if TraceeExitCode == EXIT_CODE_UNKNOWN {
            TraceeExitCode := w.status.code;
          }
        } else {
          return Some(w.status.code);
        }
      }
      return None;
    }

    /** A thread or a process was created: the context is told. */
    method Register(w: Wait, child: Pid, isThread: bool)
      requires Valid() && w.pid in Context.ProcMap && (isThread || child !in Context.ProcMap)
      modifies Context.Repr
      ensures Valid() && fresh(Context.Repr - old(Context.Repr))
      ensures var e := if isThread then Event.Thread(w.pid, child) else Process(w.pid, child, w.comm, w.cmdline);
              Closed(old(Context.W)) && AssertionsHold(old(Context.W), e) && Context.W == Step(old(Context.W), e, w.fs)
    {
      if isThread {
        Context.RegisterThread(w.pid, child);
      } else {
        Context.RegisterProcess(w.pid, child, w.comm, w.cmdline, w.fs);
      }
    }

    method Spawned(w: Wait, child: Pid, isThread: bool)
      requires Valid() && w.pid in SyscallStateMap
      requires OnSpawn(Options, Value(Looping), w, child, isThread).0.outcome != AssertionFailed
      modifies this, Context.Repr
      ensures Valid() && fresh(Context.Repr - old(Context.Repr))
      ensures Value(Looping) == OnSpawn(Options, old(Value(Looping)), w, child, isThread).0
      ensures Requests + [Resume(w.pid, Onward(Options), SIGTRAP)] ==
              old(Requests) + OnSpawn(Options, old(Value(Looping)), w, child, isThread).1
    {
      Register(w, child, isThread);
      Release(child);
    }

    /** A thread that is registered now goes on if it was suspended. */
    method Release(child: Pid)
      modifies `SyscallStateMap, `SuspendedThreads, `Requests
      ensures SyscallStateMap == old(SyscallStateMap)[child := SYSCALL_UNDEFINED]
      ensures if child in old(SuspendedThreads)
              then SuspendedThreads == old(SuspendedThreads) - {child} && Requests == old(Requests) + [Resume(child, Onward(Options), 0)]
              else SuspendedThreads == old(SuspendedThreads) && Requests == old(Requests)
    {
      SyscallStateMap := SyscallStateMap[child := SYSCALL_UNDEFINED];
      if child in SuspendedThreads {
        SuspendedThreads := SuspendedThreads - {child};
        Proceed(child, 0);
        SyscallStateMap := SyscallStateMap[child := SYSCALL_UNDEFINED];
      }
    }

    /** A program was executed. */
    method Execed(w: Wait, former: Pid)
      requires Valid() && w.pid in SyscallStateMap
      requires OnExec(Options, Value(Looping), w, former).0.outcome != AssertionFailed
      modifies this, Context.Repr
      ensures Valid() && fresh(Context.Repr - old(Context.Repr))
      ensures Value(Looping) == OnExec(Options, old(Value(Looping)), w, former).0
      ensures Requests + [Resume(w.pid, Onward(Options), SIGTRAP)] ==
              old(Requests) + OnExec(Options, old(Value(Looping)), w, former).1
    {
      Context.RegisterExec(w.pid, w.comm, w.cmdline, w.fs);
      if former != w.pid {
        // The pid under which the thread was known is of no more use.
        VanishThread(former, false);
      }
    }

    method Exited(w: Wait, registers: Regs)
      requires Valid() && w.pid in Context.ProcMap
      modifies `Exits, Context.Repr
      ensures Valid() && fresh(Context.Repr - old(Context.Repr))
      ensures var left := old(Value(Looping));
              Closed(left.world) && AssertionsHold(left.world, SyscallExit(w.pid, registers, w.link)) &&
              Value(Looping) == left.(exits := left.exits + [(w.pid, registers)],
                                      world := Step(left.world, SyscallExit(w.pid, registers, w.link), w.fs))
    {
      Exits := Exits + [(w.pid, registers)];
      Context.SyscallExit(w.pid, registers, w.link, w.fs);
    }

    /** A system-call stop; the result is -2 if it is misread. */
    method SyscallStopped(w: Wait) returns (rc: Option<int>)
      requires Valid() && w.pid in SyscallStateMap && !w.status.Ended?
      requires OnSyscall(Options, Value(Looping), w).0.outcome != AssertionFailed
      modifies this, Context.Repr
      ensures Valid() && fresh(Context.Repr - old(Context.Repr))
      ensures Value(if rc.None? then Looping else Returned(rc.value)) == OnSyscall(Options, old(Value(Looping)), w).0
      ensures Requests == old(Requests) + OnSyscall(Options, old(Value(Looping)), w).1
    {
      if w.regs.None? {
        // Without registers, nothing can be said of the stop.
        PtraceRestartSyscall(w.pid, 0);
        return None;
      }
      var registers := w.regs.value;
      if SyscallStateMap[w.pid] == SYSCALL_UNDEFINED {
        SyscallStateMap := SyscallStateMap[w.pid := GetSyscallNumber(registers)];
        if SyscallStateMap[w.pid] == NOT_AN_ENTRY {
          return Some(-2);
        }
      } else {
        SyscallStateMap := SyscallStateMap[w.pid := SYSCALL_UNDEFINED];
        Exited(w, registers);
      }
      if Options.useSecComp && SyscallStateMap[w.pid] == SYSCALL_UNDEFINED {
        PtraceContinueSyscall(w.pid, Signal(w.status));
      } else {
        PtraceRestartSyscall(w.pid, Signal(w.status));
      }
      return None;
    }

    /** One turn of the loop, for a report of a thread. */
    method HandleWait(w: Wait) returns (rc: Option<int>)
      requires Valid()
      requires Handle(Options, Value(Looping), w).0.outcome != AssertionFailed
      modifies this, Context.Repr
      ensures Valid() && fresh(Context.Repr - old(Context.Repr))
      ensures Value(if rc.None? then Looping else Returned(rc.value)) == Handle(Options, old(Value(Looping)), w).0
      ensures Requests == old(Requests) + Handle(Options, old(Value(Looping)), w).1
    {
      if w.status.Ended? {
        rc := Ends(w);
        return;
      }
      if w.pid !in SyscallStateMap {
        // It is let go by `Release`.
        SuspendedThreads := SuspendedThreads[w.pid := w.status];
        return None;
      }
      if w.status.EventStop? {
        rc := EventStopped(w);
        return;
      }
      if w.status.SyscallStop? {
        rc := SyscallStopped(w);
        return;
      }
      Proceed(w.pid, w.status.signal);
      return None;
    }

    /** Lets a thread go on that is not inside a traced system call. */
    method Proceed(pid: Pid, signal: nat)
      modifies `Requests
      ensures Requests == old(Requests) + [Resume(pid, Onward(Options), signal)]
    {
      if Options.useSecComp {
        PtraceContinueSyscall(pid, signal);
      } else {
        PtraceRestartSyscall(pid, signal);
      }
    }

    method EventStopped(w: Wait) returns (rc: Option<int>)
      requires Valid() && w.status.EventStop? && w.pid in SyscallStateMap
      requires Handle(Options, Value(Looping), w).0.outcome != AssertionFailed
      modifies this, Context.Repr
      ensures Valid() && fresh(Context.Repr - old(Context.Repr))
      ensures Value(if rc.None? then Looping else Returned(rc.value)) == Handle(Options, old(Value(Looping)), w).0
      ensures Requests == old(Requests) + Handle(Options, old(Value(Looping)), w).1
    {
      if w.msg.None? {
        PtraceRestartSyscall(w.pid, 0);
        return None;
      }
      match w.status.event {
      case Clone =>
        if w.cloneFlags.None? {
          PtraceRestartSyscall(w.pid, 0);
          return None;
        }
        Spawned(w, w.msg.value, HasFlag(w.cloneFlags.value, CLONE_THREAD));
      case Fork => Spawned(w, w.msg.value, false);
      case Vfork => Spawned(w, w.msg.value, false);
      case Exec => Execed(w, w.msg.value);
      case Seccomp =>
        if !Options.secCompV2 {
          PtraceRestartSyscall(w.pid, 0);
          return None;
        }
        SyscallStateMap := SyscallStateMap[w.pid := SYSCALL_UNDEFINED];
        rc := SyscallStopped(w);
        return;
      case ExitEvent =>
      }
      Proceed(w.pid, SIGTRAP);
      return None;
    }

    /** The loop. `waits` is what `wait3` reports until there is no child left or the loop is left. */
    method Run(waits: seq<Wait>) returns (rc: int)
      requires Valid()
      requires Replay(Options, Value(Looping), waits).outcome.Returned?
      modifies this, Context.Repr
      ensures Valid() && fresh(Context.Repr - old(Context.Repr))
      ensures Value(Returned(rc)) == Replay(Options, old(Value(Looping)), waits)
    {
      ghost var final := Replay(Options, Value(Looping), waits);
      var i := 0;
      while i < |waits|
        invariant 0 <= i <= |waits|
        invariant Valid() && fresh(Context.Repr - old(Context.Repr))
        invariant Replay(Options, Value(Looping), waits[i..]) == final
      {
        assert waits[i..][1..] == waits[i + 1..];
        var code := HandleWait(waits[i]);
        if code.Some? {
          return code.value;
        }
        i := i + 1;
      }
      if TraceeExitCode == EXIT_CODE_UNKNOWN {
        return 128 + SIGKILL;
      }
      return TraceeExitCode;
    }
  }
}
