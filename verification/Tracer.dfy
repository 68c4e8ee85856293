/** One turn of the event loop `RunTracer` (src/optrace.cpp:101-302), as a function. */
module Tracer {
  import opened Words
  import opened Syscalls
  import opened World

  /** How a thread is made to go on: to its next system-call stop, or to its next event. */
  datatype Mode = Cont | Trace   // PTRACE_CONT, PTRACE_SYSCALL

  datatype PtraceEvent = Fork | Vfork | Clone | Exec | Seccomp | ExitEvent

  /** What `wait3` reports of a thread. */
  datatype Status =
    | Ended(code: nat)                // exited, or killed: then 128 and the signal
    | SyscallStop                     // SIGTRAP | 0x80
    | SignalStop(signal: nat)
    | EventStop(event: PtraceEvent)

  const SIGTRAP := 5
  const SIGKILL := 9
  const ENOSYS := 38
  const CLONE_THREAD := 0x1_0000
  const EXIT_CODE_UNKNOWN := -1

  /** The low 32 bits of -1 and of -2; the number of a system call is kept in an `int`. */
  const SYSCALL_UNDEFINED: u32 := 0xffff_ffff
  const NOT_AN_ENTRY: u32 := 0xffff_fffe

  /**
   * What one call of `wait3` yields, with the answers to the ptrace requests that may follow. An answer is
   * missing if the thread has been killed in the meantime.
   */
  datatype Wait = Wait(pid: Pid, status: Status, msg: Option<Pid>, cloneFlags: Option<u64>, regs: Option<Regs>,
                       link: string, comm: string, cmdline: string, fs: FileSystem)

  datatype Config = Config(tracee: Pid, followForks: bool, waitDaemons: bool, useSecComp: bool, secCompV2: bool)

  datatype Outcome = Looping | Returned(code: int) | AssertionFailed

  /** The variables of the loop. `exits` lists the calls of `SyscallExit` made so far; the code does not keep it. */
  datatype State = State(syscalls: map<Pid, u32>, suspended: map<Pid, Status>, world: World, exitCode: int,
                         outcome: Outcome, exits: seq<(Pid, Regs)>)

  /** A request to let a thread go on, with a signal to deliver. */
  datatype Resume = Resume(pid: Pid, mode: Mode, signal: nat)

  function Start(c: Config, world: World): State {
    State(map[c.tracee := SYSCALL_UNDEFINED], map[], world, EXIT_CODE_UNKNOWN, Looping, [])
  }

  /** The number of the system call, or -2 if the registers do not look like those at an entry; as an `int`. */
  function GetSyscallNumber(r: Regs): u32 {
    if r.ret % 0x1_0000_0000 != 0x1_0000_0000 - ENOSYS then NOT_AN_ENTRY else r.nr % 0x1_0000_0000
  }

  function Signal(status: Status): nat {
    match status
    case SignalStop(signal) => signal
    case EventStop(_) => SIGTRAP
    case _ => 0
  }

  /** How a thread goes on that is not inside a traced system call. */
  function Onward(c: Config): Mode {
    if c.useSecComp then Cont else Trace
  }

  /** An event for the context; the assertions that the code makes are made here. */
  function Told(t: State, e: Event, fs: FileSystem): State {
    if Closed(t.world) && AssertionsHold(t.world, e) then t.(world := Step(t.world, e, fs))
    else t.(outcome := AssertionFailed)
  }

  /** A thread that exited or was killed. */
  function OnEnd(c: Config, t: State, w: Wait): (State, seq<Resume>)
    requires w.status.Ended?
  {
    if w.pid !in t.syscalls then (t.(outcome := AssertionFailed), [])
    else
      var told := Told(t.(syscalls := t.syscalls - {w.pid}), Vanish(w.pid), w.fs);
      var resumes := [Resume(w.pid, Trace, 0)];
      if told.outcome.AssertionFailed? || w.pid != c.tracee then (told, resumes)
      else if c.followForks && c.waitDaemons then
        (told.(exitCode := if t.exitCode == EXIT_CODE_UNKNOWN then w.status.code else t.exitCode), resumes)
      else (told.(outcome := Returned(w.status.code)), resumes)
  }

  /** A new thread or process. */
  function OnSpawn(c: Config, t: State, w: Wait, child: Pid, isThread: bool): (State, seq<Resume>) {
    var e := if isThread then Event.Thread(w.pid, child) else Process(w.pid, child, w.comm, w.cmdline);
    var told := Told(t, e, w.fs);
    var known := told.(syscalls := told.syscalls[child := SYSCALL_UNDEFINED]);
    if child in t.suspended then
      (known.(suspended := t.suspended - {child}), [Resume(child, Onward(c), 0), Resume(w.pid, Onward(c), SIGTRAP)])
    else
      (known, [Resume(w.pid, Onward(c), SIGTRAP)])
  }

  /** An exec, of thread `former` if that is not the leader, whose pid it has now. */
  function OnExec(c: Config, t: State, w: Wait, former: Pid): (State, seq<Resume>) {
    var told := Told(t, Event.Exec(w.pid, w.comm, w.cmdline), w.fs);
    if former == w.pid then (told, [Resume(w.pid, Onward(c), SIGTRAP)])
    else if former !in t.syscalls then (told.(outcome := AssertionFailed), [])
    else
      (told.(syscalls := told.syscalls - {former}), [Resume(former, Trace, 0), Resume(w.pid, Onward(c), SIGTRAP)])
  }

  /** A system-call stop: an entry if no system call was pending, else an exit. */
  function OnSyscall(c: Config, t: State, w: Wait): (State, seq<Resume>)
    requires w.pid in t.syscalls
  {
    if w.regs.None? then (t, [Resume(w.pid, Trace, 0)])
    else if t.syscalls[w.pid] == SYSCALL_UNDEFINED then
      var nr := GetSyscallNumber(w.regs.value);
      var entered := t.(syscalls := t.syscalls[w.pid := nr]);
      if nr == NOT_AN_ENTRY then (entered.(outcome := Returned(-2)), [])
      else
        (entered, [Resume(w.pid, if nr != SYSCALL_UNDEFINED then Trace else Onward(c), Signal(w.status))])
    else
      var left := t.(syscalls := t.syscalls[w.pid := SYSCALL_UNDEFINED], exits := t.exits + [(w.pid, w.regs.value)]);
      (Told(left, SyscallExit(w.pid, w.regs.value, w.link), w.fs), [Resume(w.pid, Onward(c), Signal(w.status))])
  }

  function OnEvent(c: Config, t: State, w: Wait, event: PtraceEvent, msg: Pid): (State, seq<Resume>)
    requires w.pid in t.syscalls
  {
    match event
    case Clone =>
      if w.cloneFlags.None? then (t, [Resume(w.pid, Trace, 0)])
      else OnSpawn(c, t, w, msg, HasFlag(w.cloneFlags.value, CLONE_THREAD))
    case Fork => OnSpawn(c, t, w, msg, false)
    case Vfork => OnSpawn(c, t, w, msg, false)
    case Exec => OnExec(c, t, w, msg)
    case Seccomp =>
      // Up to Linux 4.7 the stop comes before the entry of the system call, and from 4.8 it takes its place.
      if !c.secCompV2 then (t, [Resume(w.pid, Trace, 0)])
      else OnSyscall(c, t.(syscalls := t.syscalls[w.pid := SYSCALL_UNDEFINED]), w)
    case ExitEvent => (t, [Resume(w.pid, Onward(c), SIGTRAP)])
  }

  /** What is done about what `wait3` reports. */
  function Handle(c: Config, t: State, w: Wait): (State, seq<Resume>) {
    if w.status.Ended? then OnEnd(c, t, w)
    else if w.pid !in t.syscalls then (t.(suspended := t.suspended[w.pid := w.status]), [])
    else
      match w.status
      case SyscallStop => OnSyscall(c, t, w)
      case SignalStop(signal) => (t, [Resume(w.pid, Onward(c), signal)])
      case EventStop(event) =>
        if w.msg.None? then (t, [Resume(w.pid, Trace, 0)]) else OnEvent(c, t, w, event, w.msg.value)
  }

  /** `wait3` finds no child any more. */
  function NoChildLeft(t: State): State {
    t.(outcome := Returned(if t.exitCode == EXIT_CODE_UNKNOWN then 128 + SIGKILL else t.exitCode))
  }

  /** While the loop goes on, each thread that has stopped is suspended or told to go on, after any other. */
  lemma EachStopIsAnswered(c: Config, t: State, w: Wait)
    requires t.outcome == Looping && !w.status.Ended?
    ensures var (t', resumes) := Handle(c, t, w);
            t'.outcome == Looping ==>
              if w.pid in t.syscalls then resumes != [] && resumes[|resumes| - 1].pid == w.pid
              else w.pid in t'.suspended && resumes == []
  {}

  /** Which signal a thread is given that goes on: its own, or none after a system call; SIGTRAP after an event. */
  lemma SignalsPassedOn(c: Config, t: State, w: Wait)
    requires t.outcome == Looping && w.pid in t.syscalls && !w.status.Ended?
    requires w.msg.Some? && w.cloneFlags.Some? && w.regs.Some?
    ensures var (t', resumes) := Handle(c, t, w);
            t'.outcome == Looping ==>
              && resumes != [] && resumes[|resumes| - 1].pid == w.pid
              && resumes[|resumes| - 1].signal ==
                 (match w.status
                  case SignalStop(signal) => signal
                  case SyscallStop => 0
                  case EventStop(event) => if event.Seccomp? && !c.secCompV2 then 0 else 5)
  {}

  /**
   * The loop gives up with -2 when a thread calls the system call whose number is -2 in 32 bits, although that
   * is no misread stop. With the number -1, it takes the exit for another entry.
   */
  lemma OddSyscallNumbers(c: Config, t: State, w: Wait)
    requires w.status == SyscallStop && w.pid in t.syscalls && t.syscalls[w.pid] == SYSCALL_UNDEFINED
    requires w.regs.Some? && w.regs.value.ret % 0x1_0000_0000 == 0x1_0000_0000 - ENOSYS
    ensures var (t', resumes) := Handle(c, t, w);
            && (t'.outcome == Returned(-2) <==> w.regs.value.nr % 0x1_0000_0000 == 0xffff_fffe || t.outcome == Returned(-2))
            && (t'.syscalls[w.pid] == SYSCALL_UNDEFINED <==> w.regs.value.nr % 0x1_0000_0000 == 0xffff_ffff)
  {}
}
