/**
 * The tracer together with the kernel: threads that run, stop and die on their own, and an event loop that
 * learns of it piece by piece. The kernel is modelled as the ptrace(2) manual page describes it.
 */
module System {
  import opened Words
  import FileState
  import opened Syscalls
  import opened World
  import opened Invariants
  import opened Tracer

  /** Whether the tracer has been shown the entry of a system call that the thread is still in. */
  datatype Location = Outside | Entered

  datatype Activity =
    | Running(loc: Location, mode: Mode)
    | Stopped(loc: Location, status: Status, msg: Pid)   // to be reported by wait3
    | Held(loc: Location, status: Status)                // reported, and not resumed
    | Dying                                              // killed, but not reported to have ended

  datatype Task = Task(group: Pid, activity: Activity)

  /** `completed` are the exits of system calls that the tracer was shown. */
  datatype System = System(tasks: map<Pid, Task>, tracer: State, completed: seq<(Pid, Regs)>)

  datatype Action =
    | Stops(pid: Pid, status: Status)
    | Spawns(pid: Pid, child: Pid, event: PtraceEvent, isThread: bool)
    | Leaves(pid: Pid)               // a system call whose exit is not traced
    | Execs(pid: Pid)
    | Dies(pid: Pid)
    | Waits(w: Wait, killed: bool)   // one turn of the loop, during which the thread may be killed
    | FindsNoChild

  predicate IsSpawn(status: Status) {
    status.EventStop? && (status.event.Fork? || status.event.Vfork? || status.event.Clone?)
  }

  predicate IsExec(status: Status) {
    status.EventStop? && status.event.Exec?
  }

  predicate IsLast(status: Status) {
    status.Ended? || (status.EventStop? && status.event.ExitEvent?)
  }

  /** Where threads are that create others or exec: the filter does not trace these calls (Bpf.ForksAndExecsAreNotTraced). */
  function CallLocation(c: Config): Location {
    if c.useSecComp then Outside else Entered
  }

  predicate InPlaceOfEntry(c: Config) {
    c.useSecComp && c.secCompV2
  }

  // ---------- what the kernel does ----------

  predicate CanStop(c: Config, a: Activity, status: Status) {
    match a
    case Running(loc, mode) =>
      (match status
       case SyscallStop => mode == Trace
       case SignalStop(_) => loc == Outside
       case Ended(_) => true
       case EventStop(event) =>
         event.ExitEvent? || (event.Seccomp? && c.useSecComp && loc == Outside && (c.secCompV2 || mode == Cont)))
    case Dying => IsLast(status)
    case _ => false
  }

  predicate Alone(s: System, leader: Pid, except: Pid) {
    forall q :: q in s.tasks && s.tasks[q].group == leader ==> q == leader || q == except
  }

  /**
   * The exec of a thread that is not the leader keeps the phases right if what the tracer believes of the
   * leader, whose pid it takes, is true of the thread.
   */
  predicate PhaseKept(c: Config, s: System, pid: Pid)
    requires pid in s.tasks
  {
    InPlaceOfEntry(c) ||
    (s.tasks[pid].group in s.tracer.syscalls ==>
       (s.tracer.syscalls[s.tasks[pid].group] != SYSCALL_UNDEFINED <==> CallLocation(c) == Entered))
  }

  /** At an entry, the result is preset to -38. Numbers -1 and -2 are excluded (Tracer.OddSyscallNumbers). */
  predicate LooksLikeEntry(r: Regs) {
    && r.ret % 0x1_0000_0000 == 0x1_0000_0000 - 38
    && r.nr % 0x1_0000_0000 != 0xffff_ffff && r.nr % 0x1_0000_0000 != 0xffff_fffe
  }

  /** CLONE_THREAD is the bit of 2^16. */
  predicate IsThreadFlag(flags: u64) {
    flags / 0x1_0000 % 2 == 1
  }

  predicate IsEntry(c: Config, loc: Location, status: Status) {
    (status == SyscallStop && loc == Outside) || (InPlaceOfEntry(c) && status == EventStop(Seccomp))
  }

  predicate IsExit(loc: Location, status: Status) {
    status == SyscallStop && loc == Entered
  }

  /** The answers to ptrace requests. They fail only for threads that have been killed. */
  ghost predicate Answers(c: Config, s: System, w: Wait, killed: bool)
    requires w.pid in s.tasks && s.tasks[w.pid].activity.Stopped?
  {
    var a := s.tasks[w.pid].activity;
    && (!killed ==> w.msg.Some? && w.regs.Some? && w.cloneFlags.Some?)
    && (w.msg.Some? ==> w.msg.value == a.msg)
    && (w.cloneFlags.Some? && a.status == EventStop(Clone) ==>
          (IsThreadFlag(w.cloneFlags.value) <==> a.msg in s.tasks && s.tasks[a.msg].group != a.msg))
    && (w.regs.Some? && IsEntry(c, a.loc, a.status) ==> LooksLikeEntry(w.regs.value))
  }

  /** The other threads of the process have ended and been reported, except possibly the leader. */
  ghost predicate CanExec(c: Config, s: System, pid: Pid) {
    && pid in s.tasks && s.tasks[pid].activity.Running? && s.tasks[pid].activity.loc == CallLocation(c)
    && Alone(s, s.tasks[pid].group, pid)
  }

  ghost predicate Enabled(c: Config, s: System, a: Action) {
    s.tracer.outcome == Looping &&
    match a
    case Stops(pid, status) => pid in s.tasks && CanStop(c, s.tasks[pid].activity, status)
    case Spawns(pid, child, event, isThread) =>
      && pid in s.tasks && s.tasks[pid].activity.Running? && s.tasks[pid].activity.loc == CallLocation(c)
      && IsSpawn(EventStop(event)) && (isThread ==> event == Clone)
      // A pid may be given again once its former owner is gone, for the kernel and for the tracer. Only the
      // pid of a new process must not be known to the context either.
      && child !in s.tasks && child !in s.tracer.syscalls
      && (if isThread then child !in s.tracer.world.leaders else child !in s.tracer.world.procMap)
    case Leaves(pid) => pid in s.tasks && s.tasks[pid].activity == Running(Entered, Cont)
    case Execs(pid) => CanExec(c, s, pid) && PhaseKept(c, s, pid)
    case Dies(pid) =>
      pid in s.tasks && pid in s.tracer.syscalls && (s.tasks[pid].activity.Running? || s.tasks[pid].activity.Stopped?)
    case Waits(w, killed) =>
      && w.pid in s.tasks && s.tasks[w.pid].activity.Stopped? && w.status == s.tasks[w.pid].activity.status
      && Answers(c, s, w, killed)
      // The end of a leader is reported when all its threads have gone.
      && (w.status.Ended? && s.tasks[w.pid].group == w.pid ==> Alone(s, w.pid, w.pid))
    case FindsNoChild => s.tasks == map[]
  }

  function After(c: Config, loc: Location, status: Status): Location {
    if status == SyscallStop then if loc == Outside then Entered else Outside
    else if status == EventStop(Seccomp) then if InPlaceOfEntry(c) then Entered else Outside
    else loc
  }

  function ResumeOne(c: Config, tasks: map<Pid, Task>, r: Resume): map<Pid, Task> {
    if r.pid !in tasks then tasks
    else
      match tasks[r.pid].activity
      case Held(loc, status) =>
        tasks[r.pid := tasks[r.pid].(activity := if IsLast(status) then Dying else Running(After(c, loc, status), r.mode))]
      case _ => tasks
  }

  function ResumeAll(c: Config, tasks: map<Pid, Task>, resumes: seq<Resume>): map<Pid, Task> {
    if resumes == [] then tasks
    else ResumeOne(c, ResumeAll(c, tasks, resumes[..|resumes| - 1]), resumes[|resumes| - 1])
  }

  function WithActivity(s: System, pid: Pid, a: Activity): System
    requires pid in s.tasks
  {
    s.(tasks := s.tasks[pid := s.tasks[pid].(activity := a)])
  }

  /** A thread whose stop was reported does nothing until it is told to go on. */
  function Reported(s: System, pid: Pid): map<Pid, Task>
    requires pid in s.tasks && s.tasks[pid].activity.Stopped?
  {
    s.tasks[pid := s.tasks[pid].(activity := Held(s.tasks[pid].activity.loc, s.tasks[pid].activity.status))]
  }

  function AfterWait(c: Config, s: System, w: Wait, killed: bool): System
    requires w.pid in s.tasks && s.tasks[w.pid].activity.Stopped?
  {
    var (tracer, resumes) := Handle(c, s.tracer, w);
    var a := s.tasks[w.pid].activity;
    var resumed := ResumeAll(c, Reported(s, w.pid), resumes);
    var tasks :=
      if w.status.Ended? then s.tasks - {w.pid}
      else if killed && w.pid in s.tracer.syscalls then resumed[w.pid := s.tasks[w.pid].(activity := Dying)]
      else resumed;
    var completed :=
      if IsExit(a.loc, a.status) && w.pid in s.tracer.syscalls && w.regs.Some? then s.completed + [(w.pid, w.regs.value)]
      else s.completed;
    s.(tasks := tasks, tracer := tracer, completed := completed)
  }

  /** Whatever it was doing, the leader is replaced by the thread that execs, which takes its pid. */
  function Replaced(c: Config, s: System, pid: Pid): System
    requires pid in s.tasks
  {
    var leader := s.tasks[pid].group;
    s.(tasks := (s.tasks - {pid})[leader := Task(leader, Stopped(CallLocation(c), EventStop(PtraceEvent.Exec), pid))])
  }

  function Perform(c: Config, s: System, a: Action): System
    requires Enabled(c, s, a)
  {
    match a
    case Stops(pid, status) =>
      var loc := if s.tasks[pid].activity.Running? then s.tasks[pid].activity.loc else Outside;
      WithActivity(s, pid, Stopped(loc, status, 0))
    case Spawns(pid, child, event, isThread) =>
      // The child begins with a SIGSTOP.
      var stopped := WithActivity(s, pid, Stopped(CallLocation(c), EventStop(event), child));
      var group := if isThread then s.tasks[pid].group else child;
      stopped.(tasks := stopped.tasks[child := Task(group, Stopped(Outside, SignalStop(19), 0))])
    case Leaves(pid) => WithActivity(s, pid, Running(Outside, Cont))
    case Execs(pid) => Replaced(c, s, pid)
    case Dies(pid) => WithActivity(s, pid, Dying)
    case Waits(w, killed) => AfterWait(c, s, w, killed)
    case FindsNoChild => s.(tracer := NoChildLeft(s.tracer))
  }

  // ---------- the invariant ----------

  /**
   * What the tracer believes of a thread is right: the number of a system call is kept exactly while the
   * thread is inside of one. Where the seccomp stop takes the place of the entry, what is kept while no stop
   * at an exit can come does not matter.
   */
  predicate Phase(c: Config, a: Activity, kept: u32) {
    match a
    case Running(loc, mode) =>
      && (loc == Entered ==> mode == Trace)
      && (if InPlaceOfEntry(c) then if loc == Entered then kept != SYSCALL_UNDEFINED else mode == Cont
          else kept != SYSCALL_UNDEFINED <==> loc == Entered)
    case Stopped(loc, status, _) =>
      IsLast(status) ||
      (&& (if InPlaceOfEntry(c) then if loc == Entered then kept != SYSCALL_UNDEFINED else status != SyscallStop
           else kept != SYSCALL_UNDEFINED <==> loc == Entered)
       && (status == EventStop(Seccomp) ==> c.useSecComp && loc == Outside)
       && (status.SignalStop? ==> loc == Outside)
       && (IsSpawn(status) || IsExec(status) ==> loc == CallLocation(c)))
    case Held(_, _) => false
    case Dying => true
  }

  /** An event that has not been reported yet announces a thread that is there, or one that has gone. */
  ghost predicate Announced(s: System, p: Pid)
    requires p in s.tasks
  {
    match s.tasks[p].activity
    case Stopped(_, status, msg) =>
      && (IsSpawn(status) ==>
            && msg in s.tasks && msg !in s.tracer.syscalls
            && (s.tasks[msg].group == msg || (status == EventStop(Clone) && s.tasks[msg].group == s.tasks[p].group)))
      && (IsExec(status) ==>
            && s.tasks[p].group == p && Alone(s, p, p)
            && (msg != p ==> msg !in s.tasks && msg in s.tracer.syscalls))
    case _ => true
  }

  /** A thread that the tracer has been told of. */
  ghost predicate Known(c: Config, s: System, p: Pid)
    requires p in s.tasks && p in s.tracer.syscalls
  {
    var g, w := s.tasks[p].group, s.tracer.world;
    && g in s.tasks && s.tasks[g].group == g && g in s.tracer.syscalls
    && g in w.leaders && g in w.procMap && p in w.procMap && w.procMap[p] == w.procMap[g]
    && Phase(c, s.tasks[p].activity, s.tracer.syscalls[p])
    && Announced(s, p)
  }

  /** Held at the signal that a thread begins with. */
  predicate IsHeld(s: System, p: Pid) {
    p in s.tasks && s.tasks[p].activity.Held? && s.tasks[p].activity.loc == Outside && s.tasks[p].activity.status.SignalStop?
  }

  /** One that it has not been told of: it waits at its first stop. */
  ghost predicate Newborn(s: System, p: Pid)
    requires p in s.tasks
  {
    && p !in s.tracer.world.leaders && (s.tasks[p].group == p ==> p !in s.tracer.world.procMap)
    && if p in s.tracer.suspended then IsHeld(s, p)
       else s.tasks[p].activity.Stopped? && s.tasks[p].activity.loc == Outside && s.tasks[p].activity.status.SignalStop?
  }

  ghost predicate Announces(s: System, p: Pid, q: Pid) {
    && p in s.tasks && p in s.tracer.syscalls && s.tasks[p].activity.Stopped? && s.tasks[p].activity.msg == q && p != q
    && (IsSpawn(s.tasks[p].activity.status) || IsExec(s.tasks[p].activity.status))
  }

  ghost predicate TaskOk(c: Config, s: System, p: Pid)
    requires p in s.tasks
  {
    if p in s.tracer.syscalls then Known(c, s, p) else Newborn(s, p)
  }

  ghost predicate Consistent(c: Config, s: System) {
    && (forall p :: p in s.tasks ==> TaskOk(c, s, p))
    && (forall p :: p in s.tracer.suspended ==> IsHeld(s, p))
    && (forall p, p', q :: Announces(s, p, q) && Announces(s, p', q) ==> p == p')
    && s.tracer.syscalls.Keys <= s.tracer.world.procMap.Keys
  }

  /** What holds of the whole system in every state of every run. */
  ghost predicate Good(c: Config, s: System) {
    && Inv(s.tracer.world)
    && s.completed == s.tracer.exits
    && s.tracer.exitCode >= EXIT_CODE_UNKNOWN
    && match s.tracer.outcome
       case Looping => Consistent(c, s)
       case Returned(code) => code >= 0
       case AssertionFailed => false
  }

  // ---------- the kernel keeps it ----------

  lemma StopsKeepsGood(c: Config, s: System, pid: Pid, status: Status)
    requires Good(c, s) && Enabled(c, s, Stops(pid, status))
    ensures Good(c, Perform(c, s, Stops(pid, status)))
  {
    var s' := Perform(c, s, Stops(pid, status));
    forall q | q in s'.tasks ensures TaskOk(c, s', q) { assert TaskOk(c, s, q); }
    forall p, q | Announces(s', p, q) ensures Announces(s, p, q) {}
  }

  lemma DiesKeepsGood(c: Config, s: System, pid: Pid)
    requires Good(c, s) && Enabled(c, s, Dies(pid))
    ensures Good(c, Perform(c, s, Dies(pid)))
  {
    var s' := Perform(c, s, Dies(pid));
    forall q | q in s'.tasks ensures TaskOk(c, s', q) { assert TaskOk(c, s, q); }
    forall p, q | Announces(s', p, q) ensures Announces(s, p, q) {}
  }

  lemma SpawnsKeepsGood(c: Config, s: System, pid: Pid, child: Pid, event: PtraceEvent, isThread: bool)
    requires Good(c, s) && Enabled(c, s, Spawns(pid, child, event, isThread))
    ensures Good(c, Perform(c, s, Spawns(pid, child, event, isThread)))
  {
    var s' := Perform(c, s, Spawns(pid, child, event, isThread));
    assert TaskOk(c, s, pid);
    forall q | q in s'.tasks ensures TaskOk(c, s', q) {
      if q in s.tasks { assert TaskOk(c, s, q); }
    }
    forall p, q | Announces(s', p, q) ensures (p == pid && q == child) || Announces(s, p, q) {}
    forall p, q | Announces(s, p, q) ensures q != child {
      assert TaskOk(c, s, p);
    }
  }

  lemma ExecsKeepsGood(c: Config, s: System, pid: Pid)
    requires Good(c, s) && Enabled(c, s, Execs(pid))
    ensures Good(c, Perform(c, s, Execs(pid)))
  {
    var s' := Perform(c, s, Execs(pid));
    var leader := s.tasks[pid].group;
    assert TaskOk(c, s, pid) && TaskOk(c, s, leader);
    forall q | q in s'.tasks ensures TaskOk(c, s', q) {
      if q != leader { assert TaskOk(c, s, q); }
    }
    forall p, q | Announces(s', p, q) ensures (p == leader && q == pid) || Announces(s, p, q) {}
    forall p, q | Announces(s, p, q) ensures q != pid {
      assert TaskOk(c, s, p);
    }
  }

  // ---------- what telling the context changes ----------

  lemma Permits(t: State, e: Event, fs: FileSystem)
    requires Inv(t.world) && Permitted(t.world, e)
    ensures Told(t, e, fs) == t.(world := Step(t.world, e, fs)) && Inv(Step(t.world, e, fs))
  {
    StepKeepsInv(t.world, e, fs);
  }

  lemma Registers(w: World, e: Event, fs: FileSystem)
    requires Inv(w) && Permitted(w, e)
    ensures var w' := Step(w, e, fs);
            match e
            case Thread(pid, thread) => w'.procMap == w.procMap[thread := w.procMap[pid]] && w'.leaders == w.leaders
            case Process(_, child, _, _) => w'.procMap == w.procMap[child := |w.tables|] && w'.leaders == w.leaders + {child}
            case Exec(pid, _, _) => w'.procMap == w.procMap[pid := |w.tables|] && w'.leaders == w.leaders
            case Vanish(pid) => w'.procMap == w.procMap - {pid} && w'.leaders == w.leaders - {pid}
            case SyscallExit(_, _, _) => w'.procMap == w.procMap && w'.leaders == w.leaders
  {
    match e
    case SyscallExit(pid, regs, link) => ApplyFrame(w, w.procMap[pid], Decode(regs), link, fs);
    case Exec(pid, comm, cmdline) => assert w.leaders - {pid} + {pid} == w.leaders;
    case _ =>
  }

  // ---------- the tracer keeps it ----------

  /** A turn of the loop that concerns one thread only and lets it go on, or finds it killed. */
  lemma OneMoves(c: Config, s: System, s': System, pid: Pid, a: Activity)
    requires Consistent(c, s) && pid in s.tasks && pid in s.tracer.syscalls
    requires a.Running? || a.Dying?
    requires s'.tasks == s.tasks[pid := s.tasks[pid].(activity := a)]
    requires s'.tracer.suspended == s.tracer.suspended
    requires s'.tracer.world.procMap == s.tracer.world.procMap && s'.tracer.world.leaders == s.tracer.world.leaders
    requires pid in s'.tracer.syscalls
    requires s'.tracer.syscalls == s.tracer.syscalls[pid := s'.tracer.syscalls[pid]]
    requires Phase(c, a, s'.tracer.syscalls[pid])
    ensures Consistent(c, s')
  {
    forall q | q in s'.tasks ensures TaskOk(c, s', q) { assert TaskOk(c, s, q); }
    forall p, q | Announces(s', p, q) ensures Announces(s, p, q) {}
  }

  lemma ResumeThat(c: Config, tasks: map<Pid, Task>, r: Resume)
    ensures ResumeAll(c, tasks, [r]) == ResumeOne(c, tasks, r)
  {
    assert [r][..0] == [];
  }

  lemma ResumeBoth(c: Config, tasks: map<Pid, Task>, r: Resume, r': Resume)
    ensures ResumeAll(c, tasks, [r, r']) == ResumeOne(c, ResumeOne(c, tasks, r), r')
  {
    assert [r, r'][..1] == [r];
    ResumeThat(c, tasks, r);
  }

  /** What the thread does after its stop was handled and it was asked to go on in a given mode. */
  function GoesOn(c: Config, s: System, pid: Pid, mode: Mode, killed: bool): Activity
    requires pid in s.tasks && s.tasks[pid].activity.Stopped?
  {
    var a := s.tasks[pid].activity;
    if killed || IsLast(a.status) then Dying else Running(After(c, a.loc, a.status), mode)
  }

  /** How a turn ends that asks only the reported thread to go on. */
  lemma AfterOne(c: Config, s: System, w: Wait, killed: bool, mode: Mode, signal: nat)
    requires w.pid in s.tasks && s.tasks[w.pid].activity.Stopped? && s.tasks[w.pid].activity.status == w.status
    requires w.pid in s.tracer.syscalls && !w.status.Ended?
    requires Handle(c, s.tracer, w).1 == [Resume(w.pid, mode, signal)]
    ensures AfterWait(c, s, w, killed).tasks == s.tasks[w.pid := s.tasks[w.pid].(activity := GoesOn(c, s, w.pid, mode, killed))]
  {
    ResumeThat(c, Reported(s, w.pid), Resume(w.pid, mode, signal));
    assert ResumeAll(c, Reported(s, w.pid), [Resume(w.pid, mode, signal)]) ==
           s.tasks[w.pid := s.tasks[w.pid].(activity := GoesOn(c, s, w.pid, mode, false))];
  }

  lemma QuietKeepsGood(c: Config, s: System, w: Wait, killed: bool)
    requires Good(c, s) && Enabled(c, s, Waits(w, killed))
    requires w.pid in s.tracer.syscalls
    requires w.status.SignalStop? || (w.status.EventStop? && (w.msg.None? || w.status.event.ExitEvent? ||
               (w.status.event.Clone? && w.cloneFlags.None?) || (w.status.event.Seccomp? && !c.secCompV2)))
    ensures Good(c, Perform(c, s, Waits(w, killed)))
  {
    assert TaskOk(c, s, w.pid);
    var r := Handle(c, s.tracer, w).1[0];
    AfterOne(c, s, w, killed, r.mode, r.signal);
    OneMoves(c, s, Perform(c, s, Waits(w, killed)), w.pid, GoesOn(c, s, w.pid, r.mode, killed));
  }

  /** An entry is taken for an entry: the number is kept, and the context is told nothing. */
  lemma EntryKeepsGood(c: Config, s: System, w: Wait, killed: bool)
    requires Good(c, s) && Enabled(c, s, Waits(w, killed))
    requires w.pid in s.tracer.syscalls && IsEntry(c, s.tasks[w.pid].activity.loc, w.status) && w.regs.Some?
    requires w.status.EventStop? ==> w.msg.Some?
    ensures Good(c, Perform(c, s, Waits(w, killed)))
    ensures var s' := Perform(c, s, Waits(w, killed));
            s'.tracer.outcome == Looping && s'.tracer.world == s.tracer.world && s'.tracer.exits == s.tracer.exits
  {
    assert TaskOk(c, s, w.pid);
    var t := s.tracer;
    var nr := GetSyscallNumber(w.regs.value);
    assert t.syscalls[w.pid := SYSCALL_UNDEFINED][w.pid := nr] == t.syscalls[w.pid := nr];
    assert Handle(c, t, w) == (t.(syscalls := t.syscalls[w.pid := nr]), [Resume(w.pid, Trace, Signal(w.status))]);
    AfterOne(c, s, w, killed, Trace, Signal(w.status));
    OneMoves(c, s, Perform(c, s, Waits(w, killed)), w.pid, GoesOn(c, s, w.pid, Trace, killed));
  }

  /** An exit is taken for an exit: `SyscallExit` is called, and is permitted. */
  lemma ExitKeepsGood(c: Config, s: System, w: Wait, killed: bool)
    requires Good(c, s) && Enabled(c, s, Waits(w, killed))
    requires w.pid in s.tracer.syscalls && IsExit(s.tasks[w.pid].activity.loc, w.status) && w.regs.Some?
    ensures Good(c, Perform(c, s, Waits(w, killed)))
    ensures var s', e := Perform(c, s, Waits(w, killed)), SyscallExit(w.pid, w.regs.value, w.link);
            && Permitted(s.tracer.world, e)
            && s'.tracer.outcome == Looping && s'.tracer.world == Step(s.tracer.world, e, w.fs)
            && s'.tracer.exits == s.tracer.exits + [(w.pid, w.regs.value)]
  {
    assert TaskOk(c, s, w.pid);
    var t, e := s.tracer, SyscallExit(w.pid, w.regs.value, w.link);
    assert Permitted(t.world, e) by { assert s.tasks[w.pid].group in t.world.leaders; }
    var left := t.(syscalls := t.syscalls[w.pid := SYSCALL_UNDEFINED], exits := t.exits + [(w.pid, w.regs.value)]);
    Permits(left, e, w.fs);
    Registers(t.world, e, w.fs);
    AfterOne(c, s, w, killed, Onward(c), 0);
    OneMoves(c, s, Perform(c, s, Waits(w, killed)), w.pid, GoesOn(c, s, w.pid, Onward(c), killed));
  }

  /** A system-call stop of a thread whose registers cannot be read any more. */
  lemma LostKeepsGood(c: Config, s: System, w: Wait, killed: bool)
    requires Good(c, s) && Enabled(c, s, Waits(w, killed))
    requires w.pid in s.tracer.syscalls && w.regs.None?
    requires w.status == SyscallStop || (InPlaceOfEntry(c) && w.status == EventStop(Seccomp) && w.msg.Some?)
    ensures Good(c, Perform(c, s, Waits(w, killed)))
  {
    assert TaskOk(c, s, w.pid);
    AfterOne(c, s, w, killed, Trace, 0);
    OneMoves(c, s, Perform(c, s, Waits(w, killed)), w.pid, Dying);
  }

  /** The first stop of a thread that is not known yet: it is suspended. */
  lemma HoldKeepsGood(c: Config, s: System, w: Wait, killed: bool)
    requires Good(c, s) && Enabled(c, s, Waits(w, killed))
    requires w.pid !in s.tracer.syscalls
    ensures Good(c, Perform(c, s, Waits(w, killed)))
  {
    assert TaskOk(c, s, w.pid);
    var s' := Perform(c, s, Waits(w, killed));
    forall q | q in s'.tasks ensures TaskOk(c, s', q) { assert TaskOk(c, s, q); }
    forall p, q | Announces(s', p, q) ensures Announces(s, p, q) {}
  }

  /** What the end of a thread leaves behind. */
  lemma EndHandled(c: Config, s: System, w: Wait, killed: bool)
    requires Good(c, s) && Enabled(c, s, Waits(w, killed)) && w.status.Ended?
    ensures w.pid in s.tracer.syscalls
    ensures var s' := Perform(c, s, Waits(w, killed));
            && s'.tasks == s.tasks - {w.pid} && s'.completed == s.completed
            && s'.tracer.syscalls == s.tracer.syscalls - {w.pid} && s'.tracer.suspended == s.tracer.suspended
            && s'.tracer.exits == s.tracer.exits && s'.tracer.exitCode >= EXIT_CODE_UNKNOWN && Inv(s'.tracer.world)
            && s'.tracer.world.procMap == s.tracer.world.procMap - {w.pid}
            && s'.tracer.world.leaders == s.tracer.world.leaders - {w.pid}
            && s'.tracer.outcome == (if w.pid == c.tracee && !(c.followForks && c.waitDaemons) then Returned(w.status.code) else Looping)
  {
    assert TaskOk(c, s, w.pid);
    Permits(s.tracer.(syscalls := s.tracer.syscalls - {w.pid}), Vanish(w.pid), w.fs);
    Registers(s.tracer.world, Vanish(w.pid), w.fs);
  }

  lemma EndKeepsGood(c: Config, s: System, w: Wait, killed: bool)
    requires Good(c, s) && Enabled(c, s, Waits(w, killed)) && w.status.Ended?
    ensures Good(c, Perform(c, s, Waits(w, killed)))
  {
    EndHandled(c, s, w, killed);
    EndedIsConsistent(c, s, Perform(c, s, Waits(w, killed)), w.pid);
  }

  lemma EndedIsConsistent(c: Config, s: System, s': System, pid: Pid)
    requires Consistent(c, s) && pid in s.tasks && pid in s.tracer.syscalls
    requires s.tasks[pid].group == pid ==> Alone(s, pid, pid)
    requires s'.tasks == s.tasks - {pid}
    requires s'.tracer.syscalls == s.tracer.syscalls - {pid} && s'.tracer.suspended == s.tracer.suspended
    requires s'.tracer.world.procMap == s.tracer.world.procMap - {pid}
    requires s'.tracer.world.leaders == s.tracer.world.leaders - {pid}
    ensures Consistent(c, s')
  {
    assert TaskOk(c, s, pid);
    forall q | q in s'.tasks ensures TaskOk(c, s', q) { assert TaskOk(c, s, q); }
    forall p, q | Announces(s', p, q) ensures Announces(s, p, q) {}
  }

  lemma ExecTold(c: Config, s: System, w: Wait, killed: bool)
    requires Good(c, s) && Enabled(c, s, Waits(w, killed))
    requires w.pid in s.tracer.syscalls && w.status == EventStop(PtraceEvent.Exec) && w.msg.Some?
    ensures var (t', resumes), t, former := Handle(c, s.tracer, w), s.tracer, w.msg.value;
            && t' == t.(syscalls := t.syscalls - ({former} - {w.pid}), world := t'.world)
            && Inv(t'.world)
            && resumes == (if former != w.pid then [Resume(former, Trace, 0)] else []) + [Resume(w.pid, Onward(c), SIGTRAP)]
            && t'.world.procMap == t.world.procMap[w.pid := |t.world.tables|]
            && t'.world.leaders == t.world.leaders
  {
    assert TaskOk(c, s, w.pid);
    var e := Event.Exec(w.pid, w.comm, w.cmdline);
    Permits(s.tracer, e, w.fs);
    Registers(s.tracer.world, e, w.fs);
    assert s.tracer.syscalls - ({w.pid} - {w.pid}) == s.tracer.syscalls;
    assert w.msg.value != w.pid ==> {w.msg.value} - {w.pid} == {w.msg.value};
  }

  lemma ExecTasks(c: Config, s: System, w: Wait, killed: bool)
    requires w.pid in s.tasks && s.tasks[w.pid].activity.Stopped? && s.tasks[w.pid].activity.status == w.status
    requires w.pid in s.tracer.syscalls && IsExec(w.status) && w.msg.Some?
    requires w.msg.value != w.pid ==> w.msg.value !in s.tasks
    requires Handle(c, s.tracer, w).1 ==
             (if w.msg.value != w.pid then [Resume(w.msg.value, Trace, 0)] else []) + [Resume(w.pid, Onward(c), SIGTRAP)]
    ensures AfterWait(c, s, w, killed).tasks ==
            s.tasks[w.pid := s.tasks[w.pid].(activity := GoesOn(c, s, w.pid, Onward(c), killed))]
  {
    var former, onward := Resume(w.msg.value, Trace, 0), Resume(w.pid, Onward(c), SIGTRAP);
    if w.msg.value != w.pid {
      assert Handle(c, s.tracer, w).1 == [former, onward];
      ResumeBoth(c, Reported(s, w.pid), former, onward);
      ResumeThat(c, Reported(s, w.pid), onward);
      assert ResumeAll(c, Reported(s, w.pid), [former, onward]) == ResumeAll(c, Reported(s, w.pid), [onward]);
    } else {
      assert Handle(c, s.tracer, w).1 == [onward];
      ResumeThat(c, Reported(s, w.pid), onward);
    }
    assert ResumeAll(c, Reported(s, w.pid), Handle(c, s.tracer, w).1) ==
           s.tasks[w.pid := s.tasks[w.pid].(activity := GoesOn(c, s, w.pid, Onward(c), false))];
  }

  lemma ExecKeepsGood(c: Config, s: System, w: Wait, killed: bool)
    requires Good(c, s) && Enabled(c, s, Waits(w, killed))
    requires w.pid in s.tracer.syscalls && w.status == EventStop(PtraceEvent.Exec) && w.msg.Some?
    ensures Good(c, Perform(c, s, Waits(w, killed)))
  {
    assert TaskOk(c, s, w.pid);
    ExecTold(c, s, w, killed);
    ExecTasks(c, s, w, killed);
    var s' := Perform(c, s, Waits(w, killed));
    ExecedIsConsistent(c, s, s', w.pid, w.msg.value, GoesOn(c, s, w.pid, Onward(c), killed), |s.tracer.world.tables|);
  }

  lemma ExecedIsConsistent(c: Config, s: System, s': System, pid: Pid, former: Pid, a: Activity, t: nat)
    requires Consistent(c, s) && pid in s.tasks && pid in s.tracer.syscalls
    requires s.tasks[pid].group == pid && Alone(s, pid, pid)
    requires former != pid ==> Announces(s, pid, former) && former !in s.tasks
    requires (a.Running? || a.Dying?) && Phase(c, a, s.tracer.syscalls[pid])
    requires s'.tasks == s.tasks[pid := s.tasks[pid].(activity := a)]
    requires s'.tracer.syscalls == s.tracer.syscalls - ({former} - {pid}) && s'.tracer.suspended == s.tracer.suspended
    requires s'.tracer.world.procMap == s.tracer.world.procMap[pid := t]
    requires s'.tracer.world.leaders == s.tracer.world.leaders
    ensures Consistent(c, s')
  {
    assert TaskOk(c, s, pid);
    forall q | q in s'.tasks ensures TaskOk(c, s', q) {
      assert TaskOk(c, s, q);
      if q in s.tracer.syscalls && s.tasks[q].activity.Stopped? && s.tasks[q].activity.msg != q {
        assert IsExec(s.tasks[q].activity.status) ==> Announces(s, q, s.tasks[q].activity.msg);
      }
    }
    forall p, q | Announces(s', p, q) ensures Announces(s, p, q) {}
  }

  /** The event for the context that goes with a creation. */
  function SpawnEvent(w: Wait): Event
    requires IsSpawn(w.status) && w.msg.Some? && (w.status.event.Clone? ==> w.cloneFlags.Some?)
  {
    if w.status.event.Clone? && IsThreadFlag(w.cloneFlags.value) then Event.Thread(w.pid, w.msg.value)
    else Process(w.pid, w.msg.value, w.comm, w.cmdline)
  }

  lemma SpawnPermitted(c: Config, s: System, w: Wait, killed: bool)
    requires Good(c, s) && Enabled(c, s, Waits(w, killed))
    requires w.pid in s.tracer.syscalls && IsSpawn(w.status) && w.msg.Some?
    requires w.status.event.Clone? ==> w.cloneFlags.Some?
    ensures w.msg.value in s.tasks && w.msg.value != w.pid && w.msg.value !in s.tracer.syscalls
    ensures Newborn(s, w.msg.value) && Announces(s, w.pid, w.msg.value)
    ensures s.tasks[w.msg.value].group == w.msg.value || s.tasks[w.msg.value].group == s.tasks[w.pid].group
    ensures SpawnEvent(w).Thread? <==> s.tasks[w.msg.value].group != w.msg.value
    ensures Permitted(s.tracer.world, SpawnEvent(w)) && w.pid in s.tracer.world.procMap
  {
    assert TaskOk(c, s, w.pid);
    assert TaskOk(c, s, w.msg.value);
  }

  lemma SpawnHandled(c: Config, t: State, w: Wait)
    requires Inv(t.world) && w.pid in t.syscalls && IsSpawn(w.status) && w.msg.Some?
    requires (w.status.event.Clone? ==> w.cloneFlags.Some?) && Permitted(t.world, SpawnEvent(w))
    ensures var (t', resumes), child := Handle(c, t, w), w.msg.value;
            && t' == t.(syscalls := t.syscalls[child := SYSCALL_UNDEFINED], suspended := t.suspended - {child},
                        world := Step(t.world, SpawnEvent(w), w.fs))
            && Inv(t'.world)
            && resumes == (if child in t.suspended then [Resume(child, Onward(c), 0)] else []) + [Resume(w.pid, Onward(c), SIGTRAP)]
  {
    Permits(t, SpawnEvent(w), w.fs);
    assert w.msg.value !in t.suspended ==> t.suspended - {w.msg.value} == t.suspended;
  }

  lemma SpawnTold(c: Config, s: System, w: Wait, killed: bool)
    requires Good(c, s) && Enabled(c, s, Waits(w, killed))
    requires w.pid in s.tracer.syscalls && IsSpawn(w.status) && w.msg.Some?
    requires w.status.event.Clone? ==> w.cloneFlags.Some?
    ensures w.msg.value in s.tasks && w.pid in s.tracer.world.procMap
    ensures var (t', resumes), t, child := Handle(c, s.tracer, w), s.tracer, w.msg.value;
            && t' == t.(syscalls := t.syscalls[child := SYSCALL_UNDEFINED], suspended := t.suspended - {child}, world := t'.world)
            && Inv(t'.world)
            && resumes == (if child in t.suspended then [Resume(child, Onward(c), 0)] else []) + [Resume(w.pid, Onward(c), SIGTRAP)]
            && (if s.tasks[child].group == child
                then t'.world.procMap == t.world.procMap[child := |t.world.tables|] &&
                     t'.world.leaders == t.world.leaders + {child}
                else t'.world.procMap == t.world.procMap[child := t.world.procMap[w.pid]] &&
                     t'.world.leaders == t.world.leaders)
  {
    SpawnPermitted(c, s, w, killed);
    SpawnHandled(c, s.tracer, w);
    Registers(s.tracer.world, SpawnEvent(w), w.fs);
  }

  lemma SpawnTasks(c: Config, s: System, w: Wait, killed: bool)
    requires w.pid in s.tasks && s.tasks[w.pid].activity.Stopped? && s.tasks[w.pid].activity.status == w.status
    requires w.pid in s.tracer.syscalls && IsSpawn(w.status) && w.msg.Some?
    requires w.msg.value in s.tasks && w.msg.value != w.pid
    requires w.msg.value in s.tracer.suspended ==> IsHeld(s, w.msg.value)
    requires Handle(c, s.tracer, w).1 ==
             (if w.msg.value in s.tracer.suspended then [Resume(w.msg.value, Onward(c), 0)] else []) +
             [Resume(w.pid, Onward(c), SIGTRAP)]
    ensures AfterWait(c, s, w, killed).tasks ==
            s.tasks[w.msg.value := s.tasks[w.msg.value].(activity :=
                      if w.msg.value in s.tracer.suspended then Running(Outside, Onward(c)) else s.tasks[w.msg.value].activity)]
                   [w.pid := s.tasks[w.pid].(activity := GoesOn(c, s, w.pid, Onward(c), killed))]
  {
    var child, onward := w.msg.value, Resume(w.pid, Onward(c), SIGTRAP);
    var tasks := s.tasks[w.pid := s.tasks[w.pid].(activity := GoesOn(c, s, w.pid, Onward(c), false))];
    if child in s.tracer.suspended {
      assert Handle(c, s.tracer, w).1 == [Resume(child, Onward(c), 0), onward];
      ResumeBoth(c, Reported(s, w.pid), Resume(child, Onward(c), 0), onward);
      assert ResumeAll(c, Reported(s, w.pid), Handle(c, s.tracer, w).1) ==
             tasks[child := s.tasks[child].(activity := Running(Outside, Onward(c)))];
    } else {
      assert Handle(c, s.tracer, w).1 == [onward];
      ResumeThat(c, Reported(s, w.pid), onward);
      assert ResumeAll(c, Reported(s, w.pid), Handle(c, s.tracer, w).1) == tasks;
      assert s.tasks[child := s.tasks[child]] == s.tasks;
    }
  }

  lemma SpawnKeepsGood(c: Config, s: System, w: Wait, killed: bool)
    requires Good(c, s) && Enabled(c, s, Waits(w, killed))
    requires w.pid in s.tracer.syscalls && IsSpawn(w.status) && w.msg.Some?
    requires w.status.event.Clone? ==> w.cloneFlags.Some?
    ensures Good(c, Perform(c, s, Waits(w, killed)))
  {
    SpawnTold(c, s, w, killed);
    SpawnKeepsConsistent(c, s, w, killed);
  }

  lemma SpawnKeepsConsistent(c: Config, s: System, w: Wait, killed: bool)
    requires Good(c, s) && Enabled(c, s, Waits(w, killed))
    requires w.pid in s.tracer.syscalls && IsSpawn(w.status) && w.msg.Some?
    requires w.status.event.Clone? ==> w.cloneFlags.Some?
    ensures Consistent(c, Perform(c, s, Waits(w, killed)))
  {
    var s', a := Perform(c, s, Waits(w, killed)), GoesOn(c, s, w.pid, Onward(c), killed);
    SpawnPermitted(c, s, w, killed);
    assert Phase(c, a, s.tracer.syscalls[w.pid]) by { assert TaskOk(c, s, w.pid); }
    SpawnTold(c, s, w, killed);
    SpawnTasks(c, s, w, killed);
    SpawnedIsConsistent(c, s, s', w.pid, w.msg.value, a, |s.tracer.world.tables|);
  }

  lemma SpawnedIsConsistent(c: Config, s: System, s': System, pid: Pid, child: Pid, a: Activity, t: nat)
    requires Consistent(c, s) && pid in s.tasks && pid in s.tracer.syscalls && child in s.tasks && child !in s.tracer.syscalls
    requires Announces(s, pid, child)
    requires s.tasks[child].group == child || s.tasks[child].group == s.tasks[pid].group
    requires (a.Running? || a.Dying?) && Phase(c, a, s.tracer.syscalls[pid])
    requires s'.tasks == s.tasks[child := s.tasks[child].(activity :=
                                  if child in s.tracer.suspended then Running(Outside, Onward(c)) else s.tasks[child].activity)]
                                [pid := s.tasks[pid].(activity := a)]
    requires s'.tracer.syscalls == s.tracer.syscalls[child := SYSCALL_UNDEFINED]
    requires s'.tracer.suspended == s.tracer.suspended - {child}
    requires if s.tasks[child].group == child
             then s'.tracer.world.procMap == s.tracer.world.procMap[child := t] &&
                  s'.tracer.world.leaders == s.tracer.world.leaders + {child}
             else pid in s.tracer.world.procMap &&
                  s'.tracer.world.procMap == s.tracer.world.procMap[child := s.tracer.world.procMap[pid]] &&
                  s'.tracer.world.leaders == s.tracer.world.leaders
    ensures Consistent(c, s')
  {
    assert TaskOk(c, s, pid) && TaskOk(c, s, child);
    forall q | q in s'.tasks ensures TaskOk(c, s', q) {
      assert TaskOk(c, s, q);
      if q in s.tracer.syscalls && s.tasks[q].activity.Stopped? && q != pid {
        assert IsSpawn(s.tasks[q].activity.status) ==> Announces(s, q, s.tasks[q].activity.msg);
      }
    }
    forall p, q | Announces(s', p, q) ensures Announces(s, p, q) {}
  }

  lemma WaitsKeepsGood(c: Config, s: System, w: Wait, killed: bool)
    requires Good(c, s) && Enabled(c, s, Waits(w, killed))
    ensures Good(c, Perform(c, s, Waits(w, killed)))
  {
    assert TaskOk(c, s, w.pid);
    if w.status.Ended? {
      EndKeepsGood(c, s, w, killed);
    } else if w.pid !in s.tracer.syscalls {
      HoldKeepsGood(c, s, w, killed);
    } else {
      match w.status
      case SyscallStop =>
        if w.regs.None? { LostKeepsGood(c, s, w, killed); }
        else if s.tasks[w.pid].activity.loc == Outside { EntryKeepsGood(c, s, w, killed); }
        else { ExitKeepsGood(c, s, w, killed); }
      case SignalStop(_) => QuietKeepsGood(c, s, w, killed);
      case EventStop(event) =>
        if w.msg.None? || event.ExitEvent? || (event.Clone? && w.cloneFlags.None?) || (event.Seccomp? && !c.secCompV2) {
          QuietKeepsGood(c, s, w, killed);
        } else if event.Seccomp? {
          if w.regs.None? { LostKeepsGood(c, s, w, killed); } else { EntryKeepsGood(c, s, w, killed); }
        } else if event.Exec? {
          ExecKeepsGood(c, s, w, killed);
        } else {
          SpawnKeepsGood(c, s, w, killed);
        }
    }
  }

  /** No thread that is inside of a system call was let go on without being stopped at the exit. */
  lemma NobodyLeaves(c: Config, s: System, pid: Pid)
    requires Good(c, s) && s.tracer.outcome == Looping
    ensures !Enabled(c, s, Leaves(pid))
  {
    if pid in s.tasks { assert TaskOk(c, s, pid); }
  }

  lemma ActionKeepsGood(c: Config, s: System, a: Action)
    requires Good(c, s) && Enabled(c, s, a)
    ensures Good(c, Perform(c, s, a))
  {
    match a
    case Stops(pid, status) => StopsKeepsGood(c, s, pid, status);
    case Spawns(pid, child, event, isThread) => SpawnsKeepsGood(c, s, pid, child, event, isThread);
    case Leaves(pid) => NobodyLeaves(c, s, pid);
    case Execs(pid) => ExecsKeepsGood(c, s, pid);
    case Dies(pid) => DiesKeepsGood(c, s, pid);
    case Waits(w, killed) => WaitsKeepsGood(c, s, w, killed);
    case FindsNoChild =>
  }

  // ---------- every run ----------

  /** The tracee has been started and told to go on; nothing else is traced. */
  ghost predicate Initial(c: Config, s: System) {
    && s.tasks == map[c.tracee := Task(c.tracee, Running(Outside, Onward(c)))]
    && s.completed == []
    && s.tracer == Start(c, s.tracer.world)
    && exists comm, cmdline, probed, fs :: s.tracer.world == RegisterTracee(c.tracee, comm, cmdline, probed, fs)
  }

  ghost predicate NextState(c: Config, s: System, a: Action, s': System) {
    Enabled(c, s, a) && s' == Perform(c, s, a)
  }

  ghost predicate StateAt(c: Config, states: seq<System>, actions: seq<Action>, i: nat) {
    i < |actions| < |states| && NextState(c, states[i], actions[i], states[i + 1])
  }

  /** `states` are the states that the actions lead through. */
  ghost predicate Behaviour(c: Config, states: seq<System>, actions: seq<Action>) {
    && |states| == |actions| + 1
    && forall i :: 0 <= i < |actions| ==> StateAt(c, states, actions, i)
  }

  lemma {:induction false} FillFdsRegisters(w: World, t: nat, probed: seq<Option<Inherited>>, n: nat, fs: FileSystem)
    requires t < |w.tables| && n <= |probed|
    ensures FillFds(w, t, probed, n, fs).procMap == w.procMap && FillFds(w, t, probed, n, fs).leaders == w.leaders
    decreases n
  {
    if n > 0 {
      if probed[n - 1].None? {
        FillFdsRegisters(w, t, probed, n - 1, fs);
      } else {
        var file := FileState.Opened(fs, probed[n - 1].value.name, probed[n - 1].value.flags);
        FillFdsRegisters(OpenWriteFile(w, t, n - 1, file), t, probed, n - 1, fs);
      }
    }
  }

  lemma InitialIsGood(c: Config, s: System)
    requires Initial(c, s)
    ensures Good(c, s)
  {
    var comm, cmdline, probed, fs :| s.tracer.world == RegisterTracee(c.tracee, comm, cmdline, probed, fs);
    StartHasInv(c.tracee, comm, cmdline, probed, fs);
    FillFdsRegisters(NewTracee(c.tracee, comm, cmdline, |probed|), 0, probed, |probed|, fs);
    assert TaskOk(c, s, c.tracee);
  }

  /**
   * In every run, whatever the kernel does and in whatever order it reports it: no assertion of the tracer or
   * of the context fails, -2 is never returned, and `SyscallExit` has been called for exactly the exits of
   * system calls that were shown to the tracer, in that order.
   */
  lemma {:induction false} GoodInEveryRun(c: Config, states: seq<System>, actions: seq<Action>, n: nat)
    requires Behaviour(c, states, actions) && Initial(c, states[0]) && n <= |actions|
    ensures Good(c, states[n])
  {
    if n == 0 {
      InitialIsGood(c, states[0]);
    } else {
      GoodInEveryRun(c, states, actions, n - 1);
      assert StateAt(c, states, actions, n - 1);
      ActionKeepsGood(c, states[n - 1], actions[n - 1]);
    }
  }

  /** What this means for one state. */
  lemma GoodMeans(c: Config, s: System)
    requires Good(c, s) && s.tracer.outcome == Looping
    // The threads that have stopped, were reported and were not told to go on are the suspended ones. Module
    // Orphans says which of them never will be.
    ensures forall p :: p in s.tracer.suspended <==> p in s.tasks && s.tasks[p].activity.Held?
    // Registration is consistent.
    ensures s.tracer.suspended.Keys !! s.tracer.syscalls.Keys
    ensures s.tracer.syscalls.Keys <= s.tracer.world.procMap.Keys && s.tracer.world.leaders <= s.tracer.world.procMap.Keys
    // The phases agree: a thread that may show a stop at an exit is known to be in a system call, and no other is taken to be.
    ensures forall p ::
              p in s.tasks && p in s.tracer.syscalls && s.tasks[p].activity.Running? && s.tasks[p].activity.mode == Trace ==>
                (s.tracer.syscalls[p] != SYSCALL_UNDEFINED <==> s.tasks[p].activity.loc == Entered)
    // No thread uses the table of a leader that has gone.
    ensures forall p :: p in s.tasks && p in s.tracer.syscalls ==>
              s.tasks[p].group in s.tracer.world.leaders && s.tasks[p].group in s.tracer.world.procMap &&
              p in s.tracer.world.procMap &&
              s.tracer.world.procMap[p] == s.tracer.world.procMap[s.tasks[p].group]
  {
    forall p | p in s.tasks
      ensures p in s.tracer.suspended <==> s.tasks[p].activity.Held?
      ensures p in s.tracer.syscalls ==> Known(c, s, p) && p !in s.tracer.suspended
    {
      assert TaskOk(c, s, p);
    }
    forall p | p in s.tracer.suspended ensures p !in s.tracer.syscalls {
      assert p in s.tasks;
    }
  }

  // ---------- the two orders of a creation ----------

  /**
   * The creation of a child and the first stop of the child may be reported in either order. The tracer ends up
   * in the same state, and the same threads go on in the same way; only the child gets its SIGSTOP in one
   * order, and not in the other.
   */
  lemma SpawnOrdersAgree(c: Config, s: System, w: Wait, first: Wait)
    requires Good(c, s) && Enabled(c, s, Waits(w, false)) && Enabled(c, s, Waits(first, false))
    requires w.pid in s.tracer.syscalls && IsSpawn(w.status) && w.msg == Some(first.pid)
    ensures first.pid !in s.tracer.syscalls && first.status.SignalStop?
    ensures var s1, s1' := AfterWait(c, s, w, false), AfterWait(c, s, first, false);
            && first.pid in s1.tasks && s1.tasks[first.pid].activity.Stopped?
            && w.pid in s1'.tasks && s1'.tasks[w.pid].activity.Stopped?
            && AfterWait(c, s1, first, false) == AfterWait(c, s1', w, false)
            && Handle(c, s.tracer, w).1 == [Resume(w.pid, Onward(c), 5)]
            && Handle(c, s1.tracer, first).1 == [Resume(first.pid, Onward(c), first.status.signal)]
            && Handle(c, s.tracer, first).1 == []
            && Handle(c, s1'.tracer, w).1 == [Resume(first.pid, Onward(c), 0), Resume(w.pid, Onward(c), 5)]
  {
    assert TaskOk(c, s, w.pid) && TaskOk(c, s, first.pid);
    SpawnThenFirst(c, s, w, first);
    FirstThenSpawn(c, s, w, first);
  }

  /** The threads after both, in whatever order. */
  function BothGoOn(c: Config, s: System, pid: Pid, child: Pid): map<Pid, Task>
    requires pid in s.tasks && s.tasks[pid].activity.Stopped? && child in s.tasks
  {
    s.tasks[pid := s.tasks[pid].(activity := GoesOn(c, s, pid, Onward(c), false))]
           [child := s.tasks[child].(activity := Running(Outside, Onward(c)))]
  }

  lemma SpawnThenFirst(c: Config, s: System, w: Wait, first: Wait)
    requires Good(c, s) && Enabled(c, s, Waits(w, false)) && Enabled(c, s, Waits(first, false))
    requires w.pid in s.tracer.syscalls && IsSpawn(w.status) && w.msg == Some(first.pid)
    ensures var s1 := AfterWait(c, s, w, false);
            && first.pid in s1.tasks && s1.tasks[first.pid].activity.Stopped?
            && AfterWait(c, s1, first, false) ==
               s.(tasks := BothGoOn(c, s, w.pid, first.pid), tracer := Handle(c, s.tracer, w).0)
            && Handle(c, s.tracer, w).1 == [Resume(w.pid, Onward(c), SIGTRAP)]
            && Handle(c, s1.tracer, first).1 == [Resume(first.pid, Onward(c), first.status.signal)]
  {
    assert TaskOk(c, s, w.pid) && TaskOk(c, s, first.pid);
    SpawnAlone(c, s, w, first.pid);
    KnownChildGoesOn(c, s, AfterWait(c, s, w, false), w, first);
  }

  lemma SpawnAlone(c: Config, s: System, w: Wait, child: Pid)
    requires Good(c, s) && Enabled(c, s, Waits(w, false)) && child !in s.tracer.suspended
    requires w.pid in s.tracer.syscalls && IsSpawn(w.status) && w.msg == Some(child)
    ensures AfterWait(c, s, w, false) ==
            s.(tasks := s.tasks[w.pid := s.tasks[w.pid].(activity := GoesOn(c, s, w.pid, Onward(c), false))],
               tracer := Handle(c, s.tracer, w).0)
    ensures Handle(c, s.tracer, w).1 == [Resume(w.pid, Onward(c), SIGTRAP)]
    ensures child in Handle(c, s.tracer, w).0.syscalls && child in s.tasks && child != w.pid
  {
    assert TaskOk(c, s, w.pid);
    SpawnTold(c, s, w, false);
    SpawnTasks(c, s, w, false);
    assert s.tasks[child := s.tasks[child]] == s.tasks;
  }

  lemma KnownChildGoesOn(c: Config, s: System, s1: System, w: Wait, first: Wait)
    requires w.pid in s.tasks && s.tasks[w.pid].activity.Stopped? && first.pid in s.tasks && first.pid != w.pid
    requires s.tasks[first.pid].activity.Stopped? && s.tasks[first.pid].activity.status == first.status
    requires s.tasks[first.pid].activity.loc == Outside && first.status.SignalStop? && first.pid in s1.tracer.syscalls
    requires s1 == s.(tasks := s.tasks[w.pid := s.tasks[w.pid].(activity := GoesOn(c, s, w.pid, Onward(c), false))],
                      tracer := s1.tracer)
    ensures AfterWait(c, s1, first, false) == s.(tasks := BothGoOn(c, s, w.pid, first.pid), tracer := s1.tracer)
    ensures Handle(c, s1.tracer, first).1 == [Resume(first.pid, Onward(c), first.status.signal)]
  {
    AfterOne(c, s1, first, false, Onward(c), first.status.signal);
  }

  lemma FirstThenSpawn(c: Config, s: System, w: Wait, first: Wait)
    requires Good(c, s) && Enabled(c, s, Waits(w, false)) && Enabled(c, s, Waits(first, false))
    requires w.pid in s.tracer.syscalls && IsSpawn(w.status) && w.msg == Some(first.pid)
    ensures var s1 := AfterWait(c, s, first, false);
            && w.pid in s1.tasks && s1.tasks[w.pid].activity.Stopped?
            && AfterWait(c, s1, w, false) ==
               s.(tasks := BothGoOn(c, s, w.pid, first.pid), tracer := Handle(c, s.tracer, w).0)
            && Handle(c, s.tracer, first).1 == []
            && Handle(c, s1.tracer, w).1 == [Resume(first.pid, Onward(c), 0), Resume(w.pid, Onward(c), SIGTRAP)]
  {
    assert TaskOk(c, s, w.pid) && TaskOk(c, s, first.pid);
    var s1 := AfterWait(c, s, first, false);
    assert s1.tracer == s.tracer.(suspended := s.tracer.suspended[first.pid := first.status]);
    SpawnAfterHold(c, s, w, first);
    SpawnTasks(c, s1, w, false);
    assert AfterWait(c, s1, w, false).tasks == BothGoOn(c, s, w.pid, first.pid);
  }

  /** That the child was suspended before makes no other difference to what is done about its creation. */
  lemma SpawnAfterHold(c: Config, s: System, w: Wait, first: Wait)
    requires Good(c, s) && Enabled(c, s, Waits(w, false)) && Enabled(c, s, Waits(first, false))
    requires w.pid in s.tracer.syscalls && IsSpawn(w.status) && w.msg == Some(first.pid)
    ensures first.pid !in s.tracer.suspended && first.pid !in s.tracer.syscalls
    ensures var held := s.tracer.(suspended := s.tracer.suspended[first.pid := first.status]);
            Handle(c, held, w) ==
            (Handle(c, s.tracer, w).0, [Resume(first.pid, Onward(c), 0), Resume(w.pid, Onward(c), SIGTRAP)])
  {
    SpawnPermitted(c, s, w, false);
    SpawnTold(c, s, w, false);
    assert s.tracer.suspended[first.pid := first.status] - {first.pid} == s.tracer.suspended;
    assert s.tracer.suspended - {first.pid} == s.tracer.suspended;
  }
}
