/** Whose files they are: where the names and the processes in the report come from. */
module Provenance {
  import opened Words
  import opened FileState
  import opened Storage
  import opened Syscalls
  import opened World
  import opened Invariants
  import opened Ownership
  import opened Ledger
  import opened Flags
  import Chains
  import Seccomp

  // ---------- names ----------

  /** A file descends from one that was inherited, or from one that was opened in some step of the run. */
  datatype Origin = Probed(fd: nat) | OpenedIn(step: nat)

  /** In a fork or an exec, the slot of `g` in the table of `pid` becomes the slot of `f` in that of `pid'`. */
  ghost predicate CopiedAt(w: World, pid: Pid, w': World, pid': Pid, fd: nat, g: nat, f: nat) {
    && Closed(w) && pid in w.procMap && SlotAt(w, pid, fd) == Some(g)
    && Closed(w') && pid' in w'.procMap && SlotAt(w', pid', fd) == Some(f)
  }

  ghost predicate Descends(worlds: seq<World>, run: seq<Moment>, n: nat, f: nat, o: Origin)
    requires Trace(worlds, run) && n <= |run|
    decreases n
  {
    f < |worlds[n].files| &&
    if n == 0 then
      o.Probed? && |worlds[0].tables| > 0 && Slot(worlds[0].tables[0].fds, o.fd) == Some(f)
    else if f < |worlds[n - 1].files| then
      Descends(worlds, run, n - 1, f, o)
    else
      var i, w, w' := n - 1, worlds[n - 1], worlds[n];
      match run[i].event
      case SyscallExit(_, _, _) => o == OpenedIn(i)
      case Process(parent, child, _, _) =>
        exists fd: nat, g: nat :: CopiedAt(w, parent, w', child, fd, g, f) && Descends(worlds, run, i, g, o)
      case Exec(pid, _, _) =>
        exists fd: nat, g: nat :: CopiedAt(w, pid, w', pid, fd, g, f) && Descends(worlds, run, i, g, o)
      case _ => false
  }

  /** The name that was found when the file was probed or opened. */
  function NameOf(probed: seq<Option<Inherited>>, run: seq<Moment>, o: Origin): Option<string> {
    match o
    case Probed(fd) => if fd < |probed| && probed[fd].Some? then Some(probed[fd].value.name) else None
    case OpenedIn(i) =>
      if i < |run| && run[i].event.SyscallExit? && OpensForWriting(run[i].event.regs) then Some(run[i].event.link) else None
  }

  lemma NamesStay(w: World, e: Event, fs: FileSystem, f: nat)
    requires Inv(w) && Permitted(w, e) && f < |w.files|
    ensures f < |Step(w, e, fs).files| && Step(w, e, fs).files[f].filename == w.files[f].filename
  {
    match e
    case SyscallExit(pid, regs, link) => ApplyNames(w, w.procMap[pid], Decode(regs), link, fs, f);
    case _ =>
  }

  lemma ApplyNames(w: World, t: nat, op: Op, link: string, fs: FileSystem, f: nat)
    requires Closed(w) && t < |w.tables| && f < |w.files|
    ensures f < |Apply(w, t, op, link, fs).files| && Apply(w, t, op, link, fs).files[f].filename == w.files[f].filename
  {
    if op.Dup? {
      ClosedAfterDup(w, t, op.oldfd, op.newfd);
      assert DupFd(w, t, op.oldfd, op.newfd).files == w.files;
    }
  }

  /** Only an open adds a file in a system call. */
  lemma AddedByOpen(w: World, pid: Pid, r: Regs, link: string, fs: FileSystem)
    requires Closed(w) && pid in w.procMap
    ensures var w' := Step(w, SyscallExit(pid, r, link), fs);
            if OpensForWriting(r) then |w'.files| == |w.files| + 1 && w'.files[|w.files|].filename == link
            else |w'.files| == |w.files|
  {
    WriteFlags(FlagsArgument(r));
    if Decode(r).Dup? {
      ClosedAfterDup(w, w.procMap[pid], Decode(r).oldfd, Decode(r).newfd);
      assert DupFd(w, w.procMap[pid], Decode(r).oldfd, Decode(r).newfd).files == w.files;
    }
  }

  ghost predicate Named(worlds: seq<World>, run: seq<Moment>, probed: seq<Option<Inherited>>, n: nat, f: nat, o: Origin) {
    n < |worlds| && f < |worlds[n].files| && NameOf(probed, run, o) == Some(worlds[n].files[f].filename)
  }

  lemma OldNamed(worlds: seq<World>, run: seq<Moment>, probed: seq<Option<Inherited>>, n: nat, f: nat, o: Origin)
    requires Trace(worlds, run) && 0 < n <= |run| && Inv(worlds[0]) && Named(worlds, run, probed, n - 1, f, o)
    ensures Named(worlds, run, probed, n, f, o)
  {
    InvInEveryRun(worlds, run, n - 1);
    assert NextAt(worlds, run, n - 1);
    NamesStay(worlds[n - 1], run[n - 1].event, run[n - 1].fs, f);
  }

  lemma OpenedNamed(worlds: seq<World>, run: seq<Moment>, probed: seq<Option<Inherited>>, n: nat, f: nat)
    requires Trace(worlds, run) && 0 < n <= |run| && run[n - 1].event.SyscallExit?
    requires |worlds[n - 1].files| <= f < |worlds[n].files|
    ensures Named(worlds, run, probed, n, f, OpenedIn(n - 1))
  {
    assert NextAt(worlds, run, n - 1);
    var e := run[n - 1].event;
    AddedByOpen(worlds[n - 1], e.pid, e.regs, e.link, run[n - 1].fs);
  }

  lemma CopiedNamed(worlds: seq<World>, run: seq<Moment>, probed: seq<Option<Inherited>>, n: nat, f: nat, o: Origin,
                    pid: Pid, pid': Pid, fd: nat, g: nat)
    requires Trace(worlds, run) && 0 < n <= |run| && Inv(worlds[0]) && Named(worlds, run, probed, n - 1, g, o)
    requires var e := run[n - 1].event;
             (e.Process? && pid == e.parent && pid' == e.child) || (e.Exec? && pid == e.pid == pid')
    requires CopiedAt(worlds[n - 1], pid, worlds[n], pid', fd, g, f)
    ensures Named(worlds, run, probed, n, f, o)
  {
    assert Inv(worlds[n - 1]) by { InvInEveryRun(worlds, run, n - 1); }
    assert Next(worlds[n - 1], run[n - 1], worlds[n]) by { assert NextAt(worlds, run, n - 1); }
    CopyIsNamed(worlds[n - 1], run[n - 1], worlds[n], pid, pid', fd, g, f);
  }

  /** In every run, a file has the name that its origin was found to have, through any forks and execs. */
  lemma NamesDescend(worlds: seq<World>, run: seq<Moment>, tracee: Pid, comm: string, cmdline: string,
                     probed: seq<Option<Inherited>>, fs: FileSystem, n: nat, f: nat, o: Origin)
    requires Trace(worlds, run) && n <= |run| && worlds[0] == RegisterTracee(tracee, comm, cmdline, probed, fs)
    requires Descends(worlds, run, n, f, o)
    ensures NameOf(probed, run, o) == Some(worlds[n].files[f].filename)
  {
    assert Inv(worlds[0]) by { StartHasInv(tracee, comm, cmdline, probed, fs); }
    assert StartNamed(worlds[0], probed) by { StartIsNamed(tracee, comm, cmdline, probed, fs); }
    NamesDescendFrom(worlds, run, probed, n, f, o);
  }

  ghost predicate StartNamed(w: World, probed: seq<Option<Inherited>>) {
    |w.tables| > 0 && forall f: nat, fd: nat :: f < |w.files| && Slot(w.tables[0].fds, fd) == Some(f) ==>
      fd < |probed| && probed[fd].Some? && probed[fd].value.name == w.files[f].filename
  }

  lemma StartIsNamed(tracee: Pid, comm: string, cmdline: string, probed: seq<Option<Inherited>>, fs: FileSystem)
    ensures StartNamed(RegisterTracee(tracee, comm, cmdline, probed, fs), probed)
  {
    var w := RegisterTracee(tracee, comm, cmdline, probed, fs);
    OneTable(tracee, comm, cmdline, probed, fs);
    forall f: nat, fd: nat | f < |w.files| && Slot(w.tables[0].fds, fd) == Some(f)
      ensures fd < |probed| && probed[fd].Some? && probed[fd].value.name == w.files[f].filename
    {
      StartNames(tracee, comm, cmdline, probed, fs, f, fd);
    }
  }

  lemma {:induction false} NamesDescendFrom(worlds: seq<World>, run: seq<Moment>, probed: seq<Option<Inherited>>, n: nat, f: nat,
                                            o: Origin)
    requires Trace(worlds, run) && n <= |run| && Inv(worlds[0]) && StartNamed(worlds[0], probed)
    requires Descends(worlds, run, n, f, o)
    ensures Named(worlds, run, probed, n, f, o)
    decreases n
  {
    if n > 0 {
      if f < |worlds[n - 1].files| {
        NamesDescendFrom(worlds, run, probed, n - 1, f, o);
        OldNamed(worlds, run, probed, n, f, o);
      } else if run[n - 1].event.SyscallExit? {
        OpenedNamed(worlds, run, probed, n, f);
      } else {
        var pid, pid', fd, g := CopiedFrom(worlds, run, n, f, o);
        NamesDescendFrom(worlds, run, probed, n - 1, g, o);
        CopiedNamed(worlds, run, probed, n, f, o, pid, pid', fd, g);
      }
    }
  }

  lemma CopiedFrom(worlds: seq<World>, run: seq<Moment>, n: nat, f: nat, o: Origin) returns (pid: Pid, pid': Pid, fd: nat, g: nat)
    requires Trace(worlds, run) && 0 < n <= |run| && Descends(worlds, run, n, f, o)
    requires |worlds[n - 1].files| <= f && !run[n - 1].event.SyscallExit?
    ensures var e := run[n - 1].event;
            (e.Process? && pid == e.parent && pid' == e.child) || (e.Exec? && pid == e.pid == pid')
    ensures CopiedAt(worlds[n - 1], pid, worlds[n], pid', fd, g, f) && Descends(worlds, run, n - 1, g, o)
  {
    var i, w, w' := n - 1, worlds[n - 1], worlds[n];
    match run[i].event
    case Process(parent, child, _, _) =>
      pid, pid' := parent, child;
      fd, g :| CopiedAt(w, pid, w', pid', fd, g, f) && Descends(worlds, run, i, g, o);
    case Exec(p, _, _) =>
      pid, pid' := p, p;
      fd, g :| CopiedAt(w, pid, w', pid', fd, g, f) && Descends(worlds, run, i, g, o);
  }

  lemma StartNames(tracee: Pid, comm: string, cmdline: string, probed: seq<Option<Inherited>>, fs: FileSystem, f: nat, fd: nat)
    requires var w := RegisterTracee(tracee, comm, cmdline, probed, fs);
             |w.tables| > 0 && f < |w.files| && Slot(w.tables[0].fds, fd) == Some(f)
    ensures fd < |probed| && probed[fd].Some?
    ensures RegisterTracee(tracee, comm, cmdline, probed, fs).files[f].filename == probed[fd].value.name
  {
    AtStart(tracee, comm, cmdline, probed, fs, fd);
    OneTable(tracee, comm, cmdline, probed, fs);
  }

  lemma CopyIsNamed(w: World, m: Moment, w': World, pid: Pid, pid': Pid, fd: nat, g: nat, f: nat)
    requires Inv(w) && Next(w, m, w') && CopiedAt(w, pid, w', pid', fd, g, f)
    requires (m.event.Process? && pid == m.event.parent && pid' == m.event.child) || (m.event.Exec? && pid == m.event.pid == pid')
    ensures g < |w.files| && f < |w'.files| && w'.files[f].filename == w.files[g].filename
  {
    match m.event
    case Process(parent, child, comm, cmdline) => AfterFork(w, parent, child, comm, cmdline, m.fs, fd);
    case Exec(p, comm, cmdline) => AfterExec(w, p, comm, cmdline, m.fs, fd);
  }

  lemma OneTable(pid: Pid, comm: string, cmdline: string, probed: seq<Option<Inherited>>, fs: FileSystem)
    ensures var w := RegisterTracee(pid, comm, cmdline, probed, fs);
            |w.tables| == 1 && w.procMap == map[pid := 0]
  {
    FillFdsOnlyFiles(NewTracee(pid, comm, cmdline, |probed|), 0, probed, |probed|, fs);
  }

  /** Every file descends from somewhere. */
  lemma {:induction false} EveryFileDescends(worlds: seq<World>, run: seq<Moment>, tracee: Pid, comm: string, cmdline: string,
                                             probed: seq<Option<Inherited>>, fs: FileSystem, n: nat, f: nat)
      returns (o: Origin)
    requires Trace(worlds, run) && n <= |run| && worlds[0] == RegisterTracee(tracee, comm, cmdline, probed, fs)
    requires f < |worlds[n].files|
    ensures Descends(worlds, run, n, f, o)
    decreases n
  {
    StartHasInv(tracee, comm, cmdline, probed, fs);
    if n == 0 {
      NothingIsGone(tracee, comm, cmdline, probed, fs);
      var fd := SlotOf(worlds[0], f);
      OneTable(tracee, comm, cmdline, probed, fs);
      o := Probed(fd);
    } else {
      InvInEveryRun(worlds, run, n - 1);
      assert NextAt(worlds, run, n - 1);
      var w, w', e := worlds[n - 1], worlds[n], run[n - 1].event;
      if f < |w.files| {
        o := EveryFileDescends(worlds, run, tracee, comm, cmdline, probed, fs, n - 1, f);
      } else if e.SyscallExit? {
        o := OpenedIn(n - 1);
      } else {
        var pid, pid', fd, g := NewFileIsCopy(w, run[n - 1], w', f);
        o := EveryFileDescends(worlds, run, tracee, comm, cmdline, probed, fs, n - 1, g);
        assert CopiedAt(w, pid, w', pid', fd, g, f) && Descends(worlds, run, n - 1, g, o);
      }
    }
  }

  lemma NothingIsGone(pid: Pid, comm: string, cmdline: string, probed: seq<Option<Inherited>>, fs: FileSystem)
    ensures var w := RegisterTracee(pid, comm, cmdline, probed, fs);
            Inv(w) && w.log == [] && w.lost == {}
  {
    StartHasInv(pid, comm, cmdline, probed, fs);
    FillFdsOnlyFiles(NewTracee(pid, comm, cmdline, |probed|), 0, probed, |probed|, fs);
  }

  /** A file that was neither handed over nor lost is found in its table. */
  lemma SlotOf(w: World, f: nat) returns (fd: nat)
    requires Inv(w) && f < |w.files| && f !in Logged(w.log) && f !in w.lost
    ensures w.homes[f] < |w.tables| && Slot(w.tables[w.homes[f]].fds, fd) == Some(f)
  {
    assert Live(w, f);
    fd :| 0 <= fd < |w.tables[w.homes[f]].fds| && w.tables[w.homes[f]].fds[fd] == Some(f);
  }

  /** A file that an event other than a system call adds is a copy of another one, at the same descriptor. */
  lemma NewFileIsCopy(w: World, m: Moment, w': World, f: nat) returns (pid: Pid, pid': Pid, fd: nat, g: nat)
    requires Inv(w) && Next(w, m, w') && !m.event.SyscallExit? && |w.files| <= f < |w'.files|
    ensures (m.event.Process? && pid == m.event.parent && pid' == m.event.child) || (m.event.Exec? && pid == m.event.pid == pid')
    ensures CopiedAt(w, pid, w', pid', fd, g, f) && g < |w.files|
  {
    StepKeepsInv(w, m.event, m.fs);
    match m.event
    case Process(parent, child, comm, cmdline) =>
      pid, pid' := parent, child;
      NewIsLive(w, m, w', child, f);
      fd := SlotOf(w', f);
      AfterFork(w, parent, child, comm, cmdline, m.fs, fd);
      g := SlotAt(w, pid, fd).value;
    case Exec(p, comm, cmdline) =>
      pid, pid' := p, p;
      NewIsLive(w, m, w', p, f);
      fd := SlotOf(w', f);
      AfterExec(w, p, comm, cmdline, m.fs, fd);
      g := SlotAt(w, pid, fd).value;
  }

  lemma NewIsLive(w: World, m: Moment, w': World, pid: Pid, f: nat)
    requires Inv(w) && Next(w, m, w') && |w.files| <= f < |w'.files|
    requires (m.event.Process? && pid == m.event.child) || (m.event.Exec? && pid == m.event.pid)
    ensures Inv(w') && pid in w'.procMap && w'.homes[f] == w'.procMap[pid] && f !in Logged(w'.log) && f !in w'.lost
  {
    StepKeepsInv(w, m.event, m.fs);
    var former := w.tables[w.procMap[if m.event.Exec? then pid else m.event.parent]];
    var info := if m.event.Exec? then ProcInfo(pid, former.info.ppid, m.event.comm, m.event.cmdline)
                else ProcInfo(pid, m.event.parent, m.event.comm, m.event.cmdline);
    var sources := CopySources(w, former.fds, m.event.Exec?, m.fs);
    var copied := WithTable(w, sources, info);
    WithTableKeepsBooks(w, sources, info);
    assert f !in Logged(copied.log);
    assert Live(copied, f);
    assert w'.tables[|w.tables|] == copied.tables[|w.tables|];
    assert Live(w', f);
  }

  /** So every entry of the report carries the name of its origin, and every file has one. */
  lemma EntriesAreNamed(worlds: seq<World>, run: seq<Moment>, tracee: Pid, comm: string, cmdline: string,
                        probed: seq<Option<Inherited>>, fs: FileSystem, n: nat, k: nat) returns (o: Origin)
    requires Trace(worlds, run) && n <= |run| && worlds[0] == RegisterTracee(tracee, comm, cmdline, probed, fs)
    requires k < |worlds[n].log|
    ensures Descends(worlds, run, n, worlds[n].log[k].id, o)
    ensures NameOf(probed, run, o) == Some(worlds[n].log[k].out.filename)
  {
    assert worlds[n].log[k].id < |worlds[n].files| by {
      StartHasInv(tracee, comm, cmdline, probed, fs);
      InvInEveryRun(worlds, run, n);
    }
    o := EveryFileDescends(worlds, run, tracee, comm, cmdline, probed, fs, n, worlds[n].log[k].id);
    NamesDescend(worlds, run, tracee, comm, cmdline, probed, fs, n, worlds[n].log[k].id, o);
    assert worlds[n].log[k].out.filename == worlds[n].files[worlds[n].log[k].id].filename by {
      StartHasInv(tracee, comm, cmdline, probed, fs);
      InvInEveryRun(worlds, run, n);
    }
  }

  // ---------- processes ----------

  /**
   * What is known of a process after the first `n` steps: what was found when it was created, or when it last
   * executed a program. Its parent is the thread that created it.
   */
  function InfoOf(tracee: Pid, comm: string, cmdline: string, run: seq<Moment>, n: nat, pid: Pid): ProcInfo
    requires n <= |run|
  {
    if n == 0 then ProcInfo(tracee, 0, comm, cmdline)
    else
      var before := InfoOf(tracee, comm, cmdline, run, n - 1, pid);
      match run[n - 1].event
      case Process(parent, child, comm', cmdline') => if child == pid then ProcInfo(pid, parent, comm', cmdline') else before
      case Exec(p, comm', cmdline') => if p == pid then ProcInfo(pid, before.ppid, comm', cmdline') else before
      case _ => before
  }

  ghost predicate Described(w: World, run: seq<Moment>, n: nat, tracee: Pid, comm: string, cmdline: string) {
    && n <= |run| && Closed(w) && w.leaders <= w.procMap.Keys
    && forall l :: l in w.leaders ==> w.tables[w.procMap[l]].info == InfoOf(tracee, comm, cmdline, run, n, l)
  }

  lemma DescribedNext(w: World, run: seq<Moment>, i: nat, w': World, tracee: Pid, comm: string, cmdline: string)
    requires i < |run| && Inv(w) && Next(w, run[i], w') && Described(w, run, i, tracee, comm, cmdline)
    ensures Inv(w') && Described(w', run, i + 1, tracee, comm, cmdline)
  {
    StepKeepsInv(w, run[i].event, run[i].fs);
    match run[i].event
    case SyscallExit(pid, regs, link) => ApplyFrame(w, w.procMap[pid], Decode(regs), link, run[i].fs);
    case _ =>
  }

  /** In every run, each process has the description of the last event that gave it one. */
  lemma {:induction false} LeadersAreDescribed(worlds: seq<World>, run: seq<Moment>, tracee: Pid, comm: string, cmdline: string,
                                               probed: seq<Option<Inherited>>, fs: FileSystem, n: nat)
    requires Trace(worlds, run) && n <= |run| && worlds[0] == RegisterTracee(tracee, comm, cmdline, probed, fs)
    ensures Inv(worlds[n]) && Described(worlds[n], run, n, tracee, comm, cmdline)
  {
    if n == 0 {
      AtStart(tracee, comm, cmdline, probed, fs, 0);
    } else {
      LeadersAreDescribed(worlds, run, tracee, comm, cmdline, probed, fs, n - 1);
      assert NextAt(worlds, run, n - 1);
      DescribedNext(worlds[n - 1], run, n - 1, worlds[n], tracee, comm, cmdline);
    }
  }

  /** The thread that an event is about. */
  function Actor(e: Event): Pid {
    match e
    case Thread(pid, _) => pid
    case Process(parent, _, _, _) => parent
    case Exec(pid, _, _) => pid
    case Vanish(pid) => pid
    case SyscallExit(pid, _, _) => pid
  }

  lemma {:induction false} TornDescribed(w: World, t: nat, i: nat)
    requires Closed(w) && t < |w.tables| && i <= |w.tables[t].fds|
    ensures forall k :: |w.log| <= k < |TearDownFrom(w, t, i).log| ==> TearDownFrom(w, t, i).log[k].out.pinfo == w.tables[t].info
    decreases |w.tables[t].fds| - i
  {
    Chains.TearDownFromLogs(w, t, i);
    if i < |w.tables[t].fds| {
      if w.tables[t].fds[i].Some? {
        TornDescribed(TearDown(w, t, i), t, i + 1);
        Chains.TearDownFromLogs(TearDown(w, t, i), t, i + 1);
      } else {
        TornDescribed(w, t, i + 1);
      }
    }
  }

  /** What an event hands over carries the description of the process that the event is about. */
  lemma HandedDescribed(w: World, e: Event, fs: FileSystem, k: nat)
    requires Inv(w) && Permitted(w, e) && |w.log| <= k < |Step(w, e, fs).log|
    ensures Actor(e) in w.procMap && w.procMap[Actor(e)] in LeaderTables(w)
    ensures Step(w, e, fs).log[k].out.pinfo == w.tables[w.procMap[Actor(e)]].info
  {
    match e
    case Vanish(pid) =>
      assert pid in w.leaders;
      TornDescribed(w, w.procMap[pid], 0);
    case Exec(pid, comm, cmdline) => ExecDescribed(w, pid, comm, cmdline, fs, k);
    case SyscallExit(pid, regs, link) => ApplyDescribed(w, w.procMap[pid], Decode(regs), link, fs, k);
    case _ =>
  }

  lemma ExecDescribed(w: World, pid: Pid, comm: string, cmdline: string, fs: FileSystem, k: nat)
    requires Inv(w) && pid in w.leaders && |w.log| <= k < |RegisterExec(w, pid, comm, cmdline, fs).log|
    ensures RegisterExec(w, pid, comm, cmdline, fs).log[k].out.pinfo == w.tables[w.procMap[pid]].info
  {
    var former := w.tables[w.procMap[pid]];
    var sources, info := CopySources(w, former.fds, true, fs), ProcInfo(pid, former.info.ppid, comm, cmdline);
    ClosedWithTable(w, sources, info);
    TornDescribed(WithTable(w, sources, info), w.procMap[pid], 0);
  }

  lemma ApplyDescribed(w: World, t: nat, op: Op, link: string, fs: FileSystem, k: nat)
    requires Closed(w) && t < |w.tables| && |w.log| <= k < |Apply(w, t, op, link, fs).log|
    ensures Apply(w, t, op, link, fs).log[k].out.pinfo == w.tables[t].info
  {
    if op.Dup? { ClosedAfterDup(w, t, op.oldfd, op.newfd); }
  }

  /** Every entry of the log describes the process that handed it over, as it was known at that time. */
  lemma {:induction false} EntriesAreDescribed(worlds: seq<World>, run: seq<Moment>, tracee: Pid, comm: string, cmdline: string,
                                               probed: seq<Option<Inherited>>, fs: FileSystem, n: nat, k: nat)
      returns (i: nat, l: Pid)
    requires Trace(worlds, run) && n <= |run| && worlds[0] == RegisterTracee(tracee, comm, cmdline, probed, fs)
    requires k < |worlds[n].log|
    ensures i < n && l in worlds[i].leaders && l in worlds[i].procMap && Actor(run[i].event) in worlds[i].procMap
    ensures worlds[i].procMap[l] == worlds[i].procMap[Actor(run[i].event)]
    ensures worlds[n].log[k].out.pinfo == InfoOf(tracee, comm, cmdline, run, i, l)
    ensures |worlds[i].log| <= k < |worlds[i + 1].log|
  {
    NothingIsGone(tracee, comm, cmdline, probed, fs);
    assert n > 0;
    LeadersAreDescribed(worlds, run, tracee, comm, cmdline, probed, fs, n - 1);
    assert NextAt(worlds, run, n - 1);
    var w, m := worlds[n - 1], run[n - 1];
    Chains.StepLogs(w, m.event, m.fs);
    if k < |w.log| {
      i, l := EntriesAreDescribed(worlds, run, tracee, comm, cmdline, probed, fs, n - 1, k);
    } else {
      HandedDescribed(w, m.event, m.fs, k);
      i := n - 1;
      l :| l in w.leaders && w.procMap[l] == w.procMap[Actor(m.event)];
    }
  }

  // ---------- the final drain ----------

  /** Nothing but ends of processes and threads, from some moment on. */
  ghost predicate OnlyVanishes(run: seq<Moment>, from: nat) {
    forall i :: from <= i < |run| ==> run[i].event.Vanish?
  }

  /** A run that can still be drained. */
  ghost predicate Drainable(worlds: seq<World>, run: seq<Moment>, order: seq<Pid>) {
    Trace(worlds, run) && Inv(worlds[|run|]) && Lists(order, worlds[|run|].procMap.Keys)
  }

  /** Draining is a run of its own, in which one process after the other vanishes. */
  lemma {:induction false} DrainIsRun(worlds: seq<World>, run: seq<Moment>, order: seq<Pid>) returns (worlds': seq<World>, run': seq<Moment>)
    requires Drainable(worlds, run, order)
    ensures Trace(worlds', run') && run <= run' && worlds'[0] == worlds[0] && OnlyVanishes(run', |run|)
    ensures worlds'[|run'|] == Drain(worlds[|run|], order)
    decreases |order|
  {
    worlds', run' := worlds, run;
    if order != [] {
      var worlds1, run1 := FirstVanishes(worlds, run, order);
      worlds', run' := DrainIsRun(worlds1, run1, order[1..]);
      StillOnlyVanishes(run, run1, run');
    }
  }

  lemma StillOnlyVanishes(run: seq<Moment>, run1: seq<Moment>, run': seq<Moment>)
    requires run <= run1 <= run' && OnlyVanishes(run1, |run|) && OnlyVanishes(run', |run1|)
    ensures run <= run' && OnlyVanishes(run', |run|)
  {
    forall i | |run| <= i < |run'| ensures run'[i].event.Vanish? {
      if i < |run1| { assert run'[i] == run1[i]; }
    }
  }

  lemma FirstVanishes(worlds: seq<World>, run: seq<Moment>, order: seq<Pid>) returns (worlds': seq<World>, run': seq<Moment>)
    requires Drainable(worlds, run, order) && order != []
    ensures Drainable(worlds', run', order[1..]) && run <= run' && worlds'[0] == worlds[0] && OnlyVanishes(run', |run|)
    ensures Drain(worlds[|run|], order) == Drain(worlds'[|run'|], order[1..])
  {
    var w, m := worlds[|run|], Moment(Vanish(order[0]), map[]);
    assert order[0] in order;
    ListsRest(order, w.procMap.Keys);
    VanishKeepsInv(w, order[0]);
    var w' := VanishProcess(w, order[0]);
    assert w'.procMap.Keys == w.procMap.Keys - {order[0]};
    Seccomp.TraceSnoc(worlds, run, m, w');
    worlds', run' := worlds + [w'], run + [m];
  }

  /** So all that is handed over in the end is named and described, whether it was before or in the drain. */
  lemma DrainedEntries(worlds: seq<World>, run: seq<Moment>, tracee: Pid, comm: string, cmdline: string,
                       probed: seq<Option<Inherited>>, fs: FileSystem, order: seq<Pid>, k: nat)
      returns (worlds': seq<World>, run': seq<Moment>, o: Origin, i: nat, l: Pid)
    requires Trace(worlds, run) && worlds[0] == RegisterTracee(tracee, comm, cmdline, probed, fs)
    requires Inv(worlds[|run|]) && Enumerates(order, worlds[|run|].procMap.Keys) && k < |Drain(worlds[|run|], order).log|
    ensures Trace(worlds', run') && run <= run' && OnlyVanishes(run', |run|)
    ensures var e := Drain(worlds[|run|], order).log[k];
            && Descends(worlds', run', |run'|, e.id, o) && NameOf(probed, run', o) == Some(e.out.filename)
            && i < |run'| && l in worlds'[i].leaders && e.out.pinfo == InfoOf(tracee, comm, cmdline, run', i, l)
  {
    worlds', run' := DrainIsRun(worlds, run, order);
    o := EntriesAreNamed(worlds', run', tracee, comm, cmdline, probed, fs, |run'|, k);
    i, l := EntriesAreDescribed(worlds', run', tracee, comm, cmdline, probed, fs, |run'|, k);
  }
}
