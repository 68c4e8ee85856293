/** What holds of the tracked processes in every state of every run. */
module Invariants {
  import opened Words
  import opened FileState
  import opened Storage
  import opened Syscalls
  import opened World

  /** A slot refers to a file only in the table the file was created for. */
  ghost predicate Owned(w: World) {
    && Closed(w)
    && forall t, i :: 0 <= t < |w.tables| && 0 <= i < |w.tables[t].fds| && w.tables[t].fds[i].Some? ==>
         w.homes[w.tables[t].fds[i].value] == t
  }

  ghost predicate Live(w: World, f: nat)
    requires Closed(w) && f < |w.files|
  {
    Some(f) in w.tables[w.homes[f]].fds
  }

  /** What the store is to be told about a file. */
  function Record(w: World, f: nat): OutputFile
    requires Closed(w) && f < |w.files|
  {
    OutputFile(w.files[f].OutputSize(), w.files[f].filename, w.tables[w.homes[f]].info)
  }

  ghost function Logged(log: seq<Entry>): set<nat> {
    set e | e in log :: e.id
  }

  /** No file is handed over twice, and what was handed over is still right. */
  ghost predicate Settled(w: World)
    requires Closed(w)
  {
    && (forall i :: 0 <= i < |w.log| ==> w.log[i].id < |w.files| && w.log[i].out == Record(w, w.log[i].id))
    && (forall i, j :: 0 <= i < j < |w.log| ==> w.log[i].id != w.log[j].id)
  }

  /** Every file ever opened is still referred to, or was handed over, or is lost, and only one of these. */
  ghost predicate Accounted(w: World)
    requires Closed(w)
  {
    && (forall f :: 0 <= f < |w.files| ==> (f in Logged(w.log) <==> !Live(w, f) && f !in w.lost))
    && (forall f :: f in w.lost ==> f < |w.files| && !Live(w, f))
  }

  ghost function LeaderTables(w: World): set<nat>
    requires Closed(w) && w.leaders <= w.procMap.Keys
  {
    set l | l in w.leaders :: w.procMap[l]
  }

  /** Different group leaders have different tables. */
  ghost predicate Led(w: World)
    requires Closed(w)
  {
    && w.leaders <= w.procMap.Keys
    && forall l, m :: l in w.leaders && m in w.leaders && w.procMap[l] == w.procMap[m] ==> l == m
  }

  /** Whatever is still referred to belongs to a leader, whose end will tear it down. */
  ghost predicate NoOrphans(w: World)
    requires Closed(w) && w.leaders <= w.procMap.Keys
  {
    forall t, i :: 0 <= t < |w.tables| && 0 <= i < |w.tables[t].fds| && w.tables[t].fds[i].Some? ==>
      t in LeaderTables(w)
  }

  ghost predicate Books(w: World) {
    Owned(w) && Settled(w) && Accounted(w)
  }

  ghost predicate Inv(w: World) {
    Books(w) && Led(w) && NoOrphans(w)
  }

  // ---------- clearing and setting slots ----------

  lemma OtherSlots(fds: seq<Option<nat>>, i: nat, v: Option<nat>, x: Option<nat>)
    requires i < |fds| && x != fds[i] && x != v
    ensures x in fds[i := v] <==> x in fds
  {
    if x in fds {
      var j :| 0 <= j < |fds| && fds[j] == x;
      assert fds[i := v][j] == x;
    }
  }

  lemma LoggedSnoc(log: seq<Entry>, e: Entry)
    ensures Logged(log + [e]) == Logged(log) + {e.id}
  {
    assert forall x :: x in log + [e] <==> x in log || x == e;
    assert e in log + [e];
  }

  lemma TearDownKeepsBooks(w: World, t: nat, i: nat)
    requires Books(w) && t < |w.tables| && i < |w.tables[t].fds| && w.tables[t].fds[i].Some?
    ensures Books(TearDown(w, t, i))
  {
    assert Owned(TearDown(w, t, i)) && Settled(TearDown(w, t, i)) by { TearDownSettles(w, t, i); }
    TearDownAccounts(w, t, i);
  }

  lemma TearDownSettles(w: World, t: nat, i: nat)
    requires Books(w) && t < |w.tables| && i < |w.tables[t].fds| && w.tables[t].fds[i].Some?
    ensures Owned(TearDown(w, t, i)) && Settled(TearDown(w, t, i))
  {
    var f := w.tables[t].fds[i].value;
    assert w.tables[t].fds[i] in w.tables[t].fds;
    assert Live(w, f);
    forall j | 0 <= j < |w.log| ensures w.log[j].id != f {
      assert w.log[j] in w.log;
    }
  }

  lemma TearDownAccounts(w: World, t: nat, i: nat)
    requires Books(w) && t < |w.tables| && i < |w.tables[t].fds| && w.tables[t].fds[i].Some?
    requires Closed(TearDown(w, t, i))
    ensures Accounted(TearDown(w, t, i))
  {
    var f, w' := w.tables[t].fds[i].value, TearDown(w, t, i);
    assert w.tables[t].fds[i] in w.tables[t].fds;
    LoggedSnoc(w.log, Entry(f, Record(w, f)));
    forall g | 0 <= g < |w.files| && g != f ensures Live(w', g) <==> Live(w, g) {
      if w.homes[g] == t { OtherSlots(w.tables[t].fds, i, None, Some(g)); }
    }
  }

  lemma {:induction false} TearDownFromKeepsBooks(w: World, t: nat, i: nat)
    requires Books(w) && t < |w.tables| && i <= |w.tables[t].fds|
    ensures Books(TearDownFrom(w, t, i))
    decreases |w.tables[t].fds| - i
  {
    if i < |w.tables[t].fds| {
      if w.tables[t].fds[i].Some? {
        TearDownKeepsBooks(w, t, i);
        TearDownFromKeepsBooks(TearDown(w, t, i), t, i + 1);
      } else {
        TearDownFromKeepsBooks(w, t, i + 1);
      }
    }
  }

  // ---------- changes to files ----------

  lemma ChangedFileKeepsBooks(w: World, f: nat, file: FileRec)
    requires Books(w) && f < |w.files| && Live(w, f)
    ensures Books(w.(files := w.files[f := file]))
  {
    var w' := w.(files := w.files[f := file]);
    forall i | 0 <= i < |w.log| ensures w.log[i].id != f && w'.log[i].out == Record(w', w'.log[i].id) {
      assert w.log[i] in w.log;
    }
  }

  // ---------- new references ----------

  /** A slot that held nothing, or one reference of several, may be made to refer to a live file of its table. */
  lemma SlotSetKeepsBooks(w: World, t: nat, i: nat, f: nat)
    requires Books(w) && t < |w.tables| && i < |w.tables[t].fds| && w.tables[t].fds[i].None?
    requires f < |w.files| && w.homes[f] == t && Live(w, f)
    ensures Books(WithSlot(w, t, i, Some(f)))
  {
    var w' := WithSlot(w, t, i, Some(f));
    assert w'.tables[t].fds[i] in w'.tables[t].fds;
    forall g | 0 <= g < |w.files| ensures Live(w', g) <==> Live(w, g) {
      if w.homes[g] == t && g != f {
        OtherSlots(w.tables[t].fds, i, Some(f), Some(g));
      }
    }
  }

  lemma ResizedKeepsBooks(w: World, t: nat, size: nat)
    requires Books(w) && t < |w.tables|
    ensures Books(w.(tables := w.tables[t := w.tables[t].(fds := Resized(w.tables[t].fds, size))]))
  {
    var fds := w.tables[t].fds;
    var w' := w.(tables := w.tables[t := w.tables[t].(fds := Resized(fds, size))]);
    forall g | 0 <= g < |w.files| ensures Live(w', g) <==> Live(w, g) {
      if w.homes[g] == t {
        SameMembers(fds, size, g);
      }
    }
    forall i | 0 <= i < |Resized(fds, size)| && Resized(fds, size)[i].Some? ensures i < |fds| && Resized(fds, size)[i] == fds[i] {
      assert Slot(Resized(fds, size), i) == Slot(fds, i);
    }
  }

  lemma SameMembers(fds: seq<Option<nat>>, size: nat, g: nat)
    ensures Some(g) in Resized(fds, size) <==> Some(g) in fds
  {
    if i :| 0 <= i < |fds| && fds[i] == Some(g) {
      assert Slot(Resized(fds, size), i) == Slot(fds, i);
    }
    if i :| 0 <= i < |Resized(fds, size)| && Resized(fds, size)[i] == Some(g) {
      assert Slot(Resized(fds, size), i) == Slot(fds, i);
    }
  }

  // ---------- one system call ----------

  /** An open loses a file exactly when its slot holds the last reference to it. */
  lemma OpenKeepsBooks(w: World, t: nat, fd: nat, file: FileRec)
    requires Books(w) && t < |w.tables|
    ensures var w' := OpenWriteFile(w, t, fd, file);
            && Books(w') && |w'.files| == |w.files| + 1
            && forall g :: 0 <= g < |w.files| && Live(w, g) ==>
                 (!Live(w', g) && g !in Logged(w'.log) <==> Slot(w.tables[t].fds, fd) == Some(g) && !Spare(w, t, fd))
  {
    var w' := OpenWriteFile(w, t, fd, file);
    assert Owned(w') && Settled(w') by { OpenSettles(w, t, fd, file); }
    assert Accounted(w') by { OpenAccounts(w, t, fd, file); }
    forall g | 0 <= g < |w.files| && Live(w, g)
      ensures !Live(w', g) && g !in Logged(w'.log) <==> Slot(w.tables[t].fds, fd) == Some(g) && !Spare(w, t, fd)
    {
      OpenLoses(w, t, fd, file, g);
    }
  }

  /** The slots of the table after an open. */
  lemma OpenSlots(w: World, t: nat, fd: nat, file: FileRec, i: nat)
    requires t < |w.tables|
    ensures Slot(OpenWriteFile(w, t, fd, file).tables[t].fds, i) == if i == fd then Some(|w.files|) else Slot(w.tables[t].fds, i)
  {
    assert Slot(Resized(w.tables[t].fds, fd + 1), i) == Slot(w.tables[t].fds, i);
  }

  lemma OpenSettles(w: World, t: nat, fd: nat, file: FileRec)
    requires Books(w) && t < |w.tables|
    ensures Owned(OpenWriteFile(w, t, fd, file)) && Settled(OpenWriteFile(w, t, fd, file))
  {
    var fds := OpenWriteFile(w, t, fd, file).tables[t].fds;
    forall i | 0 <= i < |fds| ensures fds[i] == if i == fd then Some(|w.files|) else Slot(w.tables[t].fds, i) {
      OpenSlots(w, t, fd, file, i);
    }
  }

  lemma OpenAccounts(w: World, t: nat, fd: nat, file: FileRec)
    requires Books(w) && t < |w.tables| && Closed(OpenWriteFile(w, t, fd, file))
    ensures Accounted(OpenWriteFile(w, t, fd, file))
  {
    var w' := OpenWriteFile(w, t, fd, file);
    assert |w.files| !in Logged(w.log) && |w.files| !in w.lost;
    assert w'.tables[t].fds[fd] in w'.tables[t].fds;
    if Slot(w.tables[t].fds, fd).Some? { OpenOverwrites(w, t, fd, file); }
    forall g | 0 <= g < |w.files|
      ensures Live(w', g) <==> if Some(g) == Slot(w.tables[t].fds, fd) then Spare(w, t, fd) else Live(w, g)
    {
      OpenLeaves(w, t, fd, file, g);
    }
  }

  lemma OpenLoses(w: World, t: nat, fd: nat, file: FileRec, g: nat)
    requires Books(w) && t < |w.tables| && g < |w.files| && Live(w, g) && Closed(OpenWriteFile(w, t, fd, file))
    ensures var w' := OpenWriteFile(w, t, fd, file);
            !Live(w', g) && g !in Logged(w'.log) <==> Slot(w.tables[t].fds, fd) == Some(g) && !Spare(w, t, fd)
  {
    OpenLeaves(w, t, fd, file, g);
  }

  lemma OpenLeaves(w: World, t: nat, fd: nat, file: FileRec, g: nat)
    requires Books(w) && t < |w.tables| && g < |w.files|
    ensures var w' := OpenWriteFile(w, t, fd, file);
            && w'.homes[g] == w.homes[g] < |w'.tables|
            && (Some(g) in w'.tables[w.homes[g]].fds <==>
                if Some(g) == Slot(w.tables[t].fds, fd) then Spare(w, t, fd) else Live(w, g))
  {
    var fds := w.tables[t].fds;
    if Some(g) == Slot(fds, fd) {
      OpenOverwrites(w, t, fd, file);
    } else if w.homes[g] == t {
      SameMembers(fds, fd + 1, g);
      assert Slot(Resized(fds, fd + 1), fd) == Slot(fds, fd);
      OtherSlots(Resized(fds, fd + 1), fd, Some(|w.files|), Some(g));
    }
  }

  lemma OpenOverwrites(w: World, t: nat, fd: nat, file: FileRec)
    requires Books(w) && t < |w.tables| && Slot(w.tables[t].fds, fd).Some?
    ensures var g, w' := w.tables[t].fds[fd].value, OpenWriteFile(w, t, fd, file);
            g < |w.files| && w.homes[g] == t && Live(w, g) && (Some(g) in w'.tables[t].fds <==> Spare(w, t, fd))
  {
    var fds, f := w.tables[t].fds, |w.files|;
    assert fds[fd] in fds;
    OtherSlots(fds[fd := None], fd, Some(f), fds[fd]);
    assert fds[fd := None][fd := Some(f)] == OpenWriteFile(w, t, fd, file).tables[t].fds;
  }

  lemma CloseKeepsBooks(w: World, t: nat, fd: nat)
    requires Books(w) && t < |w.tables|
    ensures Books(CloseFd(w, t, fd))
  {
    if Slot(w.tables[t].fds, fd).Some? { TearDownKeepsBooks(w, t, fd); }
  }

  lemma ChangeKeepsBooks(w: World, t: nat, fd: nat, file: FileRec)
    requires Books(w) && t < |w.tables| && Slot(w.tables[t].fds, fd).Some?
    ensures Books(w.(files := w.files[w.tables[t].fds[fd].value := file]))
  {
    assert w.tables[t].fds[fd] in w.tables[t].fds;
    ChangedFileKeepsBooks(w, w.tables[t].fds[fd].value, file);
  }

  /** Making a free slot refer to what another slot of the table refers to. */
  lemma AssignKeepsBooks(w: World, t: nat, oldfd: nat, newfd: nat)
    requires Books(w) && t < |w.tables| && Slot(w.tables[t].fds, oldfd).Some? && Slot(w.tables[t].fds, newfd).None?
    ensures Books(w.(tables := w.tables[t := w.tables[t].(fds := Resized(w.tables[t].fds, newfd + 1)[newfd := w.tables[t].fds[oldfd]])]))
  {
    var fds := w.tables[t].fds;
    var grown := w.(tables := w.tables[t := w.tables[t].(fds := Resized(fds, newfd + 1))]);
    ResizedKeepsBooks(w, t, newfd + 1);
    assert Slot(grown.tables[t].fds, newfd) == None;
    assert Slot(grown.tables[t].fds, oldfd) == fds[oldfd];
    assert grown.tables[t].fds[oldfd] in grown.tables[t].fds;
    SlotSetKeepsBooks(grown, t, newfd, fds[oldfd].value);
    assert WithSlot(grown, t, newfd, fds[oldfd]) ==
           w.(tables := w.tables[t := w.tables[t].(fds := Resized(fds, newfd + 1)[newfd := fds[oldfd]])]);
  }

  lemma DupKeepsBooks(w: World, t: nat, oldfd: nat, newfd: nat)
    requires Books(w) && t < |w.tables|
    ensures Books(DupFd(w, t, oldfd, newfd))
    ensures DupSucceeds(w, t, oldfd, newfd) ==>
              Slot(DupFd(w, t, oldfd, newfd).tables[t].fds, newfd) == Slot(w.tables[t].fds, oldfd)
  {
    if oldfd != newfd {
      var closed := CloseFd(w, t, newfd);
      CloseKeepsBooks(w, t, newfd);
      if Slot(closed.tables[t].fds, oldfd).Some? {
        AssignKeepsBooks(closed, t, oldfd, newfd);
      }
    }
  }

  lemma ApplyKeepsBooks(w: World, t: nat, op: Op, link: string, fs: FileSystem)
    requires Books(w) && t < |w.tables|
    ensures Books(Apply(w, t, op, link, fs))
  {
    match op
    case Nop =>
    case Touch(fd, change) =>
      if Slot(w.tables[t].fds, fd).Some? { ChangeKeepsBooks(w, t, fd, Changed(w.files[w.tables[t].fds[fd].value], change)); }
    case OpenWrite(fd, flags) => OpenKeepsBooks(w, t, fd, Opened(fs, link, flags));
    case Close(fd) => CloseKeepsBooks(w, t, fd);
    case Dup(oldfd, newfd, flags) =>
      DupKeepsBooks(w, t, oldfd, newfd);
      var dup := DupFd(w, t, oldfd, newfd);
      if flags.Some? && DupSucceeds(w, t, oldfd, newfd) {
        var file := dup.files[dup.tables[t].fds[newfd].value];
        ChangeKeepsBooks(dup, t, newfd, file.SetCloexecFlag(HasFlag(flags.value, O_CLOEXEC)));
      }
  }

  /** A system call touches only the table of its process, and files are only added. */
  ghost predicate OnlyTable(w: World, w': World, t: nat)
    requires t < |w.tables|
  {
    && w'.procMap == w.procMap && w'.leaders == w.leaders
    && |w'.tables| == |w.tables| && w'.tables[t].info == w.tables[t].info
    && (forall u :: 0 <= u < |w.tables| && u != t ==> w'.tables[u] == w.tables[u])
    && |w.files| <= |w'.files| && w.homes <= w'.homes
  }

  lemma DupFrame(w: World, t: nat, oldfd: nat, newfd: nat)
    requires Closed(w) && t < |w.tables|
    ensures OnlyTable(w, DupFd(w, t, oldfd, newfd), t)
  {
    assert OnlyTable(w, CloseFd(w, t, newfd), t);
  }

  lemma ApplyFrame(w: World, t: nat, op: Op, link: string, fs: FileSystem)
    requires Closed(w) && t < |w.tables|
    ensures OnlyTable(w, Apply(w, t, op, link, fs), t)
  {
    if op.Dup? { DupFrame(w, t, op.oldfd, op.newfd); }
  }

  // ---------- new tables ----------

  /** A new table whose slots refer to new files only, one each. */
  lemma WithTableKeepsBooks(w: World, sources: seq<Option<FileRec>>, info: ProcInfo)
    requires Books(w)
    ensures Books(WithTable(w, sources, info))
  {
    var w' := WithTable(w, sources, info);
    var t := |w.tables|;
    ClosedWithTable(w, sources, info);
    forall f | 0 <= f < |w'.files| ensures f in Logged(w'.log) <==> !Live(w', f) && f !in w.lost {
      if f >= |w.files| {
        var i := PresentOnto(sources, f - |w.files|);
        assert w'.tables[t].fds[i] == Some(f);
        assert f !in Logged(w.log);
      } else {
        assert Live(w', f) <==> Live(w, f);
      }
    }
  }

  // ---------- processes ----------

  lemma VanishKeepsBooks(w: World, pid: Pid)
    requires Books(w) && Led(w) && pid in w.procMap
    ensures Books(VanishProcess(w, pid)) && Led(VanishProcess(w, pid))
  {
    if pid in w.leaders {
      TearDownFromKeepsBooks(w, w.procMap[pid], 0);
    }
  }

  lemma VanishKeepsInv(w: World, pid: Pid)
    requires Inv(w) && pid in w.procMap
    ensures Inv(VanishProcess(w, pid))
  {
    VanishKeepsBooks(w, pid);
    var w' := VanishProcess(w, pid);
    forall t, i | 0 <= t < |w'.tables| && 0 <= i < |w'.tables[t].fds| && w'.tables[t].fds[i].Some?
      ensures t in LeaderTables(w')
    {
      var l :| l in w.leaders && w.procMap[l] == t;
      assert l != pid;
      assert l in w'.leaders && w'.procMap[l] == t;
    }
  }

  lemma ProcessKeepsInv(w: World, parent: Pid, child: Pid, comm: string, cmdline: string, fs: FileSystem)
    requires Inv(w) && parent in w.procMap && child !in w.procMap
    ensures Inv(RegisterProcess(w, parent, child, comm, cmdline, fs))
  {
    var sources := CopySources(w, w.tables[w.procMap[parent]].fds, false, fs);
    WithTableKeepsBooks(w, sources, ProcInfo(child, parent, comm, cmdline));
    var w' := RegisterProcess(w, parent, child, comm, cmdline, fs);
    assert child in w'.leaders && w'.procMap[child] == |w.tables|;
    forall l | l in w.leaders ensures w'.procMap[l] in LeaderTables(w') {
      assert l in w'.leaders;
    }
  }

  lemma ExecKeepsInv(w: World, pid: Pid, comm: string, cmdline: string, fs: FileSystem)
    requires Inv(w) && pid in w.leaders
    ensures Inv(RegisterExec(w, pid, comm, cmdline, fs))
  {
    var former := w.tables[w.procMap[pid]];
    var sources := CopySources(w, former.fds, true, fs);
    var info := ProcInfo(pid, former.info.ppid, comm, cmdline);
    var copied := WithTable(w, sources, info);
    WithTableKeepsBooks(w, sources, info);
    VanishKeepsBooks(copied, pid);
    var w' := RegisterExec(w, pid, comm, cmdline, fs);
    assert pid in w'.leaders && w'.procMap[pid] == |w.tables|;
    forall l | l in w.leaders && l != pid ensures w.procMap[l] in LeaderTables(w') {
      assert l in w'.leaders;
    }
    forall t, i | 0 <= t < |w'.tables| && 0 <= i < |w'.tables[t].fds| && w'.tables[t].fds[i].Some?
      ensures t in LeaderTables(w')
    {
      if t < |w.tables| {
        assert t != w.procMap[pid];
        assert w.tables[t].fds[i].Some?;
      }
    }
  }

  lemma ThreadKeepsInv(w: World, pid: Pid, thread: Pid)
    requires Inv(w) && pid in w.procMap && thread !in w.leaders
    ensures Inv(w.(procMap := w.procMap[thread := w.procMap[pid]]))
  {
    var w' := w.(procMap := w.procMap[thread := w.procMap[pid]]);
    assert LeaderTables(w') == LeaderTables(w);
  }

  // ---------- runs ----------

  /**
   * What is expected of the world outside: a new thread does not have the pid of a group leader, a new process
   * has one that is not known, an exec is reported for a group leader, and only threads whose leader has not
   * gone finish system calls.
   */
  ghost predicate Permitted(w: World, e: Event)
    requires Closed(w) && w.leaders <= w.procMap.Keys
  {
    AssertionsHold(w, e) &&
    match e
    case Thread(_, thread) => thread !in w.leaders
    case Process(_, _, _, _) => true
    case Exec(pid, _, _) => pid in w.leaders
    case Vanish(_) => true
    case SyscallExit(pid, _, _) => w.procMap[pid] in LeaderTables(w)
  }

  lemma StepKeepsInv(w: World, e: Event, fs: FileSystem)
    requires Inv(w) && Permitted(w, e)
    ensures Inv(Step(w, e, fs))
  {
    match e
    case Thread(pid, thread) => ThreadKeepsInv(w, pid, thread);
    case Process(parent, child, comm, cmdline) => ProcessKeepsInv(w, parent, child, comm, cmdline, fs);
    case Exec(pid, comm, cmdline) => ExecKeepsInv(w, pid, comm, cmdline, fs);
    case Vanish(pid) => VanishKeepsInv(w, pid);
    case SyscallExit(pid, regs, link) =>
      var t := w.procMap[pid];
      ApplyKeepsBooks(w, t, Decode(regs), link, fs);
      ApplyFrame(w, t, Decode(regs), link, fs);
      assert LeaderTables(Step(w, e, fs)) == LeaderTables(w);
  }

  lemma FilesAreAdded(w: World, e: Event, fs: FileSystem)
    requires Inv(w) && Permitted(w, e)
    ensures |w.files| <= |Step(w, e, fs).files|
  {
    if e.SyscallExit? { ApplyFrame(w, w.procMap[e.pid], Decode(e.regs), e.link, fs); }
  }

  /** An open into a slot that holds nothing, by a process that has a leader. */
  lemma OpenAtFreeSlot(w: World, t: nat, fd: nat, file: FileRec)
    requires Inv(w) && t in LeaderTables(w) && Slot(w.tables[t].fds, fd).None?
    ensures var w' := OpenWriteFile(w, t, fd, file);
            Inv(w') && t in LeaderTables(w') && w'.lost == w.lost
    ensures forall i: nat :: i != fd ==> Slot(OpenWriteFile(w, t, fd, file).tables[t].fds, i) == Slot(w.tables[t].fds, i)
  {
    OpenKeepsBooks(w, t, fd, file);
    assert LeaderTables(OpenWriteFile(w, t, fd, file)) == LeaderTables(w);
    forall i: nat | i != fd ensures Slot(OpenWriteFile(w, t, fd, file).tables[t].fds, i) == Slot(w.tables[t].fds, i) {
      assert Slot(Resized(w.tables[t].fds, fd + 1), i) == Slot(w.tables[t].fds, i);
    }
  }

  lemma {:induction false} FillFdsKeepsInv(w: World, t: nat, probed: seq<Option<Inherited>>, n: nat, fs: FileSystem)
    requires Inv(w) && t in LeaderTables(w) && n <= |probed|
    requires forall fd: nat :: fd < n ==> Slot(w.tables[t].fds, fd).None?
    ensures Inv(FillFds(w, t, probed, n, fs)) && FillFds(w, t, probed, n, fs).lost == w.lost
    decreases n
  {
    if n > 0 {
      if probed[n - 1].None? {
        FillFdsKeepsInv(w, t, probed, n - 1, fs);
      } else {
        var file := Opened(fs, probed[n - 1].value.name, probed[n - 1].value.flags);
        OpenAtFreeSlot(w, t, n - 1, file);
        FillFdsKeepsInv(OpenWriteFile(w, t, n - 1, file), t, probed, n - 1, fs);
      }
    }
  }

  lemma StartHasInv(pid: Pid, comm: string, cmdline: string, probed: seq<Option<Inherited>>, fs: FileSystem)
    ensures Inv(RegisterTracee(pid, comm, cmdline, probed, fs)) && RegisterTracee(pid, comm, cmdline, probed, fs).lost == {}
  {
    var w := NewTracee(pid, comm, cmdline, |probed|);
    assert pid in w.leaders;
    assert forall fd: nat :: Slot(w.tables[0].fds, fd) == Slot([], fd) == None;
    FillFdsKeepsInv(w, 0, probed, |probed|, fs);
  }

  /** A step of a run: an event, and the file lengths at that moment. */
  datatype Moment = Moment(event: Event, fs: FileSystem)

  ghost predicate Next(w: World, m: Moment, w': World) {
    && Closed(w) && w.leaders <= w.procMap.Keys
    && Permitted(w, m.event)
    && w' == Step(w, m.event, m.fs)
  }

  ghost predicate NextAt(states: seq<World>, run: seq<Moment>, i: nat) {
    i < |run| < |states| && Next(states[i], run[i], states[i + 1])
  }

  /** `states` are the states that a run goes through. */
  ghost predicate Trace(states: seq<World>, run: seq<Moment>) {
    && |states| == |run| + 1
    && forall i :: 0 <= i < |run| ==> NextAt(states, run, i)
  }

  /** The invariant holds all along a run. */
  lemma {:induction false} InvInEveryRun(states: seq<World>, run: seq<Moment>, i: nat)
    requires Trace(states, run) && Inv(states[0]) && i <= |run|
    ensures Inv(states[i])
  {
    if i > 0 {
      InvInEveryRun(states, run, i - 1);
      NextKeepsInv(states, run, i - 1);
    }
  }

  lemma NextKeepsInv(states: seq<World>, run: seq<Moment>, i: nat)
    requires NextAt(states, run, i) && Inv(states[i])
    ensures Inv(states[i + 1])
  {
    StepKeepsInv(states[i], run[i].event, run[i].fs);
  }
}
