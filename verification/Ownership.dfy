/** Reference counts, and who owns what. */
module Ownership {
  import opened Words
  import opened FileState
  import opened Storage
  import opened Syscalls
  import opened World
  import opened Invariants

  /** How many slots of one table refer to a file. */
  function Uses(fds: seq<Option<nat>>, f: nat): nat {
    if fds == [] then 0 else Uses(fds[..|fds| - 1], f) + if fds[|fds| - 1] == Some(f) then 1 else 0
  }

  /** `use_count()`: how many slots of the first `n` tables refer to a file. */
  function UseCount(w: World, f: nat, n: nat): nat
    requires n <= |w.tables|
  {
    if n == 0 then 0 else UseCount(w, f, n - 1) + Uses(w.tables[n - 1].fds, f)
  }

  lemma {:induction false} UsesIffMember(fds: seq<Option<nat>>, f: nat)
    ensures Uses(fds, f) > 0 <==> Some(f) in fds
  {
    if fds != [] {
      var front := fds[..|fds| - 1];
      UsesIffMember(front, f);
      assert fds == front + [fds[|front|]];
    }
  }

  lemma {:induction false} UsesAppend(a: seq<Option<nat>>, b: seq<Option<nat>>, f: nat)
    ensures Uses(a + b, f) == Uses(a, f) + Uses(b, f)
  {
    if b == [] {
      assert a + b == a;
    } else {
      assert (a + b)[..|a + b| - 1] == a + b[..|b| - 1];
      UsesAppend(a, b[..|b| - 1], f);
    }
  }

  lemma UsesAround(front: seq<Option<nat>>, slot: Option<nat>, back: seq<Option<nat>>, f: nat)
    ensures Uses(front + [slot] + back, f) == Uses(front, f) + (if slot == Some(f) then 1 else 0) + Uses(back, f)
  {
    UsesAppend(front, [slot], f);
    UsesAppend(front + [slot], back, f);
    assert [slot][..0] == [];
  }

  lemma UsesUpdate(fds: seq<Option<nat>>, i: nat, slot: Option<nat>, f: nat)
    requires i < |fds|
    ensures Uses(fds[i := slot], f) ==
            Uses(fds, f) - (if fds[i] == Some(f) then 1 else 0) + if slot == Some(f) then 1 else 0
  {
    UsesAround(fds[..i], fds[i], fds[i + 1..], f);
    UsesAround(fds[..i], slot, fds[i + 1..], f);
    assert fds == fds[..i] + [fds[i]] + fds[i + 1..];
    assert fds[i := slot] == fds[..i] + [slot] + fds[i + 1..];
  }

  lemma {:induction false} UsesOfNone(fds: seq<Option<nat>>, f: nat)
    requires forall i :: 0 <= i < |fds| ==> fds[i] == None
    ensures Uses(fds, f) == 0
  {
    if fds != [] { UsesOfNone(fds[..|fds| - 1], f); }
  }

  lemma UsesResized(fds: seq<Option<nat>>, size: nat, f: nat)
    ensures Uses(Resized(fds, size), f) == Uses(fds, f)
  {
    if size > |fds| {
      UsesOfNone(Resized(fds, size)[|fds|..], f);
      UsesAppend(fds, Resized(fds, size)[|fds|..], f);
      assert Resized(fds, size) == fds + Resized(fds, size)[|fds|..];
    }
  }

  /** Because a file is referred to from its own table only, the count over all tables is the count over that one. */
  lemma {:induction false} UseCountIsLocal(w: World, f: nat, n: nat)
    requires Owned(w) && f < |w.files| && n <= |w.tables|
    ensures UseCount(w, f, n) == if w.homes[f] < n then Uses(w.tables[w.homes[f]].fds, f) else 0
  {
    if n > 0 {
      UseCountIsLocal(w, f, n - 1);
      if w.homes[f] != n - 1 {
        UsesIffMember(w.tables[n - 1].fds, f);
      }
    }
  }

  /** A file is handed to the store exactly when the reference count of the code is 1. */
  lemma LastReference(w: World, t: nat, i: nat)
    requires Owned(w) && t < |w.tables| && i < |w.tables[t].fds| && w.tables[t].fds[i].Some?
    ensures var f := w.tables[t].fds[i].value;
            |TearDown(w, t, i).log| > |w.log| <==> UseCount(w, f, |w.tables|) == 1
  {
    var fds, f := w.tables[t].fds, w.tables[t].fds[i].value;
    UseCountIsLocal(w, f, |w.tables|);
    UsesUpdate(fds, i, None, f);
    UsesIffMember(fds[i := None], f);
  }

  ghost predicate SlotRefers(w: World, t: nat, i: nat) {
    t < |w.tables| && i < |w.tables[t].fds| && w.tables[t].fds[i].Some?
  }

  ghost predicate OnlyLeader(w: World, l: Pid, t: nat)
    requires w.leaders <= w.procMap.Keys
  {
    l in w.leaders && w.procMap[l] == t && forall m :: m in w.leaders && w.procMap[m] == t ==> m == l
  }

  /** In every state of every run, tables are not shared between leaders, nor files between tables. */
  lemma OwnershipInEveryRun(states: seq<World>, run: seq<Moment>, n: nat)
    requires Trace(states, run) && Inv(states[0]) && n <= |run|
    ensures var w := states[n];
            && Inv(w)
            && (forall t: nat, i: nat, u: nat, j: nat ::
                  SlotRefers(w, t, i) && SlotRefers(w, u, j) && w.tables[t].fds[i] == w.tables[u].fds[j] ==> t == u)
            && (forall t: nat, i: nat :: SlotRefers(w, t, i) ==> exists l :: OnlyLeader(w, l, t))
            && (forall f :: 0 <= f < |w.files| ==> UseCount(w, f, |w.tables|) == Uses(w.tables[w.homes[f]].fds, f))
  {
    var w := states[n];
    InvInEveryRun(states, run, n);
    forall t: nat, i: nat | SlotRefers(w, t, i) ensures exists l :: OnlyLeader(w, l, t) {
      var l :| l in w.leaders && w.procMap[l] == t;
      assert OnlyLeader(w, l, t);
    }
    forall f | 0 <= f < |w.files| ensures UseCount(w, f, |w.tables|) == Uses(w.tables[w.homes[f]].fds, f) {
      UseCountIsLocal(w, f, |w.tables|);
    }
  }

  /**
   * An open for writing keeps the invariant exactly when the process has a leader left: otherwise what it
   * opens is never reported. It loses another file exactly when it overwrites the last reference to that.
   */
  lemma OpenKeepsInv(w: World, t: nat, fd: nat, file: FileRec)
    requires Inv(w) && t < |w.tables|
    ensures Inv(OpenWriteFile(w, t, fd, file)) <==> t in LeaderTables(w)
    ensures OpenWriteFile(w, t, fd, file).lost == w.lost <==> Spare(w, t, fd)
  {
    OpenKeepsBooks(w, t, fd, file);
    var w' := OpenWriteFile(w, t, fd, file);
    assert LeaderTables(w') == LeaderTables(w);
    assert w'.tables[t].fds[fd] == Some(|w.files|);
    if !Spare(w, t, fd) { OpenOverwrites(w, t, fd, file); }
  }

  // ---------- copies of tables ----------

  /** What is found at descriptor `fd` in a new table, however far beyond its end. */
  lemma NewSlotAt(sources: seq<Option<FileRec>>, w: World, info: ProcInfo, fd: nat)
    requires Closed(w)
    ensures var w' := WithTable(w, sources, info);
            var slot := Slot(w'.tables[|w.tables|].fds, fd);
            if fd < |sources| && sources[fd].Some?
            then slot.Some? && |w.files| <= slot.value < |w'.files| && w'.files[slot.value] == sources[fd].value
            else slot.None?
  {
    if fd < |sources| && sources[fd].Some? { PresentAt(sources, fd); }
  }

  /** Two slots of a new table never share a file. */
  lemma NewSlotsDiffer(sources: seq<Option<FileRec>>, base: nat, fd: nat, fd': nat)
    requires fd < fd' && Slot(NewSlots(sources, base), fd).Some? && Slot(NewSlots(sources, base), fd').Some?
    ensures Slot(NewSlots(sources, base), fd) != Slot(NewSlots(sources, base), fd')
  {
    PresentAt(sources, fd);
  }

  /** The table that a fork or an exec leaves behind at `pid`. */
  function TableAt(w: World, pid: Pid): seq<Option<nat>>
    requires Closed(w) && pid in w.procMap
  {
    w.tables[w.procMap[pid]].fds
  }

  /**
   * A child sees a copy exactly where its parent has a tracked file, at every descriptor there is: tables are
   * cut after their last file, and nothing is lost. The copy shows no output if the file has grown to where
   * the original was written.
   */
  lemma ForkCopies(w: World, parent: Pid, child: Pid, comm: string, cmdline: string, fs: FileSystem, fd: nat)
    requires Inv(w) && parent in w.procMap && child !in w.procMap
    ensures var w' := RegisterProcess(w, parent, child, comm, cmdline, fs);
            Inv(w') && TableAt(w', parent) == TableAt(w, parent) &&
            CopyOf(w, Slot(TableAt(w, parent), fd), false, fs, w', Slot(TableAt(w', child), fd))
  {
    ProcessKeepsInv(w, parent, child, comm, cmdline, fs);
    var fds := TableAt(w, parent);
    NewSlotAt(CopySources(w, fds, false, fs), w, ProcInfo(child, parent, comm, cmdline), fd);
  }

  /** After an exec, the same holds for the files not marked close-on-exec; the old table is empty. */
  lemma ExecCopies(w: World, pid: Pid, comm: string, cmdline: string, fs: FileSystem, fd: nat)
    requires Inv(w) && pid in w.leaders
    ensures var w' := RegisterExec(w, pid, comm, cmdline, fs);
            Inv(w') && Slot(w'.tables[w.procMap[pid]].fds, fd).None? &&
            CopyOf(w, Slot(TableAt(w, pid), fd), true, fs, w', Slot(TableAt(w', pid), fd))
  {
    ExecKeepsInv(w, pid, comm, cmdline, fs);
    var former := w.tables[w.procMap[pid]];
    var info := ProcInfo(pid, former.info.ppid, comm, cmdline);
    var sources := CopySources(w, former.fds, true, fs);
    NewSlotAt(sources, w, info, fd);
    ClosedWithTable(w, sources, info);
  }

  ghost predicate CopyOf(w: World, slot: Option<nat>, exec: bool, fs: FileSystem, w': World, slot': Option<nat>)
    requires Closed(w) && (slot.Some? ==> slot.value < |w.files|)
  {
    && (slot'.Some? <==> Copies(w, slot, exec))
    && (slot'.Some? ==>
          && |w.files| <= slot'.value < |w'.files|
          && w'.files[slot'.value] == Copied(fs, w.files[slot.value])
          && (w.files[slot.value].maxPos <= GetFileLength(fs, w.files[slot.value].filename) ==>
                w'.files[slot'.value].OutputSize() == 0))
  }

  // ---------- how an open comes to find its slot taken ----------

  const FD_CLOEXEC := 1

  /** After an exec, whatever is still tracked has one reference only, which no open may overwrite. */
  lemma NothingToSpare(w: World, pid: Pid, comm: string, cmdline: string, fs: FileSystem, fd: nat)
    requires Inv(w) && pid in w.leaders && Copies(w, Slot(TableAt(w, pid), fd), true)
    ensures var w' := RegisterExec(w, pid, comm, cmdline, fs);
            Inv(w') && Slot(TableAt(w', pid), fd).Some? && w'.procMap[pid] < |w'.tables| && !Spare(w', w'.procMap[pid], fd)
  {
    ExecCopies(w, pid, comm, cmdline, fs, fd);
    var w' := RegisterExec(w, pid, comm, cmdline, fs);
    var sources, fds := CopySources(w, TableAt(w, pid), true, fs), TableAt(w', pid);
    assert fds == NewSlots(sources, |w.files|);
    forall i | 0 <= i < |fds| && i != fd ensures fds[i] != fds[fd] {
      if fds[i].Some? { NewSlotsDiffer(sources, |w.files|, if i < fd then i else fd, if i < fd then fd else i); }
    }
  }

  /**
   * The program overwrites all flags by FD_CLOEXEC when a descriptor is marked by fcntl, which is not the
   * flag that it looks at when the process execs. So it keeps a descriptor that the kernel closes. An open
   * that is given the same number then overwrites the slot, and the file is never reported.
   */
  lemma CloexecByFcntlLoses(w: World, pid: Pid, fd: u64, comm: string, cmdline: string, fs: FileSystem, file: FileRec)
      returns (w1: World, w2: World, f: nat)
    requires Inv(w) && pid in w.leaders && Slot(TableAt(w, pid), fd).Some?
    ensures var setfd := SyscallExit(pid, Regs(SYS_fcntl, 0, fd, F_SETFD, FD_CLOEXEC, 0), "");
            Permitted(w, setfd) && w1 == Step(w, setfd, fs) && Inv(w1) && pid in w1.procMap
    ensures var exec := Event.Exec(pid, comm, cmdline);
            Permitted(w1, exec) && w2 == Step(w1, exec, fs) && Inv(w2) && pid in w2.procMap
    ensures Slot(TableAt(w2, pid), fd) == Some(f) && !Spare(w2, w2.procMap[pid], fd)
    ensures var w3 := OpenWriteFile(w2, w2.procMap[pid], fd, file);
            f < |w2.files| && Inv(w3) && f in w3.lost && !Live(w3, f) && f !in Logged(w3.log)
  {
    var regs := Regs(SYS_fcntl, 0, fd, F_SETFD, FD_CLOEXEC, 0);
    var setfd := SyscallExit(pid, regs, "");
    assert Decode(regs) == Touch(fd, SetFlags(FD_CLOEXEC));
    assert w.procMap[pid] in LeaderTables(w);
    w1 := Step(w, setfd, fs);
    StepKeepsInv(w, setfd, fs);
    NothingToSpare(w1, pid, comm, cmdline, fs, fd);
    w2 := RegisterExec(w1, pid, comm, cmdline, fs);
    f := Slot(TableAt(w2, pid), fd).value;
    OpenOverwrites(w2, w2.procMap[pid], fd, file);
    OpenKeepsInv(w2, w2.procMap[pid], fd, file);
    assert w2.procMap[pid] in LeaderTables(w2);
  }
}
