/**
 * What is found at a descriptor after the calls that create, copy and mark files. Here the registers and the bits
 * of the flags are written as Linux defines them, and a file state field by field.
 */
module Flags {
  import opened Words
  import opened FileState
  import Storage
  import opened Syscalls
  import opened World
  import opened Invariants
  import opened Ownership
  import Posix

  /** The file that descriptor `fd` of a process is tracked as. */
  function FileAt(w: World, pid: Pid, fd: nat): Option<FileRec>
    requires Closed(w) && pid in w.procMap
  {
    var slot := Slot(TableAt(w, pid), fd);
    if slot.Some? then Some(w.files[slot.value]) else None
  }

  function SlotAt(w: World, pid: Pid, fd: nat): Option<nat>
    requires Closed(w) && pid in w.procMap
  {
    Slot(TableAt(w, pid), fd)
  }

  /** O_CLOEXEC is the bit of 2^19. */
  predicate Marked(flags: u64) {
    flags / 0x8_0000 % 2 == 1
  }

  /** O_APPEND is the bit of 2^10. */
  predicate Appends(flags: u64) {
    flags / 0x400 % 2 == 1
  }

  /** A copy is like its original, but starts with the length that the file has when it is made. */
  predicate IsCopy(copy: FileRec, file: FileRec, fs: FileSystem) {
    && copy.filename == file.filename && copy.flags == file.flags
    && copy.currPos == file.currPos && copy.maxPos == file.maxPos
    && copy.initSize == if file.filename in fs then fs[file.filename] else 0
  }

  // ---------- the start ----------

  /** The tracee is the only process, and has the files that it inherits, as they are found by probing. */
  lemma AtStart(pid: Pid, comm: string, cmdline: string, probed: seq<Option<Inherited>>, fs: FileSystem, fd: nat)
    ensures var w := RegisterTracee(pid, comm, cmdline, probed, fs);
            && Inv(w) && w.procMap.Keys == {pid} == w.leaders && w.log == []
            && w.tables[w.procMap[pid]].info == Storage.ProcInfo(pid, 0, comm, cmdline)
            && (FileAt(w, pid, fd).Some? <==> fd < |probed| && probed[fd].Some?)
            && (FileAt(w, pid, fd).Some? ==>
                  var file, name := FileAt(w, pid, fd).value, probed[fd].value.name;
                  var length := if name in fs then fs[name] else 0;
                  && file.filename == name && file.flags == probed[fd].value.flags
                  && file.initSize == length && file.maxPos == 0
                  && file.currPos == if Appends(file.flags) then length else 0)
  {
    StartHasInv(pid, comm, cmdline, probed, fs);
    FillFdsOnlyFiles(NewTracee(pid, comm, cmdline, |probed|), 0, probed, |probed|, fs);
    Posix.StartSlots(pid, comm, cmdline, probed, fs);
    var w := RegisterTracee(pid, comm, cmdline, probed, fs);
    assert Posix.Filled(Slot(w.tables[0].fds, fd), Posix.ProbedAt(probed, fd), w.files, 0, fs);
  }

  lemma {:induction false} FillFdsOnlyFiles(w: World, t: nat, probed: seq<Option<Inherited>>, n: nat, fs: FileSystem)
    requires t < |w.tables| && n <= |probed|
    ensures var w' := FillFds(w, t, probed, n, fs);
            && w'.procMap == w.procMap && w'.leaders == w.leaders && w'.log == w.log
            && |w'.tables| == |w.tables| && w'.tables[t].info == w.tables[t].info
    decreases n
  {
    if n > 0 {
      if probed[n - 1].None? {
        FillFdsOnlyFiles(w, t, probed, n - 1, fs);
      } else {
        FillFdsOnlyFiles(OpenWriteFile(w, t, n - 1, Opened(fs, probed[n - 1].value.name, probed[n - 1].value.flags)), t, probed, n - 1, fs);
      }
    }
  }

  // ---------- forks and execs ----------

  /** A child has a copy of what its parent has, at every descriptor, and the parent keeps what it has. */
  lemma AfterFork(w: World, parent: Pid, child: Pid, comm: string, cmdline: string, fs: FileSystem, fd: nat)
    requires Inv(w) && parent in w.procMap && child !in w.procMap
    ensures var w' := Step(w, Process(parent, child, comm, cmdline), fs);
            && Inv(w') && child in w'.procMap && parent in w'.procMap && child in w'.leaders
            && FileAt(w', parent, fd) == FileAt(w, parent, fd)
            && (FileAt(w', child, fd).Some? <==> FileAt(w, parent, fd).Some?)
            && (FileAt(w', child, fd).Some? ==> IsCopy(FileAt(w', child, fd).value, FileAt(w, parent, fd).value, fs))
  {
    ForkCopies(w, parent, child, comm, cmdline, fs, fd);
  }

  /** After an exec, exactly the files are tracked that were and are not marked close-on-exec. */
  lemma AfterExec(w: World, pid: Pid, comm: string, cmdline: string, fs: FileSystem, fd: nat)
    requires Inv(w) && pid in w.leaders
    ensures var w' := Step(w, Event.Exec(pid, comm, cmdline), fs);
            && Inv(w') && pid in w'.leaders
            && (FileAt(w', pid, fd).Some? <==> FileAt(w, pid, fd).Some? && !Marked(FileAt(w, pid, fd).value.flags))
            && (FileAt(w', pid, fd).Some? ==> IsCopy(FileAt(w', pid, fd).value, FileAt(w, pid, fd).value, fs))
  {
    ExecCopies(w, pid, comm, cmdline, fs, fd);
  }

  /**
   * A fork and an exec of the child, as when a command is run: the child ends up with exactly those files that
   * its parent had not marked close-on-exec.
   */
  lemma AfterForkAndExec(w: World, parent: Pid, child: Pid, comm: string, cmdline: string, fs: FileSystem,
                         comm': string, cmdline': string, fs': FileSystem, fd: nat)
    requires Inv(w) && parent in w.procMap && child !in w.procMap
    ensures var w1 := Step(w, Process(parent, child, comm, cmdline), fs);
            && Inv(w1) && child in w1.leaders
            && var w2 := Step(w1, Event.Exec(child, comm', cmdline'), fs');
            && Inv(w2) && child in w2.procMap
            && (FileAt(w2, child, fd).Some? <==> FileAt(w, parent, fd).Some? && !Marked(FileAt(w, parent, fd).value.flags))
            && (FileAt(w2, child, fd).Some? ==> IsCopy(FileAt(w2, child, fd).value, FileAt(w, parent, fd).value, fs'))
  {
    AfterFork(w, parent, child, comm, cmdline, fs, fd);
    AfterExec(Step(w, Process(parent, child, comm, cmdline), fs), child, comm', cmdline', fs', fd);
  }

  // ---------- opens ----------

  /** The argument that holds the flags: creat is taken to have them where open has them. */
  function FlagsArgument(r: Regs): u64 {
    if r.nr == 257 then r.arg2 else r.arg1
  }

  /** The call has opened a file for writing, as far as is noticed. */
  predicate OpensForWriting(r: Regs) {
    && r.ret % 0x1_0000_0000 < 0x8000_0000
    && (r.nr == 85 || ((r.nr == 2 || r.nr == 257) && FlagsArgument(r) % 4 != 0))
  }

  /** The new state of a file, field by field. */
  lemma AfterOpen(w: World, pid: Pid, r: Regs, link: string, fs: FileSystem)
    requires Closed(w) && pid in w.procMap && OpensForWriting(r)
    ensures var w' := Step(w, SyscallExit(pid, r, link), fs);
            var length := if link in fs then fs[link] else 0;
            && Closed(w') && pid in w'.procMap && FileAt(w', pid, r.ret).Some?
            && var file := FileAt(w', pid, r.ret).value;
               && file.filename == link && file.flags == FlagsArgument(r)
               && file.initSize == length && file.maxPos == 0
               && file.currPos == if Appends(FlagsArgument(r)) then length else 0
  {
    WriteFlags(FlagsArgument(r));
    assert Decode(r) == OpenWrite(r.ret, FlagsArgument(r));
  }

  lemma WriteFlags(flags: u64)
    ensures OpenedForWriting(flags) <==> flags % 4 != 0
  {
    var m, x := flags / 4, flags % 4;
    Doubled(2 * m, x);
    Doubled(m, x / 2);
    assert flags == 2 * (2 * m) + x && flags / 1 == flags;
    assert x == 0 || x == 1 || x == 2 || x == 3;
  }

  /** An open for reading only is not noticed. */
  lemma AfterOtherOpen(w: World, pid: Pid, r: Regs, link: string, fs: FileSystem)
    requires Closed(w) && pid in w.procMap && (r.nr == 2 || r.nr == 257 || r.nr == 85) && !OpensForWriting(r)
    ensures Step(w, SyscallExit(pid, r, link), fs) == w
  {
    WriteFlags(FlagsArgument(r));
    assert Decode(r) == Nop;
  }

  /** A file that is opened and closed is handed over under the name that was found for it. */
  lemma OpenAndClose(w: World, pid: Pid, r: Regs, link: string, fs: FileSystem, link': string, fs': FileSystem)
    requires Inv(w) && pid in w.leaders && OpensForWriting(r) && SlotAt(w, pid, r.ret).None?
    ensures var w1 := Step(w, SyscallExit(pid, r, link), fs);
            && Closed(w1) && pid in w1.procMap
            && var w2 := Step(w1, SyscallExit(pid, Regs(3, 0, r.ret, 0, 0, 0), link'), fs');
               && |w2.log| == |w.log| + 1 && w2.log[..|w.log|] == w.log
               && w2.log[|w.log|].out == Storage.OutputFile(0, link, w.tables[w.procMap[pid]].info)
  {
    WriteFlags(FlagsArgument(r));
    assert Decode(r) == OpenWrite(r.ret, FlagsArgument(r));
    var t, f := w.procMap[pid], |w.files|;
    var w1 := Step(w, SyscallExit(pid, r, link), fs);
    var close := Regs(3, 0, r.ret, 0, 0, 0);
    assert Decode(close) == Close(r.ret);
    var fds := w1.tables[t].fds;
    forall i | 0 <= i < |fds| && i != r.ret ensures fds[i] != Some(f) {
      OpenSlots(w, t, r.ret, Opened(fs, link, FlagsArgument(r)), i);
    }
    assert Some(f) !in fds[r.ret := None];
  }

  // ---------- marking ----------

  /** The calls that duplicate a descriptor. */
  predicate Duplicates(r: Regs) {
    && r.ret % 0x1_0000_0000 < 0x8000_0000
    && (r.nr in {32, 33, 292} || (r.nr == 72 && r.arg1 in {0, 1030}))
  }

  function NewDescriptor(r: Regs): u64 {
    if r.nr == 33 || r.nr == 292 then r.arg1 else r.ret
  }

  /** Whether close-on-exec is set or cleared by the call, and which. */
  function Marking(r: Regs): Option<bool> {
    if r.nr == 292 then Some(Marked(r.arg2))
    else if r.nr == 72 && r.arg1 == 1030 then Some(true)
    else None
  }

  /**
   * After a duplication of a tracked file, both descriptors share it. It is marked close-on-exec exactly if
   * dup3 asks for it, always after F_DUPFD_CLOEXEC, and otherwise exactly if it was before.
   */
  lemma AfterDup(w: World, pid: Pid, r: Regs, link: string, fs: FileSystem)
    requires Inv(w) && pid in w.leaders && Duplicates(r)
    requires r.arg0 != NewDescriptor(r) && SlotAt(w, pid, r.arg0).Some?
    ensures var w' := Step(w, SyscallExit(pid, r, link), fs);
            && Inv(w') && pid in w'.leaders
            && SlotAt(w', pid, NewDescriptor(r)) == SlotAt(w', pid, r.arg0) == SlotAt(w, pid, r.arg0)
            && var file, file' := FileAt(w, pid, r.arg0).value, FileAt(w', pid, r.arg0).value;
               && (Marked(file'.flags) <==> if Marking(r).Some? then Marking(r).value else Marked(file.flags))
               && (Appends(file'.flags) <==> Appends(file.flags))
               && file'.filename == file.filename && file'.currPos == file.currPos && file'.maxPos == file.maxPos
               && file'.initSize == file.initSize
  {
    var t := w.procMap[pid];
    assert t in LeaderTables(w);
    WhichMarking(r);
    assert Inv(Step(w, SyscallExit(pid, r, link), fs)) by { StepKeepsInv(w, SyscallExit(pid, r, link), fs); }
    SourceStays(w, t, r.arg0, NewDescriptor(r));
    DupKeepsMaps(w, t, r.arg0, NewDescriptor(r));
    assert Step(w, SyscallExit(pid, r, link), fs) == DupAndFlag(w, t, r.arg0, NewDescriptor(r), Decode(r).dupFlags);
  }

  lemma DupKeepsMaps(w: World, t: nat, oldfd: nat, newfd: nat)
    requires Closed(w) && t < |w.tables|
    ensures DupFd(w, t, oldfd, newfd).procMap == w.procMap && DupFd(w, t, oldfd, newfd).leaders == w.leaders
  {}

  lemma WhichMarking(r: Regs)
    requires Duplicates(r)
    ensures Decode(r).Dup? && Decode(r).oldfd == r.arg0 && Decode(r).newfd == NewDescriptor(r)
    ensures match Decode(r).dupFlags case None => Marking(r) == None case Some(f) => Marking(r) == Some(HasFlag(f, O_CLOEXEC))
  {}

  lemma SourceStays(w: World, t: nat, oldfd: nat, newfd: nat)
    requires Closed(w) && t < |w.tables| && oldfd != newfd && Slot(w.tables[t].fds, oldfd).Some?
    ensures var dup := DupFd(w, t, oldfd, newfd);
            && Closed(dup) && t < |dup.tables| && dup.files == w.files
            && Slot(dup.tables[t].fds, oldfd) == Slot(w.tables[t].fds, oldfd)
            && Slot(dup.tables[t].fds, newfd) == Slot(w.tables[t].fds, oldfd)
  {
    ClosedAfterDup(w, t, oldfd, newfd);
    var fds := CloseFd(w, t, newfd).tables[t].fds;
    assert Slot(fds, oldfd) == Slot(w.tables[t].fds, oldfd);
    assert Slot(Resized(fds, newfd + 1), oldfd) == Slot(fds, oldfd);
  }

  /** So an exec that follows keeps both descriptors, or drops both. */
  lemma AfterDupAndExec(w: World, pid: Pid, r: Regs, link: string, fs: FileSystem, comm: string, cmdline: string, fs': FileSystem)
    requires Inv(w) && pid in w.leaders && Duplicates(r) && Marking(r).Some?
    requires r.arg0 != NewDescriptor(r) && SlotAt(w, pid, r.arg0).Some?
    ensures var w1 := Step(w, SyscallExit(pid, r, link), fs);
            && Inv(w1) && pid in w1.leaders
            && var w2 := Step(w1, Event.Exec(pid, comm, cmdline), fs');
               && Inv(w2) && pid in w2.procMap
               && (SlotAt(w2, pid, r.arg0).Some? <==> !Marking(r).value)
               && (SlotAt(w2, pid, NewDescriptor(r)).Some? <==> !Marking(r).value)
  {
    AfterDup(w, pid, r, link, fs);
    var w1 := Step(w, SyscallExit(pid, r, link), fs);
    AfterExec(w1, pid, comm, cmdline, fs', r.arg0);
    AfterExec(w1, pid, comm, cmdline, fs', NewDescriptor(r));
  }

  /** F_SETFL and F_SETFD replace all flags of the file by what they are given. */
  lemma AfterSetFlags(w: World, pid: Pid, r: Regs, link: string, fs: FileSystem)
    requires Closed(w) && pid in w.procMap && SlotAt(w, pid, r.arg0).Some?
    requires r.nr == 72 && (r.arg1 == 2 || r.arg1 == 4) && r.ret % 0x1_0000_0000 < 0x8000_0000
    ensures var w' := Step(w, SyscallExit(pid, r, link), fs);
            && Closed(w') && pid in w'.procMap && SlotAt(w', pid, r.arg0) == SlotAt(w, pid, r.arg0)
            && FileAt(w', pid, r.arg0) == Some(FileAt(w, pid, r.arg0).value.(flags := r.arg2))
  {
    assert Decode(r) == Touch(r.arg0, SetFlags(r.arg2));
  }
}
