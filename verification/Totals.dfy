/** The figure the program is for: the total of all data written. */
module Totals {
  import opened Words
  import opened FileState
  import opened Storage
  import opened Syscalls
  import opened World
  import opened Invariants
  import opened Ledger

  /** A file that has only been written at its end since it was opened or copied. */
  predicate AtEnd(file: FileRec) {
    && file.initSize <= file.currPos
    && (file.maxPos == file.currPos || (file.currPos == file.initSize && file.maxPos <= file.initSize))
  }

  predicate AllAtEnd(files: seq<FileRec>) {
    forall file :: file in files ==> AtEnd(file)
  }

  /** The bytes that an event writes to tracked descriptors. */
  function Written(w: World, e: Event): nat
    requires Closed(w) && AssertionsHold(w, e)
  {
    match e
    case SyscallExit(pid, regs, _) =>
      (match Decode(regs)
       case Touch(fd, Advance(n)) => if Slot(w.tables[w.procMap[pid]].fds, fd).Some? then n else 0
       case _ => 0)
    case _ => 0
  }

  /** Every tracked file that is copied has the length up to which it was written. */
  predicate CopiedAtEnd(w: World, t: nat, exec: bool, fs: FileSystem)
    requires Closed(w) && t < |w.tables|
  {
    forall i :: 0 <= i < |w.tables[t].fds| && Copies(w, w.tables[t].fds[i], exec) ==>
      var file := w.files[w.tables[t].fds[i].value];
      GetFileLength(fs, file.filename) == file.currPos
  }

  /** Tracked files are written sequentially, opened at their end and copied at their end. */
  predicate Sequential(w: World, e: Event, fs: FileSystem)
    requires Closed(w) && AssertionsHold(w, e)
  {
    match e
    case Process(parent, _, _, _) => CopiedAtEnd(w, w.procMap[parent], false, fs)
    case Exec(pid, _, _) => CopiedAtEnd(w, w.procMap[pid], true, fs)
    case SyscallExit(pid, regs, link) =>
      (match Decode(regs)
       case Touch(fd, change) =>
         var slot := Slot(w.tables[w.procMap[pid]].fds, fd);
         slot.Some? ==>
           change.SetFlags? || (change.Advance? && w.files[slot.value].currPos + change.nbytes < TWO_TO_64)
       case OpenWrite(_, flags) => HasFlag(flags, O_APPEND) || GetFileLength(fs, link) == 0
       case _ => true)
    case _ => true
  }

  lemma {:induction false} PresentMember(sources: seq<Option<FileRec>>, file: FileRec)
    requires file in Present(sources)
    ensures Some(file) in sources
  {
    var front := sources[..|sources| - 1];
    if file in Present(front) {
      PresentMember(front, file);
    }
  }

  lemma {:induction false} ProducesNothing(files: seq<FileRec>)
    requires forall file :: file in files ==> file.OutputSize() == 0
    ensures Produced(files) == 0
  {
    if files != [] { ProducesNothing(files[..|files| - 1]); }
  }

  /** Copies made at the end of a file have no output yet. */
  lemma CopiesAtEnd(w: World, t: nat, exec: bool, fs: FileSystem)
    requires Closed(w) && t < |w.tables| && AllAtEnd(w.files) && CopiedAtEnd(w, t, exec, fs)
    ensures var copies := Present(CopySources(w, w.tables[t].fds, exec, fs));
            AllAtEnd(copies) && Produced(copies) == 0
  {
    var fds := w.tables[t].fds;
    var sources := CopySources(w, fds, exec, fs);
    forall file | file in Present(sources) ensures AtEnd(file) && file.OutputSize() == 0 {
      PresentMember(sources, file);
      var i :| 0 <= i < |sources| && sources[i] == Some(file);
      assert w.files[fds[i].value] in w.files;
    }
    ProducesNothing(Present(sources));
  }

  lemma WriteAtEnd(file: FileRec, change: Change)
    requires AtEnd(file)
    requires change.SetFlags? || (change.Advance? && file.currPos + change.nbytes < TWO_TO_64)
    ensures AtEnd(Changed(file, change))
    ensures Changed(file, change).OutputSize() - file.OutputSize() == if change.Advance? then change.nbytes else 0
  {}

  lemma DupAtEnd(w: World, t: nat, op: Op, link: string, fs: FileSystem)
    requires Closed(w) && t < |w.tables| && AllAtEnd(w.files) && op.Dup?
    ensures AllAtEnd(Apply(w, t, op, link, fs).files)
  {
    var dup := DupFd(w, t, op.oldfd, op.newfd);
    ClosedAfterDup(w, t, op.oldfd, op.newfd);
    assert dup.files == w.files;
    var slot := Slot(dup.tables[t].fds, op.newfd);
    if slot.Some? { assert dup.files[slot.value] in w.files; }
  }

  lemma WritesAtEnd(w: World, pid: Pid, regs: Regs, link: string, fs: FileSystem)
    requires Closed(w) && pid in w.procMap && AllAtEnd(w.files)
    requires Sequential(w, SyscallExit(pid, regs, link), fs)
    ensures AllAtEnd(Apply(w, w.procMap[pid], Decode(regs), link, fs).files)
    ensures Growth(w, SyscallExit(pid, regs, link), fs) == Written(w, SyscallExit(pid, regs, link))
  {
    var t, op := w.procMap[pid], Decode(regs);
    match op
    case Touch(fd, change) =>
      var slot := Slot(w.tables[t].fds, fd);
      if slot.Some? {
        assert w.files[slot.value] in w.files;
        WriteAtEnd(w.files[slot.value], change);
      }
    case Dup(_, _, _) => DupAtEnd(w, t, op, link, fs);
    case _ =>
  }

  lemma SequentialStep(w: World, e: Event, fs: FileSystem)
    requires Inv(w) && Permitted(w, e) && AllAtEnd(w.files) && Sequential(w, e, fs)
    ensures AllAtEnd(Step(w, e, fs).files)
    ensures Inv(Step(w, e, fs)) && Produced(Step(w, e, fs).files) == Produced(w.files) + Written(w, e)
  {
    StepKeepsInv(w, e, fs);
    ProducedStep(w, e, fs);
    match e
    case Process(parent, _, _, _) => CopiesAtEnd(w, w.procMap[parent], false, fs);
    case Exec(pid, comm, cmdline) => CopiesAtEnd(w, w.procMap[pid], true, fs);
    case SyscallExit(pid, regs, link) => WritesAtEnd(w, pid, regs, link, fs);
    case _ =>
  }

  ghost predicate SequentialTrace(states: seq<World>, run: seq<Moment>) {
    && Trace(states, run)
    && forall i :: 0 <= i < |run| ==> SequentialAt(states, run, i)
  }

  ghost predicate SequentialAt(states: seq<World>, run: seq<Moment>, i: nat) {
    NextAt(states, run, i) && Sequential(states[i], run[i].event, run[i].fs)
  }

  /** The sum of all that `write` and `writev` returned on tracked descriptors in the first `n` steps of a run. */
  ghost function AllWritten(states: seq<World>, run: seq<Moment>, n: nat): nat
    requires Trace(states, run) && n <= |run|
  {
    if n == 0 then 0
    else
      assert NextAt(states, run, n - 1);
      AllWritten(states, run, n - 1) + Written(states[n - 1], run[n - 1].event)
  }

  lemma {:induction false} ProducedInRun(states: seq<World>, run: seq<Moment>, n: nat)
    requires SequentialTrace(states, run) && n <= |run|
    requires Inv(states[0]) && AllAtEnd(states[0].files)
    ensures Inv(states[n]) && AllAtEnd(states[n].files)
    ensures Produced(states[n].files) == Produced(states[0].files) + AllWritten(states, run, n)
  {
    if n > 0 {
      ProducedInRun(states, run, n - 1);
      StepProduces(states, run, n - 1);
    }
  }

  lemma StepProduces(states: seq<World>, run: seq<Moment>, i: nat)
    requires SequentialTrace(states, run) && i < |run| && Inv(states[i]) && AllAtEnd(states[i].files)
    ensures Inv(states[i + 1]) && AllAtEnd(states[i + 1].files)
    ensures Produced(states[i + 1].files) + AllWritten(states, run, i) ==
            Produced(states[i].files) + AllWritten(states, run, i + 1)
  {
    assert SequentialAt(states, run, i);
    SequentialStep(states[i], run[i].event, run[i].fs);
  }

  /** The output of all files that opens overwrote in the first `n` steps of a run, when they did. */
  ghost function AllLost(states: seq<World>, run: seq<Moment>, n: nat): nat
    requires Trace(states, run) && n <= |run|
  {
    if n == 0 then 0
    else
      assert NextAt(states, run, n - 1);
      AllLost(states, run, n - 1) + Loss(states[n - 1], run[n - 1].event)
  }

  ghost predicate LostUpTo(states: seq<World>, run: seq<Moment>, n: nat)
    requires Trace(states, run) && n <= |run|
  {
    Inv(states[n]) && Inv(states[0]) && LostBytes(states[n]) == LostBytes(states[0]) + AllLost(states, run, n)
  }

  lemma LostInRun(states: seq<World>, run: seq<Moment>, n: nat)
    requires Trace(states, run) && Inv(states[0]) && n <= |run|
    ensures Inv(states[n]) && LostBytes(states[n]) == LostBytes(states[0]) + AllLost(states, run, n)
  {
    LostInPrefix(states, run, n);
  }

  lemma {:induction false} LostInPrefix(states: seq<World>, run: seq<Moment>, n: nat)
    requires Trace(states, run) && Inv(states[0]) && n <= |run|
    ensures LostUpTo(states, run, n)
  {
    if n > 0 {
      LostInPrefix(states, run, n - 1);
      StepLoses(states, run, n - 1);
    }
  }

  lemma StepLoses(states: seq<World>, run: seq<Moment>, i: nat)
    requires Trace(states, run) && i < |run| && LostUpTo(states, run, i)
    ensures LostUpTo(states, run, i + 1)
  {
    assert NextAt(states, run, i);
    LossStep(states[i], run[i].event, run[i].fs);
  }

  /**
   * Through any interleaving of forks, thread creation, execs, duplications, closes and exits to the final
   * drain in any order: the total reported is the number of bytes written, besides what the files tracked
   * from the start had already grown by, and but for the files that opens overwrote.
   */
  lemma TotalIsAllWritten(states: seq<World>, run: seq<Moment>, order: seq<Pid>, capacity: int, storeEmpty: bool)
    requires SequentialTrace(states, run) && Inv(states[0]) && AllAtEnd(states[0].files)
    requires Enumerates(order, states[|run|].procMap.Keys)
    requires capacity != 0
    ensures Inv(states[|run|])
    ensures RunningTotal(Outs(Drain(states[|run|], order).log), capacity, storeEmpty) == Wrap(Due(states[|run|]))
    ensures Due(states[|run|]) + AllLost(states, run, |run|) == Due(states[0]) + AllWritten(states, run, |run|)
  {
    ProducedInRun(states, run, |run|);
    LostInRun(states, run, |run|);
    FinalTotal(states[|run|], order, capacity, storeEmpty);
    LedgerInBytes(states[0]);
  }

  // ---------- inherited files ----------

  lemma StartsAtEnd(fs: FileSystem, name: string, flags: u64)
    ensures AtEnd(Opened(fs, name, flags)) <==> HasFlag(flags, O_APPEND) || GetFileLength(fs, name) == 0
    ensures Opened(fs, name, flags).OutputSize() == 0
  {}

  predicate InheritedAtEnd(i: Option<Inherited>, fs: FileSystem) {
    i.Some? ==> HasFlag(i.value.flags, O_APPEND) || GetFileLength(fs, i.value.name) == 0
  }

  /** The files that are found by probing the descriptors below `n`, from the highest down. */
  function Found(probed: seq<Option<Inherited>>, n: nat, fs: FileSystem): seq<FileRec>
    requires n <= |probed|
  {
    if n == 0 then []
    else (if probed[n - 1].Some? then [Opened(fs, probed[n - 1].value.name, probed[n - 1].value.flags)] else []) +
         Found(probed, n - 1, fs)
  }

  lemma {:induction false} FillFdsAdds(w: World, t: nat, probed: seq<Option<Inherited>>, n: nat, fs: FileSystem)
    requires t < |w.tables| && n <= |probed|
    ensures FillFds(w, t, probed, n, fs).files == w.files + Found(probed, n, fs)
    decreases n
  {
    if n > 0 {
      if probed[n - 1].None? {
        FillFdsAdds(w, t, probed, n - 1, fs);
      } else {
        var file := Opened(fs, probed[n - 1].value.name, probed[n - 1].value.flags);
        var w', rest := OpenWriteFile(w, t, n - 1, file), Found(probed, n - 1, fs);
        assert FillFds(w', t, probed, n - 1, fs).files == w'.files + rest by { FillFdsAdds(w', t, probed, n - 1, fs); }
        assert w'.files == w.files + [file];
        assert w.files + ([file] + rest) == w.files + [file] + rest;
      }
    }
  }

  predicate InheritedAllAtEnd(probed: seq<Option<Inherited>>, n: nat, fs: FileSystem)
    requires n <= |probed|
  {
    forall fd :: 0 <= fd < n ==> InheritedAtEnd(probed[fd], fs)
  }

  predicate FoundFresh(probed: seq<Option<Inherited>>, n: nat, fs: FileSystem)
    requires n <= |probed|
  {
    Produced(Found(probed, n, fs)) == 0 && (AllAtEnd(Found(probed, n, fs)) <==> InheritedAllAtEnd(probed, n, fs))
  }

  lemma {:induction false} FoundAtEnd(probed: seq<Option<Inherited>>, n: nat, fs: FileSystem)
    requires n <= |probed|
    ensures FoundFresh(probed, n, fs)
  {
    if n == 0 {
      assert FoundFresh(probed, 0, fs);
    } else {
      FoundAtEnd(probed, n - 1, fs);
      FoundStep(probed, n, fs);
    }
  }

  lemma FoundStep(probed: seq<Option<Inherited>>, n: nat, fs: FileSystem)
    requires 0 < n <= |probed| && FoundFresh(probed, n - 1, fs)
    ensures FoundFresh(probed, n, fs)
  {
    var rest := Found(probed, n - 1, fs);
    if probed[n - 1].Some? {
      OneMoreFound(probed[n - 1].value, rest, fs);
    } else {
      assert Found(probed, n, fs) == rest;
    }
    assert InheritedAllAtEnd(probed, n, fs) <==> InheritedAllAtEnd(probed, n - 1, fs) && InheritedAtEnd(probed[n - 1], fs);
  }

  lemma OneMoreFound(i: Inherited, rest: seq<FileRec>, fs: FileSystem)
    ensures var files := [Opened(fs, i.name, i.flags)] + rest;
            Produced(files) == Produced(rest) && (AllAtEnd(files) <==> AllAtEnd(rest) && InheritedAtEnd(Some(i), fs))
  {
    var file := Opened(fs, i.name, i.flags);
    StartsAtEnd(fs, i.name, i.flags);
    AllAtEndAppend([file], rest);
    assert [file][..0] == [];
  }

  lemma AllAtEndAppend(a: seq<FileRec>, b: seq<FileRec>)
    ensures AllAtEnd(a + b) <==> AllAtEnd(a) && AllAtEnd(b)
    ensures Produced(a + b) == Produced(a) + Produced(b)
  {
    ProducedAppend(a, b);
    if AllAtEnd(a + b) {
      forall f | f in a ensures AtEnd(f) { assert f in a + b; }
      forall f | f in b ensures AtEnd(f) { assert f in a + b; }
    }
  }

  /** The files of the tracee have not grown yet. They are at their end exactly if they are empty or marked for appending. */
  lemma NothingProducedAtStart(w: World, t: nat, probed: seq<Option<Inherited>>, n: nat, fs: FileSystem)
    requires t < |w.tables| && n <= |probed|
    ensures var files := FillFds(w, t, probed, n, fs).files;
            && Produced(files) == Produced(w.files)
            && (AllAtEnd(files) <==> AllAtEnd(w.files) && InheritedAllAtEnd(probed, n, fs))
  {
    FillFdsAdds(w, t, probed, n, fs);
    AllAtEndAppend(w.files, Found(probed, n, fs));
    FoundAtEnd(probed, n, fs);
  }

  /** At the start, nothing has been produced, handed over or lost. */
  lemma NothingAtStart(pid: Pid, comm: string, cmdline: string, probed: seq<Option<Inherited>>, fs: FileSystem)
    ensures var w := RegisterTracee(pid, comm, cmdline, probed, fs);
            Inv(w) && Produced(w.files) == Due(w) == LostBytes(w) == 0
  {
    var w := RegisterTracee(pid, comm, cmdline, probed, fs);
    StartHasInv(pid, comm, cmdline, probed, fs);
    NothingProducedAtStart(NewTracee(pid, comm, cmdline, |probed|), 0, probed, |probed|, fs);
    LedgerInBytes(w);
  }

  function Sum(sizes: seq<u64>): nat {
    if sizes == [] then 0 else Sum(sizes[..|sizes| - 1]) + sizes[|sizes| - 1]
  }

  function AfterWrites(file: FileRec, sizes: seq<u64>): FileRec {
    if sizes == [] then file else AfterWrites(file, sizes[..|sizes| - 1]).Enroll(sizes[|sizes| - 1])
  }

  /**
   * An inherited file is never marked for appending, because probing asks for the flags of the descriptor. If
   * it is not empty and is appended to, as in `cmd >> log`, the writes are taken to overwrite it from the start,
   * and all of them that its former length covers are missing from the total.
   */
  lemma {:induction false} InheritedAppendIsShort(fs: FileSystem, name: string, flags: u64, sizes: seq<u64>)
    requires !HasFlag(flags, O_APPEND) && Sum(sizes) < TWO_TO_64
    ensures var file, length := AfterWrites(Opened(fs, name, flags), sizes), GetFileLength(fs, name);
            && file.currPos == Sum(sizes) && file.maxPos == Sum(sizes) && file.initSize == length
            && file.OutputSize() == Max(0, Sum(sizes) - length)
            && (file.OutputSize() == Sum(sizes) <==> length == 0 || Sum(sizes) == 0)
  {
    if sizes != [] { InheritedAppendIsShort(fs, name, flags, sizes[..|sizes| - 1]); }
  }

  /** Ten bytes appended to an inherited log of a thousand. */
  lemma TenBytesAreMissed()
    ensures var file := Opened(map["log" := 1000], "log", 0);
            AfterWrites(file, [10]).OutputSize() == 0
  {
    assert [10 as u64][..0] == [];
  }
}
