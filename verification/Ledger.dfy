/** Conservation: what was handed to the store and what is still to come add up to what the files grew. */
module Ledger {
  import opened Words
  import opened FileState
  import opened Storage
  import opened Syscalls
  import opened World
  import opened Invariants

  /** What the store was handed, in order. */
  function Outs(log: seq<Entry>): (outs: seq<OutputFile>)
    ensures |outs| == |log|
  {
    seq(|log|, i requires 0 <= i < |log| => log[i].out)
  }

  /** The records of the files below `n` that are in `ids`. */
  ghost function Records(w: World, ids: set<nat>, n: nat): multiset<OutputFile>
    requires Closed(w) && n <= |w.files|
  {
    if n == 0 then multiset{}
    else if n - 1 in ids then Records(w, ids, n - 1) + multiset{Record(w, n - 1)}
    else Records(w, ids, n - 1)
  }

  /** The records of all files below `n`. */
  ghost function AllRecords(w: World, n: nat): multiset<OutputFile>
    requires Closed(w) && n <= |w.files|
  {
    if n == 0 then multiset{} else AllRecords(w, n - 1) + multiset{Record(w, n - 1)}
  }

  ghost function LiveFiles(w: World): set<nat>
    requires Closed(w)
  {
    set f | 0 <= f < |w.files| && Live(w, f)
  }

  ghost function Handed(w: World): multiset<OutputFile> {
    multiset(Outs(w.log))
  }

  /** What tearing everything down would still hand over. */
  ghost function Outstanding(w: World): multiset<OutputFile>
    requires Closed(w)
  {
    Records(w, LiveFiles(w), |w.files|)
  }

  /** What will never be handed over. */
  ghost function Missing(w: World): multiset<OutputFile>
    requires Closed(w)
  {
    Records(w, w.lost, |w.files|)
  }

  /** The bytes that were handed over or still will be. */
  ghost function Due(w: World): nat
    requires Closed(w)
  {
    Total(Handed(w)) + Total(Outstanding(w))
  }

  ghost function LostBytes(w: World): nat
    requires Closed(w)
  {
    Total(Missing(w))
  }

  /** The output of all files ever opened. */
  function Produced(files: seq<FileRec>): nat {
    if files == [] then 0 else Produced(files[..|files| - 1]) + files[|files| - 1].OutputSize()
  }

  // ---------- the log and the files ----------

  lemma {:induction false} RecordsInsert(w: World, ids: set<nat>, f: nat, n: nat)
    requires Closed(w) && n <= |w.files| && f < |w.files| && f !in ids
    ensures f < n ==> Records(w, ids + {f}, n) == Records(w, ids, n) + multiset{Record(w, f)}
    ensures f >= n ==> Records(w, ids + {f}, n) == Records(w, ids, n)
  {
    if n > 0 {
      RecordsInsert(w, ids, f, n - 1);
      if f < n - 1 && n - 1 in ids {
        SwapLast(Records(w, ids, n - 1), Record(w, f), Record(w, n - 1));
      }
    }
  }

  lemma SwapLast(files: multiset<OutputFile>, a: OutputFile, b: OutputFile)
    ensures files + multiset{a} + multiset{b} == files + multiset{b} + multiset{a}
  {}

  lemma {:induction false} RecordsOfNone(w: World, n: nat)
    requires Closed(w) && n <= |w.files|
    ensures Records(w, {}, n) == multiset{}
  {
    if n > 0 { RecordsOfNone(w, n - 1); }
  }

  lemma {:induction false} RecordsSplit(w: World, a: set<nat>, b: set<nat>, c: set<nat>, n: nat)
    requires Closed(w) && n <= |w.files|
    requires forall f :: 0 <= f < n ==> (f in a <==> f !in b && f !in c) && !(f in b && f in c)
    ensures Records(w, a, n) + Records(w, b, n) + Records(w, c, n) == AllRecords(w, n)
  {
    if n > 0 {
      RecordsSplit(w, a, b, c, n - 1);
      MoveAcross(Records(w, a, n - 1), Records(w, b, n - 1), Records(w, c, n - 1), Record(w, n - 1));
    }
  }

  lemma MoveAcross(a: multiset<OutputFile>, b: multiset<OutputFile>, c: multiset<OutputFile>, file: OutputFile)
    ensures (a + multiset{file}) + b + c == (a + b + c) + multiset{file}
    ensures a + (b + multiset{file}) + c == (a + b + c) + multiset{file}
    ensures a + b + (c + multiset{file}) == (a + b + c) + multiset{file}
  {}

  lemma OutsSnoc(log: seq<Entry>, e: Entry)
    ensures Outs(log + [e]) == Outs(log) + [e.out]
    ensures multiset(Outs(log + [e])) == multiset(Outs(log)) + multiset{e.out}
  {
    assert Outs(log + [e]) == Outs(log) + [e.out];
  }

  lemma {:induction false} LogPrefix(w: World, k: nat)
    requires Books(w) && k <= |w.log|
    ensures multiset(Outs(w.log[..k])) == Records(w, Logged(w.log[..k]), |w.files|)
  {
    if k == 0 {
      assert Logged(w.log[..0]) == {} && Outs(w.log[..0]) == [];
      RecordsOfNone(w, |w.files|);
    } else {
      var front, last := w.log[..k - 1], w.log[k - 1];
      LogPrefix(w, k - 1);
      assert w.log[..k] == front + [last];
      OutsSnoc(front, last);
      LoggedSnoc(front, last);
      assert last.id !in Logged(front) by {
        assert forall e :: e in front ==> e.id != last.id;
      }
      RecordsInsert(w, Logged(front), last.id, |w.files|);
    }
  }

  /** The ledger: what was handed over, what is outstanding and what is lost are the records of all files. */
  lemma LedgerBalances(w: World)
    requires Books(w)
    ensures Handed(w) + Outstanding(w) + Missing(w) == AllRecords(w, |w.files|)
  {
    assert w.log[..|w.log|] == w.log;
    LogPrefix(w, |w.log|);
    RecordsSplit(w, Logged(w.log), LiveFiles(w), w.lost, |w.files|);
  }

  lemma {:induction false} TotalUnion(a: multiset<OutputFile>, b: multiset<OutputFile>)
    ensures Total(a + b) == Total(a) + Total(b)
    decreases |b|
  {
    if b == multiset{} {
      assert a + b == a;
    } else {
      var file :| file in b;
      var rest := b - multiset{file};
      assert a + b == (a + rest) + multiset{file} && b == rest + multiset{file};
      TotalUnion(a, rest);
      TotalPlusOne(a + rest, file);
      TotalPlusOne(rest, file);
    }
  }

  lemma {:induction false} TotalOfRecords(w: World, n: nat)
    requires Closed(w) && n <= |w.files|
    ensures Total(AllRecords(w, n)) == Produced(w.files[..n])
  {
    if n > 0 {
      var before, last := AllRecords(w, n - 1), Record(w, n - 1);
      assert Total(before) == Produced(w.files[..n - 1]) by { TotalOfRecords(w, n - 1); }
      assert Total(before + multiset{last}) == Total(before) + last.size by { TotalPlusOne(before, last); }
      assert Produced(w.files[..n]) == Produced(w.files[..n - 1]) + last.size by {
        assert w.files[..n][..n - 1] == w.files[..n - 1];
      }
    }
  }

  /** In bytes: what is due and what is lost make up what the files opened so far have grown by. */
  lemma LedgerInBytes(w: World)
    requires Books(w)
    ensures Due(w) + LostBytes(w) == Produced(w.files)
  {
    LedgerBalances(w);
    TotalUnion(Handed(w), Outstanding(w));
    TotalUnion(Handed(w) + Outstanding(w), Missing(w));
    TotalOfRecords(w, |w.files|);
    assert w.files[..|w.files|] == w.files;
  }

  // ---------- what one event adds to the ledger ----------

  lemma {:induction false} ProducedAppend(a: seq<FileRec>, b: seq<FileRec>)
    ensures Produced(a + b) == Produced(a) + Produced(b)
  {
    if b == [] {
      assert a + b == a;
    } else {
      assert (a + b)[..|a + b| - 1] == a + b[..|b| - 1];
      ProducedAppend(a, b[..|b| - 1]);
    }
  }

  lemma ProducedAround(front: seq<FileRec>, file: FileRec, back: seq<FileRec>)
    ensures Produced(front + [file] + back) == Produced(front) + file.OutputSize() + Produced(back)
  {
    ProducedAppend(front, [file]);
    ProducedAppend(front + [file], back);
    assert [file][..0] == [];
  }

  lemma ProducedUpdate(files: seq<FileRec>, f: nat, file: FileRec)
    requires f < |files|
    ensures Produced(files[f := file]) == Produced(files) - files[f].OutputSize() + file.OutputSize()
  {
    ProducedAround(files[..f], files[f], files[f + 1..]);
    ProducedAround(files[..f], file, files[f + 1..]);
    assert files == files[..f] + [files[f]] + files[f + 1..];
    assert files[f := file] == files[..f] + [file] + files[f + 1..];
  }

  /** By how much an event changes the output of all files together. */
  function Growth(w: World, e: Event, fs: FileSystem): int
    requires Closed(w) && AssertionsHold(w, e)
  {
    match e
    case Thread(_, _) => 0
    case Vanish(_) => 0
    case Process(parent, _, _, _) => Produced(Present(CopySources(w, w.tables[w.procMap[parent]].fds, false, fs)))
    case Exec(pid, _, _) => Produced(Present(CopySources(w, w.tables[w.procMap[pid]].fds, true, fs)))
    case SyscallExit(pid, regs, _) =>
      match Decode(regs)
      case Touch(fd, change) =>
        var slot := Slot(w.tables[w.procMap[pid]].fds, fd);
        if slot.None? then 0
        else Changed(w.files[slot.value], change).OutputSize() - w.files[slot.value].OutputSize()
      case _ => 0
  }

  lemma SetCloexecProducesNothing(w: World, t: nat, fd: nat, flags: u64)
    requires Closed(w) && t < |w.tables|
    ensures Produced(SetCloexec(w, t, fd, flags).files) == Produced(w.files)
  {
    var slot := Slot(w.tables[t].fds, fd);
    if slot.Some? { ProducedUpdate(w.files, slot.value, w.files[slot.value].SetCloexecFlag(HasFlag(flags, O_CLOEXEC))); }
  }

  lemma DupProducesNothing(w: World, t: nat, op: Op, link: string, fs: FileSystem)
    requires Closed(w) && t < |w.tables| && op.Dup?
    ensures Produced(Apply(w, t, op, link, fs).files) == Produced(w.files)
  {
    var dup := DupFd(w, t, op.oldfd, op.newfd);
    ClosedAfterDup(w, t, op.oldfd, op.newfd);
    if op.dupFlags.Some? { SetCloexecProducesNothing(dup, t, op.newfd, op.dupFlags.value); }
  }

  lemma ApplyProduces(w: World, pid: Pid, regs: Regs, link: string, fs: FileSystem)
    requires Closed(w) && pid in w.procMap
    ensures Produced(Apply(w, w.procMap[pid], Decode(regs), link, fs).files) ==
            Produced(w.files) + Growth(w, SyscallExit(pid, regs, link), fs)
  {
    var t, op := w.procMap[pid], Decode(regs);
    match op
    case Touch(fd, change) =>
      var slot := Slot(w.tables[t].fds, fd);
      if slot.Some? { ProducedUpdate(w.files, slot.value, Changed(w.files[slot.value], change)); }
    case OpenWrite(fd, flags) =>
      ProducedAppend(w.files, [Opened(fs, link, flags)]);
      assert [Opened(fs, link, flags)][..0] == [];
    case Dup(_, _, _) => DupProducesNothing(w, t, op, link, fs);
    case _ =>
  }

  /** The output of the file that an event loses: an open does, if it overwrites a last reference. */
  function Loss(w: World, e: Event): nat
    requires Closed(w) && AssertionsHold(w, e)
  {
    match e
    case SyscallExit(pid, regs, _) =>
      (match Decode(regs)
       case OpenWrite(fd, _) =>
         var t := w.procMap[pid];
         if Spare(w, t, fd) then 0 else w.files[w.tables[t].fds[fd].value].OutputSize()
       case _ => 0)
    case _ => 0
  }

  /** Files that nothing refers to stay as they are, and so do their records. */
  lemma Settles(w: World, e: Event, fs: FileSystem, f: nat)
    requires Inv(w) && Permitted(w, e) && f < |w.files| && !Live(w, f)
    ensures var w' := Step(w, e, fs);
            f < |w'.files| && Closed(w') && Record(w', f) == Record(w, f)
  {
    StepKeepsInv(w, e, fs);
    match e
    case SyscallExit(pid, regs, link) =>
      ApplyFrame(w, w.procMap[pid], Decode(regs), link, fs);
      ApplySettles(w, w.procMap[pid], Decode(regs), link, fs, f);
    case _ =>
  }

  lemma ApplySettles(w: World, t: nat, op: Op, link: string, fs: FileSystem, f: nat)
    requires Owned(w) && t < |w.tables| && f < |w.files| && !Live(w, f)
    ensures f < |Apply(w, t, op, link, fs).files| && Apply(w, t, op, link, fs).files[f] == w.files[f]
  {
    match op
    case Touch(fd, change) =>
      if Slot(w.tables[t].fds, fd).Some? { assert w.tables[t].fds[fd] in w.tables[t].fds; }
    case Dup(oldfd, newfd, flags) =>
      ClosedAfterDup(w, t, oldfd, newfd);
      var dup := DupFd(w, t, oldfd, newfd);
      assert dup.files == w.files;
      if DupSucceeds(w, t, oldfd, newfd) {
        assert w.tables[t].fds[oldfd] in w.tables[t].fds;
        assert Slot(dup.tables[t].fds, newfd) == w.tables[t].fds[oldfd];
      }
    case _ =>
  }

  /** The records of some files do not change if none of theirs does, however many files are added. */
  lemma {:induction false} SameRecordsOf(w: World, w': World, ids: set<nat>, n: nat, n': nat)
    requires Closed(w) && Closed(w') && n <= |w.files| && n <= n' <= |w'.files|
    requires forall f :: f in ids ==> f < n && Record(w', f) == Record(w, f)
    ensures Records(w', ids, n') == Records(w, ids, n)
    decreases n'
  {
    if n' > n {
      SameRecordsOf(w, w', ids, n, n' - 1);
    } else if n > 0 {
      RecordsBelow(w, w', ids, n);
    }
  }

  lemma {:induction false} RecordsBelow(w: World, w': World, ids: set<nat>, n: nat)
    requires Closed(w) && Closed(w') && n <= |w.files| && n <= |w'.files|
    requires forall f :: f in ids && f < n ==> Record(w', f) == Record(w, f)
    ensures Records(w', ids, n) == Records(w, ids, n)
  {
    if n > 0 { RecordsBelow(w, w', ids, n - 1); }
  }

  lemma LostBy(w: World, e: Event, fs: FileSystem)
    requires Inv(w) && Permitted(w, e)
    ensures var w' := Step(w, e, fs);
            w'.lost == w.lost + (match e
                                 case SyscallExit(pid, regs, _) =>
                                   (match Decode(regs) case OpenWrite(fd, _) => Overwritten(w, w.procMap[pid], fd) case _ => {})
                                 case _ => {})
  {
    match e
    case SyscallExit(pid, regs, link) =>
      if Decode(regs).Dup? { DupLosesNothing(w, w.procMap[pid], Decode(regs), link, fs); }
    case _ =>
  }

  lemma DupLosesNothing(w: World, t: nat, op: Op, link: string, fs: FileSystem)
    requires Closed(w) && t < |w.tables| && op.Dup?
    ensures Apply(w, t, op, link, fs).lost == w.lost
  {
    ClosedAfterDup(w, t, op.oldfd, op.newfd);
    assert DupFd(w, t, op.oldfd, op.newfd).lost == w.lost;
  }

  /** What is missing grows exactly by what an open overwrites. */
  lemma LossStep(w: World, e: Event, fs: FileSystem)
    requires Inv(w) && Permitted(w, e)
    ensures Inv(Step(w, e, fs)) && LostBytes(Step(w, e, fs)) == LostBytes(w) + Loss(w, e)
  {
    assert Inv(Step(w, e, fs)) by { StepKeepsInv(w, e, fs); }
    if e.SyscallExit? && Decode(e.regs).OpenWrite? && !Spare(w, w.procMap[e.pid], Decode(e.regs).fd) {
      OverwrittenIsMissing(w, w.procMap[e.pid], Decode(e.regs).fd, Opened(fs, e.link, Decode(e.regs).flags));
    } else {
      assert Step(w, e, fs).lost == w.lost by { LostBy(w, e, fs); }
      SameMissing(w, e, fs);
    }
  }

  lemma SameMissing(w: World, e: Event, fs: FileSystem)
    requires Inv(w) && Permitted(w, e) && Step(w, e, fs).lost == w.lost
    ensures Closed(Step(w, e, fs)) && Missing(Step(w, e, fs)) == Missing(w)
  {
    var w' := Step(w, e, fs);
    assert Closed(w') by { StepKeepsInv(w, e, fs); }
    forall f | f in w.lost ensures f < |w.files| && f < |w'.files| && Record(w', f) == Record(w, f) {
      Settles(w, e, fs, f);
    }
    assert |w.files| <= |w'.files| by { FilesAreAdded(w, e, fs); }
    SameRecordsOf(w, w', w.lost, |w.files|, |w'.files|);
  }

  lemma OverwrittenIsMissing(w: World, t: nat, fd: nat, file: FileRec)
    requires Books(w) && t < |w.tables| && !Spare(w, t, fd)
    ensures var w', f := OpenWriteFile(w, t, fd, file), w.tables[t].fds[fd].value;
            Closed(w') && f < |w.files| && LostBytes(w') == LostBytes(w) + w.files[f].OutputSize()
  {
    var w', f := OpenWriteFile(w, t, fd, file), w.tables[t].fds[fd].value;
    OpenKeepsBooks(w, t, fd, file);
    OpenOverwrites(w, t, fd, file);
    SameRecordsOf(w, w', w.lost, |w.files|, |w'.files|);
    RecordsInsert(w', w.lost, f, |w'.files|);
    TotalPlusOne(Missing(w), Record(w, f));
  }

  /**
   * Closing, duplicating and the end of threads and processes move bytes from one side of the ledger to the
   * other; a write adds what its one file grew by; an open adds nothing, and takes away what it overwrites; a
   * copy adds what the copy shows.
   */
  lemma LedgerStep(w: World, e: Event, fs: FileSystem)
    requires Inv(w) && Permitted(w, e)
    ensures Inv(Step(w, e, fs))
    ensures Due(Step(w, e, fs)) + Loss(w, e) == Due(w) + Growth(w, e, fs)
  {
    LossStep(w, e, fs);
    ProducedStep(w, e, fs);
    assert Due(w) + LostBytes(w) == Produced(w.files) by { LedgerInBytes(w); }
    assert Due(Step(w, e, fs)) + LostBytes(Step(w, e, fs)) == Produced(Step(w, e, fs).files) by { LedgerInBytes(Step(w, e, fs)); }
  }

  lemma ProducedStep(w: World, e: Event, fs: FileSystem)
    requires Inv(w) && Permitted(w, e)
    ensures Produced(Step(w, e, fs).files) == Produced(w.files) + Growth(w, e, fs)
  {
    match e
    case Process(parent, _, _, _) =>
      ProducedAppend(w.files, Present(CopySources(w, w.tables[w.procMap[parent]].fds, false, fs)));
    case Exec(pid, comm, cmdline) =>
      ProducedAppend(w.files, Present(CopySources(w, w.tables[w.procMap[pid]].fds, true, fs)));
    case SyscallExit(pid, regs, link) => ApplyProduces(w, pid, regs, link, fs);
    case _ =>
  }

  // ---------- the end of a run ----------

  /** A list of some of `pids`, each once. */
  ghost predicate Lists(order: seq<Pid>, pids: set<Pid>) {
    && (forall i, j :: 0 <= i < j < |order| ==> order[i] != order[j])
    && forall pid :: pid in order ==> pid in pids
  }

  /** A list of all of them. */
  ghost predicate Enumerates(order: seq<Pid>, pids: set<Pid>) {
    Lists(order, pids) && forall pid :: pid in pids ==> pid in order
  }

  /** `PostProcess` makes everything known vanish, in whatever order the hash map yields. */
  ghost function Drain(w: World, order: seq<Pid>): (w': World)
    requires Closed(w) && Lists(order, w.procMap.Keys)
    ensures Closed(w') && forall pid :: pid in w'.procMap <==> pid in w.procMap && pid !in order
    ensures Inv(w) ==> Inv(w')
    ensures w'.files == w.files && w'.homes == w.homes && w'.lost == w.lost && |w'.tables| == |w.tables|
    ensures forall t :: 0 <= t < |w.tables| ==> w'.tables[t].info == w.tables[t].info
    decreases |order|
  {
    if order == [] then w
    else
      assert order[0] in order;
      var w' := VanishProcess(w, order[0]);
      ListsRest(order, w.procMap.Keys);
      assert w'.procMap.Keys == w.procMap.Keys - {order[0]};
      assert Inv(w) ==> Inv(w') by { if Inv(w) { VanishKeepsInv(w, order[0]); } }
      Drain(w', order[1..])
  }

  lemma ListsRest(order: seq<Pid>, pids: set<Pid>)
    requires Lists(order, pids) && order != []
    ensures Lists(order[1..], pids - {order[0]})
    ensures forall pid :: pid in order <==> pid == order[0] || pid in order[1..]
  {
    assert order == [order[0]] + order[1..];
  }

  /** Draining hands over every file that is not lost, exactly once, whatever the order. */
  lemma DrainHandsOverEverything(w: World, order: seq<Pid>)
    requires Inv(w)
    requires Enumerates(order, w.procMap.Keys)
    ensures Handed(Drain(w, order)) == Handed(w) + Outstanding(w)
    ensures Outstanding(Drain(w, order)) == multiset{}
    ensures forall f :: 0 <= f < |w.files| ==> (f in Logged(Drain(w, order).log) <==> f !in w.lost)
  {
    var w' := Drain(w, order);
    assert LiveFiles(w') == {} by { DrainLeavesNothing(w, order); }
    assert Outstanding(w') == multiset{} by { RecordsOfNone(w', |w'.files|); }
    assert Handed(w) + Outstanding(w) + Missing(w) == AllRecords(w, |w.files|) by { LedgerBalances(w); }
    assert Handed(w') + multiset{} + Missing(w') == AllRecords(w, |w.files|) by {
      LedgerBalances(w');
      AllRecordsAgree(w, w', |w.files|);
    }
    assert Missing(w') == Missing(w) by { RecordsBelow(w, w', w.lost, |w.files|); }
    Cancel(Handed(w'), Handed(w) + Outstanding(w), Missing(w));
    forall f | 0 <= f < |w.files| ensures !Live(w', f) { assert f !in LiveFiles(w'); }
  }

  lemma DrainLeavesNothing(w: World, order: seq<Pid>)
    requires Inv(w) && Enumerates(order, w.procMap.Keys)
    ensures LiveFiles(Drain(w, order)) == {}
  {
    var w' := Drain(w, order);
    assert w'.leaders == {} by { assert forall pid :: pid in w.procMap ==> pid in order; }
    assert LeaderTables(w') == {};
  }

  lemma {:induction false} AllRecordsAgree(w: World, w': World, n: nat)
    requires Closed(w) && Closed(w') && n <= |w.files| && n <= |w'.files|
    requires forall f :: 0 <= f < n ==> Record(w', f) == Record(w, f)
    ensures AllRecords(w', n) == AllRecords(w, n)
  {
    if n > 0 { AllRecordsAgree(w, w', n - 1); }
  }

  lemma Cancel(a: multiset<OutputFile>, b: multiset<OutputFile>, c: multiset<OutputFile>)
    requires a + multiset{} + c == b + c
    ensures a == b
  {
    forall file ensures a[file] == b[file] {
      assert (a + multiset{} + c)[file] == a[file] + c[file];
      assert (b + c)[file] == b[file] + c[file];
    }
  }

  /** However a state is drained, the store ends up with what is due: the growth of all files that are not lost. */
  lemma FinalTotal(w: World, order: seq<Pid>, capacity: int, storeEmpty: bool)
    requires Inv(w) && Enumerates(order, w.procMap.Keys)
    ensures RunningTotal(Outs(Drain(w, order).log), capacity, storeEmpty) == if capacity == 0 then 0 else Wrap(Due(w))
    ensures Due(w) + LostBytes(w) == Produced(w.files)
  {
    var outs := Outs(Drain(w, order).log);
    assert multiset(outs) == Handed(w) + Outstanding(w) by { DrainHandsOverEverything(w, order); }
    assert Total(Handed(w) + Outstanding(w)) == Due(w) by { TotalUnion(Handed(w), Outstanding(w)); }
    RunningTotalIsTotal(outs, capacity, storeEmpty);
    LedgerInBytes(w);
  }

  /**
   * Two ways to drain the same state, with any two heaps, end in the same total, which is what all files that
   * are not lost have grown by together, and in reports of the same sizes.
   */
  lemma OrderDoesNotMatter(w: World, order: seq<Pid>, order': seq<Pid>, capacity: int, storeEmpty: bool,
                           total: u64, total': u64, report: seq<OutputFile>, report': seq<OutputFile>)
    requires Inv(w) && Enumerates(order, w.procMap.Keys) && Enumerates(order', w.procMap.Keys)
    requires NonIncreasing(report) && NonIncreasing(report')
    requires Consistent(total, multiset(report), Outs(Drain(w, order).log), capacity, storeEmpty)
    requires Consistent(total', multiset(report'), Outs(Drain(w, order').log), capacity, storeEmpty)
    ensures total == total' == if capacity == 0 then 0 else Wrap(Due(w))
    ensures Due(w) + LostBytes(w) == Produced(w.files)
    ensures |report| == |report'|
    ensures forall i :: 0 <= i < |report| ==> report[i].size == report'[i].size
  {
    var handed, handed' := Outs(Drain(w, order).log), Outs(Drain(w, order').log);
    FinalTotal(w, order, capacity, storeEmpty);
    assert multiset(handed) == multiset(handed') by {
      DrainHandsOverEverything(w, order);
      DrainHandsOverEverything(w, order');
    }
    ReportIsDetermined(handed, handed', capacity, storeEmpty, total, total', report, report');
  }
}
