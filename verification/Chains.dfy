/**
 * The life of one file through a whole run: each exec hands over what was written so far and goes on with a
 * copy, and the parts add up to what the file has grown by.
 */
module Chains {
  import opened Words
  import opened FileState
  import Storage
  import opened Syscalls
  import opened World
  import opened Invariants
  import opened Ownership
  import opened Growth

  // ---------- the log only grows, and says the same of a file for ever ----------

  lemma {:induction false} TearDownFromLogs(w: World, t: nat, i: nat)
    requires Closed(w) && t < |w.tables| && i <= |w.tables[t].fds|
    ensures w.log <= TearDownFrom(w, t, i).log
    decreases |w.tables[t].fds| - i
  {
    if i < |w.tables[t].fds| {
      if w.tables[t].fds[i].Some? { TearDownFromLogs(TearDown(w, t, i), t, i + 1); } else { TearDownFromLogs(w, t, i + 1); }
    }
  }

  lemma VanishLogs(w: World, pid: Pid)
    requires Closed(w) && pid in w.procMap
    ensures w.log <= VanishProcess(w, pid).log
  {
    TearDownFromLogs(w, w.procMap[pid], 0);
  }

  lemma ApplyLogs(w: World, t: nat, op: Op, link: string, fs: FileSystem)
    requires Closed(w) && t < |w.tables|
    ensures w.log <= Apply(w, t, op, link, fs).log
  {
    if op.Dup? {
      ClosedAfterDup(w, t, op.oldfd, op.newfd);
      assert w.log <= CloseFd(w, t, op.newfd).log;
      assert w.log <= DupFd(w, t, op.oldfd, op.newfd).log;
    }
  }

  lemma StepLogs(w: World, e: Event, fs: FileSystem)
    requires Closed(w) && AssertionsHold(w, e)
    ensures w.log <= Step(w, e, fs).log
  {
    match e
    case Vanish(pid) => VanishLogs(w, pid);
    case Exec(pid, comm, cmdline) =>
      var former := w.tables[w.procMap[pid]];
      var sources, info := CopySources(w, former.fds, true, fs), Storage.ProcInfo(pid, former.info.ppid, comm, cmdline);
      ClosedWithTable(w, sources, info);
      VanishLogs(WithTable(w, sources, info), pid);
    case SyscallExit(pid, regs, link) => ApplyLogs(w, w.procMap[pid], Decode(regs), link, fs);
    case _ =>
  }

  /** What was handed over stays handed over, with the same size. */
  lemma LoggedForEver(w: World, e: Event, fs: FileSystem, f: nat)
    requires Inv(w) && Permitted(w, e) && f in Logged(w.log)
    ensures var w' := Step(w, e, fs);
            Inv(w') && f in Logged(w'.log) && f < |w.files| <= |w'.files| && w'.files[f].OutputSize() == w.files[f].OutputSize()
  {
    StepKeepsInv(w, e, fs);
    StepLogs(w, e, fs);
    var w' := Step(w, e, fs);
    var i :| 0 <= i < |w.log| && w.log[i].id == f;
    assert w'.log[i] == w.log[i] && w'.log[i] in w'.log;
    FilesAreAdded(w, e, fs);
  }

  // ---------- one file through a run ----------

  /** What a step of a run is to the file: a call on its descriptor, an exec of its process, or neither. */
  datatype Turn = Own(call: Call) | Image | Elsewhere

  predicate Holds(w: World, pid: Pid, fd: nat, f: nat) {
    Closed(w) && pid in w.procMap && Slot(TableAt(w, pid), fd) == Some(f)
  }

  predicate SameProcess(w: World, p: Pid, q: Pid) {
    p in w.procMap && q in w.procMap && w.procMap[p] == w.procMap[q]
  }

  /**
   * Anything may happen elsewhere that is not an exec or the end of the process itself, and no call by one of
   * its threads on the descriptor or on another one that shares its file. New descriptors may come to share it.
   */
  predicate IsElsewhere(w: World, e: Event, pid: Pid, fd: nat, f: nat)
    requires Holds(w, pid, fd, f)
  {
    match e
    case Thread(_, _) => true
    case Process(_, _, _, _) => true
    case Exec(p, _, _) => p != pid
    case Vanish(p) => p != pid
    case SyscallExit(p, regs, _) => SameProcess(w, p, pid) ==> Spares(TableAt(w, pid), Decode(regs), fd, f)
  }

  /** Neither the slot nor its file is what the call is about. */
  predicate Spares(fds: seq<Option<nat>>, op: Op, fd: nat, f: nat) {
    match op
    case Nop => true
    case Touch(at, _) => Slot(fds, at) != Some(f)
    case OpenWrite(at, _) => at != fd
    case Close(at) => at != fd
    case Dup(oldfd, newfd, flags) => oldfd == newfd || (newfd != fd && (flags.Some? ==> Slot(fds, oldfd) != Some(f)))
  }

  /** The calls are faithful (Growth.Faithful), and the descriptor is not marked close-on-exec at an exec. */
  ghost predicate TurnOk(w: World, m: Moment, turn: Turn, pid: Pid, fd: nat, f: nat, ref: Reference, ref': Reference,
                         append: bool)
    requires Holds(w, pid, fd, f)
  {
    match turn
    case Own(c) =>
      && m.event.SyscallExit? && SameProcess(w, m.event.pid, pid) && Encodes(c, m.event.regs, fd)
      && Fits(ref, c) && Faithful(c, ref, append) && ref' == Growth.Performed(ref, c, append)
    case Image =>
      && m.event.Exec? && m.event.pid == pid && ref' == ref
      && GetFileLength(m.fs, w.files[f].filename) == ref.length && !w.files[f].IsCloexecSet()
    case Elsewhere => IsElsewhere(w, m.event, pid, fd, f) && ref' == ref
  }

  /** The sizes of some files, added up. */
  function Sizes(w: World, ids: seq<nat>): nat
    requires forall i :: 0 <= i < |ids| ==> ids[i] < |w.files|
  {
    if ids == [] then 0 else Sizes(w, ids[..|ids| - 1]) + w.files[ids[|ids| - 1]].OutputSize()
  }

  ghost predicate AllLogged(w: World, ids: seq<nat>)
    requires Closed(w)
  {
    && (forall i :: 0 <= i < |ids| ==> ids[i] < |w.files| && ids[i] in Logged(w.log))
    && forall i, j :: 0 <= i < j < |ids| ==> ids[i] != ids[j]
  }

  /** `parts` were handed over on the way, `f` is what the descriptor refers to now. */
  ghost predicate Sums(w: World, pid: Pid, fd: nat, f: nat, parts: seq<nat>, first: Reference, ref: Reference, append: bool) {
    && Inv(w) && pid in w.leaders && Holds(w, pid, fd, f)
    && Agrees(w.files[f], ref, append)
    && AllLogged(w, parts)
    && Sizes(w, parts) + w.files[f].OutputSize() == ref.length - first.length
  }

  lemma {:induction false} SameSizes(w: World, w': World, ids: seq<nat>)
    requires |w.files| <= |w'.files|
    requires forall i :: 0 <= i < |ids| ==>
               ids[i] < |w.files| && w'.files[ids[i]].OutputSize() == w.files[ids[i]].OutputSize()
    ensures Sizes(w', ids) == Sizes(w, ids)
  {
    if ids != [] {
      var front := ids[..|ids| - 1];
      assert forall i :: 0 <= i < |front| ==> front[i] == ids[i];
      SameSizes(w, w', front);
    }
  }

  lemma SizesStay(w: World, m: Moment, w': World, ids: seq<nat>)
    requires Inv(w) && Next(w, m, w') && AllLogged(w, ids)
    ensures Inv(w') && AllLogged(w', ids) && Sizes(w', ids) == Sizes(w, ids)
  {
    assert Inv(w') by { StepKeepsInv(w, m.event, m.fs); }
    forall i | 0 <= i < |ids|
      ensures ids[i] in Logged(w'.log)
      ensures ids[i] < |w.files| <= |w'.files| && w'.files[ids[i]].OutputSize() == w.files[ids[i]].OutputSize()
    {
      LoggedForEver(w, m.event, m.fs, ids[i]);
    }
    FilesAreAdded(w, m.event, m.fs);
    SameSizes(w, w', ids);
  }

  lemma OneMorePart(w: World, parts: seq<nat>, f: nat)
    requires Closed(w) && AllLogged(w, parts) && f < |w.files| && f in Logged(w.log) && f !in parts
    ensures AllLogged(w, parts + [f]) && Sizes(w, parts + [f]) == Sizes(w, parts) + w.files[f].OutputSize()
  {
    assert (parts + [f])[..|parts|] == parts;
  }

  /** What a call does to the file of its descriptor is what module Growth says. */
  lemma OwnCall(w: World, pid: Pid, fd: nat, f: nat, c: Call, thread: Pid, r: Regs, link: string, fs: FileSystem)
    requires Inv(w) && Holds(w, pid, fd, f) && pid in w.leaders && SameProcess(w, thread, pid) && Encodes(c, r, fd)
    ensures var e := SyscallExit(thread, r, link);
            && Permitted(w, e) && Holds(Step(w, e, fs), pid, fd, f) && Step(w, e, fs).leaders == w.leaders
            && f < |w.files| && f < |Step(w, e, fs).files| && Step(w, e, fs).files[f] == Tracked(w.files[f], r)
  {
    CallDecoded(c, r, fd);
    assert w.procMap[pid] in LeaderTables(w);
  }

  lemma OwnTurn(w: World, m: Moment, w': World, c: Call, pid: Pid, fd: nat, f: nat, parts: seq<nat>,
                first: Reference, ref: Reference, ref': Reference, append: bool)
    requires Sums(w, pid, fd, f, parts, first, ref, append) && Next(w, m, w')
    requires TurnOk(w, m, Own(c), pid, fd, f, ref, ref', append)
    ensures Sums(w', pid, fd, f, parts, first, ref', append)
  {
    var r := m.event.regs;
    SizesStay(w, m, w', parts);
    OwnCall(w, pid, fd, f, c, m.event.pid, r, m.event.link, m.fs);
    AgreesExactlyWhenFaithful(w.files[f], ref, c, r, fd, append);
    MaxPosNeverDecreases(w.files[f], r);
    OutputIsGrowth(w.files[f], ref, append);
    OutputIsGrowth(w'.files[f], ref', append);
  }

  /** An exec hands the file over, whatever else refers to it, and the descriptor refers to a copy. */
  lemma ImageHandsOver(w: World, pid: Pid, comm: string, cmdline: string, fs: FileSystem, fd: nat, f: nat) returns (f': nat)
    requires Inv(w) && Holds(w, pid, fd, f) && pid in w.leaders && !w.files[f].IsCloexecSet()
    ensures var w' := RegisterExec(w, pid, comm, cmdline, fs);
            && Inv(w') && pid in w'.leaders && Holds(w', pid, fd, f') && |w.files| <= f' < |w'.files|
            && w'.files[f'] == Copied(fs, w.files[f])
            && f < |w.files| && w'.files[f] == w.files[f] && f in Logged(w'.log) && f !in Logged(w.log)
  {
    ExecCopies(w, pid, comm, cmdline, fs, fd);
    var w' := RegisterExec(w, pid, comm, cmdline, fs);
    f' := Slot(TableAt(w', pid), fd).value;
    assert TableAt(w, pid)[fd] in TableAt(w, pid);
    assert Live(w, f);
    forall i | 0 <= i < |w'.tables[w.procMap[pid]].fds| ensures w'.tables[w.procMap[pid]].fds[i] == None {
      ExecCopies(w, pid, comm, cmdline, fs, i);
    }
    assert !Live(w', f);
  }

  lemma ImageTurn(w: World, m: Moment, w': World, pid: Pid, fd: nat, f: nat, parts: seq<nat>,
                  first: Reference, ref: Reference, append: bool) returns (f': nat)
    requires Sums(w, pid, fd, f, parts, first, ref, append) && Next(w, m, w')
    requires TurnOk(w, m, Image, pid, fd, f, ref, ref, append)
    ensures Sums(w', pid, fd, f', parts + [f], first, ref, append)
  {
    SizesStay(w, m, w', parts);
    f' := ImageHandsOver(w, pid, m.event.comm, m.event.cmdline, m.fs, fd, f);
    OutputIsGrowth(w'.files[f'], ref, append);
    OneMorePart(w', parts, f);
  }

  ghost predicate TurnAt(worlds: seq<World>, run: seq<Moment>, turns: seq<Turn>, refs: seq<Reference>, pid: Pid, fd: nat,
                         append: bool, i: nat)
  {
    && i < |run| < |worlds| && |turns| == |run| < |refs|
    && forall f :: Holds(worlds[i], pid, fd, f) ==>
         TurnOk(worlds[i], run[i], turns[i], pid, fd, f, refs[i], refs[i + 1], append)
  }

  /**
   * Take any run, and a file that one descriptor of one process writes to, with faithful calls, between any
   * number of execs. The sizes handed over at the execs and the size that is still to come add up to the
   * growth of the file.
   */
  lemma ChainTelescopes(worlds: seq<World>, run: seq<Moment>, turns: seq<Turn>, refs: seq<Reference>, pid: Pid, fd: nat,
                        first: nat, append: bool, n: nat)
      returns (f: nat, parts: seq<nat>)
    requires Trace(worlds, run) && n <= |run|
    requires forall i :: 0 <= i < |run| ==> TurnAt(worlds, run, turns, refs, pid, fd, append, i)
    requires |refs| > 0 && Inv(worlds[0]) && pid in worlds[0].leaders && Holds(worlds[0], pid, fd, first)
    requires Agrees(worlds[0].files[first], refs[0], append) && worlds[0].files[first].initSize == refs[0].length
    ensures |refs| > n && Sums(worlds[n], pid, fd, f, parts, refs[0], refs[n], append)
  {
    assert Sums(worlds[0], pid, fd, first, [], refs[0], refs[0], append) by {
      OutputIsGrowth(worlds[0].files[first], refs[0], append);
    }
    f, parts := ChainGoesOn(worlds, run, turns, refs, pid, fd, first, append, n);
  }

  lemma {:induction false} ChainGoesOn(worlds: seq<World>, run: seq<Moment>, turns: seq<Turn>, refs: seq<Reference>,
                                       pid: Pid, fd: nat, first: nat, append: bool, n: nat)
      returns (f: nat, parts: seq<nat>)
    requires Trace(worlds, run) && n <= |run| && |refs| > 0
    requires forall i :: 0 <= i < |run| ==> TurnAt(worlds, run, turns, refs, pid, fd, append, i)
    requires Sums(worlds[0], pid, fd, first, [], refs[0], refs[0], append)
    ensures |refs| > n && Sums(worlds[n], pid, fd, f, parts, refs[0], refs[n], append)
  {
    f, parts := first, [];
    if n > 0 {
      f, parts := ChainGoesOn(worlds, run, turns, refs, pid, fd, first, append, n - 1);
      f, parts := TurnOf(worlds, run, turns, refs, pid, fd, append, n - 1, f, parts);
    }
  }

  lemma TurnOf(worlds: seq<World>, run: seq<Moment>, turns: seq<Turn>, refs: seq<Reference>, pid: Pid, fd: nat,
               append: bool, i: nat, f: nat, parts: seq<nat>) returns (f': nat, parts': seq<nat>)
    requires Trace(worlds, run) && i < |run| && |refs| > i
    requires forall k :: 0 <= k < |run| ==> TurnAt(worlds, run, turns, refs, pid, fd, append, k)
    requires Sums(worlds[i], pid, fd, f, parts, refs[0], refs[i], append)
    ensures |refs| > i + 1 && Sums(worlds[i + 1], pid, fd, f', parts', refs[0], refs[i + 1], append)
  {
    assert NextAt(worlds, run, i) && TurnAt(worlds, run, turns, refs, pid, fd, append, i);
    f', parts' := NextTurn(worlds[i], run[i], worlds[i + 1], turns[i], pid, fd, f, parts, refs[0], refs[i], refs[i + 1], append);
  }

  /** What happens in another table changes neither the slot nor the file. */
  lemma OtherTable(w: World, t: nat, u: nat, op: Op, link: string, fs: FileSystem, f: nat)
    requires Owned(w) && t < |w.tables| && u < |w.tables| && t != u && f < |w.files| && w.homes[f] == t
    ensures var w' := Apply(w, u, op, link, fs);
            |w.tables| == |w'.tables| && w'.tables[t] == w.tables[t] && f < |w'.files| && w'.files[f] == w.files[f]
  {
    if op.Dup? { OtherTableDup(w, t, u, op, link, fs, f); }
  }

  lemma OtherTableDup(w: World, t: nat, u: nat, op: Op, link: string, fs: FileSystem, f: nat)
    requires Owned(w) && t < |w.tables| && u < |w.tables| && t != u && f < |w.files| && w.homes[f] == t && op.Dup?
    ensures var w' := Apply(w, u, op, link, fs);
            |w.tables| == |w'.tables| && w'.tables[t] == w.tables[t] && f < |w'.files| && w'.files[f] == w.files[f]
  {
    var dup, slot := DupFd(w, u, op.oldfd, op.newfd), Slot(w.tables[u].fds, op.oldfd);
    ClosedAfterDup(w, u, op.oldfd, op.newfd);
    assert dup.files == w.files && dup.tables[t] == w.tables[t];
    if DupSucceeds(w, u, op.oldfd, op.newfd) {
      assert Slot(dup.tables[u].fds, op.newfd) == slot && slot != Some(f);
    }
  }

  lemma SameTable(w: World, t: nat, op: Op, link: string, fs: FileSystem, fd: nat, f: nat)
    requires Owned(w) && t < |w.tables| && Slot(w.tables[t].fds, fd) == Some(f) && Spares(w.tables[t].fds, op, fd, f)
    ensures var w' := Apply(w, t, op, link, fs);
            t < |w'.tables| && Slot(w'.tables[t].fds, fd) == Some(f) && f < |w.files| && f < |w'.files| && w'.files[f] == w.files[f]
  {
    if op.Dup? { SameTableDup(w, t, op, link, fs, fd, f); }
  }

  lemma SameTableDup(w: World, t: nat, op: Op, link: string, fs: FileSystem, fd: nat, f: nat)
    requires Closed(w) && t < |w.tables| && op.Dup?
    requires Slot(w.tables[t].fds, fd) == Some(f) && Spares(w.tables[t].fds, op, fd, f)
    ensures var w' := Apply(w, t, op, link, fs);
            t < |w'.tables| && Slot(w'.tables[t].fds, fd) == Some(f) && f < |w.files| && f < |w'.files| && w'.files[f] == w.files[f]
  {
    var dup, slot := DupFd(w, t, op.oldfd, op.newfd), Slot(w.tables[t].fds, op.oldfd);
    ClosedAfterDup(w, t, op.oldfd, op.newfd);
    assert dup.files == w.files;
    if op.oldfd != op.newfd {
      var closed := CloseFd(w, t, op.newfd);
      assert Slot(closed.tables[t].fds, fd) == Some(f) && Slot(closed.tables[t].fds, op.oldfd) == slot;
      assert Slot(Resized(closed.tables[t].fds, op.newfd + 1), fd) == Some(f);
      assert Slot(dup.tables[t].fds, fd) == Some(f);
      if slot.Some? { assert Slot(dup.tables[t].fds, op.newfd) == slot; }
    }
  }

  /** Ownership keeps the file as it is through everything that happens elsewhere. */
  lemma ElsewhereKeeps(w: World, m: Moment, w': World, pid: Pid, fd: nat, f: nat)
    requires Inv(w) && Next(w, m, w') && pid in w.leaders && Holds(w, pid, fd, f) && IsElsewhere(w, m.event, pid, fd, f)
    ensures pid in w'.leaders && Holds(w', pid, fd, f) && f < |w.files| && f < |w'.files| && w'.files[f] == w.files[f]
  {
    StepKeepsInv(w, m.event, m.fs);
    var t := w.procMap[pid];
    match m.event
    case Exec(p, comm, cmdline) =>
      var former := w.tables[w.procMap[p]];
      ClosedWithTable(w, CopySources(w, former.fds, true, m.fs), Storage.ProcInfo(p, former.info.ppid, comm, cmdline));
    case SyscallExit(p, regs, link) =>
      ApplyFrame(w, w.procMap[p], Decode(regs), link, m.fs);
      if w.procMap[p] == t { SameTable(w, t, Decode(regs), link, m.fs, fd, f); }
      else { OtherTable(w, t, w.procMap[p], Decode(regs), link, m.fs, f); }
    case _ =>
  }

  lemma NextTurn(w: World, m: Moment, w': World, turn: Turn, pid: Pid, fd: nat, f: nat, parts: seq<nat>,
                 first: Reference, ref: Reference, ref': Reference, append: bool) returns (f': nat, parts': seq<nat>)
    requires Sums(w, pid, fd, f, parts, first, ref, append) && Next(w, m, w')
    requires TurnOk(w, m, turn, pid, fd, f, ref, ref', append)
    ensures Sums(w', pid, fd, f', parts', first, ref', append)
  {
    f', parts' := f, parts;
    match turn
    case Own(c) => OwnTurn(w, m, w', c, pid, fd, f, parts, first, ref, ref', append);
    case Image =>
      f' := ImageTurn(w, m, w', pid, fd, f, parts, first, ref, append);
      parts' := parts + [f];
    case Elsewhere =>
      SizesStay(w, m, w', parts);
      ElsewhereKeeps(w, m, w', pid, fd, f);
  }

  /** Whether an event takes away the last reference: a close of the only descriptor, or the end of the process. */
  predicate Ends(w: World, e: Event, pid: Pid, fd: nat, f: nat)
    requires Holds(w, pid, fd, f)
  {
    || e == Vanish(pid)
    || (e.SyscallExit? && SameProcess(w, e.pid, pid) && Decode(e.regs) == Close(fd) && Some(f) !in TableAt(w, pid)[fd := None])
  }

  /** In the end, all parts have been handed over, each once, and they make up the growth of the file. */
  lemma ChainEnds(w: World, m: Moment, w': World, pid: Pid, fd: nat, f: nat, parts: seq<nat>, first: Reference,
                  ref: Reference, append: bool)
    requires Sums(w, pid, fd, f, parts, first, ref, append) && Next(w, m, w') && Ends(w, m.event, pid, fd, f)
    ensures Inv(w') && AllLogged(w', parts + [f]) && Sizes(w', parts + [f]) == ref.length - first.length
  {
    SizesStay(w, m, w', parts);
    assert TableAt(w, pid)[fd] in TableAt(w, pid);
    assert Live(w, f);
    assert !Live(w', f) && w'.files == w.files;
    OneMorePart(w', parts, f);
  }
}
