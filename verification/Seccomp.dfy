/** Tracing with the seccomp filter refines tracing everything. */
module Seccomp {
  import opened Words
  import FileState
  import opened Storage
  import opened Syscalls
  import opened World
  import opened Invariants
  import opened Bpf

  /** Whether the tracer gets to see an event when the filter is installed. */
  predicate IsSeen(m: Moment) {
    m.event.SyscallExit? ==> IsTraced(m.event.regs)
  }

  predicate IsDupfd(m: Moment) {
    m.event.SyscallExit? && m.event.regs.nr == SYS_fcntl && m.event.regs.arg1 == F_DUPFD && IntNonNegative(m.event.regs.ret)
  }

  function Seen(run: seq<Moment>): seq<Moment> {
    if run == [] then []
    else Seen(run[..|run| - 1]) + if IsSeen(run[|run| - 1]) then [run[|run| - 1]] else []
  }

  /** A duplication matters unless both descriptors are untracked, or share their file already. */
  predicate Harmless(w: World, m: Moment)
    requires Closed(w) && AssertionsHold(w, m.event)
  {
    IsDupfd(m) ==>
      var fds := w.tables[w.procMap[m.event.pid]].fds;
      Slot(fds, m.event.regs.arg0) == Slot(fds, m.event.regs.ret)
  }

  lemma DupChangesNothing(w: World, t: nat, oldfd: nat, newfd: nat)
    requires Closed(w) && t < |w.tables|
    ensures DupFd(w, t, oldfd, newfd) == w <==> Slot(w.tables[t].fds, oldfd) == Slot(w.tables[t].fds, newfd)
  {
    var fds := w.tables[t].fds;
    if oldfd != newfd {
      var closed := CloseFd(w, t, newfd);
      assert Slot(closed.tables[t].fds, newfd) == None;
      assert Slot(closed.tables[t].fds, oldfd) == Slot(fds, oldfd);
      DupReads(w, t, oldfd, newfd);
      if Slot(fds, oldfd) == Slot(fds, newfd) && Slot(fds, newfd).Some? {
        assert fds[newfd := None][oldfd] == fds[newfd];
        assert fds[newfd := None][newfd := fds[newfd]] == fds;
      }
    }
  }

  lemma DupReads(w: World, t: nat, oldfd: nat, newfd: nat)
    requires Closed(w) && t < |w.tables|
    ensures |DupFd(w, t, oldfd, newfd).tables| == |w.tables|
    ensures Slot(DupFd(w, t, oldfd, newfd).tables[t].fds, newfd) == Slot(w.tables[t].fds, oldfd)
  {}

  /** A call that the filter hides would have changed nothing, exactly if it is harmless. */
  lemma UnseenChangesNothing(w: World, m: Moment, w': World)
    requires Next(w, m, w') && !IsSeen(m)
    ensures w' == w <==> Harmless(w, m)
  {
    var r := m.event.regs;
    OnlyDupfdIsMissed(r);
    if IsDupfd(m) {
      assert Decode(r) == Dup(r.arg0, r.ret, None);
      DupChangesNothing(w, w.procMap[m.event.pid], r.arg0, r.ret);
    } else {
      assert Decode(r) == Nop;
    }
  }

  ghost predicate HarmlessAt(states: seq<World>, run: seq<Moment>, i: nat) {
    i < |run| <= |states| && Closed(states[i]) && AssertionsHold(states[i], run[i].event) && Harmless(states[i], run[i])
  }

  lemma TraceSnoc(states: seq<World>, run: seq<Moment>, m: Moment, w: World)
    requires Trace(states, run) && Next(states[|run|], m, w)
    ensures Trace(states + [w], run + [m])
  {
    var states', run' := states + [w], run + [m];
    forall i | 0 <= i < |run'| ensures NextAt(states', run', i) {
      if i < |run| { assert NextAt(states, run, i); }
    }
  }

  lemma TracePrefix(states: seq<World>, run: seq<Moment>, n: nat)
    requires Trace(states, run) && n <= |run|
    ensures Trace(states[..n + 1], run[..n])
  {
    var states', run' := states[..n + 1], run[..n];
    forall i | 0 <= i < n ensures NextAt(states', run', i) {
      assert NextAt(states, run, i);
    }
  }

  /**
   * A run in which every fcntl F_DUPFD is harmless, and the same run reduced to what the filter lets through:
   * both are possible, and they end in the same state.
   */
  lemma {:induction false} FilteredRunAgrees(states: seq<World>, run: seq<Moment>) returns (states': seq<World>)
    requires Trace(states, run)
    requires forall i :: 0 <= i < |run| ==> HarmlessAt(states, run, i)
    ensures Trace(states', Seen(run))
    ensures states'[0] == states[0] && states'[|Seen(run)|] == states[|run|]
    decreases |run|
  {
    if run == [] {
      states' := states;
    } else {
      var n, m := |run| - 1, run[|run| - 1];
      TracePrefix(states, run, n);
      var front, before := states[..n + 1], run[..n];
      forall i | 0 <= i < n ensures HarmlessAt(front, before, i) { assert HarmlessAt(states, run, i); }
      states' := FilteredRunAgrees(front, before);
      assert NextAt(states, run, n) && HarmlessAt(states, run, n);
      if IsSeen(m) {
        TraceSnoc(states', Seen(run[..n]), m, states[n + 1]);
        states' := states' + [states[n + 1]];
      } else {
        UnseenChangesNothing(states[n], m, states[n + 1]);
        assert Seen(run) == Seen(run[..n]);
      }
    }
  }

  /**
   * The exception is real: duplicating a tracked descriptor with F_DUPFD and then closing the original loses
   * the file under the filter, since it is handed over at the close although it is still open.
   */
  lemma DupfdMatters()
    ensures var file := FileState.FileRec(0, 0, 1, 0, "out");
            var w := World([file], [0], [Table([None, None, None, Some(0)], ProcInfo(1, 0, "", ""))], map[1 := 0], {1}, [], {});
            var dup := Regs(SYS_fcntl, 4, 3, F_DUPFD, 0, 0);
            var close := Regs(SYS_close, 0, 3, 0, 0, 0);
            Closed(w) &&
            var duplicated := Apply(w, 0, Decode(dup), "", map[]);
            !IsTraced(dup) && IsTraced(close) && Closed(duplicated) && |duplicated.tables| == 1 &&
            Apply(duplicated, 0, Decode(close), "", map[]).log == [] &&
            |Apply(w, 0, Decode(close), "", map[]).log| == 1
  {
    var file := FileState.FileRec(0, 0, 1, 0, "out");
    var fds := [None, None, None, Some(0)];
    var w := World([file], [0], [Table(fds, ProcInfo(1, 0, "", ""))], map[1 := 0], {1}, [], {});
    var dup := Regs(SYS_fcntl, 4, 3, F_DUPFD, 0, 0);
    var close := Regs(SYS_close, 0, 3, 0, 0, 0);
    assert !IsTraced(dup) && IsTraced(close) by {
      OnlyDupfdIsMissed(dup);
      OnlyDupfdIsMissed(close);
      assert Decode(dup) != Nop && Decode(close) != Nop;
    }
    assert Decode(dup) == Dup(3, 4, None) && Decode(close) == Close(3);
    var duplicated := Apply(w, 0, Decode(dup), "", map[]);
    assert Resized(fds, 5)[3] == Slot(fds, 3) == Some(0);
    assert duplicated.tables[0].fds[4] == Some(0);
    assert duplicated.tables[0].fds[3 := None][4] == Some(0);
  }
}
