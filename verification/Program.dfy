/** The whole program, `TraceProgram` (src/optrace.cpp:304-348), and what it reports at the end of any run. */
module Program {
  import opened Words
  import opened Storage
  import Store = Storage
  import opened Syscalls
  import opened World
  import opened Invariants
  import Runs = Invariants
  import opened Ledger
  import opened Totals
  import opened Tracer
  import opened System
  import opened Context
  import opened RunTracer
  import Seccomp

  /**
   * From the fork of the tracee to the report. `waits` is what `wait3` reports; the run must be one that the
   * loop leaves without a failed assertion, as all runs of module System are.
   */
  method TraceProgram(c: Config, capacity: int, storeEmpty: bool, comm: string, cmdline: string,
                      probed: seq<Option<Inherited>>, fs: FileSystem, waits: seq<Wait>)
    returns (rc: int, report: seq<OutputFile>, total: u64, ghost order: seq<Pid>)
    requires Replay(c, Start(c, RegisterTracee(c.tracee, comm, cmdline, probed, fs)), waits).outcome.Returned?
    ensures var end := Replay(c, Start(c, RegisterTracee(c.tracee, comm, cmdline, probed, fs)), waits);
            && rc == end.outcome.code
            && Closed(end.world) && Enumerates(order, end.world.procMap.Keys)
            && Store.Consistent(total, multiset(report), Outs(Drain(end.world, order).log), capacity, storeEmpty)
    ensures NonIncreasing(report)
    ensures var end := Replay(c, Start(c, RegisterTracee(c.tracee, comm, cmdline, probed, fs)), waits);
            Keeps(multiset(report), Outs(Drain(end.world, order).log), capacity, storeEmpty)
  {
    var context := new TContext(capacity, storeEmpty);
    context.RegisterTracee(c.tracee, comm, cmdline, probed, fs);
    var tracer := new TTracer(c, context);
    rc := tracer.Run(waits);
    report, order := context.PostProcess();
    total := context.FileStorage.OutputSize;
  }

  // ---------- runs of the system are runs of the program ----------

  /** What the actions of a run make `wait3` report. */
  function WaitsOf(actions: seq<Action>): seq<Wait> {
    if actions == [] then []
    else (if actions[0].Waits? then [actions[0].w] else []) + WaitsOf(actions[1..])
  }

  lemma BehaviourRest(c: Config, states: seq<System>, actions: seq<Action>)
    requires Behaviour(c, states, actions) && actions != []
    ensures Behaviour(c, states[1..], actions[1..]) && NextState(c, states[0], actions[0], states[1])
  {
    forall i | 0 <= i < |actions[1..]| ensures StateAt(c, states[1..], actions[1..], i) {
      assert StateAt(c, states, actions, i + 1);
    }
    assert StateAt(c, states, actions, 0);
  }

  lemma {:induction false} BehaviourIsReplayed(c: Config, states: seq<System>, actions: seq<Action>)
    requires Behaviour(c, states, actions) && states[|actions|].tracer.outcome != Looping
    ensures Replay(c, states[0].tracer, WaitsOf(actions)) == states[|actions|].tracer
    decreases |actions|
  {
    if actions != [] {
      BehaviourRest(c, states, actions);
      BehaviourIsReplayed(c, states[1..], actions[1..]);
      assert states[1..][|actions[1..]|] == states[|actions|];
      if actions[0].Waits? {
        assert WaitsOf(actions)[1..] == WaitsOf(actions[1..]);
      } else if actions[0].FindsNoChild? {
        LoopsWhileActing(c, states[1..], actions[1..]);
        assert WaitsOf(actions) == [];
      } else {
        assert WaitsOf(actions) == WaitsOf(actions[1..]);
        assert states[1].tracer == states[0].tracer;
      }
    }
  }

  lemma LoopsWhileActing(c: Config, states: seq<System>, actions: seq<Action>)
    requires Behaviour(c, states, actions)
    ensures actions != [] ==> states[0].tracer.outcome == Looping
  {
    if actions != [] { assert StateAt(c, states, actions, 0); }
  }

  /** The finished system calls among the events of a run. */
  function ExitsOf(run: seq<Moment>): seq<(Pid, Regs)> {
    if run == [] then [] else ExitsOf(run[..|run| - 1]) + ExitOf(run[|run| - 1].event)
  }

  function ExitOf(e: Event): seq<(Pid, Regs)> {
    if e.SyscallExit? then [(e.pid, e.regs)] else []
  }

  /** What one turn of the loop tells the context, if anything. */
  function Telling(c: Config, s: System, w: Wait): Option<Moment> {
    if w.status.Ended? then Some(Moment(Vanish(w.pid), w.fs))
    else if w.pid !in s.tasks || w.pid !in s.tracer.syscalls then None
    else if s.tasks[w.pid].activity.Stopped? && IsExit(s.tasks[w.pid].activity.loc, w.status) then
      if w.regs.Some? then Some(Moment(SyscallExit(w.pid, w.regs.value, w.link), w.fs)) else None
    else if IsExec(w.status) && w.msg.Some? then Some(Moment(Event.Exec(w.pid, w.comm, w.cmdline), w.fs))
    else if IsSpawn(w.status) && w.msg.Some? && (w.status.event.Clone? ==> w.cloneFlags.Some?) then
      Some(Moment(SpawnEvent(w), w.fs))
    else None
  }

  /** `w'` results from `w` by what was told, which was permitted. */
  ghost predicate Tells(s: System, m: Option<Moment>, s': System) {
    && (if m.None? then s'.tracer.world == s.tracer.world else Next(s.tracer.world, m.value, s'.tracer.world))
    && s'.tracer.exits == s.tracer.exits + if m.None? then [] else ExitOf(m.value.event)
  }

  lemma TurnAtStop(c: Config, s: System, w: Wait, killed: bool)
    requires Good(c, s) && Enabled(c, s, Waits(w, killed)) && w.pid in s.tracer.syscalls && w.status == SyscallStop
    ensures Tells(s, Telling(c, s, w), Perform(c, s, Waits(w, killed)))
  {
    if w.regs.Some? {
      if s.tasks[w.pid].activity.loc == Outside { EntryKeepsGood(c, s, w, killed); } else { ExitKeepsGood(c, s, w, killed); }
    }
  }

  lemma TurnAtExec(c: Config, s: System, w: Wait, killed: bool)
    requires Good(c, s) && Enabled(c, s, Waits(w, killed)) && w.pid in s.tracer.syscalls && IsExec(w.status)
    ensures Tells(s, Telling(c, s, w), Perform(c, s, Waits(w, killed)))
  {
    assert TaskOk(c, s, w.pid);
    Permits(s.tracer, Event.Exec(w.pid, w.comm, w.cmdline), w.fs);
  }

  lemma TurnAtSpawn(c: Config, s: System, w: Wait, killed: bool)
    requires Good(c, s) && Enabled(c, s, Waits(w, killed)) && w.pid in s.tracer.syscalls && IsSpawn(w.status)
    ensures Tells(s, Telling(c, s, w), Perform(c, s, Waits(w, killed)))
  {
    if w.msg.Some? && (w.status.event.Clone? ==> w.cloneFlags.Some?) {
      SpawnPermitted(c, s, w, killed);
      Permits(s.tracer, SpawnEvent(w), w.fs);
    }
  }

  /** Seen from the context, a turn of the loop is at most one event, and one that is permitted. */
  lemma TurnIsOneEvent(c: Config, s: System, w: Wait, killed: bool)
    requires Good(c, s) && Enabled(c, s, Waits(w, killed))
    ensures Tells(s, Telling(c, s, w), Perform(c, s, Waits(w, killed)))
  {
    if w.status.Ended? {
      assert TaskOk(c, s, w.pid);
      Permits(s.tracer.(syscalls := s.tracer.syscalls - {w.pid}), Vanish(w.pid), w.fs);
    } else if w.pid in s.tracer.syscalls {
      if w.status == SyscallStop {
        TurnAtStop(c, s, w, killed);
      } else if IsExec(w.status) {
        TurnAtExec(c, s, w, killed);
      } else if IsSpawn(w.status) {
        TurnAtSpawn(c, s, w, killed);
      } else if IsEntry(c, s.tasks[w.pid].activity.loc, w.status) && w.regs.Some? && w.msg.Some? {
        EntryKeepsGood(c, s, w, killed);
      }
    }
  }

  function ToldBy(c: Config, s: System, a: Action): Option<Moment> {
    if a.Waits? then Telling(c, s, a.w) else None
  }

  /** The same, of any step of a run. */
  lemma StepTells(c: Config, states: seq<System>, actions: seq<Action>, n: nat)
    requires Behaviour(c, states, actions) && Initial(c, states[0]) && n < |actions|
    ensures var m := ToldBy(c, states[n], actions[n]);
            && Tells(states[n], m, states[n + 1])
            && states[n + 1].completed == states[n].completed + ExitsOf(Listed(m))
  {
    GoodInEveryRun(c, states, actions, n);
    GoodInEveryRun(c, states, actions, n + 1);
    assert StateAt(c, states, actions, n);
    if actions[n].Waits? { TurnIsOneEvent(c, states[n], actions[n].w, actions[n].killed); }
    var m := ToldBy(c, states[n], actions[n]);
    assert ExitsOf(Listed(m)) == if m.None? then [] else ExitOf(m.value.event) by { ListedExits(m); }
  }

  lemma ListedExits(m: Option<Moment>)
    ensures ExitsOf(Listed(m)) == if m.None? then [] else ExitOf(m.value.event)
  {
    if m.Some? { assert [m.value][..0] == []; }
  }

  function Listed(m: Option<Moment>): seq<Moment> {
    if m.None? then [] else [m.value]
  }

  lemma ExitsGrow(run: seq<Moment>, m: Option<Moment>)
    ensures ExitsOf(run + Listed(m)) == ExitsOf(run) + ExitsOf(Listed(m))
  {
    ListedExits(m);
    if m.None? { assert run + Listed(m) == run; } else { assert (run + [m.value])[..|run|] == run; }
  }

  /** The moments that there are among some that may be missing. */
  function Flat(ms: seq<Option<Moment>>): seq<Moment> {
    if ms == [] then [] else Flat(ms[..|ms| - 1]) + Listed(ms[|ms| - 1])
  }

  ghost predicate StepsAt(ws: seq<World>, ms: seq<Option<Moment>>, i: nat) {
    i < |ms| < |ws| && if ms[i].None? then ws[i + 1] == ws[i] else Next(ws[i], ms[i].value, ws[i + 1])
  }

  /** Leaving out the steps in which nothing happens gives a trace. */
  lemma {:induction false} FlatIsTrace(ws: seq<World>, ms: seq<Option<Moment>>) returns (worlds: seq<World>)
    requires |ws| == |ms| + 1 && forall i :: 0 <= i < |ms| ==> StepsAt(ws, ms, i)
    ensures Runs.Trace(worlds, Flat(ms)) && worlds[0] == ws[0] && worlds[|Flat(ms)|] == ws[|ms|]
  {
    if ms == [] {
      worlds := ws;
    } else {
      var n := |ms| - 1;
      var ws', ms' := ws[..|ms|], ms[..n];
      forall i | 0 <= i < n ensures StepsAt(ws', ms', i) { assert StepsAt(ws, ms, i); }
      worlds := FlatIsTrace(ws', ms');
      assert StepsAt(ws, ms, n);
      if ms[n].Some? {
        Seccomp.TraceSnoc(worlds, Flat(ms'), ms[n].value, ws[n + 1]);
        worlds := worlds + [ws[n + 1]];
        assert Flat(ms) == Flat(ms') + [ms[n].value];
      } else {
        assert Flat(ms) == Flat(ms');
      }
    }
  }

  ghost predicate ShownAt(shown: seq<seq<(Pid, Regs)>>, ms: seq<Option<Moment>>, i: nat) {
    i < |ms| < |shown| && shown[i + 1] == shown[i] + ExitsOf(Listed(ms[i]))
  }

  lemma Regrouped(a: seq<(Pid, Regs)>, b: seq<(Pid, Regs)>, c: seq<(Pid, Regs)>)
    ensures a + b + c == a + (b + c)
  {}

  lemma {:induction false} FlatIsShown(shown: seq<seq<(Pid, Regs)>>, ms: seq<Option<Moment>>)
    requires |shown| == |ms| + 1 && forall i :: 0 <= i < |ms| ==> ShownAt(shown, ms, i)
    ensures shown[|ms|] == shown[0] + ExitsOf(Flat(ms))
  {
    if ms != [] {
      var n := |ms| - 1;
      var shown', ms' := shown[..|ms|], ms[..n];
      forall i | 0 <= i < n ensures ShownAt(shown', ms', i) { assert ShownAt(shown, ms, i); }
      var front, last := ExitsOf(Flat(ms')), ExitsOf(Listed(ms[n]));
      assert shown[n] == shown[0] + front by { FlatIsShown(shown', ms'); }
      assert shown[n + 1] == shown[n] + last by { assert ShownAt(shown, ms, n); }
      assert ExitsOf(Flat(ms)) == front + last by { ExitsGrow(Flat(ms'), ms[n]); }
      Regrouped(shown[0], front, last);
    }
  }

  function Moments(c: Config, states: seq<System>, actions: seq<Action>): seq<Option<Moment>>
    requires |actions| <= |states|
  {
    seq(|actions|, i requires 0 <= i < |actions| => ToldBy(c, states[i], actions[i]))
  }

  /** What the tracer tells the context in the course of a run. */
  function Told(c: Config, states: seq<System>, actions: seq<Action>): seq<Moment>
    requires |actions| <= |states|
  {
    Flat(Moments(c, states, actions))
  }

  /** Seen from the context, a run of the whole system is a run as module Invariants has it. */
  lemma BehaviourIsTrace(c: Config, states: seq<System>, actions: seq<Action>) returns (worlds: seq<World>)
    requires Behaviour(c, states, actions) && Initial(c, states[0])
    ensures var run := Told(c, states, actions);
            Runs.Trace(worlds, run) && worlds[0] == states[0].tracer.world && worlds[|run|] == states[|actions|].tracer.world
  {
    var ws, ms := seq(|states|, i requires 0 <= i < |states| => states[i].tracer.world), Moments(c, states, actions);
    forall i | 0 <= i < |ms| ensures StepsAt(ws, ms, i) { StepTells(c, states, actions, i); }
    worlds := FlatIsTrace(ws, ms);
  }

  /** The context is told of exactly the exits of system calls that the kernel showed, in that order. */
  lemma ExitsAreTold(c: Config, states: seq<System>, actions: seq<Action>)
    requires Behaviour(c, states, actions) && Initial(c, states[0])
    ensures states[|actions|].completed == ExitsOf(Told(c, states, actions))
  {
    var shown, ms := seq(|states|, i requires 0 <= i < |states| => states[i].completed), Moments(c, states, actions);
    forall i | 0 <= i < |ms| ensures ShownAt(shown, ms, i) { StepTells(c, states, actions, i); }
    FlatIsShown(shown, ms);
  }

  /**
   * Any run of threads and tracer that comes to an end: the program can replay it, returns a code that is not
   * negative, and its total is what all files have grown by together that no open overwrote. If files were
   * only written sequentially, that is what the writes shown by the kernel returned.
   */
  lemma EveryRunIsReported(c: Config, states: seq<System>, actions: seq<Action>, order: seq<Pid>, capacity: int,
                           storeEmpty: bool)
      returns (worlds: seq<World>)
    requires Behaviour(c, states, actions) && Initial(c, states[0])
    requires states[|actions|].tracer.outcome != Looping
    requires Enumerates(order, states[|actions|].tracer.world.procMap.Keys)
    ensures var end := states[|actions|].tracer;
            && Replay(c, Start(c, states[0].tracer.world), WaitsOf(actions)) == end
            && end.outcome.Returned? && end.outcome.code >= 0
            && Inv(end.world)
            && RunningTotal(Outs(Drain(end.world, order).log), capacity, storeEmpty) ==
               if capacity == 0 then 0 else Wrap(Due(end.world))
    ensures var run, end := Told(c, states, actions), states[|actions|].tracer;
            && Runs.Trace(worlds, run) && worlds[0] == states[0].tracer.world && worlds[|run|] == end.world
            && ExitsOf(run) == states[|actions|].completed
            && Due(end.world) + AllLost(worlds, run, |run|) == Produced(end.world.files)
            && (SequentialTrace(worlds, run) && AllAtEnd(worlds[0].files) ==>
                  Due(end.world) + AllLost(worlds, run, |run|) == AllWritten(worlds, run, |run|))
  {
    GoodInEveryRun(c, states, actions, |actions|);
    BehaviourIsReplayed(c, states, actions);
    FinalTotal(states[|actions|].tracer.world, order, capacity, storeEmpty);
    ExitsAreTold(c, states, actions);
    worlds := BehaviourIsTrace(c, states, actions);
    var run := Told(c, states, actions);
    var comm, cmdline, probed, fs :| states[0].tracer.world == RegisterTracee(c.tracee, comm, cmdline, probed, fs);
    NothingAtStart(c.tracee, comm, cmdline, probed, fs);
    LostInRun(worlds, run, |run|);
    if SequentialTrace(worlds, run) && AllAtEnd(worlds[0].files) {
      ProducedInRun(worlds, run, |run|);
    }
  }

  // ---------- the code returned ----------

  /** The code of the first report that the tracee has ended. */
  function EndOf(waits: seq<Wait>, tracee: Pid): Option<nat> {
    if waits == [] then None
    else
      var before, last := EndOf(waits[..|waits| - 1], tracee), waits[|waits| - 1];
      if before.Some? then before
      else if last.pid == tracee && last.status.Ended? then Some(last.status.code)
      else None
  }

  lemma {:induction false} WaitsOfSnoc(actions: seq<Action>, a: Action)
    ensures WaitsOf(actions + [a]) == WaitsOf(actions) + if a.Waits? then [a.w] else []
  {
    if actions != [] {
      WaitsOfSnoc(actions[1..], a);
      assert (actions + [a])[1..] == actions[1..] + [a];
    }
  }

  lemma EndOfSnoc(actions: seq<Action>, n: nat, tracee: Pid)
    requires n < |actions|
    ensures var a, before := actions[n], EndOf(WaitsOf(actions[..n]), tracee);
            EndOf(WaitsOf(actions[..n + 1]), tracee) ==
            if before.Some? then before
            else if a.Waits? && a.w.pid == tracee && a.w.status.Ended? then Some(a.w.status.code)
            else None
  {
    assert actions[..n + 1] == actions[..n] + [actions[n]];
    WaitsOfSnoc(actions[..n], actions[n]);
    if actions[n].Waits? {
      var waits := WaitsOf(actions[..n]);
      assert (waits + [actions[n].w])[..|waits|] == waits;
    } else {
      assert WaitsOf(actions[..n + 1]) == WaitsOf(actions[..n]);
    }
  }

  /** The code that goes with what was reported so far: 128 and SIGKILL, unless the tracee is known to have ended. */
  function CodeOf(end: Option<nat>): int {
    if end.Some? then end.value else 137
  }

  ghost predicate CodeAt(c: Config, states: seq<System>, actions: seq<Action>, n: nat) {
    n <= |actions| && n < |states| &&
    var end, t := EndOf(WaitsOf(actions[..n]), c.tracee), states[n].tracer;
    match t.outcome
    case Looping =>
      && t.exitCode == (if end.Some? then end.value else -1)
      && (end.Some? ==> c.followForks && c.waitDaemons)
    case Returned(code) =>
      && code == CodeOf(end)
      && n > 0 && if c.followForks && c.waitDaemons then actions[n - 1].FindsNoChild? else
           actions[n - 1].FindsNoChild? || (actions[n - 1].Waits? && actions[n - 1].w.pid == c.tracee && actions[n - 1].w.status.Ended?)
    case AssertionFailed => false
  }

  lemma HandledCode(c: Config, t: State, w: Wait)
    requires t.outcome == Looping
    ensures var t' := Handle(c, t, w).0;
            if w.status.Ended? && w.pid == c.tracee && t'.outcome != AssertionFailed then
              if c.followForks && c.waitDaemons
              then t'.outcome == Looping && t'.exitCode == if t.exitCode == -1 then w.status.code else t.exitCode
              else t'.outcome == Returned(w.status.code)
            else t'.exitCode == t.exitCode && t'.outcome in {Looping, Returned(-2), AssertionFailed}
  {}

  lemma CodeNext(c: Config, states: seq<System>, actions: seq<Action>, n: nat)
    requires Behaviour(c, states, actions) && Initial(c, states[0]) && n < |actions| && CodeAt(c, states, actions, n)
    ensures CodeAt(c, states, actions, n + 1)
  {
    assert StateAt(c, states, actions, n);
    EndOfSnoc(actions, n, c.tracee);
    assert Good(c, states[n + 1]) by { GoodInEveryRun(c, states, actions, n + 1); }
    if actions[n].Waits? { HandledCode(c, states[n].tracer, actions[n].w); }
  }

  lemma {:induction false} CodeInEveryRun(c: Config, states: seq<System>, actions: seq<Action>, n: nat)
    requires Behaviour(c, states, actions) && Initial(c, states[0]) && n <= |actions|
    ensures CodeAt(c, states, actions, n)
  {
    if n > 0 {
      CodeInEveryRun(c, states, actions, n - 1);
      CodeNext(c, states, actions, n - 1);
    } else {
      StartHasNoCode(c, states, actions);
    }
  }

  lemma LoopsAt(c: Config, states: seq<System>, actions: seq<Action>, n: nat)
    requires Behaviour(c, states, actions)
    ensures n < |actions| ==> states[n].tracer.outcome == Looping
  {
    if n < |actions| { assert StateAt(c, states, actions, n); }
  }

  lemma StartHasNoCode(c: Config, states: seq<System>, actions: seq<Action>)
    requires |states| > 0 && Initial(c, states[0])
    ensures CodeAt(c, states, actions, 0)
  {
    assert actions[..0] == [];
  }

  /**
   * A run that ends returns the code of the first report that the tracee has ended, and 137 if there is none. If
   * daemons are to be waited for, it ends when there is no child any more, and else at that report at the latest.
   */
  lemma CodeReturned(c: Config, states: seq<System>, actions: seq<Action>)
    requires Behaviour(c, states, actions) && Initial(c, states[0]) && states[|actions|].tracer.outcome != Looping
    ensures states[|actions|].tracer.outcome ==
            Returned(match EndOf(WaitsOf(actions), c.tracee) case Some(code) => code case None => 137)
    ensures |actions| > 0
    ensures c.followForks && c.waitDaemons ==> actions[|actions| - 1].FindsNoChild?
    ensures !(c.followForks && c.waitDaemons) ==>
              forall i :: 0 <= i < |actions| && actions[i].Waits? && actions[i].w.pid == c.tracee && actions[i].w.status.Ended? ==>
                i == |actions| - 1
  {
    CodeInEveryRun(c, states, actions, |actions|);
    assert actions[..|actions|] == actions;
    if !(c.followForks && c.waitDaemons) {
      forall i | 0 <= i < |actions| && actions[i].Waits? && actions[i].w.pid == c.tracee && actions[i].w.status.Ended?
        ensures i == |actions| - 1
      {
        CodeInEveryRun(c, states, actions, i + 1);
        EndOfSnoc(actions, i, c.tracee);
        LoopsAt(c, states, actions, i + 1);
      }
    }
  }

  // ---------- the two ways to trace ----------

  lemma {:induction false} SameEnd(worlds: seq<World>, worlds': seq<World>, run: seq<Moment>, n: nat)
    requires Runs.Trace(worlds, run) && Runs.Trace(worlds', run) && worlds[0] == worlds'[0] && n <= |run|
    ensures worlds[n] == worlds'[n]
  {
    if n > 0 {
      SameEnd(worlds, worlds', run, n - 1);
      assert NextAt(worlds, run, n - 1) && NextAt(worlds', run, n - 1);
    }
  }

  ghost predicate AllHarmless(worlds: seq<World>, run: seq<Moment>) {
    forall i :: 0 <= i < |run| ==> Seccomp.HarmlessAt(worlds, run, i)
  }

  /**
   * One run that is traced in full, and one with the filter in which the tracer learns of the same except for
   * the calls that the filter lets pass. If every F_DUPFD is harmless, the context ends up the same.
   */
  lemma FilteringChangesNothing(full: Config, states: seq<System>, actions: seq<Action>,
                                 filtered: Config, states': seq<System>, actions': seq<Action>) returns (worlds: seq<World>)
    requires Behaviour(full, states, actions) && Initial(full, states[0])
    requires Behaviour(filtered, states', actions') && Initial(filtered, states'[0])
    requires states[0].tracer.world == states'[0].tracer.world
    requires Told(filtered, states', actions') == Seccomp.Seen(Told(full, states, actions))
    ensures Runs.Trace(worlds, Told(full, states, actions)) && worlds[0] == states[0].tracer.world
    ensures AllHarmless(worlds, Told(full, states, actions)) ==>
              states[|actions|].tracer.world == states'[|actions'|].tracer.world
  {
    worlds := BehaviourIsTrace(full, states, actions);
    var run := Told(full, states, actions);
    if AllHarmless(worlds, run) {
      var seen := Seccomp.FilteredRunAgrees(worlds, run);
      var worlds' := BehaviourIsTrace(filtered, states', actions');
      SameEnd(seen, worlds', Seccomp.Seen(run), |Seccomp.Seen(run)|);
    }
  }

  /** What a store may hold and report after the world has been drained in some order. */
  ghost predicate Reports(w: World, order: seq<Pid>, capacity: int, storeEmpty: bool, total: u64, report: seq<OutputFile>) {
    && Inv(w) && Enumerates(order, w.procMap.Keys) && NonIncreasing(report)
    && Store.Consistent(total, multiset(report), Outs(Drain(w, order).log), capacity, storeEmpty)
  }

  /** Then, whatever the orders of draining and whatever the heaps, both report the same total and the same sizes. */
  lemma FilteringChangesNoReport(full: Config, states: seq<System>, actions: seq<Action>,
                                 filtered: Config, states': seq<System>, actions': seq<Action>,
                                 order: seq<Pid>, order': seq<Pid>, capacity: int, storeEmpty: bool,
                                 total: u64, total': u64, report: seq<OutputFile>, report': seq<OutputFile>)
      returns (worlds: seq<World>)
    requires Behaviour(full, states, actions) && Initial(full, states[0])
    requires Behaviour(filtered, states', actions') && Initial(filtered, states'[0])
    requires states[0].tracer.world == states'[0].tracer.world
    requires Told(filtered, states', actions') == Seccomp.Seen(Told(full, states, actions))
    requires Reports(states[|actions|].tracer.world, order, capacity, storeEmpty, total, report)
    requires Reports(states'[|actions'|].tracer.world, order', capacity, storeEmpty, total', report')
    ensures Runs.Trace(worlds, Told(full, states, actions)) && worlds[0] == states[0].tracer.world
    ensures AllHarmless(worlds, Told(full, states, actions)) ==>
              && total == total' && |report| == |report'|
              && forall i :: 0 <= i < |report| ==> report[i].size == report'[i].size
  {
    worlds := FilteringChangesNothing(full, states, actions, filtered, states', actions');
    if AllHarmless(worlds, Told(full, states, actions)) {
      OrderDoesNotMatter(states[|actions|].tracer.world, order, order', capacity, storeEmpty, total, total', report, report');
    }
  }
}
