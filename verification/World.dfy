/**
 * The tracked processes as a value: what `TContext` (src/context.cpp) holds, with every object replaced by
 * its number in the order of creation. The classes of module Context refine this model.
 */
module World {
  import opened Words
  import opened FileState
  import opened Storage
  import opened Syscalls

  type Pid = int

  /** `TProcState`: each slot of the descriptor table is null or refers to a file state. */
  datatype Table = Table(fds: seq<Option<nat>>, info: ProcInfo)

  /** One call of `AddFileEntry`, and the file state it was made for. */
  datatype Entry = Entry(id: nat, out: OutputFile)

  /**
   * `files` and `tables` hold every object ever created; `homes[f]` is the table that file state `f` was
   * created for, `log` everything handed to the store, and `lost` the files whose last reference an open
   * overwrote. None of the last three exists in the code.
   */
  datatype World = World(files: seq<FileRec>, homes: seq<nat>, tables: seq<Table>, procMap: map<Pid, nat>,
                         leaders: set<Pid>, log: seq<Entry>, lost: set<nat>)

  /** Every reference refers to something. */
  predicate Closed(w: World) {
    && |w.homes| == |w.files|
    && (forall f :: 0 <= f < |w.files| ==> w.homes[f] < |w.tables|)
    && (forall t, i :: 0 <= t < |w.tables| && 0 <= i < |w.tables[t].fds| && w.tables[t].fds[i].Some? ==>
          w.tables[t].fds[i].value < |w.files|)
    && (forall p :: p in w.procMap ==> w.procMap[p] < |w.tables|)
  }

  // ---------- tables ----------

  function Slot(fds: seq<Option<nat>>, fd: nat): Option<nat> {
    if fd < |fds| then fds[fd] else None
  }

  /** `fds.resize(size)`, which is only ever asked to grow a table. */
  function Resized(fds: seq<Option<nat>>, size: nat): (r: seq<Option<nat>>)
    ensures |r| == Max(|fds|, size)
    ensures forall fd: nat :: Slot(r, fd) == Slot(fds, fd)
  {
    if size <= |fds| then fds else fds + seq(size - |fds|, _ => None)
  }

  function WithSlot(w: World, t: nat, i: nat, slot: Option<nat>): World
    requires t < |w.tables| && i < |w.tables[t].fds|
  {
    w.(tables := w.tables[t := w.tables[t].(fds := w.tables[t].fds[i := slot])])
  }

  /** `TearDownFd`: the file is handed to the store when no other slot refers to it. */
  function TearDown(w: World, t: nat, i: nat): World
    requires Closed(w) && t < |w.tables| && i < |w.tables[t].fds| && w.tables[t].fds[i].Some?
  {
    var f := w.tables[t].fds[i].value;
    var cleared := WithSlot(w, t, i, None);
    if Some(f) in cleared.tables[t].fds then cleared
    else
      var out := OutputFile(w.files[f].OutputSize(), w.files[f].filename, w.tables[t].info);
      cleared.(log := w.log + [Entry(f, out)])
  }

  /** The loop of `VanishProcess`, from slot `i` on. */
  function TearDownFrom(w: World, t: nat, i: nat): (r: World)
    requires Closed(w) && t < |w.tables| && i <= |w.tables[t].fds|
    ensures Closed(r) && t < |r.tables|
    ensures r == w.(tables := w.tables[t := Table(r.tables[t].fds, w.tables[t].info)], log := r.log)
    ensures |r.tables[t].fds| == |w.tables[t].fds|
    ensures forall j :: 0 <= j < i ==> r.tables[t].fds[j] == w.tables[t].fds[j]
    ensures forall j :: i <= j < |w.tables[t].fds| ==> r.tables[t].fds[j] == None
    decreases |w.tables[t].fds| - i
  {
    if i == |w.tables[t].fds| then w
    else if w.tables[t].fds[i].Some? then TearDownFrom(TearDown(w, t, i), t, i + 1)
    else TearDownFrom(w, t, i + 1)
  }

  /** Which slots are copied: on fork all that are not null, on exec those not marked close-on-exec. */
  predicate Copies(w: World, slot: Option<nat>, exec: bool)
    requires slot.Some? ==> slot.value < |w.files|
  {
    slot.Some? && !(exec && w.files[slot.value].IsCloexecSet())
  }

  /** `GetHighestFd`, counted from 1: the table up to its last slot that is copied. */
  function CopiedLength(w: World, fds: seq<Option<nat>>, exec: bool): (n: nat)
    requires forall i :: 0 <= i < |fds| && fds[i].Some? ==> fds[i].value < |w.files|
    ensures n <= |fds|
    ensures forall i :: n <= i < |fds| ==> !Copies(w, fds[i], exec)
    ensures n > 0 ==> Copies(w, fds[n - 1], exec)
  {
    if fds == [] then 0
    else if Copies(w, fds[|fds| - 1], exec) then |fds|
    else CopiedLength(w, fds[..|fds| - 1], exec)
  }

  /** The files that exist among `sources`. */
  function Present(sources: seq<Option<FileRec>>): seq<FileRec> {
    if sources == [] then []
    else
      var last := sources[|sources| - 1];
      Present(sources[..|sources| - 1]) + if last.Some? then [last.value] else []
  }

  /** Slots for newly created files: numbered in the order of the table, from `base`. */
  function NewSlots(sources: seq<Option<FileRec>>, base: nat): (slots: seq<Option<nat>>)
    ensures |slots| == |sources|
  {
    seq(|sources|, i requires 0 <= i < |sources| =>
      if sources[i].Some? then Some(base + |Present(sources[..i])|) else None)
  }

  /** What a copy of a table is made from. */
  function CopySources(w: World, fds: seq<Option<nat>>, exec: bool, fs: FileSystem): (sources: seq<Option<FileRec>>)
    requires forall i :: 0 <= i < |fds| && fds[i].Some? ==> fds[i].value < |w.files|
    ensures |sources| == CopiedLength(w, fds, exec)
  {
    seq(CopiedLength(w, fds, exec), i requires 0 <= i < CopiedLength(w, fds, exec) =>
      if Copies(w, fds[i], exec) then Some(Copied(fs, w.files[fds[i].value])) else None)
  }

  /** A new table for newly created files. */
  function WithTable(w: World, sources: seq<Option<FileRec>>, info: ProcInfo): World {
    w.(files := w.files + Present(sources),
       homes := w.homes + seq(|Present(sources)|, _ => |w.tables|),
       tables := w.tables + [Table(NewSlots(sources, |w.files|), info)])
  }

  // ---------- one system call ----------

  /** Whether a slot can be overwritten without losing the last reference to a file. */
  predicate Spare(w: World, t: nat, fd: nat)
    requires t < |w.tables|
  {
    var fds := w.tables[t].fds;
    Slot(fds, fd).Some? ==> fds[fd] in fds[fd := None]
  }

  /** The file that is lost when a slot is overwritten. */
  function Overwritten(w: World, t: nat, fd: nat): set<nat>
    requires t < |w.tables|
  {
    if Spare(w, t, fd) then {} else {w.tables[t].fds[fd].value}
  }

  /** Whatever the slot referred to is forgotten; nothing is handed over. */
  function OpenWriteFile(w: World, t: nat, fd: nat, file: FileRec): World
    requires t < |w.tables|
  {
    var fds := Resized(w.tables[t].fds, fd + 1)[fd := Some(|w.files|)];
    w.(files := w.files + [file], homes := w.homes + [t], tables := w.tables[t := w.tables[t].(fds := fds)],
       lost := w.lost + Overwritten(w, t, fd))
  }

  function CloseFd(w: World, t: nat, fd: nat): World
    requires Closed(w) && t < |w.tables|
  {
    if Slot(w.tables[t].fds, fd).Some? then TearDown(w, t, fd) else w
  }

  function ChangeFile(w: World, t: nat, fd: nat, change: Change): World
    requires Closed(w) && t < |w.tables|
  {
    var slot := Slot(w.tables[t].fds, fd);
    if slot.Some? then w.(files := w.files[slot.value := Changed(w.files[slot.value], change)]) else w
  }

  /** Whether a duplication has an effect beyond closing the target. */
  predicate DupSucceeds(w: World, t: nat, oldfd: nat, newfd: nat)
    requires t < |w.tables|
  {
    oldfd != newfd && Slot(w.tables[t].fds, oldfd).Some?
  }

  function DupFd(w: World, t: nat, oldfd: nat, newfd: nat): World
    requires Closed(w) && t < |w.tables|
  {
    if oldfd == newfd then w
    else
      var closed := CloseFd(w, t, newfd);
      var fds := closed.tables[t].fds;
      if Slot(fds, oldfd).None? then closed
      else closed.(tables := closed.tables[t := closed.tables[t].(fds := Resized(fds, newfd + 1)[newfd := fds[oldfd]])])
  }

  function SetCloexec(w: World, t: nat, fd: nat, flags: u64): World
    requires Closed(w) && t < |w.tables|
  {
    var slot := Slot(w.tables[t].fds, fd);
    if slot.Some? then w.(files := w.files[slot.value := w.files[slot.value].SetCloexecFlag(HasFlag(flags, O_CLOEXEC))]) else w
  }

  /** `flags` is what dup3 and F_DUPFD_CLOEXEC say about close-on-exec. */
  function DupAndFlag(w: World, t: nat, oldfd: nat, newfd: nat, flags: Option<u64>): World
    requires Closed(w) && t < |w.tables|
  {
    var dup := DupFd(w, t, oldfd, newfd);
    ClosedAfterDup(w, t, oldfd, newfd);
    if flags.Some? && DupSucceeds(w, t, oldfd, newfd) then SetCloexec(dup, t, newfd, flags.value) else dup
  }

  /** `link` is the name that the new descriptor turns out to have. */
  function Apply(w: World, t: nat, op: Op, link: string, fs: FileSystem): World
    requires Closed(w) && t < |w.tables|
  {
    match op
    case Nop => w
    case Touch(fd, change) => ChangeFile(w, t, fd, change)
    case OpenWrite(fd, flags) => OpenWriteFile(w, t, fd, Opened(fs, link, flags))
    case Close(fd) => CloseFd(w, t, fd)
    case Dup(oldfd, newfd, flags) => DupAndFlag(w, t, oldfd, newfd, flags)
  }

  lemma ClosedAfterDup(w: World, t: nat, oldfd: nat, newfd: nat)
    requires Closed(w) && t < |w.tables|
    ensures Closed(DupFd(w, t, oldfd, newfd)) && |DupFd(w, t, oldfd, newfd).tables| == |w.tables|
  {}

  // ---------- processes ----------

  /** What the tracer tells the context, in the order of src/context.h; `comm` and `cmdline` come from /proc. */
  datatype Event =
    | Thread(pid: Pid, thread: Pid)
    | Process(parent: Pid, child: Pid, comm: string, cmdline: string)
    | Exec(pid: Pid, comm: string, cmdline: string)
    | Vanish(pid: Pid)
    | SyscallExit(pid: Pid, regs: Regs, link: string)

  /** The assertions that the code makes. */
  predicate AssertionsHold(w: World, e: Event) {
    match e
    case Thread(pid, _) => pid in w.procMap
    case Process(parent, child, _, _) => parent in w.procMap && child !in w.procMap
    case Exec(pid, _, _) => pid in w.procMap
    case Vanish(pid) => pid in w.procMap
    case SyscallExit(pid, _, _) => pid in w.procMap
  }

  function VanishProcess(w: World, pid: Pid): World
    requires Closed(w) && pid in w.procMap
  {
    var torn := if pid in w.leaders then TearDownFrom(w, w.procMap[pid], 0).(leaders := w.leaders - {pid}) else w;
    torn.(procMap := w.procMap - {pid})
  }

  function RegisterProcess(w: World, parent: Pid, child: Pid, comm: string, cmdline: string, fs: FileSystem): World
    requires Closed(w) && parent in w.procMap
  {
    var sources := CopySources(w, w.tables[w.procMap[parent]].fds, false, fs);
    WithTable(w, sources, ProcInfo(child, parent, comm, cmdline))
    .(leaders := w.leaders + {child}, procMap := w.procMap[child := |w.tables|])
  }

  /** The copy is made first; then everything the old table still refers to is torn down. */
  function RegisterExec(w: World, pid: Pid, comm: string, cmdline: string, fs: FileSystem): World
    requires Closed(w) && pid in w.procMap
  {
    var former := w.tables[w.procMap[pid]];
    var sources := CopySources(w, former.fds, true, fs);
    var info := ProcInfo(pid, former.info.ppid, comm, cmdline);
    ClosedWithTable(w, sources, info);
    var gone := VanishProcess(WithTable(w, sources, info), pid);
    gone.(leaders := gone.leaders + {pid}, procMap := gone.procMap[pid := |w.tables|])
  }

  function Step(w: World, e: Event, fs: FileSystem): World
    requires Closed(w) && AssertionsHold(w, e)
  {
    match e
    case Thread(pid, thread) => w.(procMap := w.procMap[thread := w.procMap[pid]])
    case Process(parent, child, comm, cmdline) => RegisterProcess(w, parent, child, comm, cmdline, fs)
    case Exec(pid, comm, cmdline) => RegisterExec(w, pid, comm, cmdline, fs)
    case Vanish(pid) => VanishProcess(w, pid)
    case SyscallExit(pid, regs, link) => Apply(w, w.procMap[pid], Decode(regs), link, fs)
  }

  // ---------- the start ----------

  /** What probing one descriptor of the tracer itself gives: the name and `F_GETFD` flags of a regular file. */
  datatype Inherited = Inherited(name: string, flags: u64)

  /** `FillFds` fills the table from the highest descriptor down. */
  function FillFds(w: World, t: nat, probed: seq<Option<Inherited>>, n: nat, fs: FileSystem): World
    requires t < |w.tables| && n <= |probed|
    decreases n
  {
    if n == 0 then w
    else if probed[n - 1].None? then FillFds(w, t, probed, n - 1, fs)
    else
      var file := Opened(fs, probed[n - 1].value.name, probed[n - 1].value.flags);
      FillFds(OpenWriteFile(w, t, n - 1, file), t, probed, n - 1, fs)
  }

  /** A process with a table of `size` null slots. */
  function NewTracee(pid: Pid, comm: string, cmdline: string, size: nat): World {
    World([], [], [Table(Resized([], size), ProcInfo(pid, 0, comm, cmdline))], map[pid := 0], {pid}, [], {})
  }

  function RegisterTracee(pid: Pid, comm: string, cmdline: string, probed: seq<Option<Inherited>>, fs: FileSystem): World {
    FillFds(NewTracee(pid, comm, cmdline, |probed|), 0, probed, |probed|, fs)
  }

  // ---------- new tables ----------

  lemma {:induction false} PresentAppend(a: seq<Option<FileRec>>, b: seq<Option<FileRec>>)
    ensures Present(a + b) == Present(a) + Present(b)
  {
    if b == [] {
      assert a + b == a;
    } else {
      assert (a + b)[..|a + b| - 1] == a + b[..|b| - 1];
      PresentAppend(a, b[..|b| - 1]);
    }
  }

  /** The slot of a source refers to that source, and later sources come later. */
  lemma PresentAt(sources: seq<Option<FileRec>>, i: nat)
    requires i < |sources| && sources[i].Some?
    ensures |Present(sources[..i])| < |Present(sources)|
    ensures Present(sources)[|Present(sources[..i])|] == sources[i].value
    ensures forall j :: i < j < |sources| ==> |Present(sources[..i])| < |Present(sources[..j])|
  {
    PresentBefore(sources, i);
    forall j | i < j < |sources| ensures |Present(sources[..i])| < |Present(sources[..j])| {
      assert sources[..j][..i] == sources[..i];
      PresentBefore(sources[..j], i);
    }
  }

  lemma PresentBefore(sources: seq<Option<FileRec>>, i: nat)
    requires i < |sources| && sources[i].Some?
    ensures |Present(sources[..i])| < |Present(sources)|
    ensures Present(sources)[|Present(sources[..i])|] == sources[i].value
  {
    assert sources == sources[..i] + [sources[i]] + sources[i + 1..];
    PresentAppend(sources[..i] + [sources[i]], sources[i + 1..]);
    PresentAppend(sources[..i], [sources[i]]);
  }

  lemma {:induction false} PresentOnto(sources: seq<Option<FileRec>>, k: nat) returns (i: nat)
    requires k < |Present(sources)|
    ensures i < |sources| && sources[i].Some? && |Present(sources[..i])| == k
  {
    var front := sources[..|sources| - 1];
    if k < |Present(front)| {
      i := PresentOnto(front, k);
      assert front[..i] == sources[..i];
    } else {
      i := |front|;
    }
  }

  lemma ClosedWithTable(w: World, sources: seq<Option<FileRec>>, info: ProcInfo)
    requires Closed(w)
    ensures Closed(WithTable(w, sources, info))
  {
    forall i | 0 <= i < |sources| && sources[i].Some? ensures |Present(sources[..i])| < |Present(sources)| {
      PresentBefore(sources, i);
    }
  }
}
