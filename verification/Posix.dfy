/**
 * The descriptors of one process as POSIX has them, and the proof that its table of tracked files follows
 * them (IEEE Std 1003.1-2017, XSH section 2.5.1 and the pages of dup, close, lseek, open and write).
 */
module Posix {
  import opened Words
  import opened FileState
  import opened Storage
  import opened Syscalls
  import opened World
  import Invariants

  /**
   * An open file description. `inStep` is for the comparison only: it says that the offset has been moved
   * by nothing but what the tracker sees, namely sequential writes and the seeks that it does not ignore.
   */
  datatype Description = Description(writable: bool, append: bool, offset: nat, inStep: bool)

  /** Descriptors refer to descriptions, and may share them. */
  datatype Kernel = Kernel(descriptors: map<nat, nat>, descriptions: seq<Description>)

  datatype Call =
    | Open(fd: nat, writable: bool, append: bool)
    | Dup(oldfd: nat, newfd: nat)
    | Close(fd: nat)
    | Write(fd: nat, nbytes: nat, end: nat)   // with O_APPEND, the offset ends up at `end`
    | Read(fd: nat, nbytes: nat)
    | Lseek(fd: nat, pos: nat)
    | SetStatus(fd: nat, append: bool)
    | Create(fd: nat)                         // a socket, or the like: not a file that is open for writing
    | CreatePair(fd: nat, fd': nat)           // a pipe, or two sockets
    | Other                                   // moves no offset and changes no descriptor

  predicate Possible(k: Kernel, c: Call) {
    match c
    case Open(fd, _, _) => fd !in k.descriptors
    case Dup(oldfd, _) => oldfd in k.descriptors
    case Write(fd, _, _) => fd in k.descriptors
    case Read(fd, _) => fd in k.descriptors
    case Lseek(fd, _) => fd in k.descriptors
    case SetStatus(fd, _) => fd in k.descriptors
    case Create(fd) => fd !in k.descriptors
    case CreatePair(fd, fd') => fd !in k.descriptors && fd' !in k.descriptors && fd != fd'
    case _ => true
  }

  ghost predicate WellFormed(k: Kernel) {
    forall fd :: fd in k.descriptors ==> k.descriptors[fd] < |k.descriptions|
  }

  function Redescribed(k: Kernel, fd: nat, d: Description): Kernel
    requires fd in k.descriptors && k.descriptors[fd] < |k.descriptions|
  {
    k.(descriptions := k.descriptions[k.descriptors[fd] := d])
  }

  function Created(k: Kernel, fd: nat): Kernel {
    Kernel(k.descriptors[fd := |k.descriptions|], k.descriptions + [Description(false, false, 0, true)])
  }

  function Performed(k: Kernel, c: Call): Kernel
    requires WellFormed(k) && Possible(k, c)
  {
    match c
    case Open(fd, writable, append) =>
      Kernel(k.descriptors[fd := |k.descriptions|], k.descriptions + [Description(writable, append, 0, !append)])
    case Dup(oldfd, newfd) => k.(descriptors := k.descriptors[newfd := k.descriptors[oldfd]])
    case Close(fd) => k.(descriptors := k.descriptors - {fd})
    case Write(fd, nbytes, end) =>
      var d := k.descriptions[k.descriptors[fd]];
      Redescribed(k, fd, if d.append then d.(offset := end, inStep := false) else d.(offset := d.offset + nbytes))
    case Read(fd, nbytes) =>
      var d := k.descriptions[k.descriptors[fd]];
      Redescribed(k, fd, d.(offset := d.offset + nbytes, inStep := d.inStep && nbytes == 0))
    case Lseek(fd, pos) =>
      var d := k.descriptions[k.descriptors[fd]];
      Redescribed(k, fd, d.(offset := pos, inStep := pos % 0x1_0000_0000 < 0x8000_0000))
    case SetStatus(fd, append) =>
      var d := k.descriptions[k.descriptors[fd]];
      Redescribed(k, fd, d.(append := append))
    case Create(fd) => Created(k, fd)
    case CreatePair(fd, fd') => Created(Created(k, fd), fd')
    case Other => k
  }

  predicate Failed(r: Regs) {
    r.ret >= TWO_TO_64 - 4095
  }

  /** The calling conventions: which registers belong to which call. */
  predicate Encodes(c: Call, r: Regs, link: string, fs: FileSystem) {
    match c
    case Open(fd, writable, append) =>
      && r.ret == fd < 0x8000_0000
      && (|| (r.nr == 2 && Access(r.arg1, writable, append))
          || (r.nr == 257 && Access(r.arg2, writable, append))
          || (r.nr == 85 && writable && !append && GetFileLength(fs, link) == 0))
    case Dup(oldfd, newfd) =>
      && r.arg0 == oldfd && r.ret == newfd < 0x8000_0000
      && (r.nr == 32 || (r.nr == 33 && r.arg1 == newfd) || (r.nr == 292 && r.arg1 == newfd) ||
          (r.nr == 72 && (r.arg1 == 0 || r.arg1 == 1030)))
    case Close(fd) => r.nr == 3 && r.arg0 == fd
    case Write(fd, nbytes, _) => (r.nr == 1 || r.nr == 20) && r.arg0 == fd && r.ret == nbytes < 0x8000_0000_0000_0000
    case Read(fd, nbytes) => (r.nr == 0 || r.nr == 19) && r.arg0 == fd && r.ret == nbytes
    case Lseek(fd, pos) => r.nr == 8 && r.arg0 == fd && r.ret == pos
    case SetStatus(fd, append) =>
      r.nr == 72 && r.arg0 == fd && r.arg1 == 4 && r.ret == 0 && (append <==> HasFlag(r.arg2, 0x400))
    case Create(fd) => r.nr in CREATING && r.ret == fd
    case CreatePair(_, _) => r.nr in {22, 53, 293}
    case Other =>
      || r.nr in {18, 296, 285, 77}
      || (r.nr in {327, 328} && r.arg3 != TWO_TO_64 - 1)   // with offset -1, the offset of the file is used
      || r.nr !in {0, 1, 2, 3, 8, 19, 20, 22, 32, 33, 53, 72, 85, 257, 292, 293, 327, 328} + CREATING + UNFOLLOWED
      || (r.nr == 72 && r.arg1 !in {0, 4, 1030})
      || (r.nr != 3 && Failed(r))
  }

  /** socket, accept, inotify_init, epoll_create, signalfd, timerfd_create, eventfd and their variants. */
  const CREATING: set<int> := {41, 43, 213, 253, 282, 283, 284, 288, 289, 290, 291, 294}

  /**
   * Calls that move offsets or change descriptors and are not part of the comparison: sendfile, splice,
   * copy_file_range, recvmsg, recvmmsg, clone and its variants, execve, execveat, open_by_handle_at, openat2,
   * memfd_create, close_range, pidfd_open, pidfd_getfd, and io_uring.
   */
  const UNFOLLOWED: set<int> := {40, 47, 56, 57, 58, 59, 275, 299, 304, 319, 322, 326, 425, 426, 427, 434, 435, 436, 437, 438}

  /** The access mode is in the two lowest bits of the flags; mode 3 allows neither reading nor writing. */
  predicate Access(flags: u64, writable: bool, append: bool) {
    && flags % 4 != 3
    && (writable <==> flags % 4 == 1 || flags % 4 == 2)
    && (append <==> HasFlag(flags, 0x400))
  }

  // ---------- the relation ----------

  ghost predicate Follows(fds: seq<Option<nat>>, files: seq<FileRec>, k: Kernel) {
    && WellFormed(k)
    && (forall fd: nat :: Slot(fds, fd).Some? ==> Slot(fds, fd).value < |files|)
    && (forall fd: nat :: Slot(fds, fd).Some? <==> Tracks(k, fd))
    && (forall fd: nat, fd': nat :: Tracks(k, fd) && Tracks(k, fd') ==>
          (Slot(fds, fd) == Slot(fds, fd') <==> k.descriptors[fd] == k.descriptors[fd']))
    && (forall fd: nat :: Tracks(k, fd) && k.descriptions[k.descriptors[fd]].inStep && Slot(fds, fd).Some? ==>
          files[Slot(fds, fd).value].currPos == Wrap(k.descriptions[k.descriptors[fd]].offset))
  }

  /** Descriptor `fd` descends from an open for writing. */
  ghost predicate Tracks(k: Kernel, fd: nat)
    requires WellFormed(k)
  {
    fd in k.descriptors && k.descriptions[k.descriptors[fd]].writable
  }

  // ---------- what the tracker does, slot by slot ----------

  lemma DupSlots(w: World, t: nat, oldfd: nat, newfd: nat, flags: Option<u64>, fd: nat)
    requires Closed(w) && t < |w.tables|
    ensures var w' := DupAndFlag(w, t, oldfd, newfd, flags);
            && Closed(w') && t < |w'.tables| && |w'.files| == |w.files|
            && Slot(w'.tables[t].fds, fd) == Slot(w.tables[t].fds, if fd == newfd then oldfd else fd)
  {
    ClosedAfterDup(w, t, oldfd, newfd);
    assert DupFd(w, t, oldfd, newfd).files == w.files;
    DupFdSlots(w, t, oldfd, newfd, fd);
  }

  lemma DupFdSlots(w: World, t: nat, oldfd: nat, newfd: nat, fd: nat)
    requires Closed(w) && t < |w.tables|
    ensures t < |DupFd(w, t, oldfd, newfd).tables|
    ensures Slot(DupFd(w, t, oldfd, newfd).tables[t].fds, fd) == Slot(w.tables[t].fds, if fd == newfd then oldfd else fd)
  {
    if oldfd != newfd {
      var fds := CloseFd(w, t, newfd).tables[t].fds;
      assert Slot(fds, fd) == if fd == newfd then None else Slot(w.tables[t].fds, fd);
      assert Slot(Resized(fds, newfd + 1), fd) == Slot(fds, fd);
    }
  }

  lemma DupOffsets(w: World, t: nat, oldfd: nat, newfd: nat, flags: Option<u64>, f: nat)
    requires Closed(w) && t < |w.tables| && f < |w.files|
    ensures DupAndFlag(w, t, oldfd, newfd, flags).files[f].currPos == w.files[f].currPos
  {
    ClosedAfterDup(w, t, oldfd, newfd);
  }

  // ---------- one call ----------

  lemma OpenFollows(w: World, t: nat, k: Kernel, fd: nat, writable: bool, append: bool, file: FileRec)
    requires Closed(w) && t < |w.tables| && Follows(w.tables[t].fds, w.files, k) && fd !in k.descriptors
    requires append || file.currPos == 0
    ensures var k' := Performed(k, Open(fd, writable, append));
            var w' := OpenWriteFile(w, t, fd, file);
            if writable then Follows(w'.tables[t].fds, w'.files, k') else Follows(w.tables[t].fds, w.files, k')
  {
    var fds := w.tables[t].fds;
    var fds' := OpenWriteFile(w, t, fd, file).tables[t].fds;
    forall fd': nat ensures Slot(fds', fd') == if fd' == fd then Some(|w.files|) else Slot(fds, fd') {
      assert Slot(Resized(fds, fd + 1), fd') == Slot(fds, fd');
    }
    if writable {
      NewFollows(fds, w.files, fds', k, fd, append, file);
    } else {
      UntrackedFollows(fds, w.files, k, fd, append);
    }
  }

  lemma NewFollows(fds: seq<Option<nat>>, files: seq<FileRec>, fds': seq<Option<nat>>, k: Kernel, fd: nat, append: bool,
                   file: FileRec)
    requires Follows(fds, files, k) && fd !in k.descriptors && (append || file.currPos == 0)
    requires forall fd': nat :: Slot(fds', fd') == if fd' == fd then Some(|files|) else Slot(fds, fd')
    ensures Follows(fds', files + [file], Performed(k, Open(fd, true, append)))
  {}

  lemma UntrackedFollows(fds: seq<Option<nat>>, files: seq<FileRec>, k: Kernel, fd: nat, append: bool)
    requires Follows(fds, files, k) && fd !in k.descriptors
    ensures Follows(fds, files, Performed(k, Open(fd, false, append)))
  {
    assert !Tracks(k, fd);
  }

  lemma CloseFollows(w: World, t: nat, k: Kernel, fd: nat)
    requires Closed(w) && t < |w.tables| && Follows(w.tables[t].fds, w.files, k)
    ensures Follows(CloseFd(w, t, fd).tables[t].fds, CloseFd(w, t, fd).files, Performed(k, Call.Close(fd)))
  {
    var fds, fds' := w.tables[t].fds, CloseFd(w, t, fd).tables[t].fds;
    assert forall fd': nat :: Slot(fds', fd') == if fd' == fd then None else Slot(fds, fd');
  }

  lemma DupFollows(w: World, t: nat, k: Kernel, oldfd: nat, newfd: nat, flags: Option<u64>)
    requires Closed(w) && t < |w.tables| && Follows(w.tables[t].fds, w.files, k) && oldfd in k.descriptors
    ensures var w' := DupAndFlag(w, t, oldfd, newfd, flags);
            Closed(w') && t < |w'.tables| && Follows(w'.tables[t].fds, w'.files, Performed(k, Call.Dup(oldfd, newfd)))
  {
    var w' := DupAndFlag(w, t, oldfd, newfd, flags);
    DupSlots(w, t, oldfd, newfd, flags, newfd);
    forall fd: nat ensures Slot(w'.tables[t].fds, fd) == Slot(w.tables[t].fds, if fd == newfd then oldfd else fd) {
      DupSlots(w, t, oldfd, newfd, flags, fd);
    }
    forall f | 0 <= f < |w.files| ensures w'.files[f].currPos == w.files[f].currPos {
      DupOffsets(w, t, oldfd, newfd, flags, f);
    }
    SharedFollows(w.tables[t].fds, w.files, w'.tables[t].fds, w'.files, k, oldfd, newfd);
  }

  lemma SharedFollows(fds: seq<Option<nat>>, files: seq<FileRec>, fds': seq<Option<nat>>, files': seq<FileRec>, k: Kernel,
                      oldfd: nat, newfd: nat)
    requires Follows(fds, files, k) && oldfd in k.descriptors && |files'| == |files|
    requires forall fd: nat :: Slot(fds', fd) == Slot(fds, if fd == newfd then oldfd else fd)
    requires forall f :: 0 <= f < |files| ==> files'[f].currPos == files[f].currPos
    ensures Follows(fds', files', Performed(k, Call.Dup(oldfd, newfd)))
  {}

  /** A change to a file and to a description that move both offsets alike, or take the description out of step. */
  lemma ChangeFollows(w: World, t: nat, k: Kernel, fd: nat, file: FileRec, d: Description)
    requires Closed(w) && t < |w.tables| && Follows(w.tables[t].fds, w.files, k) && fd in k.descriptors
    requires d.writable == k.descriptions[k.descriptors[fd]].writable
    requires d.inStep && Tracks(k, fd) ==> file.currPos == Wrap(d.offset)
    ensures var slot := Slot(w.tables[t].fds, fd);
            Follows(w.tables[t].fds, if slot.Some? then w.files[slot.value := file] else w.files, Redescribed(k, fd, d))
  {}

  lemma SameFilesFollow(fds: seq<Option<nat>>, files: seq<FileRec>, files': seq<FileRec>, k: Kernel)
    requires Follows(fds, files, k) && |files'| == |files|
    requires forall f :: 0 <= f < |files| ==> files'[f].currPos == files[f].currPos
    ensures Follows(fds, files', k)
  {}

  lemma WriteFollows(w: World, t: nat, k: Kernel, fd: nat, nbytes: u64, end: nat)
    requires Closed(w) && t < |w.tables| && Follows(w.tables[t].fds, w.files, k) && fd in k.descriptors
    ensures Follows(w.tables[t].fds, ChangeFile(w, t, fd, Advance(nbytes)).files, Performed(k, Call.Write(fd, nbytes, end)))
  {
    var slot, d := Slot(w.tables[t].fds, fd), k.descriptions[k.descriptors[fd]];
    var d' := if d.append then d.(offset := end, inStep := false) else d.(offset := d.offset + nbytes);
    if slot.Some? {
      assert Plus(Wrap(d.offset), nbytes) == Wrap(d.offset + nbytes) by { PlusIsWrap(d.offset, nbytes); }
      ChangeFollows(w, t, k, fd, w.files[slot.value].Enroll(nbytes), d');
    } else {
      ChangeFollows(w, t, k, fd, FileRec(0, Wrap(d'.offset), 0, 0, ""), d');
    }
  }

  lemma SeekFollows(w: World, t: nat, k: Kernel, fd: nat, pos: u64)
    requires Closed(w) && t < |w.tables| && Follows(w.tables[t].fds, w.files, k) && fd in k.descriptors
    ensures var files := if IntNonNegative(pos) then ChangeFile(w, t, fd, Seek(pos)).files else w.files;
            Follows(w.tables[t].fds, files, Performed(k, Lseek(fd, pos)))
  {
    var slot, d := Slot(w.tables[t].fds, fd), k.descriptions[k.descriptors[fd]];
    var d' := d.(offset := pos, inStep := pos % 0x1_0000_0000 < 0x8000_0000);
    var file := if slot.Some? then w.files[slot.value] else FileRec(0, 0, 0, 0, "");
    if IntNonNegative(pos) {
      ChangeFollows(w, t, k, fd, file.(currPos := pos), d');
    } else {
      ChangeFollows(w, t, k, fd, file, d');
      if slot.Some? { assert w.files[slot.value := file] == w.files; }
    }
  }

  lemma ReadFollows(w: World, t: nat, k: Kernel, fd: nat, nbytes: nat)
    requires Closed(w) && t < |w.tables| && Follows(w.tables[t].fds, w.files, k) && fd in k.descriptors
    ensures Follows(w.tables[t].fds, w.files, Performed(k, Call.Read(fd, nbytes)))
  {
    var slot, d := Slot(w.tables[t].fds, fd), k.descriptions[k.descriptors[fd]];
    var file := if slot.Some? then w.files[slot.value] else FileRec(0, Wrap(d.offset), 0, 0, "");
    ChangeFollows(w, t, k, fd, file, d.(offset := d.offset + nbytes, inStep := d.inStep && nbytes == 0));
    if slot.Some? { assert w.files[slot.value := file] == w.files; }
  }

  lemma StatusFollows(w: World, t: nat, k: Kernel, fd: nat, flags: u64, append: bool)
    requires Closed(w) && t < |w.tables| && Follows(w.tables[t].fds, w.files, k) && fd in k.descriptors
    ensures Follows(w.tables[t].fds, ChangeFile(w, t, fd, SetFlags(flags)).files, Performed(k, SetStatus(fd, append)))
  {
    var slot, d := Slot(w.tables[t].fds, fd), k.descriptions[k.descriptors[fd]];
    var file := if slot.Some? then w.files[slot.value] else FileRec(0, Wrap(d.offset), 0, 0, "");
    ChangeFollows(w, t, k, fd, file.(flags := flags), d.(append := append));
  }

  // ---------- the simulation ----------

  /** What each call is taken for when it finishes. */
  lemma OpenDecoded(r: Regs, fd: nat, writable: bool, append: bool, link: string, fs: FileSystem)
    requires Encodes(Open(fd, writable, append), r, link, fs)
    ensures var file := Opened(fs, link, if r.nr == 257 then r.arg2 else r.arg1);
            && Decode(r) == (if writable then OpenWrite(fd, file.flags) else Nop)
            && (append || file.currPos == 0)
  {
    if r.nr != 85 { AccessMode(if r.nr == 257 then r.arg2 else r.arg1, writable, append); }
  }

  lemma AccessMode(flags: u64, writable: bool, append: bool)
    requires Access(flags, writable, append)
    ensures OpenedForWriting(flags) <==> writable
  {
    var m, x := flags / 4, flags % 4;
    Doubled(2 * m, x);
    Doubled(m, x / 2);
    assert flags == 2 * (2 * m) + x && flags / 1 == flags;
    assert x == 0 || x == 1 || x == 2;
  }

  lemma DupDecoded(r: Regs, oldfd: nat, newfd: nat, link: string, fs: FileSystem)
    requires Encodes(Call.Dup(oldfd, newfd), r, link, fs)
    ensures Decode(r).Dup? && Decode(r).oldfd == oldfd && Decode(r).newfd == newfd
  {}

  lemma OtherDecoded(r: Regs, link: string, fs: FileSystem)
    requires Encodes(Other, r, link, fs)
    ensures Decode(r) == Nop || (Decode(r).Touch? && (Decode(r).change.Extend? || Decode(r).change.SetFlags?))
  {}

  lemma MoveDecoded(c: Call, r: Regs, link: string, fs: FileSystem)
    requires Encodes(c, r, link, fs) && !c.Create? && !c.CreatePair?
    ensures match c
            case Close(fd) => Decode(r) == Op.Close(fd)
            case Write(fd, n, _) => Decode(r) == if n > 0 then Touch(fd, Advance(n)) else Nop
            case Read(_, _) => Decode(r) == Nop
            case Lseek(fd, pos) => Decode(r) == if IntNonNegative(pos) then Touch(fd, Seek(pos)) else Nop
            case SetStatus(fd, _) => Decode(r) == Touch(fd, SetFlags(r.arg2))
            case _ => true
  {}

  /** One call: the table keeps following the descriptors. */
  lemma CallFollows(w: World, t: nat, k: Kernel, c: Call, r: Regs, link: string, fs: FileSystem)
    requires Closed(w) && t < |w.tables| && Follows(w.tables[t].fds, w.files, k)
    requires Possible(k, c) && Encodes(c, r, link, fs)
    ensures var w' := Apply(w, t, Decode(r), link, fs);
            Closed(w') && t < |w'.tables| && Follows(w'.tables[t].fds, w'.files, Performed(k, c))
  {
    match c
    case Open(fd, writable, append) => OpenCallFollows(w, t, k, c, r, link, fs);
    case Dup(oldfd, newfd) => DupCallFollows(w, t, k, c, r, link, fs);
    case Create(fd) => CreateFollows(w, t, k, c, r, link, fs);
    case CreatePair(fd, fd') => CreateFollows(w, t, k, c, r, link, fs);
    case Other => OtherCallFollows(w, t, k, r, link, fs);
    case _ => MoveFollows(w, t, k, c, r, link, fs);
  }

  lemma OpenCallFollows(w: World, t: nat, k: Kernel, c: Call, r: Regs, link: string, fs: FileSystem)
    requires Closed(w) && t < |w.tables| && Follows(w.tables[t].fds, w.files, k)
    requires Possible(k, c) && Encodes(c, r, link, fs) && c.Open?
    ensures var w' := Apply(w, t, Decode(r), link, fs);
            Closed(w') && t < |w'.tables| && Follows(w'.tables[t].fds, w'.files, Performed(k, c))
  {
    var file := Opened(fs, link, if r.nr == 257 then r.arg2 else r.arg1);
    assert Decode(r) == (if c.writable then OpenWrite(c.fd, file.flags) else Nop) && (c.append || file.currPos == 0) by {
      OpenDecoded(r, c.fd, c.writable, c.append, link, fs);
    }
    assert Apply(w, t, Decode(r), link, fs) == if c.writable then OpenWriteFile(w, t, c.fd, file) else w;
    OpenFollows(w, t, k, c.fd, c.writable, c.append, file);
  }

  lemma DupCallFollows(w: World, t: nat, k: Kernel, c: Call, r: Regs, link: string, fs: FileSystem)
    requires Closed(w) && t < |w.tables| && Follows(w.tables[t].fds, w.files, k)
    requires Possible(k, c) && Encodes(c, r, link, fs) && c.Dup?
    ensures var w' := Apply(w, t, Decode(r), link, fs);
            Closed(w') && t < |w'.tables| && Follows(w'.tables[t].fds, w'.files, Performed(k, c))
  {
    DupDecoded(r, c.oldfd, c.newfd, link, fs);
    DupFollows(w, t, k, c.oldfd, c.newfd, Decode(r).dupFlags);
  }

  /** The tracker takes no notice of what it does not track. */
  lemma CreateFollows(w: World, t: nat, k: Kernel, c: Call, r: Regs, link: string, fs: FileSystem)
    requires Closed(w) && t < |w.tables| && Follows(w.tables[t].fds, w.files, k)
    requires Possible(k, c) && Encodes(c, r, link, fs) && (c.Create? || c.CreatePair?)
    ensures var w' := Apply(w, t, Decode(r), link, fs);
            Closed(w') && t < |w'.tables| && Follows(w'.tables[t].fds, w'.files, Performed(k, c))
  {
    assert Decode(r) == Nop;
    CreatedFollows(w.tables[t].fds, w.files, k, c.fd);
    if c.CreatePair? { CreatedFollows(w.tables[t].fds, w.files, Created(k, c.fd), c.fd'); }
  }

  lemma CreatedFollows(fds: seq<Option<nat>>, files: seq<FileRec>, k: Kernel, fd: nat)
    requires Follows(fds, files, k) && fd !in k.descriptors
    ensures Follows(fds, files, Created(k, fd))
  {
    assert !Tracks(k, fd);
  }

  lemma OtherCallFollows(w: World, t: nat, k: Kernel, r: Regs, link: string, fs: FileSystem)
    requires Closed(w) && t < |w.tables| && Follows(w.tables[t].fds, w.files, k) && Encodes(Other, r, link, fs)
    ensures var w' := Apply(w, t, Decode(r), link, fs);
            Closed(w') && t < |w'.tables| && Follows(w'.tables[t].fds, w'.files, k)
  {
    OtherDecoded(r, link, fs);
    SameFilesFollow(w.tables[t].fds, w.files, Apply(w, t, Decode(r), link, fs).files, k);
  }

  lemma MoveFollows(w: World, t: nat, k: Kernel, c: Call, r: Regs, link: string, fs: FileSystem)
    requires Closed(w) && t < |w.tables| && Follows(w.tables[t].fds, w.files, k)
    requires Possible(k, c) && Encodes(c, r, link, fs) && !c.Open? && !c.Dup? && !c.Create? && !c.CreatePair? && !c.Other?
    ensures var w' := Apply(w, t, Decode(r), link, fs);
            Closed(w') && t < |w'.tables| && Follows(w'.tables[t].fds, w'.files, Performed(k, c))
  {
    match c
    case Close(fd) =>
      assert Decode(r) == Op.Close(fd) by { MoveDecoded(c, r, link, fs); }
      CloseFollows(w, t, k, fd);
    case Write(fd, n, end) => WriteCallFollows(w, t, k, c, r, link, fs);
    case Read(fd, n) =>
      assert Decode(r) == Nop by { MoveDecoded(c, r, link, fs); }
      ReadFollows(w, t, k, fd, n);
    case Lseek(fd, pos) => SeekCallFollows(w, t, k, c, r, link, fs);
    case SetStatus(fd, append) =>
      assert Decode(r) == Touch(fd, SetFlags(r.arg2)) by { MoveDecoded(c, r, link, fs); }
      StatusFollows(w, t, k, fd, r.arg2, append);
  }

  lemma SeekCallFollows(w: World, t: nat, k: Kernel, c: Call, r: Regs, link: string, fs: FileSystem)
    requires Closed(w) && t < |w.tables| && Follows(w.tables[t].fds, w.files, k)
    requires Possible(k, c) && Encodes(c, r, link, fs) && c.Lseek?
    ensures var w' := Apply(w, t, Decode(r), link, fs);
            Closed(w') && t < |w'.tables| && Follows(w'.tables[t].fds, w'.files, Performed(k, c))
  {
    MoveDecoded(c, r, link, fs);
    SeekFollows(w, t, k, c.fd, c.pos);
  }

  lemma WriteCallFollows(w: World, t: nat, k: Kernel, c: Call, r: Regs, link: string, fs: FileSystem)
    requires Closed(w) && t < |w.tables| && Follows(w.tables[t].fds, w.files, k)
    requires Possible(k, c) && Encodes(c, r, link, fs) && c.Write?
    ensures var w' := Apply(w, t, Decode(r), link, fs);
            Closed(w') && t < |w'.tables| && Follows(w'.tables[t].fds, w'.files, Performed(k, c))
  {
    MoveDecoded(c, r, link, fs);
    WriteFollows(w, t, k, c.fd, c.nbytes, c.end);
    NothingWritten(w, t, c.fd);
  }

  /** Writing nothing moves nothing, so that it may be ignored. */
  lemma NothingWritten(w: World, t: nat, fd: nat)
    requires Closed(w) && t < |w.tables|
    ensures forall k :: Follows(w.tables[t].fds, ChangeFile(w, t, fd, Advance(0)).files, k) ==>
              Follows(w.tables[t].fds, w.files, k)
  {
    forall k | Follows(w.tables[t].fds, ChangeFile(w, t, fd, Advance(0)).files, k)
      ensures Follows(w.tables[t].fds, w.files, k)
    {
      SameFilesFollow(w.tables[t].fds, ChangeFile(w, t, fd, Advance(0)).files, w.files, k);
    }
  }

  // ---------- the start ----------

  function ProbedAt(probed: seq<Option<Inherited>>, fd: nat): Option<Inherited> {
    if fd < |probed| then probed[fd] else None
  }

  function AsOpened(i: Inherited, fs: FileSystem): FileRec {
    Opened(fs, i.name, i.flags)
  }

  /** How one slot is filled: with a new file, opened, if probing found one. */
  ghost predicate Filled(slot: Option<nat>, i: Option<Inherited>, files: seq<FileRec>, base: nat, fs: FileSystem) {
    if i.Some? then slot.Some? && base <= slot.value < |files| && files[slot.value] == AsOpened(i.value, fs) else slot.None?
  }

  lemma {:induction false} FillFdsFills(w: World, t: nat, probed: seq<Option<Inherited>>, n: nat, fs: FileSystem)
    requires t < |w.tables| && n <= |probed|
    requires forall fd: nat :: fd < n ==> Slot(w.tables[t].fds, fd).None?
    ensures var w' := FillFds(w, t, probed, n, fs);
            && t < |w'.tables| && w.files <= w'.files
            && (forall fd: nat :: fd < n ==> Filled(Slot(w'.tables[t].fds, fd), probed[fd], w'.files, |w.files|, fs))
            && (forall fd: nat :: fd >= n ==> Slot(w'.tables[t].fds, fd) == Slot(w.tables[t].fds, fd))
            && (forall fd: nat, fd': nat :: fd < fd' < n && Slot(w'.tables[t].fds, fd).Some? ==>
                  Slot(w'.tables[t].fds, fd) != Slot(w'.tables[t].fds, fd'))
    decreases n
  {
    if n > 0 {
      if probed[n - 1].None? {
        FillFdsFills(w, t, probed, n - 1, fs);
      } else {
        var w' := OpenWriteFile(w, t, n - 1, AsOpened(probed[n - 1].value, fs));
        forall fd: nat ensures Slot(w'.tables[t].fds, fd) == if fd == n - 1 then Some(|w.files|) else Slot(w.tables[t].fds, fd) {
          assert Slot(Resized(w.tables[t].fds, n), fd) == Slot(w.tables[t].fds, fd);
        }
        FillFdsFills(w', t, probed, n - 1, fs);
      }
    }
  }

  /** Every regular file that is inherited gets a slot and a file state of its own, whatever it shares with others. */
  lemma StartSlots(pid: Pid, comm: string, cmdline: string, probed: seq<Option<Inherited>>, fs: FileSystem)
    ensures var w := RegisterTracee(pid, comm, cmdline, probed, fs);
            && |w.tables| > 0
            && (forall fd: nat :: Filled(Slot(w.tables[0].fds, fd), ProbedAt(probed, fd), w.files, 0, fs))
            && (forall fd: nat, fd': nat :: fd < fd' && Slot(w.tables[0].fds, fd).Some? ==>
                  Slot(w.tables[0].fds, fd) != Slot(w.tables[0].fds, fd'))
  {
    var w := NewTracee(pid, comm, cmdline, |probed|);
    assert forall fd: nat :: Slot(w.tables[0].fds, fd) == Slot([], fd) == None;
    FillFdsFills(w, 0, probed, |probed|, fs);
  }

  /** Each regular file that is inherited is open for writing, none shares its description, and offsets are in step. */
  ghost predicate PlainStart(probed: seq<Option<Inherited>>, fs: FileSystem, k: Kernel)
    requires WellFormed(k)
  {
    && (forall fd: nat :: ProbedAt(probed, fd).Some? <==> Tracks(k, fd))
    && (forall fd: nat, fd': nat :: Tracks(k, fd) && Tracks(k, fd') && fd < fd' ==> k.descriptors[fd] != k.descriptors[fd'])
    && (forall fd: nat :: Tracks(k, fd) && k.descriptions[k.descriptors[fd]].inStep && ProbedAt(probed, fd).Some? ==>
          AsOpened(ProbedAt(probed, fd).value, fs).currPos == Wrap(k.descriptions[k.descriptors[fd]].offset))
  }

  /**
   * The tracee starts in step with POSIX exactly if its inherited files are plain in this sense. A file that
   * is only read is tracked all the same, and two descriptors of one description, as after `1>out 2>&1`, get
   * two file states.
   */
  lemma StartFollows(pid: Pid, comm: string, cmdline: string, probed: seq<Option<Inherited>>, fs: FileSystem, k: Kernel)
    requires WellFormed(k)
    ensures var w := RegisterTracee(pid, comm, cmdline, probed, fs);
            |w.tables| > 0 && (Follows(w.tables[0].fds, w.files, k) <==> PlainStart(probed, fs, k))
  {
    var w := RegisterTracee(pid, comm, cmdline, probed, fs);
    StartSlots(pid, comm, cmdline, probed, fs);
    var fds := w.tables[0].fds;
    forall fd: nat ensures Slot(fds, fd).Some? <==> ProbedAt(probed, fd).Some? {
      assert Filled(Slot(fds, fd), ProbedAt(probed, fd), w.files, 0, fs);
    }
    if PlainStart(probed, fs, k) {
      StartIsInStep(fds, w.files, probed, fs, k);
    } else if Follows(fds, w.files, k) {
      StartIsPlain(fds, w.files, probed, fs, k);
    }
  }

  lemma StartIsInStep(fds: seq<Option<nat>>, files: seq<FileRec>, probed: seq<Option<Inherited>>, fs: FileSystem, k: Kernel)
    requires WellFormed(k) && PlainStart(probed, fs, k)
    requires forall fd: nat :: Filled(Slot(fds, fd), ProbedAt(probed, fd), files, 0, fs)
    requires forall fd: nat, fd': nat :: fd < fd' && Slot(fds, fd).Some? ==> Slot(fds, fd) != Slot(fds, fd')
    ensures Follows(fds, files, k)
  {
    forall fd: nat
      ensures Slot(fds, fd).Some? ==> Slot(fds, fd).value < |files|
      ensures Slot(fds, fd).Some? <==> Tracks(k, fd)
      ensures Tracks(k, fd) && k.descriptions[k.descriptors[fd]].inStep && Slot(fds, fd).Some? ==>
                files[Slot(fds, fd).value].currPos == Wrap(k.descriptions[k.descriptors[fd]].offset)
    {
      assert Filled(Slot(fds, fd), ProbedAt(probed, fd), files, 0, fs);
    }
    forall fd: nat, fd': nat | Tracks(k, fd) && Tracks(k, fd')
      ensures Slot(fds, fd) == Slot(fds, fd') <==> k.descriptors[fd] == k.descriptors[fd']
    {
      if fd != fd' {
        var low, high := if fd < fd' then fd else fd', if fd < fd' then fd' else fd;
        assert Slot(fds, low) != Slot(fds, high) && k.descriptors[low] != k.descriptors[high];
      }
    }
  }

  lemma StartIsPlain(fds: seq<Option<nat>>, files: seq<FileRec>, probed: seq<Option<Inherited>>, fs: FileSystem, k: Kernel)
    requires Follows(fds, files, k)
    requires forall fd: nat :: Filled(Slot(fds, fd), ProbedAt(probed, fd), files, 0, fs)
    requires forall fd: nat, fd': nat :: fd < fd' && Slot(fds, fd).Some? ==> Slot(fds, fd) != Slot(fds, fd')
    ensures PlainStart(probed, fs, k)
  {
    forall fd: nat
      ensures ProbedAt(probed, fd).Some? <==> Tracks(k, fd)
      ensures Tracks(k, fd) && k.descriptions[k.descriptors[fd]].inStep && ProbedAt(probed, fd).Some? ==>
                AsOpened(ProbedAt(probed, fd).value, fs).currPos == Wrap(k.descriptions[k.descriptors[fd]].offset)
    {
      assert Filled(Slot(fds, fd), ProbedAt(probed, fd), files, 0, fs);
    }
    forall fd: nat, fd': nat | Tracks(k, fd) && Tracks(k, fd') && fd < fd' ensures k.descriptors[fd] != k.descriptors[fd'] {
      assert Slot(fds, fd) != Slot(fds, fd');
    }
  }

  /** A process that inherits no regular file is in step exactly if it has no description open for writing. */
  lemma EmptyTableFollows(pid: Pid, comm: string, cmdline: string, size: nat, fs: FileSystem, k: Kernel)
    requires WellFormed(k)
    ensures var w := RegisterTracee(pid, comm, cmdline, seq(size, _ => None), fs);
            |w.tables| > 0 && (Follows(w.tables[0].fds, w.files, k) <==> forall fd: nat :: !Tracks(k, fd))
  {
    var probed: seq<Option<Inherited>> := seq(size, _ => None);
    assert forall fd: nat :: ProbedAt(probed, fd) == None;
    StartFollows(pid, comm, cmdline, probed, fs, k);
  }

  /** A system call that finished, with what is found out about it. */
  datatype Finished = Finished(call: Call, regs: Regs, link: string, fs: FileSystem)

  ghost predicate NextCall(w: World, t: nat, k: Kernel, f: Finished, w': World, k': Kernel) {
    && Closed(w) && t < |w.tables| && w' == Apply(w, t, Decode(f.regs), f.link, f.fs)
    && WellFormed(k) && Possible(k, f.call) && k' == Performed(k, f.call)
    && Encodes(f.call, f.regs, f.link, f.fs)
  }

  ghost predicate CallAt(states: seq<World>, t: nat, kernels: seq<Kernel>, calls: seq<Finished>, i: nat) {
    && i < |calls| < |states| && |kernels| == |states|
    && NextCall(states[i], t, kernels[i], calls[i], states[i + 1], kernels[i + 1])
  }

  /**
   * After any number of calls by the threads of a process, descriptor `fd` is tracked exactly when it
   * descends from an open for writing, two descriptors share a file state exactly when they share a
   * description, and the position is the offset of the description wherever that is in step.
   */
  lemma SessionFollows(states: seq<World>, t: nat, kernels: seq<Kernel>, calls: seq<Finished>, n: nat)
    requires |states| == |kernels| == |calls| + 1 && n <= |calls|
    requires forall i :: 0 <= i < |calls| ==> CallAt(states, t, kernels, calls, i)
    requires Closed(states[0]) && t < |states[0].tables| && Follows(states[0].tables[t].fds, states[0].files, kernels[0])
    ensures Closed(states[n]) && t < |states[n].tables| && Follows(states[n].tables[t].fds, states[n].files, kernels[n])
  {
    PrefixFollows(states, t, kernels, calls, n);
  }

  ghost predicate FollowsAt(states: seq<World>, t: nat, kernels: seq<Kernel>, n: nat) {
    && n < |states| == |kernels| && Closed(states[n]) && t < |states[n].tables|
    && Follows(states[n].tables[t].fds, states[n].files, kernels[n])
  }

  lemma {:induction false} PrefixFollows(states: seq<World>, t: nat, kernels: seq<Kernel>, calls: seq<Finished>, n: nat)
    requires n <= |calls| && forall i :: 0 <= i < |calls| ==> CallAt(states, t, kernels, calls, i)
    requires FollowsAt(states, t, kernels, 0)
    ensures FollowsAt(states, t, kernels, n)
  {
    if n > 0 {
      PrefixFollows(states, t, kernels, calls, n - 1);
      NextFollows(states, t, kernels, calls, n - 1);
    }
  }

  lemma NextFollows(states: seq<World>, t: nat, kernels: seq<Kernel>, calls: seq<Finished>, i: nat)
    requires i < |calls| && forall k :: 0 <= k < |calls| ==> CallAt(states, t, kernels, calls, k)
    requires FollowsAt(states, t, kernels, i)
    ensures FollowsAt(states, t, kernels, i + 1)
  {
    assert CallAt(states, t, kernels, calls, i);
    NextCallFollows(states[i], t, kernels[i], calls[i], states[i + 1], kernels[i + 1]);
  }

  /** So it is from the start of a plain tracee on. */
  lemma SessionFromStart(pid: Pid, comm: string, cmdline: string, probed: seq<Option<Inherited>>, fs: FileSystem,
                         states: seq<World>, kernels: seq<Kernel>, calls: seq<Finished>, n: nat)
    requires |states| == |kernels| == |calls| + 1 && n <= |calls|
    requires forall i :: 0 <= i < |calls| ==> CallAt(states, 0, kernels, calls, i)
    requires states[0] == RegisterTracee(pid, comm, cmdline, probed, fs)
    requires WellFormed(kernels[0]) && PlainStart(probed, fs, kernels[0])
    ensures Closed(states[n]) && 0 < |states[n].tables| && Follows(states[n].tables[0].fds, states[n].files, kernels[n])
  {
    Invariants.StartHasInv(pid, comm, cmdline, probed, fs);
    StartFollows(pid, comm, cmdline, probed, fs, kernels[0]);
    SessionFollows(states, 0, kernels, calls, n);
  }

  lemma NextCallFollows(w: World, t: nat, k: Kernel, f: Finished, w': World, k': Kernel)
    requires NextCall(w, t, k, f, w', k') && Follows(w.tables[t].fds, w.files, k)
    ensures Closed(w') && t < |w'.tables| && Follows(w'.tables[t].fds, w'.files, k')
  {
    CallFollows(w, t, k, f.call, f.regs, f.link, f.fs);
  }

  /** A seek is noticed exactly when bit 31 of its result is clear, unless it leads to where the file is anyway. */
  lemma SeekIsNoticed(w: World, t: nat, r: Regs, link: string, fs: FileSystem)
    requires Closed(w) && t < |w.tables| && r.nr == SYS_lseek && Slot(w.tables[t].fds, r.arg0).Some?
    ensures var f := Slot(w.tables[t].fds, r.arg0).value;
            Apply(w, t, Decode(r), link, fs).files[f].currPos == r.ret <==>
            r.ret % 0x1_0000_0000 < 0x8000_0000 || w.files[f].currPos == r.ret
  {
    MoveDecoded(Lseek(r.arg0, r.ret), r, link, fs);
  }

  /** A seek to 2 GiB in a file that was just opened is not noticed. */
  lemma SeekToTwoGibIsLost()
    ensures var file := FileRec(0, 0, 1, 0, "big");
            var w := World([file], [0], [Table([Some(0)], ProcInfo(1, 0, "", ""))], map[1 := 0], {1}, [], {});
            var r := Regs(SYS_lseek, 0x8000_0000, 0, 0x8000_0000, 0, 0);
            Closed(w) && Apply(w, 0, Decode(r), "", map[]).files[0].currPos != r.ret
  {
    assert Decode(Regs(SYS_lseek, 0x8000_0000, 0, 0x8000_0000, 0, 0)) == Nop;
  }

  /** With offset -1, pwritev2 writes at the offset of the file and moves it. The tracker takes -1 for a position. */
  lemma WriteAtMinusOneIsMisplaced(file: FileRec, r: Regs)
    requires r.nr == SYS_pwritev2 && 0 < r.ret < 0x8000_0000_0000_0000 && r.arg3 == TWO_TO_64 - 1
    ensures Decode(r) == Touch(r.arg0, Extend(r.ret, r.arg3))
    ensures Changed(file, Decode(r).change).currPos == file.currPos
    ensures Changed(file, Decode(r).change).maxPos == Max(file.maxPos, r.ret - 1)
  {}

  /** A call that fails, with one of the numbers that mean an error, changes nothing, unless it is a close. */
  lemma FailedChangesNothing(w: World, t: nat, r: Regs, link: string, fs: FileSystem)
    requires Closed(w) && t < |w.tables| && Failed(r)
    ensures r.nr != 3 ==> Apply(w, t, Decode(r), link, fs) == w
    ensures r.nr == 3 ==> Apply(w, t, Decode(r), link, fs) == CloseFd(w, t, r.arg0)
  {
    FailedIsNop(r);
  }

  lemma FailedIsNop(r: Regs)
    requires Failed(r)
    ensures Decode(r) == if r.nr == 3 then Op.Close(r.arg0) else Nop
  {
    assert !IntNonNegative(r.ret) && !LongPositive(r.ret);
  }

  /** Reading, and any other call that the program has no case for, changes nothing. */
  lemma OthersChangeNothing(w: World, t: nat, r: Regs, link: string, fs: FileSystem)
    requires Closed(w) && t < |w.tables|
    requires r.nr !in {1, 2, 3, 8, 18, 20, 32, 33, 72, 77, 85, 257, 285, 292, 296, 328}
    ensures Apply(w, t, Decode(r), link, fs) == w
  {}
}
