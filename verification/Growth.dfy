/** How well the tracked numbers of one file follow the file itself, when nobody else writes to it. */
module Growth {
  import opened Words
  import opened FileState
  import opened Syscalls

  /** The file: its length, and the offset of the one open file description that writes to it. */
  datatype Reference = Reference(length: nat, offset: nat)

  datatype Call =
    | Write(nbytes: nat)
    | PWrite(nbytes: nat, at: nat)
    | Lseek(pos: nat)
    | Truncate(size: nat)
    | Allocate(mode: nat, at: nat, nbytes: nat)

  const FALLOC_FL_KEEP_SIZE := 1
  const FALLOC_FL_COLLAPSE_RANGE := 8
  const FALLOC_FL_INSERT_RANGE := 32

  /** The length of the file after fallocate(2), by its mode. */
  function AllocatedLength(length: nat, mode: nat, at: nat, nbytes: nat): int {
    if HasFlag(mode, FALLOC_FL_KEEP_SIZE) then length
    else if mode == FALLOC_FL_COLLAPSE_RANGE then length - nbytes
    else if mode == FALLOC_FL_INSERT_RANGE then length + nbytes
    else Max(length, at + nbytes)
  }

  /** What the call does to the file. With O_APPEND, Linux appends even what is written at a position. */
  function Performed(ref: Reference, c: Call, append: bool): Reference
    requires Fits(ref, c)
  {
    match c
    case Write(n) =>
      if n == 0 then ref
      else if append then Reference(ref.length + n, ref.length + n)
      else Reference(Max(ref.length, ref.offset + n), ref.offset + n)
    case PWrite(n, at) =>
      if n == 0 then ref
      else if append then ref.(length := ref.length + n)
      else ref.(length := Max(ref.length, at + n))
    case Lseek(pos) => ref.(offset := pos)
    case Truncate(size) => ref.(length := size)
    case Allocate(mode, at, n) => ref.(length := AllocatedLength(ref.length, mode, at, n))
  }

  /** The calling conventions, for descriptor `fd`. */
  predicate Encodes(c: Call, r: Regs, fd: nat) {
    && r.arg0 == fd
    && match c
       case Write(n) => (r.nr == 1 || r.nr == 20) && r.ret == n < 0x8000_0000_0000_0000
       case PWrite(n, at) => r.nr in {18, 296, 328} && r.ret == n < 0x8000_0000_0000_0000 && r.arg3 == at
       case Lseek(pos) => r.nr == 8 && r.ret == pos
       case Truncate(size) => r.nr == 77 && r.ret == 0 && r.arg1 == size
       case Allocate(mode, at, n) => r.nr == 285 && r.ret == 0 && r.arg1 == mode && r.arg2 == at && r.arg3 == n
  }

  /** What the tracker makes of a call on the descriptor of this file. */
  function Tracked(file: FileRec, r: Regs): FileRec {
    match Decode(r)
    case Touch(_, change) => Changed(file, change)
    case _ => file
  }

  /** The larger of the two sizes is the length, and the next write goes where it is expected. */
  predicate Agrees(file: FileRec, ref: Reference, append: bool) {
    && Max(file.initSize, file.maxPos) == ref.length
    && file.currPos == if append then ref.length else ref.offset
  }

  /** Which calls the tracker gets right: a condition on the call and the file, known before the call. */
  predicate Faithful(c: Call, ref: Reference, append: bool) {
    match c
    case Write(_) => true
    case PWrite(n, _) => n == 0 || !append
    case Lseek(pos) =>
      if append then pos % 0x1_0000_0000 >= 0x8000_0000 || pos == ref.length
      else pos % 0x1_0000_0000 < 0x8000_0000 || pos == ref.offset
    case Truncate(size) => if append then size == ref.length else size >= ref.length
    case Allocate(mode, at, n) =>
      if mode == FALLOC_FL_COLLAPSE_RANGE || mode == FALLOC_FL_INSERT_RANGE then false
      else at + n <= ref.length || (!append && !HasFlag(mode, FALLOC_FL_KEEP_SIZE))
  }

  /**
   * No position exceeds a machine word, nothing of no length is allocated, and what is collapsed or inserted
   * lies inside of the file, which file systems see to.
   */
  predicate Fits(ref: Reference, c: Call) {
    && ref.offset < TWO_TO_64 && ref.length < TWO_TO_64
    && match c
       case Write(n) => Max(ref.length, ref.offset) + n < TWO_TO_64
       case PWrite(n, at) => Max(ref.length, at) + n < TWO_TO_64
       case Lseek(pos) => pos < TWO_TO_64
       case Truncate(size) => size < TWO_TO_64
       case Allocate(mode, at, n) =>
         && 0 < n && at + n < TWO_TO_64 && ref.length + n < TWO_TO_64
         && (mode == FALLOC_FL_COLLAPSE_RANGE ==> at + n < ref.length)
         && (mode == FALLOC_FL_INSERT_RANGE ==> at < ref.length)
  }

  lemma CallDecoded(c: Call, r: Regs, fd: nat)
    requires Encodes(c, r, fd)
    ensures Decode(r) ==
            match c
            case Write(n) => if n > 0 then Touch(fd, Advance(n)) else Nop
            case PWrite(n, at) => if n > 0 then Touch(fd, Extend(n, at)) else Nop
            case Lseek(pos) => if pos % 0x1_0000_0000 < 0x8000_0000 then Touch(fd, Seek(pos)) else Nop
            case Truncate(size) => Touch(fd, Extend(size, 0))
            case Allocate(_, at, n) => Touch(fd, Extend(Plus(at, n), 0))
  {}

  /** A call keeps the tracker in agreement with the file exactly when it is one of the faithful ones. */
  lemma AgreesExactlyWhenFaithful(file: FileRec, ref: Reference, c: Call, r: Regs, fd: nat, append: bool)
    requires Agrees(file, ref, append) && Fits(ref, c) && Encodes(c, r, fd)
    ensures Agrees(Tracked(file, r), Performed(ref, c, append), append) <==> Faithful(c, ref, append)
  {
    CallDecoded(c, r, fd);
  }

  lemma MaxPosNeverDecreases(file: FileRec, r: Regs)
    ensures Tracked(file, r).maxPos >= file.maxPos
    ensures Tracked(file, r).initSize == file.initSize && Tracked(file, r).filename == file.filename
  {}

  /** A file is in agreement when it is opened: with the offset at 0, which O_APPEND does not look at. */
  lemma AgreesWhenOpened(fs: FileSystem, name: string, flags: u64)
    ensures Agrees(Opened(fs, name, flags), Reference(GetFileLength(fs, name), 0), HasFlag(flags, O_APPEND))
    ensures Opened(fs, name, flags).OutputSize() == 0
  {}

  /** In agreement, what the tracker shows is how much the file has grown since it was opened or copied. */
  lemma OutputIsGrowth(file: FileRec, ref: Reference, append: bool)
    requires Agrees(file, ref, append)
    ensures file.OutputSize() == ref.length - file.initSize
  {}

  /** With FALLOC_FL_KEEP_SIZE, space is set aside and the file does not grow, but the tracker shows growth. */
  lemma KeptSizeIsCounted()
    ensures var file := Opened(map[], "log", 1);
            var c := Allocate(FALLOC_FL_KEEP_SIZE, 0, 100);
            var reserved := Tracked(file, Regs(SYS_fallocate, 0, 3, FALLOC_FL_KEEP_SIZE, 0, 100));
            Fits(Reference(0, 0), c) && Performed(Reference(0, 0), c, false).length == 0 && reserved.OutputSize() == 100
  {}

  /**
   * Growing a file that is open for appending by ftruncate, and then appending: the tracker sees 100 bytes of
   * growth where there are 110, because it does not move its position to the new end.
   */
  lemma AppendAfterTruncateIsLost()
    ensures var file := Opened(map[], "log", 0x401);
            var grown := Tracked(file, Regs(SYS_ftruncate, 0, 3, 100, 0, 0));
            var appended := Tracked(grown, Regs(SYS_write, 10, 3, 0, 10, 0));
            var ref := Performed(Performed(Reference(0, 0), Truncate(100), true), Write(10), true);
            Agrees(file, Reference(0, 0), true) && ref.length == 110 && appended.OutputSize() == 100
  {}
}
