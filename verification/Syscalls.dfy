/** Finished system calls, and what `SyscallExit` makes of each (src/context.cpp:312-405). */
module Syscalls {
  import opened Words
  import opened FileState

  /** The registers at a system-call stop that are looked at: `orig_rax`, `rax`, `rdi`, `rsi`, `rdx`, `r10`. */
  datatype Regs = Regs(nr: u64, ret: u64, arg0: u64, arg1: u64, arg2: u64, arg3: u64)

  const SYS_write := 1
  const SYS_open := 2
  const SYS_close := 3
  const SYS_lseek := 8
  const SYS_pwrite64 := 18
  const SYS_writev := 20
  const SYS_dup := 32
  const SYS_dup2 := 33
  const SYS_fcntl := 72
  const SYS_ftruncate := 77
  const SYS_creat := 85
  const SYS_openat := 257
  const SYS_fallocate := 285
  const SYS_dup3 := 292
  const SYS_pwritev := 296
  const SYS_pwritev2 := 328

  const F_DUPFD := 0
  const F_SETFD := 2
  const F_SETFL := 4
  const F_DUPFD_CLOEXEC := 1030

  /** `(ssize_t)x > 0` */
  predicate LongPositive(x: u64) {
    0 < x < 0x8000_0000_0000_0000
  }

  /** `(int)x >= 0`: the cast keeps the low 32 bits. */
  predicate IntNonNegative(x: u64) {
    x % 0x1_0000_0000 < 0x8000_0000
  }

  predicate OpenedForWriting(flags: u64) {
    HasFlag(flags, O_WRONLY) || HasFlag(flags, O_RDWR)
  }

  /** A change to one tracked file. */
  datatype Change =
    | Advance(nbytes: u64)                  // OpWriteChangeOffset
    | Extend(nbytes: u64, offset: u64)      // OpWriteNoOffsetChange, OpResize
    | Seek(pos: u64)                        // OpSeek
    | SetFlags(flags: u64)                 // OpSetFlag

  function Changed(file: FileRec, change: Change): FileRec {
    match change
    case Advance(n) => file.Enroll(n)
    case Extend(n, offset) => file.EnrollNoShift(n, offset)
    case Seek(pos) => file.(currPos := pos)
    case SetFlags(flags) => file.(flags := flags)
  }

  /** The effect of one finished system call on the table of its process. */
  datatype Op =
    | Nop
    | Touch(fd: nat, change: Change)
    | OpenWrite(fd: nat, flags: u64)
    | Close(fd: nat)
    | Dup(oldfd: nat, newfd: nat, dupFlags: Option<u64>)  // with flags, close-on-exec is set or cleared too

  function Decode(r: Regs): Op {
    if r.nr == SYS_write || r.nr == SYS_writev then
      if LongPositive(r.ret) then Touch(r.arg0, Advance(r.ret)) else Nop
    else if r.nr == SYS_pwritev || r.nr == SYS_pwrite64 || r.nr == SYS_pwritev2 then
      if LongPositive(r.ret) then Touch(r.arg0, Extend(r.ret, r.arg3)) else Nop
    else if r.nr == SYS_close then
      Close(r.arg0)
    else if !IntNonNegative(r.ret) then
      Nop
    else if r.nr == SYS_creat then
      OpenWrite(r.ret, r.arg1)
    else if r.nr == SYS_open then
      if OpenedForWriting(r.arg1) then OpenWrite(r.ret, r.arg1) else Nop
    else if r.nr == SYS_openat then
      if OpenedForWriting(r.arg2) then OpenWrite(r.ret, r.arg2) else Nop
    else if r.nr == SYS_fcntl then
      if r.arg1 == F_DUPFD then Dup(r.arg0, r.ret, None)
      else if r.arg1 == F_DUPFD_CLOEXEC then Dup(r.arg0, r.ret, Some(O_CLOEXEC))
      else if r.arg1 == F_SETFL || r.arg1 == F_SETFD then Touch(r.arg0, SetFlags(r.arg2))
      else Nop
    else if r.nr == SYS_dup then
      Dup(r.arg0, r.ret, None)
    else if r.nr == SYS_dup2 then
      Dup(r.arg0, r.arg1, None)
    else if r.nr == SYS_dup3 then
      Dup(r.arg0, r.arg1, Some(r.arg2))
    else if r.nr == SYS_fallocate then
      Touch(r.arg0, Extend(Plus(r.arg2, r.arg3), 0))
    else if r.nr == SYS_ftruncate then
      Touch(r.arg0, Extend(r.arg1, 0))
    else if r.nr == SYS_lseek then
      Touch(r.arg0, Seek(r.ret))
    else
      Nop
  }
}
