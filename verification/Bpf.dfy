/** The seccomp filter (src/bpf_program.cpp) and the machine it runs on. */
module Bpf {
  import opened Words
  import opened Syscalls

  function Low(x: u64): u32 {
    x % 0x1_0000_0000
  }

  // ---------- classic BPF ----------

  datatype Instruction =
    | LoadWord(offset: nat)                   // BPF_LD | BPF_W | BPF_ABS
    | JumpEq(k: u32, jt: nat, jf: nat)        // BPF_JMP | BPF_JEQ | BPF_K
    | JumpSet(k: u32, jt: nat, jf: nat)       // BPF_JMP | BPF_JSET | BPF_K
    | Return(verdict: u32)                    // BPF_RET | BPF_K

  /** `struct seccomp_data`, less the architecture and the instruction pointer, which the filter does not read. */
  datatype Data = Data(nr: u32, arg0: u64, arg1: u64, arg2: u64, arg3: u64)

  /** The 32-bit word at an offset, on a little-endian machine; `nr` is at 0 and argument i at 16 + 8 * i. */
  function WordAt(d: Data, offset: nat): u32 {
    if offset == 0 then d.nr
    else if offset == 16 then Low(d.arg0)
    else if offset == 24 then Low(d.arg1)
    else if offset == 32 then Low(d.arg2)
    else if offset == 40 then Low(d.arg3)
    else 0
  }

  /** `x & k` is not zero. */
  predicate AnyBit(x: nat, k: nat) {
    x > 0 && k > 0 && ((x % 2 == 1 && k % 2 == 1) || AnyBit(x / 2, k / 2))
  }

  datatype Outcome = Verdict(value: u32) | Fault

  /** Runs a program from instruction `pc`. Jumps only go forward, so that every run ends. */
  function Run(program: seq<Instruction>, pc: nat, a: u32, d: Data): Outcome
    decreases |program| - pc
  {
    if pc >= |program| then Fault
    else
      match program[pc]
      case LoadWord(offset) => Run(program, pc + 1, WordAt(d, offset), d)
      case JumpEq(k, jt, jf) => Run(program, pc + 1 + (if a == k then jt else jf), a, d)
      case JumpSet(k, jt, jf) => Run(program, pc + 1 + (if AnyBit(a, k) then jt else jf), a, d)
      case Return(verdict) => Verdict(verdict)
  }

  /** No jump leaves the program, and it does not run off its end. */
  predicate Checked(program: seq<Instruction>) {
    forall i :: 0 <= i < |program| ==>
      match program[i]
      case LoadWord(_) => i + 1 < |program|
      case JumpEq(_, jt, jf) => i + 1 + jt < |program| && i + 1 + jf < |program|
      case JumpSet(_, jt, jf) => i + 1 + jt < |program| && i + 1 + jf < |program|
      case Return(_) => true
  }

  lemma {:induction false} CheckedProgramsReturn(program: seq<Instruction>, pc: nat, a: u32, d: Data)
    requires Checked(program) && pc < |program|
    ensures Run(program, pc, a, d).Verdict?
    ensures Return(Run(program, pc, a, d).value) in program
    decreases |program| - pc
  {
    match program[pc]
    case LoadWord(offset) => CheckedProgramsReturn(program, pc + 1, WordAt(d, offset), d);
    case JumpEq(k, jt, jf) => CheckedProgramsReturn(program, pc + 1 + (if a == k then jt else jf), a, d);
    case JumpSet(k, jt, jf) => CheckedProgramsReturn(program, pc + 1 + (if AnyBit(a, k) then jt else jf), a, d);
    case Return(_) =>
  }

  // ---------- the filter ----------

  const ALLOW: u32 := 0x7fff_0000
  const TRACE: u32 := 0x7ff0_0000

  const HEAD: seq<Instruction> := [
    LoadWord(0),
    // The block of open; the flags are its second argument.
    JumpEq(SYS_open, 0, 4),
    LoadWord(24),
    JumpSet(O_WRONLY, 1, 0),
    JumpSet(O_RDWR, 0, 1),
    Return(TRACE),
    // The block of openat; the flags are its third argument.
    JumpEq(SYS_openat, 0, 4),
    LoadWord(32),
    JumpSet(O_WRONLY, 1, 0),
    JumpSet(O_RDWR, 0, 1),
    Return(TRACE),
    // The block of fcntl; the command is its second argument.
    JumpEq(SYS_fcntl, 0, 6),
    LoadWord(24),
    JumpSet(F_DUPFD, 3, 0),
    JumpSet(F_DUPFD_CLOEXEC, 2, 0),
    JumpSet(F_SETFL, 1, 0),
    JumpSet(F_SETFD, 0, 1),
    Return(TRACE)
  ]

  const TRACING_SYSCALLS: seq<u32> := [
    SYS_creat, SYS_dup2, SYS_write, SYS_writev, SYS_pwritev, SYS_pwrite64, SYS_pwritev2, SYS_close, SYS_dup,
    SYS_dup3, SYS_fallocate, SYS_ftruncate, SYS_lseek
  ]

  function Tail(syscalls: seq<u32>): seq<Instruction> {
    if syscalls == [] then []
    else Tail(syscalls[..|syscalls| - 1]) + [JumpEq(syscalls[|syscalls| - 1], 0, 1), Return(TRACE)]
  }

  function Filter(syscalls: seq<u32>): seq<Instruction> {
    HEAD + Tail(syscalls) + [Return(ALLOW)]
  }

  /** Builds the program. Its length is passed on in 16 bits. */
  method BuildFilter(syscalls: seq<u32>) returns (filter: seq<Instruction>, len: nat)
    ensures filter == Filter(syscalls)
    ensures |filter| == 19 + 2 * |syscalls|
    ensures len == |filter| % 0x1_0000 && (len == |filter| <==> |syscalls| <= 32758)
  {
    filter := HEAD;
    var i := 0;
    while i < |syscalls|
      invariant 0 <= i <= |syscalls|
      invariant filter == HEAD + Tail(syscalls[..i])
      invariant |filter| == 18 + 2 * i
    {
      assert syscalls[..i + 1][..i] == syscalls[..i];
      filter := filter + [JumpEq(syscalls[i], 0, 1)];
      filter := filter + [Return(TRACE)];
      i := i + 1;
    }
    assert syscalls[..i] == syscalls;
    filter := filter + [Return(ALLOW)];
    len := |filter| % 0x1_0000;
  }

  lemma {:induction false} TailAt(syscalls: seq<u32>, i: nat)
    requires i < |syscalls|
    ensures |Tail(syscalls)| == 2 * |syscalls|
    ensures Tail(syscalls)[2 * i] == JumpEq(syscalls[i], 0, 1)
    ensures Tail(syscalls)[2 * i + 1] == Return(TRACE)
  {
    var front := syscalls[..|syscalls| - 1];
    if front != [] { TailAt(front, if i < |front| then i else 0); }
  }

  lemma FilterAt(syscalls: seq<u32>, i: nat)
    requires i < |syscalls|
    ensures |Filter(syscalls)| == 19 + 2 * |syscalls|
    ensures Filter(syscalls)[18 + 2 * i] == JumpEq(syscalls[i], 0, 1)
    ensures Filter(syscalls)[18 + 2 * i + 1] == Return(TRACE)
  {
    TailAt(syscalls, i);
  }

  lemma FilterEnds(syscalls: seq<u32>)
    ensures |Filter(syscalls)| == 19 + 2 * |syscalls|
    ensures Filter(syscalls)[18 + 2 * |syscalls|] == Return(ALLOW)
    ensures Filter(syscalls)[..18] == HEAD
  {
    if syscalls != [] { TailAt(syscalls, 0); }
  }

  lemma FilterIsChecked(syscalls: seq<u32>)
    ensures Checked(Filter(syscalls))
  {
    var filter := Filter(syscalls);
    FilterEnds(syscalls);
    forall i | 18 <= i < 18 + 2 * |syscalls|
      ensures match filter[i]
              case JumpEq(_, jt, jf) => i + 1 + jt < |filter| && i + 1 + jf < |filter|
              case Return(_) => true
              case _ => false
    {
      FilterAt(syscalls, (i - 18) / 2);
    }
    forall i | 0 <= i < 18 ensures filter[i] == HEAD[i] { assert filter[i] == filter[..18][i]; }
  }

  // ---------- what it answers ----------

  predicate WriteBits(x: u32) {
    AnyBit(x, O_WRONLY) || AnyBit(x, O_RDWR)
  }

  predicate CommandBits(x: u32) {
    AnyBit(x, F_DUPFD) || AnyBit(x, F_DUPFD_CLOEXEC) || AnyBit(x, F_SETFL) || AnyBit(x, F_SETFD)
  }

  /** The calls that the filter means to trace. */
  predicate Meant(syscalls: seq<u32>, d: Data) {
    if d.nr == SYS_open then WriteBits(Low(d.arg1))
    else if d.nr == SYS_openat then WriteBits(Low(d.arg2))
    else if d.nr == SYS_fcntl then CommandBits(Low(d.arg1))
    else d.nr in syscalls
  }

  /**
   * The calls that it also traces. When a test of the flags fails, the accumulator holds the flags instead of
   * the number of the call, and they are compared with all the numbers that follow.
   */
  predicate Stray(syscalls: seq<u32>, d: Data) {
    if d.nr == SYS_open then !WriteBits(Low(d.arg1)) && Low(d.arg1) in syscalls
    else if d.nr == SYS_openat then
      !WriteBits(Low(d.arg2)) &&
      if Low(d.arg2) == SYS_fcntl then CommandBits(Low(d.arg1)) || Low(d.arg1) in syscalls
      else Low(d.arg2) in syscalls
    else d.nr == SYS_fcntl && !CommandBits(Low(d.arg1)) && Low(d.arg1) in syscalls
  }

  function Answer(trace: bool): Outcome {
    Verdict(if trace then TRACE else ALLOW)
  }

  lemma {:induction false} RunTail(syscalls: seq<u32>, i: nat, a: u32, d: Data)
    requires i <= |syscalls|
    ensures Run(Filter(syscalls), 18 + 2 * i, a, d) == Answer(a in syscalls[i..])
    decreases |syscalls| - i
  {
    FilterEnds(syscalls);
    if i < |syscalls| {
      FilterAt(syscalls, i);
      RunTail(syscalls, i + 1, a, d);
      assert syscalls[i..] == [syscalls[i]] + syscalls[i + 1..];
    }
  }

  lemma HeadAt(syscalls: seq<u32>, pc: nat)
    requires pc < 18
    ensures pc < |Filter(syscalls)| && Filter(syscalls)[pc] == HEAD[pc]
  {
    FilterEnds(syscalls);
    assert Filter(syscalls)[..18][pc] == HEAD[pc];
  }

  lemma RunFcntl(syscalls: seq<u32>, a: u32, d: Data)
    ensures Run(Filter(syscalls), 11, a, d) ==
            Answer(if a == SYS_fcntl then CommandBits(Low(d.arg1)) || Low(d.arg1) in syscalls else a in syscalls)
  {
    var f, x := Filter(syscalls), Low(d.arg1);
    assert syscalls[0..] == syscalls;
    RunTail(syscalls, 0, a, d);
    RunTail(syscalls, 0, x, d);
    HeadAt(syscalls, 17);
    assert Run(f, 17, x, d) == Verdict(TRACE);
    HeadAt(syscalls, 16);
    assert Run(f, 16, x, d) == Answer(AnyBit(x, F_SETFD) || x in syscalls);
    HeadAt(syscalls, 15);
    assert Run(f, 15, x, d) == Answer(AnyBit(x, F_SETFL) || AnyBit(x, F_SETFD) || x in syscalls);
    HeadAt(syscalls, 14);
    assert Run(f, 14, x, d) == Answer(AnyBit(x, F_DUPFD_CLOEXEC) || AnyBit(x, F_SETFL) || AnyBit(x, F_SETFD) || x in syscalls);
    HeadAt(syscalls, 13);
    assert Run(f, 13, x, d) == Answer(CommandBits(x) || x in syscalls);
    HeadAt(syscalls, 12);
    HeadAt(syscalls, 11);
  }

  /** The blocks for open and openat have the same shape. */
  lemma RunOpenBlock(syscalls: seq<u32>, pc: nat, nr: u32, offset: nat, a: u32, d: Data)
    requires (pc == 1 && nr == SYS_open && offset == 24) || (pc == 6 && nr == SYS_openat && offset == 32)
    ensures var f, x := Filter(syscalls), WordAt(d, offset);
            Run(f, pc, a, d) ==
            if a != nr then Run(f, pc + 5, a, d)
            else if WriteBits(x) then Verdict(TRACE)
            else Run(f, pc + 5, x, d)
  {
    var f, x := Filter(syscalls), WordAt(d, offset);
    HeadAt(syscalls, pc + 4);
    assert Run(f, pc + 4, x, d) == Verdict(TRACE);
    HeadAt(syscalls, pc + 3);
    assert Run(f, pc + 3, x, d) == if AnyBit(x, O_RDWR) then Verdict(TRACE) else Run(f, pc + 5, x, d);
    HeadAt(syscalls, pc + 2);
    assert Run(f, pc + 2, x, d) == if WriteBits(x) then Verdict(TRACE) else Run(f, pc + 5, x, d);
    HeadAt(syscalls, pc + 1);
    HeadAt(syscalls, pc);
  }

  lemma LowBits(x: nat)
    ensures AnyBit(x, 1) <==> x % 2 == 1
    ensures AnyBit(x, 2) <==> x / 2 % 2 == 1
  {}

  /** The filter answers TRACE exactly for the calls it means to trace and the stray ones, and ALLOW for all others. */
  lemma FilterAnswers(syscalls: seq<u32>, d: Data)
    ensures Run(Filter(syscalls), 0, 0, d) == Answer(Meant(syscalls, d) || Stray(syscalls, d))
  {
    var f := Filter(syscalls);
    HeadAt(syscalls, 0);
    RunOpenBlock(syscalls, 1, SYS_open, 24, d.nr, d);
    RunOpenBlock(syscalls, 6, SYS_openat, 32, d.nr, d);
    RunOpenBlock(syscalls, 6, SYS_openat, 32, Low(d.arg1), d);
    RunFcntl(syscalls, d.nr, d);
    RunFcntl(syscalls, Low(d.arg1), d);
    RunFcntl(syscalls, Low(d.arg2), d);
    LowBits(Low(d.arg1));
    NotACommand();
  }

  /** What Linux does with a system call on a verdict of the filter: the action is in the upper half of the value. */
  datatype Action = Allowed | Stopped | Refused

  function OnVerdict(v: u32): Action {
    if v / 0x1_0000 == 0x7fff then Allowed          // SECCOMP_RET_ALLOW
    else if v / 0x1_0000 == 0x7ff0 then Stopped     // SECCOMP_RET_TRACE
    else Refused
  }

  /** No call is refused. The thread is stopped exactly for the calls that are meant and the stray ones. */
  lemma FilterActs(syscalls: seq<u32>, d: Data)
    ensures Run(Filter(syscalls), 0, 0, d).Verdict?
    ensures OnVerdict(Run(Filter(syscalls), 0, 0, d).value) == if Meant(syscalls, d) || Stray(syscalls, d) then Stopped else Allowed
  {
    FilterAnswers(syscalls, d);
  }

  /** The calls that are meant, by their numbers on x86-64, and by the bits of their arguments. */
  lemma MeantByNumber(d: Data)
    ensures Meant(TRACING_SYSCALLS, d) <==>
              || (d.nr == 2 && Low(d.arg1) % 4 != 0)
              || (d.nr == 257 && Low(d.arg2) % 4 != 0)
              || (d.nr == 72 && (AnyBit(Low(d.arg1), 1030) || AnyBit(Low(d.arg1), 4) || AnyBit(Low(d.arg1), 2)))
              || d.nr in {1, 3, 8, 18, 20, 32, 33, 77, 85, 285, 292, 296, 328}
  {
    LowBits(Low(d.arg1));
    LowBits(Low(d.arg2));
  }

  /** Flags that look like the number of fcntl pass for no command of fcntl. */
  lemma NotACommand()
    ensures !CommandBits(SYS_fcntl)
  {
    assert !AnyBit(9, 128) && !AnyBit(72, 1030);
  }

  // ---------- filtering loses nothing but F_DUPFD ----------

  /** What the kernel shows the filter of a call: the number is cut to 32 bits. */
  function DataOf(r: Regs): Data {
    Data(Low(r.nr), r.arg0, r.arg1, r.arg2, r.arg3)
  }

  predicate IsTraced(r: Regs) {
    Run(Filter(TRACING_SYSCALLS), 0, 0, DataOf(r)) == Verdict(TRACE)
  }

  lemma WriteBitsSurvive(x: u64)
    ensures WriteBits(Low(x)) <==> OpenedForWriting(x)
  {
    LowBits(Low(x));
    CutOff(x / 0x1_0000_0000, Low(x));
  }

  lemma CutOff(high: nat, low: nat)
    ensures (high * 0x1_0000_0000 + low) % 2 == low % 2
    ensures (high * 0x1_0000_0000 + low) / 2 % 2 == low / 2 % 2
  {
    Doubled(high * 0x8000_0000, low);
    Doubled(high * 0x4000_0000, low / 2);
  }

  lemma Commands()
    ensures CommandBits(F_DUPFD_CLOEXEC) && CommandBits(F_SETFL) && CommandBits(F_SETFD) && !CommandBits(F_DUPFD)
  {
    assert AnyBit(1, 1);
    assert AnyBit(515, 515);
  }

  lemma TracedExactly(r: Regs)
    ensures IsTraced(r) <==> Meant(TRACING_SYSCALLS, DataOf(r)) || Stray(TRACING_SYSCALLS, DataOf(r))
  {
    FilterAnswers(TRACING_SYSCALLS, DataOf(r));
  }

  predicate Missed(r: Regs) {
    !IsTraced(r) && Decode(r) != Nop
  }

  lemma NoOpenIsMissed(r: Regs)
    requires r.nr == SYS_open || r.nr == SYS_openat
    ensures !Missed(r)
  {
    var flags := if r.nr == SYS_open then r.arg1 else r.arg2;
    assert Decode(r) != Nop ==> OpenedForWriting(flags);
    WriteBitsSurvive(flags);
    assert OpenedForWriting(flags) ==> Meant(TRACING_SYSCALLS, DataOf(r));
    TracedExactly(r);
  }

  lemma NoListedIsMissed(r: Regs)
    requires r.nr != SYS_open && r.nr != SYS_openat && r.nr != SYS_fcntl
    ensures !Missed(r)
  {
    assert Decode(r) != Nop ==> r.nr in TRACING_SYSCALLS && Low(r.nr) == r.nr;
    TracedExactly(r);
  }

  lemma DupfdIsMissed(r: Regs)
    requires r.nr == SYS_fcntl
    ensures Missed(r) <==> r.arg1 == F_DUPFD && IntNonNegative(r.ret)
  {
    Commands();
    TracedExactly(r);
    if r.arg1 in {F_DUPFD, F_DUPFD_CLOEXEC, F_SETFL, F_SETFD} {
      assert Low(r.arg1) == r.arg1;
    } else {
      assert Decode(r) == Nop;
    }
  }

  /** The filter lets a call pass that would have had an effect exactly if it is a successful fcntl F_DUPFD. */
  lemma OnlyDupfdIsMissed(r: Regs)
    ensures !IsTraced(r) && Decode(r) != Nop <==>
            r.nr == SYS_fcntl && r.arg1 == F_DUPFD && IntNonNegative(r.ret)
  {
    if r.nr == SYS_open || r.nr == SYS_openat {
      NoOpenIsMissed(r);
    } else if r.nr == SYS_fcntl {
      DupfdIsMissed(r);
    } else {
      NoListedIsMissed(r);
    }
  }

  /** No system call that creates a thread or a process, or that executes a program, is traced. */
  lemma ForksAndExecsAreNotTraced(r: Regs)
    requires r.nr in {56, 57, 58, 59, 322, 435}   // clone, fork, vfork, execve, execveat, clone3
    ensures !IsTraced(r)
  {
    FilterAnswers(TRACING_SYSCALLS, DataOf(r));
  }
}
