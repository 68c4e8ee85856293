/** Machine words, and the parts of the C library's headers that optrace relies on (x86-64 Linux). */
module Words {

  datatype Option<+T> = None | Some(value: T)

  const TWO_TO_64: int := 0x1_0000_0000_0000_0000

  /** `size_t`: every size and file position is one of these, and sums wrap around. */
  type u64 = x: int | 0 <= x < TWO_TO_64

  type u32 = x: int | 0 <= x < 0x1_0000_0000

  function Plus(x: u64, y: u64): u64 {
    if x + y < TWO_TO_64 then x + y else x + y - TWO_TO_64
  }

  /** A number as it looks in a machine word: the remainder modulo 2^64. */
  function Wrap(x: nat): u64 {
    if x < TWO_TO_64 then x else Wrap(x - TWO_TO_64)
  }

  lemma {:induction false} PlusIsWrap(x: nat, y: u64)
    ensures Plus(Wrap(x), y) == Wrap(x + y)
  {
    if x >= TWO_TO_64 { PlusIsWrap(x - TWO_TO_64, y); }
  }

  function Max(x: int, y: int): int {
    if x < y then y else x
  }

  /** Whether a flag, a power of two, is set in a word: `word & flag`. */
  predicate HasFlag(word: nat, flag: nat)
    requires flag > 0
  {
    word / flag % 2 == 1
  }

  /** `word | O_CLOEXEC` or `word & ~O_CLOEXEC` */
  function WithCloexec(word: u64, on: bool): (r: u64)
    ensures HasFlag(r, O_CLOEXEC) == on
    ensures HasFlag(r, O_APPEND) == HasFlag(word, O_APPEND)
  {
    if HasFlag(word, O_CLOEXEC) == on then word
    else if on then CloexecFlag(word); word + O_CLOEXEC
    else CloexecFlag(word - O_CLOEXEC); word - O_CLOEXEC
  }

  lemma CloexecFlag(word: nat)
    ensures HasFlag(word + O_CLOEXEC, O_CLOEXEC) != HasFlag(word, O_CLOEXEC)
    ensures HasFlag(word + O_CLOEXEC, O_APPEND) == HasFlag(word, O_APPEND)
  {
    assert (word + 0x8_0000) / 0x8_0000 == word / 0x8_0000 + 1;
    assert (word + 0x8_0000) / 0x400 == word / 0x400 + 0x200;
  }

  const O_WRONLY := 1
  const O_RDWR := 2
  const O_APPEND := 0x400
  const O_CLOEXEC := 0x8_0000

  /** What `stat` would say at some moment: the length of each file that exists. */
  type FileSystem = map<string, u64>

  /** A file that cannot be looked up counts as empty. */
  function GetFileLength(fs: FileSystem, name: string): u64 {
    if name in fs then fs[name] else 0
  }

  /** Halving an even number and something. */
  lemma Doubled(m: nat, x: nat)
    ensures (2 * m + x) % 2 == x % 2 && (2 * m + x) / 2 == m + x / 2
  {}
}
