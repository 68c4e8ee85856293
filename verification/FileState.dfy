/** What is tracked about one open file (src/types.h, src/types.cpp). */
module FileState {
  import opened Words

  /** The contents of a `TFileState` object. */
  datatype FileRec = FileRec(maxPos: u64, currPos: u64, flags: u64, initSize: u64, filename: string) {

    predicate IsAppendSet() {
      HasFlag(flags, O_APPEND)
    }

    predicate IsCloexecSet() {
      HasFlag(flags, O_CLOEXEC)
    }

    function OutputSize(): u64 {
      if maxPos > initSize then maxPos - initSize else 0
    }

    function Enroll(nbytes: u64): FileRec {
      var pos := Plus(currPos, nbytes);
      this.(currPos := pos, maxPos := Max(maxPos, pos))
    }

    function EnrollNoShift(nbytes: u64, offset: u64): FileRec {
      this.(maxPos := Max(maxPos, Plus(offset, nbytes)))
    }

    function SetCloexecFlag(on: bool): (r: FileRec)
      ensures r.IsCloexecSet() == on && r.IsAppendSet() == IsAppendSet()
    {
      this.(flags := WithCloexec(flags, on))
    }
  }

  /** The state of a file that has just been opened. */
  function Opened(fs: FileSystem, filename: string, flags: u64): FileRec {
    var length := GetFileLength(fs, filename);
    var file := FileRec(0, 0, flags, length, filename);
    if file.IsAppendSet() then file.(currPos := length) else file
  }

  /** The copy constructor: the initial size is not copied but looked up again. */
  function Copied(fs: FileSystem, s: FileRec): FileRec {
    s.(initSize := GetFileLength(fs, s.filename))
  }

  /** `TFileState` with the reference count that the shared pointers to it keep. */
  class TFileState {
    var MaxPos: u64
    var CurrPos: u64
    var Flags: u64
    var InitSize: u64
    const Filename: string
    var UseCount: nat

    /** The place of this object in the order of creation; it has no counterpart in the code. */
    ghost const Id: nat

    ghost function Rec(): FileRec
      reads this
    {
      FileRec(MaxPos, CurrPos, Flags, InitSize, Filename)
    }

    constructor Open(ghost id: nat, fs: FileSystem, filename: string, flags: u64)
      ensures Rec() == Opened(fs, filename, flags) && Id == id && UseCount == 0
    {
      MaxPos, CurrPos, Flags, Filename := 0, 0, flags, filename;
      InitSize := GetFileLength(fs, filename);
      Id, UseCount := id, 0;
      new;
      if IsAppendSet() {
        CurrPos := InitSize;
      }
    }

    constructor Copy(ghost id: nat, fs: FileSystem, s: TFileState)
      ensures Rec() == Copied(fs, s.Rec()) && Id == id && UseCount == 0
    {
      MaxPos, CurrPos, Flags, Filename := s.MaxPos, s.CurrPos, s.Flags, s.Filename;
      InitSize := GetFileLength(fs, s.Filename);
      Id, UseCount := id, 0;
    }

    predicate IsAppendSet()
      reads this
      ensures IsAppendSet() == Rec().IsAppendSet()
    {
      HasFlag(Flags, O_APPEND)
    }

    predicate IsCloexecSet()
      reads this
      ensures IsCloexecSet() == Rec().IsCloexecSet()
    {
      HasFlag(Flags, O_CLOEXEC)
    }

    function GetOutputSize(): (size: u64)
      reads this
      ensures size == Rec().OutputSize()
    {
      if MaxPos > InitSize then MaxPos - InitSize else 0
    }

    method SetFlags(flags: u64)
      modifies `Flags
      ensures Rec() == old(Rec()).(flags := flags)
    {
      Flags := flags;
    }

    method SetCurrPos(pos: u64)
      modifies `CurrPos
      ensures Rec() == old(Rec()).(currPos := pos)
    {
      CurrPos := pos;
    }

    method Enroll(nbytes: u64)
      modifies `CurrPos, `MaxPos
      ensures Rec() == old(Rec()).Enroll(nbytes)
    {
      CurrPos := Plus(CurrPos, nbytes);
      if CurrPos > MaxPos {
        MaxPos := CurrPos;
      }
    }

    method EnrollNoShift(nbytes: u64, offset: u64)
      modifies `MaxPos
      ensures Rec() == old(Rec()).EnrollNoShift(nbytes, offset)
    {
      if Plus(offset, nbytes) > MaxPos {
        MaxPos := Plus(offset, nbytes);
      }
    }

    method SetCloexecFlag(on: bool)
      modifies `Flags
      ensures Rec() == old(Rec()).SetCloexecFlag(on)
    {
      Flags := WithCloexec(Flags, on);
    }
  }
}
