/**
 * The tracked processes as the program keeps them (src/context.cpp): objects with shared references. Each
 * method does to the objects what the functions of module World do to the numbers that stand for them.
 */
module Context {
  import opened Words
  import opened FileState
  import opened Storage
  import opened Syscalls
  import opened World
  import Model = World
  import opened Invariants
  import opened Ownership
  import opened Ledger

  class TProcState {
    var Fds: seq<TFileState?>
    const ProcInfo: ProcInfo
    /** The place of this object in the order of creation. */
    ghost const Id: nat

    constructor (ghost id: nat, info: ProcInfo)
      ensures Fds == [] && ProcInfo == info && Id == id
    {
      Fds, ProcInfo, Id := [], info, id;
    }
  }

  class TContext {
    var GroupLeaders: set<Pid>
    var ProcMap: map<Pid, TProcState>
    const FileStorage: TFileStorage

    /** The state as a value, and every object ever created, in order. */
    ghost var W: World
    ghost var Files: seq<TFileState>
    ghost var Tables: seq<TProcState>
    ghost var Repr: set<object>

    ghost predicate Valid()
      reads this, Repr
    {
      && this in Repr && FileStorage in Repr
      && Owned(W)
      && FilesMatch() && TablesMatch()
      && GroupLeaders == W.leaders
      && ProcMap.Keys == W.procMap.Keys
      && (forall p :: p in ProcMap ==> ProcMap[p] == Tables[W.procMap[p]])
      && FileStorage.Valid() && FileStorage.Handed == Outs(W.log)
    }

    /** The objects hold what they should, and the reference counts are right. */
    ghost predicate FilesMatch()
      requires Closed(W)
      reads this, Repr
    {
      && |Files| == |W.files|
      && forall f :: 0 <= f < |Files| ==>
           && Files[f] in Repr
           && Files[f].Id == f
           && Files[f].Rec() == W.files[f]
           && Files[f].UseCount == Uses(W.tables[W.homes[f]].fds, f)
    }

    /** Each slot refers to the object it should, or is null. */
    ghost predicate TablesMatch()
      requires Closed(W) && |Files| == |W.files|
      reads this, Repr
    {
      && |Tables| == |W.tables|
      && forall t :: 0 <= t < |Tables| ==>
           && Tables[t] in Repr
           && Tables[t].Id == t
           && Tables[t].ProcInfo == W.tables[t].info
           && SlotsMatch(Tables[t].Fds, W.tables[t].fds, Files)
    }

    constructor (capacity: int, storeEmptyFiles: bool)
      ensures Valid() && fresh(Repr)
      ensures W == World([], [], [], map[], {}, [], {})
      ensures FileStorage.Capacity == capacity && FileStorage.StoreEmptyFiles == storeEmptyFiles
    {
      FileStorage := new TFileStorage(capacity, storeEmptyFiles);
      GroupLeaders, ProcMap := {}, map[];
      W, Files, Tables := World([], [], [], map[], {}, [], {}), [], [];
      new;
      Repr := {this, FileStorage};
    }

    // ---------- shared pointers ----------

    /** Assigning null to a slot: the object that it referred to has one reference less. */
    method Reset(proc: TProcState, fd: nat)
      requires Valid() && proc in Tables && fd < |proc.Fds| && proc.Fds[fd] != null
      modifies Repr
      ensures unchanged(`Files, `Tables, `Repr, `ProcMap, `GroupLeaders)
      ensures Valid() && W == WithSlot(old(W), proc.Id, fd, None)
    {
      assert Tables[proc.Id] == proc && Files[W.tables[proc.Id].fds[fd].value] == proc.Fds[fd];
      Unpoint(proc, fd, proc.Fds[fd]);
    }

    method Unpoint(proc: TProcState, fd: nat, file: TFileState)
      requires Valid() && proc in Tables && fd < |proc.Fds| && proc.Fds[fd] == file && file in Files
      modifies proc, this, file
      ensures unchanged(`Files, `Tables, `Repr, `ProcMap, `GroupLeaders)
      ensures Valid() && W == WithSlot(old(W), proc.Id, fd, None)
    {
      ghost var t, fds := proc.Id, W.tables[proc.Id].fds;
      assert Tables[t] == proc && Files[file.Id] == file && fds[fd] == Some(file.Id);
      ResetKeepsOwned(W, t, fd);
      UsesAfterUpdate(fds, fd, None);
      assert Uses(fds, file.Id) > 0 by {
        UsesIffMember(fds, file.Id);
        assert fds[fd] in fds;
      }
      file.UseCount := file.UseCount - 1;
      proc.Fds := proc.Fds[fd := null];
      W := WithSlot(W, t, fd, None);
    }

    /** Assigning the contents of one slot to another, which is null: the object has one reference more. */
    method Share(proc: TProcState, oldfd: nat, newfd: nat)
      requires Valid() && proc in Tables && oldfd < |proc.Fds| && newfd < |proc.Fds|
      requires proc.Fds[oldfd] != null && proc.Fds[newfd] == null
      modifies Repr
      ensures unchanged(`Files, `Tables, `Repr, `ProcMap, `GroupLeaders)
      ensures Valid() && W == WithSlot(old(W), proc.Id, newfd, old(W).tables[proc.Id].fds[oldfd])
    {
      assert Tables[proc.Id] == proc && Files[W.tables[proc.Id].fds[oldfd].value] == proc.Fds[oldfd];
      Point(proc, newfd, proc.Fds[oldfd]);
    }

    /** Making a slot that is null refer to an object of its table, which has one reference more then. */
    method Point(proc: TProcState, fd: nat, file: TFileState)
      requires Valid() && proc in Tables && fd < |proc.Fds| && proc.Fds[fd] == null
      requires file in Files && file.Id < |W.homes| && W.homes[file.Id] == proc.Id
      modifies proc, this, file
      ensures unchanged(`Files, `Tables, `Repr, `ProcMap, `GroupLeaders)
      ensures Valid() && W == WithSlot(old(W), proc.Id, fd, Some(file.Id)) && |proc.Fds| == old(|proc.Fds|)
    {
      ghost var t, fds := proc.Id, W.tables[proc.Id].fds;
      assert Tables[t] == proc && Files[file.Id] == file;
      PointKeepsOwned(W, t, fd, file.Id);
      UsesAfterUpdate(fds, fd, Some(file.Id));
      file.UseCount := file.UseCount + 1;
      proc.Fds := proc.Fds[fd := file];
      W := WithSlot(W, t, fd, Some(file.Id));
    }

    /** A new object, which nothing refers to yet. */
    method Adopt(proc: TProcState, file: TFileState)
      requires Valid() && proc in Tables
      requires file !in Repr && file.Id == |Files| && file.UseCount == 0
      modifies this
      ensures unchanged(`Tables, `ProcMap, `GroupLeaders)
      ensures Files == old(Files) + [file] && Repr == old(Repr) + {file}
      ensures Valid() && W == old(W).(files := old(W).files + [file.Rec()], homes := old(W).homes + [proc.Id])
    {
      assert Tables[proc.Id] == proc;
      AdoptedIsUnused(W.tables[proc.Id].fds, |W.files|);
      W := W.(files := W.files + [file.Rec()], homes := W.homes + [proc.Id]);
      Files, Repr := Files + [file], Repr + {file};
    }

    /** `fds.resize(size)`, unless the table is long enough. */
    method Resize(proc: TProcState, size: nat)
      requires Valid() && proc in Tables
      modifies Repr
      ensures unchanged(`Files, `Tables, `Repr, `ProcMap, `GroupLeaders)
      ensures Valid() && W == WithSize(old(W), proc.Id, size) && |proc.Fds| == Max(old(|proc.Fds|), size)
    {
      ghost var t := proc.Id;
      assert Tables[t] == proc;
      if size > |proc.Fds| {
        ResizeKeepsOwned(W, t, size);
        UsesAfterResize(W.tables[t].fds, size);
        proc.Fds := proc.Fds + seq(size - |proc.Fds|, _ => null);
      }
      W := WithSize(W, t, size);
    }

    /** A slot is made to refer to a new object, whatever it referred to before. */
    method Install(proc: TProcState, fd: nat, file: TFileState)
      requires Valid() && proc in Tables && fd < |proc.Fds|
      requires file !in Repr && file.Id == |Files| && file.UseCount == 0
      modifies Repr, file
      ensures unchanged(`Tables, `ProcMap, `GroupLeaders)
      ensures Files == old(Files) + [file] && Repr == old(Repr) + {file}
      ensures Valid() && W == OpenWriteFile(old(W), proc.Id, fd, old(file.Rec()))
      ensures |proc.Fds| == old(|proc.Fds|)
    {
      ghost var w := W;
      assert Tables[proc.Id] == proc;
      if proc.Fds[fd] != null {
        ResetThenOpen(w, proc.Id, fd, file.Rec());
        Reset(proc, fd);
      }
      InstallFirst(proc, fd, file);
      NoteLost(w.lost + Overwritten(w, proc.Id, fd));
    }

    ghost method NoteLost(lost: set<nat>)
      requires Valid()
      modifies `W
      ensures Valid() && W == old(W).(lost := lost)
    {
      W := W.(lost := lost);
    }

    method InstallFirst(proc: TProcState, fd: nat, file: TFileState)
      requires Valid() && proc in Tables && fd < |proc.Fds| && proc.Fds[fd] == null
      requires file !in Repr && file.Id == |Files| && file.UseCount == 0
      modifies proc, this, file
      ensures unchanged(`Tables, `ProcMap, `GroupLeaders)
      ensures Files == old(Files) + [file] && Repr == old(Repr) + {file}
      ensures Valid() && W == OpenWriteFile(old(W), proc.Id, fd, old(file.Rec()))
      ensures |proc.Fds| == old(|proc.Fds|)
    {
      ghost var w, rec := W, file.Rec();
      assert Tables[proc.Id] == proc;
      Adopt(proc, file);
      Point(proc, fd, file);
      AdoptThenPoint(w, proc.Id, fd, rec);
    }

    // ---------- descriptors ----------

    method TearDownFd(proc: TProcState, fd: nat)
      requires Valid() && proc in Tables && fd < |proc.Fds| && proc.Fds[fd] != null
      modifies Repr
      ensures unchanged(`Files, `Tables, `Repr, `ProcMap, `GroupLeaders)
      ensures Valid() && W == TearDown(old(W), proc.Id, fd)
    {
      var file := proc.Fds[fd];
      ghost var t := proc.Id;
      assert Tables[t] == proc && Files[W.tables[t].fds[fd].value] == file;
      LastOfTable(W.tables[t].fds, fd);
      if file.UseCount == 1 {
        HandOver(file, proc.ProcInfo);
      }
      Reset(proc, fd);
    }

    method HandOver(file: TFileState, pinfo: ProcInfo)
      requires Valid() && file in Files
      modifies this, FileStorage
      ensures unchanged(`Files, `Tables, `Repr, `ProcMap, `GroupLeaders)
      ensures Valid()
      ensures W == old(W).(log := old(W).log + [Entry(file.Id, OutputFile(file.Rec().OutputSize(), file.Rec().filename, pinfo))])
    {
      var output := OutputFile(file.GetOutputSize(), file.Filename, pinfo);
      FileStorage.AddFileEntry(output);
      OutsSnoc(W.log, Entry(file.Id, output));
      W := W.(log := W.log + [Entry(file.Id, output)]);
    }

    method OpClose(pid: Pid, fd: nat)
      requires Valid() && pid in ProcMap
      modifies Repr
      ensures unchanged(`Files, `Tables, `Repr, `ProcMap, `GroupLeaders)
      ensures Valid() && W == CloseFd(old(W), old(W).procMap[pid], fd)
    {
      var proc := ProcMap[pid];
      assert proc == Tables[W.procMap[pid]];
      if fd < |proc.Fds| && proc.Fds[fd] != null {
        TearDownFd(proc, fd);
      }
    }

    method OpOpenWriteFile(pid: Pid, fd: nat, flags: u64, link: string, fs: FileSystem)
      requires Valid() && pid in ProcMap
      modifies Repr
      ensures unchanged(`Tables, `ProcMap, `GroupLeaders)
      ensures Repr >= old(Repr) && fresh(Repr - old(Repr))
      ensures Valid() && W == OpenWriteFile(old(W), old(W).procMap[pid], fd, Opened(fs, link, flags))
    {
      Known(pid);
      var proc := ProcMap[pid];
      OpenInSteps(W, proc.Id, fd, Opened(fs, link, flags));
      Resize(proc, fd + 1);
      MakeShared(proc, fd, flags, link, fs);
    }

    /** `fds[fd] = std::make_shared<TFileState>(link, flags)` */
    method MakeShared(proc: TProcState, fd: nat, flags: u64, link: string, fs: FileSystem)
      requires Valid() && proc in Tables && fd < |proc.Fds| && proc.Id < |W.tables|
      modifies Repr
      ensures unchanged(`Tables, `ProcMap, `GroupLeaders)
      ensures Repr >= old(Repr) && fresh(Repr - old(Repr)) && |proc.Fds| == old(|proc.Fds|)
      ensures Valid() && W == OpenWriteFile(old(W), proc.Id, fd, Opened(fs, link, flags))
    {
      var file := new TFileState.Open(|Files|, fs, link, flags);
      Install(proc, fd, file);
    }

    method OpOpenFile(pid: Pid, fd: nat, flags: u64, link: string, fs: FileSystem)
      requires Valid() && pid in ProcMap
      modifies Repr
      ensures unchanged(`Tables, `ProcMap, `GroupLeaders)
      ensures Repr >= old(Repr) && fresh(Repr - old(Repr))
      ensures Valid()
      ensures W == Apply(old(W), old(W).procMap[pid], if OpenedForWriting(flags) then OpenWrite(fd, flags) else Nop, link, fs)
    {
      if HasFlag(flags, O_WRONLY) || HasFlag(flags, O_RDWR) {
        OpOpenWriteFile(pid, fd, flags, link, fs);
      }
    }

    /** `fds[newfd] = fds[oldfd]`, in a table that is made long enough first. */
    method Link(proc: TProcState, oldfd: nat, newfd: nat)
      requires Valid() && proc in Tables && oldfd < |proc.Fds| && proc.Fds[oldfd] != null
      requires newfd < |proc.Fds| ==> proc.Fds[newfd] == null
      modifies Repr
      ensures unchanged(`Files, `Tables, `Repr, `ProcMap, `GroupLeaders)
      ensures Valid()
      ensures W == WithSlot(WithSize(old(W), proc.Id, newfd + 1), proc.Id, newfd, old(W).tables[proc.Id].fds[oldfd])
    {
      ghost var fds := W.tables[proc.Id].fds;
      assert Tables[proc.Id] == proc;
      Resize(proc, newfd + 1);
      SlotsAreThere(fds, Resized(fds, newfd + 1), newfd, oldfd, proc.Fds, Files);
      Share(proc, oldfd, newfd);
    }

    method OpDup2(pid: Pid, oldfd: nat, newfd: nat) returns (done: bool)
      requires Valid() && pid in ProcMap
      modifies Repr
      ensures unchanged(`Files, `Tables, `Repr, `ProcMap, `GroupLeaders)
      ensures Valid() && W == DupAndFlag(old(W), old(W).procMap[pid], oldfd, newfd, None)
      ensures done == DupSucceeds(old(W), old(W).procMap[pid], oldfd, newfd)
    {
      if oldfd == newfd {
        return false;
      }
      var proc := ProcMap[pid];
      ghost var t := W.procMap[pid];
      assert proc == Tables[t];
      DupInSteps(W, t, oldfd, newfd);
      // The target is closed first.
      if newfd < |proc.Fds| && proc.Fds[newfd] != null {
        OpClose(pid, newfd);
      }
      // There is nothing to share if the source is not tracked.
      if oldfd >= |proc.Fds| || proc.Fds[oldfd] == null {
        return false;
      }
      Link(proc, oldfd, newfd);
      return true;
    }

    method OpDup(pid: Pid, oldfd: nat, newfd: nat) returns (done: bool)
      requires Valid() && pid in ProcMap
      modifies Repr
      ensures unchanged(`Files, `Tables, `Repr, `ProcMap, `GroupLeaders)
      ensures Valid() && W == DupAndFlag(old(W), old(W).procMap[pid], oldfd, newfd, None)
      ensures done == DupSucceeds(old(W), old(W).procMap[pid], oldfd, newfd)
    {
      done := OpDup2(pid, oldfd, newfd);
    }

    method OpDup3(pid: Pid, oldfd: nat, newfd: nat, flags: u64)
      requires Valid() && pid in ProcMap
      modifies Repr
      ensures unchanged(`Files, `Tables, `Repr, `ProcMap, `GroupLeaders)
      ensures Valid() && W == DupAndFlag(old(W), old(W).procMap[pid], oldfd, newfd, Some(flags))
    {
      ghost var t := W.procMap[pid];
      ClosedAfterDup(W, t, oldfd, newfd);
      DupTarget(W, t, oldfd, newfd);
      var done := OpDup(pid, oldfd, newfd);
      if done {
        SetCloexecAt(ProcMap[pid], newfd, flags);
      }
    }

    method SetCloexecAt(proc: TProcState, fd: nat, flags: u64)
      requires Valid() && proc in Tables && fd < |proc.Fds| && proc.Fds[fd] != null
      modifies Repr
      ensures unchanged(`Files, `Tables, `Repr, `ProcMap, `GroupLeaders)
      ensures Valid() && W == SetCloexec(old(W), proc.Id, fd, flags)
    {
      var file := proc.Fds[fd];
      ghost var t := proc.Id;
      assert Tables[t] == proc && Files[W.tables[t].fds[fd].value] == file;
      file.SetCloexecFlag(HasFlag(flags, O_CLOEXEC));
      W := SetCloexec(W, t, fd, flags);
    }

    /** The operations that change a file in place, where the descriptor has one. */
    method OpChange(pid: Pid, fd: nat, change: Change)
      requires Valid() && pid in ProcMap
      modifies Repr
      ensures unchanged(`Files, `Tables, `Repr, `ProcMap, `GroupLeaders)
      ensures Valid() && W == ChangeFile(old(W), old(W).procMap[pid], fd, change)
    {
      var proc := ProcMap[pid];
      ghost var t := W.procMap[pid];
      assert proc == Tables[t];
      if fd < |proc.Fds| && proc.Fds[fd] != null {
        var file := proc.Fds[fd];
        assert Files[W.tables[t].fds[fd].value] == file;
        Alter(file, change);
        W := ChangeFile(W, t, fd, change);
      }
    }

    method SyscallExit(pid: Pid, regs: Regs, link: string, fs: FileSystem)
      requires Valid() && pid in ProcMap
      modifies Repr
      ensures unchanged(`Tables, `ProcMap, `GroupLeaders)
      ensures Repr >= old(Repr) && fresh(Repr - old(Repr))
      ensures Valid() && W == Apply(old(W), old(W).procMap[pid], Decode(regs), link, fs)
    {
      if regs.nr in {SYS_write, SYS_writev, SYS_pwritev, SYS_pwrite64, SYS_pwritev2} {
        WriteExit(pid, regs, link, fs);
      } else if regs.nr == SYS_close {
        CloseExit(pid, regs, link, fs);
      } else if IntNonNegative(regs.ret) {
        if regs.nr == SYS_creat || regs.nr == SYS_open || regs.nr == SYS_openat {
          OpenExit(pid, regs, link, fs);
        } else if regs.nr == SYS_fcntl {
          FcntlExit(pid, regs, link, fs);
        } else if regs.nr == SYS_dup || regs.nr == SYS_dup2 || regs.nr == SYS_dup3 {
          DupExit(pid, regs, link, fs);
        } else {
          PlaceExit(pid, regs, link, fs);
        }
      } else {
        FailureMeansNothing(regs);
      }
    }

    method WriteExit(pid: Pid, regs: Regs, link: string, fs: FileSystem)
      requires Valid() && pid in ProcMap && regs.nr in {SYS_write, SYS_writev, SYS_pwritev, SYS_pwrite64, SYS_pwritev2}
      modifies Repr
      ensures unchanged(`Tables, `ProcMap, `GroupLeaders, `Repr)
      ensures Valid() && W == Apply(old(W), old(W).procMap[pid], Decode(regs), link, fs)
    {
      if regs.nr == SYS_write || regs.nr == SYS_writev {
        if LongPositive(regs.ret) { OpChange(pid, regs.arg0, Advance(regs.ret)); }
      } else {
        if LongPositive(regs.ret) { OpChange(pid, regs.arg0, Extend(regs.ret, regs.arg3)); }
      }
    }

    method CloseExit(pid: Pid, regs: Regs, link: string, fs: FileSystem)
      requires Valid() && pid in ProcMap && regs.nr == SYS_close
      modifies Repr
      ensures unchanged(`Tables, `ProcMap, `GroupLeaders, `Repr)
      ensures Valid() && W == Apply(old(W), old(W).procMap[pid], Decode(regs), link, fs)
    {
      CloseMeans(W, W.procMap[pid], regs, link, fs);
      OpClose(pid, regs.arg0);
    }

    /** Calls that change the length of a file or the position in it. */
    method PlaceExit(pid: Pid, regs: Regs, link: string, fs: FileSystem)
      requires Valid() && pid in ProcMap && IntNonNegative(regs.ret)
      requires regs.nr !in {SYS_write, SYS_writev, SYS_pwritev, SYS_pwrite64, SYS_pwritev2, SYS_close, SYS_creat, SYS_open}
      requires regs.nr !in {SYS_openat, SYS_fcntl, SYS_dup, SYS_dup2, SYS_dup3}
      modifies Repr
      ensures unchanged(`Tables, `ProcMap, `GroupLeaders, `Repr)
      ensures Valid() && W == Apply(old(W), old(W).procMap[pid], Decode(regs), link, fs)
    {
      if regs.nr == SYS_fallocate {
        OpChange(pid, regs.arg0, Extend(Plus(regs.arg2, regs.arg3), 0));
      } else if regs.nr == SYS_ftruncate {
        OpChange(pid, regs.arg0, Extend(regs.arg1, 0));
      } else if regs.nr == SYS_lseek {
        OpChange(pid, regs.arg0, Seek(regs.ret));
      }
    }

    method OpenExit(pid: Pid, regs: Regs, link: string, fs: FileSystem)
      requires Valid() && pid in ProcMap && IntNonNegative(regs.ret)
      requires regs.nr == SYS_creat || regs.nr == SYS_open || regs.nr == SYS_openat
      modifies Repr
      ensures unchanged(`Tables, `ProcMap, `GroupLeaders)
      ensures Repr >= old(Repr) && fresh(Repr - old(Repr))
      ensures Valid() && W == Apply(old(W), old(W).procMap[pid], Decode(regs), link, fs)
    {
      OpenMeans(W, W.procMap[pid], regs, link, fs);
      if regs.nr == SYS_creat {
        OpOpenWriteFile(pid, regs.ret, regs.arg1, link, fs);
      } else if regs.nr == SYS_open {
        OpOpenFile(pid, regs.ret, regs.arg1, link, fs);
      } else {
        OpOpenFile(pid, regs.ret, regs.arg2, link, fs);
      }
    }

    method FcntlExit(pid: Pid, regs: Regs, link: string, fs: FileSystem)
      requires Valid() && pid in ProcMap && IntNonNegative(regs.ret) && regs.nr == SYS_fcntl
      modifies Repr
      ensures unchanged(`Tables, `ProcMap, `GroupLeaders, `Repr)
      ensures Valid() && W == Apply(old(W), old(W).procMap[pid], Decode(regs), link, fs)
    {
      FcntlMeans(W, W.procMap[pid], regs, link, fs);
      if regs.arg1 == F_DUPFD {
        var _ := OpDup(pid, regs.arg0, regs.ret);
      } else if regs.arg1 == F_DUPFD_CLOEXEC {
        OpDup3(pid, regs.arg0, regs.ret, O_CLOEXEC);
      } else if regs.arg1 == F_SETFL || regs.arg1 == F_SETFD {
        OpChange(pid, regs.arg0, SetFlags(regs.arg2));
      }
    }

    method DupExit(pid: Pid, regs: Regs, link: string, fs: FileSystem)
      requires Valid() && pid in ProcMap && IntNonNegative(regs.ret)
      requires regs.nr == SYS_dup || regs.nr == SYS_dup2 || regs.nr == SYS_dup3
      modifies Repr
      ensures unchanged(`Tables, `ProcMap, `GroupLeaders, `Repr)
      ensures Valid() && W == Apply(old(W), old(W).procMap[pid], Decode(regs), link, fs)
    {
      if regs.nr == SYS_dup3 {
        DupMeans(W, W.procMap[pid], regs, link, fs);
        OpDup3(pid, regs.arg0, regs.arg1, regs.arg2);
      } else {
        PlainDupExit(pid, regs, link, fs);
      }
    }

    method PlainDupExit(pid: Pid, regs: Regs, link: string, fs: FileSystem)
      requires Valid() && pid in ProcMap && IntNonNegative(regs.ret) && (regs.nr == SYS_dup || regs.nr == SYS_dup2)
      modifies Repr
      ensures unchanged(`Tables, `ProcMap, `GroupLeaders, `Repr)
      ensures Valid() && W == Apply(old(W), old(W).procMap[pid], Decode(regs), link, fs)
    {
      DupMeans(W, W.procMap[pid], regs, link, fs);
      if regs.nr == SYS_dup {
        var _ := OpDup(pid, regs.arg0, regs.ret);
      } else {
        var _ := OpDup2(pid, regs.arg0, regs.arg1);
      }
    }

    // ---------- processes ----------

    /** What is known of the state of a registered process. */
    lemma Known(pid: Pid)
      requires Valid() && pid in ProcMap
      ensures Closed(W) && pid in W.procMap && W.procMap[pid] < |W.tables|
      ensures ProcMap[pid] in Tables && ProcMap[pid].Id == W.procMap[pid]
      ensures ProcMap[pid].ProcInfo == W.tables[W.procMap[pid]].info
    {
      assert ProcMap[pid] == Tables[W.procMap[pid]];
    }

    method NewProcState(info: ProcInfo) returns (proc: TProcState)
      requires Valid()
      modifies this
      ensures unchanged(`Files, `ProcMap, `GroupLeaders)
      ensures Tables == old(Tables) + [proc] && fresh(proc) && Repr == old(Repr) + {proc}
      ensures proc.ProcInfo == info && proc.Id == |old(W).tables|
      ensures Valid() && W == old(W).(tables := old(W).tables + [Table([], info)])
    {
      proc := new TProcState(|Tables|, info);
      Tables, Repr := Tables + [proc], Repr + {proc};
      W := W.(tables := W.tables + [Table([], info)]);
    }

    /** A new leader, and its table. */
    method Enter(pid: Pid, proc: TProcState)
      requires Valid() && proc in Tables
      modifies `GroupLeaders, `ProcMap, `W
      ensures Valid() && W == old(W).(leaders := old(W).leaders + {pid}, procMap := old(W).procMap[pid := proc.Id])
    {
      assert Tables[proc.Id] == proc;
      GroupLeaders := GroupLeaders + {pid};
      ProcMap := ProcMap[pid := proc];
      W := W.(leaders := W.leaders + {pid}, procMap := W.procMap[pid := proc.Id]);
    }

    /** The highest descriptor that is copied, or -1. */
    method GetHighestFd(proc: TProcState, cloexecFree: bool) returns (fd: int)
      requires Valid() && proc in Tables
      ensures fd + 1 == CopiedLength(W, W.tables[proc.Id].fds, cloexecFree)
    {
      assert Tables[proc.Id] == proc;
      ghost var fds := W.tables[proc.Id].fds;
      fd := |proc.Fds| - 1;
      assert fds[..|fds|] == fds;
      while fd >= 0
        invariant -1 <= fd < |fds|
        invariant CopiedLength(W, fds[..fd + 1], cloexecFree) == CopiedLength(W, fds, cloexecFree)
      {
        assert fds[..fd + 1][..fd] == fds[..fd];
        if proc.Fds[fd] != null {
          assert Files[fds[fd].value] == proc.Fds[fd];
          if cloexecFree {
            if !proc.Fds[fd].IsCloexecSet() {
              return;
            }
          } else {
            return;
          }
        }
        fd := fd - 1;
      }
    }

    /** A new process state with a copy of a table. */
    method CopyProc(from: TProcState, cloexecFree: bool, fs: FileSystem, info: ProcInfo) returns (to: TProcState)
      requires Valid() && from in Tables && from.Id < |W.tables|
      modifies Repr
      ensures unchanged(`ProcMap, `GroupLeaders)
      ensures Repr >= old(Repr) && fresh(Repr - old(Repr))
      ensures to in Tables && to.Id == |old(W).tables|
      ensures Valid() && W == WithTable(old(W), CopySources(old(W), old(W).tables[from.Id].fds, cloexecFree, fs), info)
    {
      ghost var w := W;
      to := NewProcState(info);
      CopyFds(from, to, cloexecFree, fs, w);
    }

    /** The part that `RegisterExec` and `RegisterProcess` share: filling the new table `to` with copies. */
    method CopyFds(from: TProcState, to: TProcState, cloexecFree: bool, fs: FileSystem, ghost w: World)
      requires Valid() && from in Tables && to in Tables
      requires Closed(w) && from.Id < |w.tables| == to.Id && W == w.(tables := w.tables + [Table([], to.ProcInfo)])
      modifies Repr
      ensures unchanged(`Tables, `ProcMap, `GroupLeaders)
      ensures Repr >= old(Repr) && fresh(Repr - old(Repr))
      ensures Valid() && W == WithTable(w, CopySources(w, w.tables[from.Id].fds, cloexecFree, fs), to.ProcInfo)
    {
      var highestFd := GetHighestFd(from, cloexecFree);
      ghost var sources := CopySources(w, w.tables[from.Id].fds, cloexecFree, fs);
      assert |sources| == highestFd + 1 by { SameLengths(w, W, w.tables[from.Id].fds, cloexecFree); }
      if highestFd >= 0 {
        CopyUpTo(from, to, cloexecFree, fs, highestFd, w, sources);
        assert W == WithTable(w, sources, to.ProcInfo) by { CopyEnds(w, sources, to.ProcInfo); }
      } else {
        assert W == WithTable(w, sources, to.ProcInfo) by { CopyEnds(w, sources, to.ProcInfo); }
      }
    }

    method CopyUpTo(from: TProcState, to: TProcState, cloexecFree: bool, fs: FileSystem, highestFd: nat, ghost w: World,
                    ghost sources: seq<Option<FileRec>>)
      requires Valid() && from in Tables && to in Tables
      requires Closed(w) && from.Id < |w.tables| == to.Id && W == w.(tables := w.tables + [Table([], to.ProcInfo)])
      requires highestFd + 1 == |sources| && sources == CopySources(w, w.tables[from.Id].fds, cloexecFree, fs)
      modifies Repr
      ensures unchanged(`Tables, `ProcMap, `GroupLeaders)
      ensures Repr >= old(Repr) && fresh(Repr - old(Repr))
      ensures Valid() && W == CopiedSoFar(w, sources, |sources|, to.ProcInfo)
    {
      CopyBegins(w, sources, to.ProcInfo);
      Resize(to, highestFd + 1);
      CopySlots(from, to, cloexecFree, fs, highestFd, w, sources);
    }

    method CopySlots(from: TProcState, to: TProcState, cloexecFree: bool, fs: FileSystem, highestFd: nat, ghost w: World,
                     ghost sources: seq<Option<FileRec>>)
      requires Valid() && from in Tables && to in Tables
      requires Closed(w) && from.Id < |w.tables| == to.Id && highestFd + 1 == |sources|
      requires sources == CopySources(w, w.tables[from.Id].fds, cloexecFree, fs)
      requires W == CopiedSoFar(w, sources, 0, to.ProcInfo)
      modifies Repr
      ensures unchanged(`Tables, `ProcMap, `GroupLeaders)
      ensures Repr >= old(Repr) && fresh(Repr - old(Repr))
      ensures Valid() && W == CopiedSoFar(w, sources, |sources|, to.ProcInfo)
    {
      var i := 0;
      while i <= highestFd
        invariant 0 <= i <= highestFd + 1
        invariant unchanged(`Tables, `ProcMap, `GroupLeaders)
        invariant Repr >= old(Repr) && fresh(Repr - old(Repr))
        invariant Valid() && W == CopiedSoFar(w, sources, i, to.ProcInfo)
      {
        i := CopyFd(from, to, cloexecFree, fs, i, w, sources);
      }
    }

    /** One turn of the loop. */
    method CopyFd(from: TProcState, to: TProcState, cloexecFree: bool, fs: FileSystem, i: nat, ghost w: World,
                  ghost sources: seq<Option<FileRec>>)
      returns (next: nat)
      requires Valid() && from in Tables && to in Tables
      requires Closed(w) && from.Id < |w.tables| == to.Id && i < |sources|
      requires sources == CopySources(w, w.tables[from.Id].fds, cloexecFree, fs)
      requires W == CopiedSoFar(w, sources, i, to.ProcInfo)
      modifies Repr
      ensures unchanged(`Tables, `ProcMap, `GroupLeaders)
      ensures Repr >= old(Repr) && fresh(Repr - old(Repr))
      ensures Valid() && W == CopiedSoFar(w, sources, i + 1, to.ProcInfo)
      ensures next == i + 1
    {
      assert Tables[from.Id] == from && Tables[to.Id] == to;
      ghost var slot := w.tables[from.Id].fds[i];
      assert W.tables[from.Id] == w.tables[from.Id];
      CopyStep(w, sources, i, to.ProcInfo);
      if from.Fds[i] != null {
        var original := from.Fds[i];
        assert Files[slot.value] == original && W.files[slot.value] == w.files[slot.value];
        if !(cloexecFree && original.IsCloexecSet()) {
          var file := new TFileState.Copy(|Files|, fs, original);
          Install(to, i, file);
        }
      }
      next := i + 1;
    }

    method RegisterThread(pid: Pid, thread: Pid)
      requires Valid() && pid in ProcMap
      modifies this
      ensures unchanged(`Repr, `Files, `Tables)
      ensures Valid() && W == Step(old(W), Thread(pid, thread), map[])
    {
      ProcMap := ProcMap[thread := ProcMap[pid]];
      W := W.(procMap := W.procMap[thread := W.procMap[pid]]);
    }

    method RegisterProcess(parent: Pid, child: Pid, comm: string, cmdline: string, fs: FileSystem)
      requires Valid() && parent in ProcMap && child !in ProcMap
      modifies Repr
      ensures Repr >= old(Repr) && fresh(Repr - old(Repr))
      ensures Valid() && W == Step(old(W), Process(parent, child, comm, cmdline), fs)
    {
      ghost var w := W;
      Known(parent);
      var newproc := CopyProc(ProcMap[parent], false, fs, Storage.ProcInfo(child, parent, comm, cmdline));
      Enter(child, newproc);
      ProcessInSteps(w, parent, child, comm, cmdline, fs, W);
    }

    /** One turn of the loop of `VanishProcess`. */
    method TearDownNext(proc: TProcState, i: nat)
      requires Valid() && proc in Tables && i < |proc.Fds|
      modifies Repr
      ensures unchanged(`Files, `Tables, `Repr, `ProcMap, `GroupLeaders)
      ensures Valid() && |proc.Fds| == old(|proc.Fds|)
      ensures forall end :: Ends(old(W), proc.Id, i, end) ==> Ends(W, proc.Id, i + 1, end)
    {
      assert proc == Tables[proc.Id];
      if proc.Fds[i] != null {
        TearDownFd(proc, i);
      }
    }

    /** The loop of `VanishProcess`. */
    method TearDownAll(proc: TProcState)
      requires Valid() && proc in Tables
      modifies Repr
      ensures unchanged(`Files, `Tables, `Repr, `ProcMap, `GroupLeaders)
      ensures Valid() && W == TearDownFrom(old(W), proc.Id, 0)
    {
      assert proc == Tables[proc.Id];
      ghost var torn := TearDownFrom(W, proc.Id, 0);
      var i, n := 0, |proc.Fds|;
      while i < n
        invariant Valid() && unchanged(`Files, `Tables, `Repr, `ProcMap, `GroupLeaders)
        invariant 0 <= i <= n == |proc.Fds|
        invariant Ends(W, proc.Id, i, torn)
      {
        TearDownNext(proc, i);
        i := i + 1;
      }
      assert n == |W.tables[proc.Id].fds|;
    }

    /** Tearing down table `t` from slot `i` on leads to `end`. */
    ghost predicate Ends(w: World, t: nat, i: nat, end: World) {
      Closed(w) && t < |w.tables| && i <= |w.tables[t].fds| && TearDownFrom(w, t, i) == end
    }

    method VanishProcess(pid: Pid)
      requires Valid() && pid in ProcMap
      modifies Repr
      ensures unchanged(`Files, `Tables, `Repr)
      ensures ProcMap == old(ProcMap) - {pid}
      ensures Valid() && W == Model.VanishProcess(old(W), pid)
    {
      if pid in GroupLeaders {
        Known(pid);
        TearDownAll(ProcMap[pid]);
        Depose(pid);
      }
      Forget(pid);
    }

    method Depose(pid: Pid)
      requires Valid()
      modifies `GroupLeaders, `W
      ensures Valid() && GroupLeaders == old(GroupLeaders) - {pid} && W == old(W).(leaders := old(W).leaders - {pid})
    {
      GroupLeaders := GroupLeaders - {pid};
      W := W.(leaders := W.leaders - {pid});
    }

    method Forget(pid: Pid)
      requires Valid()
      modifies `ProcMap, `W
      ensures Valid() && ProcMap == old(ProcMap) - {pid} && W == old(W).(procMap := old(W).procMap - {pid})
    {
      ProcMap := ProcMap - {pid};
      W := W.(procMap := W.procMap - {pid});
    }

    method RegisterExec(pid: Pid, comm: string, cmdline: string, fs: FileSystem)
      requires Valid() && pid in ProcMap
      modifies Repr
      ensures Repr >= old(Repr) && fresh(Repr - old(Repr))
      ensures Valid() && W == Step(old(W), Exec(pid, comm, cmdline), fs)
    {
      ghost var w := W;
      Known(pid);
      var oldproc := ProcMap[pid];
      // Only part of the table survives.
      var newproc := CopyProc(oldproc, true, fs, Storage.ProcInfo(pid, oldproc.ProcInfo.ppid, comm, cmdline));
      ghost var copied := W;
      VanishProcess(pid);
      Enter(pid, newproc);
      ExecInSteps(w, pid, comm, cmdline, fs, copied, W);
    }

    /** `probed` is what is found out about the descriptors that the tracee inherits. */
    method RegisterTracee(pid: Pid, comm: string, cmdline: string, probed: seq<Option<Inherited>>, fs: FileSystem)
      requires Valid() && W == World([], [], [], map[], {}, [], {})
      modifies Repr
      ensures Repr >= old(Repr) && fresh(Repr - old(Repr))
      ensures Valid() && W == Model.RegisterTracee(pid, comm, cmdline, probed, fs)
    {
      var proc := NewProcState(Storage.ProcInfo(pid, 0, comm, cmdline));
      Enter(pid, proc);
      assert WithSize(W, 0, |probed|) == NewTracee(pid, comm, cmdline, |probed|);
      FillFds(proc, probed, fs);
    }

    method FillFds(proc: TProcState, probed: seq<Option<Inherited>>, fs: FileSystem)
      requires Valid() && proc in Tables && W.tables[proc.Id].fds == []
      modifies Repr
      ensures unchanged(`Tables, `ProcMap, `GroupLeaders)
      ensures Repr >= old(Repr) && fresh(Repr - old(Repr))
      ensures Valid()
      ensures W == Model.FillFds(WithSize(old(W), proc.Id, |probed|), proc.Id, probed, |probed|, fs)
    {
      Resize(proc, |probed|);
      FillSlots(proc, probed, fs);
    }

    method FillSlots(proc: TProcState, probed: seq<Option<Inherited>>, fs: FileSystem)
      requires Valid() && proc in Tables && |proc.Fds| == |probed|
      modifies Repr
      ensures unchanged(`Tables, `ProcMap, `GroupLeaders)
      ensures Repr >= old(Repr) && fresh(Repr - old(Repr))
      ensures Valid() && FillEnds(old(W), proc.Id, probed, |probed|, fs, W)
    {
      assert proc.Id < |W.tables| by { assert proc == Tables[proc.Id]; }
      ghost var filled := FillUp(W, proc.Id, probed, fs);
      var fd := |probed|;
      while fd > 0
        invariant 0 <= fd <= |probed| == |proc.Fds|
        invariant unchanged(`Tables, `ProcMap, `GroupLeaders)
        invariant Repr >= old(Repr) && fresh(Repr - old(Repr))
        invariant Valid() && FillEnds(W, proc.Id, probed, fd, fs, filled)
      {
        fd := fd - 1;
        FillFd(proc, fd, probed, fs, filled);
      }
      FilledUp(W, proc.Id, probed, fs, filled);
    }

    lemma FillUp(w: World, t: nat, probed: seq<Option<Inherited>>, fs: FileSystem) returns (end: World)
      requires t < |w.tables|
      ensures FillEnds(w, t, probed, |probed|, fs, end)
    {
      end := Model.FillFds(w, t, probed, |probed|, fs);
    }

    lemma FilledUp(w: World, t: nat, probed: seq<Option<Inherited>>, fs: FileSystem, end: World)
      requires FillEnds(w, t, probed, 0, fs, end)
      ensures w == end
    {}

    /** Filling table `t` below slot `n` leads to `end`. */
    ghost predicate FillEnds(w: World, t: nat, probed: seq<Option<Inherited>>, n: nat, fs: FileSystem, end: World) {
      t < |w.tables| && n <= |probed| && Model.FillFds(w, t, probed, n, fs) == end
    }

    /** One turn of the loop of `FillFds`. */
    method FillFd(proc: TProcState, fd: nat, probed: seq<Option<Inherited>>, fs: FileSystem, ghost filled: World)
      requires Valid() && proc in Tables && fd < |proc.Fds| == |probed|
      requires FillEnds(W, proc.Id, probed, fd + 1, fs, filled)
      modifies Repr
      ensures unchanged(`Tables, `ProcMap, `GroupLeaders)
      ensures Repr >= old(Repr) && fresh(Repr - old(Repr))
      ensures Valid() && |proc.Fds| == old(|proc.Fds|)
      ensures FillEnds(W, proc.Id, probed, fd, fs, filled)
    {
      if probed[fd].Some? {
        assert Tables[proc.Id] == proc;
        MakeShared(proc, fd, probed[fd].value.flags, probed[fd].value.name, fs);
      }
    }

    /** One turn of the loop of `PostProcess`: some process vanishes, whichever the hash map has first. */
    method VanishSome(ghost w: World, ghost order: seq<Pid>) returns (ghost pid': Pid)
      requires Valid() && ProcMap.Keys != {}
      requires Closed(w) && Lists(order, w.procMap.Keys) && W == Drain(w, order)
      modifies Repr
      ensures unchanged(`Repr)
      ensures Valid() && Lists(order + [pid'], w.procMap.Keys) && W == Drain(w, order + [pid'])
      ensures |ProcMap.Keys| < old(|ProcMap.Keys|)
    {
      SomePid(ProcMap.Keys);
      var pid :| pid in ProcMap.Keys;
      pid' := pid;
      DrainSnoc(w, order, pid);
      ghost var before := ProcMap;
      VanishProcess(pid);
      assert ProcMap.Keys == before.Keys - {pid};
    }

    method VanishAll() returns (ghost order: seq<Pid>)
      requires Valid()
      modifies Repr
      ensures unchanged(`Repr)
      ensures Valid() && ProcMap == map[]
      ensures Enumerates(order, old(W).procMap.Keys) && W == Drain(old(W), order)
    {
      order := [];
      ghost var w := W;
      while ProcMap.Keys != {}
        invariant Valid() && unchanged(`Repr)
        invariant Lists(order, w.procMap.Keys) && W == Drain(w, order)
        decreases |ProcMap.Keys|
      {
        ghost var pid := VanishSome(w, order);
        order := order + [pid];
      }
      assert Enumerates(order, w.procMap.Keys) by {
        forall pid | pid in w.procMap ensures pid in order { assert pid !in W.procMap; }
      }
    }

    /** Drains what is left and returns what is reported. */
    method PostProcess() returns (report: seq<OutputFile>, ghost order: seq<Pid>)
      requires Valid()
      modifies Repr
      ensures Valid() && W.procMap == map[]
      ensures Enumerates(order, old(W).procMap.Keys) && W == Drain(old(W), order)
      ensures Consistent(FileStorage.OutputSize, multiset(report), Outs(W.log), FileStorage.Capacity,
                         FileStorage.StoreEmptyFiles)
      ensures NonIncreasing(report)
      ensures Keeps(multiset(report), Outs(W.log), FileStorage.Capacity, FileStorage.StoreEmptyFiles)
    {
      order := VanishAll();
      report := FileStorage.GetLargestFiles();
      ConsistentKeeps(FileStorage.OutputSize, multiset(report), Outs(W.log), FileStorage.Capacity, FileStorage.StoreEmptyFiles);
    }
  }

  /** What `OpWriteChangeOffset`, `OpWriteNoOffsetChange`, `OpResize`, `OpSeek` and `OpSetFlag` ask of a file. */
  method Alter(file: TFileState, change: Change)
    modifies file
    ensures file.Rec() == Changed(old(file.Rec()), change) && file.UseCount == old(file.UseCount)
  {
    match change
    case Advance(nbytes) => file.Enroll(nbytes);
    case Extend(nbytes, offset) => file.EnrollNoShift(nbytes, offset);
    case Seek(pos) => file.SetCurrPos(pos);
    case SetFlags(flags) => file.SetFlags(flags);
  }

  ghost predicate SlotsMatch(slots: seq<TFileState?>, fds: seq<Option<nat>>, files: seq<TFileState>)
    requires forall i :: 0 <= i < |fds| && fds[i].Some? ==> fds[i].value < |files|
  {
    && |slots| == |fds|
    && forall i :: 0 <= i < |fds| ==> slots[i] == if fds[i].Some? then files[fds[i].value] else null
  }

  lemma UsesAfterUpdate(fds: seq<Option<nat>>, i: nat, slot: Option<nat>)
    requires i < |fds|
    ensures forall f: nat :: Uses(fds[i := slot], f) ==
              Uses(fds, f) - (if fds[i] == Some(f) then 1 else 0) + if slot == Some(f) then 1 else 0
  {
    forall f: nat ensures Uses(fds[i := slot], f) ==
              Uses(fds, f) - (if fds[i] == Some(f) then 1 else 0) + if slot == Some(f) then 1 else 0 {
      UsesUpdate(fds, i, slot, f);
    }
  }

  lemma ResetKeepsOwned(w: World, t: nat, i: nat)
    requires Owned(w) && t < |w.tables| && i < |w.tables[t].fds|
    ensures Owned(WithSlot(w, t, i, None))
  {}

  lemma PointKeepsOwned(w: World, t: nat, i: nat, f: nat)
    requires Owned(w) && t < |w.tables| && i < |w.tables[t].fds| && f < |w.files| && w.homes[f] == t
    ensures Owned(WithSlot(w, t, i, Some(f)))
  {}

  ghost function WithSize(w: World, t: nat, size: nat): World
    requires t < |w.tables|
  {
    w.(tables := w.tables[t := w.tables[t].(fds := Resized(w.tables[t].fds, size))])
  }

  lemma ResizeKeepsOwned(w: World, t: nat, size: nat)
    requires Owned(w) && t < |w.tables|
    ensures Owned(WithSize(w, t, size))
  {
    var fds := Resized(w.tables[t].fds, size);
    forall i | 0 <= i < |fds| && fds[i].Some? ensures i < |w.tables[t].fds| && fds[i] == w.tables[t].fds[i] {
      assert Slot(fds, i) == Slot(w.tables[t].fds, i);
    }
  }

  lemma UsesAfterResize(fds: seq<Option<nat>>, size: nat)
    ensures forall f: nat :: Uses(Resized(fds, size), f) == Uses(fds, f)
  {
    forall f: nat ensures Uses(Resized(fds, size), f) == Uses(fds, f) {
      UsesResized(fds, size, f);
    }
  }

  lemma AdoptedIsUnused(fds: seq<Option<nat>>, n: nat)
    requires forall i :: 0 <= i < |fds| && fds[i].Some? ==> fds[i].value < n
    ensures Uses(fds, n) == 0
  {
    UsesIffMember(fds, n);
  }

  lemma AdoptThenPoint(w: World, t: nat, fd: nat, file: FileRec)
    requires Closed(w) && t < |w.tables| && fd < |w.tables[t].fds| && w.tables[t].fds[fd].None?
    ensures WithSlot(w.(files := w.files + [file], homes := w.homes + [t]), t, fd, Some(|w.files|)) == OpenWriteFile(w, t, fd, file)
  {}

  lemma LastOfTable(fds: seq<Option<nat>>, i: nat)
    requires i < |fds| && fds[i].Some?
    ensures Uses(fds, fds[i].value) == 1 <==> fds[i] !in fds[i := None]
  {
    UsesUpdate(fds, i, None, fds[i].value);
    UsesIffMember(fds[i := None], fds[i].value);
  }

  lemma DupTarget(w: World, t: nat, oldfd: nat, newfd: nat)
    requires Owned(w) && t < |w.tables|
    ensures DupSucceeds(w, t, oldfd, newfd) ==>
              Slot(DupFd(w, t, oldfd, newfd).tables[t].fds, newfd) == Slot(w.tables[t].fds, oldfd)
  {}

  lemma DupInSteps(w: World, t: nat, oldfd: nat, newfd: nat)
    requires Closed(w) && t < |w.tables| && oldfd != newfd
    ensures var closed := CloseFd(w, t, newfd);
            && Slot(closed.tables[t].fds, oldfd) == Slot(w.tables[t].fds, oldfd)
            && Slot(closed.tables[t].fds, newfd).None?
            && (if Slot(w.tables[t].fds, oldfd).None? then DupFd(w, t, oldfd, newfd) == closed
                else
                  var grown := WithSize(closed, t, newfd + 1);
                  && Slot(grown.tables[t].fds, oldfd) == Slot(w.tables[t].fds, oldfd)
                  && Slot(grown.tables[t].fds, newfd).None?
                  && DupFd(w, t, oldfd, newfd) == WithSlot(grown, t, newfd, Slot(w.tables[t].fds, oldfd)))
  {}

  lemma ResetThenOpen(w: World, t: nat, fd: nat, file: FileRec)
    requires t < |w.tables| && fd < |w.tables[t].fds|
    ensures OpenWriteFile(WithSlot(w, t, fd, None), t, fd, file).(lost := w.lost + Overwritten(w, t, fd)) ==
            OpenWriteFile(w, t, fd, file)
  {
    var fds := w.tables[t].fds;
    assert Resized(fds, fd + 1) == fds && Resized(fds[fd := None], fd + 1) == fds[fd := None];
    assert fds[fd := None][fd := Some(|w.files|)] == fds[fd := Some(|w.files|)];
  }

  // ---------- copying a table slot by slot ----------

  /** `WithTable` after the first `i` slots. */
  ghost function CopiedSoFar(w: World, sources: seq<Option<FileRec>>, i: nat, info: ProcInfo): World
    requires i <= |sources|
  {
    var files := Present(sources[..i]);
    w.(files := w.files + files,
       homes := w.homes + seq(|files|, _ => |w.tables|),
       tables := w.tables + [Table(Resized(NewSlots(sources[..i], |w.files|), |sources|), info)])
  }

  /** Making the table long enough first makes no difference to an open. */
  lemma OpenInSteps(w: World, t: nat, fd: nat, file: FileRec)
    requires t < |w.tables|
    ensures OpenWriteFile(WithSize(w, t, fd + 1), t, fd, file) == OpenWriteFile(w, t, fd, file)
  {
    var fds := w.tables[t].fds;
    assert Slot(Resized(fds, fd + 1), fd) == Slot(fds, fd);
    assert Slot(fds, fd).Some? ==> Resized(fds, fd + 1) == fds;
    assert Resized(Resized(fds, fd + 1), fd + 1) == Resized(fds, fd + 1);
  }

  /** What the calls that open files come to. */
  lemma OpenMeans(w: World, t: nat, regs: Regs, link: string, fs: FileSystem)
    requires Closed(w) && t < |w.tables| && IntNonNegative(regs.ret)
    requires regs.nr == SYS_creat || regs.nr == SYS_open || regs.nr == SYS_openat
    ensures Apply(w, t, Decode(regs), link, fs) ==
            if regs.nr == SYS_creat then OpenWriteFile(w, t, regs.ret, Opened(fs, link, regs.arg1))
            else var flags := if regs.nr == SYS_open then regs.arg1 else regs.arg2;
                 Apply(w, t, if OpenedForWriting(flags) then OpenWrite(regs.ret, flags) else Nop, link, fs)
  {}

  lemma CloseMeans(w: World, t: nat, regs: Regs, link: string, fs: FileSystem)
    requires Closed(w) && t < |w.tables| && regs.nr == SYS_close
    ensures Apply(w, t, Decode(regs), link, fs) == CloseFd(w, t, regs.arg0)
  {
    assert Decode(regs) == Close(regs.arg0);
  }

  /** After resizing, the source slot is what it was, and the target slot is there and null. */
  lemma SlotsAreThere(fds: seq<Option<nat>>, grown: seq<Option<nat>>, newfd: nat, oldfd: nat, slots: seq<TFileState?>,
                      files: seq<TFileState>)
    requires grown == Resized(fds, newfd + 1) && forall i :: 0 <= i < |grown| && grown[i].Some? ==> grown[i].value < |files|
    requires SlotsMatch(slots, grown, files)
    requires Slot(fds, oldfd).Some? && Slot(fds, newfd).None?
    ensures oldfd < |slots| && newfd < |slots| && slots[oldfd] != null && slots[newfd] == null
    ensures grown[oldfd] == fds[oldfd]
  {
    assert Slot(grown, oldfd) == Slot(fds, oldfd) && Slot(grown, newfd) == Slot(fds, newfd);
  }

  lemma FailureMeansNothing(regs: Regs)
    requires regs.nr !in {SYS_write, SYS_writev, SYS_pwritev, SYS_pwrite64, SYS_pwritev2, SYS_close}
    requires !IntNonNegative(regs.ret)
    ensures Decode(regs) == Nop
  {}

  /** What the calls that duplicate descriptors come to. */
  lemma DupMeans(w: World, t: nat, regs: Regs, link: string, fs: FileSystem)
    requires Closed(w) && t < |w.tables| && IntNonNegative(regs.ret)
    requires regs.nr == SYS_dup || regs.nr == SYS_dup2 || regs.nr == SYS_dup3
    ensures Apply(w, t, Decode(regs), link, fs) ==
            DupAndFlag(w, t, regs.arg0, if regs.nr == SYS_dup then regs.ret else regs.arg1,
                       if regs.nr == SYS_dup3 then Some(regs.arg2) else None)
  {
    assert Decode(regs) == Dup(regs.arg0, if regs.nr == SYS_dup then regs.ret else regs.arg1,
                               if regs.nr == SYS_dup3 then Some(regs.arg2) else None);
  }

  lemma FcntlMeans(w: World, t: nat, regs: Regs, link: string, fs: FileSystem)
    requires Closed(w) && t < |w.tables| && IntNonNegative(regs.ret) && regs.nr == SYS_fcntl
    ensures Apply(w, t, Decode(regs), link, fs) ==
            if regs.arg1 == F_DUPFD then DupAndFlag(w, t, regs.arg0, regs.ret, None)
            else if regs.arg1 == F_DUPFD_CLOEXEC then DupAndFlag(w, t, regs.arg0, regs.ret, Some(O_CLOEXEC))
            else if regs.arg1 == F_SETFL || regs.arg1 == F_SETFD then ChangeFile(w, t, regs.arg0, SetFlags(regs.arg2))
            else w
  {
    assert Decode(regs) ==
           if regs.arg1 == F_DUPFD then Dup(regs.arg0, regs.ret, None)
           else if regs.arg1 == F_DUPFD_CLOEXEC then Dup(regs.arg0, regs.ret, Some(O_CLOEXEC))
           else if regs.arg1 == F_SETFL || regs.arg1 == F_SETFD then Touch(regs.arg0, SetFlags(regs.arg2))
           else Nop;
  }

  /** What `RegisterProcess` and `RegisterExec` copy. */
  ghost function WithCopy(w: World, pid: Pid, exec: bool, fs: FileSystem, info: ProcInfo): World
    requires Closed(w) && pid in w.procMap
  {
    WithTable(w, CopySources(w, w.tables[w.procMap[pid]].fds, exec, fs), info)
  }

  ghost function WithEntry(w: World, pid: Pid, t: nat): World {
    w.(leaders := w.leaders + {pid}, procMap := w.procMap[pid := t])
  }

  lemma ProcessInSteps(w: World, parent: Pid, child: Pid, comm: string, cmdline: string, fs: FileSystem, w': World)
    requires Closed(w) && parent in w.procMap && child !in w.procMap
    requires w' == WithEntry(WithCopy(w, parent, false, fs, ProcInfo(child, parent, comm, cmdline)), child, |w.tables|)
    ensures w' == Step(w, Process(parent, child, comm, cmdline), fs)
  {}

  lemma ExecInSteps(w: World, pid: Pid, comm: string, cmdline: string, fs: FileSystem, copied: World, w': World)
    requires Closed(w) && pid in w.procMap && Closed(copied) && pid in copied.procMap
    requires copied == WithCopy(w, pid, true, fs, ProcInfo(pid, w.tables[w.procMap[pid]].info.ppid, comm, cmdline))
    requires w' == WithEntry(Model.VanishProcess(copied, pid), pid, |w.tables|)
    ensures w' == Step(w, Exec(pid, comm, cmdline), fs)
  {}

  lemma CopyBegins(w: World, sources: seq<Option<FileRec>>, info: ProcInfo)
    ensures CopiedSoFar(w, sources, 0, info) ==
            WithSize(w.(tables := w.tables + [Table([], info)]), |w.tables|, |sources|)
  {
    assert NewSlots(sources[..0], |w.files|) == [];
  }

  lemma CopyEnds(w: World, sources: seq<Option<FileRec>>, info: ProcInfo)
    ensures sources == [] ==> w.(tables := w.tables + [Table([], info)]) == WithTable(w, sources, info)
    ensures CopiedSoFar(w, sources, |sources|, info) == WithTable(w, sources, info)
  {
    assert sources[..|sources|] == sources;
    assert sources == [] ==> NewSlots(sources, |w.files|) == [];
  }

  lemma CopyStep(w: World, sources: seq<Option<FileRec>>, i: nat, info: ProcInfo)
    requires i < |sources|
    ensures var before := CopiedSoFar(w, sources, i, info);
            CopiedSoFar(w, sources, i + 1, info) ==
            if sources[i].Some? then OpenWriteFile(before, |w.tables|, i, sources[i].value) else before
  {
    var slots := NewSlots(sources[..i], |w.files|);
    NewSlotsSnoc(sources, i, |w.files|);
    assert sources[..i + 1][..i] == sources[..i];
    ResizedSnoc(slots, NewSlots(sources[..i + 1], |w.files|)[i], |sources|);
    HomesSnoc(w.homes, |Present(sources[..i])|, |w.tables|);
    var before, after := CopiedSoFar(w, sources, i, info), CopiedSoFar(w, sources, i + 1, info);
    assert before.tables[|w.tables|].fds == Resized(slots, |sources|);
    if sources[i].Some? {
      assert after.files == before.files + [sources[i].value];
      assert after.tables == before.tables[|w.tables| := Table(Resized(slots, |sources|)[i := Some(|before.files|)], info)];
    } else {
      assert after.files == before.files;
      assert Resized(slots, |sources|)[i := None] == Resized(slots, |sources|);
    }
  }

  lemma NewSlotsSnoc(sources: seq<Option<FileRec>>, i: nat, base: nat)
    requires i < |sources|
    ensures NewSlots(sources[..i + 1], base) ==
            NewSlots(sources[..i], base) + [if sources[i].Some? then Some(base + |Present(sources[..i])|) else None]
  {
    assert forall j :: 0 <= j <= i ==> sources[..i + 1][..j] == sources[..j];
    assert forall j :: 0 <= j < i ==> sources[..i][..j] == sources[..j];
  }

  lemma ResizedSnoc(slots: seq<Option<nat>>, slot: Option<nat>, size: nat)
    requires |slots| < size
    ensures Resized(slots, size)[|slots|] == None
    ensures Resized(slots + [slot], size) == Resized(slots, size)[|slots| := slot]
    ensures Resized(Resized(slots, size), |slots| + 1) == Resized(slots, size)
  {}

  lemma HomesSnoc(homes: seq<nat>, n: nat, t: nat)
    ensures homes + seq(n + 1, _ => t) == homes + seq(n, _ => t) + [t]
  {}

  lemma {:induction false} SameLengths(w: World, w': World, fds: seq<Option<nat>>, exec: bool)
    requires forall i :: 0 <= i < |fds| && fds[i].Some? ==> fds[i].value < |w.files|
    requires w.files <= w'.files
    ensures CopiedLength(w, fds, exec) == CopiedLength(w', fds, exec)
  {
    if fds != [] { SameLengths(w, w', fds[..|fds| - 1], exec); }
  }

  // ---------- draining ----------

  lemma SomePid(pids: set<Pid>)
    requires pids != {}
    ensures exists pid :: pid in pids
  {
    if forall pid :: pid !in pids { assert false; }
  }

  lemma ListsSnoc(order: seq<Pid>, pids: set<Pid>, pid: Pid)
    requires Lists(order, pids) && pid in pids && pid !in order
    ensures Lists(order + [pid], pids)
  {
    assert forall p :: p in order + [pid] <==> p in order || p == pid;
  }

  /** What vanishes after `order` vanishes from the state that `order` leaves. */
  lemma {:induction false} DrainSnoc(w: World, order: seq<Pid>, pid: Pid)
    requires Closed(w) && Lists(order, w.procMap.Keys) && pid in w.procMap && pid !in order
    ensures Lists(order + [pid], w.procMap.Keys)
    ensures Drain(w, order + [pid]) == Model.VanishProcess(Drain(w, order), pid)
    decreases |order|
  {
    ListsSnoc(order, w.procMap.Keys, pid);
    if order == [] {
      assert [pid][1..] == [];
    } else {
      assert order[0] in order;
      var w' := Model.VanishProcess(w, order[0]);
      ListsRest(order, w.procMap.Keys);
      assert w'.procMap.Keys == w.procMap.Keys - {order[0]};
      assert (order + [pid])[1..] == order[1..] + [pid];
      DrainSnoc(w', order[1..], pid);
    }
  }
}
