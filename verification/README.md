# A model of optrace, with proofs

optrace runs a program under ptrace, follows the threads and processes that it creates, and works out how many
bytes each of them added to the files it wrote. This project models the parts of it that keep the books: the
tracked processes with their shared descriptor slots (`TContext`), the loop that learns from the kernel what the
threads do (`RunTracer`), the seccomp filter that spares it most system calls, and the bounded store that the
report is made from. Everything is for x86-64 Linux, where the constants come from.
`dafny verify dfyconfig.toml` checks all of it.

## How the model is built

- `Words`, `FileState`, `Syscalls`, `Storage`: machine words with their wrap-around, one open file (a class and
  the value it stands for), what a finished system call does (`Decode`, after src/context.cpp:312-405), and the
  store. The heap of the store is a multiset from which *some* smallest entry is taken.
- `World`: the tracked processes as a value. Objects are numbered in the order of creation; slots hold numbers.
  `Step` is the specification of every public operation of `TContext`, and its `log` lists the calls of
  `AddFileEntry`. Here a file is handed over when *no other slot of its table* refers to it.
- `Context`: the classes, with real aliasing. Slots are references, and each `TFileState` carries the count that
  its shared pointers keep. Here a file is handed over when *the count is 1*, as in the code. Every method is
  proved to do to the objects what `World` does to the numbers; the two agree because of module `Ownership`.
- `Invariants`, `Ownership`, `Ledger`, `Totals`: what holds in every run of `World`, and what it means in bytes.
  Each file ever tracked is referred to, or was handed over, or was overwritten by an open, and only one of these.
- `Posix`, `Growth`, `Chains`: independent descriptions of what descriptors, open file descriptions and file
  lengths do, and the proof of how far the tracker follows them.
- `Flags`, `Provenance`: what is found at a descriptor after each kind of call, field by field and from the
  registers as Linux defines them, and where the names and processes in the report come from.
- `Bpf`, `Seccomp`: an interpreter of classic BPF, the filter program, and what filtering loses.
- `Tracer`, `RunTracer`: one turn of the event loop as a function, and the loop itself as a class with methods.
- `System`: an asynchronous kernel (threads that run, stop at entries, exits, events and signals, and die at any
  moment) running against the tracer. A thread whose stop was reported does nothing until a request of the tracer
  lets it go on. `Misread` and `MisreadRuns` are about the execs that `System` leaves out, `Orphans` about
  children that are never let go on. `Program` puts all of it together, from the fork to the report.

Results that are false of the code as one would first state them are stated with the exact condition under which
they hold:

- The filter lets fcntl `F_DUPFD` pass, whose value 0 no bit test finds, and nothing else that matters
  (`Bpf.OnlyDupfdIsMissed`). This is harmless exactly if both descriptors are untracked or share their file
  already (`Seccomp.UnseenChangesNothing`); `Seccomp.DupfdMatters` shows a run whose result changes.
- A seek is noticed exactly if bit 31 of its result is clear (`Posix.SeekIsNoticed`). With offset -1, pwritev2
  writes where the file is and moves on, and the tracker takes -1 for a position (`Posix.WriteAtMinusOneIsMisplaced`).
- The growth of a file is exact exactly for the calls `Growth.Faithful` describes. Growing a file that is open
  for appending by anything but `write` leaves the tracked position behind (`Growth.AppendAfterTruncateIsLost`),
  and the mode of fallocate is ignored (`Growth.KeptSizeIsCounted`).
- The tracee starts in step with POSIX exactly if each regular file that it inherits is open for writing, no two
  descriptors share a description, and offsets are where the program takes them to be (`Posix.StartFollows`).
  `1>out 2>&1` is enough to break that.
- Inherited files are never marked for appending, since the flags come from `F_GETFD`. After `cmd >> log`, all
  that the former length of the file covers is missing from the total (`Totals.InheritedAppendIsShort`).
- An open loses a file exactly if its slot holds the last reference to it (`Ownership.OpenKeepsInv`), and the
  final total is short by exactly the sizes of these files (`Totals.TotalIsAllWritten`). The kernel never gives
  out a descriptor that is in use, but the program comes to track one that is not: `F_SETFD` overwrites all
  flags with `FD_CLOEXEC`, which is not the flag it looks at, so that an exec keeps what the kernel closes
  (`Ownership.CloexecByFcntlLoses`).
- When a thread that is not the leader executes a program, its next system-call stop is read correctly exactly
  if what is noted for the leader is true of that thread (`System.PhaseKept`). With the filter on Linux 4.8 or
  later it always is. Without a filter, the loop otherwise gives up with -2 (`Misread.MisreadExecEndsTracing`);
  with the filter before 4.8, `SyscallExit` is called for a call that has not been made yet
  (`Misread.MisreadExecReportsEntry`), and nobody is told when it has (`Misread.ExitIsNotSeen`).
  `MisreadRuns.TracingIsGivenUp` and `MisreadRuns.EntryIsReported` are runs from the start of the program that get
  there.
- After such an exec, a pid stays known that no thread has any more (`Misread.FormerPidStays`). A report of a
  creation makes an assertion fail exactly if it is one of a process whose pid is known (`Misread.SpawnFailsExactly`);
  a thread that is given the pid takes the entry over.
- A tracee can be lost. A child whose creator is killed before the tracer has read the report of the creation, or
  whose creator is a leader that is replaced by an exec at that time, is suspended and never let go on; in every
  run, these are exactly the children to which that happens (`Orphans.OrphansInEveryRun`), and the loop never finds
  that no child is left (`Orphans.OrphanStays`). `Orphans.ChildIsLeft` is a run after which both wait for ever.
- The loop keeps a number for threads that it knows, and for those that took another pid in an exec that is still to
  be reported. If such a thread is killed before it was asked, its former number is kept for ever
  (`Orphans.StaleExactly`).
- System call numbers are kept in an `int`, and -1 and -2 have other meanings there (`Tracer.OddSyscallNumbers`).
- The filter also traces calls that no block of it is meant for, since a failed test of flags leaves the flags in
  the accumulator (`Bpf.FilterAnswers` says which). The comment at src/bpf_program.cpp:63 speaks of a specific
  set of commands, but the code tests bits; the model follows the code.

The model keeps these ways of the code, which no result contradicts: `creat` passes its second argument as flags
(src/context.cpp:337), close-on-exec is a property of the shared state and not of the descriptor
(src/context.cpp:284), `F_SETFD` replaces all flags (src/context.cpp:363-365), and pwritev2 with offset -1 is
enrolled at a position that wraps around (src/types.cpp:60-64).

What is expected of the outside world is in `Invariants.Permitted` (a new thread does not have the pid of a leader
that is known, and a new process no pid that is known; an exec is reported for a leader; only threads whose leader
has not gone finish system calls) and in `System.Enabled` and `System.Answers` (the same of the pids of children, at
the time of the creation, and that it is not one for which the loop still keeps a system call; a child does not end
before it was registered; before an exec, the other threads of the process but the leader have been reported to have
ended, and the phases are kept in the above sense; the end of a leader is reported last; a ptrace request fails only
for a thread that was killed; the result register looks like -ENOSYS at entries). The second list implies the first
(`Program.TurnIsOneEvent`).

Names, flags and lengths that the program reads from `/proc`, `stat` and `fcntl` are parameters, one value for
each moment they are read at, so that all results hold for any behaviour of the file system.

## Model

| member | source | states |
|---|---|---|
| FileState.TFileState.Open | src/types.cpp:7-19 | a file starts with the length it is found to have as its initial size, and at that position exactly if it is opened for appending |
| FileState.TFileState.Copy | src/types.cpp:21-27 | everything is copied but the initial size, which is looked up again |
| Flags.AfterFork | src/context.cpp:84-105 | a child has at each descriptor a copy with the name, the flags and the positions of what its parent has there, and the present length |
| Flags.AfterExec | src/context.cpp:32-54 | after an exec, a descriptor is tracked exactly if it was and is not marked close-on-exec, as such a copy |
| Flags.AfterForkAndExec | src/context.cpp:32-105 | after both, the child has exactly what its parent had not marked |
| Flags.AtStart | src/context.cpp:22-30 | the tracee is the only process, described as what it is, with the names and flags that probing found |
| Flags.AfterOpen | src/context.cpp:334-350 | from the registers of open, openat and creat: the new file at the descriptor has the name found for it, the flags given, the present length, and its position by O_APPEND |
| Flags.AfterOtherOpen | src/context.cpp:232-236 | an open for reading changes nothing |
| Flags.OpenAndClose | src/context.cpp:112-122 | opening and closing a file hands over one entry, of its name and process and of size 0 |
| FileState.TFileState.Enroll | src/types.cpp:53-58 | a write moves the position, with wrap-around, and the maximum follows |
| FileState.TFileState.EnrollNoShift | src/types.cpp:60-64 | a write at a given place leaves the position alone |
| FileState.TFileState.SetCloexecFlag | src/types.cpp:66-72 | the flag is set or cleared, and appending is not affected |
| Flags.AfterDup | src/context.cpp:278-286 | after any duplication both descriptors share the file; it is marked exactly if dup3 asks for it, always after F_DUPFD_CLOEXEC, and else if it was |
| Flags.AfterDupAndExec | src/context.cpp:278-286 | so an exec that follows keeps both exactly if it was not marked |
| Flags.AfterSetFlags | src/context.cpp:363-365 | F_SETFL and F_SETFD leave exactly the flags given |
| Words.WithCloexec | src/types.cpp:66-72 | the bit operation on the word of flags changes that bit and not the one for appending |
| Storage.Top | src/storage.h:9-13 | the top of the heap is an entry of the smallest size; which one among equals is left open |
| Storage.TFileStorage.AddFileEntry | src/storage.cpp:4-22 | after any additions the queue holds the largest entries that count, as many as fit, and the total covers those refused and evicted too |
| Storage.ConsistentKeeps | src/storage.cpp:4-22 | a store keeps no file without output unless asked for, all files if it has no bound, none if it is off, and else the largest |
| Storage.TFileStorage.GetLargestFiles | src/storage.cpp:24-33 | the report is a permutation of the queue in non-increasing order, and the queue stays as it is |
| Storage.RunningTotalIsTotal | src/storage.cpp:4-22 | the total is the sum of all sizes handed in, modulo 2^64, or 0 for a store of capacity 0 |
| Storage.CountedIgnoresOrder | src/storage.cpp:4-22 | which entries count does not depend on the order of the additions |
| Storage.NotSmallerAt | src/storage.cpp:24-33 | of two queues of the largest entries, whatever ties were broken how, neither has a smaller size at any place of its report |
| Storage.ReportIsDetermined | src/storage.cpp:4-33 | two stores handed the same entries in any order report the same total and the same sizes |
| World.CopiedLength | src/context.cpp:69-82 | the cut is after the last slot that is copied, so that nothing beyond it is lost |
| World.TearDownFrom | src/context.cpp:129-133 | tearing a table down empties all its slots and changes no other table, no file and no leader |
| World.Resized | src/context.cpp:216-218 | growing a table changes no lookup, however far beyond its end |
| Invariants.TearDownKeepsBooks | src/context.cpp:112-122 | clearing a slot hands its file over exactly if it was the last reference, with the right record, and never twice |
| Invariants.OpenKeepsBooks | src/context.cpp:213-230 | an open keeps the books, and loses a file exactly if its slot held the last reference to it |
| Invariants.DupKeepsBooks | src/context.cpp:255-276 | a duplication closes its target first and then shares, so that nothing is lost or handed over twice |
| Invariants.VanishKeepsInv | src/context.cpp:124-139 | the end of a leader or of another thread keeps all of the invariant |
| Invariants.ProcessKeepsInv | src/context.cpp:84-105 | so does a new process |
| Invariants.ThreadKeepsInv | src/context.cpp:107-110 | so does a new thread, which shares the table, also under a pid that an earlier thread left behind |
| Invariants.ExecKeepsInv | src/context.cpp:32-54 | so does an exec by a leader: copies first, then the old table is torn down |
| Invariants.StepKeepsInv | src/context.cpp:312-405 | so does every event that is permitted |
| Invariants.StartHasInv | src/context.cpp:160-186 | the invariant holds once the tracee is registered with the descriptors it inherits |
| Invariants.InvInEveryRun | src/context.cpp:22-139 | the invariant holds in every state of every run |
| Ownership.UseCountIsLocal | src/context.cpp:116 | the reference count over all tables is the number of slots in the one table that the file was made for |
| Ownership.LastReference | src/context.cpp:112-122 | a file is handed over exactly if its reference count, over all tables, is 1 |
| Ownership.OwnershipInEveryRun | src/context.cpp:84-139 | in every run: no file is shared between tables, every table with a file has exactly one leader, and counts are local |
| Ownership.OpenKeepsInv | src/context.cpp:229 | an open keeps the invariant exactly if the process has a leader, and loses nothing exactly if it finds no last reference in its slot |
| Ownership.NothingToSpare | src/context.cpp:42-47 | after an exec, an open into any slot that is still tracked would lose its file |
| Ownership.CloexecByFcntlLoses | src/context.cpp:363-365 | F_SETFD with FD_CLOEXEC, an exec, and an open that is given the same descriptor: the file is never reported |
| Ownership.NewSlotAt | src/context.cpp:42-47 | at every index without bound, a new table has a fresh copy exactly where there was something to copy |
| Ownership.NewSlotsDiffer | src/context.cpp:42-47 | two slots of a new table never share a file |
| Ownership.ForkCopies | src/context.cpp:84-105 | a child sees a copy exactly where its parent has a file, and the copy shows no output if the file has grown that far |
| Ownership.ExecCopies | src/context.cpp:32-54 | after an exec the same holds for files not marked close-on-exec, and the old table is empty |
| Ledger.LedgerBalances | src/context.cpp:112-122 | what was handed over, what is outstanding and what opens have overwritten are, as multisets, the records of all files ever tracked |
| Ledger.LedgerInBytes | src/context.cpp:112-122 | the same in bytes |
| Ledger.LedgerStep | src/context.cpp:112-302 | closes, duplications and ends move bytes between the two sides, a write adds the growth of its one file, an open adds nothing and takes away what it overwrites, and a copy adds what it shows |
| Ledger.LossStep | src/context.cpp:229 | what is missing grows exactly by the file that an open overwrites, and never by anything else |
| Ledger.Settles | src/context.cpp:112-122 | the record of a file that nothing refers to never changes |
| Ledger.DrainHandsOverEverything | src/context.cpp:485-488 | draining the processes in any order hands over exactly what was outstanding, that is, every file that was not overwritten |
| Ledger.FinalTotal | src/context.cpp:485-488 | the final total is what all files but the overwritten ones have grown by together, modulo 2^64 |
| Ledger.OrderDoesNotMatter | src/context.cpp:485-488 | any two orders of draining, with any two heaps, give the same total and the same reported sizes |
| Totals.SequentialStep | src/context.cpp:321-326 | with files written only at their end, each event adds exactly the bytes it wrote to tracked descriptors |
| Totals.ProducedInRun | src/context.cpp:32-105 | so does every run, with forks, threads, execs, duplications, closes and ends in any order |
| Totals.LostInRun | src/context.cpp:229 | in every run, what is missing is the sum of the sizes that files had when they were overwritten |
| Totals.TotalIsAllWritten | src/context.cpp:475-488 | in such runs the total reported is the sum of what the writes returned, less the sizes of overwritten files |
| Totals.NothingProducedAtStart | src/context.cpp:160-186 | inherited files show no output, and are at their end exactly if they are empty or marked for appending |
| Totals.NothingAtStart | src/context.cpp:22-30 | at the start, nothing has been produced, is due or is lost |
| Totals.InheritedAppendIsShort | src/context.cpp:178-182 | for any writes to an inherited file, exactly what its former length covers is missing; nothing is exactly if the file was empty or nothing was written |
| Totals.TenBytesAreMissed | src/context.cpp:178-182 | ten bytes appended to an inherited log of a thousand count as none |
| Context.TContext.TearDownFd | src/context.cpp:112-122 | deciding by the count of the shared object, hands over exactly what the model hands over |
| Context.TContext.OpClose | src/context.cpp:238-249 | closes the slot, if it refers to something, and changes nothing else |
| Context.TContext.OpOpenWriteFile | src/context.cpp:213-230 | puts a new file into the slot; the object that was there has one reference less |
| Context.TContext.OpOpenFile | src/context.cpp:232-236 | does so exactly for flags that allow writing |
| Context.TContext.OpDup2 | src/context.cpp:255-276 | closes the target, shares the object, and returns true exactly if it shared |
| Context.TContext.OpDup3 | src/context.cpp:278-286 | sets or clears close-on-exec on the shared object exactly if the duplication took place |
| Context.TContext.OpChange | src/context.cpp:288-310 | changes the one object that the slot refers to, which all its aliases see |
| Context.TContext.SyscallExit | src/context.cpp:312-405 | each finished call has the effect that its number and registers stand for, on the objects |
| Context.TContext.GetHighestFd | src/context.cpp:69-82 | the loop from the end finds the last slot that is copied, or -1 |
| Context.TContext.RegisterTracee | src/context.cpp:22-30 | the tracee starts with the files that probing finds, in the slots where it finds them |
| Context.TContext.RegisterThread | src/context.cpp:107-110 | a thread shares the table object of the thread that created it |
| Context.TContext.RegisterProcess | src/context.cpp:84-105 | a child gets a table of its own with copies |
| Context.TContext.VanishProcess | src/context.cpp:124-139 | the table of a leader is torn down slot by slot, and the process is forgotten |
| Context.TContext.RegisterExec | src/context.cpp:32-54 | copies, tears the old table down, and registers the new one for the same pid |
| Context.TContext.PostProcess | src/context.cpp:485-494 | drains the map in some order that lists every process once, and reports what a store is to keep of what was handed over |
| Posix.CallFollows | src/context.cpp:197-302 | every call, also one on pipes or sockets, keeps the table in step with POSIX descriptors and open file descriptions |
| Posix.CreateFollows | src/context.cpp:312-404 | what is created untracked stays untracked |
| Posix.SessionFollows | src/context.cpp:312-405 | after any calls, a slot is taken exactly if its descriptor descends from an open for writing, slots share a state exactly if the descriptors share a description, and the position is the offset where nothing unseen moved it |
| Posix.StartSlots | src/context.cpp:177-184 | each inherited regular file gets a slot and a state of its own, also those that share a description |
| Posix.StartFollows | src/context.cpp:160-186 | the tracee starts in step with POSIX exactly if its inherited files are plain |
| Posix.EmptyTableFollows | src/context.cpp:160-186 | without inherited regular files it is in step exactly if nothing is open for writing |
| Posix.SessionFromStart | src/context.cpp:22-30 | from such a start, the relation holds after any calls |
| Posix.SeekIsNoticed | src/context.cpp:398-402 | a seek is noticed exactly if bit 31 of its result is clear, or it leads nowhere else |
| Posix.SeekToTwoGibIsLost | src/context.cpp:399 | a seek to 2 GiB is not |
| Posix.WriteAtMinusOneIsMisplaced | src/context.cpp:327-333 | pwritev2 with offset -1 leaves the tracked position behind and is enrolled one byte short of its length |
| Posix.FailedChangesNothing | src/context.cpp:321-402 | a call that fails changes nothing, but a close closes |
| Posix.OthersChangeNothing | src/context.cpp:320-404 | nor does any call without a case of its own |
| Growth.AgreesExactlyWhenFaithful | src/types.cpp:41-64 | the tracked sizes go on giving the length of the file exactly if the call is one of the faithful ones; fallocate has any mode |
| Growth.AgreesWhenOpened | src/types.cpp:7-19 | they give it when a file is opened, and no output is shown |
| Growth.MaxPosNeverDecreases | src/types.cpp:53-64 | no call makes the maximum smaller |
| Growth.OutputIsGrowth | src/types.cpp:41-47 | while they agree, the output shown is the growth of the file since it was opened or copied |
| Growth.AppendAfterTruncateIsLost | src/context.cpp:393-397 | appending after growing a file by ftruncate shows 100 bytes of 110 |
| Growth.KeptSizeIsCounted | src/context.cpp:387-392 | fallocate with FALLOC_FL_KEEP_SIZE shows growth that there is not |
| Chains.LoggedForEver | src/context.cpp:116-119 | what was handed over stays so, with the same size, whatever happens later |
| Chains.ImageHandsOver | src/context.cpp:32-54 | an exec hands over each file of the process, and its descriptor refers to a copy with the initial size looked up again |
| Chains.ElsewhereKeeps | src/context.cpp:84-302 | whatever happens to other processes, other descriptors and other files changes neither the slot nor the file |
| Chains.ChainTelescopes | src/context.cpp:32-54 | in any run, what the execs handed over of a file and what its descriptor still shows add up to its growth |
| Chains.ChainEnds | src/context.cpp:112-139 | after the last close or the end of the process, the parts handed over, each once, make up the growth |
| Provenance.NamesDescend | src/types.cpp:7-27 | in every run, a file has the name found at the open or probing from which it descends through forks and execs |
| Provenance.EveryFileDescends | src/context.cpp:32-105 | every file descends from one |
| Provenance.EntriesAreNamed | src/context.cpp:112-122 | so every entry handed over carries that name |
| Provenance.LeadersAreDescribed | src/context.cpp:56-67 | in every run, each process has the description of its creation or of its last exec, and the thread that created it as its parent |
| Provenance.EntriesAreDescribed | src/context.cpp:112-139 | every entry carries the description, at that time, of the process that handed it over |
| Provenance.DrainIsRun | src/context.cpp:485-488 | the final drain is a run in which processes vanish, so that the same holds of what it hands over |
| Provenance.DrainedEntries | src/context.cpp:485-488 | all entries of the final log are named and described so |
| Bpf.CheckedProgramsReturn | src/bpf_program.cpp:38-94 | a program whose jumps stay inside and that cannot run off its end returns one of its own answers |
| Bpf.BuildFilter | src/bpf_program.cpp:89-98 | the loop builds the program for any list of numbers; its length survives the cut to 16 bits exactly for up to 32758 of them |
| Bpf.FilterIsChecked | src/bpf_program.cpp:38-94 | all jumps of that program stay inside |
| Bpf.FilterAnswers | src/bpf_program.cpp:38-94 | for any list, the answer is TRACE exactly for the calls that are meant and for the stray ones that are described |
| Bpf.FilterActs | src/bpf_program.cpp:25-26 | on the values returned, Linux stops the thread exactly for these calls and allows all others |
| Bpf.MeantByNumber | src/bpf_program.cpp:38-87 | which calls are meant, by their numbers and the bits of their arguments |
| Bpf.OnlyDupfdIsMissed | src/bpf_program.cpp:64 | a call that would have an effect passes untraced exactly if it is a successful F_DUPFD |
| Bpf.ForksAndExecsAreNotTraced | src/bpf_program.cpp:71-87 | calls that create threads and processes or execute programs are not traced |
| Seccomp.UnseenChangesNothing | src/context.cpp:312-405 | a call that the filter hides would have changed nothing exactly if it is no F_DUPFD, or one whose two slots are the same |
| Seccomp.FilteredRunAgrees | src/bpf_program.cpp:38-94 | a run whose F_DUPFD calls are harmless in this sense ends in the same state if only what the filter shows is told |
| Seccomp.DupfdMatters | src/bpf_program.cpp:64 | with F_DUPFD and a close, it does not |
| Seccomp.DupChangesNothing | src/context.cpp:255-276 | a duplication changes nothing exactly if both slots are null or refer to the same file |
| Tracer.EachStopIsAnswered | src/optrace.cpp:196-299 | each reported stop of a known thread is answered by a request that lets it go on, and that of an unknown one suspends it |
| Tracer.SignalsPassedOn | src/optrace.cpp:156-166 | a stopped thread is given its signal, or none after a system call, or SIGTRAP after an event |
| Tracer.OddSyscallNumbers | src/syscall.cpp:19-30 | at an entry the loop gives up exactly for number -2, and forgets the call exactly for number -1 |
| RunTracer.TTracer.VanishThread | src/optrace.cpp:122-133 | the thread is forgotten, the context is told exactly if asked to, and the thread is told to go on one last time |
| RunTracer.TTracer.Ends | src/optrace.cpp:180-194 | what the end of a thread leads to, and when the loop is left with which code |
| RunTracer.TTracer.Release | src/optrace.cpp:229-239 | a suspended child goes on without its signal; one that has not stopped yet is only noted |
| RunTracer.TTracer.Execed | src/optrace.cpp:240-245 | the context is told, and a former pid is dropped |
| RunTracer.TTracer.SyscallStopped | src/optrace.cpp:260-299 | entries and exits alternate by what is noted, and `SyscallExit` is called for exits only |
| RunTracer.TTracer.EventStopped | src/optrace.cpp:203-258 | each kind of event has the effect on the maps and the context that the specification gives it |
| RunTracer.TTracer.Run | src/optrace.cpp:135-302 | the loop ends in the state and with the code that replaying all reports gives |
| System.StopsKeepsGood | src/optrace.cpp:135-165 | a thread may stop at any moment without upsetting the invariant of kernel and tracer |
| System.SpawnsKeepsGood | src/optrace.cpp:196-201 | a thread may create another, under any pid that is free for it, whose first stop can be reported before the event |
| System.ExecsKeepsGood | src/optrace.cpp:240-245 | a thread may take the place of its leader, if the phases are kept |
| System.DiesKeepsGood | src/optrace.cpp:203-209 | a thread may be killed at any moment, also while it is stopped |
| System.EntryKeepsGood | src/optrace.cpp:271-277 | every entry is taken for an entry, and the context is told nothing |
| System.ExitKeepsGood | src/optrace.cpp:284-287 | every exit is taken for an exit, and the call of `SyscallExit` is one that the context permits |
| System.EndKeepsGood | src/optrace.cpp:180-194 | the end of any thread keeps the invariant, and no assertion fails |
| System.ExecKeepsGood | src/optrace.cpp:240-245 | so does an exec, also one by a thread that is not the leader |
| System.SpawnKeepsGood | src/optrace.cpp:211-239 | so does a creation, in either order of the reports |
| System.ActionKeepsGood | src/optrace.cpp:101-302 | so does everything that kernel or tracer can do |
| System.GoodInEveryRun | src/optrace.cpp:101-302 | in every run no assertion fails, -2 is not returned, and `SyscallExit` was called for exactly the exits shown, in order |
| System.GoodMeans | src/optrace.cpp:117-133 | of all threads whose stop was reported, exactly the suspended ones have not been told to go on (whether they will be, Orphans says); the maps are consistent; whoever is noted as inside a system call is |
| Misread.PhaseKeptAnyway | src/optrace.cpp:246-257 | an exec by the leader keeps the phases, and so does any exec with the filter on Linux 4.8 and later |
| Misread.OthersKeep | src/optrace.cpp:135-300 | nothing that other threads do, or that is reported of them, changes what is noted for the thread |
| Misread.StageReached | src/optrace.cpp:135-300 | so the thread comes from stop to stop as if they did nothing |
| Misread.MisreadExecEndsTracing | src/optrace.cpp:271-276 | without the filter, after an exec by any thread in any state and whatever other threads do, the loop gives up with -2 at the exit exactly if the phases are not kept, and passes it on exactly if they are |
| Misread.MisreadExecReportsEntry | src/optrace.cpp:284-297 | with the filter before Linux 4.8, the next entry of the thread is reported as an exit, and the thread let go on without a stop at the exit, exactly if they are not kept; it is noted exactly if they are |
| Misread.ExitIsNotSeen | src/optrace.cpp:290-297 | the exit of that call is shown to nobody, whatever else happens, and then what is noted fits again |
| MisreadRuns.ExecGoesOn | src/optrace.cpp:240-245 | after any such exec without the filter, these stops can occur |
| MisreadRuns.ExecGoesOnFiltered | src/optrace.cpp:246-252 | so they can with the filter |
| MisreadRuns.TracingIsGivenUp | src/optrace.cpp:271-276 | a run from the start of the program, an exec by a second thread while the leader computes, and -2 |
| MisreadRuns.EntryIsReported | src/optrace.cpp:284-287 | a run with the filter, an exec by a second thread while the leader writes, and a call of `SyscallExit` without an exit |
| Misread.FormerPidStays | src/optrace.cpp:242-245 | after an exec by another thread its pid stays in the process map; of the children that may be given it, exactly a process makes an assertion fail |
| Misread.SpawnFailsExactly | src/context.cpp:84-110 | a report of a creation makes an assertion fail exactly if it is a process whose pid is known |
| Orphans.OrphanedExactly | src/optrace.cpp:203-239 | an announced child becomes an orphan exactly if its creator is killed or replaced before the report is read; else it is announced on, or known |
| Orphans.OrphanStays | src/optrace.cpp:196-201 | an orphan stays one, is never let go on once it is suspended, and keeps the loop from ending for lack of children |
| Orphans.OrphansInEveryRun | src/optrace.cpp:196-239 | in every run, a child that is not known is an orphan exactly if its creator was silenced at some time; else its creator announces it |
| Orphans.ChildIsLeft | src/optrace.cpp:204-209 | a run from the start in which the tracee forks and is killed: nothing can happen any more, and the loop waits |
| Orphans.StaleExactly | src/optrace.cpp:117-133 | a number is kept for a pid that no thread has exactly if the thread that left it was killed before its exec was learned of |
| System.SpawnOrdersAgree | src/optrace.cpp:196-239 | the two orders of a creation and the first stop of the child end in the same state of all threads and of the tracer; only the signal differs |
| Program.TraceProgram | src/optrace.cpp:304-348 | from the start to the report: the code returned and the report are those of the replayed run, drained in some order |
| Program.BehaviourIsReplayed | src/optrace.cpp:135-302 | every run of threads and tracer that ends is one that the program replays |
| Program.TurnIsOneEvent | src/optrace.cpp:135-300 | each turn of the loop is at most one event for the context, one that is permitted |
| Program.BehaviourIsTrace | src/optrace.cpp:101-302 | so every run of the whole system is a run of the context, and all its results apply |
| Program.ExitsAreTold | src/optrace.cpp:284-287 | the context is told of exactly the exits that the kernel showed, in that order |
| Program.CodeReturned | src/optrace.cpp:135-194 | a run that ends returns the code of the first report that the tracee has ended, and 137 without one; it ends with that report, or, if daemons are waited for, when there is no child |
| Program.FilteringChangesNothing | src/bpf_program.cpp:38-94 | two runs of the whole system, one traced in full and one told only what the filter shows of the same, leave the context in the same state if every F_DUPFD is harmless |
| Program.FilteringChangesNoReport | src/bpf_program.cpp:38-94 | then, with any orders of draining and any heaps, both report the same total and the same sizes |
| Program.EveryRunIsReported | src/optrace.cpp:304-348 | every run that ends is reported with a code that is not negative and a total that is the growth of all files less the overwritten ones, or the bytes written less these if all writing was sequential |

## Left out

- Core dumps: finding them and registering them (src/cores.cpp, src/context.cpp:141-158); they would add arbitrary entries to the store.
- The text of the report, sizes for human readers, and options (src/context.cpp:407-483, src/main.cpp, src/utils.cpp): formatting.
- Probing of `/proc` and of the tracer's own descriptors (src/context.cpp:160-186): its results are the parameter `probed`.
- Signal forwarding, the interruption target, jailing, and the set-up before the loop (src/optrace.cpp:25-99, src/context.cpp:225-227): calls into the kernel without effect on the books.
- The tables of names of system calls and events (src/syscall.cpp:32-376, src/ptrace.cpp): nothing to prove.
- aarch64 (src/optrace.cpp:278-283): only the x86-64 variant is modelled.
- Flags of clone3, which the code reads as if they were those of clone (src/syscall.cpp:10-11): the model gives the tracer the true flags.
- Standard containers: maps, sets and vectors are values in fields, and shared pointers are references with an explicit count.
- The variables of `RunTracer`, which are locals in the code, are fields of class `TTracer`; interrupted calls of `wait3` and the exits of the program on unexpected statuses are not modelled.
- World.Step: errors such as an allocation that fails are not modelled.
- System.Enabled: without the stated conditions on the kernel, assertions of the code can fail; they are assumptions, not results.
- Posix.SessionFollows: the third access mode of Linux, which allows neither reading nor writing but counts as both flags, is excluded; the offset is claimed where only writes without O_APPEND and noticed seeks moved it; calls that the program does not follow and that move offsets or change descriptors, such as sendfile, splice, close_range, openat2 and recvmsg, are excluded (`Posix.UNFOLLOWED`).
- Totals.TotalIsAllWritten: covers `write` and `writev` only, since positioned writes are not sequential; a resize or seek of a tracked file is outside its hypothesis.
- Program.FilteringChangesNoReport: that the kernel shows the same calls but for those the filter lets pass is a hypothesis about the two runs.
- Chains.ChainTelescopes: the file may be written and resized through one descriptor only, and nobody else may change it; what other descriptors add is in the ledger, but not separated by file.
- Close-on-exec as POSIX has it, shrinking of files and offsets moved by reads are not tracked by the program, and appear only as conditions.
