/** The bounded result store (src/storage.h, src/storage.cpp). */
module Storage {
  import opened Words

  /** `TProcInfo`: who wrote a file. */
  datatype ProcInfo = ProcInfo(pid: int, ppid: int, commandName: string, commandLine: string)

  /** `TOutputFile`: one line of the report. */
  datatype OutputFile = OutputFile(size: u64, filename: string, pinfo: ProcInfo)

  /** Whether a store counts an entry at all. */
  predicate Counts(capacity: int, storeEmpty: bool, file: OutputFile) {
    capacity != 0 && (storeEmpty || file.size != 0)
  }

  /** The entries among `handed` that are counted. */
  ghost function Counted(handed: seq<OutputFile>, capacity: int, storeEmpty: bool): multiset<OutputFile> {
    if handed == [] then multiset{}
    else
      var last := handed[|handed| - 1];
      var before := Counted(handed[..|handed| - 1], capacity, storeEmpty);
      if Counts(capacity, storeEmpty, last) then before + multiset{last} else before
  }

  /** Their sizes, added up in a machine word. */
  ghost function RunningTotal(handed: seq<OutputFile>, capacity: int, storeEmpty: bool): u64 {
    if handed == [] then 0
    else
      var last := handed[|handed| - 1];
      var before := RunningTotal(handed[..|handed| - 1], capacity, storeEmpty);
      if Counts(capacity, storeEmpty, last) then Plus(before, last.size) else before
  }

  ghost function Total(files: multiset<OutputFile>): nat {
    if files == multiset{} then 0
    else
      var file :| file in files;
      file.size + Total(files - multiset{file})
  }

  /**
   * `queue` holds everything in `files`, or as much of it as the capacity allows (a negative one allows
   * all), and nothing that was left out is larger than anything that was kept.
   */
  ghost predicate Largest(queue: multiset<OutputFile>, files: multiset<OutputFile>, capacity: int) {
    && (queue == files || |queue| == capacity)
    && (capacity < 0 || |queue| <= capacity)
    && (forall file :: queue[file] <= files[file])
    && forall out, kept :: queue[out] < files[out] && kept in queue ==> out.size <= kept.size
  }

  ghost predicate Smallest(file: OutputFile, queue: multiset<OutputFile>) {
    file in queue && forall other :: other in queue ==> file.size <= other.size
  }

  ghost predicate NonIncreasing(files: seq<OutputFile>) {
    forall i, j :: 0 <= i < j < |files| ==> files[i].size >= files[j].size
  }

  /** `done` is sorted, and everything in `temp` can go before it. */
  ghost predicate Before(temp: multiset<OutputFile>, done: seq<OutputFile>) {
    NonIncreasing(done) && forall file :: file in temp && done != [] ==> file.size >= done[0].size
  }

  /** What a store that was handed `handed` holds. */
  ghost predicate Consistent(outputSize: u64, queue: multiset<OutputFile>, handed: seq<OutputFile>, capacity: int,
                             storeEmpty: bool)
  {
    && outputSize == RunningTotal(handed, capacity, storeEmpty)
    && Largest(queue, Counted(handed, capacity, storeEmpty), capacity)
  }

  /**
   * What a user is told of the two options: 0 turns the store off, a negative capacity is none, and files
   * without output are kept only if they are asked for. If there is not room for all, the largest are kept.
   */
  ghost predicate Keeps(queue: multiset<OutputFile>, handed: seq<OutputFile>, capacity: int, storeEmpty: bool) {
    && (forall file :: file in queue ==> file in handed && (file.size > 0 || storeEmpty))
    && (forall file :: queue[file] <= multiset(handed)[file])
    && (capacity == 0 ==> queue == multiset{})
    && (capacity < 0 ==> forall file: OutputFile :: file.size > 0 ==> queue[file] == multiset(handed)[file])
    && (capacity < 0 && storeEmpty ==> queue == multiset(handed))
    && (capacity > 0 ==> |queue| <= capacity)
    && (capacity > 0 ==> forall file: OutputFile :: (file.size > 0 || storeEmpty) && queue[file] < multiset(handed)[file] ==>
          |queue| == capacity && forall kept :: kept in queue ==> kept.size >= file.size)
  }

  /** `std::priority_queue::top`: an entry of the smallest size. Among equals it may be any of them. */
  method Top(queue: multiset<OutputFile>) returns (top: OutputFile)
    requires queue != multiset{}
    ensures Smallest(top, queue)
  {
    SomeSmallest(queue);
    top :| top in queue && forall other :: other in queue ==> top.size <= other.size;
  }

  class TFileStorage {
    const Capacity: int
    const StoreEmptyFiles: bool
    var OutputSize: u64
    var Queue: multiset<OutputFile>
    /** Every entry ever handed in, in order. */
    ghost var Handed: seq<OutputFile>

    ghost predicate Valid()
      reads this
    {
      Consistent(OutputSize, Queue, Handed, Capacity, StoreEmptyFiles)
    }

    constructor (capacity: int, storeEmptyFiles: bool)
      ensures Valid() && Handed == []
      ensures Capacity == capacity && StoreEmptyFiles == storeEmptyFiles
    {
      Capacity, StoreEmptyFiles, OutputSize, Queue, Handed := capacity, storeEmptyFiles, 0, multiset{}, [];
    }

    method AddFileEntry(file: OutputFile)
      requires Valid()
      modifies this
      ensures Valid()
      ensures Handed == old(Handed) + [file]
    {
      ghost var before := Handed;
      Handed := Handed + [file];
      HandedOneMore(before, Capacity, StoreEmptyFiles, file);
      if Capacity == 0 {
        return;
      }
      var size := file.size;
      if !StoreEmptyFiles && size == 0 {
        return;
      }
      ghost var counted := Counted(before, Capacity, StoreEmptyFiles);
      var queue := Queue;
      if Capacity < 0 || |queue| < Capacity {
        Pushed(queue, counted, Capacity, file);
        queue := queue + multiset{file};
      } else {
        var top := Top(queue);
        if top.size < size {
          Evicted(queue, counted, Capacity, file, top);
          queue := queue - multiset{top};
          queue := queue + multiset{file};
        } else {
          Refused(queue, counted, Capacity, file, top);
        }
      }
      Queue, OutputSize := queue, Plus(OutputSize, size);
    }

    method GetLargestFiles() returns (res: seq<OutputFile>)
      ensures multiset(res) == Queue
      ensures NonIncreasing(res)
    {
      var temp := Queue;
      var slots := new OutputFile[|Queue|];
      ghost var done: seq<OutputFile> := [];
      while temp != multiset{}
        invariant |temp| + |done| == slots.Length
        invariant slots[|temp|..] == done
        invariant temp + multiset(done) == Queue
        invariant Before(temp, done)
      {
        var top := Top(temp);
        slots[|temp| - 1] := top;
        assert slots[|temp| - 1..] == [top] + done;
        MovedToFront(temp, top, done);
        done := [top] + done;
        temp := temp - multiset{top};
      }
      assert slots[..] == slots[0..];
      res := slots[..];
    }
  }

  lemma MovedToFront(temp: multiset<OutputFile>, top: OutputFile, done: seq<OutputFile>)
    requires Smallest(top, temp) && Before(temp, done)
    ensures temp - multiset{top} + multiset([top] + done) == temp + multiset(done)
    ensures Before(temp - multiset{top}, [top] + done)
  {
    assert multiset([top] + done) == multiset{top} + multiset(done);
  }

  // ---------- what adding one entry does to the queue ----------

  lemma Pushed(queue: multiset<OutputFile>, files: multiset<OutputFile>, capacity: int, file: OutputFile)
    requires Largest(queue, files, capacity)
    requires capacity < 0 || |queue| < capacity
    ensures Largest(queue + multiset{file}, files + multiset{file}, capacity)
  {}

  lemma Evicted(queue: multiset<OutputFile>, files: multiset<OutputFile>, capacity: int, file: OutputFile, top: OutputFile)
    requires Largest(queue, files, capacity) && |queue| == capacity
    requires Smallest(top, queue) && top.size < file.size
    ensures Largest(queue - multiset{top} + multiset{file}, files + multiset{file}, capacity)
  {}

  lemma Refused(queue: multiset<OutputFile>, files: multiset<OutputFile>, capacity: int, file: OutputFile, top: OutputFile)
    requires Largest(queue, files, capacity) && |queue| == capacity
    requires Smallest(top, queue) && file.size <= top.size
    ensures Largest(queue, files + multiset{file}, capacity)
  {}

  lemma HandedOneMore(handed: seq<OutputFile>, capacity: int, storeEmpty: bool, file: OutputFile)
    ensures var before := Counted(handed, capacity, storeEmpty);
            Counted(handed + [file], capacity, storeEmpty) ==
            if Counts(capacity, storeEmpty, file) then before + multiset{file} else before
    ensures var before := RunningTotal(handed, capacity, storeEmpty);
            RunningTotal(handed + [file], capacity, storeEmpty) ==
            if Counts(capacity, storeEmpty, file) then Plus(before, file.size) else before
  {
    assert (handed + [file])[..|handed|] == handed;
  }

  lemma {:induction false} SomeSmallest(queue: multiset<OutputFile>)
    requires queue != multiset{}
    ensures exists file :: Smallest(file, queue)
  {
    var file :| file in queue;
    var rest := queue - multiset{file};
    if rest == multiset{} {
      assert queue == multiset{file};
      assert Smallest(file, queue);
    } else {
      SomeSmallest(rest);
      assert queue == rest + multiset{file};
      var least :| Smallest(least, rest);
      assert Smallest(if file.size <= least.size then file else least, queue);
    }
  }

  // ---------- totals ----------

  lemma {:induction false} TotalPlusOne(files: multiset<OutputFile>, file: OutputFile)
    ensures Total(files + multiset{file}) == Total(files) + file.size
    decreases |files|
  {
    var all := files + multiset{file};
    var first :| first in all && Total(all) == first.size + Total(all - multiset{first});
    if first == file {
      assert all - multiset{first} == files;
    } else {
      var rest := files - multiset{first};
      assert all - multiset{first} == rest + multiset{file};
      assert files == rest + multiset{first};
      TotalPlusOne(rest, file);
      TotalPlusOne(rest, first);
    }
  }

  lemma TotalSnoc(front: seq<OutputFile>, last: OutputFile)
    ensures Total(multiset(front + [last])) == Total(multiset(front)) + last.size
  {
    assert multiset(front + [last]) == multiset(front) + multiset{last};
    TotalPlusOne(multiset(front), last);
  }

  /** The total covers every entry but those of size zero, whether it was kept, evicted or refused. */
  lemma {:induction false} RunningTotalIsTotal(handed: seq<OutputFile>, capacity: int, storeEmpty: bool)
    ensures RunningTotal(handed, capacity, storeEmpty) == if capacity == 0 then 0 else Wrap(Total(multiset(handed)))
  {
    if handed == [] {
      assert multiset(handed) == multiset{};
    } else {
      var front, last := handed[..|handed| - 1], handed[|handed| - 1];
      var n := Total(multiset(front));
      assert RunningTotal(front, capacity, storeEmpty) == (if capacity == 0 then 0 else Wrap(n)) by {
        RunningTotalIsTotal(front, capacity, storeEmpty);
      }
      assert Total(multiset(handed)) == n + last.size by {
        assert handed == front + [last];
        TotalSnoc(front, last);
      }
      if capacity != 0 { OneMoreCounted(n, last, capacity, storeEmpty); }
    }
  }

  lemma OneMoreCounted(n: nat, file: OutputFile, capacity: int, storeEmpty: bool)
    requires capacity != 0
    ensures Wrap(n + file.size) == if Counts(capacity, storeEmpty, file) then Plus(Wrap(n), file.size) else Wrap(n)
  {
    PlusIsWrap(n, file.size);
  }

  // ---------- the report does not depend on ties or on the order of the entries ----------

  lemma {:induction false} CountedOccurrences(handed: seq<OutputFile>, capacity: int, storeEmpty: bool, file: OutputFile)
    ensures Counted(handed, capacity, storeEmpty)[file] ==
            if Counts(capacity, storeEmpty, file) then multiset(handed)[file] else 0
  {
    if handed != [] {
      var front := handed[..|handed| - 1];
      assert handed == front + [handed[|front|]];
      CountedOccurrences(front, capacity, storeEmpty, file);
    }
  }

  /** A consistent store keeps what it should. */
  lemma ConsistentKeeps(outputSize: u64, queue: multiset<OutputFile>, handed: seq<OutputFile>, capacity: int, storeEmpty: bool)
    requires Consistent(outputSize, queue, handed, capacity, storeEmpty)
    ensures Keeps(queue, handed, capacity, storeEmpty)
  {
    var counted := Counted(handed, capacity, storeEmpty);
    forall file ensures counted[file] == if Counts(capacity, storeEmpty, file) then multiset(handed)[file] else 0 {
      CountedOccurrences(handed, capacity, storeEmpty, file);
    }
    if capacity == 0 { assert counted == multiset{}; }
    if storeEmpty && capacity != 0 { assert counted == multiset(handed); }
    forall file | file in queue ensures file in handed && (file.size > 0 || storeEmpty) {
      assert counted[file] > 0;
    }
  }

  lemma CountedIgnoresOrder(handed: seq<OutputFile>, handed': seq<OutputFile>, capacity: int, storeEmpty: bool)
    requires multiset(handed) == multiset(handed')
    ensures Counted(handed, capacity, storeEmpty) == Counted(handed', capacity, storeEmpty)
  {
    forall file
      ensures Counted(handed, capacity, storeEmpty)[file] == Counted(handed', capacity, storeEmpty)[file]
    {
      CountedOccurrences(handed, capacity, storeEmpty, file);
      CountedOccurrences(handed', capacity, storeEmpty, file);
    }
  }

  /** A sorted list that has an entry of some size at place `i` has more than `i` entries of that size or more. */
  lemma NoneAfter(report: seq<OutputFile>, i: nat, file: OutputFile)
    requires NonIncreasing(report) && i < |report| && report[i].size < file.size
    ensures multiset(report)[file] == multiset(report[..i])[file]
  {
    var front, back := report[..i], report[i..];
    assert report == front + back;
    assert file !in back;
  }

  lemma PrefixCount(report: seq<OutputFile>, n: nat, file: OutputFile)
    requires n <= |report|
    ensures multiset(report[..n])[file] <= multiset(report)[file]
  {
    assert report == report[..n] + report[n..];
  }

  /** What is larger than something kept was itself kept, as often as possible. */
  lemma LargerIsKept(files: multiset<OutputFile>, capacity: int, queue: multiset<OutputFile>, queue': multiset<OutputFile>,
                     file: OutputFile, small: OutputFile)
    requires Largest(queue, files, capacity) && Largest(queue', files, capacity)
    requires small in queue' && small.size < file.size
    ensures queue[file] <= queue'[file]
  {}

  /** A sorted list cannot be smaller at a place than another, and hold all larger entries at least as often. */
  lemma NoRoomInFront(report: seq<OutputFile>, report': seq<OutputFile>, i: nat)
    requires NonIncreasing(report) && NonIncreasing(report') && i < |report| && i < |report'|
    requires forall file: OutputFile :: file.size > report'[i].size ==> multiset(report)[file] <= multiset(report')[file]
    ensures report[i].size <= report'[i].size
  {
    if report'[i].size < report[i].size {
      forall file ensures multiset(report[..i + 1])[file] <= multiset(report'[..i])[file] {
        if k :| 0 <= k <= i && report[k] == file {
          PrefixCount(report, i + 1, file);
          NoneAfter(report', i, file);
        } else {
          assert file !in report[..i + 1];
        }
      }
      SmallerCardinality(multiset(report[..i + 1]), multiset(report'[..i]));
      assert false;
    }
  }

  /** Of two reports on the same entries, neither has a smaller size than the other at any place. */
  lemma NotSmallerAt(files: multiset<OutputFile>, capacity: int, report: seq<OutputFile>, report': seq<OutputFile>, i: nat)
    requires Largest(multiset(report), files, capacity) && NonIncreasing(report)
    requires Largest(multiset(report'), files, capacity) && NonIncreasing(report')
    requires i < |report| && i < |report'|
    ensures report[i].size <= report'[i].size
  {
    forall file: OutputFile | file.size > report'[i].size ensures multiset(report)[file] <= multiset(report')[file] {
      LargerIsKept(files, capacity, multiset(report), multiset(report'), file, report'[i]);
    }
    NoRoomInFront(report, report', i);
  }

  lemma SmallerCardinality(a: multiset<OutputFile>, b: multiset<OutputFile>)
    requires forall file :: a[file] <= b[file]
    ensures |a| <= |b|
  {
    assert b == a + (b - a);
  }

  lemma SameLength(files: multiset<OutputFile>, capacity: int, queue: multiset<OutputFile>, queue': multiset<OutputFile>)
    requires Largest(queue, files, capacity) && Largest(queue', files, capacity)
    ensures |queue| == |queue'|
  {
    SmallerCardinality(queue, files);
    SmallerCardinality(queue', files);
  }

  /**
   * Two stores that were handed the same entries, in whatever order and with whatever heap, hold the same
   * total and report lists of the same sizes.
   */
  lemma ReportIsDetermined(handed: seq<OutputFile>, handed': seq<OutputFile>, capacity: int, storeEmpty: bool,
                           total: u64, total': u64, report: seq<OutputFile>, report': seq<OutputFile>)
    requires multiset(handed) == multiset(handed')
    requires Consistent(total, multiset(report), handed, capacity, storeEmpty) && NonIncreasing(report)
    requires Consistent(total', multiset(report'), handed', capacity, storeEmpty) && NonIncreasing(report')
    ensures total == total'
    ensures |report| == |report'|
    ensures forall i :: 0 <= i < |report| ==> report[i].size == report'[i].size
  {
    RunningTotalIsTotal(handed, capacity, storeEmpty);
    RunningTotalIsTotal(handed', capacity, storeEmpty);
    CountedIgnoresOrder(handed, handed', capacity, storeEmpty);
    SameLength(Counted(handed, capacity, storeEmpty), capacity, multiset(report), multiset(report'));
    forall i | 0 <= i < |report| ensures report[i].size == report'[i].size {
      NotSmallerAt(Counted(handed, capacity, storeEmpty), capacity, report, report', i);
      NotSmallerAt(Counted(handed, capacity, storeEmpty), capacity, report', report, i);
    }
  }
}
