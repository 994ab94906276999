/**
 The market tape of src/store/tape.py: numbered part files and one stamped compacted file per day
 and stream, refining an append-only sequence of rows even when a crash stops compact anywhere.
 */
module Tape {
  import opened Domain

  // ---- The files of one stream -------------------------------------------------------------------

  datatype Compacted<R> = Compacted(rows: seq<R>, stamp: nat)

  datatype Files<R> = Files(parts: map<nat, seq<R>>, compacted: Option<Compacted<R>>)

  /** Readers only match part names of exactly six digits. */
  const MAX_PART: nat := 999_999

  function Stamp<R>(d: Files<R>): nat { if d.compacted.Some? then d.compacted.value.stamp else 0 }

  /** The highest part number readers see among those up to n; 0 when there is none. */
  function HighestUpTo<R>(parts: map<nat, seq<R>>, n: nat): nat {
    if n == 0 || n in parts then n else HighestUpTo(parts, n - 1)
  }

  function Highest<R>(d: Files<R>): nat { HighestUpTo(d.parts, MAX_PART) }

  function NextPart<R>(d: Files<R>): nat { Max(Highest(d), Stamp(d)) + 1 }

  /** The rows of parts lo, ..., hi - 1 in number order. */
  function PartRows<R>(parts: map<nat, seq<R>>, lo: nat, hi: nat): seq<R>
    decreases hi - lo
  {
    if hi <= lo then [] else (if lo in parts then parts[lo] else []) + PartRows(parts, lo + 1, hi)
  }

  /** What a reader gets: the compacted rows, then the parts past its stamp. */
  function Read<R>(d: Files<R>): seq<R> {
    (if d.compacted.Some? then d.compacted.value.rows else []) + PartRows(d.parts, Stamp(d) + 1, MAX_PART + 1)
  }

  // ---- The file operations --------------------------------------------------------------------------

  function WritePart<R>(d: Files<R>, rows: seq<R>): Files<R> { d.(parts := d.parts[NextPart(d) := rows]) }

  /** Replace the compacted file by everything a reader sees, stamped with the last live part. */
  function WriteCompacted<R>(d: Files<R>): Files<R> { d.(compacted := Some(Compacted(Read(d), Highest(d)))) }

  function Unlink<R>(d: Files<R>, n: nat): Files<R> { d.(parts := d.parts - {n}) }

  // ---- Scanning parts -------------------------------------------------------------------------------

  lemma {:induction false} HighestIsLast<R>(parts: map<nat, seq<R>>, n: nat)
    ensures HighestUpTo(parts, n) <= n
    ensures 0 < HighestUpTo(parts, n) ==> HighestUpTo(parts, n) in parts
    ensures forall k | HighestUpTo(parts, n) < k <= n :: k !in parts
  {
    if n != 0 && n !in parts {
      HighestIsLast(parts, n - 1);
    }
  }

  lemma {:induction false} HighestUnique<R>(parts: map<nat, seq<R>>, n: nat, h: nat)
    requires h <= n && (0 < h ==> h in parts) && forall k | h < k <= n :: k !in parts
    ensures HighestUpTo(parts, n) == h
  {
    if n != h {
      HighestUnique(parts, n - 1, h);
    }
  }

  lemma {:induction false} NoParts<R>(parts: map<nat, seq<R>>, lo: nat, hi: nat)
    requires forall k | lo <= k < hi :: k !in parts
    ensures PartRows(parts, lo, hi) == []
    decreases hi - lo
  {
    if lo < hi {
      NoParts(parts, lo + 1, hi);
    }
  }

  lemma {:induction false} SplitParts<R>(parts: map<nat, seq<R>>, lo: nat, mid: nat, hi: nat)
    requires lo <= mid <= hi
    ensures PartRows(parts, lo, hi) == PartRows(parts, lo, mid) + PartRows(parts, mid, hi)
    decreases mid - lo
  {
    if lo < mid {
      SplitParts(parts, lo + 1, mid, hi);
    }
  }

  lemma {:induction false} SameParts<R>(a: map<nat, seq<R>>, b: map<nat, seq<R>>, lo: nat, hi: nat)
    requires forall k | lo <= k < hi :: (k in a <==> k in b) && (k in a ==> a[k] == b[k])
    ensures PartRows(a, lo, hi) == PartRows(b, lo, hi)
    decreases hi - lo
  {
    if lo < hi {
      SameParts(a, b, lo + 1, hi);
    }
  }

  // ---- Each operation against the append-only log -------------------------------------------------

  /**
   Writing a part appends its rows for every reader exactly while the part number has six digits;
   past that the rows are never seen. No part number is at or below the stamp, or in use.
   */
  lemma WritePartAppends<R>(d: Files<R>, rows: seq<R>)
    requires rows != [] && Stamp(d) <= MAX_PART
    ensures Stamp(d) < NextPart(d)
    ensures NextPart(d) <= MAX_PART ==> NextPart(d) !in d.parts
    ensures Read(WritePart(d, rows)) == Read(d) + rows <==> NextPart(d) <= MAX_PART
    ensures NextPart(d) > MAX_PART ==> Read(WritePart(d, rows)) == Read(d)
    ensures NextPart(d) <= MAX_PART ==> NextPart(WritePart(d, rows)) == NextPart(d) + 1
  {
    hide PartRows, HighestUpTo;
    var n, d', end := NextPart(d), WritePart(d, rows), MAX_PART + 1;
    HighestIsLast(d.parts, MAX_PART);
    if n <= MAX_PART {
      SplitParts(d.parts, Stamp(d) + 1, n, end);
      NoParts(d.parts, n, end);
      SplitParts(d'.parts, Stamp(d) + 1, n, end);
      SplitParts(d'.parts, n, n + 1, end);
      NoParts(d'.parts, n + 1, end);
      OnePart(d'.parts, n);
      SameParts(d.parts, d'.parts, Stamp(d) + 1, n);
      HighestUnique(d'.parts, MAX_PART, n);
    } else {
      SameParts(d.parts, d'.parts, Stamp(d) + 1, end);
      assert |Read(d) + rows| != |Read(d)|;
    }
  }

  lemma OnePart<R>(parts: map<nat, seq<R>>, n: nat)
    requires n in parts
    ensures PartRows(parts, n, n + 1) == parts[n]
  {
    assert PartRows(parts, n + 1, n + 1) == [];
  }

  /** Replacing the compacted file changes nothing a reader sees, nor the next part number. */
  lemma WriteCompactedKeeps<R>(d: Files<R>)
    requires Stamp(d) < Highest(d)
    ensures Read(WriteCompacted(d)) == Read(d) && NextPart(WriteCompacted(d)) == NextPart(d)
    ensures Stamp(WriteCompacted(d)) <= MAX_PART
  {
    hide PartRows, HighestUpTo;
    HighestIsLast(d.parts, MAX_PART);
    NoParts(d.parts, Highest(d) + 1, MAX_PART + 1);
  }

  /** Nor does deleting any absorbed part, in any order, in any number. */
  lemma UnlinkKeeps<R>(d: Files<R>, n: nat)
    requires n <= Stamp(d)
    ensures Read(Unlink(d, n)) == Read(d) && NextPart(Unlink(d, n)) == NextPart(d) && Stamp(Unlink(d, n)) == Stamp(d)
  {
    hide PartRows, HighestUpTo;
    var d' := Unlink(d, n);
    SameParts(d.parts, d'.parts, Stamp(d) + 1, MAX_PART + 1);
    HighestIsLast(d.parts, MAX_PART);
    HighestIsLast(d'.parts, MAX_PART);
    if Stamp(d) < Highest(d) {
      HighestUnique(d'.parts, MAX_PART, Highest(d));
    }
  }

  // ---- Every run, with a crash anywhere -------------------------------------------------------------

  /** One atomic file operation of flush or compact; a crash is simply the end of the operations of a call. */
  datatype Op<R> = Flushed(rows: seq<R>) | CompactedFile | Unlinked(part: nat)

  /** When the code performs it: flush writes non-empty batches, compact needs live parts and deletes absorbed ones. */
  predicate Enabled<R>(d: Files<R>, op: Op<R>) {
    match op
    case Flushed(rows) => rows != [] && NextPart(d) <= MAX_PART
    case CompactedFile => Stamp(d) < Highest(d)
    case Unlinked(n) => n <= Stamp(d)
  }

  function Do<R>(d: Files<R>, op: Op<R>): Files<R> {
    match op
    case Flushed(rows) => WritePart(d, rows)
    case CompactedFile => WriteCompacted(d)
    case Unlinked(n) => Unlink(d, n)
  }

  function DoAll<R>(ops: seq<Op<R>>): Files<R> {
    if ops == [] then Files(map[], None) else Do(DoAll(ops[..|ops| - 1]), ops[|ops| - 1])
  }

  ghost predicate EnabledAll<R>(ops: seq<Op<R>>) {
    ops != [] ==> EnabledAll(ops[..|ops| - 1]) && Enabled(DoAll(ops[..|ops| - 1]), ops[|ops| - 1])
  }

  /** The append-only log: every flushed row, in flush order, once. */
  function Log<R>(ops: seq<Op<R>>): seq<R> {
    if ops == [] then [] else
      Log(ops[..|ops| - 1]) + if ops[|ops| - 1].Flushed? then ops[|ops| - 1].rows else []
  }

  function Flushes<R>(ops: seq<Op<R>>): nat {
    if ops == [] then 0 else Flushes(ops[..|ops| - 1]) + if ops[|ops| - 1].Flushed? then 1 else 0
  }

  /**
   The tape refines the log: after any interleaving of flushes with the single operations of any
   number of compactions, each cut short anywhere, a reader gets exactly the log; and the next
   part number counts the flushes, so no number is ever used twice.
   */
  lemma {:induction false} TapeRefinesLog<R>(ops: seq<Op<R>>)
    requires EnabledAll(ops)
    ensures Read(DoAll(ops)) == Log(ops)
    ensures NextPart(DoAll(ops)) == Flushes(ops) + 1
    ensures Stamp(DoAll(ops)) <= MAX_PART
  {
    var d := DoAll(ops);
    if ops == [] {
      NoParts(d.parts, 1, MAX_PART + 1);
      HighestUnique(d.parts, MAX_PART, 0);
    } else {
      hide PartRows, HighestUpTo, Read;
      var before, op := ops[..|ops| - 1], ops[|ops| - 1];
      TapeRefinesLog(before);
      match op
      case Flushed(rows) => WritePartAppends(DoAll(before), rows);
      case CompactedFile => WriteCompactedKeeps(DoAll(before)); HighestIsLast(DoAll(before).parts, MAX_PART);
      case Unlinked(n) => UnlinkKeeps(DoAll(before), n);
    }
  }

  // ---- What a whole compaction does -------------------------------------------------------------------

  /** The parts a compaction merges. */
  function Live<R>(d: Files<R>): set<nat> { set n | n in d.parts && Stamp(d) < n <= MAX_PART }

  /** File operations of a compaction that runs to its end: none when nothing is live. */
  function Cost<R>(d: Files<R>): nat { if Highest(d) <= Stamp(d) then 0 else 1 + |Live(d)| }

  /** Everything readers see in one stamped file, and none of the parts it was made from. */
  function Merged<R>(d: Files<R>): Files<R> {
    if Cost(d) == 0 then d else Files(d.parts - Live(d), Some(Compacted(Read(d), Highest(d))))
  }

  lemma LiveUpTo<R>(d: Files<R>)
    ensures forall n | n in Live(d) :: n <= Highest(d)
    ensures Live(d) == set n | n in d.parts && Stamp(d) < n <= Highest(d)
    ensures Stamp(d) < Highest(d) ==> Highest(d) in Live(d)
  {
    HighestIsLast(d.parts, MAX_PART);
  }

  /** After it nothing is live: compacting again costs nothing and changes nothing. */
  lemma MergedIsDone<R>(d: Files<R>)
    requires Stamp(d) <= MAX_PART
    ensures Live(Merged(d)) == {} && Merged(Merged(d)) == Merged(d)
    ensures Cost(d) != 0 ==> Stamp(Merged(d)) == Highest(d)
  {
    hide HighestUpTo, PartRows, Read;
    var m := Merged(d);
    LiveUpTo(d);
    LiveUpTo(m);
    HighestIsLast(d.parts, MAX_PART);
    HighestIsLast(m.parts, MAX_PART);
  }

  // ---- The writer -----------------------------------------------------------------------------------

  datatype StreamKey = StreamKey(day: int, stream: string)

  function FilesAt<R>(dirs: map<StreamKey, Files<R>>, k: StreamKey): Files<R> {
    if k in dirs then dirs[k] else Files(map[], None)
  }

  function Buffered<R>(buffers: map<StreamKey, seq<R>>, k: StreamKey): seq<R> {
    if k in buffers then buffers[k] else []
  }

  /** What a stream gained by a flush that wrote `first` and failed, and the flush that followed. */
  function Retried<R>(buffers: map<StreamKey, seq<R>>, first: set<StreamKey>, k: StreamKey): seq<R> {
    if k in first then Buffered(buffers, k) + Buffered(buffers, k) else Buffered(buffers, k)
  }

  /** The streams with something to write. */
  function Batches<R>(buffers: map<StreamKey, seq<R>>): set<StreamKey> { set k | k in buffers && buffers[k] != [] }

  /** Rows joined a stream as its next part: readers get them at the end while part numbers have six digits. */
  ghost predicate Appended<R>(was: Files<R>, now: Files<R>, rows: seq<R>) {
    NextPart(was) <= MAX_PART ==> Read(now) == Read(was) + rows && NextPart(now) == NextPart(was) + 1
  }

  /** The batches of exactly these streams were appended; every other stream is as it was. */
  ghost predicate Wrote<R>(
    was: map<StreamKey, Files<R>>, now: map<StreamKey, Files<R>>, buffers: map<StreamKey, seq<R>>, written: set<StreamKey>)
  {
    && (forall k: StreamKey | k !in written :: FilesAt(now, k) == FilesAt(was, k))
    && (forall k | k in written :: k in buffers && Appended(FilesAt(was, k), FilesAt(now, k), buffers[k]))
  }

  /** A loop over streams, half done: of those with batches, these are written and the rest are still to come. */
  ghost predicate HalfDone(all: set<StreamKey>, written: set<StreamKey>, todo: set<StreamKey>) {
    written <= all && written !! todo && all <= written + todo
  }

  lemma OneMore(all: set<StreamKey>, written: set<StreamKey>, todo: set<StreamKey>, k: StreamKey)
    requires HalfDone(all, written, todo) && k in todo
    ensures k !in written
    ensures if k in all then HalfDone(all, written + {k}, todo - {k}) else HalfDone(all, written, todo - {k})
    ensures |written + {k}| == |written| + 1 && (k in all ==> |written| < |all|)
  {
    if k in all {
      assert |all - written| + |written| == |all| && k in all - written;
    }
  }

  lemma AtMost(all: set<StreamKey>, written: set<StreamKey>, todo: set<StreamKey>)
    requires HalfDone(all, written, todo)
    ensures written <= all && |written| <= |all| && (todo == {} ==> written == all)
  {
    assert |all - written| + |written| == |all|;
  }

  lemma NoneWrote<R>(dirs: map<StreamKey, Files<R>>, buffers: map<StreamKey, seq<R>>)
    ensures Wrote(dirs, dirs, buffers, {})
  {
  }

  lemma WroteMore<R>(
    was: map<StreamKey, Files<R>>, mid: map<StreamKey, Files<R>>, now: map<StreamKey, Files<R>>,
    buffers: map<StreamKey, seq<R>>, written: set<StreamKey>, k: StreamKey)
    requires Wrote(was, mid, buffers, written) && k !in written && Wrote(mid, now, buffers, {k})
    ensures Wrote(was, now, buffers, written + {k})
  {
    hide Appended;
    forall j | j in written ensures FilesAt(now, j) == FilesAt(mid, j) {
      assert j !in {k};
    }
    assert k in {k};
  }

  class TapeWriter<R> {
    var dirs: map<StreamKey, Files<R>>
    var buffers: map<StreamKey, seq<R>>

    /** No stamp is above what readers can see; that there are numbers left is a separate matter. */
    ghost predicate Valid()
      reads this
    {
      forall k | k in dirs :: Stamp(dirs[k]) <= MAX_PART
    }

    /** Every stream with a batch has n more part numbers. */
    ghost predicate Room(n: nat)
      reads this
    {
      forall k | k in Batches(buffers) :: NextPart(FilesAt(dirs, k)) + n <= MAX_PART + 1
    }

    constructor ()
      ensures Valid() && dirs == map[] && buffers == map[]
    {
      dirs, buffers := map[], map[];
    }

    method Add(day: int, stream: string, rows: seq<R>)
      modifies this`buffers
      ensures forall k: StreamKey :: Buffered(buffers, k) ==
                                  Buffered(old(buffers), k) + if k == StreamKey(day, stream) then rows else []
    {
      var k := StreamKey(day, stream);
      buffers := buffers[k := (if k in buffers then buffers[k] else []) + rows];
    }

    /**
     Every non-empty batch becomes a new part; `writes` is how many writes succeed before one fails.
     Each stream gets its batch appended or stays as it was. It succeeds exactly when there are no more batches than writes, and only then are buffers emptied.
     */
    method Flush(writes: nat) returns (ok: bool, ghost written: set<StreamKey>)
      requires Valid()
      modifies this
      ensures Valid()
      ensures ok <==> |Batches(old(buffers))| <= writes
      ensures written <= Batches(old(buffers)) && |written| == Min(writes, |Batches(old(buffers))|)
      ensures buffers == if ok then map[] else old(buffers)
      ensures Wrote(old(dirs), dirs, old(buffers), written)
    {
      ghost var all := Batches(buffers);
      assert HalfDone(all, {}, buffers.Keys);
      NoneWrote(dirs, buffers);
      hide Wrote, Valid, HalfDone;
      var todo, left := buffers.Keys, writes;
      written := {};
      while todo != {}
        invariant Valid() && buffers == old(buffers) && todo <= buffers.Keys
        invariant HalfDone(all, written, todo) && left == writes - |written|
        invariant Wrote(old(dirs), dirs, buffers, written)
        decreases todo
      {
        var k :| k in todo;
        OneMore(all, written, todo, k);
        todo := todo - {k};
        if buffers[k] != [] {
          if left == 0 {
            return false, written;
          }
          ghost var before := dirs;
          WriteBatch(k);
          WroteMore(old(dirs), before, dirs, buffers, written, k);
          left, written := left - 1, written + {k};
        }
      }
      AtMost(all, written, todo);
      ClearBuffers();
      return true, written;
    }

    method ClearBuffers()
      requires Valid()
      modifies this`buffers
      ensures Valid() && buffers == map[]
    {
      buffers := map[];
    }

    /** One stream's batch as a new part. */
    method WriteBatch(k: StreamKey)
      requires Valid() && k in buffers && buffers[k] != []
      modifies this`dirs
      ensures Valid() && Wrote(old(dirs), dirs, buffers, {k})
    {
      hide PartRows, HighestUpTo, Read, NextPart;
      var d := FilesAt(dirs, k);
      WritePartAppends(d, buffers[k]);
      dirs := dirs[k := WritePart(d, buffers[k])];
    }

    /**
     A flush that fails keeps every buffer, so the next one writes all of them again: the batches
     the first call managed to write are read twice, the others once. Rows are recorded once
     throughout exactly when it had written none.
     */
    method FlushAgain(writes: nat, again: nat) returns (ok: bool, ghost first: set<StreamKey>)
      requires Valid() && Room(2)
      requires writes < |Batches(buffers)| <= again
      modifies this
      ensures Valid() && ok && buffers == map[]
      ensures first <= Batches(old(buffers)) && |first| == writes
      ensures forall k: StreamKey :: Read(FilesAt(dirs, k)) == Read(FilesAt(old(dirs), k)) + Retried(old(buffers), first, k)
      ensures writes == 0 <==>
        forall k: StreamKey :: Read(FilesAt(dirs, k)) == Read(FilesAt(old(dirs), k)) + Buffered(old(buffers), k)
    {
      hide Read, NextPart;
      ghost var was := dirs;
      var failed;
      failed, first := Flush(writes);
      ghost var mid := dirs;
      assert Room(1);
      ghost var second;
      ok, second := Flush(again);
      assert second == Batches(old(buffers)) by { SameSize(second, Batches(old(buffers))); }
      forall k: StreamKey ensures Read(FilesAt(dirs, k)) == Read(FilesAt(was, k)) + Retried(old(buffers), first, k) {
        if k !in second {
          assert Buffered(old(buffers), k) == [];
        }
      }
      if writes != 0 {
        ghost var k :| k in first;
        assert |Read(FilesAt(dirs, k))| != |Read(FilesAt(was, k)) + Buffered(old(buffers), k)|;
      }
    }

    static lemma SameSize(a: set<StreamKey>, b: set<StreamKey>)
      requires a <= b && |a| == |b|
      ensures a == b
    {
      assert |b - a| + |a| == |b|;
    }

    /**
     Merge the parts of one stream of a day and delete them; `ops` is how many file operations
     happen before the process dies. However many, no stream of any day reads differently; with
     enough of them the merge is complete, and with fewer it has gone as far as they allow.
     */
    method CompactStream(day: int, stream: string, ops: nat) returns (left: nat)
      requires Valid()
      modifies this`dirs
      ensures Valid()
      ensures forall k: StreamKey :: Read(FilesAt(dirs, k)) == Read(FilesAt(old(dirs), k))
      ensures forall k: StreamKey :: NextPart(FilesAt(dirs, k)) == NextPart(FilesAt(old(dirs), k))
      ensures forall k: StreamKey | k != StreamKey(day, stream) :: FilesAt(dirs, k) == FilesAt(old(dirs), k)
      ensures
        var was, now := FilesAt(old(dirs), StreamKey(day, stream)), FilesAt(dirs, StreamKey(day, stream));
        && left == Max(0, ops - Cost(was))
        && (Cost(was) <= ops ==> now == Merged(was))
        && (ops < Cost(was) ==>
              && now.compacted == (if ops == 0 then was else Merged(was)).compacted
              && exists gone :: gone <= Live(was) && |gone| == Max(0, ops - 1) && now.parts == was.parts - gone)
    {
      hide Read, NextPart, Cost, Live, Merged, Highest;
      var key := StreamKey(day, stream);
      var d;
      d, left := MergeParts(FilesAt(dirs, key), ops);
      dirs := dirs[key := d];
    }

    /** Replace the compacted file, then delete the merged parts one by one, as far as `ops` goes. */
    static method MergeParts(was: Files<R>, ops: nat) returns (d: Files<R>, left: nat)
      requires Stamp(was) <= MAX_PART
      ensures Stamp(d) <= MAX_PART && Read(d) == Read(was) && NextPart(d) == NextPart(was)
      ensures left == Max(0, ops - Cost(was)) && (Cost(was) <= ops ==> d == Merged(was))
      ensures ops < Cost(was) ==>
        && d.compacted == (if ops == 0 then was else Merged(was)).compacted
        && exists gone :: gone <= Live(was) && |gone| == Max(0, ops - 1) && d.parts == was.parts - gone
    {
      hide PartRows, HighestUpTo, Read, NextPart;
      d, left := was, ops;
      if Highest(was) <= Stamp(was) || left == 0 {
        assert was.parts - {} == was.parts;
        return;
      }
      LiveUpTo(was);
      WriteCompactedKeeps(was);
      d, left := WriteCompacted(was), left - 1;
      ghost var gone;
      hide Live, Highest;
      d, left, gone := DeleteParts(d, (set n | n in d.parts && Stamp(was) < n <= Stamp(d)), left);
      if gone != Live(was) {
        assert |Live(was) - gone| + |gone| == |Live(was)|;
      }
    }

    static method DeleteParts(merged: Files<R>, parts: set<nat>, ops: nat) returns (d: Files<R>, left: nat, ghost gone: set<nat>)
      requires forall n | n in parts :: n <= Stamp(merged)
      ensures d.parts == merged.parts - gone && d.compacted == merged.compacted
      ensures Read(d) == Read(merged) && NextPart(d) == NextPart(merged)
      ensures gone <= parts && |gone| == Min(ops, |parts|) && left == ops - |gone|
    {
      hide PartRows, HighestUpTo, Read, NextPart;
      d, left, gone := merged, ops, {};
      var todo := parts;
      assert merged.parts - {} == merged.parts;
      while todo != {} && left != 0
        invariant left == ops - |gone| && gone + todo == parts && gone !! todo
        invariant d.parts == merged.parts - gone && d.compacted == merged.compacted
        invariant Read(d) == Read(merged) && NextPart(d) == NextPart(merged)
        decreases todo
      {
        var n :| n in todo;
        UnlinkKeeps(d, n);
        d, left := Unlink(d, n), left - 1;
        assert merged.parts - gone - {n} == merged.parts - (gone + {n});
        todo, gone := todo - {n}, gone + {n};
      }
      assert |parts| == |gone| + |todo|;
    }

    /** Both streams of a day: nothing reads differently, and with enough operations both are merged. */
    method Compact(day: int, ops: nat)
      requires Valid()
      modifies this`dirs
      ensures Valid()
      ensures forall k: StreamKey :: Read(FilesAt(dirs, k)) == Read(FilesAt(old(dirs), k))
      ensures forall k: StreamKey :: NextPart(FilesAt(dirs, k)) == NextPart(FilesAt(old(dirs), k))
      ensures forall k: StreamKey | k.day != day || k.stream !in {"quotes", "bars"} ::
        FilesAt(dirs, k) == FilesAt(old(dirs), k)
      ensures
        var quotes, bars := StreamKey(day, "quotes"), StreamKey(day, "bars");
        Cost(FilesAt(old(dirs), quotes)) + Cost(FilesAt(old(dirs), bars)) <= ops ==>
          && FilesAt(dirs, quotes) == Merged(FilesAt(old(dirs), quotes))
          && FilesAt(dirs, bars) == Merged(FilesAt(old(dirs), bars))
    {
      hide Read, NextPart, Merged, Cost, Live;
      var left := CompactStream(day, "quotes", ops);
      left := CompactStream(day, "bars", left);
    }
  }
}
