/**
 The event store of src/store/event_store.py: an append-only log and the tables projected from it
 in the same transaction. T is what one projector keeps, P an event's payload.
 */
module EventStore {
  import opened Domain

  /** An event offered for storing: one that already carries a seq is refused. */
  datatype Offered<P> = Offered(kind: string, payload: P, seqNo: Option<nat>)

  datatype Stored<P> = Stored(seqNo: nat, kind: string, payload: P)

  /** A projector: its tables, the event kinds it wants, and what it does with one; None is an exception. */
  datatype Projector<!P, !T> = Projector(
    tables: set<string>,
    handles: set<string>,
    empty: T,
    apply: (T, Stored<P>) -> Option<T>)
  {
    function Take(t: T, e: Stored<P>): Option<T> { if e.kind in handles then apply(t, e) else Some(t) }

    /** The rows after these events, from an empty table. */
    function Fold(events: seq<Stored<P>>): Option<T> {
      if events == [] then Some(empty) else
        var t := Fold(events[..|events| - 1]);
        if t.None? then None else Take(t.value, events[|events| - 1])
    }

    /** The rows after some more events. */
    function Extend(t: T, events: seq<Stored<P>>): Option<T> {
      if events == [] then Some(t) else
        var before := Extend(t, events[..|events| - 1]);
        if before.None? then None else Take(before.value, events[|events| - 1])
    }
  }

  /** A batch as it is stored after n events. */
  function Numbered<P>(batch: seq<Offered<P>>, n: nat): seq<Stored<P>> {
    seq(|batch|, i requires 0 <= i < |batch| => Stored(n + i + 1, batch[i].kind, batch[i].payload))
  }

  /** Every projector's rows are the fold of the events it has been given; no table has two owners. */
  ghost predicate Consistent<P, T>(
    projectors: seq<Projector<P, T>>, log: seq<Stored<P>>, rows: seq<T>, since: seq<nat>)
  {
    && |rows| == |projectors| == |since|
    && (forall i | 0 <= i < |log| :: log[i].seqNo == i + 1)
    && (forall i | 0 <= i < |rows| :: since[i] <= |log| && projectors[i].Fold(log[since[i]..]) == Some(rows[i]))
    && (forall i, j | 0 <= i < j < |projectors| :: projectors[i].tables !! projectors[j].tables)
  }

  class EventStore<!P, !T> {
    var projectors: seq<Projector<P, T>>
    var log: seq<Stored<P>>
    var rows: seq<T>                  // one per projector
    ghost var since: seq<nat>         // how much of the log each projector missed

    ghost predicate Valid()
      reads this
    {
      |rows| == |projectors| && Consistent(projectors, log, rows, since)
    }

    /** Projectors registered before the first event, or rebuilt since they were. */
    ghost predicate Complete()
      reads this
    {
      forall n | n in since :: n == 0
    }

    constructor ()
      ensures Valid() && log == [] && projectors == [] && Complete()
    {
      projectors, log, rows, since := [], [], [], [];
    }

    /** Refused when a table already has a projector. */
    method RegisterProjector(p: Projector<P, T>) returns (ok: bool)
      requires Valid()
      modifies this
      ensures Valid() && log == old(log)
      ensures ok <==> forall q | q in old(projectors) :: q.tables !! p.tables
      ensures ok ==> projectors == old(projectors) + [p] && rows == old(rows) + [p.empty]
      ensures !ok ==> projectors == old(projectors) && rows == old(rows) && since == old(since)
      ensures old(Complete()) && (ok ==> old(log) == []) ==> Complete()
    {
      if exists i | 0 <= i < |projectors| :: !(projectors[i].tables !! p.tables) {
        return false;
      }
      assert forall i | 0 <= i < |projectors| :: projectors[i].tables !! p.tables;
      assert log[|log|..] == [];
      projectors, rows, since := projectors + [p], rows + [p.empty], since + [|log|];
      return true;
    }

    /** _project: every projector takes the stored event, or the first failure stops it. */
    method Project(e: Stored<P>, before: seq<T>) returns (after: Option<seq<T>>)
      requires |before| == |projectors|
      ensures after.Some? <==> forall i | 0 <= i < |projectors| :: projectors[i].Take(before[i], e).Some?
      ensures after.Some? ==> |after.value| == |before|
      ensures after.Some? ==> forall i | 0 <= i < |projectors| :: projectors[i].Take(before[i], e) == Some(after.value[i])
    {
      var taken: seq<T> := [];
      for i := 0 to |projectors|
        invariant |taken| == i
        invariant forall j | 0 <= j < i :: projectors[j].Take(before[j], e) == Some(taken[j])
      {
        var t := projectors[i].Take(before[i], e);
        if t.None? {
          return None;
        }
        taken := taken + [t.value];
      }
      return Some(taken);
    }

    /**
     All the events are stored, with the next seqs, and projected, or nothing changes; and all are
     exactly when none carries a seq already and every projector takes them one after the other.
     */
    method AppendMany(batch: seq<Offered<P>>) returns (seqs: Option<seq<nat>>)
      requires Valid()
      modifies this
      ensures Valid() && projectors == old(projectors) && since == old(since)
      ensures seqs.Some? <==>
        && (forall e | e in batch :: e.seqNo.None?)
        && (forall k | 0 <= k < |projectors| :: projectors[k].Extend(old(rows)[k], Numbered(batch, |old(log)|)).Some?)
      ensures seqs.None? ==> log == old(log) && rows == old(rows)
      ensures seqs.Some? ==>
        && log == old(log) + Numbered(batch, |old(log)|)
        && seqs.value == seq(|batch|, i => |old(log)| + i + 1)
        && forall k | 0 <= k < |projectors| :: projectors[k].Extend(old(rows)[k], Numbered(batch, |old(log)|)) == Some(rows[k])
    {
      hide Consistent;
      ghost var n, stamped := |log|, Numbered(batch, |log|);
      var savedLog, savedRows := log, rows;
      var given: seq<nat> := [];
      for i := 0 to |batch|
        invariant Valid() && projectors == old(projectors) && since == old(since)
        invariant log == old(log) + stamped[..i] && given == seq(i, j => n + j + 1)
        invariant forall j | 0 <= j < i :: batch[j].seqNo.None?
        invariant forall k | 0 <= k < |projectors| :: projectors[k].Extend(old(rows)[k], stamped[..i]) == Some(rows[k])
      {
        ghost var before := rows;
        var seqNo := Insert(batch[i]);
        assert stamped[..i + 1] == stamped[..i] + [stamped[i]] && stamped[..i + 1][..i] == stamped[..i];
        if seqNo.None? {
          if batch[i].seqNo.Some? {
            assert batch[i] in batch;
          } else {
            ghost var bad :| 0 <= bad < |projectors| && projectors[bad].Take(before[bad], stamped[i]).None?;
            ExtendStuck(projectors[bad], old(rows)[bad], stamped, i + 1);
          }
          log, rows := savedLog, savedRows;   // ROLLBACK
          return None;
        }
        given := given + [seqNo.value];
      }
      assert stamped[..|batch|] == stamped;
      return Some(given);
    }

    /** _insert: refused for an event that has a seq, or when a projector fails. */
    method Insert(e: Offered<P>) returns (seqNo: Option<nat>)
      requires Valid()
      modifies this
      ensures projectors == old(projectors) && since == old(since)
      ensures
        var stored := Stored(|old(log)| + 1, e.kind, e.payload);
        && (seqNo.Some? <==>
              e.seqNo.None? && forall k | 0 <= k < |projectors| :: projectors[k].Take(old(rows)[k], stored).Some?)
        && (seqNo.Some? ==>
              && Valid() && seqNo.value == |old(log)| + 1 && log == old(log) + [stored]
              && forall k | 0 <= k < |projectors| :: projectors[k].Take(old(rows)[k], stored) == Some(rows[k]))
    {
      if e.seqNo.Some? {
        return None;
      }
      var stored := Stored(|log| + 1, e.kind, e.payload);
      var after := Project(stored, rows);
      if after.None? {
        return None;
      }
      TakeAll(projectors, log, rows, since, stored, after.value);
      log, rows := log + [stored], after.value;
      return Some(stored.seqNo);
    }

    /** What one more stored event does to every projector's fold. */
    static lemma TakeAll(
      projectors: seq<Projector<P, T>>, log: seq<Stored<P>>, rows: seq<T>, since: seq<nat>, stored: Stored<P>, after: seq<T>)
      requires Consistent(projectors, log, rows, since) && |after| == |rows| && stored.seqNo == |log| + 1
      requires forall k | 0 <= k < |rows| :: projectors[k].Take(rows[k], stored) == Some(after[k])
      ensures Consistent(projectors, log + [stored], after, since)
    {
      forall k | 0 <= k < |rows| ensures projectors[k].Fold((log + [stored])[since[k]..]) == Some(after[k]) {
        FoldExtends(projectors[k], log, since[k], stored);
      }
    }

    static lemma {:induction false} ExtendStuck(p: Projector<P, T>, t: T, events: seq<Stored<P>>, n: nat)
      requires n <= |events| && p.Extend(t, events[..n]).None?
      ensures p.Extend(t, events).None?
      decreases |events| - n
    {
      if n == |events| {
        assert events[..n] == events;
      } else {
        assert events[..n + 1][..n] == events[..n];
        ExtendStuck(p, t, events, n + 1);
      }
    }

    /**
     Empty every table and replay the log. With complete projectors this always succeeds and gives
     back exactly the tables kept up event by event; after it every projector is complete.
     */
    method RebuildProjections() returns (count: Option<nat>)
      requires Valid()
      modifies this
      ensures Valid() && log == old(log) && projectors == old(projectors)
      ensures old(Complete()) ==> count.Some? && rows == old(rows)
      ensures count.Some? ==> count.value == |log| && Complete()
      ensures count.None? ==> rows == old(rows) && since == old(since)
      ensures count.Some? <==> forall p | p in projectors :: p.Fold(log).Some?
    {
      hide Consistent;
      WholeFolds(projectors, log, rows, since);
      var replayed := Replay();
      assert forall i | 0 <= i < |projectors| :: projectors[i] in projectors;
      assert forall i | 0 <= i < |since| :: since[i] in since;
      if replayed.None? {
        return None;
      }
      RebuiltConsistent(projectors, log, rows, since, replayed.value);
      rows, since := replayed.value, seq(|projectors|, _ => 0);
      return Some(|log|);
    }

    /** A projector that missed nothing holds the fold of the whole log. */
    static lemma WholeFolds(projectors: seq<Projector<P, T>>, log: seq<Stored<P>>, rows: seq<T>, since: seq<nat>)
      requires Consistent(projectors, log, rows, since)
      ensures |rows| == |projectors| == |since|
      ensures forall i | 0 <= i < |rows| && since[i] == 0 :: projectors[i].Fold(log) == Some(rows[i])
    {
      assert log[0..] == log;
    }

    static lemma RebuiltConsistent(
      projectors: seq<Projector<P, T>>, log: seq<Stored<P>>, rows: seq<T>, since: seq<nat>, replayed: seq<T>)
      requires Consistent(projectors, log, rows, since) && |replayed| == |projectors|
      requires forall i | 0 <= i < |projectors| :: projectors[i].Fold(log) == Some(replayed[i])
      ensures Consistent(projectors, log, replayed, seq(|projectors|, _ => 0))
    {
      assert log[0..] == log;
    }

    /** The loop of rebuild_projections, from empty tables. */
    method Replay() returns (replayed: Option<seq<T>>)
      ensures replayed.Some? ==> |replayed.value| == |projectors|
      ensures replayed.Some? ==> forall i | 0 <= i < |projectors| :: projectors[i].Fold(log) == Some(replayed.value[i])
      ensures replayed.None? ==> exists i :: 0 <= i < |projectors| && projectors[i].Fold(log).None?
    {
      var next := seq(|projectors|, i requires 0 <= i < |projectors| reads this => projectors[i].empty);
      for i := 0 to |log|
        invariant |next| == |projectors|
        invariant forall k | 0 <= k < |projectors| :: projectors[k].Fold(log[..i]) == Some(next[k])
      {
        assert log[..i + 1][..i] == log[..i];
        var after := Project(log[i], next);
        if after.None? {
          ghost var bad :| 0 <= bad < |projectors| && projectors[bad].Take(next[bad], log[i]).None?;
          FoldStuck(projectors[bad], log, i + 1);
          return None;
        }
        next := after.value;
      }
      assert log[..|log|] == log;
      return Some(next);
    }

    static lemma FoldExtends(p: Projector<P, T>, log: seq<Stored<P>>, since: nat, stored: Stored<P>)
      requires since <= |log| && p.Fold(log[since..]).Some?
      ensures p.Fold((log + [stored])[since..]) == p.Take(p.Fold(log[since..]).value, stored)
    {
      var seen := (log + [stored])[since..];
      assert seen[..|seen| - 1] == log[since..];
    }

    static lemma {:induction false} FoldStuck(p: Projector<P, T>, events: seq<Stored<P>>, n: nat)
      requires n <= |events| && p.Fold(events[..n]).None?
      ensures p.Fold(events).None?
      decreases |events| - n
    {
      if n == |events| {
        assert events[..n] == events;
      } else {
        assert events[..n + 1][..n] == events[..n];
        FoldStuck(p, events, n + 1);
      }
    }
  }
}
