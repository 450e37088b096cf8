/** Change data capture: inserts are stored so that an Undo can be forwarded as a delete with the original data. */
module Cdc {
  import opened Types
  import opened BatchStores
  import opened Recovery
  import opened History

  datatype Deleted = Deleted(id: TransactionId, batch: Batch)

  /** A Delete carries the ids its iterator will load. */
  datatype CdcEvent = Insert(id: TransactionId, batch: Batch) | Delete(id: TransactionId, ids: seq<TransactionId>)

  // ---- One event -------------------------------------------------------------------------------------

  /** The batch store after an event; `pruned` tells whether a prune, which is best effort, succeeded. */
  function Store(m: Batches, e: Event, pruned: bool): Batches {
    match e
    case Data(id, batch, _) => m[id := batch]
    case Undo(_, _, _, _) => m
    case Watermark(_, _, prune) => if prune.Some? && pruned then Pruned(m, prune.value) else m
  }

  /** What the consumer is given; watermarks and empty deletes stay internal. */
  function Forward(m: Batches, e: Event): Option<CdcEvent> {
    match e
    case Data(id, batch, _) => Some(CdcEvent.Insert(id, batch))
    case Undo(id, _, lo, hi) =>
      var ids := RangeKeys(m, lo, hi);
      if ids == [] then None else Some(Delete(id, ids))
    case Watermark(_, _, _) => None
  }

  /** The batches an iterator over `ids` yields, in order; ids without a batch are skipped. */
  function Drain(m: Batches, ids: seq<TransactionId>): seq<Deleted> {
    if ids == [] then []
    else if ids[0] in m then [Deleted(ids[0], m[ids[0]])] + Drain(m, ids[1..])
    else Drain(m, ids[1..])
  }

  class DeleteBatchIterator {
    const store: InMemoryBatchStore
    const ids: seq<TransactionId>
    var current: nat

    ghost predicate Valid()
      reads this
    {
      current <= |ids|
    }

    ghost function Remaining(): seq<Deleted>
      requires Valid()
      reads this, store
    {
      Drain(store.batches, ids[current..])
    }

    constructor (store: InMemoryBatchStore, ids: seq<TransactionId>)
      ensures Valid() && this.store == store && Remaining() == Drain(store.batches, ids)
    {
      this.store := store;
      this.ids := ids;
      current := 0;
    }

    method Next() returns (r: Option<Deleted>)
      requires Valid()
      modifies this
      ensures Valid()
      ensures r.None? ==> old(Remaining()) == [] && Remaining() == []
      ensures r.Some? ==> old(Remaining()) == [r.value] + Remaining()
    {
      while current < |ids|
        invariant Valid() && Remaining() == old(Remaining())
        decreases |ids| - current
      {
        var id := ids[current];
        assert ids[current..][1..] == ids[current + 1..];
        current := current + 1;
        var batch := store.Load(id);
        if batch.Some? {
          return Some(Deleted(id, batch.value));
        }
      }
      r := None;
    }
  }

  class CdcStream {
    const store: InMemoryBatchStore

    constructor (store: InMemoryBatchStore)
      ensures this.store == store
    {
      this.store := store;
    }

    /** Handles one event of the transactional stream. */
    method Process(e: Event, pruned: bool) returns (out: Option<CdcEvent>)
      requires EventOk(e)
      modifies store
      ensures store.batches == Store(old(store.batches), e, pruned)
      ensures match e
              case Data(id, batch, _) => out == Some(CdcEvent.Insert(id, batch))
              case Undo(id, _, lo, hi) =>
                if exists i :: i in old(store.batches) && lo <= i <= hi
                then out.Some? && out.value.Delete? && out.value.id == id &&
                     IsRange(out.value.ids, old(store.batches), lo, hi)
                else out == None
              case Watermark(_, _, _) => out == None
      ensures out == Forward(old(store.batches), e)
    {
      match e {
        case Data(id, batch, _) =>
          store.Append(batch, id);
          out := Some(CdcEvent.Insert(id, batch));
        case Undo(id, _, lo, hi) =>
          var ids := store.Seek(lo, hi);
          RangeUnique(ids, RangeKeys(store.batches, lo, hi), store.batches, lo, hi);
          assert ids != [] ==> ids[0] in ids;
          out := if ids != [] then Some(Delete(id, ids)) else None;
        case Watermark(_, _, prune) =>
          if prune.Some? && pruned {
            store.Prune(prune.value);
          }
          out := None;
      }
    }
  }

  // ---- Whole histories -------------------------------------------------------------------------------

  /** The store after a history, given which prunes succeeded. */
  function StoreAfter(h: seq<Event>, pruned: seq<bool>): Batches
    requires |h| == |pruned|
  {
    if h == [] then map[] else Store(StoreAfter(Front(h), Front(pruned)), Last(h), Last(pruned))
  }

  /** The smallest id no successful prune has reached. */
  function FirstKept(h: seq<Event>, pruned: seq<bool>): TransactionId
    requires |h| == |pruned|
  {
    if h == [] then 0
    else
      var before := FirstKept(Front(h), Front(pruned));
      match Last(h)
      case Watermark(_, _, Some(cutoff)) => if Last(pruned) then Max(before, cutoff + 1) else before
      case _ => before
  }

  lemma {:induction false} HistoryFront(h: seq<Event>, next: TransactionId)
    requires HistoryOk(h, next) && h != []
    ensures HistoryOk(Front(h), Last(h).id) && EventOk(Last(h)) && Last(h).id < next
  {
    assert h == Front(h) + [Last(h)];
    HistoryPrefix(Front(h), [Last(h)], next);
    assert Last(h) in h;
  }

  lemma {:induction false} KeptBelow(h: seq<Event>, pruned: seq<bool>, next: TransactionId)
    requires |h| == |pruned| && HistoryOk(h, next)
    ensures FirstKept(h, pruned) <= next
  {
    if h == [] {
    } else {
      HistoryFront(h, next);
      KeptBelow(Front(h), Front(pruned), Last(h).id);
    }
  }

  /** The store holds exactly the inserted batches that no successful prune has reached. */
  lemma {:induction false} StoreContents(h: seq<Event>, pruned: seq<bool>, next: TransactionId, id: TransactionId)
    requires |h| == |pruned| && HistoryOk(h, next)
    ensures Fetch(StoreAfter(h, pruned), id) == if id >= FirstKept(h, pruned) then DataAt(h, id) else None
  {
    if h == [] {
    } else {
      HistoryFront(h, next);
      StoreContents(Front(h), Front(pruned), Last(h).id, id);
      KeptBelow(Front(h), Front(pruned), Last(h).id);
    }
  }

  lemma {:induction false} DrainIndex(m: Batches, ids: seq<TransactionId>)
    requires forall id :: id in ids ==> id in m
    ensures |Drain(m, ids)| == |ids|
    ensures forall i :: 0 <= i < |ids| ==> ids[i] in ids && Drain(m, ids)[i] == Deleted(ids[i], m[ids[i]])
  {
    if ids == [] {
    } else {
      assert ids[0] in ids;
      DrainIndex(m, ids[1..]);
      forall i | 0 <= i < |ids| ensures ids[i] in ids && Drain(m, ids)[i] == Deleted(ids[i], m[ids[i]]) {
        if i > 0 {
          assert ids[i] == ids[1..][i - 1];
        }
      }
    }
  }

  /** The batches a forwarded event makes the consumer remove, once its iterator is drained. */
  function Yielded(m: Batches, out: Option<CdcEvent>): seq<Deleted> {
    match out
    case Some(Delete(_, ids)) => Drain(m, ids)
    case _ => []
  }

  /** The batches that what is forwarded for this event yields, after a history. */
  function DeletedBy(h: seq<Event>, pruned: seq<bool>, e: Event): seq<Deleted>
    requires |h| == |pruned|
  {
    var m := StoreAfter(h, pruned);
    Yielded(m, Forward(m, e))
  }

  lemma YieldedByUndo(m: Batches, e: Event)
    requires e.Undo?
    ensures Yielded(m, Forward(m, e)) == Drain(m, RangeKeys(m, e.lo, e.hi))
  {
  }

  /** What an Undo yields: ascending, exactly the inserted batches of its range that were not pruned. */
  lemma DeleteContents(h: seq<Event>, pruned: seq<bool>, next: TransactionId, e: Event)
    requires |h| == |pruned| && HistoryOk(h, next) && e.Undo?
    ensures var d := DeletedBy(h, pruned, e);
            && (forall i, j :: 0 <= i < j < |d| ==> d[i].id < d[j].id)
            && (forall x :: x in d <==>
                  e.lo <= x.id <= e.hi && FirstKept(h, pruned) <= x.id && DataAt(h, x.id) == Some(x.batch))
  {
    var m := StoreAfter(h, pruned);
    var ids := RangeKeys(m, e.lo, e.hi);
    var d := DeletedBy(h, pruned, e);
    YieldedByUndo(m, e);
    DrainIndex(m, ids);
    forall x: Deleted ensures x in d <==>
        e.lo <= x.id <= e.hi && FirstKept(h, pruned) <= x.id && DataAt(h, x.id) == Some(x.batch) {
      StoreContents(h, pruned, next, x.id);
      if x.id in ids {
        var i :| 0 <= i < |ids| && ids[i] == x.id;
        assert d[i] == Deleted(x.id, m[x.id]);
      }
    }
  }

  /** An Undo misses nothing exactly when no batch of its range was pruned before. */
  lemma DeleteComplete(h: seq<Event>, pruned: seq<bool>, next: TransactionId, e: Event)
    requires |h| == |pruned| && HistoryOk(h, next) && e.Undo?
    ensures (forall id: TransactionId :: e.lo <= id <= e.hi && DataAt(h, id).Some? ==>
               Deleted(id, DataAt(h, id).value) in DeletedBy(h, pruned, e))
       <==> (forall id: TransactionId :: e.lo <= id <= e.hi && id < FirstKept(h, pruned) ==> DataAt(h, id).None?)
  {
    DeleteContents(h, pruned, next, e);
    var d := DeletedBy(h, pruned, e);
    forall id: TransactionId | e.lo <= id <= e.hi && DataAt(h, id).Some?
      ensures Deleted(id, DataAt(h, id).value) in d <==> FirstKept(h, pruned) <= id {
      assert Deleted(id, DataAt(h, id).value) in d <==> FirstKept(h, pruned) <= id;
    }
  }

  // ---- What the forwarding consumer is left with -----------------------------------------------------

  function ApplyDeletes(t: Batches, d: seq<Deleted>): Batches {
    if d == [] then t else ApplyDeletes(t - {d[0].id}, d[1..])
  }

  /** What the consumer makes of a forwarded event: it adds an insert, and drains a delete and removes its batches. */
  function Received(t: Batches, m: Batches, out: Option<CdcEvent>): Batches {
    match out
    case None => t
    case Some(Insert(id, batch)) => t[id := batch]
    case Some(Delete(_, ids)) => ApplyDeletes(t, Drain(m, ids))
  }

  /** The consumer's batches after a history, from what was forwarded for each event of it. */
  function Downstream(h: seq<Event>, pruned: seq<bool>): Batches
    requires |h| == |pruned|
  {
    if h == [] then map[]
    else
      var m := StoreAfter(Front(h), Front(pruned));
      Received(Downstream(Front(h), Front(pruned)), m, Forward(m, Last(h)))
  }

  /** What one more event does to the consumer's batches. */
  lemma DownstreamSnoc(h: seq<Event>, pruned: seq<bool>)
    requires |h| == |pruned| && h != []
    ensures var t := Downstream(Front(h), Front(pruned));
            Downstream(h, pruned) ==
              match Last(h)
              case Data(id, batch, _) => t[id := batch]
              case Undo(_, _, _, _) => ApplyDeletes(t, DeletedBy(Front(h), Front(pruned), Last(h)))
              case Watermark(_, _, _) => t
  {
  }

  /** Some Undo covers this id while its batch is still stored. */
  predicate Retracted(h: seq<Event>, pruned: seq<bool>, id: TransactionId)
    requires |h| == |pruned|
  {
    h != [] &&
    (|| Retracted(Front(h), Front(pruned), id)
     || (Last(h).Undo? && Last(h).lo <= id <= Last(h).hi && FirstKept(Front(h), Front(pruned)) <= id))
  }

  lemma {:induction false} ApplyDeletesFetch(t: Batches, d: seq<Deleted>, id: TransactionId)
    ensures Fetch(ApplyDeletes(t, d), id) == if exists x :: x in d && x.id == id then None else Fetch(t, id)
  {
    if d == [] {
    } else {
      ApplyDeletesFetch(t - {d[0].id}, d[1..], id);
      if exists x :: x in d && x.id == id {
        var x :| x in d && x.id == id;
        assert x == d[0] || x in d[1..];
      }
      assert d[0] in d;
    }
  }

  lemma {:induction false} NotRetractedEarly(h: seq<Event>, pruned: seq<bool>, next: TransactionId, id: TransactionId)
    requires |h| == |pruned| && HistoryOk(h, next) && next <= id
    ensures !Retracted(h, pruned, id)
  {
    if h == [] {
    } else {
      HistoryFront(h, next);
      NotRetractedEarly(Front(h), Front(pruned), Last(h).id, id);
    }
  }

  lemma UndoDownstream(h: seq<Event>, pruned: seq<bool>, t: Batches, e: Event, next: TransactionId, id: TransactionId)
    requires |h| == |pruned| && HistoryOk(h, next) && e.Undo?
    requires Fetch(t, id) == if Retracted(h, pruned, id) then None else DataAt(h, id)
    ensures Fetch(ApplyDeletes(t, DeletedBy(h, pruned, e)), id) ==
            if e.lo <= id <= e.hi && FirstKept(h, pruned) <= id then None else Fetch(t, id)
  {
    var d := DeletedBy(h, pruned, e);
    DeleteContents(h, pruned, next, e);
    ApplyDeletesFetch(t, d, id);
    if e.lo <= id <= e.hi && FirstKept(h, pruned) <= id && DataAt(h, id).Some? {
      assert Deleted(id, DataAt(h, id).value) in d;
    }
  }

  /** The consumer holds a batch exactly when it was inserted and never retracted. */
  lemma {:induction false} DownstreamContents(h: seq<Event>, pruned: seq<bool>, next: TransactionId, id: TransactionId)
    requires |h| == |pruned| && HistoryOk(h, next)
    ensures Fetch(Downstream(h, pruned), id) == if Retracted(h, pruned, id) then None else DataAt(h, id)
  {
    if h == [] {
    } else {
      HistoryFront(h, next);
      DownstreamContents(Front(h), Front(pruned), Last(h).id, id);
      DownstreamSnoc(h, pruned);
      match Last(h)
      case Data(d, batch, _) => NotRetractedEarly(Front(h), Front(pruned), d, d);
      case Undo(_, _, _, _) =>
        UndoDownstream(Front(h), Front(pruned), Downstream(Front(h), Front(pruned)), Last(h), Last(h).id, id);
      case Watermark(_, _, _) =>
    }
  }

  /** Some Undo is the first to cover an inserted batch, and that batch had been pruned by then. */
  ghost predicate Missed(h: seq<Event>, pruned: seq<bool>)
    requires |h| == |pruned|
  {
    h != [] && (Missed(Front(h), Front(pruned)) || MissedAt(Front(h), Front(pruned), Last(h)))
  }

  ghost predicate MissedAt(h: seq<Event>, pruned: seq<bool>, e: Event)
    requires |h| == |pruned|
  {
    e.Undo? && exists id: TransactionId ::
      e.lo <= id <= e.hi && id < FirstKept(h, pruned) && DataAt(h, id).Some? && !Undone(h, id)
  }

  /** The consumer still holds a batch that some Undo told it to remove. */
  ghost predicate Stale(h: seq<Event>, pruned: seq<bool>, id: TransactionId)
    requires |h| == |pruned|
  {
    Undone(h, id) && id in Downstream(h, pruned)
  }

  /** What one more event does to a batch the consumer holds or not. */
  lemma HeldSnoc(h: seq<Event>, pruned: seq<bool>, next: TransactionId, id: TransactionId)
    requires |h| == |pruned| && h != [] && HistoryOk(h, next)
    ensures var before := id in Downstream(Front(h), Front(pruned));
            id in Downstream(h, pruned) <==>
              match Last(h)
              case Data(d, _, _) => before || id == d
              case Undo(_, _, lo, hi) => before && !(lo <= id <= hi && FirstKept(Front(h), Front(pruned)) <= id)
              case Watermark(_, _, _) => before
  {
    HistoryFront(h, next);
    DownstreamSnoc(h, pruned);
    if Last(h).Undo? {
      DownstreamContents(Front(h), Front(pruned), Last(h).id, id);
      UndoDownstream(Front(h), Front(pruned), Downstream(Front(h), Front(pruned)), Last(h), Last(h).id, id);
    }
  }

  /** A batch that no Undo covers was never retracted, so the consumer holds it. */
  lemma SurvivorHeld(h: seq<Event>, pruned: seq<bool>, next: TransactionId, id: TransactionId)
    requires |h| == |pruned| && HistoryOk(h, next) && DataAt(h, id).Some? && !Undone(h, id)
    ensures id in Downstream(h, pruned)
  {
    DownstreamContents(h, pruned, next, id);
    if Retracted(h, pruned, id) {
      RetractedIsUndone(h, pruned, id);
    }
  }

  /** The consumer only holds batches that were inserted. */
  lemma HeldInserted(h: seq<Event>, pruned: seq<bool>, next: TransactionId, id: TransactionId)
    requires |h| == |pruned| && HistoryOk(h, next) && id in Downstream(h, pruned)
    ensures DataAt(h, id).Some?
  {
    DownstreamContents(h, pruned, next, id);
  }

  lemma StaleSnoc(h: seq<Event>, pruned: seq<bool>, next: TransactionId, id: TransactionId)
    requires |h| == |pruned| && h != [] && HistoryOk(h, next) && Stale(Front(h), Front(pruned), id)
    requires id < FirstKept(Front(h), Front(pruned))
    ensures Stale(h, pruned, id) && id < FirstKept(h, pruned)
  {
    UndoneLonger(h, id);
    HeldSnoc(h, pruned, next, id);
  }

  lemma UndoneLonger(h: seq<Event>, id: TransactionId)
    requires h != []
    ensures Undone(Front(h), id) ==> Undone(h, id)
    ensures Last(h).Undo? && Last(h).lo <= id <= Last(h).hi ==> Undone(h, id)
  {
    assert h == Front(h) + [Last(h)];
    UndoneSnoc(Front(h), Last(h), id);
  }

  lemma MissedAtIsStale(h: seq<Event>, pruned: seq<bool>, next: TransactionId) returns (id: TransactionId)
    requires |h| == |pruned| && h != [] && HistoryOk(h, next) && MissedAt(Front(h), Front(pruned), Last(h))
    ensures Stale(h, pruned, id) && id < FirstKept(h, pruned)
  {
    var before, e := Front(h), Last(h);
    HistoryFront(h, next);
    id :| e.lo <= id <= e.hi && id < FirstKept(before, Front(pruned)) &&
          DataAt(before, id).Some? && !Undone(before, id);
    SurvivorHeld(before, Front(pruned), e.id, id);
    UndoneLonger(h, id);
    HeldSnoc(h, pruned, next, id);
  }

  lemma {:induction false} MissedIsStale(h: seq<Event>, pruned: seq<bool>, next: TransactionId)
    returns (id: TransactionId)
    requires |h| == |pruned| && HistoryOk(h, next) && Missed(h, pruned)
    ensures Stale(h, pruned, id) && id < FirstKept(h, pruned)
  {
    if Missed(Front(h), Front(pruned)) {
      HistoryFront(h, next);
      id := MissedIsStale(Front(h), Front(pruned), Last(h).id);
      StaleSnoc(h, pruned, next, id);
    } else {
      id := MissedAtIsStale(h, pruned, next);
    }
  }

  lemma UndoneBelow(h: seq<Event>, next: TransactionId, id: TransactionId)
    requires HistoryOk(h, next) && Undone(h, id)
    ensures id < next
  {
  }

  lemma {:induction false} StaleIsMissed(h: seq<Event>, pruned: seq<bool>, next: TransactionId, id: TransactionId)
    requires |h| == |pruned| && HistoryOk(h, next) && Stale(h, pruned, id)
    ensures Missed(h, pruned)
  {
    if h == [] {
    } else {
      HistoryFront(h, next);
      assert h == Front(h) + [Last(h)];
      UndoneSnoc(Front(h), Last(h), id);
      HeldSnoc(h, pruned, next, id);
      if Undone(Front(h), id) {
        UndoneBelow(Front(h), Last(h).id, id);
        StaleIsMissed(Front(h), Front(pruned), Last(h).id, id);
      } else {
        HeldInserted(Front(h), Front(pruned), Last(h).id, id);
      }
    }
  }

  /**
   * The forwarding consumer ends with exactly the batches that no Undo covers, if and only if every batch was still
   * stored when the first Undo that covers it was emitted.
   */
  lemma ForwardingExact(h: seq<Event>, pruned: seq<bool>, next: TransactionId)
    requires |h| == |pruned| && HistoryOk(h, next)
    ensures (forall id: TransactionId ::
               Fetch(Downstream(h, pruned), id) == if Undone(h, id) then None else DataAt(h, id))
       <==> !Missed(h, pruned)
  {
    if Missed(h, pruned) {
      var id := MissedIsStale(h, pruned, next);
      assert Fetch(Downstream(h, pruned), id).Some?;
    } else {
      forall id: TransactionId
        ensures Fetch(Downstream(h, pruned), id) == if Undone(h, id) then None else DataAt(h, id) {
        DownstreamContents(h, pruned, next, id);
        if Retracted(h, pruned, id) {
          RetractedIsUndone(h, pruned, id);
        }
        if Stale(h, pruned, id) {
          StaleIsMissed(h, pruned, next, id);
        }
      }
    }
  }

  lemma {:induction false} RetractedIsUndone(h: seq<Event>, pruned: seq<bool>, id: TransactionId)
    requires |h| == |pruned| && Retracted(h, pruned, id)
    ensures Undone(h, id)
  {
    assert h == Front(h) + [Last(h)];
    if Retracted(Front(h), Front(pruned), id) {
      RetractedIsUndone(Front(h), Front(pruned), id);
    }
    UndoneSnoc(Front(h), Last(h), id);
  }
}
