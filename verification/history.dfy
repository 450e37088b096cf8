/** Facts about event histories and the rows they leave. */
module History {
  import opened Types
  import opened Consumer
  import opened Recovery

  /** An Undo names a non-empty range of older ids; a prune point is older than its watermark. */
  ghost predicate EventOk(e: Event) {
    && (e.Undo? ==> e.lo <= e.hi < e.id)
    && (e.Watermark? && e.prune.Some? ==> e.prune.value < e.id)
  }

  /** Ids strictly increase over all runs and stay below the persisted counter. */
  ghost predicate HistoryOk(h: seq<Event>, next: TransactionId) {
    && (forall i, j :: 0 <= i < j < |h| ==> h[i].id < h[j].id)
    && (forall e :: e in h ==> e.id < next && EventOk(e))
  }

  /** No buffered watermark lies between the start of an undone range and the Undo itself. */
  ghost predicate Avoids(h: seq<Event>, buffer: seq<Entry>) {
    forall e, b :: e in h && b in buffer && e.Undo? ==> b.id < e.lo || e.id < b.id
  }

  lemma HistorySnoc(h: seq<Event>, next: TransactionId, e: Event)
    requires HistoryOk(h, next) && e.id == next && EventOk(e)
    ensures HistoryOk(h + [e], next + 1)
  {
    forall i | 0 <= i < |h| ensures h[i].id < e.id {
      assert h[i] in h;
    }
  }

  lemma HistoryPrefix(h: seq<Event>, more: seq<Event>, next: TransactionId)
    requires HistoryOk(h + more, next)
    ensures HistoryOk(h, next)
    ensures more != [] ==> HistoryOk(h, more[0].id) && EventOk(more[0])
  {
    var all := h + more;
    forall i, j | 0 <= i < j < |h| ensures h[i].id < h[j].id {
      assert all[i] == h[i] && all[j] == h[j];
    }
    if more != [] {
      assert all[|h|] == more[0] && more[0] in all;
      forall e | e in h ensures e.id < more[0].id {
        var i :| 0 <= i < |h| && h[i] == e;
        assert all[i] == e;
      }
    }
  }

  lemma AvoidsSubset(h: seq<Event>, buffer: seq<Entry>, smaller: seq<Entry>)
    requires Avoids(h, buffer) && forall b :: b in smaller ==> b in buffer
    ensures Avoids(h, smaller)
  {
  }

  /** A history that grew by at most one event has at most one new event. */
  lemma NewestOnly(h: seq<Event>, h': seq<Event>)
    requires h' == h || (h' != [] && Front(h') == h)
    ensures forall e :: e in h' ==> e in h || (h' != [] && e == Last(h'))
  {
    assert h' != [] ==> h' == Front(h') + [Last(h')];
  }

  // ---- Expected rows ---------------------------------------------------------------------------------

  lemma {:induction false} NoDataAbove(h: seq<Event>, next: TransactionId, tx: TransactionId)
    requires (forall e :: e in h ==> e.id < next) && next <= tx
    ensures DataAt(h, tx).None?
  {
    if h == [] {
    } else {
      assert Last(h) in h;
      NoDataAbove(Front(h), next, tx);
    }
  }

  lemma UndoneSnoc(h: seq<Event>, e: Event, tx: TransactionId)
    ensures Undone(h + [e], tx) <==> Undone(h, tx) || (e.Undo? && e.lo <= tx <= e.hi)
  {
    if Undone(h, tx) {
      var u :| u in h && u.Undo? && u.lo <= tx <= u.hi;
      assert u in h + [e];
    }
    if e.Undo? && e.lo <= tx <= e.hi {
      assert e in h + [e];
    }
  }

  /** What one more event changes: a Data adds its rows, an Undo removes those it covers. */
  lemma ExpectSnoc(h: seq<Event>, e: Event, k: Key)
    requires HistoryOk(h, e.id) && EventOk(e)
    ensures Expect(h + [e], k) ==
            if e.Undo? && e.lo <= k.tx <= e.hi then None
            else if e.Data? && k.tx == e.id then (if k.index < |e.batch| then Some(e.batch[k.index]) else None)
            else Expect(h, k)
  {
    UndoneSnoc(h, e, k.tx);
    assert Front(h + [e]) == h && Last(h + [e]) == e;
    if e.Data? && k.tx == e.id {
      assert !Undone(h, k.tx);
    }
  }

  ghost predicate Untouched(more: seq<Event>, tx: TransactionId) {
    forall e :: e in more ==> (e.Data? ==> e.id != tx) && (e.Undo? ==> !(e.lo <= tx <= e.hi))
  }

  /** Events that neither carry nor cover a transaction do not change what it should hold. */
  lemma {:induction false} ExpectExtend(h: seq<Event>, more: seq<Event>, k: Key)
    requires Untouched(more, k.tx)
    ensures Expect(h + more, k) == Expect(h, k)
  {
    if more == [] {
      assert h + more == h;
    } else {
      var e := Last(more);
      assert e in more;
      assert h + more == (h + Front(more)) + [e];
      assert Front(h + more) == h + Front(more) && Last(h + more) == e;
      ExpectExtend(h, Front(more), k);
      UndoneSnoc(h + Front(more), e, k.tx);
    }
  }

  // ---- Tables against histories ----------------------------------------------------------------------

  ghost predicate TableBelow(t: Table, n: TransactionId) {
    forall k :: k in t ==> k.tx < n
  }

  ghost predicate TableUpTo(t: Table, h: seq<Event>, bound: TransactionId) {
    forall k: Key :: k.tx < bound ==> Lookup(t, k) == Expect(h, k)
  }

  ghost predicate TableExact(t: Table, h: seq<Event>) {
    forall k: Key :: Lookup(t, k) == Expect(h, k)
  }

  /** A table that is right below the counter is right everywhere. */
  lemma BelowIsExact(t: Table, h: seq<Event>, next: TransactionId)
    requires TableBelow(t, next) && HistoryOk(h, next) && TableUpTo(t, h, next)
    ensures TableExact(t, h)
  {
    forall k: Key ensures Lookup(t, k) == Expect(h, k) {
      if next <= k.tx {
        NoDataAbove(h, next, k.tx);
      }
    }
  }

  /** Applying an Undo keeps a table exact for the history that includes it. */
  lemma UndoExact(t: Table, h: seq<Event>, e: Event)
    requires HistoryOk(h, e.id) && EventOk(e) && e.Undo? && TableExact(t, h)
    ensures TableExact(DeleteRange(t, e.lo, e.hi), h + [e])
  {
    forall k: Key ensures Lookup(DeleteRange(t, e.lo, e.hi), k) == Expect(h + [e], k) {
      ExpectSnoc(h, e, k);
      DeleteLookup(t, e.lo, e.hi, k);
    }
  }

  /** An Undo up to its own id repairs a table that is right only below the Undo's start. */
  lemma RewindExact(t: Table, h: seq<Event>, e: Event)
    requires HistoryOk(h, e.id) && EventOk(e) && e.Undo? && e.hi + 1 == e.id
    requires TableUpTo(t, h, e.lo) && TableBelow(t, e.id)
    ensures TableExact(DeleteRange(t, e.lo, e.hi), h + [e])
  {
    forall k: Key ensures Lookup(DeleteRange(t, e.lo, e.hi), k) == Expect(h + [e], k) {
      ExpectSnoc(h, e, k);
      DeleteLookup(t, e.lo, e.hi, k);
      if e.hi < k.tx {
        NoDataAbove(h, e.id, k.tx);
      }
    }
  }
}
