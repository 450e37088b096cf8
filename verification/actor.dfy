/** The state actor and its searches as the source runs them, proved against module Transactional. */
module StateActor {
  import opened Types
  import opened Sequences
  import opened Transactional
  import opened StateStore

  method BuildPoints(invalidation: seq<InvalidationRange>) returns (points: map<string, BlockNumber>)
    ensures points == Points(invalidation)
  {
    points := map[];
    for n := 0 to |invalidation|
      invariant points == Points(invalidation[..n])
    {
      points := points[invalidation[n].network := invalidation[n].start];
      assert Front(invalidation[..n + 1]) == invalidation[..n];
    }
    assert invalidation[..|invalidation|] == invalidation;
  }

  /** Walks the watermarks from newest to oldest. */
  method FindRecoveryPoint(buffer: seq<Entry>, invalidation: seq<InvalidationRange>) returns (r: Option<Entry>)
    ensures var k := RecoveryIndex(buffer, Points(invalidation));
            r == if k < 0 then None else Some(buffer[k])
  {
    if buffer == [] {
      return None;
    }
    var points := BuildPoints(invalidation);
    var i := |buffer|;
    while i > 0
      invariant 0 <= i <= |buffer|
      invariant RecoveryIndex(buffer, points) == RecoveryIndex(buffer[..i], points)
    {
      i := i - 1;
      assert Front(buffer[..i + 1]) == buffer[..i] && Last(buffer[..i + 1]) == buffer[i];
      if !Affected(buffer[i].ranges, points) {
        return Some(buffer[i]);
      }
    }
    return None;
  }

  method BuildCutoffs(newest: seq<BlockRange>, retention: BlockNumber) returns (cutoffs: map<string, BlockNumber>)
    ensures cutoffs == Cutoffs(newest, retention)
  {
    cutoffs := map[];
    for n := 0 to |newest|
      invariant cutoffs == Cutoffs(newest[..n], retention)
    {
      cutoffs := cutoffs[newest[n].network := SaturatingSub(newest[n].start, retention)];
      assert Front(newest[..n + 1]) == newest[..n];
    }
    assert newest[..|newest|] == newest;
  }

  /** Every range the walk over one watermark reaches has a cutoff; the source panics on one without. */
  predicate RangesFound(ranges: seq<BlockRange>, cutoffs: map<string, BlockNumber>) {
    ranges == [] ||
    (ranges[0].network in cutoffs && (ranges[0].end < cutoffs[ranges[0].network] ==> RangesFound(ranges[1..], cutoffs)))
  }

  /** The same for every watermark the walk over the buffer reaches. */
  predicate EntriesFound(buffer: seq<Entry>, cutoffs: map<string, BlockNumber>) {
    buffer == [] ||
    (RangesFound(buffer[0].ranges, cutoffs) &&
     (Outside(buffer[0].ranges, cutoffs) ==> EntriesFound(buffer[1..], cutoffs)))
  }

  predicate CutoffsFound(buffer: seq<Entry>, retention: BlockNumber) {
    buffer != [] ==> EntriesFound(Front(buffer), Cutoffs(Last(buffer).ranges, retention)) || Last(buffer).ranges == []
  }

  method IsOutside(ranges: seq<BlockRange>, cutoffs: map<string, BlockNumber>) returns (outside: bool)
    requires RangesFound(ranges, cutoffs)
    ensures outside == Outside(ranges, cutoffs)
  {
    for j := 0 to |ranges|
      invariant forall n :: 0 <= n < j ==> ranges[n].network in cutoffs && ranges[n].end < cutoffs[ranges[n].network]
      invariant RangesFound(ranges[j..], cutoffs)
    {
      assert ranges[j..][1..] == ranges[j + 1..];
      if ranges[j].end >= cutoffs[ranges[j].network] {
        return false;
      }
    }
    return true;
  }

  /** Walks the watermarks from oldest to newest, never reaching the newest one. */
  method FindPruningPoint(buffer: seq<Entry>, retention: BlockNumber) returns (last: Option<TransactionId>)
    requires CutoffsFound(buffer, retention)
    ensures last == PruningPoint(buffer, retention)
  {
    if buffer == [] || buffer[|buffer| - 1].ranges == [] {
      return None;
    }
    var cutoffs := BuildCutoffs(buffer[|buffer| - 1].ranges, retention);
    var older := buffer[..|buffer| - 1];
    ghost var k := OutsidePrefix(older, cutoffs);
    last := None;
    var i := 0;
    while i < |older|
      invariant 0 <= i <= k
      invariant last == if i == 0 then None else Some(buffer[i - 1].id)
      invariant EntriesFound(older[i..], cutoffs)
    {
      assert older[i..][1..] == older[i + 1..];
      var outside := IsOutside(older[i].ranges, cutoffs);
      if !outside {
        break;
      }
      last := Some(older[i].id);
      i := i + 1;
    }
  }

  lemma {:induction false} KnownRangesFound(ranges: seq<BlockRange>, cutoffs: map<string, BlockNumber>)
    requires Networks(ranges) <= cutoffs.Keys
    ensures RangesFound(ranges, cutoffs)
  {
    if ranges == [] {
    } else {
      assert ranges[0].network in Networks(ranges);
      assert Networks(ranges[1..]) <= Networks(ranges);
      KnownRangesFound(ranges[1..], cutoffs);
    }
  }

  lemma {:induction false} KnownEntriesFound(buffer: seq<Entry>, cutoffs: map<string, BlockNumber>)
    requires forall e :: e in buffer ==> Networks(e.ranges) <= cutoffs.Keys
    ensures EntriesFound(buffer, cutoffs)
  {
    if buffer == [] {
    } else {
      assert buffer[0] in buffer;
      KnownRangesFound(buffer[0].ranges, cutoffs);
      KnownEntriesFound(buffer[1..], cutoffs);
    }
  }

  /** The walk finds every cutoff where all buffered networks are among those of the newest watermark. */
  lemma KnownCutoffsFound(buffer: seq<Entry>, newest: Entry, retention: BlockNumber)
    requires forall e :: e in buffer ==> newest.ranges == [] || Networks(e.ranges) <= Networks(newest.ranges)
    ensures CutoffsFound(buffer + [newest], retention)
  {
    assert Front(buffer + [newest]) == buffer;
    if newest.ranges != [] {
      KnownEntriesFound(buffer, Cutoffs(newest.ranges, retention));
    }
  }

  /** `Commit::new`: collect the watermarks, keep the largest prune point, drop what it covers. */
  method CompressPending(pending: seq<Pending>) returns (c: Commit)
    ensures c == Compress(pending)
  {
    var insert: seq<Entry> := [];
    var prune: Option<TransactionId> := None;
    for i := 0 to |pending|
      invariant insert == Entries(pending[..i])
      invariant prune == LargestPrune(pending[..i])
    {
      assert pending[..i + 1] == pending[..i] + [pending[i]] && Front(pending[..i + 1]) == pending[..i];
      EntriesConcat(pending[..i], [pending[i]]);
      insert := insert + [pending[i].entry];
      if pending[i].prune.Some? {
        prune := Some(if prune.None? then pending[i].prune.value else Max(prune.value, pending[i].prune.value));
      }
    }
    assert pending[..|pending|] == pending;
    if prune.Some? {
      insert := Filter(insert, IdAbove(prune.value));
    }
    c := Commit(insert, prune);
  }

  method PendingPosition(pending: seq<Pending>, id: TransactionId) returns (pos: nat)
    ensures pos == CommitPosition(pending, id)
  {
    pos := 0;
    while pos < |pending| && pending[pos].entry.id <= id
      invariant 0 <= pos <= CommitPosition(pending, id)
    {
      pos := pos + 1;
    }
  }

  class StateActor {
    const store: InMemoryStateStore
    const retention: BlockNumber
    var next: TransactionId
    var buffer: seq<Entry>
    var uncommitted: seq<Pending>

    ghost function View(): Machine
      reads this, store
    {
      Machine(Actor(retention, next, buffer, uncommitted), store.state)
    }

    /** The state before the id of the current action was taken. */
    ghost static function Unadvanced(m: Machine): Machine
      requires m.actor.next > 0
    {
      Machine(m.actor.(next := m.actor.next - 1), m.disk.(next := m.actor.next - 1))
    }

    /** Rehydrates the in-memory state from the store. */
    constructor (store: InMemoryStateStore, retention: BlockNumber)
      ensures this.store == store && View() == Open(store.state, retention)
    {
      this.store := store;
      this.retention := retention;
      new;
      var state := store.Load();
      next := state.next;
      buffer := state.buffer;
      uncommitted := [];
    }

    /** The decision whether a freshly opened stream must rewind first. */
    method NeedsRewind() returns (rewind: bool)
      ensures rewind == RewindNeeded(View().actor)
    {
      if buffer == [] {
        rewind := next > 0;
      } else {
        rewind := next > buffer[|buffer| - 1].id + 1;
      }
    }

    method Execute(action: Action) returns (r: Result<Event, ReorgError>)
      requires action.Message? && action.message.WatermarkMessage? ==>
                 CutoffsFound(buffer + [Entry(next, action.message.ranges)], retention)
      modifies this, store
      ensures Outcome(r, View()) == Transactional.Execute(old(View()), action)
    {
      var id := next;
      next := next + 1;
      store.Advance(next);
      match action {
        case Rewind =>
          var lo := 0;
          if buffer != [] {
            lo := buffer[|buffer| - 1].id + 1;
          }
          r := Ok(Undo(id, RewindCause, lo, SaturatingSub(id, 1)));
        case Message(message) => r := Handle(id, message);
      }
    }

    /** What a message does once its id is taken. */
    method Handle(id: TransactionId, message: ProtocolMessage) returns (r: Result<Event, ReorgError>)
      requires next == id + 1 && store.state.next == id + 1
      requires message.WatermarkMessage? ==> CutoffsFound(buffer + [Entry(id, message.ranges)], retention)
      modifies this, store
      ensures Outcome(r, View()) == Transactional.Execute(Unadvanced(old(View())), Message(message))
    {
      match message {
        case DataMessage(batch, ranges) => r := Ok(Data(id, batch, ranges));
        case WatermarkMessage(ranges) =>
          var event := Confirm(id, ranges);
          r := Ok(event);
        case ReorgMessage(_, _, _) => r := Recover(id, message);
      }
    }

    /** The watermark branch: buffer it and decide what its commit will prune. */
    method Confirm(id: TransactionId, ranges: seq<BlockRange>) returns (event: Event)
      requires next == id + 1 && store.state.next == id + 1
      requires CutoffsFound(buffer + [Entry(id, ranges)], retention)
      modifies this
      ensures Outcome(Ok(event), View()) ==
              Transactional.Execute(Unadvanced(old(View())), Message(WatermarkMessage(ranges)))
    {
      buffer := buffer + [Entry(id, ranges)];
      var prune := FindPruningPoint(buffer, retention);
      uncommitted := uncommitted + [Pending(Entry(id, ranges), prune)];
      event := Watermark(id, ranges, prune);
    }

    /** The reorg branch: find the newest untouched watermark and drop everything after it. */
    method Recover(id: TransactionId, message: ProtocolMessage) returns (r: Result<Event, ReorgError>)
      requires next == id + 1 && store.state.next == id + 1 && message.ReorgMessage?
      modifies this, store
      ensures Outcome(r, View()) == Transactional.Execute(Unadvanced(old(View())), Message(message))
    {
      var invalidation := message.invalidation;
      var recovery := FindRecoveryPoint(buffer, invalidation);
      var lo := 0;
      match recovery {
        case None =>
          if buffer != [] {
            return Err(Unrecoverable);
          }
        case Some(entry) =>
          if SplitsRange(entry.ranges, invalidation) {
            return Err(PartialReorg);
          }
          lo := entry.id + 1;
      }
      var from := (if recovery.Some? then recovery.value.id else 0) + 1;
      buffer := Filter(buffer, IdBelow(from));
      store.Truncate(from);
      uncommitted := Filter(uncommitted, PendingBelow(from));
      r := Ok(Undo(id, ReorgCause(invalidation), lo, SaturatingSub(id, 1)));
    }

    method Commit(id: TransactionId)
      modifies this, store
      ensures View() == CommitUpTo(old(View()), id)
    {
      var pos := PendingPosition(uncommitted, id);
      if pos == 0 {
        EmptyPrefix(View());
        return;
      }
      var compressed := CompressPending(uncommitted[..pos]);
      CompressedCommit(store.state, uncommitted[..pos]);
      if compressed.insert != [] || compressed.prune.Some? {
        if compressed.prune.Some? {
          buffer := Filter(buffer, IdAbove(compressed.prune.value));
        }
        store.Commit(compressed);
      }
      uncommitted := uncommitted[pos..];
    }
  }
}
