/** When the actor can recover from a reorg, where it recovers to, and which error it reports otherwise. */
module ReorgOutcomes {
  import opened Types
  import opened Sequences
  import opened Protocol
  import opened Transactional
  import opened Recovery
  import opened ExactlyOnce
  import opened RangeOrder

  // ---- Network by network ----------------------------------------------------------------------------

  /** Some network of the watermark starts at or past the point where that network was reorganized. */
  ghost predicate Hit(ranges: seq<BlockRange>, invalidation: seq<InvalidationRange>) {
    exists r, v :: r in ranges && v in invalidation && r.network == v.network && v.start <= r.start
  }

  /** Some network of the watermark was reorganized at a block inside its range. */
  ghost predicate Cut(ranges: seq<BlockRange>, invalidation: seq<InvalidationRange>) {
    exists r, v :: r in ranges && v in invalidation && r.network == v.network && r.start < v.start <= r.end
  }

  lemma {:induction false} PointsNetwork(invalidation: seq<InvalidationRange>, network: string)
    ensures network in Points(invalidation) <==> exists v :: v in invalidation && v.network == network
  {
    if invalidation == [] {
    } else {
      PointsNetwork(Front(invalidation), network);
      assert invalidation == Front(invalidation) + [Last(invalidation)];
    }
  }

  lemma AffectedExactly(ranges: seq<BlockRange>, invalidation: seq<InvalidationRange>)
    requires DistinctInvalidation(invalidation)
    ensures Affected(ranges, Points(invalidation)) <==> Hit(ranges, invalidation)
  {
    if Affected(ranges, Points(invalidation)) {
      var i :| 0 <= i < |ranges| && ranges[i].network in Points(invalidation) &&
               ranges[i].start >= Points(invalidation)[ranges[i].network];
      PointsNetwork(invalidation, ranges[i].network);
      var v :| v in invalidation && v.network == ranges[i].network;
      PointsOf(invalidation, v);
      assert ranges[i] in ranges;
    }
    if Hit(ranges, invalidation) {
      var r, v :| r in ranges && v in invalidation && r.network == v.network && v.start <= r.start;
      var i :| 0 <= i < |ranges| && ranges[i] == r;
      PointsOf(invalidation, v);
    }
  }

  lemma SplitsExactly(ranges: seq<BlockRange>, invalidation: seq<InvalidationRange>)
    requires DistinctInvalidation(invalidation)
    ensures SplitsRange(ranges, invalidation) <==> Cut(ranges, invalidation)
  {
    if SplitsRange(ranges, invalidation) {
      var i :| 0 <= i < |ranges| &&
               var v := FindInvalidation(invalidation, ranges[i].network);
               v.Some? && ranges[i].start < v.value.start <= ranges[i].end;
      assert ranges[i] in ranges;
    }
    if Cut(ranges, invalidation) {
      var r, v :| r in ranges && v in invalidation && r.network == v.network && r.start < v.start <= r.end;
      var i :| 0 <= i < |ranges| && ranges[i] == r;
      FindUnique(invalidation, v);
    }
  }

  // ---- One reorg -------------------------------------------------------------------------------------

  /** The watermark at `k` is the newest one that no network of the reorg hits. */
  ghost predicate NewestUnhit(buffer: seq<Entry>, invalidation: seq<InvalidationRange>, k: int) {
    && 0 <= k < |buffer| && !Hit(buffer[k].ranges, invalidation)
    && forall j :: k < j < |buffer| ==> Hit(buffer[j].ranges, invalidation)
  }

  ghost predicate AllHit(buffer: seq<Entry>, invalidation: seq<InvalidationRange>) {
    forall i :: 0 <= i < |buffer| ==> Hit(buffer[i].ranges, invalidation)
  }

  lemma RecoveryExactly(buffer: seq<Entry>, invalidation: seq<InvalidationRange>, k: int)
    requires DistinctInvalidation(invalidation)
    ensures var r := RecoveryIndex(buffer, Points(invalidation));
            && (r < 0 <==> AllHit(buffer, invalidation))
            && (k == r && 0 <= r <==> NewestUnhit(buffer, invalidation, k))
  {
    forall i | 0 <= i < |buffer|
      ensures Affected(buffer[i].ranges, Points(invalidation)) <==> Hit(buffer[i].ranges, invalidation) {
      AffectedExactly(buffer[i].ranges, invalidation);
    }
  }

  /** Everything up to the watermark at `k` stays, and the Undo covers everything after it. */
  ghost predicate RecoversTo(m: Machine, out: Outcome, invalidation: seq<InvalidationRange>, k: nat)
    requires k < |m.actor.buffer|
  {
    && out.result == Ok(Undo(m.actor.next, ReorgCause(invalidation), m.actor.buffer[k].id + 1,
                             SaturatingSub(m.actor.next, 1)))
    && out.machine.actor.buffer == m.actor.buffer[..k + 1]
    && (forall b :: b in out.machine.disk.buffer <==> b in m.disk.buffer && b.id <= m.actor.buffer[k].id)
    && (forall p :: p in out.machine.actor.uncommitted <==>
          p in m.actor.uncommitted && p.entry.id <= m.actor.buffer[k].id)
  }

  /** Nothing but the counters changed. */
  ghost predicate OnlyAdvances(m: Machine, after: Machine) {
    && after.actor == m.actor.(next := m.actor.next + 1)
    && after.disk == m.disk.(next := m.actor.next + 1)
  }

  /** The actor can recover: nothing is buffered, or the newest watermark that is not hit is not cut either. */
  ghost predicate Recoverable(buffer: seq<Entry>, invalidation: seq<InvalidationRange>) {
    buffer == [] || exists k :: NewestUnhit(buffer, invalidation, k) && !Cut(buffer[k].ranges, invalidation)
  }

  /** The newest watermark that is not hit is cut. */
  ghost predicate Partial(buffer: seq<Entry>, invalidation: seq<InvalidationRange>) {
    exists k :: NewestUnhit(buffer, invalidation, k) && Cut(buffer[k].ranges, invalidation)
  }

  /** What the code does, by the index of the recovery watermark. */
  lemma ReorgByIndex(m: Machine, message: ProtocolMessage, r: int)
    requires message.ReorgMessage? && Increasing(m.actor.buffer)
    requires r == RecoveryIndex(m.actor.buffer, Points(message.invalidation))
    ensures var out, b, inv := Execute(m, Message(message)), m.actor.buffer, message.invalidation;
            && (b == [] ==> out.result == Ok(Undo(m.actor.next, ReorgCause(inv), 0, SaturatingSub(m.actor.next, 1))))
            && (out.result == Err(Unrecoverable) <==> r < 0 && b != [])
            && (out.result == Err(PartialReorg) <==> 0 <= r && SplitsRange(b[r].ranges, inv))
            && (0 <= r && !SplitsRange(b[r].ranges, inv) ==> RecoversTo(m, out, inv, r))
            && (out.result.Err? ==> OnlyAdvances(m, out.machine))
  {
    if 0 <= r {
      TruncateAt(m.actor.buffer, r);
      FilterMembers(m.disk.buffer, IdBelow(m.actor.buffer[r].id + 1));
      FilterMembers(m.actor.uncommitted, PendingBelow(m.actor.buffer[r].id + 1));
    }
  }

  /** The same cases in terms of ranges and invalidation. */
  lemma CasesExactly(b: seq<Entry>, inv: seq<InvalidationRange>, r: int)
    requires DistinctInvalidation(inv) && r == RecoveryIndex(b, Points(inv))
    ensures r < 0 <==> AllHit(b, inv)
    ensures 0 <= r && SplitsRange(b[r].ranges, inv) <==> Partial(b, inv)
    ensures b == [] || (0 <= r && !SplitsRange(b[r].ranges, inv)) <==> Recoverable(b, inv)
  {
    RecoveryExactly(b, inv, r);
    if 0 <= r {
      SplitsExactly(b[r].ranges, inv);
    }
    if exists k :: NewestUnhit(b, inv, k) {
      var k :| NewestUnhit(b, inv, k);
      RecoveryExactly(b, inv, k);
    }
    forall k: int | NewestUnhit(b, inv, k) ensures k == r {
      RecoveryExactly(b, inv, k);
    }
  }

  /**
   * What a reorg leads to, for any number of networks: it succeeds exactly when the buffer is recoverable; that the
   * newest watermark that is not hit is cut is a partial reorg, and that all are hit is unrecoverable.
   */
  lemma ReorgExactly(m: Machine, message: ProtocolMessage)
    requires message.ReorgMessage? && DistinctInvalidation(message.invalidation) && Increasing(m.actor.buffer)
    ensures var out, b, inv := Execute(m, Message(message)), m.actor.buffer, message.invalidation;
            && (out.result.Ok? <==> Recoverable(b, inv))
            && (out.result == Err(PartialReorg) <==> Partial(b, inv))
            && (out.result == Err(Unrecoverable) <==> b != [] && AllHit(b, inv))
            && (out.result.Err? ==> OnlyAdvances(m, out.machine))
  {
    var r := RecoveryIndex(m.actor.buffer, Points(message.invalidation));
    ReorgByIndex(m, message, r);
    CasesExactly(m.actor.buffer, message.invalidation, r);
  }

  /** Where a successful reorg recovers to, and what it undoes. */
  lemma RecoveryPoint(m: Machine, message: ProtocolMessage, k: nat)
    requires message.ReorgMessage? && DistinctInvalidation(message.invalidation) && Increasing(m.actor.buffer)
    requires NewestUnhit(m.actor.buffer, message.invalidation, k)
    requires !Cut(m.actor.buffer[k].ranges, message.invalidation)
    ensures RecoversTo(m, Execute(m, Message(message)), message.invalidation, k)
  {
    RecoveryExactly(m.actor.buffer, message.invalidation, k);
    SplitsExactly(m.actor.buffer[k].ranges, message.invalidation);
    ReorgByIndex(m, message, k);
  }

  // ---- Every run -------------------------------------------------------------------------------------

  ghost predicate PendingReorg(w: World) {
    w.live.Some? && w.live.value.queue != [] && w.live.value.queue[0].ReorgMessage?
  }

  lemma PendingFits(w: World)
    requires Inv(w) && PendingReorg(w)
    ensures Increasing(w.live.value.actor.buffer) && DistinctInvalidation(w.live.value.queue[0].invalidation)
  {
  }

  lemma PumpOutcome(w: World)
    requires PendingReorg(w)
    ensures var s := w.live.value;
            Do(w, Pump).live.Some? <==> Execute(Machine(s.actor, w.disk), Message(s.queue[0])).result.Ok?
  {
  }

  lemma PumpSurvives(w: World)
    requires Inv(w) && PendingReorg(w)
    ensures Do(w, Pump).live.Some? <==>
            Recoverable(w.live.value.actor.buffer, w.live.value.queue[0].invalidation)
  {
    PendingFits(w);
    PumpOutcome(w);
    ReorgExactly(Machine(w.live.value.actor, w.disk), w.live.value.queue[0]);
  }

  /** In every run, a session survives a pending reorg exactly when its buffer is recoverable. */
  lemma ReorgSurvivedExactly(steps: seq<Step>)
    requires PendingReorg(Run(INITIAL, steps))
    ensures var w := Run(INITIAL, steps);
            Do(w, Pump).live.Some? <==> Recoverable(w.live.value.actor.buffer, w.live.value.queue[0].invalidation)
  {
    ReachableInv(steps);
    PumpSurvives(Run(INITIAL, steps));
  }

  /** The watermark at `k` is the newest one that starts before `first`, and it ends before it. */
  ghost predicate EndsAhead(buffer: seq<Entry>, first: BlockNumber, k: int) {
    && 0 <= k < |buffer| && |buffer[k].ranges| == 1 && buffer[k].ranges[0].end < first
    && forall j :: k < j < |buffer| ==> |buffer[j].ranges| == 1 && first <= buffer[j].ranges[0].start
  }

  ghost predicate ClosedBefore(buffer: seq<Entry>, first: BlockNumber) {
    exists k :: EndsAhead(buffer, first, k)
  }

  lemma OrderedHits(b: seq<Entry>, v: InvalidationRange, i: nat)
    requires Ordered(b) && i < |b| && Last(b).ranges[0].network == v.network
    ensures Hit(b[i].ranges, [v]) <==> v.start <= b[i].ranges[0].start
    ensures Cut(b[i].ranges, [v]) <==> b[i].ranges[0].start < v.start <= b[i].ranges[0].end
  {
    OrderedTests(b, v, i);
    AffectedExactly(b[i].ranges, [v]);
    SplitsExactly(b[i].ranges, [v]);
  }

  lemma OrderedNewest(b: seq<Entry>, v: InvalidationRange, k: int)
    requires Ordered(b) && (b != [] ==> Last(b).ranges[0].network == v.network)
    ensures NewestUnhit(b, [v], k) && !Cut(b[k].ranges, [v]) <==> EndsAhead(b, v.start, k)
  {
    forall i | 0 <= i < |b|
      ensures Hit(b[i].ranges, [v]) <==> v.start <= b[i].ranges[0].start
      ensures Cut(b[i].ranges, [v]) <==> b[i].ranges[0].start < v.start <= b[i].ranges[0].end {
      OrderedHits(b, v, i);
    }
  }

  lemma OrderedRecoverable(b: seq<Entry>, v: InvalidationRange)
    requires Ordered(b) && (b != [] ==> Last(b).ranges[0].network == v.network)
    ensures Recoverable(b, [v]) <==> b == [] || ClosedBefore(b, v.start)
  {
    if b != [] && Recoverable(b, [v]) {
      var k :| NewestUnhit(b, [v], k) && !Cut(b[k].ranges, [v]);
      OrderedNewest(b, v, k);
    }
    if ClosedBefore(b, v.start) {
      var k :| EndsAhead(b, v.start, k);
      OrderedNewest(b, v, k);
    }
  }

  /**
   * In every run of one-range responses, a session survives a pending reorg exactly when nothing is buffered, or some
   * watermark starts before the replacing range and the newest such one ends before it.
   */
  lemma OneRangeSurvivedExactly(steps: seq<Step>)
    requires OneRangeRun(steps) && PendingReorg(Run(INITIAL, steps))
    ensures var w := Run(INITIAL, steps);
            var s := w.live.value;
            && ReorgPending(s) && OneRange(s.queue[1].ranges)
            && (Do(w, Pump).live.Some? <==>
                s.actor.buffer == [] || ClosedBefore(s.actor.buffer, s.queue[1].ranges[0].start))
  {
    ReachableOrder(steps);
    ReorgSurvivedExactly(steps);
    PendingClosed(Run(INITIAL, steps).history, Run(INITIAL, steps).live.value);
  }

  lemma PendingClosed(h: seq<Event>, s: Session)
    requires OrderSession(h, s) && s.queue != [] && s.queue[0].ReorgMessage?
    ensures ReorgPending(s) && OneRange(s.queue[1].ranges)
    ensures Recoverable(s.actor.buffer, s.queue[0].invalidation) <==>
            s.actor.buffer == [] || ClosedBefore(s.actor.buffer, s.queue[1].ranges[0].start)
  {
    var v := s.queue[0].invalidation[0];
    assert s.queue[0].invalidation == [v];
    OrderedRecoverable(s.actor.buffer, v);
  }
}
