/** Reachable runs in which a reorg loses blocks. */
module GapExamples {
  import opened Types
  import opened Sequences
  import opened Validation
  import opened Protocol
  import opened Transactional
  import opened Recovery
  import opened RangeOrder
  import opened Runs

  lemma AcceptedPair(p: BlockRange, r: BlockRange)
    requires p.network == r.network && r != p && 0 < r.start <= p.end
    requires r.prevHash.Some? && r.prevHash.value != ZERO_HASH && r.prevHash.value != p.hash
    ensures Validate([p], [r]).Ok?
    ensures Invalidations([p], [r]) == [InvalidationRange(r.network, r.start, Max(r.end, p.end))]
  {
    SingleFind([p], r.network);
    SingleInvalidation([p], r);
    NetworksStayStable([p], [r]);
    assert Networks([p]) == {p.network} && Networks([r]) == {r.network};
    assert JumpsBack(p, r);
  }

  lemma AcceptedNext(p: BlockRange, r: BlockRange)
    requires p.network == r.network && r.start == p.end + 1
    requires r.prevHash == Some(p.hash) && p.hash != ZERO_HASH
    ensures Validate([p], [r]).Ok? && Invalidations([p], [r]) == []
  {
    SingleFind([p], r.network);
    SingleInvalidation([p], r);
    NetworksStayStable([p], [r]);
    assert Networks([p]) == {p.network} && Networks([r]) == {r.network};
  }

  const THIRD := [BlockRange("eth", 21, 30, 9, Some(8))]
  const INTO_OPEN := [BlockRange("eth", 15, 25, 10, Some(6))]
  const PAST_OPEN := [BlockRange("eth", 21, 35, 10, Some(6))]

  const ONE_OPEN := [INSERTED, CONFIRMED, Data(2, ROWS, SECOND)]
  const TWO_OPEN := ONE_OPEN + [Data(3, ROWS, THIRD)]

  const OPEN_ONE := [Restart(0)] + Deliver(Response(ROWS, FIRST, false)) + Deliver(Response([], FIRST, true)) +
                    Deliver(Response(ROWS, SECOND, false))
  const OPEN_TWO := OPEN_ONE + Deliver(Response(ROWS, THIRD, false))

  lemma OneOpenRun()
    ensures Streaming(3, [Entry(1, FIRST)], SECOND, ONE_OPEN, Run(INITIAL, OPEN_ONE))
  {
    RangesAccepted();
    FirstTwo();
    var c := [Restart(0)] + Deliver(Response(ROWS, FIRST, false)) + Deliver(Response([], FIRST, true));
    RunConcat(INITIAL, c, Deliver(Response(ROWS, SECOND, false)));
    DeliverData(Run(INITIAL, c), Response(ROWS, SECOND, false), 2, [Entry(1, FIRST)], FIRST, [INSERTED, CONFIRMED]);
    assert [INSERTED, CONFIRMED] + [Data(2, ROWS, SECOND)] == ONE_OPEN;
  }

  lemma TwoOpenRun()
    ensures Streaming(4, [Entry(1, FIRST)], THIRD, TWO_OPEN, Run(INITIAL, OPEN_TWO))
  {
    OneOpenRun();
    AcceptedNext(SECOND[0], THIRD[0]);
    assert SECOND == [SECOND[0]] && THIRD == [THIRD[0]];
    RunConcat(INITIAL, OPEN_ONE, Deliver(Response(ROWS, THIRD, false)));
    DeliverData(Run(INITIAL, OPEN_ONE), Response(ROWS, THIRD, false), 3, [Entry(1, FIRST)], SECOND, ONE_OPEN);
  }

  /** Of these watermarks, a reorg at `v` recovers to the first. */
  ghost predicate KeepsFirst(buffer: seq<Entry>, v: InvalidationRange) {
    && buffer != [] && buffer[0] == Entry(1, FIRST)
    && RecoveryIndex(buffer, Points([v])) == 0 && !SplitsRange(FIRST, [v])
    && Filter(buffer, IdBelow(2)) == [Entry(1, FIRST)]
  }

  lemma KeepsOnly(v: InvalidationRange)
    requires v.network == "eth" && v.start > 10
    ensures KeepsFirst([Entry(1, FIRST)], v)
  {
    assert FIRST == [FIRST[0]];
    SingleTests(FIRST[0], v);
    TruncateAt([Entry(1, FIRST)], 0);
  }

  lemma KeepsFirstOfTwo(v: InvalidationRange)
    requires v.network == "eth" && 10 < v.start <= 21
    ensures KeepsFirst([Entry(1, FIRST), Entry(3, THIRD)], v)
  {
    var both := [Entry(1, FIRST), Entry(3, THIRD)];
    assert FIRST == [FIRST[0]] && THIRD == [THIRD[0]];
    SingleTests(FIRST[0], v);
    SingleTests(THIRD[0], v);
    assert Front(both) == [Entry(1, FIRST)];
    TruncateAt(both, 0);
    assert both[..1] == [Entry(1, FIRST)];
  }

  /** A reorg that recovers to the first watermark undoes everything after it. */
  lemma ReorgPastFirst(w: World, next: TransactionId, buffer: seq<Entry>, h: seq<Event>, p: BlockRange, r: BlockRange)
    requires Streaming(next, buffer, [p], h, w) && next >= 3
    requires Validate([p], [r]).Ok?
    requires Invalidations([p], [r]) == [InvalidationRange(r.network, r.start, Max(r.end, p.end))]
    requires KeepsFirst(buffer, InvalidationRange(r.network, r.start, Max(r.end, p.end)))
    ensures var w' := Run(w, Deliver(Response([], [r], true)));
            var v := InvalidationRange(r.network, r.start, Max(r.end, p.end));
            && w'.history == h + [Undo(next, ReorgCause([v]), 2, next - 1)]
            && w'.live.Some? && w'.live.value.actor.buffer == [Entry(1, FIRST)]
            && w'.live.value.queue == [WatermarkMessage([r])]
  {
    var response, v := Response([], [r], true), InvalidationRange(r.network, r.start, Max(r.end, p.end));
    RunDeliver(w, response);
    ReceivedReorg(w, w.live.value, response, v);
    PumpedPastFirst(Do(w, Receive(response)), next, buffer, v, [p], [r]);
  }

  lemma ReceivedReorg(w: World, s: Session, response: Response, v: InvalidationRange)
    requires w.live == Some(s) && s.queue == [] && !s.rewindDue && response.complete
    requires Validate(s.previous, response.ranges).Ok? && Invalidations(s.previous, response.ranges) == [v]
    ensures var queue := [ReorgMessage(s.previous, response.ranges, [v]), WatermarkMessage(response.ranges)];
            Do(w, Receive(response)) == w.(live := Some(s.(queue := queue)))
  {
    var reorg, last := ReorgMessage(s.previous, response.ranges, [v]), WatermarkMessage(response.ranges);
    assert [reorg] + [last] == [reorg, last];
  }

  lemma PumpedPastFirst(w: World, next: TransactionId, buffer: seq<Entry>, v: InvalidationRange,
                        previous: seq<BlockRange>, ranges: seq<BlockRange>)
    requires w.live.Some? && next >= 3 && KeepsFirst(buffer, v)
    requires var s := w.live.value;
             && s.actor.buffer == buffer && s.actor.next == next
             && s.queue == [ReorgMessage(previous, ranges, [v]), WatermarkMessage(ranges)]
    ensures var w' := Do(w, Pump);
            && w'.history == w.history + [Undo(next, ReorgCause([v]), 2, next - 1)]
            && w'.live.Some? && w'.live.value.actor.buffer == [Entry(1, FIRST)]
            && w'.live.value.queue == [WatermarkMessage(ranges)]
  {
    assert w.live.value.queue[1..] == [WatermarkMessage(ranges)];
  }

  /** The newest watermark ends at block 10, nothing after it survives, and the stream goes on at `first`. */
  ghost predicate LostUpTo(w: World, first: BlockNumber) {
    && w.live.Some? && w.live.value.actor.buffer == [Entry(1, FIRST)] && FIRST[0].end == 10
    && |w.live.value.queue| == 1 && w.live.value.queue[0].WatermarkMessage?
    && |w.live.value.queue[0].ranges| == 1 && w.live.value.queue[0].ranges[0].start == first
    && forall d :: Surviving(w.history, d) ==> d.ranges == FIRST
  }

  /** Up to a reorg of everything after id 1, the only data before it is that of the first range. */
  ghost predicate FirstData(h: seq<Event>, next: TransactionId) {
    forall d :: d in h ==> d.id < next && (d.Data? && d.id < 2 ==> d.ranges == FIRST)
  }

  lemma LosesUpTo(w: World, next: TransactionId, buffer: seq<Entry>, h: seq<Event>, p: BlockRange, r: BlockRange)
    requires Streaming(next, buffer, [p], h, w) && next >= 3 && FirstData(h, next)
    requires Validate([p], [r]).Ok?
    requires Invalidations([p], [r]) == [InvalidationRange(r.network, r.start, Max(r.end, p.end))]
    requires KeepsFirst(buffer, InvalidationRange(r.network, r.start, Max(r.end, p.end)))
    ensures LostUpTo(Run(w, Deliver(Response([], [r], true))), r.start)
  {
    ReorgPastFirst(w, next, buffer, h, p, r);
    var e := Undo(next, ReorgCause([InvalidationRange(r.network, r.start, Max(r.end, p.end))]), 2, next - 1);
    forall d | Surviving(h + [e], d) ensures d.ranges == FIRST {
      SurvivingSnoc(h, e, d);
    }
  }

  /**
   * A reachable run that loses blocks: the reorg point lies inside a range that no watermark has closed yet. Blocks
   * 11 to 14 are undone with the open range 11..20, and the stream goes on at block 15.
   */
  lemma GapExample()
    ensures LostUpTo(Run(INITIAL, OPEN_ONE + Deliver(Response([], INTO_OPEN, true))), 15)
  {
    OneOpenRun();
    assert SECOND == [SECOND[0]] && INTO_OPEN == [INTO_OPEN[0]];
    AcceptedPair(SECOND[0], INTO_OPEN[0]);
    RunConcat(INITIAL, OPEN_ONE, Deliver(Response([], INTO_OPEN, true)));
    KeepsOnly(InvalidationRange("eth", 15, 25));
    LosesUpTo(Run(INITIAL, OPEN_ONE), 3, [Entry(1, FIRST)], ONE_OPEN, SECOND[0], INTO_OPEN[0]);
  }

  /**
   * Another, in which the reorg replaces the last range from its start: blocks 11 to 20 are undone with the open
   * ranges 11..20 and 21..30, and the stream goes on at block 21.
   */
  lemma GapOverOpenRange()
    ensures LostUpTo(Run(INITIAL, OPEN_TWO + Deliver(Response([], PAST_OPEN, true))), 21)
    ensures PAST_OPEN[0].start == THIRD[0].start
  {
    TwoOpenRun();
    assert THIRD == [THIRD[0]] && PAST_OPEN == [PAST_OPEN[0]];
    AcceptedPair(THIRD[0], PAST_OPEN[0]);
    RunConcat(INITIAL, OPEN_TWO, Deliver(Response([], PAST_OPEN, true)));
    KeepsOnly(InvalidationRange("eth", 21, 35));
    LosesUpTo(Run(INITIAL, OPEN_TWO), 4, [Entry(1, FIRST)], TWO_OPEN, THIRD[0], PAST_OPEN[0]);
  }

  const HOLE := [Entry(1, FIRST), Entry(3, THIRD)]
  const CLOSED_THIRD := Watermark(3, THIRD, PruningPoint(HOLE, 0))
  const OVER_HOLE := OPEN_ONE + Deliver(Response([], THIRD, true))

  lemma HoleRun()
    ensures Streaming(4, HOLE, THIRD, ONE_OPEN + [CLOSED_THIRD], Run(INITIAL, OVER_HOLE))
  {
    OneOpenRun();
    AcceptedNext(SECOND[0], THIRD[0]);
    assert SECOND == [SECOND[0]] && THIRD == [THIRD[0]];
    RunConcat(INITIAL, OPEN_ONE, Deliver(Response([], THIRD, true)));
    DeliverWatermark(Run(INITIAL, OPEN_ONE), Response([], THIRD, true), 3, [Entry(1, FIRST)], SECOND, ONE_OPEN);
    assert [Entry(1, FIRST)] + [Entry(3, THIRD)] == HOLE;
  }

  lemma HoleData(e: Event)
    requires e.Watermark? && e.id == 3
    ensures FirstData(ONE_OPEN + [e], 4)
  {
  }

  /**
   * Another, whose last range is closed: the watermarks end at blocks 10 and 30, with the open range 11..20 between
   * them. A reorg to block 21 recovers to block 10, and the stream goes on at block 21.
   */
  lemma GapOverHole()
    ensures LostUpTo(Run(INITIAL, OVER_HOLE + Deliver(Response([], PAST_OPEN, true))), 21)
    ensures PAST_OPEN[0].start <= THIRD[0].end + 1
  {
    HoleRun();
    assert THIRD == [THIRD[0]] && PAST_OPEN == [PAST_OPEN[0]];
    AcceptedPair(THIRD[0], PAST_OPEN[0]);
    RunConcat(INITIAL, OVER_HOLE, Deliver(Response([], PAST_OPEN, true)));
    KeepsFirstOfTwo(InvalidationRange("eth", 21, 35));
    HoleData(CLOSED_THIRD);
    LosesUpTo(Run(INITIAL, OVER_HOLE), 4, HOLE, ONE_OPEN + [CLOSED_THIRD], THIRD[0], PAST_OPEN[0]);
  }

  const UNCONFIRMED := [Restart(0)] + Deliver(Response(ROWS, FIRST, false)) + Deliver(Response(ROWS, SECOND, false))
  const BOTH_DATA := [INSERTED, Data(1, ROWS, SECOND)]
  const AFRESH := [BlockRange("eth", 11, 25, 10, Some(6))]

  lemma UnconfirmedRun()
    ensures Streaming(2, [], SECOND, BOTH_DATA, Run(INITIAL, UNCONFIRMED))
  {
    FirstOne();
    RangesAccepted();
    var a := [Restart(0)] + Deliver(Response(ROWS, FIRST, false));
    RunConcat(INITIAL, a, Deliver(Response(ROWS, SECOND, false)));
    DeliverData(Run(INITIAL, a), Response(ROWS, SECOND, false), 1, [], FIRST, [INSERTED]);
    assert [INSERTED] + [Data(1, ROWS, SECOND)] == BOTH_DATA;
  }

  lemma PumpedUnconfirmed(w: World, v: InvalidationRange, previous: seq<BlockRange>, ranges: seq<BlockRange>)
    requires w.live.Some?
    requires var s := w.live.value;
             && s.actor.buffer == [] && s.actor.next == 2
             && s.queue == [ReorgMessage(previous, ranges, [v]), WatermarkMessage(ranges)]
    ensures Do(w, Pump).history == w.history + [Undo(2, ReorgCause([v]), 0, 1)]
  {
    assert w.live.value.queue[1..] == [WatermarkMessage(ranges)];
  }

  /** Before the first watermark, a reorg to block 11 undoes blocks 0 to 10 as well, and nothing replays them. */
  lemma GapUnconfirmed()
    ensures var w := Run(INITIAL, UNCONFIRMED);
            var w' := Run(w, Deliver(Response([], AFRESH, true)));
            Holds(w.history, 5) && !Holds(w'.history, 5) && !NoBlockLost(w.history, w'.history, AFRESH[0].start)
  {
    UnconfirmedRun();
    var w, response, v := Run(INITIAL, UNCONFIRMED), Response([], AFRESH, true), InvalidationRange("eth", 11, 25);
    assert SECOND == [SECOND[0]] && AFRESH == [AFRESH[0]];
    AcceptedPair(SECOND[0], AFRESH[0]);
    RunDeliver(w, response);
    ReceivedReorg(w, w.live.value, response, v);
    PumpedUnconfirmed(Do(w, Receive(response)), v, SECOND, AFRESH);
    NothingHeld(Undo(2, ReorgCause([v]), 0, 1));
  }

  lemma NothingHeld(e: Event)
    requires e.Undo? && e.lo == 0 && e.hi == 1
    ensures Holds(BOTH_DATA, 5) && forall n: BlockNumber :: !Holds(BOTH_DATA + [e], n)
  {
    assert INSERTED in BOTH_DATA && Surviving(BOTH_DATA, INSERTED);
    forall d ensures !Surviving(BOTH_DATA + [e], d) {
      if Surviving(BOTH_DATA + [e], d) {
        SurvivingSnoc(BOTH_DATA, e, d);
      }
    }
  }
}
