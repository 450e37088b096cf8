/**
 * Streams of one network and one range per response: the watermarks they leave, and exactly when a reorg leaves a gap
 * behind the newest of them.
 */
module RangeOrder {
  import opened Types
  import opened Sequences
  import opened Validation
  import opened Protocol
  import opened Transactional
  import opened Recovery
  import opened History
  import opened ExactlyOnce

  ghost predicate OneRange(ranges: seq<BlockRange>) {
    |ranges| == 1 && ranges[0].start <= ranges[0].end
  }

  /** Every response of the run has one range. */
  ghost predicate OneRangeRun(steps: seq<Step>) {
    forall i :: 0 <= i < |steps| && steps[i].Receive? ==> OneRange(steps[i].response.ranges)
  }

  /** The last ranges were confirmed complete by the newest watermark, or nothing was received yet. */
  ghost predicate Closed(s: Session) {
    s.previous == [] || (s.actor.buffer != [] && Last(s.actor.buffer).ranges == s.previous)
  }

  // ---- The invariant ---------------------------------------------------------------------------------

  /** `b` repeats `a` or starts after it, on the same network. */
  ghost predicate After(a: seq<BlockRange>, b: seq<BlockRange>) {
    OneRange(a) && OneRange(b) && a[0].network == b[0].network && (b == a || a[0].end < b[0].start)
  }

  /** Each watermark repeats or comes after every older one; there may be holes between them. */
  ghost predicate Ordered(buffer: seq<Entry>) {
    && (forall i :: 0 <= i < |buffer| ==> OneRange(buffer[i].ranges))
    && (forall i, j :: 0 <= i < j < |buffer| ==> After(buffer[i].ranges, buffer[j].ranges))
  }

  /** The ranges the stream is at: those being processed, or the last ones processed. */
  ghost function Current(s: Session): seq<BlockRange> {
    if s.queue != [] && !s.queue[0].ReorgMessage? then s.queue[0].ranges else s.previous
  }

  ghost predicate Surviving(h: seq<Event>, d: Event) {
    d in h && d.Data? && !Undone(h, d.id)
  }

  /** Surviving data older than a buffered watermark ends no later than it. */
  ghost predicate DataBehind(h: seq<Event>, buffer: seq<Entry>) {
    forall d, b :: Surviving(h, d) && b in buffer && d.id < b.id ==>
      OneRange(d.ranges) && OneRange(b.ranges) && d.ranges[0].end <= b.ranges[0].end
  }

  /** The id of a buffered watermark is not the id of a data event. */
  ghost predicate NotData(h: seq<Event>, buffer: seq<Entry>) {
    forall d, b :: d in h && b in buffer && d.id == b.id ==> !d.Data?
  }

  ghost predicate BufferOrder(h: seq<Event>, b: seq<Entry>) {
    Ordered(b) && DataBehind(h, b) && NotData(h, b)
  }

  ghost predicate DataUpTo(h: seq<Event>, current: seq<BlockRange>) {
    forall d :: Surviving(h, d) ==> OneRange(d.ranges) && OneRange(current) && d.ranges[0].end <= current[0].end
  }

  ghost predicate ReorgPending(s: Session) {
    |s.queue| == 2 && s.queue[0].ReorgMessage? && !s.queue[1].ReorgMessage?
  }

  /** A pending reorg replaces blocks of the previous range from the start of the incoming one. */
  ghost predicate ReorgMatches(s: Session)
    requires ReorgPending(s)
  {
    && OneRange(s.previous) && OneRange(s.queue[1].ranges)
    && s.queue[1].ranges != s.previous
    && s.queue[1].ranges[0].network == s.previous[0].network
    && s.queue[1].ranges[0].start <= s.previous[0].end
    && |s.queue[0].invalidation| == 1
    && s.queue[0].invalidation[0].network == s.previous[0].network
    && s.queue[0].invalidation[0].start == s.queue[1].ranges[0].start
  }

  ghost predicate OrderSession(h: seq<Event>, s: Session) {
    && BufferOrder(h, s.actor.buffer)
    && (s.actor.buffer != [] ==> After(Last(s.actor.buffer).ranges, Current(s)))
    && ((Current(s) == [] && s.queue == []) || OneRange(Current(s)))
    && (s.previous == [] || OneRange(s.previous))
    && (s.queue == [] || ReorgPending(s) || (|s.queue| == 1 && !s.queue[0].ReorgMessage?))
    && (ReorgPending(s) ==> ReorgMatches(s))
    && (s.rewindDue ==> s.queue == [] && Closed(s))
    && (!s.rewindDue ==> DataUpTo(h, Current(s)))
  }

  ghost predicate OrderInv(w: World) {
    match w.live
    case None => BufferOrder(w.history, w.disk.buffer)
    case Some(s) => OrderSession(w.history, s)
  }

  // ---- Slices of a buffer ----------------------------------------------------------------------------

  lemma TruncateAt(b: seq<Entry>, k: nat)
    requires Increasing(b) && k < |b|
    ensures Filter(b, IdBelow(b[k].id + 1)) == b[..k + 1]
  {
    var n := TruncateIsPrefix(b, b[k].id + 1);
    assert k < n && (k + 1 < |b| ==> b[k + 1].id > b[k].id);
  }

  lemma {:induction false} PruneIsSuffix(b: seq<Entry>, p: TransactionId) returns (n: nat)
    requires Increasing(b)
    ensures n <= |b| && Filter(b, IdAbove(p)) == b[n..]
  {
    if b == [] || b[0].id > p {
      n := 0;
      forall x | x in b ensures x.id > p {
        var i :| 0 <= i < |b| && b[i] == x;
      }
      FilterAll(b, IdAbove(p));
    } else {
      var k := PruneIsSuffix(b[1..], p);
      n := k + 1;
      assert b[n..] == b[1..][k..];
    }
  }

  lemma OrderedSlice(b: seq<Entry>, i: nat, j: nat)
    requires Ordered(b) && i <= j <= |b|
    ensures Ordered(b[i..j])
  {
    var c := b[i..j];
    forall x, y | 0 <= x < y < |c| ensures After(c[x].ranges, c[y].ranges) {
      assert c[x] == b[i + x] && c[y] == b[i + y];
    }
  }

  lemma AfterTransitive(a: seq<BlockRange>, b: seq<BlockRange>, c: seq<BlockRange>)
    requires After(a, b) && After(b, c)
    ensures After(a, c)
  {
  }

  lemma OrderedSnoc(b: seq<Entry>, e: Entry)
    requires Ordered(b) && OneRange(e.ranges) && (b != [] ==> After(Last(b).ranges, e.ranges))
    ensures Ordered(b + [e])
  {
    var c := b + [e];
    forall i, j | 0 <= i < j < |c| ensures After(c[i].ranges, c[j].ranges) {
      if j == |b| && i < |b| - 1 {
        AfterTransitive(b[i].ranges, Last(b).ranges, e.ranges);
      }
    }
  }

  lemma BehindSubset(h: seq<Event>, b: seq<Entry>, smaller: seq<Entry>)
    requires DataBehind(h, b) && forall x :: x in smaller ==> x in b
    ensures DataBehind(h, smaller)
  {
  }

  // ---- Growing the history ---------------------------------------------------------------------------

  lemma SurvivingSnoc(h: seq<Event>, e: Event, d: Event)
    requires Surviving(h + [e], d)
    ensures Surviving(h, d) || (d == e && e.Data?)
    ensures e.Undo? ==> !(e.lo <= d.id <= e.hi)
  {
    UndoneSnoc(h, e, d.id);
  }

  lemma BehindSnoc(h: seq<Event>, b: seq<Entry>, e: Event)
    requires DataBehind(h, b) && (e.Data? ==> forall x :: x in b ==> x.id < e.id)
    ensures DataBehind(h + [e], b)
  {
    forall d, x | Surviving(h + [e], d) && x in b && d.id < x.id
      ensures OneRange(d.ranges) && OneRange(x.ranges) && d.ranges[0].end <= x.ranges[0].end {
      SurvivingSnoc(h, e, d);
    }
  }

  lemma UpToSnoc(h: seq<Event>, current: seq<BlockRange>, e: Event)
    requires DataUpTo(h, current) && (e.Data? ==> OneRange(current) && e.ranges == current)
    ensures DataUpTo(h + [e], current)
  {
    forall d | Surviving(h + [e], d)
      ensures OneRange(d.ranges) && OneRange(current) && d.ranges[0].end <= current[0].end {
      SurvivingSnoc(h, e, d);
    }
  }

  lemma BehindNewer(h: seq<Event>, b: seq<Entry>, e: Entry)
    requires DataBehind(h, b) && DataUpTo(h, e.ranges)
    ensures DataBehind(h, b + [e])
  {
  }

  /** Everything that survives an Undo back to watermark `b` ends no later than `b`. */
  lemma UndoLeavesBehind(h: seq<Event>, buffer: seq<Entry>, b: Entry, e: Event, current: seq<BlockRange>)
    requires HistoryOk(h, e.id) && DataBehind(h, buffer) && b in buffer
    requires e.Undo? && e.lo == b.id + 1 && e.hi + 1 == e.id
    requires NotData(h, buffer)
    requires OneRange(b.ranges) && OneRange(current) && b.ranges[0].end <= current[0].end
    ensures DataUpTo(h + [e], current)
    ensures forall d :: Surviving(h + [e], d) ==> OneRange(d.ranges) && d.ranges[0].end <= b.ranges[0].end
  {
    forall d | Surviving(h + [e], d)
      ensures OneRange(d.ranges) && d.ranges[0].end <= b.ranges[0].end {
      SurvivingSnoc(h, e, d);
      assert d in h && d.id < e.id;
    }
  }

  lemma UndoLeavesNothing(h: seq<Event>, e: Event, current: seq<BlockRange>)
    requires HistoryOk(h, e.id) && e.Undo? && e.lo == 0 && e.hi + 1 == e.id
    ensures DataUpTo(h + [e], current) && forall d :: !Surviving(h + [e], d)
  {
    forall d | Surviving(h + [e], d) ensures false {
      SurvivingSnoc(h, e, d);
    }
  }

  // ---- Steps -----------------------------------------------------------------------------------------

  lemma SliceOrder(h: seq<Event>, b: seq<Entry>, i: nat, j: nat)
    requires BufferOrder(h, b) && i <= j <= |b|
    ensures BufferOrder(h, b[i..j])
  {
    OrderedSlice(b, i, j);
    BehindSubset(h, b, b[i..j]);
  }

  lemma CrashOrder(w: World, s: Session)
    requires s.actor.buffer == w.disk.buffer + Entries(s.actor.uncommitted) && BufferOrder(w.history, s.actor.buffer)
    ensures OrderInv(w.(live := None))
  {
    assert w.disk.buffer == s.actor.buffer[0..|w.disk.buffer|];
    SliceOrder(w.history, s.actor.buffer, 0, |w.disk.buffer|);
  }

  lemma OlderThanLast(b: seq<Entry>, h: seq<Event>, d: Event)
    requires b != [] && DataBehind(h, b) && NotData(h, b) && Surviving(h, d) && d.id <= Last(b).id
    ensures OneRange(d.ranges) && OneRange(Last(b).ranges) && d.ranges[0].end <= Last(b).ranges[0].end
  {
    assert Last(b) in b;
  }

  lemma RestartOrder(w: World, retention: BlockNumber)
    requires w.live.None? && OrderInv(w) && HistoryOk(w.history, w.disk.next)
    ensures OrderSession(w.history, Opened(w.disk, retention))
  {
    var s := Opened(w.disk, retention);
    if !s.rewindDue {
      forall d | Surviving(w.history, d)
        ensures OneRange(d.ranges) && OneRange(s.previous) && d.ranges[0].end <= s.previous[0].end {
        assert d.id < w.disk.next;
        OlderThanLast(w.disk.buffer, w.history, d);
      }
    }
  }

  lemma RewindOrder(h: seq<Event>, s: Session, s': Session, e: Event)
    requires OrderSession(h, s) && s.rewindDue && HistoryOk(h, e.id) && IdsBelow(s.actor.buffer, e.id)
    requires e.Undo? && e.lo == ResumeId(s.actor.buffer) && e.hi + 1 == e.id
    requires s'.actor.buffer == s.actor.buffer && s'.previous == s.previous && s'.queue == [] && !s'.rewindDue
    ensures OrderSession(h + [e], s')
  {
    var b := s.actor.buffer;
    BehindSnoc(h, b, e);
    if b == [] {
      UndoLeavesNothing(h, e, s.previous);
    } else {
      assert Last(b) in b;
      UndoLeavesBehind(h, b, Last(b), e, s.previous);
    }
  }

  /** A one-range response turns into at most one invalidation, that of its range. */
  lemma SingleInvalidation(previous: seq<BlockRange>, r: BlockRange)
    ensures Invalidations(previous, [r]) ==
            if Invalidate(previous, r).Some? then [Invalidate(previous, r).value] else []
  {
    assert [r][1..] == [];
  }

  lemma SingleFind(previous: seq<BlockRange>, network: string)
    requires |previous| == 1
    ensures FindRange(previous, network) == if previous[0].network == network then Some(previous[0]) else None
  {
    assert previous[1..] == [];
  }

  /** How an accepted one-range response follows the previous range. */
  lemma AcceptedRange(p: BlockRange, r: BlockRange)
    requires Validate([p], [r]).Ok?
    ensures p.network == r.network
    ensures r == p || r.start <= p.end + 1
    ensures Invalidations([p], [r]) ==
            if r != p && r.start <= p.end then [InvalidationRange(r.network, r.start, Max(r.end, p.end))] else []
  {
    SingleFind([p], r.network);
    SingleInvalidation([p], r);
    NetworksStayStable([p], [r]);
    assert r.network in Networks([r]);
    assert r in [r];
    assert Follows(FindRange([p], r.network), r);
  }

  lemma FirstRange(response: Response)
    requires OneRange(response.ranges) && Interpret([], response).Ok?
    ensures Invalidations([], response.ranges) == []
  {
    assert response.ranges == [response.ranges[0]];
    SingleInvalidation([], response.ranges[0]);
  }

  lemma UpToLater(h: seq<Event>, a: seq<BlockRange>, b: seq<BlockRange>)
    requires DataUpTo(h, a) && (a == [] || (OneRange(a) && OneRange(b) && a[0].end <= b[0].end))
    ensures DataUpTo(h, b)
  {
  }

  /** A response that invalidates nothing moves the stream on, to the same or the next range. */
  lemma AdvanceOrder(h: seq<Event>, s: Session, s': Session, message: ProtocolMessage)
    requires OrderSession(h, s) && !s.rewindDue && s.queue == []
    requires s' == s.(queue := [message]) && !message.ReorgMessage? && OneRange(message.ranges)
    requires s.previous == [] || message.ranges == s.previous ||
             (message.ranges[0].network == s.previous[0].network && message.ranges[0].start == s.previous[0].end + 1)
    ensures OrderSession(h, s')
  {
    UpToLater(h, s.previous, message.ranges);
    if s.actor.buffer != [] {
      AfterTransitive(Last(s.actor.buffer).ranges, s.previous, message.ranges);
    }
  }

  lemma JumpOrder(h: seq<Event>, s: Session, s': Session)
    requires OrderSession(h, s) && !s.rewindDue && s.queue == []
    requires s' == s.(queue := s'.queue) && ReorgPending(s') && ReorgMatches(s')
    ensures OrderSession(h, s')
  {
  }

  /** What an accepted one-range response is: one message at the same or the next range, or a reorg and a message. */
  lemma ReceivedMessages(s: Session, response: Response)
    requires (s.previous == [] || OneRange(s.previous)) && OneRange(response.ranges)
    requires Interpret(s.previous, response).Ok?
    ensures var s' := s.(queue := Interpret(s.previous, response).value);
            if ReorgPending(s') then ReorgMatches(s') && s'.queue[1].ranges == response.ranges
            else && |s'.queue| == 1 && !s'.queue[0].ReorgMessage? && s'.queue[0].ranges == response.ranges
                 && (s.previous == [] || response.ranges == s.previous ||
                     (response.ranges[0].network == s.previous[0].network &&
                      response.ranges[0].start == s.previous[0].end + 1))
  {
    if s.previous == [] {
      FirstRange(response);
    } else {
      var p, r := s.previous[0], response.ranges[0];
      assert s.previous == [p] && response.ranges == [r];
      AcceptedRange(p, r);
    }
  }

  lemma ReceiveOrder(h: seq<Event>, s: Session, response: Response)
    requires OrderSession(h, s) && !s.rewindDue && s.queue == [] && OneRange(response.ranges)
    requires Interpret(s.previous, response).Ok?
    ensures OrderSession(h, s.(queue := Interpret(s.previous, response).value))
  {
    var s' := s.(queue := Interpret(s.previous, response).value);
    ReceivedMessages(s, response);
    if ReorgPending(s') {
      JumpOrder(h, s, s');
    } else {
      assert s'.queue == [s'.queue[0]];
      AdvanceOrder(h, s, s', s'.queue[0]);
    }
  }

  lemma MessageOrder(h: seq<Event>, s: Session, s': Session, e: Event)
    requires OrderSession(h, s) && |s.queue| == 1 && !s.queue[0].ReorgMessage? && !s.rewindDue && !s'.rewindDue
    requires HistoryOk(h, e.id) && IdsBelow(s.actor.buffer, e.id)
    requires !e.Undo? && e.ranges == s.queue[0].ranges && OneRange(e.ranges)
    requires s'.previous == s.queue[0].ranges && s'.queue == []
    requires s'.actor.buffer == if e.Data? then s.actor.buffer else s.actor.buffer + [Entry(e.id, e.ranges)]
    ensures OrderSession(h + [e], s')
  {
    MessageBuffer(h, s.actor.buffer, s'.actor.buffer, e);
    UpToSnoc(h, e.ranges, e);
  }

  lemma MessageBuffer(h: seq<Event>, b: seq<Entry>, b': seq<Entry>, e: Event)
    requires BufferOrder(h, b) && HistoryOk(h, e.id) && IdsBelow(b, e.id)
    requires !e.Undo? && DataUpTo(h, e.ranges) && OneRange(e.ranges) && (b != [] ==> After(Last(b).ranges, e.ranges))
    requires b' == if e.Data? then b else b + [Entry(e.id, e.ranges)]
    ensures BufferOrder(h + [e], b')
  {
    BehindSnoc(h, b, e);
    if e.Watermark? {
      UpToSnoc(h, e.ranges, e);
      OrderedSnoc(b, Entry(e.id, e.ranges));
      BehindNewer(h + [e], b, Entry(e.id, e.ranges));
    }
  }

  /** For one range and one invalidation, the code's two tests are plain comparisons of block numbers. */
  lemma SingleTests(r: BlockRange, v: InvalidationRange)
    requires r.network == v.network
    ensures Affected([r], Points([v])) <==> r.start >= v.start
    ensures SplitsRange([r], [v]) <==> r.start < v.start <= r.end
  {
    PointsOf([v], v);
    FindUnique([v], v);
    assert [r][0] == r;
  }

  /** The range ends right before a block. */
  ghost predicate EndsBefore(ranges: seq<BlockRange>, first: BlockNumber) {
    |ranges| == 1 && ranges[0].end + 1 == first
  }

  /** Some buffered watermark ends right before the first replaced block. */
  ghost predicate Adjoined(buffer: seq<Entry>, first: BlockNumber) {
    exists b :: b in buffer && EndsBefore(b.ranges, first)
  }

  /**
   * The recovery watermark of a successful reorg ends before the first replaced block, and right before it exactly
   * when some buffered watermark does.
   */
  lemma {:induction false} RecoveryBefore(b: seq<Entry>, v: InvalidationRange, k: nat)
    requires Ordered(b) && (b != [] ==> Last(b).ranges[0].network == v.network)
    requires k < |b| && k == RecoveryIndex(b, Points([v])) && !SplitsRange(b[k].ranges, [v])
    ensures b[k].ranges[0].network == v.network && b[k].ranges[0].end < v.start
    ensures EndsBefore(b[k].ranges, v.start) <==> Adjoined(b, v.start)
  {
    OrderedTests(b, v, k);
    if EndsBefore(b[k].ranges, v.start) {
      assert b[k] in b;
    }
    if Adjoined(b, v.start) {
      var x :| x in b && EndsBefore(x.ranges, v.start);
      var j :| 0 <= j < |b| && b[j] == x;
      OrderedTests(b, v, j);
    }
  }

  lemma {:induction false} OrderedTests(b: seq<Entry>, v: InvalidationRange, i: nat)
    requires Ordered(b) && i < |b| && Last(b).ranges[0].network == v.network
    ensures b[i].ranges[0].network == v.network
    ensures Affected(b[i].ranges, Points([v])) <==> b[i].ranges[0].start >= v.start
    ensures SplitsRange(b[i].ranges, [v]) <==> b[i].ranges[0].start < v.start <= b[i].ranges[0].end
  {
    assert i < |b| - 1 ==> After(b[i].ranges, b[|b| - 1].ranges);
    assert b[i].ranges == [b[i].ranges[0]];
    SingleTests(b[i].ranges[0], v);
  }

  lemma ReorgOrder(h: seq<Event>, s: Session, s': Session, e: Event, k: nat)
    requires OrderSession(h, s) && ReorgPending(s) && !s.rewindDue && !s'.rewindDue
    requires HistoryOk(h, e.id) && Increasing(s.actor.buffer) && k < |s.actor.buffer|
    requires s.actor.buffer[k].ranges[0].network == s.queue[1].ranges[0].network
    requires s.actor.buffer[k].ranges[0].end < s.queue[1].ranges[0].start
    requires e.Undo? && e.lo == s.actor.buffer[k].id + 1 && e.hi + 1 == e.id
    requires s'.actor.buffer == Filter(s.actor.buffer, IdBelow(e.lo))
    requires s'.queue == [s.queue[1]] && s'.previous == s.previous
    ensures s'.actor.buffer == s.actor.buffer[..k + 1]
    ensures OrderSession(h + [e], s')
  {
    var b := s.actor.buffer;
    TruncateAt(b, k);
    assert b[..k + 1] == b[0..k + 1];
    BehindSnoc(h, b, e);
    SliceOrder(h + [e], b, 0, k + 1);
    assert b[k] in b;
    UndoLeavesBehind(h, b, b[k], e, s.queue[1].ranges);
  }

  lemma EmptyReorgOrder(h: seq<Event>, s: Session, s': Session, e: Event)
    requires OrderSession(h, s) && ReorgPending(s) && !s.rewindDue && !s'.rewindDue
    requires HistoryOk(h, e.id) && s.actor.buffer == [] && s'.actor.buffer == []
    requires e.Undo? && e.lo == 0 && e.hi + 1 == e.id
    requires s'.queue == [s.queue[1]] && s'.previous == s.previous
    ensures OrderSession(h + [e], s')
  {
    UndoLeavesNothing(h, e, s.queue[1].ranges);
  }

  /** Where a pending reorg that succeeds recovers to. */
  lemma PendingBefore(h: seq<Event>, s: Session, k: nat)
    requires OrderSession(h, s) && ReorgPending(s)
    requires k < |s.actor.buffer| && k == RecoveryIndex(s.actor.buffer, Points(s.queue[0].invalidation))
    requires !SplitsRange(s.actor.buffer[k].ranges, s.queue[0].invalidation)
    ensures s.actor.buffer[k].ranges[0].network == s.queue[1].ranges[0].network
    ensures s.actor.buffer[k].ranges[0].end < s.queue[1].ranges[0].start
    ensures EndsBefore(s.actor.buffer[k].ranges, s.queue[1].ranges[0].start) <==>
            Adjoined(s.actor.buffer, s.queue[1].ranges[0].start)
  {
    var v := s.queue[0].invalidation[0];
    assert s.queue[0].invalidation == [v];
    RecoveryBefore(s.actor.buffer, v, k);
  }

  lemma ReorgPump(w: World, s: Session, out: Outcome)
    requires HistoryOk(w.history, s.actor.next) && Increasing(s.actor.buffer)
    requires OrderSession(w.history, s) && ReorgPending(s) && s.actor.next >= 1
    requires out == Execute(Machine(s.actor, w.disk), Message(s.queue[0])) && out.result.Ok?
    ensures OrderInv(DoPump(w, s))
  {
    var e, s' := out.result.value, DoPump(w, s).live.value;
    PumpedReorg(w, s, out);
    var k := RecoveryIndex(s.actor.buffer, Points(s.queue[0].invalidation));
    if 0 <= k {
      PendingBefore(w.history, s, k);
      ReorgOrder(w.history, s, s', e, k);
    } else {
      EmptyReorgOrder(w.history, s, s', e);
    }
  }

  lemma MessagePump(w: World, s: Session)
    requires HistoryOk(w.history, s.actor.next) && IdsBelow(s.actor.buffer, s.actor.next)
    requires OrderSession(w.history, s) && |s.queue| == 1 && !s.queue[0].ReorgMessage?
    ensures OrderInv(DoPump(w, s))
  {
    var out := Execute(Machine(s.actor, w.disk), Message(s.queue[0]));
    PumpedMessage(w, s, out);
    MessageOrder(w.history, s, DoPump(w, s).live.value, out.result.value);
  }

  lemma PumpOrder(w: World, s: Session)
    requires HistoryOk(w.history, w.disk.next) && Agrees(Machine(s.actor, w.disk)) && Coupled(s)
    requires OrderSession(w.history, s) && w.live == Some(s)
    ensures OrderInv(DoPump(w, s))
  {
    if s.queue != [] {
      var out := Execute(Machine(s.actor, w.disk), Message(s.queue[0]));
      if out.result.Err? {
        CrashOrder(w, s);
      } else if s.queue[0].ReorgMessage? {
        ReorgPump(w, s, out);
      } else {
        MessagePump(w, s);
      }
    }
  }

  /** A commit drops a prefix of the buffer and never the newest watermark. */
  lemma CommitBuffer(m: Machine, id: TransactionId) returns (n: nat)
    requires Agrees(m)
    ensures n <= |m.actor.buffer| && CommitUpTo(m, id).actor.buffer == m.actor.buffer[n..]
    ensures m.actor.buffer != [] ==> n < |m.actor.buffer|
  {
    var b := m.actor.buffer;
    var prune := LargestPrune(m.actor.uncommitted[..CommitPosition(m.actor.uncommitted, id)]);
    n := 0;
    if prune.Some? {
      n := PruneIsSuffix(b, prune.value);
    }
    if b != [] {
      CommitKeepsNewest(m, id);
    }
  }

  /** Only the oldest `n` watermarks went, and never all of them. */
  ghost predicate Shrunk(s: Session, s': Session, n: nat) {
    && n <= |s.actor.buffer| && (s.actor.buffer != [] ==> n < |s.actor.buffer|)
    && s'.actor.buffer == s.actor.buffer[n..]
    && s'.previous == s.previous && s'.queue == s.queue && s'.rewindDue == s.rewindDue
  }

  lemma SuffixOrder(h: seq<Event>, s: Session, s': Session, n: nat)
    requires OrderSession(h, s) && Shrunk(s, s', n)
    ensures OrderSession(h, s')
  {
    var b := s.actor.buffer;
    assert b[n..] == b[n..|b|];
    SliceOrder(h, b, n, |b|);
  }

  lemma CommitShape(w: World, s: Session, id: TransactionId) returns (n: nat)
    requires Agrees(Machine(s.actor, w.disk)) && w.live == Some(s)
    ensures var w' := DoCommit(w, s, id);
            && w'.live.Some? && w'.history == w.history && Shrunk(s, w'.live.value, n)
  {
    n := 0;
    if id < s.acked {
      n := CommitBuffer(Machine(s.actor, w.disk), id);
    }
  }

  lemma CommitOrder(w: World, w': World, s: Session, n: nat)
    requires OrderSession(w.history, s)
    requires w'.live.Some? && w'.history == w.history && Shrunk(s, w'.live.value, n)
    ensures OrderInv(w')
  {
    SuffixOrder(w.history, s, w'.live.value, n);
  }

  lemma ReceiveStep(w: World, s: Session, response: Response)
    requires Agrees(Machine(s.actor, w.disk)) && OrderSession(w.history, s) && w.live == Some(s)
    requires OneRange(response.ranges)
    ensures OrderInv(DoReceive(w, s, response))
  {
    if !s.rewindDue && s.queue == [] {
      if Interpret(s.previous, response).Ok? {
        ReceiveOrder(w.history, s, response);
      } else {
        CrashOrder(w, s);
      }
    }
  }

  lemma RewoundShape(w: World, s: Session, e: Event)
    requires s.rewindDue && w.live == Some(s) && RewindNeeded(s.actor)
    requires e == Execute(Machine(s.actor, w.disk), Rewind).result.value
    ensures Do(w, EmitRewind).live.Some?
    ensures var s' := Do(w, EmitRewind).live.value;
            && s'.actor.buffer == s.actor.buffer && s'.previous == s.previous && s'.queue == s.queue && !s'.rewindDue
            && Do(w, EmitRewind).history == w.history + [e]
            && e.Undo? && e.lo == ResumeId(s.actor.buffer) && e.hi + 1 == e.id == s.actor.next
  {
  }

  lemma RewindStep(w: World, s: Session)
    requires HistoryOk(w.history, s.actor.next) && IdsBelow(s.actor.buffer, s.actor.next)
    requires OrderSession(w.history, s) && w.live == Some(s) && (s.rewindDue ==> RewindNeeded(s.actor))
    ensures OrderInv(Do(w, EmitRewind))
  {
    if s.rewindDue {
      var e := Execute(Machine(s.actor, w.disk), Rewind).result.value;
      RewoundShape(w, s, e);
      RewindOrder(w.history, s, Do(w, EmitRewind).live.value, e);
    }
  }

  /** The consumer's own steps change neither the actor, the stream nor the history. */
  lemma ConsumerOrder(w: World, w': World, s: Session, s': Session)
    requires OrderSession(w.history, s) && w'.live == Some(s') && w'.history == w.history
    requires s' == s.(inbox := s'.inbox, inserted := s'.inserted, acked := s'.acked, recovering := s'.recovering)
    ensures OrderInv(w')
  {
    SuffixOrder(w.history, s, s', 0);
  }

  lemma InsertOrder(w: World, s: Session, from: nat, to: nat)
    requires w.live == Some(s) && OrderSession(w.history, s)
    ensures OrderInv(DoInsert(w, s, from, to))
  {
    var w' := DoInsert(w, s, from, to);
    ConsumerOrder(w, w', s, w'.live.value);
  }

  lemma FinishOrder(w: World, s: Session)
    requires w.live == Some(s) && OrderSession(w.history, s)
    ensures OrderInv(DoFinish(w, s))
  {
    var w' := DoFinish(w, s);
    ConsumerOrder(w, w', s, w'.live.value);
  }

  lemma HaltOrder(w: World, s: Session, written: bool)
    requires Agrees(Machine(s.actor, w.disk)) && w.live == Some(s) && OrderSession(w.history, s)
    ensures OrderInv(DoHalt(w, s, written))
  {
    if NextAction(s).Some? {
      var n := HaltedPrefix(Machine(s.actor, w.disk), NextAction(s).value, written);
      CrashOrder(w, s);
      assert w.disk.buffer[..n] == w.disk.buffer[0..n];
      SliceOrder(w.history, w.disk.buffer, 0, n);
    }
  }

  lemma LiveOrder(w: World, s: Session, step: Step)
    requires HistoryOk(w.history, w.disk.next) && Agrees(Machine(s.actor, w.disk)) && Coupled(s)
    requires w.live == Some(s) && OrderSession(w.history, s)
    requires step.Receive? ==> OneRange(step.response.ranges)
    ensures OrderInv(Do(w, step))
  {
    match step
    case Restart(_) =>
    case EmitRewind => RewindStep(w, s);
    case Receive(response) => ReceiveStep(w, s, response);
    case Pump => PumpOrder(w, s);
    case Insert(from, to) => InsertOrder(w, s, from, to);
    case Finish => FinishOrder(w, s);
    case CommitId(id) =>
      var n := CommitShape(w, s, id);
      CommitOrder(w, DoCommit(w, s, id), s, n);
    case Halt(written) => HaltOrder(w, s, written);
    case Crash => CrashOrder(w, s);
  }

  lemma StepOrder(w: World, step: Step)
    requires Inv(w) && OrderInv(w) && (step.Receive? ==> OneRange(step.response.ranges))
    ensures OrderInv(Do(w, step))
  {
    match w.live
    case None =>
      if step.Restart? {
        RestartOrder(w, step.retention);
      }
    case Some(s) => LiveOrder(w, s, step);
  }

  lemma {:induction false} ReachableOrder(steps: seq<Step>)
    requires OneRangeRun(steps)
    ensures OrderInv(Run(INITIAL, steps))
  {
    if steps == [] {
    } else {
      assert forall i :: 0 <= i < |steps| - 1 ==> Front(steps)[i] == steps[i];
      ReachableOrder(Front(steps));
      ReachableInv(Front(steps));
      StepOrder(Run(INITIAL, Front(steps)), Last(steps));
    }
  }

  // ---- Main results ----------------------------------------------------------------------------------

  /** In every one-range run the watermarks, in memory and on disk, repeat or come after every older one. */
  lemma OrderedWatermarks(steps: seq<Step>)
    requires OneRangeRun(steps)
    ensures var w := Run(INITIAL, steps);
            && Ordered(w.disk.buffer)
            && (w.live.Some? ==> Ordered(w.live.value.actor.buffer))
  {
    ReachableOrder(steps);
    ReachableInv(steps);
    var w := Run(INITIAL, steps);
    if w.live.Some? {
      CrashOrder(w, w.live.value);
    }
  }

  /** The table has data for a block. */
  ghost predicate Holds(h: seq<Event>, n: BlockNumber) {
    exists d :: Surviving(h, d) && |d.ranges| == 1 && d.ranges[0].start <= n <= d.ranges[0].end
  }

  /** Every block the table had data for is kept, or replayed by a stream that goes on at `first`. */
  ghost predicate NoBlockLost(h: seq<Event>, h': seq<Event>, first: BlockNumber) {
    forall n: BlockNumber :: Holds(h, n) && n < first ==> Holds(h', n)
  }

  /** Every block the table holds data for is replayed by a stream that goes on at `first`. */
  ghost predicate ReplaysAll(h: seq<Event>, first: BlockNumber) {
    forall d :: Surviving(h, d) ==> OneRange(d.ranges) && first <= d.ranges[0].start
  }

  ghost predicate OneRangeData(h: seq<Event>) {
    forall d :: Surviving(h, d) ==> OneRange(d.ranges)
  }

  /** When everything is undone, what is not replayed is lost. */
  lemma LostUnlessReplayed(h: seq<Event>, h': seq<Event>, first: BlockNumber)
    requires OneRangeData(h) && forall d :: !Surviving(h', d)
    ensures NoBlockLost(h, h', first) <==> ReplaysAll(h, first)
  {
    if NoBlockLost(h, h', first) {
      forall d | Surviving(h, d) ensures OneRange(d.ranges) && first <= d.ranges[0].start {
        assert Holds(h, d.ranges[0].start);
      }
    }
  }

  /** Before the first watermark every reorg undoes everything, so what it does not replay is lost. */
  lemma UnconfirmedReorg(s: Session, disk: Snapshot, message: ProtocolMessage, h: seq<Event>, first: BlockNumber)
    requires s.actor.buffer == [] && message.ReorgMessage? && HistoryOk(h, s.actor.next) && OneRangeData(h)
    ensures var out := Execute(Machine(s.actor, disk), Message(message));
            && out.result.Ok? && out.machine.actor.buffer == []
            && (NoBlockLost(h, h + [out.result.value], first) <==> ReplaysAll(h, first))
  {
    var e := Execute(Machine(s.actor, disk), Message(message)).result.value;
    if s.actor.next == 0 {
      assert forall d :: d in h ==> d.id < 0;
    } else {
      UndoLeavesNothing(h, e, []);
    }
    LostUnlessReplayed(h, h + [e], first);
  }

  /** What a successful reorg leaves of a buffer that was not empty. */
  ghost predicate Recovered(before: seq<Entry>, h: seq<Event>, after: seq<Entry>, first: BlockNumber) {
    && after != [] && |Last(after).ranges| == 1 && Last(after).ranges[0].end < first
    && (EndsBefore(Last(after).ranges, first) <==> Adjoined(before, first))
    && forall d :: Surviving(h, d) ==> |d.ranges| == 1 && d.ranges[0].end <= Last(after).ranges[0].end
  }

  lemma ReorgRecovers(h: seq<Event>, s: Session, e: Event, after: seq<Entry>, k: nat)
    requires HistoryOk(h, e.id) && Increasing(s.actor.buffer) && OrderSession(h, s) && ReorgPending(s)
    requires k < |s.actor.buffer| && k == RecoveryIndex(s.actor.buffer, Points(s.queue[0].invalidation))
    requires !SplitsRange(s.actor.buffer[k].ranges, s.queue[0].invalidation)
    requires e.Undo? && e.hi + 1 == e.id && e.lo == s.actor.buffer[k].id + 1
    requires after == Filter(s.actor.buffer, IdBelow(e.lo))
    ensures Recovered(s.actor.buffer, h + [e], after, s.queue[1].ranges[0].start)
  {
    var b := s.actor.buffer;
    PendingBefore(h, s, k);
    TruncateAt(b, k);
    assert b[k] in b && Last(b[..k + 1]) == b[k];
    UndoLeavesBehind(h, b, b[k], e, s.queue[1].ranges);
  }

  lemma PumpRecovers(w: World, s: Session, out: Outcome)
    requires HistoryOk(w.history, s.actor.next) && Increasing(s.actor.buffer) && !s.rewindDue
    requires OrderSession(w.history, s) && ReorgPending(s) && s.actor.next >= 1
    requires out == Execute(Machine(s.actor, w.disk), Message(s.queue[0])) && out.result.Ok?
    ensures var w', first := DoPump(w, s), s.queue[1].ranges[0].start;
            && w'.live.value.queue == [s.queue[1]]
            && (if s.actor.buffer == [] then NoBlockLost(w.history, w'.history, first) <==> ReplaysAll(w.history, first)
                else Recovered(s.actor.buffer, w'.history, w'.live.value.actor.buffer, first))
  {
    var e := out.result.value;
    PumpedReorg(w, s, out);
    var k := RecoveryIndex(s.actor.buffer, Points(s.queue[0].invalidation));
    if s.actor.buffer == [] {
      UndoLeavesNothing(w.history, e, []);
      LostUnlessReplayed(w.history, w.history + [e], s.queue[1].ranges[0].start);
    } else {
      ReorgRecovers(w.history, s, e, DoPump(w, s).live.value.actor.buffer, k);
    }
  }

  /**
   * Exactly when a reorg leaves no gap, in every run of one-range responses. With watermarks buffered, the newest one
   * left ends right before the replacing range if and only if some buffered one does; otherwise it ends earlier, with
   * all surviving data. Without, no block is lost if and only if the replacing range starts at or before all surviving
   * data.
   */
  lemma ReorgGapExactly(steps: seq<Step>)
    requires OneRangeRun(steps)
    requires var w := Run(INITIAL, steps);
             && w.live.Some? && w.live.value.queue != [] && w.live.value.queue[0].ReorgMessage?
             && Do(w, Pump).live.Some?
    ensures var w, w' := Run(INITIAL, steps), Do(Run(INITIAL, steps), Pump);
            var s, s' := w.live.value, w'.live.value;
            && |s'.queue| == 1 && !s'.queue[0].ReorgMessage? && OneRange(s'.queue[0].ranges)
            && var first := s'.queue[0].ranges[0].start;
               if s.actor.buffer == [] then NoBlockLost(w.history, w'.history, first) <==> ReplaysAll(w.history, first)
               else Recovered(s.actor.buffer, w'.history, s'.actor.buffer, first)
  {
    ReachableOrder(steps);
    ReachableInv(steps);
    PumpExactly(Run(INITIAL, steps));
  }

  lemma PumpExactly(w: World)
    requires Inv(w) && OrderInv(w) && w.live.Some? && w.live.value.queue != [] && w.live.value.queue[0].ReorgMessage?
    requires Do(w, Pump).live.Some?
    ensures var w' := Do(w, Pump);
            var s, s' := w.live.value, w'.live.value;
            && |s'.queue| == 1 && !s'.queue[0].ReorgMessage? && OneRange(s'.queue[0].ranges)
            && var first := s'.queue[0].ranges[0].start;
               if s.actor.buffer == [] then NoBlockLost(w.history, w'.history, first) <==> ReplaysAll(w.history, first)
               else Recovered(s.actor.buffer, w'.history, s'.actor.buffer, first)
  {
    var s := w.live.value;
    PumpRecovers(w, s, Execute(Machine(s.actor, w.disk), Message(s.queue[0])));
  }
}
