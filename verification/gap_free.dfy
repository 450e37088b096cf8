/** No block is lost across reorgs on a single-network stream whose server closes each range it opens. */
module GapFree {
  import opened Types
  import opened Protocol
  import opened Transactional
  import opened Recovery
  import opened History
  import opened ExactlyOnce
  import opened RangeOrder

  /** A new range comes after the current one is closed, or replaces it from its start or earlier. */
  ghost predicate Polite(s: Session, ranges: seq<BlockRange>) {
    && OneRange(ranges)
    && (s.previous != [] ==> ranges == s.previous || Closed(s) || ranges[0].start <= s.previous[0].start)
  }

  ghost predicate PoliteStep(w: World, step: Step) {
    step.Receive? && w.live.Some? ==> Polite(w.live.value, step.response.ranges)
  }

  ghost predicate PoliteRun(steps: seq<Step>) {
    steps == [] || (PoliteRun(Front(steps)) && PoliteStep(Run(INITIAL, Front(steps)), Last(steps)))
  }

  // ---- The invariant ---------------------------------------------------------------------------------

  /** `b` repeats `a` or starts one block after it, on the same network. */
  ghost predicate Next(a: seq<BlockRange>, b: seq<BlockRange>) {
    OneRange(a) && OneRange(b) && a[0].network == b[0].network && (b == a || b[0].start == a[0].end + 1)
  }

  ghost predicate Contiguous(buffer: seq<Entry>) {
    && (forall i :: 0 <= i < |buffer| ==> OneRange(buffer[i].ranges))
    && (forall i :: 0 <= i < |buffer| - 1 ==> Next(buffer[i].ranges, buffer[i + 1].ranges))
  }

  ghost predicate DataFrom(h: seq<Event>, current: seq<BlockRange>) {
    forall d :: Surviving(h, d) ==> OneRange(d.ranges) && OneRange(current) && current[0].start <= d.ranges[0].start
  }

  /** What politeness adds to the order of watermarks and data. */
  ghost predicate PoliteSession(h: seq<Event>, s: Session) {
    && Contiguous(s.actor.buffer)
    && (s.actor.buffer != [] ==> Next(Last(s.actor.buffer).ranges, Current(s)))
    && (ReorgPending(s) ==> Polite(s, s.queue[1].ranges))
    && (!s.rewindDue && s.actor.buffer == [] ==> DataFrom(h, Current(s)))
  }

  ghost predicate PoliteInv(w: World) {
    match w.live
    case None => Contiguous(w.disk.buffer)
    case Some(s) => PoliteSession(w.history, s)
  }

  lemma ContiguousSlice(b: seq<Entry>, i: nat, j: nat)
    requires Contiguous(b) && i <= j <= |b|
    ensures Contiguous(b[i..j])
  {
  }

  lemma ContiguousSnoc(b: seq<Entry>, e: Entry)
    requires Contiguous(b) && OneRange(e.ranges) && (b != [] ==> Next(Last(b).ranges, e.ranges))
    ensures Contiguous(b + [e])
  {
  }

  lemma FromSnoc(h: seq<Event>, current: seq<BlockRange>, e: Event)
    requires DataFrom(h, current) && (e.Data? ==> OneRange(current) && e.ranges == current)
    ensures DataFrom(h + [e], current)
  {
    forall d | Surviving(h + [e], d)
      ensures OneRange(d.ranges) && OneRange(current) && current[0].start <= d.ranges[0].start {
      SurvivingSnoc(h, e, d);
    }
  }

  // ---- Steps -----------------------------------------------------------------------------------------

  /** What is persisted is a prefix of what is buffered. */
  lemma ContiguousDisk(m: Machine, n: nat)
    requires Agrees(m) && Contiguous(m.actor.buffer) && n <= |m.disk.buffer|
    ensures Contiguous(m.disk.buffer[..n])
  {
    assert m.disk.buffer[..n] == m.actor.buffer[0..n];
    ContiguousSlice(m.actor.buffer, 0, n);
  }

  lemma CrashPolite(w: World, s: Session)
    requires Agrees(Machine(s.actor, w.disk)) && Contiguous(s.actor.buffer)
    ensures Contiguous(w.disk.buffer)
  {
    ContiguousDisk(Machine(s.actor, w.disk), |w.disk.buffer|);
    assert w.disk.buffer[..|w.disk.buffer|] == w.disk.buffer;
  }

  lemma RestartPolite(w: World, retention: BlockNumber)
    requires w.live.None? && Contiguous(w.disk.buffer) && HistoryOk(w.history, w.disk.next)
    ensures PoliteSession(w.history, Opened(w.disk, retention))
  {
    var s := Opened(w.disk, retention);
    if !s.rewindDue && s.actor.buffer == [] {
      NothingYet(w.history);
    }
  }

  lemma NothingYet(h: seq<Event>)
    requires HistoryOk(h, 0)
    ensures forall d :: !Surviving(h, d)
  {
    assert forall d :: d in h ==> d.id < 0;
  }

  lemma RewindPolite(w: World, s: Session)
    requires HistoryOk(w.history, s.actor.next) && PoliteSession(w.history, s) && w.live == Some(s)
    requires s.rewindDue ==> RewindNeeded(s.actor) && s.queue == []
    ensures PoliteInv(Do(w, EmitRewind))
  {
    if s.rewindDue {
      var e := Execute(Machine(s.actor, w.disk), Rewind).result.value;
      RewoundShape(w, s, e);
      if s.actor.buffer == [] {
        UndoLeavesNothing(w.history, e, s.previous);
      }
    }
  }

  lemma ReceivePolite(h: seq<Event>, s: Session, response: Response)
    requires OrderSession(h, s) && PoliteSession(h, s) && !s.rewindDue && s.queue == [] && Polite(s, response.ranges)
    requires Interpret(s.previous, response).Ok?
    ensures PoliteSession(h, s.(queue := Interpret(s.previous, response).value))
  {
    ReceivedMessages(s, response);
  }

  lemma ReceiveStep(w: World, s: Session, response: Response)
    requires Agrees(Machine(s.actor, w.disk)) && OrderSession(w.history, s) && PoliteSession(w.history, s)
    requires w.live == Some(s) && Polite(s, response.ranges)
    ensures PoliteInv(DoReceive(w, s, response))
  {
    if !s.rewindDue && s.queue == [] {
      if Interpret(s.previous, response).Ok? {
        ReceivePolite(w.history, s, response);
      } else {
        CrashPolite(w, s);
      }
    }
  }

  lemma MessagePolite(w: World, s: Session)
    requires PoliteSession(w.history, s) && |s.queue| == 1 && !s.queue[0].ReorgMessage? && !s.rewindDue
    requires OneRange(s.queue[0].ranges)
    ensures PoliteInv(DoPump(w, s))
  {
    var out := Execute(Machine(s.actor, w.disk), Message(s.queue[0]));
    PumpedMessage(w, s, out);
    var e := out.result.value;
    if e.Watermark? {
      ContiguousSnoc(s.actor.buffer, Entry(e.id, e.ranges));
    } else if s.actor.buffer == [] {
      FromSnoc(w.history, e.ranges, e);
    }
  }

  lemma {:induction false} OneNetwork(b: seq<Entry>, i: nat)
    requires Contiguous(b) && i < |b|
    ensures b[i].ranges[0].network == Last(b).ranges[0].network
    decreases |b| - i
  {
    if i + 1 < |b| {
      assert Next(b[i].ranges, b[i + 1].ranges);
      OneNetwork(b, i + 1);
    }
  }

  /** In a contiguous buffer, watermarks after one that starts at or past a block do too. */
  lemma {:induction false} AffectedAfter(b: seq<Entry>, i: nat, v: InvalidationRange)
    requires Contiguous(b) && i < |b| && b[i].ranges[0].start >= v.start
    ensures Last(b).ranges[0].start >= v.start
    decreases |b| - i
  {
    if i + 1 < |b| {
      assert Next(b[i].ranges, b[i + 1].ranges);
      AffectedAfter(b, i + 1, v);
    }
  }

  /**
   * The recovery watermark of a successful reorg ends right before the first replaced block exactly when the
   * newest watermark reaches that far; otherwise it is the newest watermark itself.
   */
  lemma RecoveryAdjacent(s: Session, k: nat)
    requires Contiguous(s.actor.buffer) && ReorgPending(s) && ReorgMatches(s)
    requires s.actor.buffer != [] ==> Last(s.actor.buffer).ranges[0].network == s.previous[0].network
    requires k < |s.actor.buffer| && k == RecoveryIndex(s.actor.buffer, Points(s.queue[0].invalidation))
    requires !SplitsRange(s.actor.buffer[k].ranges, s.queue[0].invalidation)
    ensures s.actor.buffer[k].ranges[0].network == s.queue[1].ranges[0].network
    ensures var newest, first := Last(s.actor.buffer).ranges[0].end, s.queue[1].ranges[0].start;
            && (s.actor.buffer[k].ranges[0].end + 1 == first <==> first <= newest + 1)
            && (first > newest + 1 ==> k == |s.actor.buffer| - 1)
  {
    var b, v := s.actor.buffer, s.queue[0].invalidation[0];
    assert s.queue[0].invalidation == [v];
    OneNetwork(b, k);
    assert b[k].ranges == [b[k].ranges[0]];
    SingleTests(b[k].ranges[0], v);
    if k + 1 < |b| {
      OneNetwork(b, k + 1);
      assert Next(b[k].ranges, b[k + 1].ranges);
      assert b[k + 1].ranges == [b[k + 1].ranges[0]];
      SingleTests(b[k + 1].ranges[0], v);
      OneNetwork(b, |b| - 1);
      AffectedAfter(b, k + 1, v);
    }
  }

  lemma ReorgPolite(h: seq<Event>, s: Session, s': Session, k: nat)
    requires PoliteSession(h, s) && ReorgPending(s) && ReorgMatches(s) && Increasing(s.actor.buffer)
    requires k < |s.actor.buffer| && k == RecoveryIndex(s.actor.buffer, Points(s.queue[0].invalidation))
    requires !SplitsRange(s.actor.buffer[k].ranges, s.queue[0].invalidation)
    requires s'.actor.buffer == s.actor.buffer[..k + 1] && s'.queue == [s.queue[1]] && s'.previous == s.previous
    ensures s.actor.buffer[k].ranges[0].end + 1 == s.queue[1].ranges[0].start
    ensures forall h' :: PoliteSession(h', s')
  {
    RecoveryAdjacent(s, k);
    assert s.actor.buffer[..k + 1] == s.actor.buffer[0..k + 1];
    ContiguousSlice(s.actor.buffer, 0, k + 1);
    assert Last(s'.actor.buffer) == s.actor.buffer[k];
  }

  lemma ReorgPump(w: World, s: Session, out: Outcome)
    requires HistoryOk(w.history, s.actor.next) && Increasing(s.actor.buffer) && s.actor.next >= 1
    requires PoliteSession(w.history, s) && ReorgPending(s) && ReorgMatches(s)
    requires out == Execute(Machine(s.actor, w.disk), Message(s.queue[0])) && out.result.Ok?
    ensures PoliteInv(DoPump(w, s))
  {
    var e, s' := out.result.value, DoPump(w, s).live.value;
    PumpedReorg(w, s, out);
    var k := RecoveryIndex(s.actor.buffer, Points(s.queue[0].invalidation));
    if 0 <= k {
      TruncateAt(s.actor.buffer, k);
      ReorgPolite(w.history, s, s', k);
    } else {
      UndoLeavesNothing(w.history, e, s.queue[1].ranges);
    }
  }

  lemma PumpPolite(w: World, s: Session)
    requires HistoryOk(w.history, w.disk.next) && Agrees(Machine(s.actor, w.disk)) && Coupled(s)
    requires OrderSession(w.history, s) && PoliteSession(w.history, s) && w.live == Some(s)
    ensures PoliteInv(DoPump(w, s))
  {
    if s.queue != [] {
      var out := Execute(Machine(s.actor, w.disk), Message(s.queue[0]));
      if out.result.Err? {
        CrashPolite(w, s);
      } else if s.queue[0].ReorgMessage? {
        ReorgPump(w, s, out);
      } else {
        MessagePolite(w, s);
      }
    }
  }

  lemma SuffixPolite(h: seq<Event>, s: Session, s': Session, n: nat)
    requires PoliteSession(h, s) && Shrunk(s, s', n)
    ensures PoliteSession(h, s')
  {
    var b := s.actor.buffer;
    assert b[n..] == b[n..|b|];
    ContiguousSlice(b, n, |b|);
  }

  lemma CommitPolite(w: World, s: Session, id: TransactionId)
    requires Agrees(Machine(s.actor, w.disk)) && w.live == Some(s) && PoliteSession(w.history, s)
    ensures PoliteInv(DoCommit(w, s, id))
  {
    var n := CommitShape(w, s, id);
    SuffixPolite(w.history, s, DoCommit(w, s, id).live.value, n);
  }

  lemma HaltDisk(w: World, s: Session, written: bool) returns (n: nat)
    requires Agrees(Machine(s.actor, w.disk)) && NextAction(s).Some?
    ensures var w' := DoHalt(w, s, written);
            w'.live.None? && n <= |w.disk.buffer| && w'.disk.buffer == w.disk.buffer[..n]
  {
    n := HaltedPrefix(Machine(s.actor, w.disk), NextAction(s).value, written);
  }

  lemma HaltPolite(w: World, s: Session, written: bool)
    requires Agrees(Machine(s.actor, w.disk)) && w.live == Some(s) && PoliteSession(w.history, s)
    ensures PoliteInv(DoHalt(w, s, written))
  {
    if NextAction(s).Some? {
      var n := HaltDisk(w, s, written);
      ContiguousDisk(Machine(s.actor, w.disk), n);
    }
  }

  lemma InsertPolite(w: World, s: Session, from: nat, to: nat)
    requires w.live == Some(s) && PoliteSession(w.history, s)
    ensures PoliteInv(DoInsert(w, s, from, to))
  {
    SuffixPolite(w.history, s, DoInsert(w, s, from, to).live.value, 0);
  }

  lemma FinishPolite(w: World, s: Session)
    requires w.live == Some(s) && PoliteSession(w.history, s)
    ensures PoliteInv(DoFinish(w, s))
  {
    SuffixPolite(w.history, s, DoFinish(w, s).live.value, 0);
  }

  lemma LivePolite(w: World, s: Session, step: Step)
    requires HistoryOk(w.history, w.disk.next) && Agrees(Machine(s.actor, w.disk)) && Coupled(s)
    requires w.live == Some(s) && OrderSession(w.history, s) && PoliteSession(w.history, s)
    requires step.Receive? ==> Polite(s, step.response.ranges)
    ensures PoliteInv(Do(w, step))
  {
    match step
    case Restart(_) =>
    case EmitRewind => RewindPolite(w, s);
    case Receive(response) => ReceiveStep(w, s, response);
    case Pump => PumpPolite(w, s);
    case Insert(from, to) => InsertPolite(w, s, from, to);
    case Finish => FinishPolite(w, s);
    case CommitId(id) => CommitPolite(w, s, id);
    case Halt(written) => HaltPolite(w, s, written);
    case Crash => CrashPolite(w, s);
  }

  lemma StepPolite(w: World, step: Step)
    requires Inv(w) && OrderInv(w) && PoliteInv(w) && PoliteStep(w, step)
    ensures PoliteInv(Do(w, step))
  {
    match w.live
    case None =>
      if step.Restart? {
        RestartPolite(w, step.retention);
      }
    case Some(s) => LivePolite(w, s, step);
  }

  /** A step that no session sees may carry any response; a polite one has one range. */
  lemma StepOrdered(w: World, step: Step)
    requires Inv(w) && OrderInv(w) && PoliteStep(w, step)
    ensures OrderInv(Do(w, step))
  {
    if step.Receive? && w.live.None? {
      assert Do(w, step) == w;
    } else {
      StepOrder(w, step);
    }
  }

  lemma {:induction false} ReachablePolite(steps: seq<Step>)
    requires PoliteRun(steps)
    ensures OrderInv(Run(INITIAL, steps)) && PoliteInv(Run(INITIAL, steps))
  {
    if steps == [] {
    } else {
      ReachablePolite(Front(steps));
      ReachableInv(Front(steps));
      StepOrdered(Run(INITIAL, Front(steps)), Last(steps));
      StepPolite(Run(INITIAL, Front(steps)), Last(steps));
    }
  }

  // ---- Main results ----------------------------------------------------------------------------------

  /** In every polite run the watermarks, in memory and on disk, cover consecutive block ranges. */
  lemma ContiguousWatermarks(steps: seq<Step>)
    requires PoliteRun(steps)
    ensures var w := Run(INITIAL, steps);
            && Contiguous(w.disk.buffer)
            && (w.live.Some? ==> Contiguous(w.live.value.actor.buffer))
  {
    ReachablePolite(steps);
    ReachableInv(steps);
    var w := Run(INITIAL, steps);
    if w.live.Some? {
      CrashPolite(w, w.live.value);
    }
  }

  /** What is left after a reorg: nothing, or a watermark right before `first` and data behind it. */
  ghost predicate NoGapBefore(h: seq<Event>, buffer: seq<Entry>, first: BlockNumber) {
    if buffer == [] then forall d :: !Surviving(h, d)
    else
      && |Last(buffer).ranges| == 1 && Last(buffer).ranges[0].end + 1 == first
      && forall d :: Surviving(h, d) ==> |d.ranges| == 1 && d.ranges[0].end < first
  }

  /**
   * A reorg in a polite run leaves no gap: the replacing range starts one block after the newest surviving
   * watermark, and all surviving data ends before it. Where there is no watermark, everything is undone and the
   * stream goes on at or before the first block the table had data for.
   */
  lemma ReorgLeavesNoGap(steps: seq<Step>)
    requires PoliteRun(steps)
    requires var w := Run(INITIAL, steps);
             && w.live.Some? && w.live.value.queue != [] && w.live.value.queue[0].ReorgMessage?
             && Do(w, Pump).live.Some?
    ensures var w' := Do(Run(INITIAL, steps), Pump);
            var s' := w'.live.value;
            && |s'.queue| == 1 && !s'.queue[0].ReorgMessage? && OneRange(s'.queue[0].ranges)
            && NoGapBefore(w'.history, s'.actor.buffer, s'.queue[0].ranges[0].start)
            && (s'.actor.buffer == [] ==> ReplaysAll(Run(INITIAL, steps).history, s'.queue[0].ranges[0].start))
  {
    ReachablePolite(steps);
    ReachableInv(steps);
    PumpLeavesNoGap(Run(INITIAL, steps));
  }

  lemma PumpLeavesNoGap(w: World)
    requires Inv(w) && OrderInv(w) && PoliteInv(w)
    requires w.live.Some? && w.live.value.queue != [] && w.live.value.queue[0].ReorgMessage? && Do(w, Pump).live.Some?
    ensures var w' := Do(w, Pump);
            var s' := w'.live.value;
            && |s'.queue| == 1 && !s'.queue[0].ReorgMessage? && OneRange(s'.queue[0].ranges)
            && NoGapBefore(w'.history, s'.actor.buffer, s'.queue[0].ranges[0].start)
            && (s'.actor.buffer == [] ==> ReplaysAll(w.history, s'.queue[0].ranges[0].start))
  {
    var s := w.live.value;
    ReorgOutcome(w, s, Execute(Machine(s.actor, w.disk), Message(s.queue[0])));
  }

  /** In a polite session some buffered watermark ends right before whatever a reorg replaces. */
  lemma PoliteAdjoined(s: Session, k: nat)
    requires Contiguous(s.actor.buffer) && ReorgPending(s) && ReorgMatches(s) && Polite(s, s.queue[1].ranges)
    requires s.actor.buffer != [] ==> Next(Last(s.actor.buffer).ranges, s.previous)
    requires k < |s.actor.buffer| && k == RecoveryIndex(s.actor.buffer, Points(s.queue[0].invalidation))
    requires !SplitsRange(s.actor.buffer[k].ranges, s.queue[0].invalidation)
    ensures Adjoined(s.actor.buffer, s.queue[1].ranges[0].start)
  {
    RecoveryAdjacent(s, k);
    assert s.actor.buffer[k] in s.actor.buffer;
    assert EndsBefore(s.actor.buffer[k].ranges, s.queue[1].ranges[0].start);
  }

  lemma ReorgOutcome(w: World, s: Session, out: Outcome)
    requires HistoryOk(w.history, s.actor.next) && Increasing(s.actor.buffer) && !s.rewindDue
    requires OrderSession(w.history, s) && PoliteSession(w.history, s) && ReorgPending(s) && s.actor.next >= 1
    requires out == Execute(Machine(s.actor, w.disk), Message(s.queue[0])) && out.result.Ok?
    ensures var w', first := DoPump(w, s), s.queue[1].ranges[0].start;
            && w'.live.value.queue == [s.queue[1]]
            && NoGapBefore(w'.history, w'.live.value.actor.buffer, first)
            && (w'.live.value.actor.buffer == [] ==> ReplaysAll(w.history, first))
  {
    PumpRecovers(w, s, out);
    PumpedReorg(w, s, out);
    var k := RecoveryIndex(s.actor.buffer, Points(s.queue[0].invalidation));
    if 0 <= k {
      PoliteAdjoined(s, k);
    } else {
      UndoLeavesNothing(w.history, out.result.value, []);
    }
  }

  // ---- Contiguous buffers ----------------------------------------------------------------------------

  lemma InterpretMatches(s: Session, response: Response)
    requires OneRange(s.previous) && OneRange(response.ranges)
    requires var messages := Interpret(s.previous, response); messages.Ok? && messages.value[0].ReorgMessage?
    ensures var s' := s.(queue := Interpret(s.previous, response).value);
            ReorgPending(s') && ReorgMatches(s') && s'.queue[1].ranges == response.ranges
  {
    var p, r := s.previous[0], response.ranges[0];
    assert s.previous == [p] && response.ranges == [r];
    AcceptedRange(p, r);
  }

  /**
   * Where the watermarks are contiguous, however many open ranges lie behind the newest one, the condition is simpler:
   * a reorg that succeeds leaves a gap exactly when it starts more than one block past the newest watermark.
   */
  lemma GapFreeExactly(s: Session, disk: Snapshot, response: Response)
    requires s.actor.buffer != [] && Increasing(s.actor.buffer) && Contiguous(s.actor.buffer)
    requires OneRange(s.previous) && OneRange(response.ranges)
    requires Last(s.actor.buffer).ranges[0].network == s.previous[0].network
    requires var messages := Interpret(s.previous, response);
             && messages.Ok? && messages.value[0].ReorgMessage?
             && Execute(Machine(s.actor, disk), Message(messages.value[0])).result.Ok?
    ensures var reorg := Interpret(s.previous, response).value[0];
            var buffer := Execute(Machine(s.actor, disk), Message(reorg)).machine.actor.buffer;
            var newest, first := Last(s.actor.buffer).ranges[0].end, response.ranges[0].start;
            && buffer != [] && |Last(buffer).ranges| == 1
            && (Last(buffer).ranges[0].end + 1 == first <==> first <= newest + 1)
            && (first > newest + 1 ==> buffer == s.actor.buffer)
  {
    var s' := s.(queue := Interpret(s.previous, response).value);
    InterpretMatches(s, response);
    var k := RecoveryIndex(s.actor.buffer, Points(s'.queue[0].invalidation));
    ReorgBuffer(Machine(s.actor, disk), s'.queue[0], k);
    RecoveryAdjacent(s', k);
  }

  /** The buffer a successful reorg leaves, by the index of the recovery watermark. */
  lemma ReorgBuffer(m: Machine, message: ProtocolMessage, k: int)
    requires message.ReorgMessage? && m.actor.buffer != [] && Increasing(m.actor.buffer)
    requires k == RecoveryIndex(m.actor.buffer, Points(message.invalidation))
    requires Execute(m, Message(message)).result.Ok?
    ensures 0 <= k && !SplitsRange(m.actor.buffer[k].ranges, message.invalidation)
    ensures Execute(m, Message(message)).machine.actor.buffer == m.actor.buffer[..k + 1]
  {
    if 0 <= k {
      TruncateAt(m.actor.buffer, k);
    }
  }
}
