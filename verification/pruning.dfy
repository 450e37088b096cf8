/** Retention: what may be pruned, and why the cutoff lookup never misses a network. */
module Pruning {
  import opened Types
  import opened Sequences
  import opened Validation
  import opened Protocol
  import opened Transactional
  import opened Recovery
  import opened ExactlyOnce
  import StateActor

  /** Before the first ranges arrive there are none; from then on the set of networks is fixed. */
  ghost predicate Stable(older: seq<BlockRange>, newer: seq<BlockRange>) {
    older == [] || Networks(older) == Networks(newer)
  }

  ghost predicate StableBuffer(buffer: seq<Entry>) {
    && (forall x, y :: x in buffer && y in buffer && x.id < y.id ==> Stable(x.ranges, y.ranges))
    && (forall x :: x in buffer ==> DistinctNetworks(x.ranges))
  }

  ghost predicate StableSession(s: Session) {
    && StableBuffer(s.actor.buffer)
    && DistinctNetworks(s.previous)
    && (forall x :: x in s.actor.buffer ==> Stable(x.ranges, s.previous))
    && (s.queue != [] && !Last(s.queue).ReorgMessage? ==>
          DistinctNetworks(Last(s.queue).ranges) && Stable(s.previous, Last(s.queue).ranges))
  }

  ghost predicate NetworkInv(w: World) {
    match w.live
    case None => StableBuffer(w.disk.buffer)
    case Some(s) => StableSession(s)
  }

  lemma StableTrans(a: seq<BlockRange>, b: seq<BlockRange>, c: seq<BlockRange>)
    requires Stable(a, b) && Stable(b, c)
    ensures Stable(a, c)
  {
    if a != [] {
      assert a[0].network in Networks(a);
    }
  }

  lemma StableSubset(buffer: seq<Entry>, smaller: seq<Entry>)
    requires StableBuffer(buffer) && forall x :: x in smaller ==> x in buffer
    ensures StableBuffer(smaller)
  {
  }

  lemma CrashStable(m: Machine)
    requires Agrees(m) && StableBuffer(m.actor.buffer)
    ensures StableBuffer(m.disk.buffer)
  {
    DiskInBuffer(m);
    StableSubset(m.actor.buffer, m.disk.buffer);
  }

  lemma RestartStable(disk: Snapshot, retention: BlockNumber)
    requires StableBuffer(disk.buffer) && Increasing(disk.buffer)
    ensures StableSession(Opened(disk, retention))
  {
    if disk.buffer != [] {
      forall x | x in disk.buffer ensures Stable(x.ranges, Last(disk.buffer).ranges) {
        var i :| 0 <= i < |disk.buffer| && disk.buffer[i] == x;
        assert Last(disk.buffer) in disk.buffer;
      }
    }
  }

  lemma ReceiveStable(s: Session, response: Response)
    requires StableSession(s) && s.queue == [] && Interpret(s.previous, response).Ok?
    ensures StableSession(s.(queue := Interpret(s.previous, response).value))
  {
    NetworksStayStable(s.previous, response.ranges);
  }

  /** Older watermarks stay stable towards the ranges about to be processed. */
  lemma IncomingStable(s: Session, ranges: seq<BlockRange>)
    requires StableSession(s) && Stable(s.previous, ranges)
    ensures forall x :: x in s.actor.buffer ==> Stable(x.ranges, ranges)
  {
    forall x | x in s.actor.buffer ensures Stable(x.ranges, ranges) {
      StableTrans(x.ranges, s.previous, ranges);
    }
  }

  lemma AppendStable(buffer: seq<Entry>, e: Entry)
    requires StableBuffer(buffer) && IdsBelow(buffer, e.id) && DistinctNetworks(e.ranges)
    requires forall x :: x in buffer ==> Stable(x.ranges, e.ranges)
    ensures StableBuffer(buffer + [e])
  {
  }

  lemma ReorgStable(s: Session, s': Session)
    requires StableSession(s) && s.queue != [] && s'.previous == s.previous && s'.queue == s.queue[1..]
    requires forall x :: x in s'.actor.buffer ==> x in s.actor.buffer
    ensures StableSession(s')
  {
    StableSubset(s.actor.buffer, s'.actor.buffer);
    if s'.queue != [] {
      assert Last(s'.queue) == Last(s.queue);
    }
  }

  lemma MessageStable(s: Session, s': Session, ranges: seq<BlockRange>, id: TransactionId)
    requires StableSession(s) && Stable(s.previous, ranges) && DistinctNetworks(ranges) && IdsBelow(s.actor.buffer, id)
    requires s'.previous == ranges && s'.queue == []
    requires s'.actor.buffer == s.actor.buffer || s'.actor.buffer == s.actor.buffer + [Entry(id, ranges)]
    ensures StableSession(s')
  {
    IncomingStable(s, ranges);
    AppendStable(s.actor.buffer, Entry(id, ranges));
  }

  lemma ReorgPumped(w: World, s: Session)
    requires |s.queue| == 2 && s.queue[0].ReorgMessage? && StableSession(s)
    requires Execute(Machine(s.actor, w.disk), Message(s.queue[0])).result.Ok?
    ensures StableSession(DoPump(w, s).live.value)
  {
    var out := Execute(Machine(s.actor, w.disk), Message(s.queue[0]));
    PumpedReorg(w, s, out);
    FilterMembers(s.actor.buffer, IdBelow(out.result.value.lo));
    ReorgStable(s, DoPump(w, s).live.value);
  }

  lemma MessagePumped(w: World, s: Session)
    requires |s.queue| == 1 && !s.queue[0].ReorgMessage? && StableSession(s) && IdsBelow(s.actor.buffer, s.actor.next)
    ensures DoPump(w, s).live.Some? && StableSession(DoPump(w, s).live.value)
  {
    PumpedMessage(w, s, Execute(Machine(s.actor, w.disk), Message(s.queue[0])));
    MessageStable(s, DoPump(w, s).live.value, s.queue[0].ranges, s.actor.next);
  }

  lemma PumpStable(w: World, s: Session)
    requires Agrees(Machine(s.actor, w.disk)) && QueueOk(s.previous, s.queue)
    requires w.live == Some(s) && StableSession(s)
    ensures NetworkInv(DoPump(w, s))
  {
    if s.queue != [] {
      var m := Machine(s.actor, w.disk);
      if Execute(m, Message(s.queue[0])).result.Err? {
        CrashStable(m);
      } else if s.queue[0].ReorgMessage? {
        ReorgPumped(w, s);
      } else {
        MessagePumped(w, s);
      }
    }
  }

  lemma SubsetStable(s: Session, s': Session)
    requires StableSession(s) && s'.previous == s.previous && s'.queue == s.queue
    requires forall x :: x in s'.actor.buffer ==> x in s.actor.buffer
    ensures StableSession(s')
  {
    StableSubset(s.actor.buffer, s'.actor.buffer);
  }

  lemma CommitStable(w: World, s: Session, id: TransactionId)
    requires Agrees(Machine(s.actor, w.disk)) && w.live == Some(s) && StableSession(s)
    ensures NetworkInv(DoCommit(w, s, id))
  {
    CommitSources(Machine(s.actor, w.disk), id);
    SubsetStable(s, DoCommit(w, s, id).live.value);
  }

  lemma ReceiveStep(w: World, s: Session, response: Response)
    requires Agrees(Machine(s.actor, w.disk)) && w.live == Some(s) && StableSession(s)
    ensures NetworkInv(DoReceive(w, s, response))
  {
    if !s.rewindDue && s.queue == [] {
      if Interpret(s.previous, response).Ok? {
        ReceiveStable(s, response);
      } else {
        CrashStable(Machine(s.actor, w.disk));
      }
    }
  }

  lemma HaltStable(w: World, s: Session, written: bool)
    requires Agrees(Machine(s.actor, w.disk)) && w.live == Some(s) && StableSession(s)
    ensures NetworkInv(DoHalt(w, s, written))
  {
    if NextAction(s).Some? {
      var n := HaltedPrefix(Machine(s.actor, w.disk), NextAction(s).value, written);
      CrashStable(Machine(s.actor, w.disk));
      StableSubset(w.disk.buffer, w.disk.buffer[..n]);
    }
  }

  lemma LiveStable(w: World, s: Session, step: Step)
    requires Agrees(Machine(s.actor, w.disk)) && QueueOk(s.previous, s.queue)
    requires w.live == Some(s) && StableSession(s)
    ensures NetworkInv(Do(w, step))
  {
    match step
    case Receive(response) => ReceiveStep(w, s, response);
    case Pump => PumpStable(w, s);
    case CommitId(id) => CommitStable(w, s, id);
    case Halt(written) => HaltStable(w, s, written);
    case Crash => CrashStable(Machine(s.actor, w.disk));
    case _ => SubsetStable(s, Do(w, step).live.value);
  }

  lemma StepStable(w: World, step: Step)
    requires Inv(w) && NetworkInv(w)
    ensures NetworkInv(Do(w, step))
  {
    match w.live
    case None =>
      if step.Restart? {
        RestartStable(w.disk, step.retention);
      }
    case Some(s) => LiveStable(w, s, step);
  }

  lemma {:induction false} ReachableStable(steps: seq<Step>)
    ensures Inv(Run(INITIAL, steps)) && NetworkInv(Run(INITIAL, steps))
  {
    ReachableInv(steps);
    if steps == [] {
    } else {
      ReachableStable(Front(steps));
      StepStable(Run(INITIAL, Front(steps)), Last(steps));
    }
  }

  // ---- Main results ----------------------------------------------------------------------------------

  lemma WatermarkNext(s: Session)
    requires StableSession(s) && QueueOk(s.previous, s.queue) && s.queue != [] && s.queue[0].WatermarkMessage?
    ensures DistinctNetworks(s.queue[0].ranges)
    ensures forall x :: x in s.actor.buffer ==> Stable(x.ranges, s.queue[0].ranges)
  {
    IncomingStable(s, s.queue[0].ranges);
  }

  lemma ReachableSession(steps: seq<Step>)
    requires Run(INITIAL, steps).live.Some?
    ensures var s := Run(INITIAL, steps).live.value;
            StableSession(s) && QueueOk(s.previous, s.queue) &&
            Increasing(s.actor.buffer) && IdsBelow(s.actor.buffer, s.actor.next)
  {
    ReachableStable(steps);
  }

  /** In every reachable state, pruning for the next watermark finds a cutoff for every range it looks at. */
  lemma CutoffLookupNeverMisses(steps: seq<Step>)
    requires var w := Run(INITIAL, steps);
             w.live.Some? && w.live.value.queue != [] && w.live.value.queue[0].WatermarkMessage?
    ensures var s := Run(INITIAL, steps).live.value;
            StateActor.CutoffsFound(s.actor.buffer + [Entry(s.actor.next, s.queue[0].ranges)], s.actor.retention)
  {
    ReachableSession(steps);
    var s := Run(INITIAL, steps).live.value;
    WatermarkNext(s);
    StateActor.KnownCutoffsFound(s.actor.buffer, Entry(s.actor.next, s.queue[0].ranges), s.actor.retention);
  }

  lemma {:induction false} CutoffOf(ranges: seq<BlockRange>, retention: BlockNumber, r: BlockRange)
    requires DistinctNetworks(ranges) && r in ranges
    ensures r.network in Cutoffs(ranges, retention)
    ensures Cutoffs(ranges, retention)[r.network] == SaturatingSub(r.start, retention)
  {
    if Last(ranges) != r {
      var k :| 0 <= k < |ranges| && ranges[k] == r;
      assert Front(ranges)[k] == r;
      CutoffOf(Front(ranges), retention, r);
    }
  }

  /** A watermark is prunable when each of its ranges ends more than the retention before the newest start. */
  ghost predicate OutsideWindow(ranges: seq<BlockRange>, newest: seq<BlockRange>, retention: BlockNumber) {
    forall r :: r in ranges ==> exists n :: n in newest && n.network == r.network && r.end + retention < n.start
  }

  lemma OutsideMeaning(ranges: seq<BlockRange>, newest: seq<BlockRange>, retention: BlockNumber)
    requires DistinctNetworks(newest)
    ensures Outside(ranges, Cutoffs(newest, retention)) <==> OutsideWindow(ranges, newest, retention)
  {
    var cutoffs := Cutoffs(newest, retention);
    if Outside(ranges, cutoffs) {
      forall r | r in ranges ensures exists n :: n in newest && n.network == r.network && r.end + retention < n.start {
        var i :| 0 <= i < |ranges| && ranges[i] == r;
        var n :| n in newest && n.network == r.network;
        CutoffOf(newest, retention, n);
      }
    }
    if OutsideWindow(ranges, newest, retention) {
      forall i | 0 <= i < |ranges| ensures ranges[i].network in cutoffs && ranges[i].end < cutoffs[ranges[i].network] {
        assert ranges[i] in ranges;
        var n :| n in newest && n.network == ranges[i].network && ranges[i].end + retention < n.start;
        CutoffOf(newest, retention, n);
      }
    }
  }

  /** How many watermarks the pruning point covers. */
  ghost function PrunedCount(buffer: seq<Entry>, retention: BlockNumber): nat
    requires buffer != []
  {
    OutsidePrefix(Front(buffer), Cutoffs(Last(buffer).ranges, retention))
  }

  ghost predicate Pruned(buffer: seq<Entry>, retention: BlockNumber, e: Entry) {
    PruningPoint(buffer, retention).Some? && e.id <= PruningPoint(buffer, retention).value
  }

  lemma PrunedIds(buffer: seq<Entry>, retention: BlockNumber, i: nat)
    requires Increasing(buffer) && i < |buffer| && Last(buffer).ranges != []
    ensures PrunedCount(buffer, retention) < |buffer|
    ensures Pruned(buffer, retention, buffer[i]) <==> i < PrunedCount(buffer, retention)
  {
  }

  /** The pruned watermarks are exactly the longest prefix outside the window; the newest is never one. */
  lemma PruneIsLongestSafePrefix(buffer: seq<Entry>, retention: BlockNumber, i: nat)
    requires Increasing(buffer) && i < |buffer|
    requires Last(buffer).ranges != [] && DistinctNetworks(Last(buffer).ranges)
    ensures Pruned(buffer, retention, buffer[i]) <==>
            i < |buffer| - 1 &&
            forall j :: 0 <= j <= i ==> OutsideWindow(buffer[j].ranges, Last(buffer).ranges, retention)
  {
    var newest := Last(buffer).ranges;
    var cutoffs := Cutoffs(newest, retention);
    var older := Front(buffer);
    var k := PrunedCount(buffer, retention);
    PrunedIds(buffer, retention, i);
    forall j | 0 <= j < |older|
      ensures older[j] == buffer[j] &&
              (Outside(older[j].ranges, cutoffs) <==> OutsideWindow(buffer[j].ranges, newest, retention)) {
      OutsideMeaning(buffer[j].ranges, newest, retention);
    }
    if i < k {
      assert forall j :: 0 <= j <= i ==> Outside(older[j].ranges, cutoffs);
    } else if i < |buffer| - 1 {
      assert !Outside(older[k].ranges, cutoffs);
    }
  }

  /** All watermarks up to the one with this id lie outside the window that the newest ranges open. */
  ghost predicate AllOutside(buffer: seq<Entry>, id: TransactionId, newest: seq<BlockRange>, retention: BlockNumber) {
    forall x :: x in buffer && x.id <= id ==> OutsideWindow(x.ranges, newest, retention)
  }

  lemma UpToIsPrefix(buffer: seq<Entry>, newest: Entry, i: nat, retention: BlockNumber)
    requires Increasing(buffer + [newest]) && i < |buffer|
    ensures AllOutside(buffer, buffer[i].id, newest.ranges, retention) <==>
            forall j :: 0 <= j <= i ==> OutsideWindow((buffer + [newest])[j].ranges, newest.ranges, retention)
  {
    var all := buffer + [newest];
    if AllOutside(buffer, buffer[i].id, newest.ranges, retention) {
      forall j | 0 <= j <= i ensures OutsideWindow(all[j].ranges, newest.ranges, retention) {
        assert all[j] == buffer[j] && all[j].id <= all[i].id;
      }
    }
    if forall j :: 0 <= j <= i ==> OutsideWindow(all[j].ranges, newest.ranges, retention) {
      forall x | x in buffer && x.id <= buffer[i].id ensures OutsideWindow(x.ranges, newest.ranges, retention) {
        var j :| 0 <= j < |buffer| && buffer[j] == x;
        assert all[j] == x && all[i] == buffer[i];
      }
    }
  }

  /** The watermark that an action emits carries the pruning point of the buffer it has then, and so does the queue. */
  lemma EmittedPrune(m: Machine, ranges: seq<BlockRange>)
    ensures var out := Execute(m, Message(WatermarkMessage(ranges)));
            var prune := PruningPoint(m.actor.buffer + [Entry(m.actor.next, ranges)], m.actor.retention);
            && out.result == Ok(Watermark(m.actor.next, ranges, prune))
            && out.machine.actor.uncommitted == m.actor.uncommitted + [Pending(Entry(m.actor.next, ranges), prune)]
  {
  }

  lemma NextPrune(buffer: seq<Entry>, newest: Entry, e: Entry, retention: BlockNumber)
    requires Increasing(buffer) && IdsBelow(buffer, newest.id) && e in buffer
    requires newest.ranges != [] && DistinctNetworks(newest.ranges)
    ensures !Pruned(buffer + [newest], retention, newest)
    ensures Pruned(buffer + [newest], retention, e) <==> AllOutside(buffer, e.id, newest.ranges, retention)
  {
    var all := buffer + [newest];
    AppendIncreasing(buffer, newest);
    var i :| 0 <= i < |buffer| && buffer[i] == e;
    assert all[i] == e && Last(all) == newest;
    PruneIsLongestSafePrefix(all, retention, i);
    PruneIsLongestSafePrefix(all, retention, |all| - 1);
    UpToIsPrefix(buffer, newest, i, retention);
  }

  /**
   * In every reachable state, the next watermark prunes, in its event and when it is committed, exactly the older
   * watermarks that lie outside the window it opens together with all before them. It never prunes itself.
   */
  lemma PruningIsExact(steps: seq<Step>, e: Entry)
    requires var w := Run(INITIAL, steps);
             && w.live.Some? && w.live.value.queue != [] && w.live.value.queue[0].WatermarkMessage?
             && w.live.value.queue[0].ranges != [] && e in w.live.value.actor.buffer
    ensures var w := Run(INITIAL, steps);
            var s := w.live.value;
            var newest := s.queue[0].ranges;
            var out := Execute(Machine(s.actor, w.disk), Message(s.queue[0]));
            && out.result.Ok? && out.result.value.Watermark?
            && var prune := out.result.value.prune;
            && out.machine.actor.uncommitted == s.actor.uncommitted + [Pending(Entry(s.actor.next, newest), prune)]
            && (prune.Some? ==> prune.value < s.actor.next)
            && (prune.Some? && e.id <= prune.value <==> AllOutside(s.actor.buffer, e.id, newest, s.actor.retention))
  {
    ReachableSession(steps);
    var w := Run(INITIAL, steps);
    var s := w.live.value;
    WatermarkNext(s);
    EmittedPrune(Machine(s.actor, w.disk), s.queue[0].ranges);
    NextPrune(s.actor.buffer, Entry(s.actor.next, s.queue[0].ranges), e, s.actor.retention);
  }
}
