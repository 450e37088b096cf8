/** The invariant of every run, and what it gives: exactly-once, unique ids, well-formed undo ranges. */
module ExactlyOnce {
  import opened Types
  import opened Sequences
  import opened Validation
  import opened Protocol
  import opened Transactional
  import opened Consumer
  import opened Recovery
  import opened History

  // ---- The invariant ---------------------------------------------------------------------------------

  ghost predicate DistinctInvalidation(invalidation: seq<InvalidationRange>) {
    forall i, j :: 0 <= i < j < |invalidation| ==> invalidation[i].network != invalidation[j].network
  }

  /** Each invalidated network was part of the previous ranges, at or past the reorg point. */
  ghost predicate RealReorg(previous: seq<BlockRange>, invalidation: seq<InvalidationRange>) {
    && invalidation != []
    && DistinctInvalidation(invalidation)
    && forall v :: v in invalidation ==> exists p :: p in previous && p.network == v.network && v.start <= p.end
  }

  ghost predicate QueueOk(previous: seq<BlockRange>, queue: seq<ProtocolMessage>) {
    || queue == []
    || (|queue| == 1 && !queue[0].ReorgMessage?)
    || (|queue| == 2 && queue[0].ReorgMessage? && !queue[1].ReorgMessage? &&
        RealReorg(previous, queue[0].invalidation))
  }

  /** The stream's previous ranges are those of the newest event whenever that event is a watermark. */
  ghost predicate Coupled(s: Session) {
    && QueueOk(s.previous, s.queue)
    && (s.rewindDue ==> s.queue == [] && RewindNeeded(s.actor))
    && (!s.rewindDue ==>
          && (s.previous != [] ==> s.actor.next >= 1)
          && (s.actor.buffer != [] && Last(s.actor.buffer).id + 1 == s.actor.next ==>
                Last(s.actor.buffer).ranges == s.previous))
  }

  ghost function Done(w: World, s: Session): seq<Event>
    requires |s.inbox| <= |w.history|
  {
    w.history[..|w.history| - |s.inbox|]
  }

  /** The inbox is the end of the history and lies beyond everything that is persisted or finished. */
  ghost predicate Pipeline(w: World, s: Session) {
    && |s.inbox| <= |w.history| && w.history == Done(w, s) + s.inbox
    && s.acked <= w.disk.next
    && (forall e :: e in s.inbox ==> s.acked <= e.id)
    && (forall e, b :: e in s.inbox && b in w.disk.buffer ==> b.id < e.id)
  }

  ghost predicate HeadIsData(s: Session) {
    s.inbox != [] && s.inbox[0].Data?
  }

  /** The table holds what the finished events leave, plus the inserted rows of the batch in progress. */
  ghost predicate Settled(t: Table, done: seq<Event>, s: Session) {
    && (if HeadIsData(s) then s.inserted <= |s.inbox[0].batch| else s.inserted == 0)
    && forall k: Key :: Lookup(t, k) ==
         if HeadIsData(s) && k.tx == s.inbox[0].id
         then (if k.index < s.inserted then Some(s.inbox[0].batch[k.index]) else None)
         else Expect(done, k)
  }

  /** Until the opening rewind is applied, only rows up to the last persisted watermark can be trusted. */
  ghost predicate Recovering(w: World, s: Session)
    requires |s.inbox| <= |w.history|
  {
    && s.acked == 0 && s.inserted == 0
    && if s.rewindDue then
         s.inbox == [] && s.actor.uncommitted == [] && TableUpTo(w.table, w.history, ResumeId(s.actor.buffer))
       else
         && s.inbox != [] && s.inbox[0].Undo? && s.inbox[0].hi + 1 == s.inbox[0].id
         && TableBelow(w.table, s.inbox[0].id)
         && TableUpTo(w.table, Done(w, s), s.inbox[0].lo)
  }

  ghost predicate SessionInv(w: World, s: Session) {
    && Agrees(Machine(s.actor, w.disk))
    && Avoids(w.history, s.actor.buffer)
    && Coupled(s)
    && Pipeline(w, s)
    && (s.rewindDue ==> s.recovering)
    && (if s.recovering then Recovering(w, s) else Settled(w.table, Done(w, s), s))
  }

  ghost predicate Inv(w: World) {
    && HistoryOk(w.history, w.disk.next)
    && Increasing(w.disk.buffer) && IdsBelow(w.disk.buffer, w.disk.next)
    && TableBelow(w.table, w.disk.next)
    && match w.live
       case None => Avoids(w.history, w.disk.buffer) && TableUpTo(w.table, w.history, ResumeId(w.disk.buffer))
       case Some(s) => SessionInv(w, s)
  }

  // ---- Crash and restart -----------------------------------------------------------------------------

  lemma DiskInBuffer(m: Machine)
    requires Agrees(m)
    ensures forall b :: b in m.disk.buffer ==> b in m.actor.buffer
    ensures Increasing(m.disk.buffer) && IdsBelow(m.disk.buffer, m.disk.next)
  {
    var n := |m.disk.buffer|;
    forall i | 0 <= i < n ensures m.disk.buffer[i] == m.actor.buffer[i] && m.disk.buffer[i] in m.actor.buffer {
    }
  }

  lemma ResumeBound(buffer: seq<Entry>, tx: TransactionId)
    requires tx < ResumeId(buffer)
    ensures buffer != [] && tx <= Last(buffer).id && Last(buffer) in buffer
  {
  }

  /** Events still in the inbox do not touch rows up to the last persisted watermark. */
  lemma InboxBeyondDisk(w: World, s: Session, tx: TransactionId)
    requires Pipeline(w, s) && Avoids(w.history, w.disk.buffer) && tx < ResumeId(w.disk.buffer)
    ensures Untouched(s.inbox, tx)
    ensures forall e :: e in s.inbox ==> tx < e.id
  {
    ResumeBound(w.disk.buffer, tx);
    var b := Last(w.disk.buffer);
    forall e | e in s.inbox ensures tx < e.id && (e.Undo? ==> tx < e.lo) {
      assert e in w.history && b.id < e.id;
    }
  }

  lemma CrashTable(w: World, s: Session)
    requires Pipeline(w, s) && Avoids(w.history, w.disk.buffer)
    requires s.rewindDue ==> s.recovering && s.actor.buffer == w.disk.buffer
    requires if s.recovering then Recovering(w, s) else Settled(w.table, Done(w, s), s)
    ensures TableUpTo(w.table, w.history, ResumeId(w.disk.buffer))
  {
    forall k: Key | k.tx < ResumeId(w.disk.buffer) ensures Lookup(w.table, k) == Expect(w.history, k) {
      if !s.rewindDue {
        InboxBeyondDisk(w, s, k.tx);
        ExpectExtend(Done(w, s), s.inbox, k);
        if s.recovering {
          assert s.inbox[0] in s.inbox;
        } else if HeadIsData(s) {
          assert s.inbox[0] in s.inbox;
        }
      }
    }
  }

  lemma NothingPending(m: Machine)
    requires Agrees(m) && m.actor.uncommitted == []
    ensures m.actor.buffer == m.disk.buffer
  {
  }

  lemma CrashKeeps(w: World, s: Session)
    requires Inv(w) && w.live == Some(s)
    ensures Inv(w.(live := None))
  {
    var m := Machine(s.actor, w.disk);
    DiskInBuffer(m);
    AvoidsSubset(w.history, s.actor.buffer, w.disk.buffer);
    if s.rewindDue {
      NothingPending(m);
    }
    CrashTable(w, s);
  }

  /** With nothing to rewind, the counter stands right after the last watermark. */
  lemma CleanRestart(w: World, retention: BlockNumber)
    requires !RewindNeeded(Open(w.disk, retention).actor) && IdsBelow(w.disk.buffer, w.disk.next)
    requires HistoryOk(w.history, w.disk.next) && TableBelow(w.table, w.disk.next)
    requires TableUpTo(w.table, w.history, ResumeId(w.disk.buffer))
    ensures TableExact(w.table, w.history)
  {
    if w.disk.buffer != [] {
      assert Last(w.disk.buffer) in w.disk.buffer;
    }
    assert w.disk.next == ResumeId(w.disk.buffer);
    BelowIsExact(w.table, w.history, w.disk.next);
  }

  lemma RestartSession(w: World, s: Session, retention: BlockNumber)
    requires s == Opened(w.disk, retention) && Agrees(Machine(s.actor, w.disk)) && Avoids(w.history, w.disk.buffer)
    requires TableUpTo(w.table, w.history, ResumeId(w.disk.buffer))
    requires !s.recovering ==> Settled(w.table, w.history, s)
    ensures SessionInv(w, s)
  {
    assert Done(w, s) == w.history;
  }

  lemma RestartKeeps(w: World, retention: BlockNumber)
    requires Inv(w) && w.live.None?
    ensures Inv(w.(live := Some(Opened(w.disk, retention))))
  {
    OpenAgrees(w.disk, retention);
    var s := Opened(w.disk, retention);
    if !s.recovering {
      CleanRestart(w, retention);
      ExactSettles(w.table, w.history, s);
    }
    RestartSession(w.(live := Some(s)), s, retention);
  }

  // ---- A store that fails inside an action -----------------------------------------------------------

  lemma {:induction false} TruncateIsPrefix(b: seq<Entry>, from: TransactionId) returns (n: nat)
    requires Increasing(b)
    ensures n <= |b| && Filter(b, IdBelow(from)) == b[..n]
    ensures forall i :: 0 <= i < |b| ==> (b[i].id < from <==> i < n)
  {
    if b == [] || b[0].id >= from {
      n := 0;
      forall x | x in b ensures x.id >= from {
        var i :| 0 <= i < |b| && b[i] == x;
      }
      FilterNone(b, IdBelow(from));
    } else {
      var k := TruncateIsPrefix(b[1..], from);
      n := k + 1;
      assert forall i :: 0 < i < |b| ==> b[i] == b[1..][i - 1];
      assert b[..n] == [b[0]] + b[1..][..k];
    }
  }

  /** An interrupted action leaves a prefix of the persisted watermarks. */
  lemma HaltedPrefix(m: Machine, action: Action, written: bool) returns (n: nat)
    requires Agrees(m)
    ensures n <= |m.disk.buffer|
    ensures Halted(m, action, written) == Snapshot(m.disk.next + 1, m.disk.buffer[..n])
  {
    n := |m.disk.buffer|;
    assert m.disk.buffer[..n] == m.disk.buffer;
    if written && action.Message? && action.message.ReorgMessage? {
      DiskInBuffer(m);
      var k := RecoveryIndex(m.actor.buffer, Points(action.message.invalidation));
      if Execute(m, action).result.Ok? {
        n := TruncateIsPrefix(m.disk.buffer, if k < 0 then 1 else m.actor.buffer[k].id + 1);
      }
    }
  }

  lemma PrefixResume(buffer: seq<Entry>, n: nat)
    requires Increasing(buffer) && n <= |buffer|
    ensures ResumeId(buffer[..n]) <= ResumeId(buffer)
  {
    if n > 0 {
      assert Last(buffer[..n]) == buffer[n - 1] && (n < |buffer| ==> buffer[n - 1].id < Last(buffer).id);
    }
  }

  lemma PrefixKeeps(w: World, n: nat)
    requires Inv(w) && w.live.None? && n <= |w.disk.buffer|
    ensures Inv(w.(disk := Snapshot(w.disk.next + 1, w.disk.buffer[..n])))
  {
    PrefixResume(w.disk.buffer, n);
    AvoidsSubset(w.history, w.disk.buffer, w.disk.buffer[..n]);
  }

  lemma HaltKeeps(w: World, s: Session, written: bool)
    requires Inv(w) && w.live == Some(s)
    ensures Inv(DoHalt(w, s, written))
  {
    if NextAction(s).Some? {
      var n := HaltedPrefix(Machine(s.actor, w.disk), NextAction(s).value, written);
      CrashKeeps(w, s);
      PrefixKeeps(w.(live := None), n);
    }
  }

  // ---- The consumer ----------------------------------------------------------------------------------

  lemma SuffixIncreasing(done: seq<Event>, inbox: seq<Event>, i: nat, j: nat)
    requires forall i, j :: 0 <= i < j < |done + inbox| ==> (done + inbox)[i].id < (done + inbox)[j].id
    requires i < j < |inbox|
    ensures inbox[i].id < inbox[j].id
  {
    var n := |done|;
    assert (done + inbox)[n + i] == inbox[i] && (done + inbox)[n + j] == inbox[j];
  }

  lemma InboxIncreasing(w: World, s: Session)
    requires |s.inbox| <= |w.history| && w.history == Done(w, s) + s.inbox && HistoryOk(w.history, w.disk.next)
    ensures forall i, j :: 0 <= i < j < |s.inbox| ==> s.inbox[i].id < s.inbox[j].id
  {
    forall i, j | 0 <= i < j < |s.inbox| ensures s.inbox[i].id < s.inbox[j].id {
      SuffixIncreasing(Done(w, s), s.inbox, i, j);
    }
  }

  lemma TailMembers(inbox: seq<Event>)
    requires inbox != [] && forall i, j :: 0 <= i < j < |inbox| ==> inbox[i].id < inbox[j].id
    ensures forall e :: e in inbox[1..] ==> e in inbox && inbox[0].id < e.id
  {
    forall e | e in inbox[1..] ensures e in inbox && inbox[0].id < e.id {
      var i :| 0 <= i < |inbox[1..]| && inbox[1..][i] == e;
      assert inbox[i + 1] == e;
    }
  }

  lemma PopSplit(history: seq<Event>, done: seq<Event>, inbox: seq<Event>)
    requires inbox != [] && history == done + inbox
    ensures history[..|history| - |inbox[1..]|] == done + [inbox[0]]
    ensures history == (done + [inbox[0]]) + inbox[1..]
  {
  }

  lemma PopPipeline(w: World, s: Session, w': World, s': Session)
    requires Pipeline(w, s) && HistoryOk(w.history, w.disk.next) && s.inbox != []
    requires s'.inbox == s.inbox[1..] && s'.acked == s.inbox[0].id + 1
    requires w'.history == w.history && w'.disk == w.disk
    ensures Pipeline(w', s') && Done(w', s') == Done(w, s) + [s.inbox[0]]
  {
    InboxIncreasing(w, s);
    TailMembers(s.inbox);
    PopSplit(w.history, Done(w, s), s.inbox);
    assert s.inbox[0] in w.history;
  }

  /** Finishing a settled event keeps the table exact. */
  lemma FinishSettled(t: Table, done: seq<Event>, s: Session)
    requires s.inbox != [] && HistoryOk(done, s.inbox[0].id) && EventOk(s.inbox[0]) && Settled(t, done, s)
    requires s.inbox[0].Data? ==> s.inserted == |s.inbox[0].batch|
    ensures var e := s.inbox[0];
            TableExact(if e.Undo? then DeleteRange(t, e.lo, e.hi) else t, done + [e])
  {
    var e := s.inbox[0];
    if e.Undo? {
      UndoExact(t, done, e);
    } else {
      forall k: Key ensures Lookup(t, k) == Expect(done + [e], k) {
        ExpectSnoc(done, e, k);
      }
    }
  }

  /** A table that is exact for the finished events is settled: no row of the next batch is in it. */
  lemma ExactSettles(t: Table, done: seq<Event>, s: Session)
    requires TableExact(t, done) && s.inserted == 0
    requires s.inbox != [] ==> HistoryOk(done, s.inbox[0].id)
    ensures Settled(t, done, s)
  {
    if HeadIsData(s) {
      forall k: Key | k.tx == s.inbox[0].id ensures Expect(done, k) == None {
        NoDataAbove(done, s.inbox[0].id, k.tx);
      }
    }
  }

  lemma FinishKeeps(w: World, s: Session)
    requires Inv(w) && w.live == Some(s)
    ensures Inv(DoFinish(w, s))
  {
    var w' := DoFinish(w, s);
    if w' != w {
      FinishTable(w, s);
      PopPipeline(w, s, w', w'.live.value);
      PopSettled(w, s, w'.table, w'.live.value);
    }
  }

  /** The table is exact once the first event of the inbox is finished. */
  lemma FinishTable(w: World, s: Session)
    requires Inv(w) && w.live == Some(s) && s.inbox != []
    requires HeadIsData(s) ==> s.inserted >= |s.inbox[0].batch|
    ensures var e := s.inbox[0];
            TableExact(if e.Undo? then DeleteRange(w.table, e.lo, e.hi) else w.table, Done(w, s) + [e])
  {
    var done, e := Done(w, s), s.inbox[0];
    HistoryPrefix(done, s.inbox, w.disk.next);
    if s.recovering {
      RewindExact(w.table, done, e);
    } else {
      FinishSettled(w.table, done, s);
    }
  }

  lemma PopSettled(w: World, s: Session, t: Table, s': Session)
    requires Pipeline(w, s) && HistoryOk(w.history, w.disk.next) && s.inbox != []
    requires s'.inbox == s.inbox[1..] && s'.inserted == 0 && TableExact(t, Done(w, s) + [s.inbox[0]])
    ensures Settled(t, Done(w, s) + [s.inbox[0]], s')
  {
    var done, e := Done(w, s), s.inbox[0];
    PopSplit(w.history, done, s.inbox);
    HistoryPrefix(done + [e], s'.inbox, w.disk.next);
    ExactSettles(t, done + [e], s');
  }

  lemma InsertSettled(t: Table, done: seq<Event>, s: Session, from: nat, to: nat)
    requires HeadIsData(s) && from <= s.inserted && from <= to <= |s.inbox[0].batch| && Settled(t, done, s)
    ensures Settled(InsertRows(t, s.inbox[0].id, s.inbox[0].batch, from, to), done, s.(inserted := Max(s.inserted, to)))
  {
    var e := s.inbox[0];
    forall k: Key ensures Lookup(InsertRows(t, e.id, e.batch, from, to), k) ==
        (if k.tx == e.id then (if k.index < Max(s.inserted, to) then Some(e.batch[k.index]) else None)
         else Expect(done, k)) {
      InsertLookup(t, e.id, e.batch, from, to, k);
      assert Lookup(t, k) ==
        if k.tx == e.id then (if k.index < s.inserted then Some(e.batch[k.index]) else None) else Expect(done, k);
    }
  }

  lemma InsertBelow(t: Table, tx: TransactionId, batch: Batch, from: nat, to: nat, next: TransactionId)
    requires from <= to <= |batch| && TableBelow(t, next) && tx < next
    ensures TableBelow(InsertRows(t, tx, batch, from, to), next)
  {
  }

  lemma InsertKeeps(w: World, s: Session, from: nat, to: nat)
    requires Inv(w) && w.live == Some(s)
    ensures Inv(DoInsert(w, s, from, to))
  {
    if s.inbox != [] && s.inbox[0].Data? && from <= s.inserted && from <= to <= |s.inbox[0].batch| {
      assert s.inbox[0] in w.history;
      InsertSettled(w.table, Done(w, s), s, from, to);
      InsertBelow(w.table, s.inbox[0].id, s.inbox[0].batch, from, to, w.disk.next);
      var w' := DoInsert(w, s, from, to);
      assert Done(w', w'.live.value) == Done(w, s);
    }
  }

  // ---- Commits ---------------------------------------------------------------------------------------

  lemma AfterPruneSubset(b: seq<Entry>, p: Option<TransactionId>)
    ensures forall e :: e in AfterPrune(b, p) ==> e in b
  {
    if p.Some? {
      FilterMembers(b, IdAbove(p.value));
    }
  }

  /** What a commit persists was persisted before or is a pending watermark up to the committed id. */
  lemma CommitSources(m: Machine, id: TransactionId)
    ensures var m' := CommitUpTo(m, id);
            && (forall e :: e in m'.actor.buffer ==> e in m.actor.buffer)
            && (forall e :: e in m'.disk.buffer ==> e in m.disk.buffer || e.id <= id)
            && m'.actor.next == m.actor.next && m'.disk.next == m.disk.next
  {
    var pos := CommitPosition(m.actor.uncommitted, id);
    var front := m.actor.uncommitted[..pos];
    AfterPruneSubset(m.actor.buffer, LargestPrune(front));
    AfterPruneSubset(m.disk.buffer + Entries(front), LargestPrune(front));
  }

  lemma CommitCoupled(s: Session, m: Machine, id: TransactionId)
    requires Coupled(s) && m.actor == s.actor && Agrees(m) && !s.rewindDue
    ensures Coupled(s.(actor := CommitUpTo(m, id).actor))
  {
    CommitSources(m, id);
    if m.actor.buffer != [] {
      CommitKeepsNewest(m, id);
    }
  }

  lemma CommitKeeps(w: World, s: Session, id: TransactionId)
    requires Inv(w) && w.live == Some(s)
    ensures Inv(DoCommit(w, s, id))
  {
    if id < s.acked {
      var m := Machine(s.actor, w.disk);
      var m' := CommitUpTo(m, id);
      CommitAgrees(m, id);
      CommitSources(m, id);
      DiskInBuffer(m');
      AvoidsSubset(w.history, s.actor.buffer, m'.actor.buffer);
      CommitCoupled(s, m, id);
      var w' := DoCommit(w, s, id);
      var s' := w'.live.value;
      assert Done(w', s') == Done(w, s);
      assert Pipeline(w', s');
    }
  }

  // ---- Receiving a response --------------------------------------------------------------------------

  lemma {:induction false} InvalidationsDistinct(previous: seq<BlockRange>, incoming: seq<BlockRange>)
    requires DistinctNetworks(incoming)
    ensures DistinctInvalidation(Invalidations(previous, incoming))
  {
    if incoming == [] {
    } else {
      var rest := Invalidations(previous, incoming[1..]);
      InvalidationsDistinct(previous, incoming[1..]);
      forall j | 0 <= j < |rest| ensures rest[j].network != incoming[0].network {
        assert rest[j] in rest;
        var r :| r in incoming[1..] && Invalidate(previous, r) == Some(rest[j]);
        var k :| 0 <= k < |incoming[1..]| && incoming[1..][k] == r;
        assert incoming[k + 1] == r;
      }
    }
  }

  lemma InterpretQueue(previous: seq<BlockRange>, response: Response)
    requires Interpret(previous, response).Ok?
    ensures QueueOk(previous, Interpret(previous, response).value)
  {
    var inv := Invalidations(previous, response.ranges);
    InvalidationsDistinct(previous, response.ranges);
    forall v | v in inv ensures exists p :: p in previous && p.network == v.network && v.start <= p.end {
      var r :| r in response.ranges && Invalidate(previous, r) == Some(v);
      assert FindRange(previous, r.network).value in previous;
    }
  }

  lemma ReceiveKeeps(w: World, s: Session, response: Response)
    requires Inv(w) && w.live == Some(s)
    ensures Inv(DoReceive(w, s, response))
  {
    if !s.rewindDue && s.queue == [] {
      if Interpret(s.previous, response).Err? {
        CrashKeeps(w, s);
      } else {
        InterpretQueue(s.previous, response);
        var w' := DoReceive(w, s, response);
        assert Done(w', w'.live.value) == Done(w, s);
      }
    }
  }

  // ---- Emitting an event -----------------------------------------------------------------------------

  lemma {:induction false} PointsOf(invalidation: seq<InvalidationRange>, v: InvalidationRange)
    requires DistinctInvalidation(invalidation) && v in invalidation
    ensures v.network in Points(invalidation) && Points(invalidation)[v.network] == v.start
  {
    if Last(invalidation) != v {
      var k :| 0 <= k < |invalidation| && invalidation[k] == v;
      assert Front(invalidation)[k] == v;
      PointsOf(Front(invalidation), v);
    }
  }

  lemma {:induction false} FindUnique(invalidation: seq<InvalidationRange>, v: InvalidationRange)
    requires DistinctInvalidation(invalidation) && v in invalidation
    ensures FindInvalidation(invalidation, v.network) == Some(v)
  {
    if invalidation[0] != v {
      var k :| 0 <= k < |invalidation| && invalidation[k] == v;
      assert invalidation[1..][k - 1] == v;
      FindUnique(invalidation[1..], v);
    }
  }

  /** A reorg hits the previous ranges, so a watermark over exactly those ranges is affected or split. */
  lemma ReorgHitsNewest(previous: seq<BlockRange>, invalidation: seq<InvalidationRange>)
    requires RealReorg(previous, invalidation) && !Affected(previous, Points(invalidation))
    ensures SplitsRange(previous, invalidation)
  {
    var v := invalidation[0];
    assert v in invalidation;
    var p :| p in previous && p.network == v.network && v.start <= p.end;
    var i :| 0 <= i < |previous| && previous[i] == p;
    PointsOf(invalidation, v);
    FindUnique(invalidation, v);
    assert previous[i].start < v.start;
  }

  /** What a successful action does to ids, undo range, prune point and the two buffers. */
  ghost predicate Emission(m: Machine, out: Outcome) {
    && out.result.Ok?
    && var e, m' := out.result.value, out.machine;
       && e.id == m.actor.next && EventOk(e)
       && Agrees(m') && m'.disk.next == e.id + 1
       && (forall b :: b in m'.disk.buffer ==> b in m.disk.buffer)
       && (forall b :: b in m'.actor.buffer ==> if e.Undo? then b.id < e.lo && b in m.actor.buffer
                                                else b in m.actor.buffer || b.id == e.id)
  }

  lemma RewindEmission(m: Machine)
    requires Agrees(m) && RewindNeeded(m.actor)
    ensures Emission(m, Execute(m, Rewind))
  {
    ExecuteAgrees(m, Rewind);
    var b := m.actor.buffer;
    forall i | 0 <= i < |b| ensures b[i].id <= Last(b).id {
    }
  }

  lemma DataEmission(m: Machine, batch: Batch, ranges: seq<BlockRange>)
    requires Agrees(m)
    ensures Emission(m, Execute(m, Message(DataMessage(batch, ranges))))
  {
    ExecuteAgrees(m, Message(DataMessage(batch, ranges)));
  }

  lemma WatermarkEmission(m: Machine, ranges: seq<BlockRange>)
    requires Agrees(m)
    ensures Emission(m, Execute(m, Message(WatermarkMessage(ranges))))
  {
    var action := Message(WatermarkMessage(ranges));
    ExecuteAgrees(m, action);
    var buffer := m.actor.buffer + [Entry(m.actor.next, ranges)];
    AppendIncreasing(m.actor.buffer, Last(buffer));
    if PruningPoint(buffer, m.actor.retention).Some? {
      PruneIsOlder(buffer, m.actor.retention);
    }
  }

  /** The recovery watermark of a successful reorg is never the newest event. */
  lemma RecoveryBehindNewest(m: Machine, previous: seq<BlockRange>, invalidation: seq<InvalidationRange>)
    requires Agrees(m) && RealReorg(previous, invalidation)
    requires m.actor.buffer != [] && Last(m.actor.buffer).id + 1 == m.actor.next ==>
               Last(m.actor.buffer).ranges == previous
    requires var k := RecoveryIndex(m.actor.buffer, Points(invalidation));
             0 <= k && !SplitsRange(m.actor.buffer[k].ranges, invalidation)
    ensures var k := RecoveryIndex(m.actor.buffer, Points(invalidation));
            m.actor.buffer[k].id + 1 < m.actor.next
  {
    var b := m.actor.buffer;
    var k := RecoveryIndex(b, Points(invalidation));
    assert b[k] in b;
    if b[k].id + 1 == m.actor.next {
      assert Last(b) in b && k == |b| - 1;
      ReorgHitsNewest(previous, invalidation);
    }
  }

  /** The Undo of a successful reorg is well-formed and both buffers keep what lies before it. */
  lemma ReorgEvent(m: Machine, previous: seq<BlockRange>, message: ProtocolMessage, out: Outcome)
    returns (from: TransactionId)
    requires Agrees(m) && message.ReorgMessage? && RealReorg(previous, message.invalidation)
    requires m.actor.next >= 1
    requires m.actor.buffer != [] && Last(m.actor.buffer).id + 1 == m.actor.next ==>
               Last(m.actor.buffer).ranges == previous
    requires out == Execute(m, Message(message)) && out.result.Ok?
    ensures UndoTruncates(m, out, from)
  {
    var k := RecoveryIndex(m.actor.buffer, Points(message.invalidation));
    if 0 <= k {
      ReorgUnsplit(m, message);
      RecoveryBehindNewest(m, previous, message.invalidation);
    }
    from := if k < 0 then 1 else m.actor.buffer[k].id + 1;
    ReorgShape(m, message, out, k, from);
  }

  lemma ReorgUnsplit(m: Machine, message: ProtocolMessage)
    requires message.ReorgMessage? && Execute(m, Message(message)).result.Ok?
    ensures var k := RecoveryIndex(m.actor.buffer, Points(message.invalidation));
            0 <= k ==> !SplitsRange(m.actor.buffer[k].ranges, message.invalidation)
  {
  }

  lemma ReorgShape(m: Machine, message: ProtocolMessage, out: Outcome, k: int, from: TransactionId)
    requires message.ReorgMessage? && out == Execute(m, Message(message)) && out.result.Ok? && m.actor.next >= 1
    requires k == RecoveryIndex(m.actor.buffer, Points(message.invalidation))
    requires from == if k < 0 then 1 else m.actor.buffer[k].id + 1
    requires 0 <= k ==> m.actor.buffer[k].id + 1 < m.actor.next
    ensures UndoTruncates(m, out, from)
  {
  }

  ghost predicate UndoTruncates(m: Machine, out: Outcome, from: TransactionId) {
    && out.result.Ok? && out.result.value.Undo? && out.result.value.id == m.actor.next && EventOk(out.result.value)
    && out.machine.disk.next == m.actor.next + 1
    && (from <= out.result.value.lo || m.actor.buffer == [])
    && out.machine.actor.buffer == Filter(m.actor.buffer, IdBelow(from))
    && out.machine.disk.buffer == Filter(m.disk.buffer, IdBelow(from))
  }

  lemma TruncateEmission(m: Machine, out: Outcome, from: TransactionId)
    requires UndoTruncates(m, out, from) && Agrees(out.machine)
    ensures Emission(m, out)
  {
    FilterMembers(m.actor.buffer, IdBelow(from));
    FilterMembers(m.disk.buffer, IdBelow(from));
  }

  lemma ReorgEmission(m: Machine, previous: seq<BlockRange>, message: ProtocolMessage, out: Outcome)
    requires Agrees(m) && message.ReorgMessage? && RealReorg(previous, message.invalidation)
    requires m.actor.next >= 1
    requires m.actor.buffer != [] && Last(m.actor.buffer).id + 1 == m.actor.next ==>
               Last(m.actor.buffer).ranges == previous
    requires out == Execute(m, Message(message)) && out.result.Ok?
    ensures Emission(m, out)
  {
    ExecuteAgrees(m, Message(message));
    var from := ReorgEvent(m, previous, message, out);
    TruncateEmission(m, out, from);
  }

  lemma EmitPipeline(w: World, s: Session, w': World, s': Session, e: Event)
    requires Pipeline(w, s) && IdsBelow(w.disk.buffer, w.disk.next) && e.id == w.disk.next
    requires w'.history == w.history + [e] && s'.inbox == s.inbox + [e] && s'.acked == s.acked
    requires w'.disk.next == e.id + 1 && forall b :: b in w'.disk.buffer ==> b in w.disk.buffer
    ensures Pipeline(w', s') && Done(w', s') == Done(w, s)
  {
    assert Done(w', s') == Done(w, s);
  }

  lemma EmitSettled(w: World, s: Session, s': Session, e: Event)
    requires |s.inbox| <= |w.history| && w.history == Done(w, s) + s.inbox
    requires HistoryOk(w.history, e.id) && Settled(w.table, Done(w, s), s)
    requires s'.inbox == s.inbox + [e] && s'.inserted == s.inserted
    ensures Settled(w.table, Done(w, s), s')
  {
    if s.inbox == [] {
      ExactSettles(w.table, Done(w, s), s');
    } else {
      assert s'.inbox[0] == s.inbox[0];
    }
  }

  lemma EmitAvoids(h: seq<Event>, m: Machine, out: Outcome)
    requires Emission(m, out) && Avoids(h, m.actor.buffer) && HistoryOk(h, m.actor.next)
    ensures Avoids(h + [out.result.value], out.machine.actor.buffer)
  {
  }

  /** A successful action outside recovery: the event joins history and inbox. */
  lemma EmitKeeps(w: World, s: Session, s1: Session, out: Outcome)
    requires Inv(w) && w.live == Some(s) && !s.rewindDue
    requires Emission(Machine(s.actor, w.disk), out)
    requires s1 == s.(queue := s1.queue, previous := s1.previous)
    requires Coupled(s1.(actor := out.machine.actor))
    ensures Inv(Emit(w, s1, out))
  {
    var e := out.result.value;
    var w' := Emit(w, s1, out);
    var s' := w'.live.value;
    HistorySnoc(w.history, w.disk.next, e);
    EmitAvoids(w.history, Machine(s.actor, w.disk), out);
    EmitPipeline(w, s, w', s', e);
    DiskInBuffer(out.machine);
    if !s.recovering {
      EmitSettled(w, s, s', e);
    }
  }

  lemma RewindCoupled(s: Session, disk: Snapshot)
    requires Coupled(s) && s.rewindDue && IdsBelow(s.actor.buffer, s.actor.next)
    ensures Coupled(s.(rewindDue := false, actor := Execute(Machine(s.actor, disk), Rewind).machine.actor))
  {
    if s.actor.buffer != [] {
      assert Last(s.actor.buffer) in s.actor.buffer;
    }
  }

  lemma RewindRecovering(w: World, s: Session, w': World, s': Session, e: Event)
    requires s.rewindDue && s.inbox == [] && Recovering(w, s) && TableBelow(w.table, e.id)
    requires e.Undo? && e.lo == ResumeId(s.actor.buffer) && e.hi + 1 == e.id
    requires w'.history == w.history + [e] && w'.table == w.table
    requires s'.inbox == [e] && !s'.rewindDue && s'.acked == s.acked && s'.inserted == s.inserted
    ensures Recovering(w', s')
  {
    assert Done(w', s') == w.history;
  }

  lemma EmitRewindKeeps(w: World, s: Session, out: Outcome)
    requires Inv(w) && w.live == Some(s) && s.rewindDue
    requires Emission(Machine(s.actor, w.disk), out)
    requires var e := out.result.value; e.Undo? && e.lo == ResumeId(s.actor.buffer) && e.hi + 1 == e.id
    requires Coupled(s.(rewindDue := false, actor := out.machine.actor))
    ensures Inv(Emit(w, s.(rewindDue := false), out))
  {
    var e := out.result.value;
    var w' := Emit(w, s.(rewindDue := false), out);
    var s' := w'.live.value;
    HistorySnoc(w.history, w.disk.next, e);
    EmitAvoids(w.history, Machine(s.actor, w.disk), out);
    EmitPipeline(w, s, w', s', e);
    RewindRecovering(w, s, w', s', e);
    DiskInBuffer(out.machine);
  }

  lemma RewindKeeps(w: World, s: Session)
    requires Inv(w) && w.live == Some(s) && s.rewindDue
    ensures Inv(Do(w, EmitRewind))
  {
    var m := Machine(s.actor, w.disk);
    RewindEmission(m);
    RewindCoupled(s, w.disk);
    EmitRewindKeeps(w, s, Execute(m, Rewind));
  }

  /** A failed action only burns an id. */
  lemma BurnKeeps(w: World)
    requires Inv(w) && w.live.None?
    ensures Inv(w.(disk := w.disk.(next := w.disk.next + 1)))
  {
  }

  lemma FailKeeps(w: World, s: Session, action: Action)
    requires Inv(w) && w.live == Some(s)
    requires Execute(Machine(s.actor, w.disk), action).result.Err?
    ensures Inv(w.(disk := Execute(Machine(s.actor, w.disk), action).machine.disk, live := None))
  {
    CrashKeeps(w, s);
    BurnKeeps(w.(live := None));
    FailedDisk(Machine(s.actor, w.disk), action);
  }

  lemma FailedDisk(m: Machine, action: Action)
    requires Execute(m, action).result.Err? && m.actor.next == m.disk.next
    ensures Execute(m, action).machine.disk == m.disk.(next := m.disk.next + 1)
  {
  }

  lemma PumpEmission(w: World, s: Session)
    requires Inv(w) && w.live == Some(s) && s.queue != []
    requires Execute(Machine(s.actor, w.disk), Message(s.queue[0])).result.Ok?
    ensures Emission(Machine(s.actor, w.disk), Execute(Machine(s.actor, w.disk), Message(s.queue[0])))
  {
    var m := Machine(s.actor, w.disk);
    match s.queue[0]
    case DataMessage(batch, ranges) => DataEmission(m, batch, ranges);
    case WatermarkMessage(ranges) => WatermarkEmission(m, ranges);
    case ReorgMessage(_, _, inv) =>
      assert inv[0] in inv;
      var p :| p in s.previous && p.network == inv[0].network;
      ReorgEmission(m, s.previous, s.queue[0], Execute(m, Message(s.queue[0])));
  }

  lemma PumpCoupled(s: Session, disk: Snapshot, s1: Session)
    requires Coupled(s) && s.queue != [] && IdsBelow(s.actor.buffer, s.actor.next)
    requires Emission(Machine(s.actor, disk), Execute(Machine(s.actor, disk), Message(s.queue[0])))
    requires s1 == Taken(s)
    ensures Coupled(s1.(actor := Execute(Machine(s.actor, disk), Message(s.queue[0])).machine.actor))
  {
    var out := Execute(Machine(s.actor, disk), Message(s.queue[0]));
    var b := out.machine.actor.buffer;
    if b != [] {
      assert Last(b) in b;
    }
  }

  lemma PumpKeeps(w: World, s: Session)
    requires Inv(w) && w.live == Some(s)
    ensures Inv(DoPump(w, s))
  {
    if s.queue != [] {
      var m := s.queue[0];
      var out := Execute(Machine(s.actor, w.disk), Message(m));
      if out.result.Err? {
        FailKeeps(w, s, Message(m));
      } else {
        PumpEmission(w, s);
        PumpCoupled(s, w.disk, Taken(s));
        EmitKeeps(w, s, Taken(s), out);
      }
    }
  }

  // ---- Every run -------------------------------------------------------------------------------------

  lemma StepKeeps(w: World, step: Step)
    requires Inv(w)
    ensures Inv(Do(w, step))
  {
    match w.live
    case None =>
      if step.Restart? {
        RestartKeeps(w, step.retention);
      }
    case Some(s) => LiveKeeps(w, s, step);
  }

  lemma LiveKeeps(w: World, s: Session, step: Step)
    requires Inv(w) && w.live == Some(s)
    ensures Inv(Do(w, step))
  {
    match step
    case Restart(_) =>
    case EmitRewind =>
      if s.rewindDue {
        RewindKeeps(w, s);
      }
    case Receive(response) => ReceiveKeeps(w, s, response);
    case Pump => PumpKeeps(w, s);
    case Insert(from, to) => InsertKeeps(w, s, from, to);
    case Finish => FinishKeeps(w, s);
    case CommitId(id) => CommitKeeps(w, s, id);
    case Halt(written) => HaltKeeps(w, s, written);
    case Crash => CrashKeeps(w, s);
  }

  /** Every run, with crashes anywhere, keeps the invariant. */
  lemma {:induction false} RunKeeps(w: World, steps: seq<Step>)
    requires Inv(w)
    ensures Inv(Run(w, steps))
  {
    if steps == [] {
    } else {
      RunKeeps(w, Front(steps));
      StepKeeps(Run(w, Front(steps)), Last(steps));
    }
  }

  lemma InitialInv()
    ensures Inv(INITIAL)
  {
  }

  lemma ReachableInv(steps: seq<Step>)
    ensures Inv(Run(INITIAL, steps))
  {
    InitialInv();
    RunKeeps(INITIAL, steps);
  }

  // ---- Main results ----------------------------------------------------------------------------------

  /**
   * Exactly once: whenever the consumer has caught up, its table holds precisely the rows of the emitted
   * batches that no emitted Undo covers, whatever crashes, retries and reorgs happened before.
   */
  lemma ExactlyOnceDelivery(steps: seq<Step>)
    requires var w := Run(INITIAL, steps);
             w.live.Some? && !w.live.value.recovering && w.live.value.inbox == []
    ensures var w := Run(INITIAL, steps);
            forall k: Key :: Lookup(w.table, k) == Expect(w.history, k)
  {
    ReachableInv(steps);
    var w := Run(INITIAL, steps);
    assert Done(w, w.live.value) == w.history;
  }

  /** Reopening the stream and, if it rewinds, applying that one Undo. */
  function Recover(w: World, retention: BlockNumber): World {
    var reopened := Do(w, Restart(retention));
    if reopened.live.Some? && reopened.live.value.rewindDue then Do(Do(reopened, EmitRewind), Finish) else reopened
  }

  lemma RecoverShape(w: World, retention: BlockNumber)
    requires w.live.None?
    ensures var r := Recover(w, retention);
            && r.live.Some? && !r.live.value.recovering && r.live.value.inbox == []
            && r.table == if RewindNeeded(Open(w.disk, retention).actor)
                          then DeleteRange(w.table, ResumeId(w.disk.buffer), SaturatingSub(w.disk.next, 1))
                          else w.table
  {
  }

  lemma RecoverTable(t: Table, h: seq<Event>, disk: Snapshot, k: Key)
    requires TableBelow(t, disk.next) && TableUpTo(t, h, ResumeId(disk.buffer)) && IdsBelow(disk.buffer, disk.next)
    ensures Lookup(if RewindNeeded(Open(disk, 0).actor)
                   then DeleteRange(t, ResumeId(disk.buffer), SaturatingSub(disk.next, 1)) else t, k) ==
            if k.tx < ResumeId(disk.buffer) then Expect(h, k) else None
  {
    DeleteLookup(t, ResumeId(disk.buffer), SaturatingSub(disk.next, 1), k);
    if disk.buffer != [] {
      assert Last(disk.buffer) in disk.buffer;
    }
  }

  /**
   * Recovery: from any crash, reopening leaves exactly the surviving rows up to the last persisted
   * watermark and nothing of any later, possibly half-inserted, batch.
   */
  lemma RecoveryRestoresWatermark(steps: seq<Step>, retention: BlockNumber)
    requires Run(INITIAL, steps).live.None?
    ensures var w := Run(INITIAL, steps);
            var r := Recover(w, retention);
            && r.live.Some? && !r.live.value.recovering && r.live.value.inbox == []
            && forall k: Key :: Lookup(r.table, k) ==
                 if k.tx < ResumeId(w.disk.buffer) then Expect(w.history, k) else None
  {
    ReachableInv(steps);
    var w := Run(INITIAL, steps);
    RecoverShape(w, retention);
    forall k: Key ensures Lookup(Recover(w, retention).table, k) ==
                          if k.tx < ResumeId(w.disk.buffer) then Expect(w.history, k) else None {
      RecoverTable(w.table, w.history, w.disk, k);
    }
  }

  /** Ids strictly increase over all runs, never repeat, and stay below the persisted counter. */
  lemma IdsNeverReused(steps: seq<Step>)
    ensures var w := Run(INITIAL, steps);
            && (forall i, j :: 0 <= i < j < |w.history| ==> w.history[i].id < w.history[j].id)
            && (forall e :: e in w.history ==> e.id < w.disk.next)
            && Increasing(w.disk.buffer) && IdsBelow(w.disk.buffer, w.disk.next)
            && (w.live.Some? ==>
                  && Increasing(w.live.value.actor.buffer) && PendingIncreasing(w.live.value.actor.uncommitted)
                  && IdsBelow(w.live.value.actor.buffer, w.disk.next))
  {
    ReachableInv(steps);
    var w := Run(INITIAL, steps);
    if w.live.Some? {
      PendingOrdered(Machine(w.live.value.actor, w.disk));
    }
  }

  /** Every Undo ever emitted names a non-empty range of ids older than itself, and no watermark in it survives. */
  lemma UndoRangesWellFormed(steps: seq<Step>, e: Event)
    requires e in Run(INITIAL, steps).history && e.Undo?
    ensures e.lo <= e.hi < e.id
    ensures forall b :: b in Run(INITIAL, steps).disk.buffer ==> !(e.lo <= b.id <= e.hi)
  {
    ReachableInv(steps);
    var w := Run(INITIAL, steps);
    if w.live.Some? {
      DiskInBuffer(Machine(w.live.value.actor, w.disk));
    }
  }

  /** In every reachable state, memory is the persisted buffer followed by the pending watermarks. */
  lemma MemoryMatchesDisk(steps: seq<Step>)
    ensures var w := Run(INITIAL, steps);
            w.live.Some? ==>
              && w.live.value.actor.next == w.disk.next
              && w.live.value.actor.buffer == w.disk.buffer + Entries(w.live.value.actor.uncommitted)
  {
    ReachableInv(steps);
  }
}
