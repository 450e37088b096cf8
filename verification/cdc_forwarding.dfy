/**
 * Change data capture over whole runs with crashes. The loop pulls one event at a time, stores or prunes batches, and
 * forwards inserts and deletes to a consumer; a crash can fall between any two of these.
 */
module CdcForwarding {
  import opened Types
  import opened Transactional
  import opened Recovery
  import opened History
  import opened ExactlyOnce
  import opened BatchStores
  import opened Cdc
  import opened CdcRecovery

  /** `store` and `held`, the consumer's batches, survive a crash; every prune so far stayed below `kept`. */
  datatype Pipe = Pipe(w: World, store: Batches, held: Batches, kept: TransactionId)

  /** The event the loop has pulled and not handled completely is the only one in the world's inbox. */
  function Pulled(f: Pipe): Option<Event> {
    if f.w.live.Some? && f.w.live.value.inbox != [] then Some(f.w.live.value.inbox[0]) else None
  }

  datatype PipeStep =
    | Stream(step: Step)            // server, actor, store of the actor, commits, crashes and restarts
    | Store                         // the loop appends the batch, or prunes the batch store
    | TakeInsert                    // the consumer inserts the batch of a forwarded Insert
    | Retract(id: TransactionId)    // the consumer removes one batch that a forwarded Delete names
    | Complete                      // the loop is done with the event

  /** The world when its consumer is done with the event; its own table, which takes whole batches, plays no role. */
  function Finished(w: World, e: Event): World {
    if e.Data? then Do(Do(w, Step.Insert(0, |e.batch|)), Finish) else Do(w, Finish)
  }

  /** The consumer is done with what the loop forwards for the event. */
  predicate Handled(f: Pipe, e: Event) {
    match Forward(f.store, e)
    case Some(Insert(id, batch)) => Fetch(f.held, id) == Some(batch)
    case Some(Delete(_, ids)) => forall id :: id in ids ==> id !in f.held
    case None => true
  }

  lemma HandledMeans(f: Pipe, e: Event)
    ensures Handled(f, e) <==>
            match e
            case Data(id, batch, _) => Fetch(f.held, id) == Some(batch)
            case Undo(_, _, lo, hi) => forall id :: id in f.store && lo <= id <= hi ==> id !in f.held
            case Watermark(_, _, _) => true
  {
  }

  function DoStream(f: Pipe, step: Step): Pipe {
    if step.Insert? || step.Finish? || ((step.Pump? || step.EmitRewind?) && Pulled(f).Some?) then f
    else f.(w := Do(f.w, step))
  }

  function DoStore(f: Pipe, e: Event): Pipe {
    f.(store := Cdc.Store(f.store, e, true),
       kept := if e.Watermark? && e.prune.Some? then Max(f.kept, e.prune.value + 1) else f.kept)
  }

  /** The batch is stored before its Insert is forwarded. */
  function DoTake(f: Pipe, e: Event): Pipe {
    match Forward(f.store, e)
    case Some(Insert(id, batch)) =>
      if Fetch(f.store, id) == Some(batch) then f.(held := f.held[id := batch]) else f
    case _ => f
  }

  /** An id whose batch the iterator does not find is skipped. */
  function DoRetract(f: Pipe, e: Event, id: TransactionId): Pipe {
    match Forward(f.store, e)
    case Some(Delete(_, ids)) => if id in ids && id in f.store then f.(held := f.held - {id}) else f
    case _ => f
  }

  /** What taking a forwarded event does, by the event it was forwarded for. */
  lemma TakenMeans(f: Pipe, e: Event, id: TransactionId)
    ensures DoTake(f, e) ==
            if e.Data? && Fetch(f.store, e.id) == Some(e.batch) then f.(held := f.held[e.id := e.batch]) else f
    ensures DoRetract(f, e, id) ==
            if e.Undo? && e.lo <= id <= e.hi && id in f.store then f.(held := f.held - {id}) else f
  {
  }

  /** One step; a step that is not enabled changes nothing. */
  function Go(f: Pipe, step: PipeStep): Pipe {
    match (step, Pulled(f))
    case (Stream(s), _) => DoStream(f, s)
    case (Store, Some(e)) => DoStore(f, e)
    case (TakeInsert, Some(e)) => DoTake(f, e)
    case (Retract(id), Some(e)) => DoRetract(f, e, id)
    case (Complete, Some(e)) => if Handled(f, e) then f.(w := Finished(f.w, e)) else f
    case _ => f
  }

  const START := Pipe(INITIAL, map[], map[], 0)

  function Flow(f: Pipe, steps: seq<PipeStep>): Pipe {
    if steps == [] then f else Go(Flow(f, Front(steps)), Last(steps))
  }

  // ---- What the consumer should hold -----------------------------------------------------------------

  ghost function Expected(h: seq<Event>, id: TransactionId): Option<Batch> {
    if Undone(h, id) then None else DataAt(h, id)
  }

  lemma ExpectedSnoc(h: seq<Event>, e: Event, id: TransactionId)
    requires HistoryOk(h, e.id)
    ensures Expected(h + [e], id) ==
            if e.Undo? && e.lo <= id <= e.hi then None
            else if e.Data? && id == e.id then Some(e.batch) else Expected(h, id)
  {
    UndoneSnoc(h, e, id);
    assert Front(h + [e]) == h && Last(h + [e]) == e;
  }

  /** The loop finishes an Undo although the consumer still holds a batch of its range. */
  ghost predicate LeavesBehind(f: Pipe, step: PipeStep) {
    step.Complete? && match Pulled(f)
                      case Some(Undo(_, _, lo, hi)) =>
                        Handled(f, Pulled(f).value) && exists id :: id in f.held && lo <= id <= hi
                      case _ => false
  }

  ghost predicate SomethingLeft(steps: seq<PipeStep>) {
    steps != [] && (SomethingLeft(Front(steps)) || LeavesBehind(Flow(START, Front(steps)), Last(steps)))
  }

  // ---- The invariant ---------------------------------------------------------------------------------

  ghost predicate AllInserted(held: Batches, h: seq<Event>) {
    forall id :: id in held ==> DataAt(h, id).Some?
  }

  ghost predicate HeldUpTo(held: Batches, h: seq<Event>, bound: TransactionId) {
    forall id: TransactionId :: id < bound ==> Fetch(held, id) == Expected(h, id)
  }

  /** Each batch is as before the pulled event or as after it. */
  ghost predicate Between(held: Batches, done: seq<Event>, inbox: seq<Event>) {
    forall id: TransactionId ::
      || Fetch(held, id) == Expected(done, id)
      || (|inbox| == 1 && Fetch(held, id) == Expected(done + inbox, id))
  }

  ghost predicate PipeSession(f: Pipe, s: Session)
    requires |s.inbox| <= |f.w.history|
  {
    && |s.inbox| <= 1
    && if !s.recovering then Between(f.held, Done(f.w, s), s.inbox)
       else if s.rewindDue then HeldUpTo(f.held, f.w.history, ResumeId(s.actor.buffer))
       else s.inbox != [] && s.inbox[0].Undo? && HeldUpTo(f.held, Done(f.w, s), s.inbox[0].lo)
  }

  ghost predicate PipeInv(f: Pipe) {
    && Inv(f.w) && AllInserted(f.held, f.w.history)
    && match f.w.live
       case None => HeldUpTo(f.held, f.w.history, ResumeId(f.w.disk.buffer))
       case Some(s) => PipeSession(f, s)
  }

  lemma InsertedSnoc(held: Batches, h: seq<Event>, e: Event)
    requires AllInserted(held, h)
    ensures AllInserted(held, h + [e])
  {
    assert Front(h + [e]) == h;
  }

  // ---- The loop and the consumer ---------------------------------------------------------------------

  /** The pulled event ends the history. */
  lemma PulledLast(f: Pipe, s: Session)
    requires Inv(f.w) && f.w.live == Some(s) && |s.inbox| == 1
    ensures f.w.history == Done(f.w, s) + [s.inbox[0]] && HistoryOk(Done(f.w, s), s.inbox[0].id) && EventOk(s.inbox[0])
    ensures s.inbox == [s.inbox[0]]
  {
    HistoryPrefix(Done(f.w, s), s.inbox, f.w.disk.next);
  }

  /** Within one event, batches go from what they should be before it to what they should be after it. */
  lemma WithinEvent(f: Pipe, f': Pipe, s: Session)
    requires PipeInv(f) && f.w.live == Some(s) && |s.inbox| == 1
    requires f'.w == f.w && AllInserted(f'.held, f.w.history)
    requires forall id: TransactionId :: Fetch(f'.held, id) != Fetch(f.held, id) ==>
               Fetch(f'.held, id) == Expected(f.w.history, id) && (s.inbox[0].Undo? ==> s.inbox[0].lo <= id)
    ensures PipeInv(f')
  {
    PulledLast(f, s);
  }

  lemma StoreKeeps(f: Pipe, s: Session)
    requires PipeInv(f) && f.w.live == Some(s) && s.inbox != []
    ensures PipeInv(DoStore(f, s.inbox[0]))
  {
    WithinEvent(f, DoStore(f, s.inbox[0]), s);
  }

  lemma ForwardKeeps(f: Pipe, s: Session, e: Event)
    requires PipeInv(f) && f.w.live == Some(s) && |s.inbox| == 1 && e == s.inbox[0] && e.Data?
    requires Fetch(f.store, e.id) == Some(e.batch)
    ensures PipeInv(f.(held := f.held[e.id := e.batch]))
  {
    var f' := f.(held := f.held[e.id := e.batch]);
    PulledLast(f, s);
    ExpectedSnoc(Done(f.w, s), e, e.id);
    assert Front(f.w.history) == Done(f.w, s) && Last(f.w.history) == e;
    WithinEvent(f, f', s);
  }

  lemma RemovedHeld(held: Batches, id: TransactionId, h: seq<Event>)
    requires AllInserted(held, h)
    ensures AllInserted(held - {id}, h)
    ensures forall x: TransactionId :: Fetch(held - {id}, x) == if x == id then None else Fetch(held, x)
  {
  }

  lemma RetractKeeps(f: Pipe, s: Session, e: Event, id: TransactionId)
    requires PipeInv(f) && f.w.live == Some(s) && |s.inbox| == 1 && e == s.inbox[0] && e.Undo? && e.lo <= id <= e.hi
    ensures PipeInv(f.(held := f.held - {id}))
  {
    PulledLast(f, s);
    ExpectedSnoc(Done(f.w, s), e, id);
    RemovedHeld(f.held, id, f.w.history);
    WithinEvent(f, f.(held := f.held - {id}), s);
  }

  /** Once the event is handled, every batch is as it should be after it. */
  lemma HandledExact(f: Pipe, s: Session, e: Event, id: TransactionId)
    requires PipeInv(f) && f.w.live == Some(s) && |s.inbox| == 1 && e == s.inbox[0] && Handled(f, e)
    requires e.Undo? && e.lo <= id <= e.hi ==> id !in f.held
    ensures Fetch(f.held, id) == Expected(f.w.history, id)
  {
    PulledLast(f, s);
    HandledMeans(f, e);
    var done := Done(f.w, s);
    ExpectedSnoc(done, e, id);
    assert Front(f.w.history) == done && Last(f.w.history) == e;
    if s.recovering && e.hi < id {
      NoDataAbove(done, e.id, id);
    }
  }

  /** What the invariant says about the event the loop has pulled. */
  lemma HeadFacts(w: World, s: Session)
    requires Inv(w) && w.live == Some(s) && s.inbox != []
    ensures !s.rewindDue && (s.recovering ==> s.inbox[0].Undo?)
    ensures HeadIsData(s) ==> s.inserted <= |s.inbox[0].batch|
  {
  }

  lemma FinishedShape(w: World, s: Session, e: Event)
    requires Inv(w) && w.live == Some(s) && |s.inbox| == 1 && e == s.inbox[0]
    ensures var w' := Finished(w, e);
            && w'.live.Some? && w'.live.value.inbox == [] && !w'.live.value.recovering && !w'.live.value.rewindDue
            && w'.history == w.history && w'.disk == w.disk
  {
    HeadFacts(w, s);
    FinishedOne(w, s, e);
  }

  lemma FinishedOne(w: World, s: Session, e: Event)
    requires w.live == Some(s) && s.inbox == [e] && !s.rewindDue && (s.recovering ==> e.Undo?)
    requires e.Data? ==> s.inserted <= |e.batch|
    ensures var w' := Finished(w, e);
            && w'.live.Some? && w'.live.value.inbox == [] && !w'.live.value.recovering && !w'.live.value.rewindDue
            && w'.history == w.history && w'.disk == w.disk
  {
    assert s.inbox[1..] == [];
  }

  lemma FinishedInv(w: World, e: Event)
    requires Inv(w)
    ensures Inv(Finished(w, e))
  {
    if e.Data? {
      StepKeeps(w, Step.Insert(0, |e.batch|));
      StepKeeps(Do(w, Step.Insert(0, |e.batch|)), Finish);
    } else {
      StepKeeps(w, Finish);
    }
  }

  /** With nothing pulled, exact batches are all the invariant asks for. */
  lemma IdleSession(f: Pipe, s: Session)
    requires Inv(f.w) && AllInserted(f.held, f.w.history)
    requires f.w.live == Some(s) && s.inbox == [] && !s.recovering
    requires forall id: TransactionId :: Fetch(f.held, id) == Expected(f.w.history, id)
    ensures PipeInv(f)
  {
    assert Done(f.w, s) == f.w.history;
  }

  lemma CompleteKeeps(f: Pipe, s: Session, e: Event)
    requires PipeInv(f) && f.w.live == Some(s) && |s.inbox| == 1 && e == s.inbox[0] && Handled(f, e)
    requires !LeavesBehind(f, Complete)
    ensures PipeInv(f.(w := Finished(f.w, e)))
  {
    FinishedShape(f.w, s, e);
    FinishedInv(f.w, e);
    forall id: TransactionId ensures Fetch(f.held, id) == Expected(f.w.history, id) {
      HandledExact(f, s, e, id);
    }
    IdleSession(f.(w := Finished(f.w, e)), Finished(f.w, e).live.value);
  }

  // ---- Crashes and restarts --------------------------------------------------------------------------

  /** What a crash leaves is right up to the last persisted watermark. */
  lemma CrashHeld(f: Pipe, s: Session)
    requires PipeInv(f) && f.w.live == Some(s)
    ensures HeldUpTo(f.held, f.w.history, ResumeId(f.w.disk.buffer))
  {
    var m := Machine(s.actor, f.w.disk);
    DiskInBuffer(m);
    AvoidsSubset(f.w.history, s.actor.buffer, f.w.disk.buffer);
    if s.rewindDue {
      NothingPending(m);
    } else {
      forall id: TransactionId | id < ResumeId(f.w.disk.buffer) ensures Fetch(f.held, id) == Expected(f.w.history, id) {
        InboxBeyondDisk(f.w, s, id);
        PulledBeyond(f, s, id);
      }
    }
  }

  lemma PulledBeyond(f: Pipe, s: Session, id: TransactionId)
    requires PipeInv(f) && f.w.live == Some(s) && !s.rewindDue && Untouched(s.inbox, id)
    requires forall e :: e in s.inbox ==> id < e.id
    ensures Fetch(f.held, id) == Expected(f.w.history, id)
  {
    if s.inbox == [] {
      assert Done(f.w, s) == f.w.history;
    } else {
      PulledLast(f, s);
      assert s.inbox[0] in s.inbox;
      ExpectedSnoc(Done(f.w, s), s.inbox[0], id);
    }
  }

  lemma StoppedKeeps(f: Pipe, w': World, n: nat)
    requires Inv(w') && w'.live.None? && w'.history == f.w.history
    requires AllInserted(f.held, f.w.history) && HeldUpTo(f.held, f.w.history, ResumeId(f.w.disk.buffer))
    requires Increasing(f.w.disk.buffer) && n <= |f.w.disk.buffer| && w'.disk.buffer == f.w.disk.buffer[..n]
    ensures PipeInv(f.(w := w'))
  {
    PrefixResume(f.w.disk.buffer, n);
  }

  /** Stopping, with or without something written, keeps the invariant. */
  lemma StopKeeps(f: Pipe, s: Session, w': World)
    requires PipeInv(f) && f.w.live == Some(s) && Inv(w') && w'.live.None? && w'.history == f.w.history
    requires exists n: nat :: n <= |f.w.disk.buffer| && w'.disk.buffer == f.w.disk.buffer[..n]
    ensures PipeInv(f.(w := w'))
  {
    var n: nat :| n <= |f.w.disk.buffer| && w'.disk.buffer == f.w.disk.buffer[..n];
    CrashHeld(f, s);
    DiskInBuffer(Machine(s.actor, f.w.disk));
    StoppedKeeps(f, w', n);
  }

  lemma StopUnwritten(f: Pipe, s: Session, w': World)
    requires PipeInv(f) && f.w.live == Some(s) && Inv(w') && w'.live.None? && w'.history == f.w.history
    requires w'.disk.buffer == f.w.disk.buffer
    ensures PipeInv(f.(w := w'))
  {
    assert f.w.disk.buffer == f.w.disk.buffer[..|f.w.disk.buffer|];
    StopKeeps(f, s, w');
  }

  lemma HaltPipe(f: Pipe, s: Session, written: bool)
    requires PipeInv(f) && f.w.live == Some(s)
    ensures PipeInv(f.(w := DoHalt(f.w, s, written)))
  {
    if NextAction(s).Some? {
      var n := HaltedPrefix(Machine(s.actor, f.w.disk), NextAction(s).value, written);
      HaltKeeps(f.w, s, written);
      StopKeeps(f, s, DoHalt(f.w, s, written));
    }
  }

  lemma RestartPipe(f: Pipe, retention: BlockNumber)
    requires PipeInv(f) && f.w.live.None?
    ensures PipeInv(f.(w := f.w.(live := Some(Opened(f.w.disk, retention)))))
  {
    var s := Opened(f.w.disk, retention);
    var w' := f.w.(live := Some(s));
    RestartKeeps(f.w, retention);
    assert Done(w', s) == f.w.history;
    if !s.recovering {
      CleanIsExact(f, retention);
    }
  }

  /** With nothing to rewind, the consumer holds everything it should. */
  lemma CleanIsExact(f: Pipe, retention: BlockNumber)
    requires PipeInv(f) && f.w.live.None? && !RewindNeeded(Open(f.w.disk, retention).actor)
    ensures forall id: TransactionId :: Fetch(f.held, id) == Expected(f.w.history, id)
  {
    var disk := f.w.disk;
    if disk.buffer != [] {
      assert Last(disk.buffer) in disk.buffer;
    }
    assert disk.next == ResumeId(disk.buffer);
    forall id: TransactionId ensures Fetch(f.held, id) == Expected(f.w.history, id) {
      if disk.next <= id {
        NoDataAbove(f.w.history, disk.next, id);
      }
    }
  }

  // ---- The stream ------------------------------------------------------------------------------------

  /** A step of the stream that emits nothing and stays alive. */
  lemma QuietKeeps(f: Pipe, s: Session, w': World, s': Session)
    requires PipeInv(f) && f.w.live == Some(s) && Inv(w') && w'.live == Some(s') && w'.history == f.w.history
    requires s'.inbox == s.inbox && s'.recovering == s.recovering && s'.rewindDue == s.rewindDue
    requires s.rewindDue ==> s'.actor.buffer == s.actor.buffer
    ensures PipeInv(f.(w := w'))
  {
    assert Done(w', s') == Done(f.w, s);
  }

  lemma CommitPipe(f: Pipe, s: Session, id: TransactionId)
    requires PipeInv(f) && f.w.live == Some(s)
    ensures PipeInv(f.(w := DoCommit(f.w, s, id)))
  {
    CommitKeeps(f.w, s, id);
    QuietKeeps(f, s, DoCommit(f.w, s, id), DoCommit(f.w, s, id).live.value);
  }

  lemma ReceiveShape(w: World, s: Session, response: Response)
    requires w.live == Some(s)
    ensures var w' := DoReceive(w, s, response);
            && w'.history == w.history && w'.disk == w.disk
            && (w'.live.Some? ==> w'.live.value == s.(queue := w'.live.value.queue))
  {
  }

  lemma ReceivePipe(f: Pipe, s: Session, response: Response)
    requires PipeInv(f) && f.w.live == Some(s)
    ensures PipeInv(f.(w := DoReceive(f.w, s, response)))
  {
    var w' := DoReceive(f.w, s, response);
    ReceiveKeeps(f.w, s, response);
    ReceiveShape(f.w, s, response);
    ReceivedPipe(f, s, w');
  }

  lemma ReceivedPipe(f: Pipe, s: Session, w': World)
    requires PipeInv(f) && f.w.live == Some(s) && Inv(w') && w'.history == f.w.history && w'.disk == f.w.disk
    requires w'.live.Some? ==> w'.live.value == s.(queue := w'.live.value.queue)
    ensures PipeInv(f.(w := w'))
  {
    if w'.live.Some? {
      QuietKeeps(f, s, w', w'.live.value);
    } else {
      StopUnwritten(f, s, w');
    }
  }

  /** A step that emits an event into the empty inbox. */
  lemma EmitPipe(f: Pipe, s: Session, w': World, s': Session, e: Event)
    requires PipeInv(f) && f.w.live == Some(s) && s.inbox == []
    requires Inv(w') && w'.live == Some(s') && w'.history == f.w.history + [e] && s'.inbox == [e] && !s'.rewindDue
    requires s'.recovering == s.recovering
    requires s.rewindDue ==> e.Undo? && e.lo == ResumeId(s.actor.buffer)
    ensures PipeInv(f.(w := w'))
  {
    assert Done(f.w, s) == f.w.history && Done(w', s') == f.w.history;
    InsertedSnoc(f.held, f.w.history, e);
  }

  lemma RewindShape(w: World, s: Session)
    requires w.live == Some(s) && s.rewindDue && s.inbox == []
    ensures var w' := Do(w, EmitRewind);
            && w'.live.Some? && w'.history != [] && w'.history == w.history + [Last(w'.history)]
            && w'.live.value.inbox == [Last(w'.history)] && !w'.live.value.rewindDue
            && w'.live.value.recovering == s.recovering
            && Last(w'.history).Undo? && Last(w'.history).lo == ResumeId(s.actor.buffer)
  {
  }

  lemma RewindPipe(f: Pipe, s: Session)
    requires PipeInv(f) && f.w.live == Some(s) && s.rewindDue && s.inbox == []
    ensures PipeInv(f.(w := Do(f.w, EmitRewind)))
  {
    var w' := Do(f.w, EmitRewind);
    RewindKeeps(f.w, s);
    RewindShape(f.w, s);
    EmitPipe(f, s, w', w'.live.value, Last(w'.history));
  }

  lemma PumpShape(w: World, s: Session)
    requires w.live == Some(s) && s.queue != [] && s.inbox == []
    ensures var w' := DoPump(w, s);
            if w'.live.None? then w'.history == w.history && w'.disk.buffer == w.disk.buffer
            else
              && w'.history != [] && w'.history == w.history + [Last(w'.history)]
              && w'.live.value.inbox == [Last(w'.history)] && w'.live.value.rewindDue == s.rewindDue
              && w'.live.value.recovering == s.recovering
  {
  }

  lemma PumpPipe(f: Pipe, s: Session)
    requires PipeInv(f) && f.w.live == Some(s) && s.inbox == []
    ensures PipeInv(f.(w := DoPump(f.w, s)))
  {
    PumpKeeps(f.w, s);
    if s.queue != [] {
      var w' := DoPump(f.w, s);
      PumpShape(f.w, s);
      if w'.live.Some? {
        EmitPipe(f, s, w', w'.live.value, Last(w'.history));
      } else {
        StopUnwritten(f, s, w');
      }
    }
  }

  lemma CrashPipe(f: Pipe, s: Session)
    requires PipeInv(f) && f.w.live == Some(s)
    ensures PipeInv(f.(w := f.w.(live := None)))
  {
    CrashKeeps(f.w, s);
    StopUnwritten(f, s, f.w.(live := None));
  }

  /** What a step of the stream comes down to while a session is alive. */
  lemma LiveStream(f: Pipe, s: Session, step: Step)
    requires f.w.live == Some(s)
    ensures DoStream(f, step) ==
            match step
            case EmitRewind => if s.rewindDue && s.inbox == [] then f.(w := Do(f.w, EmitRewind)) else f
            case Receive(response) => f.(w := DoReceive(f.w, s, response))
            case Pump => if s.inbox == [] then f.(w := DoPump(f.w, s)) else f
            case CommitId(id) => f.(w := DoCommit(f.w, s, id))
            case Halt(written) => f.(w := DoHalt(f.w, s, written))
            case Crash => f.(w := f.w.(live := None))
            case _ => f
  {
  }

  lemma LivePipe(f: Pipe, s: Session, step: Step)
    requires PipeInv(f) && f.w.live == Some(s)
    ensures PipeInv(DoStream(f, step))
  {
    LiveStream(f, s, step);
    match step
    case EmitRewind =>
      if s.rewindDue && s.inbox == [] {
        RewindPipe(f, s);
      }
    case Receive(response) => ReceivePipe(f, s, response);
    case Pump =>
      if s.inbox == [] {
        PumpPipe(f, s);
      }
    case CommitId(id) => CommitPipe(f, s, id);
    case Halt(written) => HaltPipe(f, s, written);
    case Crash => CrashPipe(f, s);
    case _ =>
  }

  lemma StreamKeeps(f: Pipe, step: Step)
    requires PipeInv(f)
    ensures PipeInv(DoStream(f, step))
  {
    match f.w.live
    case None =>
      if step.Restart? {
        RestartPipe(f, step.retention);
      }
    case Some(s) => LivePipe(f, s, step);
  }

  lemma GoKeeps(f: Pipe, step: PipeStep)
    requires PipeInv(f) && !LeavesBehind(f, step)
    ensures PipeInv(Go(f, step))
  {
    if step.Stream? {
      StreamKeeps(f, step.step);
    } else if Pulled(f).Some? {
      var s, e := f.w.live.value, Pulled(f).value;
      match step
      case Store => StoreKeeps(f, s);
      case TakeInsert =>
        TakenMeans(f, e, e.id);
        if e.Data? && Fetch(f.store, e.id) == Some(e.batch) {
          ForwardKeeps(f, s, e);
        }
      case Retract(id) =>
        TakenMeans(f, e, id);
        if e.Undo? && e.lo <= id <= e.hi && id in f.store {
          RetractKeeps(f, s, e, id);
        }
      case Complete =>
        if Handled(f, e) {
          CompleteKeeps(f, s, e);
        }
    }
  }

  lemma {:induction false} FlowKeeps(steps: seq<PipeStep>)
    requires !SomethingLeft(steps)
    ensures PipeInv(Flow(START, steps))
  {
    if steps == [] {
      InitialInv();
    } else {
      FlowKeeps(Front(steps));
      GoKeeps(Flow(START, Front(steps)), Last(steps));
    }
  }

  // ---- What is left behind stays ---------------------------------------------------------------------

  /** A batch the consumer should not hold, which no later Delete can name: it is not stored and its id is used. */
  ghost predicate Stuck(f: Pipe, id: TransactionId) {
    && Inv(f.w) && Undone(f.w.history, id) && id in f.held && id !in f.store
    && (f.w.live.Some? ==> forall e :: e in f.w.live.value.inbox ==> id < e.id)
  }

  lemma {:induction false} FlowInv(steps: seq<PipeStep>)
    ensures Inv(Flow(START, steps).w)
  {
    if steps == [] {
      InitialInv();
    } else {
      FlowInv(Front(steps));
      GoInv(Flow(START, Front(steps)), Last(steps));
    }
  }

  lemma GoInv(f: Pipe, step: PipeStep)
    requires Inv(f.w)
    ensures Inv(Go(f, step).w)
  {
    if step.Stream? {
      StepKeeps(f.w, step.step);
    } else if step.Complete? && Pulled(f).Some? {
      FinishedInv(f.w, Pulled(f).value);
    }
    GoWorld(f, step);
  }

  lemma GoWorld(f: Pipe, step: PipeStep)
    ensures || Go(f, step).w == f.w
            || (step.Stream? && Go(f, step).w == Do(f.w, step.step))
            || (step.Complete? && Pulled(f).Some? && Go(f, step).w == Finished(f.w, Pulled(f).value))
  {
  }

  /** A step of the stream leaves the inbox as it is, adds the event it emits, or empties it. */
  lemma StreamInbox(w: World, step: Step, e: Event)
    requires !step.Insert? && !step.Finish? && Do(w, step).live.Some? && e in Do(w, step).live.value.inbox
    requires w.live.Some? ==> w.live.value.actor.next == w.disk.next
    ensures (w.live.Some? && e in w.live.value.inbox) || e.id == w.disk.next
  {
  }

  lemma StreamHistory(w: World, step: Step, id: TransactionId)
    requires Undone(w.history, id)
    ensures Undone(Do(w, step).history, id)
  {
    StepHistory(w, step);
    var h := Do(w, step).history;
    if h != w.history {
      assert h == w.history + [Last(h)];
      UndoneSnoc(w.history, Last(h), id);
    }
  }

  lemma StreamStuck(f: Pipe, step: Step, id: TransactionId)
    requires Stuck(f, id)
    ensures Stuck(DoStream(f, step), id)
  {
    var f' := DoStream(f, step);
    if f'.w != f.w {
      StepKeeps(f.w, step);
      StreamHistory(f.w, step, id);
      UndoneBelow(f.w.history, f.w.disk.next, id);
      if f'.w.live.Some? {
        forall e | e in f'.w.live.value.inbox ensures id < e.id {
          StreamInbox(f.w, step, e);
        }
      }
    }
  }

  lemma FinishedTail(w: World, s: Session, e: Event)
    requires w.live == Some(s) && s.inbox != [] && e == s.inbox[0]
    requires e.Data? ==> s.inserted <= |e.batch|
    ensures var w' := Finished(w, e);
            w'.live.Some? && w'.live.value.inbox == s.inbox[1..] && w'.history == w.history
  {
  }

  /** Every event after the pulled one is newer. */
  lemma TailNewer(w: World, s: Session)
    requires |s.inbox| <= |w.history| && w.history == Done(w, s) + s.inbox && HistoryOk(w.history, w.disk.next)
    requires s.inbox != []
    ensures forall e :: e in s.inbox[1..] ==> e in s.inbox && s.inbox[0].id < e.id
  {
    InboxIncreasing(w, s);
    TailMembers(s.inbox);
  }

  lemma CompletedShape(w: World, s: Session)
    requires Inv(w) && w.live == Some(s) && s.inbox != []
    ensures var w' := Finished(w, s.inbox[0]);
            && Inv(w') && w'.history == w.history
            && w'.live.Some? && forall e :: e in w'.live.value.inbox ==> e in s.inbox && s.inbox[0].id < e.id
  {
    HeadFacts(w, s);
    FinishedTail(w, s, s.inbox[0]);
    FinishedInv(w, s.inbox[0]);
    TailNewer(w, s);
  }

  /** Handling one event neither stores nor retracts an older batch that is not stored. */
  lemma EventStuck(f: Pipe, step: PipeStep, id: TransactionId, e: Event)
    requires !step.Stream? && !step.Complete? && Pulled(f) == Some(e) && id < e.id && id in f.held && id !in f.store
    ensures var f' := Go(f, step); f'.w == f.w && id in f'.held && id !in f'.store
  {
    TakenMeans(f, e, if step.Retract? then step.id else id);
  }

  lemma CompleteStuck(f: Pipe, s: Session, id: TransactionId)
    requires Inv(f.w) && f.w.live == Some(s) && s.inbox != [] && id < s.inbox[0].id
    requires Undone(f.w.history, id) && id in f.held && id !in f.store
    ensures Stuck(f.(w := Finished(f.w, s.inbox[0])), id)
  {
    CompletedShape(f.w, s);
  }

  lemma GoStuck(f: Pipe, step: PipeStep, id: TransactionId)
    requires Stuck(f, id)
    ensures Stuck(Go(f, step), id)
  {
    if step.Stream? {
      StreamStuck(f, step.step, id);
    } else if Pulled(f).Some? {
      var s := f.w.live.value;
      assert s.inbox[0] in s.inbox;
      if step.Complete? {
        CompleteStuck(f, s, id);
      } else {
        EventStuck(f, step, id, s.inbox[0]);
      }
    }
  }

  lemma PulledEvent(w: World, s: Session)
    requires Inv(w) && w.live == Some(s) && s.inbox != []
    ensures s.inbox[0] in w.history && EventOk(s.inbox[0])
  {
    assert s.inbox[0] in s.inbox;
  }

  lemma LeftIsStuck(f: Pipe, step: PipeStep) returns (id: TransactionId)
    requires Inv(f.w) && LeavesBehind(f, step)
    ensures Stuck(Go(f, step), id)
  {
    var s, e := f.w.live.value, Pulled(f).value;
    id :| id in f.held && e.lo <= id <= e.hi;
    HandledMeans(f, e);
    PulledEvent(f.w, s);
    CompleteStuck(f, s, id);
  }

  lemma {:induction false} LeftStays(steps: seq<PipeStep>) returns (id: TransactionId)
    requires SomethingLeft(steps)
    ensures Stuck(Flow(START, steps), id)
  {
    var f := Flow(START, Front(steps));
    if SomethingLeft(Front(steps)) {
      id := LeftStays(Front(steps));
      GoStuck(f, Last(steps), id);
    } else {
      FlowInv(Front(steps));
      id := LeftIsStuck(f, Last(steps));
    }
  }

  /** The loop has handled everything there is, the opening rewind included. */
  ghost predicate Idle(f: Pipe) {
    f.w.live.Some? && !f.w.live.value.recovering && f.w.live.value.inbox == []
  }

  /** The consumer holds exactly the batches of the whole history that no Undo covers. */
  ghost predicate Exact(f: Pipe) {
    forall id: TransactionId ::
      Fetch(f.held, id) == if Undone(f.w.history, id) then None else DataAt(f.w.history, id)
  }

  /**
   * In every run, with crashes between any two steps, the consumer ends with exactly the batches that no Undo of the
   * whole history covers, the lost events included, if and only if no Delete left a batch of its range behind. When
   * that happens is said by `ForwardingExactly`.
   */
  lemma ForwardingAcrossCrashes(steps: seq<PipeStep>)
    requires Idle(Flow(START, steps))
    ensures Exact(Flow(START, steps)) <==> !SomethingLeft(steps)
  {
    var f := Flow(START, steps);
    if SomethingLeft(steps) {
      var id := LeftStays(steps);
      assert Fetch(f.held, id).Some?;
    } else {
      FlowKeeps(steps);
      assert Done(f.w, f.w.live.value) == f.w.history;
      forall id: TransactionId ensures Fetch(f.held, id) == Expected(f.w.history, id) {
      }
    }
  }

  // ---- The guard when an Undo is emitted -------------------------------------------------------------

  /** The step emits an Undo over a batch that the consumer holds and the store does not. */
  ghost predicate Unbacked(f: Pipe, step: PipeStep) {
    var h := Go(f, step).w.history;
    && h != f.w.history && h != [] && Last(h).Undo?
    && exists id :: id in f.held && id !in f.store && Last(h).lo <= id <= Last(h).hi
  }

  ghost predicate SomeUnbacked(steps: seq<PipeStep>) {
    steps != [] && (SomeUnbacked(Front(steps)) || Unbacked(Flow(START, Front(steps)), Last(steps)))
  }

  /** Every batch the consumer holds although some Undo covers it is still stored. */
  ghost predicate Retractable(f: Pipe) {
    forall id :: id in f.held && Undone(f.w.history, id) ==> id in f.store
  }

  lemma GoHistory(f: Pipe, step: PipeStep)
    requires Inv(f.w)
    ensures var f' := Go(f, step);
            f'.w.history == f.w.history ||
            (step.Stream? && f'.store == f.store && f'.held == f.held && f'.w == Do(f.w, step.step) &&
             f'.w.history != [] && f'.w.history == f.w.history + [Last(f'.w.history)])
  {
    GoWorld(f, step);
    if step.Stream? {
      StreamOnly(f, step.step);
      StreamEmits(f.w, step.step);
    } else if step.Complete? && Pulled(f).Some? {
      CompletedShape(f.w, f.w.live.value);
    }
  }

  lemma StreamOnly(f: Pipe, step: Step)
    ensures var f' := DoStream(f, step); f'.store == f.store && f'.held == f.held
  {
  }

  lemma StreamEmits(w: World, step: Step)
    ensures var h := Do(w, step).history; h == w.history || (h != [] && h == w.history + [Last(h)])
  {
    StepHistory(w, step);
    var h := Do(w, step).history;
    assert h != w.history ==> h == Front(h) + [Last(h)];
  }

  /** An emitted event is newer than everything it covers, and alone in the inbox. */
  lemma EmittedInbox(f: Pipe, step: Step, id: TransactionId)
    requires Inv(f.w) && Undone(Do(f.w, step).history, id) && DoStream(f, step).w == Do(f.w, step)
    requires Do(f.w, step).history != f.w.history
    ensures Do(f.w, step).live.Some? ==> forall x :: x in Do(f.w, step).live.value.inbox ==> id < x.id
  {
    StepKeeps(f.w, step);
    EmittedAlone(f, step);
    var w' := Do(f.w, step);
    if w'.live.Some? {
      var e := Last(w'.history);
      assert e in w'.history;
      UndoneUpToLast(w'.history, w'.disk.next, id);
    }
  }

  lemma EmittedAlone(f: Pipe, step: Step)
    requires DoStream(f, step).w == Do(f.w, step) && Do(f.w, step).history != f.w.history
    ensures var w' := Do(f.w, step);
            w'.live.Some? && w'.history != [] && w'.live.value.inbox == [Last(w'.history)]
  {
  }

  lemma UndoneUpToLast(h: seq<Event>, next: TransactionId, id: TransactionId)
    requires HistoryOk(h, next) && h != [] && Undone(h, id)
    ensures id < Last(h).id
  {
    var u :| u in h && u.Undo? && u.lo <= id <= u.hi;
    var i :| 0 <= i < |h| && h[i] == u;
    assert u.hi < u.id && (i < |h| - 1 ==> h[i].id < h[|h| - 1].id);
  }

  lemma UnbackedIsStuck(f: Pipe, step: PipeStep) returns (id: TransactionId)
    requires Inv(f.w) && Unbacked(f, step)
    ensures Stuck(Go(f, step), id)
  {
    var h := Go(f, step).w.history;
    id :| id in f.held && id !in f.store && Last(h).lo <= id <= Last(h).hi;
    GoHistory(f, step);
    GoInv(f, step);
    assert Last(h) in h;
    EmittedInbox(f, step.step, id);
  }

  lemma {:induction false} UnbackedStays(steps: seq<PipeStep>) returns (id: TransactionId)
    requires SomeUnbacked(steps)
    ensures Stuck(Flow(START, steps), id)
  {
    var f := Flow(START, Front(steps));
    if SomeUnbacked(Front(steps)) {
      id := UnbackedStays(Front(steps));
      GoStuck(f, Last(steps), id);
    } else {
      FlowInv(Front(steps));
      id := UnbackedIsStuck(f, Last(steps));
    }
  }

  /** While an event other than an Undo is handled, the consumer holds nothing that is covered. */
  lemma NothingCovered(f: Pipe, s: Session, id: TransactionId)
    requires PipeInv(f) && f.w.live == Some(s) && |s.inbox| == 1 && !s.inbox[0].Undo? && id in f.held
    ensures !Undone(f.w.history, id)
  {
    PulledLast(f, s);
    HeadFacts(f.w, s);
    UndoneSnoc(Done(f.w, s), s.inbox[0], id);
    assert Fetch(f.held, id).Some?;
  }

  /** Handling an Undo only takes batches from the consumer. */
  lemma UndoRetractable(f: Pipe, step: PipeStep, e: Event)
    requires Retractable(f) && !step.Stream? && !step.Complete? && Pulled(f) == Some(e) && e.Undo?
    ensures Retractable(Go(f, step))
  {
    TakenMeans(f, e, if step.Retract? then step.id else 0);
  }

  /** Handling another event only gives it a batch that was stored. */
  lemma UncoveredRetractable(f: Pipe, step: PipeStep, e: Event)
    requires !step.Stream? && !step.Complete? && Pulled(f) == Some(e) && !e.Undo?
    requires forall id :: id in f.held ==> !Undone(f.w.history, id)
    ensures Retractable(Go(f, step))
  {
    TakenMeans(f, e, if step.Retract? then step.id else 0);
  }

  lemma EventRetractable(f: Pipe, step: PipeStep, s: Session)
    requires PipeInv(f) && Retractable(f) && !step.Stream? && !step.Complete? && f.w.live == Some(s) && |s.inbox| == 1
    ensures Retractable(Go(f, step))
  {
    if s.inbox[0].Undo? {
      UndoRetractable(f, step, s.inbox[0]);
    } else {
      forall id | id in f.held ensures !Undone(f.w.history, id) {
        NothingCovered(f, s, id);
      }
      UncoveredRetractable(f, step, s.inbox[0]);
    }
  }

  lemma EmitRetractable(f: Pipe, f': Pipe, e: Event)
    requires Retractable(f) && f'.store == f.store && f'.held == f.held && f'.w.history == f.w.history + [e]
    requires e.Undo? ==> forall id :: id in f.held && e.lo <= id <= e.hi ==> id in f.store
    ensures Retractable(f')
  {
    forall id | id in f.held && Undone(f'.w.history, id) ensures id in f.store {
      UndoneSnoc(f.w.history, e, id);
    }
  }

  /** Only the steps that handle a pulled event change the batch store or the consumer. */
  lemma GoQuiet(f: Pipe, step: PipeStep)
    requires step.Stream? || step.Complete? || Pulled(f).None?
    ensures Go(f, step).store == f.store && Go(f, step).held == f.held
  {
  }

  lemma QuietRetractable(f: Pipe, f': Pipe)
    requires Retractable(f) && f'.store == f.store && f'.held == f.held && f'.w.history == f.w.history
    ensures Retractable(f')
  {
  }

  lemma GoRetractable(f: Pipe, step: PipeStep)
    requires PipeInv(f) && Retractable(f) && !Unbacked(f, step)
    ensures Retractable(Go(f, step))
  {
    var f' := Go(f, step);
    GoHistory(f, step);
    if f'.w.history != f.w.history {
      EmitRetractable(f, f', Last(f'.w.history));
    } else if step.Stream? || step.Complete? || Pulled(f).None? {
      GoQuiet(f, step);
      QuietRetractable(f, f');
    } else {
      EventRetractable(f, step, f.w.live.value);
    }
  }

  /** A handled Undo leaves nothing behind that was retractable. */
  lemma RetractableLeavesNone(f: Pipe, step: PipeStep)
    requires PipeInv(f) && Retractable(f)
    ensures !LeavesBehind(f, step)
  {
    if Pulled(f).Some? && Pulled(f).value.Undo? {
      var s, e := f.w.live.value, Pulled(f).value;
      HandledMeans(f, e);
      PulledEvent(f.w, s);
      forall id | id in f.held && e.lo <= id <= e.hi ensures id in f.store {
        assert Undone(f.w.history, id);
      }
    }
  }

  lemma {:induction false} BackedKeeps(steps: seq<PipeStep>)
    requires !SomeUnbacked(steps)
    ensures !SomethingLeft(steps) && PipeInv(Flow(START, steps)) && Retractable(Flow(START, steps))
  {
    if steps == [] {
      InitialInv();
    } else {
      var f := Flow(START, Front(steps));
      BackedKeeps(Front(steps));
      RetractableLeavesNone(f, Last(steps));
      GoKeeps(f, Last(steps));
      GoRetractable(f, Last(steps));
    }
  }

  /**
   * In every run, with crashes between any two steps, the consumer ends with exactly the batches that no Undo of the
   * whole history covers, if and only if every emitted Undo found each batch it covers and the consumer held still
   * stored.
   */
  lemma ForwardingExactly(steps: seq<PipeStep>)
    requires Idle(Flow(START, steps))
    ensures Exact(Flow(START, steps)) <==> !SomeUnbacked(steps)
  {
    if SomeUnbacked(steps) {
      var id := UnbackedStays(steps);
      assert Fetch(Flow(START, steps).held, id).Some?;
    } else {
      BackedKeeps(steps);
      ForwardingAcrossCrashes(steps);
    }
  }

  // ---- When nothing is left behind -------------------------------------------------------------------

  /** No batch that this Undo covers was pruned. */
  ghost predicate Covered(h: seq<Event>, e: Event, kept: TransactionId) {
    e.Undo? ==> forall id: TransactionId :: e.lo <= id <= e.hi && id < kept ==> DataAt(h, id).None?
  }

  ghost predicate CoveredStep(f: Pipe, step: PipeStep) {
    var h := Go(f, step).w.history;
    h != f.w.history && h != [] ==> Covered(f.w.history, Last(h), f.kept)
  }

  /** Every Undo of the run finds all the batches it covers still stored. */
  ghost predicate CoveredFlow(steps: seq<PipeStep>) {
    steps == [] || (CoveredFlow(Front(steps)) && CoveredStep(Flow(START, Front(steps)), Last(steps)))
  }

  /** What the consumer holds and no prune has reached is stored. */
  ghost predicate Backed(f: Pipe) {
    forall id :: id in f.held && f.kept <= id ==> id in f.store
  }

  ghost predicate Backing(f: Pipe) {
    && Backed(f)
    && (Pulled(f).Some? && |f.w.live.value.inbox| <= |f.w.history| ==>
          Covered(Done(f.w, f.w.live.value), Pulled(f).value, f.kept))
  }

  lemma PulledStored(f: Pipe, s: Session, e: Event, id: TransactionId)
    requires PipeInv(f) && Backing(f) && f.w.live == Some(s) && |s.inbox| == 1 && e == s.inbox[0]
    requires e.Undo? && e.lo <= id <= e.hi && id in f.held
    ensures id in f.store
  {
    PulledLast(f, s);
    assert Front(f.w.history) == Done(f.w, s) && Last(f.w.history) == e;
    assert DataAt(f.w.history, id) == DataAt(Done(f.w, s), id);
    assert Covered(Done(f.w, s), e, f.kept);
  }

  /** A handled Undo whose batches were all stored leaves none behind. */
  lemma BackedLeavesNone(f: Pipe, step: PipeStep)
    requires PipeInv(f) && Backing(f)
    ensures !LeavesBehind(f, step)
  {
    if Pulled(f).Some? && Pulled(f).value.Undo? {
      var s, e := f.w.live.value, Pulled(f).value;
      HandledMeans(f, e);
      forall id | id in f.held && e.lo <= id <= e.hi ensures id in f.store {
        PulledStored(f, s, e, id);
      }
    }
  }

  /** After a step of the stream the pulled event is the same, gone, or the one just emitted. */
  lemma StreamPulled(f: Pipe, step: Step)
    requires f.w.live.Some? ==> |f.w.live.value.inbox| <= 1
    ensures var f' := DoStream(f, step);
            Pulled(f').Some? ==>
              || (f'.w.history == f.w.history && f.w.live.Some? && f'.w.live.value.inbox == f.w.live.value.inbox)
              || (f'.w.history == f.w.history + [Pulled(f').value] && f'.w.live.value.inbox == [Pulled(f').value])
  {
  }

  lemma SamePulled(f: Pipe, w': World, s: Session, s': Session)
    requires Backing(f) && f.w.live == Some(s) && w'.live == Some(s') && |s.inbox| <= |f.w.history|
    requires w'.history == f.w.history && s'.inbox == s.inbox
    ensures Backing(f.(w := w'))
  {
    assert Done(w', s') == Done(f.w, s);
  }

  lemma NewPulled(f: Pipe, w': World, s': Session, e: Event)
    requires Backed(f) && w'.live == Some(s') && w'.history == f.w.history + [e] && s'.inbox == [e]
    requires Covered(f.w.history, e, f.kept)
    ensures Backing(f.(w := w'))
  {
    assert Done(w', s') == f.w.history;
  }

  lemma StreamBacking(f: Pipe, step: Step)
    requires PipeInv(f) && Backing(f) && CoveredStep(f, Stream(step))
    ensures Backing(DoStream(f, step))
  {
    var f' := DoStream(f, step);
    StreamPulled(f, step);
    if Pulled(f').Some? {
      if f'.w.history == f.w.history {
        SamePulled(f, f'.w, f.w.live.value, f'.w.live.value);
      } else {
        NewPulled(f, f'.w, f'.w.live.value, Pulled(f').value);
      }
    }
  }

  lemma StoreBacking(f: Pipe, s: Session)
    requires Backing(f) && f.w.live == Some(s) && s.inbox != []
    ensures Backing(DoStore(f, s.inbox[0]))
  {
  }

  lemma GoBacking(f: Pipe, step: PipeStep)
    requires PipeInv(f) && Backing(f) && CoveredStep(f, step)
    ensures Backing(Go(f, step))
  {
    if step.Stream? {
      StreamBacking(f, step.step);
    } else if Pulled(f).Some? {
      var s, e := f.w.live.value, Pulled(f).value;
      match step
      case Store => StoreBacking(f, s);
      case TakeInsert => TakenMeans(f, e, e.id);
      case Retract(id) => TakenMeans(f, e, id);
      case Complete => FinishedShape(f.w, s, e);
    }
  }

  lemma {:induction false} CoveredKeeps(steps: seq<PipeStep>)
    requires CoveredFlow(steps)
    ensures !SomethingLeft(steps) && PipeInv(Flow(START, steps)) && Backing(Flow(START, steps))
  {
    if steps == [] {
      InitialInv();
    } else {
      var f := Flow(START, Front(steps));
      CoveredKeeps(Front(steps));
      BackedLeavesNone(f, Last(steps));
      GoKeeps(f, Last(steps));
      GoBacking(f, Last(steps));
    }
  }

  /** If no Undo covers a batch that was inserted and pruned before, nothing is left behind. */
  lemma CoveredIsExact(steps: seq<PipeStep>)
    requires CoveredFlow(steps) && Idle(Flow(START, steps))
    ensures Exact(Flow(START, steps))
  {
    CoveredKeeps(steps);
    ForwardingAcrossCrashes(steps);
  }

  /** The prunes made so far are all reflected in the persisted watermarks. */
  ghost predicate PrunesCommitted(f: Pipe) {
    f.kept == 0 || Committed(f.w.disk, f.kept - 1)
  }

  ghost predicate EmitsUndo(f: Pipe, step: PipeStep) {
    var h := Go(f, step).w.history;
    h != f.w.history && h != [] && Last(h).Undo?
  }

  /** Whenever the run emits an Undo, the prunes made so far are committed. */
  ghost predicate PromptFlow(steps: seq<PipeStep>) {
    steps == [] ||
    var f := Flow(START, Front(steps));
    PromptFlow(Front(steps)) && (EmitsUndo(f, Last(steps)) ==> PrunesCommitted(f))
  }

  /** An Undo emitted when all prunes are committed covers no pruned batch. */
  lemma CommittedIsCovered(f: Pipe, step: Step)
    requires Inv(f.w) && PrunesCommitted(f)
    ensures CoveredStep(f, Stream(step))
  {
    if f.kept > 0 {
      StepCommitted(f.w, step, f.kept - 1);
    }
  }

  lemma OnlyStreamEmits(f: Pipe, step: PipeStep)
    requires PipeInv(f) && !step.Stream?
    ensures Go(f, step).w.history == f.w.history
  {
    if step.Complete? && Pulled(f).Some? {
      FinishedShape(f.w, f.w.live.value, Pulled(f).value);
    }
  }

  /** Committing prunes before the next Undo is enough. */
  lemma {:induction false} PromptIsCovered(steps: seq<PipeStep>)
    requires PromptFlow(steps)
    ensures CoveredFlow(steps)
  {
    if steps == [] {
    } else {
      var f := Flow(START, Front(steps));
      PromptIsCovered(Front(steps));
      CoveredKeeps(Front(steps));
      if !Last(steps).Stream? {
        OnlyStreamEmits(f, Last(steps));
      } else if EmitsUndo(f, Last(steps)) {
        CommittedIsCovered(f, Last(steps).step);
      }
    }
  }

  /** So a run that commits its prunes before each Undo ends with exactly the batches that no Undo covers. */
  lemma PromptForwardingExact(steps: seq<PipeStep>)
    requires PromptFlow(steps) && Idle(Flow(START, steps))
    ensures Exact(Flow(START, steps))
  {
    PromptIsCovered(steps);
    CoveredIsExact(steps);
  }
}
