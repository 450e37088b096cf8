/** What a commit is for: a committed watermark is never rewound, only a reorg can take it back. */
module Durability {
  import opened Types
  import opened Sequences
  import opened Transactional
  import opened Recovery
  import opened History
  import opened ExactlyOnce

  // ---- Where the persisted watermarks end ------------------------------------------------------------

  /** A rewind would leave transaction `id` alone: some persisted watermark is at or after it. */
  ghost predicate Durable(disk: Snapshot, id: TransactionId) {
    exists b :: b in disk.buffer && id <= b.id
  }

  lemma DurableResume(disk: Snapshot, id: TransactionId)
    requires Increasing(disk.buffer)
    ensures Durable(disk, id) <==> id < ResumeId(disk.buffer)
  {
    var b := disk.buffer;
    if Durable(disk, id) {
      var x :| x in b && id <= x.id;
      var i :| 0 <= i < |b| && b[i] == x;
      assert i < |b| - 1 ==> b[i].id < b[|b| - 1].id;
    } else if b != [] {
      assert Last(b) in b;
    }
  }

  // ---- Commits ---------------------------------------------------------------------------------------

  /** A pending commit never prunes itself or a newer one. */
  lemma PrunedBehind(m: Machine, id: TransactionId, tx: TransactionId) returns (b: Entry)
    requires Agrees(m) && Prunes(m.actor.uncommitted, id, tx)
    ensures PendingUpTo(m.actor.uncommitted, id, b) && tx < b.id && !Prunes(m.actor.uncommitted, id, b.id)
  {
    var u := m.actor.uncommitted;
    var pos := CommitPosition(u, id);
    var front := u[..pos];
    PendingOrdered(m);
    CommittedPrunes(u, id, tx);
    var i :| 0 <= i < |front| && front[i].prune == LargestPrune(front);
    b := u[i].entry;
    assert u[i] in u;
    CommittedPrunes(u, id, b.id);
  }

  /** A commit takes back nothing that is durable. */
  lemma CommitKeepsDurable(m: Machine, id: TransactionId, tx: TransactionId)
    requires Agrees(m) && Durable(m.disk, tx)
    ensures Durable(CommitUpTo(m, id).disk, tx)
  {
    CommitExactly(m, id);
    var b :| b in m.disk.buffer && tx <= b.id;
    if Prunes(m.actor.uncommitted, id, b.id) {
      var c := PrunedBehind(m, id, b.id);
      assert c in CommitUpTo(m, id).disk.buffer;
    } else {
      assert b in CommitUpTo(m, id).disk.buffer;
    }
  }

  /** What is buffered up to the committed id is durable afterwards. */
  lemma CommitMakesDurable(m: Machine, id: TransactionId, b: Entry)
    requires Agrees(m) && b in m.actor.buffer && b.id <= id
    ensures Durable(CommitUpTo(m, id).disk, b.id)
  {
    CommitExactly(m, id);
    BufferedWhere(m, b);
    if Prunes(m.actor.uncommitted, id, b.id) {
      var c := PrunedBehind(m, id, b.id);
      assert c in CommitUpTo(m, id).disk.buffer;
    } else {
      assert b in CommitUpTo(m, id).disk.buffer;
    }
  }

  lemma BufferedWhere(m: Machine, b: Entry)
    requires Agrees(m) && b in m.actor.buffer
    ensures b in m.disk.buffer || PendingUpTo(m.actor.uncommitted, b.id, b)
  {
    if b in Entries(m.actor.uncommitted) {
      EntriesMember(m.actor.uncommitted, b);
    }
  }

  // ---- Reorgs ----------------------------------------------------------------------------------------

  /** The actor's next action is a reorg that succeeds and undoes transaction `id`. */
  ghost predicate ReorgUndoes(s: Session, disk: Snapshot, id: TransactionId) {
    && NextAction(s).Some? && NextAction(s).value.Message? && NextAction(s).value.message.ReorgMessage?
    && var out := Execute(Machine(s.actor, disk), NextAction(s).value);
       out.result.Ok? && out.result.value.lo <= id
  }

  /** The step carries out such a reorg, whether or not the process lives to emit its Undo. */
  ghost predicate Drops(w: World, step: Step, id: TransactionId) {
    && w.live.Some? && (step == Pump || step == Halt(true))
    && ReorgUndoes(w.live.value, w.disk, id)
  }

  /** Where a successful reorg truncates. */
  lemma ReorgDisk(m: Machine, message: ProtocolMessage)
    requires message.ReorgMessage? && Execute(m, Message(message)).result.Ok? && m.actor.buffer != []
    ensures var out := Execute(m, Message(message));
            && out.result.value.lo > 0 && out.machine.disk.buffer == Filter(m.disk.buffer, IdBelow(out.result.value.lo))
            && exists b :: b in m.actor.buffer && b.id + 1 == out.result.value.lo
  {
    var k := RecoveryIndex(m.actor.buffer, Points(message.invalidation));
    assert m.actor.buffer[k] in m.actor.buffer;
  }

  lemma ReorgDurable(m: Machine, message: ProtocolMessage, id: TransactionId)
    requires Agrees(m) && message.ReorgMessage? && Execute(m, Message(message)).result.Ok? && Durable(m.disk, id)
    ensures var out := Execute(m, Message(message));
            Durable(out.machine.disk, id) <==> out.result.value.lo > id
  {
    var lo := Execute(m, Message(message)).result.value.lo;
    var x :| x in m.disk.buffer && id <= x.id;
    assert x in m.actor.buffer;
    ReorgDisk(m, message);
    FilterMembers(m.disk.buffer, IdBelow(lo));
    if lo > id {
      var b :| b in m.actor.buffer && b.id + 1 == lo;
      RecoveredStored(m, b, x);
    }
  }

  /** The recovery watermark is persisted, or everything persisted is older than it. */
  lemma RecoveredStored(m: Machine, b: Entry, x: Entry)
    requires Agrees(m) && b in m.actor.buffer && x in m.disk.buffer
    ensures b in m.disk.buffer || x.id < b.id
  {
    var buffer := m.actor.buffer;
    var i :| 0 <= i < |m.disk.buffer| && m.disk.buffer[i] == x;
    var j :| 0 <= j < |buffer| && buffer[j] == b;
    assert buffer[i] == x;
    if j < |m.disk.buffer| {
      assert m.disk.buffer[j] == b;
    } else {
      assert i < j;
    }
  }

  // ---- Every step ------------------------------------------------------------------------------------

  lemma ActionDurable(m: Machine, action: Action, id: TransactionId)
    requires Agrees(m) && Durable(m.disk, id)
    ensures var out := Execute(m, action);
            Durable(out.machine.disk, id) <==>
            !(action.Message? && action.message.ReorgMessage? && out.result.Ok? && out.result.value.lo <= id)
  {
    var out := Execute(m, action);
    if action.Message? && action.message.ReorgMessage? && out.result.Ok? {
      ReorgDurable(m, action.message, id);
    } else {
      assert out.machine.disk.buffer == m.disk.buffer;
    }
  }

  lemma RewindSpares(m: Machine, id: TransactionId)
    requires Agrees(m) && Durable(m.disk, id)
    ensures Execute(m, Rewind).result.value.lo > id
  {
    var b :| b in m.disk.buffer && id <= b.id;
    var buffer := m.actor.buffer;
    var i :| 0 <= i < |m.disk.buffer| && m.disk.buffer[i] == b;
    assert buffer[i] == b;
    assert i < |buffer| - 1 ==> buffer[i].id < buffer[|buffer| - 1].id;
  }

  lemma LiveDurable(w: World, s: Session, step: Step, id: TransactionId)
    requires Agrees(Machine(s.actor, w.disk)) && Coupled(s) && w.live == Some(s) && Durable(w.disk, id)
    ensures Durable(Do(w, step).disk, id) <==> !Drops(w, step, id)
  {
    var m := Machine(s.actor, w.disk);
    match step
    case EmitRewind =>
      if s.rewindDue {
        ActionDurable(m, Rewind, id);
      }
    case Pump =>
      if s.queue != [] {
        ActionDurable(m, Message(s.queue[0]), id);
      }
    case CommitId(c) =>
      if c < s.acked {
        CommitKeepsDurable(m, c, id);
      }
    case Halt(written) => HaltDurable(w, s, written, id);
    case _ =>
  }

  lemma HaltDurable(w: World, s: Session, written: bool, id: TransactionId)
    requires Agrees(Machine(s.actor, w.disk)) && Durable(w.disk, id) && w.live == Some(s)
    ensures Durable(DoHalt(w, s, written).disk, id) <==> !(written && ReorgUndoes(s, w.disk, id))
  {
    if NextAction(s).Some? {
      ActionDurable(Machine(s.actor, w.disk), NextAction(s).value, id);
      var b :| b in w.disk.buffer && id <= b.id;
      assert !written ==> b in DoHalt(w, s, written).disk.buffer;
    }
  }

  /** A step takes a durable transaction back exactly when it carries out a reorg that undoes it. */
  lemma StepDurable(w: World, step: Step, id: TransactionId)
    requires Inv(w) && Durable(w.disk, id)
    ensures Durable(Do(w, step).disk, id) <==> !Drops(w, step, id)
  {
    if w.live.Some? {
      LiveDurable(w, w.live.value, step, id);
    }
  }

  lemma ActionSpares(m: Machine, action: Action, id: TransactionId)
    requires Agrees(m) && Durable(m.disk, id)
    requires !(action.Message? && action.message.ReorgMessage? && Execute(m, action).result.Ok? &&
               Execute(m, action).result.value.lo <= id)
    ensures var out := Execute(m, action); out.result.Ok? && out.result.value.Undo? ==> out.result.value.lo > id
  {
    if action.Rewind? {
      RewindSpares(m, id);
    }
  }

  /** The step emits nothing, or an event that does not cover the transaction. */
  ghost predicate Spares(h: seq<Event>, h': seq<Event>, id: TransactionId) {
    h' != h ==> h' != [] && Front(h') == h && (Last(h').Undo? ==> Last(h').lo > id)
  }

  lemma EmitSpares(w: World, s: Session, out: Outcome, id: TransactionId)
    requires out.result.Ok? && out.result.value.Undo? ==> out.result.value.lo > id
    ensures Spares(w.history, Emit(w, s, out).history, id)
  {
  }

  lemma LiveSpares(w: World, s: Session, step: Step, id: TransactionId)
    requires Agrees(Machine(s.actor, w.disk)) && w.live == Some(s) && Coupled(s)
    requires Durable(w.disk, id) && !Drops(w, step, id)
    ensures Spares(w.history, Do(w, step).history, id)
  {
    var m := Machine(s.actor, w.disk);
    match step
    case EmitRewind =>
      if s.rewindDue {
        ActionSpares(m, Rewind, id);
        EmitSpares(w, s.(rewindDue := false), Execute(m, Rewind), id);
      }
    case Pump =>
      if s.queue != [] {
        ActionSpares(m, Message(s.queue[0]), id);
        EmitSpares(w, Taken(s), Execute(m, Message(s.queue[0])), id);
      }
    case _ =>
  }

  /** A step that does not drop a durable transaction emits no Undo that covers it. */
  lemma StepSpares(w: World, step: Step, id: TransactionId)
    requires Inv(w) && Durable(w.disk, id) && !Drops(w, step, id)
    ensures Spares(w.history, Do(w, step).history, id)
  {
    if w.live.Some? {
      LiveSpares(w, w.live.value, step, id);
    }
  }

  // ---- Emitted watermarks ----------------------------------------------------------------------------

  /** The watermark was emitted, and no Undo covers it. */
  ghost predicate Standing(h: seq<Event>, e: Event) {
    e in h && e.Watermark? && !Undone(h, e.id)
  }

  ghost predicate Kept(m: Machine, e: Event)
    requires e.Watermark?
  {
    Entry(e.id, e.ranges) in m.actor.buffer || Durable(m.disk, e.id)
  }

  /** Once the opening rewind is emitted, every standing watermark is buffered or durable. */
  ghost predicate Tracked(w: World) {
    w.live.Some? && !w.live.value.rewindDue ==>
      forall e :: Standing(w.history, e) ==> Kept(Machine(w.live.value.actor, w.disk), e)
  }

  lemma StandingSnoc(h: seq<Event>, e: Event, x: Event)
    requires Standing(h + [e], x)
    ensures Standing(h, x) || x == e
    ensures e.Undo? ==> !(e.lo <= x.id <= e.hi)
  {
    UndoneSnoc(h, e, x.id);
  }

  lemma RestartTracked(w: World, retention: BlockNumber)
    requires Inv(w) && w.live.None?
    ensures Tracked(w.(live := Some(Opened(w.disk, retention))))
  {
    var s := Opened(w.disk, retention);
    if !s.rewindDue {
      forall e | Standing(w.history, e) ensures Durable(w.disk, e.id) {
        CleanDurable(w.disk, retention, e.id);
      }
    }
  }

  /** With nothing to rewind, every id is up to the last persisted watermark. */
  lemma CleanDurable(disk: Snapshot, retention: BlockNumber, id: TransactionId)
    requires !RewindNeeded(Open(disk, retention).actor) && id < disk.next
    ensures Durable(disk, id)
  {
    assert Last(disk.buffer) in disk.buffer;
  }

  /** The opening rewind undoes every watermark that is not durable. */
  lemma RewindTracked(w: World, s: Session)
    requires Inv(w) && w.live == Some(s) && s.rewindDue
    ensures Tracked(Do(w, EmitRewind))
  {
    var w' := Do(w, EmitRewind);
    var e := Last(w'.history);
    RewindShape(w, s);
    forall x | Standing(w'.history, x) ensures Durable(w.disk, x.id) {
      StandingSnoc(w.history, e, x);
      DurableResume(w.disk, x.id);
    }
  }

  lemma RewindShape(w: World, s: Session)
    requires Inv(w) && w.live == Some(s) && s.rewindDue
    ensures Increasing(w.disk.buffer)
    ensures var w' := Do(w, EmitRewind);
            && w'.history != [] && w'.history == w.history + [Last(w'.history)]
            && w'.disk.buffer == w.disk.buffer
            && var e := Last(w'.history);
               e.Undo? && e.lo == ResumeId(w.disk.buffer) && e.hi + 1 == w.disk.next
  {
    NothingPending(Machine(s.actor, w.disk));
  }

  lemma MessageTracked(w: World, s: Session)
    requires Inv(w) && Tracked(w) && w.live == Some(s) && !s.rewindDue && |s.queue| == 1 && !s.queue[0].ReorgMessage?
    ensures Tracked(DoPump(w, s))
  {
    var out := Execute(Machine(s.actor, w.disk), Message(s.queue[0]));
    PumpedMessage(w, s, out);
    PumpedDisk(w, s);
    var w', e := DoPump(w, s), out.result.value;
    forall x | Standing(w'.history, x) ensures Kept(Machine(w'.live.value.actor, w'.disk), x) {
      StandingSnoc(w.history, e, x);
      if x != e {
        MoreKept(Machine(s.actor, w.disk), Machine(w'.live.value.actor, w'.disk), x);
      }
    }
  }

  lemma PumpedDisk(w: World, s: Session)
    requires |s.queue| == 1 && !s.queue[0].ReorgMessage?
    ensures DoPump(w, s).live.Some? && DoPump(w, s).disk.buffer == w.disk.buffer
  {
  }

  /** What was kept stays kept where the buffers only grow. */
  lemma MoreKept(m: Machine, m': Machine, x: Event)
    requires x.Watermark? && Kept(m, x)
    requires (forall b :: b in m.actor.buffer ==> b in m'.actor.buffer) && m'.disk.buffer == m.disk.buffer
    ensures Kept(m', x)
  {
    if Durable(m.disk, x.id) {
      var b :| b in m.disk.buffer && x.id <= b.id;
      assert b in m'.disk.buffer;
    }
  }

  lemma ReorgKept(m: Machine, message: ProtocolMessage, x: Event)
    requires Agrees(m) && message.ReorgMessage? && Execute(m, Message(message)).result.Ok? && m.actor.buffer != []
    requires x.Watermark? && Kept(m, x) && x.id < Execute(m, Message(message)).result.value.lo
    ensures Kept(Execute(m, Message(message)).machine, x)
  {
    var out := Execute(m, Message(message));
    if Durable(m.disk, x.id) {
      ReorgDurable(m, message, x.id);
    } else {
      ReorgBuffered(m, message);
      FilterMembers(m.actor.buffer, IdBelow(out.result.value.lo));
    }
  }

  lemma ReorgBuffered(m: Machine, message: ProtocolMessage)
    requires message.ReorgMessage? && Execute(m, Message(message)).result.Ok? && m.actor.buffer != []
    ensures var out := Execute(m, Message(message));
            out.machine.actor.buffer == Filter(m.actor.buffer, IdBelow(out.result.value.lo))
  {
    var k := RecoveryIndex(m.actor.buffer, Points(message.invalidation));
    assert 0 <= k && !SplitsRange(m.actor.buffer[k].ranges, message.invalidation);
  }

  /** A reorg undoes every watermark that it drops. */
  lemma ReorgTracked(w: World, s: Session, out: Outcome)
    requires Inv(w) && Tracked(w) && w.live == Some(s) && !s.rewindDue && |s.queue| == 2 && s.queue[0].ReorgMessage?
    requires out == Execute(Machine(s.actor, w.disk), Message(s.queue[0])) && out.result.Ok?
    ensures Tracked(DoPump(w, s))
  {
    var w', e := DoPump(w, s), out.result.value;
    PumpedReorg(w, s, out);
    forall x | Standing(w'.history, x) ensures Kept(out.machine, x) {
      StandingSnoc(w.history, e, x);
      assert x.id < s.actor.next;
      if s.actor.buffer == [] {
        assert false;
      } else {
        ReorgKept(Machine(s.actor, w.disk), s.queue[0], x);
      }
    }
  }

  lemma PumpTracked(w: World, s: Session)
    requires Inv(w) && Tracked(w) && w.live == Some(s)
    ensures Tracked(DoPump(w, s))
  {
    if s.queue != [] && DoPump(w, s).live.Some? {
      if s.queue[0].ReorgMessage? {
        ReorgTracked(w, s, Execute(Machine(s.actor, w.disk), Message(s.queue[0])));
      } else {
        MessageTracked(w, s);
      }
    }
  }

  lemma CommitKept(m: Machine, id: TransactionId, x: Event)
    requires Agrees(m) && x.Watermark? && Kept(m, x)
    ensures Kept(CommitUpTo(m, id), x)
  {
    if Durable(m.disk, x.id) {
      CommitKeepsDurable(m, id, x.id);
    } else if Prunes(m.actor.uncommitted, id, x.id) {
      CommitExactly(m, id);
      var b := PrunedBehind(m, id, x.id);
      assert b in CommitUpTo(m, id).disk.buffer;
    } else {
      CommitExactly(m, id);
    }
  }

  lemma CommitTracked(w: World, s: Session, id: TransactionId)
    requires Inv(w) && Tracked(w) && w.live == Some(s)
    ensures Tracked(DoCommit(w, s, id))
  {
    if id < s.acked && !s.rewindDue {
      forall x | Standing(w.history, x) ensures Kept(CommitUpTo(Machine(s.actor, w.disk), id), x) {
        CommitKept(Machine(s.actor, w.disk), id, x);
      }
    }
  }

  /** Steps that touch neither actor, disk nor history. */
  lemma QuietTracked(w: World, w': World)
    requires Tracked(w) && w'.history == w.history && w'.disk == w.disk
    requires w'.live.Some? ==> w.live.Some? && w'.live.value.actor == w.live.value.actor &&
                               w'.live.value.rewindDue == w.live.value.rewindDue
    ensures Tracked(w')
  {
  }

  lemma StepTracked(w: World, step: Step)
    requires Inv(w) && Tracked(w)
    ensures Tracked(Do(w, step))
  {
    match w.live
    case None =>
      if step.Restart? {
        RestartTracked(w, step.retention);
      }
    case Some(s) => LiveTracked(w, s, step);
  }

  lemma LiveTracked(w: World, s: Session, step: Step)
    requires Inv(w) && Tracked(w) && w.live == Some(s)
    ensures Tracked(Do(w, step))
  {
    match step
    case EmitRewind =>
      if s.rewindDue {
        RewindTracked(w, s);
      }
    case Pump => PumpTracked(w, s);
    case CommitId(id) => CommitTracked(w, s, id);
    case Halt(written) => HaltTracked(w, s, written);
    case Crash =>
    case _ =>
      QuietStep(w, s, step);
      QuietTracked(w, Do(w, step));
  }

  lemma HaltTracked(w: World, s: Session, written: bool)
    requires Tracked(w) && w.live == Some(s)
    ensures Tracked(DoHalt(w, s, written))
  {
  }

  lemma QuietStep(w: World, s: Session, step: Step)
    requires w.live == Some(s) && (step.Restart? || step.Receive? || step.Insert? || step.Finish?)
    ensures var w' := Do(w, step);
            && w'.history == w.history && w'.disk == w.disk
            && (w'.live.Some? ==> w'.live.value.actor == s.actor && w'.live.value.rewindDue == s.rewindDue)
  {
  }

  lemma {:induction false} ReachableTracked(steps: seq<Step>)
    ensures Tracked(Run(INITIAL, steps))
  {
    if steps == [] {
    } else {
      ReachableTracked(Front(steps));
      ReachableInv(Front(steps));
      StepTracked(Run(INITIAL, Front(steps)), Last(steps));
    }
  }

  // ---- Main results ----------------------------------------------------------------------------------

  /** No step of the continuation carries out a reorg that undoes the transaction. */
  ghost predicate NeverDropped(w: World, steps: seq<Step>, id: TransactionId) {
    steps == [] || (NeverDropped(w, Front(steps), id) && !Drops(Run(w, Front(steps)), Last(steps), id))
  }

  /**
   * A durable transaction stays durable through every continuation, crashes and restarts included, until a reorg undoes
   * it; and until then no Undo, in particular no rewind, covers it.
   */
  lemma {:induction false} DurableStays(w: World, steps: seq<Step>, id: TransactionId)
    requires Inv(w) && Durable(w.disk, id) && NeverDropped(w, steps, id)
    ensures Durable(Run(w, steps).disk, id)
    ensures forall e :: e in Run(w, steps).history && e !in w.history && e.Undo? ==> e.lo > id
  {
    if steps == [] {
    } else {
      var v := Run(w, Front(steps));
      DurableStays(w, Front(steps), id);
      RunKeeps(w, Front(steps));
      StepDurable(v, Last(steps), id);
      StepSpares(v, Last(steps), id);
      NewestOnly(v.history, Run(w, steps).history);
    }
  }

  lemma CommitDurable(m: Machine, e: Event, id: TransactionId)
    requires Agrees(m) && e.Watermark? && e.id <= id && Kept(m, e)
    ensures Durable(CommitUpTo(m, id).disk, e.id)
  {
    if Durable(m.disk, e.id) {
      CommitKeepsDurable(m, id, e.id);
    } else {
      CommitMakesDurable(m, id, Entry(e.id, e.ranges));
    }
  }

  lemma FinishedOpen(w: World, s: Session)
    requires Inv(w) && w.live == Some(s) && s.acked > 0
    ensures !s.rewindDue && Agrees(Machine(s.actor, w.disk))
  {
  }

  lemma CommitStep(w: World, s: Session, id: TransactionId)
    requires w.live == Some(s) && id < s.acked
    ensures var w' := Do(w, CommitId(id));
            w'.disk == CommitUpTo(Machine(s.actor, w.disk), id).disk && w'.history == w.history
  {
  }

  lemma FinishedCommit(w: World, s: Session, e: Event, id: TransactionId)
    requires Inv(w) && Tracked(w) && w.live == Some(s) && Standing(w.history, e) && e.id <= id < s.acked
    ensures Durable(Do(w, CommitId(id)).disk, e.id)
  {
    FinishedOpen(w, s);
    CommitStep(w, s, id);
    CommitDurable(Machine(s.actor, w.disk), e, id);
  }

  /** In every run, committing a finished watermark that stands makes it durable. */
  lemma CommitIsDurable(steps: seq<Step>, e: Event, id: TransactionId)
    requires var w := Run(INITIAL, steps);
             w.live.Some? && Standing(w.history, e) && e.id <= id < w.live.value.acked
    ensures Durable(Do(Run(INITIAL, steps), CommitId(id)).disk, e.id)
  {
    ReachableTracked(steps);
    ReachableInv(steps);
    FinishedCommit(Run(INITIAL, steps), Run(INITIAL, steps).live.value, e, id);
  }

  lemma DurableIsKept(w: World, more: seq<Step>, id: TransactionId)
    requires Inv(w) && Durable(w.disk, id) && !Undone(w.history, id) && NeverDropped(w, more, id)
    ensures id < ResumeId(Run(w, more).disk.buffer) && !Undone(Run(w, more).history, id)
  {
    DurableStays(w, more, id);
    RunKeeps(w, more);
    InvOrdered(Run(w, more));
    DurableResume(Run(w, more).disk, id);
  }

  lemma InvOrdered(w: World)
    requires Inv(w)
    ensures Increasing(w.disk.buffer)
  {
  }

  lemma CommittedStays(w: World, s: Session, e: Event, more: seq<Step>)
    requires Inv(w) && Tracked(w) && w.live == Some(s) && Standing(w.history, e) && e.id < s.acked
    requires NeverDropped(Do(w, CommitId(e.id)), more, e.id)
    ensures var v := Run(Do(w, CommitId(e.id)), more);
            e.id < ResumeId(v.disk.buffer) && !Undone(v.history, e.id)
  {
    FinishedCommit(w, s, e, e.id);
    CommitStep(w, s, e.id);
    StepKeeps(w, CommitId(e.id));
    DurableIsKept(Do(w, CommitId(e.id)), more, e.id);
  }

  /**
   * The guarantee of a commit: once a finished watermark is committed, then after any further steps, crashes and
   * restarts included, in which no reorg undoes it, a reopened stream resumes after it and no Undo has covered it.
   */
  lemma CommittedIsNeverRewound(steps: seq<Step>, e: Event, more: seq<Step>)
    requires var w := Run(INITIAL, steps);
             w.live.Some? && Standing(w.history, e) && e.id < w.live.value.acked
    requires NeverDropped(Do(Run(INITIAL, steps), CommitId(e.id)), more, e.id)
    ensures var w := Run(Do(Run(INITIAL, steps), CommitId(e.id)), more);
            e.id < ResumeId(w.disk.buffer) && !Undone(w.history, e.id)
  {
    ReachableTracked(steps);
    ReachableInv(steps);
    CommittedStays(Run(INITIAL, steps), Run(INITIAL, steps).live.value, e, more);
  }
}
