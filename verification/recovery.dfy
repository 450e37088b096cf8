/**
 * Whole runs of a transactional stream with crashes: server responses, the state actor, its store, and a
 * consumer that applies each event to its table before it commits the event's id.
 */
module Recovery {
  import opened Types
  import opened Sequences
  import opened Protocol
  import opened Transactional
  import opened Consumer

  /** One process lifetime, from opening the stream to a crash or an error. */
  datatype Session = Session(
    actor: Actor,
    previous: seq<BlockRange>,      // ranges of the last response that was fully processed
    queue: seq<ProtocolMessage>,    // messages of the current response that the actor has not executed yet
    rewindDue: bool,                // the rewind that opens the session has not been emitted yet
    recovering: bool,               // that rewind has not been applied by the consumer yet
    inbox: seq<Event>,              // emitted events the consumer has not finished, oldest first
    inserted: nat,                  // rows of the first inbox event that are already in the table
    acked: TransactionId)           // all events of this session with a smaller id are finished

  /** Disk and table survive a crash; `history` records every event ever emitted. */
  datatype World = World(disk: Snapshot, live: Option<Session>, table: Table, history: seq<Event>)

  datatype Step =
    | Restart(retention: BlockNumber)
    | EmitRewind
    | Receive(response: Response)
    | Pump                              // the actor executes the next queued message
    | Insert(from: nat, to: nat)        // the consumer inserts (or repeats) a chunk of the current batch
    | Finish                            // the consumer completes the first inbox event
    | CommitId(id: TransactionId)       // the consumer commits an id it has finished
    | Halt(written: bool)               // the process stops inside the actor's next action
    | Crash

  const INITIAL := World(Snapshot(0, []), None, map[], [])

  function Opened(disk: Snapshot, retention: BlockNumber): Session {
    var a := Open(disk, retention).actor;
    var due := RewindNeeded(a);
    Session(a, if a.buffer == [] then [] else Last(a.buffer).ranges, [], due, due, [], 0, 0)
  }

  /** The world after the actor ran: an error ends the session, an event goes to the consumer. */
  function Emit(w: World, s: Session, out: Outcome): World {
    match out.result
    case Err(_) => w.(disk := out.machine.disk, live := None)
    case Ok(e) =>
      World(out.machine.disk, Some(s.(actor := out.machine.actor, inbox := s.inbox + [e])), w.table, w.history + [e])
  }

  function DoReceive(w: World, s: Session, response: Response): World {
    if s.rewindDue || s.queue != [] then w
    else match Interpret(s.previous, response)
      case Err(_) => w.(live := None)
      case Ok(messages) => w.(live := Some(s.(queue := messages)))
  }

  /** The session once its next message is taken; the last message of a response completes its ranges. */
  function Taken(s: Session): Session
    requires s.queue != []
  {
    s.(queue := s.queue[1..],
       previous := if |s.queue| == 1 && !s.queue[0].ReorgMessage? then s.queue[0].ranges else s.previous)
  }

  function DoPump(w: World, s: Session): World {
    if s.queue == [] then w
    else Emit(w, Taken(s), Execute(Machine(s.actor, w.disk), Message(s.queue[0])))
  }

  function DoInsert(w: World, s: Session, from: nat, to: nat): World {
    if s.inbox != [] && s.inbox[0].Data? && from <= s.inserted && from <= to <= |s.inbox[0].batch| then
      w.(table := InsertRows(w.table, s.inbox[0].id, s.inbox[0].batch, from, to),
         live := Some(s.(inserted := Max(s.inserted, to))))
    else w
  }

  function DoFinish(w: World, s: Session): World {
    if s.inbox == [] || (s.inbox[0].Data? && s.inserted < |s.inbox[0].batch|) then w
    else
      var e := s.inbox[0];
      var s' := s.(inbox := s.inbox[1..], inserted := 0, acked := e.id + 1);
      if e.Undo? then w.(table := DeleteRange(w.table, e.lo, e.hi), live := Some(s'.(recovering := false)))
      else w.(live := Some(s'))
  }

  function DoCommit(w: World, s: Session, id: TransactionId): World {
    if id < s.acked then
      var m := CommitUpTo(Machine(s.actor, w.disk), id);
      w.(disk := m.disk, live := Some(s.(actor := m.actor)))
    else w
  }

  function NextAction(s: Session): Option<Action> {
    if s.rewindDue then Some(Rewind) else if s.queue != [] then Some(Message(s.queue[0])) else None
  }

  /** What an action interrupted by a failing store leaves on disk: its id is taken, or all it writes is written. */
  function Halted(m: Machine, action: Action, written: bool): Snapshot {
    if written then Execute(m, action).machine.disk else m.disk.(next := m.actor.next + 1)
  }

  function DoHalt(w: World, s: Session, written: bool): World {
    match NextAction(s)
    case Some(action) => w.(disk := Halted(Machine(s.actor, w.disk), action, written), live := None)
    case None => w
  }

  /** One step; a step that is not enabled changes nothing. */
  function Do(w: World, step: Step): World {
    match w.live
    case None =>
      if step.Restart? then w.(live := Some(Opened(w.disk, step.retention))) else w
    case Some(s) =>
      match step
      case Restart(_) => w
      case EmitRewind =>
        if s.rewindDue then
          Emit(w, s.(rewindDue := false), Execute(Machine(s.actor, w.disk), Rewind))
        else w
      case Receive(response) => DoReceive(w, s, response)
      case Pump => DoPump(w, s)
      case Insert(from, to) => DoInsert(w, s, from, to)
      case Finish => DoFinish(w, s)
      case CommitId(id) => DoCommit(w, s, id)
      case Halt(written) => DoHalt(w, s, written)
      case Crash => w.(live := None)
  }

  function Run(w: World, steps: seq<Step>): World {
    if steps == [] then w else Do(Run(w, Front(steps)), Last(steps))
  }

  /** What pumping a data or watermark message does to the session. */
  lemma PumpedMessage(w: World, s: Session, out: Outcome)
    requires |s.queue| == 1 && !s.queue[0].ReorgMessage?
    requires out == Execute(Machine(s.actor, w.disk), Message(s.queue[0]))
    ensures out.result.Ok?
    ensures var e, s' := out.result.value, DoPump(w, s).live.value;
            && !e.Undo? && e.id == s.actor.next && e.ranges == s.queue[0].ranges
            && (e.Data? <==> s.queue[0].DataMessage?) && (e.Data? ==> e.batch == s.queue[0].batch)
            && s'.previous == e.ranges && s'.queue == [] && s'.rewindDue == s.rewindDue
            && s'.actor.buffer == (if e.Data? then s.actor.buffer else s.actor.buffer + [Entry(e.id, e.ranges)])
            && DoPump(w, s).history == w.history + [e]
  {
  }

  /** What pumping a reorg does to the session when the actor finds a way to recover. */
  lemma PumpedReorg(w: World, s: Session, out: Outcome)
    requires |s.queue| == 2 && s.queue[0].ReorgMessage?
    requires out == Execute(Machine(s.actor, w.disk), Message(s.queue[0])) && out.result.Ok?
    ensures var k := RecoveryIndex(s.actor.buffer, Points(s.queue[0].invalidation));
            var e, s' := out.result.value, DoPump(w, s).live.value;
            && (k < 0 ==> s.actor.buffer == [] && s'.actor.buffer == [] && e.lo == 0)
            && (0 <= k ==> && !SplitsRange(s.actor.buffer[k].ranges, s.queue[0].invalidation)
                           && e.lo == s.actor.buffer[k].id + 1
                           && s'.actor.buffer == Filter(s.actor.buffer, IdBelow(e.lo)))
            && e.Undo? && e.hi == SaturatingSub(e.id, 1) && e.id == s.actor.next
            && s'.queue == [s.queue[1]] && s'.previous == s.previous && s'.rewindDue == s.rewindDue
            && DoPump(w, s).history == w.history + [e]
  {
    assert s.queue[1..] == [s.queue[1]];
  }

  // ---- What the table should hold --------------------------------------------------------------------

  /** Some Undo of the history tells the consumer to delete this transaction. */
  ghost predicate Undone(h: seq<Event>, tx: TransactionId) {
    exists e :: e in h && e.Undo? && e.lo <= tx <= e.hi
  }

  function DataAt(h: seq<Event>, tx: TransactionId): Option<Batch> {
    if h == [] then None
    else if Last(h).Data? && Last(h).id == tx then Some(Last(h).batch)
    else DataAt(Front(h), tx)
  }

  /** The row a key must hold: its batch was emitted and no Undo covers it. */
  ghost function Expect(h: seq<Event>, k: Key): Option<Row> {
    if Undone(h, k.tx) then None
    else match DataAt(h, k.tx)
      case Some(batch) => if k.index < |batch| then Some(batch[k.index]) else None
      case None => None
  }

  /** One past the last watermark of a buffer: everything from here on is rewound after a crash. */
  function ResumeId(buffer: seq<Entry>): TransactionId {
    if buffer == [] then 0 else Last(buffer).id + 1
  }
}
