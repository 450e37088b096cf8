/** A reachable run after which the consumer still holds a batch that was undone. */
module LostDelete {
  import opened Types
  import opened Protocol
  import opened Transactional
  import opened Recovery
  import opened CdcForwarding
  import opened Runs

  lemma {:induction false} FlowConcat(f: Pipe, a: seq<PipeStep>, b: seq<PipeStep>)
    ensures Flow(f, a + b) == Flow(Flow(f, a), b)
  {
    if b == [] {
      assert a + b == a;
    } else {
      assert Front(a + b) == a + Front(b);
      FlowConcat(f, a, Front(b));
    }
  }

  lemma FlowOne(f: Pipe, step: PipeStep)
    ensures Flow(f, [step]) == Go(f, step)
  {
    assert Front([step]) == [];
  }

  /** The server sends a response and the loop pulls the event. */
  function Pull(response: Response): seq<PipeStep> {
    [Stream(Receive(response))] + [Stream(Pump)]
  }

  const HANDLE_DATA: seq<PipeStep> := [PipeStep.Store] + [TakeInsert] + [Complete]

  /** The loop has nothing to do and nothing is committed. */
  ghost predicate Resting(f: Pipe, next: TransactionId, buffer: seq<Entry>, previous: seq<BlockRange>, h: seq<Event>) {
    && Streaming(next, buffer, previous, h, f.w)
    && f.w.live.value.inbox == [] && f.w.live.value.inserted == 0 && !f.w.live.value.recovering
  }

  /** The loop has pulled `e` and done nothing about it. */
  ghost predicate Pulling(f: Pipe, next: TransactionId, buffer: seq<Entry>, previous: seq<BlockRange>, h: seq<Event>,
                          e: Event) {
    && Streaming(next, buffer, previous, h, f.w)
    && f.w.live.value.inbox == [e] && f.w.live.value.inserted == 0 && !f.w.live.value.recovering
  }

  lemma PullShape(f: Pipe, response: Response)
    ensures Flow(f, Pull(response)) == Go(Go(f, Stream(Receive(response))), Stream(Pump))
  {
    FlowConcat(f, [Stream(Receive(response))], [Stream(Pump)]);
    FlowOne(f, Stream(Receive(response)));
    FlowOne(Go(f, Stream(Receive(response))), Stream(Pump));
  }

  /** A pulled response that invalidates nothing is one message, which the actor executes. */
  lemma PulledMessage(f: Pipe, s: Session, response: Response, m: ProtocolMessage)
    requires f.w.live == Some(s) && s.inbox == [] && s.queue == [] && !s.rewindDue
    requires Interpret(s.previous, response) == Ok([m]) && !m.ReorgMessage? && m.ranges == response.ranges
    ensures Flow(f, Pull(response)) ==
            f.(w := Emit(f.w, s.(previous := response.ranges),
                         Execute(Machine(s.actor, f.w.disk), Message(m))))
  {
    var s1 := s.(queue := [m]);
    PullShape(f, response);
    ReceiveOne(f.w, s, response, m);
    PumpOne(f.w.(live := Some(s1)), s1, m);
    assert s1.(queue := [], previous := m.ranges) == s.(previous := response.ranges);
  }

  lemma PullData(f: Pipe, response: Response, next: TransactionId, buffer: seq<Entry>, previous: seq<BlockRange>,
                 h: seq<Event>)
    requires Resting(f, next, buffer, previous, h) && !response.complete
    requires Validate(previous, response.ranges).Ok? && Invalidations(previous, response.ranges) == []
    ensures var f', e := Flow(f, Pull(response)), Data(next, response.batch, response.ranges);
            && Pulling(f', next + 1, buffer, response.ranges, h + [e], e)
            && f'.store == f.store && f'.held == f.held && f'.kept == f.kept
  {
    OneMessage(previous, response);
    PulledMessage(f, f.w.live.value, response, DataMessage(response.batch, response.ranges));
  }

  lemma PullWatermark(f: Pipe, response: Response, next: TransactionId, buffer: seq<Entry>, previous: seq<BlockRange>,
                      h: seq<Event>)
    requires Resting(f, next, buffer, previous, h) && response.complete
    requires Validate(previous, response.ranges).Ok? && Invalidations(previous, response.ranges) == []
    ensures var after := buffer + [Entry(next, response.ranges)];
            var f', e := Flow(f, Pull(response)), Watermark(next, response.ranges, PruningPoint(after, 0));
            && Pulling(f', next + 1, after, response.ranges, h + [e], e)
            && f'.store == f.store && f'.held == f.held && f'.kept == f.kept
  {
    OneMessage(previous, response);
    PulledMessage(f, f.w.live.value, response, WatermarkMessage(response.ranges));
  }

  lemma CompleteRests(f: Pipe, next: TransactionId, buffer: seq<Entry>, previous: seq<BlockRange>, h: seq<Event>,
                      e: Event)
    requires Pulling(f, next, buffer, previous, h, e) && !e.Undo? && Handled(f, e)
    ensures var f' := Go(f, Complete);
            && Resting(f', next, buffer, previous, h)
            && f'.store == f.store && f'.held == f.held && f'.kept == f.kept
  {
    assert [e][1..] == [];
  }

  lemma HandleData(f: Pipe, next: TransactionId, buffer: seq<Entry>, previous: seq<BlockRange>, h: seq<Event>, e: Event)
    requires Pulling(f, next, buffer, previous, h, e) && e.Data?
    ensures var f' := Flow(f, HANDLE_DATA);
            && Resting(f', next, buffer, previous, h)
            && f'.store == f.store[e.id := e.batch] && f'.held == f.held[e.id := e.batch] && f'.kept == f.kept
  {
    var a, b := Go(f, PipeStep.Store), Go(Go(f, PipeStep.Store), TakeInsert);
    FlowConcat(f, [PipeStep.Store] + [TakeInsert], [Complete]);
    FlowConcat(f, [PipeStep.Store], [TakeInsert]);
    FlowOne(f, PipeStep.Store);
    FlowOne(a, TakeInsert);
    FlowOne(b, Complete);
    CompleteRests(b, next, buffer, previous, h, e);
  }

  const INSERTING := [Stream(Restart(0))] + Pull(Response(ROWS, FIRST, false)) + HANDLE_DATA
  const CONFIRMING := INSERTING + Pull(Response([], FIRST, true)) + [Complete]
  const PRUNING := SECOND_PULLED + [PipeStep.Store]
  const LOST_DELETE :=
    PRUNING + [Stream(Crash)] + [Stream(Restart(0))] + [Stream(EmitRewind)] + [Complete]

  const PRUNED := Watermark(2, SECOND, Some(1))
  const REWOUND := Undo(3, RewindCause, 0, 2)

  lemma InsertingFlow()
    ensures var f := Flow(START, INSERTING);
            Resting(f, 1, [], FIRST, [INSERTED]) && f.store == map[0 := ROWS] && f.held == map[0 := ROWS]
  {
    RangesAccepted();
    var start := Go(START, Stream(Restart(0)));
    FlowOne(START, Stream(Restart(0)));
    FlowConcat(START, [Stream(Restart(0))], Pull(Response(ROWS, FIRST, false)));
    FlowConcat(START, [Stream(Restart(0))] + Pull(Response(ROWS, FIRST, false)), HANDLE_DATA);
    PullData(start, Response(ROWS, FIRST, false), 0, [], [], []);
    assert [] + [INSERTED] == [INSERTED];
    HandleData(Flow(start, Pull(Response(ROWS, FIRST, false))), 1, [], FIRST, [INSERTED], INSERTED);
  }

  lemma ConfirmingFlow()
    ensures var f := Flow(START, CONFIRMING);
            Resting(f, 2, [Entry(1, FIRST)], FIRST, [INSERTED, CONFIRMED]) && f.held == map[0 := ROWS]
  {
    InsertingFlow();
    RangesAccepted();
    PruneFirst();
    var f := Flow(START, INSERTING);
    FlowConcat(START, INSERTING, Pull(Response([], FIRST, true)));
    FlowConcat(START, INSERTING + Pull(Response([], FIRST, true)), [Complete]);
    PullWatermark(f, Response([], FIRST, true), 1, [], FIRST, [INSERTED]);
    assert [] + [Entry(1, FIRST)] == [Entry(1, FIRST)] && [INSERTED] + [CONFIRMED] == [INSERTED, CONFIRMED];
    var g := Flow(f, Pull(Response([], FIRST, true)));
    FlowOne(g, Complete);
    CompleteRests(g, 2, [Entry(1, FIRST)], FIRST, [INSERTED, CONFIRMED], CONFIRMED);
  }

  const SECOND_PULLED := CONFIRMING + Pull(Response([], SECOND, true))

  lemma SecondPulled()
    ensures var f := Flow(START, SECOND_PULLED);
            && Pulling(f, 3, [Entry(1, FIRST), Entry(2, SECOND)], SECOND, [INSERTED, CONFIRMED, PRUNED], PRUNED)
            && f.held == map[0 := ROWS]
  {
    ConfirmingFlow();
    RangesAccepted();
    PruneFirst();
    var f := Flow(START, CONFIRMING);
    FlowConcat(START, CONFIRMING, Pull(Response([], SECOND, true)));
    PullWatermark(f, Response([], SECOND, true), 2, [Entry(1, FIRST)], FIRST, [INSERTED, CONFIRMED]);
    assert [Entry(1, FIRST)] + [Entry(2, SECOND)] == [Entry(1, FIRST), Entry(2, SECOND)];
    assert [INSERTED, CONFIRMED] + [PRUNED] == [INSERTED, CONFIRMED, PRUNED];
  }

  lemma PruningFlow()
    ensures var f := Flow(START, PRUNING);
            && Streaming(3, [Entry(1, FIRST), Entry(2, SECOND)], SECOND, [INSERTED, CONFIRMED, PRUNED], f.w)
            && f.held == map[0 := ROWS] && 0 !in f.store
  {
    SecondPulled();
    FlowConcat(START, SECOND_PULLED, [PipeStep.Store]);
    FlowOne(Flow(START, SECOND_PULLED), PipeStep.Store);
  }

  /** Reopening after a crash with nothing committed rewinds everything. */
  lemma ReopenEmpty(w: World)
    requires Streaming(3, [Entry(1, FIRST), Entry(2, SECOND)], SECOND, [INSERTED, CONFIRMED, PRUNED], w)
    ensures var w' := Do(Do(Do(w, Crash), Restart(0)), EmitRewind);
            && w'.history == [INSERTED, CONFIRMED, PRUNED, REWOUND] && w'.live.Some?
            && w'.live.value.inbox == [REWOUND]
  {
    assert [INSERTED, CONFIRMED, PRUNED] + [REWOUND] == [INSERTED, CONFIRMED, PRUNED, REWOUND];
  }

  lemma ReopenPipe(f: Pipe)
    requires Streaming(3, [Entry(1, FIRST), Entry(2, SECOND)], SECOND, [INSERTED, CONFIRMED, PRUNED], f.w)
    requires f.held == map[0 := ROWS] && 0 !in f.store
    ensures var f' := Go(Go(Go(f, Stream(Crash)), Stream(Restart(0))), Stream(EmitRewind));
            && f'.w.history == [INSERTED, CONFIRMED, PRUNED, REWOUND] && f'.w.live.Some?
            && f'.w.live.value.inbox == [REWOUND] && f'.held == f.held && f'.store == f.store
  {
    ReopenEmpty(f.w);
  }

  /** With batch 0 pruned, the rewind finds nothing to delete. */
  lemma CompletePipe(f: Pipe)
    requires f.w.live.Some? && f.w.live.value.inbox == [REWOUND] && f.held == map[0 := ROWS] && 0 !in f.store
    ensures var f' := Go(f, Complete);
            Idle(f') && f'.w.history == f.w.history && f'.held == f.held
  {
    assert [REWOUND][1..] == [];
  }

  /**
   * A reachable run whose Delete is incomplete: the second watermark prunes batch 0 from the store, the process
   * crashes before that watermark is committed, and the rewind covers batch 0 again, which stays with the consumer.
   */
  lemma LostDeleteRun()
    ensures var f := Flow(START, LOST_DELETE);
            && Idle(f) && f.w.history == [INSERTED, CONFIRMED, PRUNED, REWOUND]
            && Undone(f.w.history, 0) && 0 in f.held && SomethingLeft(LOST_DELETE)
  {
    PruningFlow();
    var f := Flow(START, PRUNING);
    var a, b, c := PRUNING + [Stream(Crash)], PRUNING + [Stream(Crash)] + [Stream(Restart(0))],
                   PRUNING + [Stream(Crash)] + [Stream(Restart(0))] + [Stream(EmitRewind)];
    FlowConcat(START, PRUNING, [Stream(Crash)]);
    FlowOne(f, Stream(Crash));
    FlowConcat(START, a, [Stream(Restart(0))]);
    FlowOne(Flow(START, a), Stream(Restart(0)));
    FlowConcat(START, b, [Stream(EmitRewind)]);
    FlowOne(Flow(START, b), Stream(EmitRewind));
    FlowConcat(START, c, [Complete]);
    FlowOne(Flow(START, c), Complete);
    ReopenPipe(f);
    CompletePipe(Flow(START, c));
    var h := [INSERTED, CONFIRMED, PRUNED, REWOUND];
    assert h[3] in h;
    assert Undone(h, 0);
    ForwardingAcrossCrashes(LOST_DELETE);
  }
}
