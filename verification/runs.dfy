/** Concrete runs: the beginning that the counterexamples share. */
module Runs {
  import opened Types
  import opened Validation
  import opened Protocol
  import opened Transactional
  import opened Recovery

  lemma {:induction false} RunConcat(w: World, a: seq<Step>, b: seq<Step>)
    ensures Run(w, a + b) == Run(Run(w, a), b)
  {
    if b == [] {
      assert a + b == a;
    } else {
      assert Front(a + b) == a + Front(b);
      RunConcat(w, a, Front(b));
    }
  }

  /** The server sends one response and the actor handles its only message. */
  function Deliver(response: Response): seq<Step> {
    [Receive(response), Pump]
  }

  lemma RunDeliver(w: World, response: Response)
    ensures Run(w, Deliver(response)) == Do(Do(w, Receive(response)), Pump)
  {
    assert Run(w, Front([Receive(response)])) == w;
    assert Run(w, [Receive(response)]) == Do(w, Receive(response));
    assert Front(Deliver(response)) == [Receive(response)];
  }

  const FIRST := [BlockRange("eth", 0, 10, 7, None)]
  const SECOND := [BlockRange("eth", 11, 20, 8, Some(7))]
  const ROWS := [Row([1])]

  const INSERTED := Data(0, ROWS, FIRST)
  const CONFIRMED := Watermark(1, FIRST, None)

  lemma RangesAccepted()
    ensures Validate(FIRST, SECOND).Ok? && Invalidations(FIRST, SECOND) == []
    ensures Validate(FIRST, FIRST).Ok? && Invalidations(FIRST, FIRST) == []
    ensures Validate([], FIRST).Ok? && Invalidations([], FIRST) == []
  {
    assert FIRST[1..] == [] && SECOND[1..] == [];
    assert Networks(FIRST) == Networks(SECOND);
    NetworksStayStable(FIRST, SECOND);
    NetworksStayStable(FIRST, FIRST);
    NetworksStayStable([], FIRST);
  }

  lemma PruneFirst()
    ensures PruningPoint([Entry(1, FIRST)], 0) == None
    ensures PruningPoint([Entry(1, FIRST), Entry(2, SECOND)], 0) == Some(1)
  {
    var both := [Entry(1, FIRST), Entry(2, SECOND)];
    assert Front([Entry(1, FIRST)]) == [] && Front(both) == [Entry(1, FIRST)];
    assert Front(SECOND) == [];
    var cutoffs := Cutoffs(SECOND, 0);
    assert cutoffs == map["eth" := 11];
    assert Outside(FIRST, cutoffs);
    assert [Entry(1, FIRST)][1..] == [];
    assert OutsidePrefix([Entry(1, FIRST)], cutoffs) == 1;
  }

  /** A session with nothing committed and nothing queued, without retention. */
  ghost predicate Streaming(next: TransactionId, buffer: seq<Entry>, previous: seq<BlockRange>, h: seq<Event>,
                            w: World) {
    && w.disk == Snapshot(next, []) && w.history == h && w.live.Some?
    && var s := w.live.value;
       s.actor.next == next && s.actor.retention == 0 && s.actor.buffer == buffer &&
       s.previous == previous && s.queue == [] && !s.rewindDue
  }

  lemma OneMessage(previous: seq<BlockRange>, response: Response)
    requires Validate(previous, response.ranges).Ok? && Invalidations(previous, response.ranges) == []
    ensures var m := if response.complete then WatermarkMessage(response.ranges)
                     else DataMessage(response.batch, response.ranges);
            Interpret(previous, response) == Ok([m])
  {
    var m := if response.complete then WatermarkMessage(response.ranges)
             else DataMessage(response.batch, response.ranges);
    assert [] + [m] == [m];
  }

  lemma ReceiveOne(w: World, s: Session, response: Response, m: ProtocolMessage)
    requires w.live == Some(s) && s.queue == [] && !s.rewindDue && Interpret(s.previous, response) == Ok([m])
    ensures Do(w, Receive(response)) == w.(live := Some(s.(queue := [m])))
  {
  }

  lemma PumpOne(w: World, s: Session, m: ProtocolMessage)
    requires w.live == Some(s) && s.queue == [m] && !m.ReorgMessage?
    ensures Do(w, Pump) ==
            Emit(w, s.(queue := [], previous := m.ranges), Execute(Machine(s.actor, w.disk), Message(m)))
  {
    assert s.queue[1..] == [];
  }

  /** A response that invalidates nothing is one message, which the actor executes. */
  lemma DeliverOne(w: World, s: Session, response: Response, m: ProtocolMessage)
    requires w.live == Some(s) && s.queue == [] && !s.rewindDue
    requires Interpret(s.previous, response) == Ok([m]) && !m.ReorgMessage? && m.ranges == response.ranges
    ensures Run(w, Deliver(response)) ==
            Emit(w, s.(previous := response.ranges), Execute(Machine(s.actor, w.disk), Message(m)))
  {
    var s1 := s.(queue := [m]);
    RunDeliver(w, response);
    ReceiveOne(w, s, response, m);
    PumpOne(w.(live := Some(s1)), s1, m);
    assert s1.(queue := [], previous := m.ranges) == s.(previous := response.ranges);
  }

  lemma DeliverData(w: World, response: Response, next: TransactionId, buffer: seq<Entry>, previous: seq<BlockRange>,
                    h: seq<Event>)
    requires Streaming(next, buffer, previous, h, w) && !response.complete
    requires Validate(previous, response.ranges).Ok? && Invalidations(previous, response.ranges) == []
    ensures Streaming(next + 1, buffer, response.ranges, h + [Data(next, response.batch, response.ranges)],
                      Run(w, Deliver(response)))
  {
    OneMessage(previous, response);
    DeliverOne(w, w.live.value, response, DataMessage(response.batch, response.ranges));
  }

  lemma DeliverWatermark(w: World, response: Response, next: TransactionId, buffer: seq<Entry>,
                         previous: seq<BlockRange>, h: seq<Event>)
    requires Streaming(next, buffer, previous, h, w) && response.complete
    requires Validate(previous, response.ranges).Ok? && Invalidations(previous, response.ranges) == []
    ensures var after := buffer + [Entry(next, response.ranges)];
            Streaming(next + 1, after, response.ranges, h + [Watermark(next, response.ranges, PruningPoint(after, 0))],
                      Run(w, Deliver(response)))
  {
    OneMessage(previous, response);
    DeliverOne(w, w.live.value, response, WatermarkMessage(response.ranges));
  }

  lemma FirstOne()
    ensures Streaming(1, [], FIRST, [INSERTED], Run(INITIAL, [Restart(0)] + Deliver(Response(ROWS, FIRST, false))))
  {
    RangesAccepted();
    var a := [Restart(0)];
    assert Front(a) == [];
    assert Streaming(0, [], [], [], Run(INITIAL, a));
    RunConcat(INITIAL, a, Deliver(Response(ROWS, FIRST, false)));
    DeliverData(Run(INITIAL, a), Response(ROWS, FIRST, false), 0, [], [], []);
    assert [] + [INSERTED] == [INSERTED];
  }

  lemma FirstTwo()
    ensures Streaming(2, [Entry(1, FIRST)], FIRST, [INSERTED, CONFIRMED],
                      Run(INITIAL, [Restart(0)] + Deliver(Response(ROWS, FIRST, false)) +
                                   Deliver(Response([], FIRST, true))))
  {
    FirstOne();
    RangesAccepted();
    PruneFirst();
    var b := [Restart(0)] + Deliver(Response(ROWS, FIRST, false));
    RunConcat(INITIAL, b, Deliver(Response([], FIRST, true)));
    DeliverWatermark(Run(INITIAL, b), Response([], FIRST, true), 1, [], FIRST, [INSERTED]);
    assert [] + [Entry(1, FIRST)] == [Entry(1, FIRST)];
    assert [INSERTED] + [CONFIRMED] == [INSERTED, CONFIRMED];
  }
}
