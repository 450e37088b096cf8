/** The stateless protocol stream: validation and reorg detection (crates/client/src/client.rs). */
module Protocol {
  import opened Types
  import opened Validation

  /** The invalidation an incoming range causes: only a backwards jump that is not a repeat. */
  function Invalidate(previous: seq<BlockRange>, incoming: BlockRange): Option<InvalidationRange> {
    match FindRange(previous, incoming.network)
    case None => None
    case Some(p) =>
      if incoming == p then None
      else if incoming.start < p.end + 1 then
        Some(InvalidationRange(incoming.network, incoming.start, Max(incoming.end, p.end)))
      else None
  }

  function Invalidations(previous: seq<BlockRange>, incoming: seq<BlockRange>): (inv: seq<InvalidationRange>)
    ensures forall v :: v in inv ==> exists r :: r in incoming && Invalidate(previous, r) == Some(v)
    ensures forall r :: r in incoming && Invalidate(previous, r).Some? ==> Invalidate(previous, r).value in inv
  {
    if incoming == [] then []
    else
      assert incoming == [incoming[0]] + incoming[1..];
      var rest := Invalidations(previous, incoming[1..]);
      match Invalidate(previous, incoming[0])
      case Some(v) => [v] + rest
      case None => rest
  }

  function Validate(previous: seq<BlockRange>, incoming: seq<BlockRange>): Verdict {
    var hashes := ValidatePrevHashes(incoming);
    if hashes.Err? then hashes
    else
      var networks := ValidateNetworks(previous, incoming);
      if networks.Err? then networks else ValidateConsecutiveness(previous, incoming)
  }

  /**
   * When a response is valid: parent hashes fit, networks are distinct and the same as before, and every range follows
   * its predecessor. Of several violations, hashes are reported first and positions last.
   */
  lemma ValidateExactly(previous: seq<BlockRange>, incoming: seq<BlockRange>)
    requires DistinctNetworks(previous)
    ensures var v := Validate(previous, incoming);
            var hashes := forall r :: r in incoming ==> HashFits(r);
            var networks := DistinctNetworks(incoming) && (previous == [] || Networks(incoming) == Networks(previous));
            var positions := forall r :: r in incoming ==> Follows(FindRange(previous, r.network), r);
            && (v.Ok? <==> hashes && networks && positions)
            && (!hashes ==> v == ValidatePrevHashes(incoming))
            && (hashes && !networks ==> v == ValidateNetworks(previous, incoming))
            && (hashes && networks && !positions ==> v == ValidateConsecutiveness(previous, incoming))
  {
    NetworksStayStable(previous, incoming);
    forall r | r in incoming ensures HashFits(r) <==> ValidatePrevHash(r).Ok? {
    }
  }

  /** The messages one response turns into: an optional Reorg, then a Watermark or Data message. */
  function Interpret(previous: seq<BlockRange>, response: Response): (r: Result<seq<ProtocolMessage>, ValidationError>)
    ensures r.Ok? ==> |r.value| in {1, 2} && !Last(r.value).ReorgMessage? && Last(r.value).ranges == response.ranges
  {
    var ranges := response.ranges;
    var verdict := Validate(previous, ranges);
    if verdict.Err? then Err(verdict.error)
    else
      var invalidation := Invalidations(previous, ranges);
      var reorg := if invalidation == [] then [] else [ReorgMessage(previous, ranges, invalidation)];
      Ok(reorg + [if response.complete then WatermarkMessage(ranges) else DataMessage(response.batch, ranges)])
  }

  /**
   * What a response turns into: an error exactly when it is invalid; a Reorg first exactly when some range of it
   * jumped back; and last a Watermark exactly when it is complete, otherwise its data.
   */
  lemma InterpretExactly(previous: seq<BlockRange>, response: Response)
    ensures var r := Interpret(previous, response);
            && (r.Ok? <==> Validate(previous, response.ranges).Ok?)
            && (r.Ok? ==>
                  && (|r.value| == 2 <==> exists x :: x in response.ranges && Invalidate(previous, x).Some?)
                  && (|r.value| == 2 ==>
                        r.value[0] == ReorgMessage(previous, response.ranges, Invalidations(previous, response.ranges)))
                  && (Last(r.value).WatermarkMessage? <==> response.complete)
                  && (!response.complete ==> Last(r.value).batch == response.batch)
                  && Last(r.value).ranges == response.ranges)
  {
    var invalidation := Invalidations(previous, response.ranges);
    if invalidation != [] {
      assert invalidation[0] in invalidation;
    }
  }

  class ProtocolStream {
    var previous: seq<BlockRange>

    constructor (previous: seq<BlockRange>)
      ensures this.previous == previous
    {
      this.previous := previous;
    }

    /** Turns one response into messages; an invalid response ends the stream and leaves it as it was. */
    method Next(response: Response) returns (r: Result<seq<ProtocolMessage>, ValidationError>)
      modifies this
      ensures r == Interpret(old(previous), response)
      ensures previous == if r.Ok? then response.ranges else old(previous)
    {
      var ranges := response.ranges;
      var verdict := ValidatePrevHashes(ranges);
      if verdict.Err? {
        return Err(verdict.error);
      }
      verdict := ValidateNetworks(previous, ranges);
      if verdict.Err? {
        return Err(verdict.error);
      }
      verdict := ValidateConsecutiveness(previous, ranges);
      if verdict.Err? {
        return Err(verdict.error);
      }
      var messages: seq<ProtocolMessage> := [];
      var invalidation := Invalidations(previous, ranges);
      if invalidation != [] {
        messages := [ReorgMessage(previous, ranges, invalidation)];
      }
      if response.complete {
        messages := messages + [WatermarkMessage(ranges)];
      } else {
        messages := messages + [DataMessage(response.batch, ranges)];
      }
      previous := ranges;
      return Ok(messages);
    }
  }

  function FindInvalidation(invalidation: seq<InvalidationRange>, network: string): (r: Option<InvalidationRange>)
    ensures r.None? <==> forall v :: v in invalidation ==> v.network != network
    ensures r.Some? ==> r.value in invalidation && r.value.network == network
  {
    if invalidation == [] then None
    else if invalidation[0].network == network then Some(invalidation[0])
    else
      assert invalidation == [invalidation[0]] + invalidation[1..];
      FindInvalidation(invalidation[1..], network)
  }

  /** `InvalidationRange::invalidates`: same network and at least one common block. */
  predicate Invalidates(v: InvalidationRange, r: BlockRange) {
    v.network == r.network && !(v.end < r.start || r.end < v.start)
  }

  /** With one range per network, the invalidation of a network is that of its incoming range. */
  lemma InvalidationOf(previous: seq<BlockRange>, incoming: seq<BlockRange>, r: BlockRange)
    requires DistinctNetworks(incoming) && r in incoming
    ensures FindInvalidation(Invalidations(previous, incoming), r.network) == Invalidate(previous, r)
  {
    var inv := Invalidations(previous, incoming);
    var found := FindInvalidation(inv, r.network);
    if found.Some? {
      var q :| q in incoming && Invalidate(previous, q) == Some(found.value);
      FindRangeUnique(incoming, q);
      FindRangeUnique(incoming, r);
    }
  }

  /**
   * The blocks a reorg replaces overlap the range that was current, so no Reorg names an untouched network. They reach
   * from the start of the incoming range to the larger of the two ends.
   */
  lemma InvalidationHitsPrevious(previous: seq<BlockRange>, incoming: seq<BlockRange>, v: InvalidationRange)
    requires Validate(previous, incoming).Ok? && v in Invalidations(previous, incoming)
    requires forall r :: r in previous + incoming ==> r.start <= r.end
    ensures exists p, r ::
              && p in previous && Invalidates(v, p) && v.start <= p.end <= v.end
              && r in incoming && Invalidates(v, r) && v.start == r.start && r.end <= v.end
              && JumpsBack(p, r) && v.end in {p.end, r.end}
  {
    var r :| r in incoming && Invalidate(previous, r) == Some(v);
    var p := FindRange(previous, r.network).value;
    assert p in previous + incoming && r in previous + incoming;
    assert v.start <= p.end <= v.end && Max(r.end, p.end) == v.end;
    assert Invalidates(v, p) && Invalidates(v, r) && JumpsBack(p, r);
  }

  // ---- What a consumer of the message stream holds --------------------------------------------------

  ghost function Interval(lo: nat, hi: nat): set<nat> {
    set b: nat | lo <= b <= hi && Within(lo, b, hi)
  }

  /** Drop the blocks from the reorg point on, then add the blocks of each data or watermark message. */
  ghost function Absorb(held: set<nat>, network: string, m: ProtocolMessage): set<nat> {
    match m
    case ReorgMessage(_, _, invalidation) =>
      (match FindInvalidation(invalidation, network)
       case Some(v) => set b | b in held && b < v.start
       case None => held)
    case _ =>
      (match FindRange(m.ranges, network)
       case Some(r) => held + Interval(r.start, r.end)
       case None => held)
  }

  ghost function AbsorbAll(held: set<nat>, network: string, messages: seq<ProtocolMessage>): set<nat>
    decreases messages
  {
    if messages == [] then held
    else AbsorbAll(Absorb(held, network, messages[0]), network, messages[1..])
  }

  ghost predicate WellFormed(response: Response) {
    forall r :: r in response.ranges ==> r.start <= r.end
  }

  ghost function PreviousAfter(responses: seq<Response>): seq<BlockRange> {
    if responses == [] then [] else Last(responses).ranges
  }

  /** Every response of the run is accepted when it arrives, starting from a fresh stream. */
  ghost predicate Accepted(responses: seq<Response>) {
    responses == [] ||
    (Accepted(Front(responses)) && WellFormed(Last(responses)) &&
     Interpret(PreviousAfter(Front(responses)), Last(responses)).Ok?)
  }

  ghost function Held(responses: seq<Response>, network: string): set<nat>
    requires Accepted(responses)
  {
    if responses == [] then {}
    else AbsorbAll(Held(Front(responses), network), network,
                   Interpret(PreviousAfter(Front(responses)), Last(responses)).value)
  }

  lemma {:induction false} PreviousDistinct(responses: seq<Response>)
    requires Accepted(responses)
    ensures DistinctNetworks(PreviousAfter(responses))
  {
    if responses == [] {
    } else {
      PreviousDistinct(Front(responses));
      NetworksStayStable(PreviousAfter(Front(responses)), Last(responses).ranges);
    }
  }

  /** What one response does to the blocks of a network, reorg first. */
  lemma AbsorbOne(held: set<nat>, network: string, previous: seq<BlockRange>, response: Response)
    requires Interpret(previous, response).Ok?
    ensures var inv := FindInvalidation(Invalidations(previous, response.ranges), network);
            var kept := if inv.Some? then set b | b in held && b < inv.value.start else held;
            var r := FindRange(response.ranges, network);
            AbsorbAll(held, network, Interpret(previous, response).value) ==
            if r.Some? then kept + Interval(r.value.start, r.value.end) else kept
  {
    var messages := Interpret(previous, response).value;
    if |messages| == 2 {
      var kept := Absorb(held, network, messages[0]);
      assert messages[1..] == [messages[1]] && messages[1..][1..] == [];
      assert AbsorbAll(kept, network, messages[1..]) == Absorb(kept, network, messages[1]);
    } else {
      assert messages[1..] == [];
    }
  }

  /** Dropping the blocks a range replaces and adding its own leaves one interval. */
  lemma MoveInterval(lo: nat, p: BlockRange, r: BlockRange)
    requires lo <= p.start <= p.end && r.start <= r.end && r.start <= p.end + 1
    ensures var first := if lo <= r.start then lo else r.start;
            Interval(first, r.end) == (set b | b in Interval(lo, p.end) && b < r.start) + Interval(r.start, r.end)
    ensures r.start == p.end + 1 || r == p ==> Interval(lo, p.end) + Interval(r.start, r.end) == Interval(lo, r.end)
  {
  }

  /** One accepted response turns an interval ending at the previous end into one ending at the new end. */
  lemma AbsorbResponse(held: set<nat>, previous: seq<BlockRange>, response: Response, r: BlockRange, lo: nat)
    requires Interpret(previous, response).Ok? && WellFormed(response)
    requires DistinctNetworks(response.ranges) && r in response.ranges
    requires var p := FindRange(previous, r.network);
             if p.None? then held == {} else lo <= p.value.start <= p.value.end && held == Interval(lo, p.value.end)
    ensures var after := AbsorbAll(held, r.network, Interpret(previous, response).value);
            exists first: nat :: first <= r.start && after == Interval(first, r.end)
  {
    FindRangeUnique(response.ranges, r);
    InvalidationOf(previous, response.ranges, r);
    AbsorbOne(held, r.network, previous, response);
    var p := FindRange(previous, r.network);
    assert Follows(p, r);
    if p.Some? {
      MoveInterval(lo, p.value, r);
    }
  }

  /** A network the stream has not delivered holds nothing. */
  lemma {:induction false} HeldOutside(responses: seq<Response>, network: string)
    requires Accepted(responses) && network !in Networks(PreviousAfter(responses))
    ensures Held(responses, network) == {}
  {
    if responses == [] {
    } else {
      var previous := PreviousAfter(Front(responses));
      PreviousDistinct(Front(responses));
      NetworksStayStable(previous, Last(responses).ranges);
      HeldOutside(Front(responses), network);
      AbsorbOne({}, network, previous, Last(responses));
    }
  }

  /** After every accepted run, each network's blocks form one interval that ends where the last range ends. */
  lemma {:induction false} CoverageIsContiguous(responses: seq<Response>, r: BlockRange)
    requires responses != [] && Accepted(responses) && r in Last(responses).ranges
    ensures exists first: nat :: first <= r.start && Held(responses, r.network) == Interval(first, r.end)
  {
    var before := Front(responses);
    var previous := PreviousAfter(before);
    PreviousDistinct(responses);
    var lo := 0;
    var p := FindRange(previous, r.network);
    if p.Some? {
      CoverageIsContiguous(before, p.value);
      lo :| 0 <= lo <= p.value.start && Held(before, r.network) == Interval(lo, p.value.end);
    } else {
      HeldOutside(before, r.network);
    }
    AbsorbResponse(Held(before, r.network), previous, Last(responses), r, lo);
  }

  lemma Linked(previous: seq<BlockRange>, response: Response, r: BlockRange)
    requires Interpret(previous, response).Ok? && DistinctNetworks(previous) && previous != [] && r in response.ranges
    requires Invalidations(previous, response.ranges) == []
    ensures var p := FindRange(previous, r.network);
            p.Some? && p.value in previous && p.value.network == r.network && (r == p.value || Extends(p.value, r))
  {
    NetworksStayStable(previous, response.ranges);
    assert r.network in Networks(response.ranges);
    assert Follows(FindRange(previous, r.network), r) && Invalidate(previous, r).None?;
  }

  lemma LastLinked(responses: seq<Response>, r: BlockRange)
    requires Accepted(responses) && |responses| > 1 && r in Last(responses).ranges
    requires var previous := Last(Front(responses)).ranges;
             previous != [] && Invalidations(previous, Last(responses).ranges) == []
    ensures exists p :: p in Last(Front(responses)).ranges && p.network == r.network && (r == p || Extends(p, r))
  {
    PreviousDistinct(Front(responses));
    Linked(PreviousAfter(Front(responses)), Last(responses), r);
  }

  /** Between reorgs the accepted ranges of a network repeat or are linked parent hash to hash. */
  lemma {:induction false} HashChain(responses: seq<Response>, k: nat, r: BlockRange)
    requires Accepted(responses) && 0 < k < |responses| && r in responses[k].ranges
    requires responses[k - 1].ranges != []
    requires Invalidations(responses[k - 1].ranges, responses[k].ranges) == []
    ensures exists p :: p in responses[k - 1].ranges && p.network == r.network && (r == p || Extends(p, r))
  {
    var before := Front(responses);
    assert before[k - 1] == responses[k - 1];
    if k < |responses| - 1 {
      HashChain(before, k, r);
    } else {
      assert Last(before) == responses[k - 1];
      LastLinked(responses, r);
    }
  }
}
