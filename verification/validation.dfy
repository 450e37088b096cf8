/** Protocol invariants that every server response must meet (crates/client/src/validation.rs). */
module Validation {
  import opened Types

  datatype ValidationError =
    | InvalidPrevHash
    | MissingPrevHash(network: string, block: BlockNumber)
    | DuplicateNetwork(network: string)
    | NetworkCountChanged(expected: nat, actual: nat)
    | UnexpectedNetwork(network: string)
    | Gap(network: string, missingStart: BlockNumber, missingEnd: BlockNumber)
    | HashMismatchOnConsecutiveBlocks(network: string, expectedHash: BlockHash, actualPrevHash: BlockHash)
    | InvalidReorg(network: string)

  type Verdict = Result<(), ValidationError>

  /** The first range of a network, the source's `iter().find(..)`. */
  function FindRange(ranges: seq<BlockRange>, network: string): (r: Option<BlockRange>)
    ensures r.None? <==> network !in Networks(ranges)
    ensures r.Some? ==> r.value in ranges && r.value.network == network
  {
    if ranges == [] then None
    else if ranges[0].network == network then Some(ranges[0])
    else
      assert ranges == [ranges[0]] + ranges[1..];
      FindRange(ranges[1..], network)
  }

  lemma {:induction false} FindRangeUnique(ranges: seq<BlockRange>, r: BlockRange)
    requires DistinctNetworks(ranges) && r in ranges
    ensures FindRange(ranges, r.network) == Some(r)
  {
    if ranges[0] != r {
      var k :| 0 <= k < |ranges| && ranges[k] == r;
      assert ranges[1..][k - 1] == r;
      FindRangeUnique(ranges[1..], r);
    }
  }

  function ValidatePrevHash(incoming: BlockRange): (v: Verdict)
    ensures v.Ok? <==> (incoming.start == 0 <==> incoming.prevHash in {None, Some(ZERO_HASH)})
  {
    var isSet := incoming.prevHash.Some? && incoming.prevHash.value != ZERO_HASH;
    if incoming.start == 0 then
      if isSet then Err(InvalidPrevHash) else Ok(())
    else if !isSet then Err(MissingPrevHash(incoming.network, incoming.start))
    else Ok(())
  }

  function ValidatePrevHashes(incoming: seq<BlockRange>): (v: Verdict)
    ensures v.Ok? <==> forall r :: r in incoming ==> ValidatePrevHash(r).Ok?
  {
    if incoming == [] then Ok(())
    else
      assert incoming == [incoming[0]] + incoming[1..];
      var v := ValidatePrevHash(incoming[0]);
      if v.Err? then v else ValidatePrevHashes(incoming[1..])
  }

  /** The network of the first range that a later range repeats. */
  function FindDuplicate(ranges: seq<BlockRange>): (d: Option<string>)
    ensures d.None? <==> DistinctNetworks(ranges)
    ensures d.Some? ==> exists i, j :: 0 <= i < j < |ranges| && ranges[i].network == ranges[j].network == d.value
  {
    if ranges == [] then None
    else if exists j :: 0 < j < |ranges| && ranges[j].network == ranges[0].network then Some(ranges[0].network)
    else
      assert forall j :: 0 < j < |ranges| ==> ranges[j] == ranges[1..][j - 1];
      FindDuplicate(ranges[1..])
  }

  function FindUnexpected(previous: seq<BlockRange>, incoming: seq<BlockRange>): (u: Option<string>)
    ensures u.None? <==> Networks(incoming) <= Networks(previous)
    ensures u.Some? ==> u.value in Networks(incoming) && u.value !in Networks(previous)
  {
    if incoming == [] then None
    else
      assert incoming == [incoming[0]] + incoming[1..];
      if FindRange(previous, incoming[0].network).None? then
        assert incoming[0].network in Networks(incoming);
        Some(incoming[0].network)
      else FindUnexpected(previous, incoming[1..])
  }

  function ValidateNetworks(previous: seq<BlockRange>, incoming: seq<BlockRange>): Verdict {
    var duplicate := FindDuplicate(incoming);
    if duplicate.Some? then Err(DuplicateNetwork(duplicate.value))
    else if previous == [] then Ok(())
    else if |previous| != |incoming| then Err(NetworkCountChanged(|previous|, |incoming|))
    else
      var unexpected := FindUnexpected(previous, incoming);
      if unexpected.Some? then Err(UnexpectedNetwork(unexpected.value)) else Ok(())
  }

  function ValidateConsecutiveness(previous: seq<BlockRange>, incoming: seq<BlockRange>): (v: Verdict)
    ensures v.Ok? <==> forall r :: r in incoming ==> Follows(FindRange(previous, r.network), r)
  {
    if incoming == [] then Ok(())
    else
      assert incoming == [incoming[0]] + incoming[1..];
      var v := CheckPosition(FindRange(previous, incoming[0].network), incoming[0]);
      if v.Err? then v else ValidateConsecutiveness(previous, incoming[1..])
  }

  function CheckPosition(previous: Option<BlockRange>, incoming: BlockRange): (v: Verdict)
    ensures v.Ok? <==> Follows(previous, incoming)
  {
    match previous
    case None => Ok(())
    case Some(p) =>
      if incoming == p then Ok(())
      else if incoming.start > p.end + 1 then Err(Gap(incoming.network, p.end + 1, incoming.start - 1))
      else if incoming.start == p.end + 1 then
        if incoming.prevHash != Some(p.hash) then
          Err(HashMismatchOnConsecutiveBlocks(incoming.network, p.hash,
                                              if incoming.prevHash.Some? then incoming.prevHash.value else ZERO_HASH))
        else Ok(())
      else if incoming.prevHash == Some(p.hash) then Err(InvalidReorg(incoming.network))
      else Ok(())
  }

  /** `r` repeats `p`, extends it by one hash link, or jumps back onto a different chain. */
  ghost predicate Follows(p: Option<BlockRange>, r: BlockRange) {
    p.Some? ==> r == p.value || Extends(p.value, r) || JumpsBack(p.value, r)
  }

  ghost predicate Extends(p: BlockRange, r: BlockRange) {
    r.start == p.end + 1 && r.prevHash == Some(p.hash)
  }

  ghost predicate JumpsBack(p: BlockRange, r: BlockRange) {
    r != p && r.start <= p.end && r.prevHash != Some(p.hash)
  }

  lemma {:induction false} NetworkCount(ranges: seq<BlockRange>)
    requires DistinctNetworks(ranges)
    ensures |Networks(ranges)| == |ranges|
  {
    if ranges == [] {
    } else {
      NetworkCount(ranges[1..]);
      assert ranges == [ranges[0]] + ranges[1..];
      assert Networks(ranges) == {ranges[0].network} + Networks(ranges[1..]);
      assert ranges[0].network !in Networks(ranges[1..]);
    }
  }

  lemma SubsetOfEqualSize<T>(a: set<T>, b: set<T>)
    requires a <= b && |a| == |b|
    ensures a == b
  {
    assert b == a + (b - a);
  }

  /** Accepted responses keep the network set: the count and membership checks together are set equality. */
  lemma NetworksStayStable(previous: seq<BlockRange>, incoming: seq<BlockRange>)
    requires DistinctNetworks(previous)
    ensures ValidateNetworks(previous, incoming).Ok? <==>
            DistinctNetworks(incoming) && (previous == [] || Networks(incoming) == Networks(previous))
  {
    NetworkCount(previous);
    if DistinctNetworks(incoming) {
      NetworkCount(incoming);
      if Networks(incoming) <= Networks(previous) && |incoming| == |previous| {
        SubsetOfEqualSize(Networks(incoming), Networks(previous));
      }
    }
  }

  // ---- Which error -----------------------------------------------------------------------------------

  /** The range starts at block 0 exactly if it names no parent hash. */
  ghost predicate HashFits(r: BlockRange) {
    r.start == 0 <==> r.prevHash in {None, Some(ZERO_HASH)}
  }

  /** The error is that of the first range whose parent hash does not fit. */
  lemma {:induction false} FirstPrevHashError(incoming: seq<BlockRange>) returns (i: nat)
    requires ValidatePrevHashes(incoming).Err?
    ensures i < |incoming| && !HashFits(incoming[i])
    ensures ValidatePrevHashes(incoming).error ==
            if incoming[i].start == 0 then InvalidPrevHash
            else MissingPrevHash(incoming[i].network, incoming[i].start)
    ensures forall j :: 0 <= j < i ==> HashFits(incoming[j])
  {
    if !HashFits(incoming[0]) {
      i := 0;
    } else {
      var k := FirstPrevHashError(incoming[1..]);
      i := k + 1;
      assert forall j :: 0 < j < i ==> incoming[j] == incoming[1..][j - 1];
    }
  }

  /** Later ranges repeat the network of the one at `i`. */
  ghost predicate RepeatedLater(ranges: seq<BlockRange>, i: int) {
    0 <= i < |ranges| && exists j :: i < j < |ranges| && ranges[j].network == ranges[i].network
  }

  lemma RepeatedInRest(ranges: seq<BlockRange>, i: int)
    requires ranges != [] && 0 < i
    ensures RepeatedLater(ranges, i) <==> RepeatedLater(ranges[1..], i - 1)
  {
    var rest := ranges[1..];
    if RepeatedLater(ranges, i) {
      var j :| i < j < |ranges| && ranges[j].network == ranges[i].network;
      assert rest[j - 1].network == rest[i - 1].network;
    }
    if RepeatedLater(rest, i - 1) {
      var j :| i - 1 < j < |rest| && rest[j].network == rest[i - 1].network;
      assert ranges[j + 1].network == ranges[i].network;
    }
  }

  /** The duplicate reported is the network of the first range that is repeated later. */
  lemma {:induction false} FirstDuplicate(ranges: seq<BlockRange>) returns (i: nat)
    requires FindDuplicate(ranges).Some?
    ensures RepeatedLater(ranges, i) && FindDuplicate(ranges) == Some(ranges[i].network)
    ensures forall j :: 0 <= j < i ==> !RepeatedLater(ranges, j)
  {
    if RepeatedLater(ranges, 0) {
      i := 0;
    } else {
      var k := FirstDuplicate(ranges[1..]);
      i := k + 1;
      forall j | 0 < j <= i ensures RepeatedLater(ranges, j) <==> RepeatedLater(ranges[1..], j - 1) {
        RepeatedInRest(ranges, j);
      }
    }
  }

  /** The unexpected network reported is that of the first range on a new network. */
  lemma {:induction false} FirstUnexpected(previous: seq<BlockRange>, incoming: seq<BlockRange>) returns (i: nat)
    requires FindUnexpected(previous, incoming).Some?
    ensures i < |incoming| && FindUnexpected(previous, incoming) == Some(incoming[i].network)
    ensures incoming[i].network !in Networks(previous)
    ensures forall j :: 0 <= j < i ==> incoming[j].network in Networks(previous)
  {
    if FindRange(previous, incoming[0].network).None? {
      i := 0;
    } else {
      var k := FirstUnexpected(previous, incoming[1..]);
      i := k + 1;
      assert forall j :: 0 < j <= i ==> incoming[j] == incoming[1..][j - 1];
    }
  }

  /**
   * Which network error: a network repeated within the response comes before a changed count, and that before a network
   * not seen so far. The network named is that of the first such range.
   */
  lemma NetworkError(previous: seq<BlockRange>, incoming: seq<BlockRange>) returns (i: nat)
    requires ValidateNetworks(previous, incoming).Err?
    ensures var e := ValidateNetworks(previous, incoming).error;
            if !DistinctNetworks(incoming) then
              && RepeatedLater(incoming, i) && e == DuplicateNetwork(incoming[i].network)
              && forall j :: 0 <= j < i ==> !RepeatedLater(incoming, j)
            else if |previous| != |incoming| then e == NetworkCountChanged(|previous|, |incoming|)
            else
              && i < |incoming| && incoming[i].network !in Networks(previous)
              && e == UnexpectedNetwork(incoming[i].network)
              && forall j :: 0 <= j < i ==> incoming[j].network in Networks(previous)
    ensures DistinctNetworks(incoming) ==> previous != []
  {
    i := 0;
    if !DistinctNetworks(incoming) {
      i := FirstDuplicate(incoming);
    } else if |previous| == |incoming| {
      i := FirstUnexpected(previous, incoming);
    }
  }

  ghost predicate Within(lo: BlockNumber, b: int, hi: BlockNumber) {
    lo <= b <= hi
  }

  /** Why a range cannot follow another: a gap names exactly the blocks between them. */
  lemma PositionError(p: BlockRange, r: BlockRange)
    requires !Follows(Some(p), r)
    ensures CheckPosition(Some(p), r).Err?
    ensures var e := CheckPosition(Some(p), r).error;
            && (e.Gap? <==> p.end + 1 < r.start)
            && (e.HashMismatchOnConsecutiveBlocks? <==> r.start == p.end + 1)
            && (e.InvalidReorg? <==> r.start <= p.end)
            && (e.Gap? ==> e.network == r.network &&
                           forall b :: Within(e.missingStart, b, e.missingEnd) <==> p.end < b < r.start)
            && (e.HashMismatchOnConsecutiveBlocks? ==>
                  e.network == r.network && e.expectedHash == p.hash &&
                  e.actualPrevHash == (if r.prevHash.Some? then r.prevHash.value else ZERO_HASH))
            && (e.InvalidReorg? ==> e.network == r.network && r.prevHash == Some(p.hash))
  {
  }

  /** The error is that of the first range that does not follow its predecessor. */
  lemma {:induction false} FirstPositionError(previous: seq<BlockRange>, incoming: seq<BlockRange>) returns (i: nat)
    requires ValidateConsecutiveness(previous, incoming).Err?
    ensures i < |incoming| && !Follows(FindRange(previous, incoming[i].network), incoming[i])
    ensures ValidateConsecutiveness(previous, incoming) ==
            CheckPosition(FindRange(previous, incoming[i].network), incoming[i])
    ensures forall j :: 0 <= j < i ==> Follows(FindRange(previous, incoming[j].network), incoming[j])
  {
    if !Follows(FindRange(previous, incoming[0].network), incoming[0]) {
      i := 0;
    } else {
      var k := FirstPositionError(previous, incoming[1..]);
      i := k + 1;
      assert forall j :: 0 < j < i ==> incoming[j] == incoming[1..][j - 1];
    }
  }
}
