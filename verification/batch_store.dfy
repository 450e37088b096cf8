/** What every batch store promises, and the in-memory store. */
module BatchStores {
  import opened Types

  type Batches = map<TransactionId, Batch>

  /** `ids` lists the stored ids of an inclusive range, ascending. */
  ghost predicate IsRange(ids: seq<TransactionId>, m: Batches, lo: TransactionId, hi: TransactionId) {
    && (forall i, j :: 0 <= i < j < |ids| ==> ids[i] < ids[j])
    && (forall id :: id in ids <==> id in m && lo <= id <= hi)
  }

  /** The keys an ordered map holds in an inclusive range. */
  function RangeKeys(m: Batches, lo: TransactionId, hi: TransactionId): (ids: seq<TransactionId>)
    ensures IsRange(ids, m, lo, hi)
    decreases hi + 1 - lo
  {
    if lo > hi then []
    else
      var rest := RangeKeys(m, lo + 1, hi);
      assert forall j :: 0 <= j < |rest| ==> rest[j] in rest;
      if lo in m then [lo] + rest else rest
  }

  function Pruned(m: Batches, cutoff: TransactionId): Batches {
    map id | id in m && id > cutoff :: m[id]
  }

  function Fetch(m: Batches, id: TransactionId): Option<Batch> {
    if id in m then Some(m[id]) else None
  }

  lemma MemberIndex(ids: seq<TransactionId>, other: seq<TransactionId>)
    requires ids != [] && other != []
    requires forall i, j :: 0 <= i < j < |ids| ==> ids[i] < ids[j]
    requires forall i, j :: 0 <= i < j < |other| ==> other[i] < other[j]
    requires forall id :: id in ids <==> id in other
    ensures ids[0] == other[0] && forall id :: id in ids[1..] <==> id in other[1..]
  {
    assert ids[0] in other && other[0] in ids;
    assert forall id :: id in ids[1..] <==> id in ids && id != ids[0];
    assert forall id :: id in other[1..] <==> id in other && id != other[0];
  }

  lemma SameEmpty(ids: seq<TransactionId>, other: seq<TransactionId>)
    requires forall id :: id in ids <==> id in other
    ensures ids == [] <==> other == []
  {
    if ids != [] {
      assert ids[0] in other;
    }
    if other != [] {
      assert other[0] in ids;
    }
  }

  lemma {:induction false} AscendingUnique(ids: seq<TransactionId>, other: seq<TransactionId>)
    requires forall i, j :: 0 <= i < j < |ids| ==> ids[i] < ids[j]
    requires forall i, j :: 0 <= i < j < |other| ==> other[i] < other[j]
    requires forall id :: id in ids <==> id in other
    ensures ids == other
  {
    SameEmpty(ids, other);
    if ids == [] {
    } else {
      MemberIndex(ids, other);
      AscendingUnique(ids[1..], other[1..]);
      assert ids == [ids[0]] + ids[1..] && other == [other[0]] + other[1..];
    }
  }

  /** A range answer is determined by the contents: any two stores with equal contents agree. */
  lemma RangeUnique(ids: seq<TransactionId>, other: seq<TransactionId>, m: Batches, lo: TransactionId,
                    hi: TransactionId)
    requires IsRange(ids, m, lo, hi) && IsRange(other, m, lo, hi)
    ensures ids == other
  {
    AscendingUnique(ids, other);
  }

  class InMemoryBatchStore {
    var batches: Batches

    constructor ()
      ensures batches == map[]
    {
      batches := map[];
    }

    method Append(batch: Batch, id: TransactionId)
      modifies this
      ensures batches == old(batches)[id := batch]
    {
      batches := batches[id := batch];
    }

    /** The ordered map refuses a range whose start lies past its end. */
    method Seek(lo: TransactionId, hi: TransactionId) returns (ids: seq<TransactionId>)
      requires lo <= hi
      ensures IsRange(ids, batches, lo, hi)
    {
      ids := RangeKeys(batches, lo, hi);
    }

    method Load(id: TransactionId) returns (batch: Option<Batch>)
      ensures batch == Fetch(batches, id)
    {
      batch := if id in batches then Some(batches[id]) else None;
    }

    method Prune(cutoff: TransactionId)
      modifies this
      ensures batches == Pruned(old(batches), cutoff)
    {
      batches := map id | id in batches && id >= cutoff + 1 :: batches[id];
    }
  }
}
