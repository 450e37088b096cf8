/** Values shared by the client modules: block ranges, protocol messages and transaction events. */
module Types {

  datatype Option<+T> = None | Some(value: T)

  datatype Result<+T, +E> = Ok(value: T) | Err(error: E)

  // Ids and block numbers are unsigned 64-bit in the source and are assumed to stay below the maximum.
  type TransactionId = nat
  type BlockNumber = nat
  type BlockHash = nat

  const ZERO_HASH: BlockHash := 0

  datatype BlockRange = BlockRange(
    network: string,
    start: BlockNumber,
    end: BlockNumber,
    hash: BlockHash,
    prevHash: Option<BlockHash>)

  datatype InvalidationRange = InvalidationRange(network: string, start: BlockNumber, end: BlockNumber)

  /** A row of user data; its content plays no part in the protocol. */
  datatype Row = Row(payload: seq<int>)

  type Batch = seq<Row>

  datatype Response = Response(batch: Batch, ranges: seq<BlockRange>, complete: bool)

  datatype ProtocolMessage =
    | DataMessage(batch: Batch, ranges: seq<BlockRange>)
    | ReorgMessage(previous: seq<BlockRange>, incoming: seq<BlockRange>, invalidation: seq<InvalidationRange>)
    | WatermarkMessage(ranges: seq<BlockRange>)

  datatype Action = Rewind | Message(message: ProtocolMessage)

  datatype Cause = ReorgCause(invalidation: seq<InvalidationRange>) | RewindCause

  datatype Event =
    | Data(id: TransactionId, batch: Batch, ranges: seq<BlockRange>)
    | Undo(id: TransactionId, cause: Cause, lo: TransactionId, hi: TransactionId)
    | Watermark(id: TransactionId, ranges: seq<BlockRange>, prune: Option<TransactionId>)

  /** A buffered watermark. */
  datatype Entry = Entry(id: TransactionId, ranges: seq<BlockRange>)

  /** A watermark whose persistence is still pending, with the pruning point computed when it was created. */
  datatype Pending = Pending(entry: Entry, prune: Option<TransactionId>)

  /** What a state store persists. */
  datatype Snapshot = Snapshot(next: TransactionId, buffer: seq<Entry>)

  datatype Commit = Commit(insert: seq<Entry>, prune: Option<TransactionId>)

  ghost function Networks(ranges: seq<BlockRange>): set<string> {
    set r | r in ranges :: r.network
  }

  ghost predicate DistinctNetworks(ranges: seq<BlockRange>) {
    forall i, j :: 0 <= i < j < |ranges| ==> ranges[i].network != ranges[j].network
  }

  function Last<T>(s: seq<T>): T
    requires s != []
  {
    s[|s| - 1]
  }

  function Front<T>(s: seq<T>): seq<T>
    requires s != []
  {
    s[..|s| - 1]
  }

  function Max(a: int, b: int): int {
    if a < b then b else a
  }
}

/** Order-preserving selection from a sequence, the meaning of the source's `retain`. */
module Sequences {

  function Filter<T>(s: seq<T>, keep: T -> bool): seq<T> {
    if s == [] then [] else (if keep(s[0]) then [s[0]] else []) + Filter(s[1..], keep)
  }

  function Map<S, T>(s: seq<S>, f: S -> T): (r: seq<T>)
    ensures |r| == |s|
    ensures forall i :: 0 <= i < |s| ==> r[i] == f(s[i])
  {
    if s == [] then [] else [f(s[0])] + Map(s[1..], f)
  }

  lemma SliceSplit<T>(u: seq<T>, i: nat, j: nat)
    requires i + j <= |u|
    ensures u[..i + j] == u[..i] + u[i..i + j]
    ensures u[i..][..j] == u[i..i + j]
    ensures u[i..][j..] == u[i + j..]
  {
  }

  lemma {:induction false} FilterConcat<T>(a: seq<T>, b: seq<T>, keep: T -> bool)
    ensures Filter(a + b, keep) == Filter(a, keep) + Filter(b, keep)
  {
    if a == [] {
      assert a + b == b;
    } else {
      var head := if keep(a[0]) then [a[0]] else [];
      calc {
        Filter(a + b, keep);
        { assert (a + b)[0] == a[0] && (a + b)[1..] == a[1..] + b; }
        head + Filter(a[1..] + b, keep);
        { FilterConcat(a[1..], b, keep); }
        head + (Filter(a[1..], keep) + Filter(b, keep));
        (head + Filter(a[1..], keep)) + Filter(b, keep);
      }
    }
  }

  lemma {:induction false} FilterMembers<T>(s: seq<T>, keep: T -> bool)
    ensures forall x :: x in Filter(s, keep) <==> x in s && keep(x)
  {
    if s == [] {
    } else {
      FilterMembers(s[1..], keep);
      assert s == [s[0]] + s[1..];
    }
  }

  lemma {:induction false} FilterAll<T>(s: seq<T>, keep: T -> bool)
    requires forall x :: x in s ==> keep(x)
    ensures Filter(s, keep) == s
  {
    if s == [] {
    } else {
      FilterAll(s[1..], keep);
    }
  }

  lemma {:induction false} FilterNone<T>(s: seq<T>, keep: T -> bool)
    requires forall x :: x in s ==> !keep(x)
    ensures Filter(s, keep) == []
  {
    if s == [] {
    } else {
      FilterNone(s[1..], keep);
    }
  }

  lemma {:induction false} FilterCompose<T>(s: seq<T>, f: T -> bool, g: T -> bool, both: T -> bool)
    requires forall x :: x in s ==> both(x) == (f(x) && g(x))
    ensures Filter(Filter(s, f), g) == Filter(s, both)
  {
    if s == [] {
    } else {
      FilterCompose(s[1..], f, g, both);
      FilterConcat(if f(s[0]) then [s[0]] else [], Filter(s[1..], f), g);
    }
  }

  lemma {:induction false} FilterMap<S, T>(s: seq<S>, f: S -> T, keepS: S -> bool, keepT: T -> bool)
    requires forall x :: x in s ==> keepS(x) == keepT(f(x))
    ensures Map(Filter(s, keepS), f) == Filter(Map(s, f), keepT)
  {
    if s == [] {
    } else {
      FilterMap(s[1..], f, keepS, keepT);
      assert Map(s, f)[1..] == Map(s[1..], f);
    }
  }
}
