/** The persistent batch store: big-endian keys in a byte-ordered database. */
module LmdbStore {
  import opened Types
  import opened BatchStores
  import opened Bytes

  type Key = seq<Byte>

  const KEY_LENGTH: nat := 8
  const ID_LIMIT: nat := 0x1_0000_0000_0000_0000

  datatype KeyError = InvalidTransactionIdKeyLength
  datatype Record = Record(key: Key, value: Batch)

  // ---- Keys ------------------------------------------------------------------------------------------

  function EncodeId(id: TransactionId): (k: Key)
    requires id < ID_LIMIT
    ensures |k| == KEY_LENGTH
  {
    BigEndian(id, KEY_LENGTH)
  }

  function DecodeId(k: Key): Result<TransactionId, KeyError> {
    if |k| == KEY_LENGTH then Ok(Value(k)) else Err(InvalidTransactionIdKeyLength)
  }

  /** Byte-wise order of keys, a proper prefix first. */
  predicate KeyLess(a: Key, b: Key) {
    b != [] && (a == [] || a[0] < b[0] || (a[0] == b[0] && KeyLess(a[1..], b[1..])))
  }

  lemma Limit()
    ensures Power256(KEY_LENGTH) == ID_LIMIT
  {
    assert Power256(2) == 0x1_0000;
    assert Power256(4) == 0x1_0000_0000;
    assert Power256(6) == 0x1_0000_0000_0000;
  }

  /** Decoding inverts encoding, and exactly the eight-byte keys are encodings. */
  lemma KeyRoundTrip(id: TransactionId, k: Key)
    requires id < ID_LIMIT
    ensures DecodeId(EncodeId(id)) == Ok(id)
    ensures DecodeId(k).Ok? <==> exists i: TransactionId :: i < ID_LIMIT && EncodeId(i) == k
    ensures DecodeId(k).Ok? ==> DecodeId(k).value < ID_LIMIT && EncodeId(DecodeId(k).value) == k
  {
    Limit();
    ValueOfBigEndian(id, KEY_LENGTH);
    if |k| == KEY_LENGTH {
      BigEndianOfValue(k);
      assert EncodeId(Value(k)) == k;
    }
  }

  lemma {:induction false} KeyLessSnoc(a: Key, b: Key, x: Byte, y: Byte)
    requires |a| == |b|
    ensures KeyLess(a + [x], b + [y]) <==> KeyLess(a, b) || (a == b && x < y)
  {
    if a == [] {
    } else {
      assert (a + [x])[1..] == a[1..] + [x] && (b + [y])[1..] == b[1..] + [y];
      KeyLessSnoc(a[1..], b[1..], x, y);
      assert a == [a[0]] + a[1..] && b == [b[0]] + b[1..];
    }
  }

  lemma {:induction false} BigEndianOrder(m: nat, n: nat, width: nat)
    requires m < Power256(width) && n < Power256(width)
    ensures KeyLess(BigEndian(m, width), BigEndian(n, width)) <==> m < n
  {
    if width > 0 {
      BigEndianOrder(m / 256, n / 256, width - 1);
      KeyLessSnoc(BigEndian(m / 256, width - 1), BigEndian(n / 256, width - 1), m % 256, n % 256);
      if m / 256 != n / 256 {
        ValueOfBigEndian(m / 256, width - 1);
        ValueOfBigEndian(n / 256, width - 1);
      }
    }
  }

  /** Byte order of keys is numeric order of ids. */
  lemma KeyOrder(m: TransactionId, n: TransactionId)
    requires m < ID_LIMIT && n < ID_LIMIT
    ensures KeyLess(EncodeId(m), EncodeId(n)) <==> m < n
  {
    Limit();
    BigEndianOrder(m, n, KEY_LENGTH);
  }

  lemma {:induction false} KeyLessTrans(a: Key, b: Key, c: Key)
    requires KeyLess(a, b) && KeyLess(b, c)
    ensures KeyLess(a, c)
  {
    if a != [] && a[0] == b[0] && b[0] == c[0] {
      KeyLessTrans(a[1..], b[1..], c[1..]);
    }
  }

  lemma {:induction false} KeyLessTotal(a: Key, b: Key)
    ensures KeyLess(a, b) || a == b || KeyLess(b, a)
    ensures !(KeyLess(a, b) && KeyLess(b, a)) && !KeyLess(a, a)
  {
    if a != [] && b != [] {
      KeyLessTotal(a[1..], b[1..]);
      assert a == [a[0]] + a[1..] && b == [b[0]] + b[1..];
    }
    if a == [] {
    } else {
      KeyLessTotal(a[1..], a[1..]);
    }
  }

  // ---- The database ----------------------------------------------------------------------------------

  /** The database iterates its records in strict byte order of their keys. */
  ghost predicate Ordered(db: seq<Record>) {
    forall i, j :: 0 <= i < j < |db| ==> KeyLess(db[i].key, db[j].key)
  }

  function Get(db: seq<Record>, key: Key): Option<Batch> {
    if db == [] then None else if db[0].key == key then Some(db[0].value) else Get(db[1..], key)
  }

  function Put(db: seq<Record>, key: Key, value: Batch): (after: seq<Record>)
    ensures after != []
  {
    if db == [] || KeyLess(key, db[0].key) then [Record(key, value)] + db
    else if db[0].key == key then [Record(key, value)] + db[1..]
    else [db[0]] + Put(db[1..], key, value)
  }

  function Remove(db: seq<Record>, key: Key): seq<Record> {
    if db == [] then [] else if db[0].key == key then db[1..] else [db[0]] + Remove(db[1..], key)
  }

  lemma {:induction false} GetRecord(db: seq<Record>, i: nat)
    requires Ordered(db) && i < |db|
    ensures Get(db, db[i].key) == Some(db[i].value)
  {
    if i > 0 {
      KeyLessTotal(db[0].key, db[i].key);
      assert db[1..][i - 1] == db[i];
      GetRecord(db[1..], i - 1);
    }
  }

  lemma {:induction false} GetMissing(db: seq<Record>, key: Key)
    requires forall i :: 0 <= i < |db| ==> db[i].key != key
    ensures Get(db, key) == None
  {
    if db == [] {
    } else {
      GetMissing(db[1..], key);
    }
  }

  lemma {:induction false} GetFound(db: seq<Record>, key: Key) returns (i: nat)
    requires Get(db, key).Some?
    ensures i < |db| && db[i] == Record(key, Get(db, key).value)
  {
    if db[0].key == key {
      i := 0;
    } else {
      i := GetFound(db[1..], key);
      i := i + 1;
    }
  }

  lemma FirstIsSmallest(db: seq<Record>, key: Key)
    requires Ordered(db) && (db == [] || KeyLess(key, db[0].key))
    ensures forall i :: 0 <= i < |db| ==> KeyLess(key, db[i].key)
  {
    forall i | 0 < i < |db| ensures KeyLess(key, db[i].key) {
      KeyLessTrans(key, db[0].key, db[i].key);
    }
  }

  lemma {:induction false} PutGet(db: seq<Record>, key: Key, value: Batch, other: Key)
    requires Ordered(db)
    ensures Get(Put(db, key, value), other) == if other == key then Some(value) else Get(db, other)
  {
    var after := Put(db, key, value);
    if db == [] || KeyLess(key, db[0].key) {
      assert after[1..] == db;
    } else if db[0].key != key {
      PutGet(db[1..], key, value, other);
      assert after[1..] == Put(db[1..], key, value);
    }
  }

  /** Every key of the result is the new one or an old one. */
  lemma {:induction false} PutKeys(db: seq<Record>, key: Key, value: Batch, i: nat)
    requires i < |Put(db, key, value)|
    ensures Put(db, key, value)[i].key == key || exists j :: 0 <= j < |db| && db[j].key == Put(db, key, value)[i].key
  {
    var after := Put(db, key, value);
    if db != [] && !KeyLess(key, db[0].key) && db[0].key != key {
      if i > 0 {
        PutKeys(db[1..], key, value, i - 1);
        if after[i].key != key {
          var j :| 0 <= j < |db[1..]| && db[1..][j].key == after[i].key;
          assert db[j + 1].key == after[i].key;
        }
      }
    }
  }

  lemma {:induction false} PutOrdered(db: seq<Record>, key: Key, value: Batch)
    requires Ordered(db)
    ensures Ordered(Put(db, key, value))
  {
    var after := Put(db, key, value);
    if db == [] || KeyLess(key, db[0].key) {
      FirstIsSmallest(db, key);
    } else if db[0].key != key {
      KeyLessTotal(key, db[0].key);
      PutOrdered(db[1..], key, value);
      var rest := Put(db[1..], key, value);
      forall j | 0 <= j < |rest| ensures KeyLess(db[0].key, rest[j].key) {
        PutKeys(db[1..], key, value, j);
      }
      PrependOrdered(db[0], rest);
    }
  }

  lemma PrependOrdered(r: Record, db: seq<Record>)
    requires Ordered(db) && forall j :: 0 <= j < |db| ==> KeyLess(r.key, db[j].key)
    ensures Ordered([r] + db)
  {
  }

  // ---- Scans -----------------------------------------------------------------------------------------

  ghost predicate Inside(k: Key, start: Key, end: Key) {
    !KeyLess(k, start) && !KeyLess(end, k)
  }

  /** Some record among the first `n` holds this id. */
  ghost predicate Holds(db: seq<Record>, n: nat, id: TransactionId)
    requires n <= |db|
  {
    id < ID_LIMIT && exists j :: 0 <= j < n && db[j].key == EncodeId(id)
  }

  lemma InsideIsBetween(id: TransactionId, lo: TransactionId, hi: TransactionId)
    requires id < ID_LIMIT && lo < ID_LIMIT && hi < ID_LIMIT
    ensures Inside(EncodeId(id), EncodeId(lo), EncodeId(hi)) <==> lo <= id <= hi
  {
    KeyOrder(id, lo);
    KeyOrder(hi, id);
  }

  /** What the ids collected from the first `n` records are. */
  ghost predicate Collected(ids: seq<TransactionId>, db: seq<Record>, n: nat, lo: TransactionId, hi: TransactionId)
    requires n <= |db|
  {
    && (forall i, j :: 0 <= i < j < |ids| ==> ids[i] < ids[j])
    && (forall id: TransactionId :: id in ids <==> lo <= id <= hi && Holds(db, n, id))
  }

  lemma HoldsNext(db: seq<Record>, n: nat, id: TransactionId)
    requires n < |db|
    ensures Holds(db, n + 1, id) <==> Holds(db, n, id) || (id < ID_LIMIT && db[n].key == EncodeId(id))
  {
  }

  lemma CollectSkip(ids: seq<TransactionId>, db: seq<Record>, n: nat, lo: TransactionId, hi: TransactionId)
    requires n < |db| && lo < ID_LIMIT && hi < ID_LIMIT && Collected(ids, db, n, lo, hi)
    requires !Inside(db[n].key, EncodeId(lo), EncodeId(hi))
    ensures Collected(ids, db, n + 1, lo, hi)
  {
    forall id: TransactionId ensures id in ids <==> lo <= id <= hi && Holds(db, n + 1, id) {
      HoldsNext(db, n, id);
      if id < ID_LIMIT {
        InsideIsBetween(id, lo, hi);
      }
    }
  }

  lemma CollectNext(ids: seq<TransactionId>, db: seq<Record>, n: nat, lo: TransactionId, hi: TransactionId)
    requires Ordered(db) && n < |db| && lo < ID_LIMIT && hi < ID_LIMIT && Collected(ids, db, n, lo, hi)
    requires Inside(db[n].key, EncodeId(lo), EncodeId(hi)) && |db[n].key| == KEY_LENGTH
    ensures Collected(ids + [Value(db[n].key)], db, n + 1, lo, hi)
  {
    var next := Value(db[n].key);
    KeyRoundTrip(0, db[n].key);
    InsideIsBetween(next, lo, hi);
    forall id: TransactionId ensures id in ids + [next] <==> lo <= id <= hi && Holds(db, n + 1, id) {
      HoldsNext(db, n, id);
      if id < ID_LIMIT && db[n].key == EncodeId(id) {
        KeyRoundTrip(id, db[n].key);
      }
    }
    forall i | 0 <= i < |ids| ensures ids[i] < next {
      assert ids[i] in ids;
      var j :| 0 <= j < n && db[j].key == EncodeId(ids[i]);
      KeyOrder(ids[i], next);
    }
  }

  /** Past the first key beyond the range, no further key lies in it. */
  lemma CollectDone(ids: seq<TransactionId>, db: seq<Record>, n: nat, lo: TransactionId, hi: TransactionId)
    requires Ordered(db) && n < |db| && lo < ID_LIMIT && hi < ID_LIMIT && Collected(ids, db, n, lo, hi)
    requires KeyLess(EncodeId(hi), db[n].key)
    ensures Collected(ids, db, |db|, lo, hi)
    ensures forall j :: n <= j < |db| ==> !Inside(db[j].key, EncodeId(lo), EncodeId(hi))
  {
    forall j | n <= j < |db| ensures KeyLess(EncodeId(hi), db[j].key) {
      if n < j {
        KeyLessTrans(EncodeId(hi), db[n].key, db[j].key);
      }
    }
    forall id: TransactionId ensures id in ids <==> lo <= id <= hi && Holds(db, |db|, id) {
      if lo <= id <= hi && Holds(db, |db|, id) {
        InsideIsBetween(id, lo, hi);
      }
    }
  }

  /** The scan with early exit lists exactly the ids in range, or fails on a malformed key in range. */
  method SeekIds(db: seq<Record>, lo: TransactionId, hi: TransactionId)
    returns (r: Result<seq<TransactionId>, KeyError>)
    requires Ordered(db) && lo < ID_LIMIT && hi < ID_LIMIT
    ensures r.Err? <==> exists j :: 0 <= j < |db| && Inside(db[j].key, EncodeId(lo), EncodeId(hi)) &&
                                    |db[j].key| != KEY_LENGTH
    ensures r.Ok? ==> Collected(r.value, db, |db|, lo, hi)
  {
    var start, end := EncodeId(lo), EncodeId(hi);
    var ids := [];
    for n := 0 to |db|
      invariant Collected(ids, db, n, lo, hi)
      invariant forall j :: 0 <= j < n && Inside(db[j].key, start, end) ==> |db[j].key| == KEY_LENGTH
    {
      var key := db[n].key;
      if KeyLess(key, start) {
        CollectSkip(ids, db, n, lo, hi);
        continue;
      }
      if KeyLess(end, key) {
        CollectDone(ids, db, n, lo, hi);
        return Ok(ids);
      }
      var id := DecodeId(key);
      if id.Err? {
        return Err(id.error);
      }
      CollectNext(ids, db, n, lo, hi);
      ids := ids + [id.value];
    }
    r := Ok(ids);
  }

  /** The keys at or below a bound are a prefix of the database. */
  method CollectKeys(db: seq<Record>, bound: Key) returns (keys: seq<Key>)
    requires Ordered(db)
    ensures |keys| <= |db| && forall i :: 0 <= i < |keys| ==> keys[i] == db[i].key && !KeyLess(bound, keys[i])
    ensures forall i :: |keys| <= i < |db| ==> KeyLess(bound, db[i].key)
  {
    keys := [];
    for n := 0 to |db|
      invariant |keys| == n
      invariant forall i :: 0 <= i < n ==> keys[i] == db[i].key && !KeyLess(bound, keys[i])
    {
      if KeyLess(bound, db[n].key) {
        forall i | n < i < |db| ensures KeyLess(bound, db[i].key) {
          KeyLessTrans(bound, db[n].key, db[i].key);
        }
        return;
      }
      keys := keys + [db[n].key];
    }
  }

  /** The database holds exactly these batches under their encoded ids. */
  ghost predicate Represents(db: seq<Record>, m: Batches) {
    && Ordered(db)
    && (forall i :: 0 <= i < |db| ==> |db[i].key| == KEY_LENGTH)
    && (forall id :: id in m ==> id < ID_LIMIT)
    && (forall id: TransactionId :: id < ID_LIMIT ==> Get(db, EncodeId(id)) == Fetch(m, id))
  }

  lemma RepresentsPut(db: seq<Record>, m: Batches, id: TransactionId, batch: Batch)
    requires Represents(db, m) && id < ID_LIMIT
    ensures Represents(Put(db, EncodeId(id), batch), m[id := batch])
  {
    var after := Put(db, EncodeId(id), batch);
    PutOrdered(db, EncodeId(id), batch);
    forall i | 0 <= i < |after| ensures |after[i].key| == KEY_LENGTH {
      PutKeys(db, EncodeId(id), batch, i);
    }
    forall other: TransactionId | other < ID_LIMIT ensures Get(after, EncodeId(other)) == Fetch(m[id := batch], other) {
      PutGet(db, EncodeId(id), batch, EncodeId(other));
      KeyRoundTrip(id, []);
      KeyRoundTrip(other, []);
    }
  }

  /** On a database of encoded ids a complete scan is the range of the contents. */
  lemma CollectedIsRange(ids: seq<TransactionId>, db: seq<Record>, m: Batches, lo: TransactionId, hi: TransactionId)
    requires Represents(db, m) && Collected(ids, db, |db|, lo, hi)
    ensures IsRange(ids, m, lo, hi)
  {
    forall id: TransactionId ensures Holds(db, |db|, id) <==> id in m {
      if id < ID_LIMIT {
        if id in m {
          var i := GetFound(db, EncodeId(id));
        }
        if Holds(db, |db|, id) {
          var j :| 0 <= j < |db| && db[j].key == EncodeId(id);
          GetRecord(db, j);
        }
      }
    }
  }

  lemma RepresentsSuffix(db: seq<Record>, m: Batches, n: nat, cutoff: TransactionId)
    requires Represents(db, m) && n <= |db| && cutoff < ID_LIMIT
    requires forall i :: 0 <= i < n ==> !KeyLess(EncodeId(cutoff), db[i].key)
    requires forall i :: n <= i < |db| ==> KeyLess(EncodeId(cutoff), db[i].key)
    ensures Represents(db[n..], Pruned(m, cutoff))
  {
    forall id: TransactionId | id < ID_LIMIT ensures Get(db[n..], EncodeId(id)) == Fetch(Pruned(m, cutoff), id) {
      KeyOrder(cutoff, id);
      if Get(db, EncodeId(id)).Some? {
        var i := GetFound(db, EncodeId(id));
        if n <= i {
          assert db[n..][i - n] == db[i];
          GetRecord(db[n..], i - n);
        } else {
          MissingAfter(db, n, i);
        }
      } else if Get(db[n..], EncodeId(id)).Some? {
        var i := GetFound(db[n..], EncodeId(id));
        GetRecord(db, n + i);
      }
    }
  }

  lemma MissingAfter(db: seq<Record>, n: nat, i: nat)
    requires Ordered(db) && i < n <= |db|
    ensures Get(db[n..], db[i].key) == None
  {
    forall j | 0 <= j < |db[n..]| ensures db[n..][j].key != db[i].key {
      KeyLessTotal(db[i].key, db[n + j].key);
    }
    GetMissing(db[n..], db[i].key);
  }

  class LmdbBatchStore {
    var db: seq<Record>
    ghost var contents: Batches

    ghost predicate Valid()
      reads this
    {
      Represents(db, contents)
    }

    constructor ()
      ensures Valid() && contents == map[]
    {
      db := [];
      contents := map[];
    }

    method Append(batch: Batch, id: TransactionId)
      requires Valid() && id < ID_LIMIT
      modifies this
      ensures Valid() && contents == old(contents)[id := batch]
    {
      RepresentsPut(db, contents, id, batch);
      db := Put(db, EncodeId(id), batch);
      contents := contents[id := batch];
    }

    method Seek(lo: TransactionId, hi: TransactionId) returns (r: Result<seq<TransactionId>, KeyError>)
      requires Valid() && lo < ID_LIMIT && hi < ID_LIMIT
      ensures r.Ok? && IsRange(r.value, contents, lo, hi)
    {
      r := SeekIds(db, lo, hi);
      CollectedIsRange(r.value, db, contents, lo, hi);
    }

    method Load(id: TransactionId) returns (batch: Option<Batch>)
      requires Valid() && id < ID_LIMIT
      ensures batch == Fetch(contents, id)
    {
      batch := Get(db, EncodeId(id));
    }

    /** Deletes the first records one by one. */
    method RemoveAll(keys: seq<Key>)
      requires |keys| <= |db| && forall i :: 0 <= i < |keys| ==> keys[i] == db[i].key
      modifies this`db
      ensures db == old(db)[|keys|..]
    {
      for i := 0 to |keys|
        invariant db == old(db)[i..]
      {
        assert db[0] == old(db)[i];
        db := Remove(db, keys[i]);
      }
    }

    /** Keys are collected first and deleted after the scan. */
    method Prune(cutoff: TransactionId)
      requires Valid() && cutoff < ID_LIMIT
      modifies this
      ensures Valid() && contents == Pruned(old(contents), cutoff)
    {
      var keys := CollectKeys(db, EncodeId(cutoff));
      RepresentsSuffix(db, contents, |keys|, cutoff);
      RemoveAll(keys);
      contents := Pruned(contents, cutoff);
    }
  }
}
