/** The target table of the sync consumer and its chunked, retried inserts (crates/bin/ampsync/src/engine.rs). */
module Consumer {
  import opened Types

  /** Primary key (_tx_id, _row_index). */
  datatype Key = Key(tx: TransactionId, index: nat)

  type Table = map<Key, Row>

  function Lookup(t: Table, k: Key): Option<Row> {
    if k in t then Some(t[k]) else None
  }

  /** INSERT .. ON CONFLICT DO NOTHING of the rows `from..to` of a batch. */
  function InsertRows(t: Table, tx: TransactionId, batch: Batch, from: nat, to: nat): Table
    requires from <= to <= |batch|
  {
    (map i: nat | from <= i < to :: Key(tx, i) := batch[i]) + t
  }

  /** DELETE .. WHERE _tx_id BETWEEN lo AND hi. */
  function DeleteRange(t: Table, lo: TransactionId, hi: TransactionId): Table {
    map k | k in t && !(lo <= k.tx <= hi) :: t[k]
  }

  lemma InsertLookup(t: Table, tx: TransactionId, batch: Batch, from: nat, to: nat, k: Key)
    requires from <= to <= |batch|
    ensures Lookup(InsertRows(t, tx, batch, from, to), k) ==
            if k in t then Some(t[k])
            else if k.tx == tx && from <= k.index < to then Some(batch[k.index])
            else None
  {
    var added := map i: nat | from <= i < to :: Key(tx, i) := batch[i];
    if k.tx == tx && from <= k.index < to {
      assert k == Key(tx, k.index);
      assert k in added;
    }
  }

  lemma DeleteLookup(t: Table, lo: TransactionId, hi: TransactionId, k: Key)
    ensures Lookup(DeleteRange(t, lo, hi), k) == if lo <= k.tx <= hi then None else Lookup(t, k)
  {
  }

  lemma SameLookup(a: Table, b: Table)
    requires forall k :: Lookup(a, k) == Lookup(b, k)
    ensures a == b
  {
    forall k ensures k in a <==> k in b {
      assert Lookup(a, k) == Lookup(b, k);
    }
    forall k | k in a ensures a[k] == b[k] {
      assert Lookup(a, k) == Lookup(b, k);
    }
  }

  /** Overlapping or adjacent chunks, inserted one after the other, are one insert of their union. */
  lemma InsertCompose(t: Table, tx: TransactionId, batch: Batch, from: nat, a: nat, b: nat, to: nat)
    requires from <= a <= b <= to <= |batch|
    ensures InsertRows(InsertRows(t, tx, batch, from, b), tx, batch, a, to) == InsertRows(t, tx, batch, from, to)
  {
    var first := InsertRows(t, tx, batch, from, b);
    forall k ensures Lookup(InsertRows(first, tx, batch, a, to), k) == Lookup(InsertRows(t, tx, batch, from, to), k) {
      InsertLookup(t, tx, batch, from, b, k);
      InsertLookup(first, tx, batch, a, to, k);
      InsertLookup(t, tx, batch, from, to, k);
    }
    SameLookup(InsertRows(first, tx, batch, a, to), InsertRows(t, tx, batch, from, to));
  }

  const MIN_BATCH_SIZE: nat := 100
  const MAX_BATCH_SIZE: nat := 50000
  const TARGET_DURATION_MS: nat := 1000
  const TARGET_MEMORY_BYTES: nat := 50 * 1024 * 1024
  const MAX_SAMPLES: nat := 10

  function TotalDuration(samples: seq<(nat, nat)>): nat {
    if samples == [] then 0 else TotalDuration(samples[..|samples| - 1]) + samples[|samples| - 1].0
  }

  /** Smaller chunks after slow inserts, larger after fast ones, within the bounds. */
  function Adjusted(size: nat, samples: seq<(nat, nat)>): nat {
    if |samples| < 3 then size
    else
      var average := TotalDuration(samples) / |samples|;
      var factor := if average > TARGET_DURATION_MS then 0.9
                    else if average < TARGET_DURATION_MS / 2 then 1.2
                    else 1.05;
      var scaled := (size as real * factor).Floor;
      if scaled < MIN_BATCH_SIZE then MIN_BATCH_SIZE else if scaled > MAX_BATCH_SIZE then MAX_BATCH_SIZE else scaled
  }

  /**
   * Which way the size goes, within the bounds: a slow average takes a tenth off, a fast one adds a fifth, and one in
   * between adds a twentieth.
   */
  lemma AdjustedDirection(size: nat, samples: seq<(nat, nat)>)
    requires MIN_BATCH_SIZE <= size <= MAX_BATCH_SIZE && |samples| >= 3
    ensures var average, after := TotalDuration(samples) / |samples|, Adjusted(size, samples);
            && MIN_BATCH_SIZE <= after <= MAX_BATCH_SIZE
            && (average > TARGET_DURATION_MS ==>
                  && after <= size && (after < size || size == MIN_BATCH_SIZE)
                  && after == Max(MIN_BATCH_SIZE, 9 * size / 10))
            && (average <= TARGET_DURATION_MS ==>
                  after >= size && (after > size || size == MAX_BATCH_SIZE))
            && (average < TARGET_DURATION_MS / 2 && after < MAX_BATCH_SIZE ==> after == 12 * size / 10)
            && (TARGET_DURATION_MS / 2 <= average <= TARGET_DURATION_MS && after < MAX_BATCH_SIZE ==>
                  after == 105 * size / 100)
  {
    assert (size as real * 0.9).Floor == 9 * size / 10;
    assert (size as real * 1.2).Floor == 12 * size / 10;
    assert (size as real * 1.05).Floor == 105 * size / 100;
  }

  /** More rows than the quotient exceed the budget. */
  lemma TooManyRows(budget: nat, perRow: nat, rows: nat)
    requires perRow > 0 && rows > budget / perRow
    ensures rows * perRow > budget
  {
    assert (budget / perRow + 1) * perRow > budget;
    assert rows * perRow >= (budget / perRow + 1) * perRow;
  }

  /** The largest chunk size up to `current` that meets the memory target, or the minimum. */
  ghost predicate Optimal(size: nat, current: nat, rowBytes: nat) {
    && MIN_BATCH_SIZE <= size <= current
    && (size == MIN_BATCH_SIZE || size * rowBytes <= TARGET_MEMORY_BYTES)
    && forall larger :: size < larger <= current ==> larger * rowBytes > TARGET_MEMORY_BYTES
  }

  /** What the manager remembers: the current chunk size, recent (duration, rows) samples, errors in a row. */
  datatype Tuning = Tuning(size: nat, samples: seq<(nat, nat)>, errors: nat)

  function AfterSuccess(t: Tuning, durationMs: nat, rows: nat): Tuning {
    var samples := (if |t.samples| == MAX_SAMPLES then t.samples[1..] else t.samples) + [(durationMs, rows)];
    Tuning(Adjusted(t.size, samples), samples, 0)
  }

  function AfterError(t: Tuning): Tuning {
    if t.errors == 2 then Tuning(Max(MIN_BATCH_SIZE, 7 * t.size / 10), t.samples, 0)
    else t.(errors := t.errors + 1)
  }

  /** The rows of the chunk that starts at `start`. */
  function ChunkRows(rows: nat, size: nat, start: nat): nat {
    if start + size < rows then size else if start < rows then rows - start else 0
  }

  /** Where the first `chunks` chunks end. */
  function ChunkEnd(rows: nat, size: nat, chunks: nat): (end: nat)
    ensures end <= rows
  {
    if chunks == 0 then 0
    else
      var start := ChunkEnd(rows, size, chunks - 1);
      start + ChunkRows(rows, size, start)
  }

  /**
   * What the database does with a chunk: how long it takes, how often it is repeated, whether it is finally reported as
   * failed, and whether a failed chunk was rolled back.
   */
  datatype Attempt = Attempt(durationMs: nat, retries: nat, fails: bool, lost: bool)

  ghost predicate NoneFails(attempts: nat -> Attempt, chunks: nat) {
    forall chunk: nat :: chunk < chunks ==> !attempts(chunk).fails
  }

  /** The tuning after that many successful chunks, each recorded with its own duration and number of rows. */
  function Recorded(t: Tuning, rows: nat, size: nat, attempts: nat -> Attempt, chunks: nat): Tuning {
    if chunks == 0 then t
    else
      AfterSuccess(Recorded(t, rows, size, attempts, chunks - 1), attempts(chunks - 1).durationMs,
                   ChunkRows(rows, size, ChunkEnd(rows, size, chunks - 1)))
  }

  /** A batch insert as it begins: the table, what the manager remembers, and the chunk size in use. */
  datatype Insert = Insert(table: Table, tuning: Tuning, tx: TransactionId, batch: Batch, size: nat)

  /** The first `chunks` chunks succeeded: their rows are in the table and each is recorded. */
  ghost predicate Reached(w: Insert, attempts: nat -> Attempt, chunks: nat, table: Table, tuning: Tuning) {
    && NoneFails(attempts, chunks)
    && table == InsertRows(w.table, w.tx, w.batch, 0, ChunkEnd(|w.batch|, w.size, chunks))
    && tuning == Recorded(w.tuning, |w.batch|, w.size, attempts, chunks)
  }

  /** The next chunk failed: the error is recorded, and the rows of that chunk may be in the table. */
  ghost predicate Stopped(w: Insert, attempts: nat -> Attempt, chunks: nat, table: Table, tuning: Tuning) {
    && NoneFails(attempts, chunks) && attempts(chunks).fails && ChunkEnd(|w.batch|, w.size, chunks) < |w.batch|
    && (var present := if attempts(chunks).lost then chunks else chunks + 1;
        table == InsertRows(w.table, w.tx, w.batch, 0, ChunkEnd(|w.batch|, w.size, present)))
    && tuning == AfterError(Recorded(w.tuning, |w.batch|, w.size, attempts, chunks))
  }

  lemma ReachedNone(w: Insert, attempts: nat -> Attempt)
    ensures Reached(w, attempts, 0, w.table, w.tuning)
  {
    assert InsertRows(w.table, w.tx, w.batch, 0, 0) == w.table;
  }

  /** The rows of one more chunk. */
  lemma NextRows(w: Insert, chunks: nat, start: nat, end: nat)
    requires start == ChunkEnd(|w.batch|, w.size, chunks) && end == ChunkEnd(|w.batch|, w.size, chunks + 1)
    ensures start <= end
    ensures InsertRows(InsertRows(w.table, w.tx, w.batch, 0, start), w.tx, w.batch, start, end) ==
            InsertRows(w.table, w.tx, w.batch, 0, end)
  {
    InsertCompose(w.table, w.tx, w.batch, 0, start, start, end);
  }

  /** The record of one more chunk. */
  lemma NextRecorded(w: Insert, attempts: nat -> Attempt, chunks: nat, start: nat, end: nat)
    requires start == ChunkEnd(|w.batch|, w.size, chunks) <= end == ChunkEnd(|w.batch|, w.size, chunks + 1)
    ensures AfterSuccess(Recorded(w.tuning, |w.batch|, w.size, attempts, chunks), attempts(chunks).durationMs,
                         end - start) == Recorded(w.tuning, |w.batch|, w.size, attempts, chunks + 1)
  {
    assert end - start == ChunkRows(|w.batch|, w.size, start);
  }

  lemma ReachedNext(w: Insert, attempts: nat -> Attempt, chunks: nat, table: Table, tuning: Tuning,
                    start: nat, end: nat)
    requires start == ChunkEnd(|w.batch|, w.size, chunks) <= end == ChunkEnd(|w.batch|, w.size, chunks + 1)
    requires Reached(w, attempts, chunks, table, tuning) && !attempts(chunks).fails
    ensures Reached(w, attempts, chunks + 1, InsertRows(table, w.tx, w.batch, start, end),
                    AfterSuccess(tuning, attempts(chunks).durationMs, end - start))
  {
    NextRows(w, chunks, start, end);
    NextRecorded(w, attempts, chunks, start, end);
    assert NoneFails(attempts, chunks + 1);
  }

  lemma StoppedNext(w: Insert, attempts: nat -> Attempt, chunks: nat, table: Table, tuning: Tuning,
                    start: nat, end: nat)
    requires start == ChunkEnd(|w.batch|, w.size, chunks) <= end == ChunkEnd(|w.batch|, w.size, chunks + 1)
    requires Reached(w, attempts, chunks, table, tuning) && attempts(chunks).fails && start < |w.batch|
    ensures Stopped(w, attempts, chunks,
                    if attempts(chunks).lost then table else InsertRows(table, w.tx, w.batch, start, end),
                    AfterError(tuning))
  {
    NextRows(w, chunks, start, end);
  }

  /** Chooses chunk sizes; floating-point factors are exact rationals here. */
  class AdaptiveBatchManager {
    var currentBatchSize: nat
    var samples: seq<(nat, nat)>
    var errorCount: nat

    ghost predicate Valid()
      reads this
    {
      MIN_BATCH_SIZE <= currentBatchSize <= MAX_BATCH_SIZE && |samples| <= MAX_SAMPLES && errorCount < 3
    }

    ghost function State(): Tuning
      reads this
    {
      Tuning(currentBatchSize, samples, errorCount)
    }

    constructor ()
      ensures Valid() && currentBatchSize == 1000 && samples == [] && errorCount == 0
    {
      currentBatchSize := 1000;
      samples := [];
      errorCount := 0;
    }

    method RecordSuccess(durationMs: nat, rows: nat)
      requires Valid()
      modifies this
      ensures Valid() && errorCount == 0
      ensures samples == (if |old(samples)| == MAX_SAMPLES then old(samples)[1..] else old(samples)) +
                         [(durationMs, rows)]
      ensures currentBatchSize == Adjusted(old(currentBatchSize), samples)
      ensures State() == AfterSuccess(old(State()), durationMs, rows)
    {
      errorCount := 0;
      samples := samples + [(durationMs, rows)];
      if |samples| > MAX_SAMPLES {
        samples := samples[1..];
      }
      if |samples| < 3 {
        return;
      }
      var total := 0;
      for i := 0 to |samples|
        invariant total == TotalDuration(samples[..i])
      {
        assert samples[..i + 1][..i] == samples[..i];
        total := total + samples[i].0;
      }
      assert samples[..|samples|] == samples;
      var average := total / |samples|;
      var factor := if average > TARGET_DURATION_MS then 0.9
                    else if average < TARGET_DURATION_MS / 2 then 1.2
                    else 1.05;
      var scaled := (currentBatchSize as real * factor).Floor;
      scaled := if scaled < MIN_BATCH_SIZE then MIN_BATCH_SIZE else scaled;
      currentBatchSize := if scaled > MAX_BATCH_SIZE then MAX_BATCH_SIZE else scaled;
    }

    /** Every third error in a row shrinks the chunk size, never below the minimum. */
    method RecordError()
      requires Valid()
      modifies this
      ensures Valid() && samples == old(samples)
      ensures errorCount == if old(errorCount) == 2 then 0 else old(errorCount) + 1
      ensures old(errorCount) < 2 ==> currentBatchSize == old(currentBatchSize)
      ensures old(errorCount) == 2 ==> currentBatchSize == Max(MIN_BATCH_SIZE, 7 * old(currentBatchSize) / 10)
      ensures State() == AfterError(old(State()))
    {
      errorCount := errorCount + 1;
      if errorCount >= 3 {
        var scaled := (currentBatchSize as real * 0.7).Floor;
        currentBatchSize := if scaled < MIN_BATCH_SIZE then MIN_BATCH_SIZE else scaled;
        errorCount := 0;
      }
    }

    method GetOptimalBatchSize(rowBytes: nat) returns (size: nat)
      requires Valid()
      ensures Optimal(size, currentBatchSize, rowBytes)
    {
      var perRow := if rowBytes < 1 then 1 else rowBytes;
      var memoryConstrained := TARGET_MEMORY_BYTES / perRow;
      size := if memoryConstrained < currentBatchSize then memoryConstrained else currentBatchSize;
      size := if size < MIN_BATCH_SIZE then MIN_BATCH_SIZE else size;
      forall larger | size < larger <= currentBatchSize ensures larger * rowBytes > TARGET_MEMORY_BYTES {
        TooManyRows(TARGET_MEMORY_BYTES, perRow, larger);
      }
    }
  }

  class Engine {
    var table: Table
    const manager: AdaptiveBatchManager

    constructor (table: Table)
      ensures this.table == table && manager.Valid() && fresh(manager)
    {
      this.table := table;
      manager := new AdaptiveBatchManager();
    }

    /** One chunk as one database transaction, repeated when its outcome was uncertain. */
    method InsertChunk(tx: TransactionId, batch: Batch, from: nat, to: nat, retries: nat)
      requires from <= to <= |batch|
      modifies this`table
      ensures table == InsertRows(old(table), tx, batch, from, to)
    {
      table := InsertRows(table, tx, batch, from, to);
      for i := 0 to retries
        invariant table == InsertRows(old(table), tx, batch, from, to)
      {
        InsertCompose(old(table), tx, batch, from, from, to, to);
        table := InsertRows(table, tx, batch, from, to);
      }
    }

    /** One chunk and what is recorded about it. A failed chunk is rolled back, or it is in the table all the same. */
    method TryChunk(tx: TransactionId, batch: Batch, from: nat, to: nat, attempt: Attempt)
      requires from <= to <= |batch| && manager.Valid()
      modifies this`table, manager
      ensures manager.Valid()
      ensures table == if attempt.fails && attempt.lost then old(table)
                       else InsertRows(old(table), tx, batch, from, to)
      ensures manager.State() ==
              if attempt.fails then AfterError(old(manager.State()))
              else AfterSuccess(old(manager.State()), attempt.durationMs, to - from)
    {
      if !attempt.fails || !attempt.lost {
        InsertChunk(tx, batch, from, to, attempt.retries);
      }
      if attempt.fails {
        manager.RecordError();
      } else {
        manager.RecordSuccess(attempt.durationMs, to - from);
      }
    }

    /** The chunk loop. */
    method InsertChunks(tx: TransactionId, batch: Batch, size: nat, attempts: nat -> Attempt)
        returns (ok: bool, ghost chunks: nat)
      requires manager.Valid() && size > 0
      modifies this`table, manager
      ensures manager.Valid()
      ensures var w := Insert(old(table), old(manager.State()), tx, batch, size);
              if ok then
                Reached(w, attempts, chunks, table, manager.State()) && ChunkEnd(|batch|, size, chunks) == |batch|
              else Stopped(w, attempts, chunks, table, manager.State())
    {
      ghost var w := Insert(table, manager.State(), tx, batch, size);
      ReachedNone(w, attempts);
      var start, chunk := 0, 0;
      while start < |batch|
        invariant start == ChunkEnd(|batch|, size, chunk)
        invariant manager.Valid()
        invariant Reached(w, attempts, chunk, table, manager.State())
      {
        var end := start + ChunkRows(|batch|, size, start);
        ghost var before, tuning := table, manager.State();
        TryChunk(tx, batch, start, end, attempts(chunk));
        if attempts(chunk).fails {
          StoppedNext(w, attempts, chunk, before, tuning, start, end);
          return false, chunk;
        }
        ReachedNext(w, attempts, chunk, before, tuning, start, end);
        start, chunk := end, chunk + 1;
      }
      return true, chunk;
    }

    /**
     * A batch in chunks. The call succeeds exactly if the successful chunks cover the batch; otherwise it stops at the
     * first chunk that fails.
     */
    method InsertBatch(tx: TransactionId, batch: Batch, rowBytes: nat, attempts: nat -> Attempt)
        returns (ok: bool, ghost size: nat, ghost chunks: nat)
      requires manager.Valid()
      modifies this`table, manager
      ensures manager.Valid()
      ensures ok ==> table == InsertRows(old(table), tx, batch, 0, |batch|)
      ensures batch != [] ==> Optimal(size, old(manager.currentBatchSize), rowBytes)
      ensures var w := Insert(old(table), old(manager.State()), tx, batch, size);
              if ok then
                Reached(w, attempts, chunks, table, manager.State()) && ChunkEnd(|batch|, size, chunks) == |batch|
              else Stopped(w, attempts, chunks, table, manager.State())
    {
      size, chunks := 0, 0;
      ghost var initial := Insert(table, manager.State(), tx, batch, 0);
      ReachedNone(initial, attempts);
      if |batch| == 0 {
        return true, 0, 0;
      }
      var limit := manager.GetOptimalBatchSize(rowBytes);
      ok, chunks := InsertChunks(tx, batch, limit, attempts);
      size := limit;
    }

    method DeleteByTxRange(start: TransactionId, end: TransactionId)
      modifies this`table
      ensures table == DeleteRange(old(table), start, end)
    {
      table := DeleteRange(table, start, end);
    }
  }
}
