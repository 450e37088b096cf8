/** The transactional state machine as functions on values (crates/client/src/transactional.rs). */
module Transactional {
  import opened Types
  import opened Sequences
  import opened Protocol

  datatype ReorgError = Unrecoverable | PartialReorg

  /** The in-memory state of a stream. */
  datatype Actor = Actor(
    retention: BlockNumber,
    next: TransactionId,
    buffer: seq<Entry>,
    uncommitted: seq<Pending>)

  /** An actor together with what its store holds. */
  datatype Machine = Machine(actor: Actor, disk: Snapshot)

  datatype Outcome = Outcome(result: Result<Event, ReorgError>, machine: Machine)

  function IdBelow(t: int): Entry -> bool { (e: Entry) => e.id < t }

  function IdAbove(p: int): Entry -> bool { (e: Entry) => e.id > p }

  function PendingBelow(t: int): Pending -> bool { (p: Pending) => p.entry.id < t }

  function EntryOf(p: Pending): Entry { p.entry }

  function Entries(pending: seq<Pending>): seq<Entry> { Map(pending, EntryOf) }

  // ---- Recovery point --------------------------------------------------------------------------------

  /** First invalid block of each network; a later range replaces an earlier one. */
  function Points(invalidation: seq<InvalidationRange>): map<string, BlockNumber> {
    if invalidation == [] then map[]
    else Points(Front(invalidation))[Last(invalidation).network := Last(invalidation).start]
  }

  predicate Affected(ranges: seq<BlockRange>, points: map<string, BlockNumber>) {
    exists i :: 0 <= i < |ranges| && ranges[i].network in points && ranges[i].start >= points[ranges[i].network]
  }

  /** Index of the newest unaffected watermark, or -1. */
  function RecoveryIndex(buffer: seq<Entry>, points: map<string, BlockNumber>): (k: int)
    ensures -1 <= k < |buffer|
    ensures 0 <= k ==> !Affected(buffer[k].ranges, points)
    ensures forall j :: k < j < |buffer| ==> Affected(buffer[j].ranges, points)
  {
    if buffer == [] then -1
    else if !Affected(Last(buffer).ranges, points) then |buffer| - 1
    else RecoveryIndex(Front(buffer), points)
  }

  /** The reorg point of some network lies strictly inside the recovery watermark's range. */
  predicate SplitsRange(ranges: seq<BlockRange>, invalidation: seq<InvalidationRange>) {
    exists i :: 0 <= i < |ranges| &&
      var v := FindInvalidation(invalidation, ranges[i].network);
      v.Some? && ranges[i].start < v.value.start <= ranges[i].end
  }

  // ---- Pruning point ---------------------------------------------------------------------------------

  function SaturatingSub(a: nat, b: nat): nat { if a < b then 0 else a - b }

  function Cutoffs(ranges: seq<BlockRange>, retention: BlockNumber): (m: map<string, BlockNumber>)
    ensures m.Keys == Networks(ranges)
  {
    if ranges == [] then map[]
    else
      assert ranges == Front(ranges) + [Last(ranges)];
      Cutoffs(Front(ranges), retention)[Last(ranges).network := SaturatingSub(Last(ranges).start, retention)]
  }

  predicate Outside(ranges: seq<BlockRange>, cutoffs: map<string, BlockNumber>) {
    forall i :: 0 <= i < |ranges| ==> ranges[i].network in cutoffs && ranges[i].end < cutoffs[ranges[i].network]
  }

  /** Length of the longest prefix that lies outside the retention window. */
  function OutsidePrefix(buffer: seq<Entry>, cutoffs: map<string, BlockNumber>): (k: nat)
    ensures k <= |buffer|
    ensures forall i :: 0 <= i < k ==> Outside(buffer[i].ranges, cutoffs)
    ensures k < |buffer| ==> !Outside(buffer[k].ranges, cutoffs)
  {
    if buffer == [] || !Outside(buffer[0].ranges, cutoffs) then 0
    else 1 + OutsidePrefix(buffer[1..], cutoffs)
  }

  function PruningPoint(buffer: seq<Entry>, retention: BlockNumber): Option<TransactionId> {
    if buffer == [] || Last(buffer).ranges == [] then None
    else
      var k := OutsidePrefix(Front(buffer), Cutoffs(Last(buffer).ranges, retention));
      if k == 0 then None else Some(buffer[k - 1].id)
  }

  // ---- Store operations ------------------------------------------------------------------------------

  function AfterPrune(buffer: seq<Entry>, prune: Option<TransactionId>): seq<Entry> {
    match prune
    case None => buffer
    case Some(p) => Filter(buffer, IdAbove(p))
  }

  function Persisted(d: Snapshot, c: Commit): Snapshot {
    d.(buffer := AfterPrune(d.buffer, c.prune) + c.insert)
  }

  function Truncated(d: Snapshot, from: TransactionId): Snapshot {
    d.(buffer := Filter(d.buffer, IdBelow(from)))
  }

  // ---- Execute ---------------------------------------------------------------------------------------

  function Execute(m: Machine, action: Action): Outcome {
    var a := m.actor;
    var id := a.next;
    var advanced := Machine(a.(next := id + 1), m.disk.(next := id + 1));
    match action
    case Rewind =>
      var lo := if a.buffer == [] then 0 else Last(a.buffer).id + 1;
      Outcome(Ok(Undo(id, RewindCause, lo, SaturatingSub(id, 1))), advanced)
    case Message(DataMessage(batch, ranges)) =>
      Outcome(Ok(Data(id, batch, ranges)), advanced)
    case Message(WatermarkMessage(ranges)) =>
      var buffer := a.buffer + [Entry(id, ranges)];
      var prune := PruningPoint(buffer, a.retention);
      var uncommitted := a.uncommitted + [Pending(Entry(id, ranges), prune)];
      Outcome(Ok(Watermark(id, ranges, prune)),
              advanced.(actor := advanced.actor.(buffer := buffer, uncommitted := uncommitted)))
    case Message(ReorgMessage(_, _, invalidation)) =>
      var k := RecoveryIndex(a.buffer, Points(invalidation));
      if k < 0 && a.buffer != [] then Outcome(Err(Unrecoverable), advanced)
      else if 0 <= k && SplitsRange(a.buffer[k].ranges, invalidation) then Outcome(Err(PartialReorg), advanced)
      else
        var lo := if k < 0 then 0 else a.buffer[k].id + 1;
        var from := if k < 0 then 1 else a.buffer[k].id + 1;
        Outcome(Ok(Undo(id, ReorgCause(invalidation), lo, SaturatingSub(id, 1))),
                Machine(advanced.actor.(buffer := Filter(a.buffer, IdBelow(from)),
                                        uncommitted := Filter(a.uncommitted, PendingBelow(from))),
                        Truncated(advanced.disk, from)))
  }

  // ---- Commit ----------------------------------------------------------------------------------------

  /** Number of leading pending commits with an id up to `id`. */
  function CommitPosition(pending: seq<Pending>, id: TransactionId): (pos: nat)
    ensures pos <= |pending|
    ensures forall i :: 0 <= i < pos ==> pending[i].entry.id <= id
    ensures pos < |pending| ==> pending[pos].entry.id > id
  {
    if pending == [] || pending[0].entry.id > id then 0
    else 1 + CommitPosition(pending[1..], id)
  }

  function Larger(a: Option<TransactionId>, b: Option<TransactionId>): Option<TransactionId> {
    match (a, b)
    case (Some(x), Some(y)) => Some(Max(x, y))
    case (None, _) => b
    case (_, None) => a
  }

  function LargestPrune(pending: seq<Pending>): (p: Option<TransactionId>)
    ensures p.Some? ==> exists i :: 0 <= i < |pending| && pending[i].prune == p
    ensures forall i :: 0 <= i < |pending| && pending[i].prune.Some? ==> p.Some? && pending[i].prune.value <= p.value
  {
    if pending == [] then None
    else
      Larger(LargestPrune(Front(pending)), Last(pending).prune)
  }

  /** Several pending commits as one update: newest prune, and only the watermarks that survive it. */
  function Compress(pending: seq<Pending>): Commit {
    var prune := LargestPrune(pending);
    Commit(AfterPrune(Entries(pending), prune), prune)
  }

  /** The first `pos` pending commits moved to the store, with the buffer pruned on both sides. */
  function CommitPrefix(m: Machine, pos: nat): Machine
    requires pos <= |m.actor.uncommitted|
  {
    var u := m.actor.uncommitted;
    var prune := LargestPrune(u[..pos]);
    Machine(m.actor.(buffer := AfterPrune(m.actor.buffer, prune), uncommitted := u[pos..]),
            m.disk.(buffer := AfterPrune(m.disk.buffer + Entries(u[..pos]), prune)))
  }

  function CommitUpTo(m: Machine, id: TransactionId): Machine {
    CommitPrefix(m, CommitPosition(m.actor.uncommitted, id))
  }

  lemma EmptyPrefix(m: Machine)
    ensures CommitPrefix(m, 0) == m
  {
    assert m.disk.buffer + [] == m.disk.buffer;
  }

  /** The compressed update leaves what moving the prefix over unchanged and pruning afterwards leaves. */
  lemma CompressedCommit(d: Snapshot, pending: seq<Pending>)
    ensures Persisted(d, Compress(pending)).buffer == AfterPrune(d.buffer + Entries(pending), LargestPrune(pending))
  {
    var prune := LargestPrune(pending);
    if prune.Some? {
      FilterConcat(d.buffer, Entries(pending), IdAbove(prune.value));
    }
  }

  // ---- Opening a stream ------------------------------------------------------------------------------

  function Open(disk: Snapshot, retention: BlockNumber): Machine {
    Machine(Actor(retention, disk.next, disk.buffer, []), disk)
  }

  predicate RewindNeeded(a: Actor) {
    if a.buffer == [] then a.next > 0 else a.next > Last(a.buffer).id + 1
  }

  // ---- Invariants every action keeps -----------------------------------------------------------------

  ghost predicate Increasing(s: seq<Entry>) {
    forall i, j :: 0 <= i < j < |s| ==> s[i].id < s[j].id
  }

  ghost predicate IdsBelow(s: seq<Entry>, n: TransactionId) {
    forall e :: e in s ==> e.id < n
  }

  ghost predicate PruneBehind(pending: seq<Pending>) {
    forall i :: 0 <= i < |pending| && pending[i].prune.Some? ==> pending[i].prune.value < pending[i].entry.id
  }

  /** Memory is what the store holds followed by what is still to be committed, and ids only grow. */
  ghost predicate Agrees(m: Machine) {
    && m.actor.next == m.disk.next
    && m.actor.buffer == m.disk.buffer + Entries(m.actor.uncommitted)
    && Increasing(m.actor.buffer)
    && IdsBelow(m.actor.buffer, m.actor.next)
    && PruneBehind(m.actor.uncommitted)
  }

  ghost predicate PendingIncreasing(u: seq<Pending>) {
    forall i, j :: 0 <= i < j < |u| ==> u[i].entry.id < u[j].entry.id
  }

  lemma {:induction false} FilterIncreasing(s: seq<Entry>, keep: Entry -> bool)
    requires Increasing(s)
    ensures Increasing(Filter(s, keep))
  {
    if s == [] {
    } else {
      var rest := Filter(s[1..], keep);
      FilterIncreasing(s[1..], keep);
      FilterMembers(s[1..], keep);
      forall j | 0 <= j < |rest| ensures s[0].id < rest[j].id {
        assert rest[j] in s[1..];
        var k :| 0 <= k < |s[1..]| && s[1..][k] == rest[j];
        assert s[k + 1] == rest[j];
      }
    }
  }

  lemma EntriesConcat(a: seq<Pending>, b: seq<Pending>)
    ensures Entries(a + b) == Entries(a) + Entries(b)
  {
  }

  lemma StoredEntries(disk: seq<Entry>, a: seq<Pending>, b: seq<Pending>)
    ensures disk + Entries(a + b) == disk + Entries(a) + Entries(b)
  {
    EntriesConcat(a, b);
  }

  lemma AppendIncreasing(s: seq<Entry>, e: Entry)
    requires Increasing(s) && IdsBelow(s, e.id)
    ensures Increasing(s + [e]) && IdsBelow(s + [e], e.id + 1)
  {
    forall i | 0 <= i < |s| ensures s[i].id < e.id {
      assert s[i] in s;
    }
  }

  lemma PruneIsOlder(buffer: seq<Entry>, retention: BlockNumber)
    requires Increasing(buffer) && PruningPoint(buffer, retention).Some?
    ensures PruningPoint(buffer, retention).value < Last(buffer).id
  {
  }

  /** The pending watermarks are the newest part of the buffer, so their ids grow too. */
  lemma PendingOrdered(m: Machine)
    requires Agrees(m)
    ensures PendingIncreasing(m.actor.uncommitted)
  {
    var u := m.actor.uncommitted;
    var n := |m.disk.buffer|;
    forall i, j | 0 <= i < j < |u| ensures u[i].entry.id < u[j].entry.id {
      assert m.actor.buffer[n + i] == u[i].entry && m.actor.buffer[n + j] == u[j].entry;
    }
  }

  lemma AppendPending(u: seq<Pending>, p: Pending)
    requires PruneBehind(u) && (p.prune.Some? ==> p.prune.value < p.entry.id)
    ensures PruneBehind(u + [p]) && Entries(u + [p]) == Entries(u) + [p.entry]
  {
    EntriesConcat(u, [p]);
  }

  lemma AppendAgrees(m: Machine, p: Pending)
    requires Agrees(m) && p.entry.id == m.actor.next && (p.prune.Some? ==> p.prune.value < p.entry.id)
    ensures Agrees(Machine(m.actor.(next := m.actor.next + 1, buffer := m.actor.buffer + [p.entry],
                                    uncommitted := m.actor.uncommitted + [p]),
                           m.disk.(next := m.actor.next + 1)))
  {
    AppendIncreasing(m.actor.buffer, p.entry);
    AppendPending(m.actor.uncommitted, p);
  }

  lemma WatermarkAgrees(m: Machine, ranges: seq<BlockRange>)
    requires Agrees(m)
    ensures Agrees(Execute(m, Message(WatermarkMessage(ranges))).machine)
  {
    var buffer := m.actor.buffer + [Entry(m.actor.next, ranges)];
    AppendIncreasing(m.actor.buffer, Last(buffer));
    var prune := PruningPoint(buffer, m.actor.retention);
    if prune.Some? {
      PruneIsOlder(buffer, m.actor.retention);
    }
    AppendAgrees(m, Pending(Last(buffer), prune));
  }

  lemma TruncateBuffer(b: seq<Entry>, next: TransactionId, from: TransactionId)
    requires Increasing(b) && IdsBelow(b, next)
    ensures Increasing(Filter(b, IdBelow(from))) && IdsBelow(Filter(b, IdBelow(from)), next)
  {
    FilterIncreasing(b, IdBelow(from));
    FilterMembers(b, IdBelow(from));
  }

  lemma {:induction false} TruncatePending(u: seq<Pending>, from: TransactionId)
    requires PruneBehind(u)
    ensures PruneBehind(Filter(u, PendingBelow(from)))
  {
    if u == [] {
    } else {
      TruncatePending(u[1..], from);
    }
  }

  lemma TruncateStored(disk: seq<Entry>, u: seq<Pending>, from: TransactionId)
    ensures Filter(disk + Entries(u), IdBelow(from)) ==
            Filter(disk, IdBelow(from)) + Entries(Filter(u, PendingBelow(from)))
  {
    FilterConcat(disk, Entries(u), IdBelow(from));
    FilterMap(u, EntryOf, PendingBelow(from), IdBelow(from));
  }

  lemma TruncationAgrees(m: Machine, from: TransactionId)
    requires Agrees(m)
    ensures Agrees(Machine(m.actor.(buffer := Filter(m.actor.buffer, IdBelow(from)),
                                    uncommitted := Filter(m.actor.uncommitted, PendingBelow(from))),
                           Truncated(m.disk, from)))
  {
    TruncateBuffer(m.actor.buffer, m.actor.next, from);
    TruncatePending(m.actor.uncommitted, from);
    TruncateStored(m.disk.buffer, m.actor.uncommitted, from);
  }

  /** Agreement between memory and store survives every action, whether or not it succeeds. */
  lemma ExecuteAgrees(m: Machine, action: Action)
    requires Agrees(m)
    ensures Agrees(Execute(m, action).machine)
  {
    match action
    case Message(WatermarkMessage(ranges)) => WatermarkAgrees(m, ranges);
    case Message(ReorgMessage(_, _, invalidation)) =>
      var out := Execute(m, action);
      if out.result.Ok? {
        var from := Max(out.result.value.lo, 1);
        var id := m.actor.next;
        TruncationAgrees(Machine(m.actor.(next := id + 1), m.disk.(next := id + 1)), from);
      }
    case _ =>
  }

  /** A compressed prune point is older than the last watermark it was compressed from. */
  lemma PruneBeforeLast(u: seq<Pending>)
    requires PendingIncreasing(u) && PruneBehind(u) && LargestPrune(u).Some?
    ensures u != [] && LargestPrune(u).value < Last(u).entry.id
  {
    var k :| 0 <= k < |u| && u[k].prune == LargestPrune(u);
  }

  lemma PruneBeforeSlice(u: seq<Pending>, pos: nat)
    requires PendingIncreasing(u) && PruneBehind(u) && 0 < pos <= |u| && LargestPrune(u[..pos]).Some?
    ensures LargestPrune(u[..pos]).value < u[pos - 1].entry.id
  {
    PruneBeforeLast(u[..pos]);
  }

  lemma PruneSparesRest(u: seq<Pending>, pos: nat)
    requires PendingIncreasing(u) && PruneBehind(u) && pos <= |u| && LargestPrune(u[..pos]).Some?
    ensures forall e :: e in Entries(u[pos..]) ==> LargestPrune(u[..pos]).value < e.id
  {
    var front, rest := u[..pos], u[pos..];
    PruneBeforeLast(front);
    forall e | e in Entries(rest) ensures LargestPrune(front).value < e.id {
      var i :| 0 <= i < |rest| && Entries(rest)[i] == e;
      assert rest[i] == u[pos + i] && Last(front) == u[pos - 1];
    }
  }

  /** Pruning the stored part and the whole buffer alike keeps the pending tail in place. */
  lemma PruneKeepsTail(stored: seq<Entry>, tail: seq<Entry>, next: TransactionId, prune: TransactionId)
    requires Increasing(stored + tail) && IdsBelow(stored + tail, next)
    requires forall e :: e in tail ==> prune < e.id
    ensures Filter(stored + tail, IdAbove(prune)) == Filter(stored, IdAbove(prune)) + tail
    ensures Increasing(Filter(stored + tail, IdAbove(prune))) && IdsBelow(Filter(stored + tail, IdAbove(prune)), next)
  {
    FilterConcat(stored, tail, IdAbove(prune));
    FilterAll(tail, IdAbove(prune));
    FilterIncreasing(stored + tail, IdAbove(prune));
    FilterMembers(stored + tail, IdAbove(prune));
  }

  lemma PrefixAgrees(m: Machine, pos: nat)
    requires Agrees(m) && pos <= |m.actor.uncommitted|
    ensures Agrees(CommitPrefix(m, pos))
  {
    var u := m.actor.uncommitted;
    var prune := LargestPrune(u[..pos]);
    var stored := m.disk.buffer + Entries(u[..pos]);
    assert m.actor.buffer == stored + Entries(u[pos..]) by {
      assert u == u[..pos] + u[pos..];
      EntriesConcat(u[..pos], u[pos..]);
    }
    if prune.Some? {
      PendingOrdered(m);
      PruneSparesRest(u, pos);
      PruneKeepsTail(stored, Entries(u[pos..]), m.actor.next, prune.value);
    }
  }

  lemma CommitAgrees(m: Machine, id: TransactionId)
    requires Agrees(m)
    ensures Agrees(CommitUpTo(m, id))
  {
    PrefixAgrees(m, CommitPosition(m.actor.uncommitted, id));
  }

  lemma OpenAgrees(disk: Snapshot, retention: BlockNumber)
    requires Increasing(disk.buffer) && IdsBelow(disk.buffer, disk.next)
    ensures Agrees(Open(disk, retention))
  {
    assert disk.buffer + [] == disk.buffer;
  }

  lemma FilterKeepsLast(b: seq<Entry>, p: TransactionId)
    requires b != [] && p < Last(b).id
    ensures var after := Filter(b, IdAbove(p)); after != [] && Last(after) == Last(b)
  {
    assert b == Front(b) + [Last(b)];
    FilterConcat(Front(b), [Last(b)], IdAbove(p));
    assert Filter([Last(b)], IdAbove(p)) == [Last(b)];
  }

  lemma PendingNotNewer(m: Machine, i: nat)
    requires Agrees(m) && i < |m.actor.uncommitted|
    ensures m.actor.buffer != [] && m.actor.uncommitted[i].entry.id <= Last(m.actor.buffer).id
  {
    assert m.actor.buffer[|m.disk.buffer| + i] == m.actor.uncommitted[i].entry;
  }

  lemma PruneBeforeNewest(m: Machine, pos: nat)
    requires Agrees(m) && 0 < pos <= |m.actor.uncommitted| && LargestPrune(m.actor.uncommitted[..pos]).Some?
    ensures m.actor.buffer != [] && LargestPrune(m.actor.uncommitted[..pos]).value < Last(m.actor.buffer).id
  {
    PendingOrdered(m);
    PendingNotNewer(m, pos - 1);
    PruneBeforeSlice(m.actor.uncommitted, pos);
  }

  /** The newest watermark survives every commit: pruning never empties a non-empty buffer. */
  lemma CommitKeepsNewest(m: Machine, id: TransactionId)
    requires Agrees(m) && m.actor.buffer != []
    ensures var after := CommitUpTo(m, id).actor.buffer;
            after != [] && Last(after) == Last(m.actor.buffer)
  {
    var pos := CommitPosition(m.actor.uncommitted, id);
    if LargestPrune(m.actor.uncommitted[..pos]).Some? {
      PruneBeforeNewest(m, pos);
      FilterKeepsLast(m.actor.buffer, LargestPrune(m.actor.uncommitted[..pos]).value);
    }
  }

  // ---- What a commit does ----------------------------------------------------------------------------

  /** The watermark is pending with an id up to `id`. */
  ghost predicate PendingUpTo(u: seq<Pending>, id: TransactionId, b: Entry) {
    exists p :: p in u && p.entry == b && p.entry.id <= id
  }

  /** A pending commit with an id up to `id` prunes transaction `tx`. */
  ghost predicate Prunes(u: seq<Pending>, id: TransactionId, tx: TransactionId) {
    exists p :: p in u && p.entry.id <= id && p.prune.Some? && tx <= p.prune.value
  }

  lemma CommitSplits(u: seq<Pending>, id: TransactionId, p: Pending)
    requires PendingIncreasing(u)
    ensures var pos := CommitPosition(u, id);
            && (p in u[..pos] <==> p in u && p.entry.id <= id)
            && (p in u[pos..] <==> p in u && p.entry.id > id)
  {
    var pos := CommitPosition(u, id);
    if p in u {
      var i :| 0 <= i < |u| && u[i] == p;
      if i < pos {
        assert u[..pos][i] == p;
      } else {
        assert u[pos..][i - pos] == p;
      }
    }
  }

  lemma EntriesMember(u: seq<Pending>, b: Entry)
    ensures b in Entries(u) <==> exists p :: p in u && p.entry == b
  {
    if b in Entries(u) {
      var i :| 0 <= i < |u| && Entries(u)[i] == b;
      assert u[i] in u;
    }
    if exists p :: p in u && p.entry == b {
      var p :| p in u && p.entry == b;
      var i :| 0 <= i < |u| && u[i] == p;
      assert Entries(u)[i] == b;
    }
  }

  lemma CommittedEntries(u: seq<Pending>, id: TransactionId, b: Entry)
    requires PendingIncreasing(u)
    ensures b in Entries(u[..CommitPosition(u, id)]) <==> PendingUpTo(u, id, b)
  {
    var front := u[..CommitPosition(u, id)];
    EntriesMember(front, b);
    forall p: Pending ensures p in front <==> p in u && p.entry.id <= id {
      CommitSplits(u, id, p);
    }
  }

  lemma CommittedPrunes(u: seq<Pending>, id: TransactionId, tx: TransactionId)
    requires PendingIncreasing(u)
    ensures var prune := LargestPrune(u[..CommitPosition(u, id)]);
            Prunes(u, id, tx) <==> prune.Some? && tx <= prune.value
  {
    var front := u[..CommitPosition(u, id)];
    var prune := LargestPrune(front);
    if Prunes(u, id, tx) {
      var p :| p in u && p.entry.id <= id && p.prune.Some? && tx <= p.prune.value;
      CommitSplits(u, id, p);
      var i :| 0 <= i < |front| && front[i] == p;
    }
    if prune.Some? && tx <= prune.value {
      var i :| 0 <= i < |front| && front[i].prune == prune;
      assert front[i] in front;
      CommitSplits(u, id, front[i]);
    }
  }

  lemma AfterPruneMember(b: seq<Entry>, prune: Option<TransactionId>, x: Entry)
    ensures x in AfterPrune(b, prune) <==> x in b && !(prune.Some? && x.id <= prune.value)
  {
    if prune.Some? {
      FilterMembers(b, IdAbove(prune.value));
    }
  }

  /**
   * What a commit does: the pending watermarks up to the id leave the queue and are on disk afterwards, with those that
   * were there before, except the ones that a prune point of the commit reaches; the buffer loses those too.
   */
  lemma CommitExactly(m: Machine, id: TransactionId)
    requires Agrees(m)
    ensures var m', u := CommitUpTo(m, id), m.actor.uncommitted;
            && m'.actor.next == m'.disk.next == m.actor.next
            && (forall p :: p in m'.actor.uncommitted <==> p in u && p.entry.id > id)
            && (forall b :: b in m'.disk.buffer <==>
                  (b in m.disk.buffer || PendingUpTo(u, id, b)) && !Prunes(u, id, b.id))
            && (forall b :: b in m'.actor.buffer <==> b in m.actor.buffer && !Prunes(u, id, b.id))
  {
    var u, pos := m.actor.uncommitted, CommitPosition(m.actor.uncommitted, id);
    var prune, stored := LargestPrune(u[..pos]), m.disk.buffer + Entries(u[..pos]);
    PendingOrdered(m);
    forall p: Pending ensures p in u[pos..] <==> p in u && p.entry.id > id {
      CommitSplits(u, id, p);
    }
    forall b: Entry
      ensures b in AfterPrune(stored, prune) <==>
              (b in m.disk.buffer || PendingUpTo(u, id, b)) && !Prunes(u, id, b.id)
      ensures b in AfterPrune(m.actor.buffer, prune) <==> b in m.actor.buffer && !Prunes(u, id, b.id) {
      CommittedEntries(u, id, b);
      CommittedPrunes(u, id, b.id);
      AfterPruneMember(stored, prune, b);
      AfterPruneMember(m.actor.buffer, prune, b);
    }
  }

  // ---- Commits in any order --------------------------------------------------------------------------

  lemma {:induction false} LargestPruneConcat(a: seq<Pending>, b: seq<Pending>)
    ensures LargestPrune(a + b) == Larger(LargestPrune(a), LargestPrune(b))
  {
    if b == [] {
      assert a + b == a;
    } else {
      assert Front(a + b) == a + Front(b) && Last(a + b) == Last(b);
      LargestPruneConcat(a, Front(b));
    }
  }

  lemma PruneTwice(b: seq<Entry>, p: Option<TransactionId>, q: Option<TransactionId>)
    ensures AfterPrune(AfterPrune(b, p), q) == AfterPrune(b, Larger(p, q))
  {
    if p.Some? && q.Some? {
      FilterCompose(b, IdAbove(p.value), IdAbove(q.value), IdAbove(Max(p.value, q.value)));
    }
  }

  ghost predicate SparedBy(p: Option<TransactionId>, tail: seq<Entry>) {
    p.Some? ==> forall e :: e in tail ==> p.value < e.id
  }

  /** A prune point that spares `tail` may be applied before or after `tail` is appended. */
  lemma PruneThenAppend(stored: seq<Entry>, tail: seq<Entry>, p: Option<TransactionId>)
    requires SparedBy(p, tail)
    ensures AfterPrune(stored, p) + tail == AfterPrune(stored + tail, p)
  {
    if p.Some? {
      FilterConcat(stored, tail, IdAbove(p.value));
      FilterAll(tail, IdAbove(p.value));
    }
  }

  lemma StoredCompose(stored: seq<Entry>, tail: seq<Entry>, p: Option<TransactionId>, q: Option<TransactionId>)
    requires SparedBy(p, tail)
    ensures AfterPrune(AfterPrune(stored, p) + tail, q) == AfterPrune(stored + tail, Larger(p, q))
  {
    calc {
      AfterPrune(AfterPrune(stored, p) + tail, q);
      { PruneThenAppend(stored, tail, p); }
      AfterPrune(AfterPrune(stored + tail, p), q);
      { PruneTwice(stored + tail, p, q); }
      AfterPrune(stored + tail, Larger(p, q));
    }
  }

  lemma SparesSlice(u: seq<Pending>, i: nat, j: nat)
    requires PendingIncreasing(u) && PruneBehind(u) && i <= j <= |u| && LargestPrune(u[..i]).Some?
    ensures forall e :: e in Entries(u[i..j]) ==> LargestPrune(u[..i]).value < e.id
  {
    PruneSparesRest(u, i);
    forall e | e in Entries(u[i..j]) ensures e in Entries(u[i..]) {
      var k :| 0 <= k < j - i && Entries(u[i..j])[k] == e;
      assert Entries(u[i..])[k] == e;
    }
  }

  lemma PruneSparesSlice(m: Machine, i: nat, j: nat)
    requires Agrees(m) && i <= j <= |m.actor.uncommitted|
    ensures SparedBy(LargestPrune(m.actor.uncommitted[..i]), Entries(m.actor.uncommitted[i..j]))
  {
    if LargestPrune(m.actor.uncommitted[..i]).Some? {
      PendingOrdered(m);
      SparesSlice(m.actor.uncommitted, i, j);
    }
  }

  /** Moving a prefix over in two steps is moving it over in one. */
  lemma PrefixCompose(m: Machine, i: nat, j: nat)
    requires i <= |m.actor.uncommitted| && j <= |m.actor.uncommitted| - i
    requires SparedBy(LargestPrune(m.actor.uncommitted[..i]), Entries(m.actor.uncommitted[i..i + j]))
    ensures CommitPrefix(CommitPrefix(m, i), j) == CommitPrefix(m, i + j)
  {
    var u := m.actor.uncommitted;
    var a, b := u[..i], u[i..i + j];
    var p, q := LargestPrune(a), LargestPrune(b);
    SliceSplit(u, i, j);
    LargestPruneConcat(a, b);
    StoredEntries(m.disk.buffer, a, b);
    PruneTwice(m.actor.buffer, p, q);
    StoredCompose(m.disk.buffer + Entries(a), Entries(b), p, q);
  }

  lemma {:induction false} PositionCompose(u: seq<Pending>, first: TransactionId, second: TransactionId)
    ensures var i := CommitPosition(u, first);
            CommitPosition(u, Max(first, second)) == i + CommitPosition(u[i..], second)
  {
    if u != [] && u[0].entry.id <= first {
      var i := CommitPosition(u[1..], first);
      PositionCompose(u[1..], first, second);
      assert u[1..][i..] == u[1 + i..];
    } else {
      assert u[0..] == u;
    }
  }

  lemma CommitThenCommit(m: Machine, first: TransactionId, second: TransactionId, i: nat, j: nat)
    requires i == CommitPosition(m.actor.uncommitted, first)
    requires j == CommitPosition(m.actor.uncommitted[i..], second)
    requires SparedBy(LargestPrune(m.actor.uncommitted[..i]), Entries(m.actor.uncommitted[i..i + j]))
    ensures CommitUpTo(CommitUpTo(m, first), second) == CommitUpTo(m, Max(first, second))
  {
    PositionCompose(m.actor.uncommitted, first, second);
    PrefixCompose(m, i, j);
    CommitIsPrefix(m, first, i);
    CommitIsPrefix(CommitPrefix(m, i), second, j);
    CommitIsPrefix(m, Max(first, second), i + j);
  }

  lemma CommitIsPrefix(m: Machine, id: TransactionId, pos: nat)
    requires pos == CommitPosition(m.actor.uncommitted, id)
    ensures CommitUpTo(m, id) == CommitPrefix(m, pos)
  {
  }

  /** Two commits have the effect of the one with the larger id, in either order. */
  lemma CommitCompose(m: Machine, first: TransactionId, second: TransactionId)
    requires Agrees(m)
    ensures CommitUpTo(CommitUpTo(m, first), second) == CommitUpTo(m, Max(first, second))
  {
    var i := CommitPosition(m.actor.uncommitted, first);
    var j := CommitPosition(m.actor.uncommitted[i..], second);
    PruneSparesSlice(m, i, i + j);
    CommitThenCommit(m, first, second, i, j);
  }

  function CommitAll(m: Machine, ids: seq<TransactionId>): Machine {
    if ids == [] then m else CommitUpTo(CommitAll(m, Front(ids)), Last(ids))
  }

  function LargestOf(ids: seq<TransactionId>): TransactionId
    requires ids != []
  {
    if |ids| == 1 then ids[0] else Max(LargestOf(Front(ids)), Last(ids))
  }

  /** Repeated, out-of-order or skipped commit calls all leave what one call with the largest id leaves. */
  lemma {:induction false} CommitOrderInsensitive(m: Machine, ids: seq<TransactionId>)
    requires Agrees(m) && ids != []
    ensures CommitAll(m, ids) == CommitUpTo(m, LargestOf(ids))
    decreases |ids|
  {
    if |ids| == 1 {
      assert Front(ids) == [];
    } else {
      CommitOrderInsensitive(m, Front(ids));
      CommitCompose(m, LargestOf(Front(ids)), Last(ids));
    }
  }
}
