/** When pruning batches is safe: a committed prune point is never reached by a later Undo. */
module CdcRecovery {
  import opened Types
  import opened Sequences
  import opened Transactional
  import opened Recovery
  import opened History
  import opened ExactlyOnce

  /** Everything up to `c` is pruned from the persisted watermarks, and some watermark is left. */
  ghost predicate Committed(disk: Snapshot, c: TransactionId) {
    disk.buffer != [] && forall b :: b in disk.buffer ==> b.id > c
  }

  /** The actor's buffer starts with the persisted one, so it lies above `c` as well. */
  lemma BufferAbove(m: Machine, c: TransactionId, i: nat)
    requires Agrees(m) && Committed(m.disk, c) && i < |m.actor.buffer|
    ensures m.actor.buffer[i].id > c
  {
    assert m.actor.buffer[0] == m.disk.buffer[0] && m.disk.buffer[0] in m.disk.buffer;
    if i > 0 {
      assert m.actor.buffer[0].id < m.actor.buffer[i].id;
    }
  }

  lemma UndoAbove(m: Machine, action: Action, c: TransactionId)
    requires Agrees(m) && Committed(m.disk, c)
    requires var out := Execute(m, action); out.result.Ok? && out.result.value.Undo?
    ensures Execute(m, action).result.value.lo > c
  {
    assert m.actor.buffer[0] == m.disk.buffer[0];
    match action
    case Rewind => BufferAbove(m, c, |m.actor.buffer| - 1);
    case Message(ReorgMessage(_, _, invalidation)) =>
      var k := RecoveryIndex(m.actor.buffer, Points(invalidation));
      BufferAbove(m, c, k);
    case _ =>
  }

  lemma TruncateCommitted(disk: Snapshot, from: TransactionId, c: TransactionId)
    requires Committed(disk, c) && disk.buffer[0].id < from
    ensures Committed(Truncated(disk, from), c)
  {
    FilterMembers(disk.buffer, IdBelow(from));
    assert disk.buffer[0] in Filter(disk.buffer, IdBelow(from));
  }

  /** The recovery watermark is at or after the oldest one, which therefore survives truncation. */
  lemma OldestSurvives(m: Machine, k: nat)
    requires Agrees(m) && m.disk.buffer != [] && k < |m.actor.buffer|
    ensures m.disk.buffer[0].id < m.actor.buffer[k].id + 1
  {
    assert m.actor.buffer[0] == m.disk.buffer[0];
  }

  /** Truncating at the recovery watermark never empties the persisted buffer. */
  lemma ExecuteCommitted(m: Machine, action: Action, c: TransactionId)
    requires Agrees(m) && Committed(m.disk, c)
    ensures Committed(Execute(m, action).machine.disk, c)
  {
    if action.Message? && action.message.ReorgMessage? {
      var k := RecoveryIndex(m.actor.buffer, Points(action.message.invalidation));
      if 0 <= k {
        OldestSurvives(m, k);
        TruncateCommitted(m.disk, m.actor.buffer[k].id + 1, c);
      } else {
        assert m.actor.buffer[0] == m.disk.buffer[0];
      }
    }
  }

  lemma FilterNonEmpty(b: seq<Entry>, p: TransactionId, e: Entry)
    requires e in b && e.id > p
    ensures Filter(b, IdAbove(p)) != []
  {
    FilterMembers(b, IdAbove(p));
    assert e in Filter(b, IdAbove(p));
  }

  lemma CommitCommitted(m: Machine, pos: nat, c: TransactionId)
    requires Agrees(m) && Committed(m.disk, c) && pos <= |m.actor.uncommitted|
    ensures Committed(CommitPrefix(m, pos).disk, c)
  {
    var u := m.actor.uncommitted;
    var stored := m.disk.buffer + Entries(u[..pos]);
    var prune := LargestPrune(u[..pos]);
    StoredIsPrefix(m, pos);
    forall b | b in stored ensures b.id > c {
      var i :| 0 <= i < |stored| && stored[i] == b;
      BufferAbove(m, c, i);
    }
    AfterPruneSubset(stored, prune);
    if prune.Some? {
      PruneInStored(m, pos);
    }
  }

  lemma StoredIsPrefix(m: Machine, pos: nat)
    requires Agrees(m) && pos <= |m.actor.uncommitted|
    ensures var stored := m.disk.buffer + Entries(m.actor.uncommitted[..pos]);
            |stored| <= |m.actor.buffer| && stored == m.actor.buffer[..|stored|]
  {
    var u := m.actor.uncommitted;
    assert u == u[..pos] + u[pos..];
    EntriesConcat(u[..pos], u[pos..]);
  }

  lemma PruneInStored(m: Machine, pos: nat)
    requires Agrees(m) && pos <= |m.actor.uncommitted| && LargestPrune(m.actor.uncommitted[..pos]).Some?
    ensures AfterPrune(m.disk.buffer + Entries(m.actor.uncommitted[..pos]),
                       LargestPrune(m.actor.uncommitted[..pos])) != []
  {
    var u := m.actor.uncommitted;
    var prune := LargestPrune(u[..pos]);
    var i :| 0 <= i < pos && u[i].prune == prune;
    assert u[..pos][i] == u[i];
    EntryAt(u[..pos], i);
    FilterNonEmpty(m.disk.buffer + Entries(u[..pos]), prune.value, u[i].entry);
  }

  lemma {:induction false} EntryAt(u: seq<Pending>, i: nat)
    requires i < |u|
    ensures u[i].entry in Entries(u)
  {
    assert u == u[..i] + ([u[i]] + u[i + 1..]);
    EntriesConcat(u[..i], [u[i]] + u[i + 1..]);
    EntriesConcat([u[i]], u[i + 1..]);
    assert Entries([u[i]]) == [u[i].entry];
  }

  /** The prune point stays committed, and a new event that is an Undo lies above it. */
  ghost predicate StaysCommitted(w: World, w': World, c: TransactionId) {
    && Committed(w'.disk, c)
    && (w'.history != w.history ==>
          w'.history != [] && Front(w'.history) == w.history && (Last(w'.history).Undo? ==> Last(w'.history).lo > c))
  }

  lemma EmitCommitted(w: World, s: Session, out: Outcome, c: TransactionId)
    requires Committed(out.machine.disk, c)
    requires out.result.Ok? && out.result.value.Undo? ==> out.result.value.lo > c
    ensures StaysCommitted(w, Emit(w, s, out), c)
  {
  }

  lemma ActionCommitted(m: Machine, action: Action, c: TransactionId)
    requires Agrees(m) && Committed(m.disk, c)
    ensures var out := Execute(m, action);
            Committed(out.machine.disk, c) && (out.result.Ok? && out.result.value.Undo? ==> out.result.value.lo > c)
  {
    var out := Execute(m, action);
    ExecuteCommitted(m, action, c);
    if out.result.Ok? && out.result.value.Undo? {
      UndoAbove(m, action, c);
    }
  }

  lemma RewindCommitted(w: World, s: Session, c: TransactionId)
    requires Agrees(Machine(s.actor, w.disk)) && Committed(w.disk, c) && w.live == Some(s)
    ensures StaysCommitted(w, Do(w, EmitRewind), c)
  {
    if s.rewindDue {
      var m := Machine(s.actor, w.disk);
      ActionCommitted(m, Rewind, c);
      EmitCommitted(w, s.(rewindDue := false), Execute(m, Rewind), c);
    }
  }

  lemma PumpCommitted(w: World, s: Session, c: TransactionId)
    requires Agrees(Machine(s.actor, w.disk)) && Committed(w.disk, c)
    ensures StaysCommitted(w, DoPump(w, s), c)
  {
    if s.queue != [] {
      var m := Machine(s.actor, w.disk);
      ActionCommitted(m, Message(s.queue[0]), c);
      EmitCommitted(w, Taken(s), Execute(m, Message(s.queue[0])), c);
    }
  }

  lemma HaltCommitted(w: World, s: Session, written: bool, c: TransactionId)
    requires Agrees(Machine(s.actor, w.disk)) && Committed(w.disk, c)
    ensures StaysCommitted(w, DoHalt(w, s, written), c)
  {
    if NextAction(s).Some? {
      ExecuteCommitted(Machine(s.actor, w.disk), NextAction(s).value, c);
    }
  }

  lemma CommitStepCommitted(w: World, s: Session, id: TransactionId, c: TransactionId)
    requires Agrees(Machine(s.actor, w.disk)) && Committed(w.disk, c)
    ensures StaysCommitted(w, DoCommit(w, s, id), c)
  {
    CommitCommitted(Machine(s.actor, w.disk), CommitPosition(s.actor.uncommitted, id), c);
  }

  lemma LiveCommitted(w: World, s: Session, step: Step, c: TransactionId)
    requires Agrees(Machine(s.actor, w.disk)) && Committed(w.disk, c) && w.live == Some(s)
    ensures StaysCommitted(w, Do(w, step), c)
  {
    match step
    case EmitRewind => RewindCommitted(w, s, c);
    case Pump => PumpCommitted(w, s, c);
    case CommitId(id) => CommitStepCommitted(w, s, id, c);
    case Halt(written) => HaltCommitted(w, s, written, c);
    case _ =>
  }

  /** One step keeps a committed prune point committed, and any Undo it emits lies above the point. */
  lemma StepCommitted(w: World, step: Step, c: TransactionId)
    requires Inv(w) && Committed(w.disk, c)
    ensures StaysCommitted(w, Do(w, step), c)
  {
    if w.live.Some? {
      LiveCommitted(w, w.live.value, step, c);
    }
  }

  /**
   * Once a prune point is committed, no Undo of any continuation, crashes included, reaches down to it: the
   * batches pruned with it will never be needed for a Delete.
   */
  lemma {:induction false} CommittedPruneIsFinal(w: World, steps: seq<Step>, c: TransactionId)
    requires Inv(w) && Committed(w.disk, c)
    ensures Committed(Run(w, steps).disk, c)
    ensures forall e :: e in Run(w, steps).history && e !in w.history && e.Undo? ==> e.lo > c
  {
    if steps == [] {
    } else {
      CommittedPruneIsFinal(w, Front(steps), c);
      RunKeeps(w, Front(steps));
      StepCommitted(Run(w, Front(steps)), Last(steps), c);
      NewestOnly(Run(w, Front(steps)).history, Run(w, steps).history);
    }
  }

  /** A step emits at most one event. */
  lemma StepHistory(w: World, step: Step)
    ensures Do(w, step).history == w.history ||
            (Do(w, step).history != [] && Front(Do(w, step).history) == w.history)
  {
  }
}
