/** The reference state store (crates/client/src/store/memory.rs). */
module StateStore {
  import opened Types
  import opened Sequences
  import Transactional

  class InMemoryStateStore {
    var state: Snapshot

    constructor ()
      ensures state == Snapshot(0, [])
    {
      state := Snapshot(0, []);
    }

    method Advance(next: TransactionId)
      modifies this
      ensures state == old(state).(next := next)
    {
      state := state.(next := next);
    }

    method Commit(commit: Commit)
      modifies this
      ensures state == Transactional.Persisted(old(state), commit)
    {
      if commit.prune.Some? {
        state := state.(buffer := Filter(state.buffer, Transactional.IdAbove(commit.prune.value)));
      }
      ghost var pruned := state;
      var i := 0;
      while i < |commit.insert|
        invariant 0 <= i <= |commit.insert|
        invariant state == pruned.(buffer := pruned.buffer + commit.insert[..i])
      {
        state := state.(buffer := state.buffer + [commit.insert[i]]);
        i := i + 1;
      }
    }

    method Truncate(from: TransactionId)
      modifies this
      ensures state == Transactional.Truncated(old(state), from)
    {
      state := state.(buffer := Filter(state.buffer, Transactional.IdBelow(from)));
    }

    method Load() returns (s: Snapshot)
      ensures s == state
    {
      s := state;
    }
  }
}
