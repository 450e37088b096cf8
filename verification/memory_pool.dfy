/** Two-level memory accounting: one parent pool shared by many child pools. */
module MemoryPools {
  import opened Types

  /** A pool that grants a request when it fits its limit; without a limit it grants everything. */
  datatype Pool = Pool(limit: Option<nat>, reserved: nat)

  predicate Fits(p: Pool, n: nat) {
    p.limit.None? || p.reserved + n <= p.limit.value
  }

  function Grown(p: Pool, n: nat): Pool {
    p.(reserved := p.reserved + n)
  }

  function Shrunk(p: Pool, n: nat): Pool {
    p.(reserved := if n <= p.reserved then p.reserved - n else 0)
  }

  function Min(a: nat, b: nat): nat {
    if a <= b then a else b
  }

  // ---- One caller at a time --------------------------------------------------------------------------

  class MemoryPool {
    var state: Pool

    constructor (limit: Option<nat>)
      ensures state == Pool(limit, 0)
    {
      state := Pool(limit, 0);
    }

    method Grow(n: nat)
      modifies this
      ensures state == Grown(old(state), n)
    {
      state := state.(reserved := state.reserved + n);
    }

    method TryGrow(n: nat) returns (ok: bool)
      modifies this
      ensures ok == Fits(old(state), n)
      ensures state == if ok then Grown(old(state), n) else old(state)
    {
      ok := state.limit.None? || state.reserved + n <= state.limit.value;
      if ok {
        state := state.(reserved := state.reserved + n);
      }
    }

    method Shrink(n: nat)
      requires n <= state.reserved
      modifies this
      ensures state == Shrunk(old(state), n)
    {
      state := state.(reserved := state.reserved - n);
    }
  }

  class TieredMemoryPool {
    const parent: MemoryPool
    const child: MemoryPool
    var peakReserved: nat

    ghost predicate Valid()
      reads this
    {
      parent != child
    }

    constructor (parent: MemoryPool, child: MemoryPool)
      requires parent != child
      ensures Valid() && this.parent == parent && this.child == child && peakReserved == 0
    {
      this.parent := parent;
      this.child := child;
      peakReserved := 0;
    }

    /** The effective reservation under the stricter account. */
    ghost function Effective(): nat
      reads this, parent, child
    {
      Min(parent.state.reserved, child.state.reserved)
    }

    method Reserved() returns (n: nat)
      ensures n == Effective()
    {
      n := if parent.state.reserved <= child.state.reserved then parent.state.reserved else child.state.reserved;
    }

    method UpdatePeak()
      modifies this
      ensures peakReserved == Max(old(peakReserved), Effective())
    {
      var current := Reserved();
      if current > peakReserved {
        peakReserved := current;
      }
    }

    method Grow(n: nat)
      requires Valid()
      modifies this, parent, child
      ensures parent.state == Grown(old(parent.state), n) && child.state == Grown(old(child.state), n)
      ensures peakReserved == Max(old(peakReserved), Effective())
    {
      parent.Grow(n);
      child.Grow(n);
      UpdatePeak();
    }

    method Shrink(n: nat)
      requires Valid() && n <= child.state.reserved && n <= parent.state.reserved
      modifies parent, child
      ensures parent.state == Shrunk(old(parent.state), n) && child.state == Shrunk(old(child.state), n)
    {
      child.Shrink(n);
      parent.Shrink(n);
    }

    /** Both limits must allow the request; otherwise nothing changes. */
    method TryGrow(n: nat) returns (ok: bool)
      requires Valid()
      modifies this, parent, child
      ensures ok <==> Fits(old(parent.state), n) && Fits(old(child.state), n)
      ensures ok ==> parent.state == Grown(old(parent.state), n) && child.state == Grown(old(child.state), n)
      ensures ok ==> peakReserved == Max(old(peakReserved), Effective())
      ensures !ok ==> parent.state == old(parent.state) && child.state == old(child.state) &&
                      peakReserved == old(peakReserved)
    {
      ok := parent.TryGrow(n);
      if ok {
        ok := child.TryGrow(n);
        if ok {
          UpdatePeak();
        } else {
          parent.Shrink(n);
        }
      }
    }
  }

  // ---- Many callers ----------------------------------------------------------------------------------

  /** A call that is under way: its next action on one of the pools. */
  datatype Call =
    | GrowChild(child: nat, n: nat)
    | TryGrowChild(child: nat, n: nat)
    | ShrinkParent(child: nat, n: nat)          // the second half of a shrink, or the rollback of a failed try
    | LoadParent(child: nat)                    // the three reads and writes of the peak update
    | LoadChild(child: nat, parentSeen: nat)
    | StorePeak(child: nat, value: nat)

  datatype Child = Child(pool: Pool, peak: nat)

  datatype System = System(parent: Pool, children: seq<Child>, calls: seq<Call>)

  datatype Step =
    | StartGrow(child: nat, n: nat)
    | StartTryGrow(child: nat, n: nat)
    | StartShrink(child: nat, n: nat)
    | Continue(call: nat)

  function WithChild(s: System, c: nat, pool: Pool): System
    requires c < |s.children|
  {
    s.(children := s.children[c := s.children[c].(pool := pool)])
  }

  function Without(calls: seq<Call>, i: nat): seq<Call>
    requires i < |calls|
  {
    calls[..i] + calls[i + 1..]
  }

  function Proceed(s: System, i: nat): System
    requires i < |s.calls| && s.calls[i].child < |s.children|
  {
    var c := s.calls[i].child;
    var pool := s.children[c].pool;
    match s.calls[i]
    case GrowChild(_, n) => WithChild(s, c, Grown(pool, n)).(calls := s.calls[i := LoadParent(c)])
    case TryGrowChild(_, n) =>
      if Fits(pool, n) then WithChild(s, c, Grown(pool, n)).(calls := s.calls[i := LoadParent(c)])
      else s.(calls := s.calls[i := ShrinkParent(c, n)])
    case ShrinkParent(_, n) => s.(parent := Shrunk(s.parent, n), calls := Without(s.calls, i))
    case LoadParent(_) => s.(calls := s.calls[i := LoadChild(c, s.parent.reserved)])
    case LoadChild(_, seen) => s.(calls := s.calls[i := StorePeak(c, Min(seen, pool.reserved))])
    case StorePeak(_, value) =>
      s.(children := s.children[c := s.children[c].(peak := Max(s.children[c].peak, value))],
         calls := Without(s.calls, i))
  }

  /** One atomic action of some caller; a step that is not possible changes nothing. */
  function Do(s: System, step: Step): System {
    match step
    case StartGrow(c, n) =>
      if c < |s.children| then s.(parent := Grown(s.parent, n), calls := s.calls + [GrowChild(c, n)]) else s
    case StartTryGrow(c, n) =>
      if c < |s.children| && Fits(s.parent, n)
      then s.(parent := Grown(s.parent, n), calls := s.calls + [TryGrowChild(c, n)]) else s
    case StartShrink(c, n) =>
      if c < |s.children| && n <= s.children[c].pool.reserved
      then WithChild(s, c, Shrunk(s.children[c].pool, n)).(calls := s.calls + [ShrinkParent(c, n)]) else s
    case Continue(i) =>
      if i < |s.calls| && s.calls[i].child < |s.children| then Proceed(s, i) else s
  }

  function Run(s: System, steps: seq<Step>): System {
    if steps == [] then s else Do(Run(s, Front(steps)), Last(steps))
  }

  // ---- Conservation ----------------------------------------------------------------------------------

  /** What a call under way holds in the parent that its child does not account for. */
  function Held(call: Call): nat {
    match call
    case GrowChild(_, n) => n
    case TryGrowChild(_, n) => n
    case ShrinkParent(_, n) => n
    case _ => 0
  }

  function TotalHeld(calls: seq<Call>): nat {
    if calls == [] then 0 else TotalHeld(Front(calls)) + Held(Last(calls))
  }

  function TotalReserved(children: seq<Child>): nat {
    if children == [] then 0 else TotalReserved(Front(children)) + Last(children).pool.reserved
  }

  /** The parent accounts for all children and all calls under way. */
  ghost predicate Conserved(s: System) {
    s.parent.reserved == TotalReserved(s.children) + TotalHeld(s.calls)
  }

  lemma {:induction false} HeldUpdate(calls: seq<Call>, i: nat, call: Call)
    requires i < |calls|
    ensures TotalHeld(calls[i := call]) == TotalHeld(calls) - Held(calls[i]) + Held(call)
  {
    var after := calls[i := call];
    if i == |calls| - 1 {
      assert Front(after) == Front(calls);
    } else {
      HeldUpdate(Front(calls), i, call);
      assert Front(after) == Front(calls)[i := call];
    }
  }

  lemma {:induction false} HeldWithout(calls: seq<Call>, i: nat)
    requires i < |calls|
    ensures TotalHeld(Without(calls, i)) == TotalHeld(calls) - Held(calls[i])
  {
    if i == |calls| - 1 {
      assert Without(calls, i) == Front(calls);
    } else {
      HeldWithout(Front(calls), i);
      assert Front(Without(calls, i)) == Without(Front(calls), i);
    }
  }

  lemma HeldSnoc(calls: seq<Call>, call: Call)
    ensures TotalHeld(calls + [call]) == TotalHeld(calls) + Held(call)
  {
    assert Front(calls + [call]) == calls;
  }

  lemma {:induction false} ReservedUpdate(children: seq<Child>, c: nat, child: Child)
    requires c < |children|
    ensures TotalReserved(children[c := child]) ==
            TotalReserved(children) - children[c].pool.reserved + child.pool.reserved
  {
    var after := children[c := child];
    if c == |children| - 1 {
      assert Front(after) == Front(children);
    } else {
      ReservedUpdate(Front(children), c, child);
      assert Front(after) == Front(children)[c := child];
    }
  }

  lemma {:induction false} HeldOne(calls: seq<Call>, i: nat)
    requires i < |calls|
    ensures Held(calls[i]) <= TotalHeld(calls)
  {
    if i < |calls| - 1 {
      HeldOne(Front(calls), i);
    }
  }

  lemma {:induction false} ReservedOne(children: seq<Child>, c: nat)
    requires c < |children|
    ensures children[c].pool.reserved <= TotalReserved(children)
  {
    if c < |children| - 1 {
      ReservedOne(Front(children), c);
    }
  }

  lemma ProceedConserves(s: System, i: nat)
    requires Conserved(s) && i < |s.calls| && s.calls[i].child < |s.children|
    ensures Conserved(Proceed(s, i))
  {
    var s' := Proceed(s, i);
    var c := s.calls[i].child;
    HeldOne(s.calls, i);
    if |s'.calls| == |s.calls| {
      HeldUpdate(s.calls, i, s'.calls[i]);
    } else {
      HeldWithout(s.calls, i);
    }
    ReservedUpdate(s.children, c, s'.children[c]);
    assert s.children[c := s.children[c]] == s.children;
  }

  lemma StepConserves(s: System, step: Step)
    requires Conserved(s)
    ensures Conserved(Do(s, step))
  {
    match step
    case StartGrow(c, n) => HeldSnoc(s.calls, GrowChild(c, n));
    case StartTryGrow(c, n) => HeldSnoc(s.calls, TryGrowChild(c, n));
    case StartShrink(c, n) =>
      if c < |s.children| && n <= s.children[c].pool.reserved {
        HeldSnoc(s.calls, ShrinkParent(c, n));
        ReservedUpdate(s.children, c, s.children[c].(pool := Shrunk(s.children[c].pool, n)));
      }
    case Continue(i) =>
      if i < |s.calls| && s.calls[i].child < |s.children| {
        ProceedConserves(s, i);
      }
  }

  /** Every interleaving of calls conserves memory, so between calls the parent is the sum of the children. */
  lemma {:induction false} MemoryConserved(s: System, steps: seq<Step>)
    requires Conserved(s)
    ensures Conserved(Run(s, steps))
    ensures Run(s, steps).calls == [] ==> Run(s, steps).parent.reserved == TotalReserved(Run(s, steps).children)
  {
    if steps == [] {
    } else {
      MemoryConserved(s, Front(steps));
      StepConserves(Run(s, Front(steps)), Last(steps));
    }
  }

  /**
   * At every moment the smaller of the two accounts is the child's, so it is what a tiered pool reports; and giving
   * memory back never takes the parent below zero.
   */
  lemma ReportedIsChild(s: System, steps: seq<Step>)
    requires Conserved(s)
    ensures var t := Run(s, steps);
            && (forall c :: 0 <= c < |t.children| ==>
                  Min(t.parent.reserved, t.children[c].pool.reserved) == t.children[c].pool.reserved)
            && (forall i :: 0 <= i < |t.calls| && t.calls[i].ShrinkParent? ==> t.calls[i].n <= t.parent.reserved)
  {
    MemoryConserved(s, steps);
    var t := Run(s, steps);
    forall c | 0 <= c < |t.children| ensures t.children[c].pool.reserved <= t.parent.reserved {
      ReservedOne(t.children, c);
    }
    forall i | 0 <= i < |t.calls| && t.calls[i].ShrinkParent? ensures t.calls[i].n <= t.parent.reserved {
      HeldOne(t.calls, i);
    }
  }

  /** A failed try is undone completely. */
  lemma FailedTryChangesNothing(s: System, c: nat, n: nat)
    requires c < |s.children| && Fits(s.parent, n) && !Fits(s.children[c].pool, n)
    ensures var last := Continue(|s.calls|);
            Do(Do(Do(s, StartTryGrow(c, n)), last), last) == s
  {
    var s1 := Do(s, StartTryGrow(c, n));
    var s2 := Do(s1, Continue(|s.calls|));
    assert s2.calls == s.calls + [ShrinkParent(c, n)];
    assert Without(s2.calls, |s.calls|) == s.calls;
  }

  // ---- Limits ----------------------------------------------------------------------------------------

  ghost predicate WithinLimit(p: Pool) {
    p.limit.Some? ==> p.reserved <= p.limit.value
  }

  ghost predicate WithinLimits(s: System) {
    && WithinLimit(s.parent)
    && (forall c :: 0 <= c < |s.children| ==> WithinLimit(s.children[c].pool))
    && (forall i :: 0 <= i < |s.calls| ==> !s.calls[i].GrowChild?)
  }

  lemma StepWithinLimits(s: System, step: Step)
    requires WithinLimits(s) && !step.StartGrow?
    ensures WithinLimits(Do(s, step))
  {
  }

  /** As long as memory is only requested with the fallible call, no limit is ever exceeded. */
  lemma {:induction false} LimitsHold(s: System, steps: seq<Step>)
    requires WithinLimits(s) && forall i :: 0 <= i < |steps| ==> !steps[i].StartGrow?
    ensures WithinLimits(Run(s, steps))
  {
    if steps == [] {
    } else {
      LimitsHold(s, Front(steps));
      StepWithinLimits(Run(s, Front(steps)), Last(steps));
    }
  }

  // ---- Peaks -----------------------------------------------------------------------------------------

  function ReservedBy(s: System, c: nat): nat {
    if c < |s.children| then s.children[c].pool.reserved else 0
  }

  /** The most a child has had reserved at any moment of a run. */
  function HighWater(s: System, steps: seq<Step>, c: nat): nat {
    if steps == [] then ReservedBy(s, c) else Max(HighWater(s, Front(steps), c), ReservedBy(Run(s, steps), c))
  }

  ghost predicate PeaksBelow(s: System, c: nat, high: nat) {
    && ReservedBy(s, c) <= high
    && (c < |s.children| ==> s.children[c].peak <= high)
    && (forall i :: 0 <= i < |s.calls| && s.calls[i].child == c && s.calls[i].StorePeak? ==> s.calls[i].value <= high)
  }

  lemma StepPeaks(s: System, step: Step, c: nat, high: nat)
    requires PeaksBelow(s, c, high)
    ensures PeaksBelow(Do(s, step), c, Max(high, ReservedBy(Do(s, step), c)))
  {
  }

  /** A recorded peak never exceeds what the child really had reserved at some moment. */
  lemma {:induction false} PeakWasReached(s: System, steps: seq<Step>, c: nat)
    requires PeaksBelow(s, c, ReservedBy(s, c))
    ensures PeaksBelow(Run(s, steps), c, HighWater(s, steps, c))
    ensures c < |Run(s, steps).children| ==> Run(s, steps).children[c].peak <= HighWater(s, steps, c)
  {
    if steps == [] {
    } else {
      PeakWasReached(s, Front(steps), c);
      StepPeaks(Run(s, Front(steps)), Last(steps), c, HighWater(s, Front(steps), c));
    }
  }
}
