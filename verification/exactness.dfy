/** Delta correctness of every rewritable plan: exact if and only if the plan has no surplus. */
module Exactness {
  import opened Types
  import opened Bags
  import opened Plans
  import opened Incrementality
  import opened Surpluses

  /** The rows of a plan before a microbatch, those the microbatch writes, and the rows after it. */
  datatype Stages = Stages(before: List<Tuple>, delta: List<Tuple>, after: List<Tuple>)

  ghost function StagesOf(p: Plan, db: Database, b: Bounds): Stages
    requires Incrementalize(p, b.start, b.end).Ok?
  {
    Stages(Eval(p, AsOf(db, b.start)), Eval(Incrementalize(p, b.start, b.end).value, db), Eval(p, AsOf(db, b.end + 1)))
  }

  /** The microbatch adds what changed and `more`, as multisets. */
  ghost predicate Balanced(s: Stages, more: List<Tuple>) {
    Bag(s.before) + Bag(s.delta) == Bag(s.after) + Bag(more)
  }

  /** What the rewritten sides of a join evaluate to. */
  lemma JoinSides(kind: JoinType, on: Match, left: Plan, right: Plan, b: Bounds)
    requires Incrementalize(Join(kind, on, left, right), b.start, b.end).Ok?
    ensures IncrementalJoin(kind) && JoinFree(left) && JoinFree(right)
    ensures Rewrite(left, b.start, b.end, Delta).Ok? && Rewrite(left, b.start, b.end, History).Ok?
    ensures Rewrite(right, b.start, b.end, Delta).Ok? && Rewrite(right, b.start, b.end, History).Ok?
  {
    RewrittenJoin(kind, on, left, right, map[], b.start, b.end);
  }

  /** The three terms a rewritten join evaluates to, up to order. */
  lemma JoinTerms(kind: JoinType, on: Match, left: Plan, right: Plan, db: Database, b: Bounds)
    requires Incrementalize(Join(kind, on, left, right), b.start, b.end).Ok?
    ensures var l, r := SideOf(left, db, b), SideOf(right, db, b);
            Bag(Eval(Incrementalize(Join(kind, on, left, right), b.start, b.end).value, db)) ==
            Bag(Joined(kind, on, Written(l, b), Earlier(r, b))) + Bag(Joined(kind, on, Earlier(l, b), Written(r, b))) +
            Bag(Joined(kind, on, Written(l, b), Written(r, b)))
  {
    RewrittenJoin(kind, on, left, right, db, b.start, b.end);
    var l, r := SideOf(left, db, b), SideOf(right, db, b);
    SideAsOf(left, db, b);
    SideAsOf(right, db, b);
    SideWritten(left, db, b);
    SideWritten(right, db, b);
    BagConcat(Deltas(l.rows, b.start, b.end), l.again);
    BagConcat(Deltas(r.rows, b.start, b.end), r.again);
    var (dl, dr) := (Eval(Rewrite(left, b.start, b.end, Delta).value, db),
                     Eval(Rewrite(right, b.start, b.end, Delta).value, db));
    JoinedBag(kind, on, dl, Written(l, b), Earlier(r, b), Earlier(r, b));
    JoinedBag(kind, on, Earlier(l, b), Earlier(l, b), dr, Written(r, b));
    JoinedBag(kind, on, dl, Written(l, b), dr, Written(r, b));
    ThreeRowsBag(Joined(kind, on, dl, Earlier(r, b)), Joined(kind, on, Earlier(l, b), dr), Joined(kind, on, dl, dr));
  }

  /** A join as of a block joins what its sides return as of that block. */
  lemma JoinAsOfSides(kind: JoinType, on: Match, left: Plan, right: Plan, db: Database, b: Bounds)
    requires JoinFree(left) && Rewrite(left, b.start, b.end, History).Ok?
    requires JoinFree(right) && Rewrite(right, b.start, b.end, History).Ok?
    ensures var l, r := SideOf(left, db, b), SideOf(right, db, b);
            && Eval(Join(kind, on, left, right), AsOf(db, b.start)) == Joined(kind, on, Earlier(l, b), Earlier(r, b))
            && Eval(Join(kind, on, left, right), AsOf(db, b.end + 1)) == Joined(kind, on, UpTo(l, b), UpTo(r, b))
  {
    SideAsOf(left, db, b);
    SideAsOf(right, db, b);
  }

  lemma TermsBalanced(kind: JoinType, on: Match, l: Side, r: Side, b: Bounds, delta: List<Tuple>)
    requires IncrementalJoin(kind) && b.start <= b.end && Repeats(l, b) && Repeats(r, b)
    requires Bag(delta) ==
             Bag(Joined(kind, on, Written(l, b), Earlier(r, b))) + Bag(Joined(kind, on, Earlier(l, b), Written(r, b))) +
             Bag(Joined(kind, on, Written(l, b), Written(r, b)))
    ensures Balanced(Stages(Joined(kind, on, Earlier(l, b), Earlier(r, b)), delta,
                            Joined(kind, on, UpTo(l, b), UpTo(r, b))), JoinSurplus(kind, on, l, r, b))
  {
    JoinRows(kind, on, l, r, b);
  }

  lemma JoinRowsBalanced(kind: JoinType, on: Match, left: Plan, right: Plan, db: Database, b: Bounds)
    requires b.start <= b.end && Incrementalize(Join(kind, on, left, right), b.start, b.end).Ok?
    ensures var l, r := SideOf(left, db, b), SideOf(right, db, b);
            var delta := Eval(Incrementalize(Join(kind, on, left, right), b.start, b.end).value, db);
            Balanced(Stages(Joined(kind, on, Earlier(l, b), Earlier(r, b)), delta,
                            Joined(kind, on, UpTo(l, b), UpTo(r, b))), JoinSurplus(kind, on, l, r, b))
  {
    JoinSides(kind, on, left, right, b);
    JoinTerms(kind, on, left, right, db, b);
    SideRepeats(left, db, b);
    SideRepeats(right, db, b);
    TermsBalanced(kind, on, SideOf(left, db, b), SideOf(right, db, b), b,
                  Eval(Incrementalize(Join(kind, on, left, right), b.start, b.end).value, db));
  }

  lemma JoinSurplusOf(kind: JoinType, on: Match, left: Plan, right: Plan, db: Database, b: Bounds)
    ensures Surplus(Join(kind, on, left, right), db, b) ==
            JoinSurplus(kind, on, SideOf(left, db, b), SideOf(right, db, b), b)
  {
  }

  lemma StagesBalanced(p: Plan, db: Database, b: Bounds, before: List<Tuple>, after: List<Tuple>, more: List<Tuple>)
    requires Incrementalize(p, b.start, b.end).Ok?
    requires before == Eval(p, AsOf(db, b.start)) && after == Eval(p, AsOf(db, b.end + 1)) && more == Surplus(p, db, b)
    requires Balanced(Stages(before, Eval(Incrementalize(p, b.start, b.end).value, db), after), more)
    ensures Balanced(StagesOf(p, db, b), Surplus(p, db, b))
  {
  }

  lemma JoinBalanced(kind: JoinType, on: Match, left: Plan, right: Plan, db: Database, b: Bounds)
    requires b.start <= b.end && Incrementalize(Join(kind, on, left, right), b.start, b.end).Ok?
    ensures Balanced(StagesOf(Join(kind, on, left, right), db, b), Surplus(Join(kind, on, left, right), db, b))
  {
    var p, l, r := Join(kind, on, left, right), SideOf(left, db, b), SideOf(right, db, b);
    JoinSides(kind, on, left, right, b);
    JoinRowsBalanced(kind, on, left, right, db, b);
    JoinAsOfSides(kind, on, left, right, db, b);
    JoinSurplusOf(kind, on, left, right, db, b);
    StagesBalanced(p, db, b, Joined(kind, on, Earlier(l, b), Earlier(r, b)), Joined(kind, on, UpTo(l, b), UpTo(r, b)),
                   JoinSurplus(kind, on, l, r, b));
  }

  lemma SplitBalanced(rows: List<Tuple>, delta: List<Tuple>, more: List<Tuple>, b: Bounds)
    requires b.start <= b.end && Bag(delta) == Bag(Deltas(rows, b.start, b.end)) + Bag(more)
    ensures Balanced(Stages(Filter(rows, ByTime(b.start)), delta, Filter(rows, ByTime(b.end + 1))), more)
  {
    SplitByTime(rows, b.start, b.end);
  }

  lemma LeafAsOf(p: Plan, db: Database, b: Bounds)
    requires JoinFree(p)
    ensures Eval(p, AsOf(db, b.start)) == Filter(Eval(p, db), ByTime(b.start))
    ensures Eval(p, AsOf(db, b.end + 1)) == Filter(Eval(p, db), ByTime(b.end + 1))
  {
    JoinFreeIsInner(p);
    EvalAsOf(p, db, b.start);
    EvalAsOf(p, db, b.end + 1);
  }

  lemma LeafBalanced(p: Plan, db: Database, b: Bounds)
    requires b.start <= b.end && JoinFree(p) && Incrementalize(p, b.start, b.end).Ok?
    ensures Balanced(StagesOf(p, db, b), Surplus(p, db, b))
  {
    LeafAsOf(p, db, b);
    SideWritten(p, db, b);
    var delta, more := Eval(Incrementalize(p, b.start, b.end).value, db), Surplus(p, db, b);
    SplitBalanced(Eval(p, db), delta, more, b);
    StagesBalanced(p, db, b, Filter(Eval(p, db), ByTime(b.start)), Filter(Eval(p, db), ByTime(b.end + 1)), more);
  }

  lemma LinearBalanced(op: LinearOp, s: Stages, more: List<Tuple>)
    requires Balanced(s, more)
    ensures Balanced(Stages(FlatMap(s.before, Apply(op)), FlatMap(s.delta, Apply(op)), FlatMap(s.after, Apply(op))),
                     FlatMap(more, Apply(op)))
  {
    BagConcat(s.after, more);
    LinearSplit(op, Concat(s.after, more), s.before, s.delta);
    LinearSplit(op, Concat(s.after, more), s.after, more);
  }

  lemma ConcatBalanced(s: Stages, more: List<Tuple>, t: Stages, rest: List<Tuple>)
    requires Balanced(s, more) && Balanced(t, rest)
    ensures Balanced(Stages(Concat(s.before, t.before), Concat(s.delta, t.delta), Concat(s.after, t.after)),
                     Concat(more, rest))
  {
    BagConcat(s.before, s.delta);
    BagConcat(t.before, t.delta);
    ConcatSplit(Concat(s.before, s.delta), Concat(t.before, t.delta), s.before, s.delta, t.before, t.delta);
    ConcatSplit(Concat(s.before, s.delta), Concat(t.before, t.delta), s.after, more, t.after, rest);
  }

  lemma LinearPlanBalanced(op: LinearOp, input: Plan, db: Database, b: Bounds)
    requires Incrementalize(input, b.start, b.end).Ok? && Balanced(StagesOf(input, db, b), Surplus(input, db, b))
    ensures Incrementalize(Linear(op, input), b.start, b.end).Ok?
    ensures Balanced(StagesOf(Linear(op, input), db, b), Surplus(Linear(op, input), db, b))
  {
    var s := StagesOf(input, db, b);
    LinearBalanced(op, s, Surplus(input, db, b));
    assert StagesOf(Linear(op, input), db, b) ==
           Stages(FlatMap(s.before, Apply(op)), FlatMap(s.delta, Apply(op)), FlatMap(s.after, Apply(op)));
  }

  /** The stages of a union, input by input. */
  ghost function StagesOfAll(ps: seq<Plan>, db: Database, b: Bounds): Stages
    requires RewriteAll(ps, b.start, b.end, Delta).Ok?
  {
    Stages(EvalAll(ps, AsOf(db, b.start)), EvalAll(RewriteAll(ps, b.start, b.end, Delta).value, db),
           EvalAll(ps, AsOf(db, b.end + 1)))
  }

  lemma UnionBalanced(inputs: seq<Plan>, db: Database, b: Bounds)
    requires RewriteAll(inputs, b.start, b.end, Delta).Ok?
    requires Balanced(StagesOfAll(inputs, db, b), SurplusAll(inputs, db, b))
    ensures Incrementalize(Union(inputs), b.start, b.end).Ok?
    ensures Balanced(StagesOf(Union(inputs), db, b), Surplus(Union(inputs), db, b))
  {
    assert StagesOf(Union(inputs), db, b) == StagesOfAll(inputs, db, b);
  }

  /**
   * For every plan the rewrite accepts: what was there before the microbatch, plus what it writes, is what is there
   * after it plus the surplus, as multisets.
   */
  lemma {:induction false} DeltaSurplus(p: Plan, db: Database, b: Bounds)
    requires b.start <= b.end && Incrementalize(p, b.start, b.end).Ok?
    ensures Balanced(StagesOf(p, db, b), Surplus(p, db, b))
    decreases p
  {
    match p
    case Linear(op, input) =>
      DeltaSurplus(input, db, b);
      LinearPlanBalanced(op, input, db, b);
    case Union(inputs) =>
      AllBalanced(inputs, db, b);
      UnionBalanced(inputs, db, b);
    case Join(kind, on, left, right) => JoinBalanced(kind, on, left, right, db, b);
    case _ => LeafBalanced(p, db, b);
  }

  lemma UnionStages(p: Plan, ps: seq<Plan>, db: Database, b: Bounds)
    requires Incrementalize(p, b.start, b.end).Ok? && RewriteAll(ps, b.start, b.end, Delta).Ok?
    ensures RewriteAll([p] + ps, b.start, b.end, Delta).Ok?
    ensures var s, t := StagesOf(p, db, b), StagesOfAll(ps, db, b);
            StagesOfAll([p] + ps, db, b) ==
            Stages(Concat(s.before, t.before), Concat(s.delta, t.delta), Concat(s.after, t.after))
    ensures SurplusAll([p] + ps, db, b) == Concat(Surplus(p, db, b), SurplusAll(ps, db, b))
  {
    var q, qs := Incrementalize(p, b.start, b.end).value, RewriteAll(ps, b.start, b.end, Delta).value;
    assert ([p] + ps)[1..] == ps && ([q] + qs)[1..] == qs;
  }

  lemma {:induction false} AllBalanced(ps: seq<Plan>, db: Database, b: Bounds)
    requires b.start <= b.end && RewriteAll(ps, b.start, b.end, Delta).Ok?
    ensures Balanced(StagesOfAll(ps, db, b), SurplusAll(ps, db, b))
    decreases ps
  {
    if ps == [] {
    } else {
      DeltaSurplus(ps[0], db, b);
      AllBalanced(ps[1..], db, b);
      assert ps == [ps[0]] + ps[1..];
      UnionStages(ps[0], ps[1..], db, b);
      ConcatBalanced(StagesOf(ps[0], db, b), Surplus(ps[0], db, b), StagesOfAll(ps[1..], db, b),
                     SurplusAll(ps[1..], db, b));
    }
  }

  /** The microbatch adds exactly what changed, duplicates included. */
  ghost predicate Exact(s: Stages) {
    Bag(s.before) + Bag(s.delta) == Bag(s.after)
  }

  lemma NothingMore<T>(all: multiset<T>, more: List<T>)
    ensures all + Bag(more) == all <==> more == Nil
  {
    if more.Cons? {
      assert (all + Bag(more))[more.head] > all[more.head];
    }
  }

  lemma BalancedExact(s: Stages, more: List<Tuple>)
    requires Balanced(s, more)
    ensures Exact(s) <==> more == Nil
  {
    NothingMore(Bag(s.after), more);
  }

  /** The delta rule is exact for a plan if and only if the plan has no surplus. */
  lemma ExactWithoutSurplus(p: Plan, db: Database, b: Bounds)
    requires b.start <= b.end && Incrementalize(p, b.start, b.end).Ok?
    ensures Exact(StagesOf(p, db, b)) <==> Surplus(p, db, b) == Nil
  {
    DeltaSurplus(p, db, b);
    BalancedExact(StagesOf(p, db, b), Surplus(p, db, b));
  }

  // ---- As sets of rows -------------------------------------------------------------------------------

  /** The row a matching pair contributes. */
  function Output(kind: JoinType, l: Tuple, r: Tuple): Tuple {
    match kind
    case LeftSemi => l
    case RightSemi => r
    case _ => Combine(l, r)
  }

  ghost predicate FromPair(kind: JoinType, on: Match, left: List<Tuple>, right: List<Tuple>, t: Tuple) {
    exists l, r :: Has(left, l) && Has(right, r) && on(l.values, r.values) && t == Output(kind, l, r)
  }

  lemma HasPairs(on: Match, l: Tuple, right: List<Tuple>, t: Tuple)
    ensures Has(JoinWith(on, right)(l), t) <==>
            exists r :: Has(right, r) && on(l.values, r.values) && t == Combine(l, r)
  {
    HasFlatMap(right, PairWith(on, l), t);
    forall r: Tuple ensures Has(PairWith(on, l)(r), t) <==> on(l.values, r.values) && t == Combine(l, r) {
    }
  }

  lemma InnerHasPair(on: Match, left: List<Tuple>, right: List<Tuple>, t: Tuple)
    requires Has(Joined(Inner, on, left, right), t)
    ensures FromPair(Inner, on, left, right, t)
  {
    HasFlatMap(left, JoinWith(on, right), t);
    var l :| Has(left, l) && Has(JoinWith(on, right)(l), t);
    HasPairs(on, l, right, t);
  }

  lemma PairInInner(on: Match, left: List<Tuple>, right: List<Tuple>, l: Tuple, r: Tuple)
    requires Has(left, l) && Has(right, r) && on(l.values, r.values)
    ensures Has(Joined(Inner, on, left, right), Combine(l, r))
  {
    HasPairs(on, l, right, Combine(l, r));
    HasFlatMap(left, JoinWith(on, right), Combine(l, r));
  }

  lemma JoinedMembers(kind: JoinType, on: Match, left: List<Tuple>, right: List<Tuple>, t: Tuple)
    requires IncrementalJoin(kind)
    ensures Has(Joined(kind, on, left, right), t) <==> FromPair(kind, on, left, right, t)
  {
    match kind
    case Inner =>
      if Has(Joined(Inner, on, left, right), t) {
        InnerHasPair(on, left, right, t);
      } else if FromPair(Inner, on, left, right, t) {
        var l, r :| Has(left, l) && Has(right, r) && on(l.values, r.values) && t == Combine(l, r);
        PairInInner(on, left, right, l, r);
      }
    case LeftSemi => HasFilter(left, HasRight(on, right), t);
    case RightSemi => HasFilter(right, HasLeft(on, left), t);
  }

  ghost predicate Within(some: List<Tuple>, all: List<Tuple>) {
    forall t :: Has(some, t) ==> Has(all, t)
  }

  lemma JoinedWithin(kind: JoinType, on: Match, a: List<Tuple>, b: List<Tuple>, c: List<Tuple>, d: List<Tuple>)
    requires IncrementalJoin(kind) && Within(a, b) && Within(c, d)
    ensures Within(Joined(kind, on, a, c), Joined(kind, on, b, d))
  {
    forall t | Has(Joined(kind, on, a, c), t) ensures Has(Joined(kind, on, b, d), t) {
      JoinedMembers(kind, on, a, c, t);
      JoinedMembers(kind, on, b, d, t);
    }
  }

  lemma ConcatWithin(a: List<Tuple>, b: List<Tuple>, all: List<Tuple>)
    requires Within(a, all) && Within(b, all)
    ensures Within(Concat(a, b), all)
  {
    forall t | Has(Concat(a, b), t) ensures Has(all, t) {
      HasConcat(a, b, t);
    }
  }

  lemma EarlierWithin(s: Side, b: Bounds)
    requires b.start <= b.end && Repeats(s, b)
    ensures Within(s.again, UpTo(s, b)) && Within(Earlier(s, b), UpTo(s, b)) && Within(Written(s, b), UpTo(s, b))
  {
    var d := Deltas(s.rows, b.start, b.end);
    forall t: Tuple ensures Has(Earlier(s, b), t) || Has(d, t) ==> Has(UpTo(s, b), t) {
      HasFilter(s.rows, InTime(b.start, b.end, History), t);
      HasFilter(s.rows, InTime(b.start, b.end, Delta), t);
      HasFilter(s.rows, ByTime(b.end + 1), t);
    }
    ConcatWithin(d, s.again, UpTo(s, b));
  }

  /** Rows of a semi join with two matches are rows of the semi join. */
  lemma LeftDoublesWithin(on: Match, kept: List<Tuple>, l: List<Tuple>, h: List<Tuple>, d: List<Tuple>, r: List<Tuple>)
    requires Within(kept, l) && Within(h, r)
    ensures Within(Filter(kept, MatchesTwice(on, h, d)), Joined(LeftSemi, on, l, r))
  {
    forall t | Has(Filter(kept, MatchesTwice(on, h, d)), t) ensures Has(Joined(LeftSemi, on, l, r), t) {
      HasFilter(kept, MatchesTwice(on, h, d), t);
      assert HasRight(on, h)(t);
      var x :| Has(h, x) && on(t.values, x.values);
      assert Has(r, x);
      assert HasRight(on, r)(t);
      HasFilter(l, HasRight(on, r), t);
    }
  }

  lemma DoublesWithin(kind: JoinType, on: Match, l: Side, r: Side, b: Bounds)
    requires IncrementalJoin(kind) && b.start <= b.end && Repeats(l, b) && Repeats(r, b)
    ensures Within(Doubles(kind, on, Earlier(l, b), Written(l, b), Earlier(r, b), Written(r, b)),
                   Joined(kind, on, UpTo(l, b), UpTo(r, b)))
  {
    EarlierWithin(l, b);
    EarlierWithin(r, b);
    match kind
    case Inner =>
    case LeftSemi =>
      ConcatWithin(Earlier(l, b), Written(l, b), UpTo(l, b));
      LeftDoublesWithin(on, Concat(Earlier(l, b), Written(l, b)), UpTo(l, b), Earlier(r, b), Written(r, b), UpTo(r, b));
    case RightSemi =>
      ConcatWithin(Earlier(r, b), Written(r, b), UpTo(r, b));
      LeftDoublesWithin(Flip(on), Concat(Earlier(r, b), Written(r, b)), UpTo(r, b), Earlier(l, b), Written(l, b),
                        UpTo(l, b));
      RightIsFlippedLeft(on, UpTo(l, b), UpTo(r, b));
  }

  lemma AgainWithin(kind: JoinType, on: Match, l: Side, r: Side, b: Bounds)
    requires IncrementalJoin(kind) && b.start <= b.end && Repeats(l, b) && Repeats(r, b)
    ensures Within(JoinedAgain(kind, on, l, r, b), Joined(kind, on, UpTo(l, b), UpTo(r, b)))
  {
    var left, right := UpTo(l, b), UpTo(r, b);
    EarlierWithin(l, b);
    EarlierWithin(r, b);
    JoinedWithin(kind, on, l.again, left, right, right);
    JoinedWithin(kind, on, left, left, r.again, right);
    JoinedWithin(kind, on, l.again, left, r.again, right);
    if kind == Inner {
      var all := Joined(Inner, on, left, right);
      ConcatWithin(Joined(Inner, on, left, r.again), Joined(Inner, on, l.again, r.again), all);
      ConcatWithin(Joined(Inner, on, l.again, right),
                   Concat(Joined(Inner, on, left, r.again), Joined(Inner, on, l.again, r.again)), all);
    }
  }

  lemma JoinSurplusWithin(kind: JoinType, on: Match, left: Plan, right: Plan, db: Database, b: Bounds)
    requires b.start <= b.end && Incrementalize(Join(kind, on, left, right), b.start, b.end).Ok?
    ensures Within(Surplus(Join(kind, on, left, right), db, b), Eval(Join(kind, on, left, right), AsOf(db, b.end + 1)))
  {
    var l, r := SideOf(left, db, b), SideOf(right, db, b);
    JoinSides(kind, on, left, right, b);
    JoinAsOfSides(kind, on, left, right, db, b);
    JoinSurplusOf(kind, on, left, right, db, b);
    SideRepeats(left, db, b);
    SideRepeats(right, db, b);
    AgainWithin(kind, on, l, r, b);
    DoublesWithin(kind, on, l, r, b);
    ConcatWithin(JoinedAgain(kind, on, l, r, b),
                 Doubles(kind, on, Earlier(l, b), Written(l, b), Earlier(r, b), Written(r, b)),
                 Joined(kind, on, UpTo(l, b), UpTo(r, b)));
  }

  lemma LinearWithin(op: LinearOp, some: List<Tuple>, all: List<Tuple>)
    requires Within(some, all)
    ensures Within(FlatMap(some, Apply(op)), FlatMap(all, Apply(op)))
  {
    forall t | Has(FlatMap(some, Apply(op)), t) ensures Has(FlatMap(all, Apply(op)), t) {
      HasFlatMap(some, Apply(op), t);
      HasFlatMap(all, Apply(op), t);
    }
  }

  lemma BothWithin(a: List<Tuple>, b: List<Tuple>, c: List<Tuple>, d: List<Tuple>)
    requires Within(a, b) && Within(c, d)
    ensures Within(Concat(a, c), Concat(b, d))
  {
    forall t | Has(Concat(a, c), t) ensures Has(Concat(b, d), t) {
      HasConcat(a, c, t);
      HasConcat(b, d, t);
    }
  }

  /** The surplus repeats rows that are there anyway. */
  lemma {:induction false} SurplusWithin(p: Plan, db: Database, b: Bounds)
    requires b.start <= b.end && Incrementalize(p, b.start, b.end).Ok?
    ensures Within(Surplus(p, db, b), Eval(p, AsOf(db, b.end + 1)))
    decreases p
  {
    match p
    case Linear(op, input) =>
      SurplusWithin(input, db, b);
      LinearWithin(op, Surplus(input, db, b), Eval(input, AsOf(db, b.end + 1)));
    case Union(inputs) => AllSurplusWithin(inputs, db, b);
    case Join(kind, on, left, right) => JoinSurplusWithin(kind, on, left, right, db, b);
    case _ =>
  }

  lemma {:induction false} AllSurplusWithin(ps: seq<Plan>, db: Database, b: Bounds)
    requires b.start <= b.end && RewriteAll(ps, b.start, b.end, Delta).Ok?
    ensures Within(SurplusAll(ps, db, b), EvalAll(ps, AsOf(db, b.end + 1)))
    decreases ps
  {
    if ps == [] {
    } else {
      SurplusWithin(ps[0], db, b);
      AllSurplusWithin(ps[1..], db, b);
      BothWithin(Surplus(ps[0], db, b), Eval(ps[0], AsOf(db, b.end + 1)),
                 SurplusAll(ps[1..], db, b), EvalAll(ps[1..], AsOf(db, b.end + 1)));
    }
  }

  lemma BalancedRows(s: Stages, more: List<Tuple>, t: Tuple)
    requires Balanced(s, more) && Within(more, s.after)
    ensures Has(s.after, t) <==> Has(s.before, t) || Has(s.delta, t)
  {
    HasBag(s.before, t);
    HasBag(s.delta, t);
    HasBag(s.after, t);
    HasBag(more, t);
    assert t in Bag(s.before) + Bag(s.delta) <==> t in Bag(s.after) + Bag(more);
  }

  /** As sets of rows, the delta rule is right for every rewritable plan. */
  lemma RowsAddUp(p: Plan, db: Database, b: Bounds, t: Tuple)
    requires b.start <= b.end && Incrementalize(p, b.start, b.end).Ok?
    ensures Has(Eval(p, AsOf(db, b.end + 1)), t) <==>
            Has(Eval(p, AsOf(db, b.start)), t) || Has(Eval(Incrementalize(p, b.start, b.end).value, db), t)
  {
    DeltaSurplus(p, db, b);
    SurplusWithin(p, db, b);
    BalancedRows(StagesOf(p, db, b), Surplus(p, db, b), t);
  }

  // ---- Base cases ------------------------------------------------------------------------------------

  /** Plans without semi joins and one-row leaves have no surplus. */
  lemma {:induction false} PlainHasNone(p: Plan, db: Database, b: Bounds)
    requires Plain(p)
    ensures Surplus(p, db, b) == Nil
    decreases p
  {
    match p
    case Linear(_, input) => PlainHasNone(input, db, b);
    case Union(inputs) => AllPlainHaveNone(inputs, db, b);
    case Join(_, on, left, right) =>
      PlainHasNone(left, db, b);
      PlainHasNone(right, db, b);
      InnerNothing(on, UpTo(SideOf(left, db, b), b));
    case _ =>
  }

  lemma {:induction false} InnerNothing(on: Match, left: List<Tuple>)
    ensures Joined(Inner, on, left, Nil) == Nil
  {
    match left
    case Nil =>
    case Cons(_, rest) => InnerNothing(on, rest);
  }

  lemma {:induction false} AllPlainHaveNone(ps: seq<Plan>, db: Database, b: Bounds)
    requires forall i :: 0 <= i < |ps| ==> Plain(ps[i])
    ensures SurplusAll(ps, db, b) == Nil
    decreases ps
  {
    if ps == [] {
    } else {
      PlainHasNone(ps[0], db, b);
      AllPlainHaveNone(ps[1..], db, b);
    }
  }

  lemma SideWithoutSurplus(side: Plan, db: Database, b: Bounds)
    requires JoinFree(side) && NoOneRow(side)
    ensures Surplus(side, db, b) == Nil
    ensures Written(SideOf(side, db, b), b) == Deltas(Eval(side, db), b.start, b.end)
  {
    JoinFreeIsInner(side);
    PlainHasNone(side, db, b);
    ConcatNil(Deltas(Eval(side, db), b.start, b.end));
  }

  /** No row of the kept side up to the end matches other rows from before and from within the microbatch. */
  ghost predicate NoDoubleMatch(on: Match, kept: List<Tuple>, other: List<Tuple>, b: Bounds) {
    forall t :: Has(kept, t) && t.time <= b.end ==>
      !MatchesTwice(on, Histories(other, b.start, b.end), Deltas(other, b.start, b.end))(t)
  }

  lemma {:induction false} FilterEmpty<T(!new)>(s: List<T>, f: T -> bool)
    ensures Filter(s, f) == Nil <==> forall x :: Has(s, x) ==> !f(x)
  {
    match s
    case Nil =>
    case Cons(x, rest) =>
      FilterEmpty(rest, f);
      assert Has(s, x);
      if forall y :: Has(s, y) ==> !f(y) {
        forall y | Has(rest, y) ensures !f(y) {
          assert Has(s, y);
        }
      }
  }

  lemma KeptRows(rows: List<Tuple>, b: Bounds, t: Tuple)
    requires b.start <= b.end
    ensures Has(Concat(Histories(rows, b.start, b.end), Deltas(rows, b.start, b.end)), t) <==>
            Has(rows, t) && t.time <= b.end
  {
    HasConcat(Histories(rows, b.start, b.end), Deltas(rows, b.start, b.end), t);
    HasFilter(rows, InTime(b.start, b.end, History), t);
    HasFilter(rows, InTime(b.start, b.end, Delta), t);
  }

  lemma NoDoubles(on: Match, kept: List<Tuple>, other: List<Tuple>, b: Bounds)
    requires b.start <= b.end
    ensures NoDoubleMatch(on, kept, other, b) <==>
            Filter(Concat(Histories(kept, b.start, b.end), Deltas(kept, b.start, b.end)),
                   MatchesTwice(on, Histories(other, b.start, b.end), Deltas(other, b.start, b.end))) == Nil
  {
    FilterEmpty(Concat(Histories(kept, b.start, b.end), Deltas(kept, b.start, b.end)),
                MatchesTwice(on, Histories(other, b.start, b.end), Deltas(other, b.start, b.end)));
    forall t: Tuple ensures Has(Concat(Histories(kept, b.start, b.end), Deltas(kept, b.start, b.end)), t) <==>
        Has(kept, t) && t.time <= b.end {
      KeptRows(kept, b, t);
    }
  }

  lemma SemiSurplus(kind: JoinType, on: Match, left: Plan, right: Plan, db: Database, b: Bounds)
    requires kind in {LeftSemi, RightSemi} && JoinFree(left) && JoinFree(right) && NoOneRow(left) && NoOneRow(right)
    ensures var l, r := Eval(left, db), Eval(right, db);
            Surplus(Join(kind, on, left, right), db, b) ==
            Doubles(kind, on, Histories(l, b.start, b.end), Deltas(l, b.start, b.end), Histories(r, b.start, b.end),
                    Deltas(r, b.start, b.end))
  {
    SideWithoutSurplus(left, db, b);
    SideWithoutSurplus(right, db, b);
    JoinSurplusOf(kind, on, left, right, db, b);
  }

  /**
   * For a left semi join the microbatch adds exactly what changed if and only if no left row matches both a right
   * row from before the microbatch and one within it.
   */
  lemma LeftSemiExact(on: Match, left: Plan, right: Plan, db: Database, b: Bounds)
    requires b.start <= b.end && NoOneRow(left) && NoOneRow(right)
    requires Incrementalize(Join(LeftSemi, on, left, right), b.start, b.end).Ok?
    ensures Exact(StagesOf(Join(LeftSemi, on, left, right), db, b)) <==>
            NoDoubleMatch(on, Eval(left, db), Eval(right, db), b)
  {
    JoinSides(LeftSemi, on, left, right, b);
    SemiSurplus(LeftSemi, on, left, right, db, b);
    ExactWithoutSurplus(Join(LeftSemi, on, left, right), db, b);
    NoDoubles(on, Eval(left, db), Eval(right, db), b);
  }

  /** The same for a right semi join, with the sides exchanged. */
  lemma RightSemiExact(on: Match, left: Plan, right: Plan, db: Database, b: Bounds)
    requires b.start <= b.end && NoOneRow(left) && NoOneRow(right)
    requires Incrementalize(Join(RightSemi, on, left, right), b.start, b.end).Ok?
    ensures Exact(StagesOf(Join(RightSemi, on, left, right), db, b)) <==>
            NoDoubleMatch(Flip(on), Eval(right, db), Eval(left, db), b)
  {
    JoinSides(RightSemi, on, left, right, b);
    SemiSurplus(RightSemi, on, left, right, db, b);
    ExactWithoutSurplus(Join(RightSemi, on, left, right), db, b);
    NoDoubles(Flip(on), Eval(right, db), Eval(left, db), b);
  }

  /** A plan without tables and listed constants: its rows come from one-row leaves. */
  predicate TableFree(p: Plan) {
    match p
    case EmptyRelation(_) => true
    case Linear(_, input) => TableFree(input)
    case Union(inputs) => forall i :: 0 <= i < |inputs| ==> TableFree(inputs[i])
    case _ => false
  }

  lemma {:induction false} TableFreeRepeated(p: Plan, db: Database, b: Bounds)
    requires TableFree(p)
    ensures Incremental(p) && BaseTables(p) && JoinFree(p) && Surplus(p, db, b) == Eval(p, db)
    decreases p
  {
    match p
    case EmptyRelation(_) =>
    case Linear(_, input) => TableFreeRepeated(input, db, b);
    case Union(inputs) => AllTableFreeRepeated(inputs, db, b);
  }

  lemma {:induction false} AllTableFreeRepeated(ps: seq<Plan>, db: Database, b: Bounds)
    requires forall i :: 0 <= i < |ps| ==> TableFree(ps[i])
    ensures forall i :: 0 <= i < |ps| ==> Incremental(ps[i]) && BaseTables(ps[i]) && JoinFree(ps[i])
    ensures SurplusAll(ps, db, b) == EvalAll(ps, db)
    decreases ps
  {
    if ps == [] {
    } else {
      TableFreeRepeated(ps[0], db, b);
      AllTableFreeRepeated(ps[1..], db, b);
      assert forall i :: 0 < i < |ps| ==> ps[i] == ps[1..][i - 1];
    }
  }

  /** A plan without tables is written again by every microbatch, so it is exact only if it returns nothing. */
  lemma OneRowRepeats(p: Plan, db: Database, b: Bounds)
    requires TableFree(p) && b.start <= b.end
    ensures Incrementalize(p, b.start, b.end).Ok?
    ensures Exact(StagesOf(p, db, b)) <==> Eval(p, db) == Nil
  {
    TableFreeRepeated(p, db, b);
    JoinFreeIsShallow(p);
    RewriteSucceeds(p, b.start, b.end, Delta);
    ExactWithoutSurplus(p, db, b);
  }

  // ---- Several microbatches --------------------------------------------------------------------------

  /** The surplus of a microbatch. */
  ghost function Repeated(p: Plan, db: Database): Bounds -> multiset<Tuple> {
    (b: Bounds) => Bag(Surplus(p, db, b))
  }

  lemma {:induction false} SumsBalance<T>(batches: seq<Bounds>, upTo: nat -> multiset<T>, f: Bounds -> multiset<T>,
                                          more: Bounds -> multiset<T>)
    requires Consecutive(batches)
    requires forall b: Bounds :: b.start <= b.end ==> upTo(b.start) + f(b) == upTo(b.end + 1) + more(b)
    ensures upTo(0) + Sum(batches, f) == upTo(NextBlock(batches)) + Sum(batches, more)
  {
    if batches == [] {
    } else {
      var last := Last(batches);
      SumsBalance(Front(batches), upTo, f, more);
      assert upTo(last.start) + f(last) == upTo(last.end + 1) + more(last);
      calc {
        upTo(0) + Sum(batches, f);
        upTo(0) + Sum(Front(batches), f) + f(last);
        upTo(last.start) + Sum(Front(batches), more) + f(last);
        upTo(last.end + 1) + more(last) + Sum(Front(batches), more);
      }
    }
  }

  lemma ReturnedAt(p: Plan, db: Database, limit: nat, rows: List<Tuple>)
    requires rows == Eval(p, AsOf(db, limit))
    ensures Returned(p, db)(limit) == Bag(rows)
  {
  }

  lemma WrittenAt(p: Plan, db: Database, b: Bounds, rows: List<Tuple>)
    requires Incrementalize(p, b.start, b.end).Ok? && rows == Eval(Incrementalize(p, b.start, b.end).value, db)
    ensures Writes(p, db)(b) == Bag(rows)
  {
  }

  lemma BalancedBags(s: Stages, more: List<Tuple>, before: multiset<Tuple>, delta: multiset<Tuple>,
                     after: multiset<Tuple>, rest: multiset<Tuple>)
    requires Balanced(s, more)
    requires Bag(s.before) == before && Bag(s.delta) == delta && Bag(s.after) == after && Bag(more) == rest
    ensures before + delta == after + rest
  {
  }

  lemma MicrobatchBalances(p: Plan, db: Database, b: Bounds)
    requires Rewritable(p, Delta) && b.start <= b.end
    ensures Returned(p, db)(b.start) + Writes(p, db)(b) == Returned(p, db)(b.end + 1) + Repeated(p, db)(b)
  {
    RewriteSucceeds(p, b.start, b.end, Delta);
    DeltaSurplus(p, db, b);
    var s := StagesOf(p, db, b);
    ReturnedAt(p, db, b.start, s.before);
    WrittenAt(p, db, b, s.delta);
    ReturnedAt(p, db, b.end + 1, s.after);
    BalancedBags(s, Surplus(p, db, b), Returned(p, db)(b.start), Writes(p, db)(b),
                 Returned(p, db)(b.end + 1), Repeated(p, db)(b));
  }

  lemma EachBalances(p: Plan, db: Database)
    requires Rewritable(p, Delta)
    ensures forall b: Bounds :: b.start <= b.end ==>
              Returned(p, db)(b.start) + Writes(p, db)(b) == Returned(p, db)(b.end + 1) + Repeated(p, db)(b)
  {
    forall b: Bounds | b.start <= b.end
      ensures Returned(p, db)(b.start) + Writes(p, db)(b) == Returned(p, db)(b.end + 1) + Repeated(p, db)(b) {
      MicrobatchBalances(p, db, b);
    }
  }

  /** However the blocks are cut into microbatches, they write the batch query's result and the surplus of each. */
  lemma MicrobatchesWithSurplus(p: Plan, db: Database, batches: seq<Bounds>)
    requires Consecutive(batches) && Rewritable(p, Delta)
    ensures Returned(p, db)(0) + Sum(batches, Writes(p, db)) ==
            Returned(p, db)(NextBlock(batches)) + Sum(batches, Repeated(p, db))
  {
    EachBalances(p, db);
    SumsBalance(batches, Returned(p, db), Writes(p, db), Repeated(p, db));
  }

  // ---- Examples --------------------------------------------------------------------------------------

  function SameValues(): Match {
    (x: Values, y: Values) => x == y
  }

  function Scan(table: string): Plan {
    TableScan(table, Snapshots, [])
  }

  const OLD: Record := Record(0, [1])
  const NEW: Record := Record(1, [1])
  const ACCOUNTS: Database := map["accounts" := Cons(OLD, Nil), "transfers" := Cons(OLD, Cons(NEW, Nil))]

  lemma ScanRows()
    ensures Eval(Scan("accounts"), ACCOUNTS) == Cons(FromSource(OLD), Nil)
    ensures Eval(Scan("transfers"), ACCOUNTS) == Cons(FromSource(OLD), Cons(FromSource(NEW), Nil))
  {
    assert PassesAll([])(OLD) && PassesAll([])(NEW);
    assert Filter(Cons(NEW, Nil), PassesAll([])) == Cons(NEW, Nil);
  }

  lemma Matching(on: Match, l: Tuple, r: Tuple, right: List<Tuple>)
    requires Has(right, r) && on(l.values, r.values)
    ensures HasRight(on, right)(l)
  {
  }

  /** An account with a transfer in block 0 is reported again for its transfer in block 1. */
  lemma SemiJoinRepeats()
    ensures var p := Join(LeftSemi, SameValues(), Scan("accounts"), Scan("transfers"));
            Incrementalize(p, 1, 1).Ok? && !Exact(StagesOf(p, ACCOUNTS, Bounds(1, 1)))
  {
    var left, right, b := Scan("accounts"), Scan("transfers"), Bounds(1, 1);
    ScanRows();
    var account, earlier, later := FromSource(OLD), FromSource(OLD), FromSource(NEW);
    var r := Eval(right, ACCOUNTS);
    assert Histories(r, 1, 1) == Cons(earlier, Nil) && Deltas(r, 1, 1) == Cons(later, Nil);
    assert Has(Histories(r, 1, 1), earlier) && Has(Deltas(r, 1, 1), later);
    Matching(SameValues(), account, earlier, Histories(r, b.start, b.end));
    Matching(SameValues(), account, later, Deltas(r, b.start, b.end));
    assert Has(Eval(left, ACCOUNTS), account);
    LeftSemiExact(SameValues(), left, right, ACCOUNTS, b);
  }
}
