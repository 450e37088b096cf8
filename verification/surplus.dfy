/**
 * Every rewritable plan: what its microbatches write beyond what changed. The surplus comes from semi joins, which
 * report a row again when it finds another match, and from leaves that yield a row without reading a table.
 */
module Surpluses {
  import opened Types
  import opened Bags
  import opened Plans
  import opened Incrementality

  // ---- Joins of lists in two parts -------------------------------------------------------------------

  function Flip(on: Match): Match {
    (x: Values, y: Values) => on(y, x)
  }

  lemma RightIsFlippedLeft(on: Match, left: List<Tuple>, right: List<Tuple>)
    ensures Joined(RightSemi, on, left, right) == Joined(LeftSemi, Flip(on), right, left)
  {
    FilterSame(right, HasLeft(on, left), HasRight(Flip(on), left));
  }

  /** A join distributes over its left side. */
  lemma JoinedLeft(kind: JoinType, on: Match, a: List<Tuple>, b: List<Tuple>, right: List<Tuple>)
    requires kind in {Inner, LeftSemi}
    ensures Bag(Joined(kind, on, Concat(a, b), right)) ==
            Bag(Joined(kind, on, a, right)) + Bag(Joined(kind, on, b, right))
  {
    if kind == Inner {
      FlatMapConcat(a, b, JoinWith(on, right));
    } else {
      FilterConcat(a, b, HasRight(on, right));
    }
    BagConcat(Joined(kind, on, a, right), Joined(kind, on, b, right));
  }

  lemma PairsConcat(on: Match, l: Tuple, a: List<Tuple>, b: List<Tuple>)
    ensures Bag(JoinWith(on, Concat(a, b))(l)) == Bag(JoinWith(on, a)(l)) + Bag(JoinWith(on, b)(l))
  {
    FlatMapConcat(a, b, PairWith(on, l));
    BagConcat(FlatMap(a, PairWith(on, l)), FlatMap(b, PairWith(on, l)));
  }

  lemma InnerHead(on: Match, left: List<Tuple>, right: List<Tuple>)
    requires left.Cons?
    ensures Bag(Joined(Inner, on, left, right)) ==
            Bag(JoinWith(on, right)(left.head)) + Bag(Joined(Inner, on, left.tail, right))
  {
    BagConcat(JoinWith(on, right)(left.head), FlatMap(left.tail, JoinWith(on, right)));
  }

  /** An inner join distributes over its right side. */
  lemma {:induction false} InnerRight(on: Match, left: List<Tuple>, a: List<Tuple>, b: List<Tuple>)
    ensures Bag(Joined(Inner, on, left, Concat(a, b))) ==
            Bag(Joined(Inner, on, left, a)) + Bag(Joined(Inner, on, left, b))
  {
    match left
    case Nil =>
    case Cons(l, rest) =>
      InnerRight(on, rest, a, b);
      InnerHead(on, left, Concat(a, b));
      InnerHead(on, left, a);
      InnerHead(on, left, b);
      PairsConcat(on, l, a, b);
      PairUp(Bag(JoinWith(on, a)(l)), Bag(JoinWith(on, b)(l)), Bag(Joined(Inner, on, rest, a)),
             Bag(Joined(Inner, on, rest, b)));
  }

  /** A row with a match in each of two lists. */
  ghost function MatchesTwice(on: Match, a: List<Tuple>, b: List<Tuple>): Tuple -> bool {
    (t: Tuple) => HasRight(on, a)(t) && HasRight(on, b)(t)
  }

  lemma HasRightConcat(on: Match, a: List<Tuple>, b: List<Tuple>, t: Tuple)
    ensures HasRight(on, Concat(a, b))(t) <==> HasRight(on, a)(t) || HasRight(on, b)(t)
  {
    forall r: Tuple ensures Has(Concat(a, b), r) <==> Has(a, r) || Has(b, r) {
      HasConcat(a, b, r);
    }
  }

  /** A left semi join counts a row with matches in both parts of the right side once, not twice. */
  lemma SemiRight(on: Match, left: List<Tuple>, a: List<Tuple>, b: List<Tuple>)
    ensures Bag(Joined(LeftSemi, on, left, a)) + Bag(Joined(LeftSemi, on, left, b)) ==
            Bag(Joined(LeftSemi, on, left, Concat(a, b))) + Bag(Filter(left, MatchesTwice(on, a, b)))
  {
    forall t: Tuple ensures HasRight(on, Concat(a, b))(t) == (HasRight(on, a)(t) || HasRight(on, b)(t)) {
      HasRightConcat(on, a, b, t);
    }
    FilterOverlap(left, HasRight(on, a), HasRight(on, b), HasRight(on, Concat(a, b)), MatchesTwice(on, a, b));
  }

  /** Rows of the kept side of a semi join with matches in both parts of the other side. */
  ghost function Doubles(kind: JoinType, on: Match, hl: List<Tuple>, dl: List<Tuple>, hr: List<Tuple>, dr: List<Tuple>)
    : List<Tuple> {
    match kind
    case LeftSemi => Filter(Concat(hl, dl), MatchesTwice(on, hr, dr))
    case RightSemi => Filter(Concat(hr, dr), MatchesTwice(Flip(on), hl, dl))
    case _ => Nil
  }

  /** What was joined before, plus the three terms of the delta rule. */
  ghost function FourTerms(kind: JoinType, on: Match, hl: List<Tuple>, dl: List<Tuple>, hr: List<Tuple>,
                           dr: List<Tuple>)
    : multiset<Tuple> {
    Bag(Joined(kind, on, hl, hr)) +
    (Bag(Joined(kind, on, dl, hr)) + Bag(Joined(kind, on, hl, dr)) + Bag(Joined(kind, on, dl, dr)))
  }

  lemma Regroup4<T>(a: multiset<T>, x: multiset<T>, y: multiset<T>, z: multiset<T>)
    ensures a + (x + y + z) == (a + x) + (y + z) && a + (y + x + z) == (a + x) + (y + z)
  {
  }

  lemma LeftTerms(kind: JoinType, on: Match, hl: List<Tuple>, dl: List<Tuple>, hr: List<Tuple>, dr: List<Tuple>)
    requires kind in {Inner, LeftSemi}
    ensures FourTerms(kind, on, hl, dl, hr, dr) ==
            Bag(Joined(kind, on, Concat(hl, dl), hr)) + Bag(Joined(kind, on, Concat(hl, dl), dr))
  {
    JoinedLeft(kind, on, hl, dl, hr);
    JoinedLeft(kind, on, hl, dl, dr);
    Regroup4(Bag(Joined(kind, on, hl, hr)), Bag(Joined(kind, on, dl, hr)), Bag(Joined(kind, on, hl, dr)),
             Bag(Joined(kind, on, dl, dr)));
  }

  lemma FlippedTerms(on: Match, hl: List<Tuple>, dl: List<Tuple>, hr: List<Tuple>, dr: List<Tuple>)
    ensures FourTerms(RightSemi, on, hl, dl, hr, dr) == FourTerms(LeftSemi, Flip(on), hr, dr, hl, dl)
  {
    RightIsFlippedLeft(on, hl, hr);
    RightIsFlippedLeft(on, dl, hr);
    RightIsFlippedLeft(on, hl, dr);
    RightIsFlippedLeft(on, dl, dr);
  }

  lemma LeftSemiRule(on: Match, hl: List<Tuple>, dl: List<Tuple>, hr: List<Tuple>, dr: List<Tuple>)
    ensures FourTerms(LeftSemi, on, hl, dl, hr, dr) ==
            Bag(Joined(LeftSemi, on, Concat(hl, dl), Concat(hr, dr))) +
            Bag(Filter(Concat(hl, dl), MatchesTwice(on, hr, dr)))
  {
    LeftTerms(LeftSemi, on, hl, dl, hr, dr);
    SemiRight(on, Concat(hl, dl), hr, dr);
  }

  /** The delta rule for any two lists in two parts: it counts the doubles once too often, and nothing else. */
  lemma FourTermRule(kind: JoinType, on: Match, hl: List<Tuple>, dl: List<Tuple>, hr: List<Tuple>, dr: List<Tuple>)
    requires IncrementalJoin(kind)
    ensures FourTerms(kind, on, hl, dl, hr, dr) ==
            Bag(Joined(kind, on, Concat(hl, dl), Concat(hr, dr))) + Bag(Doubles(kind, on, hl, dl, hr, dr))
  {
    match kind
    case Inner =>
      LeftTerms(Inner, on, hl, dl, hr, dr);
      InnerRight(on, Concat(hl, dl), hr, dr);
    case LeftSemi => LeftSemiRule(on, hl, dl, hr, dr);
    case RightSemi =>
      FlippedTerms(on, hl, dl, hr, dr);
      LeftSemiRule(Flip(on), hr, dr, hl, dl);
      RightIsFlippedLeft(on, Concat(hl, dl), Concat(hr, dr));
  }

  // ---- Joins depend on their sides only as multisets -------------------------------------------------

  lemma {:induction false} InnerRightBag(on: Match, left: List<Tuple>, a: List<Tuple>, b: List<Tuple>)
    requires Bag(a) == Bag(b)
    ensures Bag(Joined(Inner, on, left, a)) == Bag(Joined(Inner, on, left, b))
  {
    match left
    case Nil =>
    case Cons(l, rest) =>
      InnerRightBag(on, rest, a, b);
      FlatMapBag(a, b, PairWith(on, l));
      InnerHead(on, left, a);
      InnerHead(on, left, b);
  }

  lemma SemiRightBag(on: Match, left: List<Tuple>, a: List<Tuple>, b: List<Tuple>)
    requires Bag(a) == Bag(b)
    ensures Joined(LeftSemi, on, left, a) == Joined(LeftSemi, on, left, b)
  {
    forall r: Tuple ensures Has(a, r) <==> Has(b, r) {
      HasBag(a, r);
      HasBag(b, r);
    }
    FilterSame(left, HasRight(on, a), HasRight(on, b));
  }

  lemma LeftSemiBag(on: Match, a: List<Tuple>, b: List<Tuple>, c: List<Tuple>, d: List<Tuple>)
    requires Bag(a) == Bag(b) && Bag(c) == Bag(d)
    ensures Bag(Joined(LeftSemi, on, a, c)) == Bag(Joined(LeftSemi, on, b, d))
  {
    FilterBag(a, b, HasRight(on, c));
    SemiRightBag(on, b, c, d);
  }

  lemma JoinedBag(kind: JoinType, on: Match, a: List<Tuple>, b: List<Tuple>, c: List<Tuple>, d: List<Tuple>)
    requires Bag(a) == Bag(b) && Bag(c) == Bag(d)
    ensures Bag(Joined(kind, on, a, c)) == Bag(Joined(kind, on, b, d))
  {
    match kind
    case Inner =>
      FlatMapBag(a, b, JoinWith(on, c));
      InnerRightBag(on, b, c, d);
    case LeftSemi => LeftSemiBag(on, a, b, c, d);
    case RightSemi =>
      RightIsFlippedLeft(on, a, c);
      RightIsFlippedLeft(on, b, d);
      LeftSemiBag(Flip(on), c, d, a, b);
    case _ =>
  }

  // ---- The surplus of a plan -------------------------------------------------------------------------

  /** The rows of a join side, and those of them that every microbatch writes again. */
  datatype Side = Side(rows: List<Tuple>, again: List<Tuple>)

  ghost function Earlier(s: Side, b: Bounds): List<Tuple> {
    Histories(s.rows, b.start, b.end)
  }

  ghost function Written(s: Side, b: Bounds): List<Tuple> {
    Concat(Deltas(s.rows, b.start, b.end), s.again)
  }

  ghost function UpTo(s: Side, b: Bounds): List<Tuple> {
    Filter(s.rows, ByTime(b.end + 1))
  }

  /** What the repeated rows of the sides contribute. */
  ghost function JoinedAgain(kind: JoinType, on: Match, l: Side, r: Side, b: Bounds): List<Tuple> {
    match kind
    case Inner =>
      ThreeRows(Joined(Inner, on, l.again, UpTo(r, b)), Joined(Inner, on, UpTo(l, b), r.again),
                Joined(Inner, on, l.again, r.again))
    case LeftSemi => Joined(LeftSemi, on, l.again, UpTo(r, b))
    case RightSemi => Joined(RightSemi, on, UpTo(l, b), r.again)
    case _ => Nil
  }

  ghost function JoinSurplus(kind: JoinType, on: Match, l: Side, r: Side, b: Bounds): List<Tuple> {
    Concat(JoinedAgain(kind, on, l, r, b),
           Doubles(kind, on, Earlier(l, b), Written(l, b), Earlier(r, b), Written(r, b)))
  }

  /** The rows the microbatch writes although they were there before it. */
  ghost function Surplus(p: Plan, db: Database, b: Bounds): List<Tuple>
    decreases p, 1
  {
    match p
    case EmptyRelation(_) => Eval(p, db)
    case Linear(op, input) => FlatMap(Surplus(input, db, b), Apply(op))
    case Union(inputs) => SurplusAll(inputs, db, b)
    case Join(_, _, _, _) => SurplusOfJoin(p, db, b)
    case _ => Nil
  }

  ghost function SurplusOfJoin(p: Plan, db: Database, b: Bounds): List<Tuple>
    requires p.Join?
    decreases p, 0
  {
    JoinSurplus(p.kind, p.on, Side(Eval(p.left, db), Surplus(p.left, db, b)),
                Side(Eval(p.right, db), Surplus(p.right, db, b)), b)
  }

  ghost function SurplusAll(ps: seq<Plan>, db: Database, b: Bounds): List<Tuple>
    decreases ps, 0
  {
    if ps == [] then Nil else Concat(Surplus(ps[0], db, b), SurplusAll(ps[1..], db, b))
  }

  ghost function SideOf(p: Plan, db: Database, b: Bounds): Side {
    Side(Eval(p, db), Surplus(p, db, b))
  }

  // ---- Below joins -----------------------------------------------------------------------------------

  lemma {:induction false} JoinFreeIsInner(p: Plan)
    requires JoinFree(p)
    ensures InnerOnly(p)
  {
    match p
    case Linear(_, input) => JoinFreeIsInner(input);
    case Union(inputs) =>
      forall i | 0 <= i < |inputs| ensures InnerOnly(inputs[i]) {
        JoinFreeIsInner(inputs[i]);
      }
    case Batch(_, input) => JoinFreeIsInner(input);
    case _ =>
  }

  /** Below joins only rows without a source are repeated, and those were there from the beginning. */
  lemma {:induction false} AgainIsOld(p: Plan, db: Database, b: Bounds, t: Tuple)
    requires JoinFree(p) && Has(Surplus(p, db, b), t)
    ensures Has(Eval(p, db), t) && t.time == BEFORE_GENESIS
    decreases p
  {
    match p
    case EmptyRelation(_) =>
    case Linear(op, input) =>
      HasFlatMap(Surplus(input, db, b), Apply(op), t);
      var x :| Has(Surplus(input, db, b), x) && Has(Apply(op)(x), t);
      AgainIsOld(input, db, b, x);
      ApplyKeepsTime(op, x, t);
      HasFlatMap(Eval(input, db), Apply(op), t);
    case Union(inputs) => AllAgainAreOld(inputs, db, b, t);
  }

  lemma {:induction false} AllAgainAreOld(ps: seq<Plan>, db: Database, b: Bounds, t: Tuple)
    requires (forall i :: 0 <= i < |ps| ==> JoinFree(ps[i])) && Has(SurplusAll(ps, db, b), t)
    ensures Has(EvalAll(ps, db), t) && t.time == BEFORE_GENESIS
    decreases ps
  {
    HasConcat(Surplus(ps[0], db, b), SurplusAll(ps[1..], db, b), t);
    HasConcat(Eval(ps[0], db), EvalAll(ps[1..], db), t);
    if Has(Surplus(ps[0], db, b), t) {
      AgainIsOld(ps[0], db, b, t);
    } else {
      AllAgainAreOld(ps[1..], db, b, t);
    }
  }

  /** Rows of one operator over two lists, from those over each. */
  lemma LinearSplit(op: LinearOp, all: List<Tuple>, a: List<Tuple>, b: List<Tuple>)
    requires Bag(all) == Bag(a) + Bag(b)
    ensures Bag(FlatMap(all, Apply(op))) == Bag(FlatMap(a, Apply(op))) + Bag(FlatMap(b, Apply(op)))
  {
    BagConcat(a, b);
    FlatMapBag(all, Concat(a, b), Apply(op));
    FlatMapConcat(a, b, Apply(op));
    BagConcat(FlatMap(a, Apply(op)), FlatMap(b, Apply(op)));
  }

  lemma ConcatSplit<T>(x: List<T>, y: List<T>, a: List<T>, b: List<T>, c: List<T>, d: List<T>)
    requires Bag(x) == Bag(a) + Bag(b) && Bag(y) == Bag(c) + Bag(d)
    ensures Bag(Concat(x, y)) == Bag(Concat(a, c)) + Bag(Concat(b, d))
  {
    BagConcat(x, y);
    BagConcat(a, c);
    BagConcat(b, d);
    PairUp(Bag(a), Bag(b), Bag(c), Bag(d));
  }

  lemma LeafWritten(p: Plan, db: Database, b: Bounds)
    requires p.TableScan? || p.Constants? || p == EmptyRelation(false)
    requires Rewrite(p, b.start, b.end, Delta).Ok?
    ensures Bag(Eval(Rewrite(p, b.start, b.end, Delta).value, db)) == Bag(Written(SideOf(p, db, b), b))
  {
    JoinFreeWindow(p, db, b.start, b.end, Delta);
    ConcatNil(Deltas(Eval(p, db), b.start, b.end));
  }

  /** Below joins a microbatch writes the rows of its blocks and repeats those without a source. */
  lemma {:induction false} SideWritten(p: Plan, db: Database, b: Bounds)
    requires JoinFree(p) && Rewrite(p, b.start, b.end, Delta).Ok?
    ensures Bag(Eval(Rewrite(p, b.start, b.end, Delta).value, db)) ==
            Bag(Deltas(Eval(p, db), b.start, b.end)) + Bag(Surplus(p, db, b))
    decreases p
  {
    match p
    case Linear(op, input) =>
      SideWritten(input, db, b);
      LinearSplit(op, Eval(Rewrite(input, b.start, b.end, Delta).value, db), Deltas(Eval(input, db), b.start, b.end),
                  Surplus(input, db, b));
      LinearTime(Eval(input, db), op, b.start, b.end, Delta);
    case Union(inputs) => SidesWritten(inputs, db, b);
    case EmptyRelation(oneRow) =>
    case _ =>
      LeafWritten(p, db, b);
      BagConcat(Deltas(Eval(p, db), b.start, b.end), Nil);
  }

  lemma {:induction false} SidesWritten(ps: seq<Plan>, db: Database, b: Bounds)
    requires (forall i :: 0 <= i < |ps| ==> JoinFree(ps[i])) && RewriteAll(ps, b.start, b.end, Delta).Ok?
    ensures Bag(EvalAll(RewriteAll(ps, b.start, b.end, Delta).value, db)) ==
            Bag(Deltas(EvalAll(ps, db), b.start, b.end)) + Bag(SurplusAll(ps, db, b))
    decreases ps
  {
    if ps == [] {
    } else {
      SideWritten(ps[0], db, b);
      SidesWritten(ps[1..], db, b);
      var q, qs := Rewrite(ps[0], b.start, b.end, Delta).value, RewriteAll(ps[1..], b.start, b.end, Delta).value;
      assert ([q] + qs)[1..] == qs;
      ConcatSplit(Eval(q, db), EvalAll(qs, db), Deltas(Eval(ps[0], db), b.start, b.end), Surplus(ps[0], db, b),
                  Deltas(EvalAll(ps[1..], db), b.start, b.end), SurplusAll(ps[1..], db, b));
      FilterConcat(Eval(ps[0], db), EvalAll(ps[1..], db), InTime(b.start, b.end, Delta));
    }
  }

  lemma {:induction false} HistoryIsBefore(rows: List<Tuple>, start: BlockNumber, end: BlockNumber)
    ensures Histories(rows, start, end) == Filter(rows, ByTime(start))
  {
    FilterSame(rows, InTime(start, end, History), ByTime(start));
  }

  /** What a join side evaluates to before a microbatch, within its history terms, and after it. */
  lemma SideAsOf(side: Plan, db: Database, b: Bounds)
    requires JoinFree(side) && Rewrite(side, b.start, b.end, History).Ok?
    ensures Eval(side, AsOf(db, b.start)) == Earlier(SideOf(side, db, b), b)
    ensures Eval(Rewrite(side, b.start, b.end, History).value, db) == Earlier(SideOf(side, db, b), b)
    ensures Eval(side, AsOf(db, b.end + 1)) == UpTo(SideOf(side, db, b), b)
  {
    JoinFreeIsInner(side);
    JoinFreeWindow(side, db, b.start, b.end, History);
    EvalAsOf(side, db, b.start);
    EvalAsOf(side, db, b.end + 1);
    HistoryIsBefore(Eval(side, db), b.start, b.end);
  }

  lemma SideSplit(s: Side, b: Bounds)
    requires b.start <= b.end
    ensures Bag(Concat(Earlier(s, b), Written(s, b))) == Bag(Concat(UpTo(s, b), s.again))
  {
    var h, d := Earlier(s, b), Deltas(s.rows, b.start, b.end);
    FilterSplit(s.rows, InTime(b.start, b.end, History), InTime(b.start, b.end, Delta), ByTime(b.end + 1));
    ConcatAssoc(h, d, s.again);
    BagConcat(Concat(h, d), s.again);
    BagConcat(h, d);
    BagConcat(UpTo(s, b), s.again);
  }

  // ---- One join --------------------------------------------------------------------------------------

  /** The repeated rows are rows of the side. */
  ghost predicate Repeats(s: Side, b: Bounds) {
    forall t :: Has(s.again, t) ==> Has(UpTo(s, b), t)
  }

  lemma SideRepeats(p: Plan, db: Database, b: Bounds)
    requires JoinFree(p)
    ensures Repeats(SideOf(p, db, b), b)
  {
    var s := SideOf(p, db, b);
    forall t | Has(s.again, t) ensures Has(UpTo(s, b), t) {
      AgainIsOld(p, db, b, t);
      HasFilter(s.rows, ByTime(b.end + 1), t);
    }
  }

  lemma InnerAgain(on: Match, l: Side, r: Side, b: Bounds)
    ensures Bag(Joined(Inner, on, Concat(UpTo(l, b), l.again), Concat(UpTo(r, b), r.again))) ==
            Bag(Joined(Inner, on, UpTo(l, b), UpTo(r, b))) + Bag(JoinedAgain(Inner, on, l, r, b))
  {
    var left, right := UpTo(l, b), UpTo(r, b);
    InnerRight(on, Concat(left, l.again), right, r.again);
    JoinedLeft(Inner, on, left, l.again, right);
    JoinedLeft(Inner, on, left, l.again, r.again);
    ThreeRowsBag(Joined(Inner, on, l.again, right), Joined(Inner, on, left, r.again),
                 Joined(Inner, on, l.again, r.again));
    Regroup4(Bag(Joined(Inner, on, left, right)), Bag(Joined(Inner, on, l.again, right)),
             Bag(Joined(Inner, on, left, r.again)), Bag(Joined(Inner, on, l.again, r.again)));
  }

  /** A semi join finds no new matches among repeated rows of the other side. */
  lemma SemiIgnoresAgain(on: Match, kept: List<Tuple>, s: Side, b: Bounds)
    requires Repeats(s, b)
    ensures Joined(LeftSemi, on, kept, Concat(UpTo(s, b), s.again)) == Joined(LeftSemi, on, kept, UpTo(s, b))
  {
    forall t: Tuple ensures HasRight(on, Concat(UpTo(s, b), s.again))(t) == HasRight(on, UpTo(s, b))(t) {
      HasRightConcat(on, UpTo(s, b), s.again, t);
    }
    FilterSame(kept, HasRight(on, Concat(UpTo(s, b), s.again)), HasRight(on, UpTo(s, b)));
  }

  lemma LeftSemiAgain(on: Match, l: Side, r: Side, b: Bounds)
    requires Repeats(r, b)
    ensures Bag(Joined(LeftSemi, on, Concat(UpTo(l, b), l.again), Concat(UpTo(r, b), r.again))) ==
            Bag(Joined(LeftSemi, on, UpTo(l, b), UpTo(r, b))) + Bag(JoinedAgain(LeftSemi, on, l, r, b))
  {
    SemiIgnoresAgain(on, Concat(UpTo(l, b), l.again), r, b);
    JoinedLeft(LeftSemi, on, UpTo(l, b), l.again, UpTo(r, b));
  }

  lemma SidesAgain(kind: JoinType, on: Match, l: Side, r: Side, b: Bounds)
    requires IncrementalJoin(kind) && Repeats(l, b) && Repeats(r, b)
    ensures Bag(Joined(kind, on, Concat(UpTo(l, b), l.again), Concat(UpTo(r, b), r.again))) ==
            Bag(Joined(kind, on, UpTo(l, b), UpTo(r, b))) + Bag(JoinedAgain(kind, on, l, r, b))
  {
    match kind
    case Inner => InnerAgain(on, l, r, b);
    case LeftSemi => LeftSemiAgain(on, l, r, b);
    case RightSemi =>
      LeftSemiAgain(Flip(on), r, l, b);
      RightIsFlippedLeft(on, Concat(UpTo(l, b), l.again), Concat(UpTo(r, b), r.again));
      RightIsFlippedLeft(on, UpTo(l, b), UpTo(r, b));
      RightIsFlippedLeft(on, UpTo(l, b), r.again);
  }

  lemma JoinRows(kind: JoinType, on: Match, l: Side, r: Side, b: Bounds)
    requires IncrementalJoin(kind) && b.start <= b.end && Repeats(l, b) && Repeats(r, b)
    ensures FourTerms(kind, on, Earlier(l, b), Written(l, b), Earlier(r, b), Written(r, b)) ==
            Bag(Joined(kind, on, UpTo(l, b), UpTo(r, b))) + Bag(JoinSurplus(kind, on, l, r, b))
  {
    var (hl, dl, hr, dr) := (Earlier(l, b), Written(l, b), Earlier(r, b), Written(r, b));
    FourTermRule(kind, on, hl, dl, hr, dr);
    SideSplit(l, b);
    SideSplit(r, b);
    JoinedBag(kind, on, Concat(hl, dl), Concat(UpTo(l, b), l.again), Concat(hr, dr), Concat(UpTo(r, b), r.again));
    SidesAgain(kind, on, l, r, b);
    BagConcat(JoinedAgain(kind, on, l, r, b), Doubles(kind, on, hl, dl, hr, dr));
  }
}
