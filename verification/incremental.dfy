/** The rewritten plan computes exactly what a microbatch adds. */
module Incrementality {
  import opened Types
  import opened Bags
  import opened Plans

  // ---- Which plans can be rewritten ------------------------------------------------------------------

  predicate JoinFree(p: Plan) {
    match p
    case Linear(_, input) => JoinFree(input)
    case Union(inputs) => forall i :: 0 <= i < |inputs| ==> JoinFree(inputs[i])
    case Join(_, _, _, _) => false
    case Batch(_, input) => JoinFree(input)
    case _ => true
  }

  /** No path from the root to a leaf crosses two joins. */
  predicate OneJoinDeep(p: Plan) {
    match p
    case Linear(_, input) => OneJoinDeep(input)
    case Union(inputs) => forall i :: 0 <= i < |inputs| ==> OneJoinDeep(inputs[i])
    case Join(_, _, left, right) => JoinFree(left) && JoinFree(right)
    case Batch(_, input) => OneJoinDeep(input)
    case _ => true
  }

  predicate BaseTables(p: Plan) {
    match p
    case TableScan(_, source, _) => source == Snapshots
    case Linear(_, input) => BaseTables(input)
    case Union(inputs) => forall i :: 0 <= i < |inputs| ==> BaseTables(inputs[i])
    case Join(_, _, left, right) => BaseTables(left) && BaseTables(right)
    case Batch(_, input) => BaseTables(input)
    case _ => true
  }

  ghost predicate Rewritable(p: Plan, range: Range) {
    Incremental(p) && BaseTables(p) && if range.Delta? then OneJoinDeep(p) else JoinFree(p)
  }

  lemma {:induction false} JoinFreeIsShallow(p: Plan)
    requires JoinFree(p)
    ensures OneJoinDeep(p)
  {
    match p
    case Linear(_, input) => JoinFreeIsShallow(input);
    case Union(inputs) =>
      forall i | 0 <= i < |inputs| ensures OneJoinDeep(inputs[i]) {
        JoinFreeIsShallow(inputs[i]);
      }
    case Batch(_, input) => JoinFreeIsShallow(input);
    case _ =>
  }

  /** The rewrite succeeds exactly on incremental plans over base tables without stacked joins. */
  lemma {:induction false} RewriteSucceeds(p: Plan, start: BlockNumber, end: BlockNumber, range: Range)
    ensures Rewrite(p, start, end, range).Ok? <==> Rewritable(p, range)
    decreases p, 0
  {
    match p
    case Linear(_, input) => RewriteSucceeds(input, start, end, range);
    case Union(inputs) => RewriteAllSucceeds(inputs, start, end, range);
    case Join(kind, _, left, right) =>
      if IncrementalJoin(kind) && range.Delta? {
        JoinSidesSucceed(left, start, end);
        JoinSidesSucceed(right, start, end);
      }
    case _ =>
  }

  lemma {:induction false} JoinSidesSucceed(side: Plan, start: BlockNumber, end: BlockNumber)
    ensures Rewrite(side, start, end, Delta).Ok? && Rewrite(side, start, end, History).Ok? <==>
            Incremental(side) && BaseTables(side) && JoinFree(side)
    ensures Rewrite(side, start, end, History).Ok? ==> Rewrite(side, start, end, Delta).Ok?
    decreases side, 1
  {
    RewriteSucceeds(side, start, end, Delta);
    RewriteSucceeds(side, start, end, History);
    if JoinFree(side) {
      JoinFreeIsShallow(side);
    }
  }

  lemma {:induction false} RewriteAllSucceeds(ps: seq<Plan>, start: BlockNumber, end: BlockNumber, range: Range)
    ensures RewriteAll(ps, start, end, range).Ok? <==> forall i :: 0 <= i < |ps| ==> Rewritable(ps[i], range)
    ensures RewriteAll(ps, start, end, range).Ok? ==> |RewriteAll(ps, start, end, range).value| == |ps|
    decreases ps, 0
  {
    if ps == [] {
    } else {
      RewriteSucceeds(ps[0], start, end, range);
      RewriteAllSucceeds(ps[1..], start, end, range);
    }
  }

  // ---- Errors of the rewrite -------------------------------------------------------------------------

  /** A node, and the part of it that is being rewritten. */
  datatype Visit = Visit(node: Plan, range: Range)

  /** The visits of a rewrite in order; a join needs both parts of both sides. */
  function Visits(p: Plan, range: Range): seq<Visit>
    decreases p, 0
  {
    match p
    case Linear(_, input) => [Visit(p, range)] + Visits(input, range)
    case Union(inputs) => [Visit(p, range)] + VisitsAll(inputs, range)
    case Join(_, _, left, right) =>
      [Visit(p, range)] +
      (Visits(left, Delta) + (Visits(right, History) + (Visits(left, History) + Visits(right, Delta))))
    case _ => [Visit(p, range)]
  }

  function VisitsAll(ps: seq<Plan>, range: Range): seq<Visit>
    decreases ps, 0
  {
    if ps == [] then [] else Visits(ps[0], range) + VisitsAll(ps[1..], range)
  }

  /** What is wrong with a node: its operator or source, or a join below a join. */
  function Fault(v: Visit): Option<RewriteError> {
    match v.node
    case Invalid => Some(InvalidOperation)
    case Batch(op, _) => Some(NonIncremental(op))
    case TableScan(_, OtherProvider, _) => Some(UnsupportedProvider)
    case TableScan(_, NonBase, _) => Some(NonBaseTable)
    case Join(kind, _, _, _) =>
      if !IncrementalJoin(kind) then Some(NonIncrementalJoin(kind))
      else if v.range.History? then Some(StackedJoins)
      else None
    case _ => None
  }

  function FirstFault(visits: seq<Visit>): (e: Option<RewriteError>)
    ensures e.None? <==> forall v :: v in visits ==> Fault(v).None?
    ensures e.Some? ==>
              exists i ::
                0 <= i < |visits| && Fault(visits[i]) == e && forall j :: 0 <= j < i ==> Fault(visits[j]).None?
  {
    if visits == [] then None
    else if Fault(visits[0]).Some? then Fault(visits[0])
    else
      assert visits == [visits[0]] + visits[1..];
      FirstFault(visits[1..])
  }

  lemma {:induction false} FirstFaultConcat(a: seq<Visit>, b: seq<Visit>)
    ensures FirstFault(a + b) == if FirstFault(a).Some? then FirstFault(a) else FirstFault(b)
  {
    if a == [] {
      assert a + b == b;
    } else {
      assert (a + b)[0] == a[0] && (a + b)[1..] == a[1..] + b;
      FirstFaultConcat(a[1..], b);
    }
  }

  /** Success and error of a rewrite, as the first fault. */
  ghost predicate Reports<T>(r: Result<T, RewriteError>, fault: Option<RewriteError>) {
    match r
    case Ok(_) => fault == None
    case Err(e) => fault == Some(e)
  }

  /** The rewrite reports the fault of the first faulty visit, and succeeds exactly when there is none. */
  lemma {:induction false} RewriteReports(p: Plan, start: BlockNumber, end: BlockNumber, range: Range)
    ensures Reports(Rewrite(p, start, end, range), FirstFault(Visits(p, range)))
    decreases p, 0
  {
    match p
    case Linear(_, input) =>
      FirstFaultConcat([Visit(p, range)], Visits(input, range));
      RewriteReports(input, start, end, range);
    case Union(inputs) =>
      FirstFaultConcat([Visit(p, range)], VisitsAll(inputs, range));
      RewriteAllReports(inputs, start, end, range);
    case Join(_, _, left, right) =>
      RewriteReports(left, start, end, Delta);
      RewriteReports(right, start, end, History);
      RewriteReports(left, start, end, History);
      RewriteReports(right, start, end, Delta);
      JoinFaults(p, range);
      JoinReports(p, start, end, range, FirstFault(Visits(left, Delta)), FirstFault(Visits(right, History)),
                  FirstFault(Visits(left, History)), FirstFault(Visits(right, Delta)));
    case _ =>
  }

  function Or<E>(a: Option<E>, b: Option<E>): Option<E> {
    if a.Some? then a else b
  }

  lemma JoinFaults(p: Plan, range: Range)
    requires p.Join?
    ensures FirstFault(Visits(p, range)) ==
            Or(Fault(Visit(p, range)),
               Or(FirstFault(Visits(p.left, Delta)),
                  Or(FirstFault(Visits(p.right, History)),
                     Or(FirstFault(Visits(p.left, History)), FirstFault(Visits(p.right, Delta))))))
  {
    var (dl, hr, hl, dr) := (Visits(p.left, Delta), Visits(p.right, History), Visits(p.left, History),
                             Visits(p.right, Delta));
    FirstFaultConcat([Visit(p, range)], dl + (hr + (hl + dr)));
    FirstFaultConcat(dl, hr + (hl + dr));
    FirstFaultConcat(hr, hl + dr);
    FirstFaultConcat(hl, dr);
  }

  lemma JoinReports(p: Plan, start: BlockNumber, end: BlockNumber, range: Range, dl: Option<RewriteError>,
                    hr: Option<RewriteError>, hl: Option<RewriteError>, dr: Option<RewriteError>)
    requires p.Join?
    requires Reports(Rewrite(p.left, start, end, Delta), dl) && Reports(Rewrite(p.right, start, end, History), hr)
    requires Reports(Rewrite(p.left, start, end, History), hl) && Reports(Rewrite(p.right, start, end, Delta), dr)
    ensures Reports(Rewrite(p, start, end, range), Or(Fault(Visit(p, range)), Or(dl, Or(hr, Or(hl, dr)))))
  {
  }

  lemma {:induction false} RewriteAllReports(ps: seq<Plan>, start: BlockNumber, end: BlockNumber, range: Range)
    ensures Reports(RewriteAll(ps, start, end, range), FirstFault(VisitsAll(ps, range)))
    decreases ps, 0
  {
    if ps == [] {
    } else {
      FirstFaultConcat(Visits(ps[0], range), VisitsAll(ps[1..], range));
      RewriteReports(ps[0], start, end, range);
      RewriteAllReports(ps[1..], start, end, range);
    }
  }

  // ---- Rows by time ----------------------------------------------------------------------------------

  function InTime(start: BlockNumber, end: BlockNumber, range: Range): Tuple -> bool {
    (t: Tuple) => if range.Delta? then start <= t.time <= end else t.time < start
  }

  /** No leaf that yields a row without reading anything, as in a select without a table. */
  predicate NoOneRow(p: Plan) {
    match p
    case EmptyRelation(oneRow) => !oneRow
    case Linear(_, input) => NoOneRow(input)
    case Union(inputs) => forall i :: 0 <= i < |inputs| ==> NoOneRow(inputs[i])
    case Join(_, _, left, right) => NoOneRow(left) && NoOneRow(right)
    case Batch(_, input) => NoOneRow(input)
    case _ => true
  }

  lemma ApplyKeepsTime(op: LinearOp, t: Tuple, y: Tuple)
    requires Has(Apply(op)(t), y)
    ensures y.time == t.time
  {
    if op.Unnest? {
      WithValuesTime(op.expand(t.values), t, y);
    }
  }

  lemma {:induction false} WithValuesTime(vs: List<Values>, t: Tuple, y: Tuple)
    requires Has(Map(vs, WithValues(t)), y)
    ensures y.time == t.time && y.blocks == t.blocks
  {
    if vs.Cons? && y != WithValues(t)(vs.head) {
      WithValuesTime(vs.tail, t, y);
    }
  }

  lemma LinearTime(rows: List<Tuple>, op: LinearOp, start: BlockNumber, end: BlockNumber, range: Range)
    ensures Filter(FlatMap(rows, Apply(op)), InTime(start, end, range)) ==
            FlatMap(Filter(rows, InTime(start, end, range)), Apply(op))
  {
    var keep := InTime(start, end, range);
    forall x: Tuple, y: Tuple | Has(Apply(op)(x), y) ensures keep(y) == keep(x) {
      ApplyKeepsTime(op, x, y);
    }
    FilterFlatMap(rows, Apply(op), keep, keep);
  }

  lemma ScanTime(rows: List<Record>, filters: seq<ScanFilter>, start: BlockNumber, end: BlockNumber, range: Range)
    ensures Map(Filter(rows, PassesAll(filters + [Constraint(start, end, range)])), FromSource) ==
            Filter(Map(Filter(rows, PassesAll(filters)), FromSource), InTime(start, end, range))
  {
    var c := Constraint(start, end, range);
    var keep := (r: Record) => Passes([c], r);
    forall r: Record ensures PassesAll(filters + [c])(r) == (PassesAll(filters)(r) && keep(r)) {
      assert (filters + [c])[|filters|] == c;
      assert forall i :: 0 <= i < |filters| ==> (filters + [c])[i] == filters[i];
    }
    FilterCompose(rows, PassesAll(filters), keep, PassesAll(filters + [c]));
    forall r: Record ensures keep(r) == InTime(start, end, range)(FromSource(r)) {
      assert [c][0] == c;
    }
    FilterMap(Filter(rows, PassesAll(filters)), FromSource, keep, InTime(start, end, range));
  }

  lemma {:induction false} ConstantsTime(rows: List<Values>, start: BlockNumber, end: BlockNumber, range: Range)
    ensures Filter(Map(rows, FromConstant), InTime(start, end, range)) ==
            if range.History? then Map(rows, FromConstant) else Nil
  {
    if rows.Nil? {
    } else {
      ConstantsTime(rows.tail, start, end, range);
    }
  }

  /** Below joins the rewrite selects rows by time, in order. */
  lemma {:induction false} JoinFreeWindow(p: Plan, db: Database, start: BlockNumber, end: BlockNumber, range: Range)
    requires JoinFree(p) && (range.Delta? ==> NoOneRow(p)) && Rewrite(p, start, end, range).Ok?
    ensures Eval(Rewrite(p, start, end, range).value, db) == Filter(Eval(p, db), InTime(start, end, range))
    decreases p
  {
    RewriteSucceeds(p, start, end, range);
    match p
    case TableScan(table, _, filters) =>
      if table in db {
        ScanTime(db[table], filters, start, end, range);
      }
    case Constants(rows) => ConstantsTime(rows, start, end, range);
    case EmptyRelation(_) =>
    case Linear(op, input) =>
      JoinFreeWindow(input, db, start, end, range);
      LinearTime(Eval(input, db), op, start, end, range);
    case Union(inputs) => JoinFreeWindows(inputs, db, start, end, range);
  }

  lemma {:induction false} JoinFreeWindows(ps: seq<Plan>, db: Database, start: BlockNumber, end: BlockNumber,
                                            range: Range)
    requires forall i :: 0 <= i < |ps| ==> JoinFree(ps[i]) && (range.Delta? ==> NoOneRow(ps[i]))
    requires RewriteAll(ps, start, end, range).Ok?
    ensures EvalAll(RewriteAll(ps, start, end, range).value, db) == Filter(EvalAll(ps, db), InTime(start, end, range))
    decreases ps
  {
    RewriteAllSucceeds(ps, start, end, range);
    if ps == [] {
    } else {
      JoinFreeWindow(ps[0], db, start, end, range);
      JoinFreeWindows(ps[1..], db, start, end, range);
      FilterConcat(Eval(ps[0], db), EvalAll(ps[1..], db), InTime(start, end, range));
      var qs := RewriteAll(ps, start, end, range).value;
      assert qs[1..] == RewriteAll(ps[1..], start, end, range).value;
    }
  }

  // ---- The join rule ---------------------------------------------------------------------------------

  function Deltas(rows: List<Tuple>, start: BlockNumber, end: BlockNumber): List<Tuple> {
    Filter(rows, InTime(start, end, Delta))
  }

  function Histories(rows: List<Tuple>, start: BlockNumber, end: BlockNumber): List<Tuple> {
    Filter(rows, InTime(start, end, History))
  }

  function Pairs(on: Match, l: Tuple, right: List<Tuple>): List<Tuple> {
    FlatMap(right, PairWith(on, l))
  }

  /** What one left row contributes to the delta of a join. */
  ghost function LeftShare(on: Match, l: Tuple, right: List<Tuple>, start: BlockNumber, end: BlockNumber)
    : multiset<Tuple> {
    if start <= l.time <= end then
      Bag(Pairs(on, l, Histories(right, start, end))) + Bag(Pairs(on, l, Deltas(right, start, end)))
    else if l.time < start then Bag(Pairs(on, l, Deltas(right, start, end)))
    else multiset{}
  }

  function NotAfter(end: BlockNumber): Tuple -> bool {
    (t: Tuple) => t.time <= end
  }

  /** A filter on pairs that only depends on the right row can be applied before pairing. */
  lemma PairsBy(on: Match, l: Tuple, right: List<Tuple>, keepRight: Tuple -> bool, keep: Tuple -> bool)
    requires forall r: Tuple :: keepRight(r) == keep(Combine(l, r))
    ensures Filter(Pairs(on, l, right), keep) == Pairs(on, l, Filter(right, keepRight))
  {
    FilterFlatMap(right, PairWith(on, l), keepRight, keep);
  }

  lemma UpToEnd(on: Match, l: Tuple, right: List<Tuple>, start: BlockNumber, end: BlockNumber)
    requires start <= end
    ensures Bag(Pairs(on, l, Filter(right, NotAfter(end)))) ==
            Bag(Pairs(on, l, Histories(right, start, end))) + Bag(Pairs(on, l, Deltas(right, start, end)))
  {
    var h, d := Histories(right, start, end), Deltas(right, start, end);
    FilterSplit(right, InTime(start, end, History), InTime(start, end, Delta), NotAfter(end));
    BagConcat(h, d);
    FlatMapBag(Filter(right, NotAfter(end)), Concat(h, d), PairWith(on, l));
    FlatMapConcat(h, d, PairWith(on, l));
    BagConcat(Pairs(on, l, h), Pairs(on, l, d));
  }

  lemma LeftRowDelta(on: Match, l: Tuple, right: List<Tuple>, start: BlockNumber, end: BlockNumber)
    requires start <= end
    ensures Bag(Deltas(Pairs(on, l, right), start, end)) == LeftShare(on, l, right, start, end)
  {
    if start <= l.time <= end {
      PairsBy(on, l, right, NotAfter(end), InTime(start, end, Delta));
      UpToEnd(on, l, right, start, end);
    } else if l.time < start {
      PairsBy(on, l, right, InTime(start, end, Delta), InTime(start, end, Delta));
    } else {
      var never := (_: Tuple) => false;
      PairsBy(on, l, right, never, InTime(start, end, Delta));
      FilterNone(right, never);
    }
  }

  /** The three terms of the join update rule, over rows already selected by time. */
  ghost function ThreeTerms(on: Match, left: List<Tuple>, right: List<Tuple>, start: BlockNumber, end: BlockNumber)
    : multiset<Tuple> {
    Bag(FlatMap(Deltas(left, start, end), JoinWith(on, Histories(right, start, end)))) +
    Bag(FlatMap(Histories(left, start, end), JoinWith(on, Deltas(right, start, end)))) +
    Bag(FlatMap(Deltas(left, start, end), JoinWith(on, Deltas(right, start, end))))
  }

  lemma HeadTerm(on: Match, left: List<Tuple>, right: List<Tuple>, keep: Tuple -> bool)
    requires left.Cons?
    ensures Bag(FlatMap(Filter(left, keep), JoinWith(on, right))) ==
            (if keep(left.head) then Bag(Pairs(on, left.head, right)) else multiset{}) +
            Bag(FlatMap(Filter(left.tail, keep), JoinWith(on, right)))
  {
    if keep(left.head) {
      BagConcat(Pairs(on, left.head, right), FlatMap(Filter(left.tail, keep), JoinWith(on, right)));
    }
  }

  lemma Regroup<T>(a: multiset<T>, b: multiset<T>, c: multiset<T>, x: multiset<T>, y: multiset<T>, z: multiset<T>)
    ensures (a + x) + (b + y) + (c + z) == (a + b + c) + (x + y + z)
  {
  }

  lemma ThreeTermsHead(on: Match, left: List<Tuple>, right: List<Tuple>, start: BlockNumber, end: BlockNumber)
    requires left.Cons?
    ensures ThreeTerms(on, left, right, start, end) ==
            LeftShare(on, left.head, right, start, end) + ThreeTerms(on, left.tail, right, start, end)
  {
    var l, rest := left.head, left.tail;
    var d, h := InTime(start, end, Delta), InTime(start, end, History);
    var dr, hr := Deltas(right, start, end), Histories(right, start, end);
    HeadTerm(on, left, hr, d);
    HeadTerm(on, left, dr, h);
    HeadTerm(on, left, dr, d);
    var a := if d(l) then Bag(Pairs(on, l, hr)) else multiset{};
    var b := if h(l) then Bag(Pairs(on, l, dr)) else multiset{};
    var c := if d(l) then Bag(Pairs(on, l, dr)) else multiset{};
    Regroup(a, b, c, Bag(FlatMap(Filter(rest, d), JoinWith(on, hr))),
            Bag(FlatMap(Filter(rest, h), JoinWith(on, dr))), Bag(FlatMap(Filter(rest, d), JoinWith(on, dr))));
    assert a + b + c == LeftShare(on, l, right, start, end);
  }

  /** The three terms together are exactly the joined rows that appeared in the microbatch. */
  lemma {:induction false} JoinRule(on: Match, left: List<Tuple>, right: List<Tuple>, start: BlockNumber,
                                     end: BlockNumber)
    requires start <= end
    ensures ThreeTerms(on, left, right, start, end) ==
            Bag(Deltas(FlatMap(left, JoinWith(on, right)), start, end))
  {
    if left.Nil? {
    } else {
      JoinRule(on, left.tail, right, start, end);
      ThreeTermsHead(on, left, right, start, end);
      LeftRowDelta(on, left.head, right, start, end);
      FilterConcat(Pairs(on, left.head, right), FlatMap(left.tail, JoinWith(on, right)), InTime(start, end, Delta));
      BagConcat(Deltas(Pairs(on, left.head, right), start, end),
                Deltas(FlatMap(left.tail, JoinWith(on, right)), start, end));
    }
  }

  // ---- Microbatches ----------------------------------------------------------------------------------

  predicate InnerOnly(p: Plan) {
    match p
    case Linear(_, input) => InnerOnly(input)
    case Union(inputs) => forall i :: 0 <= i < |inputs| ==> InnerOnly(inputs[i])
    case Join(kind, _, left, right) => kind == Inner && InnerOnly(left) && InnerOnly(right)
    case Batch(_, input) => InnerOnly(input)
    case _ => true
  }

  /** Plans the delta theorem is about: inner joins only, and no leaf that yields a row out of nothing. */
  predicate Plain(p: Plan) {
    InnerOnly(p) && NoOneRow(p)
  }

  /** The rows of a union of three plans. */
  ghost function ThreeRows<T>(a: List<T>, b: List<T>, c: List<T>): List<T> {
    Concat(a, Concat(b, c))
  }

  lemma OneUnion(c: Plan, db: Database)
    ensures EvalAll([c], db) == Eval(c, db)
  {
    ConcatNil(Eval(c, db));
  }

  lemma TwoUnion(b: Plan, c: Plan, db: Database)
    ensures EvalAll([b, c], db) == Concat(Eval(b, db), EvalAll([c], db))
  {
    assert [b, c][1..] == [c];
  }

  lemma ThreeUnionHead(a: Plan, b: Plan, c: Plan, db: Database)
    ensures Eval(Union([a, b, c]), db) == Concat(Eval(a, db), EvalAll([b, c], db))
  {
    assert [a, b, c][1..] == [b, c];
  }

  lemma ThreeUnion(a: Plan, b: Plan, c: Plan, db: Database)
    ensures Eval(Union([a, b, c]), db) == ThreeRows(Eval(a, db), Eval(b, db), Eval(c, db))
  {
    ThreeUnionHead(a, b, c, db);
    TwoUnion(b, c, db);
    OneUnion(c, db);
  }

  lemma ThreeRowsBag<T>(a: List<T>, b: List<T>, c: List<T>)
    ensures Bag(ThreeRows(a, b, c)) == Bag(a) + Bag(b) + Bag(c)
  {
    BagConcat(b, c);
    BagConcat(a, Concat(b, c));
  }

  /** What the rewrite of a join evaluates to. */
  lemma RewrittenJoin(kind: JoinType, on: Match, left: Plan, right: Plan, db: Database, start: BlockNumber,
                      end: BlockNumber)
    requires Incrementalize(Join(kind, on, left, right), start, end).Ok?
    ensures IncrementalJoin(kind) && JoinFree(left) && JoinFree(right)
    ensures Rewrite(left, start, end, Delta).Ok? && Rewrite(left, start, end, History).Ok?
    ensures Rewrite(right, start, end, Delta).Ok? && Rewrite(right, start, end, History).Ok?
    ensures var (dl, hl) := (Rewrite(left, start, end, Delta).value, Rewrite(left, start, end, History).value);
            var (dr, hr) := (Rewrite(right, start, end, Delta).value, Rewrite(right, start, end, History).value);
            Eval(Incrementalize(Join(kind, on, left, right), start, end).value, db) ==
            ThreeRows(Joined(kind, on, Eval(dl, db), Eval(hr, db)), Joined(kind, on, Eval(hl, db), Eval(dr, db)),
                      Joined(kind, on, Eval(dl, db), Eval(dr, db)))
  {
    RewriteSucceeds(Join(kind, on, left, right), start, end, Delta);
    JoinSidesSucceed(left, start, end);
    JoinSidesSucceed(right, start, end);
    var dl, hl := Rewrite(left, start, end, Delta).value, Rewrite(left, start, end, History).value;
    var dr, hr := Rewrite(right, start, end, Delta).value, Rewrite(right, start, end, History).value;
    ThreeUnion(Join(kind, on, dl, hr), Join(kind, on, hl, dr), Join(kind, on, dl, dr), db);
  }

  /** The same over the rows of the sides, selected by time. */
  lemma JoinByTime(kind: JoinType, on: Match, left: Plan, right: Plan, db: Database, start: BlockNumber,
                   end: BlockNumber)
    requires NoOneRow(left) && NoOneRow(right)
    requires Incrementalize(Join(kind, on, left, right), start, end).Ok?
    ensures var (l, r) := (Eval(left, db), Eval(right, db));
            Eval(Incrementalize(Join(kind, on, left, right), start, end).value, db) ==
            ThreeRows(Joined(kind, on, Deltas(l, start, end), Histories(r, start, end)),
                      Joined(kind, on, Histories(l, start, end), Deltas(r, start, end)),
                      Joined(kind, on, Deltas(l, start, end), Deltas(r, start, end)))
  {
    RewrittenJoin(kind, on, left, right, db, start, end);
    JoinFreeWindow(left, db, start, end, Delta);
    JoinFreeWindow(left, db, start, end, History);
    JoinFreeWindow(right, db, start, end, Delta);
    JoinFreeWindow(right, db, start, end, History);
  }

  lemma JoinWindow(on: Match, left: Plan, right: Plan, db: Database, start: BlockNumber, end: BlockNumber)
    requires start <= end && NoOneRow(left) && NoOneRow(right)
    requires Incrementalize(Join(Inner, on, left, right), start, end).Ok?
    ensures var p := Join(Inner, on, left, right);
            Bag(Eval(Incrementalize(p, start, end).value, db)) == Bag(Deltas(Eval(p, db), start, end))
  {
    JoinByTime(Inner, on, left, right, db, start, end);
    var l, r := Eval(left, db), Eval(right, db);
    ThreeRowsBag(Joined(Inner, on, Deltas(l, start, end), Histories(r, start, end)),
                 Joined(Inner, on, Histories(l, start, end), Deltas(r, start, end)),
                 Joined(Inner, on, Deltas(l, start, end), Deltas(r, start, end)));
    JoinRule(on, l, r, start, end);
  }

  /**
   * The rewritten plan returns exactly the rows of the full plan whose newest source row lies in the microbatch.
   */
  lemma {:induction false} MicrobatchWindow(p: Plan, db: Database, start: BlockNumber, end: BlockNumber)
    requires start <= end && Plain(p) && Incrementalize(p, start, end).Ok?
    ensures Bag(Eval(Incrementalize(p, start, end).value, db)) == Bag(Deltas(Eval(p, db), start, end))
    decreases p
  {
    RewriteSucceeds(p, start, end, Delta);
    match p
    case Linear(op, input) =>
      MicrobatchWindow(input, db, start, end);
      FlatMapBag(Eval(Incrementalize(input, start, end).value, db), Deltas(Eval(input, db), start, end), Apply(op));
      LinearTime(Eval(input, db), op, start, end, Delta);
    case Union(inputs) => MicrobatchWindows(inputs, db, start, end);
    case Join(_, on, left, right) => JoinWindow(on, left, right, db, start, end);
    case _ => JoinFreeWindow(p, db, start, end, Delta);
  }

  lemma {:induction false} MicrobatchWindows(ps: seq<Plan>, db: Database, start: BlockNumber, end: BlockNumber)
    requires start <= end && RewriteAll(ps, start, end, Delta).Ok?
    requires forall i :: 0 <= i < |ps| ==> Plain(ps[i])
    ensures Bag(EvalAll(RewriteAll(ps, start, end, Delta).value, db)) == Bag(Deltas(EvalAll(ps, db), start, end))
    decreases ps
  {
    RewriteAllSucceeds(ps, start, end, Delta);
    if ps == [] {
    } else {
      MicrobatchWindow(ps[0], db, start, end);
      MicrobatchWindows(ps[1..], db, start, end);
      FilterConcat(Eval(ps[0], db), EvalAll(ps[1..], db), InTime(start, end, Delta));
      BagConcat(Deltas(Eval(ps[0], db), start, end), Deltas(EvalAll(ps[1..], db), start, end));
      var qs := RewriteAll(ps, start, end, Delta).value;
      assert qs[1..] == RewriteAll(ps[1..], start, end, Delta).value;
      BagConcat(Eval(qs[0], db), EvalAll(qs[1..], db));
    }
  }

  // ---- The tables as of a block ----------------------------------------------------------------------

  function ByBlock(limit: nat): Record -> bool {
    (r: Record) => r.block < limit
  }

  function ByTime(limit: nat): Tuple -> bool {
    (t: Tuple) => t.time < limit
  }

  /** The database with only the rows of blocks below `limit`. */
  function AsOf(db: Database, limit: nat): Database {
    map table | table in db :: Filter(db[table], ByBlock(limit))
  }

  lemma ScanAsOf(rows: List<Record>, filters: seq<ScanFilter>, limit: nat)
    ensures Map(Filter(Filter(rows, ByBlock(limit)), PassesAll(filters)), FromSource) ==
            Filter(Map(Filter(rows, PassesAll(filters)), FromSource), ByTime(limit))
  {
    var both := (r: Record) => ByBlock(limit)(r) && PassesAll(filters)(r);
    FilterCompose(rows, ByBlock(limit), PassesAll(filters), both);
    FilterCompose(rows, PassesAll(filters), ByBlock(limit), both);
    FilterMap(Filter(rows, PassesAll(filters)), FromSource, ByBlock(limit), ByTime(limit));
  }

  lemma {:induction false} ConstantsAsOf(rows: List<Values>, limit: nat)
    ensures Filter(Map(rows, FromConstant), ByTime(limit)) == Map(rows, FromConstant)
  {
    if rows.Nil? {
    } else {
      ConstantsAsOf(rows.tail, limit);
    }
  }

  lemma PairsAsOf(on: Match, l: Tuple, right: List<Tuple>, limit: nat)
    ensures Filter(Pairs(on, l, right), ByTime(limit)) ==
            if l.time < limit then Pairs(on, l, Filter(right, ByTime(limit))) else Nil
  {
    if l.time < limit {
      PairsBy(on, l, right, ByTime(limit), ByTime(limit));
    } else {
      var never := (_: Tuple) => false;
      PairsBy(on, l, right, never, ByTime(limit));
      FilterNone(right, never);
    }
  }

  lemma {:induction false} JoinAsOf(on: Match, left: List<Tuple>, right: List<Tuple>, limit: nat)
    ensures Filter(FlatMap(left, JoinWith(on, right)), ByTime(limit)) ==
            FlatMap(Filter(left, ByTime(limit)), JoinWith(on, Filter(right, ByTime(limit))))
  {
    if left.Nil? {
    } else {
      JoinAsOf(on, left.tail, right, limit);
      FilterConcat(Pairs(on, left.head, right), FlatMap(left.tail, JoinWith(on, right)), ByTime(limit));
      PairsAsOf(on, left.head, right, limit);
    }
  }

  lemma LinearAsOf(rows: List<Tuple>, op: LinearOp, limit: nat)
    ensures Filter(FlatMap(rows, Apply(op)), ByTime(limit)) == FlatMap(Filter(rows, ByTime(limit)), Apply(op))
  {
    forall x: Tuple, y: Tuple | Has(Apply(op)(x), y) ensures ByTime(limit)(y) == ByTime(limit)(x) {
      ApplyKeepsTime(op, x, y);
    }
    FilterFlatMap(rows, Apply(op), ByTime(limit), ByTime(limit));
  }

  /** The time of a row tells exactly from which block on a plan returns it. */
  lemma {:induction false} EvalAsOf(p: Plan, db: Database, limit: nat)
    requires InnerOnly(p)
    ensures Eval(p, AsOf(db, limit)) == Filter(Eval(p, db), ByTime(limit))
    decreases p
  {
    match p
    case TableScan(table, _, filters) =>
      if table in db {
        ScanAsOf(db[table], filters, limit);
      }
    case Constants(rows) => ConstantsAsOf(rows, limit);
    case EmptyRelation(_) =>
    case Linear(op, input) =>
      EvalAsOf(input, db, limit);
      LinearAsOf(Eval(input, db), op, limit);
    case Union(inputs) => EvalAllAsOf(inputs, db, limit);
    case Join(_, on, left, right) =>
      EvalAsOf(left, db, limit);
      EvalAsOf(right, db, limit);
      JoinAsOf(on, Eval(left, db), Eval(right, db), limit);
    case _ =>
  }

  lemma {:induction false} EvalAllAsOf(ps: seq<Plan>, db: Database, limit: nat)
    requires forall i :: 0 <= i < |ps| ==> InnerOnly(ps[i])
    ensures EvalAll(ps, AsOf(db, limit)) == Filter(EvalAll(ps, db), ByTime(limit))
    decreases ps
  {
    if ps == [] {
    } else {
      EvalAsOf(ps[0], db, limit);
      EvalAllAsOf(ps[1..], db, limit);
      FilterConcat(Eval(ps[0], db), EvalAll(ps[1..], db), ByTime(limit));
    }
  }

  // ---- Main results ----------------------------------------------------------------------------------

  /** Delta correctness: what was there before the microbatch, plus the microbatch, is what is there after it. */
  lemma DeltaCorrect(p: Plan, db: Database, start: BlockNumber, end: BlockNumber)
    requires start <= end && Plain(p) && Incrementalize(p, start, end).Ok?
    ensures Bag(Eval(p, AsOf(db, end + 1))) ==
            Bag(Eval(p, AsOf(db, start))) + Bag(Eval(Incrementalize(p, start, end).value, db))
  {
    MicrobatchWindow(p, db, start, end);
    EvalAsOf(p, db, end + 1);
    EvalAsOf(p, db, start);
    SplitByTime(Eval(p, db), start, end);
  }

  lemma SplitByTime(rows: List<Tuple>, start: BlockNumber, end: BlockNumber)
    requires start <= end
    ensures Bag(Filter(rows, ByTime(end + 1))) ==
            Bag(Filter(rows, ByTime(start))) + Bag(Deltas(rows, start, end))
  {
    FilterSplit(rows, ByTime(start), InTime(start, end, Delta), ByTime(end + 1));
  }

  /** A microbatch does not depend on rows of later blocks. */
  lemma MicrobatchIgnoresFuture(p: Plan, db: Database, start: BlockNumber, end: BlockNumber)
    requires start <= end && Plain(p) && Incrementalize(p, start, end).Ok?
    ensures Bag(Eval(Incrementalize(p, start, end).value, AsOf(db, end + 1))) ==
            Bag(Eval(Incrementalize(p, start, end).value, db))
  {
    MicrobatchWindow(p, db, start, end);
    MicrobatchWindow(p, AsOf(db, end + 1), start, end);
    EvalAsOf(p, db, end + 1);
    FilterCompose(Eval(p, db), ByTime(end + 1), InTime(start, end, Delta), InTime(start, end, Delta));
  }

  /** The first and last block of a microbatch. */
  datatype Bounds = Bounds(start: BlockNumber, end: BlockNumber)

  /** The first block after the microbatches. */
  function NextBlock(batches: seq<Bounds>): BlockNumber {
    if batches == [] then 0 else Last(batches).end + 1
  }

  /** Microbatches from block 0 on, each starting where the one before ended. */
  predicate Consecutive(batches: seq<Bounds>) {
    batches == [] ||
    (Consecutive(Front(batches)) && NextBlock(Front(batches)) == Last(batches).start <= Last(batches).end)
  }

  /** What the plan returns over the blocks below a limit. */
  ghost function Returned(p: Plan, db: Database): nat -> multiset<Tuple> {
    (limit: nat) => Bag(Eval(p, AsOf(db, limit)))
  }

  /** What a microbatch writes. */
  ghost function Writes(p: Plan, db: Database): Bounds -> multiset<Tuple> {
    (b: Bounds) => match Incrementalize(p, b.start, b.end)
                   case Ok(q) => Bag(Eval(q, db))
                   case Err(_) => multiset{}
  }

  ghost function Sum<T>(batches: seq<Bounds>, f: Bounds -> multiset<T>): multiset<T> {
    if batches == [] then multiset{} else Sum(Front(batches), f) + f(Last(batches))
  }

  /** If every microbatch adds what changes across it, consecutive ones add up. */
  lemma {:induction false} SumTelescopes<T>(batches: seq<Bounds>, upTo: nat -> multiset<T>, f: Bounds -> multiset<T>)
    requires Consecutive(batches)
    requires forall b: Bounds :: b.start <= b.end ==> upTo(b.end + 1) == upTo(b.start) + f(b)
    ensures upTo(NextBlock(batches)) == upTo(0) + Sum(batches, f)
  {
    if batches == [] {
    } else {
      SumTelescopes(Front(batches), upTo, f);
      assert upTo(Last(batches).end + 1) == upTo(Last(batches).start) + f(Last(batches));
    }
  }

  lemma MicrobatchAdds(p: Plan, db: Database, b: Bounds)
    requires b.start <= b.end && Plain(p) && Rewritable(p, Delta)
    ensures Returned(p, db)(b.end + 1) == Returned(p, db)(b.start) + Writes(p, db)(b)
  {
    RewriteSucceeds(p, b.start, b.end, Delta);
    DeltaCorrect(p, db, b.start, b.end);
  }

  lemma EachAdds(p: Plan, db: Database)
    requires Plain(p) && Rewritable(p, Delta)
    ensures forall b: Bounds :: b.start <= b.end ==>
              Returned(p, db)(b.end + 1) == Returned(p, db)(b.start) + Writes(p, db)(b)
  {
    forall b: Bounds | b.start <= b.end
      ensures Returned(p, db)(b.end + 1) == Returned(p, db)(b.start) + Writes(p, db)(b) {
      MicrobatchAdds(p, db, b);
    }
  }

  /** With constants, which exist before block 0, the microbatches add everything but those. */
  lemma Telescope(p: Plan, db: Database, batches: seq<Bounds>)
    requires Consecutive(batches) && Plain(p) && Rewritable(p, Delta)
    ensures Returned(p, db)(NextBlock(batches)) == Returned(p, db)(0) + Sum(batches, Writes(p, db))
  {
    EachAdds(p, db);
    SumTelescopes(batches, Returned(p, db), Writes(p, db));
  }

  predicate ConstantFree(p: Plan) {
    match p
    case Constants(rows) => rows == Nil
    case EmptyRelation(oneRow) => !oneRow
    case Linear(_, input) => ConstantFree(input)
    case Union(inputs) => forall i :: 0 <= i < |inputs| ==> ConstantFree(inputs[i])
    case Join(_, _, left, right) => ConstantFree(left) && ConstantFree(right)
    case Batch(_, input) => ConstantFree(input)
    case _ => true
  }

  lemma EmptyScan(rows: List<Record>)
    ensures Filter(rows, ByBlock(0)) == Nil
  {
    FilterNone(rows, ByBlock(0));
  }

  lemma {:induction false} NothingBeforeGenesis(p: Plan, db: Database)
    requires InnerOnly(p) && ConstantFree(p)
    ensures Eval(p, AsOf(db, 0)) == Nil
    decreases p
  {
    match p
    case TableScan(table, _, _) =>
      if table in db {
        EmptyScan(db[table]);
      }
    case Linear(_, input) => NothingBeforeGenesis(input, db);
    case Union(inputs) => NothingBeforeGenesisAll(inputs, db);
    case Join(_, _, left, _) => NothingBeforeGenesis(left, db);
    case _ =>
  }

  lemma {:induction false} NothingBeforeGenesisAll(ps: seq<Plan>, db: Database)
    requires forall i :: 0 <= i < |ps| ==> InnerOnly(ps[i]) && ConstantFree(ps[i])
    ensures EvalAll(ps, AsOf(db, 0)) == Nil
    decreases ps
  {
    if ps == [] {
    } else {
      NothingBeforeGenesis(ps[0], db);
      NothingBeforeGenesisAll(ps[1..], db);
    }
  }

  /** However the blocks are cut into microbatches, together they write the result of the batch query. */
  lemma MicrobatchesAddUp(p: Plan, db: Database, batches: seq<Bounds>)
    requires Consecutive(batches) && Plain(p) && ConstantFree(p) && Rewritable(p, Delta)
    ensures Sum(batches, Writes(p, db)) == Returned(p, db)(NextBlock(batches))
  {
    Telescope(p, db, batches);
    NothingBeforeGenesis(p, db);
  }
}
