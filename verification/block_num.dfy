/** The `_block_num` column: how it is carried through a plan, and what it means. */
module BlockNumbers {
  import opened Types
  import opened Bags
  import opened Plans
  import opened Incrementality

  datatype PropagateError =
    | UnsupportedOperation
    | MissingBlockNum             // a join side without a `_block_num` column
    | InvalidSelect               // the user selects a `_block_num` that may be wrong
    | UnexpectedBlockNum          // a union whose inputs do not carry the column themselves

  /** A rewritten plan and the expression its next projection has to add. */
  datatype Propagated = Propagated(plan: Plan, next: BlockExpr)

  /** How many `_block_num` columns the rows of a plan have. */
  function BlockColumns(p: Plan): nat {
    match p
    case TableScan(_, _, _) => 1
    case Constants(_) | EmptyRelation(_) | Invalid => 0
    case Linear(op, input) =>
      if op.Project? then (if op.block.None? then 0 else 1) else BlockColumns(input)
    case Union(inputs) => if inputs == [] then 0 else BlockColumns(inputs[0])
    case Join(kind, _, left, right) =>
      (match kind
       case LeftSemi => BlockColumns(left)
       case RightSemi => BlockColumns(right)
       case _ => BlockColumns(left) + BlockColumns(right))
    case Batch(_, input) => BlockColumns(input)
  }

  /** Greatest of the first `_block_num` column on each side. */
  function BlockNumForJoin(left: Plan, right: Plan): Result<BlockExpr, PropagateError> {
    if BlockColumns(left) == 0 || BlockColumns(right) == 0 then Err(MissingBlockNum)
    else Ok(Greatest(BlockColumns(left)))
  }

  /** Post-order rewrite; `state` is what the plan visited before has left to be added. */
  function Propagate(p: Plan, state: Option<BlockExpr>): Result<Propagated, PropagateError>
    decreases p
  {
    match p
    case TableScan(_, _, _) => Ok(Propagated(p, Column))
    case Constants(_) | EmptyRelation(_) => Ok(Propagated(p, Zero))
    case Linear(op, input) =>
      (match Propagate(input, state)
       case Err(e) => Err(e)
       case Ok(child) =>
         if !op.Project? then Ok(Propagated(Linear(op, child.plan), child.next))
         else if op.block.None? then Ok(Propagated(Linear(op.(block := Some(child.next)), child.plan), Column))
         else if op.block.value == child.next then Ok(Propagated(Linear(op, child.plan), Column))
         else Err(InvalidSelect))
    case Union(inputs) =>
      (match PropagateAll(inputs, state)
       case Err(e) => Err(e)
       case Ok((qs, after)) =>
         if after == Some(Column) then Ok(Propagated(Union(qs), Column)) else Err(UnexpectedBlockNum))
    case Join(kind, on, left, right) =>
      (match Propagate(left, state)
       case Err(e) => Err(e)
       case Ok(l) =>
         match Propagate(right, Some(l.next))
         case Err(e) => Err(e)
         case Ok(r) =>
           if !IncrementalJoin(kind) then Err(UnsupportedOperation)
           else match BlockNumForJoin(l.plan, r.plan)
             case Err(e) => Err(e)
             case Ok(expr) => Ok(Propagated(Join(kind, on, l.plan, r.plan), expr)))
    case Batch(_, input) =>
      (match Propagate(input, state)
       case Err(e) => Err(e)
       case Ok(_) => Err(UnsupportedOperation))
    case Invalid => Err(UnsupportedOperation)
  }

  function PropagateAll(ps: seq<Plan>, state: Option<BlockExpr>): Result<(seq<Plan>, Option<BlockExpr>), PropagateError>
    decreases ps
  {
    if ps == [] then Ok(([], state))
    else
      match Propagate(ps[0], state)
      case Err(e) => Err(e)
      case Ok(q) =>
        match PropagateAll(ps[1..], Some(q.next))
        case Err(e) => Err(e)
        case Ok((qs, after)) => Ok(([q.plan] + qs, after))
  }

  // ---- The rewriter ----------------------------------------------------------------------------------

  class BlockNumPropagator {
    var nextBlockNumExpr: Option<BlockExpr>

    constructor ()
      ensures nextBlockNumExpr == None
    {
      nextBlockNumExpr := None;
    }

    /** Rewrites the children, then the node, leaving the expression for the next projection in the state. */
    method Rewrite(p: Plan) returns (r: Result<Plan, PropagateError>)
      modifies this
      ensures match Propagate(p, old(nextBlockNumExpr))
              case Err(e) => r == Err(e)
              case Ok(done) => r == Ok(done.plan) && nextBlockNumExpr == Some(done.next)
      decreases p, 0
    {
      match p {
        case TableScan(_, _, _) =>
          nextBlockNumExpr := Some(Column);
          r := Ok(p);
        case Constants(_) =>
          nextBlockNumExpr := Some(Zero);
          r := Ok(p);
        case EmptyRelation(_) =>
          nextBlockNumExpr := Some(Zero);
          r := Ok(p);
        case Linear(op, input) =>
          r := Rewrite(input);
          if r.Ok? {
            r := AddColumn(op, r.value);
          }
        case Union(inputs) =>
          var qs := RewriteAll(inputs);
          if qs.Err? {
            return Err(qs.error);
          }
          r := if nextBlockNumExpr == Some(Column) then Ok(Union(qs.value)) else Err(UnexpectedBlockNum);
        case Join(kind, on, left, right) =>
          var l := Rewrite(left);
          if l.Err? {
            return l;
          }
          var q := Rewrite(right);
          if q.Err? {
            return q;
          }
          if !IncrementalJoin(kind) {
            return Err(UnsupportedOperation);
          }
          var expr := BlockNumForJoin(l.value, q.value);
          if expr.Err? {
            return Err(expr.error);
          }
          nextBlockNumExpr := Some(expr.value);
          r := Ok(Join(kind, on, l.value, q.value));
        case Batch(_, input) =>
          r := Rewrite(input);
          if r.Ok? {
            r := Err(UnsupportedOperation);
          }
        case Invalid =>
          r := Err(UnsupportedOperation);
      }
    }

    /** The projection step; any plan visited before has set the state. */
    method AddColumn(op: LinearOp, input: Plan) returns (r: Result<Plan, PropagateError>)
      requires nextBlockNumExpr.Some?
      modifies this
      ensures var expr := old(nextBlockNumExpr).value;
              if !op.Project? then r == Ok(Linear(op, input)) && nextBlockNumExpr == Some(expr)
              else if op.block.None? then
                r == Ok(Linear(op.(block := Some(expr)), input)) && nextBlockNumExpr == Some(Column)
              else if op.block.value == expr then r == Ok(Linear(op, input)) && nextBlockNumExpr == Some(Column)
              else r == Err(InvalidSelect)
    {
      if !op.Project? {
        return Ok(Linear(op, input));
      }
      var expr := nextBlockNumExpr.value;
      nextBlockNumExpr := Some(Column);
      if op.block.None? {
        r := Ok(Linear(op.(block := Some(expr)), input));
      } else if op.block.value == expr {
        r := Ok(Linear(op, input));
      } else {
        r := Err(InvalidSelect);
      }
    }

    method RewriteAll(ps: seq<Plan>) returns (r: Result<seq<Plan>, PropagateError>)
      modifies this
      ensures match PropagateAll(ps, old(nextBlockNumExpr))
              case Err(e) => r == Err(e)
              case Ok((qs, after)) => r == Ok(qs) && nextBlockNumExpr == after
      decreases ps, 1
    {
      if ps == [] {
        return Ok([]);
      }
      var q := Rewrite(ps[0]);
      if q.Err? {
        return Err(q.error);
      }
      var qs := RewriteAll(ps[1..]);
      if qs.Err? {
        return qs;
      }
      r := Ok([q.value] + qs.value);
    }
  }

  // ---- What the column holds -------------------------------------------------------------------------

  /** The block number a row has to carry: that of its newest source row, or 0 for constants. */
  function Newest(time: int): BlockNumber {
    if time < 0 then 0 else time
  }

  /** A join or a list of constants without a projection on top. */
  predicate Bare(p: Plan) {
    match p
    case Constants(_) | EmptyRelation(_) | Join(_, _, _, _) => true
    case Linear(op, input) => !op.Project? && Bare(input)
    case _ => false
  }

  /** Every join sits under a projection, and so does every union input that is not a table. */
  predicate Guarded(p: Plan) {
    match p
    case Linear(_, input) => Guarded(input)
    case Union(inputs) => inputs != [] && forall i :: 0 <= i < |inputs| ==> !Bare(inputs[i]) && Guarded(inputs[i])
    case Join(_, _, left, right) => !Bare(left) && !Bare(right) && Guarded(left) && Guarded(right)
    case Batch(_, input) => Guarded(input)
    case _ => true
  }

  ghost predicate Carries(rows: List<Tuple>, expr: BlockExpr, columns: nat) {
    forall t :: Has(rows, t) ==> |t.blocks| == columns && BlockValue(expr, t.blocks) == Newest(t.time)
  }

  lemma {:induction false} ScanCarries(rows: List<Record>)
    ensures Carries(Map(rows, FromSource), Column, 1)
  {
    if rows.Nil? {
    } else {
      ScanCarries(rows.tail);
    }
  }

  lemma {:induction false} ConstantsCarry(rows: List<Values>)
    ensures Carries(Map(rows, FromConstant), Zero, 0)
  {
    if rows.Nil? {
    } else {
      ConstantsCarry(rows.tail);
    }
  }

  lemma ProjectCarries(rows: List<Tuple>, expr: BlockExpr, columns: nat, compute: Values -> Values)
    requires Carries(rows, expr, columns)
    ensures Carries(FlatMap(rows, Apply(Project(Some(expr), compute))), Column, 1)
  {
    var op := Project(Some(expr), compute);
    forall y | Has(FlatMap(rows, Apply(op)), y)
      ensures |y.blocks| == 1 && BlockValue(Column, y.blocks) == Newest(y.time) {
      HasFlatMap(rows, Apply(op), y);
      var t :| Has(rows, t) && Has(Apply(op)(t), y);
    }
  }

  lemma OtherCarries(rows: List<Tuple>, expr: BlockExpr, columns: nat, op: LinearOp)
    requires Carries(rows, expr, columns) && !op.Project?
    ensures Carries(FlatMap(rows, Apply(op)), expr, columns)
  {
    forall y | Has(FlatMap(rows, Apply(op)), y)
      ensures |y.blocks| == columns && BlockValue(expr, y.blocks) == Newest(y.time) {
      HasFlatMap(rows, Apply(op), y);
      var t :| Has(rows, t) && Has(Apply(op)(t), y);
      if op.Unnest? {
        WithValuesTime(op.expand(t.values), t, y);
      }
    }
  }

  lemma ConcatCarries(a: List<Tuple>, b: List<Tuple>, expr: BlockExpr, columns: nat)
    requires Carries(a, expr, columns) && Carries(b, expr, columns)
    ensures Carries(Concat(a, b), expr, columns)
  {
    forall t | Has(Concat(a, b), t)
      ensures |t.blocks| == columns && BlockValue(expr, t.blocks) == Newest(t.time) {
      HasConcat(a, b, t);
    }
  }

  lemma PairOf(on: Match, l: Tuple, r: Tuple, t: Tuple)
    requires Has(PairWith(on, l)(r), t)
    ensures t == Combine(l, r)
  {
    assert !Has(Nil, t);
  }

  lemma CombineCarries(l: Tuple, r: Tuple)
    requires |l.blocks| == 1 && |r.blocks| == 1
    requires BlockValue(Column, l.blocks) == Newest(l.time) && BlockValue(Column, r.blocks) == Newest(r.time)
    ensures |Combine(l, r).blocks| == 2 && BlockValue(Greatest(1), Combine(l, r).blocks) == Newest(Combine(l, r).time)
  {
  }

  lemma JoinCarries(on: Match, left: List<Tuple>, right: List<Tuple>)
    requires Carries(left, Column, 1) && Carries(right, Column, 1)
    ensures Carries(FlatMap(left, JoinWith(on, right)), Greatest(1), 2)
  {
    forall t | Has(FlatMap(left, JoinWith(on, right)), t)
      ensures |t.blocks| == 2 && BlockValue(Greatest(1), t.blocks) == Newest(t.time) {
      var l, r := PairBehind(on, left, right, t);
      CombineCarries(l, r);
    }
  }

  /** After propagation, a plan that is not bare carries the column itself. */
  lemma {:induction false} CarriesColumn(p: Plan, state: Option<BlockExpr>)
    requires Guarded(p) && Propagate(p, state).Ok? && !Bare(p)
    ensures Propagate(p, state).value.next == Column && BlockColumns(Propagate(p, state).value.plan) == 1
    decreases p
  {
    match p
    case Linear(op, input) =>
      if !op.Project? {
        CarriesColumn(input, state);
      }
    case Union(inputs) =>
      CarriesColumn(inputs[0], state);
    case _ =>
  }

  /** In a propagated plan the `_block_num` of a row is the newest block among its source rows. */
  lemma {:induction false} BlockNumIsNewest(p: Plan, state: Option<BlockExpr>, db: Database)
    requires Guarded(p) && InnerOnly(p) && Propagate(p, state).Ok?
    ensures var q := Propagate(p, state).value;
            Carries(Eval(q.plan, db), q.next, BlockColumns(q.plan))
    decreases p
  {
    match p
    case TableScan(table, _, filters) =>
      if table in db {
        ScanCarries(Filter(db[table], PassesAll(filters)));
      }
    case Constants(rows) => ConstantsCarry(rows);
    case EmptyRelation(_) =>
    case Linear(op, input) =>
      BlockNumIsNewest(input, state, db);
      var child := Propagate(input, state).value;
      if op.Project? {
        ProjectCarries(Eval(child.plan, db), child.next, BlockColumns(child.plan), op.compute);
      } else {
        OtherCarries(Eval(child.plan, db), child.next, BlockColumns(child.plan), op);
      }
    case Union(inputs) =>
      CarriesColumn(p, state);
      UnionCarries(inputs, state, db);
    case Join(_, on, left, right) =>
      var l := Propagate(left, state).value;
      var r := Propagate(right, Some(l.next)).value;
      CarriesColumn(left, state);
      CarriesColumn(right, Some(l.next));
      BlockNumIsNewest(left, state, db);
      BlockNumIsNewest(right, Some(l.next), db);
      JoinCarries(on, Eval(l.plan, db), Eval(r.plan, db));
  }

  lemma {:induction false} UnionCarries(ps: seq<Plan>, state: Option<BlockExpr>, db: Database)
    requires forall i :: 0 <= i < |ps| ==> !Bare(ps[i]) && Guarded(ps[i]) && InnerOnly(ps[i])
    requires PropagateAll(ps, state).Ok?
    ensures Carries(EvalAll(PropagateAll(ps, state).value.0, db), Column, 1)
    decreases ps
  {
    if ps == [] {
    } else {
      var q := Propagate(ps[0], state).value;
      BlockNumIsNewest(ps[0], state, db);
      CarriesColumn(ps[0], state);
      UnionCarries(ps[1..], Some(q.next), db);
      var qs := PropagateAll(ps[1..], Some(q.next)).value.0;
      assert ([q.plan] + qs)[1..] == qs;
      ConcatCarries(Eval(q.plan, db), EvalAll(qs, db), Column, 1);
    }
  }

  // ---- The microbatch in terms of the column ---------------------------------------------------------

  /** `start <= _block_num <= end`, for the expression a plan's rows carry their block number in. */
  function InWindow(expr: BlockExpr, start: BlockNumber, end: BlockNumber): Tuple -> bool {
    (t: Tuple) => start <= BlockValue(expr, t.blocks) <= end
  }

  lemma {:induction false} FilterAgree<T(!new)>(s: List<T>, f: T -> bool, g: T -> bool)
    requires forall x :: Has(s, x) ==> f(x) == g(x)
    ensures Filter(s, f) == Filter(s, g)
  {
    if s.Nil? {
    } else {
      assert Has(s, s.head);
      forall x | Has(s.tail, x) ensures f(x) == g(x) {
        assert Has(s, x);
      }
      FilterAgree(s.tail, f, g);
    }
  }

  lemma {:induction false} ConstantFreeTime(p: Plan, db: Database, t: Tuple)
    requires InnerOnly(p) && ConstantFree(p) && Has(Eval(p, db), t)
    ensures t.time >= 0
  {
    NothingBeforeGenesis(p, db);
    EvalAsOf(p, db, 0);
    HasFilter(Eval(p, db), ByTime(0), t);
  }

  lemma WindowByBlock(rows: List<Tuple>, expr: BlockExpr, columns: nat, start: BlockNumber, end: BlockNumber)
    requires Carries(rows, expr, columns)
    requires start > 0 || forall t :: Has(rows, t) ==> t.time >= 0
    ensures Filter(rows, InWindow(expr, start, end)) == Deltas(rows, start, end)
  {
    FilterAgree(rows, InWindow(expr, start, end), InTime(start, end, Delta));
  }

  lemma {:induction false} PropagateKeepsShape(p: Plan, state: Option<BlockExpr>)
    requires Propagate(p, state).Ok?
    ensures var q := Propagate(p, state).value.plan;
            (Plain(p) ==> Plain(q)) && (ConstantFree(p) ==> ConstantFree(q))
    decreases p
  {
    match p
    case Linear(_, input) => PropagateKeepsShape(input, state);
    case Union(inputs) => PropagateAllKeepsShape(inputs, state);
    case Join(_, _, left, right) =>
      PropagateKeepsShape(left, state);
      PropagateKeepsShape(right, Some(Propagate(left, state).value.next));
    case _ =>
  }

  lemma {:induction false} PropagateAllKeepsShape(ps: seq<Plan>, state: Option<BlockExpr>)
    requires PropagateAll(ps, state).Ok?
    ensures var qs := PropagateAll(ps, state).value.0;
            && |qs| == |ps|
            && ((forall i :: 0 <= i < |ps| ==> Plain(ps[i])) ==> forall i :: 0 <= i < |qs| ==> Plain(qs[i]))
            && ((forall i :: 0 <= i < |ps| ==> ConstantFree(ps[i])) ==>
                  forall i :: 0 <= i < |qs| ==> ConstantFree(qs[i]))
    decreases ps
  {
    if ps == [] {
    } else {
      PropagateKeepsShape(ps[0], state);
      PropagateAllKeepsShape(ps[1..], Some(Propagate(ps[0], state).value.next));
      assert forall i :: 0 <= i < |ps[1..]| ==> ps[1..][i] == ps[i + 1];
    }
  }

  /**
   * The microbatch of a propagated plan is exactly the rows of the full plan whose `_block_num` lies in it. With
   * constants, which carry block 0 but exist before it, this still holds for microbatches after block 0.
   */
  lemma MicrobatchIsBlockWindow(p: Plan, db: Database, start: BlockNumber, end: BlockNumber)
    requires start <= end && Guarded(p) && Plain(p) && (start > 0 || ConstantFree(p))
    requires Propagate(p, None).Ok? && Incrementalize(Propagate(p, None).value.plan, start, end).Ok?
    ensures var q := Propagate(p, None).value;
            Bag(Eval(Incrementalize(q.plan, start, end).value, db)) ==
            Bag(Filter(Eval(q.plan, db), InWindow(q.next, start, end)))
  {
    var q := Propagate(p, None).value;
    PropagateKeepsShape(p, None);
    BlockNumIsNewest(p, None, db);
    MicrobatchWindow(q.plan, db, start, end);
    if start == 0 {
      forall t | Has(Eval(q.plan, db), t) ensures t.time >= 0 {
        ConstantFreeTime(q.plan, db, t);
      }
    }
    WindowByBlock(Eval(q.plan, db), q.next, BlockColumns(q.plan), start, end);
  }

  // ---- Who guards the joins --------------------------------------------------------------------------

  /** The part of `Guarded` that neither of the two rewrites checks. */
  predicate UnionsGuarded(p: Plan) {
    match p
    case Linear(_, input) => UnionsGuarded(input)
    case Union(inputs) =>
      inputs != [] && forall i :: 0 <= i < |inputs| ==> !Bare(inputs[i]) && UnionsGuarded(inputs[i])
    case Join(_, _, left, right) => UnionsGuarded(left) && UnionsGuarded(right)
    case Batch(_, input) => UnionsGuarded(input)
    case _ => true
  }

  lemma {:induction false} BareWithoutColumn(p: Plan, state: Option<BlockExpr>)
    requires JoinFree(p) && Bare(p) && Propagate(p, state).Ok?
    ensures BlockColumns(Propagate(p, state).value.plan) == 0
  {
    if p.Linear? {
      BareWithoutColumn(p.input, state);
    }
  }

  /** A plan that both rewrites accept has its joins under projections, stacked joins being refused. */
  lemma {:induction false} AcceptedIsGuarded(p: Plan, state: Option<BlockExpr>)
    requires OneJoinDeep(p) && UnionsGuarded(p) && Propagate(p, state).Ok?
    ensures Guarded(p)
    decreases p
  {
    match p
    case Linear(_, input) => AcceptedIsGuarded(input, state);
    case Union(inputs) => AllAcceptedAreGuarded(inputs, state);
    case Join(_, _, left, right) =>
      var l := Propagate(left, state).value;
      JoinFreeIsShallow(left);
      JoinFreeIsShallow(right);
      AcceptedIsGuarded(left, state);
      AcceptedIsGuarded(right, Some(l.next));
      if Bare(left) {
        BareWithoutColumn(left, state);
      }
      if Bare(right) {
        BareWithoutColumn(right, Some(l.next));
      }
    case _ =>
  }

  lemma {:induction false} AllAcceptedAreGuarded(ps: seq<Plan>, state: Option<BlockExpr>)
    requires forall i :: 0 <= i < |ps| ==> OneJoinDeep(ps[i]) && UnionsGuarded(ps[i])
    requires PropagateAll(ps, state).Ok?
    ensures forall i :: 0 <= i < |ps| ==> Guarded(ps[i])
    decreases ps
  {
    if ps == [] {
    } else {
      AcceptedIsGuarded(ps[0], state);
      AllAcceptedAreGuarded(ps[1..], Some(Propagate(ps[0], state).value.next));
      forall i | 0 <= i < |ps| ensures Guarded(ps[i]) {
        if i > 0 {
          assert ps[i] == ps[1..][i - 1];
        }
      }
    }
  }

  // ---- Stacked joins ---------------------------------------------------------------------------------

  /** Inner joins, however deep, over plans that carry the column. */
  predicate JoinTree(p: Plan) {
    match p
    case Join(kind, _, left, right) => kind == Inner && JoinTree(left) && JoinTree(right)
    case _ => Guarded(p) && InnerOnly(p) && !Bare(p)
  }

  function Largest(s: seq<BlockNumber>): (m: BlockNumber)
    requires s != []
    ensures m in s && forall i :: 0 <= i < |s| ==> s[i] <= m
  {
    if |s| == 1 then s[0]
    else
      assert forall i :: 0 < i < |s| ==> s[i] == s[1..][i - 1];
      Max(s[0], Largest(s[1..]))
  }

  /** Together, the columns of a row know its newest block. */
  ghost predicate Spread(t: Tuple, columns: nat) {
    |t.blocks| == columns > 0 && Largest(t.blocks) == Newest(t.time)
  }

  lemma {:induction false} LargestConcat(a: seq<BlockNumber>, b: seq<BlockNumber>)
    requires a != [] && b != []
    ensures Largest(a + b) == Max(Largest(a), Largest(b))
  {
    if |a| == 1 {
      assert (a + b)[1..] == b;
    } else {
      assert (a + b)[1..] == a[1..] + b;
      LargestConcat(a[1..], b);
    }
  }

  lemma CombineSpread(l: Tuple, r: Tuple, m: nat, n: nat)
    requires Spread(l, m) && Spread(r, n)
    ensures Spread(Combine(l, r), m + n)
  {
    LargestConcat(l.blocks, r.blocks);
  }

  lemma SingleSpread(t: Tuple)
    requires |t.blocks| == 1 && BlockValue(Column, t.blocks) == Newest(t.time)
    ensures Spread(t, 1)
  {
  }

  lemma {:induction false} TreeSpread(p: Plan, state: Option<BlockExpr>, db: Database, t: Tuple)
    requires JoinTree(p) && Propagate(p, state).Ok? && Has(Eval(Propagate(p, state).value.plan, db), t)
    ensures Spread(t, BlockColumns(Propagate(p, state).value.plan))
    decreases p
  {
    match p
    case Join(_, on, left, right) =>
      var l := Propagate(left, state).value;
      var r := Propagate(right, Some(l.next)).value;
      var x, y := PairBehind(on, Eval(l.plan, db), Eval(r.plan, db), t);
      TreeSpread(left, state, db, x);
      TreeSpread(right, Some(l.next), db, y);
      CombineSpread(x, y, BlockColumns(l.plan), BlockColumns(r.plan));
    case _ =>
      BlockNumIsNewest(p, state, db);
      CarriesColumn(p, state);
      SingleSpread(t);
  }

  /** The two rows a joined row comes from. */
  lemma PairBehind(on: Match, left: List<Tuple>, right: List<Tuple>, t: Tuple) returns (l: Tuple, r: Tuple)
    requires Has(FlatMap(left, JoinWith(on, right)), t)
    ensures Has(left, l) && Has(right, r) && t == Combine(l, r)
  {
    HasFlatMap(left, JoinWith(on, right), t);
    l :| Has(left, l) && Has(JoinWith(on, right)(l), t);
    HasFlatMap(right, PairWith(on, l), t);
    r :| Has(right, r) && Has(PairWith(on, l)(r), t);
    PairOf(on, l, r, t);
  }

  /**
   * What a projection makes of the rows of joins over joins: the number is right exactly for the rows none of whose
   * columns is greater than the first of each side, the only two the generated expression names.
   */
  lemma StackedJoinExactly(on: Match, left: Plan, right: Plan, state: Option<BlockExpr>, db: Database, t: Tuple)
    requires var p := Join(Inner, on, left, right);
             JoinTree(p) && Propagate(p, state).Ok? && Has(Eval(Propagate(p, state).value.plan, db), t)
    ensures var q := Propagate(Join(Inner, on, left, right), state).value;
            && q.next.Greatest? && 0 < q.next.right < |t.blocks|
            && (BlockValue(q.next, t.blocks) == Newest(t.time) <==>
                forall i :: 0 <= i < |t.blocks| ==> t.blocks[i] <= Max(t.blocks[0], t.blocks[q.next.right]))
  {
    var l := Propagate(left, state).value;
    var r := Propagate(right, Some(l.next)).value;
    TreeSpread(Join(Inner, on, left, right), state, db, t);
    NamedIsLargest(t.blocks, BlockColumns(l.plan));
  }

  lemma NamedIsLargest(s: seq<BlockNumber>, n: nat)
    requires n < |s|
    ensures Max(s[0], s[n]) == Largest(s) <==> forall i :: 0 <= i < |s| ==> s[i] <= Max(s[0], s[n])
  {
    var i :| 0 <= i < |s| && s[i] == Largest(s);
  }

  function Always(): Match {
    (x: Values, y: Values) => true
  }

  function AsIs(): Values -> Values {
    (v: Values) => v
  }

  function Snapshot(table: string): Plan {
    TableScan(table, Snapshots, [])
  }

  const BLOCKS: Database :=
    map["a" := Cons(Record(0, []), Nil), "b" := Cons(Record(5, []), Nil), "c" := Cons(Record(0, []), Nil)]
  const INSIDE := Join(Inner, Always(), Snapshot("a"), Snapshot("b"))
  const STACKED := Linear(Project(None, AsIs()), Join(Inner, Always(), INSIDE, Snapshot("c")))

  lemma ScanOne(table: string, r: Record)
    requires table in BLOCKS && BLOCKS[table] == Cons(r, Nil)
    ensures Eval(Snapshot(table), BLOCKS) == Cons(FromSource(r), Nil)
  {
    assert PassesAll([])(r);
    assert Filter(Cons(r, Nil), PassesAll([])) == Cons(r, Nil);
  }

  lemma JoinOne(l: Tuple, r: Tuple)
    ensures FlatMap(Cons(l, Nil), JoinWith(Always(), Cons(r, Nil))) == Cons(Combine(l, r), Nil)
  {
    assert PairWith(Always(), l)(r) == Cons(Combine(l, r), Nil);
    assert FlatMap(Cons(r, Nil), PairWith(Always(), l)) == Concat(Cons(Combine(l, r), Nil), Nil);
    ConcatNil(Cons(Combine(l, r), Nil));
  }

  lemma ProjectOne(t: Tuple)
    requires t == Tuple(5, [0, 5, 0], [])
    ensures FlatMap(Cons(t, Nil), Apply(Project(Some(Greatest(2)), AsIs()))) == Cons(Tuple(5, [0], []), Nil)
  {
    var op := Project(Some(Greatest(2)), AsIs());
    assert BlockValue(Greatest(2), t.blocks) == 0;
    assert AsIs()(t.values) == [];
    assert Apply(op)(t) == Cons(Tuple(5, [0], []), Nil);
    ConcatNil(Apply(op)(t));
  }

  lemma StackedRow()
    ensures Eval(Join(Inner, Always(), INSIDE, Snapshot("c")), BLOCKS) == Cons(Tuple(5, [0, 5, 0], []), Nil)
  {
    ScanOne("a", Record(0, []));
    ScanOne("b", Record(5, []));
    ScanOne("c", Record(0, []));
    var a, b := FromSource(Record(0, [])), FromSource(Record(5, []));
    JoinOne(a, b);
    JoinOne(Combine(a, b), a);
    assert Eval(INSIDE, BLOCKS) == Cons(Combine(a, b), Nil);
    assert Combine(Combine(a, b), a) == Tuple(5, [0, 5, 0], []);
  }

  /** Propagation alone gets stacked joins wrong: a row from blocks 0, 5 and 0 is said to be of block 0. */
  lemma StackedJoinForgets()
    ensures Propagate(STACKED, None).Ok?
    ensures Eval(Propagate(STACKED, None).value.plan, BLOCKS) == Cons(Tuple(5, [0], []), Nil)
  {
    StackedRow();
    ProjectOne(Tuple(5, [0, 5, 0], []));
    var joined := Join(Inner, Always(), INSIDE, Snapshot("c"));
    assert Propagate(joined, None) == Ok(Propagated(joined, Greatest(2)));
  }

  // ---- What propagation leaves alone -----------------------------------------------------------------

  /** A row without its `_block_num` columns. */
  function Strip(t: Tuple): Tuple {
    t.(blocks := [])
  }

  ghost predicate SameBut(a: List<Tuple>, b: List<Tuple>) {
    Map(a, Strip) == Map(b, Strip)
  }

  lemma {:induction false} SameConcat(a: List<Tuple>, b: List<Tuple>, c: List<Tuple>, d: List<Tuple>)
    requires SameBut(a, b) && SameBut(c, d)
    ensures SameBut(Concat(a, c), Concat(b, d))
    decreases a
  {
    if a.Nil? {
    } else {
      SameConcat(a.tail, b.tail, c, d);
    }
  }

  lemma {:induction false} SameValuesOf(vs: List<Values>, t: Tuple, u: Tuple)
    requires Strip(t) == Strip(u)
    ensures SameBut(Map(vs, WithValues(t)), Map(vs, WithValues(u)))
  {
    if vs.Nil? {
    } else {
      SameValuesOf(vs.tail, t, u);
    }
  }

  /** Two operators that differ at most in the column they add. */
  ghost predicate SameOp(op: LinearOp, other: LinearOp) {
    if op.Project? then other.Project? && other.compute == op.compute else other == op
  }

  lemma SameApply(op: LinearOp, other: LinearOp, t: Tuple, u: Tuple)
    requires SameOp(op, other) && Strip(t) == Strip(u)
    ensures SameBut(Apply(op)(t), Apply(other)(u))
  {
    if op.Unnest? {
      SameValuesOf(op.expand(t.values), t, u);
    }
  }

  lemma {:induction false} SameLinear(op: LinearOp, other: LinearOp, a: List<Tuple>, b: List<Tuple>)
    requires SameOp(op, other) && SameBut(a, b)
    ensures SameBut(FlatMap(a, Apply(op)), FlatMap(b, Apply(other)))
    decreases a
  {
    if a.Nil? {
    } else {
      SameLinear(op, other, a.tail, b.tail);
      SameApply(op, other, a.head, b.head);
      SameConcat(Apply(op)(a.head), Apply(other)(b.head), FlatMap(a.tail, Apply(op)), FlatMap(b.tail, Apply(other)));
    }
  }

  lemma SamePair(on: Match, l: Tuple, m: Tuple, r: Tuple, s: Tuple)
    requires Strip(l) == Strip(m) && Strip(r) == Strip(s)
    ensures SameBut(PairWith(on, l)(r), PairWith(on, m)(s))
  {
    assert Strip(l).values == m.values && Strip(r).values == s.values;
    assert Strip(l).time == m.time && Strip(r).time == s.time;
    assert Strip(Combine(l, r)) == Strip(Combine(m, s));
  }

  lemma {:induction false} SamePairs(on: Match, l: Tuple, m: Tuple, a: List<Tuple>, b: List<Tuple>)
    requires Strip(l) == Strip(m) && SameBut(a, b)
    ensures SameBut(FlatMap(a, PairWith(on, l)), FlatMap(b, PairWith(on, m)))
    decreases a
  {
    if a.Nil? {
    } else {
      SamePairs(on, l, m, a.tail, b.tail);
      SamePair(on, l, m, a.head, b.head);
      SameConcat(PairWith(on, l)(a.head), PairWith(on, m)(b.head), FlatMap(a.tail, PairWith(on, l)),
                 FlatMap(b.tail, PairWith(on, m)));
    }
  }

  lemma {:induction false} SameJoin(on: Match, a: List<Tuple>, b: List<Tuple>, c: List<Tuple>, d: List<Tuple>)
    requires SameBut(a, b) && SameBut(c, d)
    ensures SameBut(FlatMap(a, JoinWith(on, c)), FlatMap(b, JoinWith(on, d)))
    decreases a
  {
    if a.Nil? {
    } else {
      SameJoin(on, a.tail, b.tail, c, d);
      SamePairs(on, a.head, b.head, c, d);
      SameConcat(JoinWith(on, c)(a.head), JoinWith(on, d)(b.head), FlatMap(a.tail, JoinWith(on, c)),
                 FlatMap(b.tail, JoinWith(on, d)));
    }
  }

  /** Propagation changes no row except for its `_block_num` columns. */
  lemma {:induction false} PropagationKeepsRows(p: Plan, state: Option<BlockExpr>, db: Database)
    requires InnerOnly(p) && Propagate(p, state).Ok?
    ensures Map(Eval(Propagate(p, state).value.plan, db), Strip) == Map(Eval(p, db), Strip)
    decreases p
  {
    match p
    case Linear(op, input) =>
      PropagationKeepsRows(input, state, db);
      var q := Propagate(p, state).value.plan;
      SameLinear(q.op, op, Eval(Propagate(input, state).value.plan, db), Eval(input, db));
    case Union(inputs) => PropagationKeepsAllRows(inputs, state, db);
    case Join(_, on, left, right) =>
      var l := Propagate(left, state).value;
      var r := Propagate(right, Some(l.next)).value;
      PropagationKeepsRows(left, state, db);
      PropagationKeepsRows(right, Some(l.next), db);
      SameJoin(on, Eval(l.plan, db), Eval(left, db), Eval(r.plan, db), Eval(right, db));
    case _ =>
  }

  lemma {:induction false} PropagationKeepsAllRows(ps: seq<Plan>, state: Option<BlockExpr>, db: Database)
    requires PropagateAll(ps, state).Ok? && forall i :: 0 <= i < |ps| ==> InnerOnly(ps[i])
    ensures SameBut(EvalAll(PropagateAll(ps, state).value.0, db), EvalAll(ps, db))
    decreases ps
  {
    if ps == [] {
    } else {
      var q := Propagate(ps[0], state).value;
      var qs := PropagateAll(ps[1..], Some(q.next)).value.0;
      PropagationKeepsRows(ps[0], state, db);
      PropagationKeepsAllRows(ps[1..], Some(q.next), db);
      assert ([q.plan] + qs)[1..] == qs;
      SameConcat(Eval(q.plan, db), Eval(ps[0], db), EvalAll(qs, db), EvalAll(ps[1..], db));
    }
  }

  /** Propagating a propagated plan changes nothing. */
  lemma {:induction false} PropagationIdempotent(p: Plan, state: Option<BlockExpr>)
    requires Propagate(p, state).Ok?
    ensures Propagate(Propagate(p, state).value.plan, state) == Propagate(p, state)
    decreases p
  {
    match p
    case Linear(_, input) => PropagationIdempotent(input, state);
    case Union(inputs) => PropagationAllIdempotent(inputs, state);
    case Join(_, _, left, right) =>
      PropagationIdempotent(left, state);
      PropagationIdempotent(right, Some(Propagate(left, state).value.next));
    case _ =>
  }

  lemma {:induction false} PropagationAllIdempotent(ps: seq<Plan>, state: Option<BlockExpr>)
    requires PropagateAll(ps, state).Ok?
    ensures PropagateAll(PropagateAll(ps, state).value.0, state) == PropagateAll(ps, state)
    decreases ps
  {
    if ps == [] {
    } else {
      var q := Propagate(ps[0], state).value;
      PropagationIdempotent(ps[0], state);
      PropagationAllIdempotent(ps[1..], Some(q.next));
      var qs := PropagateAll(ps[1..], Some(q.next)).value.0;
      assert ([q.plan] + qs)[0] == q.plan && ([q.plan] + qs)[1..] == qs;
    }
  }
}
