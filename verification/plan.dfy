/** Logical plans, what they compute, and the rewrite of a plan into the plan of one microbatch. */
module Plans {
  import opened Types
  import opened Bags

  type Values = seq<int>
  type Test = Values -> bool
  type Match = (Values, Values) -> bool

  datatype JoinType =
    Inner | LeftSemi | RightSemi | LeftOuter | RightOuter | FullOuter | LeftAnti | RightAnti | LeftMark | RightMark

  /** What a table scan reads from: only base tables backed by a snapshot can be scanned incrementally. */
  datatype Source = Snapshots | OtherProvider | NonBase

  datatype ScanFilter =
    | UserFilter(test: Test)
    | Between(start: BlockNumber, end: BlockNumber)
    | Before(start: BlockNumber)

  datatype BatchOnly = Limit | Aggregate | Distinct | Sort | Window | RecursiveQuery

  /** The `_block_num` expression a projection prepends; a join row holds one such column per side. */
  datatype BlockExpr = Column | Zero | Greatest(right: nat)

  /** Stateless operators: each output row comes from one input row. */
  datatype LinearOp =
    | Project(block: Option<BlockExpr>, compute: Values -> Values)
    | Where(test: Test)
    | Unnest(expand: Values -> List<Values>)
    | Alias                                                  // repartition, subquery, subquery alias

  datatype Plan =
    | TableScan(table: string, source: Source, filters: seq<ScanFilter>)
    | Constants(rows: List<Values>)
    | EmptyRelation(oneRow: bool)
    | Linear(op: LinearOp, input: Plan)
    | Union(inputs: seq<Plan>)
    | Join(kind: JoinType, on: Match, left: Plan, right: Plan)
    | Batch(batchOp: BatchOnly, input: Plan)
    | Invalid                                                // statements, extensions

  // ---- Meaning ---------------------------------------------------------------------------------------

  /** A source row, with the block it was produced in. */
  datatype Record = Record(block: BlockNumber, values: Values)

  /**
   * A row of a plan: the newest block among the source rows it stems from (`BEFORE_GENESIS` for constants), its
   * `_block_num` columns and its other columns.
   */
  datatype Tuple = Tuple(time: int, blocks: seq<BlockNumber>, values: Values)

  const BEFORE_GENESIS: int := -1

  type Database = map<string, List<Record>>

  predicate Passes(filters: seq<ScanFilter>, r: Record) {
    forall i :: 0 <= i < |filters| ==>
      match filters[i]
      case UserFilter(test) => test(r.values)
      case Between(start, end) => start <= r.block <= end
      case Before(start) => r.block < start
  }

  function PassesAll(filters: seq<ScanFilter>): Record -> bool {
    r => Passes(filters, r)
  }

  function FromSource(r: Record): Tuple {
    Tuple(r.block, [r.block], r.values)
  }

  function FromConstant(v: Values): Tuple {
    Tuple(BEFORE_GENESIS, [], v)
  }

  /** Where a join side has no such column, the planner has already failed. */
  function BlockAt(blocks: seq<BlockNumber>, i: nat): BlockNumber {
    if i < |blocks| then blocks[i] else 0
  }

  function BlockValue(e: BlockExpr, blocks: seq<BlockNumber>): BlockNumber {
    match e
    case Column => BlockAt(blocks, 0)
    case Zero => 0
    case Greatest(right) => Max(BlockAt(blocks, 0), BlockAt(blocks, right))
  }

  function Apply(op: LinearOp): Tuple -> List<Tuple> {
    (t: Tuple) =>
      match op
      case Project(block, compute) =>
        Cons(Tuple(t.time, if block.None? then [] else [BlockValue(block.value, t.blocks)], compute(t.values)), Nil)
      case Where(test) => if test(t.values) then Cons(t, Nil) else Nil
      case Unnest(expand) => Map(expand(t.values), WithValues(t))
      case Alias => Cons(t, Nil)
  }

  function WithValues(t: Tuple): Values -> Tuple {
    v => t.(values := v)
  }

  function Later(a: int, b: int): int {
    if a >= b then a else b
  }

  function Combine(l: Tuple, r: Tuple): Tuple {
    Tuple(Later(l.time, r.time), l.blocks + r.blocks, l.values + r.values)
  }

  function PairWith(on: Match, l: Tuple): Tuple -> List<Tuple> {
    (r: Tuple) => if on(l.values, r.values) then Cons(Combine(l, r), Nil) else Nil
  }

  function JoinWith(on: Match, right: List<Tuple>): Tuple -> List<Tuple> {
    (l: Tuple) => FlatMap(right, PairWith(on, l))
  }

  ghost function HasRight(on: Match, right: List<Tuple>): Tuple -> bool {
    (l: Tuple) => exists r :: Has(right, r) && on(l.values, r.values)
  }

  ghost function HasLeft(on: Match, left: List<Tuple>): Tuple -> bool {
    (r: Tuple) => exists l :: Has(left, l) && on(l.values, r.values)
  }

  /** Inner and semi joins; the other kinds have no incremental form and no meaning here. */
  ghost function Joined(kind: JoinType, on: Match, left: List<Tuple>, right: List<Tuple>): List<Tuple> {
    match kind
    case Inner => FlatMap(left, JoinWith(on, right))
    case LeftSemi => Filter(left, HasRight(on, right))
    case RightSemi => Filter(right, HasLeft(on, left))
    case _ => Nil
  }

  predicate IncrementalJoin(kind: JoinType) {
    kind in {Inner, LeftSemi, RightSemi}
  }

  /** Every node is an operator that can be maintained incrementally. */
  predicate Incremental(p: Plan) {
    match p
    case TableScan(_, _, _) | Constants(_) | EmptyRelation(_) => true
    case Linear(_, input) => Incremental(input)
    case Union(inputs) => forall i :: 0 <= i < |inputs| ==> Incremental(inputs[i])
    case Join(kind, _, left, right) => IncrementalJoin(kind) && Incremental(left) && Incremental(right)
    case Batch(_, _) | Invalid => false
  }

  /** The rows of a plan, in some order; plans that are not incremental have no meaning here. */
  ghost function Eval(p: Plan, db: Database): List<Tuple> {
    match p
    case TableScan(table, _, filters) =>
      if table in db then Map(Filter(db[table], PassesAll(filters)), FromSource) else Nil
    case Constants(rows) => Map(rows, FromConstant)
    case EmptyRelation(oneRow) => if oneRow then Cons(FromConstant([]), Nil) else Nil
    case Linear(op, input) => FlatMap(Eval(input, db), Apply(op))
    case Union(inputs) => EvalAll(inputs, db)
    case Join(kind, on, left, right) => Joined(kind, on, Eval(left, db), Eval(right, db))
    case Batch(_, _) | Invalid => Nil
  }

  ghost function EvalAll(ps: seq<Plan>, db: Database): List<Tuple> {
    if ps == [] then Nil else Concat(Eval(ps[0], db), EvalAll(ps[1..], db))
  }

  // ---- The rewrite -----------------------------------------------------------------------------------

  datatype RewriteError =
    | InvalidOperation
    | NonIncremental(op: BatchOnly)
    | NonIncrementalJoin(kind: JoinType)
    | StackedJoins
    | UnsupportedProvider
    | NonBaseTable

  datatype Range = Delta | History

  function Constraint(start: BlockNumber, end: BlockNumber, range: Range): ScanFilter {
    if range.Delta? then Between(start, end) else Before(start)
  }

  /** The plan that computes one microbatch, or the part of a join input that lies before it. */
  function Rewrite(p: Plan, start: BlockNumber, end: BlockNumber, range: Range): Result<Plan, RewriteError>
    decreases p
  {
    match p
    case Invalid => Err(InvalidOperation)
    case Batch(op, _) => Err(NonIncremental(op))
    case TableScan(table, source, filters) =>
      (match source
       case OtherProvider => Err(UnsupportedProvider)
       case NonBase => Err(NonBaseTable)
       case Snapshots => Ok(TableScan(table, source, filters + [Constraint(start, end, range)])))
    case Constants(_) => Ok(if range.History? then p else EmptyRelation(false))
    case EmptyRelation(_) => Ok(p)
    case Linear(op, input) =>
      (match Rewrite(input, start, end, range)
       case Err(e) => Err(e)
       case Ok(q) => Ok(Linear(op, q)))
    case Union(inputs) =>
      (match RewriteAll(inputs, start, end, range)
       case Err(e) => Err(e)
       case Ok(qs) => Ok(Union(qs)))
    case Join(kind, on, left, right) =>
      if !IncrementalJoin(kind) then Err(NonIncrementalJoin(kind))
      else if range.History? then Err(StackedJoins)
      else
        var dl := Rewrite(left, start, end, Delta);
        if dl.Err? then Err(dl.error)
        else
          var hr := Rewrite(right, start, end, History);
          if hr.Err? then Err(hr.error)
          else
            var hl := Rewrite(left, start, end, History);
            if hl.Err? then Err(hl.error)
            else
              var dr := Rewrite(right, start, end, Delta);
              if dr.Err? then Err(dr.error)
              else
                Ok(Union([Join(kind, on, dl.value, hr.value),
                          Join(kind, on, hl.value, dr.value),
                          Join(kind, on, dl.value, dr.value)]))
  }

  function RewriteAll(ps: seq<Plan>, start: BlockNumber, end: BlockNumber, range: Range)
    : Result<seq<Plan>, RewriteError>
    decreases ps
  {
    if ps == [] then Ok([])
    else
      match Rewrite(ps[0], start, end, range)
      case Err(e) => Err(e)
      case Ok(q) =>
        match RewriteAll(ps[1..], start, end, range)
        case Err(e) => Err(e)
        case Ok(qs) => Ok([q] + qs)
  }

  function Incrementalize(p: Plan, start: BlockNumber, end: BlockNumber): Result<Plan, RewriteError> {
    Rewrite(p, start, end, Delta)
  }
}
