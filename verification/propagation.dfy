/** When the `_block_num` column can be propagated through a plan, and which error is reported otherwise. */
module Propagation {
  import opened Types
  import opened Plans
  import opened BlockNumbers

  // ---- What a plan offers the node above it ----------------------------------------------------------

  /** How many `_block_num` columns the rows of a plan have once propagation has passed it. */
  function Columns(p: Plan): nat {
    match p
    case TableScan(_, _, _) => 1
    case Constants(_) | EmptyRelation(_) | Invalid => 0
    case Linear(op, input) => if op.Project? then 1 else Columns(input)
    case Union(inputs) => if inputs == [] then 0 else Columns(inputs[0])
    case Join(kind, _, left, right) =>
      (match kind
       case LeftSemi => Columns(left)
       case RightSemi => Columns(right)
       case _ => Columns(left) + Columns(right))
    case Batch(_, input) => Columns(input)
  }

  /** The expression that holds the block number of a plan's rows. */
  function Carried(p: Plan): BlockExpr {
    match p
    case Constants(_) | EmptyRelation(_) => Zero
    case Linear(op, input) => if op.Project? then Column else Carried(input)
    case Join(_, _, left, _) => Greatest(Columns(left))
    case _ => Column
  }

  lemma {:induction false} PropagatesTo(p: Plan, state: Option<BlockExpr>)
    requires Propagate(p, state).Ok?
    ensures var q := Propagate(p, state).value;
            q.next == Carried(p) && BlockColumns(q.plan) == Columns(p)
    decreases p
  {
    match p
    case Linear(_, input) => PropagatesTo(input, state);
    case Union(inputs) => AllPropagateTo(inputs, state);
    case Join(_, _, left, right) =>
      PropagatesTo(left, state);
      PropagatesTo(right, Some(Propagate(left, state).value.next));
    case _ =>
  }

  lemma {:induction false} AllPropagateTo(ps: seq<Plan>, state: Option<BlockExpr>)
    requires PropagateAll(ps, state).Ok?
    ensures var (qs, after) := PropagateAll(ps, state).value;
            && |qs| == |ps| && after == (if ps == [] then state else Some(Carried(Last(ps))))
            && (ps != [] ==> BlockColumns(qs[0]) == Columns(ps[0]))
    decreases ps
  {
    if ps == [] {
    } else {
      PropagatesTo(ps[0], state);
      AllPropagateTo(ps[1..], Some(Propagate(ps[0], state).value.next));
      assert |ps| > 1 ==> Last(ps[1..]) == Last(ps);
    }
  }

  // ---- Faulty nodes ----------------------------------------------------------------------------------

  /** The nodes of a plan in the order in which they are rewritten, inputs first. */
  function PostOrder(p: Plan): (order: seq<Plan>)
    ensures order != [] && Last(order) == p
    decreases p, 0
  {
    match p
    case Linear(_, input) => PostOrder(input) + [p]
    case Union(inputs) => PostOrderAll(inputs) + [p]
    case Join(_, _, left, right) => PostOrder(left) + PostOrder(right) + [p]
    case Batch(_, input) => PostOrder(input) + [p]
    case _ => [p]
  }

  function PostOrderAll(ps: seq<Plan>): seq<Plan>
    decreases ps, 0
  {
    if ps == [] then [] else PostOrder(ps[0]) + PostOrderAll(ps[1..])
  }

  /** What is wrong with a node, given the expression that the node visited before it carries. */
  function Fault(p: Plan, before: Option<BlockExpr>): Option<PropagateError> {
    match p
    case Linear(Project(Some(selected), _), input) => if selected == Carried(input) then None else Some(InvalidSelect)
    case Union(_) => if before == Some(Column) then None else Some(UnexpectedBlockNum)
    case Join(kind, _, left, right) =>
      if !IncrementalJoin(kind) then Some(UnsupportedOperation)
      else if Columns(left) == 0 || Columns(right) == 0 then Some(MissingBlockNum)
      else None
    case Batch(_, _) | Invalid => Some(UnsupportedOperation)
    case _ => None
  }

  /** The fault of the node at `i`; before the first node the rewriter's initial state counts. */
  function FaultAt(order: seq<Plan>, i: nat, state: Option<BlockExpr>): Option<PropagateError>
    requires i < |order|
  {
    Fault(order[i], if i == 0 then state else Some(Carried(order[i - 1])))
  }

  function FirstFault(order: seq<Plan>, state: Option<BlockExpr>): Option<PropagateError> {
    if order == [] then None
    else
      var fault := Fault(order[0], state);
      if fault.Some? then fault else FirstFault(order[1..], Some(Carried(order[0])))
  }

  function StateAfter(order: seq<Plan>, state: Option<BlockExpr>): Option<BlockExpr> {
    if order == [] then state else Some(Carried(Last(order)))
  }

  lemma {:induction false} FirstFaultConcat(a: seq<Plan>, b: seq<Plan>, state: Option<BlockExpr>)
    ensures FirstFault(a + b, state) ==
            if FirstFault(a, state).Some? then FirstFault(a, state) else FirstFault(b, StateAfter(a, state))
  {
    if a == [] {
      assert a + b == b;
    } else {
      assert (a + b)[0] == a[0] && (a + b)[1..] == a[1..] + b;
      FirstFaultConcat(a[1..], b, Some(Carried(a[0])));
      assert |a| > 1 ==> Last(a[1..]) == Last(a);
    }
  }

  /** One more node after faultless ones. */
  lemma FirstFaultSnoc(order: seq<Plan>, p: Plan, state: Option<BlockExpr>)
    ensures FirstFault(order + [p], state) ==
            if FirstFault(order, state).Some? then FirstFault(order, state) else Fault(p, StateAfter(order, state))
  {
    FirstFaultConcat(order, [p], state);
    assert [p][1..] == [];
  }

  /** Success and error of a rewrite, as the first fault. */
  ghost predicate Reports<T>(r: Result<T, PropagateError>, fault: Option<PropagateError>) {
    match r
    case Ok(_) => fault == None
    case Err(e) => fault == Some(e)
  }

  /** The sides come before the join itself. */
  lemma JoinFirstFault(p: Plan, state: Option<BlockExpr>)
    requires p.Join?
    ensures var left := FirstFault(PostOrder(p.left), state);
            var right := FirstFault(PostOrder(p.right), Some(Carried(p.left)));
            FirstFault(PostOrder(p), state) ==
            if left.Some? then left else if right.Some? then right else Fault(p, Some(Carried(p.right)))
  {
    FirstFaultSnoc(PostOrder(p.left) + PostOrder(p.right), p, state);
    FirstFaultConcat(PostOrder(p.left), PostOrder(p.right), state);
  }

  /** A join whose sides are accepted is at fault on its own account or not at all. */
  lemma JoinReports(p: Plan, state: Option<BlockExpr>)
    requires p.Join? && Propagate(p.left, state).Ok? && Propagate(p.right, Some(Carried(p.left))).Ok?
    ensures Reports(Propagate(p, state), Fault(p, Some(Carried(p.right))))
  {
    PropagatesTo(p.left, state);
    PropagatesTo(p.right, Some(Carried(p.left)));
  }

  lemma JoinFault(p: Plan, state: Option<BlockExpr>)
    requires p.Join?
    requires Reports(Propagate(p.left, state), FirstFault(PostOrder(p.left), state))
    requires var after := Some(Carried(p.left));
             Reports(Propagate(p.right, after), FirstFault(PostOrder(p.right), after))
    ensures Reports(Propagate(p, state), FirstFault(PostOrder(p), state))
  {
    JoinFirstFault(p, state);
    if Propagate(p.left, state).Ok? {
      PropagatesTo(p.left, state);
      if Propagate(p.right, Some(Carried(p.left))).Ok? {
        JoinReports(p, state);
      }
    }
  }

  lemma {:induction false} PropagateFault(p: Plan, state: Option<BlockExpr>)
    ensures Reports(Propagate(p, state), FirstFault(PostOrder(p), state))
    decreases p
  {
    match p
    case Linear(_, input) =>
      FirstFaultSnoc(PostOrder(input), p, state);
      PropagateFault(input, state);
      if Propagate(input, state).Ok? {
        PropagatesTo(input, state);
      }
    case Batch(_, input) =>
      FirstFaultSnoc(PostOrder(input), p, state);
      PropagateFault(input, state);
    case Union(inputs) => UnionFault(inputs, state);
    case Join(_, _, left, right) =>
      PropagateFault(left, state);
      PropagateFault(right, Some(Carried(left)));
      JoinFault(p, state);
    case _ => FirstFaultSnoc([], p, state);
  }

  lemma {:induction false} UnionFault(inputs: seq<Plan>, state: Option<BlockExpr>)
    ensures Reports(Propagate(Union(inputs), state), FirstFault(PostOrder(Union(inputs)), state))
    decreases inputs, 1
  {
    FirstFaultSnoc(PostOrderAll(inputs), Union(inputs), state);
    PropagateAllFault(inputs, state);
    if PropagateAll(inputs, state).Ok? {
      AllPropagateTo(inputs, state);
      StateAfterAll(inputs, state);
    }
  }

  lemma {:induction false} StateAfterAll(ps: seq<Plan>, state: Option<BlockExpr>)
    ensures StateAfter(PostOrderAll(ps), state) == if ps == [] then state else Some(Carried(Last(ps)))
  {
    if ps == [] {
    } else {
      StateAfterAll(ps[1..], Some(Carried(ps[0])));
      var a, b := PostOrder(ps[0]), PostOrderAll(ps[1..]);
      if |ps| == 1 {
        assert a + b == a;
      } else {
        assert Last(ps[1..]) == Last(ps);
        assert PostOrder(ps[1]) != [] && b != [];
        assert Last(a + b) == Last(b);
      }
    }
  }

  lemma {:induction false} PropagateAllFault(ps: seq<Plan>, state: Option<BlockExpr>)
    ensures Reports(PropagateAll(ps, state), FirstFault(PostOrderAll(ps), state))
    decreases ps, 0
  {
    if ps == [] {
    } else {
      FirstFaultConcat(PostOrder(ps[0]), PostOrderAll(ps[1..]), state);
      PropagateFault(ps[0], state);
      if Propagate(ps[0], state).Ok? {
        PropagatesTo(ps[0], state);
        PropagateAllFault(ps[1..], Some(Carried(ps[0])));
      }
    }
  }

  /** No node before the one at `i` is faulty. */
  ghost predicate FirstAt(order: seq<Plan>, i: int, state: Option<BlockExpr>) {
    0 <= i < |order| && forall j :: 0 <= j < i ==> FaultAt(order, j, state) == None
  }

  ghost predicate Faultless(order: seq<Plan>, state: Option<BlockExpr>) {
    forall i :: 0 <= i < |order| ==> FaultAt(order, i, state) == None
  }

  /** The first faulty node has this fault. */
  ghost predicate FailsFirst(order: seq<Plan>, state: Option<BlockExpr>, e: PropagateError) {
    exists i :: FirstAt(order, i, state) && FaultAt(order, i, state) == Some(e)
  }

  lemma {:induction false} FirstFaultIs(order: seq<Plan>, state: Option<BlockExpr>)
    ensures FirstFault(order, state).None? <==> Faultless(order, state)
    ensures FirstFault(order, state).Some? ==> FailsFirst(order, state, FirstFault(order, state).value)
  {
    if order == [] {
    } else if Fault(order[0], state).Some? {
      assert FirstAt(order, 0, state) && FaultAt(order, 0, state).Some?;
    } else {
      var rest, after := order[1..], Some(Carried(order[0]));
      FirstFaultIs(rest, after);
      assert forall i :: 0 < i < |order| ==> FaultAt(order, i, state) == FaultAt(rest, i - 1, after);
      assert forall i :: 0 <= i < |rest| ==> FaultAt(rest, i, after) == FaultAt(order, i + 1, state);
      if FirstFault(rest, after).Some? {
        var i :| FirstAt(rest, i, after) && FaultAt(rest, i, after) == FirstFault(rest, after);
        assert FirstAt(order, i + 1, state);
      }
    }
  }

  // ---- Main results ----------------------------------------------------------------------------------

  /**
   * Propagation succeeds exactly when no node is faulty, and otherwise reports the fault of the first faulty one in the
   * order of the rewrite.
   */
  lemma PropagationExactly(p: Plan, state: Option<BlockExpr>)
    ensures Propagate(p, state).Ok? <==> Faultless(PostOrder(p), state)
    ensures Propagate(p, state).Err? ==> FailsFirst(PostOrder(p), state, Propagate(p, state).error)
  {
    PropagateFault(p, state);
    FirstFaultIs(PostOrder(p), state);
  }

  /** No projection of the plan selects a `_block_num` itself. */
  predicate SelectsNone(p: Plan) {
    match p
    case Linear(op, input) => (op.Project? ==> op.block.None?) && SelectsNone(input)
    case Union(inputs) => forall i :: 0 <= i < |inputs| ==> SelectsNone(inputs[i])
    case Join(_, _, left, right) => SelectsNone(left) && SelectsNone(right)
    case Batch(_, input) => SelectsNone(input)
    case _ => true
  }

  lemma {:induction false} GuardedCarries(p: Plan)
    requires Guarded(p) && Incremental(p) && !Bare(p)
    ensures Carried(p) == Column && Columns(p) == 1
    decreases p
  {
    match p
    case Linear(op, input) =>
      if !op.Project? {
        GuardedCarries(input);
      }
    case Union(inputs) => GuardedCarries(inputs[0]);
    case _ =>
  }

  /** A plan of incremental operators with its joins and constants under projections is accepted in any state. */
  lemma {:induction false} GuardedSucceeds(p: Plan, state: Option<BlockExpr>)
    requires Guarded(p) && Incremental(p) && SelectsNone(p)
    ensures Propagate(p, state).Ok?
    decreases p
  {
    match p
    case Linear(_, input) => GuardedSucceeds(input, state);
    case Union(inputs) =>
      AllGuardedSucceed(inputs, state);
      AllPropagateTo(inputs, state);
      GuardedCarries(Last(inputs));
    case Join(_, _, left, right) =>
      GuardedSucceeds(left, state);
      PropagatesTo(left, state);
      GuardedSucceeds(right, Some(Carried(left)));
      PropagatesTo(right, Some(Carried(left)));
      GuardedCarries(left);
      GuardedCarries(right);
    case _ =>
  }

  lemma {:induction false} AllGuardedSucceed(ps: seq<Plan>, state: Option<BlockExpr>)
    requires forall i :: 0 <= i < |ps| ==> Guarded(ps[i]) && Incremental(ps[i]) && SelectsNone(ps[i])
    ensures PropagateAll(ps, state).Ok?
    decreases ps
  {
    if ps == [] {
    } else {
      GuardedSucceeds(ps[0], state);
      AllGuardedSucceed(ps[1..], Some(Propagate(ps[0], state).value.next));
    }
  }
}
