/**
 * The JavaScript space-complexity estimator: one Babel traversal with enter callbacks only,
 * counting data-structure allocations and self-calls and raising a label over a list of
 * three, followed by an adjustment for recursion without allocations.
 */
module JsSpace {
  import opened Wrappers
  import opened Lattice
  import opened JsAst

  /** The order list of `updateSpace`. */
  const SpaceOrder: seq<Complexity> := [Constant, Linear, Quadratic]

  /** The position of a label in the order list, -1 for a label outside it. */
  function SpaceRank(c: Complexity): int {
    match c
    case Constant => 0
    case Linear => 1
    case Quadratic => 2
    case _ => -1
  }

  /** The rank is what `indexOf` finds in the order list. */
  lemma SpaceRankIsIndexOf(c: Complexity)
    ensures SpaceRank(c) == IndexOf(SpaceOrder, c)
  {
  }

  /** The estimator's closure variables. */
  datatype SpaceState = SpaceState(space: Complexity, dataStructureCount: int, recursionDepth: int)

  const InitialSpace := SpaceState(Constant, 0, 0)

  /** Constructors named by a `new` expression that count as a data structure. */
  const Collections: seq<string> := ["Array", "Set", "Map"]

  /** The visit is an array literal, an object literal or `new Array/Set/Map(...)`. */
  predicate IsDataStructure(n: JsNode) {
    || n.ArrayExpression?
    || n.ObjectExpression?
    || (n.NewExpression? && IdentifierName(n.constructed).Some?
        && IdentifierName(n.constructed).value in Collections)
  }

  /** The visit is a call of the enclosing function by its own name. */
  predicate IsRecursion(v: Visit) {
    v.node.CallExpression? && IsSelfCall(v.node.callee, v.scope)
  }

  /** The visit makes the estimator answer O(n). */
  predicate Allocates(v: Visit) {
    IsDataStructure(v.node) || IsRecursion(v)
  }

  /** `updateSpace(newSpace)`: the new label replaces the old one when it ranks higher. */
  function UpdateStep(s: SpaceState, newSpace: Complexity): (r: SpaceState)
    ensures r.dataStructureCount == s.dataStructureCount && r.recursionDepth == s.recursionDepth
    ensures r.space == s.space || r.space == newSpace
    ensures SpaceRank(r.space) >= SpaceRank(s.space) && SpaceRank(r.space) >= SpaceRank(newSpace)
  {
    s.(space := if SpaceRank(newSpace) > SpaceRank(s.space) then newSpace else s.space)
  }

  /** The update is the generic `indexOf` update over the order list. */
  lemma UpdateStepIsRaise(s: SpaceState, newSpace: Complexity)
    ensures UpdateStep(s, newSpace).space == Raise(SpaceOrder, s.space, newSpace)
  {
    SpaceRankIsIndexOf(s.space);
    SpaceRankIsIndexOf(newSpace);
  }

  /** The enter callbacks: `ArrayExpression`, `ObjectExpression`, `NewExpression`, `CallExpression`. */
  function SpaceEnter(s: SpaceState, v: Visit): (r: SpaceState)
  {
    if IsDataStructure(v.node) then
      UpdateStep(s.(dataStructureCount := s.dataStructureCount + 1), Linear)
    else if IsRecursion(v) then
      UpdateStep(s.(recursionDepth := s.recursionDepth + 1), Linear)
    else s
  }

  /** Some visit of `vs` allocates. */
  predicate AnyAllocates(vs: seq<Visit>) {
    exists i :: 0 <= i < |vs| && Allocates(vs[i])
  }

  /** The traversal of `n`: the enter callback, then the children in order. */
  function SpaceWalk(s: SpaceState, n: JsNode, sc: Scope): SpaceState
    decreases n, 1
  {
    SpaceWalkChildren(SpaceEnter(s, Visit(n, sc)), n, ChildScope(n, sc), |Children(n)|)
  }

  /** The traversal of the first `k` children of `n`, visited in scope `sc`. */
  function SpaceWalkChildren(s: SpaceState, n: JsNode, sc: Scope, k: nat): SpaceState
    requires k <= |Children(n)|
    decreases n, 0, k
  {
    if k == 0 then s else SpaceWalk(SpaceWalkChildren(s, n, sc, k - 1), Children(n)[k - 1], sc)
  }

  /** The adjustment after the traversal: recursion without allocations is O(n). */
  function SpaceAdjustment(s: SpaceState): SpaceState {
    if s.recursionDepth > 1 && s.dataStructureCount == 0 then UpdateStep(s, Linear) else s
  }

  /** `calculateSpaceComplexity` over the body of a parsed Program. */
  function SpaceComplexity(program: seq<JsNode>): Complexity {
    SpaceAdjustment(SpaceWalk(InitialSpace, Program(program), TopScope)).space
  }

  // ----- the estimator as the source runs it -----

  class SpaceEstimator {
    var space: Complexity
    var dataStructureCount: int
    var recursionDepth: int

    function State(): SpaceState
      reads this
    {
      SpaceState(space, dataStructureCount, recursionDepth)
    }

    constructor ()
      ensures State() == InitialSpace
    {
      space := Constant;
      dataStructureCount := 0;
      recursionDepth := 0;
    }

    method UpdateSpace(newSpace: Complexity)
      modifies this
      ensures State() == UpdateStep(old(State()), newSpace)
    {
      var currentIdx := IndexOf(SpaceOrder, space);
      var newIdx := IndexOf(SpaceOrder, newSpace);
      SpaceRankIsIndexOf(space);
      SpaceRankIsIndexOf(newSpace);
      if newIdx > currentIdx {
        space := newSpace;
      }
    }

    method Enter(n: JsNode, sc: Scope)
      modifies this
      ensures State() == SpaceEnter(old(State()), Visit(n, sc))
    {
      if IsDataStructure(n) {
        dataStructureCount := dataStructureCount + 1;
        UpdateSpace(Linear);
      } else if IsRecursion(Visit(n, sc)) {
        recursionDepth := recursionDepth + 1;
        UpdateSpace(Linear);
      }
    }

    /** Babel's traversal of `n` with this estimator's callbacks. */
    method Traverse(n: JsNode, sc: Scope)
      modifies this
      ensures State() == SpaceWalk(old(State()), n, sc)
      decreases n, 1
    {
      Enter(n, sc);
      TraverseChildren(n, ChildScope(n, sc), |Children(n)|);
    }

    /** The traversal of the first `k` children of `n`, in order, each in scope `sc`. */
    method TraverseChildren(n: JsNode, sc: Scope, k: nat)
      requires k <= |Children(n)|
      modifies this
      ensures State() == SpaceWalkChildren(old(State()), n, sc, k)
      decreases n, 0, k
    {
      if k > 0 {
        TraverseChildren(n, sc, k - 1);
        Traverse(Children(n)[k - 1], sc);
      }
    }
  }

  /**
   * `calculateSpaceComplexity(ast)`: traverse, adjust, return the label. The answer is
   * O(n) exactly when the program allocates an array, an object, an `Array`, `Set` or
   * `Map`, or calls the enclosing function by name; otherwise it is O(1).
   */
  method CalculateSpaceComplexity(program: seq<JsNode>) returns (r: string)
    ensures r == Label(SpaceComplexity(program))
    ensures SpaceComplexity(program) ==
              SpaceLabel(exists v :: v in Visits(Program(program), TopScope) && Allocates(v))
  {
    var estimator := new SpaceEstimator();
    estimator.Traverse(Program(program), TopScope);
    if estimator.recursionDepth > 1 && estimator.dataStructureCount == 0 {
      estimator.UpdateSpace(Linear);
    }
    r := Label(estimator.space);
    SpaceComplexityCharacterised(program);
  }

  // ----- properties -----

  /** Something has been counted: a data structure or a self-call. */
  predicate Counted(s: SpaceState) {
    s.dataStructureCount + s.recursionDepth > 0
  }

  /** The label the estimator answers with, given whether something was counted. */
  function SpaceLabel(counted: bool): (r: Complexity)
    ensures r in SpaceOrder
  {
    if counted then Linear else Constant
  }

  /**
   * The state the estimator keeps: the counters are not negative, and the label is O(n)
   * when something has been counted and O(1) otherwise.
   */
  predicate Consistent(s: SpaceState) {
    s.dataStructureCount >= 0 && s.recursionDepth >= 0 && s.space == SpaceLabel(Counted(s))
  }

  /** One callback keeps the state consistent, and counts exactly the allocating visits. */
  lemma SpaceEnterKeepsConsistent(s: SpaceState, v: Visit)
    requires Consistent(s)
    ensures Consistent(SpaceEnter(s, v))
    ensures Counted(SpaceEnter(s, v)) <==> Counted(s) || Allocates(v)
  {
  }

  /** An allocation in the concatenation of two runs of visits is one in either. */
  lemma AnyAllocatesAppend(a: seq<Visit>, b: seq<Visit>)
    ensures AnyAllocates(a + b) <==> AnyAllocates(a) || AnyAllocates(b)
  {
    if AnyAllocates(a + b) {
      var i :| 0 <= i < |a + b| && Allocates((a + b)[i]);
      if i >= |a| {
        assert b[i - |a|] == (a + b)[i];
      }
    }
    if AnyAllocates(a) {
      var i :| 0 <= i < |a| && Allocates(a[i]);
      assert (a + b)[i] == a[i];
    }
    if AnyAllocates(b) {
      var j :| 0 <= j < |b| && Allocates(b[j]);
      assert (a + b)[|a| + j] == b[j];
    }
  }

  /**
   * From a consistent state, the traversal of `n` ends consistent, and has counted something
   * exactly when it had before or one of the visits of the tree allocates.
   */
  lemma {:induction false} WalkCharacterised(s: SpaceState, n: JsNode, sc: Scope)
    requires Consistent(s)
    ensures Consistent(SpaceWalk(s, n, sc))
    ensures Counted(SpaceWalk(s, n, sc)) <==> Counted(s) || AnyAllocates(Visits(n, sc))
    decreases n, 1
  {
    var v := Visit(n, sc);
    var inner := ChildScope(n, sc);
    var rest := ChildVisits(n, inner, |Children(n)|);
    SpaceEnterKeepsConsistent(s, v);
    WalkChildrenCharacterised(SpaceEnter(s, v), n, inner, |Children(n)|);
    AnyAllocatesAppend([v], rest);
    assert Visits(n, sc) == [v] + rest;
    assert AnyAllocates([v]) == Allocates(v) by {
      assert [v][0] == v;
    }
  }

  /** The same for the first `k` children of `n`. */
  lemma {:induction false} WalkChildrenCharacterised(s: SpaceState, n: JsNode, sc: Scope, k: nat)
    requires k <= |Children(n)| && Consistent(s)
    ensures Consistent(SpaceWalkChildren(s, n, sc, k))
    ensures Counted(SpaceWalkChildren(s, n, sc, k)) <==>
              Counted(s) || AnyAllocates(ChildVisits(n, sc, k))
    decreases n, 0, k
  {
    if k > 0 {
      var done := ChildVisits(n, sc, k - 1);
      var child := Children(n)[k - 1];
      var before := SpaceWalkChildren(s, n, sc, k - 1);
      WalkChildrenCharacterised(s, n, sc, k - 1);
      WalkCharacterised(before, child, sc);
      AnyAllocatesAppend(done, Visits(child, sc));
      assert ChildVisits(n, sc, k) == done + Visits(child, sc);
    } else {
      assert ChildVisits(n, sc, k) == [];
    }
  }

  /**
   * The adjustment after the traversal never changes a consistent state: two self-calls
   * have already raised the label to O(n).
   */
  lemma SpaceAdjustmentIsNoOp(s: SpaceState)
    requires Consistent(s)
    ensures SpaceAdjustment(s) == s
  {
  }

  /** The answer is O(n) exactly when some visit allocates, and O(1) otherwise. */
  lemma SpaceComplexityCharacterised(program: seq<JsNode>)
    ensures SpaceComplexity(program) ==
              SpaceLabel(exists v :: v in Visits(Program(program), TopScope) && Allocates(v))
  {
    var vs := Visits(Program(program), TopScope);
    WalkCharacterised(InitialSpace, Program(program), TopScope);
    SpaceAdjustmentIsNoOp(SpaceWalk(InitialSpace, Program(program), TopScope));
    if exists v :: v in vs && Allocates(v) {
      var v :| v in vs && Allocates(v);
      var i :| 0 <= i < |vs| && vs[i] == v;
    }
  }
}
