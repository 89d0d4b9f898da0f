/**
 * The Python space-complexity estimator: a recursive traversal that counts self-calls per
 * function, records the kind of every data structure it meets, and raises a label with
 * `updateSpace`; then escalations for nested structures and deep recursion.
 *
 * As written, `compareComplexity` calls `complexityOrder.index(b)`, and arrays have no
 * `index` method: the first `updateSpace` throws a TypeError. The estimator therefore
 * answers O(1) when no node it reaches is a data structure or a call of the current
 * function name, which a definition sets for its body and resets to null after it (the
 * outer name is not restored), and throws otherwise.
 * `IntendedCombine` models the escalation step with the `indexOf` comparison the code
 * evidently means.
 */
module PySpace {
  import opened Wrappers
  import opened Lattice
  import opened Outcomes
  import opened PyAst

  /** The order list of `compareComplexity`. */
  const PySpaceOrder: seq<Complexity> := [Constant, Linear, Power(2), Exponential]

  /** The estimator's closure variables. */
  datatype PySpaceState = PySpaceState(
    space: Complexity,
    currentFunctionName: Option<string>,
    maxRecursionDepth: int,
    currentRecursionDepth: int,
    dataStructures: seq<string>)

  const InitialPySpace := PySpaceState(Constant, None, 0, 0, [])

  /** The constructors whose calls count as a data structure. */
  predicate IsCollectionCall(func: PyNode) {
    func.Name? && (func.id == "list" || func.id == "dict" || func.id == "set")
  }

  /** A `List`, `Dict` or `Set` literal. */
  predicate IsCollectionLiteral(n: PyNode) {
    n.List? || n.Dict? || n.Set?
  }

  /** The `type` tag a literal records. */
  function LiteralKind(n: PyNode): string
    requires IsCollectionLiteral(n)
  {
    if n.List? then "List" else if n.Dict? then "Dict" else "Set"
  }

  /**
   * What each case does before it walks the children; None where it calls `updateSpace`,
   * which throws.
   */
  function EnterStep(s: PySpaceState, n: PyNode): Option<PySpaceState> {
    match n
    case FunctionDef(name, _, _) => Some(s.(currentFunctionName := FunctionName(name)))
    case Call(func, _, _) =>
      if IsSelfCall(func, s.currentFunctionName) || IsCollectionCall(func) then None else Some(s)
    case List(_) => None
    case Dict(_, _) => None
    case Set(_) => None
    case _ => Some(s)
  }

  /** The end of the `FunctionDef` case: record the deepest recursion, reset the count and the name. */
  function ExitStep(s: PySpaceState, n: PyNode): PySpaceState {
    if n.FunctionDef? then
      s.(maxRecursionDepth := MaxInt(s.maxRecursionDepth, s.currentRecursionDepth),
         currentRecursionDepth := 0,
         currentFunctionName := None)
    else s
  }

  /** The children each case walks: a body, the arguments, the elements, or every field. */
  function SpaceChildren(n: PyNode): (cs: seq<PyNode>)
    ensures forall i :: 0 <= i < |cs| ==> cs[i] < n
  {
    match n
    case FunctionDef(_, _, body) => body
    case Call(_, _, _) => CallArguments(n)
    case List(elts) => elts
    case Dict(keys, values) => keys + values
    case Set(elts) => elts
    case _ => Fields(n)
  }

  /** `traverse(node)`; None when it throws. */
  function Walk(s: PySpaceState, n: PyNode): Option<PySpaceState>
    decreases n, 1
  {
    match EnterStep(s, n)
    case None => None
    case Some(entered) =>
      match WalkChildren(entered, n, |SpaceChildren(n)|)
      case None => None
      case Some(walked) => Some(ExitStep(walked, n))
  }

  /** The walk of the first `k` children of `n`. */
  function WalkChildren(s: PySpaceState, n: PyNode, k: nat): Option<PySpaceState>
    requires k <= |SpaceChildren(n)|
    decreases n, 0, k
  {
    if k == 0 then Some(s)
    else
      match WalkChildren(s, n, k - 1)
      case None => None
      case Some(before) => Walk(before, SpaceChildren(n)[k - 1])
  }

  /**
   * The `filter` of the nested-structure check: the positions i >= 1 whose entry repeats a
   * truthy (non-empty) previous entry.
   */
  function NestedCount(dataStructures: seq<string>): (r: nat)
    ensures r <= if |dataStructures| == 0 then 0 else |dataStructures| - 1
  {
    if |dataStructures| < 2 then 0
    else
      var last := |dataStructures| - 1;
      NestedCount(dataStructures[..last])
      + (if dataStructures[last - 1] != "" && dataStructures[last - 1] == dataStructures[last] then 1 else 0)
  }

  /** After the walk: each escalation that applies calls `updateSpace`, and so throws. */
  function Escalate(s: PySpaceState): Option<Complexity> {
    if NestedCount(s.dataStructures) >= 1 || s.maxRecursionDepth > 10 then None else Some(s.space)
  }

  /** `calculateSpaceComplexity(ast)`. */
  function SpaceComplexity(ast: PyNode): Result<Complexity, Failure> {
    match Walk(InitialPySpace, ast)
    case None => Failure(TypeError)
    case Some(walked) =>
      match Escalate(walked)
      case None => Failure(TypeError)
      case Some(space) => Success(space)
  }

  // ----- the estimator as the source runs it -----

  class PySpaceEstimator {
    var space: Complexity
    var currentFunctionName: Option<string>
    var maxRecursionDepth: int
    var currentRecursionDepth: int
    var dataStructures: seq<string>

    function State(): PySpaceState
      reads this
    {
      PySpaceState(space, currentFunctionName, maxRecursionDepth, currentRecursionDepth, dataStructures)
    }

    constructor ()
      ensures State() == InitialPySpace
    {
      space := Constant;
      currentFunctionName := None;
      maxRecursionDepth := 0;
      currentRecursionDepth := 0;
      dataStructures := [];
    }

    /**
     * `updateSpace(newComplexity)`: `compareComplexity` finds the rank of the current label,
     * then calls `complexityOrder.index`, which is undefined; the call throws (`ok` false)
     * before `space` is assigned.
     */
    method UpdateSpace(newComplexity: Complexity) returns (ok: bool)
      ensures !ok
    {
      var ai := IndexOf(PySpaceOrder, space);
      ok := false;
    }

    /** The work of each case before the children; `ok` is false when it throws. */
    method Enter(n: PyNode) returns (ok: bool)
      modifies this
      ensures ok == EnterStep(old(State()), n).Some?
      ensures ok ==> State() == EnterStep(old(State()), n).value
    {
      ok := true;
      match n {
        case FunctionDef(name, _, _) =>
          currentFunctionName := FunctionName(name);
        case Call(func, _, _) =>
          if IsSelfCall(func, currentFunctionName) {
            currentRecursionDepth := currentRecursionDepth + 1;
            ok := UpdateSpace(Linear);
            return;
          }
          if IsCollectionCall(func) {
            dataStructures := dataStructures + [func.id];
            ok := UpdateSpace(Linear);
          }
        case List(_) =>
          ok := EnterLiteral(n);
        case Dict(_, _) =>
          ok := EnterLiteral(n);
        case Set(_) =>
          ok := EnterLiteral(n);
        case _ =>
      }
    }

    /** The `List`, `Dict` and `Set` case: record the kind, then `updateSpace`. */
    method EnterLiteral(n: PyNode) returns (ok: bool)
      requires IsCollectionLiteral(n)
      modifies this
      ensures !ok
    {
      dataStructures := dataStructures + [LiteralKind(n)];
      ok := UpdateSpace(Linear);
    }

    method Exit(n: PyNode)
      modifies this
      ensures State() == ExitStep(old(State()), n)
    {
      if n.FunctionDef? {
        maxRecursionDepth := MaxInt(maxRecursionDepth, currentRecursionDepth);
        currentRecursionDepth := 0;
        currentFunctionName := None;
      }
    }

    /** `traverse(node)`; `ok` is false when it throws. */
    method Traverse(n: PyNode) returns (ok: bool)
      modifies this
      ensures ok == Walk(old(State()), n).Some?
      ensures ok ==> State() == Walk(old(State()), n).value
      decreases n, 1
    {
      ok := Enter(n);
      if ok {
        ok := TraverseChildren(n, |SpaceChildren(n)|);
        if ok {
          Exit(n);
        }
      }
    }

    /** The `forEach(traverse)` over the first `k` children of `n`. */
    method TraverseChildren(n: PyNode, k: nat) returns (ok: bool)
      requires k <= |SpaceChildren(n)|
      modifies this
      ensures ok == WalkChildren(old(State()), n, k).Some?
      ensures ok ==> State() == WalkChildren(old(State()), n, k).value
      decreases n, 0, k
    {
      ok := true;
      if k > 0 {
        ok := TraverseChildren(n, k - 1);
        if ok {
          ok := Traverse(SpaceChildren(n)[k - 1]);
        }
      }
    }
  }

  /**
   * `calculateSpaceComplexity(ast)`: the answer is O(1) or a TypeError, never another label.
   */
  method CalculateSpaceComplexity(ast: PyNode) returns (r: Result<string, Failure>)
    ensures SpaceComplexity(ast).Success? ==> r == Success(Label(SpaceComplexity(ast).value))
    ensures SpaceComplexity(ast).Failure? ==> r == Failure(TypeError)
    ensures r == Success("O(1)") || r == Failure(TypeError)
  {
    var estimator := new PySpaceEstimator();
    var ok := estimator.Traverse(ast);
    if !ok {
      return Failure(TypeError);
    }
    var nestedDataStructureCount := NestedCount(estimator.dataStructures);
    if nestedDataStructureCount >= 1 {
      ok := estimator.UpdateSpace(Power(2));
      return Failure(TypeError);
    }
    if estimator.maxRecursionDepth > 10 {
      ok := estimator.UpdateSpace(Exponential);
      return Failure(TypeError);
    }
    r := Success(Label(estimator.space));
    SpaceComplexityIsConstantOrThrows(ast);
  }

  // ----- properties -----

  /** Nothing has been recorded and the label is still O(1). */
  predicate Untouched(s: PySpaceState) {
    s.space == Constant && s.maxRecursionDepth == 0 && s.currentRecursionDepth == 0 && s.dataStructures == []
  }

  /** A walk that does not throw records nothing: only the current name can change. */
  lemma {:induction false} WalkKeepsUntouched(s: PySpaceState, n: PyNode)
    requires Untouched(s) && Walk(s, n).Some?
    ensures Untouched(Walk(s, n).value)
    decreases n, 1
  {
    WalkChildrenKeepsUntouched(EnterStep(s, n).value, n, |SpaceChildren(n)|);
  }

  lemma {:induction false} WalkChildrenKeepsUntouched(s: PySpaceState, n: PyNode, k: nat)
    requires k <= |SpaceChildren(n)| && Untouched(s) && WalkChildren(s, n, k).Some?
    ensures Untouched(WalkChildren(s, n, k).value)
    decreases n, 0, k
  {
    if k > 0 {
      WalkChildrenKeepsUntouched(s, n, k - 1);
      WalkKeepsUntouched(WalkChildren(s, n, k - 1).value, SpaceChildren(n)[k - 1]);
    }
  }

  /** The answer is O(1) when the walk does not throw, and a TypeError otherwise. */
  lemma SpaceComplexityIsConstantOrThrows(ast: PyNode)
    ensures SpaceComplexity(ast) == Success(Constant) || SpaceComplexity(ast) == Failure(TypeError)
    ensures SpaceComplexity(ast).Success? <==> Walk(InitialPySpace, ast).Some?
  {
    if Walk(InitialPySpace, ast).Some? {
      WalkKeepsUntouched(InitialPySpace, ast);
    }
  }

  /** The nodes the walk reaches, in the order it reaches them. */
  function SpaceNodes(n: PyNode): (r: seq<PyNode>)
    ensures |r| >= 1 && r[0] == n
    decreases n, 1
  {
    [n] + ChildSpaceNodes(n, |SpaceChildren(n)|)
  }

  function ChildSpaceNodes(n: PyNode, k: nat): seq<PyNode>
    requires k <= |SpaceChildren(n)|
    decreases n, 0, k
  {
    if k == 0 then [] else ChildSpaceNodes(n, k - 1) + SpaceNodes(SpaceChildren(n)[k - 1])
  }

  /** A node that calls `updateSpace` whatever the current function. */
  predicate Allocates(n: PyNode) {
    IsCollectionLiteral(n) || (n.Call? && IsCollectionCall(n.func))
  }

  /** Once the walk of some children has thrown, the walk of more children throws too. */
  lemma {:induction false} ThrowPropagates(s: PySpaceState, n: PyNode, j: nat, k: nat)
    requires j <= k <= |SpaceChildren(n)| && WalkChildren(s, n, j).None?
    ensures WalkChildren(s, n, k).None?
    decreases k
  {
    if k > j {
      ThrowPropagates(s, n, j, k - 1);
    }
  }

  /** A walk that reaches a data structure throws. */
  lemma {:induction false} AllocationThrows(s: PySpaceState, n: PyNode)
    requires exists v :: v in SpaceNodes(n) && Allocates(v)
    ensures Walk(s, n).None?
    decreases n, 1
  {
    if !Allocates(n) && EnterStep(s, n).Some? {
      AllocationThrowsInChildren(EnterStep(s, n).value, n, |SpaceChildren(n)|);
    }
  }

  lemma {:induction false} AllocationThrowsInChildren(s: PySpaceState, n: PyNode, k: nat)
    requires k <= |SpaceChildren(n)|
    requires exists v :: v in ChildSpaceNodes(n, k) && Allocates(v)
    ensures WalkChildren(s, n, k).None?
    decreases n, 0, k
  {
    var v :| v in ChildSpaceNodes(n, k) && Allocates(v);
    assert k > 0;
    if v in ChildSpaceNodes(n, k - 1) {
      AllocationThrowsInChildren(s, n, k - 1);
    } else if WalkChildren(s, n, k - 1).Some? {
      AllocationThrows(WalkChildren(s, n, k - 1).value, SpaceChildren(n)[k - 1]);
    }
  }

  /** A node the walk reaches, with the current function name at that moment. */
  datatype Visit = Visit(functionName: Option<string>, node: PyNode)

  /**
   * The current function name after the walk of `n` from `name`: a definition sets it for
   * its body and leaves it null afterwards, without restoring the outer name.
   */
  function NameAfter(name: Option<string>, n: PyNode): Option<string>
    decreases n, 1
  {
    if n.FunctionDef? then None else NameAfterChildren(name, n, |SpaceChildren(n)|)
  }

  function NameAfterChildren(name: Option<string>, n: PyNode, k: nat): Option<string>
    requires k <= |SpaceChildren(n)|
    decreases n, 0, k
  {
    if k == 0 then name else NameAfter(NameAfterChildren(name, n, k - 1), SpaceChildren(n)[k - 1])
  }

  /** The visits of the walk of `n` from the current name `name`, in the order it reaches them. */
  function Reached(name: Option<string>, n: PyNode): seq<Visit>
    decreases n, 1
  {
    [Visit(name, n)] + ReachedChildren(InnerName(name, n), n, |SpaceChildren(n)|)
  }

  function ReachedChildren(name: Option<string>, n: PyNode, k: nat): seq<Visit>
    requires k <= |SpaceChildren(n)|
    decreases n, 0, k
  {
    if k == 0 then []
    else ReachedChildren(name, n, k - 1) + Reached(NameAfterChildren(name, n, k - 1), SpaceChildren(n)[k - 1])
  }

  /** A visit that calls `updateSpace`: a data structure, or a call of the current function by name. */
  predicate Throws(v: Visit) {
    Allocates(v.node) || (v.node.Call? && IsSelfCall(v.node.func, v.functionName))
  }

  predicate NoThrow(vs: seq<Visit>) {
    forall v :: v in vs ==> !Throws(v)
  }

  /** The name-reset rule: the name after a walk is null exactly when it reaches a definition or started null. */
  lemma {:induction false} NameAfterIsReset(name: Option<string>, n: PyNode)
    ensures NameAfter(name, n) == if exists v :: v in SpaceNodes(n) && v.FunctionDef? then None else name
    decreases n, 1
  {
    NameAfterChildrenIsReset(name, n, |SpaceChildren(n)|);
  }

  lemma {:induction false} NameAfterChildrenIsReset(name: Option<string>, n: PyNode, k: nat)
    requires k <= |SpaceChildren(n)|
    ensures NameAfterChildren(name, n, k) ==
            if exists v :: v in ChildSpaceNodes(n, k) && v.FunctionDef? then None else name
    decreases n, 0, k
  {
    if k > 0 {
      var c := SpaceChildren(n)[k - 1];
      NameAfterChildrenIsReset(name, n, k - 1);
      NameAfterIsReset(NameAfterChildren(name, n, k - 1), c);
      assert ChildSpaceNodes(n, k) == ChildSpaceNodes(n, k - 1) + SpaceNodes(c);
    }
  }

  /** The visits are the reached nodes, in the same order. */
  lemma {:induction false} ReachedNodes(name: Option<string>, n: PyNode)
    ensures |Reached(name, n)| == |SpaceNodes(n)|
    ensures forall i :: 0 <= i < |SpaceNodes(n)| ==> Reached(name, n)[i].node == SpaceNodes(n)[i]
    decreases n, 1
  {
    ReachedChildrenNodes(InnerName(name, n), n, |SpaceChildren(n)|);
  }

  lemma {:induction false} ReachedChildrenNodes(name: Option<string>, n: PyNode, k: nat)
    requires k <= |SpaceChildren(n)|
    ensures |ReachedChildren(name, n, k)| == |ChildSpaceNodes(n, k)|
    ensures forall i :: 0 <= i < |ChildSpaceNodes(n, k)| ==> ReachedChildren(name, n, k)[i].node == ChildSpaceNodes(n, k)[i]
    decreases n, 0, k
  {
    if k > 0 {
      ReachedChildrenNodes(name, n, k - 1);
      ReachedNodes(NameAfterChildren(name, n, k - 1), SpaceChildren(n)[k - 1]);
    }
  }

  /**
   * The walk from a state throws exactly when one of its visits calls `updateSpace`; when it
   * does not, it leaves the current name as `NameAfter` says.
   */
  lemma {:induction false} WalkThrowsExactly(s: PySpaceState, n: PyNode)
    ensures Walk(s, n).Some? <==> NoThrow(Reached(s.currentFunctionName, n))
    ensures Walk(s, n).Some? ==> Walk(s, n).value.currentFunctionName == NameAfter(s.currentFunctionName, n)
    decreases n, 1
  {
    var first := Visit(s.currentFunctionName, n);
    var rest := ReachedChildren(InnerName(s.currentFunctionName, n), n, |SpaceChildren(n)|);
    NoThrowAppend([first], rest);
    assert EnterStep(s, n).None? <==> Throws(first);
    if EnterStep(s, n).Some? {
      var entered := EnterStep(s, n).value;
      assert entered.currentFunctionName == InnerName(s.currentFunctionName, n);
      WalkChildrenThrowsExactly(entered, n, |SpaceChildren(n)|);
    }
  }

  lemma NoThrowAppend(a: seq<Visit>, b: seq<Visit>)
    ensures NoThrow(a + b) <==> NoThrow(a) && NoThrow(b)
  {
    if NoThrow(a) && NoThrow(b) {
      forall v | v in a + b
        ensures !Throws(v)
      {
        assert v in a || v in b;
      }
    }
  }

  lemma {:induction false} WalkChildrenThrowsExactly(s: PySpaceState, n: PyNode, k: nat)
    requires k <= |SpaceChildren(n)|
    ensures WalkChildren(s, n, k).Some? <==> NoThrow(ReachedChildren(s.currentFunctionName, n, k))
    ensures WalkChildren(s, n, k).Some? ==>
            WalkChildren(s, n, k).value.currentFunctionName == NameAfterChildren(s.currentFunctionName, n, k)
    decreases n, 0, k
  {
    if k > 0 {
      WalkChildrenThrowsExactly(s, n, k - 1);
      NoThrowAppend(ReachedChildren(s.currentFunctionName, n, k - 1),
                    Reached(NameAfterChildren(s.currentFunctionName, n, k - 1), SpaceChildren(n)[k - 1]));
      if WalkChildren(s, n, k - 1).Some? {
        WalkThrowsExactly(WalkChildren(s, n, k - 1).value, SpaceChildren(n)[k - 1]);
      }
    }
  }

  /**
   * The answer is O(1) exactly when no visit meets a data structure or a call of the current
   * function by name, and a TypeError otherwise.
   */
  lemma SpaceComplexityCharacterised(ast: PyNode)
    ensures SpaceComplexity(ast) == Success(Constant) <==> NoThrow(Reached(None, ast))
    ensures !NoThrow(Reached(None, ast)) ==> SpaceComplexity(ast) == Failure(TypeError)
  {
    WalkThrowsExactly(InitialPySpace, ast);
    SpaceComplexityIsConstantOrThrows(ast);
  }

  /** A call of a function after its definition has ended is not a self-call. */
  lemma CallAfterDefinitionIsConstant()
    ensures SpaceComplexity(Other([FunctionDef("g", [], [Other([])]), Call(Name("g"), [], [])])) == Success(Constant)
  {
    var def := FunctionDef("g", [], [Other([])]);
    var call := Call(Name("g"), [], []);
    var ast := Other([def, call]);
    DefinitionVisits(def, None);
    assert SpaceChildren(ast) == [def, call];
    assert SpaceChildren(call) == [];
    assert ReachedChildren(None, ast, 1) == Reached(None, def);
    assert NameAfterChildren(None, ast, 1) == None;
    assert Reached(None, call) == [Visit(None, call)];
    assert Reached(None, ast) == [Visit(None, ast)] + Reached(None, def) + [Visit(None, call)];
    NoThrowAppend([Visit(None, ast)] + Reached(None, def), [Visit(None, call)]);
    NoThrowAppend([Visit(None, ast)], Reached(None, def));
    SpaceComplexityCharacterised(ast);
  }

  /** The definition reaches its empty body under its own name and leaves the name null. */
  lemma DefinitionVisits(def: PyNode, name: Option<string>)
    requires def == FunctionDef("g", [], [Other([])])
    ensures NoThrow(Reached(name, def)) && NameAfter(name, def).None?
  {
    assert SpaceChildren(def) == [Other([])];
    assert Reached(Some("g"), Other([])) == [Visit(Some("g"), Other([]))];
    assert Reached(name, def) == [Visit(name, def), Visit(Some("g"), Other([]))];
  }

  /** After a nested definition the enclosing name is not restored: `f()` there does not throw. */
  lemma NestedDefinitionHidesOuterName()
    ensures SpaceComplexity(FunctionDef("f", [], [FunctionDef("g", [], [Other([])]), Call(Name("f"), [], [])]))
            == Success(Constant)
  {
    var def := FunctionDef("g", [], [Other([])]);
    var call := Call(Name("f"), [], []);
    var ast := FunctionDef("f", [], [def, call]);
    DefinitionVisits(def, Some("f"));
    assert SpaceChildren(ast) == [def, call];
    assert SpaceChildren(call) == [];
    assert ReachedChildren(Some("f"), ast, 1) == Reached(Some("f"), def);
    assert NameAfterChildren(Some("f"), ast, 1) == None;
    assert Reached(None, call) == [Visit(None, call)];
    assert Reached(None, ast) == [Visit(None, ast)] + Reached(Some("f"), def) + [Visit(None, call)];
    NoThrowAppend([Visit(None, ast)] + Reached(Some("f"), def), [Visit(None, call)]);
    NoThrowAppend([Visit(None, ast)], Reached(Some("f"), def));
    SpaceComplexityCharacterised(ast);
  }

  /** A call of the function being defined throws. */
  lemma SelfCallThrows()
    ensures SpaceComplexity(Other([FunctionDef("g", [], [Call(Name("g"), [], [])])])) == Failure(TypeError)
  {
    var ast := Other([FunctionDef("g", [], [Call(Name("g"), [], [])])]);
    var call := Call(Name("g"), [], []);
    assert Reached(Some("g"), call)[0] == Visit(Some("g"), call);
    assert Visit(Some("g"), call) in Reached(None, ast);
    SpaceComplexityCharacterised(ast);
  }

  // ----- the escalation step as intended -----

  /** The position of a label in the order list, -1 for a label outside it. */
  function PySpaceRank(c: Complexity): int {
    match c
    case Constant => 0
    case Linear => 1
    case Power(k) => if k == 2 then 2 else -1
    case Exponential => 3
    case _ => -1
  }

  lemma PySpaceRankIsIndexOf(c: Complexity)
    ensures PySpaceRank(c) == IndexOf(PySpaceOrder, c)
  {
  }

  /**
   * The escalations after the walk with the comparison by `indexOf`: O(n^2) for a nested
   * structure, then O(2^n) for a recursion deeper than ten calls.
   */
  function IntendedCombine(space: Complexity, dataStructures: seq<string>, maxRecursionDepth: int): Complexity {
    var nested := if NestedCount(dataStructures) >= 1 then Compare(PySpaceOrder, space, Power(2)) else space;
    if maxRecursionDepth > 10 then Compare(PySpaceOrder, nested, Exponential) else nested
  }

  /** Entry `i` repeats the non-empty entry before it. */
  predicate RepeatsAt(ds: seq<string>, i: int) {
    1 <= i < |ds| && ds[i - 1] != "" && ds[i - 1] == ds[i]
  }

  /** The count is positive exactly when some entry repeats the non-empty entry before it. */
  lemma {:induction false} NestedCountPositive(ds: seq<string>)
    ensures NestedCount(ds) >= 1 <==> exists i :: RepeatsAt(ds, i)
  {
    if |ds| >= 2 {
      var init := ds[..|ds| - 1];
      NestedCountPositive(init);
      assert NestedCount(ds) == NestedCount(init) + if RepeatsAt(ds, |ds| - 1) then 1 else 0;
      assert forall i :: RepeatsAt(init, i) <==> RepeatsAt(ds, i) && i < |ds| - 1;
      if NestedCount(init) >= 1 {
        var i :| RepeatsAt(init, i);
        assert RepeatsAt(ds, i);
      }
      if exists i :: RepeatsAt(ds, i) {
        var i :| RepeatsAt(ds, i);
        assert i < |ds| - 1 ==> RepeatsAt(init, i);
      }
    }
  }

  /**
   * From a label of the list, the intended escalation never lowers it, gives O(2^n) for a
   * recursion deeper than ten calls, and otherwise at least O(n^2) for a nested structure.
   */
  lemma IntendedCombineEscalates(space: Complexity, ds: seq<string>, maxRecursionDepth: int)
    requires space in PySpaceOrder
    ensures IntendedCombine(space, ds, maxRecursionDepth) in PySpaceOrder
    ensures PySpaceRank(IntendedCombine(space, ds, maxRecursionDepth)) >= PySpaceRank(space)
    ensures maxRecursionDepth > 10 ==> IntendedCombine(space, ds, maxRecursionDepth) == Exponential
    ensures NestedCount(ds) >= 1 ==> PySpaceRank(IntendedCombine(space, ds, maxRecursionDepth)) >= 2
    ensures NestedCount(ds) == 0 && maxRecursionDepth <= 10 ==> IntendedCombine(space, ds, maxRecursionDepth) == space
  {
    PySpaceRankIsIndexOf(space);
    PySpaceRankIsIndexOf(Power(2));
    PySpaceRankIsIndexOf(Exponential);
    var nested := if NestedCount(ds) >= 1 then Compare(PySpaceOrder, space, Power(2)) else space;
    PySpaceRankIsIndexOf(nested);
    PySpaceRankIsIndexOf(IntendedCombine(space, ds, maxRecursionDepth));
  }
}
