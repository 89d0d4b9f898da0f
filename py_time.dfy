/**
 * The Python time-complexity estimator: a recursive traversal that keeps a stack with one
 * entry per enclosing loop, the name of the function being walked and a running maximum
 * over seven labels, raised by `O(n^k)` for a loop at depth k and by fixed-cost calls.
 */
module PyTime {
  import opened Wrappers
  import opened Lattice
  import opened PyAst

  /** The order list of `compareComplexity`. */
  const PyTimeOrder: seq<Complexity> :=
    [Constant, Logarithmic, Linear, Linearithmic, Power(2), Power(3), Exponential]

  /** The position of a label in the order list, -1 for a label outside it. */
  function PyTimeRank(c: Complexity): int {
    match c
    case Constant => 0
    case Logarithmic => 1
    case Linear => 2
    case Linearithmic => 3
    case Power(k) => if k == 2 then 4 else if k == 3 then 5 else -1
    case Exponential => 6
    case Quadratic => -1
  }

  /** The rank is what `indexOf` finds in the order list. */
  lemma PyTimeRankIsIndexOf(c: Complexity)
    ensures PyTimeRank(c) == IndexOf(PyTimeOrder, c)
    ensures PyTimeRank(c) >= 0 <==> c in PyTimeOrder
  {
  }

  /** `compareComplexity(a, b)`: the operand of higher rank, and `b` on a tie. */
  function Greater(a: Complexity, b: Complexity): (r: Complexity)
    ensures r == a || r == b
    ensures PyTimeRank(r) >= PyTimeRank(a) && PyTimeRank(r) >= PyTimeRank(b)
    ensures PyTimeRank(a) == PyTimeRank(b) ==> r == b
  {
    if PyTimeRank(a) > PyTimeRank(b) then a else b
  }

  /** `Greater` is the comparison by `indexOf` in the order list. */
  lemma GreaterIsCompare(a: Complexity, b: Complexity)
    ensures Greater(a, b) == Compare(PyTimeOrder, a, b)
  {
    PyTimeRankIsIndexOf(a);
    PyTimeRankIsIndexOf(b);
  }

  /** The estimator's closure variables. */
  datatype PyTimeState = PyTimeState(
    loopStack: seq<Complexity>,
    currentFunctionName: Option<string>,
    maxComplexity: Complexity)

  const InitialPyTime := PyTimeState([], None, Constant)

  /** `updateMaxComplexity()`: with k loops on the stack, compare against `O(n^k)`. */
  function UpdateMax(s: PyTimeState): PyTimeState {
    if |s.loopStack| == 0 then s
    else s.(maxComplexity := Greater(s.maxComplexity, Power(|s.loopStack|)))
  }

  /** The method names of `append`, `pop`, `remove` and `index` calls. */
  predicate IsLinearMethod(attr: string) {
    attr == "append" || attr == "pop" || attr == "remove" || attr == "index"
  }

  /** The contributions of the `Call` case, in the order the source makes them. */
  function CallStep(s: PyTimeState, func: PyNode): PyTimeState {
    var m0 := s.maxComplexity;
    var m1 := if IsSelfCall(func, s.currentFunctionName) then Greater(m0, Exponential) else m0;
    var m2 := if func.Attribute? && func.attr == "sort" then Greater(m1, Linearithmic) else m1;
    var m3 := if func.Attribute? && IsLinearMethod(func.attr) then Greater(m2, Linear) else m2;
    var m4 := if func.Name? && func.id == "sorted" then Greater(m3, Linearithmic) else m3;
    s.(maxComplexity := m4)
  }

  /** What each case does before it walks the children. */
  function EnterStep(s: PyTimeState, n: PyNode): PyTimeState {
    match n
    case FunctionDef(name, _, _) => s.(currentFunctionName := FunctionName(name))
    case For(_, _, _, _) => UpdateMax(s.(loopStack := s.loopStack + [Linear]))
    case While(_, _, _) => UpdateMax(s.(loopStack := s.loopStack + [Linear]))
    case Call(func, _, _) => CallStep(s, func)
    case _ => s
  }

  /** What each case does after it walks the children. */
  function ExitStep(s: PyTimeState, n: PyNode): PyTimeState {
    if n.FunctionDef? then s.(currentFunctionName := None)
    else if IsLoop(n) then s.(loopStack := if |s.loopStack| == 0 then [] else s.loopStack[..|s.loopStack| - 1])
    else s
  }

  /** The children each case walks: a body, the arguments of a call, or every field. */
  function TimeChildren(n: PyNode): (cs: seq<PyNode>)
    ensures forall i :: 0 <= i < |cs| ==> cs[i] < n
  {
    match n
    case FunctionDef(_, _, body) => body
    case For(_, _, body, _) => body
    case While(_, body, _) => body
    case Call(_, _, _) => CallArguments(n)
    case _ => Fields(n)
  }

  /** `traverse(node)`. */
  function Walk(s: PyTimeState, n: PyNode): PyTimeState
    decreases n, 1
  {
    ExitStep(WalkChildren(EnterStep(s, n), n, |TimeChildren(n)|), n)
  }

  /** The walk of the first `k` children of `n`. */
  function WalkChildren(s: PyTimeState, n: PyNode, k: nat): PyTimeState
    requires k <= |TimeChildren(n)|
    decreases n, 0, k
  {
    if k == 0 then s else Walk(WalkChildren(s, n, k - 1), TimeChildren(n)[k - 1])
  }

  /** `calculateTimeComplexity(ast)`. */
  function TimeComplexity(ast: PyNode): Complexity {
    Walk(InitialPyTime, ast).maxComplexity
  }

  // ----- the estimator as the source runs it -----

  class PyTimeEstimator {
    var loopStack: seq<Complexity>
    var currentFunctionName: Option<string>
    var maxComplexity: Complexity

    function State(): PyTimeState
      reads this
    {
      PyTimeState(loopStack, currentFunctionName, maxComplexity)
    }

    constructor ()
      ensures State() == InitialPyTime
    {
      loopStack := [];
      currentFunctionName := None;
      maxComplexity := Constant;
    }

    /** `maxComplexity = compareComplexity(maxComplexity, comp)`. */
    method CompareIntoMax(comp: Complexity)
      modifies this
      ensures State() == old(State()).(maxComplexity := Greater(old(maxComplexity), comp))
    {
      GreaterIsCompare(maxComplexity, comp);
      maxComplexity := Compare(PyTimeOrder, maxComplexity, comp);
    }

    method UpdateMaxComplexity()
      modifies this
      ensures State() == UpdateMax(old(State()))
    {
      if |loopStack| == 0 {
        return;
      }
      var nLoops := |loopStack|;
      CompareIntoMax(Power(nLoops));
    }

    /** The checks of the `Call` case. */
    method VisitCall(func: PyNode)
      modifies this
      ensures State() == CallStep(old(State()), func)
    {
      if IsSelfCall(func, currentFunctionName) {
        CompareIntoMax(Exponential);
      }
      if func.Attribute? {
        if func.attr == "sort" {
          CompareIntoMax(Linearithmic);
        }
        if IsLinearMethod(func.attr) {
          CompareIntoMax(Linear);
        }
      }
      if func.Name? && func.id == "sorted" {
        CompareIntoMax(Linearithmic);
      }
    }

    method Enter(n: PyNode)
      modifies this
      ensures State() == EnterStep(old(State()), n)
    {
      match n {
        case FunctionDef(name, _, _) =>
          currentFunctionName := FunctionName(name);
        case For(_, _, _, _) =>
          loopStack := loopStack + [Linear];
          UpdateMaxComplexity();
        case While(_, _, _) =>
          loopStack := loopStack + [Linear];
          UpdateMaxComplexity();
        case Call(func, _, _) =>
          VisitCall(func);
        case _ =>
      }
    }

    method Exit(n: PyNode)
      modifies this
      ensures State() == ExitStep(old(State()), n)
    {
      if n.FunctionDef? {
        currentFunctionName := None;
      } else if IsLoop(n) {
        if |loopStack| > 0 {
          loopStack := loopStack[..|loopStack| - 1];
        }
      }
    }

    /** `traverse(node)`: the case's work before, the children, the case's work after. */
    method Traverse(n: PyNode)
      modifies this
      ensures State() == Walk(old(State()), n)
      decreases n, 1
    {
      Enter(n);
      TraverseChildren(n, |TimeChildren(n)|);
      Exit(n);
    }

    /** The `forEach(traverse)` over the first `k` children of `n`. */
    method TraverseChildren(n: PyNode, k: nat)
      requires k <= |TimeChildren(n)|
      modifies this
      ensures State() == WalkChildren(old(State()), n, k)
      decreases n, 0, k
    {
      if k > 0 {
        TraverseChildren(n, k - 1);
        Traverse(TimeChildren(n)[k - 1]);
      }
    }
  }

  /**
   * `calculateTimeComplexity(ast)`: the label of the peak of every contribution the walk
   * meets, which is one of the seven labels of the list.
   */
  method CalculateTimeComplexity(ast: PyNode) returns (r: string)
    ensures r == Label(TimeComplexity(ast))
    ensures TimeComplexity(ast) in PyTimeOrder
    ensures Dominates(TimeComplexity(ast), TimeReached(0, None, ast))
    ensures TimeComplexity(ast) == Constant || Attained(TimeComplexity(ast), TimeReached(0, None, ast))
  {
    var estimator := new PyTimeEstimator();
    estimator.Traverse(ast);
    r := Label(estimator.maxComplexity);
    TimeComplexityIsPeak(ast);
  }

  // ----- properties -----

  /** The order list holds exactly the seven strings of the source, in the same order. */
  lemma PyTimeOrderLabels()
    ensures Labels(PyTimeOrder) == ["O(1)", "O(log n)", "O(n)", "O(n log n)", "O(n^2)", "O(n^3)", "O(2^n)"]
  {
    assert PowerLabel(2) == "O(n^2)";
    assert PowerLabel(3) == "O(n^3)";
  }

  /** Entering a node pushes one entry for a loop and never lowers the maximum. */
  lemma EnterStepFacts(s: PyTimeState, n: PyNode)
    ensures EnterStep(s, n).loopStack == s.loopStack + (if IsLoop(n) then [Linear] else [])
    ensures PyTimeRank(EnterStep(s, n).maxComplexity) >= PyTimeRank(s.maxComplexity)
  {
    if !IsLoop(n) {
      assert s.loopStack + [] == s.loopStack;
    }
  }

  /**
   * The walk of a node leaves the loop stack as it found it and never lowers the maximum
   * in rank.
   */
  lemma {:induction false} WalkInvariants(s: PyTimeState, n: PyNode)
    ensures Walk(s, n).loopStack == s.loopStack
    ensures PyTimeRank(Walk(s, n).maxComplexity) >= PyTimeRank(s.maxComplexity)
    decreases n, 1
  {
    var entered := EnterStep(s, n);
    EnterStepFacts(s, n);
    WalkChildrenInvariants(entered, n, |TimeChildren(n)|);
    if IsLoop(n) {
      assert (s.loopStack + [Linear])[..|s.loopStack|] == s.loopStack;
    }
  }

  lemma {:induction false} WalkChildrenInvariants(s: PyTimeState, n: PyNode, k: nat)
    requires k <= |TimeChildren(n)|
    ensures WalkChildren(s, n, k).loopStack == s.loopStack
    ensures PyTimeRank(WalkChildren(s, n, k).maxComplexity) >= PyTimeRank(s.maxComplexity)
    decreases n, 0, k
  {
    if k > 0 {
      WalkChildrenInvariants(s, n, k - 1);
      WalkInvariants(WalkChildren(s, n, k - 1), TimeChildren(n)[k - 1]);
    }
  }

  /** The result is always one of the seven labels of the list. */
  lemma TimeComplexityInOrder(ast: PyNode)
    ensures TimeComplexity(ast) in PyTimeOrder
  {
    WalkInvariants(InitialPyTime, ast);
    PyTimeRankIsIndexOf(TimeComplexity(ast));
  }

  /**
   * Entering a loop with k - 1 loops around it compares against `O(n^k)`: only k = 2 and
   * k = 3 can raise a maximum that is in the list; `O(n^1)` and `O(n^4)` and beyond rank -1.
   */
  lemma LoopContribution(s: PyTimeState, n: PyNode)
    requires IsLoop(n) && s.maxComplexity in PyTimeOrder
    ensures EnterStep(s, n).loopStack == s.loopStack + [Linear]
    ensures |s.loopStack| == 1 || |s.loopStack| == 2 ==>
              EnterStep(s, n).maxComplexity == Greater(s.maxComplexity, Power(|s.loopStack| + 1))
    ensures |s.loopStack| != 1 && |s.loopStack| != 2 ==> EnterStep(s, n).maxComplexity == s.maxComplexity
  {
    var pushed := s.(loopStack := s.loopStack + [Linear]);
    assert EnterStep(s, n) == UpdateMax(pushed);
    assert |pushed.loopStack| == |s.loopStack| + 1;
    PyTimeRankIsIndexOf(s.maxComplexity);
  }

  /**
   * After a function definition is walked the current name is null: the name of an
   * enclosing definition is not restored.
   */
  lemma FunctionDefResetsName(s: PyTimeState, name: string, params: seq<PyNode>, body: seq<PyNode>)
    ensures Walk(s, FunctionDef(name, params, body)).currentFunctionName == None
  {
  }

  /**
   * A call contributes O(2^n) when it calls the current function by name, O(n log n) for
   * `.sort(...)` and `sorted(...)`, O(n) for `.append/.pop/.remove/.index(...)`.
   */
  lemma CallContribution(s: PyTimeState, func: PyNode)
    ensures IsSelfCall(func, s.currentFunctionName) && func.id != "sorted" ==>
              CallStep(s, func).maxComplexity == Greater(s.maxComplexity, Exponential)
    ensures func.Attribute? && func.attr == "sort" ==>
              CallStep(s, func).maxComplexity == Greater(s.maxComplexity, Linearithmic)
    ensures func.Attribute? && IsLinearMethod(func.attr) ==>
              CallStep(s, func).maxComplexity == Greater(s.maxComplexity, Linear)
    ensures func.Name? && func.id == "sorted" && !IsSelfCall(func, s.currentFunctionName) ==>
              CallStep(s, func).maxComplexity == Greater(s.maxComplexity, Linearithmic)
  {
    if func.Attribute? && func.attr == "sort" {
      assert !IsLinearMethod(func.attr);
    }
  }

  /** Walks of two nodes with the same children from the same entered state agree. */
  lemma {:induction false} SameChildrenSameWalk(s: PyTimeState, n: PyNode, m: PyNode, k: nat)
    requires TimeChildren(n) == TimeChildren(m) && k <= |TimeChildren(n)|
    ensures WalkChildren(s, n, k) == WalkChildren(s, m, k)
    decreases k
  {
    if k > 0 {
      SameChildrenSameWalk(s, n, m, k - 1);
    }
  }

  /**
   * Only the body of a loop is walked: its target, iterable, test and `else` block make no
   * contribution.
   */
  lemma OnlyLoopBodyIsWalked(s: PyTimeState, t1: PyNode, i1: PyNode, o1: seq<PyNode>,
                             t2: PyNode, i2: PyNode, o2: seq<PyNode>, body: seq<PyNode>)
    ensures Walk(s, For(t1, i1, body, o1)) == Walk(s, For(t2, i2, body, o2))
    ensures Walk(s, While(t1, body, o1)) == Walk(s, While(t2, body, o2))
  {
    var e := EnterStep(s, For(t1, i1, body, o1));
    SameChildrenSameWalk(e, For(t1, i1, body, o1), For(t2, i2, body, o2), |body|);
    var w := EnterStep(s, While(t1, body, o1));
    SameChildrenSameWalk(w, While(t1, body, o1), While(t2, body, o2), |body|);
  }

  /**
   * Only the arguments and keyword values of a call are walked: the callee's own subtree,
   * beyond its name, makes no contribution.
   */
  lemma OnlyCallArgumentsAreWalked(s: PyTimeState, obj1: PyNode, obj2: PyNode, attr: string,
                                   args: seq<PyNode>, keywords: seq<PyNode>)
    ensures Walk(s, Call(Attribute(obj1, attr), args, keywords)) ==
            Walk(s, Call(Attribute(obj2, attr), args, keywords))
  {
    var n, m := Call(Attribute(obj1, attr), args, keywords), Call(Attribute(obj2, attr), args, keywords);
    SameChildrenSameWalk(EnterStep(s, n), n, m, |TimeChildren(n)|);
  }

  // ----- what sets the result -----

  /**
   * A node the walk reaches, with the number of loops whose body encloses it and the
   * current function name at that moment.
   */
  datatype TimeVisit = TimeVisit(loops: nat, functionName: Option<string>, node: PyNode)

  /** The current function name after the walk of `n`: a definition leaves it null. */
  function NameAfter(name: Option<string>, n: PyNode): Option<string>
    decreases n, 1
  {
    if n.FunctionDef? then None else NameAfterChildren(name, n, |TimeChildren(n)|)
  }

  function NameAfterChildren(name: Option<string>, n: PyNode, k: nat): Option<string>
    requires k <= |TimeChildren(n)|
    decreases n, 0, k
  {
    if k == 0 then name else NameAfter(NameAfterChildren(name, n, k - 1), TimeChildren(n)[k - 1])
  }

  /** The number of loops around the children of `n`. */
  function LoopsInside(loops: nat, n: PyNode): nat {
    if IsLoop(n) then loops + 1 else loops
  }

  /** The visits of the walk of `n`, in the order it reaches them. */
  function TimeReached(loops: nat, name: Option<string>, n: PyNode): seq<TimeVisit>
    decreases n, 1
  {
    [TimeVisit(loops, name, n)] + TimeReachedChildren(LoopsInside(loops, n), InnerName(name, n), n, |TimeChildren(n)|)
  }

  function TimeReachedChildren(loops: nat, name: Option<string>, n: PyNode, k: nat): seq<TimeVisit>
    requires k <= |TimeChildren(n)|
    decreases n, 0, k
  {
    if k == 0 then []
    else TimeReachedChildren(loops, name, n, k - 1)
         + TimeReached(loops, NameAfterChildren(name, n, k - 1), TimeChildren(n)[k - 1])
  }

  /** The name after a walk is null exactly when the walk reaches a definition or started null. */
  lemma {:induction false} NameAfterIsReset(loops: nat, name: Option<string>, n: PyNode)
    ensures NameAfter(name, n) ==
            if exists v :: v in TimeReached(loops, name, n) && v.node.FunctionDef? then None else name
    decreases n, 1
  {
    NameAfterChildrenIsReset(LoopsInside(loops, n), InnerName(name, n), n, |TimeChildren(n)|);
    if !n.FunctionDef? {
      var rest := TimeReachedChildren(LoopsInside(loops, n), name, n, |TimeChildren(n)|);
      assert TimeReached(loops, name, n) == [TimeVisit(loops, name, n)] + rest;
      assert forall v :: v in TimeReached(loops, name, n) && v.node.FunctionDef? ==> v in rest;
    } else {
      assert TimeReached(loops, name, n)[0] == TimeVisit(loops, name, n);
    }
  }

  lemma {:induction false} NameAfterChildrenIsReset(loops: nat, name: Option<string>, n: PyNode, k: nat)
    requires k <= |TimeChildren(n)|
    ensures NameAfterChildren(name, n, k) ==
            if exists v :: v in TimeReachedChildren(loops, name, n, k) && v.node.FunctionDef? then None else name
    decreases n, 0, k
  {
    if k > 0 {
      var before := NameAfterChildren(name, n, k - 1);
      NameAfterChildrenIsReset(loops, name, n, k - 1);
      NameAfterIsReset(loops, before, TimeChildren(n)[k - 1]);
      assert forall v :: v in TimeReachedChildren(loops, name, n, k) <==>
               v in TimeReachedChildren(loops, name, n, k - 1) || v in TimeReached(loops, before, TimeChildren(n)[k - 1]);
    }
  }

  /** The labels a call is compared against, in the order the source compares them. */
  function CallContributions(func: PyNode, name: Option<string>): seq<Complexity> {
    (if IsSelfCall(func, name) then [Exponential] else [])
    + (if func.Attribute? && func.attr == "sort" then [Linearithmic] else [])
    + (if func.Attribute? && IsLinearMethod(func.attr) then [Linear] else [])
    + (if func.Name? && func.id == "sorted" then [Linearithmic] else [])
  }

  /**
   * The labels one visit is compared against: `O(n^k)` for a loop with k - 1 loops around
   * it, the fixed costs of a call, nothing for any other node.
   */
  function Contributions(v: TimeVisit): seq<Complexity> {
    if IsLoop(v.node) then [Power(v.loops + 1)]
    else if v.node.Call? then CallContributions(v.node.func, v.functionName)
    else []
  }

  /** `m` ranks at least as high as every contribution of the visits. */
  predicate Dominates(m: Complexity, vs: seq<TimeVisit>) {
    forall v, c :: v in vs && c in Contributions(v) ==> PyTimeRank(c) <= PyTimeRank(m)
  }

  /** `m` is the contribution of some visit. */
  predicate Attained(m: Complexity, vs: seq<TimeVisit>) {
    exists v :: v in vs && m in Contributions(v)
  }

  /** `Peak` facts from `lo` to `hi` over the visits `vs`. */
  predicate PeakOf(hi: Complexity, lo: Complexity, vs: seq<TimeVisit>) {
    && hi in PyTimeOrder
    && PyTimeRank(hi) >= PyTimeRank(lo)
    && Dominates(hi, vs)
    && (hi == lo || Attained(hi, vs))
  }

  /** Folding `Greater` over a list of labels from a label of the order list. */
  function GreaterAll(m: Complexity, cs: seq<Complexity>): Complexity
    decreases |cs|
  {
    if |cs| == 0 then m else GreaterAll(Greater(m, cs[0]), cs[1..])
  }

  lemma {:induction false} GreaterAllPeak(m: Complexity, cs: seq<Complexity>)
    requires m in PyTimeOrder
    ensures GreaterAll(m, cs) in PyTimeOrder
    ensures PyTimeRank(GreaterAll(m, cs)) >= PyTimeRank(m)
    ensures forall c :: c in cs ==> PyTimeRank(c) <= PyTimeRank(GreaterAll(m, cs))
    ensures GreaterAll(m, cs) == m || GreaterAll(m, cs) in cs
    decreases |cs|
  {
    if |cs| > 0 {
      var g := Greater(m, cs[0]);
      PyTimeRankIsIndexOf(m);
      PyTimeRankIsIndexOf(g);
      GreaterAllPeak(g, cs[1..]);
      assert forall c :: c in cs ==> c == cs[0] || c in cs[1..];
    }
  }

  /** Entering a node compares the maximum against exactly the node's contributions. */
  lemma EnterStepContributes(s: PyTimeState, n: PyNode)
    ensures EnterStep(s, n).maxComplexity ==
            GreaterAll(s.maxComplexity, Contributions(TimeVisit(|s.loopStack|, s.currentFunctionName, n)))
    ensures EnterStep(s, n).currentFunctionName == InnerName(s.currentFunctionName, n)
    ensures |EnterStep(s, n).loopStack| == LoopsInside(|s.loopStack|, n)
  {
    var cs := Contributions(TimeVisit(|s.loopStack|, s.currentFunctionName, n));
    if n.Call? {
      var func := n.func;
      var a := if IsSelfCall(func, s.currentFunctionName) then [Exponential] else [];
      var b := if func.Attribute? && func.attr == "sort" then [Linearithmic] else [];
      var c := if func.Attribute? && IsLinearMethod(func.attr) then [Linear] else [];
      var d := if func.Name? && func.id == "sorted" then [Linearithmic] else [];
      GreaterAllAppend(s.maxComplexity, a, b + c + d);
      GreaterAllAppend(GreaterAll(s.maxComplexity, a), b, c + d);
      GreaterAllAppend(GreaterAll(GreaterAll(s.maxComplexity, a), b), c, d);
      assert cs == a + (b + (c + d));
    }
  }

  lemma {:induction false} GreaterAllAppend(m: Complexity, a: seq<Complexity>, b: seq<Complexity>)
    ensures GreaterAll(m, a + b) == GreaterAll(GreaterAll(m, a), b)
    decreases |a|
  {
    if |a| > 0 {
      assert (a + b)[0] == a[0] && (a + b)[1..] == a[1..] + b;
      GreaterAllAppend(Greater(m, a[0]), a[1..], b);
    } else {
      assert a + b == b;
    }
  }

  /** Peaks compose along consecutive runs of visits. */
  lemma PeakOfAppend(hi: Complexity, mid: Complexity, lo: Complexity, a: seq<TimeVisit>, b: seq<TimeVisit>)
    requires PeakOf(mid, lo, a) && PeakOf(hi, mid, b)
    ensures PeakOf(hi, lo, a + b)
  {
    forall v, c | v in a + b && c in Contributions(v)
      ensures PyTimeRank(c) <= PyTimeRank(hi)
    {
      assert v in a || v in b;
    }
    if hi != lo {
      if hi == mid {
        var v :| v in a && mid in Contributions(v);
        assert v in a + b;
      } else {
        var v :| v in b && hi in Contributions(v);
        assert v in a + b;
      }
    }
  }

  /**
   * From a maximum in the list, a walk raises it to the peak of the contributions of its
   * visits, and leaves the current name as `NameAfter` says.
   */
  lemma {:induction false} WalkPeak(s: PyTimeState, n: PyNode)
    requires s.maxComplexity in PyTimeOrder
    ensures PeakOf(Walk(s, n).maxComplexity, s.maxComplexity, TimeReached(|s.loopStack|, s.currentFunctionName, n))
    ensures Walk(s, n).currentFunctionName == NameAfter(s.currentFunctionName, n)
    decreases n, 1
  {
    var entered := EnterStep(s, n);
    var first := TimeVisit(|s.loopStack|, s.currentFunctionName, n);
    EnterStepContributes(s, n);
    GreaterAllPeak(s.maxComplexity, Contributions(first));
    assert PeakOf(entered.maxComplexity, s.maxComplexity, [first]);
    WalkChildrenPeak(entered, n, |TimeChildren(n)|);
    PeakOfAppend(Walk(s, n).maxComplexity, entered.maxComplexity, s.maxComplexity, [first],
                 TimeReachedChildren(LoopsInside(|s.loopStack|, n), InnerName(s.currentFunctionName, n), n, |TimeChildren(n)|));
  }

  lemma {:induction false} WalkChildrenPeak(s: PyTimeState, n: PyNode, k: nat)
    requires k <= |TimeChildren(n)| && s.maxComplexity in PyTimeOrder
    ensures PeakOf(WalkChildren(s, n, k).maxComplexity, s.maxComplexity,
                   TimeReachedChildren(|s.loopStack|, s.currentFunctionName, n, k))
    ensures WalkChildren(s, n, k).currentFunctionName == NameAfterChildren(s.currentFunctionName, n, k)
    decreases n, 0, k
  {
    if k > 0 {
      var before := WalkChildren(s, n, k - 1);
      var child := TimeChildren(n)[k - 1];
      var name := NameAfterChildren(s.currentFunctionName, n, k - 1);
      var earlier := TimeReachedChildren(|s.loopStack|, s.currentFunctionName, n, k - 1);
      WalkChildrenPeak(s, n, k - 1);
      WalkChildrenInvariants(s, n, k - 1);
      assert |before.loopStack| == |s.loopStack| && before.currentFunctionName == name;
      WalkPeak(before, child);
      assert WalkChildren(s, n, k) == Walk(before, child);
      assert TimeReachedChildren(|s.loopStack|, s.currentFunctionName, n, k)
             == earlier + TimeReached(|s.loopStack|, name, child);
      PeakOfAppend(Walk(before, child).maxComplexity, before.maxComplexity, s.maxComplexity,
                   earlier, TimeReached(|s.loopStack|, name, child));
    }
  }

  /**
   * The result is the peak of every contribution the walk meets: one of the seven labels,
   * at least as high as each of them, and O(1) or one of them.
   */
  lemma TimeComplexityIsPeak(ast: PyNode)
    ensures TimeComplexity(ast) in PyTimeOrder
    ensures forall v, c :: v in TimeReached(0, None, ast) && c in Contributions(v) ==>
              PyTimeRank(c) <= PyTimeRank(TimeComplexity(ast))
    ensures TimeComplexity(ast) == Constant || Attained(TimeComplexity(ast), TimeReached(0, None, ast))
  {
    WalkPeak(InitialPyTime, ast);
  }

  /**
   * A tree without calls in which no loop lies in another loop's body answers O(1): a loop
   * alone compares against `O(n^1)`, which is not in the list.
   */
  lemma NoNestedLoopsNoCallsIsConstant(ast: PyNode)
    requires forall v :: v in TimeReached(0, None, ast) ==> !v.node.Call? && (IsLoop(v.node) ==> v.loops == 0)
    ensures TimeComplexity(ast) == Constant
  {
    TimeComplexityIsPeak(ast);
    var r := TimeComplexity(ast);
    if r != Constant {
      var v :| v in TimeReached(0, None, ast) && r in Contributions(v);
      assert r == Power(1);
      PyTimeRankIsIndexOf(r);
    }
  }

  /**
   * A loop in the body of one other loop makes the result at least `O(n^2)`; in the body
   * of two nested loops, at least `O(n^3)`.
   */
  lemma NestedLoopIsQuadratic(ast: PyNode)
    ensures (exists v :: v in TimeReached(0, None, ast) && IsLoop(v.node) && v.loops == 1) ==>
              PyTimeRank(TimeComplexity(ast)) >= PyTimeRank(Power(2))
    ensures (exists v :: v in TimeReached(0, None, ast) && IsLoop(v.node) && v.loops == 2) ==>
              PyTimeRank(TimeComplexity(ast)) >= PyTimeRank(Power(3))
  {
    TimeComplexityIsPeak(ast);
    if exists v :: v in TimeReached(0, None, ast) && IsLoop(v.node) && v.loops == 1 {
      var v :| v in TimeReached(0, None, ast) && IsLoop(v.node) && v.loops == 1;
      assert Power(2) in Contributions(v);
    }
    if exists v :: v in TimeReached(0, None, ast) && IsLoop(v.node) && v.loops == 2 {
      var v :| v in TimeReached(0, None, ast) && IsLoop(v.node) && v.loops == 2;
      assert Power(3) in Contributions(v);
    }
  }

  /** A single loop over a collection, with an empty body, answers O(1). */
  lemma LoneLoopIsConstant()
    ensures TimeComplexity(For(Name("i"), Name("xs"), [], [])) == Constant
  {
  }

  /** A loop directly in the body of another answers O(n^2). */
  lemma LoopInLoopIsQuadratic()
    ensures TimeComplexity(For(Name("i"), Name("xs"), [For(Name("j"), Name("xs"), [], [])], [])) == Power(2)
  {
    var inner := For(Name("j"), Name("xs"), [], []);
    var outer := For(Name("i"), Name("xs"), [inner], []);
    var entered := EnterStep(InitialPyTime, outer);
    assert entered == PyTimeState([Linear], None, Constant);
    assert EnterStep(entered, inner).maxComplexity == Power(2);
    assert Walk(entered, inner).maxComplexity == Power(2);
    assert WalkChildren(entered, outer, 1) == Walk(entered, inner);
  }
}
