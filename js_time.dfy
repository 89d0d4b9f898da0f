/**
 * The JavaScript time-complexity estimator: one Babel traversal whose visitor callbacks
 * update a running maximum over six labels, a loop depth, a recursion flag and the log of
 * every contribution, followed by a final adjustment for "many O(n)" contributions.
 */
module JsTime {
  import opened Wrappers
  import opened Lattice
  import opened JsAst

  /** The order list of `analyzeComplexity`. */
  const TimeOrder: seq<Complexity> :=
    [Constant, Logarithmic, Linear, Linearithmic, Quadratic, Exponential]

  /** The estimator's closure variables. */
  datatype TimeState = TimeState(
    maxComplexity: Complexity,
    loopDepth: int,
    hasRecursion: bool,
    complexities: seq<Complexity>)

  const InitialTime := TimeState(Constant, 0, false, [])

  /** The position of a label in the order list, -1 for the `O(n^k)` labels outside it. */
  function TimeRank(c: Complexity): int {
    match c
    case Constant => 0
    case Logarithmic => 1
    case Linear => 2
    case Linearithmic => 3
    case Quadratic => 4
    case Exponential => 5
    case Power(_) => -1
  }

  /** The rank is what `indexOf` finds in the order list. */
  lemma TimeRankIsIndexOf(c: Complexity)
    ensures TimeRank(c) == IndexOf(TimeOrder, c)
    ensures TimeRank(c) >= 0 <==> c in TimeOrder
  {
  }

  /** The update of `analyzeComplexity`: a contribution replaces the maximum when it ranks higher. */
  function Higher(current: Complexity, comp: Complexity): (r: Complexity)
    ensures r == current || r == comp
    ensures TimeRank(r) >= TimeRank(current) && TimeRank(r) >= TimeRank(comp)
  {
    if TimeRank(comp) > TimeRank(current) then comp else current
  }

  /** `Higher` is the generic `indexOf` update over the order list. */
  lemma HigherIsRaise(current: Complexity, comp: Complexity)
    ensures Higher(current, comp) == Raise(TimeOrder, current, comp)
  {
    TimeRankIsIndexOf(current);
    TimeRankIsIndexOf(comp);
  }

  /** From `s` to `r` the log only grows and the maximum does not fall in rank. */
  predicate Grows(s: TimeState, r: TimeState) {
    && s.complexities <= r.complexities
    && TimeRank(r.maxComplexity) >= TimeRank(s.maxComplexity)
  }

  /**
   * `analyzeComplexity(comp)`: the contribution is logged, and replaces the maximum when it
   * ranks strictly higher. (Every contribution is a non-empty label, so the guard against an
   * empty one never fires.)
   */
  function AnalyzeStep(s: TimeState, comp: Complexity): (r: TimeState)
    ensures r.loopDepth == s.loopDepth && r.hasRecursion == s.hasRecursion
    ensures r.complexities == s.complexities + [comp]
    ensures TimeRank(comp) <= TimeRank(s.maxComplexity) ==> r.maxComplexity == s.maxComplexity
    ensures TimeRank(comp) > TimeRank(s.maxComplexity) ==> r.maxComplexity == comp
    ensures Grows(s, r)
  {
    s.(maxComplexity := Higher(s.maxComplexity, comp),
       complexities := s.complexities + [comp])
  }

  /** `analyzeLoopCondition(test)`: the contribution of a loop with this test. */
  function LoopBound(test: Option<JsNode>): (r: Complexity)
    ensures r == Constant || r == Linear
    ensures r == Constant <==>
              test.Some? && (test.value.BinaryExpression? || test.value.OtherWithRight?)
              && test.value.right.NumericLiteral?
  {
    match test
    case None => Linear
    case Some(t) =>
      if t.BinaryExpression? && t.right.Identifier? then Linear
      else if (t.BinaryExpression? || t.OtherWithRight?) && t.right.NumericLiteral? then Constant
      else Linear
  }

  /** The contribution of a self-call, and the recursion flag it sets. */
  function SelfCallStep(s: TimeState, callee: JsNode, sc: Scope): (r: TimeState)
    ensures r.loopDepth == s.loopDepth && Grows(s, r)
  {
    if IsSelfCall(callee, sc) then
      AnalyzeStep(s.(hasRecursion := true),
                  if HasReturnOfCall(sc.statements) then Exponential else Linear)
    else s
  }

  /** The contributions of calls to built-in array methods. */
  function BuiltinStep(s: TimeState, methodName: Option<string>): (r: TimeState)
    ensures r.loopDepth == s.loopDepth && r.hasRecursion == s.hasRecursion && Grows(s, r)
  {
    var s1 := if methodName == Some("sort") then AnalyzeStep(s, Linearithmic) else s;
    var s2 := if methodName == Some("map") || methodName == Some("filter") || methodName == Some("forEach")
              then AnalyzeStep(s1, Linear) else s1;
    if methodName == Some("indexOf") then AnalyzeStep(s2, Linear) else s2
  }

  /** The common part of the four loop visitors: one level deeper, then the contribution. */
  function LoopEnterStep(s: TimeState, comp: Complexity): (r: TimeState)
    ensures r.loopDepth == s.loopDepth + 1 && Grows(s, r)
  {
    AnalyzeStep(s.(loopDepth := s.loopDepth + 1), comp)
  }

  /** The enter callbacks: the four loop visitors and `CallExpression`. */
  function EnterStep(s: TimeState, n: JsNode, sc: Scope): (r: TimeState)
    ensures r.loopDepth == s.loopDepth + (if IsLoop(n) then 1 else 0)
    ensures Grows(s, r)
  {
    match n
    case ForStatement(_, test, _, _, _) => LoopEnterStep(s, LoopBound(test))
    case ForOfStatement(_, _, _, _) => LoopEnterStep(s, Linear)
    case WhileStatement(test, _, _) => LoopEnterStep(s, LoopBound(Some(test)))
    case DoWhileStatement(_, test, _) => LoopEnterStep(s, LoopBound(Some(test)))
    case CallExpression(callee, _, _) =>
      var s1 := SelfCallStep(s, callee, sc);
      if callee.MemberExpression? then BuiltinStep(s1, PropertyName(callee)) else s1
    case _ => s
  }

  /** The shared exit callback of the four loop kinds. */
  function ExitStep(s: TimeState, n: JsNode): (r: TimeState)
    ensures r.loopDepth == s.loopDepth - (if IsLoop(n) then 1 else 0)
    ensures Grows(s, r)
  {
    if IsLoop(n) then
      var s1 := s.(loopDepth := s.loopDepth - 1);
      if s1.loopDepth == 1 && Linear in s1.complexities then AnalyzeStep(s1, Quadratic) else s1
    else s
  }

  /** The traversal of `n`: enter callback, children in order, exit callback. */
  function Walk(s: TimeState, n: JsNode, sc: Scope): TimeState
    decreases n, 1
  {
    var entered := EnterStep(s, n, sc);
    ExitStep(WalkChildren(entered, n, ChildScope(n, sc), |Children(n)|), n)
  }

  /** The traversal of the first `k` children of `n`, visited in scope `sc`. */
  function WalkChildren(s: TimeState, n: JsNode, sc: Scope, k: nat): TimeState
    requires k <= |Children(n)|
    decreases n, 0, k
  {
    if k == 0 then s else Walk(WalkChildren(s, n, sc, k - 1), Children(n)[k - 1], sc)
  }

  /** The number of O(n) contributions in a log. */
  function LinearCount(log: seq<Complexity>): nat {
    multiset(log)[Linear]
  }

  /** The adjustment after the traversal ("many O(n)" contributions). */
  function FinalAdjustment(s: TimeState): TimeState {
    if s.loopDepth == 0 && Linear in s.complexities && !s.hasRecursion then
      var loopCount := LinearCount(s.complexities);
      if loopCount > 1 then AnalyzeStep(s, Power(loopCount)) else s
    else s
  }

  /** `calculateTimeComplexity` over the body of a parsed Program. */
  function TimeComplexity(program: seq<JsNode>): Complexity {
    FinalAdjustment(Walk(InitialTime, Program(program), TopScope)).maxComplexity
  }

  // ----- the estimator as the source runs it: callbacks mutating closure state -----

  class TimeEstimator {
    var maxComplexity: Complexity
    var loopDepth: int
    var hasRecursion: bool
    var complexities: seq<Complexity>

    function State(): TimeState
      reads this
    {
      TimeState(maxComplexity, loopDepth, hasRecursion, complexities)
    }

    constructor ()
      ensures State() == InitialTime
    {
      maxComplexity := Constant;
      loopDepth := 0;
      hasRecursion := false;
      complexities := [];
    }

    method AnalyzeComplexity(comp: Complexity)
      modifies this
      ensures State() == AnalyzeStep(old(State()), comp)
    {
      var currentIdx := IndexOf(TimeOrder, maxComplexity);
      var newIdx := IndexOf(TimeOrder, comp);
      TimeRankIsIndexOf(maxComplexity);
      TimeRankIsIndexOf(comp);
      if newIdx > currentIdx {
        maxComplexity := comp;
      }
      complexities := complexities + [comp];
    }

    method Enter(n: JsNode, sc: Scope)
      modifies this
      ensures State() == EnterStep(old(State()), n, sc)
    {
      match n {
        case ForStatement(_, test, _, _, _) =>
          EnterLoop(LoopBound(test));
        case ForOfStatement(_, _, _, _) =>
          EnterLoop(Linear);
        case WhileStatement(test, _, _) =>
          EnterLoop(LoopBound(Some(test)));
        case DoWhileStatement(_, test, _) =>
          EnterLoop(LoopBound(Some(test)));
        case CallExpression(callee, _, _) =>
          SelfCall(callee, sc);
          if callee.MemberExpression? {
            BuiltinCall(PropertyName(callee));
          }
        case _ =>
      }
    }

    /** The common part of the four loop callbacks. */
    method EnterLoop(comp: Complexity)
      modifies this
      ensures State() == LoopEnterStep(old(State()), comp)
    {
      loopDepth := loopDepth + 1;
      AnalyzeComplexity(comp);
    }

    /** The recursion branch of the `CallExpression` callback. */
    method SelfCall(callee: JsNode, sc: Scope)
      modifies this
      ensures State() == SelfCallStep(old(State()), callee, sc)
    {
      if IsSelfCall(callee, sc) {
        hasRecursion := true;
        var hasMultipleCalls := HasReturnOfCall(sc.statements);
        AnalyzeComplexity(if hasMultipleCalls then Exponential else Linear);
      }
    }

    /** The built-in method branch of the `CallExpression` callback. */
    method BuiltinCall(methodName: Option<string>)
      modifies this
      ensures State() == BuiltinStep(old(State()), methodName)
    {
      if methodName == Some("sort") {
        AnalyzeComplexity(Linearithmic);
      }
      if methodName == Some("map") || methodName == Some("filter") || methodName == Some("forEach") {
        AnalyzeComplexity(Linear);
      }
      if methodName == Some("indexOf") {
        AnalyzeComplexity(Linear);
      }
    }

    method Exit(n: JsNode)
      modifies this
      ensures State() == ExitStep(old(State()), n)
    {
      if IsLoop(n) {
        loopDepth := loopDepth - 1;
        if loopDepth == 1 && Linear in complexities {
          AnalyzeComplexity(Quadratic);
        }
      }
    }

    /** Babel's traversal of `n` with this estimator's callbacks. */
    method Traverse(n: JsNode, sc: Scope)
      modifies this
      ensures State() == Walk(old(State()), n, sc)
      decreases n, 1
    {
      Enter(n, sc);
      TraverseChildren(n, ChildScope(n, sc), |Children(n)|);
      Exit(n);
    }

    /** The traversal of the first `k` children of `n`, in order, each in scope `sc`. */
    method TraverseChildren(n: JsNode, sc: Scope, k: nat)
      requires k <= |Children(n)|
      modifies this
      ensures State() == WalkChildren(old(State()), n, sc, k)
      decreases n, 0, k
    {
      if k > 0 {
        TraverseChildren(n, sc, k - 1);
        Traverse(Children(n)[k - 1], sc);
      }
    }
  }

  /**
   * `calculateTimeComplexity(ast)`: traverse, adjust, and return the maximum, which is the
   * highest-ranked contribution made during the traversal (O(1) when there is none).
   */
  method CalculateTimeComplexity(program: seq<JsNode>) returns (r: string)
    ensures r == Label(TimeComplexity(program))
    ensures TimeComplexity(program) in TimeOrder
    ensures TimeComplexity(program) == Peak(Walk(InitialTime, Program(program), TopScope).complexities)
  {
    var estimator := new TimeEstimator();
    estimator.Traverse(Program(program), TopScope);
    if estimator.loopDepth == 0 && Linear in estimator.complexities && !estimator.hasRecursion {
      var loopCount := multiset(estimator.complexities)[Linear];
      if loopCount > 1 {
        estimator.AnalyzeComplexity(Power(loopCount));
      }
    }
    r := Label(estimator.maxComplexity);
    TimeComplexityIsPeak(program);
  }

  // ----- properties -----

  /** The order list holds exactly the six strings of the source, in the same order. */
  lemma TimeOrderLabels()
    ensures Labels(TimeOrder) == ["O(1)", "O(log n)", "O(n)", "O(n log n)", "O(n²)", "O(2^n)"]
  {
  }

  /**
   * The highest-ranked label of a log, starting from O(1) and keeping the earlier label on
   * a tie: the maximum the callbacks are meant to track.
   */
  function Peak(log: seq<Complexity>): Complexity {
    if |log| == 0 then Constant else Higher(Peak(log[..|log| - 1]), log[|log| - 1])
  }

  /** The peak is a label of the list that ranks at least as high as every entry of the log. */
  lemma {:induction false} PeakIsMaximum(log: seq<Complexity>)
    ensures Peak(log) in TimeOrder
    ensures forall i :: 0 <= i < |log| ==> TimeRank(log[i]) <= TimeRank(Peak(log))
    ensures Peak(log) == Constant || Peak(log) in log
  {
    if |log| > 0 {
      var init := log[..|log| - 1];
      PeakIsMaximum(init);
      assert forall i :: 0 <= i < |init| ==> log[i] == init[i];
    }
  }

  /** The running maximum is the peak of the log. */
  predicate Tracks(s: TimeState) {
    s.maxComplexity == Peak(s.complexities)
  }

  lemma AnalyzeStepTracks(s: TimeState, comp: Complexity)
    requires Tracks(s)
    ensures Tracks(AnalyzeStep(s, comp))
  {
    assert (s.complexities + [comp])[..|s.complexities|] == s.complexities;
  }

  /** Every callback keeps the running maximum equal to the peak of the log. */
  lemma EnterStepTracks(s: TimeState, n: JsNode, sc: Scope)
    requires Tracks(s)
    ensures Tracks(EnterStep(s, n, sc))
  {
    match n
    case CallExpression(callee, _, _) =>
      var s1 := SelfCallStep(s, callee, sc);
      if IsSelfCall(callee, sc) {
        AnalyzeStepTracks(s.(hasRecursion := true),
                          if HasReturnOfCall(sc.statements) then Exponential else Linear);
      }
      if callee.MemberExpression? {
        BuiltinStepTracks(s1, PropertyName(callee));
      }
    case ForStatement(_, test, _, _, _) =>
      AnalyzeStepTracks(s.(loopDepth := s.loopDepth + 1), LoopBound(test));
    case ForOfStatement(_, _, _, _) =>
      AnalyzeStepTracks(s.(loopDepth := s.loopDepth + 1), Linear);
    case WhileStatement(test, _, _) =>
      AnalyzeStepTracks(s.(loopDepth := s.loopDepth + 1), LoopBound(Some(test)));
    case DoWhileStatement(_, test, _) =>
      AnalyzeStepTracks(s.(loopDepth := s.loopDepth + 1), LoopBound(Some(test)));
    case _ =>
  }

  lemma BuiltinStepTracks(s: TimeState, methodName: Option<string>)
    requires Tracks(s)
    ensures Tracks(BuiltinStep(s, methodName))
  {
    var s1 := if methodName == Some("sort") then AnalyzeStep(s, Linearithmic) else s;
    AnalyzeStepTracks(s, Linearithmic);
    AnalyzeStepTracks(s1, Linear);
    var s2 := if methodName == Some("map") || methodName == Some("filter") || methodName == Some("forEach")
              then AnalyzeStep(s1, Linear) else s1;
    AnalyzeStepTracks(s2, Linear);
  }

  lemma ExitStepTracks(s: TimeState, n: JsNode)
    requires Tracks(s)
    ensures Tracks(ExitStep(s, n))
  {
    if IsLoop(n) {
      var s1 := s.(loopDepth := s.loopDepth - 1);
      assert Tracks(s1);
      if s1.loopDepth == 1 && Linear in s1.complexities {
        AnalyzeStepTracks(s1, Quadratic);
      }
    }
  }

  /** Growth composes. */
  lemma GrowsTransitive(s: TimeState, t: TimeState, u: TimeState)
    requires Grows(s, t) && Grows(t, u)
    ensures Grows(s, u)
  {
  }

  /**
   * The traversal of a node brings the loop depth back to where it started; the maximum
   * does not fall in rank, the log only grows, and the maximum stays the peak of the log.
   */
  lemma {:induction false} WalkInvariants(s: TimeState, n: JsNode, sc: Scope)
    ensures Walk(s, n, sc).loopDepth == s.loopDepth
    ensures Grows(s, Walk(s, n, sc))
    ensures Tracks(s) ==> Tracks(Walk(s, n, sc))
    decreases n, 1
  {
    var entered := EnterStep(s, n, sc);
    var inner := ChildScope(n, sc);
    var walked := WalkChildren(entered, n, inner, |Children(n)|);
    assert Walk(s, n, sc) == ExitStep(walked, n);
    WalkChildrenInvariants(entered, n, inner, |Children(n)|);
    GrowsTransitive(s, entered, walked);
    GrowsTransitive(s, walked, ExitStep(walked, n));
    if Tracks(s) {
      EnterStepTracks(s, n, sc);
      ExitStepTracks(walked, n);
    }
  }

  /** The same for the traversal of the first `k` children of `n`. */
  lemma {:induction false} WalkChildrenInvariants(s: TimeState, n: JsNode, sc: Scope, k: nat)
    requires k <= |Children(n)|
    ensures WalkChildren(s, n, sc, k).loopDepth == s.loopDepth
    ensures Grows(s, WalkChildren(s, n, sc, k))
    ensures Tracks(s) ==> Tracks(WalkChildren(s, n, sc, k))
    decreases n, 0, k
  {
    if k > 0 {
      var before := WalkChildren(s, n, sc, k - 1);
      var child := Children(n)[k - 1];
      var after := Walk(before, child, sc);
      assert WalkChildren(s, n, sc, k) == after;
      WalkChildrenInvariants(s, n, sc, k - 1);
      WalkInvariants(before, child, sc);
      GrowsTransitive(s, before, after);
    }
  }

  /**
   * The final adjustment never changes the result: the label `O(n^k)` it builds is not in
   * the list, ranks -1, and so loses against the maximum, which always is.
   */
  lemma FinalAdjustmentKeepsMaximum(s: TimeState)
    requires s.maxComplexity in TimeOrder
    ensures FinalAdjustment(s).maxComplexity == s.maxComplexity
  {
  }

  /**
   * The result is the highest-ranked contribution logged during the traversal, O(1) when
   * nothing was logged; in particular it is one of the six labels.
   */
  lemma TimeComplexityIsPeak(program: seq<JsNode>)
    ensures TimeComplexity(program) in TimeOrder
    ensures TimeComplexity(program) == Peak(Walk(InitialTime, Program(program), TopScope).complexities)
  {
    var walked := Walk(InitialTime, Program(program), TopScope);
    WalkInvariants(InitialTime, Program(program), TopScope);
    PeakIsMaximum(walked.complexities);
    FinalAdjustmentKeepsMaximum(walked);
  }

  /**
   * Leaving a loop nested in another, once some O(n) was logged, raises the result to at
   * least O(n²).
   */
  lemma ExitAtDepthOneIsQuadratic(s: TimeState, n: JsNode)
    requires IsLoop(n) && s.loopDepth == 2 && Linear in s.complexities
    ensures TimeRank(ExitStep(s, n).maxComplexity) >= TimeRank(Quadratic)
    ensures ExitStep(s, n).complexities == s.complexities + [Quadratic]
  {
  }

  /**
   * A self-call contributes O(2^n) when some top-level statement of the scope block returns
   * a call, and O(n) otherwise; either way it sets the recursion flag.
   */
  lemma SelfCallContribution(s: TimeState, callee: JsNode, args: seq<JsNode>, line: nat, sc: Scope)
    requires IsSelfCall(callee, sc)
    ensures EnterStep(s, CallExpression(callee, args, line), sc).hasRecursion
    ensures EnterStep(s, CallExpression(callee, args, line), sc).complexities
            == s.complexities + [if HasReturnOfCall(sc.statements) then Exponential else Linear]
    ensures HasReturnOfCall(sc.statements) ==>
              EnterStep(s, CallExpression(callee, args, line), sc).maxComplexity == Exponential
  {
  }

  /** `sort` contributes O(n log n); `map`, `filter`, `forEach` and `indexOf` contribute O(n). */
  lemma BuiltinCallContribution(s: TimeState, methodName: string)
    ensures methodName == "sort" ==>
              BuiltinStep(s, Some(methodName)) == AnalyzeStep(s, Linearithmic)
    ensures methodName in ["map", "filter", "forEach", "indexOf"] ==>
              BuiltinStep(s, Some(methodName)) == AnalyzeStep(s, Linear)
  {
    if methodName == "sort" {
      assert methodName != "map" && methodName != "filter" && methodName != "forEach";
      assert methodName != "indexOf";
    } else if methodName == "indexOf" {
      assert methodName != "map" && methodName != "filter" && methodName != "forEach";
    }
  }

  /** Any other method name contributes nothing. */
  lemma OtherMethodContributesNothing(s: TimeState, methodName: Option<string>)
    requires methodName !in [Some("sort"), Some("map"), Some("filter"), Some("forEach"), Some("indexOf")]
    ensures BuiltinStep(s, methodName) == s
  {
  }

  /** A node whose visit changes nothing: neither a loop nor a call. */
  predicate Inert(v: Visit) {
    !IsLoop(v.node) && !v.node.CallExpression?
  }

  /** A tree with no loop and no call leaves the estimator's state unchanged. */
  lemma {:induction false} InertWalk(s: TimeState, n: JsNode, sc: Scope)
    requires forall i :: 0 <= i < |Visits(n, sc)| ==> Inert(Visits(n, sc)[i])
    ensures Walk(s, n, sc) == s
    decreases n, 1
  {
    var vs := Visits(n, sc);
    var cvs := ChildVisits(n, ChildScope(n, sc), |Children(n)|);
    assert vs == [Visit(n, sc)] + cvs;
    assert Inert(vs[0]);
    assert forall i :: 0 <= i < |cvs| ==> cvs[i] == vs[i + 1];
    InertWalkChildren(s, n, ChildScope(n, sc), |Children(n)|);
  }

  lemma {:induction false} InertWalkChildren(s: TimeState, n: JsNode, sc: Scope, k: nat)
    requires k <= |Children(n)|
    requires forall i :: 0 <= i < |ChildVisits(n, sc, k)| ==> Inert(ChildVisits(n, sc, k)[i])
    ensures WalkChildren(s, n, sc, k) == s
    decreases n, 0, k
  {
    if k > 0 {
      var prefix, last := ChildVisits(n, sc, k - 1), Visits(Children(n)[k - 1], sc);
      assert ChildVisits(n, sc, k) == prefix + last;
      assert forall i :: 0 <= i < |prefix| ==> prefix[i] == ChildVisits(n, sc, k)[i];
      assert forall i :: 0 <= i < |last| ==> last[i] == ChildVisits(n, sc, k)[|prefix| + i];
      InertWalkChildren(s, n, sc, k - 1);
      InertWalk(s, Children(n)[k - 1], sc);
    }
  }

  /** A program with no loop and no call is O(1). */
  lemma NoLoopsNoCallsIsConstant(program: seq<JsNode>)
    requires forall i :: 0 <= i < |Visits(Program(program), TopScope)| ==>
               Inert(Visits(Program(program), TopScope)[i])
    ensures TimeComplexity(program) == Constant
  {
    InertWalk(InitialTime, Program(program), TopScope);
  }
}
