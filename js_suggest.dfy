/**
 * The JavaScript suggestion engine: one Babel traversal whose callbacks append advice
 * messages, count the depth of `for` and `for...of` loops and record every declared
 * variable in a `Map`; then one message per variable never referenced, and an
 * order-keeping deduplication of the whole list.
 */
module JsSuggest {
  import opened Wrappers
  import opened Text
  import opened Lattice
  import opened JsAst

  // ----- messages -----

  /**
   * `addSuggestion(message, node)`: every node the engine passes carries a location, so
   * the line of its start is always appended.
   */
  function AtLine(message: string, line: nat): (r: string)
    ensures |r| > |message| && r[..|message|] == message
  {
    message + " at line " + NatToString(line)
  }

  /** After the message come the words " at line " and the decimal line, which reads back as the line. */
  lemma AtLineReadsBack(message: string, line: nat)
    ensures AtLine(message, line)[..|message|] == message
    ensures AtLine(message, line)[|message|..|message| + 9] == " at line "
    ensures AllDigits(AtLine(message, line)[|message| + 9..])
    ensures ParseDecimal(AtLine(message, line)[|message| + 9..]) == line
  {
    assert AtLine(message, line)[|message| + 9..] == NatToString(line);
    ParseNatToString(line);
  }

  const HashMapAdvice := "Consider using a hash map to reduce time complexity from O(n²) to O(n)"
  const ForOfAdvice :=
    "For-of loops may be slower than indexed loops for arrays; consider using a for loop if performance-critical"
  const MemoAdvice := "Consider memoization to optimize recursive function with exponential complexity"

  function LookupAdvice(methodName: string): string {
    "Use a Set for O(1) lookup instead of " + methodName + " (O(n))"
  }

  function ParamsAdvice(count: nat): string {
    "Function has " + NatToString(count) + " parameters; consider refactoring for clarity"
  }

  /** A key interpolated into a template literal: an undefined key reads "undefined". */
  function KeyText(key: Option<string>): string {
    match key
    case Some(name) => name
    case None => "undefined"
  }

  function UnusedAdvice(key: Option<string>): string {
    "Remove unused variable: " + KeyText(key)
  }

  // ----- the `variableUsages` map -----

  /**
   * An entry of `variableUsages`: its key (the declarator's `id.name`, undefined when the
   * id is a destructuring pattern), whether it was referenced, and the declarator's line.
   */
  datatype Usage = Usage(key: Option<string>, referenced: bool, line: nat)

  /** The keys of the map in insertion order. */
  function Keys(usages: seq<Usage>): (r: seq<Option<string>>)
    ensures |r| == |usages|
    ensures forall i :: 0 <= i < |r| ==> r[i] == usages[i].key
  {
    seq(|usages|, i requires 0 <= i < |usages| => usages[i].key)
  }

  /** A map holds each key once. */
  predicate DistinctKeys(usages: seq<Usage>) {
    forall i, j :: 0 <= i < j < |usages| ==> usages[i].key != usages[j].key
  }

  /** `variableUsages.get(key)`. */
  function Lookup(usages: seq<Usage>, key: Option<string>): (r: Option<Usage>)
    ensures r.Some? <==> key in Keys(usages)
    ensures r.Some? ==> r.value in usages && r.value.key == key
  {
    var i := IndexOf(Keys(usages), key);
    if i < 0 then None else Some(usages[i])
  }

  /**
   * `variableUsages.set(key, {referenced: false, node})`: a key already present keeps its
   * place and gets the fresh entry; a new key goes last.
   */
  function SetUsage(usages: seq<Usage>, key: Option<string>, line: nat): seq<Usage> {
    var i := IndexOf(Keys(usages), key);
    if i < 0 then usages + [Usage(key, false, line)] else usages[i := Usage(key, false, line)]
  }

  /** `variableUsages.get(name).referenced = true`, for a name the map holds. */
  function MarkReferenced(usages: seq<Usage>, name: string): seq<Usage>
    requires Some(name) in Keys(usages)
  {
    var i := IndexOf(Keys(usages), Some(name));
    usages[i := usages[i].(referenced := true)]
  }

  /**
   * After `set`, the map holds the fresh entry under the key; the keys keep their order, a
   * new key going last; every other entry is unchanged.
   */
  lemma SetUsageProperties(usages: seq<Usage>, key: Option<string>, line: nat)
    ensures key in Keys(usages) ==> Keys(SetUsage(usages, key, line)) == Keys(usages)
    ensures key !in Keys(usages) ==> Keys(SetUsage(usages, key, line)) == Keys(usages) + [key]
    ensures Lookup(SetUsage(usages, key, line), key) == Some(Usage(key, false, line))
    ensures forall i :: 0 <= i < |usages| && usages[i].key != key ==>
              SetUsage(usages, key, line)[i] == usages[i]
  {
    var r := SetUsage(usages, key, line);
    if key !in Keys(usages) {
      IndexOfAppend(Keys(usages), key, key);
      assert Keys(r) == Keys(usages) + [key];
    } else {
      assert Keys(r) == Keys(usages);
    }
  }

  /** Marking changes only the `referenced` flag of the name's entry. */
  lemma MarkReferencedProperties(usages: seq<Usage>, name: string)
    requires Some(name) in Keys(usages)
    ensures Keys(MarkReferenced(usages, name)) == Keys(usages)
    ensures Lookup(MarkReferenced(usages, name), Some(name)) ==
              Some(Lookup(usages, Some(name)).value.(referenced := true))
    ensures forall i :: 0 <= i < |usages| && usages[i].key != Some(name) ==>
              MarkReferenced(usages, name)[i] == usages[i]
  {
    assert Keys(MarkReferenced(usages, name)) == Keys(usages);
  }

  // ----- the callbacks as functions of the closure state -----

  /** The engine's closure variables. */
  datatype SuggestState = SuggestState(suggestions: seq<string>, loopDepth: int, usages: seq<Usage>)

  const InitialSuggest := SuggestState([], 0, [])

  /** The callee names the inner scan of a `for` loop reports. */
  predicate IsLookupMethod(name: Option<string>) {
    name == Some("indexOf") || name == Some("includes")
  }

  /** The message the inner scan of a `for` loop makes for one node. */
  function LookupMessage(n: JsNode): (r: seq<string>)
    ensures |r| <= 1
  {
    if n.CallExpression? && n.callee.MemberExpression? && IsLookupMethod(PropertyName(n.callee))
    then [AtLine(LookupAdvice(PropertyName(n.callee).value), n.line)]
    else []
  }

  /** The messages of the inner scan over `n` and its descendants, in pre-order. */
  function Lookups(n: JsNode): seq<string>
    decreases n, 1
  {
    LookupMessage(n) + ChildLookups(n, |Children(n)|)
  }

  /** The messages of the inner scan over the first `k` children of `n`. */
  function ChildLookups(n: JsNode, k: nat): seq<string>
    requires k <= |Children(n)|
    decreases n, 0, k
  {
    if k == 0 then [] else ChildLookups(n, k - 1) + Lookups(Children(n)[k - 1])
  }

  /**
   * The enter callbacks. None is the TypeError thrown when an identifier whose name is a
   * key of the map has no binding in scope.
   */
  function EnterStep(s: SuggestState, n: JsNode, sc: Scope): Option<SuggestState> {
    match n
    case ForStatement(_, _, _, _, line) =>
      var depth := s.loopDepth + 1;
      var advice := if depth > 1 then [AtLine(HashMapAdvice, line)] else [];
      Some(s.(loopDepth := depth,
              suggestions := s.suggestions + advice + ChildLookups(n, |Children(n)|)))
    case ForOfStatement(_, _, _, line) =>
      Some(s.(loopDepth := s.loopDepth + 1, suggestions := s.suggestions + [AtLine(ForOfAdvice, line)]))
    case VariableDeclarator(declared, _, line) =>
      Some(s.(usages := SetUsage(s.usages, IdentifierName(declared), line)))
    case Identifier(name, resolution) =>
      if Some(name) !in Keys(s.usages) then Some(s)
      else if resolution.Unbound? then None
      else if resolution.Reference? then Some(s.(usages := MarkReferenced(s.usages, name)))
      else Some(s)
    case CallExpression(callee, _, line) =>
      if IsSelfCall(callee, sc) && HasReturnOfCall(sc.statements)
      then Some(s.(suggestions := s.suggestions + [AtLine(MemoAdvice, line)]))
      else Some(s)
    case FunctionNode(isDeclaration, _, _, params, _, line) =>
      if isDeclaration && |params| > 3
      then Some(s.(suggestions := s.suggestions + [AtLine(ParamsAdvice(|params|), line)]))
      else Some(s)
    case _ => Some(s)
  }

  /** The loops whose depth the engine counts. */
  predicate IsCountedLoop(n: JsNode) {
    n.ForStatement? || n.ForOfStatement?
  }

  /** The exit callback of `ForStatement|ForOfStatement`. */
  function ExitStep(s: SuggestState, n: JsNode): SuggestState {
    if IsCountedLoop(n) then s.(loopDepth := s.loopDepth - 1) else s
  }

  /** The traversal of `n`: enter callback, children in order, exit callback. */
  function Walk(s: SuggestState, n: JsNode, sc: Scope): Option<SuggestState>
    decreases n, 1
  {
    match EnterStep(s, n, sc)
    case None => None
    case Some(entered) =>
      match WalkChildren(entered, n, ChildScope(n, sc), |Children(n)|)
      case None => None
      case Some(walked) => Some(ExitStep(walked, n))
  }

  /** The traversal of the first `k` children of `n`, visited in scope `sc`. */
  function WalkChildren(s: SuggestState, n: JsNode, sc: Scope, k: nat): Option<SuggestState>
    requires k <= |Children(n)|
    decreases n, 0, k
  {
    if k == 0 then Some(s)
    else
      match WalkChildren(s, n, sc, k - 1)
      case None => None
      case Some(before) => Walk(before, Children(n)[k - 1], sc)
  }

  /** The messages of the `forEach` over the map: one per entry never referenced, in key order. */
  function UnusedMessages(usages: seq<Usage>): seq<string> {
    if |usages| == 0 then []
    else
      var last := usages[|usages| - 1];
      UnusedMessages(usages[..|usages| - 1])
      + (if last.referenced then [] else [AtLine(UnusedAdvice(last.key), last.line)])
  }

  /** `[...new Set(xs)]`: the first occurrence of each string, in order. */
  function Dedup(xs: seq<string>): seq<string> {
    if |xs| == 0 then []
    else
      var init := Dedup(xs[..|xs| - 1]);
      if xs[|xs| - 1] in init then init else init + [xs[|xs| - 1]]
  }

  /** `generateSuggestions(ast)`; None when the traversal throws. */
  function Suggestions(program: seq<JsNode>): Option<seq<string>> {
    match Walk(InitialSuggest, Program(program), TopScope)
    case None => None
    case Some(walked) => Some(Dedup(walked.suggestions + UnusedMessages(walked.usages)))
  }

  // ----- the engine as the source runs it -----

  class SuggestionEngine {
    var suggestions: seq<string>
    var loopDepth: int
    var usages: seq<Usage>

    function State(): SuggestState
      reads this
    {
      SuggestState(suggestions, loopDepth, usages)
    }

    constructor ()
      ensures State() == InitialSuggest
    {
      suggestions := [];
      loopDepth := 0;
      usages := [];
    }

    method AddSuggestion(message: string, line: nat)
      modifies this
      ensures suggestions == old(suggestions) + [AtLine(message, line)]
      ensures loopDepth == old(loopDepth) && usages == old(usages)
    {
      suggestions := suggestions + [AtLine(message, line)];
    }

    /** The inner traversal of a `for` loop: its `CallExpression` callback on `n`, then below. */
    method ScanNode(n: JsNode)
      modifies this
      ensures suggestions == old(suggestions) + Lookups(n)
      ensures loopDepth == old(loopDepth) && usages == old(usages)
      decreases n, 1
    {
      ghost var before := suggestions;
      if n.CallExpression? && n.callee.MemberExpression? && IsLookupMethod(PropertyName(n.callee)) {
        AddSuggestion(LookupAdvice(PropertyName(n.callee).value), n.line);
      }
      ScanChildren(n, |Children(n)|);
      AppendAssociates(before, LookupMessage(n), ChildLookups(n, |Children(n)|));
    }

    /** The inner traversal of the first `k` children of `n`. */
    method ScanChildren(n: JsNode, k: nat)
      requires k <= |Children(n)|
      modifies this
      ensures suggestions == old(suggestions) + ChildLookups(n, k)
      ensures loopDepth == old(loopDepth) && usages == old(usages)
      decreases n, 0, k
    {
      if k > 0 {
        ghost var before := suggestions;
        ScanChildren(n, k - 1);
        ScanNode(Children(n)[k - 1]);
        AppendAssociates(before, ChildLookups(n, k - 1), Lookups(Children(n)[k - 1]));
      }
    }

    /** The enter callbacks; `ok` is false when the `Identifier` callback throws. */
    method Enter(n: JsNode, sc: Scope) returns (ok: bool)
      modifies this
      ensures ok == EnterStep(old(State()), n, sc).Some?
      ensures ok ==> State() == EnterStep(old(State()), n, sc).value
    {
      ok := true;
      match n {
        case ForStatement(_, _, _, _, _) =>
          EnterFor(n);
        case ForOfStatement(_, _, _, _) =>
          EnterForOf(n);
        case VariableDeclarator(_, _, _) =>
          EnterDeclarator(n);
        case Identifier(name, resolution) =>
          ok := EnterIdentifier(name, resolution);
        case CallExpression(_, _, _) =>
          EnterCall(n, sc);
        case FunctionNode(_, _, _, _, _, _) =>
          EnterFunction(n);
        case _ =>
      }
    }

    /** The `ForOfStatement` callback: one level deeper, and the for-of advice. */
    method EnterForOf(n: JsNode)
      requires n.ForOfStatement?
      modifies this
      ensures Some(State()) == EnterStep(old(State()), n, TopScope)
    {
      loopDepth := loopDepth + 1;
      AddSuggestion(ForOfAdvice, n.line);
    }

    /** The `VariableDeclarator` callback: a fresh, unreferenced entry under the declared name. */
    method EnterDeclarator(n: JsNode)
      requires n.VariableDeclarator?
      modifies this
      ensures Some(State()) == EnterStep(old(State()), n, TopScope)
    {
      usages := SetUsage(usages, IdentifierName(n.declared), n.line);
    }

    /** The `CallExpression` callback: memoization advice for a self-call in a block returning a call. */
    method EnterCall(n: JsNode, sc: Scope)
      requires n.CallExpression?
      modifies this
      ensures Some(State()) == EnterStep(old(State()), n, sc)
    {
      if IsSelfCall(n.callee, sc) && HasReturnOfCall(sc.statements) {
        AddSuggestion(MemoAdvice, n.line);
      }
    }

    /** The `FunctionDeclaration` callback: advice for more than three parameters. */
    method EnterFunction(n: JsNode)
      requires n.FunctionNode?
      modifies this
      ensures Some(State()) == EnterStep(old(State()), n, TopScope)
    {
      if n.isDeclaration && |n.params| > 3 {
        AddSuggestion(ParamsAdvice(|n.params|), n.line);
      }
    }

    /** The `ForStatement` callback: one level deeper, the hash-map advice, the inner scan. */
    method EnterFor(n: JsNode)
      requires n.ForStatement?
      modifies this
      ensures Some(State()) == EnterStep(old(State()), n, TopScope)
    {
      loopDepth := loopDepth + 1;
      if loopDepth > 1 {
        AddSuggestion(HashMapAdvice, n.line);
      } else {
        assert suggestions + [] == suggestions;
      }
      ScanChildren(n, |Children(n)|);
    }

    /** The `Identifier` callback; `ok` is false when `getBinding` finds nothing. */
    method EnterIdentifier(name: string, resolution: Resolution) returns (ok: bool)
      modifies this
      ensures ok == EnterStep(old(State()), Identifier(name, resolution), TopScope).Some?
      ensures ok ==> State() == EnterStep(old(State()), Identifier(name, resolution), TopScope).value
    {
      ok := true;
      if Some(name) in Keys(usages) {
        if resolution.Unbound? {
          ok := false;
        } else if resolution.Reference? {
          usages := MarkReferenced(usages, name);
        }
      }
    }

    method Exit(n: JsNode)
      modifies this
      ensures State() == ExitStep(old(State()), n)
    {
      if IsCountedLoop(n) {
        loopDepth := loopDepth - 1;
      }
    }

    /** Babel's traversal of `n`; `ok` is false when a callback threw. */
    method Traverse(n: JsNode, sc: Scope) returns (ok: bool)
      modifies this
      ensures ok == Walk(old(State()), n, sc).Some?
      ensures ok ==> State() == Walk(old(State()), n, sc).value
      decreases n, 1
    {
      ok := Enter(n, sc);
      if ok {
        ok := TraverseChildren(n, ChildScope(n, sc), |Children(n)|);
        if ok {
          Exit(n);
        }
      }
    }

    /** The traversal of the first `k` children of `n`, in order, each in scope `sc`. */
    method TraverseChildren(n: JsNode, sc: Scope, k: nat) returns (ok: bool)
      requires k <= |Children(n)|
      modifies this
      ensures ok == WalkChildren(old(State()), n, sc, k).Some?
      ensures ok ==> State() == WalkChildren(old(State()), n, sc, k).value
      decreases n, 0, k
    {
      ok := true;
      if k > 0 {
        ok := TraverseChildren(n, sc, k - 1);
        if ok {
          ok := Traverse(Children(n)[k - 1], sc);
        }
      }
    }

    /** The `forEach` over the map after the traversal. */
    method ReportUnused()
      modifies this
      ensures State() == old(State()).(suggestions := old(suggestions) + UnusedMessages(old(usages)))
    {
      var i := 0;
      while i < |usages|
        invariant 0 <= i <= |usages|
        invariant State() == old(State()).(suggestions := old(suggestions) + UnusedMessages(usages[..i]))
      {
        var entry := usages[i];
        assert usages[..i + 1][..i] == usages[..i];
        if !entry.referenced {
          AddSuggestion(UnusedAdvice(entry.key), entry.line);
        }
        i := i + 1;
      }
      assert usages[..i] == usages;
    }
  }

  /**
   * `generateSuggestions(ast)`: traverse, report the unused variables, deduplicate. None
   * when the traversal throws. The list holds no string twice, holds exactly the messages
   * made, and keeps the order of their first occurrences.
   */
  method GenerateSuggestions(program: seq<JsNode>) returns (r: Option<seq<string>>)
    ensures r == Suggestions(program)
    ensures r.Some? ==> NoDuplicates(r.value)
  {
    var engine := new SuggestionEngine();
    var ok := engine.Traverse(Program(program), TopScope);
    if !ok {
      return None;
    }
    engine.ReportUnused();
    r := Some(Dedup(engine.suggestions));
    DedupHasNoDuplicates(engine.suggestions);
  }

  // ----- properties -----

  lemma AppendAssociates(a: seq<string>, b: seq<string>, c: seq<string>)
    ensures (a + b) + c == a + (b + c)
  {
  }

  predicate NoDuplicates(xs: seq<string>) {
    forall i, j :: 0 <= i < j < |xs| ==> xs[i] != xs[j]
  }

  /** The deduplicated list holds no string twice. */
  lemma {:induction false} DedupHasNoDuplicates(xs: seq<string>)
    ensures NoDuplicates(Dedup(xs))
  {
    if |xs| > 0 {
      DedupHasNoDuplicates(xs[..|xs| - 1]);
    }
  }

  /** The deduplicated list holds exactly the strings of the list. */
  lemma {:induction false} DedupSameElements(xs: seq<string>)
    ensures forall x :: x in Dedup(xs) <==> x in xs
  {
    if |xs| > 0 {
      var init := xs[..|xs| - 1];
      DedupSameElements(init);
      assert xs == init + [xs[|xs| - 1]];
    }
  }

  /** The deduplicated list keeps the order in which the strings first occur in the list. */
  lemma {:induction false} DedupKeepsFirstOrder(xs: seq<string>)
    ensures forall i, j :: 0 <= i < j < |Dedup(xs)| ==>
              IndexOf(xs, Dedup(xs)[i]) < IndexOf(xs, Dedup(xs)[j])
  {
    if |xs| > 0 {
      var init := xs[..|xs| - 1];
      var last := xs[|xs| - 1];
      var d := Dedup(init);
      DedupKeepsFirstOrder(init);
      DedupSameElements(init);
      assert xs == init + [last];
      forall y | y in d
        ensures IndexOf(xs, y) == IndexOf(init, y)
      {
        IndexOfAppend(init, last, y);
      }
      if last !in d {
        IndexOfAppend(init, last, last);
        forall i | 0 <= i < |d|
          ensures IndexOf(xs, d[i]) < IndexOf(xs, last)
        {
          assert d[i] in d;
        }
      }
    }
  }

  /** A list without duplicates is its own deduplication. */
  lemma {:induction false} DedupOfDistinct(xs: seq<string>)
    requires NoDuplicates(xs)
    ensures Dedup(xs) == xs
  {
    if |xs| > 0 {
      var init := xs[..|xs| - 1];
      DedupOfDistinct(init);
      DedupSameElements(init);
      assert xs == init + [xs[|xs| - 1]];
    }
  }

  /** Deduplication is idempotent. */
  lemma DedupIdempotent(xs: seq<string>)
    ensures Dedup(Dedup(xs)) == Dedup(xs)
  {
    DedupHasNoDuplicates(xs);
    DedupOfDistinct(Dedup(xs));
  }

  /** The map keeps each key once across a `set`. */
  lemma SetUsageKeepsDistinct(usages: seq<Usage>, key: Option<string>, line: nat)
    requires DistinctKeys(usages)
    ensures DistinctKeys(SetUsage(usages, key, line))
  {
    var r := SetUsage(usages, key, line);
    SetUsageProperties(usages, key, line);
    forall i, j | 0 <= i < j < |r|
      ensures r[i].key != r[j].key
    {
      assert Keys(r)[i] == r[i].key && Keys(r)[j] == r[j].key;
    }
  }

  /** The map keeps each key once when an entry is marked referenced. */
  lemma MarkReferencedKeepsDistinct(usages: seq<Usage>, name: string)
    requires DistinctKeys(usages) && Some(name) in Keys(usages)
    ensures DistinctKeys(MarkReferenced(usages, name))
  {
    var r := MarkReferenced(usages, name);
    MarkReferencedProperties(usages, name);
    forall i, j | 0 <= i < j < |r|
      ensures r[i].key != r[j].key
    {
      assert Keys(r)[i] == usages[i].key && Keys(r)[j] == usages[j].key;
    }
  }

  /** One callback keeps each key of the map once. */
  lemma EnterStepKeepsDistinct(s: SuggestState, n: JsNode, sc: Scope)
    requires DistinctKeys(s.usages) && EnterStep(s, n, sc).Some?
    ensures DistinctKeys(EnterStep(s, n, sc).value.usages)
  {
    match n
    case VariableDeclarator(declared, _, line) =>
      SetUsageKeepsDistinct(s.usages, IdentifierName(declared), line);
    case Identifier(name, resolution) =>
      if Some(name) in Keys(s.usages) && resolution.Reference? {
        MarkReferencedKeepsDistinct(s.usages, name);
      }
    case _ =>
  }

  /** A callback only appends to the suggestions, and only loops change the depth. */
  lemma EnterStepGrows(s: SuggestState, n: JsNode, sc: Scope)
    requires EnterStep(s, n, sc).Some?
    ensures s.suggestions <= EnterStep(s, n, sc).value.suggestions
    ensures EnterStep(s, n, sc).value.loopDepth == s.loopDepth + (if IsCountedLoop(n) then 1 else 0)
  {
  }

  /**
   * A completed traversal of a node brings the loop depth back to where it started, only
   * appends to the suggestions and keeps each key of the map once.
   */
  lemma {:induction false} WalkInvariants(s: SuggestState, n: JsNode, sc: Scope)
    requires Walk(s, n, sc).Some?
    ensures Walk(s, n, sc).value.loopDepth == s.loopDepth
    ensures s.suggestions <= Walk(s, n, sc).value.suggestions
    ensures DistinctKeys(s.usages) ==> DistinctKeys(Walk(s, n, sc).value.usages)
    decreases n, 1
  {
    var entered := EnterStep(s, n, sc).value;
    EnterStepGrows(s, n, sc);
    if DistinctKeys(s.usages) {
      EnterStepKeepsDistinct(s, n, sc);
    }
    WalkChildrenInvariants(entered, n, ChildScope(n, sc), |Children(n)|);
  }

  /** The same for the traversal of the first `k` children of `n`. */
  lemma {:induction false} WalkChildrenInvariants(s: SuggestState, n: JsNode, sc: Scope, k: nat)
    requires k <= |Children(n)| && WalkChildren(s, n, sc, k).Some?
    ensures WalkChildren(s, n, sc, k).value.loopDepth == s.loopDepth
    ensures s.suggestions <= WalkChildren(s, n, sc, k).value.suggestions
    ensures DistinctKeys(s.usages) ==> DistinctKeys(WalkChildren(s, n, sc, k).value.usages)
    decreases n, 0, k
  {
    if k > 0 {
      var before := WalkChildren(s, n, sc, k - 1).value;
      WalkChildrenInvariants(s, n, sc, k - 1);
      WalkInvariants(before, Children(n)[k - 1], sc);
    }
  }

  /** An identifier visit in scope of nothing declared under its name never throws. */
  predicate Resolvable(v: Visit) {
    !(v.node.Identifier? && v.node.resolution.Unbound?)
  }

  /** The `Identifier` callback throws exactly when the name is a key of the map and unbound. */
  lemma IdentifierThrows(s: SuggestState, name: string, resolution: Resolution, sc: Scope)
    ensures EnterStep(s, Identifier(name, resolution), sc).None? <==>
              Some(name) in Keys(s.usages) && resolution.Unbound?
  {
  }

  /** A tree without unbound identifiers is traversed without throwing. */
  lemma {:induction false} ResolvableWalk(s: SuggestState, n: JsNode, sc: Scope)
    requires forall v :: v in Visits(n, sc) ==> Resolvable(v)
    ensures Walk(s, n, sc).Some?
    decreases n, 1
  {
    var cvs := ChildVisits(n, ChildScope(n, sc), |Children(n)|);
    assert Visits(n, sc) == [Visit(n, sc)] + cvs;
    assert Resolvable(Visit(n, sc));
    ResolvableWalkChildren(EnterStep(s, n, sc).value, n, ChildScope(n, sc), |Children(n)|);
  }

  lemma {:induction false} ResolvableWalkChildren(s: SuggestState, n: JsNode, sc: Scope, k: nat)
    requires k <= |Children(n)|
    requires forall v :: v in ChildVisits(n, sc, k) ==> Resolvable(v)
    ensures WalkChildren(s, n, sc, k).Some?
    decreases n, 0, k
  {
    if k > 0 {
      var earlier, last := ChildVisits(n, sc, k - 1), Visits(Children(n)[k - 1], sc);
      assert ChildVisits(n, sc, k) == earlier + last;
      assert forall v :: v in earlier ==> v in earlier + last;
      assert forall v :: v in last ==> v in earlier + last;
      ResolvableWalkChildren(s, n, sc, k - 1);
      var before := WalkChildren(s, n, sc, k - 1).value;
      ResolvableWalk(before, Children(n)[k - 1], sc);
      assert WalkChildren(s, n, sc, k) == Walk(before, Children(n)[k - 1], sc);
    }
  }

  /** A `for` loop entered inside another counted loop suggests a hash map first. */
  lemma NestedForSuggestsHashMap(s: SuggestState, n: JsNode, sc: Scope)
    requires n.ForStatement? && s.loopDepth >= 1
    ensures EnterStep(s, n, sc).Some?
    ensures EnterStep(s, n, sc).value.suggestions[|s.suggestions|] == AtLine(HashMapAdvice, n.line)
  {
  }

  /** A top-level `for` loop makes no hash-map suggestion: only the lookups of its inner scan. */
  lemma OuterForOnlyScans(s: SuggestState, n: JsNode, sc: Scope)
    requires n.ForStatement? && s.loopDepth == 0
    ensures EnterStep(s, n, sc) ==
              Some(s.(loopDepth := 1, suggestions := s.suggestions + ChildLookups(n, |Children(n)|)))
  {
    assert s.suggestions + [] == s.suggestions;
  }

  /** Every message of the inner scan names `indexOf` or `includes`. */
  lemma {:induction false} LookupsName(n: JsNode)
    ensures forall m :: m in Lookups(n) ==>
              exists line: nat :: m == AtLine(LookupAdvice("indexOf"), line)
                                  || m == AtLine(LookupAdvice("includes"), line)
    decreases n, 1
  {
    ChildLookupsName(n, |Children(n)|);
  }

  lemma {:induction false} ChildLookupsName(n: JsNode, k: nat)
    requires k <= |Children(n)|
    ensures forall m :: m in ChildLookups(n, k) ==>
              exists line: nat :: m == AtLine(LookupAdvice("indexOf"), line)
                                  || m == AtLine(LookupAdvice("includes"), line)
    decreases n, 0, k
  {
    if k > 0 {
      ChildLookupsName(n, k - 1);
      LookupsName(Children(n)[k - 1]);
    }
  }

  /** The report holds one message for each entry never referenced, and no other. */
  lemma {:induction false} UnusedMessagesCharacterised(usages: seq<Usage>)
    ensures |UnusedMessages(usages)| <= |usages|
    ensures forall m :: m in UnusedMessages(usages) <==>
              exists i :: 0 <= i < |usages| && !usages[i].referenced
                          && m == AtLine(UnusedAdvice(usages[i].key), usages[i].line)
  {
    if |usages| > 0 {
      var init := usages[..|usages| - 1];
      UnusedMessagesCharacterised(init);
      assert forall i :: 0 <= i < |init| ==> init[i] == usages[i];
    }
  }

  /** Every entry of the map never referenced has its message in `result`. */
  predicate ReportsUnused(usages: seq<Usage>, result: seq<string>) {
    forall key :: key in Keys(usages) && !Lookup(usages, key).value.referenced ==>
      AtLine(UnusedAdvice(key), Lookup(usages, key).value.line) in result
  }

  /**
   * When the traversal completes, the result holds no string twice, and every declared
   * name whose entry was never referenced is reported: in program terms, every name that no
   * reference follows after its last declaration, at the line of that declaration.
   */
  lemma SuggestionsCharacterised(program: seq<JsNode>)
    requires Walk(InitialSuggest, Program(program), TopScope).Some?
    ensures Suggestions(program).Some?
    ensures NoDuplicates(Suggestions(program).value)
    ensures ReportsUnused(Walk(InitialSuggest, Program(program), TopScope).value.usages,
                          Suggestions(program).value)
    ensures var vs := Visits(Program(program), TopScope);
      forall key, line :: LastDeclaredAt(vs, key, line) && !ReferencedAfterLastDeclaration(vs, key) ==>
        AtLine(UnusedAdvice(key), line) in Suggestions(program).value
  {
    UnusedMessagesFromProgram(program);
    var walked := Walk(InitialSuggest, Program(program), TopScope).value;
    var all := walked.suggestions + UnusedMessages(walked.usages);
    DedupHasNoDuplicates(all);
    DedupSameElements(all);
    UnusedMessagesCharacterised(walked.usages);
    forall key | key in Keys(walked.usages) && !Lookup(walked.usages, key).value.referenced
      ensures AtLine(UnusedAdvice(key), Lookup(walked.usages, key).value.line) in Dedup(all)
    {
      var u := Lookup(walked.usages, key).value;
      var i :| 0 <= i < |walked.usages| && walked.usages[i] == u;
      var m := AtLine(UnusedAdvice(key), u.line);
      assert m in UnusedMessages(walked.usages);
      assert m in all;
    }
  }

  // ----- the map against the program -----

  /** What one visit does to the map, in a traversal that does not throw. */
  function UsageStep(usages: seq<Usage>, n: JsNode): seq<Usage> {
    match n
    case VariableDeclarator(declared, _, line) => SetUsage(usages, IdentifierName(declared), line)
    case Identifier(name, resolution) =>
      if resolution.Reference? && Some(name) in Keys(usages) then MarkReferenced(usages, name) else usages
    case _ => usages
  }

  /** The map after the visits `vs`, in order. */
  function UsagesAfter(usages: seq<Usage>, vs: seq<Visit>): seq<Usage>
    decreases |vs|
  {
    if |vs| == 0 then usages else UsageStep(UsagesAfter(usages, vs[..|vs| - 1]), vs[|vs| - 1].node)
  }

  lemma {:induction false} UsagesAfterAppend(usages: seq<Usage>, a: seq<Visit>, b: seq<Visit>)
    ensures UsagesAfter(usages, a + b) == UsagesAfter(UsagesAfter(usages, a), b)
    decreases |b|
  {
    if |b| == 0 {
      assert a + b == a;
    } else {
      assert (a + b)[..|a + b| - 1] == a + b[..|b| - 1];
      assert (a + b)[|a + b| - 1] == b[|b| - 1];
      UsagesAfterAppend(usages, a, b[..|b| - 1]);
    }
  }

  /** A completed traversal leaves the map as its visits, taken in order, do. */
  lemma {:induction false} WalkUsages(s: SuggestState, n: JsNode, sc: Scope)
    requires Walk(s, n, sc).Some?
    ensures Walk(s, n, sc).value.usages == UsagesAfter(s.usages, Visits(n, sc))
    decreases n, 1
  {
    var entered := EnterStep(s, n, sc).value;
    assert entered.usages == UsageStep(s.usages, n);
    WalkChildrenUsages(entered, n, ChildScope(n, sc), |Children(n)|);
    UsagesAfterAppend(s.usages, [Visit(n, sc)], ChildVisits(n, ChildScope(n, sc), |Children(n)|));
    assert [Visit(n, sc)][..0] == [];
  }

  lemma {:induction false} WalkChildrenUsages(s: SuggestState, n: JsNode, sc: Scope, k: nat)
    requires k <= |Children(n)| && WalkChildren(s, n, sc, k).Some?
    ensures WalkChildren(s, n, sc, k).value.usages == UsagesAfter(s.usages, ChildVisits(n, sc, k))
    decreases n, 0, k
  {
    if k > 0 {
      var before := WalkChildren(s, n, sc, k - 1).value;
      WalkChildrenUsages(s, n, sc, k - 1);
      WalkUsages(before, Children(n)[k - 1], sc);
      UsagesAfterAppend(s.usages, ChildVisits(n, sc, k - 1), Visits(Children(n)[k - 1], sc));
    }
  }

  /** Visit `j` is a declarator whose `id.name` is `key`. */
  predicate DeclaresAt(vs: seq<Visit>, j: int, key: Option<string>) {
    0 <= j < |vs| && vs[j].node.VariableDeclarator? && IdentifierName(vs[j].node.declared) == key
  }

  /** Visit `j` is an identifier named `key` that is a reference, not a binding's own id. */
  predicate ReferencesAt(vs: seq<Visit>, j: int, key: Option<string>) {
    0 <= j < |vs| && vs[j].node.Identifier? && vs[j].node.resolution.Reference? && key == Some(vs[j].node.name)
  }

  ghost predicate Declared(vs: seq<Visit>, key: Option<string>) {
    exists j :: DeclaresAt(vs, j, key)
  }

  /** Some reference to `key` comes after every declaration of it. */
  ghost predicate ReferencedAfterLastDeclaration(vs: seq<Visit>, key: Option<string>) {
    exists j :: ReferencesAt(vs, j, key) && forall i :: j < i < |vs| ==> !DeclaresAt(vs, i, key)
  }

  /** The last declaration of `key` is on line `line`. */
  ghost predicate LastDeclaredAt(vs: seq<Visit>, key: Option<string>, line: nat) {
    exists j :: DeclaresAt(vs, j, key) && vs[j].node.line == line && forall i :: j < i < |vs| ==> !DeclaresAt(vs, i, key)
  }

  /** Some declaration of `earlier` comes before every declaration of `later`. */
  ghost predicate DeclaredBefore(vs: seq<Visit>, earlier: Option<string>, later: Option<string>) {
    exists i :: DeclaresAt(vs, i, earlier) && forall j :: DeclaresAt(vs, j, later) ==> i < j
  }

  /**
   * The map as the visits determine it: one entry per declared name, in the order of their
   * first declarations, referenced exactly when a reference follows the last declaration,
   * and carrying the line of that last declaration.
   */
  ghost predicate MapMatches(usages: seq<Usage>, vs: seq<Visit>) {
    && DistinctKeys(usages)
    && KeysMatch(usages, vs)
    && (forall a :: 0 <= a < |usages| ==>
          (usages[a].referenced <==> ReferencedAfterLastDeclaration(vs, usages[a].key)))
    && LinesMatch(usages, vs)
  }

  /** The keys are exactly the declared names, in the order of their first declarations. */
  ghost predicate KeysMatch(usages: seq<Usage>, vs: seq<Visit>) {
    && (forall key :: key in Keys(usages) <==> Declared(vs, key))
    && (forall a, b :: 0 <= a < b < |usages| ==> DeclaredBefore(vs, usages[a].key, usages[b].key))
  }

  /** Each entry carries the line of its key's last declaration. */
  ghost predicate LinesMatch(usages: seq<Usage>, vs: seq<Visit>) {
    forall a :: 0 <= a < |usages| ==> LastDeclaredAt(vs, usages[a].key, usages[a].line)
  }

  /** The visits before the new last one keep their meaning. */
  lemma ExtendKeepsPrefix(vs: seq<Visit>, v: Visit)
    ensures forall j, key :: 0 <= j < |vs| ==>
              (DeclaresAt(vs + [v], j, key) <==> DeclaresAt(vs, j, key))
              && (ReferencesAt(vs + [v], j, key) <==> ReferencesAt(vs, j, key))
  {
    assert forall j :: 0 <= j < |vs| ==> (vs + [v])[j] == vs[j];
  }

  /** A last visit that does not declare `key` leaves its declarations as they were. */
  lemma ExtendNotDeclaring(vs: seq<Visit>, v: Visit, key: Option<string>)
    requires !DeclaresAt([v], 0, key)
    ensures Declared(vs + [v], key) <==> Declared(vs, key)
    ensures forall line :: LastDeclaredAt(vs + [v], key, line) <==> LastDeclaredAt(vs, key, line)
    ensures forall e :: DeclaredBefore(vs, e, key) ==> DeclaredBefore(vs + [v], e, key)
  {
    ExtendKeepsPrefix(vs, v);
    NotDeclaringKeepsDeclared(vs, v, key);
    forall line
      ensures LastDeclaredAt(vs + [v], key, line) <==> LastDeclaredAt(vs, key, line)
    {
      NotDeclaringKeepsLast(vs, v, key, line);
    }
    forall e | DeclaredBefore(vs, e, key)
      ensures DeclaredBefore(vs + [v], e, key)
    {
      NotDeclaringKeepsBefore(vs, v, e, key);
    }
  }

  lemma NotDeclaringKeepsDeclared(vs: seq<Visit>, v: Visit, key: Option<string>)
    requires !DeclaresAt([v], 0, key)
    ensures Declared(vs + [v], key) <==> Declared(vs, key)
  {
    var ws := vs + [v];
    ExtendKeepsPrefix(vs, v);
    assert ws[|vs|] == v;
    if Declared(ws, key) {
      var j :| DeclaresAt(ws, j, key);
      assert DeclaresAt(vs, j, key);
    }
    if Declared(vs, key) {
      var j :| DeclaresAt(vs, j, key);
      assert DeclaresAt(ws, j, key);
    }
  }

  lemma NotDeclaringKeepsLast(vs: seq<Visit>, v: Visit, key: Option<string>, line: nat)
    requires !DeclaresAt([v], 0, key)
    ensures LastDeclaredAt(vs + [v], key, line) <==> LastDeclaredAt(vs, key, line)
  {
    var ws := vs + [v];
    ExtendKeepsPrefix(vs, v);
    assert ws[|vs|] == v;
    if LastDeclaredAt(ws, key, line) {
      var j :| DeclaresAt(ws, j, key) && ws[j].node.line == line && forall i :: j < i < |ws| ==> !DeclaresAt(ws, i, key);
      assert DeclaresAt(vs, j, key) && vs[j] == ws[j];
    }
    if LastDeclaredAt(vs, key, line) {
      var j :| DeclaresAt(vs, j, key) && vs[j].node.line == line && forall i :: j < i < |vs| ==> !DeclaresAt(vs, i, key);
      assert DeclaresAt(ws, j, key) && vs[j] == ws[j];
    }
  }

  lemma NotDeclaringKeepsBefore(vs: seq<Visit>, v: Visit, e: Option<string>, key: Option<string>)
    requires !DeclaresAt([v], 0, key) && DeclaredBefore(vs, e, key)
    ensures DeclaredBefore(vs + [v], e, key)
  {
    var ws := vs + [v];
    var i :| DeclaresAt(vs, i, e) && forall j :: DeclaresAt(vs, j, key) ==> i < j;
    assert ws[i] == vs[i];
    forall j | DeclaresAt(ws, j, key)
      ensures i < j
    {
      if j < |vs| {
        assert ws[j] == vs[j];
        assert DeclaresAt(vs, j, key);
      }
    }
    assert DeclaresAt(ws, i, e);
  }

  /** A last visit that neither declares nor references `key` changes nothing about it. */
  lemma ExtendUnrelated(vs: seq<Visit>, v: Visit, key: Option<string>)
    requires !DeclaresAt([v], 0, key) && !ReferencesAt([v], 0, key)
    ensures Declared(vs + [v], key) <==> Declared(vs, key)
    ensures forall line :: LastDeclaredAt(vs + [v], key, line) <==> LastDeclaredAt(vs, key, line)
    ensures ReferencedAfterLastDeclaration(vs + [v], key) <==> ReferencedAfterLastDeclaration(vs, key)
    ensures forall e :: DeclaredBefore(vs, e, key) ==> DeclaredBefore(vs + [v], e, key)
  {
    var ws := vs + [v];
    ExtendNotDeclaring(vs, v, key);
    ExtendKeepsPrefix(vs, v);
    assert ws[|vs|] == v;
    assert !DeclaresAt(ws, |vs|, key) && !ReferencesAt(ws, |vs|, key);
    if ReferencedAfterLastDeclaration(ws, key) {
      var j :| ReferencesAt(ws, j, key) && forall i :: j < i < |ws| ==> !DeclaresAt(ws, i, key);
      assert ReferencesAt(vs, j, key);
    }
    if ReferencedAfterLastDeclaration(vs, key) {
      var j :| ReferencesAt(vs, j, key) && forall i :: j < i < |vs| ==> !DeclaresAt(vs, i, key);
      assert ReferencesAt(ws, j, key);
    }
  }

  /** A last visit that declares `key` makes it declared, after every earlier declared name, and unreferenced. */
  lemma ExtendDeclares(vs: seq<Visit>, v: Visit, key: Option<string>)
    requires DeclaresAt([v], 0, key)
    ensures Declared(vs + [v], key)
    ensures !ReferencedAfterLastDeclaration(vs + [v], key)
    ensures LastDeclaredAt(vs + [v], key, v.node.line)
    ensures forall e :: Declared(vs, e) && (DeclaredBefore(vs, e, key) || !Declared(vs, key)) ==>
              DeclaredBefore(vs + [v], e, key)
  {
    var ws := vs + [v];
    ExtendKeepsPrefix(vs, v);
    assert ws[|vs|] == v;
    assert DeclaresAt(ws, |vs|, key);
    forall e | Declared(vs, e) && (DeclaredBefore(vs, e, key) || !Declared(vs, key))
      ensures DeclaredBefore(ws, e, key)
    {
      var i :| DeclaresAt(vs, i, e) && (!Declared(vs, key) || forall j :: DeclaresAt(vs, j, key) ==> i < j);
      forall j | DeclaresAt(ws, j, key)
        ensures i < j
      {
        if j < |vs| {
          assert ws[j] == vs[j];
          assert DeclaresAt(vs, j, key) && Declared(vs, key);
        }
      }
      assert DeclaresAt(ws, i, e);
    }
  }

  /** Entry by entry, `set` on a map with distinct keys writes the fresh entry under `key` and nothing else. */
  lemma SetUsageAt(us: seq<Usage>, key: Option<string>, line: nat)
    requires DistinctKeys(us)
    ensures var r := SetUsage(us, key, line);
      forall a :: 0 <= a < |r| ==>
        (r[a].key == key ==> r[a] == Usage(key, false, line))
        && (r[a].key != key ==> a < |us| && r[a] == us[a])
  {
    var r := SetUsage(us, key, line);
    var i := IndexOf(Keys(us), key);
    forall a | 0 <= a < |r|
      ensures r[a].key == key ==> r[a] == Usage(key, false, line)
      ensures r[a].key != key ==> a < |us| && r[a] == us[a]
    {
      if a < |us| {
        assert Keys(us)[a] == us[a].key;
      }
      if 0 <= i && a != i {
        assert Keys(us)[i] == key;
      }
    }
  }

  /** Every visit keeps each entry's line that of its key's last declaration. */
  lemma StepLines(us: seq<Usage>, vs: seq<Visit>, v: Visit)
    requires DistinctKeys(us) && LinesMatch(us, vs)
    ensures LinesMatch(UsageStep(us, v.node), vs + [v])
  {
    var r := UsageStep(us, v.node);
    if v.node.VariableDeclarator? {
      var k0 := IdentifierName(v.node.declared);
      assert DeclaresAt([v], 0, k0);
      ExtendDeclares(vs, v, k0);
      SetUsageAt(us, k0, v.node.line);
      forall a | 0 <= a < |r| && r[a].key != k0
        ensures LastDeclaredAt(vs + [v], r[a].key, r[a].line)
      {
        ExtendNotDeclaring(vs, v, r[a].key);
      }
    } else {
      if v.node.Identifier? && v.node.resolution.Reference? && Some(v.node.name) in Keys(us) {
        MarkReferencedProperties(us, v.node.name);
      }
      assert |r| == |us| && forall a :: 0 <= a < |r| ==> r[a].key == us[a].key && r[a].line == us[a].line;
      forall a | 0 <= a < |r|
        ensures LastDeclaredAt(vs + [v], r[a].key, r[a].line)
      {
        ExtendNotDeclaring(vs, v, r[a].key);
      }
    }
  }

  /** A visit that declares nothing and keeps the keys keeps them matched to the visits. */
  lemma NonDeclaringKeepsKeys(us: seq<Usage>, r: seq<Usage>, vs: seq<Visit>, v: Visit)
    requires !v.node.VariableDeclarator? && Keys(r) == Keys(us)
    requires DistinctKeys(us) && KeysMatch(us, vs)
    ensures DistinctKeys(r) && KeysMatch(r, vs + [v])
  {
    assert forall a :: 0 <= a < |r| ==> r[a].key == Keys(us)[a] == us[a].key;
    forall key
      ensures Declared(vs + [v], key) <==> Declared(vs, key)
    {
      ExtendNotDeclaring(vs, v, key);
    }
    forall a, b | 0 <= a < b < |r|
      ensures DeclaredBefore(vs + [v], r[a].key, r[b].key)
    {
      ExtendNotDeclaring(vs, v, r[b].key);
    }
  }

  /** A declarator visit keeps the map matched to the visits. */
  lemma StepDeclares(us: seq<Usage>, vs: seq<Visit>, v: Visit)
    requires MapMatches(us, vs) && v.node.VariableDeclarator?
    ensures MapMatches(UsageStep(us, v.node), vs + [v])
  {
    var ws := vs + [v];
    var k0, line := IdentifierName(v.node.declared), v.node.line;
    var r := SetUsage(us, k0, line);
    assert UsageStep(us, v.node) == r;
    StepLines(us, vs, v);
    assert DeclaresAt([v], 0, k0);
    ExtendDeclares(vs, v, k0);
    SetUsageProperties(us, k0, line);
    SetUsageKeepsDistinct(us, k0, line);
    assert |r| == |us| || (|r| == |us| + 1 && r[|us|].key == k0);
    forall key | key != k0
      ensures Declared(ws, key) <==> Declared(vs, key)
      ensures ReferencedAfterLastDeclaration(ws, key) <==> ReferencedAfterLastDeclaration(vs, key)
      ensures forall e :: DeclaredBefore(vs, e, key) ==> DeclaredBefore(ws, e, key)
    {
      ExtendUnrelated(vs, v, key);
    }
    forall key
      ensures key in Keys(r) <==> Declared(ws, key)
    {
    }
    forall a, b | 0 <= a < b < |r|
      ensures DeclaredBefore(ws, r[a].key, r[b].key)
    {
      assert Keys(r)[a] == r[a].key && Keys(r)[b] == r[b].key;
      assert a < |us| && r[a].key == us[a].key;
      if r[b].key != k0 {
        assert b < |us| && r[b].key == us[b].key;
      } else {
        assert us[a].key in Keys(us);
        if b < |us| {
          assert us[b].key == k0;
        }
      }
    }
    forall a | 0 <= a < |r|
      ensures r[a].referenced <==> ReferencedAfterLastDeclaration(ws, r[a].key)
    {
      if r[a].key == k0 {
        assert Keys(r)[a] == k0;
        assert IndexOf(Keys(r), k0) == a;
      } else {
        assert a < |us| && r[a] == us[a];
      }
    }
  }

  /** A reference visit keeps the map matched to the visits. */
  lemma StepReferences(us: seq<Usage>, vs: seq<Visit>, v: Visit)
    requires MapMatches(us, vs) && v.node.Identifier? && v.node.resolution.Reference?
    ensures MapMatches(UsageStep(us, v.node), vs + [v])
  {
    var ws := vs + [v];
    var k0 := Some(v.node.name);
    var r := UsageStep(us, v.node);
    StepLines(us, vs, v);
    ExtendKeepsPrefix(vs, v);
    assert ws[|vs|] == v && ReferencesAt(ws, |vs|, k0);
    assert ReferencedAfterLastDeclaration(ws, k0);
    if k0 in Keys(us) {
      MarkReferencedProperties(us, v.node.name);
      NonDeclaringKeepsKeys(us, r, vs, v);
      forall a | 0 <= a < |r|
        ensures r[a].referenced <==> ReferencedAfterLastDeclaration(ws, r[a].key)
      {
        assert Keys(r)[a] == us[a].key;
        if us[a].key == k0 {
          assert IndexOf(Keys(us), k0) == a;
        } else {
          ExtendUnrelated(vs, v, us[a].key);
        }
      }
    } else {
      assert r == us;
      NonDeclaringKeepsKeys(us, r, vs, v);
      forall a | 0 <= a < |us|
        ensures us[a].referenced <==> ReferencedAfterLastDeclaration(ws, us[a].key)
      {
        assert Keys(us)[a] == us[a].key;
        ExtendUnrelated(vs, v, us[a].key);
      }
    }
  }

  /** A visit that neither declares nor references leaves the map as it was, still matched. */
  lemma StepOther(us: seq<Usage>, vs: seq<Visit>, v: Visit)
    requires MapMatches(us, vs)
    requires !v.node.VariableDeclarator? && !(v.node.Identifier? && v.node.resolution.Reference?)
    ensures MapMatches(UsageStep(us, v.node), vs + [v])
  {
    var r := UsageStep(us, v.node);
    assert r == us;
    StepLines(us, vs, v);
    NonDeclaringKeepsKeys(us, r, vs, v);
    forall a | 0 <= a < |us|
      ensures us[a].referenced <==> ReferencedAfterLastDeclaration(vs + [v], us[a].key)
    {
      ExtendUnrelated(vs, v, us[a].key);
    }
  }

  /** The map the fold builds matches the visits it folded over. */
  lemma {:induction false} UsagesAfterMatches(vs: seq<Visit>)
    ensures MapMatches(UsagesAfter([], vs), vs)
    decreases |vs|
  {
    if |vs| == 0 {
      forall key
        ensures !Declared(vs, key)
      {
      }
    } else {
      var init, v := vs[..|vs| - 1], vs[|vs| - 1];
      assert vs == init + [v];
      UsagesAfterMatches(init);
      if v.node.VariableDeclarator? {
        StepDeclares(UsagesAfter([], init), init, v);
      } else if v.node.Identifier? && v.node.resolution.Reference? {
        StepReferences(UsagesAfter([], init), init, v);
      } else {
        StepOther(UsagesAfter([], init), init, v);
      }
    }
  }

  /** A name has one last declaration, so one line. */
  lemma LastDeclaredAtUnique(vs: seq<Visit>, key: Option<string>, l1: nat, l2: nat)
    requires LastDeclaredAt(vs, key, l1) && LastDeclaredAt(vs, key, l2)
    ensures l1 == l2
  {
    var j1 :| DeclaresAt(vs, j1, key) && vs[j1].node.line == l1 && forall i :: j1 < i < |vs| ==> !DeclaresAt(vs, i, key);
    var j2 :| DeclaresAt(vs, j2, key) && vs[j2].node.line == l2 && forall i :: j2 < i < |vs| ==> !DeclaresAt(vs, i, key);
    assert !(j1 < j2) && !(j2 < j1);
  }

  /**
   * The finished map is determined by the program's visits: its keys are the `id.name`s of
   * the visited declarators, each once, in the order of their first declarations; an entry is
   * referenced exactly when a reference to its name follows the name's last declaration, and
   * it carries that declaration's line.
   */
  lemma UsagesMatchProgram(program: seq<JsNode>)
    requires Walk(InitialSuggest, Program(program), TopScope).Some?
    ensures MapMatches(Walk(InitialSuggest, Program(program), TopScope).value.usages,
                       Visits(Program(program), TopScope))
  {
    WalkUsages(InitialSuggest, Program(program), TopScope);
    UsagesAfterMatches(Visits(Program(program), TopScope));
  }

  /**
   * The unused-variable messages, in program terms: one for each declared name that no
   * reference follows after its last declaration, at the line of that declaration, and no other.
   */
  lemma UnusedMessagesFromProgram(program: seq<JsNode>)
    requires Walk(InitialSuggest, Program(program), TopScope).Some?
    ensures var vs := Visits(Program(program), TopScope);
      forall m :: m in UnusedMessages(Walk(InitialSuggest, Program(program), TopScope).value.usages) <==>
        exists key, line :: LastDeclaredAt(vs, key, line) && !ReferencedAfterLastDeclaration(vs, key)
                            && m == AtLine(UnusedAdvice(key), line)
  {
    var vs := Visits(Program(program), TopScope);
    var us := Walk(InitialSuggest, Program(program), TopScope).value.usages;
    UsagesMatchProgram(program);
    UnusedMessagesCharacterised(us);
    forall m | m in UnusedMessages(us)
      ensures exists key, line :: LastDeclaredAt(vs, key, line) && !ReferencedAfterLastDeclaration(vs, key)
                                  && m == AtLine(UnusedAdvice(key), line)
    {
      var i :| 0 <= i < |us| && !us[i].referenced && m == AtLine(UnusedAdvice(us[i].key), us[i].line);
      assert LastDeclaredAt(vs, us[i].key, us[i].line);
    }
    forall key, line | LastDeclaredAt(vs, key, line) && !ReferencedAfterLastDeclaration(vs, key)
      ensures AtLine(UnusedAdvice(key), line) in UnusedMessages(us)
    {
      var j :| DeclaresAt(vs, j, key) && vs[j].node.line == line && forall i :: j < i < |vs| ==> !DeclaresAt(vs, i, key);
      assert Declared(vs, key);
      var i := IndexOf(Keys(us), key);
      assert us[i].key == key;
      LastDeclaredAtUnique(vs, key, line, us[i].line);
    }
  }
}
