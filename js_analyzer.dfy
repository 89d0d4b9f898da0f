/**
 * `calculateJsCodeAnalysis(code)`: parse, then the three walks over the same tree. The
 * parser is Babel's, outside this model: its answer for `code` is a parameter, None when
 * it throws.
 */
module JsAnalyzer {
  import opened Wrappers
  import opened Lattice
  import opened Outcomes
  import opened JsAst
  import JsTime
  import JsSpace
  import JsSuggest

  /** What `parseCode` throws when the parser fails. */
  const SyntaxError := ApiError(400, "Invalid JavaScript syntax")

  /** The analysis of the parser's answer; a `TypeError` when the suggestion walk throws. */
  function JsCodeAnalysis(parsed: Option<seq<JsNode>>): Result<CodeAnalysis, Failure> {
    match parsed
    case None => Failure(SyntaxError)
    case Some(program) =>
      match JsSuggest.Suggestions(program)
      case None => Failure(TypeError)
      case Some(suggestions) =>
        Success(CodeAnalysis(Label(JsTime.TimeComplexity(program)),
                           Label(JsSpace.SpaceComplexity(program)),
                           suggestions))
  }

  /**
   * `calculateJsCodeAnalysis(code)`: a parse failure is the 400 error and nothing else is;
   * a successful analysis holds one of the six time labels, O(1) or O(n) for space, and
   * suggestions without duplicates.
   */
  method CalculateJsCodeAnalysis(parsed: Option<seq<JsNode>>) returns (r: Result<CodeAnalysis, Failure>)
    ensures r == JsCodeAnalysis(parsed)
    ensures parsed.None? <==> r == Failure(SyntaxError)
    ensures r.Success? ==>
              && r.value.timeComplexity in ["O(1)", "O(log n)", "O(n)", "O(n log n)", "O(n²)", "O(2^n)"]
              && r.value.spaceComplexity in ["O(1)", "O(n)"]
              && JsSuggest.NoDuplicates(r.value.suggestions)
  {
    if parsed.None? {
      return Failure(SyntaxError);
    }
    var program := parsed.value;
    var time := JsTime.CalculateTimeComplexity(program);
    var space := JsSpace.CalculateSpaceComplexity(program);
    var suggestions := JsSuggest.GenerateSuggestions(program);
    if suggestions.None? {
      return Failure(TypeError);
    }
    r := Success(CodeAnalysis(time, space, suggestions.value));
    JsTime.TimeOrderLabels();
    var c := JsTime.TimeComplexity(program);
    var i :| 0 <= i < |JsTime.TimeOrder| && JsTime.TimeOrder[i] == c;
    assert Labels(JsTime.TimeOrder)[i] == time;
  }

  /** A program without unbound identifiers is analysed: only the parser can make it fail. */
  lemma ResolvableProgramIsAnalysed(program: seq<JsNode>)
    requires forall v :: v in Visits(Program(program), TopScope) ==> JsSuggest.Resolvable(v)
    ensures JsCodeAnalysis(Some(program)).Success?
  {
    JsSuggest.ResolvableWalk(JsSuggest.InitialSuggest, Program(program), TopScope);
  }
}
