/**
 * `calculatePythonCodeAnalysis(code)`: parse, then the time and space walks, then the
 * suggestions. The parser and the suggestion service are outside this model: the parser's
 * answer is a parameter (None when it throws), and so is the service's parsed reply (a
 * `Failure` when the call or the parse of its text throws).
 */
module PyAnalyzer {
  import opened Wrappers
  import opened Lattice
  import opened Outcomes
  import opened PyAst
  import Constants
  import PyTime
  import PySpace

  /** What `parseCode` throws when the parser fails. */
  const SyntaxError := ApiError(400, "Invalid Python syntax")

  /**
   * The analysis with the suggestion flag as a parameter. The object literal is evaluated
   * field by field: the space walk throws before the service is asked, and the service is
   * asked only when `enabled` holds.
   */
  function PyCodeAnalysis(parsed: Option<PyNode>, reply: Result<seq<string>, Failure>, enabled: bool)
    : Result<CodeAnalysis, Failure>
  {
    match parsed
    case None => Failure(SyntaxError)
    case Some(ast) =>
      match PySpace.SpaceComplexity(ast)
      case Failure(e) => Failure(e)
      case Success(space) =>
        if !enabled then
          Success(CodeAnalysis(Label(PyTime.TimeComplexity(ast)), Label(space), []))
        else
          match reply
          case Failure(e) => Failure(e)
          case Success(suggestions) =>
            Success(CodeAnalysis(Label(PyTime.TimeComplexity(ast)), Label(space), suggestions))
  }

  /** The analysis under the shipped flag. */
  function PythonCodeAnalysis(parsed: Option<PyNode>, reply: Result<seq<string>, Failure>)
    : Result<CodeAnalysis, Failure>
  {
    PyCodeAnalysis(parsed, reply, Constants.EnableGeminiSuggestions)
  }

  /**
   * `calculatePythonCodeAnalysis(code)`: a parse failure is the 400 error, and a successful
   * analysis holds one of the seven time labels, O(1) for space and the service's suggestions.
   */
  method CalculatePythonCodeAnalysis(parsed: Option<PyNode>, reply: Result<seq<string>, Failure>)
    returns (r: Result<CodeAnalysis, Failure>)
    ensures r == PythonCodeAnalysis(parsed, reply)
    ensures parsed.None? ==> r == Failure(SyntaxError)
    ensures r.Success? ==>
              && r.value.timeComplexity in ["O(1)", "O(log n)", "O(n)", "O(n log n)", "O(n^2)", "O(n^3)", "O(2^n)"]
              && r.value.spaceComplexity == "O(1)"
              && reply == Success(r.value.suggestions)
  {
    if parsed.None? {
      return Failure(SyntaxError);
    }
    var ast := parsed.value;
    var time := PyTime.CalculateTimeComplexity(ast);
    var space := PySpace.CalculateSpaceComplexity(ast);
    if space.Failure? {
      return Failure(space.error);
    }
    var suggestions: seq<string>;
    if Constants.EnableGeminiSuggestions {
      if reply.Failure? {
        return Failure(reply.error);
      }
      suggestions := reply.value;
    } else {
      suggestions := [];
    }
    r := Success(CodeAnalysis(time, space.value, suggestions));
    PyTime.PyTimeOrderLabels();
    var c := PyTime.TimeComplexity(ast);
    var i :| 0 <= i < |PyTime.PyTimeOrder| && PyTime.PyTimeOrder[i] == c;
    assert Labels(PyTime.PyTimeOrder)[i] == time;
  }

  // ----- properties -----

  /** With the flag off the service is never asked: its reply does not matter and no suggestion is made. */
  lemma FlagOffIgnoresService(parsed: Option<PyNode>, reply1: Result<seq<string>, Failure>,
                              reply2: Result<seq<string>, Failure>)
    ensures PyCodeAnalysis(parsed, reply1, false) == PyCodeAnalysis(parsed, reply2, false)
    ensures PyCodeAnalysis(parsed, reply1, false).Success? ==>
              PyCodeAnalysis(parsed, reply1, false).value.suggestions == []
  {
  }

  /**
   * With the flag on, a parsed tree the space walk accepts fails exactly when the service
   * fails, with the service's error, and otherwise carries its suggestions.
   */
  lemma FlagOnUsesService(ast: PyNode, reply: Result<seq<string>, Failure>)
    requires PySpace.SpaceComplexity(ast).Success?
    ensures reply.Failure? ==> PyCodeAnalysis(Some(ast), reply, true) == Failure(reply.error)
    ensures reply.Success? ==>
              PyCodeAnalysis(Some(ast), reply, true)
              == Success(CodeAnalysis(Label(PyTime.TimeComplexity(ast)), "O(1)", reply.value))
  {
    PySpace.SpaceComplexityIsConstantOrThrows(ast);
  }

  /** A parse failure is reported before either walk runs or the service is asked, whatever the flag. */
  lemma ParseFailureComesFirst(reply: Result<seq<string>, Failure>, enabled: bool)
    ensures PyCodeAnalysis(None, reply, enabled) == Failure(SyntaxError)
  {
  }

  /** A tree the space walk rejects throws its TypeError before the service is asked. */
  lemma SpaceFailureComesBeforeService(ast: PyNode, reply: Result<seq<string>, Failure>, enabled: bool)
    requires PySpace.SpaceComplexity(ast).Failure?
    ensures PyCodeAnalysis(Some(ast), reply, enabled) == Failure(TypeError)
  {
    PySpace.SpaceComplexityIsConstantOrThrows(ast);
  }

  /** The analysis fails only with the syntax error, the space walk's TypeError or the service's own error. */
  lemma PythonFailures(parsed: Option<PyNode>, reply: Result<seq<string>, Failure>, enabled: bool)
    ensures PyCodeAnalysis(parsed, reply, enabled).Failure? ==>
              || PyCodeAnalysis(parsed, reply, enabled).error == SyntaxError
              || PyCodeAnalysis(parsed, reply, enabled).error == TypeError
              || (enabled && reply == Failure(PyCodeAnalysis(parsed, reply, enabled).error))
  {
    if parsed.Some? {
      PySpace.SpaceComplexityIsConstantOrThrows(parsed.value);
    }
  }
}
