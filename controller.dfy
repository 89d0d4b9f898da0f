/**
 * The two request handlers of the code routes, `executeCode` and `analyzeCode`, as decisions
 * over the request body. What the handlers await (the code executor, the parsers and the
 * suggestion service) is a parameter holding its answer for this request.
 */
module CodeController {
  import opened Wrappers
  import opened Text
  import opened Outcomes
  import opened Constants
  import opened Responses
  import opened JsAst
  import opened PyAst
  import JsAnalyzer
  import PyAnalyzer

  /** What a handler does: send a body with a status, or throw to the error handler. */
  datatype Reply = Respond(status: int, body: ResponseBody) | Throw(failure: Failure)

  /** The tag a request is handled as: its `language`, or the default when it has none. */
  function RequestLanguage(language: Option<string>): string {
    language.GetOr(DefaultLanguage)
  }

  const ExecutionLanguageError :=
    ApiError(400, "Invalid or not allowed execution language, Allowed: " + JoinWithCommas(AllowedExecutionLanguages))
  const EmptyContentError := ApiError(400, "File content is empty")
  const ExecutionError := ApiError(500, "Error executing code")
  const ContentRequiredError := ApiError(400, "Content is required")

  function AnalysisLanguageError(allowed: seq<string>): Failure {
    ApiError(400, AnalysisLanguagePrefix + JoinWithCommas(allowed))
  }

  const AnalysisLanguagePrefix := "Invalid or not allowed analysis language, Allowed: "

  /**
   * The 400 message of a refused analysis language lists the allowed languages: after its fixed
   * words, the text splits at its commas into exactly that list.
   */
  lemma AnalysisLanguageErrorListsAllowed(allowed: seq<string>)
    requires allowed != [] && forall k :: 0 <= k < |allowed| ==> CommaFree(allowed[k])
    ensures AnalysisLanguageError(allowed).statusCode == 400
    ensures AnalysisLanguageError(allowed).message[..|AnalysisLanguagePrefix|] == AnalysisLanguagePrefix
    ensures SplitOnCommas(AnalysisLanguageError(allowed).message[|AnalysisLanguagePrefix|..]) == allowed
  {
    assert AnalysisLanguageError(allowed).message[|AnalysisLanguagePrefix|..] == JoinWithCommas(allowed);
    JoinThenSplit(allowed);
  }

  /** `!content`: a missing body field or the empty string. */
  predicate Falsy(content: Option<string>) {
    content.None? || content.value == ""
  }

  /**
   * `executeCode`: the language, then the content after trimming, then the executor's reply
   * (`executed`, None when it is falsy).
   */
  function ExecuteDecision(content: Option<string>, language: Option<string>, executed: Option<string>): Reply {
    if RequestLanguage(language) !in AllowedExecutionLanguages then Throw(ExecutionLanguageError)
    else if Falsy(content) || Trim(content.value) == "" then Throw(EmptyContentError)
    else if executed.None? then Throw(ExecutionError)
    else Respond(200, Body(200, Executed(executed.value), "Code executed successfully"))
  }

  /**
   * The `switch` on the language: the JavaScript analyzer on the JavaScript parser's answer,
   * the Python analyzer on the Python parser's answer and the suggestion service's reply,
   * and for any other tag nothing, leaving `analysis` undefined.
   */
  function Dispatch(lang: string, jsParsed: Option<seq<JsNode>>, pyParsed: Option<PyNode>,
                    reply: Result<seq<string>, Failure>): Result<Payload, Failure>
  {
    if lang == "javascript" then
      match JsAnalyzer.JsCodeAnalysis(jsParsed)
      case Failure(e) => Failure(e)
      case Success(a) => Success(Analysis(a))
    else if lang == "python" then
      match PyAnalyzer.PythonCodeAnalysis(pyParsed, reply)
      case Failure(e) => Failure(e)
      case Success(a) => Success(Analysis(a))
    else Success(Undefined)
  }

  /**
   * `analyzeCode` over a list of allowed languages: the language, then the content (not
   * trimmed), then the dispatch, then a 200 response built from the analysis.
   */
  function AnalyzeDecision(allowed: seq<string>, content: Option<string>, language: Option<string>,
                           jsParsed: Option<seq<JsNode>>, pyParsed: Option<PyNode>,
                           reply: Result<seq<string>, Failure>): Reply
  {
    var lang := RequestLanguage(language);
    if lang !in allowed then Throw(AnalysisLanguageError(allowed))
    else if Falsy(content) then Throw(ContentRequiredError)
    else
      match Dispatch(lang, jsParsed, pyParsed, reply)
      case Failure(e) => Throw(e)
      case Success(analysis) => Respond(200, Body(200, analysis, "Analyzed code successfully"))
  }

  /** `analyzeCode` under the shipped list of analysis languages. */
  function AnalyzeCode(content: Option<string>, language: Option<string>, jsParsed: Option<seq<JsNode>>,
                       pyParsed: Option<PyNode>, reply: Result<seq<string>, Failure>): Reply
  {
    AnalyzeDecision(AllowedAnalysisLanguages, content, language, jsParsed, pyParsed, reply)
  }

  // ----- the handlers as they run -----

  /**
   * `executeCode`, building its response with the constructor. `status` is the HTTP status of
   * the reply and means something only with a response: on a failure nothing is sent by the
   * handler, the failure carries its own status, and the 500 left in `status` stands for nothing.
   */
  method ExecuteCodeHandler(content: Option<string>, language: Option<string>, executed: Option<string>)
    returns (status: int, response: Result<ApiResponse, Failure>)
    ensures ExecuteDecision(content, language, executed).Throw? <==> response.Failure?
    ensures response.Failure? ==> response.error == ExecuteDecision(content, language, executed).failure
    ensures response.Success? ==>
              && fresh(response.value)
              && status == ExecuteDecision(content, language, executed).status
              && response.value.Value() == ExecuteDecision(content, language, executed).body
  {
    status := 500;
    var lang := language.GetOr(DefaultLanguage);
    if lang !in AllowedExecutionLanguages {
      return status, Failure(ExecutionLanguageError);
    }
    if content.None? || content.value == "" || Trim(content.value) == "" {
      return status, Failure(EmptyContentError);
    }
    if executed.None? {
      return status, Failure(ExecutionError);
    }
    var r := new ApiResponse(200, Executed(executed.value), Some("Code executed successfully"));
    status, response := 200, Success(r);
  }

  /**
   * `analyzeCode`, running the analyzers and building its response with the builder chain.
   * As for `ExecuteCodeHandler`, `status` means something only when there is a response.
   */
  method AnalyzeCodeHandler(content: Option<string>, language: Option<string>, jsParsed: Option<seq<JsNode>>,
                            pyParsed: Option<PyNode>, reply: Result<seq<string>, Failure>)
    returns (status: int, response: Result<ApiResponse, Failure>)
    ensures AnalyzeCode(content, language, jsParsed, pyParsed, reply).Throw? <==> response.Failure?
    ensures response.Failure? ==> response.error == AnalyzeCode(content, language, jsParsed, pyParsed, reply).failure
    ensures response.Success? ==>
              && fresh(response.value)
              && status == AnalyzeCode(content, language, jsParsed, pyParsed, reply).status
              && response.value.Value() == AnalyzeCode(content, language, jsParsed, pyParsed, reply).body
  {
    status := 500;
    var lang := language.GetOr(DefaultLanguage);
    if lang !in AllowedAnalysisLanguages {
      return status, Failure(AnalysisLanguageError(AllowedAnalysisLanguages));
    }
    if content.None? || content.value == "" {
      return status, Failure(ContentRequiredError);
    }
    var analysis := RunDispatch(lang, jsParsed, pyParsed, reply);
    if analysis.Failure? {
      return status, Failure(analysis.error);
    }
    var built := BuildAnalysisResponse(analysis.value);
    status, response := 200, Success(built);
  }

  /** The `switch`: runs the analyzer the language names, if any. */
  method RunDispatch(lang: string, jsParsed: Option<seq<JsNode>>, pyParsed: Option<PyNode>,
                     reply: Result<seq<string>, Failure>) returns (r: Result<Payload, Failure>)
    ensures r == Dispatch(lang, jsParsed, pyParsed, reply)
  {
    r := Success(Undefined);
    if lang == "javascript" {
      var a := JsAnalyzer.CalculateJsCodeAnalysis(jsParsed);
      r := if a.Failure? then Failure(a.error) else Success(Analysis(a.value));
    } else if lang == "python" {
      var a := PyAnalyzer.CalculatePythonCodeAnalysis(pyParsed, reply);
      r := if a.Failure? then Failure(a.error) else Success(Analysis(a.value));
    }
  }

  /** The builder chain of `analyzeCode`. */
  method BuildAnalysisResponse(analysis: Payload) returns (r: ApiResponse)
    ensures fresh(r)
    ensures r.Value() == Body(200, analysis, "Analyzed code successfully")
  {
    var builder := ApiResponse.Builder();
    builder := builder.StatusCode(200);
    builder := builder.Data(analysis);
    builder := builder.Message("Analyzed code successfully");
    r := builder.Build();
  }

  // ----- properties -----

  /** A missing language is the default one, "javascript", in both handlers. */
  lemma MissingLanguageIsDefault(allowed: seq<string>, content: Option<string>, executed: Option<string>,
                                 jsParsed: Option<seq<JsNode>>, pyParsed: Option<PyNode>,
                                 reply: Result<seq<string>, Failure>)
    ensures ExecuteDecision(content, None, executed) == ExecuteDecision(content, Some("javascript"), executed)
    ensures AnalyzeDecision(allowed, content, None, jsParsed, pyParsed, reply)
            == AnalyzeDecision(allowed, content, Some("javascript"), jsParsed, pyParsed, reply)
  {
  }

  /** A language outside the list is rejected with 400 before the content is looked at. */
  lemma LanguageIsCheckedFirst(allowed: seq<string>, content1: Option<string>, content2: Option<string>,
                               language: Option<string>, executed: Option<string>,
                               jsParsed: Option<seq<JsNode>>, pyParsed: Option<PyNode>,
                               reply: Result<seq<string>, Failure>)
    ensures RequestLanguage(language) !in AllowedExecutionLanguages ==>
              ExecuteDecision(content1, language, executed) == ExecuteDecision(content2, language, executed)
              == Throw(ExecutionLanguageError)
    ensures RequestLanguage(language) !in allowed ==>
              AnalyzeDecision(allowed, content1, language, jsParsed, pyParsed, reply)
              == AnalyzeDecision(allowed, content2, language, jsParsed, pyParsed, reply)
              == Throw(AnalysisLanguageError(allowed))
  {
  }

  /**
   * `executeCode` rejects content that trims to nothing, and `analyzeCode` does not trim: it
   * treats white space like any other non-empty content.
   */
  lemma WhitespaceContent(s: string, t: string, allowed: seq<string>, language: Option<string>,
                          executed: Option<string>, jsParsed: Option<seq<JsNode>>, pyParsed: Option<PyNode>,
                          reply: Result<seq<string>, Failure>)
    requires s != "" && AllWhitespace(s) && t != ""
    requires RequestLanguage(language) in AllowedExecutionLanguages
    ensures ExecuteDecision(Some(s), language, executed) == Throw(EmptyContentError)
    ensures AnalyzeDecision(allowed, Some(s), language, jsParsed, pyParsed, reply)
            == AnalyzeDecision(allowed, Some(t), language, jsParsed, pyParsed, reply)
  {
    TrimIsEmptyIffBlank(s);
  }

  /** `executeCode` responds exactly when the language is allowed, the content is not blank and the executor answers. */
  lemma ExecuteRespondsIff(content: Option<string>, language: Option<string>, executed: Option<string>)
    ensures ExecuteDecision(content, language, executed).Respond? <==>
              && RequestLanguage(language) in AllowedExecutionLanguages
              && content.Some? && !AllWhitespace(content.value)
              && executed.Some?
  {
    if content.Some? {
      TrimIsEmptyIffBlank(content.value);
    }
  }

  /**
   * `executeCode` checks in order: the language (400), then the content, blank after trimming
   * (400), whatever the executor would answer, then the executor's answer (500).
   */
  lemma ExecuteChecksInOrder(content: Option<string>, language: Option<string>, executed1: Option<string>,
                             executed2: Option<string>)
    requires RequestLanguage(language) in AllowedExecutionLanguages
    ensures content.None? || AllWhitespace(content.value) ==>
              ExecuteDecision(content, language, executed1) == ExecuteDecision(content, language, executed2)
              == Throw(EmptyContentError)
    ensures content.Some? && !AllWhitespace(content.value) && executed1.None? ==>
              ExecuteDecision(content, language, executed1) == Throw(ExecutionError)
  {
    if content.Some? {
      TrimIsEmptyIffBlank(content.value);
    }
  }

  /** An allowed language other than the two analyzers' passes with 200 and an undefined analysis. */
  lemma OtherLanguageLeavesAnalysisUndefined(allowed: seq<string>, content: Option<string>, language: Option<string>,
                                             jsParsed: Option<seq<JsNode>>, pyParsed: Option<PyNode>,
                                             reply: Result<seq<string>, Failure>)
    requires RequestLanguage(language) in allowed && !Falsy(content)
    requires RequestLanguage(language) != "javascript" && RequestLanguage(language) != "python"
    ensures AnalyzeDecision(allowed, content, language, jsParsed, pyParsed, reply)
            == Respond(200, Body(200, Undefined, "Analyzed code successfully"))
  {
  }

  /** "javascript" goes to the JavaScript analyzer: its failure is thrown, its analysis is the payload. */
  lemma JavaScriptGoesToJsAnalyzer(allowed: seq<string>, content: Option<string>, jsParsed: Option<seq<JsNode>>,
                                   pyParsed: Option<PyNode>, reply: Result<seq<string>, Failure>)
    requires "javascript" in allowed && !Falsy(content)
    ensures JsAnalyzer.JsCodeAnalysis(jsParsed).Failure? ==>
              AnalyzeDecision(allowed, content, Some("javascript"), jsParsed, pyParsed, reply)
              == Throw(JsAnalyzer.JsCodeAnalysis(jsParsed).error)
    ensures JsAnalyzer.JsCodeAnalysis(jsParsed).Success? ==>
              AnalyzeDecision(allowed, content, Some("javascript"), jsParsed, pyParsed, reply)
              == Respond(200, Body(200, Analysis(JsAnalyzer.JsCodeAnalysis(jsParsed).value), "Analyzed code successfully"))
  {
  }

  /** "python" goes to the Python analyzer when it is allowed. */
  lemma PythonGoesToPyAnalyzer(allowed: seq<string>, content: Option<string>, jsParsed: Option<seq<JsNode>>,
                               pyParsed: Option<PyNode>, reply: Result<seq<string>, Failure>)
    requires "python" in allowed && !Falsy(content)
    ensures PyAnalyzer.PythonCodeAnalysis(pyParsed, reply).Failure? ==>
              AnalyzeDecision(allowed, content, Some("python"), jsParsed, pyParsed, reply)
              == Throw(PyAnalyzer.PythonCodeAnalysis(pyParsed, reply).error)
    ensures PyAnalyzer.PythonCodeAnalysis(pyParsed, reply).Success? ==>
              AnalyzeDecision(allowed, content, Some("python"), jsParsed, pyParsed, reply)
              == Respond(200, Body(200, Analysis(PyAnalyzer.PythonCodeAnalysis(pyParsed, reply).value), "Analyzed code successfully"))
  {
  }

  /** Under the shipped list only JavaScript is analysed: a Python request is the 400 language error. */
  lemma PythonIsNotAnalysed(content: Option<string>, jsParsed: Option<seq<JsNode>>, pyParsed: Option<PyNode>,
                            reply: Result<seq<string>, Failure>)
    ensures AnalyzeCode(content, Some("python"), jsParsed, pyParsed, reply)
            == Throw(ApiError(400, "Invalid or not allowed analysis language, Allowed: javascript"))
  {
    assert "python"[0] != "javascript"[0];
    assert JoinWithCommas(AllowedAnalysisLanguages) == "javascript";
    assert "Invalid or not allowed analysis language, Allowed: " + "javascript"
        == "Invalid or not allowed analysis language, Allowed: javascript";
  }

  /** Every response `executeCode` sends has status 200 and a body marked successful that carries the executor's reply. */
  lemma ExecuteRepliesAreSuccessful(content: Option<string>, language: Option<string>, executed: Option<string>)
    ensures var d := ExecuteDecision(content, language, executed);
            d.Respond? ==> d.status == 200 && Consistent(d.body) && d.body.success && d.body.data == Executed(executed.value)
  {
  }

  /** Every response `analyzeCode` sends has status 200 and a body marked successful. */
  lemma AnalyzeRepliesAreSuccessful(allowed: seq<string>, content: Option<string>, language: Option<string>,
                                    jsParsed: Option<seq<JsNode>>, pyParsed: Option<PyNode>,
                                    reply: Result<seq<string>, Failure>)
    ensures var d := AnalyzeDecision(allowed, content, language, jsParsed, pyParsed, reply);
            d.Respond? ==> d.status == 200 && Consistent(d.body) && d.body.success
  {
  }
}
