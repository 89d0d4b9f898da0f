/** What the analyzers resolve to, and what they and the controller throw. */
module Outcomes {

  /**
   * `ApiError(statusCode, message)`, which the error handler turns into a response, and a
   * `TypeError` thrown by the runtime when a program reads a property of `undefined` or
   * calls something that is not a function.
   */
  datatype Failure = ApiError(statusCode: int, message: string) | TypeError

  /** The object both analyzers resolve to. */
  datatype CodeAnalysis = CodeAnalysis(timeComplexity: string, spaceComplexity: string, suggestions: seq<string>)
}
