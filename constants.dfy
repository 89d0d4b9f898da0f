/** The configuration the request layer and the Python analyzer read. */
module Constants {
  /** The languages `executeCode` accepts. */
  const AllowedExecutionLanguages: seq<string> := ["javascript", "python", "java", "cpp", "go", "rust"]

  /** The languages `analyzeCode` accepts: only JavaScript is switched on. */
  const AllowedAnalysisLanguages: seq<string> := ["javascript"]

  /** The language a request without one is treated as. */
  const DefaultLanguage: string := "javascript"

  /** Whether the Python analyzer asks the external service for suggestions. */
  const EnableGeminiSuggestions: bool := true
}
