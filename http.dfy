/** The HTTP responses the API routes send, as values. */
module Http {
  import opened Wrappers

  datatype Body =
    | NoBody                                                   // res.status(...).end()
    | ErrorBody(error: string)                                 // { error }
    | FailureBody(error: string, details: string, cause: Option<string>)  // { error, details, cause? }
    | PromptBody(prompt: string)                               // { prompt }
    | PromptWithParameters(prompt: string, parameters: map<string, string>)  // { prompt, parameters }

  datatype Response = Response(status: int, body: Body)

  /** The catch-all reply for an exception thrown while the response is still unsent. */
  const GenerationFailed: string := "Failed to generate content"
}
