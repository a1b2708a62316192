/**
 * The result record every question-answering operation returns, and its two
 * factories. A record built by a factory starts from the property
 * initialisers and overrides only the properties the factory names.
 */
module Models {
  import opened Text

  datatype ChatResponse = ChatResponse(
    response: string,
    success: bool,
    errorMessage: string,
    sources: seq<string>)

  /** A ChatResponse as its property initialisers leave it. */
  const DEFAULT_RESPONSE := ChatResponse("", true, "", [])

  /** ChatResponse.CreateSuccess(response, sources = null). */
  function CreateSuccess(response: string, sources: Option<seq<string>>): (r: ChatResponse)
    ensures r.success && r.response == response
    ensures r.sources == if sources.Some? then sources.value else []
    ensures r.errorMessage == ""
  {
    DEFAULT_RESPONSE.(response := response, success := true, sources := sources.GetOr([]))
  }

  /** ChatResponse.CreateError(errorMessage). */
  function CreateError(errorMessage: string): (r: ChatResponse)
    ensures !r.success && r.response == "" && r.errorMessage == errorMessage
    ensures r.sources == []
  {
    DEFAULT_RESPONSE.(response := "", success := false, errorMessage := errorMessage)
  }
}
