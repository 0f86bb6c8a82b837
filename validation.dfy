/**
 * The request checks both generation routes make before any work: the body
 * must be readable JSON with a non-empty prompt, and the service credential
 * must be configured.
 */
module RequestValidation {
  import opened JsonValue
  import opened Wrappers

  /** The parsed request body, or `Unreadable` when `request.json()` throws. */
  datatype Request = Unreadable | Body(prompt: Option<string>, formData: Option<Json>)

  /** JavaScript truthiness of a string that may be absent. */
  predicate Present(s: Option<string>) {
    s.Some? && s.value != ""
  }

  /** An error answer: HTTP status and the `error` message. */
  datatype Rejection = Rejection(code: nat, error: string)

  /**
   * The checks both routes make before any work: an unreadable body, then a
   * missing prompt, then a missing credential. On success, the prompt and the
   * form data to work with.
   */
  function Validate(request: Request, apiKey: Option<string>): (r: Option<Rejection>)
    ensures request.Unreadable? ==> r == Some(Rejection(400, "Invalid request body"))
    ensures request.Body? && !Present(request.prompt) ==> r == Some(Rejection(400, "Prompt is required"))
    ensures request.Body? && Present(request.prompt) && !Present(apiKey) ==>
              r == Some(Rejection(500, "AI21_API_KEY not configured"))
    ensures r.None? <==> request.Body? && Present(request.prompt) && Present(apiKey)
  {
    match request
    case Unreadable => Some(Rejection(400, "Invalid request body"))
    case Body(prompt, _) =>
      if !Present(prompt) then Some(Rejection(400, "Prompt is required"))
      else if !Present(apiKey) then Some(Rejection(500, "AI21_API_KEY not configured"))
      else None
  }
}
