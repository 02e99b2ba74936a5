/** What the route handlers hand back to the framework. */
module Http {
  import opened Wrappers
  import Gemini

  /** A request body after `await req.json()`: parsed, or rejected as malformed JSON. */
  datatype Body<T> = Parsed(value: T) | Malformed

  datatype Response =
      /** `NextResponse.json({ error }, { status })`. */
    | JsonError(status: int, error: string)
      /** `createGeminiStreamingResponse(generateStreamingText(...))` for this request:
          status 200, and a body framed from whatever the SDK then delivers
          (see `Gemini.StreamGeneration`). */
    | GeminiStream(request: Gemini.GenerationRequest)
      /** A response with no body. */
    | Empty(status: int, headers: seq<(string, string)>)

  /** The value of the first header called `name`. */
  function Header(headers: seq<(string, string)>, name: string): Option<string>
  {
    if headers == [] then None
    else if headers[0].0 == name then Some(headers[0].1)
    else Header(headers[1..], name)
  }
}
