/**
 * JSON values as the generation service's text may contain them. The itinerary
 * payload itself stays opaque: the core only ever parses it or wraps raw text.
 */
module JsonValue {
  import opened Wrappers

  datatype Json =
    | Null
    | Bool(b: bool)
    | Number(n: int)
    | Str(s: string)
    | Arr(items: seq<Json>)
    | Obj(fields: seq<(string, Json)>)

  /**
   * `JSON.parse`, a library call outside the model: `Some(v)` when the text
   * parses to `v`, `None` when the call throws.
   */
  type Parser = string -> Option<Json>

  /** The degraded payload `{ textResponse: text }`. */
  function TextResponse(text: string): Json {
    Obj([("textResponse", Str(text))])
  }
}
