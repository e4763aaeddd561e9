/** What the core sees of an HTTP exchange made with `httpx`: either the
    transport failed (`httpx.HTTPError`) or a response came back. */
module Http {
  import opened Wrappers
  import opened JsonValues

  /** `httpx.Response.is_error`: a client (4xx) or server (5xx) status. */
  predicate IsError(status: int)
  {
    400 <= status <= 599
  }

  /** A received response: its status, its `content-type` header if any,
      what `response.json()` returns (`None` when it raises `ValueError`)
      and `response.text`. */
  datatype Response = Response(status: int, contentType: Option<string>, decoded: Option<Json>, text: string)

  datatype Exchange = TransportFailure | Received(response: Response)

  /** The `{"raw_text": text}` fallback payload used when a body is not
      read as JSON. */
  function RawText(text: string): (j: Json)
    ensures j.JObj? && j.fields.Keys == {"raw_text"} && j.fields["raw_text"] == JStr(text)
  {
    JObj(map["raw_text" := JStr(text)])
  }
}
