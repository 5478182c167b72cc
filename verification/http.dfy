/** The HTTP values the gateway sees: the client's request, a response from the auth backend
    or to the client, and a response as the application writes it (status, content type and
    the chunks in the order `write` was called). */
module Http {
  import opened Wrappers
  import opened Text

  /** An incoming request. `path` is the request target as the client sent it; `cookie` is the
      raw Cookie header ("" when absent). The body is opaque and not modelled. */
  datatype Request = Request(verb: string, path: string, cookie: string, userAgent: string)

  /** A complete response: `user` is the `User` header, absent when not set. */
  datatype Response = Response(status: int, contentType: Option<string>, user: Option<string>, body: string)

  /** A response as the application produces it: `writeHead(status, {Content-Type})`
      followed by the chunks it writes. */
  datatype AppResponse = AppResponse(status: int, contentType: Option<string>, chunks: seq<string>)

  /** The application's response delivered as written, with its chunks joined in order. */
  function AsSent(out: AppResponse): Response {
    Response(out.status, out.contentType, None, Concat(out.chunks))
  }
}
