/** The parts of Angular's `HttpRequest`, `HttpResponse` and `HttpEvent` the cache looks at. */
module Http {
  import opened Wrappers
  import opened JsText
  import opened JsValue

  /**
   * A request; `verb` is `req.method`. `body` is `JSON.stringify(req.body)`, or `""` when the request
   * has no (or a falsy) body; `params` is the encoded `HttpParams` text; header
   * names are stored lower-cased, as `HttpHeaders` normalises them.
   */
  datatype HttpRequest = HttpRequest(
    verb: string,
    url: string,
    params: string,
    body: string,
    headers: map<string, string>)

  /** `HttpRequest.urlWithParams`: the URL with the parameters appended after `?` or `&`. */
  function UrlWithParams(req: HttpRequest): (u: string)
    ensures req.params == "" ==> u == req.url
    ensures StartsWith(u, req.url)
  {
    if req.params == "" then req.url
    else
      var sep := match IndexOf(req.url, '?')
        case None => "?"
        case Some(q) => if q < |req.url| - 1 then "&" else "";
      req.url + sep + req.params
  }

  datatype HttpResponse = HttpResponse(body: Value, status: int, statusText: string, url: Option<string>)

  /** What an `HttpHandler` emits: the final response, or an intermediate event (sent, progress, headers). */
  datatype HttpEvent = ResponseEvent(response: HttpResponse) | OtherEvent

  /** An error response seen by a subscriber; `status` is `None` when the error carries none. */
  datatype HttpError = HttpError(status: Option<int>)
}
