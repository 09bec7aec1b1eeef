/** `get_request_cvp`: fetch one resource collection from the controller as
    line-delimited JSON. It issues two GETs to the same URL; the values
    decoded from the first are thrown away and the result comes from the
    second alone. The two GETs fail differently: a transport failure on the
    first ends the process and a bad status on the first escapes as an
    exception, while any failure of the second gives `None`. */
module ReadClient {
  import opened Json
  import opened Http
  import opened LineDecoder
  import TextLines

  /** The first GET: Accept `application/json`, TLS verification off, the
      HTTP library's default timeout. */
  function FirstGet(token: string, url: string): HttpRequest
  {
    Get(url, token, "application/json", false, None)
  }

  /** The second GET: Accept `application/geo+json`, TLS verification on, a
      30 second timeout. */
  function SecondGet(token: string, url: string): HttpRequest
  {
    Get(url, token, "application/geo+json", true, Some(30))
  }

  predicate Accepted(reply: HttpReply)
  {
    reply.Reply? && IsSuccess(reply.status)
  }

  /** The whole read, GETs and decoding included. What it returns depends on
      the first reply only through whether it was a success; its body is
      decoded and discarded. After a successful first GET, a failed second
      GET gives `None` and never a partial list; a successful one gives the
      values decoded from its body, and a 204 with its empty body gives the
      empty list. */
  method GetRequestCvp(token: string, url: string, network: HttpRequest -> HttpReply,
                       parse: string -> Option<Json>)
    returns (out: Outcome<Option<seq<Json>>>)
    ensures var first, second := network(FirstGet(token, url)), network(SecondGet(token, url));
      && (first.TransportFailure? ==> out == Exited)
      && (first.Reply? && !IsSuccess(first.status) ==> out == Raised(HttpStatusError(first.status)))
      && (Accepted(first) && !Accepted(second) ==> out == Returned(None))
      && (Accepted(first) && Accepted(second) ==> out == Returned(Some(Decoded(second.text, parse))))
      && ((Accepted(first) && second.Reply? && second.status == NoContent && TextLines.AllWhitespace(second.text))
          ==> out == Returned(Some([])))
  {
    var first := network(FirstGet(token, url));
    if first.TransportFailure? {
      return Exited;
    }
    if !IsSuccess(first.status) {
      return Raised(HttpStatusError(first.status));
    }
    // The first pass: decoded, reported, then replaced by an empty list.
    var discarded, firstDiagnostics := DecodeBody(first.text, parse);

    var second := network(SecondGet(token, url));
    if !Accepted(second) {
      return Returned(None);
    }
    if second.status == NoContent && TextLines.AllWhitespace(second.text) {
      DecodeBlankBody(second.text, parse);
    }
    var objs, diagnostics := DecodeBody(second.text, parse);
    return Returned(Some(objs));
  }
}
