/** The transport as seen by the client: decoded JSON values, outgoing GET requests
    and the replies a server (or a failing network) gives back. */
module Http {
  import opened Wrappers

  /** A decoded JSON document. Fractional numbers are not modelled. */
  datatype Json =
    | JNull
    | JBool(b: bool)
    | JInt(i: int)
    | JString(s: string)
    | JArray(items: seq<Json>)
    | JObject(fields: map<string, Json>)

  /** Request headers: header name to value, as a Python dict. */
  type Headers = map<string, string>

  /** A GET request for an absolute URL. */
  datatype Request = Get(url: string, headers: Headers)

  /** What `requests.get` yields: a response with its status code, the body if it
      decodes as JSON, and the `Last-Modified` header if present; or a raised
      transport error (timeout, connection failure). */
  datatype Reply =
    | Reply(status: int, body: Option<Json>, lastModified: Option<string>)
    | TransportError

  /** The reply to the `k`-th request of a call: the script's `k`-th entry, or a
      transport error once the script has run out. */
  function ReplyAt(replies: seq<Reply>, k: nat): (r: Reply)
    ensures k < |replies| ==> r == replies[k]
    ensures k >= |replies| ==> r.TransportError?
  {
    if k < |replies| then replies[k] else TransportError
  }

  /** The reply is a response carrying status code `code`. */
  predicate HasStatus(r: Reply, code: int) {
    r.Reply? && r.status == code
  }
}
