/**
 * The boundary to the HTTP library: what the client hands to the session
 * and what comes back. The transport itself stays outside the model and is
 * represented by a function from call to reply.
 */
module Http {
  import opened Wrappers
  import opened SearchModel

  /** A parsed JSON document; the client passes it through untouched. */
  datatype Json =
    | JNull
    | JBool(b: bool)
    | JNumber(literal: string)
    | JString(s: string)
    | JArray(items: seq<Json>)
    | JObject(members: seq<(string, Json)>)

  /** The outcome of `response.json()`: a document, or the decoder's message. */
  datatype JsonBody = Parsed(value: Json) | DecodeError(msg: string)

  /** The parts of a `requests.Response` the client inspects. */
  datatype Response = Response(statusCode: int, text: string, body: JsonBody)

  /** What the session's `request` gives: a response, or the exception it raised. */
  datatype Reply = Answered(response: Response) | ConnectionFailed(reason: string)

  /** A `requests_cache.CachedSession`, identified by its backend and cache name. */
  datatype Session = Session(backend: string, cacheName: string)

  /** The session a server creates when none is supplied. */
  const DefaultSession := Session("memory", "dataverse")

  /** The arguments of one `session.request(...)` call. */
  datatype HttpCall = HttpCall(
    session: Session,
    verb: string,
    url: string,
    headers: map<string, string>,
    verify: bool,
    params: Option<SearchParameters>)

  /** The network, as seen by the client. */
  type Transport = HttpCall -> Reply
}
