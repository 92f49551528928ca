/** Requests and responses at the edge of the modelled code. */
module Http {
  import opened JsValues

  /**
   * What `await fetch(...)` followed by `await resp.json()` yields: the status
   * and the parsed body, or the message of the error thrown on the way
   * (network failure, a body that is not JSON).
   */
  datatype Fetched = Fetched(status: int, body: JsValue) | FetchFailed(message: string)

  /** `resp.ok` */
  predicate IsOk(status: int) {
    200 <= status <= 299
  }

  datatype Body = Json(value: JsValue) | PlainText(text: string) | NoBody

  datatype Response = Response(status: int, headers: map<string, string>, body: Body)

  /** `NextResponse.json(value, { status })` */
  function JsonResponse(status: int, value: JsValue): (r: Response)
    ensures r.status == status && r.body == Json(value) && r.headers == map[]
  {
    Response(status, map[], Json(value))
  }

  /** The message of the TypeError thrown when a property of null or undefined is read. */
  const PropertyOfNullMessage: string := "Cannot read properties of null"

  /**
   * The message of the error a component throws for a response that is not ok:
   * `new Error(data.message || fallback)`, where reading `message` from a null
   * body throws a TypeError first.
   */
  function FailureMessage(body: JsValue, fallback: string): (m: string)
    ensures Nullish(body) ==> m == PropertyOfNullMessage
    ensures body.Obj? && "message" !in body.fields ==> m == fallback
    ensures body.Obj? && "message" in body.fields && Truthy(body.fields["message"]) && body.fields["message"].Str?
      ==> m == body.fields["message"].s
    ensures !Nullish(body) && !Truthy(Prop(body, "message")) ==> m == fallback
    ensures !Nullish(body) && Truthy(Prop(body, "message")) ==> m == ToStr(Prop(body, "message"))
  {
    if Nullish(body) then PropertyOfNullMessage
    else ToStr(Or(Prop(body, "message"), Str(fallback)))
  }

  /** The request went through and the response was ok. */
  predicate Succeeded(reply: Fetched) {
    reply.Fetched? && IsOk(reply.status)
  }

  /**
   * The message a component's `catch (err)` reads from a request that did not
   * succeed: the thrown error's own message, or the one built from the body.
   */
  function ErrorOf(reply: Fetched, fallback: string): (m: string)
    requires !Succeeded(reply)
    ensures reply.FetchFailed? ==> m == reply.message
    ensures reply.Fetched? ==> m == FailureMessage(reply.body, fallback)
  {
    match reply
    case FetchFailed(message) => message
    case Fetched(_, body) => FailureMessage(body, fallback)
  }

  /**
   * How a call through the shared API client ends: it resolves (with data, or
   * with null after a 401 redirect), or it rejects with an error message.
   */
  datatype ApiOutcome = Resolved | Rejected(message: string)

  /**
   * What a call through the shared API client yields to the component: the
   * parsed body (null after a 401 redirect or for a 204), or the message of
   * the error it throws.
   */
  datatype ApiReply = Returned(data: JsValue) | Threw(message: string)

  /**
   * The headers a proxy route sends to the backend: JSON content, plus the
   * caller's `Authorization` header when it is a non-empty string.
   */
  function ForwardedHeaders(auth: string): (h: map<string, string>)
    ensures "Content-Type" in h && h["Content-Type"] == "application/json"
    ensures "Authorization" in h <==> auth != ""
    ensures "Authorization" in h ==> h["Authorization"] == auth
    ensures h.Keys <= {"Content-Type", "Authorization"}
  {
    var json := map["Content-Type" := "application/json"];
    if auth != "" then json["Authorization" := auth] else json
  }
}
