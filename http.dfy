/**
 * The two `apiFetch` wrappers: how each fills in the request options
 * before `fetch`, and how each turns the reply into data or an error.
 * The reply itself is an input.
 */
module Http {
  import opened Wrappers
  import opened Js
  import Json

  /** A header object; `None` is a header explicitly set to `undefined`. */
  type Headers = map<string, Option<string>>

  const Authorization := "Authorization"
  const ContentType := "Content-Type"
  const JsonType := "application/json"

  /** `headers[k]` is truthy: present and a non-empty text. */
  predicate HasText(headers: Headers, k: string) {
    k in headers && headers[k].Some? && headers[k].value != ""
  }

  /**
   * The headers utils.js `apiFetch` sends: `Authorization: Bearer <token>`
   * added when the stored token is truthy, a caller's `Content-Type`
   * kept when it is truthy and set to JSON otherwise, everything else untouched.
   */
  function SessionHeaders(headers: Headers, token: Value): (r: Headers)
    ensures Truthy(token) ==> Authorization in r && r[Authorization] == Some("Bearer " + ToStr(token))
    ensures !Truthy(token) ==> (Authorization in r <==> Authorization in headers)
    ensures ContentType in r && r[ContentType] == (if HasText(headers, ContentType) then headers[ContentType] else Some(JsonType))
    ensures forall k :: k in headers && k != ContentType && (k != Authorization || !Truthy(token)) ==> k in r && r[k] == headers[k]
    ensures r.Keys == headers.Keys + {ContentType} + (if Truthy(token) then {Authorization} else {})
  {
    var withAuth := if Truthy(token) then headers[Authorization := Some("Bearer " + ToStr(token))] else headers;
    withAuth[ContentType := if HasText(withAuth, ContentType) then withAuth[ContentType] else Some(JsonType)]
  }

  /**
   * The headers provider-dashboard.js `apiFetch` sends: `Content-Type`
   * replaced by JSON, or by `undefined` for form data, and `Authorization`
   * always `Bearer ` followed by the raw stored token (`null` when there is none).
   */
  function ProviderHeaders(headers: Headers, formData: bool, token: Option<string>): (r: Headers)
    ensures ContentType in r && r[ContentType] == (if formData then None else Some(JsonType))
    ensures Authorization in r && r[Authorization].Some?
    ensures r[Authorization].value == "Bearer " + (if token.Some? then token.value else "null")
    ensures forall k :: k in headers && k != ContentType && k != Authorization ==> k in r && r[k] == headers[k]
    ensures r.Keys == headers.Keys + {ContentType, Authorization}
  {
    headers[ContentType := if formData then None else Some(JsonType)]
           [Authorization := Some("Bearer " + (if token.Some? then token.value else "null"))]
  }

  /** The body provider-dashboard.js sends: JSON text for a truthy body that is not form data. */
  function ProviderBody(body: Value, formData: bool): (r: Value)
    ensures Truthy(body) && !formData ==> r == Str(Json.Stringify(body).value)
    ensures !Truthy(body) || formData ==> r == body
  {
    if Truthy(body) && !formData then Str(Json.Stringify(body).value) else body
  }

  /** The options object a caller hands to `apiFetch`, which fills it in place. */
  class RequestInit {
    var headers: Headers
    var body: Value
    var formData: bool

    constructor(headers: Headers, body: Value, formData: bool)
      ensures this.headers == headers && this.body == body && this.formData == formData
    {
      this.headers := headers;
      this.body := body;
      this.formData := formData;
    }

    /** utils.js `apiFetch`: the headers object gets the session headers. */
    method AttachSession(token: Value)
      modifies this
      ensures headers == SessionHeaders(old(headers), token)
      ensures body == old(body) && formData == old(formData)
    {
      headers := SessionHeaders(headers, token);
    }

    /** provider-dashboard.js `apiFetch`: headers and body are rewritten in place. */
    method PrepareForProvider(token: Option<string>)
      modifies this
      ensures headers == ProviderHeaders(old(headers), old(formData), token)
      ensures body == ProviderBody(old(body), old(formData))
      ensures formData == old(formData)
    {
      headers := ProviderHeaders(headers, formData, token);
      body := ProviderBody(body, formData);
    }
  }

  // ------------------------------------------------------------- replies

  /** A reply's JSON body: its data, and its `error` and `message` fields. */
  datatype Payload<D> = Payload(data: D, error: Value, message: Value)

  /** What `fetch` gave back; `body == None` is a body that is not JSON. */
  datatype Reply<D> =
    | Unreachable
    | Answered(ok: bool, statusText: string, body: Option<Payload<D>>)

  /** Why a call failed; `Rejected` carries the thrown error's message. */
  datatype Failure = NetworkError | InvalidJson | Rejected(message: string)

  /** `data.error || 'API request failed'`, turned into the error's message. */
  function UtilsMessage(error: Value): string {
    ToStr(Or(error, Str("API request failed")))
  }

  /** utils.js `apiFetch`: the body is read first, then a reply that is not ok throws. */
  function UtilsOutcome<D>(reply: Reply<D>): (r: Result<D, Failure>)
    ensures r.Ok? <==> reply.Answered? && reply.ok && reply.body.Some?
    ensures r.Ok? ==> r.value == reply.body.value.data
    ensures reply.Answered? && !reply.ok && reply.body.Some? ==>
      r == Err(Rejected(if Truthy(reply.body.value.error) then ToStr(reply.body.value.error) else "API request failed"))
    ensures reply.Answered? && reply.body.None? ==> r == Err(InvalidJson)
  {
    match reply
    case Unreachable => Err(NetworkError)
    case Answered(ok, _, body) =>
      match body
      case None => Err(InvalidJson)
      case Some(p) => if ok then Ok(p.data) else Err(Rejected(UtilsMessage(p.error)))
  }

  /** `err.error || err.message || "API error"`, where `err` is `{ error: statusText }` for a body that is not JSON. */
  function ProviderMessage<D>(statusText: string, body: Option<Payload<D>>): string {
    match body
    case None => ToStr(Or(Str(statusText), Str("API error")))
    case Some(p) => ToStr(Or(Or(p.error, p.message), Str("API error")))
  }

  /** provider-dashboard.js `apiFetch`: a reply that is not ok throws before its data is used. */
  function ProviderOutcome<D>(reply: Reply<D>): (r: Result<D, Failure>)
    ensures r.Ok? <==> reply.Answered? && reply.ok && reply.body.Some?
    ensures r.Ok? ==> r.value == reply.body.value.data
    ensures reply.Answered? && !reply.ok ==> r.Err? && r.error.Rejected? && r.error.message != ""
    ensures reply.Answered? && !reply.ok && reply.body.Some? && Truthy(reply.body.value.error) ==>
      r.error.message == ToStr(reply.body.value.error)
    ensures reply.Answered? && !reply.ok && reply.body.Some? && !Truthy(reply.body.value.error) && Truthy(reply.body.value.message) ==>
      r.error.message == ToStr(reply.body.value.message)
    ensures reply.Answered? && !reply.ok && reply.body.Some? && !Truthy(reply.body.value.error) && !Truthy(reply.body.value.message) ==>
      r.error.message == "API error"
    ensures reply.Answered? && !reply.ok && reply.body.None? ==>
      r.error.message == if reply.statusText != "" then reply.statusText else "API error"
  {
    match reply
    case Unreachable => Err(NetworkError)
    case Answered(ok, statusText, body) =>
      if !ok then Err(Rejected(ProviderMessage(statusText, body)))
      else match body
        case None => Err(InvalidJson)
        case Some(p) => Ok(p.data)
  }
}
