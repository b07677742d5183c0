/**
 * The HTTP wrapper the services call: the headers sent with each request, the
 * URL a request targets, and how a failed request is turned into the value it
 * throws. Requests themselves are not performed: a server is a function from
 * a call to its settled result.
 */
module ApiWrapper {
  import opened Wrappers
  import opened JsValues

  type Headers = map<string, string>

  const JsonContentType: string := "application/json"
  const NoResponseMessage: string := "No se pudo recibir respuesta del servidor."
  const ProcessingMessage: string := "Error al procesar la solicitud."

  datatype Verb = Get | Post | Put | Delete

  /** One request as a service issues it: verb, path below the API root, and
      the body (for `get`, the query parameters). */
  datatype Call = Call(verb: Verb, path: string, body: Value)

  /** What a rejected wrapper call throws: the response body of a validation
      failure, an `Error` with a message, or a TypeError raised while
      reading the error itself. */
  datatype Thrown = ValidationErrors(body: Value) | Error(message: string) | TypeError

  /** How a wrapper call settles. */
  datatype ApiResult = Ok(value: Value) | Threw(thrown: Thrown)

  /** The remote API, as far as the services can observe it. */
  type Server = Call -> ApiResult

  /** How axios settles a request: with a response (any status), with a
      request that got no response, or failing before it was sent. */
  datatype Transport = Responded(status: int, data: Value, statusText: string) | NoResponse | SetupFailure

  /** `getAuthHeaders`: JSON content type always; a bearer token when the
      session has a non-empty access token. */
  function AuthHeaders(token: Option<string>): (h: Headers)
    ensures "Content-Type" in h && h["Content-Type"] == JsonContentType
    ensures "Authorization" in h <==> token.Some? && token.value != ""
    ensures "Authorization" in h ==> h["Authorization"] == "Bearer " + token.value
    ensures h.Keys <= {"Content-Type", "Authorization"}
  {
    match token
    case Some(t) =>
      if t != "" then map["Authorization" := "Bearer " + t, "Content-Type" := JsonContentType]
      else map["Content-Type" := JsonContentType]
    case None => map["Content-Type" := JsonContentType]
  }

  /** `{ ...authHeaders, ...headers }`: the caller's headers win on a clash. */
  function MergeHeaders(auth: Headers, caller: Headers): (h: Headers)
    ensures h.Keys == auth.Keys + caller.Keys
    ensures forall k :: k in caller ==> h[k] == caller[k]
    ensures forall k :: k in auth && k !in caller ==> h[k] == auth[k]
  {
    auth + caller
  }

  /** The headers a request carries, given the session token and the caller's headers. */
  function RequestHeaders(token: Option<string>, caller: Headers): Headers
  {
    MergeHeaders(AuthHeaders(token), caller)
  }

  /** `put` and `_delete`: `API_URL + url`, followed by `/id` when the id is a
      non-empty string (`get` and `post` always use the first form). */
  function Endpoint(apiUrl: string, url: string, id: Option<string>): (r: string)
    ensures |apiUrl + url| <= |r| && r[..|apiUrl + url|] == apiUrl + url
  {
    match id
    case Some(i) => if i != "" then apiUrl + url + "/" + i else apiUrl + url
    case None => apiUrl + url
  }

  /** The settled value of a successful call: `handleResponse` hands back the body. */
  function HandleResponse(status: int, data: Value): Value
  {
    data
  }

  /** `handleError`: what a failed request throws, and whether it signs the
      user out. Reading `message` from a null or undefined body is itself a
      TypeError. */
  function HandleError(e: Transport): (r: (Thrown, bool))
    ensures r.0.ValidationErrors? <==> e.Responded? && e.status == 422
    ensures r.0.ValidationErrors? ==> r.0.body == e.data
    ensures r.1 <==> e.Responded? && e.status == 401
    ensures e.Responded? && e.status != 422 && !Nullish(e.data) ==>
      r.0 == Error(if Truthy(Field(e.data, "message")) then ToStr(Field(e.data, "message")) else e.statusText)
    ensures e.Responded? && e.status != 422 && Nullish(e.data) ==> r.0 == TypeError
    ensures e.NoResponse? ==> r.0 == Error(NoResponseMessage)
    ensures e.SetupFailure? ==> r.0 == Error(ProcessingMessage)
  {
    match e
    case Responded(status, data, statusText) =>
      var signOut := status == 401;
      if status == 422 then (ValidationErrors(data), signOut)
      else if Nullish(data) then (TypeError, signOut)
      else (Error(ToStr(Or(Field(data, "message"), Str(statusText)))), signOut)
    case NoResponse => (Error(NoResponseMessage), false)
    case SetupFailure => (Error(ProcessingMessage), false)
  }

  /** A wrapper call: axios resolves for a 2xx status and rejects otherwise,
      and a rejection goes through `handleError`. */
  function Settle(t: Transport): (r: ApiResult)
    ensures r.Ok? <==> t.Responded? && 200 <= t.status < 300
    ensures r.Ok? ==> r.value == t.data
    ensures r.Threw? ==> r.thrown == HandleError(t).0
  {
    if t.Responded? && 200 <= t.status < 300 then Ok(HandleResponse(t.status, t.data))
    else Threw(HandleError(t).0)
  }

  // ---------------------------------------------------------------------------
  // Lemmas

  /** Every request declares a JSON body unless the caller overrides it, and
      carries the bearer token exactly when there is one and the caller does
      not set its own Authorization header. */
  lemma RequestHeadersSpec(token: Option<string>, caller: Headers)
    ensures "Content-Type" in RequestHeaders(token, caller)
    ensures "Content-Type" !in caller ==> RequestHeaders(token, caller)["Content-Type"] == JsonContentType
    ensures "Authorization" !in caller ==>
      ("Authorization" in RequestHeaders(token, caller) <==> token.Some? && token.value != "")
    ensures "Authorization" !in caller && token.Some? && token.value != "" ==>
      RequestHeaders(token, caller)["Authorization"] == "Bearer " + token.value
  {
  }

  /** An endpoint with a non-empty id names it after a slash; without one the
      endpoint is the bare URL; and different ids give different endpoints. */
  lemma EndpointSpec(apiUrl: string, url: string, i: string, j: string)
    requires i != "" && j != ""
    ensures Endpoint(apiUrl, url, Some(i)) == apiUrl + url + "/" + i
    ensures Endpoint(apiUrl, url, None) == Endpoint(apiUrl, url, Some("")) == apiUrl + url
    ensures Endpoint(apiUrl, url, Some(i)) == Endpoint(apiUrl, url, Some(j)) ==> i == j
  {
    var base := apiUrl + url + "/";
    if Endpoint(apiUrl, url, Some(i)) == Endpoint(apiUrl, url, Some(j)) {
      assert (base + i)[|base|..] == i;
      assert (base + j)[|base|..] == j;
    }
  }
}
