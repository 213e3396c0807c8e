/** The REST client of src/api/apiClient.ts without the network: which request
    `apiRequest` hands to `fetch`, and what a `fetch` result settles to. The
    result of `fetch` is an input; the JSON text of bodies is not modelled,
    a body is either a parsed envelope or unparsable. */
module ApiClient {
  import opened Common
  import opened Types
  import opened BrowserStorage

  const DefaultBaseUrl: string := "https://api.hotelassistant.com"
  const AuthTokenKey: string := "authToken"

  /** `import.meta.env.VITE_API_BASE_URL || 'https://api.hotelassistant.com'` */
  function ConfiguredBaseUrl(env: Option<string>): (url: string)
    ensures env.Some? && env.value != "" ==> url == env.value
    ensures env.None? || env.value == "" ==> url == DefaultBaseUrl
  {
    OrElse(env, DefaultBaseUrl)
  }

  datatype HttpMethod = GET | POST | PUT | DELETE

  /** The `options` a caller passes to `apiRequest`; `body` holds the data
      that `JSON.stringify` serializes. */
  datatype RequestInit<+D> = RequestInit(
    verb: Option<HttpMethod>,
    body: Option<D>,
    headers: map<string, string>)

  /** An endpoint together with the options for it. */
  datatype Call<+D> = Call(endpoint: string, init: RequestInit<D>)

  /** What `fetch(url, config)` is given. */
  datatype Request<+D> = Request(
    url: string,
    verb: Option<HttpMethod>,
    body: Option<D>,
    headers: map<string, string>)

  /** A stored token is used only when it is a non-empty (truthy) string. */
  predicate HasToken(token: Option<string>)
  {
    token.Some? && token.value != ""
  }

  /** `apiRequest`'s request construction: the URL is the base followed by
      the endpoint; the default headers are `Content-Type: application/json`
      and, when a token is stored, `Authorization: Bearer <token>` (section
      2.1 of RFC 6750); the caller's headers are spread last and win. */
  method PrepareRequest<D>(baseUrl: string, storage: LocalStorage, call: Call<D>) returns (request: Request<D>)
    ensures request.url == baseUrl + call.endpoint
    ensures request.verb == call.init.verb && request.body == call.init.body
    ensures request.headers.Keys
         == {"Content-Type"} + call.init.headers.Keys
          + (if HasToken(storage.GetItem(AuthTokenKey)) then {"Authorization"} else {})
    ensures forall k :: k in call.init.headers ==> request.headers[k] == call.init.headers[k]
    ensures "Content-Type" !in call.init.headers ==> request.headers["Content-Type"] == "application/json"
    ensures "Authorization" !in call.init.headers ==>
              ("Authorization" in request.headers <==> HasToken(storage.GetItem(AuthTokenKey)))
    ensures "Authorization" !in call.init.headers && HasToken(storage.GetItem(AuthTokenKey)) ==>
              request.headers["Authorization"] == "Bearer " + storage.GetItem(AuthTokenKey).value
  {
    var url := baseUrl + call.endpoint;
    var defaultHeaders := map["Content-Type" := "application/json"];
    var token := storage.GetItem(AuthTokenKey);
    if token.Some? && token.value != "" {
      defaultHeaders := defaultHeaders["Authorization" := "Bearer " + token.value];
    }
    request := Request(url, call.init.verb, call.init.body, defaultHeaders + call.init.headers);
  }

  /** A body as `response.json()` reads it. */
  datatype Body<+T> = Json(envelope: ApiResponse<T>) | Unparsable(reason: string)

  datatype Response<+T> = Response(status: nat, body: Body<T>)

  /** `response.ok`: the status is in the range 200 to 299. */
  predicate IsOk(status: nat)
  {
    200 <= status <= 299
  }

  /** The message of a failed response: the parsed body's `message`, or
      `API error: <status>` when there is none or the body does not parse. */
  function ErrorMessage<T>(response: Response<T>): string
  {
    var parsed := if response.body.Json? then response.body.envelope.message else None;
    OrElse(parsed, "API error: " + NatToString(response.status))
  }

  /** `handleResponse`: a non-OK status rejects with `ErrorMessage`; an OK body
      is returned unvalidated; an OK body that does not parse rejects with the
      parser's error. */
  function HandleResponse<T>(response: Response<T>): (r: ApiOutcome<T>)
    ensures r.Resolved? <==> IsOk(response.status) && response.body.Json?
    ensures r.Resolved? ==> r.value == response.body.envelope
    ensures !IsOk(response.status) ==> r.Rejected? && r.err.Some?
    ensures !IsOk(response.status) && response.body.Json? && OrElse(response.body.envelope.message, "") != "" ==>
              r.err.value == response.body.envelope.message.value
    ensures !IsOk(response.status) && (response.body.Unparsable? || OrElse(response.body.envelope.message, "") == "") ==>
              r.err.value == "API error: " + NatToString(response.status)
    ensures IsOk(response.status) && response.body.Unparsable? ==> r == Rejected(Some(response.body.reason))
  {
    if !IsOk(response.status) then Rejected(Some(ErrorMessage(response)))
    else if response.body.Unparsable? then Rejected(Some(response.body.reason))
    else Resolved(response.body.envelope)
  }

  /** What `fetch` settles to: a response, or a transport failure. */
  datatype FetchResult<+T> = Received(response: Response<T>) | NetworkError(err: Option<string>)

  /** `apiRequest`'s `try`: a transport failure is re-raised as it is, a
      response goes through `HandleResponse`. */
  function Settle<T>(fetched: FetchResult<T>): (r: ApiOutcome<T>)
    ensures fetched.NetworkError? ==> r == Rejected(fetched.err)
    ensures fetched.Received? ==> r == HandleResponse(fetched.response)
  {
    match fetched
    case NetworkError(e) => Rejected(e)
    case Received(response) => HandleResponse(response)
  }

  /** `apiRequest`: the request handed to `fetch`, and the outcome the
      caller sees for what `fetch` settled to. */
  method ApiRequest<D, T>(baseUrl: string, storage: LocalStorage, call: Call<D>, fetched: FetchResult<T>)
    returns (request: Request<D>, outcome: ApiOutcome<T>)
    ensures request.url == baseUrl + call.endpoint
    ensures request.verb == call.init.verb && request.body == call.init.body
    ensures request.headers.Keys
         == {"Content-Type"} + call.init.headers.Keys
          + (if HasToken(storage.GetItem(AuthTokenKey)) then {"Authorization"} else {})
    ensures forall k :: k in call.init.headers ==> request.headers[k] == call.init.headers[k]
    ensures "Content-Type" !in call.init.headers ==> request.headers["Content-Type"] == "application/json"
    ensures "Authorization" !in call.init.headers ==>
              ("Authorization" in request.headers <==> HasToken(storage.GetItem(AuthTokenKey)))
    ensures "Authorization" !in call.init.headers && HasToken(storage.GetItem(AuthTokenKey)) ==>
              request.headers["Authorization"] == "Bearer " + storage.GetItem(AuthTokenKey).value
    ensures outcome == Settle(fetched)
  {
    request := PrepareRequest(baseUrl, storage, call);
    outcome := Settle(fetched);
  }

  function Get<D>(endpoint: string): Call<D>
  {
    Call(endpoint, RequestInit(Some(GET), None, map[]))
  }

  function Post<D>(endpoint: string, data: D): Call<D>
  {
    Call(endpoint, RequestInit(Some(POST), Some(data), map[]))
  }

  function Put<D>(endpoint: string, data: D): Call<D>
  {
    Call(endpoint, RequestInit(Some(PUT), Some(data), map[]))
  }

  function Del<D>(endpoint: string): Call<D>
  {
    Call(endpoint, RequestInit(Some(DELETE), None, map[]))
  }

  /** The four wrappers fix the method; `post` and `put` send the data as the
      body, `get` and `del` send none; none adds headers of its own, so the
      prepared request always asks for JSON. */
  lemma WrappersFixMethodAndBody<D>(endpoint: string, data: D)
    ensures Get<D>(endpoint).init == RequestInit(Some(GET), None, map[])
    ensures Post(endpoint, data).init == RequestInit(Some(POST), Some(data), map[])
    ensures Put(endpoint, data).init == RequestInit(Some(PUT), Some(data), map[])
    ensures Del<D>(endpoint).init == RequestInit(Some(DELETE), None, map[])
    ensures forall c :: c in [Get<D>(endpoint), Post(endpoint, data), Put(endpoint, data), Del<D>(endpoint)] ==>
              c.endpoint == endpoint && "Content-Type" !in c.init.headers && "Authorization" !in c.init.headers
  {
  }

  /** A server error with an unparsable body reports `API error: 500`. */
  lemma ServerErrorWithoutBody(reason: string)
    ensures HandleResponse<()>(Response(500, Unparsable(reason))) == Rejected(Some("API error: 500"))
  {
    assert NatToString(500) == "500" by {
      assert NatToString(5) == "5";
      assert NatToString(50) == "50";
    }
    assert ErrorMessage<()>(Response(500, Unparsable(reason))) == "API error: 500";
  }
}
