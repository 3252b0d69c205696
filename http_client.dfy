/** The shared HTTP client of the frontend (axios.js): its default headers, the request
    interceptor that attaches the bearer token and the response interceptor that ends
    the session on a 401 and rewrites the message of errors without a response. */
module HttpClient {
  import opened Common

  const TokenKey := "token"
  const UserKey := "user"
  const AuthStateChanged := "authStateChanged"
  const LoginPath := "/login"
  const NetworkErrorMessage := "Network error - please check your connection"
  const ContentTypeHeader := "Content-Type"
  const AuthorizationHeader := "Authorization"
  const JsonContentType := "application/json"
  const BearerPrefix := "Bearer "

  /** The headers every request starts from. */
  const DefaultHeaders: map<string, string> := map[ContentTypeHeader := JsonContentType]

  /** One item of an `errors` array in an error body: a bare string, or an object
      that may carry a `message`. */
  datatype ErrorItem = ItemText(text: string) | ItemObject(message: Option<string>)

  /** A response body, by the parts the client reads: `null`, a string, or an object
      with the properties the login code looks at (None = absent). `user` is kept as
      its JSON text. */
  datatype Data =
    | NullData
    | TextData(text: string)
    | ObjectData(token: Option<string>, user: Option<string>, message: Option<string>,
                 error: Option<string>, errors: Option<seq<ErrorItem>>)

  /** A request body: none, a JSON object of string properties, or a FormData. */
  datatype Body = NoBody | JsonBody(fields: map<string, string>) | FormDataBody(parts: seq<(string, string)>)

  datatype Response = Response(status: nat, data: Data)

  /** What the network does with a request: answer it, or not (offline, timeout). */
  datatype Reply = Received(status: nat, data: Data) | NoReply

  /** A request as it leaves the client. */
  datatype SentRequest = SentRequest(url: string, headers: map<string, string>, data: Body)

  /** JavaScript truthiness of a string that may be undefined or null. */
  predicate Truthy(s: Option<string>)
  {
    s.Some? && s.value != []
  }

  /** axios' default status check. */
  predicate IsSuccess(status: nat)
  {
    200 <= status < 300
  }

  predicate IsUnauthorized(reply: Reply)
  {
    reply.Received? && reply.status == 401
  }

  /** axios' message for a response rejected by the status check. */
  function StatusErrorMessage(status: nat): string
  {
    "Request failed with status code " + NatToDecimal(status)
  }

  /** Local storage without the two session keys; every other key untouched. */
  function WithoutSession(storage: map<string, string>): (s: map<string, string>)
    ensures TokenKey !in s && UserKey !in s
    ensures forall k :: k != TokenKey && k != UserKey ==> (k in s <==> k in storage)
    ensures forall k :: k in s ==> s[k] == storage[k]
  {
    storage - {TokenKey, UserKey}
  }

  /** The request interceptor's effect on the headers, given the stored token. */
  function OutgoingHeaders(headers: map<string, string>, token: Option<string>, data: Body): (h: map<string, string>)
    ensures Truthy(token) ==> AuthorizationHeader in h && h[AuthorizationHeader] == BearerPrefix + token.value
    ensures !Truthy(token) ==> (AuthorizationHeader in h <==> AuthorizationHeader in headers)
    ensures data.FormDataBody? ==> ContentTypeHeader !in h
    ensures !data.FormDataBody? ==> (ContentTypeHeader in h <==> ContentTypeHeader in headers)
    ensures forall k :: k != AuthorizationHeader && k in h ==> k in headers && h[k] == headers[k]
    ensures forall k :: k != AuthorizationHeader && k != ContentTypeHeader ==> (k in h <==> k in headers)
    ensures !Truthy(token) ==> forall k :: k in h ==> k in headers && h[k] == headers[k]
  {
    var withAuth := if Truthy(token) then headers[AuthorizationHeader := BearerPrefix + token.value] else headers;
    if data.FormDataBody? then withAuth - {ContentTypeHeader} else withAuth
  }

  /** How the server reads the token back out of the Authorization header. */
  function BearerToken(headers: map<string, string>): (t: Option<string>)
    ensures t.Some? ==> AuthorizationHeader in headers && headers[AuthorizationHeader] == BearerPrefix + t.value
  {
    if AuthorizationHeader in headers && StartsWith(headers[AuthorizationHeader], BearerPrefix)
    then
      var v := headers[AuthorizationHeader];
      assert v == v[..|BearerPrefix|] + v[|BearerPrefix|..];
      Some(v[|BearerPrefix|..])
    else None
  }

  /** The header carries exactly the stored token. */
  lemma BearerTokenRoundTrip(headers: map<string, string>, token: Option<string>, data: Body)
    requires Truthy(token)
    ensures BearerToken(OutgoingHeaders(headers, token, data)) == token
  {
    var v := BearerPrefix + token.value;
    assert v[..|BearerPrefix|] == BearerPrefix && v[|BearerPrefix|..] == token.value;
  }

  /** Without a token the request still leaves, with no Authorization header. */
  lemma NoTokenNoAuthorization(token: Option<string>, data: Body)
    requires !Truthy(token)
    ensures AuthorizationHeader !in OutgoingHeaders(DefaultHeaders, token, data)
  {
  }

  /** A non-FormData body keeps the default JSON content type, token or not. */
  lemma OtherBodiesStayJson(token: Option<string>, data: Body)
    requires !data.FormDataBody?
    ensures var h := OutgoingHeaders(DefaultHeaders, token, data);
      ContentTypeHeader in h && h[ContentTypeHeader] == JsonContentType
  {
  }

  /** The window the frontend runs in: local storage, dispatched window events,
      the current location, and the requests that left it. */
  class Browser {
    var storage: map<string, string>
    var dispatched: seq<string>
    var location: string
    var sent: seq<SentRequest>

    constructor (storage: map<string, string>, location: string)
      ensures this.storage == storage && this.location == location && dispatched == [] && sent == []
    {
      this.storage := storage;
      this.location := location;
      dispatched := [];
      sent := [];
    }

    /** localStorage.getItem */
    function Item(key: string): (v: Option<string>)
      reads this
      ensures v.Some? <==> key in storage
      ensures v.Some? ==> v.value == storage[key]
    {
      if key in storage then Some(storage[key]) else None
    }
  }

  /** The config object the request interceptor receives and changes in place. */
  class RequestConfig {
    const url: string
    var headers: map<string, string>
    const data: Body

    constructor (url: string, data: Body)
      ensures this.url == url && this.data == data && headers == DefaultHeaders
    {
      this.url := url;
      this.data := data;
      headers := DefaultHeaders;
    }
  }

  /** The request interceptor. */
  method InterceptRequest(config: RequestConfig, browser: Browser)
    modifies config`headers
    ensures config.headers == OutgoingHeaders(old(config.headers), browser.Item(TokenKey), config.data)
  {
    var token := browser.Item(TokenKey);
    if token.Some? && token.value != [] {
      config.headers := config.headers[AuthorizationHeader := BearerPrefix + token.value];
    }
    if config.data.FormDataBody? {
      config.headers := config.headers - {ContentTypeHeader};
    }
  }

  /** An AxiosError: its message can be rewritten, its response cannot. */
  class AxiosError {
    var message: string
    const response: Option<Response>

    constructor (message: string, response: Option<Response>)
      ensures this.message == message && this.response == response
    {
      this.message := message;
      this.response := response;
    }
  }

  /** The rejection handler of the response interceptor; the error is rejected again afterwards. */
  method InterceptResponseError(error: AxiosError, browser: Browser)
    modifies error`message, browser`storage, browser`dispatched, browser`location
    ensures error.response.Some? && error.response.value.status == 401 ==>
      && browser.storage == WithoutSession(old(browser.storage))
      && browser.dispatched == old(browser.dispatched) + [AuthStateChanged]
      && browser.location == LoginPath
    ensures !(error.response.Some? && error.response.value.status == 401) ==>
      && browser.storage == old(browser.storage)
      && browser.dispatched == old(browser.dispatched)
      && browser.location == old(browser.location)
    ensures error.response.None? ==> error.message == NetworkErrorMessage
    ensures error.response.Some? ==> error.message == old(error.message)
  {
    if error.response.Some? && error.response.value.status == 401 {
      browser.storage := browser.storage - {TokenKey};
      browser.storage := browser.storage - {UserKey};
      browser.dispatched := browser.dispatched + [AuthStateChanged];
      browser.location := LoginPath;
    }
    if error.response.None? {
      error.message := NetworkErrorMessage;
    }
  }

  /** The outcome of a request: a resolved response or a rejected error. */
  datatype Outcome = Resolved(response: Response) | Rejected(error: AxiosError)

  /** Storage after the client has handled a reply. */
  function StorageAfterReply(storage: map<string, string>, reply: Reply): map<string, string>
  {
    if IsUnauthorized(reply) then WithoutSession(storage) else storage
  }

  /** Only a 401 touches storage, and then only the two session keys. */
  lemma StorageAfterReplyProperties(storage: map<string, string>, reply: Reply)
    ensures !IsUnauthorized(reply) ==> StorageAfterReply(storage, reply) == storage
    ensures IsUnauthorized(reply) ==>
      && TokenKey !in StorageAfterReply(storage, reply) && UserKey !in StorageAfterReply(storage, reply)
      && StorageAfterReply(storage, reply) == storage - {TokenKey, UserKey}
  {
  }

  /** The error a reply that does not resolve is rejected with, after the interceptor. */
  function RejectionMessage(reply: Reply): string
  {
    match reply
    case NoReply => NetworkErrorMessage
    case Received(status, _) => StatusErrorMessage(status)
  }

  function ResponseOf(reply: Reply): (r: Option<Response>)
    ensures r.Some? <==> reply.Received?
  {
    match reply
    case NoReply => None
    case Received(status, data) => Some(Response(status, data))
  }

  /** A request through the client: the request interceptor, the network, axios' status
      check and the response interceptor. */
  method Send(browser: Browser, url: string, data: Body, reply: Reply) returns (outcome: Outcome)
    modifies browser
    ensures browser.sent == old(browser.sent) +
      [SentRequest(url, OutgoingHeaders(DefaultHeaders, old(browser.Item(TokenKey)), data), data)]
    ensures reply.Received? && IsSuccess(reply.status) ==> outcome == Resolved(Response(reply.status, reply.data))
    ensures !(reply.Received? && IsSuccess(reply.status)) ==>
      && outcome.Rejected? && fresh(outcome.error)
      && outcome.error.response == ResponseOf(reply)
      && outcome.error.message == RejectionMessage(reply)
    ensures browser.storage == StorageAfterReply(old(browser.storage), reply)
    ensures browser.dispatched == old(browser.dispatched) + (if IsUnauthorized(reply) then [AuthStateChanged] else [])
    ensures browser.location == (if IsUnauthorized(reply) then LoginPath else old(browser.location))
  {
    var config := new RequestConfig(url, data);
    InterceptRequest(config, browser);
    browser.sent := browser.sent + [SentRequest(config.url, config.headers, config.data)];
    match reply {
      case Received(status, body) =>
        if IsSuccess(status) {
          return Resolved(Response(status, body));
        }
        var error := new AxiosError(StatusErrorMessage(status), Some(Response(status, body)));
        InterceptResponseError(error, browser);
        outcome := Rejected(error);
      case NoReply =>
        var error := new AxiosError("Network Error", None);
        InterceptResponseError(error, browser);
        outcome := Rejected(error);
    }
  }
}
