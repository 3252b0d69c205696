/** The frontend's authService: logging in through the shared HTTP client, turning a
    failed login into one error message, logging out, and reading the session back. */
module AuthService {
  import opened Common
  import opened HttpClient

  const LoginUrl := "/api/auth/login"
  const LoginFailed := "Login failed"
  /** What String() and Array.prototype.join make of a plain object. */
  const ObjectText := "[object Object]"
  /** What localStorage.setItem stores for `undefined`. */
  const UndefinedText := "undefined"
  /** V8's TypeError message when a successful reply has a `null` body. */
  const NullBodyMessage := "Cannot destructure property 'token' of 'response.data' as it is null."

  /** The login form's values; None is `undefined`. */
  datatype Credentials = Credentials(email: Option<string>, username: Option<string>, password: Option<string>)

  /** The Error login throws: a message, and the response it came from, if any. */
  datatype LoginError = LoginError(message: string, response: Option<Response>)

  /** The JSON login payload: `email` falls back to `username` when `email` is falsy;
      a property that is undefined is left out by JSON.stringify. */
  function LoginPayload(c: Credentials): (b: Body)
    ensures b.JsonBody?
    ensures Truthy(c.email) ==> "email" in b.fields && b.fields["email"] == c.email.value
    ensures !Truthy(c.email) ==> ("email" in b.fields <==> c.username.Some?)
    ensures !Truthy(c.email) && c.username.Some? ==> b.fields["email"] == c.username.value
    ensures ("password" in b.fields <==> c.password.Some?) && (c.password.Some? ==> b.fields["password"] == c.password.value)
    ensures forall k :: k in b.fields ==> k == "email" || k == "password"
  {
    var email := if Truthy(c.email) then c.email else c.username;
    var withEmail: map<string, string> := if email.Some? then map["email" := email.value] else map[];
    JsonBody(if c.password.Some? then withEmail["password" := c.password.value] else withEmail)
  }

  /** `e.message || e`, as join renders it. */
  function ErrorItemText(e: ErrorItem): (t: string)
    ensures e.ItemText? ==> t == e.text
    ensures e.ItemObject? && Truthy(e.message) ==> t == e.message.value
    ensures e.ItemObject? && !Truthy(e.message) ==> t == ObjectText
    ensures t == [] <==> e == ItemText([])
  {
    match e
    case ItemText(s) => s
    case ItemObject(m) => if Truthy(m) then m.value else ObjectText
  }

  /** The `errors` items rendered and joined with ", ". */
  function JoinErrors(items: seq<ErrorItem>): (r: string)
    ensures |items| == 1 ==> r == ErrorItemText(items[0])
    ensures items == [] ==> r == []
  {
    if items == [] then []
    else if |items| == 1 then ErrorItemText(items[0])
    else JoinErrors(items[..|items| - 1]) + ", " + ErrorItemText(items[|items| - 1])
  }

  /** Two or more items are always joined with a ", " between them, so the text is never empty. */
  lemma JoinErrorsSeparated(items: seq<ErrorItem>)
    requires |items| >= 2
    ensures |JoinErrors(items)| >= 2
  {
  }

  /** The definition's own step: the last item is appended after ", ". */
  lemma JoinErrorsSnoc(init: seq<ErrorItem>, last: ErrorItem)
    requires init != []
    ensures JoinErrors(init + [last]) == JoinErrors(init) + ", " + ErrorItemText(last)
  {
    var xs := init + [last];
    assert xs[..|xs| - 1] == init;
  }

  /** join reads the items left to right: the first item's text, then ", " and the
      join of the rest. */
  lemma {:induction false} JoinErrorsCons(x: ErrorItem, ys: seq<ErrorItem>)
    requires ys != []
    ensures JoinErrors([x] + ys) == ErrorItemText(x) + ", " + JoinErrors(ys)
    decreases |ys|
  {
    var init, last := ys[..|ys| - 1], ys[|ys| - 1];
    assert [x] + ys == ([x] + init) + [last] by {
      assert ys == init + [last];
    }
    JoinErrorsSnoc([x] + init, last);
    if init == [] {
      assert [x] + init == [x];
      assert ys == [last];
    } else {
      var head, rest, tail := ErrorItemText(x), JoinErrors(init), ErrorItemText(last);
      JoinErrorsCons(x, init);
      JoinErrorsSnoc(init, last);
      assert init + [last] == ys;
      assert (head + ", " + rest) + ", " + tail == head + ", " + (rest + ", " + tail);
    }
  }

  /** The message chosen for a failed login, from the error's response body (None when
      there is no response) and the error's own message. */
  function LoginErrorMessage(data: Option<Data>, errorMessage: string): string
  {
    if data.Some? && data.value.TextData? && data.value.text != [] then data.value.text
    else if data.Some? && data.value.ObjectData? then
      var body := data.value;
      if Truthy(body.message) then body.message.value
      else if Truthy(body.error) then body.error.value
      else if body.errors.Some? then JoinErrors(body.errors.value)
      else LoginFailed
    else if errorMessage != [] then errorMessage
    else LoginFailed
  }

  /** The body wins over the error's own message whenever it says anything: a non-empty
      string body, or an object body with a message, an error or an errors array. */
  lemma BodyMessageWins(data: Data, errorMessage: string)
    ensures data.TextData? && data.text != [] ==> LoginErrorMessage(Some(data), errorMessage) == data.text
    ensures data.ObjectData? ==> LoginErrorMessage(Some(data), errorMessage) == LoginErrorMessage(Some(data), "")
    ensures data.ObjectData? && Truthy(data.message) ==> LoginErrorMessage(Some(data), errorMessage) == data.message.value
    ensures data.ObjectData? && !Truthy(data.message) && Truthy(data.error) ==>
      LoginErrorMessage(Some(data), errorMessage) == data.error.value
    ensures data.ObjectData? && !Truthy(data.message) && !Truthy(data.error) && data.errors.Some? ==>
      LoginErrorMessage(Some(data), errorMessage) == JoinErrors(data.errors.value)
  {
  }

  /** A falsy body (none, null or the empty string) leaves the choice to the error's own
      message when that is non-empty. */
  lemma FalsyBodyUsesErrorMessage(data: Option<Data>, errorMessage: string)
    requires data.None? || data == Some(NullData) || data == Some(TextData([]))
    requires errorMessage != []
    ensures LoginErrorMessage(data, errorMessage) == errorMessage
  {
  }

  /** "Login failed" is the fallback for an object body with nothing to say, and for a
      body that is falsy when the error has no message either. */
  lemma LoginFailedFallback(data: Option<Data>, errorMessage: string)
    requires || (data.Some? && data.value.ObjectData? && !Truthy(data.value.message)
                 && !Truthy(data.value.error) && data.value.errors.None?)
             || ((data.None? || data == Some(NullData) || data == Some(TextData([]))) && errorMessage == [])
    ensures LoginErrorMessage(data, errorMessage) == LoginFailed
  {
  }

  /** The thrown message is empty exactly when the body's `errors` array is empty or holds
      a single empty string. */
  lemma {:induction false} EmptyLoginErrorMessage(data: Option<Data>, errorMessage: string)
    ensures LoginErrorMessage(data, errorMessage) == [] <==>
      && data.Some? && data.value.ObjectData?
      && !Truthy(data.value.message) && !Truthy(data.value.error) && data.value.errors.Some?
      && (data.value.errors.value == [] || data.value.errors.value == [ItemText([])])
  {
    if data.Some? && data.value.ObjectData? && !Truthy(data.value.message) && !Truthy(data.value.error)
       && data.value.errors.Some? {
      var items := data.value.errors.value;
      if |items| == 1 {
        assert JoinErrors(items) == [] <==> items[0] == ItemText([]);
        assert items == [items[0]];
      } else if |items| >= 2 {
        JoinErrorsSeparated(items);
      }
    }
  }

  /** What setItem stores for the token: the string itself, or "undefined" when absent. */
  function StoredToken(data: Data): string
  {
    if data.ObjectData? && data.token.Some? then data.token.value else UndefinedText
  }

  /** What setItem stores for JSON.stringify(user): the JSON text, or "undefined" when absent. */
  function StoredUser(data: Data): string
  {
    if data.ObjectData? && data.user.Some? then data.user.value else UndefinedText
  }

  /** Whether the reply resolves and its body can be destructured. */
  predicate LoginSucceeds(reply: Reply)
  {
    reply.Received? && IsSuccess(reply.status) && !reply.data.NullData?
  }

  /** What login resolves or rejects with. */
  function LoginResult(reply: Reply): (r: Result<Data, LoginError>)
    ensures r.Ok? <==> LoginSucceeds(reply)
    ensures r.Ok? ==> r.value == reply.data
    ensures r.Err? && reply.Received? && !IsSuccess(reply.status) ==> r.error.response == Some(Response(reply.status, reply.data))
    ensures r.Err? && (reply.NoReply? || IsSuccess(reply.status)) ==> r.error.response.None?
  {
    match reply
    case NoReply => Err(LoginError(LoginErrorMessage(None, NetworkErrorMessage), None))
    case Received(status, data) =>
      if IsSuccess(status) then
        if data.NullData? then Err(LoginError(LoginErrorMessage(None, NullBodyMessage), None))
        else Ok(data)
      else Err(LoginError(LoginErrorMessage(Some(data), StatusErrorMessage(status)), Some(Response(status, data))))
  }

  /** Local storage after login. */
  function StorageAfterLogin(storage: map<string, string>, reply: Reply): map<string, string>
  {
    if LoginSucceeds(reply) then storage[TokenKey := StoredToken(reply.data)][UserKey := StoredUser(reply.data)]
    else StorageAfterReply(storage, reply)
  }

  /** Only a successful login writes storage, and then only the two session keys; a 401
      clears them, and every other failure leaves storage as it was. */
  lemma StorageAfterLoginProperties(storage: map<string, string>, reply: Reply)
    ensures var s := StorageAfterLogin(storage, reply);
      && (LoginSucceeds(reply) ==>
            && TokenKey in s && s[TokenKey] == StoredToken(reply.data)
            && UserKey in s && s[UserKey] == StoredUser(reply.data)
            && forall k :: k != TokenKey && k != UserKey ==> (k in s <==> k in storage))
      && (IsUnauthorized(reply) ==> s == WithoutSession(storage))
      && (!LoginSucceeds(reply) && !IsUnauthorized(reply) ==> s == storage)
  {
  }

  /** A server message never leaks through a network failure: without a reply the
      login error carries the fixed network-error text. */
  lemma OfflineLoginMessage()
    ensures LoginResult(NoReply) == Err(LoginError(NetworkErrorMessage, None))
  {
  }

  /** login */
  method Login(credentials: Credentials, browser: Browser, reply: Reply) returns (r: Result<Data, LoginError>)
    modifies browser
    ensures browser.sent == old(browser.sent) +
      [SentRequest(LoginUrl, OutgoingHeaders(DefaultHeaders, old(browser.Item(TokenKey)), LoginPayload(credentials)),
                   LoginPayload(credentials))]
    ensures r == LoginResult(reply)
    ensures browser.storage == StorageAfterLogin(old(browser.storage), reply)
    ensures browser.dispatched == old(browser.dispatched) + (if IsUnauthorized(reply) then [AuthStateChanged] else [])
    ensures browser.location == (if IsUnauthorized(reply) then LoginPath else old(browser.location))
  {
    var outcome := Send(browser, LoginUrl, LoginPayload(credentials), reply);
    match outcome {
      case Resolved(response) =>
        if response.data.NullData? {
          return Err(LoginError(LoginErrorMessage(None, NullBodyMessage), None));
        }
        browser.storage := browser.storage[TokenKey := StoredToken(response.data)];
        browser.storage := browser.storage[UserKey := StoredUser(response.data)];
        r := Ok(response.data);
      case Rejected(error) =>
        var errorData := if error.response.Some? then Some(error.response.value.data) else None;
        r := Err(LoginError(LoginErrorMessage(errorData, error.message), error.response));
    }
  }

  /** logout */
  method Logout(browser: Browser)
    modifies browser`storage
    ensures browser.storage == WithoutSession(old(browser.storage))
  {
    browser.storage := browser.storage - {TokenKey};
    browser.storage := browser.storage - {UserKey};
  }

  /** isAuthenticated: a non-empty token is stored. */
  predicate IsAuthenticated(storage: map<string, string>)
  {
    TokenKey in storage && storage[TokenKey] != []
  }

  /** getCurrentUser, as the stored JSON text (None for a missing or empty entry). */
  function CurrentUser(storage: map<string, string>): (u: Option<string>)
    ensures u.None? <==> UserKey !in storage || storage[UserKey] == []
    ensures u.Some? ==> u.value == storage[UserKey]
  {
    if UserKey in storage && storage[UserKey] != [] then Some(storage[UserKey]) else None
  }

  /** Logging out twice is logging out once, and afterwards nobody is signed in. */
  lemma LogoutEndsSession(storage: map<string, string>)
    ensures WithoutSession(WithoutSession(storage)) == WithoutSession(storage)
    ensures !IsAuthenticated(WithoutSession(storage)) && CurrentUser(WithoutSession(storage)).None?
  {
  }

  /** A successful login signs in with the returned token and user. */
  lemma LoginSignsIn(storage: map<string, string>, reply: Reply)
    requires LoginSucceeds(reply) && reply.data.ObjectData? && Truthy(reply.data.token) && Truthy(reply.data.user)
    ensures IsAuthenticated(StorageAfterLogin(storage, reply))
    ensures CurrentUser(StorageAfterLogin(storage, reply)) == reply.data.user
    ensures BearerToken(OutgoingHeaders(DefaultHeaders, Some(StorageAfterLogin(storage, reply)[TokenKey]), NoBody))
            == reply.data.token
  {
    BearerTokenRoundTrip(DefaultHeaders, reply.data.token, NoBody);
  }

  /** A successful reply without a token still counts as signed in afterwards:
      the stored text is "undefined", which is not empty. */
  lemma TokenlessLoginCountsAsSignedIn(storage: map<string, string>, reply: Reply)
    requires LoginSucceeds(reply) && (reply.data.TextData? || reply.data.token.None?)
    ensures IsAuthenticated(StorageAfterLogin(storage, reply))
    ensures StorageAfterLogin(storage, reply)[TokenKey] == UndefinedText
  {
  }

  /** The token and the user are stored together or not at all. */
  predicate SessionConsistent(storage: map<string, string>)
  {
    TokenKey in storage <==> UserKey in storage
  }

  /** Login, logout and the 401 handling all keep token and user stored together. */
  lemma SessionStaysConsistent(storage: map<string, string>, reply: Reply)
    requires SessionConsistent(storage)
    ensures SessionConsistent(StorageAfterLogin(storage, reply))
    ensures SessionConsistent(StorageAfterReply(storage, reply))
    ensures SessionConsistent(WithoutSession(storage))
  {
  }

  /** A 401 on login itself ends whatever session was stored. */
  lemma UnauthorizedLoginEndsSession(storage: map<string, string>, data: Data)
    ensures !IsAuthenticated(StorageAfterLogin(storage, Received(401, data)))
    ensures CurrentUser(StorageAfterLogin(storage, Received(401, data))).None?
  {
  }
}
