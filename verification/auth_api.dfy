/**
  The account functions of src/services/api.js: `login`, `register`,
  `logout`, `checkAuthStatus` and the current-user accessors, with the session
  transitions they cause.
 */
module AuthApi {
  import opened Text
  import opened Values
  import opened Config
  import opened Session
  import opened HttpClient
  import opened LoginData
  import opened ApiCommon

  const LoginSuccessMessage := "登录成功"
  const StatusCheckFailedMessage := "检查登录状态失败"

  /** The profile fields `login` keeps from the backend's user object. */
  const ProfileFields := ["id", "userId", "username", "email", "avatar", "signature",
                          "lastLogin", "createdAt", "roles", "isVerified", "isActive", "isOnline"]

  /** The profile `login` persists: exactly the kept fields, read from `user`. */
  function Profile(user: Value): (v: Value)
    ensures v.Obj? && v.fields.Keys == set k | k in ProfileFields
    ensures forall k :: k in ProfileFields ==> v.fields[k] == Get(user, k)
  {
    Obj(map k | k in ProfileFields :: Get(user, k))
  }

  /** What `login` does with the wrapper's reply: the store it leaves and its result. */
  datatype Settled = Settled(store: Store, result: Result<Value>)

  /**
    The reply handling of `login` once the reply has a truthy `token`: the token
    is stored, then the profile of a truthy `user`, then, for an array
    `bookmarks`, the flattened aggregate (a null group or bookmark throws
    midway, after the earlier writes).
   */
  function TokenOutcome(store: Store, response: Value, encode: Value -> string): (s: Settled)
    requires Truthy(Get(response, "token"))
    ensures Get(response, "bookmarks").Arr? && Crashes(Get(response, "bookmarks").items) ==>
      s.result == Err(TypeError)
    ensures !(Get(response, "bookmarks").Arr? && Crashes(Get(response, "bookmarks").items)) ==>
      && s.result.Ok?
      && Get(s.result.value, "success") == Bool(true)
      && Get(s.result.value, "message") == Str(LoginSuccessMessage)
      && Get(s.result.value, "token") == Get(response, "token")
      && Get(s.result.value, "user") == Get(response, "user")
      && Get(s.result.value, "bookmarks") == Get(response, "bookmarks")
  {
    var bookmarks := Get(response, "bookmarks");
    if bookmarks.Arr? && Crashes(bookmarks.items) then Settled(ProfileWritten(store, response, encode), Err(TypeError))
    else Settled(AggregateWritten(store, response, encode),
                 Ok(LoginSuccess(Get(response, "token"), Get(response, "user"), bookmarks)))
  }

  /** The envelope `login` returns once the token is stored. */
  function LoginSuccess(token: Value, user: Value, bookmarks: Value): (v: Value)
    ensures Get(v, "success") == Bool(true) && Get(v, "message") == Str(LoginSuccessMessage)
    ensures Get(v, "token") == token && Get(v, "user") == user && Get(v, "bookmarks") == bookmarks
  {
    Obj(map["success" := Bool(true), "message" := Str(LoginSuccessMessage),
            "token" := token, "user" := user, "bookmarks" := bookmarks])
  }

  /** The profile `login` keeps, null without a truthy user. */
  function KeptProfile(response: Value): Value {
    if Truthy(Get(response, "user")) then Profile(Get(response, "user")) else Null
  }

  /** The store after the token and the profile are written. */
  function ProfileWritten(store: Store, response: Value, encode: Value -> string): Store {
    var s1 := SetAuthToken(store, Get(response, "token"));
    if Truthy(Get(response, "user")) then s1[UserKey := encode(KeptProfile(response))] else s1
  }

  /** The store after the aggregate of an array of groups is written as well. */
  function AggregateWritten(store: Store, response: Value, encode: Value -> string): Store {
    var s2 := ProfileWritten(store, response, encode);
    var bookmarks := Get(response, "bookmarks");
    if bookmarks.Arr? then s2[UserDataKey := encode(UserData(KeptProfile(response), bookmarks.items))] else s2
  }

  /** What a login with a token writes: the token, the profile of a truthy
      user, and the aggregate of an array of groups unless it throws first; no
      other key changes. */
  lemma TokenOutcomeWrites(store: Store, response: Value, encode: Value -> string)
    requires Truthy(Get(response, "token"))
    ensures
      var s := TokenOutcome(store, response, encode).store;
      && StateOf(s) == StateOf(SetAuthToken(store, Get(response, "token")))
      && TokenKey in s && s[TokenKey] == ToText(Get(response, "token"))
      && (Truthy(Get(response, "user")) ==> UserKey in s && s[UserKey] == encode(Profile(Get(response, "user"))))
      && (!Truthy(Get(response, "user")) ==>
            (UserKey in s <==> UserKey in store) && (UserKey in s ==> s[UserKey] == store[UserKey]))
  {
  }

  /** The aggregate is written only when the bookmarks are an array of groups
      that flattens without throwing; otherwise `userData` keeps its old value. */
  lemma TokenOutcomeAggregate(store: Store, response: Value, encode: Value -> string)
    requires Truthy(Get(response, "token"))
    ensures
      var s := TokenOutcome(store, response, encode).store;
      var user := Get(response, "user");
      var bookmarks := Get(response, "bookmarks");
      && (bookmarks.Arr? && !Crashes(bookmarks.items) ==>
            && UserDataKey in s
            && s[UserDataKey] == encode(UserData(if Truthy(user) then Profile(user) else Null, bookmarks.items)))
      && (!bookmarks.Arr? || Crashes(bookmarks.items) ==>
            (UserDataKey in s <==> UserDataKey in store) && (UserDataKey in s ==> s[UserDataKey] == store[UserDataKey]))
      && (forall k :: k != TokenKey && k != UserKey && k != UserDataKey ==>
            (k in s <==> k in store) && (k in s ==> s[k] == store[k]))
  {
  }

  /** The reply handling of `login`: with a truthy token as above; without one,
      a bare string becomes a failure and anything else is returned as is. */
  function LoginOutcome(store: Store, response: Value, encode: Value -> string): (s: Settled)
    ensures Nullish(response) ==> s == Settled(store, Err(TypeError))
    ensures Truthy(Get(response, "token")) ==> s == TokenOutcome(store, response, encode)
    ensures !Nullish(response) && !Truthy(Get(response, "token")) ==> s.store == store
    ensures !Nullish(response) && !Truthy(Get(response, "token")) && response.Str? ==>
      s.result == Ok(Obj(map["success" := Bool(false), "message" := response, "error" := response]))
    ensures !Nullish(response) && !Truthy(Get(response, "token")) && !response.Str? ==> s.result == Ok(response)
  {
    if Nullish(response) then Settled(store, Err(TypeError))
    else if Truthy(Get(response, "token")) then TokenOutcome(store, response, encode)
    else if response.Str? then
      Settled(store, Ok(Obj(map["success" := Bool(false), "message" := response, "error" := response])))
    else Settled(store, Ok(response))
  }

  /** `login(loginData)`: a POST of the credentials without the stored token. */
  function Login(cfg: EnvConfig, store: Store, loginData: Value, encode: Value -> string, t: Transport): (c: Call)
    ensures c.sent.Some?
    ensures c.sent.value == Prepare(ClientOf(cfg), store, Path(Endpoint.Login), Options("POST", map[], loginData, None, false))
    ensures c.store == LoginOutcome(store, Settle(c.sent.value.url, t), encode).store
    ensures c.result == LoginOutcome(store, Settle(c.sent.value.url, t), encode).result
  {
    var x := Dispatch(cfg, store, Path(Endpoint.Login), Options("POST", map[], loginData, None, false), t);
    var s := LoginOutcome(store, x.reply, encode);
    Call(Some(x.sent), s.store, s.result)
  }

  /** A reply with a non-empty string token authenticates the session with that
      token, and reports success unless a bookmark group or bookmark is null,
      in which case the promise rejects after the token is stored. */
  lemma LoginAuthenticates(store: Store, response: Value, encode: Value -> string, token: string)
    requires Get(response, "token") == Str(token) && token != ""
    ensures StateOf(LoginOutcome(store, response, encode).store) == Authenticated(token)
    ensures !(Get(response, "bookmarks").Arr? && Crashes(Get(response, "bookmarks").items)) ==>
      && LoginOutcome(store, response, encode).result.Ok?
      && Get(LoginOutcome(store, response, encode).result.value, "success") == Bool(true)
    ensures Get(response, "bookmarks").Arr? && Crashes(Get(response, "bookmarks").items) ==>
      LoginOutcome(store, response, encode).result == Err(TypeError)
  {
    SetAuthTokenTransition(store, Str(token));
    TokenOutcomeWrites(store, response, encode);
  }

  /** The wrapper never returns a bare string, so through `login` the
      string-to-failure branch is never taken: a reply without a token comes
      back exactly as the wrapper built it, and the session does not change. */
  lemma LoginWithoutTokenPassesThrough(cfg: EnvConfig, store: Store, loginData: Value, encode: Value -> string, t: Transport)
    requires t.Responded? ==> ParsedBody(t.response.body)
    requires !Truthy(Get(Settle(Login(cfg, store, loginData, encode, t).sent.value.url, t), "token"))
    ensures
      var c := Login(cfg, store, loginData, encode, t);
      c.result == Ok(Settle(c.sent.value.url, t)) && c.store == store
  {
    var c := Login(cfg, store, loginData, encode, t);
    SettleShape(c.sent.value.url, t);
  }

  /** A network failure during login leaves the store as it was and hands back
      the wrapper's NET_002 envelope. */
  lemma LoginNetworkFailure(cfg: EnvConfig, store: Store, loginData: Value, encode: Value -> string, message: string)
    requires Contains(message, "fetch")
    ensures
      var c := Login(cfg, store, loginData, encode, Threw(JsError("TypeError", message)));
      && c.store == store
      && c.result.Ok? && Get(c.result.value, "success") == Bool(false)
      && Get(c.result.value, "code") == Str("NET_002")
  {
    var e := JsError("TypeError", message);
    assert Get(HandleError(e), "token") == Undefined;
  }

  /** `register(registerData)`: a POST, without the stored token, of exactly the
      username, e-mail and password; a null argument throws before sending. */
  function Register(cfg: EnvConfig, store: Store, registerData: Value, t: Transport): (c: Call)
    ensures Nullish(registerData) ==> c == Refused(store, TypeError)
    ensures !Nullish(registerData) ==>
      && c.sent.Some? && c.store == store
      && c.sent.value.url == FullUrl(ClientOf(cfg), Path(Endpoint.Register))
      && Authorization !in c.sent.value.config.headers
      && c.sent.value.config.body.Some?
      && var body := c.sent.value.config.body.value;
         body.Obj? && body.fields.Keys == {"username", "email", "password"}
         && forall k :: k in body.fields ==> body.fields[k] == Get(registerData, k)
    ensures !Nullish(registerData) ==> c.result == Ok(Settle(c.sent.value.url, t))
  {
    if Nullish(registerData) then Refused(store, TypeError)
    else
      var body := Obj(map["username" := Get(registerData, "username"), "email" := Get(registerData, "email"),
                          "password" := Get(registerData, "password")]);
      var x := Dispatch(cfg, store, Path(Endpoint.Register), Options("POST", map[], body, None, false), t);
      Answered(store, x, Ok(x.reply))
  }

  /** The header `logout` sets itself: the stored token, when there is one. */
  function LogoutHeaders(store: Store): (h: Headers)
    ensures Authorization in h <==> HasToken(store)
    ensures Authorization in h ==> h[Authorization] == store[TokenKey]
    ensures h.Keys <= {Authorization}
  {
    if HasToken(store) then map[Authorization := store[TokenKey]] else map[]
  }

  /** `logout()`: a bodiless POST carrying the token only in the explicit header;
      afterwards the token and profile are gone whatever the reply. */
  function Logout(cfg: EnvConfig, store: Store, t: Transport): (c: Call)
    ensures c.sent.Some?
    ensures c.sent.value.url == FullUrl(ClientOf(cfg), Path(Endpoint.Logout))
    ensures c.sent.value.config.verb == "POST"
    ensures c.sent.value.config.body.None?
    ensures Authorization in c.sent.value.config.headers <==> HasToken(store)
    ensures HasToken(store) ==> c.sent.value.config.headers[Authorization] == store[TokenKey]
    ensures c.store == ClearAuth(store)
    ensures c.result == Ok(Settle(c.sent.value.url, t))
  {
    var x := Dispatch(cfg, store, Path(Endpoint.Logout), Options("POST", LogoutHeaders(store), Null, None, false), t);
    Call(Some(x.sent), ClearAuth(store), Ok(x.reply))
  }

  /** Logging out always ends the session, on a failed request as on a good one. */
  lemma LogoutEndsSession(cfg: EnvConfig, store: Store, t: Transport)
    ensures StateOf(Logout(cfg, store, t).store) == Anonymous
    ensures UserKey !in Logout(cfg, store, t).store
    ensures Logout(cfg, store, t).result.Ok?
  {
    ClearAuthTransition(store);
  }

  /** The reply handling of `checkAuthStatus`. */
  function AuthStatusOutcome(response: Value): (r: Result<Value>)
    ensures Nullish(response) ==> r == Err(TypeError)
    ensures !Nullish(response) ==> r.Ok?
    ensures Truthy(Get(response, "success")) && Get(response, "data").Bool? ==>
      && Get(r.value, "success") == Bool(true)
      && Get(r.value, "isLoggedIn") == Get(response, "data")
      && Get(r.value, "message") == Get(response, "message")
    ensures Truthy(Get(response, "success")) && !Get(response, "data").Bool? && Get(response, "isLoggedIn") != Undefined ==>
      r == Ok(response)
    ensures !Nullish(response) && !(Truthy(Get(response, "success")) && (Get(response, "data").Bool? || Get(response, "isLoggedIn") != Undefined)) ==>
      && Get(r.value, "success") == Bool(false)
      && Get(r.value, "isLoggedIn") == Bool(false)
      && Get(r.value, "message") == (if Truthy(Get(response, "message")) then Get(response, "message") else Str(StatusCheckFailedMessage))
      && Get(r.value, "error") == Get(response, "error")
      && Get(r.value, "code") == Get(response, "code")
  {
    if Nullish(response) then Err(TypeError)
    else if Truthy(Get(response, "success")) && Get(response, "data").Bool? then
      Ok(Obj(map["success" := Bool(true), "isLoggedIn" := Get(response, "data"),
                 "message" := Get(response, "message"), "timestamp" := Get(response, "timestamp")]))
    else if Truthy(Get(response, "success")) && Get(response, "isLoggedIn") != Undefined then
      Ok(response)
    else
      var message := Get(response, "message");
      Ok(Obj(map["success" := Bool(false), "isLoggedIn" := Bool(false),
                 "message" := if Truthy(message) then message else Str(StatusCheckFailedMessage),
                 "error" := Get(response, "error"), "code" := Get(response, "code"),
                 "timestamp" := Get(response, "timestamp")]))
  }

  /** `checkAuthStatus()`: a GET of the status path with the stored token. */
  function CheckAuthStatus(cfg: EnvConfig, store: Store, t: Transport): (c: Call)
    ensures c.sent.Some? && c.store == store
    ensures c.sent.value == Prepare(ClientOf(cfg), store, Path(CheckStatus), GetOptions())
    ensures c.result == AuthStatusOutcome(Settle(c.sent.value.url, t))
  {
    var x := Dispatch(cfg, store, Path(CheckStatus), GetOptions(), t);
    Answered(store, x, AuthStatusOutcome(x.reply))
  }

  /** The status URL always contains the path the wrapper special-cases. */
  lemma StatusUrlHasMarker(cfg: EnvConfig)
    ensures Contains(FullUrl(ClientOf(cfg), Path(CheckStatus)), StatusMarker)
  {
    var base := Interpolate(cfg.baseUrl);
    var u := FullUrl(ClientOf(cfg), Path(CheckStatus));
    assert !StartsWith(Path(CheckStatus), "http") by {
      assert Path(CheckStatus)[..4][0] == '/';
    }
    assert u == base + StatusMarker;
    assert u[|base|..|base| + |StatusMarker|] == StatusMarker;
    assert OccursAt(u, StatusMarker, |base|);
  }

  /** A 400 on the status check means "logged out", reported as a success. */
  lemma BadRequestMeansLoggedOut(cfg: EnvConfig, store: Store, r: Received)
    requires r.status == 400
    ensures
      var c := CheckAuthStatus(cfg, store, Responded(r));
      && c.result.Ok?
      && Get(c.result.value, "success") == Bool(true)
      && Get(c.result.value, "isLoggedIn") == Bool(false)
  {
    StatusUrlHasMarker(cfg);
  }

  /** A 2xx reply with the bare text "true" or "false" becomes that login state. */
  lemma BooleanTextIsLoginState(cfg: EnvConfig, store: Store, r: Received)
    requires Ok2xx(r.status) && r.body.PlainText? && (r.body.text == "true" || r.body.text == "false")
    ensures
      var c := CheckAuthStatus(cfg, store, Responded(r));
      && c.result.Ok?
      && Get(c.result.value, "success") == Bool(true)
      && Get(c.result.value, "isLoggedIn") == Bool(r.body.text == "true")
  {
  }

  /** A transport failure is reported as logged out, never as logged in. */
  lemma TransportFailureMeansLoggedOut(cfg: EnvConfig, store: Store, e: JsError)
    ensures
      var c := CheckAuthStatus(cfg, store, Threw(e));
      && c.result.Ok?
      && Get(c.result.value, "success") == Bool(false)
      && Get(c.result.value, "isLoggedIn") == Bool(false)
      && Get(c.result.value, "code") == Str(Code(Classify(e)))
  {
    assert Get(HandleError(e), "isLoggedIn") == Undefined;
  }

  /** `getCurrentUser()`: the parsed profile, null when none is stored, and the
      parser's SyntaxError for stored text that is not JSON. */
  function CurrentUser(store: Store, decode: string -> Option<Value>): (r: Result<Value>)
    ensures UserKey !in store || store[UserKey] == "" ==> r == Ok(Null)
    ensures UserKey in store && store[UserKey] != "" && decode(store[UserKey]).Some? ==>
      r == Ok(decode(store[UserKey]).value)
    ensures UserKey in store && store[UserKey] != "" && decode(store[UserKey]).None? ==> r == Err(SyntaxError)
  {
    if UserKey in store && store[UserKey] != "" then
      match decode(store[UserKey])
      case Some(v) => Ok(v)
      case None => Err(SyntaxError)
    else Ok(Null)
  }

  /** `setCurrentUser(user)`: stores the serialised profile, whatever it is. */
  function SetCurrentUser(store: Store, user: Value, encode: Value -> string): (r: Store)
    ensures UserKey in r && r[UserKey] == encode(user)
    ensures forall k :: k != UserKey ==> (k in r <==> k in store) && (k in r ==> r[k] == store[k])
  {
    store[UserKey := encode(user)]
  }

  /** Setting the current user and reading it back yields it, for a serialiser
      the parser inverts; clearing it reads back as null. */
  lemma CurrentUserRoundTrip(store: Store, user: Value, encode: Value -> string, decode: string -> Option<Value>)
    requires encode(user) != "" && decode(encode(user)) == Some(user)
    ensures CurrentUser(SetCurrentUser(store, user, encode), decode) == Ok(user)
    ensures CurrentUser(ClearUserData(SetCurrentUser(store, user, encode)), decode) == Ok(Null)
  {
  }

  /** The account accessor and the profile written at login share the key, so
      after a login with a user the current user is the kept profile. */
  lemma LoginProfileIsCurrentUser(store: Store, response: Value, encode: Value -> string, decode: string -> Option<Value>)
    requires Truthy(Get(response, "token")) && Truthy(Get(response, "user"))
    requires encode(Profile(Get(response, "user"))) != ""
    requires decode(encode(Profile(Get(response, "user")))) == Some(Profile(Get(response, "user")))
    ensures CurrentUser(LoginOutcome(store, response, encode).store, decode) == Ok(Profile(Get(response, "user")))
  {
    TokenOutcomeWrites(store, response, encode);
  }
}
