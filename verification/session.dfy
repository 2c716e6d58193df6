/**
  Session state held in localStorage (src/services/http-client.js:364-394):
  the auth token and the user profile, and the two states they make up.
 */
module Session {
  import opened Values
  import opened Config

  /** The session as the rest of the client sees it: a usable token, or none. */
  datatype SessionState = Authenticated(token: string) | Anonymous

  function StateOf(store: Store): (s: SessionState)
    ensures s.Authenticated? <==> HasToken(store)
    ensures s.Authenticated? ==> s.token == store[TokenKey] && s.token != ""
  {
    if HasToken(store) then Authenticated(store[TokenKey]) else Anonymous
  }

  /** `setAuthToken(token)`: a truthy token is stored as its string form, a
      falsy one removes the key. */
  function SetAuthToken(store: Store, token: Value): (r: Store)
    ensures Truthy(token) ==> TokenKey in r && r[TokenKey] == ToText(token)
    ensures !Truthy(token) ==> TokenKey !in r
    ensures forall k :: k != TokenKey ==> (k in r <==> k in store)
    ensures forall k :: k != TokenKey && k in r ==> r[k] == store[k]
  {
    if Truthy(token) then store[TokenKey := ToText(token)] else store - {TokenKey}
  }

  /** `getAuthToken()`: the stored token, if any. */
  function GetAuthToken(store: Store): (t: Option<string>)
    ensures t.Some? <==> TokenKey in store
    ensures t.Some? ==> t.value == store[TokenKey]
  {
    if TokenKey in store then Some(store[TokenKey]) else None
  }

  /** `clearAuth()`: removes the token and the profile, and no other key. */
  function ClearAuth(store: Store): (r: Store)
    ensures TokenKey !in r && UserKey !in r
    ensures forall k :: k != TokenKey && k != UserKey ==> (k in r <==> k in store)
    ensures forall k :: k in r ==> r[k] == store[k]
  {
    store - {TokenKey, UserKey}
  }

  /** `isAuthenticated()`: a stored token that is not empty. */
  function IsAuthenticated(store: Store): (b: bool)
    ensures b <==> StateOf(store).Authenticated?
  {
    match GetAuthToken(store)
    case Some(t) => t != ""
    case None => false
  }

  /** Storing a string token authenticates with exactly that token; a falsy
      token (or one whose string form is empty, such as `[]`) leaves the session anonymous. */
  lemma SetAuthTokenTransition(store: Store, token: Value)
    ensures Truthy(token) && ToText(token) != "" ==> StateOf(SetAuthToken(store, token)) == Authenticated(ToText(token))
    ensures !Truthy(token) || ToText(token) == "" ==> StateOf(SetAuthToken(store, token)) == Anonymous
  {
  }

  /** Clearing always ends anonymous, and the profile is gone as well. */
  lemma ClearAuthTransition(store: Store)
    ensures StateOf(ClearAuth(store)) == Anonymous
    ensures ClearAuth(store) == ClearUserData(store - {TokenKey})
  {
  }
}
