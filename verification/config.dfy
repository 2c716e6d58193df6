/**
  Endpoint and environment registry (src/config/api.config.js): the fixed
  storage keys, the endpoint table, the environment table selected by the
  deployment tag, URL building, default headers and the stored user profile.
 */
module Config {
  import opened Text
  import opened Values

  /** localStorage, a string-keyed store of strings. */
  type Store = map<string, string>

  /** Headers as a plain object: names to values. */
  type Headers = map<string, string>

  const TokenKey := "auth_token"
  const UserKey := "user_info"
  /** Key of the aggregate the login flow writes (src/services/api.js:80). */
  const UserDataKey := "userData"
  const DefaultTimeout := 30000
  const ContentType := "Content-Type"
  const Authorization := "Authorization"
  const JsonMime := "application/json"

  /** The registered backend operations. */
  datatype Endpoint =
    | Login | Register | Logout | CheckStatus
    | BookmarkAdd | BookmarkListAll | BookmarkListByTag | BookmarkRemove | BookmarkClick
    | UserTags
    | MultiSearch | PrefixMatch | PrefixTreeLogout | SearchHistory
    | AiChat

  function Path(e: Endpoint): string {
    match e
    case Login => "/users/login"
    case Register => "/users/register"
    case Logout => "/users/logout"
    case CheckStatus => "/users/useOnlineStatus"
    case BookmarkAdd => "/bookmarks/add"
    case BookmarkListAll => "/bookmarks/listAll"
    case BookmarkListByTag => "/bookmarks/listAllByTag"
    case BookmarkRemove => "/bookmarks/remove"
    case BookmarkClick => "/bookmarks/click"
    case UserTags => "/tags/usertags"
    case MultiSearch => "/bookmarks/listMultSearch"
    case PrefixMatch => "/search"
    case PrefixTreeLogout => "/logout"
    case SearchHistory => "/search/history"
    case AiChat => "/ai/chat"
  }

  function Verb(e: Endpoint): string {
    match e
    case CheckStatus | BookmarkListAll | BookmarkListByTag | UserTags
      | MultiSearch | PrefixMatch | SearchHistory => "GET"
    case BookmarkRemove => "DELETE"
    case _ => "POST"
  }

  /** The path the HTTP wrapper special-cases on status 400. */
  const StatusMarker := "/users/useOnlineStatus"

  /** The three deployment environments of the environment table. */
  datatype Deployment = Development | Test | Production

  function TableKey(d: Deployment): string {
    match d
    case Development => "DEVELOPMENT"
    case Test => "TEST"
    case Production => "PRODUCTION"
  }

  /** `import.meta.env` values: the two externally supplied base URLs, possibly unset. */
  datatype Externals = Externals(apiBaseUrl: Option<string>, prefixTreeBaseUrl: Option<string>)

  datatype EnvConfig = EnvConfig(baseUrl: Option<string>, prefixTreeBaseUrl: Option<string>, timeout: int, debug: bool)

  /** The environment table's entry for `d`. */
  function EnvConfigOf(d: Deployment, ext: Externals): EnvConfig {
    EnvConfig(ext.apiBaseUrl, ext.prefixTreeBaseUrl, DefaultTimeout, d != Production)
  }

  /** Every entry reads both base URLs from outside and waits 30 s; only production turns debugging off. */
  lemma EnvTableShape(d: Deployment, ext: Externals)
    ensures EnvConfigOf(d, ext).timeout == 30000
    ensures EnvConfigOf(d, ext).debug <==> d != Production
    ensures EnvConfigOf(d, ext).baseUrl == ext.apiBaseUrl
    ensures EnvConfigOf(d, ext).prefixTreeBaseUrl == ext.prefixTreeBaseUrl
  {
  }

  /** The table entry named exactly `key`, if there is one. */
  function Lookup(key: string): (r: Option<Deployment>)
    ensures r.Some? <==> exists d :: TableKey(d) == key
    ensures r.Some? ==> TableKey(r.value) == key
  {
    if key == TableKey(Development) then Some(Development)
    else if key == TableKey(Test) then Some(Test)
    else if key == TableKey(Production) then Some(Production)
    else None
  }

  /** The deployment `getCurrentEnvConfig` picks for the tag `nodeEnv`: the
      upper-cased tag's entry, and development when the tag is unset, empty or unknown. */
  function SelectDeployment(nodeEnv: Option<string>): (d: Deployment)
    ensures nodeEnv.None? || nodeEnv == Some("") ==> d == Development
    ensures nodeEnv.Some? && nodeEnv.value != "" && d != Development ==> AsciiUpper(nodeEnv.value) == TableKey(d)
    ensures forall e :: nodeEnv.Some? && AsciiUpper(nodeEnv.value) == TableKey(e) ==> d == e
    ensures nodeEnv.Some? && (forall e :: AsciiUpper(nodeEnv.value) != TableKey(e)) ==> d == Development
  {
    var tag := if nodeEnv.None? || nodeEnv.value == "" then "development" else nodeEnv.value;
    match Lookup(AsciiUpper(tag))
    case Some(d) => d
    case None => Development
  }

  /** `getCurrentEnvConfig()`: the table entry of the deployment the tag selects. */
  function CurrentEnvConfig(nodeEnv: Option<string>, ext: Externals): (cfg: EnvConfig)
    ensures cfg.baseUrl == ext.apiBaseUrl && cfg.prefixTreeBaseUrl == ext.prefixTreeBaseUrl
    ensures cfg.timeout == 30000
    ensures cfg.debug <==> SelectDeployment(nodeEnv) != Production
    ensures nodeEnv.None? || nodeEnv == Some("") ==> cfg.debug
    ensures nodeEnv.Some? && AsciiUpper(nodeEnv.value) == "PRODUCTION" ==> !cfg.debug
  {
    EnvConfigOf(SelectDeployment(nodeEnv), ext)
  }

  /** `${x}` for a possibly unset string: an unset one renders as "undefined". */
  function Interpolate(x: Option<string>): (r: string)
    ensures x.Some? ==> r == x.value
    ensures x.None? ==> r == "undefined"
  {
    match x
    case Some(s) => s
    case None => "undefined"
  }

  /** `getApiUrl(endpoint)`: the main base URL followed by the endpoint. */
  function ApiUrl(cfg: EnvConfig, endpoint: string): (r: string)
    ensures StartsWith(r, Interpolate(cfg.baseUrl))
    ensures r[|Interpolate(cfg.baseUrl)|..] == endpoint
  {
    Interpolate(cfg.baseUrl) + endpoint
  }

  /** `getPrefixTreeApiUrl(endpoint)`: the prefix-service base URL followed by the endpoint. */
  function PrefixTreeApiUrl(cfg: EnvConfig, endpoint: string): (r: string)
    ensures StartsWith(r, Interpolate(cfg.prefixTreeBaseUrl))
    ensures r[|Interpolate(cfg.prefixTreeBaseUrl)|..] == endpoint
  {
    Interpolate(cfg.prefixTreeBaseUrl) + endpoint
  }

  /** `!!localStorage.getItem(TOKEN_KEY)`: a non-empty token is stored. */
  predicate HasToken(store: Store) {
    TokenKey in store && store[TokenKey] != ""
  }

  /** `getHeaders(includeAuth)`: the JSON content type, plus the stored token
      unchanged as `Authorization` when asked for and present. */
  function DefaultHeaders(store: Store, includeAuth: bool): (h: Headers)
    ensures ContentType in h && h[ContentType] == JsonMime
    ensures Authorization in h <==> includeAuth && HasToken(store)
    ensures Authorization in h ==> h[Authorization] == store[TokenKey]
    ensures h.Keys <= {ContentType, Authorization}
  {
    var base := map[ContentType := JsonMime];
    if includeAuth && HasToken(store) then base[Authorization := store[TokenKey]] else base
  }

  /** `setUserInitializeData(userData)`: stores the serialised profile, only for a truthy one. */
  function SetUserData(store: Store, userData: Value, encode: Value -> string): (r: Store)
    ensures Truthy(userData) ==> r == store[UserKey := encode(userData)]
    ensures !Truthy(userData) ==> r == store
  {
    if Truthy(userData) then store[UserKey := encode(userData)] else store
  }

  /** `getUserInitializeData()`: the parsed profile; nothing when the key is
      absent, holds the empty string, or does not parse. */
  function GetUserData(store: Store, decode: string -> Option<Value>): (r: Option<Value>)
    ensures UserKey !in store || store[UserKey] == "" ==> r.None?
    ensures UserKey in store && store[UserKey] != "" ==> r == decode(store[UserKey])
  {
    if UserKey in store && store[UserKey] != "" then decode(store[UserKey]) else None
  }

  /** `clearUserInitializeData()`: removes the profile key and nothing else. */
  function ClearUserData(store: Store): (r: Store)
    ensures UserKey !in r
    ensures forall k :: k != UserKey ==> (k in r <==> k in store)
    ensures forall k :: k in r ==> r[k] == store[k]
  {
    store - {UserKey}
  }

  /** Storing a profile and reading it back yields it, for a serialiser the parser inverts. */
  lemma UserDataRoundTrip(store: Store, v: Value, encode: Value -> string, decode: string -> Option<Value>)
    requires Truthy(v)
    requires encode(v) != ""
    requires decode(encode(v)) == Some(v)
    ensures GetUserData(SetUserData(store, v, encode), decode) == Some(v)
  {
  }

  /** Clearing the profile makes it unreadable, whatever the parser. */
  lemma ClearedUserDataIsGone(store: Store, decode: string -> Option<Value>)
    ensures GetUserData(ClearUserData(store), decode).None?
  {
  }
}
