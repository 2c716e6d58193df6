/**
  The verbs of the endpoint table (src/config/api.config.js:49-170) against
  the verbs the API functions of src/services/api.js actually send: every
  request that goes out uses the verb the table registers for its endpoint.
  The API functions' contracts name the options each request is prepared
  with (`GetOptions`, `PostOptions`, `DeleteOptions`); the lemmas below tie
  those options to the registered verbs.
 */
module Registry {
  import opened Values
  import opened Config
  import opened HttpClient
  import opened ApiCommon
  import opened AuthApi
  import opened BookmarkApi

  /** The verb a sent request carries. */
  function SentVerb(c: Call): (v: string)
    requires c.sent.Some?
  {
    c.sent.value.config.verb
  }

  /** `login` and `checkAuthStatus` send the registered verbs. */
  lemma LoginVerbsMatchRegistry(cfg: EnvConfig, store: Store, data: Value, encode: Value -> string, t: Transport)
    ensures SentVerb(AuthApi.Login(cfg, store, data, encode, t)) == Verb(Endpoint.Login)
    ensures SentVerb(CheckAuthStatus(cfg, store, t)) == Verb(CheckStatus)
  {
    UpperVerbs();
  }

  /** `register`, when it sends at all, and `logout` send the registered verbs. */
  lemma RegisterVerbsMatchRegistry(cfg: EnvConfig, store: Store, data: Value, t: Transport)
    ensures AuthApi.Register(cfg, store, data, t).sent.Some? ==> SentVerb(AuthApi.Register(cfg, store, data, t)) == Verb(Endpoint.Register)
    ensures SentVerb(AuthApi.Logout(cfg, store, t)) == Verb(Endpoint.Logout)
  {
    UpperVerbs();
  }

  /** A fact about the table and the GET helper: the six endpoints besides the
      status check that the table registers as GET get the verb the GET
      helper's options send. Which function calls which endpoint is stated by
      that function's own contract (`c.sent.value == Prepare(…, Path(e), GetOptions())`
      for `getAllBookmarks`, `getBookmarksByTag`, `getUserTags`, `multiSearch`,
      `prefixMatch` and `getSearchHistory`), not by this lemma. */
  lemma GetEndpointsSendGet(c: Client, store: Store, url: string)
    ensures Verb(BookmarkListAll) == Verb(BookmarkListByTag) == Verb(UserTags) == Prepare(c, store, url, GetOptions()).config.verb
    ensures Verb(Endpoint.MultiSearch) == Verb(Endpoint.PrefixMatch) == Verb(SearchHistory) == Prepare(c, store, url, GetOptions()).config.verb
  {
    UpperVerbs();
  }

  /** A fact about the table and the POST helper: add, click, chat and
      prefix-cache clearing are registered as POST, the verb the POST helper's
      options send. The tie to `addBookmark`, `recordBookmarkClick`, `chatWithAI`
      and `prefixTreeLogout` is each function's own `c.sent.value == Prepare(…)`
      contract. */
  lemma PostEndpointsSendPost(c: Client, store: Store, url: string, body: Value)
    ensures Verb(BookmarkClick) == Verb(BookmarkAdd) == Prepare(c, store, url, PostOptions(body)).config.verb
    ensures Verb(AiChat) == Verb(Endpoint.PrefixTreeLogout) == Prepare(c, store, url, PostOptions(body)).config.verb
  {
    UpperVerbs();
  }

  /** A fact about the table and the delete options: removal is the one
      endpoint registered as DELETE, the verb `deleteBookmark`'s options send. */
  lemma DeleteEndpointSendsDelete(c: Client, store: Store, url: string, body: Value)
    ensures Verb(BookmarkRemove) == Prepare(c, store, url, DeleteOptions(body)).config.verb
    ensures forall e: Endpoint :: Verb(e) == "DELETE" <==> e == BookmarkRemove
  {
    UpperVerbs();
  }
}
