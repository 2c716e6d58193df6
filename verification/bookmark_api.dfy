/**
  The bookmark functions of src/services/api.js: adding, deleting, listing
  (all, or by tag), recording a click, and the user's tags.
 */
module BookmarkApi {
  import opened Text
  import opened Values
  import opened Config
  import opened Query
  import opened HttpClient
  import opened ApiCommon

  const ListedMessage := "获取收藏成功"

  /** `addBookmark(bookmarkData)`: the checks, then a POST of the trimmed URL and
      the tag, and the local/crawler merge of the reply. */
  function AddBookmark(cfg: EnvConfig, store: Store, data: Value, validUrl: string -> bool, t: Transport): (c: Call)
    ensures c.store == store
    ensures c.sent.Some? <==> BookmarkRequest(data, validUrl).Ok?
    ensures c.sent.None? ==> c.result == Err(BookmarkRequest(data, validUrl).error)
    ensures c.sent.Some? ==>
      && c.sent.value == Prepare(ClientOf(cfg), store, Path(BookmarkAdd), PostOptions(BookmarkRequest(data, validUrl).value))
      && c.sent.value.config.body == Some(BookmarkRequest(data, validUrl).value)
      && c.result == MergeLocalCrawler(Settle(c.sent.value.url, t))
  {
    match BookmarkRequest(data, validUrl)
    case Err(e) => Refused(store, e)
    case Ok(body) =>
      var x := Dispatch(cfg, store, Path(BookmarkAdd), PostOptions(body), t);
      Answered(store, x, MergeLocalCrawler(x.reply))
  }

  /** The options of `httpClient.delete(url, { body })`. */
  function DeleteOptions(body: Value): Options {
    Options("DELETE", map[], body, None, true)
  }

  /** `deleteBookmark(bookmarkData)`: the same checks, then a DELETE carrying the
      same body, and the same merge of the reply. */
  function DeleteBookmark(cfg: EnvConfig, store: Store, data: Value, validUrl: string -> bool, t: Transport): (c: Call)
    ensures c.store == store
    ensures c.sent.Some? <==> BookmarkRequest(data, validUrl).Ok?
    ensures c.sent.None? ==> c.result == Err(BookmarkRequest(data, validUrl).error)
    ensures c.sent.Some? ==>
      && c.sent.value == Prepare(ClientOf(cfg), store, Path(BookmarkRemove), DeleteOptions(BookmarkRequest(data, validUrl).value))
      && c.result == MergeLocalCrawler(Settle(c.sent.value.url, t))
  {
    match BookmarkRequest(data, validUrl)
    case Err(e) => Refused(store, e)
    case Ok(body) =>
      var x := Dispatch(cfg, store, Path(BookmarkRemove), DeleteOptions(body), t);
      Answered(store, x, MergeLocalCrawler(x.reply))
  }

  /** Adding and deleting run the same checks and send the same data, to
      different paths with different verbs. */
  lemma AddAndDeleteAgree(cfg: EnvConfig, store: Store, data: Value, validUrl: string -> bool, t: Transport)
    ensures
      var add := AddBookmark(cfg, store, data, validUrl, t);
      var del := DeleteBookmark(cfg, store, data, validUrl, t);
      && (add.sent.Some? <==> del.sent.Some?)
      && (add.sent.None? ==> add.result == del.result)
      && (add.sent.Some? ==>
            && add.sent.value.config.body == del.sent.value.config.body == Some(BookmarkRequest(data, validUrl).value)
            && add.sent.value.config.verb == "POST" && del.sent.value.config.verb == "DELETE")
  {
    var r := BookmarkRequest(data, validUrl);
    var add := AddBookmark(cfg, store, data, validUrl, t);
    var del := DeleteBookmark(cfg, store, data, validUrl, t);
    if r.Ok? {
      assert Truthy(r.value);
      UpperVerbs();
      assert add.sent.value == Prepare(ClientOf(cfg), store, Path(BookmarkAdd), PostOptions(r.value));
      assert del.sent.value == Prepare(ClientOf(cfg), store, Path(BookmarkRemove), DeleteOptions(r.value));
    }
  }

  /** A blank URL is refused before anything is sent. */
  lemma BlankUrlSendsNothing(cfg: EnvConfig, store: Store, url: string, tag: Value, validUrl: string -> bool, t: Transport)
    requires Blank(url)
    ensures
      var c := AddBookmark(cfg, store, Obj(map["url" := Str(url), "tag" := tag]), validUrl, t);
      c.sent.None? && c.result == Err(Error(EmptyUrlMessage))
  {
    BlankUrlRefused(url, tag, validUrl);
  }

  /** `getAllBookmarks(sortBy)`: the sort-key check, then a GET with the key as
      the only query parameter, read as a listing. */
  function GetAllBookmarks(cfg: EnvConfig, store: Store, sortBy: Value, t: Transport): (c: Call)
    ensures c.store == store
    ensures c.sent.Some? <==> SortKey(sortBy, BookmarkSortKeys, SortByClicksMessage).Ok?
    ensures c.sent.None? ==> c.result == Err(Error(SortByClicksMessage))
    ensures c.sent.Some? ==>
      var key := SortKey(sortBy, BookmarkSortKeys, SortByClicksMessage).value;
      && c.sent.value == Prepare(ClientOf(cfg), store, WithQuery(Path(BookmarkListAll), [("sortBy", key)]), GetOptions())
      && c.result == ListOutcome(Settle(c.sent.value.url, t), ListedMessage)
  {
    match SortKey(sortBy, BookmarkSortKeys, SortByClicksMessage)
    case Err(e) => Refused(store, e)
    case Ok(key) =>
      var x := Dispatch(cfg, store, WithQuery(Path(BookmarkListAll), [("sortBy", key)]), GetOptions(), t);
      Answered(store, x, ListOutcome(x.reply, ListedMessage))
  }

  /** A missing sort key is sent as "time", and a 2xx array reply is a success
      carrying that array. */
  lemma DefaultSortIsTime(cfg: EnvConfig, store: Store, r: Received)
    requires Ok2xx(r.status) && r.body.JsonArray?
    ensures
      var c := GetAllBookmarks(cfg, store, Undefined, Responded(r));
      && c.sent.Some?
      && c.sent.value.url == FullUrl(ClientOf(cfg), WithQuery(Path(BookmarkListAll), [("sortBy", "time")]))
      && c.result.Ok? && Get(c.result.value, "success") == Bool(true)
      && Get(c.result.value, "data").Arr? && Get(c.result.value, "data").items == r.body.elements
  {
  }

  /** `getBookmarksByTag(tag)`: the tag must be a non-blank string; it is sent trimmed. */
  function GetBookmarksByTag(cfg: EnvConfig, store: Store, tag: Value, t: Transport): (c: Call)
    ensures c.store == store
    ensures c.sent.Some? <==> tag.Str? && !Blank(tag.s)
    ensures c.sent.None? ==> c.result == Err(RequiredText(tag, EmptyTagMessage).error)
    ensures c.sent.Some? ==>
      && c.sent.value == Prepare(ClientOf(cfg), store, WithQuery(Path(BookmarkListByTag), [("tag", Trim(tag.s))]), GetOptions())
      && c.result == ListOutcome(Settle(c.sent.value.url, t), ListedMessage)
  {
    match RequiredText(tag, EmptyTagMessage)
    case Err(e) => Refused(store, e)
    case Ok(trimmed) =>
      var x := Dispatch(cfg, store, WithQuery(Path(BookmarkListByTag), [("tag", trimmed)]), GetOptions(), t);
      Answered(store, x, ListOutcome(x.reply, ListedMessage))
  }

  /** How `recordBookmarkClick` reads the reply: a bare string is a success with
      that message, an error status rejects, anything else is returned as is. */
  function ClickOutcome(response: Value): (r: Result<Value>)
    ensures response.Str? ==> r == Ok(Obj(map["success" := Bool(true), "message" := response, "data" := Null]))
    ensures Nullish(response) ==> r == Err(TypeError)
    ensures !response.Str? && ErrorStatus(response) ==> r == Err(ErrorOf(Get(response, "message")))
    ensures !response.Str? && !Nullish(response) && !ErrorStatus(response) ==> r == Ok(response)
  {
    if response.Str? then Ok(Obj(map["success" := Bool(true), "message" := response, "data" := Null]))
    else if Nullish(response) then Err(TypeError)
    else if ErrorStatus(response) then Err(ErrorOf(Get(response, "message")))
    else Ok(response)
  }

  /** `recordBookmarkClick(url)`: the URL checks, then a POST of the trimmed URL. */
  function RecordBookmarkClick(cfg: EnvConfig, store: Store, url: Value, validUrl: string -> bool, t: Transport): (c: Call)
    ensures c.store == store
    ensures c.sent.Some? <==> CheckedUrl(url, validUrl).Ok?
    ensures c.sent.None? ==> c.result == Err(CheckedUrl(url, validUrl).error)
    ensures c.sent.Some? ==>
      && c.sent.value == Prepare(ClientOf(cfg), store, Path(BookmarkClick), PostOptions(Obj(map["url" := Str(Trim(url.s))])))
      && c.result == ClickOutcome(Settle(c.sent.value.url, t))
  {
    match CheckedUrl(url, validUrl)
    case Err(e) => Refused(store, e)
    case Ok(trimmed) =>
      var x := Dispatch(cfg, store, Path(BookmarkClick), PostOptions(Obj(map["url" := Str(trimmed)])), t);
      Answered(store, x, ClickOutcome(x.reply))
  }

  /** The wrapper never returns a bare string, so a recorded click never takes
      the string branch: its result is the wrapper's value or a rejection. */
  lemma ClickStringBranchUnreachable(url: string, t: Transport)
    requires t.Responded? ==> ParsedBody(t.response.body)
    ensures ClickOutcome(Settle(url, t)).Ok? ==> ClickOutcome(Settle(url, t)) == Ok(Settle(url, t))
  {
    SettleShape(url, t);
  }

  /** `getUserTags()`: a GET of the tag path, returned as the wrapper built it. */
  function GetUserTags(cfg: EnvConfig, store: Store, t: Transport): (c: Call)
    ensures c.store == store && c.sent.Some?
    ensures c.sent.value == Prepare(ClientOf(cfg), store, Path(UserTags), GetOptions())
    ensures c.result == Ok(Settle(c.sent.value.url, t))
  {
    var x := Dispatch(cfg, store, Path(UserTags), GetOptions(), t);
    Answered(store, x, Ok(x.reply))
  }
}
