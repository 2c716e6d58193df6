/**
  What the API functions of src/services/api.js share: the outcome of one
  call, the request helpers they go through, the input checks they run before
  sending anything, and the way they read the wrapper's reply.
 */
module ApiCommon {
  import opened Text
  import opened Values
  import opened Config
  import opened Query
  import opened HttpClient

  /** One API call: the request it sent (none when an input check threw first),
      the store afterwards, and how the returned promise settles. */
  datatype Call = Call(sent: Option<Prepared>, store: Store, result: Result<Value>)

  const EmptyUrlMessage := "URL cannot be empty"
  const InvalidUrlMessage := "Invalid URL format"
  const TagTooLongMessage := "Tag length cannot exceed 50 characters"
  const EmptyTagMessage := "Tag cannot be empty"
  const EmptyUseridMessage := "userid cannot be empty"
  const EmptyPrefixMessage := "prefix cannot be empty"
  const SortByClicksMessage := "Invalid sortBy parameter. Must be \"time\" or \"click_count\""
  const SortByCountMessage := "Invalid sortBy parameter. Must be \"time\" or \"count\""

  /** The longest tag a bookmark may carry, in `length` units. */
  const MaxTagLength := 50

  /** The sort keys the bookmark listings and the multi-search accept. */
  const BookmarkSortKeys := ["time", "click_count"]
  /** The sort keys the search history accepts. */
  const HistorySortKeys := ["time", "count"]

  /** `httpClient.request(url, options)` with the client built from `cfg`. */
  function Dispatch(cfg: EnvConfig, store: Store, url: string, o: Options, t: Transport): Exchange {
    Request(ClientOf(cfg), store, url, o, t)
  }

  /** The options of `httpClient.get(url)`. */
  function GetOptions(): Options {
    Defaults("GET")
  }

  /** The options of `httpClient.post(url, body)`. */
  function PostOptions(body: Value): Options {
    Options("POST", map[], body, None, true)
  }

  /** `${path}?${params}`. */
  function WithQuery(path: string, ps: Params): string {
    path + "?" + Serialize(ps)
  }

  /** A call that threw before sending: nothing sent, nothing stored. */
  function Refused(store: Store, e: Thrown): Call {
    Call(None, store, Err(e))
  }

  /** A call whose reply was read into `r`, leaving the store as it was. */
  function Answered(store: Store, x: Exchange, r: Result<Value>): Call {
    Call(Some(x.sent), store, r)
  }

  // ---------------------------------------------------------------------------
  // Input checks

  /** The sort-key check: a falsy key means "time"; a truthy one must be one of
      `allowed` (compared as a string, so only a string can match). */
  function SortKey(sortBy: Value, allowed: seq<string>, message: string): (r: Result<string>)
    ensures r.Ok? <==> !Truthy(sortBy) || (sortBy.Str? && sortBy.s in allowed)
    ensures r.Ok? && Truthy(sortBy) ==> r.value == sortBy.s
    ensures r.Ok? && !Truthy(sortBy) ==> r.value == "time"
    ensures r.Err? ==> r.error == Error(message)
  {
    if !Truthy(sortBy) then Ok("time")
    else if sortBy.Str? && sortBy.s in allowed then Ok(sortBy.s)
    else Err(Error(message))
  }

  /** Both vocabularies contain "time", and each has a key the other refuses. */
  lemma SortVocabularies()
    ensures SortKey(Str("time"), BookmarkSortKeys, SortByClicksMessage) == Ok("time")
    ensures SortKey(Str("time"), HistorySortKeys, SortByCountMessage) == Ok("time")
    ensures SortKey(Str("click_count"), BookmarkSortKeys, SortByClicksMessage) == Ok("click_count")
    ensures SortKey(Str("click_count"), HistorySortKeys, SortByCountMessage) == Err(Error(SortByCountMessage))
    ensures SortKey(Str("count"), HistorySortKeys, SortByCountMessage) == Ok("count")
    ensures SortKey(Str("count"), BookmarkSortKeys, SortByClicksMessage) == Err(Error(SortByClicksMessage))
  {
    assert "click_count" != "time" && "click_count" != "count";
    assert "count" != "time" && "count" != "click_count";
  }

  /** Whatever sort key is accepted is one the backend knows, or the default. */
  lemma AcceptedSortKeyIsKnown(sortBy: Value, allowed: seq<string>, message: string)
    requires "time" in allowed
    requires SortKey(sortBy, allowed, message).Ok?
    ensures SortKey(sortBy, allowed, message).value in allowed
  {
  }

  /** The check `!v || !v.trim()` on a required text input: its trimmed value,
      the error `emptyMessage` when it is missing or blank, or the TypeError
      `trim` raises on a truthy value that is not a string. */
  function RequiredText(v: Value, emptyMessage: string): (r: Result<string>)
    ensures r.Ok? <==> v.Str? && !Blank(v.s)
    ensures r.Ok? ==> r.value == Trim(v.s) && r.value != ""
    ensures !Truthy(v) || (v.Str? && Blank(v.s)) ==> r == Err(Error(emptyMessage))
    ensures Truthy(v) && !v.Str? ==> r == Err(TypeError)
  {
    match MissingOrBlank(v)
    case Err(e) => Err(e)
    case Ok(missing) => if missing then Err(Error(emptyMessage)) else Ok(Trim(v.s))
  }

  /** The URL checks: present and non-blank, then accepted by the URL parser
      (`new URL(url)` on the untrimmed text); the trimmed URL on success. */
  function CheckedUrl(url: Value, validUrl: string -> bool): (r: Result<string>)
    ensures r.Ok? <==> url.Str? && !Blank(url.s) && validUrl(url.s)
    ensures r.Ok? ==> r.value == Trim(url.s)
    ensures !Truthy(url) || (url.Str? && Blank(url.s)) ==> r == Err(Error(EmptyUrlMessage))
    ensures url.Str? && !Blank(url.s) && !validUrl(url.s) ==> r == Err(Error(InvalidUrlMessage))
    ensures Truthy(url) && !url.Str? ==> r == Err(TypeError)
  {
    match RequiredText(url, EmptyUrlMessage)
    case Err(e) => Err(e)
    case Ok(trimmed) => if validUrl(url.s) then Ok(trimmed) else Err(Error(InvalidUrlMessage))
  }

  /** `tag.length` for a truthy tag: a string's UTF-16 length, an array's element
      count, an object's numeric `length` property; no number otherwise. */
  function TagLength(tag: Value): (n: Option<int>)
    ensures tag.Str? ==> n == Some(Utf16Length(tag.s))
    ensures tag.Arr? ==> n == Some(|tag.items|)
    ensures tag.Obj? && Get(tag, "length").Num? ==> n == Some(Get(tag, "length").n)
    ensures n.Some? ==> tag.Str? || tag.Arr? || tag.Obj?
  {
    match tag
    case Str(s) => Some(Utf16Length(s))
    case Arr(items, _) => Some(|items|)
    case Obj(_) => if Get(tag, "length").Num? then Some(Get(tag, "length").n) else None
    case _ => None
  }

  /** `tag && tag.length > 50`. */
  predicate TagTooLong(tag: Value) {
    Truthy(tag) && TagLength(tag).Some? && TagLength(tag).value > MaxTagLength
  }

  /** The bookmark checks shared by `addBookmark` and `deleteBookmark`, and the
      request data they build: the trimmed URL and the tag, `"default"` when falsy. */
  function BookmarkRequest(data: Value, validUrl: string -> bool): (r: Result<Value>)
    ensures Nullish(data) ==> r == Err(TypeError)
    ensures !Nullish(data) && CheckedUrl(Get(data, "url"), validUrl).Err? ==>
      r == Err(CheckedUrl(Get(data, "url"), validUrl).error)
    ensures r.Ok? <==> !Nullish(data) && CheckedUrl(Get(data, "url"), validUrl).Ok? && !TagTooLong(Get(data, "tag"))
    ensures !Nullish(data) && CheckedUrl(Get(data, "url"), validUrl).Ok? && TagTooLong(Get(data, "tag")) ==>
      r == Err(Error(TagTooLongMessage))
    ensures r.Ok? ==> r.value.Obj? && r.value.fields.Keys == {"url", "tag"}
    ensures r.Ok? ==> Get(r.value, "url") == Str(Trim(Get(data, "url").s))
    ensures r.Ok? ==> Get(r.value, "tag") == if Truthy(Get(data, "tag")) then Get(data, "tag") else Str("default")
  {
    if Nullish(data) then Err(TypeError)
    else
      match CheckedUrl(Get(data, "url"), validUrl)
      case Err(e) => Err(e)
      case Ok(url) =>
        var tag := Get(data, "tag");
        if TagTooLong(tag) then Err(Error(TagTooLongMessage))
        else Ok(Obj(map["url" := Str(url), "tag" := if Truthy(tag) then tag else Str("default")]))
  }

  /** For a well-formed URL, a string tag passes exactly when it has at most 50
      UTF-16 units: 50 is accepted and 51 refused. */
  lemma TagLengthBoundary(url: string, tag: string, validUrl: string -> bool)
    requires !Blank(url) && validUrl(url)
    ensures BookmarkRequest(Obj(map["url" := Str(url), "tag" := Str(tag)]), validUrl).Ok?
      <==> Utf16Length(tag) <= 50
  {
    var data := Obj(map["url" := Str(url), "tag" := Str(tag)]);
    assert Get(data, "url") == Str(url);
    assert Get(data, "tag") == Str(tag);
  }

  /** A blank or missing URL is refused with the same message whatever the tag,
      and an absent tag is sent as "default". */
  lemma BlankUrlRefused(url: string, tag: Value, validUrl: string -> bool)
    requires Blank(url)
    ensures BookmarkRequest(Obj(map["url" := Str(url), "tag" := tag]), validUrl) == Err(Error(EmptyUrlMessage))
    ensures BookmarkRequest(Obj(map["tag" := tag]), validUrl) == Err(Error(EmptyUrlMessage))
  {
    var data := Obj(map["url" := Str(url), "tag" := tag]);
    assert Get(data, "url") == Str(url);
    assert Get(Obj(map["tag" := tag]), "url") == Undefined;
  }

  // ---------------------------------------------------------------------------
  // Reading the reply

  /** `response.status === 'error'`. */
  predicate ErrorStatus(response: Value) {
    Get(response, "status") == Str("error")
  }

  /** How the listing functions read the reply: an array is wrapped as a
      success with `message`; an object whose `status` is "error" makes the call
      reject with its message; anything else is returned as it is. */
  function ListOutcome(response: Value, message: string): (r: Result<Value>)
    ensures response.Arr? ==>
      && r.Ok? && Get(r.value, "success") == Bool(true)
      && Get(r.value, "data") == response && Get(r.value, "message") == Str(message)
    ensures Nullish(response) ==> r == Err(TypeError)
    ensures !response.Arr? && ErrorStatus(response) ==> r == Err(ErrorOf(Get(response, "message")))
    ensures !response.Arr? && !Nullish(response) && !ErrorStatus(response) ==> r == Ok(response)
  {
    if response.Arr? then
      Ok(Obj(map["success" := Bool(true), "data" := response, "message" := Str(message)]))
    else if Nullish(response) then Err(TypeError)
    else if ErrorStatus(response) then Err(ErrorOf(Get(response, "message")))
    else Ok(response)
  }

  /** No envelope the wrapper builds itself has the text "error" as its status:
      a listing rejects only for a 2xx JSON object body saying so. */
  lemma ListRejectsOnlyOnErrorBody(url: string, t: Transport, message: string)
    requires t.Responded? ==> ParsedBody(t.response.body)
    ensures ListOutcome(Settle(url, t), message).Err? ==>
      && t.Responded? && Ok2xx(t.response.status) && t.response.body.JsonObject?
      && "status" in t.response.body.fields && t.response.body.fields["status"] == Str("error")
  {
    SettleShape(url, t);
    var v := Settle(url, t);
    if t.Responded? && Ok2xx(t.response.status) && t.response.body.JsonObject? {
    } else if t.Responded? && Ok2xx(t.response.status) && t.response.body.PlainText? {
      assert !ErrorStatus(v);
    } else if t.Responded? && Ok2xx(t.response.status) {
      assert v.Arr?;
    } else {
      assert !ErrorStatus(v);
    }
  }

  /** The merge of the two results `addBookmark` and `deleteBookmark` get back
      when both `local` and `crawler` are truthy: a local failure wins, then a
      crawler failure, else a success carrying both and the local message. */
  function MergeLocalCrawler(response: Value): (r: Result<Value>)
    ensures Nullish(response) ==> r == Err(TypeError)
    ensures !Nullish(response) && !(Truthy(Get(response, "local")) && Truthy(Get(response, "crawler"))) ==>
      r == Ok(response)
    ensures Truthy(Get(response, "local")) && Truthy(Get(response, "crawler")) ==>
      var local := Get(response, "local");
      var crawler := Get(response, "crawler");
      && (ErrorStatus(local) ==> r == Err(ErrorOf(Get(local, "message"))))
      && (!ErrorStatus(local) && ErrorStatus(crawler) ==> r == Err(ErrorOf(Get(crawler, "message"))))
      && (!ErrorStatus(local) && !ErrorStatus(crawler) ==>
            && r.Ok? && Get(r.value, "success") == Bool(true)
            && Get(r.value, "message") == Get(local, "message")
            && Get(Get(r.value, "data"), "local") == local
            && Get(Get(r.value, "data"), "crawler") == crawler)
  {
    if Nullish(response) then Err(TypeError)
    else
      var local := Get(response, "local");
      var crawler := Get(response, "crawler");
      if !(Truthy(local) && Truthy(crawler)) then Ok(response)
      else if ErrorStatus(local) then Err(ErrorOf(Get(local, "message")))
      else if ErrorStatus(crawler) then Err(ErrorOf(Get(crawler, "message")))
      else
        Ok(Obj(map["success" := Bool(true), "message" := Get(local, "message"),
                   "data" := Obj(map["local" := local, "crawler" := crawler])]))
  }

  /** When both halves failed, the local message is the one reported. */
  lemma LocalFailureWins(lm: string, cm: string)
    ensures
      var local := Obj(map["status" := Str("error"), "message" := Str(lm)]);
      var crawler := Obj(map["status" := Str("error"), "message" := Str(cm)]);
      MergeLocalCrawler(Obj(map["local" := local, "crawler" := crawler])) == Err(Error(lm))
  {
    var local := Obj(map["status" := Str("error"), "message" := Str(lm)]);
    var crawler := Obj(map["status" := Str("error"), "message" := Str(cm)]);
    var response := Obj(map["local" := local, "crawler" := crawler]);
    assert Get(response, "local") == local && Get(response, "crawler") == crawler;
    assert ErrorStatus(local);
  }

  /** An object without a `local` part is handed back as it is. */
  lemma NoLocalPart(v: Value)
    requires v.Obj? && "local" !in v.fields
    ensures MergeLocalCrawler(v) == Ok(v)
  {
    assert Get(v, "local") == Undefined;
  }

  /** The wrapper's own failure envelopes have no `local` part, so the merge
      hands them back unchanged instead of rejecting. */
  lemma WrapperFailureNotMerged(url: string, t: Transport)
    requires t.Threw? || !Ok2xx(t.response.status)
    ensures MergeLocalCrawler(Settle(url, t)) == Ok(Settle(url, t))
  {
    if t.Threw? {
      NoLocalPart(HandleError(t.error));
    } else if QuirkApplies(url, t.response.status) {
      NoLocalPart(NotLoggedInEnvelope(400));
    } else {
      NoLocalPart(HttpFailureEnvelope(t.response));
    }
  }
}
