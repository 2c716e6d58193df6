/**
  The search functions of src/services/api.js: the multi-condition bookmark
  search, the prefix service's match and cache clearing, the search history,
  and the AI chat call.
 */
module SearchApi {
  import opened Text
  import opened Values
  import opened Config
  import opened Query
  import opened HttpClient
  import opened ApiCommon

  const SearchedMessage := "搜索成功"
  const MatchedMessage := "匹配成功"
  const CacheClearedMessage := "用户缓存数据清除成功"
  const HistoryMessage := "获取搜索历史成功"
  /** The tag filter label meaning "every tag", which the search leaves out. */
  const AllTagsLabel := "全部"

  // ---------------------------------------------------------------------------
  // Multi-condition search

  /** The tag filter is sent: a non-blank string other than the "every tag" label. */
  predicate IncludesTag(tag: Value) {
    tag.Str? && !Blank(tag.s) && tag.s != AllTagsLabel
  }

  /** The keyword filter is sent: a non-blank string. */
  predicate IncludesKeyword(keyword: Value) {
    keyword.Str? && !Blank(keyword.s)
  }

  /** `x && x.trim()` throws for a truthy value that is not a string. */
  predicate TrimThrows(v: Value) {
    Truthy(v) && !v.Str?
  }

  /** The tag part of the search query. */
  function TagParam(tag: Value): (ps: Result<Params>)
    ensures ps.Ok? <==> !TrimThrows(tag)
    ensures ps.Ok? && IncludesTag(tag) ==> ps.value == [("tag", Trim(tag.s))]
    ensures ps.Ok? && !IncludesTag(tag) ==> ps.value == []
  {
    if !Truthy(tag) then Ok([])
    else match TrimValue(tag)
      case Err(e) => Err(e)
      case Ok(trimmed) => if trimmed != "" && tag.s != AllTagsLabel then Ok([("tag", trimmed)]) else Ok([])
  }

  /** The keyword part of the search query. */
  function KeywordParam(keyword: Value): (ps: Result<Params>)
    ensures ps.Ok? <==> !TrimThrows(keyword)
    ensures ps.Ok? && IncludesKeyword(keyword) ==> ps.value == [("keyword", Trim(keyword.s))]
    ensures ps.Ok? && !IncludesKeyword(keyword) ==> ps.value == []
  {
    if !Truthy(keyword) then Ok([])
    else match TrimValue(keyword)
      case Err(e) => Err(e)
      case Ok(trimmed) => if trimmed != "" then Ok([("keyword", trimmed)]) else Ok([])
  }

  /** The filter part of the search query: the tag part, then the keyword part. */
  function Filters(sp: Value): (r: Result<Params>)
    ensures r.Ok? <==> !TrimThrows(Get(sp, "tag")) && !TrimThrows(Get(sp, "keyword"))
    ensures r.Ok? ==>
      && |r.value| == (if IncludesTag(Get(sp, "tag")) then 1 else 0) + (if IncludesKeyword(Get(sp, "keyword")) then 1 else 0)
      && (IncludesTag(Get(sp, "tag")) ==> r.value[0] == ("tag", Trim(Get(sp, "tag").s)))
      && (IncludesKeyword(Get(sp, "keyword")) ==> r.value[|r.value| - 1] == ("keyword", Trim(Get(sp, "keyword").s)))
  {
    match TagParam(Get(sp, "tag"))
    case Err(e) => Err(e)
    case Ok(tagPart) =>
      match KeywordParam(Get(sp, "keyword"))
      case Err(e) => Err(e)
      case Ok(keywordPart) => Ok(tagPart + keywordPart)
  }

  /**
    The query of `multiSearchBookmarks(searchParams)`: the sort key is checked
    first; then the trimmed tag when it is included, the trimmed keyword when
    it is included, and the sort key last.
   */
  function SearchQuery(sp: Value): (r: Result<Params>)
    ensures Nullish(sp) ==> r == Err(TypeError)
    ensures !Nullish(sp) && SortKey(Get(sp, "sortBy"), BookmarkSortKeys, SortByClicksMessage).Err? ==>
      r == Err(Error(SortByClicksMessage))
    ensures r.Ok? <==>
      && !Nullish(sp)
      && SortKey(Get(sp, "sortBy"), BookmarkSortKeys, SortByClicksMessage).Ok?
      && Filters(sp).Ok?
    ensures r.Ok? ==> |r.value| == |Filters(sp).value| + 1
    ensures r.Ok? ==>
      && r.value[..|r.value| - 1] == Filters(sp).value
      && r.value[|r.value| - 1] == ("sortBy", SortKey(Get(sp, "sortBy"), BookmarkSortKeys, SortByClicksMessage).value)
  {
    if Nullish(sp) then Err(TypeError)
    else
      match SortKey(Get(sp, "sortBy"), BookmarkSortKeys, SortByClicksMessage)
      case Err(e) => Err(e)
      case Ok(key) => SortedLast(Filters(sp), key)
  }

  /** The filters followed by the sort key, or the filters' error. */
  function SortedLast(filters: Result<Params>, key: string): (r: Result<Params>)
    ensures r.Ok? <==> filters.Ok?
    ensures r.Err? ==> r == filters
    ensures r.Ok? ==> |r.value| == |filters.value| + 1
    ensures r.Ok? ==> r.value[..|r.value| - 1] == filters.value && r.value[|r.value| - 1] == ("sortBy", key)
  {
    match filters
    case Err(e) => Err(e)
    case Ok(ps) =>
      assert (ps + [("sortBy", key)])[..|ps|] == ps;
      Ok(ps + [("sortBy", key)])
  }

  /** The "every tag" label is never sent as a filter... */
  lemma AllTagsLabelOmitted()
    ensures TagParam(Str(AllTagsLabel)) == Ok([])
  {
    assert !Blank(AllTagsLabel) by {
      assert !IsJsSpace(AllTagsLabel[0]);
    }
  }

  /** ...but the same label after a space passes the comparison, which looks at
      the untrimmed text, and is sent trimmed: as the label itself. */
  lemma PaddedAllTagsLabelSent()
    ensures TagParam(Str(" " + AllTagsLabel)) == Ok([("tag", AllTagsLabel)])
  {
    var s := " " + AllTagsLabel;
    assert IsJsSpace(s[0]) && !IsJsSpace(s[1]) && !IsJsSpace(s[2]);
    assert TrimStart(s) == TrimStart(s[1..]);
    assert s[1..] == AllTagsLabel;
    assert TrimStart(AllTagsLabel) == AllTagsLabel;
    assert TrimEnd(AllTagsLabel) == AllTagsLabel;
    assert s != AllTagsLabel;
    assert !Blank(s) by {
      assert !IsJsSpace(s[1]);
    }
  }

  /** With no filters and no sort key the query is just `sortBy=time`. */
  lemma EmptySearchQuery()
    ensures SearchQuery(Obj(map[])) == Ok([("sortBy", "time")])
  {
    assert Get(Obj(map[]), "sortBy") == Undefined;
  }

  /** The properties spread into a search result: an object's own fields. */
  function Spread(b: Value): map<string, Value> {
    if b.Obj? then b.fields else map[]
  }

  /** The keys the search adds to each result. */
  const DecorationKeys := {"id", "title", "tags", "clickCount", "createdAt"}

  /** One search result as the front end sees it: its own fields, plus an id
      made of URL and tag, the URL as title, the tag as a one-element list, and
      camel-cased click count and creation time. */
  function Decorate(b: Value): (d: Value)
    ensures d.Obj? && d.fields.Keys == Spread(b).Keys + DecorationKeys
    ensures Get(d, "id") == Str(ToText(Get(b, "url")) + "_" + ToText(Get(b, "tag")))
    ensures Get(d, "title") == Get(b, "url")
    ensures Get(d, "tags") == Array([Get(b, "tag")])
    ensures Get(d, "clickCount") == Get(b, "click_count")
    ensures Get(d, "createdAt") == Get(b, "created_at")
    ensures forall k :: k in Spread(b) && k !in DecorationKeys ==> d.fields[k] == Spread(b)[k]
  {
    Obj(Spread(b) + map["id" := Str(ToText(Get(b, "url")) + "_" + ToText(Get(b, "tag"))),
                        "title" := Get(b, "url"),
                        "tags" := Array([Get(b, "tag")]),
                        "clickCount" := Get(b, "click_count"),
                        "createdAt" := Get(b, "created_at")])
  }

  /** Every result decorated, or the TypeError of reading a null result's URL. */
  function DecorateAll(items: seq<Value>): (r: Result<seq<Value>>)
    ensures r.Ok? <==> forall i :: 0 <= i < |items| ==> !Nullish(items[i])
    ensures r.Err? ==> r.error == TypeError
    ensures r.Ok? ==> |r.value| == |items| && forall i :: 0 <= i < |items| ==> r.value[i] == Decorate(items[i])
  {
    if exists i :: 0 <= i < |items| && Nullish(items[i]) then Err(TypeError)
    else Ok(seq(|items|, i requires 0 <= i < |items| => Decorate(items[i])))
  }

  /** How the search reads the reply: an array becomes the decorated results,
      an error status rejects, anything else is returned as is. */
  function SearchOutcome(response: Value): (r: Result<Value>)
    ensures response.Arr? ==>
      (r.Ok? <==> DecorateAll(response.items).Ok?)
    ensures response.Arr? && r.Ok? ==>
      && Get(r.value, "success") == Bool(true)
      && Get(r.value, "message") == Str(SearchedMessage)
      && Get(r.value, "data") == Array(DecorateAll(response.items).value)
    ensures Nullish(response) ==> r == Err(TypeError)
    ensures !response.Arr? && ErrorStatus(response) ==> r == Err(ErrorOf(Get(response, "message")))
    ensures !response.Arr? && !Nullish(response) && !ErrorStatus(response) ==> r == Ok(response)
  {
    if response.Arr? then
      match DecorateAll(response.items)
      case Err(e) => Err(e)
      case Ok(ds) => Ok(Obj(map["success" := Bool(true), "data" := Array(ds), "message" := Str(SearchedMessage)]))
    else if Nullish(response) then Err(TypeError)
    else if ErrorStatus(response) then Err(ErrorOf(Get(response, "message")))
    else Ok(response)
  }

  /** `multiSearchBookmarks(searchParams)`. */
  function MultiSearch(cfg: EnvConfig, store: Store, sp: Value, t: Transport): (c: Call)
    ensures c.store == store
    ensures c.sent.Some? <==> SearchQuery(sp).Ok?
    ensures c.sent.None? ==> c.result == Err(SearchQuery(sp).error)
    ensures c.sent.Some? ==>
      && c.sent.value == Prepare(ClientOf(cfg), store, WithQuery(Path(Endpoint.MultiSearch), SearchQuery(sp).value), GetOptions())
      && c.result == SearchOutcome(Settle(c.sent.value.url, t))
  {
    match SearchQuery(sp)
    case Err(e) => Refused(store, e)
    case Ok(ps) =>
      var x := Dispatch(cfg, store, WithQuery(Path(Endpoint.MultiSearch), ps), GetOptions(), t);
      Answered(store, x, SearchOutcome(x.reply))
  }

  /** A result with URL "u" and tag "a" gets the id "u_a" and the tags ["a"]. */
  lemma DecorationExample()
    ensures
      var d := Decorate(Obj(map["url" := Str("u"), "tag" := Str("a"), "click_count" := Num(3)]));
      Get(d, "id") == Str("u_a") && Get(d, "tags") == Array([Str("a")]) && Get(d, "clickCount") == Num(3)
  {
    var b := Obj(map["url" := Str("u"), "tag" := Str("a"), "click_count" := Num(3)]);
    assert Get(b, "url") == Str("u") && Get(b, "tag") == Str("a");
  }

  // ---------------------------------------------------------------------------
  // Prefix service

  /** How `prefixMatch` reads the reply: an array of results is a success, a
      truthy `error` rejects with it, anything else is returned as is. */
  function MatchOutcome(response: Value): (r: Result<Value>)
    ensures Nullish(response) ==> r == Err(TypeError)
    ensures Get(response, "results").Arr? ==>
      && r.Ok?
      && Get(r.value, "success") == Bool(true)
      && Get(r.value, "message") == Str(MatchedMessage)
      && Get(Get(r.value, "data"), "results") == Get(response, "results")
      && Get(Get(r.value, "data"), "userid") == Get(response, "userid")
      && Get(Get(r.value, "data"), "language") == Get(response, "language")
    ensures !Get(response, "results").Arr? && Truthy(Get(response, "error")) ==>
      r == Err(ErrorOf(Get(response, "error")))
    ensures !Nullish(response) && !Get(response, "results").Arr? && !Truthy(Get(response, "error")) ==>
      r == Ok(response)
  {
    if Nullish(response) then Err(TypeError)
    else if Get(response, "results").Arr? then
      Ok(Obj(map["success" := Bool(true),
                 "data" := Obj(map["results" := Get(response, "results"), "userid" := Get(response, "userid"),
                                   "language" := Get(response, "language")]),
                 "message" := Str(MatchedMessage)]))
    else if Truthy(Get(response, "error")) then Err(ErrorOf(Get(response, "error")))
    else Ok(response)
  }

  /** `prefixMatch(userid, prefix)`: both must be non-blank strings; a GET of
      the prefix service's match path with both trimmed. */
  function PrefixMatch(cfg: EnvConfig, store: Store, userid: Value, prefix: Value, t: Transport): (c: Call)
    ensures c.store == store
    ensures c.sent.Some? <==> userid.Str? && !Blank(userid.s) && prefix.Str? && !Blank(prefix.s)
    ensures RequiredText(userid, EmptyUseridMessage).Err? ==> c.result == Err(RequiredText(userid, EmptyUseridMessage).error)
    ensures RequiredText(userid, EmptyUseridMessage).Ok? && RequiredText(prefix, EmptyPrefixMessage).Err? ==>
      c.result == Err(RequiredText(prefix, EmptyPrefixMessage).error)
    ensures c.sent.Some? ==>
      && c.sent.value == Prepare(ClientOf(cfg), store,
                                 WithQuery(PrefixTreeApiUrl(cfg, Path(Endpoint.PrefixMatch)),
                                           [("userid", Trim(userid.s)), ("prefix", Trim(prefix.s))]),
                                 GetOptions())
      && c.result == MatchOutcome(Settle(c.sent.value.url, t))
  {
    match RequiredText(userid, EmptyUseridMessage)
    case Err(e) => Refused(store, e)
    case Ok(u) =>
      match RequiredText(prefix, EmptyPrefixMessage)
      case Err(e) => Refused(store, e)
      case Ok(p) =>
        var url := WithQuery(PrefixTreeApiUrl(cfg, Path(Endpoint.PrefixMatch)), [("userid", u), ("prefix", p)]);
        var x := Dispatch(cfg, store, url, GetOptions(), t);
        Answered(store, x, MatchOutcome(x.reply))
  }

  /** Every failure envelope of the wrapper has a truthy `error` code, so where
      the listings resolve with the envelope, the prefix match rejects with the
      code as the message. */
  lemma PrefixMatchRejectsFailures(url: string, t: Transport)
    requires t.Threw? || !Ok2xx(t.response.status)
    ensures MatchOutcome(Settle(url, t)).Err?
    ensures t.Responded? ==> MatchOutcome(Settle(url, t)) == Err(Error("HTTP_ERROR"))
    ensures t.Threw? && Classify(t.error) == NetworkFailure ==> MatchOutcome(Settle(url, t)) == Err(Error("NETWORK_ERROR"))
    ensures t.Threw? && Classify(t.error) == TimeoutFailure ==> MatchOutcome(Settle(url, t)) == Err(Error("TIMEOUT_ERROR"))
  {
    if t.Threw? {
      ThrownRejects(t.error);
      assert Settle(url, t) == HandleError(t.error);
    } else {
      HttpFailureRejects(url, t.response);
    }
  }

  /** A rejected `fetch` becomes an envelope whose code rejects the match. */
  lemma ThrownRejects(e: JsError)
    ensures MatchOutcome(HandleError(e)).Err?
    ensures Classify(e) == NetworkFailure ==> MatchOutcome(HandleError(e)) == Err(Error("NETWORK_ERROR"))
    ensures Classify(e) == TimeoutFailure ==> MatchOutcome(HandleError(e)) == Err(Error("TIMEOUT_ERROR"))
  {
    match Classify(e)
    case NetworkFailure => CodedFailureRejects(HandleError(e), "NETWORK_ERROR");
    case TimeoutFailure => CodedFailureRejects(HandleError(e), "TIMEOUT_ERROR");
    case UnknownFailure => CodedFailureRejects(HandleError(e), "UNKNOWN_ERROR");
  }

  /** A non-2xx reply, the status-check quirk included, rejects the match with `HTTP_ERROR`. */
  lemma HttpFailureRejects(url: string, r: Received)
    requires !Ok2xx(r.status)
    ensures MatchOutcome(Settle(url, Responded(r))) == Err(Error("HTTP_ERROR"))
  {
    if QuirkApplies(url, r.status) {
      CodedFailureRejects(NotLoggedInEnvelope(400), "HTTP_ERROR");
      assert Settle(url, Responded(r)) == NotLoggedInEnvelope(400);
    } else {
      CodedFailureRejects(HttpFailureEnvelope(r), "HTTP_ERROR");
    }
  }

  /** An object with an error code and no results rejects with that code. */
  lemma CodedFailureRejects(v: Value, code: string)
    requires v.Obj? && "results" !in v.fields && Get(v, "error") == Str(code) && code != ""
    ensures MatchOutcome(v) == Err(Error(code))
  {
    assert Get(v, "results") == Undefined;
  }

  /** How `prefixTreeLogout` reads the reply: a truthy message and user id is a
      success, a truthy `error` rejects with it, anything else is returned as is. */
  function CacheClearOutcome(response: Value): (r: Result<Value>)
    ensures Nullish(response) ==> r == Err(TypeError)
    ensures Truthy(Get(response, "message")) && Truthy(Get(response, "userid")) ==>
      && r.Ok?
      && Get(r.value, "success") == Bool(true)
      && Get(r.value, "message") == Str(CacheClearedMessage)
      && Get(Get(r.value, "data"), "message") == Get(response, "message")
      && Get(Get(r.value, "data"), "userid") == Get(response, "userid")
    ensures !(Truthy(Get(response, "message")) && Truthy(Get(response, "userid"))) && Truthy(Get(response, "error")) ==>
      r == Err(ErrorOf(Get(response, "error")))
    ensures
      && !Nullish(response)
      && !(Truthy(Get(response, "message")) && Truthy(Get(response, "userid")))
      && !Truthy(Get(response, "error"))
      ==> r == Ok(response)
  {
    if Nullish(response) then Err(TypeError)
    else if Truthy(Get(response, "message")) && Truthy(Get(response, "userid")) then
      Ok(Obj(map["success" := Bool(true),
                 "data" := Obj(map["message" := Get(response, "message"), "userid" := Get(response, "userid")]),
                 "message" := Str(CacheClearedMessage)]))
    else if Truthy(Get(response, "error")) then Err(ErrorOf(Get(response, "error")))
    else Ok(response)
  }

  /** `prefixTreeLogout(userid)`: a non-blank user id, POSTed trimmed to the
      prefix service's logout path (with the stored token, as for any POST). */
  function PrefixTreeLogout(cfg: EnvConfig, store: Store, userid: Value, t: Transport): (c: Call)
    ensures c.store == store
    ensures c.sent.Some? <==> userid.Str? && !Blank(userid.s)
    ensures c.sent.None? ==> c.result == Err(RequiredText(userid, EmptyUseridMessage).error)
    ensures c.sent.Some? ==>
      && c.sent.value == Prepare(ClientOf(cfg), store, PrefixTreeApiUrl(cfg, Path(Endpoint.PrefixTreeLogout)),
                                 PostOptions(Obj(map["userid" := Str(Trim(userid.s))])))
      && c.result == CacheClearOutcome(Settle(c.sent.value.url, t))
  {
    match RequiredText(userid, EmptyUseridMessage)
    case Err(e) => Refused(store, e)
    case Ok(u) =>
      var x := Dispatch(cfg, store, PrefixTreeApiUrl(cfg, Path(Endpoint.PrefixTreeLogout)),
                        PostOptions(Obj(map["userid" := Str(u)])), t);
      Answered(store, x, CacheClearOutcome(x.reply))
  }

  /** A blank user id is refused before anything is sent, by both prefix calls. */
  lemma BlankUseridSendsNothing(cfg: EnvConfig, store: Store, userid: string, prefix: Value, t: Transport)
    requires Blank(userid)
    ensures PrefixMatch(cfg, store, Str(userid), prefix, t) == Refused(store, Error(EmptyUseridMessage))
    ensures PrefixTreeLogout(cfg, store, Str(userid), t) == Refused(store, Error(EmptyUseridMessage))
  {
  }

  // ---------------------------------------------------------------------------
  // Search history

  /** A history entry's query is kept: a non-blank string (kept untrimmed). */
  predicate Kept(q: Value) {
    q.Str? && !Blank(q.s)
  }

  /** The kept queries of `items`, in order. */
  function KeptQueries(items: seq<Value>): seq<Value> {
    if items == [] then []
    else
      var q := Get(items[|items| - 1], "query");
      KeptQueries(items[..|items| - 1]) + (if Kept(q) then [q] else [])
  }

  /** Reading `item.query` of a null entry, or trimming a truthy non-string query, throws. */
  predicate EntryThrows(item: Value) {
    Nullish(item) || TrimThrows(Get(item, "query"))
  }

  predicate HistoryThrows(items: seq<Value>) {
    exists i :: 0 <= i < |items| && EntryThrows(items[i])
  }

  /** The `queries` of the history: the kept queries, or the TypeError. */
  function Queries(items: seq<Value>): (r: Result<seq<Value>>)
    ensures r.Ok? <==> !HistoryThrows(items)
    ensures r.Err? ==> r.error == TypeError
    ensures r.Ok? ==> r.value == KeptQueries(items)
  {
    if HistoryThrows(items) then Err(TypeError) else Ok(KeptQueries(items))
  }

  /** Filtering distributes over concatenation, so the kept queries keep their order. */
  lemma {:induction false} KeptQueriesAppend(a: seq<Value>, b: seq<Value>)
    ensures KeptQueries(a + b) == KeptQueries(a) + KeptQueries(b)
    decreases |b|
  {
    if b == [] {
      assert a + b == a;
    } else {
      var last := b[|b| - 1];
      assert (a + b)[..|a + b| - 1] == a + b[..|b| - 1];
      KeptQueriesAppend(a, b[..|b| - 1]);
    }
  }

  /** A value is among the kept queries exactly when it is the query of some
      entry and is a non-blank string. */
  lemma {:induction false} KeptQueriesMembers(items: seq<Value>, q: Value)
    ensures q in KeptQueries(items) <==> Kept(q) && exists i :: 0 <= i < |items| && Get(items[i], "query") == q
    decreases |items|
  {
    if items != [] {
      var init := items[..|items| - 1];
      KeptQueriesMembers(init, q);
      if q in KeptQueries(init) {
        var i :| 0 <= i < |init| && Get(init[i], "query") == q;
        assert Get(items[i], "query") == q;
      }
      if Kept(q) && exists i :: 0 <= i < |items| && Get(items[i], "query") == q {
        var i :| 0 <= i < |items| && Get(items[i], "query") == q;
        if i < |items| - 1 {
          assert Get(init[i], "query") == q;
        }
      }
    }
  }

  /** At most one kept query per entry. */
  lemma {:induction false} KeptQueriesLength(items: seq<Value>)
    ensures |KeptQueries(items)| <= |items|
    decreases |items|
  {
    if items != [] {
      KeptQueriesLength(items[..|items| - 1]);
    }
  }

  /** The history's queries, collected in one pass the way `map` then `filter` do. */
  method CollectQueries(items: seq<Value>) returns (ok: bool, qs: seq<Value>)
    ensures ok <==> Queries(items).Ok?
    ensures ok ==> qs == Queries(items).value
  {
    qs := [];
    var i := 0;
    while i < |items|
      invariant 0 <= i <= |items|
      invariant !HistoryThrows(items[..i])
      invariant qs == KeptQueries(items[..i])
    {
      var item := items[i];
      if EntryThrows(item) {
        assert HistoryThrows(items) by {
          assert 0 <= i < |items| && EntryThrows(items[i]);
        }
        return false, [];
      }
      var q := Get(item, "query");
      if Kept(q) {
        qs := qs + [q];
      }
      assert items[..i + 1][..i] == items[..i];
      var seen := items[..i + 1];
      assert !HistoryThrows(seen) by {
        forall j | 0 <= j < i + 1
          ensures !EntryThrows(seen[j])
        {
          if j < i {
            assert seen[j] == items[..i][j];
          }
        }
      }
      i := i + 1;
    }
    assert items[..i] == items;
    return true, qs;
  }

  /** How the history reads the reply: an array becomes the history together
      with its kept queries, an error status rejects, anything else is returned as is. */
  function HistoryOutcome(response: Value): (r: Result<Value>)
    ensures response.Arr? ==> (r.Ok? <==> Queries(response.items).Ok?)
    ensures response.Arr? && r.Ok? ==>
      && Get(r.value, "success") == Bool(true)
      && Get(r.value, "message") == Str(HistoryMessage)
      && Get(Get(r.value, "data"), "history") == response
      && Get(Get(r.value, "data"), "queries") == Array(KeptQueries(response.items))
    ensures Nullish(response) ==> r == Err(TypeError)
    ensures !response.Arr? && ErrorStatus(response) ==> r == Err(ErrorOf(Get(response, "message")))
    ensures !response.Arr? && !Nullish(response) && !ErrorStatus(response) ==> r == Ok(response)
  {
    if response.Arr? then
      match Queries(response.items)
      case Err(e) => Err(e)
      case Ok(qs) =>
        Ok(Obj(map["success" := Bool(true),
                   "data" := Obj(map["history" := response, "queries" := Array(qs)]),
                   "message" := Str(HistoryMessage)]))
    else if Nullish(response) then Err(TypeError)
    else if ErrorStatus(response) then Err(ErrorOf(Get(response, "message")))
    else Ok(response)
  }

  /** `getSearchHistory(sortBy)`: the sort-key check against "time" and
      "count", then a GET with the key as the only query parameter. */
  function GetSearchHistory(cfg: EnvConfig, store: Store, sortBy: Value, t: Transport): (c: Call)
    ensures c.store == store
    ensures c.sent.Some? <==> SortKey(sortBy, HistorySortKeys, SortByCountMessage).Ok?
    ensures c.sent.None? ==> c.result == Err(Error(SortByCountMessage))
    ensures c.sent.Some? ==>
      var key := SortKey(sortBy, HistorySortKeys, SortByCountMessage).value;
      && c.sent.value == Prepare(ClientOf(cfg), store, WithQuery(Path(SearchHistory), [("sortBy", key)]), GetOptions())
      && c.result == HistoryOutcome(Settle(c.sent.value.url, t))
  {
    match SortKey(sortBy, HistorySortKeys, SortByCountMessage)
    case Err(e) => Refused(store, e)
    case Ok(key) =>
      var x := Dispatch(cfg, store, WithQuery(Path(SearchHistory), [("sortBy", key)]), GetOptions(), t);
      Answered(store, x, HistoryOutcome(x.reply))
  }

  // ---------------------------------------------------------------------------
  // AI helper

  /** `chatWithAI(chatData)`: a POST of the chat data, returned as the wrapper built it. */
  function ChatWithAi(cfg: EnvConfig, store: Store, chatData: Value, t: Transport): (c: Call)
    ensures c.store == store && c.sent.Some?
    ensures c.sent.value == Prepare(ClientOf(cfg), store, Path(AiChat), PostOptions(chatData))
    ensures c.result == Ok(Settle(c.sent.value.url, t))
  {
    var x := Dispatch(cfg, store, Path(AiChat), PostOptions(chatData), t);
    Answered(store, x, Ok(x.reply))
  }
}
