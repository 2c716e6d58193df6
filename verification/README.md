# Bookmark client data-access layer, modelled in Dafny

This project models the client-side data-access layer of a bookmark web
application. The layer has three parts.

- **HTTP wrapper** (`src/services/http-client.js`). It builds each request: the
  URL against the base URL, the headers with token injection, and the rule that
  only non-GET requests carry a body. It then turns whatever comes back into
  one value callers can branch on. That value may be a JSON object or array
  with a synthesised `success`, the "true"/"false" login text, plain text, an
  `HTTP_<status>` failure, or the status-check 400 that means "not logged in".
  Transport rejections become `NET_001`/`NET_002`/`NET_003` failures. The
  wrapper also holds the session: a token in localStorage, or none.
- **Domain API functions** (`src/services/api.js`). Login stores the token and
  profile and flattens the tag-grouped bookmarks into a list plus tag counts.
  The rest are logout, the login-status check, adding, deleting and listing
  bookmarks, click recording, multi-condition search, the prefix service
  (match and cache clearing), search history, AI chat, and the current-user
  accessors. Each function's input checks run before anything is sent.
- **Endpoint and environment registry** (`src/config/api.config.js`). It holds
  the endpoint paths, the environment table picked by the deployment tag, URL
  building, default headers and the stored user profile.

## How the model is built

- JavaScript values are a datatype (`Values.Value`): undefined, null, booleans,
  integers, strings, arrays (with extra named properties, because the wrapper
  attaches `success` to an array) and objects. A rejected promise is a
  `Thrown`: an `Error` with a message, an engine `TypeError`, or the
  `SyntaxError` of a failed parse.
- localStorage is a `map<string, string>`. Every operation that writes to it
  returns the new map.
- The network call is an input (`HttpClient.Transport`): either a received
  response (status, status text, body read as a JSON object, a JSON array or
  text) or the error `fetch` rejected with (its `name` and `message`).
- `JSON.stringify`, `JSON.parse` and the `new URL(...)` syntax check are
  function parameters (`encode`, `decode`, `validUrl`). The `URLSearchParams`
  serialisation is modelled exactly, as UTF-8 percent-encoding (`Query`).
- Each API function returns a `Call`. It records the request it sent (none
  when an input check threw first), the store afterwards, and how the returned
  promise settles.

Modules, in dependency order: `Text`, `Values`, `Query`, `Config`, `Session`,
`HttpClient`, `Routing`, `LoginData`, `ApiCommon`, `AuthApi`, `BookmarkApi`,
`SearchApi`, `Registry`.

## Behaviour worth noting

- **Body rule.** A request body is sent when it is *truthy*, not merely
  non-null (src/services/http-client.js:185-187). `0`, `""` and `false` are
  never sent. `HttpClient.BodyFor` states the rule as the code has it.
- **"true"/"false" text.** This text becomes a success whatever the status,
  but only inside `handleResponse`. On a non-2xx status the wrapper puts that
  value under `data` of an `HTTP_<status>` failure, or returns the
  status-check envelope.
- **Envelope shape.** Several API functions hand back whatever the wrapper
  built. That includes a 2xx JSON array to `login` without a token, which
  returns the array itself, with the `success` property attached. The model
  returns exactly that, not an envelope.
- **All-tags label.** The multi-search compares the *untrimmed* tag with
  "全部". So " 全部" passes the check and is sent trimmed, as `tag=全部`
  (`SearchApi.PaddedAllTagsLabelSent`).

## Model

| member | source | states |
|---|---|---|
| Values.MissingOrBlank | src/services/api.js:192 | `!v \|\| !v.trim()` is true for a falsy value, tests blankness of a string, and throws a TypeError for any other truthy value |
| Values.TrimValue | src/services/api.js:469-470 | trimming succeeds exactly on strings, giving the ECMAScript-whitespace trim; anything else is a TypeError |
| Values.ErrorOf | src/services/api.js:277 | `new Error(m)` carries the string itself, and no message for undefined |
| Query.Serialize | src/services/api.js:260-262 | every character of a serialised query is unreserved, `%`, a hex digit, `=`, `&` or `+`, so it never contains `/`; no pairs give the empty string |
| Query.EncodeUnreservedIsIdentity | src/services/api.js:260-262 | a value of unreserved ASCII characters (such as "time" or "click_count") is sent as itself |
| Config.EnvTableShape | src/config/api.config.js:336-360 | every environment reads both base URLs from outside and waits 30000 ms; debugging is off exactly in production |
| Config.Lookup | src/config/api.config.js:365 | the table has an entry exactly for the three upper-case tags, and the entry found is the one named |
| Config.SelectDeployment | src/config/api.config.js:363-366 | an unset or empty tag selects development; an upper-cased tag naming an entry selects it; any other tag falls back to development |
| Config.CurrentEnvConfig | src/config/api.config.js:363-366 | the table entry of the deployment the tag selects: both base URLs from outside, 30000 ms, and debugging on unless production is selected, so an unset or empty tag debugs and a "production" tag in any ASCII case does not |
| Config.Interpolate | src/config/api.config.js:371 | an unset base URL renders as "undefined" in a template literal |
| Config.ApiUrl | src/config/api.config.js:369-372 | the URL is the main base URL followed by exactly the endpoint |
| Config.PrefixTreeApiUrl | src/config/api.config.js:375-378 | the URL is the prefix-service base URL followed by exactly the endpoint |
| Config.DefaultHeaders | src/config/api.config.js:382-397 | always `Content-Type: application/json`; `Authorization` present iff auth is wanted and a non-empty token is stored, and then equal to the token; no other header |
| Config.SetUserData | src/config/api.config.js:414-418 | a truthy profile is stored serialised under the profile key; a falsy one leaves the store unchanged |
| Config.GetUserData | src/config/api.config.js:400-411 | nothing when the key is absent or empty, otherwise what the parser makes of it (nothing when it fails) |
| Config.ClearUserData | src/config/api.config.js:421-423 | the profile key is gone and every other key keeps its value |
| Config.UserDataRoundTrip | src/config/api.config.js:400-418 | storing a truthy profile and reading it back yields it, for a serialiser the parser inverts |
| Config.ClearedUserDataIsGone | src/config/api.config.js:400-423 | after clearing, the profile reads as nothing whatever the parser |
| Session.StateOf | src/services/http-client.js:376-394 | the session is authenticated exactly when a non-empty token is stored, and then with that token |
| Session.SetAuthToken | src/services/http-client.js:364-370 | a truthy token is stored as its string form, a falsy one removes the key, and no other key changes |
| Session.GetAuthToken | src/services/http-client.js:376-378 | the stored token exactly when the key is present |
| Session.ClearAuth | src/services/http-client.js:383-386 | token and profile keys are removed and every other key is kept with its value |
| Session.IsAuthenticated | src/services/http-client.js:392-394 | true exactly in the authenticated session state |
| Session.SetAuthTokenTransition | src/services/http-client.js:364-370 | storing a token with a non-empty string form authenticates with exactly that string; otherwise the session ends anonymous |
| Session.ClearAuthTransition | src/services/http-client.js:383-386 | clearing always ends anonymous, and equals removing the token and then clearing the profile |
| HttpClient.HandleResponse | src/services/http-client.js:54-105 | a defined JSON `success` is kept; a missing or `undefined` one is set to the 2xx test with all other fields kept; an array keeps its elements and gains `success`; "true"/"false" text is a success carrying the boolean and the login message; other text carries `success` = 2xx and the text as `message` |
| HttpClient.Classify | src/services/http-client.js:112-137 | network failure iff a TypeError mentioning "fetch"; timeout iff an AbortError (the fetch test first); unknown otherwise |
| HttpClient.HandleError | src/services/http-client.js:112-147 | always `success: false` with exactly four fields, the code of the failure class, and the fixed or passed-through message |
| HttpClient.StatusCode | src/services/http-client.js:220 | the code is `HTTP_` followed by decimal digits whose value is the status, so distinct statuses give distinct codes |
| HttpClient.NotLoggedInEnvelope | src/services/http-client.js:212-224 | the status-check 400 is a success with `isLoggedIn: false`, the "not logged in" message and `HTTP_400` |
| HttpClient.HttpFailureEnvelope | src/services/http-client.js:226-245 | any other non-ok response is a failure coded `HTTP_<status>`, carrying the normalised body as `data` and its truthy message, else the `HTTP <status>: <text>` fallback |
| HttpClient.Settle | src/services/http-client.js:203-252 | a rejection goes to the error classifier, a 2xx to normalisation, a 400 on the status URL to the not-logged-in envelope, everything else to the failure envelope |
| HttpClient.SettleShape | src/services/http-client.js:203-252 | the wrapper never returns a bare string, null or undefined, and its result always has a defined `success` |
| HttpClient.BadRequestQuirk | src/services/http-client.js:208-245 | the same 400 response is a success on the status URL and a failure elsewhere, both coded `HTTP_400` |
| HttpClient.BodyFor | src/services/http-client.js:185-187 | a GET never carries a body; any other verb carries the body exactly when it is truthy, unchanged |
| HttpClient.FullUrl | src/services/http-client.js:165 | a URL starting with "http" is used verbatim, any other is appended to the base URL |
| HttpClient.RequestHeaders | src/services/http-client.js:168-183 | the caller's Content-Type wins over the JSON default; a stored token, when wanted, is `Authorization` and wins over the caller's; otherwise `Authorization` is the caller's; every other header is the caller's |
| HttpClient.Prepare | src/services/http-client.js:155-192 | the request sent has the full URL, the upper-cased verb, the merged headers, the body rule's body, and the call's own timeout or the client's |
| HttpClient.CreateRequestConfig | src/services/http-client.js:32-47 | the caller's headers win over the defaults, token included; other headers are the defaults; same verb and body rules |
| HttpClient.AuthorizationPrecedence | src/services/http-client.js:32-47 | `request` lets the stored token override a caller's `Authorization` while `createRequestConfig` lets the caller's win |
| HttpClient.GetCarriesNoBody | src/services/http-client.js:185-187 | a GET built by either path has no body, whatever body was passed |
| HttpClient.Request | src/services/http-client.js:155-253 | one call sends the prepared request and returns what that exchange settles to on its own full URL |
| HttpClient.ClientFromEnvironment | src/services/http-client.js:18-23 | the client takes the selected environment's main base URL and 30000 ms timeout, and debugs in every deployment but production, including when no tag is set |
| Routing.RegisteredPathShape | src/config/api.config.js:49-170 | every registered path other than the status check's starts with `/` and does not contain the status path |
| Routing.OnlyStatusCheckMatches | src/services/http-client.js:214 | for any query and any base URL without the status path, an endpoint URL contains the status path iff the endpoint is the status check |
| LoginData.Entry | src/services/api.js:61-66 | a flat entry has exactly url, tag, click_count and created_at, each the bookmark's own |
| LoginData.Entries | src/services/api.js:60-67 | one entry per bookmark, in order |
| LoginData.FlatAppend | src/services/api.js:54-69 | flattening distributes over concatenation of group lists |
| LoginData.SkipsNonQualifying | src/services/api.js:55 | a group without a truthy tag or an array of bookmarks adds nothing |
| LoginData.SingleGroup | src/services/api.js:54-67 | one qualifying group contributes exactly its bookmarks' entries in order |
| LoginData.FlatLength | src/services/api.js:77 | the flat list has one entry per bookmark of a qualifying group, the `totalBookmarks` value |
| LoginData.FlatMembership | src/services/api.js:54-69 | every qualifying group's bookmark appears in the flat list, and every flat entry comes from one |
| LoginData.CountsDomain | src/services/api.js:57 | a tag is counted iff it is not `__proto__` and some qualifying group carries it |
| LoginData.CountsLastWins | src/services/api.js:57 | a tag's count is the size of the last qualifying group with that tag |
| LoginData.TagOrderMatchesCounts | src/services/api.js:75 | the tag list names exactly the counted tags, each once |
| LoginData.FlattenGroups | src/services/api.js:49-80 | the nested loops complete iff no step reads a property of null, and then yield the flat list, counts and key order of the reference definitions |
| LoginData.CountsObject | src/services/api.js:76 | the counts object has exactly the counted tags, each with its count |
| LoginData.UserData | src/services/api.js:72-78 | the stored aggregate has exactly the fields user, bookmarks, tags, tagCounts and totalBookmarks: the profile, the flat list, the counted tags in first-seen order, the counts and the total |
| LoginData.ProtoTagNotCounted | src/services/api.js:57 | a group tagged `__proto__` adds its bookmarks to the flat list but changes neither the counts nor the tag list, because that assignment hits the prototype setter |
| LoginData.OneGroupExample | src/services/api.js:49-80 | one group "a" with one bookmark gives one entry, count 1 and total 1 |
| LoginData.EntryKeepsBookmarkTag | src/services/api.js:63 | an entry's tag is the bookmark's own even in a group with another tag |
| ApiCommon.SortKey | src/services/api.js:256-262 | accepted iff falsy or one of the allowed strings; a falsy key is sent as "time"; a refusal carries the function's message |
| ApiCommon.SortVocabularies | src/services/api.js:621-628 | "time" is accepted by both checks, "click_count" only for bookmarks and "count" only for history |
| ApiCommon.AcceptedSortKeyIsKnown | src/services/api.js:256-262 | an accepted key is always one the backend knows |
| ApiCommon.RequiredText | src/services/api.js:296-302 | accepted iff a non-blank string, then trimmed and non-empty; a missing or blank value throws the message; a truthy non-string is a TypeError |
| ApiCommon.CheckedUrl | src/services/api.js:396-414 | accepted iff a non-blank string the URL parser accepts, sent trimmed; a missing or blank URL, or the TypeError of a truthy non-string, is refused first (src/services/api.js:400), and only then does the URL parser refuse (src/services/api.js:405-409) |
| ApiCommon.TagLength | src/services/api.js:204 | `tag.length` is the UTF-16 length of a string, the element count of an array, or an object's numeric `length` |
| ApiCommon.BookmarkRequest | src/services/api.js:192-212 | the checks run in source order; the body sent has exactly the trimmed URL and the tag, or "default" for a falsy tag |
| ApiCommon.TagLengthBoundary | src/services/api.js:204-206 | a string tag with a good URL is accepted iff its UTF-16 length is at most 50 |
| ApiCommon.BlankUrlRefused | src/services/api.js:192-194 | a blank or missing URL is refused with the empty-URL message whatever the tag |
| ApiCommon.ListOutcome | src/services/api.js:264-284 | an array reply is a success carrying it; a reply with status "error" rejects with its message; anything else is returned |
| ApiCommon.ListRejectsOnlyOnErrorBody | src/services/api.js:264-284 | a listing rejects only for a 2xx JSON object whose own status is "error", never for the wrapper's own failures |
| ApiCommon.MergeLocalCrawler | src/services/api.js:218-240 | with both parts, a local error wins, then a crawler error, else a success with the local message and both parts; otherwise the reply is returned |
| ApiCommon.LocalFailureWins | src/services/api.js:220-227 | when both parts failed, the local message is the one reported |
| ApiCommon.WrapperFailureNotMerged | src/services/api.js:218-240 | the wrapper's failure envelopes pass through the merge unchanged |
| AuthApi.Profile | src/services/api.js:30-43 | the stored profile has exactly the twelve kept fields, each read from the user object |
| AuthApi.TokenOutcome | src/services/api.js:21-91 | with a token, login fails with a TypeError when a group read crashes, otherwise succeeds with the login envelope |
| AuthApi.LoginSuccess | src/services/api.js:84-90 | the success envelope carries the login message and the reply's token, user and bookmarks |
| AuthApi.TokenOutcomeWrites | src/services/api.js:21-46 | a login with a token stores the token's string form under the token key and, for a truthy user, the serialised profile; without a truthy user the profile entry keeps its old value |
| AuthApi.TokenOutcomeAggregate | src/services/api.js:48-81 | with an array of groups the serialised aggregate is stored under `userData` unless the flattening throws; otherwise `userData` keeps its old value; no key but the token, profile and aggregate changes |
| AuthApi.LoginOutcome | src/services/api.js:16-104 | a token goes through the token branch; without one a string becomes a failure with it as message and error, anything else is returned; the store changes only in the token branch |
| AuthApi.Login | src/services/api.js:16-18 | login POSTs the credentials without the stored token and settles as the reply handling says |
| AuthApi.LoginAuthenticates | src/services/api.js:21-90 | a reply with a non-empty string token authenticates the session with that token, whatever its bookmark groups; the login succeeds unless a null group or bookmark makes the flattening throw, and then it rejects with a TypeError |
| AuthApi.LoginWithoutTokenPassesThrough | src/services/api.js:93-103 | through the wrapper, a reply without a token is returned unchanged and stores nothing |
| AuthApi.LoginNetworkFailure | src/services/api.js:16-22 | a network failure leaves the store as it was and returns the NET_002 failure |
| AuthApi.Register | src/services/api.js:111-119 | a POST without the stored token of exactly username, email and password; a null argument throws before sending |
| AuthApi.LogoutHeaders | src/services/api.js:129-134 | `Authorization` is set iff a token is stored, to that token, and nothing else |
| AuthApi.Logout | src/services/api.js:125-145 | a bodiless POST that carries the token only in the explicit header; the session is cleared whatever the reply |
| AuthApi.LogoutEndsSession | src/services/api.js:141-144 | after logout the session is anonymous and the profile is gone, on every reply |
| AuthApi.AuthStatusOutcome | src/services/api.js:155-179 | a successful boolean `data` becomes `isLoggedIn`; a successful defined `isLoggedIn` is returned; otherwise a failure with `isLoggedIn: false` and the message or its fallback |
| AuthApi.CheckAuthStatus | src/services/api.js:151-153 | a GET of the status path with the stored token, read as above |
| AuthApi.StatusUrlHasMarker | src/services/api.js:152-153 | the status check's URL always contains the path the wrapper special-cases |
| AuthApi.BadRequestMeansLoggedOut | src/services/api.js:151-168 | a 400 on the status check is a success reporting logged out |
| AuthApi.BooleanTextIsLoginState | src/services/api.js:155-163 | a 2xx "true"/"false" reply becomes that login state |
| AuthApi.TransportFailureMeansLoggedOut | src/services/api.js:170-178 | a transport failure is reported as logged out with the wrapper's message and code |
| AuthApi.CurrentUser | src/services/api.js:694-697 | null when no profile is stored, the parsed profile otherwise, a SyntaxError when it does not parse |
| AuthApi.SetCurrentUser | src/services/api.js:703-705 | the serialised user is stored under the profile key and every other key keeps its value |
| AuthApi.CurrentUserRoundTrip | src/services/api.js:694-712 | setting the current user and reading it back yields it; after clearing it reads as null |
| AuthApi.LoginProfileIsCurrentUser | src/services/api.js:28-46 | the profile login stores is what the current-user accessor returns |
| BookmarkApi.AddBookmark | src/services/api.js:188-245 | sends iff the bookmark checks pass, a POST of the checked body, merged; a refusal sends nothing |
| BookmarkApi.DeleteBookmark | src/services/api.js:332-389 | sends iff the same checks pass, a DELETE carrying the checked body, merged |
| BookmarkApi.AddAndDeleteAgree | src/services/api.js:332-359 | adding and deleting refuse the same inputs with the same error and send the same body, by POST and DELETE |
| BookmarkApi.BlankUrlSendsNothing | src/services/api.js:192-194 | a blank URL sends no request and throws the empty-URL message |
| BookmarkApi.GetAllBookmarks | src/services/api.js:252-285 | sends iff the sort key is accepted, with it as the only parameter, read as a listing |
| BookmarkApi.DefaultSortIsTime | src/services/api.js:252-274 | a missing sort key is sent as "time" and a 2xx array reply is a success carrying that array |
| BookmarkApi.GetBookmarksByTag | src/services/api.js:292-325 | sends iff the tag is a non-blank string, trimmed as the only parameter, read as a listing |
| BookmarkApi.ClickOutcome | src/services/api.js:420-432 | a bare string is a success with it as message; a reply with status "error" rejects; anything else is returned |
| BookmarkApi.RecordBookmarkClick | src/services/api.js:396-437 | sends iff the URL checks pass, a POST of the trimmed URL alone |
| BookmarkApi.ClickStringBranchUnreachable | src/services/api.js:420-426 | the wrapper never yields a bare string, so an accepted click result is the wrapper's own value |
| BookmarkApi.GetUserTags | src/services/api.js:445-448 | a GET of the tag path with the stored token, returned as the wrapper built it |
| SearchApi.TagParam | src/services/api.js:469-471 | the tag is sent trimmed iff a non-blank string other than "全部"; a truthy non-string throws |
| SearchApi.KeywordParam | src/services/api.js:474-476 | the keyword is sent trimmed iff a non-blank string; a truthy non-string throws |
| SearchApi.Filters | src/services/api.js:466-476 | the tag part comes before the keyword part; either throwing refuses the search |
| SearchApi.SearchQuery | src/services/api.js:457-479 | a bad sort key is refused first; otherwise the filters followed by `sortBy` last, defaulting to "time" |
| SearchApi.AllTagsLabelOmitted | src/services/api.js:469 | the "全部" label is never sent as a filter |
| SearchApi.PaddedAllTagsLabelSent | src/services/api.js:469-470 | " 全部" passes the untrimmed comparison and is sent as `tag=全部` |
| SearchApi.EmptySearchQuery | src/services/api.js:479 | with no filters and no sort key the query is just `sortBy=time` |
| SearchApi.Decorate | src/services/api.js:489-496 | a result keeps its own fields and gains `id` = url + "_" + tag, `title` = url, `tags` = [tag], `clickCount` and `createdAt` |
| SearchApi.DecorateAll | src/services/api.js:489-496 | every result is decorated in order, or the TypeError of a null result |
| SearchApi.SearchOutcome | src/services/api.js:484-504 | an array reply is a success with the decorated results; status "error" rejects; anything else is returned |
| SearchApi.MultiSearch | src/services/api.js:457-509 | sends iff the query builds, a GET with that query, read as above |
| SearchApi.DecorationExample | src/services/api.js:491-493 | URL "u" and tag "a" give the id "u_a" and the tags ["a"] |
| SearchApi.MatchOutcome | src/services/api.js:542-558 | an array of results is a success with results, user id and language; a truthy `error` rejects with it; anything else is returned |
| SearchApi.PrefixMatch | src/services/api.js:517-563 | sends iff both user id and prefix are non-blank strings (user id checked first), a GET to the prefix service with both trimmed |
| SearchApi.PrefixMatchRejectsFailures | src/services/api.js:553-556 | every wrapper failure rejects the match with its error code |
| SearchApi.ThrownRejects | src/services/api.js:553-556 | a rejected `fetch` of any class rejects the match, with `NETWORK_ERROR` or `TIMEOUT_ERROR` for those classes |
| SearchApi.HttpFailureRejects | src/services/api.js:553-556 | a non-2xx reply rejects the match with `HTTP_ERROR`, on the status path as elsewhere |
| SearchApi.CacheClearOutcome | src/services/api.js:590-605 | a truthy message and user id is a success; otherwise a truthy `error` rejects; anything else is returned |
| SearchApi.PrefixTreeLogout | src/services/api.js:570-610 | sends iff the user id is a non-blank string, a POST of it trimmed to the prefix service |
| SearchApi.BlankUseridSendsNothing | src/services/api.js:521-527 | a blank user id is refused before anything is sent by both prefix calls |
| SearchApi.Queries | src/services/api.js:636-638 | the history's queries are the kept queries, or the TypeError of a crashing entry |
| SearchApi.KeptQueriesAppend | src/services/api.js:636-638 | the filter distributes over concatenation, so order is kept |
| SearchApi.KeptQueriesMembers | src/services/api.js:636-638 | a value is a kept query iff it is non-blank and the query of some entry |
| SearchApi.KeptQueriesLength | src/services/api.js:636-638 | at most one query per entry |
| SearchApi.CollectQueries | src/services/api.js:636-638 | one pass completes iff the map and filter do, and yields the same queries |
| SearchApi.HistoryOutcome | src/services/api.js:634-653 | an array reply is a success with the history and its queries; status "error" rejects; anything else is returned |
| SearchApi.GetSearchHistory | src/services/api.js:617-658 | sends iff the sort key is "time", "count" or falsy, with it as the only parameter |
| SearchApi.ChatWithAi | src/services/api.js:667-670 | a POST of the chat data with the stored token, returned as the wrapper built it |
| Registry.LoginVerbsMatchRegistry | src/config/api.config.js:53-78 | `login` goes out as the table's POST for the login path and `checkAuthStatus` as its GET for the status path |
| Registry.RegisterVerbsMatchRegistry | src/config/api.config.js:60-71 | `register`, whenever it sends, and `logout` go out with the table's POST |
| Registry.GetEndpointsSendGet | src/config/api.config.js:91-158 | a table fact: the six endpoints besides the status check registered as GET get the verb the GET helper's options send (each function's own contract names the endpoint and options it uses) |
| Registry.PostEndpointsSendPost | src/config/api.config.js:84-168 | a table fact: add, click, chat and prefix-cache clearing are registered as POST, the verb the POST helper's options send (each function's own contract names the endpoint and options it uses) |
| Registry.DeleteEndpointSendsDelete | src/config/api.config.js:105-108 | removal is the one endpoint registered as DELETE, and the delete options send a DELETE |

## Left out

- `fetch`, `AbortController` and the timer are not modelled as such. The outcome of the exchange is an input, and an abort arrives as an `AbortError`. `HttpClient.Prepare` records the abort deadline but does not model time.
- JSON bodies that parse to a primitive (a string, number, boolean or null) are left out. For these, `handleResponse` reads or assigns `success` on a primitive, which throws. The message of that engine TypeError is not modelled, so neither is the class it would fall into.
- A JSON body that fails to parse (a rejection inside `handleResponse`) is left out for the same reason.
- Timestamps (`new Date().toISOString()`) are omitted from every envelope because they are non-deterministic.
- Debug console logging is omitted because it is a side effect only.
- `put`, `patch`, `upload` and `download` are left out. No modelled API function calls them, and the last two are FormData/Blob I/O.
- `getHttpClient` returns the singleton and is not modelled. The exported `isAuthenticated` is the wrapper's, `Session.IsAuthenticated`. `clearCurrentUser` is `Config.ClearUserData`.
- Numbers are integers only, and `toUpperCase` is ASCII-only. Object key order is tracked only for the tag counts (`LoginData.TagOrder`). Integer-like keys, which JavaScript orders first, are not singled out.
- `SearchApi.Decorate` spreads only an object's own fields. Spreading an array or a string result is not modelled.
- `ApiCommon.TagLength` treats an object's `length` as a length only when it is a number. A non-number `length`, which JavaScript would coerce in the comparison, counts as not too long.
- `Values.ToText` renders an object as `[object Object]` and ignores custom `toString` methods.
- `JSON.stringify`, `JSON.parse` and the URL parser are parameters. Their own behaviour is not modelled.
- Each API call is atomic. Interleaving of concurrent calls on the shared store is not modelled.
- `src/utils/jquery-helper.js` (DOM helpers) and `src/config/api.config.template.js` (an unused template) are not part of this model.
- `REQUEST_TEMPLATES`, `RESPONSE_TEMPLATES`, the rest of `ERROR_CODES` and the endpoint descriptions are not modelled, because no modelled code reads them. The three codes `handleError` reads from `ERROR_CODES` (src/services/http-client.js:123, 134, 144) are modelled as their values from src/config/api.config.js:328-332: `NET_002`, `NET_001` and `NET_003` in `HttpClient.Code`.
- Routing.OnlyStatusCheckMatches: requires a base URL that does not itself contain the status path. With a base URL that does contain it, every 400 of every endpoint takes the status-check branch (src/services/http-client.js:214).
