# mtwitter core, modelled in Dafny

This project models the request bookkeeping of the mtwitter client library, a
Node.js client for the Twitter REST API. It covers the part of the library that
does not touch the network:

- **The resource registry and matcher** (`lib/rest.js`). The registry is the
  ordered table of 98 `"VERB path"` keys, each with default rate limits
  (`Endpoints.Registry`). `resourceFromUrl` files a url under the first key
  whose path, read as a case-insensitive, unanchored regular expression, matches
  the url. In that expression every `//` stands for exactly one non-slash
  character. With `post` set, only POST keys are eligible (`Resources`).
- **The client object** (`Rest.Client`). It holds:
  - the request pool, a sequence of queued records;
  - the rate-limit table, a map from registry key to the last
    `x-rate-limit-*` headers seen;
  - a log of callback invocations.
  
  Its methods:
  - `Queue` is `queueRequest`: it checks the arguments in the source's order,
    normalises the url, defaults a POST's content type in place, and appends a
    record.
  - `Drain` is `drainPool`: it gives the prefix of the pool that is dispatched.
  - `Triage` is `handleResponse`: it takes the outcome of one dispatched request.
  - `UpdateRateLimits` is `updateRateLimits`.
- **The error records** (`lib/errors.js`, module `Errors`). These are pure
  constructors of names, messages and code lists.
- **The in-place helpers** (`lib/utils.js`, `lib/util.js`, modules `Utils` and
  `Util`). They are the two merges, which assign properties onto their first
  argument, and `sanitizeOAuthContent`, which rewrites boolean properties to
  strings.

JavaScript values and plain objects live in module `Js`. A `Value` is undefined,
null, a boolean, an integer, a string, a function (known by its identity) or an
object. An object is a `JsObject` whose `props` map the methods update in
place. Truthiness is `Js.Truthy`.

The transport is not modelled: the OAuth or bearer-token HTTP call and
`JSON.parse`. A dispatched request is answered by a `Rest.Outcome`, which is
either a delivered body that parses or does not, or a transport error with an
optional response. The text that Node's status-code table gives for a code is
passed in as `statusText`.

A consequence of "first match wins" is proved in `Resources`. Ten registry keys
can never be returned, for any url and either value of `post`, because an
earlier key that is eligible whenever they are has a path that is a prefix of
theirs. These are all the registry keys shadowed this way:
- `POST statuses/update_with_media` loses to `POST statuses/update`;
- `GET direct_messages/sent` and `GET direct_messages/show` lose to
  `GET direct_messages`;
- `POST account/update_profile_background_image`,
  `POST account/update_profile_colors`, `POST account/update_profile_image` and
  `POST account/update_profile_banner` lose to `POST account/update_profile`;
- `GET users/suggestions//members` loses to `GET users/suggestions/`;
- `GET lists/subscribers/show` loses to `GET lists/subscribers`;
- `GET lists/members/destroy_all` loses to `POST lists/members/destroy`. A POST
  key is eligible with `post` unset as well as set, so it is eligible whenever a
  GET key is.

## Model

| member | source | states |
|---|---|---|
| Endpoints.IsKeyRegistered | lib/rest.js:50 | a string is a registry key exactly when some entry's `verb + " " + path` spells it |
| Endpoints.StatusesEntries | lib/rest.js:175-207 | every one of the first eleven entries has a path starting with `statu` |
| Endpoints.StatusesUpdateEntry | lib/rest.js:197 | entry 7 is `POST statuses/update`, without rate limits |
| Endpoints.UpdateWithMediaEntry | lib/rest.js:203 | entry 9 is `POST statuses/update_with_media`, without rate limits |
| Endpoints.SearchEntry | lib/rest.js:210-212 | entry 11 is `GET search/tweets` with limits 180/450 |
| Endpoints.DirectMessagesHead | lib/rest.js:214 | entry 12 is `GET direct_messages` with limits 15/0 |
| Endpoints.DirectMessagesEntries | lib/rest.js:217-222 | entries 13 and 14 are `GET direct_messages/sent` and `GET direct_messages/show` |
| Endpoints.DirectMessagesKey | lib/rest.js:214 | entry 12's key is `GET direct_messages` |
| Endpoints.UpdateProfileEntry | lib/rest.js:279 | entry 33 is `POST account/update_profile` with limits 0/0 |
| Endpoints.BackgroundImageEntry | lib/rest.js:282 | entry 34 is `POST account/update_profile_background_image` with limits 0/0 |
| Endpoints.ProfileColorsEntry | lib/rest.js:285 | entry 35 is `POST account/update_profile_colors` with limits 0/0 |
| Endpoints.ProfileImageEntry | lib/rest.js:288 | entry 36 is `POST account/update_profile_image` with limits 0/0 |
| Endpoints.ProfileBannerEntry | lib/rest.js:324 | entry 47 is `POST account/update_profile_banner`, without rate limits |
| Endpoints.SuggestionsEntries | lib/rest.js:331-339 | entries 49 to 51 are `users/suggestions/`, `users/suggestions` and `users/suggestions//members` |
| Endpoints.ListsEntries | lib/rest.js:361-408 | entries 58, 60, 62 and 73 are `POST lists/members/destroy`, `GET lists/subscribers`, `GET lists/subscribers/show`, `GET lists/members/destroy_all` |
| Resources.FoldSlash | lib/rest.js:40 | case folding maps `/` and only `/` to `/` |
| Resources.CompileShape | lib/rest.js:40 | a path without `//` compiles to its own characters, one literal each; every wildcard the compiler emits sits between two literal slashes |
| Resources.Test | lib/rest.js:41 | the empty pattern matches every url; a match needs a url at least as long as the pattern |
| Resources.CompileCorrect | lib/rest.js:40 | the compiled expression matches at position i exactly when the path, read directly with `//` as one non-slash character between slashes, matches there |
| Resources.PlainPathMatchesAt | lib/rest.js:40-41 | a path without `//` matches at i exactly when each of its characters equals the url's, ignoring case |
| Resources.PlainPathIsSubstring | lib/rest.js:40-41 | a path without `//` matches a url exactly when its lower-cased form is a substring of the lower-cased url |
| Resources.WildcardMatchesAt | lib/rest.js:40 | `a//b` matches exactly where `a` matches, then `/c/` for one non-slash `c`, then `b` |
| Resources.PathAppend | lib/rest.js:40 | matching a concatenation is matching its parts one after the other |
| Resources.PathMatchesAtInRange | lib/rest.js:40-41 | a match never starts past the end of the url |
| Resources.Winner | lib/rest.js:34-44 | the index the scan keeps is among the entries already scanned |
| Resources.WinnerIsFirstHit | lib/rest.js:34-44 | the scan keeps nothing exactly when no eligible entry matches; otherwise it keeps the first eligible matching entry |
| Resources.Scan | lib/rest.js:33-45 | the loop over the entries returns the key of the first eligible matching entry, or nothing |
| Resources.ResourceFromUrl | lib/rest.js:30-46 | `resourceFromUrl` scans the registry as `Scan` does |
| Resources.ResourceOfIsFirstMatch | lib/rest.js:34-45 | the result is nothing exactly when no eligible entry matches; otherwise it is the key of the first eligible matching entry in registry order |
| Resources.ResourceOfIsKey | lib/rest.js:31-42 | any result is a registry key; with `post` set it starts with `POST ` |
| Resources.ShadowedByPrefix | lib/rest.js:36-43 | a later entry whose path extends an earlier eligible entry's path is never returned |
| Resources.WildcardImpliesSlash | lib/rest.js:40 | a url matching `a//b` also matches `a/` |
| Resources.ShadowedByWildcardPrefix | lib/rest.js:36-43 | a later entry `a//b` after an entry `a/` is never returned |
| Resources.UpdateWithMediaShadowed | lib/rest.js:197-205 | `POST statuses/update_with_media` is never returned |
| Resources.ProfileBackgroundImageShadowed | lib/rest.js:279-284 | `POST account/update_profile_background_image` is never returned |
| Resources.ProfileColorsShadowed | lib/rest.js:279-287 | `POST account/update_profile_colors` is never returned |
| Resources.ProfileImageShadowed | lib/rest.js:279-290 | `POST account/update_profile_image` is never returned |
| Resources.ProfileBannerShadowed | lib/rest.js:279-326 | `POST account/update_profile_banner` is never returned |
| Resources.DirectMessagesSentShadowed | lib/rest.js:214-219 | `GET direct_messages/sent` is never returned |
| Resources.DirectMessagesShowShadowed | lib/rest.js:214-222 | `GET direct_messages/show` is never returned |
| Resources.SuggestionMembersShadowed | lib/rest.js:331-339 | `GET users/suggestions//members` is never returned |
| Resources.SubscriberShowShadowed | lib/rest.js:367-375 | `GET lists/subscribers/show` is never returned |
| Resources.MembersDestroyAllShadowed | lib/rest.js:361-408 | `GET lists/members/destroy_all` is never returned |
| Resources.MissingLetter | lib/rest.js:40-41 | a path is not found in a url that lacks one of its letters in any case |
| Resources.NoPrefixHit | lib/rest.js:34-41 | no entry whose path starts with a given prefix matches a url lacking one of the prefix's letters |
| Resources.FirstHit | lib/rest.js:34-44 | when entry k is the first eligible match, the scan keeps k and returns its key |
| Resources.DirectMessagesSentMissesStatuses | lib/rest.js:175-207 | none of the eleven statuses entries matches `/direct_messages/sent.json`, which has no `u` |
| Resources.DirectMessagesSentMissesSearch | lib/rest.js:210-212 | `GET search/tweets` does not match `/direct_messages/sent.json`, which has no `h` |
| Resources.DirectMessagesSentMisses | lib/rest.js:175-212 | none of the entries before `GET direct_messages` matches `/direct_messages/sent.json` |
| Resources.DirectMessagesSentTest | lib/rest.js:40-41 | the path `direct_messages` matches `/direct_messages/sent.json` |
| Resources.DirectMessagesSentHit | lib/rest.js:214 | entry 12 is a hit for `/direct_messages/sent.json` |
| Resources.DirectMessagesSentExample | lib/rest.js:30-46 | `/direct_messages/sent.json` is filed under `GET direct_messages` |
| Rest.RateLimitOf | lib/rest.js:101-105 | each of `reset`, `remaining` and `limit` is present exactly when its `x-rate-limit-*` header is, and then holds that header's value |
| Rest.WithRateLimit | lib/rest.js:48-53 | the table gains or replaces exactly the entry of the resource when it is a registry key; every other entry, and the whole table for an unknown or undefined resource, is unchanged |
| Rest.WithRateLimitIdempotent | lib/rest.js:48-53 | updating twice with the same record is updating once |
| Rest.WithRateLimitKeys | lib/rest.js:48-53 | a table holding only registry keys still does after an update |
| Rest.Without | lib/rest.js:109 | removing a record never lengthens the pool |
| Rest.WithoutAbsent | lib/rest.js:109 | removing a record that is not in the pool leaves the pool as it is |
| Rest.WithoutAt | lib/rest.js:109 | with distinct records, removing the record at i gives the pool without position i, the rest in order |
| Rest.RemoveAtInvariant | lib/rest.js:109 | taking one position out of the pool keeps identities distinct and below the next one, and resources registry keys |
| Rest.WithoutInvariant | lib/rest.js:109 | removing a record keeps identities distinct and resources registry keys, and takes out exactly that record's position |
| Rest.IsPostSpec | lib/rest.js:56 | a method counts as POST exactly when it contains `post` in any case |
| Rest.NormaliseUrl | lib/rest.js:79-85 | an accepted url starts with `/`; a rejection is `ArgumentError('url', 'must be a relative URL')` |
| Rest.ContainsAfterSlash | lib/rest.js:80-82 | prefixing `/` adds no occurrence of a word that does not begin with `/` |
| Rest.NormaliseUrlSpec | lib/rest.js:79-85 | a url starting with `/` is kept and never rejected; any other url is rejected exactly when it contains `http` in any case, and otherwise gets `/` prepended |
| Rest.DefaultContentType | lib/rest.js:72 | the content type is truthy afterwards; a truthy one is kept and a falsy one becomes `application/json` |
| Rest.QueueCheck | lib/rest.js:63-85 | the checks in their order: a POST without params, then a POST without content (both `ArgumentRequiredError` 'for POST'), then a non-function callback (`NoCallbackError`), then the url check; a success implies a function callback and, for a POST, object params |
| Rest.CheckArguments | lib/rest.js:63-85 | returns the outcome `QueueCheck` gives on the arguments as they were; once both POST checks pass, `params.contentType` is defaulted in place before the callback and url checks run (lib/rest.js:72); otherwise no object is changed |
| Rest.Client.constructor | lib/rest.js:11-14 | the pool, the table and the log start empty |
| Rest.Client.UpdateRateLimits | lib/rest.js:48-53 | the table becomes `WithRateLimit` of the old one; pool and log unchanged |
| Rest.Client.Queue | lib/rest.js:55-94 | a function as params becomes the callback with params null; an error is returned exactly when `QueueCheck` fails and leaves the pool as it was; otherwise exactly one record is appended with the POST flag, `rest_base` + the normalised url, the resource of the normalised url, the params and the callback; a POST that passes both POST checks gets its `contentType` defaulted in place even if a later check fails; the table and the log are unchanged |
| Rest.Client.Enqueue | lib/rest.js:87-93 | exactly one record is appended to the pool with the next identity, the POST flag, `rest_base` + url, the resource, the params and the callback; the table and the log are unchanged; the pool invariant is kept |
| Rest.Client.Drain | lib/rest.js:163-169 | the dispatched records are the first min(limit, pool size) records in pool order, with a falsy limit meaning 180; the pool is unchanged |
| Rest.Client.Triage | lib/rest.js:97-119 | a parsed body updates the table for the record's resource with the response's rate-limit headers, answers the callback with `(null, json, rateLimit)` and removes the record from the pool, dropping exactly its position; every other outcome leaves the pool and the table alone and rejects the callback: with the SyntaxError, with an HTTPError around the error carrying its response when the status code is truthy, or else with the raw transport error |
| Errors.NatToString | lib/errors.js:11 | a number prints as a non-empty string of decimal digits |
| Errors.DigitChar | lib/errors.js:11 | a digit prints as the character of that value |
| Errors.ParseNatToString | lib/errors.js:11 | reading the printed digits back gives the number |
| Errors.NatToStringNoLeadingZero | lib/errors.js:11 | only 0 is printed with a leading `0` |
| Errors.NewHTTPError | lib/errors.js:6-12 | name HTTPError; `statusCode` and `data` copied; the error kept as `originalError`; the message is the status code, then `": "`, then the status text |
| Errors.HTTPErrorCodeReadBack | lib/errors.js:11 | the status code can be read back from the digits at the start of the message, followed by `": "` |
| Errors.NewNoCallbackError | lib/errors.js:16-19 | name NoCallbackError, message `No callback provided` |
| Errors.NewArgumentError | lib/errors.js:23-26 | name ArgumentError, message `The argument ` + arg + ` ` + message |
| Errors.NewArgumentRequiredError | lib/errors.js:30-37 | name ArgumentRequiredError; message `The argument ` + arg + ` is required`, followed by `' ' + message` exactly when the message is truthy |
| Errors.Join | lib/errors.js:44 | joining nothing gives the empty string, one element gives itself, and more than one start with the first element followed by the separator |
| Errors.NewTwitterError | lib/errors.js:41-46 | name TwitterError; errors kept; codes are the entries' codes index by index; message is the messages joined by `, `, empty for no errors |
| Errors.NewBearerTokenError | lib/errors.js:50-54 | name BearerTokenError; the error kept as `originalError`; message as given |
| Errors.SplitComma | lib/errors.js:44 | splitting gives at least one part |
| Errors.SplitCommaPrefix | lib/errors.js:44 | a comma-free prefix joins the first part of the split |
| Errors.SplitJoin | lib/errors.js:44 | splitting the joined messages at `, ` gives them back, when there is at least one and none holds a comma |
| Errors.TwitterErrorMessages | lib/errors.js:44 | a TwitterError's message splits back into its entries' messages |
| Util.Merge | lib/util.js:6-11 | returns the target; every key of the options gets the options' value; other keys keep theirs; the key set is the union; null options change nothing |
| Utils.Views | lib/utils.js:4-5 | one contribution per source, in argument order |
| Utils.Merge | lib/utils.js:3-10 | returns the target, whose properties become the sources' properties assigned in argument order (`MergeAll`) |
| Utils.MergeAllKeys | lib/utils.js:4-8 | the key set after the merge is the union of the target's and all sources' keys |
| Utils.MergeAllLastWins | lib/utils.js:4-8 | a key some source holds gets the value of the last source holding it |
| Utils.MergeAllKeepsOthers | lib/utils.js:4-8 | a key no source holds keeps the target's value, and no key is removed |
| Utils.MergeAllNoop | lib/utils.js:3-9 | with no sources, or only empty or null ones, the target is unchanged |
| Utils.SanitizeOAuthContent | lib/utils.js:12-23 | returns its argument; an object's properties become `Sanitized` of the old ones; anything else is left alone |
| Utils.SanitizedSpec | lib/utils.js:14-19 | the key set is kept; every boolean becomes `'true'` or `'false'`; no boolean remains; other values are kept |
| Utils.SanitizedIdempotent | lib/utils.js:15-19 | sanitizing twice is sanitizing once |

## Left out

- The OAuth and bearer-token transport (lib/rest.js:16-28, 121-160): signing, the HTTP requests, query-string building and the `Content-Type` header are library calls. A dispatched request is answered by an `Outcome` value instead.
- `JSON.parse` (lib/rest.js:100): modelled as an outcome that parses or gives a SyntaxError message.
- Node's status-code table (lib/errors.js:11) is the `statusText` parameter of `NewHTTPError` and `Triage`.
- The `console.log` in `ArgumentRequiredError` (lib/errors.js:36) is a logging side effect.
- Rest.Client.Triage: delivery of a callback exactly once is not proved. If the success callback throws, the source's catch calls the callback again with that error and skips the pool removal; the model treats callbacks as returning normally. Failed records stay in the pool, as in the source, and later drains dispatch them again.
- Rest.Client.Drain: the limit is a natural number, with 0 as the falsy case. Negative, fractional or non-numeric limits are not modelled, because what `_.first` does with them depends on the underscore version.
- Rest.Client.Queue: the method and url are strings. A non-string url, which makes `url.charAt` throw a TypeError, is not modelled. Properties inherited through an object's prototype are not modelled either.
- Rest.Client.Queue: the stored url is `rest_base + url`, with no `.json` suffixing. The code has no requeue on HTTP 429, no timers and no reset-time conversion. Its POST default content type is `application/json`, although the comment at lib/mtwitter.js:29-30 names `application/x-www-form-urlencoded` as the default; the model follows lib/rest.js:72.
- Rest.Client: object identity of pool records is an `id` handed out by the client. `_.without` removes by identity, and the model removes by equality of records, whose ids are distinct.
- Rest.Client: the `options` fields other than `rest_base` are not modelled. They only configure the transport.
- Resources.CharMatches: `[^/]` matches one UTF-16 code unit, while `NonSlash` matches one Dafny character. The two agree on the ASCII urls the library builds, and differ only for characters outside the Basic Multilingual Plane.
- Resources.Fold: case-insensitive matching folds ASCII letters only. The registry paths are all ASCII, and JavaScript's non-unicode case-insensitive matching never maps another character onto an ASCII letter.
- Utils.Merge and Util.Merge: a primitive source (a number or a string) is not modelled; sources are objects or null. A null or undefined target is not modelled: the source throws a TypeError on it only when some source has an enumerable key, and otherwise returns it unchanged. `for…in` also enumerates enumerable properties inherited through a source's prototype, and the model copies own properties only.
- Numbers are integers; floating-point status codes and limits are not modelled.
- The TwitterError constructor is not called anywhere in the modelled code; it is modelled as a constructor only.
- lib/stream.js, lib/mtwitter.js, lib/twitter.js, index.js and lib/defaults.js are not part of this model: they wrap `queueRequest` and wire the modules together.
