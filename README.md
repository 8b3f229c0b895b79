# Dolphin chat front-end: a verified model of its client-side logic

This project models, in Dafny, the logic of a Vue chat front-end that does not
depend on the network or the DOM. It covers:

- the axios wrapper (`src/utils/request.js`):
  - the request decorator;
  - the three classifiers that turn a business envelope, an HTTP error status
    or a transport failure into a value or an Error message;
  - the sign-out on 401;
  - the per-verb configuration helpers;
- the streaming reply consumer of `ChatService.getAIReplyStream` and the image
  upload gate (`src/api/chat.js`);
- the HTTP utilities (`src/utils/http.js`): query strings, URL joining,
  `deepMerge`, `retry`, the file validators, `getFileExtension` and
  `getRelativeTime`;
- the upload gates, the sequential batch upload and its progress formula
  (`src/api/file.js`);
- the Pinia stores: the chat store and the app store (`src/stores/baseStore.js`),
  and the auth store (`src/stores/authstore.js`);
- the `localStorage` effects and session checks of `AuthService` (`src/api/auth.js`)
  and `UserService` (`src/api/user.js`);
- the router's navigation guard (`src/router/index.js`) over its route table
  (`src/router/base.routes.js`).

## How the JavaScript world is represented

- JavaScript values are `Json.Json`: null, booleans, integers, strings, arrays,
  and objects as key/value lists in the order the entries were written. Reading
  a key takes its last entry; writing replaces it in place or appends it;
  spreading lets later keys win. `Json.ObjectKeys` gives the order `Object.keys`
  and `for...in` visit: array-index keys ("0", "1", "10", ...) first, in
  ascending numeric order, then the other keys in the order they were created.
- `undefined` is the absence of a value (`Option.None`).
- Each request's outcome is an input: `Results.Settled` resolves with the
  envelope's `data` or rejects with an Error message.
- Each service method's normalized `{success, data | error, message}` object is
  `Results.ServiceResult`.
- `JSON.parse`, `JSON.stringify` and `atob` are function parameters (oracles).
- `Date.now()`, `new Date()` and the random request id are parameters.
- `localStorage` is the class `Browser.LocalStorage`, a string map that the
  methods update in place. `window.location` is `Browser.Location`.
- The streaming body is a list of decoded chunks, plus the way reading ended:
  `done`, an `AbortError`, or another read error. The callbacks become the list of
  events they would receive, in order.
- Stateful code is written as classes with `modifies` clauses:
  - the stores;
  - `localStorage`;
  - the request configuration the interceptor decorates.

  Loops are methods with invariants, proved against a specification function:
  - the stream reader and its line loop;
  - `buildQueryString`, `parseQueryString`;
  - the batch upload.

  Pure code is written as functions and lemmas.

## Model

| member | source | states |
|---|---|---|
| Browser.LocalStorage.GetItem | src/utils/request.js:30 | `getItem` gives the stored string exactly when the key is present, and null otherwise |
| Browser.LocalStorage.SetItem | src/api/auth.js:30-32 | `setItem` overwrites one key and leaves every other key as it was |
| Browser.LocalStorage.RemoveItem | src/utils/request.js:147-149 | `removeItem` drops one key and leaves every other key as it was |
| Browser.WithoutSession | src/utils/request.js:147-149 | after the three removals, a key remains iff it was stored and is not `token`, `user` or `isLoggedIn`, and it keeps its value |
| Results.Invoke | src/api/user.js:16-32 | the service try/catch succeeds iff the request resolves; a success carries the response and the success label, a failure carries the Error message and the failure label |
| Request.MessageOr | src/utils/request.js:71 | `message \|\| fallback`: a truthy server message (converted with String) wins, and otherwise the fallback is used |
| Request.OnEnvelope | src/utils/request.js:63-84 | resolves with `data` unchanged iff the code is exactly 200 or 0. 401, 403, 404 and codes of 500 or more reject with the message or their own label. Every other code, a missing one included, rejects with the message or '请求失败'. It signs out iff the code is 401. A null body throws |
| Request.TransportMessage | src/utils/request.js:90-98 | with no response, ECONNABORTED gives the timeout text, 'Network Error' gives the connectivity text, and anything else gives the generic network text |
| Request.TransportMessagesDistinct | src/utils/request.js:90-98 | the three transport messages differ pairwise |
| Request.DataMessage | src/utils/request.js:106 | `data?.message` is defined only when `data` is an object |
| Request.OnStatus | src/utils/request.js:101-140 | always rejects and signs out iff the status is 401. 400 prefers the body's message. Each of 401, 403, 404, 408, 429, 500, 502, 503 and 504 has its fixed label. Any other status prefers the body's message, with fallback `请求失败 (status)` |
| Request.OnFailure | src/utils/request.js:86-141 | the error interceptor always rejects. Without a response it uses the transport message; with one it uses the status mapping. It signs out only for HTTP 401 |
| Request.SharedLabelsAgree | src/utils/request.js:68-80 | without a server message, business codes and HTTP statuses 401/403/404/500 carry the same label |
| Request.HandleUnauthorized | src/utils/request.js:145-159 | removes exactly the three session keys and logs the auth store out. It navigates to '/auth/login' iff the current path is not already that page |
| Request.SignOutIdempotent | src/utils/request.js:147-149 | a second sign-out leaves storage as the first left it |
| Request.SignOutSticks | src/utils/request.js:145-153 | after a sign-out, `initAuth` keeps the store logged out |
| Request.OnFulfilled | src/utils/request.js:55-85 | settles as the envelope says. The sign-out happens exactly when the envelope's code is 401: then the three session keys go, the store's user is null, it is logged out with an empty error and its `loading` kept, and the location is the login page. Otherwise storage, every field of the store and the location are unchanged |
| Request.OnRejected | src/utils/request.js:86-141 | settles as the failure mapping says. The sign-out happens exactly on HTTP 401, with the same effects as in `OnFulfilled`. Otherwise storage, every field of the store and the location are unchanged |
| Request.StampedParams | src/utils/request.js:22-27 | `{...params, _t: now}` has `_t` equal to now and every other key of params unchanged |
| Request.AuthorizationHeader | src/utils/request.js:30-33 | there is a header iff a non-empty token is stored, and then it is `Bearer <token>` |
| Request.RequestConfig.Decorate | src/utils/request.js:20-45 | only method 'get' gets the `_t` stamp, and other methods keep their params. A stored token sets `Authorization`. `X-Request-ID` is always set. No other header changes |
| Request.OrEmptyObject | src/utils/request.js:170 | the `= {}` default: a given payload is used as is, and a missing one becomes `{}` |
| Request.CallConfig | src/utils/request.js:170-177 | the caller's config is spread last: each of its keys overrides the helper's own, and the helper's other keys stay |
| Request.GetRequest | src/utils/request.js:170-177 | unless the caller overrides them, method is 'get', the payload (default {}) is `params`, and there is no `data`. The `url` key is the given URL unless the caller overrides it |
| Request.PostRequest | src/utils/request.js:179-186 | unless overridden, method is 'post', the payload is `data`, and there are no `params`. The `url` key is the given URL unless the caller overrides it |
| Request.PutRequest | src/utils/request.js:188-195 | unless overridden, method is 'put', the payload is `data`, and there are no `params`. The `url` key is the given URL unless the caller overrides it |
| Request.DelRequest | src/utils/request.js:197-204 | unless overridden, method is 'delete', the payload is `params`, and there is no `data`. The `url` key is the given URL unless the caller overrides it |
| Request.PatchRequest | src/utils/request.js:206-213 | unless overridden, method is 'patch', the payload is `data`, and there are no `params`. The `url` key is the given URL unless the caller overrides it |
| Request.UploadRequest | src/utils/request.js:216-226 | a POST of the form data with the multipart Content-Type. A caller's `headers` replaces that object as a whole. The `url` key is the given URL unless the caller overrides it |
| Request.DownloadRequest | src/utils/request.js:229-237 | a GET with the payload as `params` and `responseType` 'blob', unless overridden. The `url` key is the given URL unless the caller overrides it |
| AuthState.CredentialError | src/stores/authstore.js:21-36 | login succeeds iff username is 'admin' and password is '123456'. Null credentials fail with a TypeError, and any other credentials fail with the fixed error |
| AuthState.SavedSession | src/stores/authstore.js:58-61 | a session is found iff a non-empty user is stored and the flag is exactly 'true'. Then it is the parse of the stored user |
| AuthState.AuthStore.constructor | src/stores/authstore.js:6-9 | logged out, no user, not loading, no error |
| AuthState.AuthStore.Login | src/stores/authstore.js:12-43 | succeeds iff the credentials pass. Success sets and persists the admin user and the flag 'true', with no error. Failure sets `error` to the reason and changes neither user, flag nor storage. `loading` ends false on both paths |
| AuthState.AuthStore.Logout | src/stores/authstore.js:46-54 | clears user, flag and error, and removes `user` and `isLoggedIn` from storage but not `token` |
| AuthState.AuthStore.InitAuth | src/stores/authstore.js:57-65 | storage is only read. The state becomes `Hydrate` of the old state, and `ok` is false exactly when parsing the saved user throws |
| AuthState.AuthStore.ClearError | src/stores/authstore.js:68-70 | empties `error` and nothing else |
| AuthState.AuthStore.UpdateUser | src/stores/authstore.js:73-79 | with a truthy user, `{...user, ...userData}` becomes the user and is persisted. With none, nothing changes |
| AuthState.Hydrate | src/stores/authstore.js:57-65 | a saved session that parses gives the parsed user and true. Anything else keeps the old pair |
| AuthState.HydrateIdempotent | src/stores/authstore.js:57-65 | running `initAuth` twice is running it once |
| AuthState.LoginThenHydrate | src/stores/authstore.js:29-31 | what a successful login stores, `initAuth` restores as the logged-in admin user (when stringify/parse round-trip) |
| AuthState.LogoutThenHydrate | src/stores/authstore.js:52-53 | after logout, `initAuth` leaves the logged-out state alone |
| Chat.LineFrame | src/api/chat.js:332-345 | one line stops the stream iff it is `data: [DONE]`, and when it delivers a value, that value is what the payload after `data: ` parses to |
| Chat.StreamEvents | src/api/chat.js:318-352 | the events a stream raises are well shaped: messages, then at most one terminal event, exactly one unless reading is aborted, and an error event is always the read error |
| Chat.LineFrameCases | src/api/chat.js:331-344 | a line stops the stream iff it is `data: [DONE]`. It delivers iff it is another `data: ` line whose payload (the line minus its first 6 characters) parses, and then it delivers the parsed value. Every other line is ignored |
| Chat.Ending | src/api/chat.js:318-352 | a finished body completes, an AbortError raises nothing, and any other read error raises that error |
| Chat.FramesShape | src/api/chat.js:318-352 | every event sequence is messages followed by at most one terminal event. Exactly one terminal event occurs unless reading is aborted. An error event is always the read error |
| Chat.Lines | src/api/chat.js:328-329 | every chunk contributes at least one line, because `split` never returns an empty list (`Chat.LinesAppend` states that chunks are split independently) |
| Chat.ReadStream | src/api/chat.js:318-353 | the `while (true)` reader raises exactly the events of the stream specification |
| Chat.ScanLines | src/api/chat.js:331-346 | the per-chunk `for` loop hands `onMessage` the delivered values of the lines before the first `[DONE]`, and reports whether it met one |
| Chat.ChunkStep | src/api/chat.js:320-346 | reading lines a then b raises a's values before its first `[DONE]`, then one completion if a has a `[DONE]`, or else whatever b raises |
| Chat.StartError | src/api/chat.js:311-313 | a failed start is reported as an error. For a non-ok status the message is `HTTP error! status: <status>` |
| Chat.GetAIReplyStream | src/api/chat.js:297-370 | a failed start calls `onError` once, reads nothing and returns `{success:false}`. Otherwise it returns the streaming result and the body's events follow |
| Chat.StreamAuthorization | src/api/chat.js:305 | the stream's header is `Bearer <token>`, or `Bearer null` without a stored token |
| Chat.StreamHeaderVersusAxios | src/api/chat.js:305 | with a non-empty token, stream and axios send the same header. Without one, axios sends none and the stream sends 'Bearer null' |
| Chat.Delivered | src/api/chat.js:339-344 | lines that do not stop the stream deliver at most one value each |
| Chat.FirstDone | src/api/chat.js:334-337 | the index of the first `[DONE]` line, or the number of lines |
| Chat.FramesDecompose | src/api/chat.js:331-337 | the whole stream is the values before the first `[DONE]`, then completion if a `[DONE]` came, or else the ending |
| Chat.NonDataLineIgnored | src/api/chat.js:332 | a line not starting with exactly `data: ` changes nothing |
| Chat.UnparsableFrameSkipped | src/api/chat.js:339-344 | a payload that does not parse raises nothing, and the next line is read |
| Chat.DoneStopsEverything | src/api/chat.js:334-337 | after `[DONE]`, whatever lines, chunks or read errors follow, only one `onComplete` happens |
| Chat.CompleteAtMostOnce | src/api/chat.js:323-337 | `onComplete` occurs at most once. It occurs iff a `[DONE]` line comes or reading ends with `done` |
| Chat.ChunkWithoutDone | src/api/chat.js:328-346 | a chunk without `[DONE]` puts its values in front of what the later chunks raise |
| Chat.LinesAppend | src/api/chat.js:328-329 | chunk boundaries are line boundaries: the lines of two chunk lists are concatenated |
| Chat.DoneSplitAcrossChunks | src/api/chat.js:328-329 | `data: [DONE]` cut inside the `[DONE]` marker into two chunks does not stop the stream, while the same text in one chunk does |
| Chat.OneChunkDone | src/api/chat.js:334-337 | a single `data: [DONE]` chunk raises exactly one completion, whatever the ending |
| Chat.CrLfDoneDoesNotStop | src/api/chat.js:329-334 | a line ending in '\r' is never `[DONE]` |
| Chat.ImageGate | src/api/chat.js:175-184 | an image is accepted iff it exists, its type is jpeg/png/gif/webp and its size is at most 10 MiB. A wrong type is reported as the type error whatever the size. An allowed type that is too large is reported as the size error |
| Chat.UploadChatImage | src/api/chat.js:172-208 | a rejected image fails with the gate's reason and the failure label. An accepted one is the try/catch over the upload |
| Chat.RejectedImageNotUploaded | src/api/chat.js:202-207 | a rejected image's result does not depend on the upload outcome, because the upload is never sent |
| Chat.TypeCheckedBeforeSize | src/api/chat.js:175-184 | an unsupported type is reported whatever the size |
| Chat.ImageSizeBoundary | src/api/chat.js:181-183 | exactly 10 MiB passes, and one byte more is refused |
| Files.TypeRejection | src/api/file.js:29-31 | a falsy list lets every type through. An array must contain the type, a string must contain it as a substring, and any other truthy value throws |
| Files.UploadRejection | src/api/file.js:24-31 | the size is checked first (the limit itself passes). The type is checked only when `allowedTypes` is given |
| Files.UploadFile | src/api/file.js:21-63 | never throws: a rejected file fails with its reason, and an accepted one is the try/catch over the upload |
| Files.SizeCheckedFirst | src/api/file.js:24-26 | an oversized file is refused whatever the options, even null ones |
| Files.NoTypeCheckWithoutList | src/api/file.js:29 | without `allowedTypes`, a 10 MiB file of any type is sent |
| Files.ListedTypeSent | src/api/file.js:29-31 | with a list, a file within the limit is sent iff its type is listed |
| Files.FileOptions | src/api/file.js:83-84 | each file is uploaded with the caller's options spread in |
| Files.SuccessCount | src/api/file.js:100 | the number of successes is at most the number of results |
| Files.AllSucceeded | src/api/file.js:100-104 | the success count equals the length iff every result succeeded |
| Files.UploadMultipleFiles | src/api/file.js:74-122 | the sequential loop returns exactly the batch specification |
| Files.BatchSummary | src/api/file.js:100-113 | there is one result per file in file order, each being that file's own upload. total = success + failed = number of files, and the batch succeeds iff nothing failed |
| Files.EmptyBatch | src/api/file.js:100-113 | an empty list succeeds with all counts 0 |
| Files.MissingListFails | src/api/file.js:115-120 | a null list fails with the batch failure label |
| Files.SecondOfThreeFails | src/api/file.js:80-98 | a failed second file does not stop the third, and the summary is 3/2/1 |
| Files.TotalProgress | src/api/file.js:89-91 | `Math.round` of (completed + progress/100)/n as a percentage: the nearest integer to (100·completed + progress)/n, with halves rounded up |
| Files.ProgressBounds | src/api/file.js:89-91 | the overall progress during file i at p percent lies in [0,100] |
| Files.ProgressMonotone | src/api/file.js:89-91 | the overall progress never decreases as files complete and per-file progress grows |
| Files.ProgressFull | src/api/file.js:89-91 | the last file at 100% shows 100 |
| Files.ProgressStart | src/api/file.js:89-91 | the first file at 0% shows 0 |
| Http.Merge | src/utils/http.js:87-96 | the merge is an object iff the target is, and it leaves the target untouched unless both are objects |
| Http.MergeKeyLookup | src/utils/http.js:89-94 | one key's step changes that key only, to its merged value |
| Http.MergeKeysPerKey | src/utils/http.js:88-95 | after the `for...in` loop each key holds its merged value, and keys not yet visited keep theirs |
| Http.MergePerKey | src/utils/http.js:87-96 | merging one source: keys it lacks keep the target's value, and the others take the merged value (scalars and arrays overwrite, objects merge) |
| Http.DeepMergeWith | src/utils/http.js:83-99 | the sources are applied left to right. The result is an object iff the target is, and a non-object target comes back unchanged |
| Http.DeepMerge | src/utils/http.js:83-99 | `deepMerge` as written: an object iff the target is |
| Http.DeepMergeRepaired | src/utils/http.js:89-91 | the corrected merge: an object iff the target is |
| Http.DeepMergeSnoc | src/utils/http.js:98 | the last source is merged last |
| Http.LaterSourceWins | src/utils/http.js:93 | a non-object value in the last source is the key's final value |
| Http.UntouchedKeyKept | src/utils/http.js:88 | a key no source has keeps the target's value |
| Http.NestedObjectDropped | src/utils/http.js:90 | as written, `deepMerge({a:1},{a:{b:2}})` keeps `a:1` |
| Http.ScalarBlocksNestedObject | src/utils/http.js:88-91 | as written, a truthy non-object under a key keeps the target's value when the source has an object there |
| Http.RepairedKeepsNestedObjects | src/utils/http.js:89-91 | corrected, an object in the last source always leaves an object under its key |
| Http.Backoff | src/utils/http.js:160-161 | for a non-negative delay, no wait is shorter than the first |
| Http.BackoffDoubled | src/utils/http.js:161 | the recursive call with the doubled delay waits one doubling ahead |
| Http.BackoffIsPower | src/utils/http.js:160-161 | the waits are d, 2d, 4d, …: the j-th wait is d·2^j |
| Http.Retry | src/utils/http.js:155-165 | `fn` runs between 1 and retries+1 times. There is one wait between consecutive runs, the j-th being d·2^j. Every run but the last failed. The result is the last run's outcome, and a failure means the budget was used up |
| Http.RetryAfterFailures | src/utils/http.js:155-165 | with m ≤ retries failures before a success, that success is returned after m+1 calls |
| Http.ValidateFileType | src/utils/http.js:206-211 | false for a missing file or a missing or non-array list; otherwise, membership of the file's type |
| Http.ValidateFileSize | src/utils/http.js:219-224 | true iff the file exists, the limit is a number, and size ≤ limit |
| Http.GetFileExtension | src/utils/http.js:231-236 | '' for empty or non-string names; otherwise the slice after `(lastIndexOf('.') - 1 >>> 0) + 2` |
| Http.NameExtension | src/utils/http.js:235 | the extension is a suffix of the name |
| Http.Uint32 | src/utils/http.js:235 | `x >>> 0` lies in [0, 2^32) |
| Http.ExtensionAfterLastDot | src/utils/http.js:231-236 | for any name shorter than 2^32, the extension is the text after the last '.'. It is '' with no '.' or when the only one is at index 0 |
| Http.Bucket | src/utils/http.js:297-310 | "just now" iff diff < 1 minute. Otherwise count·unit ≤ diff < (count+1)·unit, with 1 ≤ count below the next unit's threshold |
| Http.BucketUnit | src/utils/http.js:297-310 | a unit is chosen exactly when diff lies between its threshold and the next one |
| Http.GetRelativeTime | src/utils/http.js:285-312 | the text is '刚刚' under a minute, otherwise the floor-divided count and the unit's suffix. An invalid date gives 'NaN年前' |
| Query.Segments | src/utils/http.js:29 | one `name=value` segment per pair, in order |
| Query.QueryString | src/utils/http.js:11-30 | '' unless `params` is an object (arrays included) |
| Query.QueryPairsPerKey | src/utils/http.js:18-27 | each name holds exactly its key's values: none for null or '', each element of an array in order, or the value itself |
| Query.BuildQueryStringPerKey | src/utils/http.js:11-29 | the same, for each own key of the parameter object or array |
| Query.BuildQueryString | src/utils/http.js:11-30 | the `forEach` loop builds exactly the specified query |
| Query.AppendEntry | src/utils/http.js:19-26 | one key's step appends exactly that key's values |
| Query.AppendEach | src/utils/http.js:22 | an array appends one pair per element, in order |
| Query.SplitPair | src/utils/http.js:39 | a segment splits at its first '=', and a segment without '=' has an empty value |
| Query.ParseSerialize | src/utils/http.js:39 | reading a serialized query gives its pairs back when no name or value holds a delimiter |
| Query.CollectPerKey | src/utils/http.js:41-52 | each parsed key depends only on that name's values, in order |
| Query.ParseQueryString | src/utils/http.js:37-55 | the loop builds exactly the object the pairs fold into |
| Query.EmptyValueLost | src/utils/http.js:42 | as written, `a=&a=x` gives `a: "x"`, although the query holds both values |
| Query.KeyValuePresentGroups | src/utils/http.js:41-52 | with a presence check, a name seen once maps to its value and a repeated name to all its values in order |
| Query.CollectPresentPerKey | src/utils/http.js:41-52 | the corrected parse: every key holds its single value or the array of all its values |
| Query.KeyValueWithoutEmpties | src/utils/http.js:42 | without empty values the code as written agrees with the corrected parse |
| Query.KeyValueTruthy | src/utils/http.js:42 | without empty values every collected value is truthy, so the truthiness test acts as a presence test |
| Query.DropTrailingSlash | src/utils/http.js:65 | removes one trailing '/' and nothing else |
| Query.DropLeadingSlash | src/utils/http.js:65 | removes one leading '/' and nothing else |
| Query.FormatUrl | src/utils/http.js:64-75 | base and path are joined by one '/'. An empty query appends nothing. Otherwise the query follows '?' or, when the URL already has '?', '&' |
| BaseStore.NextTheme | src/stores/baseStore.js:13-15 | the new theme is 'light' iff the old one is not 'light', and it is always 'light' or 'dark' |
| BaseStore.ToggleTwice | src/stores/baseStore.js:13-15 | toggling twice restores the theme iff it was 'light' or 'dark' |
| BaseStore.AppStore.constructor | src/stores/baseStore.js:4-8 | the app store starts not loading, with the 'light' theme |
| BaseStore.AppStore.SetLoading | src/stores/baseStore.js:10-12 | sets `loading`, and the theme is unchanged |
| BaseStore.AppStore.ToggleTheme | src/stores/baseStore.js:13-15 | the theme becomes `NextTheme` of the old one |
| BaseStore.ConversationIdAt | src/stores/baseStore.js:113 | the new id starts with 'conv_' and is truthy |
| BaseStore.JoinedConversation | src/stores/baseStore.js:66 | the current id when truthy, otherwise a new one. Either way it is truthy |
| BaseStore.InConversation | src/stores/baseStore.js:35-37 | keeps exactly the messages of that conversation |
| BaseStore.OutsideConversation | src/stores/baseStore.js:133-135 | keeps exactly the messages of other conversations |
| BaseStore.Images | src/stores/baseStore.js:47 | keeps exactly the image messages |
| BaseStore.ImagesInConversation | src/stores/baseStore.js:52-54 | keeps exactly the image messages of that conversation |
| BaseStore.CurrentImagesCommute | src/stores/baseStore.js:51-55 | `currentImageMessages` equals the image filter of `currentMessages`, and the conversation filter of `imageMessages` |
| BaseStore.ImagesAppend | src/stores/baseStore.js:47 | the image filter distributes over concatenation |
| BaseStore.InConversationAppend | src/stores/baseStore.js:35-37 | the conversation filter distributes over concatenation |
| BaseStore.OutsideConversationAppend | src/stores/baseStore.js:133-135 | the clearing filter distributes over concatenation |
| BaseStore.ClearPartitions | src/stores/baseStore.js:131-139 | the cleared and kept messages together are exactly the old messages (as a multiset and by count) |
| BaseStore.Entries | src/stores/baseStore.js:150-157 | one photo entry per message, in order |
| BaseStore.InsertByTime | src/stores/baseStore.js:158 | inserting adds exactly one entry |
| BaseStore.InsertKeepsOrder | src/stores/baseStore.js:158 | inserting into a newest-first list keeps it newest first |
| BaseStore.SortByTime | src/stores/baseStore.js:158 | the sort is a permutation |
| BaseStore.SortedNewestFirst | src/stores/baseStore.js:158 | the sort orders entries by descending timestamp |
| BaseStore.PhotoWallContents | src/stores/baseStore.js:147-159 | the wall has one entry per image message and nothing else, newest first |
| BaseStore.NonImageKeepsWall | src/stores/baseStore.js:147-159 | appending a non-image message does not change the wall |
| BaseStore.FindById | src/stores/baseStore.js:164 | `find` gives the first message with that id, or none when no message has it |
| BaseStore.ChatStore.constructor | src/stores/baseStore.js:21-30 | no messages, no conversation, welcome shown, wall hidden and empty |
| BaseStore.ChatStore.CurrentMessages | src/stores/baseStore.js:34-38 | exactly the current conversation's messages |
| BaseStore.ChatStore.HasMessages | src/stores/baseStore.js:41-43 | true iff there is at least one message |
| BaseStore.ChatStore.ImageMessages | src/stores/baseStore.js:46-48 | exactly the image messages |
| BaseStore.ChatStore.CurrentImageMessages | src/stores/baseStore.js:51-55 | both filters, in either order |
| BaseStore.ChatStore.CreateNewConversation | src/stores/baseStore.js:112-118 | the id is made from `now` and becomes current. It shows the welcome page, clears loading and leaves the messages unchanged |
| BaseStore.ChatStore.JoinConversation | src/stores/baseStore.js:66 | `currentConversationId \|\| createNewConversation()`, with the side effects of creation only when no conversation is current |
| BaseStore.ChatStore.AddUserMessage | src/stores/baseStore.js:60-73 | appends exactly one user message with the trimmed text to the conversation it joins, and hides the welcome page. The photo wall is unaffected |
| BaseStore.ChatStore.AddImageMessage | src/stores/baseStore.js:76-95 | appends exactly one image message, hides the welcome page and rebuilds the wall |
| BaseStore.ChatStore.AddAIMessage | src/stores/baseStore.js:98-109 | appends one AI message with id now+1 and the current (possibly null) conversation. It creates no conversation and leaves the welcome page alone |
| BaseStore.ChatStore.SetLoading | src/stores/baseStore.js:121-123 | sets `isLoading` only |
| BaseStore.ChatStore.SetShowWelcome | src/stores/baseStore.js:126-128 | sets `showWelcome` only |
| BaseStore.ChatStore.ClearCurrentConversation | src/stores/baseStore.js:131-139 | with a current conversation, removes exactly its messages and keeps the rest in order. Without one, it removes nothing. Either way it shows the welcome page and rebuilds the wall |
| BaseStore.ChatStore.TogglePhotoWall | src/stores/baseStore.js:142-144 | flips `showPhotoWall` only |
| BaseStore.ChatStore.UpdatePhotoWall | src/stores/baseStore.js:147-159 | the wall becomes the sorted entries of the image messages, and nothing else changes |
| BaseStore.ChatStore.ScrollToMessage | src/stores/baseStore.js:162-174 | returns the first message with the id and switches to its conversation (hiding the welcome page) when that differs. With no such message it returns null and changes nothing |
| AuthService.SessionFrom | src/api/auth.js:29-33 | a truthy token stores token, serialized user and flag 'true', keeping the other keys. Otherwise storage is unchanged |
| AuthService.Login | src/api/auth.js:20-47 | a rejected request or a nullish response fails with '登录失败' and stores nothing. Null credentials fail before any request. Otherwise it succeeds with the response, and storage is `SessionFrom` (a success even without a token) |
| AuthService.Logout | src/api/auth.js:53-78 | the three session keys go whether the request succeeds or not. Only `success` and the label differ |
| AuthService.RefreshToken | src/api/auth.js:111-131 | only `token` is overwritten, and only when the response has a truthy one. Failures change nothing |
| AuthService.PayloadPart | src/api/auth.js:240 | `token.split('.')[1]`, or 'undefined' when there is no second part. It holds no '.' |
| AuthService.PayloadOfThreeParts | src/api/auth.js:240 | a `header.payload.signature` token is judged on its payload |
| AuthService.TokenExpiry | src/api/auth.js:240-243 | an expiry exists only when atob accepts the payload, the text parses, and its `exp` is a number |
| AuthService.IsTokenValid | src/api/auth.js:234-247 | valid only with a non-empty stored token whose expiry decodes. Then it is `exp*1000 > now`. It never throws |
| AuthService.TokenExpiryBoundary | src/api/auth.js:241-243 | validity is monotone in time: valid 1 ms before `exp` seconds, and invalid from `exp` seconds on |
| AuthService.IsLoggedIn | src/api/auth.js:266-268 | true iff the flag is exactly 'true' and the token is valid |
| AuthService.GetCurrentUser | src/api/auth.js:253-260 | null when the stored user is missing, empty or unparsable, and the parsed value otherwise |
| AuthService.LogoutEndsSession | src/api/auth.js:53-78 | after logout nobody is logged in and there is no current user |
| AuthService.LoginStartsSession | src/api/auth.js:29-33 | after a login with a string token, the user is logged in exactly while that token is valid, and `getCurrentUser` returns the response's user |
| UserService.StoredUserText | src/api/user.js:49 | `localStorage.getItem('user') \|\| '{}'` |
| UserService.UpdateUserProfile | src/api/user.js:44-65 | on success stores `{...storedUser, ...response}`. A rejection, or a stored user that does not parse, fails and stores nothing |
| UserService.ProfileUpdateReadBack | src/api/user.js:49-51 | reading the user back gives, per key, the response's value if it has one, and the stored value otherwise |
| UserService.AvatarGate | src/api/user.js:75-84 | accepted iff the type is jpeg/png/gif/webp and size ≤ 5 MiB. The type is checked before the size, and a missing file throws |
| UserService.AvatarTypeCheckedFirst | src/api/user.js:76-78 | an unsupported type is reported whatever the size |
| UserService.AvatarSizeBoundary | src/api/user.js:81-83 | 5 MiB passes, and one byte more is refused |
| UserService.WithAvatar | src/api/user.js:97-99 | `currentUser.avatar = avatarUrl` sets that key and keeps every other one. An undefined URL drops the key. An array is unchanged, and a primitive throws |
| UserService.UploadAvatar | src/api/user.js:72-113 | a refused file or a rejected upload fails and stores nothing. A success stores the user with `avatar` set to the response's `avatarUrl` |
| UserService.DeleteAccount | src/api/user.js:217-240 | the session keys are removed only after the request succeeds, and a failure leaves storage untouched |
| UserService.Availability | src/api/user.js:253-257 | succeeds iff the request resolves with a non-null response. The label follows `response.available` |
| UserService.CheckUsernameAvailability | src/api/user.js:247-265 | a rejection fails with '用户名验证失败'. A success says '用户名可用' or '用户名已被使用' |
| UserService.CheckEmailAvailability | src/api/user.js:272-290 | a rejection fails with '邮箱验证失败'. A success says '邮箱可用' or '邮箱已被使用' |
| UserService.AvailabilityFollowsFlag | src/api/user.js:256 | `available: true` gives the 'available' label, `false` gives the 'taken' label, and a missing flag counts as taken |
| Router.RequiresAuth | src/router/index.js:24 | true iff some matched record has a truthy `meta.requiresAuth` |
| Router.Decide | src/router/index.js:26-35 | redirects to 'login' iff auth is required and the user is logged out. It redirects to 'home' iff the target is 'login', the user is logged in and no auth redirect applies. Otherwise it proceeds |
| Router.BeforeEach | src/router/index.js:17-36 | `initAuth` runs first, and the decision uses the flag it leaves |
| Router.Resolve | src/router/base.routes.js:6-57 | exactly 'login' and the six main pages resolve |
| Router.RouteTableAuth | src/router/base.routes.js:20-24 | a page requires auth iff it is not the login page |
| Router.RedirectSettles | src/router/index.js:26-31 | the redirect target exists and, with the login state unchanged, proceeds on the next guard run: there is no loop |
| Router.LoginPage | src/router/index.js:29-31 | a logged-out visit to login proceeds, and a logged-in one goes home |
| Text.TrimIsMaximalInnerSlice | src/stores/baseStore.js:64 | `trim()` is a slice with only white space before and after it, and it neither starts nor ends with white space |
| Text.TrimIdempotent | src/stores/baseStore.js:64 | trimming twice is trimming once |
| Text.Trim | src/stores/baseStore.js:64 | `trim()` is no longer than its input, and a non-empty result neither starts nor ends with white space |
| Text.Split | src/api/auth.js:240 | `split` gives at least one piece, and no piece holds the separator |
| Text.JoinSplit | src/api/auth.js:240 | joining the pieces gives back the string |
| Text.SplitJoin | src/api/auth.js:240 | splitting a join of separator-free pieces gives back the pieces |
| Text.LastIndexOf | src/utils/http.js:235 | the last position of the character, or -1 iff it is absent |
| Text.IntToDecimal | src/utils/request.js:137 | `String(n)` of an integer starts with '-' iff n is negative |
| Text.DecimalRoundTrip | src/stores/baseStore.js:113 | the decimal digits of a number read back as that number |
| Json.Lookup | src/utils/request.js:63 | a key is found iff it is among the keys, and the value found is one of its entries |
| Json.ObjectKeys | src/utils/http.js:18 | `Object.keys` lists exactly the object's keys, each once: the array-index keys first, in ascending numeric order, then the other keys in the order they were created |
| Json.Put | src/api/user.js:98 | assignment sets the key and keeps every other key |
| Json.Delete | src/api/user.js:98 | assigning undefined (as JSON.stringify sees it) removes the key and keeps every other key |
| Json.Assign | src/utils/http.js:93 | `Object.assign`: per key, the later write wins, and the target's keys stay |
| Json.Spread | src/api/user.js:50 | `{...a, ...b}`: per key, b's value if it has one, otherwise a's |
| Json.OwnEntries | src/utils/http.js:88 | the own enumerable entries have distinct keys, follow `ObjectKeys` order for an object, and carry the values spreading sees |
| Json.Truthy | src/utils/request.js:71 | ToBoolean: null is falsy, and every array and object, empty ones included, is truthy |
| Json.FalsyValues | src/utils/request.js:71 | a value is falsy iff it is null, false, 0 or '' |
| Json.JsString | src/utils/http.js:22-24 | `String(v)`: a string is itself, a number's text is non-empty and starts with '-' iff the number is negative, and an object is '[object Object]' |
| Json.NumberStringRoundTrip | src/utils/http.js:22-24 | the text `String(n)` gives for an integer is its decimal digits, after a '-' when negative, and they read back as the number |
| Json.Field | src/utils/request.js:63 | a property is found only on an object that has that key |
| Query.IndexKeyVisitedFirst | src/utils/http.js:18 | `buildQueryString({b: 1, "1": 2})` is "1=2&b=1": the index key comes first although "b" was created first |

## Left out

- Transport: network, axios, `fetch`, `ReadableStream` and `AbortController` are not modelled. Every request's outcome, the stream's chunks and how reading ended are inputs.
- `TextDecoder` is the identity on decoded chunks. Chunks are given as text, so streaming-safe decoding is not modelled.
- URLSearchParams percent-encoding and decoding are the identity. `Query.ParseSerialize` therefore requires names and values free of '&', '=' and a leading '?'.
- Other library behaviour is given as function parameters: `JSON.parse`, `JSON.stringify` and `atob`.
- Time and randomness are parameters: `Date.now()`, `new Date()` and `generateRequestId`.
  - The chat store reads the clock once per action, so a message's id and a new conversation id share one instant.
  - Message timestamps are integers (milliseconds).
- Timers are not modelled: the sleeps in `retry` become the list of waits, and the one-second delay in the auth store's `login` is skipped. During that delay `loading` is transiently true; the model only states that it ends false.
- Floats and randomness are not modelled: `formatFileSize`, `generateId` and `formatDate` (local time), as well as `debounce`, `throttle`, `withTimeout` and `copyToClipboard`.
- Files.TotalProgress: computed exactly in integers (round half up of (100·completed + progress)/n). This is the value `Math.round` gives on exact arithmetic; floating-point rounding is not modelled.
- The `onProgress` / `onFileProgress` / `onUploadProgress` callbacks and the `console.log` of upload progress are not modelled. FormData construction is left out too: the `category` and `metadata` fields.
- One-call service wrappers are not modelled individually. Each is a `Results.Invoke` of its request's outcome with its own two labels. They are:
  - the other `ChatService` methods;
  - `FileService` methods other than the upload pair, including `downloadFile`, which writes to the DOM;
  - `AuthService.register`, `forgotPassword`, `resetPassword`, `verifyEmail` and `sendVerificationCode`;
  - `UserService.getUserProfile`, `changePassword`, `getUserStats`, `getUserSettings`, `updateUserSettings` and `getUserActivityLog`.
- Request payloads are not modelled: the login body (the `rememberMe` default) and the streaming request's URL and body.
- The list and delete wrappers pass their object as axios config, not as query or body. No claim is made about how those endpoints serialize it.
- Chat.ReadStream: a callback that itself throws is not modelled. Callbacks are the list of events they receive.
- Request.OnEnvelope: the `code >= 500` test is modelled for numeric codes only. A numeric string such as "503" would also pass it in JavaScript.
- Request.RequestConfig.Decorate: the method is compared as given (axios lower-cases it before the interceptor runs). The `console.log` is left out.
- Request.UploadRequest: `formData` is required. The `upload(url)` call with an undefined form data is not modelled.
- Request.HandleUnauthorized: the exactly-once redirect under concurrent 401 responses is not modelled. The code only checks the current path, and concurrency is out of scope.
- Http.DeepMerge: modelled on values. In JavaScript it mutates `target` and its nested objects in place. Aliasing between the target and the sources is not captured, and neither is the removal of the sources from the argument list.
- Query.ParseQueryString: keys are compared as plain names. A key such as `constructor` or `__proto__`, which finds an inherited property of `{}`, is not modelled.
- The `URLSearchParams` initialisers other than a string (a record or a list) are not modelled.
- AuthService.IsTokenValid: an `exp` that is not a number counts as invalid. JavaScript would coerce numeric strings, booleans and null when comparing.
- AuthState.AuthStore.InitAuth: a saved user that does not parse throws out of `initAuth`, and out of the router guard. The model reports this as `ok == false` with the state unchanged. Router.BeforeEach then decides on the unchanged flag, where the code would abort the navigation.
- BaseStore.ChatStore.AddImageMessage: the `imageFile` field of an image message is not kept.
- BaseStore.SortByTime: stable, keeping equal timestamps in insertion order, but stability is not proved. Only the permutation and the newest-first order are proved.
- Json.Field: reads object keys only. Properties of arrays and strings such as `length` are not modelled.
- Integers are unbounded throughout, so 53-bit float precision is not modelled. The only exception is the `>>> 0` in `getFileExtension`, which is modelled modulo 2^32.
- The router's `createRouter` / history setup and its lazy route components are not modelled.
- `src/api/system.js`, `src/api/index.js`, `main.js` and the Vuetify theme are not part of this model. From `src/api/constants.js` only `UPLOAD_MAX_SIZE` (10 MiB) is used.

## Findings

| source | as written | input that shows it | evidently intended | confidence | as-written member | corrected member |
|---|---|---|---|---|---|---|
| src/utils/http.js:42 | `if (params[key])` tests truthiness, so a key whose stored value is '' is overwritten by the next value | `parseQueryString("a=&a=x")` gives `{a: "x"}` | a repeated name collects all its values, `{a: ["", "x"]}` | not executed; derived from the code | Query.EmptyValueLost | Query.CollectPresentPerKey |
| src/utils/http.js:90 | `if (!target[key])` only creates `{}` for a falsy target value, so a truthy non-object value stays and the recursive merge into it does nothing | `deepMerge({a: 1}, {a: {b: 2}})` keeps `a: 1` | a nested source object lands as an object under its key | not executed; derived from the code | Http.NestedObjectDropped | Http.RepairedKeepsNestedObjects |
