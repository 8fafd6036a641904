# go-universal/http core, modelled in Dafny

This project models the request-scoped pieces of the go-universal/http
toolkit for the Fiber web framework:

- the **session**: its identifier, data map, sign-encoded pending TTL and
  fresh/modified flags. The model covers the calls the session makes to an
  expiring key-value store under `"ses-" + id`, and how it carries its id in
  a cookie or a response header.
- the **session middleware**, which opens a session and exposes it to later
  handlers. Those handlers edit it with Set, Delete, AddTTL, SetTTL or
  Destroy, and the middleware saves the edited session only when the chain
  succeeded.
- the **CSRF middleware**: it reads the token from the session and compares
  it with the request's header or form value, then answers 419, calls a
  failure handler or passes the request on.
- the **content-type test** of the content-negotiation middlewares.
- the **HTTP error** record, its constructors, the status clamp and the
  flattening of a request body into the error.
- the **Fiber error handler**: how it classifies an error, filters and builds
  the log entry, and answers the request.
- the **uploader**, a save/delete state machine over a file system with a
  queue for files whose removal failed.
- the **option builders** of the session, CSRF, limiter and uploader
  packages. Each is a class whose methods assign fields, proved against a
  pure `Apply`. Where the source loops over options, a `Build` loop is proved
  to compute the left fold `Configured`.

The store (`Cache.Store`), the response (`Http.Ctx`), the logger
(`Recover.Logger`), the file system (`Uploader.FileSystem`) and the queue
(`Cache.Queue`) are recording test doubles. A store or file-system call fails
when its operation is listed in the double's `faults` map, so every error
path of the source can be reached.

JSON encoding is an abstract codec whose round-trip law holds by
construction: an encoded blob carries its document (`Json.DecodeEncode`). Durations are integers in nanoseconds.

## Model

| member | source | states |
|---|---|---|
| Session.Key | session/session.go:412-414 | the store key is "ses-" followed by the id, so the id is recoverable from it |
| Session.KeyInjective | session/session.go:412-414 | two sessions share a store key exactly when they share an id |
| Session.SaveTTL | session/session.go:273-289 | the TTL Save writes for a pending change is always positive. It is remaining + t when extending with time left, t when nothing is left, and the magnitude for a SetTTL |
| Session.Session.New | session/session.go:80-124 | defaults then options in order; id read from the configured header or cookie. A load error is returned; a stored session is used as it is. Otherwise the stale key is forgotten and a fresh session announced, with calls and response events stated in full |
| Session.Session.Id | session/session.go:126-128 | returns the session's identifier |
| Session.Session.Get | session/session.go:150-155 | the stored value, or nil for an absent key |
| Session.Session.Exists | session/session.go:165-171 | true exactly when the key is held |
| Session.Session.CreatedAtText | session/session.go:180-195 | created_at is reported only when it is held as a string, and then it is that string (time parsing left out) |
| Session.Session.Set | session/session.go:140-148 | a key blank after trimming changes nothing; otherwise the value goes under the trimmed key and the session becomes modified. Get and Exists then read the value back under the trimmed key and read every other key as before |
| Session.Session.Delete | session/session.go:157-163 | the untrimmed key is absent afterwards and the session is modified, even when the key was not there |
| Session.Session.AddTTL | session/session.go:197-211 | t <= 0 changes nothing and calls nothing; otherwise pending becomes +t, modified is set and sync runs |
| Session.Session.SetTTL | session/session.go:213-227 | t <= 0 changes nothing; otherwise pending becomes -t, modified is set and sync runs |
| Session.Session.Destroy | session/session.go:229-249 | with an id: one Forget. On success id and data are cleared and nothing else; a Forget error leaves the session intact |
| Session.Session.Save | session/session.go:251-294 | the store effect is SaveEffect: skip, Put with the configured TTL, TTL then Put, Put, or Update. The flags and the pending TTL are unchanged |
| Session.Session.Fresh | session/session.go:296-317 | forgets the old key when there is an id (its error aborts), then sets a generated id, the configured TTL, data {created_at}, fresh and modified, and syncs |
| Session.Session.Load | session/session.go:319-354 | no id means false with no call. An absent key means false. Fetch and decode errors are returned; a decode error leaves the data empty; otherwise the decoded document |
| Session.Session.Sync | session/session.go:370-410 | the id goes to the header, or into a cookie whose lifetime decodes the pending TTL like Save; a TTL lookup error is returned |
| Session.SaveSkipsUnchanged | session/session.go:252-255 | Save makes no store call without an id or when neither fresh nor modified |
| Session.SaveTouchesOnlyItsKey | session/session.go:251-294 | Save calls and writes only the session's own key |
| Session.SavePutsPositiveTTL | session/session.go:267-289 | every successful Put stores the encoded data with a positive TTL: the configured one when fresh, SaveTTL otherwise |
| Session.SaveFreshUsesConfiguredTTL | session/session.go:268-270 | a fresh session is saved by one Put under the configured TTL, whatever is pending |
| Session.SaveWithoutTTLChangeKeepsTTL | session/session.go:291-293 | with no pending change Save calls Update, which keeps the stored TTL and loses the write when the key is gone |
| Session.CookieMatchesSave | session/session.go:383-394 | for a session that is not fresh, the cookie lifetime equals the TTL Save writes |
| Session.FreshSetTTLCookieExpired | session/session.go:213-399 | on a fresh session SetTTL(t) sends a cookie with lifetime -t, already expired, while Save stores the configured TTL |
| Session.LoadAfterSave | session/session.go:262-353 | a session Save wrote is loaded back with exactly the saved data |
| Session.LoadFindsExactlyHeldKeys | session/session.go:329-353 | Load finds a session exactly when its key holds a decodable document, and then returns that document |
| Session.RepeatedSaveExtendsAgain | session/session.go:251-294 | Save clears no flag and no pending TTL, so saving an extended session twice extends it twice |
| SessionOption.Apply | session/option.go:24-73 | each closure keeps the record valid (a cookie transport has cookie attributes, the TTL is positive) |
| SessionOption.Config.WithTTL | session/option.go:24-30 | only a positive TTL is stored |
| SessionOption.Config.WithHeader | session/option.go:34-43 | a non-blank trimmed name selects header transport and drops the cookie |
| SessionOption.Config.WithCookie | session/option.go:47-56 | a non-blank trimmed name selects cookie transport with the attributes |
| SessionOption.Config.WithReadonly | session/option.go:60-64 | sets the read-only flag only |
| SessionOption.Config.WithGenerator | session/option.go:67-73 | a nil generator is ignored |
| SessionOption.Configured | session/session.go:82-91 | the configured record is always valid |
| SessionOption.Build | session/session.go:82-91 | the option loop computes the left fold of the closures over the defaults |
| SessionOption.NonPositiveTTLIgnored | session/option.go:24-30 | a WithTTL(t <= 0) can be removed from any option list |
| SessionOption.BlankNameIgnored | session/option.go:34-56 | a WithHeader or WithCookie with a blank name can be removed |
| SessionOption.NilGeneratorIgnored | session/option.go:67-73 | a WithGenerator(nil) can be removed |
| SessionOption.LastTTLWins | session/option.go:24-30 | the last positive WithTTL decides the TTL |
| SessionOption.LastTransportWins | session/option.go:34-56 | the last header or cookie option with a non-blank name decides the name, the carrier and the cookie attributes |
| SessionOption.ReadonlyOnlySetsFlag | session/option.go:60-64 | inserting WithReadonly anywhere changes only the read-only flag of the result |
| SessionOption.ReadonlyCommutes | session/option.go:24-73 | setting the read-only flag commutes with every option |
| SessionMiddleware.Open | session/middelware.go:14 | New's whole outcome (`Session.Opened`): the load error, the stored session, the failed forget, or the fresh session with its store calls and cookie or header; a returned session is new, configured from the options and bound to this request and store |
| SessionMiddleware.Serve | session/middelware.go:11-35 | the session is created as New creates it (`Session.Opened` over the starting request, store and response). A New error is returned with no further effect. Otherwise the CORS headers for a header transport come first, then the SESSION local and the chain, whose edits (`Edits`) change the session, store and response. A failing chain's error is returned without a save; a passing chain returns exactly Save's result on the edited session |
| SessionMiddleware.Continue | session/middelware.go:19-33 | the steps after New: CORS headers, the SESSION local, the chain with its edits, then Save of the edited session only when the chain passed |
| SessionMiddleware.Expose | session/middelware.go:19-26 | the two CORS headers only for a header transport outside no-op mode, then the SESSION local |
| SessionMiddleware.EditEffect | session/session.go:140-249 | one handler call of Set, Delete, AddTTL, SetTTL or Destroy, as those methods behave; it keeps the fresh flag and only appends to the store calls and response events |
| SessionMiddleware.Edits | session/middelware.go:29 | the chain's edits in order; they keep the fresh flag and only append to the store calls and response events |
| SessionMiddleware.ApplyEdit | session/session.go:140-249 | calling the session's method changes the session, store and response exactly as EditEffect says |
| SessionMiddleware.RunChain | session/middelware.go:29 | the handlers' calls on the exposed session, in order, give exactly Edits |
| SessionMiddleware.DataEditsStayLocal | session/session.go:140-163 | Set and Delete make no store call and no response event and keep the id and pending TTL, so their changes reach the store only through Save |
| SessionMiddleware.EditKeepsValue | session/session.go:140-249 | an edit that neither deletes nor overwrites a key nor destroys the session keeps the key's value |
| SessionMiddleware.SetValueReachesSave | session/middelware.go:26-31 | a value a handler sets under a non-blank key is in the data Save receives, unless a later edit deletes or overwrites it or destroys the session |
| SessionMiddleware.DestroyedSessionNotSaved | session/session.go:229-256 | after a successful Destroy the stored session is gone and the middleware's Save makes no store call |
| Content.IsValidContent | content/utils.go:7-20 | true exactly when some accepted type, lower-cased, is a prefix of the trimmed, lower-cased content type |
| Content.NothingAcceptedByNone | content/utils.go:18-19 | with no accepted types the result is false |
| Content.AcceptsIgnoresPadding | content/utils.go:9 | surrounding white space never changes the result |
| Content.AcceptsIgnoresCase | content/utils.go:9 | lower- or upper-casing the content type never changes the result |
| Content.AcceptedTypeCaseIgnored | content/utils.go:13 | upper-casing an accepted type never changes the result |
| Content.AcceptsWithParameters | content/utils.go:12-16 | a content type with parameters after an accepted type is accepted |
| Content.AcceptsListedType | content/utils.go:12-16 | a content type equal to an accepted type, in any case, is accepted |
| CsrfOption.Apply | csrf/option.go:17-48 | a non-empty token name stays non-empty |
| CsrfOption.Config.WithFail | csrf/option.go:17-21 | stores the failure handler, nil included |
| CsrfOption.Config.WithNext | csrf/option.go:24-28 | stores the skip predicate, nil included |
| CsrfOption.Config.WithHeader | csrf/option.go:31-38 | a non-empty name selects that header; an empty one changes nothing |
| CsrfOption.Config.WithForm | csrf/option.go:41-48 | a non-empty name selects that form field; an empty one changes nothing |
| CsrfOption.Configured | csrf/middleware.go:18-26 | the configured token name is never empty |
| CsrfOption.Build | csrf/middleware.go:18-26 | defaults (form, "csrf_token", no handlers) with the options folded in order |
| CsrfOption.EmptyNameIgnored | csrf/option.go:31-48 | WithHeader or WithForm with an empty name can be removed |
| CsrfOption.LastCarrierWins | csrf/option.go:31-48 | the last WithHeader/WithForm with a non-empty name decides header mode and key |
| CsrfOption.LastFailWins | csrf/option.go:17-21 | the last WithFail decides the failure handler |
| CsrfOption.LastNextWins | csrf/option.go:24-28 | the last WithNext decides the skip predicate |
| CsrfMiddleware.StoredToken | csrf/middleware.go:40 | the session's "csrf" value when it is a string, else "" |
| CsrfMiddleware.SessionToken | csrf/middleware.go:40-43 | an empty stored token is replaced by the refreshed one |
| CsrfMiddleware.AcceptedOnlyWithToken | csrf/middleware.go:51-61 | a request is accepted exactly when the token is non-empty and equals the input |
| CsrfMiddleware.Middleware.constructor | csrf/middleware.go:16-26 | the handler captures the configured record |
| CsrfMiddleware.Middleware.Handle | csrf/middleware.go:28-71 | a matching skip predicate passes the request on untouched. A missing session is the error "failed to resolve session". Otherwise the outcome is the token check, with the key upper-cased and announced in header mode |
| CsrfMiddleware.HeaderKeySettles | csrf/middleware.go:46-48 | in header mode the key is upper-cased once and further requests leave it as it is |
| CsrfMiddleware.UncheckedPasses | csrf/middleware.go:49-70 | a method that needs no token always reaches the chain |
| CsrfMiddleware.CheckedPassesIffToken | csrf/middleware.go:49-67 | a checked request reaches the chain exactly when it presents the non-empty token |
| CsrfMiddleware.KeySettlesScenario | csrf/middleware.go:46-48 | two requests in header mode both use the upper-cased name |
| Http.GetIgnoresCase | csrf/middleware.go:47-50 | a header name read in any ASCII case, the upper-cased one included, finds the same request header |
| CsrfMiddleware.HeaderTokenScenario | csrf/middleware.go:46-57 | a header-mode POST carrying the token under the lower-cased header name is found under the upper-cased name and passes on |
| CsrfMiddleware.TokenScenario | csrf/middleware.go:59-66 | a form POST passes exactly with the matching non-empty token, else gets 419 "invalid csrf token" |
| Errors.HttpError.Error | error.go:23-25 | the error text is exactly the message |
| Errors.RealStatus | error.go:131-137 | the first status when 399 < s < 600, else 500; always 4xx or 5xx |
| Errors.RealStatusReadsFirstOnly | error.go:131-137 | statuses after the first are never read |
| Errors.NewError | error.go:29-38 | message e, no body, status clamped, 500 when none is given |
| Errors.NewFormError | error.go:42-51 | as NewError, with the request body flattened |
| Errors.ExtractRequestBody | error.go:55-103 | nil without a context; otherwise the body Flattened describes: form values, files, or JSON fields under prefixed keys |
| Errors.AddFormValues | error.go:63-71 | every form field under "form."+field: its one value, the list, or nil |
| Errors.AddFiles | error.go:74-87 | every file field under "file."+field, nil when empty, form entries untouched |
| Errors.DescribeAll | error.go:75-80 | one description per uploaded file, in order |
| Errors.AddJsonFields | error.go:96-98 | every JSON field under "form."+field with its value |
| Errors.PrefixesDisjoint | error.go:65-83 | a "form." key never collides with a "file." key |
| Errors.FlattenedUnique | error.go:60-99 | the flattened body does not depend on the order in which fields are visited |
| Recover.Classify | recover.go:36-55 | a fiber error gives its code and text; an HttpError gives its own fields; any other error gives 500 and its text |
| Recover.BodyParams | recover.go:68-70 | the log entry lists every body field exactly once, in some order |
| Recover.ListingLength | recover.go:68-70 | such a listing has one entry per body field |
| Recover.Handle | recover.go:34-88 | logs the fixed fields then the body iff a logger is set and the status passes the filter. Answers via the callback with the computed error, or with a plain-text response of that status and message |
| Recover.NewErrorClassified | recover.go:47-52 | an error from NewError reaches the handler with its message, a 4xx/5xx status and no body |
| Recover.FilterByCodes | recover.go:58 | with no codes every status is logged, a listed status is logged, and nothing is logged without a logger |
| LimiterOption.Apply | limiter/option.go:24-67 | positive limits stay positive and the key is never touched |
| LimiterOption.Config.WithMaxAttempts | limiter/option.go:24-30 | only a positive count is stored |
| LimiterOption.Config.WithTTl | limiter/option.go:33-39 | only a positive window is stored |
| LimiterOption.Config.WithSkipFail | limiter/option.go:42-46 | stores the flag as given |
| LimiterOption.Config.WithFail | limiter/option.go:49-53 | stores the handler factory, nil included |
| LimiterOption.Config.WithNext | limiter/option.go:56-60 | stores the skip predicate, nil included |
| LimiterOption.Config.WithKeys | limiter/option.go:63-67 | stores the key function, nil included |
| LimiterOption.LimitsStayPositive | limiter/option.go:24-39 | positive starting limits stay positive through any option list |
| LimiterOption.NonPositiveLimitIgnored | limiter/option.go:24-39 | WithMaxAttempts(0) and WithTTl(t <= 0) can be removed from any option list |
| LimiterOption.OnlyOwnField | limiter/option.go:24-67 | each option changes its own field only |
| LimiterOption.LastAttemptsWins | limiter/option.go:24-30 | the last positive WithMaxAttempts decides the attempts |
| LimiterOption.LastTTLWins | limiter/option.go:33-39 | the last positive WithTTl decides the window |
| LimiterOption.LastSkipFailWins | limiter/option.go:42-46 | the last WithSkipFail decides the flag |
| LimiterOption.LastFailWins | limiter/option.go:49-53 | the last WithFail decides the handler |
| LimiterOption.LastNextWins | limiter/option.go:56-60 | the last WithNext decides the skip predicate |
| LimiterOption.LastKeysWins | limiter/option.go:63-67 | the last WithKeys decides the key function |
| UploaderOption.Prefix | uploader/option.go:42-43 | the builder captures the prefix already trimmed |
| UploaderOption.Apply | uploader/option.go:21-47 | a trimmed prefix stays trimmed |
| UploaderOption.Config.WithQueue | uploader/option.go:21-25 | stores the queue |
| UploaderOption.Config.WithNumbered | uploader/option.go:28-32 | selects numbered names |
| UploaderOption.Config.WithTimestamped | uploader/option.go:35-39 | selects timestamped names |
| UploaderOption.Config.WithPrefix | uploader/option.go:44-46 | stores the captured prefix trimmed again |
| UploaderOption.Configured | uploader/uploader.go:60-67 | the configured prefix is always trimmed |
| UploaderOption.Build | uploader/uploader.go:60-67 | defaults (no queue, timestamped, no prefix) with the options folded in order |
| UploaderOption.PrefixTrimmedOnce | uploader/option.go:42-47 | WithPrefix(p) stores exactly TrimSpace(p) and changes nothing else: the second trim is idempotent |
| UploaderOption.OnlyOwnField | uploader/option.go:21-47 | each option changes its own field only |
| UploaderOption.LastQueueWins | uploader/option.go:21-25 | the last WithQueue decides the queue |
| UploaderOption.LastNamingWins | uploader/option.go:28-39 | of WithNumbered and WithTimestamped the last one wins |
| UploaderOption.LastPrefixWins | uploader/option.go:42-47 | the last WithPrefix decides the prefix, trimmed |
| Text.TrimSpaceIdempotent | uploader/option.go:43-45 | trimming a trimmed string changes nothing |
| Uploader.FileName | uploader/uploader.go:69-80 | no file gives the empty name; only a failing numbered name is an error |
| Uploader.NewUploader | uploader/uploader.go:54-90 | the root is trimmed and the options folded. The name comes from FileName, whose error is returned; the result is not saved |
| Uploader.Uploader.ValidateSize | uploader/uploader.go:121-142 | no file: false, no error. Otherwise a min parse error comes first, then a max error; true exactly when min <= size <= max |
| Uploader.Uploader.ValidateMime | uploader/uploader.go:144-164 | no file: false, no error. A detection error is returned; otherwise true exactly when some allowed type equals the detected one |
| Uploader.Uploader.Path | uploader/uploader.go:166-173 | "" without a file, otherwise the normalized root/name path |
| Uploader.Uploader.URL | uploader/uploader.go:175-182 | "" without a file, otherwise the URL of Path without the prefix |
| Uploader.SaveEffect | uploader/uploader.go:184-208 | saved is set exactly when the write happens. An existing file is never overwritten ("<dest> file exists"). Nothing happens when there is no file or it is already saved |
| Uploader.Uploader.Save | uploader/uploader.go:184-208 | the file system, the flag and the result follow SaveEffect |
| Uploader.DeleteEffect | uploader/uploader.go:210-223 | a no-op unless saved. It fails only when the removal fails, and a successful delete leaves no file at the path |
| Uploader.Uploader.Delete | uploader/uploader.go:210-223 | the file system and the result follow DeleteEffect; saved is not reset |
| Uploader.Uploader.SafeDelete | uploader/uploader.go:225-234 | Delete, then Path() is queued iff a queue is configured and Delete failed |
| Uploader.SecondSaveWritesNothing | uploader/uploader.go:186-188 | after a Save succeeded, later Saves return nil and write nothing |
| Uploader.SaveThenDeleteRestores | uploader/uploader.go:184-223 | saving a new file and deleting it leaves the file system as it was |
| Uploader.SecondDeleteSucceeds | uploader/uploader.go:216-220 | a second Delete of a deleted file finds it gone and succeeds |
| UploaderScenarios.SaveOnceScenario | uploader/uploader.go:184-208 | two Saves both return nil and leave exactly one file |
| UploaderScenarios.TrimmedRootScenario | uploader/uploader.go:57 | " uploads " is used as "uploads" |
| UploaderScenarios.QueueOnFailedDeleteScenario | uploader/uploader.go:225-234 | a refused removal leaves the file and queues its path |
| UploaderScenarios.NoFileScenario | uploader/uploader.go:117-188 | with no file: empty path and URL, size invalid, Save writes nothing |
| Json.DecodeEncode | session/session.go:262-348 | unmarshalling marshalled session data gives it back |
| SessionScenarios.ExtendScenario | session/session.go:197-282 | AddTTL(d) then Save stores remaining + d |
| SessionScenarios.SetTTLScenario | session/session.go:213-289 | SetTTL(d) then Save stores exactly d |
| SessionScenarios.RoundTripScenario | session/session.go:80-270 | a value set on a fresh session and saved is loaded back by the next request with created_at |
| SessionScenarios.FirstVisitServeScenario | session/middelware.go:11-35 | a first request through the middleware, whose chain sets "user", gets a fresh id in a 24h cookie, the SESSION local and the chain, then one Put with 24h of the data holding created_at and the user |
| SessionScenarios.StaleIdScenario | session/session.go:111-317 | an unknown id is probed, forgotten, and replaced by a fresh id sent in a 24h cookie |
| SessionScenarios.HeaderScenario | session/session.go:370-380 | with header transport the fresh id is sent in the named header |
| SessionScenarios.CleanSaveScenario | session/session.go:252-255 | an unchanged loaded session makes no store call on Save |
| SessionScenarios.DestroyThenSaveScenario | session/session.go:229-255 | after Destroy the session is gone and Save makes no store call |

## Left out

- Wall-clock time, randomness and the process environment are parameters.
  This covers `now` for created_at, the seed of the id generator, the
  timestamped and numbered file names, and the APP_ROOT-relative path
  helper. RFC 3339 formatting and parsing are not modelled, so CreatedAt
  stops at the raw string.
- Session.Context and Session.Cast are not modelled as operations. They
  return the Fiber context and a go-universal/cast caster, which are not
  part of this model. The two places that use a caster commit to a reading
  of it, stated in the next two lines.
- CsrfMiddleware.StoredToken: assumes that cast's StringSafe("") gives the
  stored value when it is a string and "" for a missing or non-string
  value. A caster that renders a stored number as text would give a
  non-empty token where the model refreshes the token.
- Session.Session.Load: the failure of caster.String() after a successful
  Cast is folded into the Cast fault of the store double.
- session.Parse, refresh, getBodyValue, isRFC9110Method and isNoop are
  called but not defined in the modelled files. They enter as parameters:
  the parsed session, the refreshed token, the body value, the `checked`
  predicate and `noop`. No read-only or no-op behaviour is invented.
- The read-only option is stored but never read by the session code, so it
  has no effect in the model either.
- The store is a map with remaining TTLs and no expiry over time. A TTL
  query for a key the store does not hold reports 0.
- The go-universal/cache, mimetype, bytesize and go-universal/utils packages
  are foreign code. NormalizePath, AbsoluteURL, NumberedFile,
  TimestampedFile, MIME detection (`detected`), mimetype.Equal (`equal`) and
  the byte-size bounds enter as parameters. ValidateSize receives the bounds
  already converted to byte counts, so the float-to-int64 conversion is not
  modelled. File descriptions in error bodies carry size and MIME as given.
- Uploader.NewFiberUploader and Uploader.FiberFile only wrap c.FormFile and
  are not modelled.
- Integer widths: durations and sizes are unbounded integers, so int64
  overflow of `remaining + ttl` and of `now + ttl` is not modelled.
  `attempts` is a natural number, as Go's uint is never negative.
- strings.ToLower and strings.ToUpper are modelled for ASCII letters only.
  strings.TrimSpace uses Go's full Unicode white-space set.
- Recover.Handle: the callback is known only by its result, so any
  response it writes itself is not recorded. The order of the body fields
  in the log entry is left open, as Go's map iteration order is.
- Locking (sync.RWMutex) and concurrent access are not modelled. Each
  operation runs alone.
- The limiter middleware and its defaults are not part of this model, so
  the limiter options are folded over any starting record.
- Request header names are matched without regard to ASCII case, as
  fasthttp normalises them. `Http.Request.headers` is keyed by the
  lower-cased name, so a request is written with lower-cased header names.
  Non-ASCII case differences are not modelled. Cookie names are matched
  exactly.
- The rest of the chain is known by its edits to the session (Set, Delete,
  AddTTL, SetTTL, Destroy) and by its result. Other session calls a handler
  could make (Save, Fresh, Load) are not among the edits, and what the
  edits return does not feed into the chain's result.
- Session.LoadAfterSave: decoding gives back exactly the document that was
  encoded. Go's json.Unmarshal into `map[string]any` returns every number
  as float64 and every struct as a map, so the lemma matches Go only for
  data already in that decoded form: strings, booleans, nil, lists and
  maps. Numbers are integers here and floating point is not modelled.
- Fiber request plumbing (Cookie, Set, Append, Locals, Status/SendString,
  MultipartForm, BodyParser) is recorded as response events or taken as
  input values.
- The content/form.go, content/xml.go and content/json.go wrappers only
  pass MIME constants to isValidContent and are not modelled separately.

## Behaviour of the code as written

The model follows the code. These consequences of the code are proved,
not corrected:

- Save never clears `fresh`, `modified` or the pending TTL. A second Save of
  an extended session extends it again (`Session.RepeatedSaveExtendsAgain`).
- Destroy clears only the id and the data. A later Save is then a no-op
  because the id is empty (`SessionScenarios.DestroyThenSaveScenario`).
- On a fresh session, sync uses the pending TTL, which AddTTL and SetTTL
  change, while Save uses the configured TTL. After SetTTL the cookie's
  lifetime is negative (`Session.FreshSetTTLCookieExpired`).
- In header mode the CSRF middleware upper-cases the key it keeps in its
  captured configuration on every request. The effect settles after the
  first request (`CsrfMiddleware.HeaderKeySettles`).
