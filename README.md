# Whoop recovery dashboard: credential broker, data proxy and view logic

This project models the core of a single-user dashboard backed by the Whoop
API. The server (`server.js`) keeps an OAuth 2.0 credential triple in memory and persists it to
an env file. It refreshes the access token through a single-flight refresh-token
grant (section 6 of RFC 6749) and runs the authorization-code flow (section 4.1 of RFC 6749)
with a CSRF `state` check (section 10.12 of RFC 6749). It also proxies cursor-paginated
collections from the upstream API and maps upstream failures to JSON errors.
The browser script (`public/js/dashboard.js`) turns the server's answer into one of four
view states and fills in the metric cards.

Modules:

- `Wrappers`: the `Option` type.
- `Decimal`: `String(n)` for integers and the restricted `Number(s)` that reads it back.
- `EnvFile`: `updateEnvTokens`. It is a function on the file's lines (`UpdatedLines`,
  `UpdateEnvContent`), plus a loop method `UpdateEnvTokens` proved equal to it. It comes
  with the line-splitting round trips and the rewrite properties.
- `Server`: the startup load, the authentication gate and callback decisions, and the
  `Broker` class. `Broker` holds the module-level state of `server.js`: the token triple,
  the env file, the refresh slot that replaces the promise mutex, and the pending OAuth state.
- `Upstream`: `buildWhoopUrl`, the pagination loop `FetchAllPages`, proved equal to the
  declarative `FetchAllPagesSpec`, `whoopErrorResponse`, the data routes and the
  aggregate `/api/whoop/all`.
- `Dashboard`: the colour classifier, the decision of `fetchRecovery` (`Decide`) and the
  `DashboardView` class, whose fields are the DOM properties the script writes.

Conventions: an absent or falsy JavaScript string is the empty string, since every test
in the core treats `undefined`, `null` and `''` alike. The clock (`now`, unix seconds), the OAuth nonce,
the ISO timestamp, the token endpoint's reply, the outcome of the file write and
the upstream's page responses are all parameters. The upstream of a sweep is a finite sequence of page
responses consumed in order.

Three behaviours of the code worth noting:

- A fetch that throws on a later page of a sweep is not turned into a partial result. It
  leaves `whoopFetchAllPages`, and the route answers with its own 502 (`Threw`).
- In the aggregate, a thrown fetch anywhere rejects `Promise.all`. The reply is then the
  generic 502 "Could not retrieve all data.", even when an earlier resource in the fixed
  order came back with a non-ok status (`Upstream.AggregateThrowWins`).
- A failed authorization-code exchange does not clear the pending OAuth state. Only a
  successful exchange clears it.

## Model

| member | source | states |
|---|---|---|
| Decimal.NatToString | server.js:85 | the decimal rendering of a natural number is non-empty, all digits, and has no leading zero |
| Decimal.IntToString | server.js:64 | `String(n)` of an integer is non-empty and has no newline, so it can sit on one env line |
| Decimal.ParseInt | server.js:38 | `Number(s)` for an optional minus sign followed by digits, and not a number otherwise; `IntStringRoundTrip` shows it reads back every `String(n)` |
| Decimal.DigitsOfNat | server.js:38 | reading the digits of a rendered natural number gives the number back |
| Decimal.IntStringRoundTrip | server.js:38 | `Number(String(n))` is `n` for every integer: a persisted expiry reloads unchanged |
| Decimal.NonNegativeRoundTrip | server.js:38 | a non-negative expiry written with `String` reads back as itself |
| Decimal.NegativeRoundTrip | server.js:38 | a negative expiry written with `String` reads back as itself |
| Decimal.SignedDigits | server.js:38 | a minus sign followed by the digits of `m` reads back as `-m` |
| EnvFile.Split | server.js:88 | `split('\n')` gives at least one line and no line contains a newline |
| EnvFile.Join | server.js:108 | `join('\n')`; `JoinSplit` and `SplitJoin` show it is the inverse of `Split` |
| EnvFile.SplitAfterLine | server.js:88 | splitting a line followed by more text extends the first line of the rest |
| EnvFile.SplitJoin | server.js:88 | joining newline-free lines with `'\n'` and splitting again gives the same lines |
| EnvFile.JoinSplit | server.js:108 | splitting any content and joining with `'\n'` gives the content back |
| EnvFile.AtMostOneKey | server.js:92-96 | a line starts with at most one of the three `KEY=` prefixes, so the order of the tries does not matter |
| EnvFile.EntryHasOnlyItsKey | server.js:95 | a written `KEY=value` line starts with its own key and with no other |
| EnvFile.EntryValue | server.js:95 | the text after `KEY=` on a written line is the new value |
| EnvFile.Absent | server.js:101-103 | the keys whose seen flag is false, each once, in the order access, refresh, expiry |
| EnvFile.MatchKey | server.js:92-93 | the first key of `tokenMap` whose `KEY=` the line starts with; characterised by `MatchKeySpec` and `AtMostOneKey` |
| EnvFile.MatchKeySpec | server.js:92-93 | the key found for a line is one the line starts with; none is found exactly when the line starts with no key |
| EnvFile.RewriteLine | server.js:91-99 | the `map` callback; `RewriteOneLine` is proved equal to it and `UpdatedLinesKeepPositions` states its effect |
| EnvFile.MissingKeys | server.js:101-103 | a key is appended exactly when no input line starts with it, in the order access, refresh, expiry |
| EnvFile.OccursSnoc | server.js:93-94 | after one more line, a key has been seen exactly when it was seen before or this line starts with it |
| EnvFile.KeySetOfLine | server.js:92-94 | the callback adds a key to `seen` for a line exactly when the line starts with that key |
| EnvFile.KeysInOccurs | server.js:89-99 | after the map pass, a key is in `seen` exactly when some line starts with it |
| EnvFile.RewriteAll | server.js:91-99 | the map pass gives one line per input line |
| EnvFile.RewriteAllAt | server.js:91-99 | line `j` of the map pass is the callback applied to input line `j` |
| EnvFile.RewriteAllPointwise | server.js:91-99 | every line of the map pass is the callback applied to the input line at the same position |
| EnvFile.AppendedPointwise | server.js:101-106 | the append loop pushes one `KEY=newValue` entry per unseen key, in `tokenMap` order |
| EnvFile.UnseenIsMissing | server.js:101-106 | the keys the append loop finds missing from `seen` are exactly the keys no line starts with, in order |
| EnvFile.UpdatedLines | server.js:88-106 | the lines `updateEnvTokens` joins; `UpdatedLinesParts`, `UpdatedLinesKeepPositions` and `UpdatedLinesAppendMissing` characterise them |
| EnvFile.UpdateEnvContent | server.js:81-109 | `updateEnvTokens` on file content; `UpdateEnvTokens` is proved equal to it and `UpdateEnvContentIdempotent` and `RewrittenFileHoldsValues` state its properties |
| EnvFile.UpdatedLinesParts | server.js:88-106 | the output is the input lines rewritten one by one in place, followed by one entry per missing key |
| EnvFile.UpdatedLinesPointwise | server.js:91-106 | output that agrees line by line with the rewritten lines and then with the appended entries is the rewritten file |
| EnvFile.RewriteOneLine | server.js:91-98 | the `map` callback's loop over the keys returns the key the line starts with, if any, and the rewritten line |
| EnvFile.RewriteLines | server.js:88-99 | the `lines.map` pass returns the rewritten lines, and `seen` ends as the set of keys some line starts with |
| EnvFile.AppendUnseen | server.js:101-106 | the loop over `tokenMap` pushes `KEY=newValue` for exactly the keys outside `seen`, in order, after the rewritten lines |
| EnvFile.UpdateEnvTokens | server.js:81-109 | the two loops over the lines and the keys produce exactly `UpdateEnvContent` of the old content and new triple |
| EnvFile.UpdatedLinesKeepPositions | server.js:88-99 | output length is the input length plus the missing keys; each input position keeps its line unless it starts with a key, and every key line (each occurrence) becomes `KEY=newValue` |
| EnvFile.UpdatedLinesAppendMissing | server.js:101-106 | after the input lines come exactly the keys no input line starts with, in fixed order, each as `KEY=newValue` |
| EnvFile.UpdatedLinesHaveEveryKey | server.js:91-106 | every key has a line in the output: its rewritten line, or its appended entry when no input line had it |
| EnvFile.UpdatedLineOfKey | server.js:91-106 | an output line that starts with a key is that key's new entry |
| EnvFile.UpdatedLinesHoldNewValues | server.js:82-106 | every key appears in the output, and every output line with a key is that key's new entry |
| EnvFile.UpdatedLinesMissNothing | server.js:101-106 | no key is missing from the output, so a second call appends nothing |
| EnvFile.UpdatedLineFixed | server.js:91-98 | a second call leaves every output line of the first as it is |
| EnvFile.UpdatedLinesIdempotent | server.js:81-109 | rewriting the rewritten lines with the same triple changes nothing |
| EnvFile.KeyPrefixNoNewline | server.js:95 | none of the three `KEY=` prefixes contains a newline |
| EnvFile.EntryNoNewline | server.js:95 | a `KEY=value` entry has no newline when the tokens have none, since the expiry is written with `String` |
| EnvFile.UpdatedLinesNoNewlines | server.js:95 | with newline-free tokens, no output line contains a newline |
| EnvFile.UpdateEnvContentIdempotent | server.js:81-109 | on file content, applying `updateEnvTokens` twice with the same newline-free values equals applying it once |
| EnvFile.RewrittenFileHoldsValues | server.js:81-109 | in the rewritten file every key has a line, and each line starting with `KEY=` carries exactly the new value |
| EnvFile.EntryLiterals | server.js:82-86 | the three entries are `WHOOP_ACCESS_TOKEN=`, `WHOOP_REFRESH_TOKEN=` and `WHOOP_TOKEN_EXPIRES_AT=` followed by the new values |
| EnvFile.AccessLine | server.js:92-93 | a `WHOOP_ACCESS_TOKEN=` line matches the access token key and no other |
| EnvFile.OccursInThree | server.js:92-94 | a key occurs in three lines exactly when one of them starts with it |
| EnvFile.MissingAroundAccess | server.js:101-103 | with an access token line between two key-free lines, the refresh and expiry keys are missing, in that order |
| EnvFile.RewriteBetween | server.js:88-106 | such three lines become the same lines with the new access entry, then the refresh and expiry entries |
| EnvFile.RewriteExample | server.js:81-109 | `A=1`, `WHOOP_ACCESS_TOKEN=old`, `B=2` (any two key-free lines around an access line) becomes the same three lines with the new access token, then the refresh and expiry lines |
| Server.ExpiryFromEnv | server.js:38 | `Number(v)`, or 0 when that is not a number or is 0, on the restricted number syntax; `LoadWrittenValues` shows a written expiry reads back unchanged |
| Server.LoadCredential | server.js:36-38 | the startup triple with the defaults `''`, `''` and 0; characterised by `LoadDefaults` and `LoadWrittenValues` |
| Server.LoadDefaults | server.js:36-38 | with nothing in the environment the triple is (`''`, `''`, 0) |
| Server.LoadWrittenValues | server.js:36-38 | loading the three values written for a triple gives that triple |
| Server.ReadKey | server.js:36-38 | a value read for a key comes from some line starting with `KEY=`; no value means no such line |
| Server.ReadKeyOfRewritten | server.js:36-38 | when every line for a key carries one value, reading the key gives that value |
| Server.PersistThenReload | server.js:55-76 | when neither token contains a newline, after the triple is written into any env file, reading the keys back at the next start reloads the same triple |
| Server.RefreshGrantForm | server.js:130-136 | the refresh-token grant body; `Broker.BeginRefresh` sends exactly this form |
| Server.AuthorizationCodeForm | server.js:242-248 | the authorization-code grant body; `Broker.HandleCallback` sends exactly this form |
| Server.Lifetime | server.js:150 | the reported lifetime when it is present and non-zero, 3600 seconds otherwise |
| Server.GrantedCredential | server.js:150-151 | the triple a granted reply installs, expiring `now + Lifetime`; `Broker.CompleteRefresh` and `Broker.HandleCallback` install it |
| Server.PersistedFile | server.js:66-75 | the env file rewritten by `updateEnvTokens` when it can be read and replaced, otherwise as it was; `Broker.PersistTokens` ends in it |
| Server.AuthGate | server.js:173-186 | the decision of `isAuthenticated`; characterised by `AuthGateWithoutRefreshToken`, `AuthGateFreshToken`, `AuthGateAtBuffer` and `AuthGateStaleLater` |
| Server.AuthGateWithoutRefreshToken | server.js:174-176 | without a refresh token the gate answers false and no refresh is started |
| Server.AuthGateFreshToken | server.js:179-182 | with a refresh token, the access token is used as it is exactly when it is present and expires after `now + 60` |
| Server.AuthGateAtBuffer | server.js:179-185 | a token expiring exactly at `now + 60` is refreshed |
| Server.AuthGateStaleLater | server.js:178-185 | once a refresh is needed, it is needed at every later time |
| Server.CheckCallback | server.js:226-239 | the ordered checks of `/callback`; characterised by `CallbackExchangesOnlyMatchingState`, `ClearedStateRefusesAll` and `CallbackErrorFirst` |
| Server.CallbackExchangesOnlyMatchingState | server.js:226-239 | the code is exchanged exactly when there is no error, the state is non-empty and equals the pending state, and there is a code |
| Server.ClearedStateRefusesAll | server.js:232-234 | with the pending state cleared, no callback reaches the exchange: a used state cannot be replayed |
| Server.CallbackErrorFirst | server.js:227-229 | an `error` parameter gives `access_denied` whatever the rest of the query |
| Server.Broker.Tokens | server.js:47-49 | `getTokens()`, the cached triple; every `Broker` method states its new value |
| Server.Broker.constructor | server.js:36-38 | the cache starts as the loaded triple with its defaults, no refresh in flight, no pending state |
| Server.Broker.PersistTokens | server.js:55-76 | the whole triple is set in memory; the file becomes `updateEnvTokens` of its old content when it can be read and replaced, and is unchanged otherwise |
| Server.Broker.BeginRefresh | server.js:122-136 | with the slot empty, one exchange is sent with the refresh grant form and the slot is taken; with it taken, the caller only joins |
| Server.Broker.CompleteRefresh | server.js:144-158 | a granted reply installs `(access, refresh, now + lifetime)` and persists it; a rejection or a throw leaves triple and file unchanged; the slot is cleared on every path and every waiter gets the same outcome |
| Server.Broker.IsAuthenticated | server.js:173-186 | the gate's three-way decision; only a stale or missing access token enters the refresh slot |
| Server.Broker.BeginAuthorization | server.js:206-218 | a fresh non-empty nonce becomes the pending state, so it differs from the cleared state, and the authorization query carries it with client id, redirect URI, `response_type=code` and the scopes |
| Server.Broker.HandleCallback | server.js:223-275 | the ordered checks redirect to their error pages with nothing changed; a granted exchange persists the new triple, clears the pending state and redirects to `/`; a failed one redirects to `auth_failed` |
| Server.SingleFlight | server.js:115-128 | `n` callers that find the token stale while the first exchange is in flight send exactly one exchange and all `n` get its outcome |
| Upstream.BuildWhoopUrl | server.js:306-307 | the URL is under the API base with the given path |
| Upstream.LookupAppend | server.js:307-312 | looking a parameter up in two runs of pairs finds the first run's value when it has one |
| Upstream.BuildWhoopUrlQuery | server.js:306-313 | `limit=25` always; `start`, `end` and `nextToken` exactly when truthy; only those names, in the order start, end, limit, nextToken |
| Upstream.LookupName | server.js:308-311 | a parameter of the built query is taken from `start`, then `end`, then the fixed `limit`, then `nextToken` |
| Upstream.StopIndex | server.js:347-356 | the sweep stops at the first page without a cursor; for a terminating upstream that page exists |
| Upstream.ConcatStep | server.js:343-354 | a successful page adds its records after those gathered so far |
| Upstream.SweepRequests | server.js:338-350 | the first `i` requests of a sweep are `i` requests |
| Upstream.SweepRequestAt | server.js:338-350 | request `j` goes to the first URL for `j = 0` and to the URL with page `j-1`'s cursor otherwise, with the same bearer token |
| Upstream.FetchAllPagesSpec | server.js:333-359 | the requests and result of a sweep; `FetchAllPages` is proved equal to it and `SweepRequestCount` through `SecondOfThreePagesFails` state its properties |
| Upstream.FetchAllPages | server.js:333-359 | the loop sends exactly the requests of `FetchAllPagesSpec` and returns its result |
| Upstream.SweepRequestCount | server.js:347-356 | a sweep sends one request per page up to the stopping page and no more |
| Upstream.SweepRequestsFollowCursors | server.js:319-322 | every request carries the same bearer token, path, `start`, `end` and `limit=25`; each follow-up carries the previous page's cursor |
| Upstream.FirstPageFailureIsFatal | server.js:339-341 | a failing first page gives `ok=false` with its status and no records, after one request |
| Upstream.SweepOkUnlessFirstPageFails | server.js:341-358 | a sweep that does not throw is ok (status 200) exactly when its first page did not fail |
| Upstream.LaterPageFailureKeepsPrefix | server.js:349-358 | a failure on a later page ends the sweep as a success holding the records of the pages before it |
| Upstream.StopIndexIsFirstStop | server.js:347 | the stopping page is the first one that does not carry a cursor |
| Upstream.ConcatPrefix | server.js:343-354 | the records of the first pages are a prefix of the records of all pages |
| Upstream.SweepRecordsArePrefix | server.js:343-358 | a sweep's records are the successful pages' records in page order, a prefix of all the upstream holds |
| Upstream.ThreePageSweep | server.js:333-359 | three pages chained by two cursors give three requests, the later two carrying the cursors, and all records in order |
| Upstream.SecondOfThreePagesFails | server.js:347-358 | when page 2 of 3 fails, the sweep succeeds with exactly page 1's records after two requests |
| Upstream.WhoopErrorResponse | server.js:378-395 | 401 and 429 are passed through as themselves and become `auth_expired` and `rate_limited`, and nothing else does; every other status becomes 502 `whoop_api_error` |
| Upstream.WhoopErrorResponseCases | server.js:378-395 | the mapping is total onto three replies; every status other than 401 and 429 becomes 502 `whoop_api_error` |
| Upstream.ThrownReply | server.js:407-409 | a thrown upstream request gives a 502 `whoop_api_error` |
| Upstream.BodyRoute | server.js:400-411 | without a session the reply is 401 `auth_expired`; the body is sent exactly when the session holds and the fetch is ok; a non-ok fetch gives the mapped upstream error and a thrown one the body 502 |
| Upstream.CollectionRoute | server.js:416-428 | without a session the reply is 401; the records are sent exactly when the session holds and the sweep is ok; a failed sweep gives the mapped error of its status and a thrown one the resource's own 502 |
| Upstream.CollectionRouteOfSweep | server.js:416-428 | a route over an upstream whose first page succeeds and that never throws answers with exactly the sweep's records |
| Upstream.FirstFailure | server.js:505-507 | the index found is a failing result with every earlier one ok; none found means all are ok |
| Upstream.FirstFailureAt | server.js:505-507 | a failing result with every earlier one ok is the one reported |
| Upstream.DatePart | server.js:510 | `slice(0, 10)` of the timestamp is its prefix of length at most 10 |
| Upstream.Nullable | server.js:511-514 | a falsy period bound becomes `null`, any other is kept |
| Upstream.Aggregate | server.js:488-527 | the reply of `/api/whoop/all` from the five results; characterised by `AggregateUnauthenticated`, `AggregateThrowWins`, `AggregateReportsFirstFailure` and `AggregatePayload` |
| Upstream.AggregateUnauthenticated | server.js:489 | without a session the aggregate replies 401 `auth_expired` |
| Upstream.AggregateThrowWins | server.js:495-502 | a throw in any of the five fetches gives the generic 502 "Could not retrieve all data." |
| Upstream.AggregateReportsFirstFailure | server.js:505-507 | with no throw, the reply is the mapped error of the first non-ok result in the order body, recovery, sleep, cycle, workout, whatever the later ones are |
| Upstream.AggregateSleepFailure | server.js:505-507 | when only the sleep sweep fails, the reply is its mapped error and no payload |
| Upstream.AggregatePayload | server.js:509-520 | a payload is sent exactly when the session holds and all five results are ok; it carries each result, the date part of the clock and `null` for falsy bounds |
| Upstream.WhoopAll | server.js:488-527 | the handler replies with the aggregate of the body fetch and the four sweeps run with the same `start`/`end` |
| Dashboard.RecoveryColorClass | public/js/dashboard.js:35-39 | green exactly for scores from 67, yellow exactly for 34 up to 67, red exactly below 34 |
| Dashboard.ColorClassMonotone | public/js/dashboard.js:35-39 | a higher score never gets a worse colour (red < yellow < green) |
| Dashboard.Decide | public/js/dashboard.js:74-122 | the outcome of `fetchRecovery`; `DashboardView.FetchRecovery` is proved to end in it and `UnauthorizedRedirects` through `ScoredIsRendered` characterise it |
| Dashboard.UnauthorizedRedirects | public/js/dashboard.js:81-84 | a 401 navigates to `/` and renders nothing |
| Dashboard.ServerErrorShowsMessage | public/js/dashboard.js:87-93 | any other non-ok status shows "Something went wrong" with the server's message, or the default text when there is none |
| Dashboard.ConnectionErrorCases | public/js/dashboard.js:115-121 | the connection error shows exactly when the request throws, an error body is JSON `null`, or a success body is unparseable or JSON `null` |
| Dashboard.NoDataOnlyWhenAllNull | public/js/dashboard.js:99-111 | an unscored record shows no data exactly when all three metrics are `null`; a missing metric counts as data |
| Dashboard.ScoredIsRendered | public/js/dashboard.js:99-114 | a scored record is always rendered |
| Dashboard.RoundedText | public/js/dashboard.js:46-50 | a metric shows the dash exactly when it is null or missing, and its rounded value otherwise |
| Dashboard.FixedText | public/js/dashboard.js:55-59 | the HRV card shows the dash exactly when the value is null or missing, and one decimal otherwise |
| Dashboard.CardClass | public/js/dashboard.js:46-52 | the recovery card is `metric-card` without a score and `metric-card ` plus the score's colour with one |
| Dashboard.CardClassColored | public/js/dashboard.js:48-51 | the card carries a colour exactly when there is a score, and then it is the score's colour |
| Dashboard.DashboardView.ShowState | public/js/dashboard.js:23-29 | after `showState(el)` exactly `el` is visible, as a grid for the metrics and flex otherwise |
| Dashboard.DashboardView.RenderMetrics | public/js/dashboard.js:44-69 | the three cards show their texts and the recovery card its class, and only the metrics are visible, as a grid |
| Dashboard.DashboardView.ShowError | public/js/dashboard.js:127-131 | the error title and text are set and only the error state is visible, as flex |
| Dashboard.DashboardView.FetchRecovery | public/js/dashboard.js:74-122 | the visible state (a grid for the metrics, flex otherwise), texts and location are those of `Decide(response)`; what the outcome does not touch keeps its value |
| Dashboard.DashboardView.constructor | public/js/dashboard.js:8-18 | the elements the script looks up become one view object, in the initial state the page is assumed to have: only the loading state visible, no navigation, the dash in every card and the plain recovery card class |

## Left out

- HTTP, JSON parsing and URL encoding: responses are abstract values (`TokenReply`, `Page`, `Single`, `Response`), URLs are lists of query pairs and forms are lists of fields.
- File-system calls, the temporary file and the atomic rename: the file is an `Option<string>`, and one flag says whether it could be read and replaced. Atomicity is a guarantee of the operating system, not provable here.
- The mirror of the triple into `process.env` (server.js:62-64): it only keeps the environment in step with the cache and nothing in the core reads it afterwards.
- The dotenv parser and the startup check (server.js:1, 24-31) are not modelled.
- Server.ReadKey: stands in for dotenv. It takes the last line starting with `KEY=`, without dotenv's quoting, comments or whitespace rules; `Server.PersistThenReload` is proved against this reader, not against dotenv.
- Decimal.ParseInt: `Number()` is modelled only for an optional minus sign followed by digits. Other inputs, such as whitespace, decimals and exponents, give None here, while JavaScript may give a number.
- Server.ExpiryFromEnv: inherits the restriction of `Decimal.ParseInt`, so those other inputs give 0 here.
- Decimal.IntToString: JavaScript's exponent notation for very large numbers is not modelled.
- Concurrency: the promise mutex is a slot (`refreshInFlight`, `waiters`) with begin and complete steps. Real interleavings, and `Promise.all`, are not modelled. `Upstream.WhoopAll` takes the result of the body fetch as an input, without modelling its request, and runs the four sweeps one after another, which gives the same replies because each sweep has its own upstream.
- The clock, `crypto.randomBytes` and `new Date().toISOString()` are parameters (`now`, `nonce`, `isoNow`).
- A granted token reply whose `access_token` or `refresh_token` is missing. JavaScript would store `undefined`; the model always receives strings.
- The bearer token is a parameter of a sweep and stays the same for all its requests. A refresh that completes in the middle of a sweep is not modelled.
- A sweep requires an upstream that eventually stops handing out cursors (`UpstreamTerminates`). The source imposes no page cap, and an endless cursor chain is outside the model.
- A page body whose JSON is `null` (server.js:343) would throw in the source. The model treats every successful page as an object.
- Express routing, redirects, static files, `/`, `/dashboard` and `/api/status` (server.js:191-201, 280-290, 532-544): these are plumbing around the decisions modelled here.
- The unused `firstError` variable (server.js:336, 351) has no observable effect.
- The dashboard reads `scoreState`, `recoveryScore` and the other fields, while `/api/recovery` answers `{records}` (server.js:424). The dashboard is modelled over its own response shape, and the two are not connected.
- DOM access, event wiring and number formatting: `Math.round` and `toFixed(1)` are recorded as `Rounded` and `Fixed1` texts, not computed. A score that is not a number (a string, `NaN`) is not modelled.
- Dashboard.DashboardView.FetchRecovery: the intermediate loading state is shown first but not stated, because only the final state is observable once the call returns.
- Logging: the `console.warn` on a failed persist (server.js:73) and the `console.error` calls on failed refreshes, exchanges and fetches (server.js:145, 154, 257, 272, 408, 524) have no effect on state or replies.
- Dashboard.DashboardView.constructor: the page's initial markup is not part of this model. The initial state (loading visible, a dash in every card, the plain card class) is an assumption, and it is not observable because `fetchRecovery` shows the loading state first (public/js/dashboard.js:75, 137).
