# FlowInsight client core in Dafny

FlowInsight is a browser dashboard for workflow analytics. This project models
the three pieces of it that hold state and make decisions:

- **The request client** (`ApiService` in `FlowInsight/api.js`, module `Api`).
  Every call builds one request: the JSON content type, the session's bearer
  header and the caller's options. It then calls `fetch` up to three times,
  waiting `retryDelay × attempt` between attempts. A 401 logs the session out
  and throws at once; otherwise the last error is rethrown. `fetch` is an
  oracle: the caller supplies the sequence of per-attempt outcomes (network
  failure, or a response with status, status text and a body that parses or
  does not). The waits are returned as a list of delays instead of being
  slept. `RunFrom` is the reference semantics of the loop, and the method
  `ApiService.Request` is proved to follow it. The endpoint wrappers and
  `handleError`'s message mapping are pure functions.
- **The session manager** (`AuthManager` in `FlowInsight/auth.js`, module
  `Auth`). It is a class whose fields are the session (`isAuthenticated`,
  `user`, `sessionToken`), the browser's `localStorage` (a map field) and
  `window.location.href` (a field). `Session` is a snapshot of all of these.
  Its transitions `WithSession` and `LoggedOut` state what `setSession` and
  `logout` leave behind, and every method keeps the persisted copy consistent
  with the session.
- **The dashboard** (`DashboardManager` and `formatTimeAgo` in
  `FlowInsight/script.js`, module `Dashboard`). This covers:
  - the score, impact, category and status classifiers;
  - the "time ago" buckets and the integration status badge, over integer
    milliseconds with "now" passed in;
  - the quick-win removal filter and the metrics card (active-tool count,
    progress width);
  - the class holding the data, the loading flag and the rendered card.

Module `Js` holds the pieces of JavaScript semantics the code relies on:
truthiness, `${n}` printing, `String.prototype.includes`,
`Array.prototype.filter`, and `Math.floor` of a quotient. Module `Fetch`
holds the HTTP vocabulary.

Some behaviours of the session manager and request client are easy to
misread, so the model states them exactly as the code has them:

- **When a retry stops.** The code stops retrying on any error whose message
  contains "Unauthorized" (api.js:45), not only on a 401. A non-401 response
  whose status text mentions "Unauthorized" is therefore thrown at once, and
  without a logout (`Api.HttpErrorRetried`).
- **Being authenticated.** The code does not make "authenticated" equivalent
  to "credential and user present". A successful callback whose body lacks
  `token` or `user` still sets `isAuthenticated`, and stores the text
  "undefined" (`Auth.AuthManager.HandleCallback`).
- **When bearer headers are sent.** The code sends them whenever the token is
  truthy, whatever `isAuthenticated` says (`Auth.AuthManager.AuthHeaders`).
- **A failed callback exchange.** It leaves the session as it was, whatever
  that was; it does not force it to unauthenticated.
- **Restoring a session.** The manager has no "validating" state of its own.
  Restoring re-persists the session through `setSession`
  (`Auth.AuthManager.Init`).

## Model

| member | source | states |
|---|---|---|
| Js.Filter | FlowInsight/script.js:744 | the result is no longer than the input and holds only elements that pass |
| Js.FilterCounts | FlowInsight/script.js:744 | every passing value keeps its multiplicity and every failing value is gone |
| Js.FilterAppend | FlowInsight/script.js:744 | filtering a concatenation is the concatenation of the filtered parts, so survivors keep their relative order |
| Js.FilterCommutes | FlowInsight/script.js:744 | two filters applied in either order give the same list |
| Js.FilterSize | FlowInsight/script.js:363 | the filtered list equals the input iff every element passes, which is also iff it is as long as the input |
| Js.FilterLength | FlowInsight/script.js:363 | the length of the filtered list is the number of positions whose element passes |
| Js.PassingSnoc | FlowInsight/script.js:363 | appending one element adds its position to the passing positions exactly when it passes |
| Js.FilterEmpty | FlowInsight/script.js:363 | the filtered list is empty iff no element passes |
| Js.NatToString | FlowInsight/script.js:364 | `${n}` of a count is a non-empty string of decimal digits with no leading zero, and `${0}` is "0" |
| Js.IntToString | FlowInsight/script.js:854-858 | `${i}` of an integer is the digits of its magnitude, preceded by "-" exactly when it is negative |
| Js.Includes | FlowInsight/api.js:45 | `includes` holds when some window of the string equals the searched text |
| Js.IncludesBeforeSuffix | FlowInsight/api.js:45 | a match stays a match when text is appended after it |
| Js.IncludesAfterPrefix | FlowInsight/api.js:45 | a match stays a match when text is put before it |
| Js.IncludesIffMatch | FlowInsight/api.js:45 | `includes` holds exactly when the searched text occurs at some position, in both directions |
| Js.Truthy | FlowInsight/auth.js:97 | a possibly absent string is truthy exactly when it is present and non-empty, as `if (token)` and `!this.sessionToken` test it |
| Js.FloorDiv | FlowInsight/script.js:849-851 | `Math.floor(a / b)` for a positive divisor is the unique q with q × b ≤ a < (q + 1) × b, negative a included |
| Js.Min | FlowInsight/script.js:356 | `Math.min(a, b)` is one of its arguments and no greater than either |
| Js.NatToStringRoundTrip | FlowInsight/script.js:364 | the decimal text of a count reads back as the count |
| Fetch.Bearer | FlowInsight/auth.js:98 | the Authorization value is the seven characters "Bearer " followed by exactly the credential |
| Auth.StoredToken | FlowInsight/auth.js:79 | `setItem` stores a present credential as it is, and an absent one as the text "undefined" |
| Auth.JsonObject | FlowInsight/auth.js:80 | a JSON object is its members between "{" and "}" |
| Auth.UserJson | FlowInsight/auth.js:80 | without a user the stored text is "undefined"; with one it is "{", the members `"id":…`, `"firstName":…`, `"email":…`, `"profileImageUrl":…` joined by commas in that order, and "}" |
| Auth.UserJsonHoldsFields | FlowInsight/auth.js:80 | the stored profile contains each of the user's four fields under its own key |
| Auth.ValidateRequest | FlowInsight/auth.js:59-61 | validation is a GET to baseUrl + "/api/auth/validate" with no body, carrying only the bearer credential |
| Auth.CallbackRequest | FlowInsight/auth.js:39-43 | the callback is a POST to baseUrl + "/api/auth/callback" with only a JSON content type; its body is `{"code":"`, then exactly the code, then `"}`, so the code reads back from it |
| Auth.ReadOkJson | FlowInsight/auth.js:58-67 | a call succeeds iff the response is 2xx and its body parses, yielding that body; a non-ok status throws the given message and a network failure rethrows its own error |
| Auth.Session.WithSession | FlowInsight/auth.js:75-81 | after setSession the session is authenticated with exactly the given token and user, both storage keys hold their serialised values, every other key is untouched, and the result is consistent |
| Auth.Session.LoggedOut | FlowInsight/auth.js:84-93 | after logout token and user are null, the flag is false, exactly the two keys are removed, location is /login, and the result is consistent |
| Auth.LogoutIdempotent | FlowInsight/auth.js:84-93 | logging out twice leaves the same state as once, from any state |
| Auth.SetSessionOverrides | FlowInsight/auth.js:75-81 | a second setSession erases every trace of the first |
| Auth.AuthManager.constructor | FlowInsight/auth.js:3-8 | a new manager is unauthenticated with no user or token, and it leaves storage and location as they were |
| Auth.AuthManager.SetSession | FlowInsight/auth.js:75-81 | the new state is `WithSession(token, user)` of the old one |
| Auth.AuthManager.Logout | FlowInsight/auth.js:84-93 | the new state is `LoggedOut()` of the old one |
| Auth.AuthManager.AuthHeaders | FlowInsight/auth.js:96-99 | empty when the token is falsy, otherwise exactly one Authorization header carrying the bearer token |
| Auth.AuthManager.CheckAuth | FlowInsight/auth.js:102-104 | true iff the flag is set and the token is truthy, in which case requests carry a bearer header; reads only |
| Auth.AuthManager.Login | FlowInsight/auth.js:25-34 | navigates to baseUrl + "/api/auth/replit" and changes nothing else |
| Auth.AuthManager.ValidateSession | FlowInsight/auth.js:57-72 | sends GET /api/auth/validate with the bearer token; on success adopts that token and the returned user, on failure throws and changes nothing |
| Auth.AuthManager.HandleCallback | FlowInsight/auth.js:37-54 | POSTs the code to /api/auth/callback; on success adopts the returned token and user and returns the user, on failure throws and changes nothing |
| Auth.AuthManager.Init | FlowInsight/auth.js:11-22 | without a truthy stored token nothing is sent or changed; otherwise that token is validated, a success authenticates with that same token, and any failure ends in logout |
| Api.Config | FlowInsight/api.js:14-21 | the request goes to the given URL with the caller's body, by GET unless the caller names a method, and with the caller's headers whenever the caller gives any |
| Api.ConfigWithoutCallerHeaders | FlowInsight/api.js:14-21 | without caller headers the request carries Content-Type plus every auth header, auth headers winning on a clash |
| Api.CallerHeadersReplaceMerged | FlowInsight/api.js:14-21 | caller headers replace the merged object entirely, dropping the bearer header unless the caller repeats it |
| Api.HttpMessage | FlowInsight/api.js:37 | a non-ok status throws "HTTP ", the status in decimal, ": " and the status text |
| Api.HttpMessageReadBack | FlowInsight/api.js:37 | the message starts with "HTTP " and ends with ": " and the status text, and the digits between read back as the status |
| Api.AttemptOf | FlowInsight/api.js:26-40 | an attempt returns iff the response is 2xx with a parsable body; only a 401 logs out; a non-ok non-401 status throws "HTTP <status>: <text>"; a network failure throws its own error |
| Api.IsTerminal | FlowInsight/api.js:44-47 | an error is rethrown at once exactly when its message contains "Unauthorized" |
| Api.RunFrom | FlowInsight/api.js:25-57 | the loop makes between one and maxAttempts fetches, waits once fewer times than it fetches, and logs out only while throwing the Unauthorized error |
| Api.RunFromStep | FlowInsight/api.js:25-57 | a returning attempt ends the loop with its value; a throwing attempt ends it when terminal or last; otherwise the loop waits retryDelay × attempt and goes on |
| Api.RunFromAdvance | FlowInsight/api.js:42-55 | after a retryable attempt that is not the last, the call ends as the run from the next attempt does, after one more wait of retryDelay × attempt |
| Api.RunFromShape | FlowInsight/api.js:25-57 | every attempt before the last was retryable, the last decides the result, only a 401 logs out, and an early stop is a non-retryable attempt |
| Api.RunFromDelays | FlowInsight/api.js:49-53 | the wait after attempt k is retryDelay × k |
| Api.StopsAt | FlowInsight/api.js:25-57 | a call whose first non-retryable attempt is k + 1 makes k + 1 fetches, returns that attempt's outcome and waits retryDelay × 1..k |
| Api.FirstSuccessReturned | FlowInsight/api.js:25-40 | retryable failures followed by a success return the success's body, with no further fetch and no logout |
| Api.UnauthorizedStops | FlowInsight/api.js:30-47 | a 401 on attempt k + 1 logs out, throws "Unauthorized - please login again" and fetches no more |
| Api.LastErrorRethrown | FlowInsight/api.js:42-57 | when every attempt fails retryably, all attempts are made and the final attempt's error is thrown |
| Api.UnauthorizedIsTerminal | FlowInsight/api.js:32-46 | the 401 error's message is one the catch block rethrows at once |
| Api.HttpErrorRetried | FlowInsight/api.js:36-53 | a non-ok non-401 status throws "HTTP <status>: <text>", which is retried iff the status text does not mention "Unauthorized" |
| Api.ParseFailureRetried | FlowInsight/api.js:40-53 | an ok response whose body fails to parse is retried iff the parser's message does not mention "Unauthorized" |
| Api.DefaultSchedule | FlowInsight/api.js:5-53 | with the defaults a call makes one to three fetches, waiting 1000 ms and then 2000 ms, and never after the last attempt |
| Api.Route | FlowInsight/api.js:60-95 | no wrapper passes its own headers or a body |
| Api.UsageAnalyticsDefault | FlowInsight/api.js:88-90 | with no argument the usage request asks for timeframe=last30days |
| Api.QuickWinRouteNamesId | FlowInsight/api.js:76-80 | completing a quick win POSTs to /api/quick-wins/<id>/complete, from which the id reads back |
| Api.EndpointsKeepAuthHeaders | FlowInsight/api.js:60-95 | every wrapper's request carries the JSON content type and the session's auth headers |
| Api.HandleError | FlowInsight/api.js:103-117 | the user message is one of the four fixed texts, tested in order: "Unauthorized" gives the login text; otherwise "Network" gives the network text, even beside "500"; otherwise "500" gives the server text; a message with none of the three gives the unexpected-error text |
| Api.LoginAgainIffTerminal | FlowInsight/api.js:103-117 | "Please login again" is shown exactly for the errors the request loop refuses to retry, among them every 401 |
| Api.ServerErrorFor500 | FlowInsight/api.js:112-113 | an HTTP 500 error is reported as a server error when its status text mentions neither Unauthorized nor Network |
| Api.No500In503 | FlowInsight/api.js:112 | the prefix "HTTP 503: " adds no match for "500" to a status text that has none |
| Api.UnexpectedErrorFor503 | FlowInsight/api.js:106-116 | an HTTP 503 error with a plain status text is reported as unexpected, because only "500" is matched |
| Api.ApiService.Request | FlowInsight/api.js:10-58 | sends the merged config built from the auth headers before the call; result, fetch count and delays are those of `RunFrom`; the session is logged out iff a 401 was met, and is otherwise unchanged |
| Api.ApiService.TryOnce | FlowInsight/api.js:26-40 | one pass of the try block yields `AttemptOf` of the outcome, and leaves the session logged out after a 401 and unchanged otherwise |
| Api.ApiService.Call | FlowInsight/api.js:60-95 | each wrapper is `request` with its own path and options |
| Dashboard.ScoreColorClass | FlowInsight/script.js:632-636 | green from 80, amber from 60 to 79, red below 60 |
| Dashboard.ProgressColorClass | FlowInsight/script.js:638-642 | green from 80, amber from 60 to 79, red below 60 |
| Dashboard.ScoreClassesAgree | FlowInsight/script.js:632-642 | two scores share a text colour iff they share a bar colour, and each text colour goes with the bar of the same colour |
| Dashboard.ScoreColorMonotone | FlowInsight/script.js:632-636 | a higher score never shows a worse colour |
| Dashboard.ImpactClass | FlowInsight/script.js:644-651 | high and medium get their own classes; every other impact gets low-impact |
| Dashboard.IconColorClass | FlowInsight/script.js:662-669 | high is red, medium amber, low blue, and anything else grey |
| Dashboard.UnknownImpactDefaults | FlowInsight/script.js:644-669 | an unknown impact is styled like a low one but gets a different button colour |
| Dashboard.QuickWinIcon | FlowInsight/script.js:653-660 | each known category has its icon; any other gets the bell |
| Dashboard.ActionText | FlowInsight/script.js:671-678 | each known category has its verb; any other says "Act" |
| Dashboard.CategoryDefaultsAgree | FlowInsight/script.js:653-678 | a quick win gets the bell iff its button says "Act", iff its category is unknown |
| Dashboard.AnalyticsStatusBadge | FlowInsight/script.js:712-725 | known statuses get their fixed badges; an unknown status is shown verbatim in a plain badge |
| Dashboard.AnalyticsProgressColor | FlowInsight/script.js:727-735 | each known status has its bar colour; any other is grey |
| Dashboard.UnknownStatusShown | FlowInsight/script.js:712-735 | an unknown status's badge contains the status text and its bar is grey |
| Dashboard.TimeAgo | FlowInsight/script.js:846-860 | exactly one bucket: minutes below one hour, hours (1 to 23) below one day, days from one day on; the count is the floor of the elapsed time in that unit |
| Dashboard.FormatTimeAgo | FlowInsight/script.js:846-860 | the text is the floored count of minutes, hours or days elapsed, followed by that bucket's unit |
| Dashboard.CountWithUnitReadBack | FlowInsight/script.js:854-858 | a count printed before a unit reads back as the count |
| Dashboard.FormatTimeAgoReadBack | FlowInsight/script.js:849-859 | for a past time, the text ends in the bucket's unit, and the digits before it read back as the whole units elapsed |
| Dashboard.HoursOfMinutes | FlowInsight/script.js:701-706 | whole hours counted from whole minutes equal whole hours counted from milliseconds |
| Dashboard.LastSyncText | FlowInsight/script.js:696-710 | "Never synced" without a sync time; below one day, the same text as formatTimeAgo; from one day on, the sync date and never a count of days |
| Dashboard.IntegrationStatusBadge | FlowInsight/script.js:680-694 | Inactive whenever inactive; Syncing when active with no sync time or more than 24 h since sync; Active when 24 h or less |
| Dashboard.SyncBadgeAndText | FlowInsight/script.js:680-710 | a relative sync text comes with Active, Syncing comes with a date, and at exactly 24 h a date appears beside Active |
| Dashboard.WithoutQuickWin | FlowInsight/script.js:744 | no quick win with the id remains, every other keeps its multiplicity, and the list is unchanged iff none had the id |
| Dashboard.WithoutQuickWinKeepsOrder | FlowInsight/script.js:744 | removal keeps survivors in their original order |
| Dashboard.WithoutQuickWinIdempotent | FlowInsight/script.js:744 | completing the same quick win again removes nothing |
| Dashboard.WithoutQuickWinCommutes | FlowInsight/script.js:744 | completing two quick wins gives the same list in either order |
| Dashboard.ActiveCount | FlowInsight/script.js:363 | the number of active integrations; hence at most the total, equal to it iff all are active, zero iff none is |
| Dashboard.CountsText | FlowInsight/script.js:364 | the active-tools text is the two counts in decimal joined by "/" |
| Dashboard.RenderMetrics | FlowInsight/script.js:343-378 | the progress width is min(score, 100); the quick-wins count is all digits and reads back as the list length |
| Dashboard.SlashJoinedReadBack | FlowInsight/script.js:364 | two digit strings joined by a slash read back as their two values |
| Dashboard.CountsTextReadBack | FlowInsight/script.js:364 | "<active>/<total>" splits at the slash into two numbers that read back as the two counts |
| Dashboard.ActiveToolsReadBack | FlowInsight/script.js:363-364 | the active-tools text is "<active>/<total>", split at its first non-digit, each part reads back as its count, and active never exceeds total |
| Dashboard.Refresh | FlowInsight/script.js:257-258 | a refresh puts the score in 80..99 and the time saved in 8..17, and changes nothing else in the data |
| Dashboard.RefreshShowsGreen | FlowInsight/script.js:257-260 | after a refresh the score is green and its bar is exactly as wide as the score |
| Dashboard.DashboardManager.constructor | FlowInsight/script.js:216-219 | no data and not loading |
| Dashboard.DashboardManager.SetLoading | FlowInsight/script.js:321-330 | sets the flag, records it, and changes nothing else |
| Dashboard.DashboardManager.LoadDashboardData | FlowInsight/script.js:221-247 | adopts the data, renders the card and shows the success toast; the flag goes up and then down |
| Dashboard.DashboardManager.RefreshData | FlowInsight/script.js:249-277 | with data, applies `Refresh` and re-renders; without data, fails with the error toast; either way the flag goes up and then down, and the card keeps matching the data |
| Dashboard.DashboardManager.CompleteQuickWin | FlowInsight/script.js:738-768 | with data, removes the quick win, sets the displayed count to the new length and shows the success toast; without data, shows the error toast and changes nothing; the card keeps matching the data |

## Left out

- The network: `fetch` is replaced by a given outcome per call. Request bodies are JSON text built without JSON string escaping (`Auth.UserJson`, `Auth.CallbackRequest`).
- Timers: `ApiService.delay` and the simulated waits in `DashboardManager` are not executed. `Request` returns the backoff delays it would wait.
- Asynchrony: each `async` method runs to completion as one step. Interleaving of concurrent calls, for example two clicks on Refresh, is not modelled.
- `throw lastError` with `lastError` undefined only happens when `retryAttempts` is 0. Here the constant is 3, so that case does not arise.
- null and undefined are both `None`, and a missing credential or user is stored as the text "undefined". When the backend sends JSON `null` instead, `localStorage.setItem` and `JSON.stringify` store "null"; that text is not modelled.
- `String.prototype.includes` is modelled over Dafny characters, not UTF-16 code units.
- Rendering: every HTML-building `render*` method except `renderMetrics`, plus `ToastManager`, `lucide.createIcons`, the event listeners and `console`, are out of scope. A toast is modelled as its title, description and variant. The DOM elements `renderMetrics` writes to, and the `#loadingOverlay` element `setLoading` styles (script.js:323-329), are assumed present. Without the overlay, `setLoading` would throw after setting the flag and outside the `try` of its callers, leaving the flag raised; that path is not modelled.
- Dashboard.RenderMetrics: the progress width is kept as the number, without the "%" suffix.
- `exportReport` in script.js: the Blob download is not modelled. The API wrapper `exportReport` is modelled as a route.
- `Math.random`: `refreshData`'s two draws are parameters already floored to 0..19 and 0..9.
- Dates: times are integer milliseconds with "now" passed in. `toLocaleDateString` is an uninterpreted `LocaleDate` result, and invalid dates (NaN) are not modelled.
- Floating point: `Math.floor(ms / unit)` is exact integer floor division. `hoursSinceSync` is an exact real quotient. Rounding of IEEE doubles is ignored.
- Aliasing: `loadDashboardData` stores the shared mock object, so `refreshData` changes the mock itself. The model keeps the data as a value.
- Dashboard.DashboardManager.LoadDashboardData: the catch branch, reachable only if rendering throws, is not modelled.
- The mock data and `PLATFORM_CONFIG` tables are not modelled. Render methods skip platforms without a configuration, and that skipping is not modelled either.
- The `Error` objects the code throws are reduced to their messages. The code only ever inspects the message.
