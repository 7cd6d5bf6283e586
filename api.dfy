/** The request client of FlowInsight/api.js: every call merges the JSON
    content type with the session's bearer header, tries `fetch` up to
    `retryAttempts` times with a linear backoff, logs out and gives up at once
    on a 401, and otherwise rethrows the last error. `fetch` is an oracle:
    a call is answered by the given sequence of per-attempt outcomes, and
    the delays are recorded instead of waited for. */
module Api {
  import opened Js
  import opened Fetch
  import Auth

  const ContentTypeJson: Headers := map["Content-Type" := "application/json"]

  /** The message thrown on a 401 (api.js:32). */
  const UnauthorizedMessage := "Unauthorized - please login again"

  /** The options a caller may pass to `request`; an absent field is a key the
      caller's object does not have. */
  datatype Options = Options(httpMethod: Option<string>, headers: Option<Headers>, body: Option<string>)

  /** `options = {}` */
  const NoOptions := Options(None, None, None)

  /** The inner object literal of api.js:15-19: the JSON content type, then the
      auth headers, then the caller's headers, later keys winning. */
  function MergedHeaders(authHeaders: Headers, options: Options): Headers {
    ContentTypeJson + authHeaders + options.headers.GetOr(map[])
  }

  /** The `config` of api.js:14-21 together with the URL. Because `...options`
      is spread after the merged `headers`, a caller's own `headers` key
      replaces the merged object. */
  function Config(url: string, authHeaders: Headers, options: Options): (config: HttpRequest)
    ensures config.url == url && config.body == options.body
    ensures options.httpMethod.None? ==> config.httpMethod == "GET"
    ensures options.httpMethod.Some? ==> config.httpMethod == options.httpMethod.value
    ensures options.headers.Some? ==> config.headers == options.headers.value
  {
    HttpRequest(
      url,
      options.httpMethod.GetOr("GET"),
      if options.headers.Some? then options.headers.value else MergedHeaders(authHeaders, options),
      options.body)
  }

  /** Without caller headers the request carries the JSON content type and every
      auth header, an auth header winning over the content type on a clash. */
  lemma ConfigWithoutCallerHeaders(url: string, authHeaders: Headers, options: Options)
    requires options.headers.None?
    ensures var h := Config(url, authHeaders, options).headers;
            && h.Keys == {"Content-Type"} + authHeaders.Keys
            && (forall k :: k in authHeaders ==> h[k] == authHeaders[k])
            && ("Content-Type" !in authHeaders ==> h["Content-Type"] == "application/json")
  {
  }

  /** With caller headers the merged object is discarded: the request carries
      exactly the caller's headers, so a signed-in session's bearer header is
      dropped unless the caller repeats it. */
  lemma CallerHeadersReplaceMerged(url: string, authHeaders: Headers, options: Options)
    requires options.headers.Some?
    ensures Config(url, authHeaders, options).headers == options.headers.value
    ensures "Authorization" !in options.headers.value ==> "Authorization" !in Config(url, authHeaders, options).headers
  {
  }

  /** What one pass of the `try` block (api.js:26-40) ends in: the parsed body,
      or an error, the 401 case having called `logout` first. */
  datatype Attempt<+T> = Returned(value: T) | Threw(error: Error, loggedOut: bool)

  /** "HTTP <status>: <statusText>" (api.js:37) */
  function HttpMessage(status: nat, statusText: string): string {
    "HTTP " + NatToString(status) + ": " + statusText
  }

  /** The message starts with "HTTP ", ends with the status text, and the
      digits between them (before ": ") read back as the status. */
  lemma HttpMessageReadBack(status: nat, statusText: string)
    ensures var message := HttpMessage(status, statusText);
            && |message| == 5 + |NatToString(status)| + 2 + |statusText|
            && message[..5] == "HTTP " && message[|message| - |statusText|..] == statusText
            && message[|message| - |statusText| - 2..|message| - |statusText|] == ": "
            && var digits := message[5..|message| - |statusText| - 2];
               && (forall k :: 0 <= k < |digits| ==> IsDigit(digits[k])) && DigitsValue(digits) == status
  {
    NatToStringRoundTrip(status);
    var m := HttpMessage(status, statusText);
    assert m[5..|m| - |statusText| - 2] == NatToString(status);
  }

  function AttemptOf<T>(outcome: FetchOutcome<T>): (a: Attempt<T>)
    ensures a.Returned? <==> outcome.Response? && IsOk(outcome.status) && outcome.body.Parsed?
    ensures a.Returned? ==> a.value == outcome.body.value
    ensures a.Threw? && a.loggedOut <==> outcome.Response? && outcome.status == 401
    ensures outcome.NetworkFailure? ==> a == Threw(Error(outcome.message), false)
    ensures outcome.Response? && outcome.status != 401 && !IsOk(outcome.status)
            ==> a == Threw(Error(HttpMessage(outcome.status, outcome.statusText)), false)
  {
    match outcome
    case NetworkFailure(m) => Threw(Error(m), false)
    case Response(status, statusText, body) =>
      if status == 401 then Threw(Error(UnauthorizedMessage), true)
      else if !IsOk(status) then Threw(Error(HttpMessage(status, statusText)), false)
      else match body
        case Parsed(v) => Returned(v)
        case Unparsable(m) => Threw(Error(m), false)
  }

  /** The `catch` block's test (api.js:45): an error whose message mentions
      "Unauthorized" is rethrown at once instead of retried. */
  predicate IsTerminal(e: Error) {
    Includes(e.message, "Unauthorized")
  }

  /** An attempt after which the loop goes on (if attempts remain). */
  predicate Retryable<T>(outcome: FetchOutcome<T>) {
    AttemptOf(outcome).Threw? && !IsTerminal(AttemptOf(outcome).error)
  }

  function ResultOf<T>(a: Attempt<T>): Result<T> {
    match a
    case Returned(v) => Ok(v)
    case Threw(e, _) => Err(e)
  }

  /** What a whole `request` call does: its result, how many `fetch` calls it
      made, the delays it waited between them, and whether it logged out. */
  datatype Run<+T> = Run(result: Result<T>, attempts: nat, delays: seq<nat>, loggedOut: bool)

  /** The reference semantics of the loop of api.js:25-57, from attempt
      number `attempt` (counting from 1) on. */
  function RunFrom<T>(outcomes: seq<FetchOutcome<T>>, attempt: nat, maxAttempts: nat, retryDelay: nat): (run: Run<T>)
    requires 1 <= attempt <= maxAttempts <= |outcomes|
    ensures attempt <= run.attempts <= maxAttempts
    ensures |run.delays| == run.attempts - attempt
    ensures run.loggedOut ==> run.result == Err(Error(UnauthorizedMessage))
    decreases maxAttempts - attempt
  {
    match AttemptOf(outcomes[attempt - 1])
    case Returned(v) => Run(Ok(v), attempt, [], false)
    case Threw(e, loggedOut) =>
      if IsTerminal(e) || attempt == maxAttempts then Run(Err(e), attempt, [], loggedOut)
      else
        var rest := RunFrom(outcomes, attempt + 1, maxAttempts, retryDelay);
        rest.(delays := [retryDelay * attempt] + rest.delays)
  }

  /** One step of `RunFrom`: what the current attempt decides. */
  lemma RunFromStep<T>(outcomes: seq<FetchOutcome<T>>, attempt: nat, maxAttempts: nat, retryDelay: nat)
    requires 1 <= attempt <= maxAttempts <= |outcomes|
    ensures var a := AttemptOf(outcomes[attempt - 1]);
            var run := RunFrom(outcomes, attempt, maxAttempts, retryDelay);
            && (a.Returned? ==> run == Run(Ok(a.value), attempt, [], false))
            && (a.Threw? && (IsTerminal(a.error) || attempt == maxAttempts) ==> run == Run(Err(a.error), attempt, [], a.loggedOut))
            && (a.Threw? && !IsTerminal(a.error) && attempt < maxAttempts ==>
                  var next := RunFrom(outcomes, attempt + 1, maxAttempts, retryDelay);
                  run == next.(delays := [retryDelay * attempt] + next.delays))
  {
  }

  /** After a retryable attempt that is not the last, the delays waited so
      far followed by the rest of the run are the delays so far, this
      attempt's wait, and the run from the next attempt. */
  lemma RunFromAdvance<T>(outcomes: seq<FetchOutcome<T>>, attempt: nat, maxAttempts: nat, retryDelay: nat, waited: seq<nat>)
    requires 1 <= attempt < maxAttempts <= |outcomes|
    requires Retryable(outcomes[attempt - 1])
    ensures var run, next := RunFrom(outcomes, attempt, maxAttempts, retryDelay), RunFrom(outcomes, attempt + 1, maxAttempts, retryDelay);
            && run.result == next.result && run.attempts == next.attempts && run.loggedOut == next.loggedOut
            && waited + run.delays == (waited + [retryDelay * attempt]) + next.delays
  {
    RunFromStep(outcomes, attempt, maxAttempts, retryDelay);
  }

  /** The linear backoff: the delays before attempts 2, 3, ..., n + 1. */
  function Backoff(n: nat, retryDelay: nat): (delays: seq<nat>)
    ensures |delays| == n
    ensures forall j :: 0 <= j < n ==> delays[j] == retryDelay * (j + 1)
  {
    seq(n, j => retryDelay * (j + 1))
  }

  /** The shape of every run: each attempt before the last was retryable, the
      last one decides the result, the delays grow linearly, only a 401 logs
      out, and the loop stops early only on a non-retryable attempt. */
  lemma {:induction false} RunFromShape<T>(outcomes: seq<FetchOutcome<T>>, attempt: nat, maxAttempts: nat, retryDelay: nat)
    requires 1 <= attempt <= maxAttempts <= |outcomes|
    ensures var run := RunFrom(outcomes, attempt, maxAttempts, retryDelay);
            && (forall i :: attempt - 1 <= i < run.attempts - 1 ==> Retryable(outcomes[i]))
            && (run.attempts < maxAttempts ==> !Retryable(outcomes[run.attempts - 1]))
            && run.result == ResultOf(AttemptOf(outcomes[run.attempts - 1]))
            && (run.loggedOut <==> outcomes[run.attempts - 1].Response? && outcomes[run.attempts - 1].status == 401)
    decreases maxAttempts - attempt
  {
    var run := RunFrom(outcomes, attempt, maxAttempts, retryDelay);
    if Retryable(outcomes[attempt - 1]) && attempt < maxAttempts {
      var next := RunFrom(outcomes, attempt + 1, maxAttempts, retryDelay);
      RunFromAdvance(outcomes, attempt, maxAttempts, retryDelay, []);
      RunFromShape(outcomes, attempt + 1, maxAttempts, retryDelay);
      assert forall i :: attempt <= i < next.attempts - 1 ==> Retryable(outcomes[i]);
    } else {
      RunFromStep(outcomes, attempt, maxAttempts, retryDelay);
      var a := AttemptOf(outcomes[attempt - 1]);
      assert run.attempts == attempt;
      assert run.result == ResultOf(a) && run.loggedOut == (a.Threw? && a.loggedOut);
    }
  }

  /** The delays of a run grow linearly: the wait after attempt `k` is
      `retryDelay * k`. */
  lemma {:induction false} RunFromDelays<T>(outcomes: seq<FetchOutcome<T>>, attempt: nat, maxAttempts: nat, retryDelay: nat)
    requires 1 <= attempt <= maxAttempts <= |outcomes|
    ensures var run := RunFrom(outcomes, attempt, maxAttempts, retryDelay);
            forall j :: 0 <= j < |run.delays| ==> run.delays[j] == retryDelay * (attempt + j)
    decreases maxAttempts - attempt
  {
    RunFromStep(outcomes, attempt, maxAttempts, retryDelay);
    if Retryable(outcomes[attempt - 1]) && attempt < maxAttempts {
      RunFromDelays(outcomes, attempt + 1, maxAttempts, retryDelay);
    }
  }

  /** A run from the first attempt that stops at attempt `k + 1`. */
  lemma StopsAt<T>(outcomes: seq<FetchOutcome<T>>, maxAttempts: nat, retryDelay: nat, k: nat)
    requires 1 <= maxAttempts <= |outcomes| && k < maxAttempts
    requires forall i :: 0 <= i < k ==> Retryable(outcomes[i])
    requires !Retryable(outcomes[k]) || k == maxAttempts - 1
    ensures var run := RunFrom(outcomes, 1, maxAttempts, retryDelay);
            && run.attempts == k + 1
            && run.result == ResultOf(AttemptOf(outcomes[k]))
            && run.delays == Backoff(k, retryDelay)
            && (run.loggedOut <==> outcomes[k].Response? && outcomes[k].status == 401)
  {
    var run := RunFrom(outcomes, 1, maxAttempts, retryDelay);
    RunFromShape(outcomes, 1, maxAttempts, retryDelay);
    RunFromDelays(outcomes, 1, maxAttempts, retryDelay);
  }

  /** Failures that are retried, followed by a success within the attempt
      budget: the success's body is returned and nothing more is fetched. */
  lemma {:induction false} FirstSuccessReturned<T>(outcomes: seq<FetchOutcome<T>>, maxAttempts: nat, retryDelay: nat, k: nat)
    requires 1 <= maxAttempts <= |outcomes| && k < maxAttempts
    requires forall i :: 0 <= i < k ==> Retryable(outcomes[i])
    requires AttemptOf(outcomes[k]).Returned?
    ensures RunFrom(outcomes, 1, maxAttempts, retryDelay)
            == Run(Ok(AttemptOf(outcomes[k]).value), k + 1, Backoff(k, retryDelay), false)
  {
    StopsAt(outcomes, maxAttempts, retryDelay, k);
  }

  /** A 401 ends the call on that attempt: it has logged out, throws the
      Unauthorized error, and neither waits nor fetches again. */
  lemma {:induction false} UnauthorizedStops<T>(outcomes: seq<FetchOutcome<T>>, maxAttempts: nat, retryDelay: nat, k: nat)
    requires 1 <= maxAttempts <= |outcomes| && k < maxAttempts
    requires forall i :: 0 <= i < k ==> Retryable(outcomes[i])
    requires outcomes[k].Response? && outcomes[k].status == 401
    ensures RunFrom(outcomes, 1, maxAttempts, retryDelay)
            == Run(Err(Error(UnauthorizedMessage)), k + 1, Backoff(k, retryDelay), true)
  {
    UnauthorizedIsTerminal();
    StopsAt(outcomes, maxAttempts, retryDelay, k);
  }

  /** When every attempt fails with a retryable error, all `maxAttempts`
      fetches are made and the last one's error is the one thrown. */
  lemma {:induction false} LastErrorRethrown<T>(outcomes: seq<FetchOutcome<T>>, maxAttempts: nat, retryDelay: nat)
    requires 1 <= maxAttempts <= |outcomes|
    requires forall i :: 0 <= i < maxAttempts ==> Retryable(outcomes[i])
    ensures var last := AttemptOf(outcomes[maxAttempts - 1]);
            && last.Threw?
            && RunFrom(outcomes, 1, maxAttempts, retryDelay)
               == Run(Err(last.error), maxAttempts, Backoff(maxAttempts - 1, retryDelay), false)
  {
    assert Retryable(outcomes[maxAttempts - 1]);
    StopsAt(outcomes, maxAttempts, retryDelay, maxAttempts - 1);
  }

  lemma UnauthorizedIsTerminal()
    ensures IsTerminal(Error(UnauthorizedMessage))
  {
    IncludesAt(UnauthorizedMessage, 0, "Unauthorized");
  }

  /** A non-401 error status is turned into "HTTP <status>: <statusText>" and
      retried, unless the status text itself mentions "Unauthorized". */
  lemma {:induction false} HttpErrorRetried<T>(status: nat, statusText: string, body: Body<T>)
    requires status != 401 && !IsOk(status)
    ensures AttemptOf(Response(status, statusText, body)) == Threw(Error(HttpMessage(status, statusText)), false)
    ensures Retryable(Response(status, statusText, body)) <==> !Includes(statusText, "Unauthorized")
  {
    var prefix := "HTTP " + NatToString(status) + ": ";
    assert HttpMessage(status, statusText) == prefix + statusText;
    assert 'U' !in prefix by {
      var digits := NatToString(status);
      assert forall i :: 0 <= i < |digits| ==> IsDigit(digits[i]);
      assert prefix == "HTTP " + digits + ": ";
      assert forall i :: 0 <= i < |prefix| ==> prefix[i] != 'U' by {
        forall i | 0 <= i < |prefix| ensures prefix[i] != 'U' {
          if 5 <= i < 5 + |digits| {
            assert prefix[i] == digits[i - 5];
          }
        }
      }
    }
    IncludesSkipsPrefix(prefix, statusText, "Unauthorized");
  }

  /** An ok response whose body does not parse is retried, unless the parser's
      message mentions "Unauthorized". */
  lemma ParseFailureRetried<T>(status: nat, statusText: string, message: string)
    requires IsOk(status)
    ensures AttemptOf(Response(status, statusText, Body<T>.Unparsable(message))) == Threw(Error(message), false)
    ensures Retryable(Response(status, statusText, Body<T>.Unparsable(message))) <==> !Includes(message, "Unauthorized")
  {
  }

  /** The seven endpoint wrappers of api.js:60-95. */
  datatype Endpoint =
    | Dashboard
    | RefreshAnalytics
    | ExportReport
    | CompleteQuickWin(quickWinId: string)
    | Integrations
    | UsageAnalytics(timeframe: Option<string>)
    | RecentActivity

  /** The endpoint path and options each wrapper passes to `request`. */
  function Route(e: Endpoint): (route: (string, Options))
    ensures route.1.headers.None? && route.1.body.None?
  {
    match e
    case Dashboard => ("/api/dashboard", NoOptions)
    case RefreshAnalytics => ("/api/analytics/refresh", NoOptions.(httpMethod := Some("POST")))
    case ExportReport => ("/api/export/report", NoOptions)
    case CompleteQuickWin(id) => ("/api/quick-wins/" + id + "/complete", NoOptions.(httpMethod := Some("POST")))
    case Integrations => ("/api/integrations", NoOptions)
    case UsageAnalytics(timeframe) => ("/api/analytics/usage?timeframe=" + timeframe.GetOr("last30days"), NoOptions)
    case RecentActivity => ("/api/activity/recent", NoOptions)
  }

  /** Without an argument the usage query asks for the last 30 days. */
  lemma UsageAnalyticsDefault()
    ensures Route(UsageAnalytics(None)) == ("/api/analytics/usage?timeframe=last30days", NoOptions)
    ensures Route(UsageAnalytics(None)) == Route(UsageAnalytics(Some("last30days")))
  {
    assert "/api/analytics/usage?timeframe=" + "last30days" == "/api/analytics/usage?timeframe=last30days";
  }

  /** The id a quick-win completion path names, if it is one. */
  function QuickWinIdOf(path: string): Option<string> {
    var prefix, suffix := "/api/quick-wins/", "/complete";
    if |prefix| + |suffix| <= |path| && path[..|prefix|] == prefix && path[|path| - |suffix|..] == suffix
    then Some(path[|prefix|..|path| - |suffix|])
    else None
  }

  /** Completing a quick win POSTs to a path from which its id is read back,
      so different quick wins are completed at different paths. */
  lemma {:induction false} QuickWinRouteNamesId(id: string)
    ensures Route(CompleteQuickWin(id)).1.httpMethod == Some("POST")
    ensures QuickWinIdOf(Route(CompleteQuickWin(id)).0) == Some(id)
  {
    var path := Route(CompleteQuickWin(id)).0;
    assert path == "/api/quick-wins/" + id + "/complete";
    assert path[..16] == "/api/quick-wins/";
    assert path[|path| - 9..] == "/complete";
    assert path[16..|path| - 9] == id;
  }

  /** No wrapper passes its own headers, so every wrapper's request carries
      the merged headers, bearer included when the session has a credential. */
  lemma EndpointsKeepAuthHeaders(url: string, authHeaders: Headers, e: Endpoint)
    ensures Config(url, authHeaders, Route(e).1).headers == ContentTypeJson + authHeaders
  {
  }

  const LoginAgainText := "Please login again to continue"
  const NetworkErrorText := "Network error - please check your connection"
  const ServerErrorText := "Server error - please try again later"
  const UnexpectedErrorText := "An unexpected error occurred"

  /** api.js:103-117: the first of "Unauthorized", "Network" and "500" that
      the message mentions picks the user-facing text. */
  function HandleError(e: Error): (userMessage: string)
    ensures userMessage in {LoginAgainText, NetworkErrorText, ServerErrorText, UnexpectedErrorText}
    ensures Includes(e.message, "Unauthorized") ==> userMessage == LoginAgainText
    ensures !Includes(e.message, "Unauthorized") && Includes(e.message, "Network") ==> userMessage == NetworkErrorText
    ensures !Includes(e.message, "Unauthorized") && !Includes(e.message, "Network") && Includes(e.message, "500")
            ==> userMessage == ServerErrorText
    ensures !Includes(e.message, "Unauthorized") && !Includes(e.message, "Network") && !Includes(e.message, "500")
            ==> userMessage == UnexpectedErrorText
  {
    if Includes(e.message, "Unauthorized") then LoginAgainText
    else if Includes(e.message, "Network") then NetworkErrorText
    else if Includes(e.message, "500") then ServerErrorText
    else UnexpectedErrorText
  }

  /** The errors shown as "please login again" are exactly those the request
      loop refuses to retry; in particular every 401. */
  lemma LoginAgainIffTerminal(e: Error)
    ensures HandleError(e) == LoginAgainText <==> IsTerminal(e)
    ensures HandleError(Error(UnauthorizedMessage)) == LoginAgainText
  {
    UnauthorizedIsTerminal();
  }

  /** The messages of the two 5xx statuses `handleError` is shown with. */
  lemma HttpMessageOf5xx(statusText: string)
    ensures HttpMessage(500, statusText) == "HTTP 500: " + statusText
    ensures HttpMessage(503, statusText) == "HTTP 503: " + statusText
  {
    assert NatToString(5) == "5";
    assert NatToString(50) == "50";
  }

  /** A 500 status becomes the server-error text, provided its status text
      mentions neither "Unauthorized" nor "Network". */
  lemma ServerErrorFor500(statusText: string)
    requires !Includes(statusText, "Unauthorized") && !Includes(statusText, "Network")
    ensures HandleError(Error(HttpMessage(500, statusText))) == ServerErrorText
  {
    var message := "HTTP 500: " + statusText;
    HttpMessageOf5xx(statusText);
    IncludesSkipsPrefix("HTTP 500: ", statusText, "Unauthorized");
    IncludesSkipsPrefix("HTTP 500: ", statusText, "Network");
    assert message[5..8] == "500";
    IncludesAt(message, 5, "500");
  }

  /** "HTTP 503: " adds no "500" to a status text that has none. */
  lemma No500In503(statusText: string)
    requires !Includes(statusText, "500")
    ensures !Includes("HTTP 503: " + statusText, "500")
  {
    var rest := "503: " + statusText;
    assert "HTTP 503: " + statusText == "HTTP " + rest;
    IncludesSkipsPrefix("HTTP ", rest, "500");
    assert rest[2] == '3';
    assert rest[1..] == "03: " + statusText;
    IncludesSkipsPrefix("03: ", statusText, "500");
  }

  /** Only the literal 500 counts as a server error: a 503 with a plain status
      text is reported as unexpected. */
  lemma UnexpectedErrorFor503(statusText: string)
    requires !Includes(statusText, "Unauthorized") && !Includes(statusText, "Network") && !Includes(statusText, "500")
    ensures HandleError(Error(HttpMessage(503, statusText))) == UnexpectedErrorText
  {
    HttpMessageOf5xx(statusText);
    IncludesSkipsPrefix("HTTP 503: ", statusText, "Unauthorized");
    IncludesSkipsPrefix("HTTP 503: ", statusText, "Network");
    No500In503(statusText);
  }

  class ApiService {
    const baseUrl: string := "https://your-api-domain.vercel.app"
    const retryAttempts: nat := 3
    const retryDelay: nat := 1000

    /** api.js:10-58. `auth` is the optional `window.authManager`; the
        outcomes answer the successive `fetch` calls. Returns the request
        sent, the result, the number of `fetch` calls made and the delays
        waited. */
    method Request<T>(endpoint: string, options: Options, auth: Auth.AuthManager?, outcomes: seq<FetchOutcome<T>>)
      returns (config: HttpRequest, result: Result<T>, attempts: nat, delays: seq<nat>)
      requires retryAttempts <= |outcomes|
      requires auth != null ==> auth.Valid()
      modifies auth
      ensures config == Config(baseUrl + endpoint, if auth == null then map[] else old(auth.AuthHeaders()), options)
      ensures var run := RunFrom(outcomes, 1, retryAttempts, retryDelay);
              && result == run.result && attempts == run.attempts && delays == run.delays
              && (auth != null ==>
                    && auth.Valid()
                    && auth.State() == if run.loggedOut then old(auth.State()).LoggedOut() else old(auth.State()))
    {
      var authHeaders := if auth == null then map[] else auth.AuthHeaders();
      config := Config(baseUrl + endpoint, authHeaders, options);
      ghost var run := RunFrom(outcomes, 1, retryAttempts, retryDelay);
      UnauthorizedIsTerminal();
      var lastError: Option<Error> := None;
      delays := [];
      var attempt := 1;
      while attempt <= retryAttempts
        invariant 1 <= attempt <= retryAttempts + 1
        invariant attempt <= retryAttempts ==>
                    var rest := RunFrom(outcomes, attempt, retryAttempts, retryDelay);
                    && run.result == rest.result && run.attempts == rest.attempts
                    && run.loggedOut == rest.loggedOut && run.delays == delays + rest.delays
        invariant attempt > retryAttempts ==>
                    && lastError.Some? && run.result == Err(lastError.value)
                    && run.attempts == retryAttempts && !run.loggedOut && run.delays == delays
        invariant auth != null ==> auth.Valid() && auth.State() == old(auth.State())
      {
        RunFromStep(outcomes, attempt, retryAttempts, retryDelay);
        var outcome := TryOnce(outcomes[attempt - 1], auth);
        if outcome.Returned? {
          result, attempts := Ok(outcome.value), attempt;
          return;
        }
        // catch (error) { ... }
        lastError := Some(outcome.error);
        if IsTerminal(outcome.error) {
          result, attempts := Err(outcome.error), attempt;
          return;
        }
        if attempt < retryAttempts {
          RunFromAdvance(outcomes, attempt, retryAttempts, retryDelay, delays);
          delays := delays + [retryDelay * attempt];
        }
        attempt := attempt + 1;
      }
      result, attempts := Err(lastError.value), retryAttempts;
    }

    /** The `try` block of api.js:26-40 for one `fetch` outcome: the parsed
        body, or the error thrown, after logging out on a 401. */
    method TryOnce<T>(outcome: FetchOutcome<T>, auth: Auth.AuthManager?) returns (a: Attempt<T>)
      requires auth != null ==> auth.Valid()
      modifies auth
      ensures a == AttemptOf(outcome)
      ensures auth != null ==>
                && auth.Valid()
                && auth.State() == if a.Threw? && a.loggedOut then old(auth.State()).LoggedOut() else old(auth.State())
    {
      match outcome {
        case NetworkFailure(m) =>
          a := Threw(Error(m), false);
        case Response(status, statusText, body) =>
          if status == 401 {
            if auth != null {
              auth.Logout();
            }
            a := Threw(Error(UnauthorizedMessage), true);
          } else if !IsOk(status) {
            a := Threw(Error(HttpMessage(status, statusText)), false);
          } else {
            match body {
              case Parsed(v) => a := Returned(v);
              case Unparsable(m) => a := Threw(Error(m), false);
            }
          }
      }
    }

    /** The wrappers of api.js:60-95: `request` with the wrapper's path and options. */
    method Call<T>(e: Endpoint, auth: Auth.AuthManager?, outcomes: seq<FetchOutcome<T>>)
      returns (config: HttpRequest, result: Result<T>, attempts: nat, delays: seq<nat>)
      requires retryAttempts <= |outcomes|
      requires auth != null ==> auth.Valid()
      modifies auth
      ensures config == Config(baseUrl + Route(e).0, if auth == null then map[] else old(auth.AuthHeaders()), Route(e).1)
      ensures var run := RunFrom(outcomes, 1, retryAttempts, retryDelay);
              && result == run.result && attempts == run.attempts && delays == run.delays
              && (auth != null ==>
                    && auth.Valid()
                    && auth.State() == if run.loggedOut then old(auth.State()).LoggedOut() else old(auth.State()))
    {
      config, result, attempts, delays := Request(Route(e).0, Route(e).1, auth, outcomes);
    }
  }

  /** With the defaults (3 attempts, 1000 ms): at most three fetches, waiting
      1000 ms and then 2000 ms, and nothing after the last attempt. */
  lemma {:induction false} DefaultSchedule<T>(outcomes: seq<FetchOutcome<T>>)
    requires 3 <= |outcomes|
    ensures var run := RunFrom(outcomes, 1, 3, 1000);
            && 1 <= run.attempts <= 3
            && run.delays == [1000, 2000][..run.attempts - 1]
  {
    var run := RunFrom(outcomes, 1, 3, 1000);
    RunFromShape(outcomes, 1, 3, 1000);
    RunFromDelays(outcomes, 1, 3, 1000);
    assert run.delays == [1000, 2000][..run.attempts - 1];
  }
}
