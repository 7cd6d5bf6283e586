/** The session manager of FlowInsight/auth.js: who the client is signed in
    as, with which bearer credential, and the copy of both kept in the
    browser's `localStorage`. The browser globals become state: the storage
    is a map field and `window.location.href` a field; each network call is
    answered by a given `FetchOutcome`. */
module Auth {
  import opened Js
  import opened Fetch

  /** The API the session manager talks to (auth.js:7). */
  const ApiBaseUrl := "https://your-api-domain.vercel.app"
  /** The two `localStorage` keys (auth.js:79-80, 88-89). */
  const SessionTokenKey := "sessionToken"
  const UserDataKey := "userData"
  /** Where a logout navigates (auth.js:92). */
  const LoginPage := "/login"

  /** A signed-in user's profile as the backend returns it. */
  datatype User = User(id: string, firstName: string, email: string, profileImageUrl: string)

  /** `localStorage.setItem` stores `String(value)`: an undefined token is
      stored as the text "undefined". */
  function StoredToken(token: Option<string>): (text: string)
    ensures token.Some? ==> text == token.value
    ensures token.None? ==> text == "undefined"
  {
    token.GetOr("undefined")
  }

  /** One `"key":"value"` member of a JSON object with a string value. */
  function JsonMember(key: string, value: string): string {
    "\"" + key + "\":\"" + value + "\""
  }

  /** `{` and `}` around the given members. */
  function JsonObject(members: string): (json: string)
    ensures |json| == |members| + 2 && json[0] == '{' && json[|json| - 1] == '}'
    ensures json[1..|json| - 1] == members
  {
    "{" + members + "}"
  }

  /** The members of a user's JSON object: its four fields in declaration order. */
  function UserMembers(v: User): string {
    JsonMember("id", v.id) + "," + JsonMember("firstName", v.firstName)
    + "," + JsonMember("email", v.email) + "," + JsonMember("profileImageUrl", v.profileImageUrl)
  }

  /** `String(JSON.stringify(user))` as stored under `userData`; JSON string
      escaping is not modelled. */
  function UserJson(u: Option<User>): (json: string)
    ensures u.None? ==> json == "undefined"
    ensures u.Some? ==> |json| >= 2 && json[0] == '{' && json[|json| - 1] == '}'
    ensures u.Some? ==> json[1..|json| - 1] == UserMembers(u.value)
  {
    match u
    case None => "undefined"
    case Some(v) => JsonObject(UserMembers(v))
  }

  /** The stored profile holds each of the user's fields under its own key. */
  lemma UserJsonHoldsFields(v: User)
    ensures Includes(UserJson(Some(v)), JsonMember("id", v.id))
    ensures Includes(UserJson(Some(v)), JsonMember("firstName", v.firstName))
    ensures Includes(UserJson(Some(v)), JsonMember("email", v.email))
    ensures Includes(UserJson(Some(v)), JsonMember("profileImageUrl", v.profileImageUrl))
  {
    IncludesEachOfFour("{", JsonMember("id", v.id), JsonMember("firstName", v.firstName),
                       JsonMember("email", v.email), JsonMember("profileImageUrl", v.profileImageUrl), ",", "}");
  }

  /** The body of a successful `/api/auth/callback` response: either field may
      be missing (undefined). */
  datatype CallbackData = CallbackData(token: Option<string>, user: Option<User>)

  /** The `try { if (!response.ok) throw new Error(failure); return await response.json() }`
      step that `handleCallback` and `validateSession` share. */
  function ReadOkJson<T>(response: FetchOutcome<T>, failure: string): (r: Result<T>)
    ensures r.Ok? <==> response.Response? && IsOk(response.status) && response.body.Parsed?
    ensures r.Ok? ==> r.value == response.body.value
    ensures response.Response? && !IsOk(response.status) ==> r == Err(Error(failure))
    ensures response.NetworkFailure? ==> r == Err(Error(response.message))
  {
    match response
    case NetworkFailure(m) => Err(Error(m))
    case Response(status, _, body) =>
      if !IsOk(status) then Err(Error(failure))
      else match body
        case Parsed(v) => Ok(v)
        case Unparsable(m) => Err(Error(m))
  }

  /** Everything the session manager can change, as one value. */
  datatype Session = Session(
    isAuthenticated: bool,
    user: Option<User>,
    sessionToken: Option<string>,
    storage: map<string, string>,
    location: string)
  {
    /** The persisted copy mirrors an authenticated session, and an
        unauthenticated session holds neither credential nor user. */
    ghost predicate Consistent() {
      if isAuthenticated then
        && SessionTokenKey in storage && storage[SessionTokenKey] == StoredToken(sessionToken)
        && UserDataKey in storage && storage[UserDataKey] == UserJson(user)
      else
        sessionToken == None && user == None
    }

    /** The state `setSession(token, user)` leaves (auth.js:75-81). */
    function WithSession(token: Option<string>, u: Option<User>): (s: Session)
      ensures s.isAuthenticated && s.sessionToken == token && s.user == u
      ensures s.storage.Keys == storage.Keys + {SessionTokenKey, UserDataKey}
      ensures s.storage[SessionTokenKey] == StoredToken(token) && s.storage[UserDataKey] == UserJson(u)
      ensures forall k :: k in storage && k != SessionTokenKey && k != UserDataKey ==> s.storage[k] == storage[k]
      ensures s.location == location
      ensures s.Consistent()
    {
      Session(true, u, token, storage[SessionTokenKey := StoredToken(token)][UserDataKey := UserJson(u)], location)
    }

    /** The state `logout()` leaves (auth.js:84-93). */
    function LoggedOut(): (s: Session)
      ensures !s.isAuthenticated && s.sessionToken == None && s.user == None
      ensures s.storage.Keys == storage.Keys - {SessionTokenKey, UserDataKey}
      ensures forall k :: k in s.storage ==> s.storage[k] == storage[k]
      ensures s.location == LoginPage
      ensures s.Consistent()
    {
      Session(false, None, None, storage - {SessionTokenKey, UserDataKey}, LoginPage)
    }
  }

  /** Logging out twice leaves the same state as logging out once, from any state. */
  lemma LogoutIdempotent(s: Session)
    ensures s.LoggedOut().LoggedOut() == s.LoggedOut()
  {
    assert s.LoggedOut().LoggedOut().storage == s.LoggedOut().storage;
  }

  /** A second `setSession` overrides the first completely: only the last
      credential and user remain, in memory and in storage. */
  lemma SetSessionOverrides(s: Session, t1: Option<string>, u1: Option<User>, t2: Option<string>, u2: Option<User>)
    ensures s.WithSession(t1, u1).WithSession(t2, u2) == s.WithSession(t2, u2)
  {
    assert s.WithSession(t1, u1).WithSession(t2, u2).storage == s.WithSession(t2, u2).storage;
  }

  /** The request `validateSession(token)` sends (auth.js:59-61). */
  function ValidateRequest(baseUrl: string, token: string): (request: HttpRequest)
    ensures request.url == baseUrl + "/api/auth/validate"
    ensures request.httpMethod == "GET" && request.body.None?
    ensures request.headers.Keys == {"Authorization"} && request.headers["Authorization"] == Bearer(token)
  {
    HttpRequest(baseUrl + "/api/auth/validate", "GET", map["Authorization" := Bearer(token)], None)
  }

  /** The request `handleCallback(code)` sends (auth.js:39-43); JSON string
      escaping of the code is not modelled. */
  function CallbackRequest(baseUrl: string, code: string): (request: HttpRequest)
    ensures request.url == baseUrl + "/api/auth/callback"
    ensures request.httpMethod == "POST" && request.body.Some?
    ensures var body := request.body.value;
            && |body| == |code| + 11 && body[..9] == "{\"code\":\"" && body[|body| - 2..] == "\"}"
            && body[9..|body| - 2] == code
    ensures request.headers.Keys == {"Content-Type"} && request.headers["Content-Type"] == "application/json"
  {
    HttpRequest(baseUrl + "/api/auth/callback", "POST", map["Content-Type" := "application/json"],
                Some("{\"code\":\"" + code + "\"}"))
  }

  class AuthManager {
    var isAuthenticated: bool
    var user: Option<User>
    var sessionToken: Option<string>
    /** `window.localStorage` */
    var storage: map<string, string>
    /** `window.location.href` */
    var location: string
    const baseUrl: string

    function State(): Session
      reads this
    {
      Session(isAuthenticated, user, sessionToken, storage, location)
    }

    ghost predicate Valid()
      reads this
    {
      State().Consistent()
    }

    /** A fresh manager in a page whose storage and location are given (auth.js:3-8). */
    constructor (storage: map<string, string>, location: string)
      ensures Valid()
      ensures State() == Session(false, None, None, storage, location)
      ensures baseUrl == ApiBaseUrl
    {
      isAuthenticated := false;
      user := None;
      sessionToken := None;
      this.storage := storage;
      this.location := location;
      baseUrl := ApiBaseUrl;
    }

    /** auth.js:75-81 */
    method SetSession(token: Option<string>, u: Option<User>)
      modifies this
      ensures State() == old(State()).WithSession(token, u)
      ensures Valid()
    {
      sessionToken := token;
      user := u;
      isAuthenticated := true;
      storage := storage[SessionTokenKey := StoredToken(token)];
      storage := storage[UserDataKey := UserJson(u)];
    }

    /** auth.js:84-93 */
    method Logout()
      modifies this
      ensures State() == old(State()).LoggedOut()
      ensures Valid()
    {
      sessionToken := None;
      user := None;
      isAuthenticated := false;
      storage := storage - {SessionTokenKey};
      storage := storage - {UserDataKey};
      location := LoginPage;
    }

    /** auth.js:96-99: a bearer header exactly when the credential is truthy. */
    function AuthHeaders(): (headers: Headers)
      reads this
      ensures "Authorization" in headers <==> Truthy(sessionToken)
      ensures headers.Keys <= {"Authorization"}
      ensures "Authorization" in headers ==> headers["Authorization"] == Bearer(sessionToken.value)
    {
      if !Truthy(sessionToken) then map[] else map["Authorization" := Bearer(sessionToken.value)]
    }

    /** auth.js:102-104 */
    function CheckAuth(): (authenticated: bool)
      reads this
      ensures authenticated <==> isAuthenticated && Truthy(sessionToken)
      ensures authenticated ==> "Authorization" in AuthHeaders()
    {
      isAuthenticated && Truthy(sessionToken)
    }

    /** auth.js:25-34: navigate to the OAuth entry point; the session is untouched. */
    method Login()
      modifies this
      ensures location == baseUrl + "/api/auth/replit"
      ensures State() == old(State()).(location := baseUrl + "/api/auth/replit")
      ensures Valid() == old(Valid())
    {
      location := baseUrl + "/api/auth/replit";
    }

    /** auth.js:57-72: ask the backend who `token` belongs to; on success
        adopt it, on failure throw and change nothing. */
    method ValidateSession(token: string, response: FetchOutcome<User>) returns (sent: HttpRequest, r: Result<User>)
      requires Valid()
      modifies this
      ensures Valid()
      ensures sent == ValidateRequest(baseUrl, token)
      ensures r == ReadOkJson(response, "Invalid session")
      ensures r.Ok? ==> State() == old(State()).WithSession(Some(token), Some(r.value))
      ensures r.Err? ==> State() == old(State())
    {
      sent := ValidateRequest(baseUrl, token);
      r := ReadOkJson(response, "Invalid session");
      if r.Ok? {
        SetSession(Some(token), Some(r.value));
      }
    }

    /** auth.js:37-54: exchange an OAuth code; on success adopt the returned
        credential and user and return the user, on failure throw and change
        nothing. */
    method HandleCallback(code: string, response: FetchOutcome<CallbackData>) returns (sent: HttpRequest, r: Result<Option<User>>)
      requires Valid()
      modifies this
      ensures Valid()
      ensures sent == CallbackRequest(baseUrl, code)
      ensures var data := ReadOkJson(response, "Authentication failed");
              && (data.Ok? ==> r == Ok(data.value.user)
                               && State() == old(State()).WithSession(data.value.token, data.value.user))
              && (data.Err? ==> r == Err(data.error) && State() == old(State()))
    {
      sent := CallbackRequest(baseUrl, code);
      var data := ReadOkJson(response, "Authentication failed");
      if data.Err? {
        r := Err(data.error);
        return;
      }
      SetSession(data.value.token, data.value.user);
      r := Ok(data.value.user);
    }

    /** auth.js:11-22: restore a stored session. Nothing happens without a
        truthy stored credential; otherwise it is validated, and a failed
        validation ends in a logout instead of an exception. */
    method Init(validation: FetchOutcome<User>) returns (sent: Option<HttpRequest>)
      requires Valid()
      modifies this
      ensures Valid()
      ensures var stored := if SessionTokenKey in old(storage) then Some(old(storage)[SessionTokenKey]) else None;
              && (!Truthy(stored) ==> sent == None && State() == old(State()))
              && (Truthy(stored) ==>
                    var checked := ReadOkJson(validation, "Invalid session");
                    && sent == Some(ValidateRequest(baseUrl, stored.value))
                    && (checked.Ok? ==> State() == old(State()).WithSession(stored, Some(checked.value)))
                    && (checked.Err? ==> State() == old(State()).LoggedOut()))
    {
      var token := if SessionTokenKey in storage then Some(storage[SessionTokenKey]) else None;
      sent := None;
      if Truthy(token) {
        var request, r := ValidateSession(token.value, validation);
        sent := Some(request);
        if r.Err? {
          Logout();
        }
      }
    }
  }
}
