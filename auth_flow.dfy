/** The side-effect-free decisions of the IndieAuth controller: the callback
    target, what `start` records, the ordered callback guards, the choice of
    code exchange, and the GitHub decision tree. */
module AuthFlow {

  import opened Wrappers
  import opened Session
  import opened ProfileUrl

  /** The environment settings the controller reads. */
  datatype Config = Config(baseUrl: string, defaultAuthEndpoint: string, githubId: string, githubSecret: string)

  /** What an action answers: the error view with its message, or a redirect. */
  datatype Response = ErrorView(error: string) | Redirect(url: string)

  /** The query of an inbound callback; an absent parameter is "". */
  datatype CallbackInput = CallbackInput(state: string, code: string, error: string)

  const INVALID_URL := "Invalid URL"
  const MISSING_STATE := "Missing state information. Start over."
  const STATE_MISMATCH := "State did not match. Start over."
  const UNKNOWN_ERROR := "An unknown error occurred"
  const LOGIN_FAILED := "Login failed"
  const UNPARSABLE_TOKEN_RESPONSE := "Error parsing response body from GitHub"
  const NOT_VERIFIED := "Could not verify login from GitHub: "

  const CALLBACK_PATH := "auth/callback"
  const HOME := "/"
  const GITHUB_AUTHORIZE := "https://github.com/login/oauth/authorize"

  /** `_redirectURI`: the fixed callback path under the base URL. */
  function RedirectURI(env: Config): (uri: string)
    ensures |uri| == |env.baseUrl| + |CALLBACK_PATH|
    ensures uri[..|env.baseUrl|] == env.baseUrl && uri[|env.baseUrl|..] == CALLBACK_PATH
  {
    env.baseUrl + CALLBACK_PATH
  }

  /** The provider authorization URL of the GitHub flow. */
  function GitHubAuthorizeURL(clientId: string, state: string): (url: string)
    ensures |url| > |GITHUB_AUTHORIZE| + |state|
    ensures url[..|GITHUB_AUTHORIZE|] == GITHUB_AUTHORIZE
    ensures url[|url| - |state|..] == state
    ensures url[|GITHUB_AUTHORIZE|..|url| - |state|] == "?client_id=" + clientId + "&state="
  {
    GITHUB_AUTHORIZE + "?client_id=" + clientId + "&state=" + state
  }

  /** What the two discovery calls returned; "" when nothing was found. */
  datatype Discovered = Discovered(authorizationEndpoint: string, tokenEndpoint: string)

  /** The arguments of `buildAuthorizationURL`. */
  datatype AuthorizationRequest = AuthorizationRequest(endpoint: string, me: string, redirectUri: string, clientId: string, state: string)

  /** The endpoint the generic flow sends the user to: the discovered one,
      or the configured default when discovery found none. */
  function AuthorizationTarget(discovered: string, env: Config): (endpoint: string)
    ensures discovered != "" ==> endpoint == discovered
    ensures discovered == "" ==> endpoint == env.defaultAuthEndpoint
  {
    if discovered != "" then discovered else env.defaultAuthEndpoint
  }

  /** The entries `start` merges into the session: the attempt, plus both
      discovered endpoints (empty or not) in the generic flow (`None` here
      stands for the GitHub flow, which discovers nothing). */
  function AttemptEntries(me: string, state: string, discovered: Option<Discovered>): (entries: Store)
    ensures entries.Keys == {AUTH_STATE, ATTEMPTED_ME}
      + (if discovered.Some? then {AUTHORIZATION_ENDPOINT, TOKEN_ENDPOINT} else {})
    ensures entries[AUTH_STATE] == Str(state) && entries[ATTEMPTED_ME] == Str(me)
    ensures discovered.Some? ==>
      && entries[AUTHORIZATION_ENDPOINT] == Str(discovered.value.authorizationEndpoint)
      && entries[TOKEN_ENDPOINT] == Str(discovered.value.tokenEndpoint)
  {
    match discovered
    case None => map[AUTH_STATE := Str(state), ATTEMPTED_ME := Str(me)]
    case Some(d) =>
      map[AUTH_STATE := Str(state), ATTEMPTED_ME := Str(me),
          AUTHORIZATION_ENDPOINT := Str(d.authorizationEndpoint), TOKEN_ENDPOINT := Str(d.tokenEndpoint)]
  }

  /** An attempt is in progress: both `auth_state` and `attempted_me` are truthy. */
  predicate HasAttempt(session: Store)
    ensures HasAttempt(session) <==>
      && AUTH_STATE in session && session[AUTH_STATE] !in {Str(""), Int(0)}
      && ATTEMPTED_ME in session && session[ATTEMPTED_ME] !in {Str(""), Int(0)}
  {
    IsSet(session, AUTH_STATE) && IsSet(session, ATTEMPTED_ME)
  }

  /** The guards both callbacks run before any exchange, in order: a missing
      attempt, an error reported by the provider (surfaced verbatim), a state
      that differs from the issued one, and (GitHub flow only) a missing code.
      `None` means every guard passed. */
  function GuardFailure(session: Store, input: CallbackInput, requireCode: bool): (failure: Option<string>)
    ensures failure.None? <==>
      HasAttempt(session) && input.error == "" && session[AUTH_STATE] == Str(input.state)
      && (requireCode ==> input.code != "")
    ensures !HasAttempt(session) ==> failure == Some(MISSING_STATE)
    ensures HasAttempt(session) && input.error != "" ==> failure == Some(input.error)
    ensures HasAttempt(session) && input.error == "" && session[AUTH_STATE] != Str(input.state) ==>
      failure == Some(STATE_MISMATCH)
    ensures (HasAttempt(session) && input.error == "" && session[AUTH_STATE] == Str(input.state)
             && requireCode && input.code == "") ==> failure == Some(UNKNOWN_ERROR)
    ensures failure.Some? ==> failure.value != ""
  {
    if !HasAttempt(session) then Some(MISSING_STATE)
    else if input.error != "" then Some(input.error)
    else if session[AUTH_STATE] != Str(input.state) then Some(STATE_MISMATCH)
    else if requireCode && input.code == "" then Some(UNKNOWN_ERROR)
    else None
  }

  /** The two mutually exclusive ways to redeem the code: `getAccessToken`
      at a token endpoint, or `verifyIndieAuthCode` at an authorization endpoint. */
  datatype ExchangeKind = AccessToken | VerifyCode

  datatype CodeExchange = CodeExchange(
    kind: ExchangeKind, endpoint: string,
    code: string, me: string, redirectUri: string, clientId: string, state: string)

  /** The exchange `callback` runs: the stored token endpoint if there is one;
      otherwise verification at the stored authorization endpoint, or at the
      configured default when none is stored. */
  function ChooseExchange(session: Store, input: CallbackInput, env: Config): (x: CodeExchange)
    ensures x.kind == AccessToken <==> IsSet(session, TOKEN_ENDPOINT)
    ensures x.kind == AccessToken ==> x.endpoint == Text(session, TOKEN_ENDPOINT)
    ensures x.kind == VerifyCode && IsSet(session, AUTHORIZATION_ENDPOINT) ==>
      x.endpoint == Text(session, AUTHORIZATION_ENDPOINT)
    ensures x.kind == VerifyCode && !IsSet(session, AUTHORIZATION_ENDPOINT) ==>
      x.endpoint == env.defaultAuthEndpoint
    ensures x.code == input.code && x.state == input.state && x.me == Text(session, ATTEMPTED_ME)
    ensures x.redirectUri == RedirectURI(env) && x.clientId == env.baseUrl
  {
    var (kind, endpoint) :=
      if IsSet(session, TOKEN_ENDPOINT) then (AccessToken, Text(session, TOKEN_ENDPOINT))
      else if IsSet(session, AUTHORIZATION_ENDPOINT) then (VerifyCode, Text(session, AUTHORIZATION_ENDPOINT))
      else (VerifyCode, env.defaultAuthEndpoint);
    CodeExchange(kind, endpoint, input.code, Text(session, ATTEMPTED_ME), RedirectURI(env), env.baseUrl, input.state)
  }

  /** The session once a login succeeded: flushed, then `me` and `user_id`. */
  function SignedInSession(me: string, userId: nat): (session: Store)
    ensures session.Keys == {ME, USER_ID}
    ensures session[ME] == Str(me) && session[USER_ID] == Int(userId)
    ensures !HasAttempt(session)
  {
    map[ME := Str(me), USER_ID := Int(userId)]
  }

  /** The form POSTed to GitHub's access-token endpoint. */
  datatype AccessTokenRequest = AccessTokenRequest(clientId: string, clientSecret: string, code: string, state: string)

  /** The fields of a decoded access-token response the controller looks at. */
  datatype AccessTokenJson = AccessTokenJson(accessToken: Option<string>, errorDescription: Option<string>)

  /** The access-token response: status, raw body, and the decoded JSON
      object, `None` when decoding failed. */
  datatype AccessTokenResponse = AccessTokenResponse(status: int, body: string, json: Option<AccessTokenJson>)

  /** The user-info response: status and the `login` field, `None` when the
      body has no such field or does not decode. */
  datatype UserResponse = UserResponse(status: int, login: Option<string>)

  /** How the GitHub exchange ended: signed in as a profile URL, or an error message. */
  datatype Login = LoggedIn(me: string) | Rejected(error: string)

  /** The GitHub decision tree over the token response and the user lookup
      made with the access token (`fetchUser` is applied only when a token
      came back). */
  function GitHubLogin(reply: AccessTokenResponse, fetchUser: string -> UserResponse): (r: Login)
    ensures r.LoggedIn? <==>
      && reply.status == 200 && reply.json.Some? && reply.json.value.accessToken.Some?
      && fetchUser(reply.json.value.accessToken.value).status == 200
      && fetchUser(reply.json.value.accessToken.value).login.Some?
    ensures r.LoggedIn? ==>
      var login := fetchUser(reply.json.value.accessToken.value).login.value;
      |r.me| == |HTTPS_PREFIX| + |login| && r.me[..|HTTPS_PREFIX|] == HTTPS_PREFIX && r.me[|HTTPS_PREFIX|..] == login
    ensures reply.status != 200 ==> r == Rejected(NOT_VERIFIED + reply.body)
    ensures reply.status == 200 && reply.json.None? ==> r == Rejected(UNPARSABLE_TOKEN_RESPONSE)
    ensures reply.status == 200 && reply.json.Some? && reply.json.value.accessToken.None? ==>
      r == Rejected(LOGIN_FAILED + match reply.json.value.errorDescription
                                   case Some(d) => ": " + d
                                   case None => "")
    ensures reply.status == 200 && reply.json.Some? && reply.json.value.accessToken.Some? && r.Rejected? ==>
      r.error == LOGIN_FAILED
  {
    if reply.status != 200 then Rejected(NOT_VERIFIED + reply.body)
    else match reply.json
      case None => Rejected(UNPARSABLE_TOKEN_RESPONSE)
      case Some(data) =>
        match data.accessToken
        case None =>
          var detail := match data.errorDescription
            case Some(d) => ": " + d
            case None => "";
          Rejected(LOGIN_FAILED + detail)
        case Some(token) =>
          var user := fetchUser(token);
          if user.status != 200 then Rejected(LOGIN_FAILED)
          else match user.login
            case None => Rejected(LOGIN_FAILED)
            case Some(login) => LoggedIn(HTTPS_PREFIX + login)
  }

  /** A state token issued by `start` (non-empty, with a truthy profile URL)
      lets a callback through the state guard exactly when it is echoed back
      unchanged; any other state, even one character off, is refused. */
  lemma IssuedStateAccepted(before: Store, me: string, state: string, discovered: Option<Discovered>,
                            input: CallbackInput, requireCode: bool)
    requires me != "" && state != ""
    requires input.error == "" && (requireCode ==> input.code != "")
    ensures var failure := GuardFailure(before + AttemptEntries(me, state, discovered), input, requireCode);
      && (failure.None? <==> input.state == state)
      && (input.state != state ==> failure == Some(STATE_MISMATCH))
  {
  }

  /** A generic-flow `start` followed by `callback` redeems the code where
      discovery pointed: at the token endpoint exactly when one was found,
      otherwise at the very endpoint the user was sent to for authorization;
      and it presents the claimed profile URL and the same redirect URI that
      the authorization request carried. */
  lemma ExchangeFollowsStart(before: Store, me: string, state: string, d: Discovered,
                             input: CallbackInput, env: Config)
    ensures
      var x := ChooseExchange(before + AttemptEntries(me, state, Some(d)), input, env);
      && (x.kind == AccessToken <==> d.tokenEndpoint != "")
      && (x.kind == AccessToken ==> x.endpoint == d.tokenEndpoint)
      && (x.kind == VerifyCode ==> x.endpoint == AuthorizationTarget(d.authorizationEndpoint, env))
      && x.me == me
      && x.redirectUri == RedirectURI(env)
  {
  }

  /** A signed-in session holds no attempt, so replaying the callback (or any
      callback before a new `start`) stops at the first guard. */
  lemma SignInEndsAttempt(me: string, userId: nat, input: CallbackInput, requireCode: bool)
    ensures GuardFailure(SignedInSession(me, userId), input, requireCode) == Some(MISSING_STATE)
  {
  }

  /** The identity the GitHub flow signs in with selects the GitHub flow again
      when it is entered at `start`, whenever the login starts with a
      character other than a space or a slash. */
  lemma GitHubLoginReselectsGitHub(reply: AccessTokenResponse, fetchUser: string -> UserResponse)
    requires GitHubLogin(reply, fetchUser).LoggedIn?
    requires var login := fetchUser(reply.json.value.accessToken.value).login.value;
      login != "" && UsernameChar(login[0])
    ensures IsGitHubProfile(GitHubLogin(reply, fetchUser).me)
  {
  }
}
