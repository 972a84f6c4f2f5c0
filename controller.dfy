/** The login controller: its actions over the per-browser session and the
    `users` table, each proved against the decisions in `AuthFlow` and the
    table semantics in `UserRegistry`. */
module Controller {

  import opened Wrappers
  import opened Session
  import opened ProfileUrl
  import opened UserRegistry
  import opened AuthFlow

  class IndieAuth {
    const env: Config
    /** The session of the browser making the request. */
    var session: Store
    /** The `users` table and the id its auto-increment assigns next. */
    var users: seq<User>
    var nextId: nat

    ghost predicate Valid()
      reads this
    {
      KeyedBelow(users, nextId)
    }

    /** The state a successful login leaves: the session flushed and set to
        `me` and the bound user id, the table upserted for `me`. */
    ghost predicate LoggedInAs(me: string, users0: seq<User>, nextId0: nat, now: string)
      reads this
    {
      var u := Upsert(users0, nextId0, me, now);
      session == SignedInSession(me, u.id) && users == u.users && nextId == u.nextId
    }

    constructor (env: Config, users: seq<User>, nextId: nat)
      requires KeyedBelow(users, nextId)
      ensures Valid()
      ensures this.env == env && session == map[] && this.users == users && this.nextId == nextId
    {
      this.env := env;
      this.session := map[];
      this.users := users;
      this.nextId := nextId;
    }

    /** `start`: validate the profile URL, pick the flow, record the attempt
        (merging into the session, never flushing it) and redirect to the
        authorization URL. */
    method Start(meInput: string, normalize: string -> string, state: string,
                 discoverAuthorizationEndpoint: string -> string,
                 discoverTokenEndpoint: string -> string,
                 buildAuthorizationURL: AuthorizationRequest -> string)
      returns (r: Response)
      requires Valid()
      modifies this
      ensures Valid() && users == old(users) && nextId == old(nextId)
      ensures var me := normalize(meInput);
        && (me == "" ==> r == ErrorView(INVALID_URL) && session == old(session))
        && (me != "" && IsGitHubProfile(me) ==>
              && r == Redirect(GitHubAuthorizeURL(env.githubId, state))
              && session == old(session) + AttemptEntries(me, state, None))
        && (me != "" && !IsGitHubProfile(me) ==>
              var d := Discovered(discoverAuthorizationEndpoint(me), discoverTokenEndpoint(me));
              && r == Redirect(buildAuthorizationURL(AuthorizationRequest(
                   AuthorizationTarget(d.authorizationEndpoint, env), me, RedirectURI(env), env.baseUrl, state)))
              && session == old(session) + AttemptEntries(me, state, Some(d)))
      ensures old(session).Keys <= session.Keys
      ensures forall k :: k in old(session) && k !in {AUTH_STATE, ATTEMPTED_ME, AUTHORIZATION_ENDPOINT, TOKEN_ENDPOINT} ==>
        session[k] == old(session)[k]
    {
      var me := normalize(meInput);
      if me == "" {
        return ErrorView(INVALID_URL);
      }
      var authorizationURL: string;
      if IsGitHubProfile(me) {
        authorizationURL := GitHubAuthorizeURL(env.githubId, state);
        session := session[AUTH_STATE := Str(state)][ATTEMPTED_ME := Str(me)];
      } else {
        var authorizationEndpoint := discoverAuthorizationEndpoint(me);
        var tokenEndpoint := discoverTokenEndpoint(me);
        session := session[AUTH_STATE := Str(state)][ATTEMPTED_ME := Str(me)]
          [AUTHORIZATION_ENDPOINT := Str(authorizationEndpoint)][TOKEN_ENDPOINT := Str(tokenEndpoint)];
        if authorizationEndpoint == "" {
          authorizationEndpoint := env.defaultAuthEndpoint;
        }
        authorizationURL := buildAuthorizationURL(
          AuthorizationRequest(authorizationEndpoint, me, RedirectURI(env), env.baseUrl, state));
      }
      r := Redirect(authorizationURL);
    }

    /** `callback`: the guards, then exactly one code exchange; a result that
        carries `me` signs the user in. Once the guards pass the answer is a
        redirect home whatever the exchange returned. */
    method Callback(input: CallbackInput, exchange: CodeExchange -> Option<string>, now: string)
      returns (r: Response)
      requires Valid()
      modifies this
      ensures Valid()
      ensures var failure := GuardFailure(old(session), input, false);
        && (failure.Some? ==>
              r == ErrorView(failure.value)
              && session == old(session) && users == old(users) && nextId == old(nextId))
        && (failure.None? ==>
              var token := exchange(ChooseExchange(old(session), input, env));
              && r == Redirect(HOME)
              && (token.Some? ==> LoggedInAs(token.value, old(users), old(nextId), now))
              && (token.None? ==> session == old(session) && users == old(users) && nextId == old(nextId)))
    {
      var failure := GuardFailure(session, input, false);
      if failure.Some? {
        return ErrorView(failure.value);
      }
      var token := exchange(ChooseExchange(session, input, env));
      if token.Some? {
        SignIn(token.value, now);
      }
      r := Redirect(HOME);
    }

    /** `github`: the guards (with the code check), then the access-token
        POST and the user lookup; only a login found by both signs in. */
    method GitHub(input: CallbackInput, postToken: AccessTokenRequest -> AccessTokenResponse,
                  fetchUser: string -> UserResponse, now: string)
      returns (r: Response)
      requires Valid()
      modifies this
      ensures Valid()
      ensures var failure := GuardFailure(old(session), input, true);
        && (failure.Some? ==>
              r == ErrorView(failure.value)
              && session == old(session) && users == old(users) && nextId == old(nextId))
        && (failure.None? ==>
              var reply := postToken(AccessTokenRequest(env.githubId, env.githubSecret, input.code, Text(old(session), AUTH_STATE)));
              var login := GitHubLogin(reply, fetchUser);
              && (login.Rejected? ==>
                    r == ErrorView(login.error)
                    && session == old(session) && users == old(users) && nextId == old(nextId))
              && (login.LoggedIn? ==> r == Redirect(HOME) && LoggedInAs(login.me, old(users), old(nextId), now)))
    {
      var failure := GuardFailure(session, input, true);
      if failure.Some? {
        return ErrorView(failure.value);
      }
      var res := postToken(AccessTokenRequest(env.githubId, env.githubSecret, input.code, Text(session, AUTH_STATE)));
      if res.status == 200 {
        if res.json.Some? {
          var data := res.json.value;
          if data.accessToken.Some? {
            var user := fetchUser(data.accessToken.value);
            if user.status == 200 {
              if user.login.Some? {
                var me := HTTPS_PREFIX + user.login.value;
                SignIn(me, now);
                r := Redirect(HOME);
              } else {
                r := ErrorView(LOGIN_FAILED);
              }
            } else {
              r := ErrorView(LOGIN_FAILED);
            }
          } else {
            var err := "";
            if data.errorDescription.Some? {
              err := ": " + data.errorDescription.value;
            }
            r := ErrorView(LOGIN_FAILED + err);
          }
        } else {
          r := ErrorView(UNPARSABLE_TOKEN_RESPONSE);
        }
      } else {
        r := ErrorView(NOT_VERIFIED + res.body);
      }
    }

    /** Flush the session, set `me`, and record the login. */
    method SignIn(me: string, now: string)
      requires Valid()
      modifies this
      ensures Valid() && LoggedInAs(me, old(users), old(nextId), now)
    {
      session := map[];
      session := session[ME := Str(me)];
      UserLoggedIn(me, now);
    }

    /** `_userLoggedIn`: look the url up; stamp `last_login` (on every row,
        as the UPDATE has no WHERE clause) and bind the first row's id, or
        insert a row and bind the id read back. */
    method UserLoggedIn(url: string, now: string)
      requires Valid()
      modifies this
      ensures Valid()
      ensures var u := Upsert(old(users), old(nextId), url, now);
        users == u.users && nextId == u.nextId && session == old(session)[USER_ID := Int(u.id)]
      ensures UniqueUrls(old(users)) ==> UniqueUrls(users)
      ensures Select(old(users), url) == [] ==>
        forall i :: 0 <= i < |old(users)| ==> Int(old(users)[i].id) != session[USER_ID]
    {
      ghost var users0, nextId0 := users, nextId;
      UpsertKeepsKeys(users0, nextId0, url, now);
      if UniqueUrls(users0) {
        UpsertKeepsUrlsUnique(users0, nextId0, url, now);
      }
      var rows := Select(users, url);
      if |rows| > 0 {
        users := TouchAll(users, now);
        session := session[USER_ID := Int(rows[0].id)];
      } else {
        users := users + [User(nextId, url, now, now)];
        nextId := nextId + 1;
        rows := Select(users, url);
        session := session[USER_ID := Int(rows[0].id)];
      }
    }

    /** `logout`: the session is emptied, the table left alone. */
    method Logout() returns (r: Response)
      requires Valid()
      modifies this
      ensures Valid()
      ensures r == Redirect(HOME) && session == map[] && users == old(users) && nextId == old(nextId)
    {
      session := map[];
      r := Redirect(HOME);
    }
  }
}
