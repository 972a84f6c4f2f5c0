/** Client code: whole login sequences, checked against the controller's
    contracts alone. */
module Scenarios {

  import opened Wrappers
  import opened Session
  import opened ProfileUrl
  import opened UserRegistry
  import opened AuthFlow
  import opened Controller

  /** A generic-flow login where discovery finds only an authorization
      endpoint: the code is verified there and the user is signed in. */
  method AuthorizationEndpointOnly(env: Config, state: string, now: string)
    requires state != ""
  {
    var c := new IndieAuth(env, [], 0);
    var me := "https://alice.example/";
    var endpoint := "https://auth.alice.example/";
    AliceIsGeneric(me);
    var r := c.Start(me, s => s, state, s => endpoint, s => "", (a: AuthorizationRequest) => a.endpoint);
    assert r == Redirect(endpoint);
    assert c.session[TOKEN_ENDPOINT] == Str("");

    var input := CallbackInput(state, "code", "");
    var seen: CodeExchange -> Option<string> :=
      (x: CodeExchange) => if x.kind == VerifyCode && x.endpoint == endpoint then Some(x.me) else None;
    r := c.Callback(input, seen, now);
    assert r == Redirect(HOME);
    assert c.session == SignedInSession(me, 0);
    assert c.users == [User(0, me, now, now)];
  }

  /** A GitHub-flow login: the profile URL becomes https://github.com/ + login. */
  method GitHubShortcutLogin(env: Config, login: string, state: string, now: string)
    requires login != "" && UsernameChar(login[0]) && state != ""
  {
    var c := new IndieAuth(env, [], 7);
    var me := HTTPS_PREFIX + login;
    GitHubIdentityIsProfile(login);
    var r := c.Start(me, s => s, state, s => "", s => "", (a: AuthorizationRequest) => "");
    assert c.session == AttemptEntries(me, state, None);

    var input := CallbackInput(state, "code", "");
    r := c.GitHub(input,
      q => AccessTokenResponse(200, "", Some(AccessTokenJson(Some("token"), None))),
      t => UserResponse(200, Some(login)),
      now);
    assert r == Redirect(HOME);
    assert c.session == SignedInSession(me, 7);
  }

  lemma AliceIsGeneric(me: string)
    requires me == "https://alice.example/"
    ensures !IsGitHubProfile(me)
  {
    forall i | 0 <= i < |me| ensures !MatchesAt(me, i) {
      // "ht" occurs only at index 0, where "https://a" is neither prefix
      if PrefixedAt(me, i, HTTP_PREFIX) {
        PrefixedAtChar(me, i, HTTP_PREFIX, 0);
        PrefixedAtChar(me, i, HTTP_PREFIX, 1);
        PrefixedAtChar(me, i, HTTP_PREFIX, 4);
      }
      if PrefixedAt(me, i, HTTPS_PREFIX) {
        PrefixedAtChar(me, i, HTTPS_PREFIX, 0);
        PrefixedAtChar(me, i, HTTPS_PREFIX, 1);
        PrefixedAtChar(me, i, HTTPS_PREFIX, 8);
      }
    }
  }

  /** A callback with the wrong state is refused and changes nothing. */
  method WrongState(env: Config, me: string, state: string, other: string, now: string)
    requires me != "" && state != "" && other != state
  {
    var c := new IndieAuth(env, [], 0);
    var r := c.Start(me, s => s, state, s => "", s => "", a => "");
    var before := c.session;
    r := c.Callback(CallbackInput(other, "code", ""), (x: CodeExchange) => Some(x.me), now);
    assert r == ErrorView(STATE_MISMATCH);
    assert c.session == before;
  }

  /** Logout clears a signed-in session; a replayed callback then finds no attempt. */
  method LogoutThenReplay(env: Config, me: string, state: string, now: string)
    requires me != "" && state != ""
  {
    var c := new IndieAuth(env, [], 0);
    var r := c.Start(me, s => s, state, s => "", s => "", a => "");
    r := c.Callback(CallbackInput(state, "code", ""), (x: CodeExchange) => Some(x.me), now);
    r := c.Logout();
    assert c.session == map[];
    r := c.Callback(CallbackInput(state, "code", ""), (x: CodeExchange) => Some(x.me), now);
    assert r == ErrorView(MISSING_STATE);
  }
}
