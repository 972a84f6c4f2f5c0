# IndieAuth login controller (Compass), modelled in Dafny

Compass signs users in by the profile URL they claim. Its `IndieAuth` controller has two
login paths:

- **Generic IndieAuth flow.** `start` discovers the URL's authorization and token
  endpoints and redirects there. `callback` then redeems the code, either at the token
  endpoint or by verification at the authorization endpoint.
- **GitHub shortcut.** It is the client side of the OAuth 2.0 authorization-code grant
  (section 4.1 of RFC 6749), with `state` as the CSRF guard (section 10.12 of RFC 6749).
  It maps the GitHub login onto `https://github.com/<login>`.

A successful login flushes the session and stores `me` and `user_id`. It also upserts a
row of the `users` table. `logout` empties the session.

The model has these modules:

- `Session` (session.dfy): the per-browser session as `map<string, Value>`. Values are
  strings or the numeric user id. It also holds the session keys and PHP truthiness.
- `ProfileUrl` (profile_url.dfy): the flow-selection pattern `https?://github\.com/[^ /]+`,
  searched anywhere in the normalized URL. It is proved equal to "some index starts a
  match".
- `UserRegistry` (user_registry.dfy): the `users` table as a sequence of rows plus the
  next auto-increment id.
  - `Select` is the `WHERE url = ?` lookup.
  - `TouchAll` is the `UPDATE ... SET last_login` statement.
  - `Upsert` is what `_userLoggedIn` does to the table. Lemmas cover uniqueness, keys,
    growth and a repeated login.
- `AuthFlow` (auth_flow.dfy): the pure decisions.
  - the callback URL
  - the session entries `start` writes
  - the ordered callback guards
  - the choice between `getAccessToken` and `verifyIndieAuthCode`
  - the GitHub decision tree over the two HTTP responses
  - lemmas that connect `start` to the callbacks
- `Controller` (controller.dfy): class `IndieAuth`. Its fields are the session, the table
  and the next id. `Start`, `Callback`, `GitHub`, `UserLoggedIn` and `Logout` change them
  step by step, as the PHP does. Each method's postcondition ties the new state to the
  functions above.
- `Scenarios` (scenarios.dfy): whole login sequences checked against the class contracts
  alone:
  - a generic login with only an authorization endpoint
  - a GitHub login
  - a wrong state
  - logout followed by a replayed callback

The controller's collaborators are parameters of the methods:
- `normalizeMeURL`, the two discovery calls, `buildAuthorizationURL`
- the code exchange, applied to a `CodeExchange` value saying which call and which endpoint
- the GitHub token POST and user GET

The state token and the current time are plain inputs.

## Behaviour worth noting

- Flow selection searches the whole URL for the pattern. It does not look at the host.
  `https://evil.example/?u=https://github.com/x` takes the GitHub flow, while
  `https://github.com/` and `https://github.com.evil.example/x` take the generic flow
  (`ProfileUrl.MatchAnywhereInUrl`, `GitHubRootNotSelected`, `LookalikeHostNotSelected`).
- `start` merges into the session and never flushes it. Keys left over from an earlier
  attempt or login, such as `me`, survive.
- In the generic flow the session keeps the discovered authorization endpoint even when
  it is empty. The default endpoint is used only for the redirect. A later `callback` with
  no endpoint stored falls back to the same default, so the code is verified where the
  user was sent (`AuthFlow.ExchangeFollowsStart`).
- Guard failures do not clear the attempt. Only a successful login (flush) or `logout`
  does that.
- Only the GitHub callback rejects a missing code. The generic callback passes whatever
  `code` it got to the exchange.
- In the generic callback, an exchange result without `me` still redirects home with the
  session unchanged. In the GitHub flow every failure is an error view.
- The update for a returning user has no WHERE clause. Every row's `last_login` is set,
  not only the user's. The model keeps this, and `UserRegistry.Upsert` states it.

## Model

| member | source | states |
|---|---|---|
| `ProfileUrl.SearchFrom` | compass/app/Http/Controllers/IndieAuth.php:24 | the unanchored search from an index is true exactly when some later index starts a match of `https?://github.com/` followed by a character that is neither a space nor a slash |
| `ProfileUrl.IsGitHubProfile` | compass/app/Http/Controllers/IndieAuth.php:24 | the `preg_match` test holds exactly when the pattern matches at some index of the URL |
| `ProfileUrl.GitHubUserUrlsSelected` | compass/app/Http/Controllers/IndieAuth.php:24 | `https://github.com/example` and `https://github.com/example/` select the GitHub flow |
| `ProfileUrl.PlainHttpSelected` | compass/app/Http/Controllers/IndieAuth.php:24 | the optional `s` lets `http://github.com/example` select the GitHub flow |
| `ProfileUrl.GitHubRootNotSelected` | compass/app/Http/Controllers/IndieAuth.php:24 | `https://github.com/` alone takes the generic flow, because `+` needs at least one username character |
| `ProfileUrl.LookalikeHostNotSelected` | compass/app/Http/Controllers/IndieAuth.php:24 | `https://github.com.evil.example/x` takes the generic flow |
| `ProfileUrl.MatchAnywhereInUrl` | compass/app/Http/Controllers/IndieAuth.php:24 | a GitHub URL embedded in another host's URL selects the GitHub flow, because the pattern is unanchored |
| `ProfileUrl.GitHubIdentityIsProfile` | compass/app/Http/Controllers/IndieAuth.php:140 | `https://github.com/` + login is classified as a GitHub profile whenever the login starts with a username character |
| `UserRegistry.Select` | compass/app/Http/Controllers/IndieAuth.php:167-169 | the lookup returns exactly the rows whose url is the given one, and no more rows than the table has |
| `UserRegistry.Upsert` | compass/app/Http/Controllers/IndieAuth.php:165-180 | the table grows by one row exactly when no row had the url. Re-selecting by url yields the bound id first. Existing rows keep id, url and created_at. For a known url the id is the first matching row's, no id is consumed, and every row's last_login becomes now. For a new url the row (next id, url, now, now) is appended and its id is bound |
| `UserRegistry.TouchAll` | compass/app/Http/Controllers/IndieAuth.php:171 | the UPDATE has no WHERE clause: every row, whatever its url, keeps its id, url and created_at and gets last_login = now; no row is added or dropped |
| `UserRegistry.SelectFindsFirstRow` | compass/app/Http/Controllers/IndieAuth.php:172 | the first row the lookup returns is the table's first row with that url, which is the row `$user[0]` binds |
| `UserRegistry.UpsertKeepsUrlsUnique` | compass/app/Http/Controllers/IndieAuth.php:170-179 | a table with at most one row per url still has at most one after a login |
| `UserRegistry.UpsertKeepsKeys` | compass/app/Http/Controllers/IndieAuth.php:174 | ids stay pairwise distinct and below the store's next id |
| `UserRegistry.UpsertTwiceSameId` | compass/app/Http/Controllers/IndieAuth.php:170-172 | a second login with the same url binds the same id, adds no row, keeps created_at and sets last_login to the second time |
| `AuthFlow.RedirectURI` | compass/app/Http/Controllers/IndieAuth.php:12-14 | the callback target is the base URL followed by `auth/callback` |
| `AuthFlow.AttemptEntries` | compass/app/Http/Controllers/IndieAuth.php:29-43 | the GitHub flow writes exactly `auth_state` and `attempted_me`. The generic flow also writes `authorization_endpoint` and `token_endpoint`, holding the discovered values as they are, empty ones included, never the default. State and profile URL are stored as given |
| `AuthFlow.GitHubAuthorizeURL` | compass/app/Http/Controllers/IndieAuth.php:25-27 | the GitHub flow's redirect starts with the provider's fixed authorize endpoint, carries `?client_id=` with the configured client id and then `&state=`, and ends with the issued state token |
| `AuthFlow.AuthorizationTarget` | compass/app/Http/Controllers/IndieAuth.php:46-49 | the generic flow redirects to the discovered authorization endpoint when it is non-empty, and to the configured default only when discovery found none |
| `AuthFlow.HasAttempt` | compass/app/Http/Controllers/IndieAuth.php:57 | an attempt is in progress exactly when both `auth_state` and `attempted_me` are stored with a value other than the empty string or zero (the same condition at line 93) |
| `AuthFlow.SignedInSession` | compass/app/Http/Controllers/IndieAuth.php:84-85 | after flush-then-set the session has exactly the keys `me` and `user_id` with the given values, and no attempt in progress (the same steps at lines 139-141) |
| `AuthFlow.GuardFailure` | compass/app/Http/Controllers/IndieAuth.php:93-107 | the guards (lines 57-67 for `callback`) pass exactly when both attempt keys are truthy, no error came in, the state equals `auth_state`, and (GitHub only) a code is present. Otherwise the first failing guard's message is returned, in the order "Missing state information. Start over.", the provider error verbatim, "State did not match. Start over.", "An unknown error occurred" |
| `AuthFlow.ChooseExchange` | compass/app/Http/Controllers/IndieAuth.php:69-81 | `getAccessToken` is chosen exactly when a truthy token endpoint is stored, at that endpoint. Otherwise verification runs at the stored authorization endpoint, or at the default when none is truthy. The code, state, claimed URL, redirect URI and client id are passed through |
| `AuthFlow.GitHubLogin` | compass/app/Http/Controllers/IndieAuth.php:124-162 | success holds exactly on the path status 200, body decoded, `access_token` present, user status 200, `login` present. The identity is then `https://github.com/` + login, with the login recoverable as its suffix. Each failure yields its own message: the raw body after "Could not verify login from GitHub: ", the parse error, "Login failed" with ": " + `error_description` when present, or plain "Login failed" |
| `AuthFlow.IssuedStateAccepted` | compass/app/Http/Controllers/IndieAuth.php:101-103 | after `start` stored a non-empty state, a callback passes the state guard exactly when it echoes that state, and any other state is refused with "State did not match. Start over." |
| `AuthFlow.ExchangeFollowsStart` | compass/app/Http/Controllers/IndieAuth.php:69-81 | after a generic `start`, the callback uses the token endpoint exactly when discovery found one. Otherwise it verifies at the endpoint the user was redirected to. It presents the claimed URL and the same redirect URI the authorization request carried |
| `AuthFlow.SignInEndsAttempt` | compass/app/Http/Controllers/IndieAuth.php:83-86 | once signed in, the session holds no attempt, so a replayed callback stops at "Missing state information. Start over." |
| `AuthFlow.GitHubLoginReselectsGitHub` | compass/app/Http/Controllers/IndieAuth.php:138-141 | the identity a GitHub login produces selects the GitHub flow at `start` again, when the login starts with a username character |
| `Controller.IndieAuth.Start` | compass/app/Http/Controllers/IndieAuth.php:16-54 | a falsy normalized URL gives "Invalid URL" with the session unchanged. Otherwise the session becomes the old one merged with the attempt entries, with no key dropped and keys outside the four untouched. The redirect goes to the GitHub authorize URL, or to the built URL at the discovered endpoint (the default only when none was discovered). The table is unchanged |
| `Controller.IndieAuth.Callback` | compass/app/Http/Controllers/IndieAuth.php:56-90 | a failing guard gives its error view and changes nothing. Otherwise it runs exactly the chosen exchange and redirects to `/`. A result with `me` leaves the session exactly {me, user_id} and the table upserted. A result without `me` changes nothing |
| `Controller.IndieAuth.GitHub` | compass/app/Http/Controllers/IndieAuth.php:92-163 | a failing guard gives its error view and changes nothing. Otherwise the token POST carries the client id, secret, code and stored state. A rejected exchange gives its message and changes nothing. A login redirects to `/` with the session exactly {me, user_id} and the table upserted |
| `Controller.IndieAuth.SignIn` | compass/app/Http/Controllers/IndieAuth.php:83-86 | flush, set `me`, record the login. The session is exactly {me, user_id} and the table is the upsert (the same steps at lines 139-142) |
| `Controller.IndieAuth.UserLoggedIn` | compass/app/Http/Controllers/IndieAuth.php:165-180 | the table and next id become those of `Upsert` and `user_id` is bound to its id, other session keys untouched. Ids stay keyed, a url held by at most one row stays so, and a new url's bound id differs from every existing row's id |
| `Controller.IndieAuth.Logout` | compass/app/Http/Controllers/IndieAuth.php:182-185 | the session is empty, the table unchanged, the answer a redirect to `/` |

## Left out

- The `\IndieAuth\Client` library (`normalizeMeURL`, `generateStateParameter`, both
  discovery calls, `buildAuthorizationURL`, `getAccessToken`, `verifyIndieAuthCode`) is not
  part of this model. Its calls are method parameters, so URL validation, state entropy and
  discovery are not modelled.
- HTTP transport and JSON decoding are not modelled. Each GitHub response is a status, a
  raw body and the decoded fields the controller reads. The `Accept` and `Authorization`
  headers are not represented; the user lookup is applied to the access token.
- A user-info body that does not decode is modelled as a missing `login`, which gives
  "Login failed". The controller itself does not reach that message: `property_exists` on
  null raises a warning, and the framework's error handler turns it into an exception
  (PHP 8 throws a TypeError directly). The model does not represent exceptions.
- `env(...)` is a `Config` value. View rendering and `redirect` are the `Response` datatype.
- SQL text and the database driver are not modelled. The table is an in-memory sequence
  in insertion order, with auto-increment ids. A SELECT without ORDER BY is taken to return
  rows in that order. `date('Y-m-d H:i:s')` is the `now` parameter.
- `WHERE url = ?` is modelled as exact string equality. The column's collation is not part
  of this model; a case-insensitive collation would also match case variants of the url.
- Line 174 calls `date()` twice, for `created_at` and `last_login`. The single `now`
  parameter gives both the same time.
- The check-then-insert race between concurrent first logins for one url is not
  modelled. The model is sequential.
- PHP's `false` results and absent request inputs are modelled as the empty string. Inside
  the controller, `false`, null and "" behave alike: every use there tests truthiness or
  compares against a truthy `auth_state`. An absent `me` reaches `normalizeMeURL`, and an
  absent `code` reaches `getAccessToken` or `verifyIndieAuthCode`, both as "". The model
  does not tell them apart from an empty parameter.
- Falsiness of the string "0" and loose `!=` (numeric-string equality) are not modelled.
  The state comparison is string inequality.
- Session values other than strings and the integer user id never occur in this
  controller and are not modelled.
