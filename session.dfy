/** The per-browser session store the controller reads and writes. */
module Session {

  /** A value held in the session: the controller stores strings (the state
      token, profile URLs, endpoints) and the numeric user id. */
  datatype Value = Str(s: string) | Int(n: int)

  type Store = map<string, Value>

  const AUTH_STATE := "auth_state"
  const ATTEMPTED_ME := "attempted_me"
  const AUTHORIZATION_ENDPOINT := "authorization_endpoint"
  const TOKEN_ENDPOINT := "token_endpoint"
  const ME := "me"
  const USER_ID := "user_id"

  /** PHP truthiness of a stored value (the string "0" is not singled out). */
  predicate Truthy(v: Value)
  {
    match v
    case Str(s) => s != ""
    case Int(n) => n != 0
  }

  /** `session(key)` is truthy: the key is present and holds a truthy value. */
  predicate IsSet(session: Store, key: string)
  {
    key in session && Truthy(session[key])
  }

  /** The string stored under `key`; "" stands for PHP's null when it is absent. */
  function Text(session: Store, key: string): string
  {
    if key in session && session[key].Str? then session[key].s else ""
  }
}
