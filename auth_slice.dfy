/** The session store: the signed-in user, the token and its expiry, kept in memory and in a
    string-keyed persistent store (`localStorage`) under `auth_user`, `auth_token` and
    `auth_expiry`. The clock (`Date.now()`, in milliseconds) is a parameter. */
module AuthSlice {
  import opened JsValues
  import opened Json

  const UserKey: string := "auth_user"
  const TokenKey: string := "auth_token"
  const ExpiryKey: string := "auth_expiry"
  const AuthKeys: set<string> := {UserKey, TokenKey, ExpiryKey}

  /** A session lasts five minutes from the moment the login succeeds. */
  const SessionMillis: int := 300 * 1000

  const LoginFailedMessage: string := "Login failed. Please check your credentials."

  /** `localStorage.getItem(key)`: null when the key is absent. */
  function Get(storage: map<string, string>, key: string): Option<string> {
    if key in storage then Some(storage[key]) else None
  }

  /** `user` and `token` as `getAuthData` hands them to the initial state. */
  datatype Restored = Restored(user: UserValue, token: Option<string>)

  /** What the login thunk returns on success: `{ user: { email }, token, expiry }`. */
  datatype LoginPayload = LoginPayload(user: UserValue, token: string, expiry: int)

  /** The gateway's answer to `POST /login`: a token, or a failure that may carry
      `response.data.error`. */
  datatype LoginResponse = Accepted(token: string) | Refused(serverError: Option<string>)

  /** `Date.now() < expiry` with the stored string converted to a number; NaN compares false. */
  predicate Before(now: int, expiry: JsNumber) {
    expiry.Some? && now < expiry.value
  }

  /** The test of `getAuthData`: a non-empty token, a non-empty expiry, and `now < expiry`. */
  predicate Live(storage: map<string, string>, now: int) {
    var token, expiry := Get(storage, TokenKey), Get(storage, ExpiryKey);
    Truthy(token) && Truthy(expiry) && Before(now, ToNumber(expiry.value))
  }

  /** `clearAuthData` as a function of the stored entries. */
  function Cleared(storage: map<string, string>): map<string, string> {
    storage - AuthKeys
  }

  /** `setAuthData` as a function of the stored entries, in the order the entries are written. */
  function Persisted(storage: map<string, string>, token: string, email: string, expiry: int): map<string, string> {
    storage[UserKey := Stringify(email)][ExpiryKey := NumberToString(expiry)][TokenKey := token]
  }

  /** The entries `getAuthData` leaves behind. */
  function Restorable(storage: map<string, string>, now: int): map<string, string> {
    if Live(storage, now) then storage else Cleared(storage)
  }

  /** What `getAuthData` returns for the stored entries at time `now`. */
  function Restore(storage: map<string, string>, now: int): Restored {
    if Live(storage, now) then Restored(Parse(Get(storage, UserKey)), Get(storage, TokenKey))
    else Restored(Null, None)
  }

  /** The message a failed login reports: the server's `error` when there is one. */
  function LoginErrorMessage(serverError: Option<string>): (m: string)
    ensures m != ""
    ensures Truthy(serverError) ==> m == serverError.value
    ensures !Truthy(serverError) ==> m == LoginFailedMessage
  {
    Or(serverError, LoginFailedMessage)
  }

  /** Clearing touches the three session entries and no other. */
  lemma ClearedKeepsOtherKeys(storage: map<string, string>, key: string)
    requires key !in AuthKeys
    ensures Get(Cleared(storage), key) == Get(storage, key)
    ensures forall k :: k in AuthKeys ==> Get(Cleared(storage), k) == None
  {
  }

  /** Restoring at any time before the expiry set at login gives back the user and the token
      that the login returned; from the expiry on, it gives the logged-out pair. */
  lemma {:induction false} RestoreAfterLogin(storage: map<string, string>, email: string, token: string, loginAt: int, now: int)
    requires token != ""
    ensures var r := Restore(Persisted(storage, token, email, loginAt + SessionMillis), now);
      && (now < loginAt + SessionMillis ==> r == Restored(EmailUser(email), Some(token)))
      && (now >= loginAt + SessionMillis ==> r == Restored(Null, None))
  {
    var s := Persisted(storage, token, email, loginAt + SessionMillis);
    assert Get(s, TokenKey) == Some(token);
    assert Get(s, ExpiryKey) == Some(NumberToString(loginAt + SessionMillis));
    assert Get(s, UserKey) == Some(Stringify(email));
    ToNumberOfString(loginAt + SessionMillis);
    ParseStringify(email);
  }

  /** Restoring is idempotent: the entries it leaves restore to the same pair. */
  lemma RestoreIdempotent(storage: map<string, string>, now: int)
    ensures Restore(Restorable(storage, now), now) == Restore(storage, now)
  {
    if !Live(storage, now) {
      assert Get(Cleared(storage), TokenKey) == None;
    }
  }

  class Session {
    var storage: map<string, string>
    var user: UserValue
    var token: Option<string>
    var expiry: JsNumber
    var loading: bool
    var error: Option<string>

    /** The slice as the program starts it: `getAuthData()` against the stored entries, and
        an initial state with no `expiry` field at all. */
    constructor (stored: map<string, string>, now: int)
      ensures Restored(user, token) == Restore(stored, now)
      ensures storage == Restorable(stored, now)
      ensures expiry == None && !loading && error == None
    {
      storage := stored;
      user := Null;
      token := None;
      expiry := None;
      loading := false;
      error := None;
      new;
      var r := GetAuthData(now);
      user := r.user;
      token := r.token;
    }

    /** `setAuthData` */
    method SetAuthData(newToken: string, email: string, newExpiry: int)
      modifies this`storage
      ensures storage == Persisted(old(storage), newToken, email, newExpiry)
    {
      storage := storage[UserKey := Stringify(email)];
      storage := storage[ExpiryKey := NumberToString(newExpiry)];
      storage := storage[TokenKey := newToken];
    }

    /** `clearAuthData`: the three session entries go, every other entry stays. */
    method ClearAuthData()
      modifies this`storage
      ensures storage == Cleared(old(storage))
    {
      storage := storage - {UserKey};
      storage := storage - {TokenKey};
      storage := storage - {ExpiryKey};
    }

    /** `getAuthData`: the stored pair while the session is live; otherwise the entries are
        cleared and the pair is null. */
    method GetAuthData(now: int) returns (r: Restored)
      modifies this`storage
      ensures r == Restore(old(storage), now)
      ensures storage == Restorable(old(storage), now)
    {
      var storedUser := Parse(Get(storage, UserKey));
      var storedToken := Get(storage, TokenKey);
      var storedExpiry := Get(storage, ExpiryKey);
      if Truthy(storedToken) && Truthy(storedExpiry) && Before(now, ToNumber(storedExpiry.value)) {
        return Restored(storedUser, storedToken);
      }
      ClearAuthData();
      r := Restored(Null, None);
    }

    /** The success path of the login thunk: the expiry is five minutes from now and the three
        entries are written together. */
    method LoginSucceeded(email: string, newToken: string, now: int) returns (payload: LoginPayload)
      modifies this`storage
      ensures payload == LoginPayload(EmailUser(email), newToken, now + SessionMillis)
      ensures storage == Persisted(old(storage), newToken, email, now + SessionMillis)
    {
      var expiryTime := now + SessionMillis;
      SetAuthData(newToken, email, expiryTime);
      payload := LoginPayload(EmailUser(email), newToken, expiryTime);
    }

    method LoginPending()
      modifies this`loading, this`error
      ensures loading && error == None
    {
      loading := true;
      error := None;
    }

    method LoginFulfilled(payload: LoginPayload)
      modifies this`loading, this`user, this`token, this`expiry
      ensures !loading
      ensures user == payload.user && token == Some(payload.token) && expiry == Some(payload.expiry)
    {
      loading := false;
      user := payload.user;
      token := Some(payload.token);
      expiry := Some(payload.expiry);
    }

    /** A rejected login records its message and clears every persisted session entry. */
    method LoginRejected(message: string)
      modifies this`loading, this`error, this`storage
      ensures !loading && error == Some(message)
      ensures storage == Cleared(old(storage))
    {
      loading := false;
      error := Some(message);
      ClearAuthData();
    }

    /** A whole login: pending, the thunk's body on the gateway's answer, then fulfilled or
        rejected. */
    method LoginUser(email: string, response: LoginResponse, now: int)
      modifies this
      ensures response.Accepted? ==>
        && user == EmailUser(email) && token == Some(response.token)
        && expiry == Some(now + SessionMillis)
        && storage == Persisted(old(storage), response.token, email, now + SessionMillis)
        && !loading && error == None
      ensures response.Refused? ==>
        && user == old(user) && token == old(token) && expiry == old(expiry)
        && storage == Cleared(old(storage))
        && !loading && error == Some(LoginErrorMessage(response.serverError))
    {
      LoginPending();
      match response {
        case Accepted(t) =>
          var payload := LoginSucceeded(email, t, now);
          LoginFulfilled(payload);
        case Refused(serverError) =>
          LoginRejected(LoginErrorMessage(serverError));
      }
    }

    /** `logout`: user and token become null and the entries are cleared; `expiry`,
        `loading` and `error` are left as they are. Logging out twice is logging out once. */
    method Logout()
      modifies this`user, this`token, this`storage
      ensures user == Null && token == None
      ensures storage == Cleared(old(storage))
      ensures old(user) == Null && old(token) == None && old(storage).Keys !! AuthKeys ==>
        storage == old(storage)
    {
      user := Null;
      token := None;
      ClearAuthData();
    }
  }

  /** Log in, then start afresh before the five minutes are up: the same user and token come
      back, with no `expiry` in the new state. */
  method LoginThenReloadScenario(stored: map<string, string>, email: string, token: string, now: int, later: int)
    requires token != "" && later < now + SessionMillis
  {
    var session := new Session(stored, now);
    session.LoginUser(email, Accepted(token), now);
    var persisted := session.storage;
    RestoreAfterLogin(Restorable(stored, now), email, token, now, later);
    var reloaded := new Session(persisted, later);
    assert reloaded.user == EmailUser(email) && reloaded.token == Some(token);
    assert reloaded.expiry == None;
  }
}
