/** The expiry gate component: with no token it redirects to /login; with a token whose
    expiry has passed it logs out and redirects; otherwise it renders its children. No route
    of the program uses it; the routes are guarded by `user` alone. */
module ProtectedRoute {
  import opened JsValues
  import opened AuthSlice

  datatype Decision = Redirect | LogoutAndRedirect | Render

  /** `expiry || parseInt(localStorage.getItem("auth_expiry"), 10)`: the state's expiry
      unless it is missing, NaN or 0, in which case the stored entry is parsed. */
  function TokenExpiry(stateExpiry: JsNumber, storedExpiry: Option<string>): JsNumber {
    if TruthyNumber(stateExpiry) then stateExpiry else ParseIntOrNaN(storedExpiry)
  }

  /** The decision for the token and expiry in the state, the stored expiry entry and the clock. */
  function Decide(token: Option<string>, stateExpiry: JsNumber, storedExpiry: Option<string>, now: int): (d: Decision)
    ensures d == Redirect <==> !Truthy(token)
    ensures d == LogoutAndRedirect ==>
      TruthyNumber(TokenExpiry(stateExpiry, storedExpiry)) && now > TokenExpiry(stateExpiry, storedExpiry).value
    ensures d == Render ==>
      (!TruthyNumber(TokenExpiry(stateExpiry, storedExpiry)) || now <= TokenExpiry(stateExpiry, storedExpiry).value)
  {
    var tokenExpiry := TokenExpiry(stateExpiry, storedExpiry);
    if !Truthy(token) then Redirect
    else if TruthyNumber(tokenExpiry) && now > tokenExpiry.value then LogoutAndRedirect
    else Render
  }

  /** With a token, the moment of expiry itself still renders; only a later moment logs out. */
  lemma RenderUntilExpiry(token: string, expiry: int, storedExpiry: Option<string>, now: int)
    requires token != "" && expiry != 0
    ensures now <= expiry ==> Decide(Some(token), Some(expiry), storedExpiry, now) == Render
    ensures now > expiry ==> Decide(Some(token), Some(expiry), storedExpiry, now) == LogoutAndRedirect
  {
  }

  /** With a token but no usable expiry anywhere (missing, unparseable or zero), the gate renders. */
  lemma RenderWithoutExpiry(token: string, stateExpiry: JsNumber, storedExpiry: Option<string>, now: int)
    requires token != ""
    requires !TruthyNumber(stateExpiry) && !TruthyNumber(ParseIntOrNaN(storedExpiry))
    ensures Decide(Some(token), stateExpiry, storedExpiry, now) == Render
  {
  }

  /** After a reload the state has a token but no expiry; the gate then reads the expiry that
      the login stored, and logs out exactly when the clock has passed it. */
  lemma {:induction false} GateAfterReload(storage: map<string, string>, email: string, token: string, loginAt: int, now: int)
    requires token != "" && loginAt + SessionMillis != 0
    ensures var stored := Get(Persisted(storage, token, email, loginAt + SessionMillis), ExpiryKey);
      && (now > loginAt + SessionMillis <==> Decide(Some(token), None, stored, now) == LogoutAndRedirect)
      && (now <= loginAt + SessionMillis <==> Decide(Some(token), None, stored, now) == Render)
  {
    ParseIntOfString(loginAt + SessionMillis);
  }

  /** Restoring and the gate disagree at the instant of expiry: restoring already treats the
      session as over (`now < expiry` fails) while the gate still renders (`now > expiry` fails). */
  lemma {:induction false} ExpiryInstantDisagreement(storage: map<string, string>, email: string, token: string, loginAt: int)
    requires token != "" && loginAt + SessionMillis != 0
    ensures var expiry := loginAt + SessionMillis;
      var persisted := Persisted(storage, token, email, expiry);
      && Restore(persisted, expiry) == Restored(Json.Null, None)
      && Decide(Some(token), None, Get(persisted, ExpiryKey), expiry) == Render
  {
    RestoreAfterLogin(storage, email, token, loginAt, loginAt + SessionMillis);
    GateAfterReload(storage, email, token, loginAt, loginAt + SessionMillis);
  }

  /** The component: decide from the session, and log out in the expired branch. */
  method Guard(session: Session, now: int) returns (d: Decision)
    modifies session`user, session`token, session`storage
    ensures d == Decide(old(session.token), session.expiry, Get(old(session.storage), ExpiryKey), now)
    ensures d == LogoutAndRedirect ==>
      session.user == Json.Null && session.token == None && session.storage == Cleared(old(session.storage))
    ensures d != LogoutAndRedirect ==>
      (session.user == old(session.user) && session.token == old(session.token)
       && session.storage == old(session.storage))
  {
    d := Decide(session.token, session.expiry, Get(session.storage, ExpiryKey), now);
    if d == LogoutAndRedirect {
      session.Logout();
    }
  }
}
