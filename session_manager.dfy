/** The session life cycle (src/infrastructure/security/SessionManager.ts):
  * a token and user id in the credential store, an expiry 24 hours ahead,
  * and at most one renewal timer. The authentication provider is a value
  * describing what it answers; the clock is `now` in epoch milliseconds. */
module SessionManager {
  import opened Wrappers
  import Numbers
  import opened SecureStorage

  const TOKEN_REFRESH_INTERVAL: int := 50 * 60 * 1000
  const SESSION_DURATION: int := 24 * 60 * 60 * 1000

  /** What the authentication provider does when asked: whether a user is
    * signed in, whether reading that user's profile throws, and the id token
    * it hands out (`None` when obtaining one fails). */
  datatype Provider = Provider(signedIn: bool, profileFails: bool, idToken: Option<string>)

  /** Why `validateSession` answered as it did. */
  datatype Validation = NoToken | Expired | NoUser | ProfileError | Valid

  predicate Falsy(s: Option<string>)
  {
    s.None? || s.value == ""
  }

  /** The outcome of `validateSession` on a store and provider. */
  function Validate(items: Items, failingKeys: set<string>, auth: Provider, now: int): Validation
  {
    if Falsy(Get(items, failingKeys, TOKEN_KEY)) then NoToken
    else if !SessionValid(items, failingKeys, now) then Expired
    else if !auth.signedIn then NoUser
    else if auth.profileFails then ProfileError
    else Valid
  }

  /** Only an expired session or a missing user clears the session; a
    * failure to read the profile answers false and keeps everything. */
  predicate Clears(v: Validation)
  {
    v == Expired || v == NoUser
  }

  /** The token `refreshToken` returns: `None` when there is no user, the
    * profile read throws, no token is obtained, or storing it fails. */
  function Renewed(failingKeys: set<string>, auth: Provider): Option<string>
  {
    if auth.signedIn && !auth.profileFails && !Falsy(auth.idToken) && TOKEN_KEY !in failingKeys
    then auth.idToken else None
  }

  /** The store after a successful renewal at `now`. */
  function RenewedItems(items: Items, failingKeys: set<string>, token: string, now: int): Items
  {
    Put(Put(items, failingKeys, TOKEN_KEY, token), failingKeys, SESSION_EXPIRY_KEY, Numbers.IntToString(now + SESSION_DURATION))
  }

  /** The store after `initializeSession` at `now` when neither write fails. */
  function InitialItems(items: Items, failingKeys: set<string>, token: string, userId: string, now: int): Items
  {
    Put(Put(Put(items, failingKeys, TOKEN_KEY, token), failingKeys, USER_ID_KEY, userId),
        failingKeys, SESSION_EXPIRY_KEY, Numbers.IntToString(now + SESSION_DURATION))
  }

  /** A session initialised at `now` validates for the next 24 hours and
    * not afterwards, as long as the provider keeps the user. */
  lemma {:induction false} InitializedSessionValid(items: Items, failingKeys: set<string>, token: string, userId: string, now: int, later: int, auth: Provider)
    requires failingKeys !! AUTH_KEYS && token != "" && now >= 0
    requires auth.signedIn && !auth.profileFails
    ensures Validate(InitialItems(items, failingKeys, token, userId, now), failingKeys, auth, later) == Valid
            <==> later < now + SESSION_DURATION
  {
    var st := Put(Put(items, failingKeys, TOKEN_KEY, token), failingKeys, USER_ID_KEY, userId);
    ValidUntilExpiry(st, failingKeys, now + SESSION_DURATION, later);
  }

  /** A renewal at `now` extends validity to `now + 24h` and stores the new
    * token. */
  lemma {:induction false} RenewalExtends(items: Items, failingKeys: set<string>, auth: Provider, now: int, later: int)
    requires failingKeys !! AUTH_KEYS && now >= 0 && Renewed(failingKeys, auth).Some?
    ensures Get(RenewedItems(items, failingKeys, Renewed(failingKeys, auth).value, now), failingKeys, TOKEN_KEY) == Renewed(failingKeys, auth)
    ensures SessionValid(RenewedItems(items, failingKeys, Renewed(failingKeys, auth).value, now), failingKeys, later)
            <==> later < now + SESSION_DURATION
  {
    var st := Put(items, failingKeys, TOKEN_KEY, Renewed(failingKeys, auth).value);
    ValidUntilExpiry(st, failingKeys, now + SESSION_DURATION, later);
  }

  /** A cleared session never validates again until a new token is stored. */
  lemma {:induction false} ClearedSessionInvalid(items: Items, failingKeys: set<string>, auth: Provider, now: int)
    requires failingKeys !! AUTH_KEYS
    ensures Validate(WithoutAuth(items, failingKeys), failingKeys, auth, now) == NoToken
  {
    ClearedAuth(items, failingKeys, TOKEN_KEY);
  }

  class SessionManager {
    const store: SecureStore
    /** The renewal timer, by handle; at most one exists. */
    var timer: Option<nat>
    /** Handles handed out so far. */
    var issued: nat

    constructor (store: SecureStore)
      ensures this.store == store && timer == None && issued == 0
    {
      this.store := store;
      timer := None;
      issued := 0;
    }

    /** Any previous timer is cancelled and replaced by a new one. */
    method StartTokenRefresh()
      modifies this
      ensures timer == Some(old(issued)) && issued == old(issued) + 1
    {
      timer := Some(issued);
      issued := issued + 1;
    }

    method StopTokenRefresh()
      modifies this
      ensures timer == None && issued == old(issued)
    {
      timer := None;
    }

    method ClearSession()
      modifies this, store
      ensures timer == None && issued == old(issued)
      ensures store.items == WithoutAuth(old(store.items), store.failingKeys)
    {
      StopTokenRefresh();
      store.ClearAuthData();
    }

    /** A failed token or user id write propagates and starts no timer; the
      * expiry write never fails the call. */
    method InitializeSession(token: string, userId: string, now: int) returns (r: Result<()>)
      modifies this, store
      ensures var fk := store.failingKeys;
              if TOKEN_KEY in fk then
                r == Err(TOKEN_ERROR) && store.items == old(store.items) && timer == old(timer)
              else if USER_ID_KEY in fk then
                r == Err(USER_ID_ERROR) && store.items == Put(old(store.items), fk, TOKEN_KEY, token) && timer == old(timer)
              else
                r == Ok(()) && store.items == InitialItems(old(store.items), fk, token, userId, now)
                && timer == Some(old(issued))
    {
      r := store.SetToken(token);
      if r.Err? {
        return;
      }
      r := store.SetUserId(userId);
      if r.Err? {
        return;
      }
      store.SetSessionExpiry(now + SESSION_DURATION);
      StartTokenRefresh();
    }

    method ValidateSession(now: int, auth: Provider) returns (b: bool)
      modifies this, store
      ensures var v := Validate(old(store.items), store.failingKeys, auth, now);
              b == (v == Valid)
              && if Clears(v) then store.items == WithoutAuth(old(store.items), store.failingKeys) && timer == None
                 else store.items == old(store.items) && timer == old(timer)
      ensures issued == old(issued)
    {
      var token := store.GetToken();
      if token.None? || token.value == "" {
        return false;
      }
      var isValid := store.IsSessionValid(now);
      if !isValid {
        ClearSession();
        return false;
      }
      if !auth.signedIn {
        ClearSession();
        return false;
      }
      if auth.profileFails {
        return false;
      }
      b := true;
    }

    /** On success the new token is stored and the expiry moves to
      * `now + 24h`; on every failure the session is cleared. */
    method RefreshToken(now: int, auth: Provider) returns (r: Option<string>)
      modifies this, store
      ensures r == Renewed(store.failingKeys, auth)
      ensures r.Some? ==> store.items == RenewedItems(old(store.items), store.failingKeys, r.value, now) && timer == old(timer)
      ensures r.None? ==> store.items == WithoutAuth(old(store.items), store.failingKeys) && timer == None
      ensures issued == old(issued)
    {
      if !auth.signedIn || auth.profileFails {
        ClearSession();
        return None;
      }
      var newToken := auth.idToken;
      if newToken.None? || newToken.value == "" {
        ClearSession();
        return None;
      }
      var stored := store.SetToken(newToken.value);
      if stored.Err? {
        ClearSession();
        return None;
      }
      store.SetSessionExpiry(now + SESSION_DURATION);
      r := newToken;
    }

    /** One firing of the renewal timer: renew when the session validates,
      * otherwise stop the timer. */
    method Tick(now: int, auth: Provider)
      modifies this, store
      ensures var v := Validate(old(store.items), store.failingKeys, auth, now);
              if v == Valid then
                var t := Renewed(store.failingKeys, auth);
                if t.Some? then store.items == RenewedItems(old(store.items), store.failingKeys, t.value, now) && timer == old(timer)
                else store.items == WithoutAuth(old(store.items), store.failingKeys) && timer == None
              else
                timer == None
                && store.items == if Clears(v) then WithoutAuth(old(store.items), store.failingKeys) else old(store.items)
    {
      var isValid := ValidateSession(now, auth);
      if isValid {
        var _ := RefreshToken(now, auth);
      } else {
        StopTokenRefresh();
      }
    }

    /** A token is handed out only by a session that validates. */
    method GetValidToken(now: int, auth: Provider) returns (r: Option<string>)
      modifies this, store
      ensures var v := Validate(old(store.items), store.failingKeys, auth, now);
              r == (if v == Valid then Get(old(store.items), store.failingKeys, TOKEN_KEY) else None)
              && (r.Some? ==> r.value != "")
              && if Clears(v) then store.items == WithoutAuth(old(store.items), store.failingKeys) && timer == None
                 else store.items == old(store.items) && timer == old(timer)
    {
      var isValid := ValidateSession(now, auth);
      if !isValid {
        return None;
      }
      r := store.GetToken();
    }

    method GetCurrentUserId() returns (r: Option<string>)
      ensures r == Get(store.items, store.failingKeys, USER_ID_KEY)
    {
      r := store.GetUserId();
    }
  }
}
