/**
 * The session controller of src/stores/auth.ts: the access token and its
 * mirror in local storage, the current user, the `loading` and `ready`
 * flags, the one armed proactive-refresh timer and the one in-flight
 * refresh.
 *
 * Asynchrony is made explicit. A network call is recorded in `calls` and
 * its outcome is a parameter of the method that awaits it. The shared
 * refresh promise is the state machine `Idle | Pending(handle)`:
 * `RefreshAccessToken` starts or joins it, `SettleRefresh` settles it, and
 * every caller holding a handle reads the one outcome recorded in
 * `settled`. Timers are numbered; a timer that was cancelled never fires,
 * which `FireTimer` models as a no-op for any number but the armed one.
 */
module Auth {
  import opened Js
  import TokenCodec

  const ACCESS_TOKEN_KEY: string := "gsor.access_token"

  const LOGIN_SUCCEEDED: string := "登录成功"
  const LOGIN_FAILED: string := "登录失败，请检查账号和密码"
  const LOGOUT_FAILED: string := "登出失败，请重试"
  const LOGGED_OUT: string := "已退出登录"
  const CHANGE_PASSWORD_FAILED: string := "修改密码失败"

  /** AuthUser: the profile returned by the current-user endpoint. */
  datatype AuthUser = AuthUser(sub: string, role: Option<string>)

  /** The endpoints of the authentication API client. */
  datatype Endpoint = LoginCall | RefreshCall | MeCall | LogoutCall | ChangePasswordCall

  /** A message shown through the global feedback channel. */
  datatype Notice = Success(text: string) | Failure(text: string)

  /** A rejected promise's error; `message` may be missing. */
  datatype Error = Error(message: Option<string>)

  /** The settled value of an awaited network call. */
  datatype Outcome<T> = Ok(value: T) | Err(error: Error)

  /** An armed one-shot timer: its number and its delay in milliseconds. */
  datatype Timer = Timer(id: nat, delay: nat)

  /** The shared refresh promise. */
  datatype RefreshState = Idle | Pending(handle: nat)

  /** How a refresh promise settled: resolved with a token, or rejected. */
  datatype Settled = Resolved(token: string) | Rejected(error: Error)

  /** persistToken: the storage after mirroring `token` into it. */
  function Persisted(storage: map<string, string>, token: Option<string>): (r: map<string, string>)
    ensures Present(token) ==> ACCESS_TOKEN_KEY in r && r[ACCESS_TOKEN_KEY] == token.value
    ensures !Present(token) ==> ACCESS_TOKEN_KEY !in r
  {
    if Present(token) then storage[ACCESS_TOKEN_KEY := token.value] else storage - {ACCESS_TOKEN_KEY}
  }

  /** readStoredToken */
  function StoredToken(storage: map<string, string>): Option<string> {
    if ACCESS_TOKEN_KEY in storage then Some(storage[ACCESS_TOKEN_KEY]) else None
  }

  /**
   * Reading back what was persisted gives the token, up to the falsy empty
   * string, and no other storage key is touched.
   */
  lemma PersistRoundTrip(storage: map<string, string>, token: Option<string>)
    ensures Present(token) ==> StoredToken(Persisted(storage, token)) == token
    ensures !Present(token) ==> StoredToken(Persisted(storage, token)) == None
    ensures forall k | k != ACCESS_TOKEN_KEY ::
      (k in Persisted(storage, token) <==> k in storage)
      && (k in storage ==> Persisted(storage, token)[k] == storage[k])
  {
  }

  class AuthStore {
    var accessToken: Option<string>
    var user: Option<AuthUser>
    var loading: bool
    var ready: bool
    /** The browser's local storage. */
    var storage: map<string, string>
    var timer: Option<Timer>
    var nextTimerId: nat
    var refresh: RefreshState
    var nextHandle: nat
    /** The outcome each settled refresh promise settled with, by handle. */
    var settled: seq<Settled>
    /** Network requests issued, in order. */
    var calls: seq<Endpoint>
    /** Messages shown to the user, in order. */
    var notices: seq<Notice>
    /** Whether the runtime provides `atob`. */
    const atobAvailable: bool
    /** `JSON.parse(atob(text))` */
    const decode: string -> TokenCodec.Decoded

    /**
     * The store's invariant: the storage key mirrors the token, the armed
     * timer is the latest one numbered, and every refresh promise ever
     * created is either the pending one (the newest) or settled.
     */
    ghost predicate Valid()
      reads this
    {
      && (if ACCESS_TOKEN_KEY in storage then accessToken == Some(storage[ACCESS_TOKEN_KEY])
          else !Present(accessToken))
      && (timer.Some? ==> timer.value.id < nextTimerId)
      && (refresh.Pending? ==> refresh.handle + 1 == nextHandle)
      && |settled| + (if refresh.Pending? then 1 else 0) == nextHandle
    }

    /** isAuthenticated */
    predicate IsAuthenticated()
      reads this
      ensures IsAuthenticated() <==> accessToken.Some? && |accessToken.value| > 0
    {
      Present(accessToken)
    }

    /**
     * The timer that scheduling for `token` at time `now` arms under number
     * `id`, if any.
     */
    function ArmedTimer(id: nat, token: Option<string>, now: int): Option<Timer> {
      var d := TokenCodec.ArmedDelay(token, now, atobAvailable, decode);
      if d.Some? then Some(Timer(id, d.value)) else None
    }

    /** The store as created at start-up: the token is read back from storage. */
    constructor (stored: map<string, string>, atobAvailable: bool, decode: string -> TokenCodec.Decoded)
      ensures Valid()
      ensures accessToken == StoredToken(stored) && storage == stored
      ensures user == None && !loading && !ready
      ensures timer == None && refresh == Idle && settled == []
      ensures calls == [] && notices == []
      ensures this.atobAvailable == atobAvailable && this.decode == decode
    {
      accessToken := StoredToken(stored);
      storage := stored;
      user := None;
      loading, ready := false, false;
      timer, nextTimerId := None, 0;
      refresh, nextHandle, settled := Idle, 0, [];
      calls, notices := [], [];
      this.atobAvailable := atobAvailable;
      this.decode := decode;
    }

    /** cancelScheduledRefresh */
    method CancelScheduledRefresh()
      modifies this`timer
      ensures timer == None
    {
      if timer.Some? {
        timer := None;
      }
    }

    /**
     * scheduleAccessTokenRefresh: cancels the armed timer, then arms a new one
     * exactly when the token is present and carries a non-zero expiry.
     */
    method ScheduleAccessTokenRefresh(token: Option<string>, now: int)
      modifies this`timer, this`nextTimerId
      ensures timer == ArmedTimer(old(nextTimerId), token, now)
      ensures nextTimerId == old(nextTimerId) + (if timer.Some? then 1 else 0)
    {
      CancelScheduledRefresh();
      if !Present(token) {
        return;
      }
      var expiresAt := TokenCodec.GetTokenExpiresAt(token.value, atobAvailable, decode);
      if expiresAt.None? || expiresAt.value == 0 {
        return;
      }
      var ttl := expiresAt.value - now;
      if ttl <= 0 {
        timer := Some(Timer(nextTimerId, 0));
        nextTimerId := nextTimerId + 1;
        return;
      }
      var leadTime := if ttl > TokenCodec.REFRESH_MARGIN_MS then TokenCodec.REFRESH_MARGIN_MS
                      else TokenCodec.Max(ttl / 2, TokenCodec.MIN_LEAD_MS);
      var delay := TokenCodec.Max(ttl - leadTime, 0);
      timer := Some(Timer(nextTimerId, delay));
      nextTimerId := nextTimerId + 1;
    }

    /** setToken: store, persist and reschedule. */
    method SetToken(token: Option<string>, now: int)
      requires Valid()
      modifies this`accessToken, this`storage, this`timer, this`nextTimerId
      ensures Valid()
      ensures accessToken == token
      ensures storage == Persisted(old(storage), token)
      ensures timer == ArmedTimer(old(nextTimerId), token, now)
      ensures nextTimerId == old(nextTimerId) + (if timer.Some? then 1 else 0)
    {
      accessToken := token;
      storage := Persisted(storage, token);
      ScheduleAccessTokenRefresh(token, now);
    }

    /**
     * clearAuthState: no token, no stored token, no timer, no user. The new
     * state does not depend on the old token, user or timer, so clearing twice
     * is clearing once.
     */
    method ClearAuthState()
      requires Valid()
      modifies this`accessToken, this`storage, this`timer, this`nextTimerId, this`user
      ensures Valid()
      ensures accessToken == None && user == None && timer == None
      ensures storage == old(storage) - {ACCESS_TOKEN_KEY}
      ensures nextTimerId == old(nextTimerId)
    {
      // The clock is not read when the token is null.
      SetToken(None, 0);
      user := None;
    }

    /** fetchMe: requests the profile and, when it arrives, makes it the current user. */
    method FetchMe(me: Outcome<AuthUser>) returns (r: Outcome<AuthUser>)
      requires Valid()
      modifies this`calls, this`user
      ensures Valid()
      ensures r == me && calls == old(calls) + [MeCall]
      ensures user == if me.Ok? then Some(me.value) else old(user)
    {
      calls := calls + [MeCall];
      r := me;
      if me.Ok? {
        user := Some(me.value);
      }
    }

    /**
     * initialize: a no-op once ready; otherwise, when a token is present, arms
     * the timer and fetches the profile, clearing the session if that fails;
     * ends ready.
     */
    method Initialize(now: int, me: Outcome<AuthUser>)
      requires Valid()
      modifies this`accessToken, this`storage, this`timer, this`nextTimerId, this`user, this`calls, this`ready
      ensures Valid() && ready
      ensures old(ready) ==> unchanged(this)
      ensures !old(ready) && !Present(old(accessToken)) ==>
        calls == old(calls) && accessToken == old(accessToken) && user == old(user) && timer == old(timer)
        && storage == old(storage) && nextTimerId == old(nextTimerId)
      ensures !old(ready) && Present(old(accessToken)) ==> calls == old(calls) + [MeCall]
      ensures !old(ready) && Present(old(accessToken)) && me.Ok? ==>
        user == Some(me.value) && accessToken == old(accessToken) && storage == old(storage)
        && timer == ArmedTimer(old(nextTimerId), old(accessToken), now)
      ensures !old(ready) && Present(old(accessToken)) && me.Err? ==>
        accessToken == None && user == None && timer == None && storage == old(storage) - {ACCESS_TOKEN_KEY}
    {
      if ready {
        return;
      }
      if Present(accessToken) {
        ScheduleAccessTokenRefresh(accessToken, now);
        var fetched := FetchMe(me);
        if fetched.Err? {
          ClearAuthState();
        }
      }
      ready := true;
    }

    /**
     * login: requests a token, stores it, fetches the profile and reports
     * success; a failure of either request is reported and rethrown. A token
     * obtained before a failed profile fetch stays stored.
     */
    method Login(now: int, loginResult: Outcome<string>, me: Outcome<AuthUser>) returns (r: Outcome<Option<AuthUser>>)
      requires Valid()
      modifies this`loading, this`accessToken, this`storage, this`timer, this`nextTimerId, this`user, this`calls, this`notices
      ensures Valid() && !loading
      ensures loginResult.Err? ==>
        r == Err(loginResult.error) && calls == old(calls) + [LoginCall]
        && notices == old(notices) + [Failure(LOGIN_FAILED)]
        && accessToken == old(accessToken) && user == old(user) && storage == old(storage)
        && timer == old(timer) && nextTimerId == old(nextTimerId)
      ensures loginResult.Ok? ==>
        accessToken == Some(loginResult.value) && storage == Persisted(old(storage), accessToken)
        && timer == ArmedTimer(old(nextTimerId), accessToken, now)
        && nextTimerId == old(nextTimerId) + (if timer.Some? then 1 else 0)
        && calls == old(calls) + [LoginCall, MeCall]
      ensures loginResult.Ok? && me.Err? ==>
        r == Err(me.error) && notices == old(notices) + [Failure(LOGIN_FAILED)] && user == old(user)
      ensures loginResult.Ok? && me.Ok? ==>
        r == Ok(Some(me.value)) && user == Some(me.value) && notices == old(notices) + [Success(LOGIN_SUCCEEDED)]
    {
      loading := true;
      calls := calls + [LoginCall];
      if loginResult.Err? {
        notices := notices + [Failure(LOGIN_FAILED)];
        r := Err(loginResult.error);
      } else {
        SetToken(Some(loginResult.value), now);
        var fetched := FetchMe(me);
        if fetched.Err? {
          notices := notices + [Failure(LOGIN_FAILED)];
          r := Err(fetched.error);
        } else {
          notices := notices + [Success(LOGIN_SUCCEEDED)];
          r := Ok(user);
        }
      }
      loading := false;
    }

    /**
     * refreshAccessToken: while a refresh is pending, returns its handle and
     * issues no request; otherwise issues exactly one refresh request and
     * makes its promise the pending one.
     */
    method RefreshAccessToken() returns (handle: nat)
      requires Valid()
      modifies this`refresh, this`nextHandle, this`calls
      ensures Valid()
      ensures refresh == Pending(handle)
      ensures old(refresh).Pending? ==>
        handle == old(refresh).handle && calls == old(calls) && nextHandle == old(nextHandle)
      ensures old(refresh).Idle? ==>
        handle == old(nextHandle) && handle == |settled| && calls == old(calls) + [RefreshCall]
        && nextHandle == old(nextHandle) + 1
    {
      if refresh.Pending? {
        return refresh.handle;
      }
      handle := nextHandle;
      calls := calls + [RefreshCall];
      nextHandle := nextHandle + 1;
      refresh := Pending(handle);
    }

    /**
     * The pending refresh settles: a new token is stored, a failure clears the
     * session; either way the in-flight marker is cleared and the outcome is
     * recorded for every caller holding the handle.
     */
    method SettleRefresh(result: Outcome<string>, now: int) returns (s: Settled)
      requires Valid() && refresh.Pending?
      modifies this`accessToken, this`storage, this`timer, this`nextTimerId, this`user, this`refresh, this`settled
      ensures Valid()
      ensures refresh == Idle
      ensures settled == old(settled) + [s] && |old(settled)| == old(refresh).handle
      ensures result.Ok? ==> (s == Resolved(result.value) && accessToken == Some(result.value)
        && storage == Persisted(old(storage), accessToken) && user == old(user)
        && timer == ArmedTimer(old(nextTimerId), accessToken, now)
        && nextTimerId == old(nextTimerId) + (if timer.Some? then 1 else 0))
      ensures result.Err? ==> (s == Rejected(result.error) && accessToken == None && user == None
        && timer == None && storage == old(storage) - {ACCESS_TOKEN_KEY} && nextTimerId == old(nextTimerId))
      ensures calls == old(calls) && notices == old(notices) && nextHandle == old(nextHandle)
      ensures ready == old(ready) && loading == old(loading)
    {
      var h := refresh.handle;
      match result {
        case Ok(token) =>
          SetToken(Some(token), now);
          s := Resolved(token);
        case Err(e) =>
          ClearAuthState();
          s := Rejected(e);
      }
      refresh := Idle;
      settled := settled + [s];
    }

    /**
     * The callback of the armed timer: only the armed timer can fire; it
     * disarms itself and starts (or joins) a refresh, whose rejection is
     * swallowed.
     */
    method FireTimer(id: nat)
      requires Valid()
      modifies this`timer, this`refresh, this`nextHandle, this`calls
      ensures Valid()
      ensures old(timer).Some? && old(timer).value.id == id ==>
        timer == None
        && refresh == (if old(refresh).Idle? then Pending(old(nextHandle)) else old(refresh))
        && calls == old(calls) + (if old(refresh).Idle? then [RefreshCall] else [])
      ensures !(old(timer).Some? && old(timer).value.id == id) ==> unchanged(this)
      ensures accessToken == old(accessToken) && user == old(user) && notices == old(notices)
      ensures storage == old(storage) && ready == old(ready) && loading == old(loading)
      ensures settled == old(settled) && nextTimerId == old(nextTimerId)
    {
      if timer.Some? && timer.value.id == id {
        timer := None;
        var _ := RefreshAccessToken();
      }
    }

    /**
     * logout: best-effort request, then the session is always cleared; errors
     * and success are reported unless silent.
     */
    method Logout(silent: bool, logoutOk: bool)
      requires Valid()
      modifies this
      ensures Valid()
      ensures accessToken == None && user == None && timer == None
      ensures storage == old(storage) - {ACCESS_TOKEN_KEY}
      ensures calls == old(calls) + [LogoutCall]
      ensures notices == old(notices)
        + (if !logoutOk && !silent then [Failure(LOGOUT_FAILED)] else [])
        + (if !silent then [Success(LOGGED_OUT)] else [])
      ensures ready == old(ready) && loading == old(loading) && refresh == old(refresh) && settled == old(settled)
      ensures nextHandle == old(nextHandle) && nextTimerId == old(nextTimerId)
    {
      calls := calls + [LogoutCall];
      if !logoutOk && !silent {
        notices := notices + [Failure(LOGOUT_FAILED)];
      }
      ClearAuthState();
      if !silent {
        notices := notices + [Success(LOGGED_OUT)];
      }
    }

    /**
     * changePassword: on success a silent logout follows and true is returned;
     * on failure the error's message (or a fixed text) is shown and the error
     * is rethrown, leaving the session as it was.
     */
    method ChangePassword(result: Outcome<()>, logoutOk: bool) returns (r: Outcome<bool>)
      requires Valid()
      modifies this
      ensures Valid()
      ensures result.Ok? ==>
        r == Ok(true) && accessToken == None && user == None && timer == None
        && storage == old(storage) - {ACCESS_TOKEN_KEY}
        && calls == old(calls) + [ChangePasswordCall, LogoutCall] && notices == old(notices)
      ensures result.Err? ==>
        r == Err(result.error) && calls == old(calls) + [ChangePasswordCall]
        && notices == old(notices) + [Failure(result.error.message.GetOr(CHANGE_PASSWORD_FAILED))]
        && accessToken == old(accessToken) && user == old(user) && storage == old(storage) && timer == old(timer)
        && nextTimerId == old(nextTimerId)
      ensures ready == old(ready) && loading == old(loading) && refresh == old(refresh) && settled == old(settled)
      ensures nextHandle == old(nextHandle)
    {
      calls := calls + [ChangePasswordCall];
      if result.Err? {
        notices := notices + [Failure(result.error.message.GetOr(CHANGE_PASSWORD_FAILED))];
        r := Err(result.error);
      } else {
        Logout(true, logoutOk);
        r := Ok(true);
      }
    }
  }

  /**
   * Two overlapping refresh requests issue one network call and observe the
   * one outcome, whichever way it settles.
   */
  method ConcurrentRefreshSharesOneCall(store: AuthStore, result: Outcome<string>, now: int)
    returns (first: nat, second: nat)
    requires store.Valid() && store.refresh.Idle?
    modifies store
    ensures store.Valid()
    ensures store.calls == old(store.calls) + [RefreshCall]
    ensures store.refresh == Idle
    ensures first == second && first < |store.settled|
    ensures store.settled[first] == store.settled[second]
    ensures store.settled[first] == if result.Ok? then Resolved(result.value) else Rejected(result.error)
  {
    first := store.RefreshAccessToken();
    second := store.RefreshAccessToken();
    var _ := store.SettleRefresh(result, now);
  }

  /** Initializing twice fetches the profile at most once and ends ready. */
  method InitializeTwice(store: AuthStore, now: int, me1: Outcome<AuthUser>, me2: Outcome<AuthUser>)
    requires store.Valid()
    modifies store
    ensures store.Valid() && store.ready
    ensures multiset(store.calls)[MeCall] <= multiset(old(store.calls))[MeCall] + 1
  {
    store.Initialize(now, me1);
    store.Initialize(now, me2);
  }
}
