/** The client-side session: `AccountService` keeps the logged-in account (the value of
    `accountSubject`) and the handle of the pending token refresh (`authenticateTimeout`).
    HTTP answers and the provider SDK's answers are inputs to its methods. */
module Session {
  import opened Wrappers
  import opened Accounts
  import opened Token

  /** The `authResponse` the provider SDK hands back after a login. */
  datatype AuthResponse = AuthResponse(accessToken: string, userID: string)

  /** `facebookLogin`: the access token when the provider logged the user in, nothing otherwise. */
  function FacebookLogin(authResponse: Option<AuthResponse>): (token: Option<string>)
    ensures token.None? <==> authResponse.None?
    ensures token.Some? ==> token.value == authResponse.value.accessToken
  {
    match authResponse
    case None => None
    case Some(r) => Some(r.accessToken)
  }

  /** `queryParams['returnUrl'] || '/'`: an empty return URL counts as none. */
  function ReturnUrl(queryParam: Option<string>): (url: string)
    ensures url != ""
    ensures queryParam.Some? && queryParam.value != "" ==> url == queryParam.value
    ensures queryParam.None? || queryParam.value == "" ==> url == "/"
  {
    if queryParam.Some? && queryParam.value != "" then queryParam.value else "/"
  }

  /** `{...current, ...returned}` for a `returned` record: its keys win, and the token of
      `current` survives when `returned` has none. */
  function Merge(current: Account, returned: Account): (r: Account)
    ensures r.id == returned.id && r.facebookId == returned.facebookId
    ensures r.name == returned.name && r.extraInfo == returned.extraInfo
    ensures returned.token.None? ==> r.token == current.token
    ensures returned.token.Some? ==> r.token == returned.token
  {
    if returned.token.Some? then returned else returned.(token := current.token)
  }

  /** Merging the same record in again changes nothing. */
  lemma MergeIdempotent(current: Account, returned: Account)
    ensures Merge(Merge(current, returned), returned) == Merge(current, returned)
  {
  }

  // ---------------------------------------------------------------- timers

  /** A scheduled re-authentication: when it fires, and the provider access token it sends. */
  datatype Refresh = Refresh(delayMs: int, accessToken: string)

  /** The browser's table of scheduled timeouts, keyed by handle. */
  datatype Timers = Timers(pending: map<nat, Refresh>, nextHandle: nat)

  /** Every pending handle was handed out already. */
  ghost predicate ValidTimers(t: Timers) {
    forall h :: h in t.pending ==> h < t.nextHandle
  }

  /** `setTimeout`: schedule `r` under a handle not in use and return the handle. */
  function SetTimeout(t: Timers, r: Refresh): (res: (Timers, nat))
    requires ValidTimers(t)
    ensures ValidTimers(res.0) && res.1 !in t.pending
    ensures res.1 in res.0.pending && res.0.pending[res.1] == r
    ensures forall h :: h in t.pending ==> h in res.0.pending && res.0.pending[h] == t.pending[h]
    ensures res.0.pending.Keys == t.pending.Keys + {res.1}
  {
    (Timers(t.pending[t.nextHandle := r], t.nextHandle + 1), t.nextHandle)
  }

  /** `clearTimeout(handle)`: cancel that one timer; `clearTimeout(undefined)` does nothing. */
  function ClearTimeout(t: Timers, handle: Option<nat>): (res: Timers)
    ensures ValidTimers(t) ==> ValidTimers(res)
    ensures handle.Some? ==> res.pending.Keys == t.pending.Keys - {handle.value}
    ensures handle.None? ==> res == t
    ensures forall h :: h in res.pending ==> h in t.pending && res.pending[h] == t.pending[h]
  {
    match handle
    case None => t
    case Some(h) => t.(pending := t.pending - {h})
  }

  /** Starting a timer and cancelling it by the handle it returned leaves the table as it was. */
  lemma ClearCancelsStart(t: Timers, r: Refresh)
    requires ValidTimers(t)
    ensures var (t1, h) := SetTimeout(t, r);
            ClearTimeout(t1, Some(h)).pending == t.pending
  {
    var (t1, h) := SetTimeout(t, r);
    assert h !in t.pending;
    assert ClearTimeout(t1, Some(h)).pending.Keys == t.pending.Keys;
  }

  /** Starting a second timer overwrites the only handle that is kept, so cancelling by that
      handle leaves the first timer pending. */
  lemma SecondStartOrphansFirst(t: Timers, r1: Refresh, r2: Refresh)
    requires ValidTimers(t)
    ensures var (t1, h1) := SetTimeout(t, r1);
            var (t2, h2) := SetTimeout(t1, r2);
            var t3 := ClearTimeout(t2, Some(h2));
            h1 in t3.pending && t3.pending[h1] == r1 && h2 !in t3.pending
  {
    var (t1, h1) := SetTimeout(t, r1);
    var (t2, h2) := SetTimeout(t1, r2);
    assert h1 != h2;
  }

  /** The exception text for a token the timer cannot read the expiry from. */
  const UnreadableToken := "the token does not decode"
  /** The exception text for `FB.getAuthResponse()` returning nothing. */
  const NoAuthResponse := "no provider auth response"

  /** The payload `startAuthenticateTimer` reads from an account's token, if it can. */
  function TokenPayload(a: Account): (r: Option<Payload>)
    ensures a.token.None? ==> r.None?
    ensures r.Some? ==> a.token.Some? && '.' in a.token.value
  {
    if a.token.Some? then DecodeToken(a.token.value) else None
  }

  /** The payload read from a token the backend issued is the one it was issued for. */
  lemma IssuedTokenPayload(a: Account, p: Payload)
    requires a.token == Some(GenerateJwtToken(p))
    ensures TokenPayload(a) == Some(p)
  {
  }

  /** What `startAuthenticateTimer` does for account `a`: the exception it throws, or the
      refresh it schedules. */
  function TimerFor(a: Account, nowMs: int, fbAuth: Option<AuthResponse>): (r: Result<Refresh>)
    ensures r.Success? <==> TokenPayload(a).Some? && fbAuth.Some?
    ensures r.Success? ==> r.value.accessToken == fbAuth.value.accessToken
    ensures r.Success? ==> nowMs + r.value.delayMs + RefreshMarginMs == TokenPayload(a).value.exp * 1000
  {
    match TokenPayload(a)
    case None => Failure(UnreadableToken)
    case Some(payload) =>
      var timeout := RefreshDelay(payload.exp, nowMs);
      if fbAuth.None? then Failure(NoAuthResponse) else Success(Refresh(timeout, fbAuth.value.accessToken))
  }

  /** What `apiAuthenticate` hands on: the answer when it fails, the exception of the timer
      when that throws, and the answer otherwise. */
  function AuthenticateResult(response: Result<Account>, nowMs: int, fbAuth: Option<AuthResponse>): (r: Result<Account>)
    ensures r.Success? <==> response.Success? && TokenPayload(response.value).Some? && fbAuth.Some?
    ensures r.Success? ==> r == response
    ensures response.Failure? ==> r == response
  {
    match response
    case Failure(_) => response
    case Success(a) =>
      match TimerFor(a, nowMs, fbAuth)
      case Failure(e) => Failure(e)
      case Success(_) => response
  }

  // ---------------------------------------------------------------- the service

  class AccountService {
    /** `accountSubject.value`: the logged-in account, `None` for `null`. */
    var accountValue: Option<Account>
    /** The handle of the last refresh timer started, `None` while it is `undefined`. */
    var authenticateTimeout: Option<nat>
    /** The timeouts scheduled in the page and neither fired nor cancelled. */
    var timers: Timers

    ghost predicate Valid()
      reads this
    {
      ValidTimers(timers) &&
      (authenticateTimeout.Some? ==> authenticateTimeout.value < timers.nextHandle)
    }

    /** The state `apiAuthenticate` leaves when it starts from the timer table `t0`, the kept
        handle `h0` and the account `a0`: a failed answer changes nothing; a successful one
        is published, and the refresh it schedules, if the timer does not throw, is added to
        `t0` under a new handle that replaces the kept one. */
    ghost predicate AuthenticatedFrom(t0: Timers, h0: Option<nat>, a0: Option<Account>,
                                      response: Result<Account>, nowMs: int, fbAuth: Option<AuthResponse>)
      reads this
    {
      && ValidTimers(t0)
      && match response
         case Failure(_) => accountValue == a0 && timers == t0 && authenticateTimeout == h0
         case Success(a) =>
           && accountValue == Some(a)
           && match TimerFor(a, nowMs, fbAuth)
              case Failure(_) => timers == t0 && authenticateTimeout == h0
              case Success(refresh) =>
                var (t, h) := SetTimeout(t0, refresh);
                timers == t && authenticateTimeout == Some(h)
    }

    /** A new service starts logged out with no timer. */
    constructor (pageTimers: Timers)
      requires ValidTimers(pageTimers)
      ensures Valid()
      ensures accountValue == None && authenticateTimeout == None && timers == pageTimers
    {
      accountValue := None;
      authenticateTimeout := None;
      timers := pageTimers;
    }

    /** `startAuthenticateTimer`: read the expiry from the current token and schedule a
        re-authentication one minute before it. `fbAuth` is what `FB.getAuthResponse()`
        returns at this moment. Each failure is an exception thrown before `setTimeout`. */
    method StartAuthenticateTimer(nowMs: int, fbAuth: Option<AuthResponse>) returns (r: Result<()>)
      requires Valid() && accountValue.Some?
      modifies this`timers, this`authenticateTimeout
      ensures Valid()
      ensures match TimerFor(old(accountValue).value, nowMs, fbAuth)
              case Failure(e) =>
                r == Failure(e) && timers == old(timers) && authenticateTimeout == old(authenticateTimeout)
              case Success(refresh) =>
                && r == Success(())
                && var (t, h) := SetTimeout(old(timers), refresh);
                   timers == t && authenticateTimeout == Some(h)
    {
      var token := accountValue.value.token;
      if token.None? {
        return Failure(UnreadableToken);
      }
      var payload := DecodeToken(token.value);
      if payload.None? {
        return Failure(UnreadableToken);
      }
      var timeout := RefreshDelay(payload.value.exp, nowMs);
      if fbAuth.None? {
        return Failure(NoAuthResponse);
      }
      var (t, h) := SetTimeout(timers, Refresh(timeout, fbAuth.value.accessToken));
      timers, authenticateTimeout := t, Some(h);
      r := Success(());
    }

    /** `apiAuthenticate`, from the moment the HTTP answer arrives: on success publish the
        account, then start the refresh timer and hand the account on. */
    method ApiAuthenticate(response: Result<Account>, nowMs: int, fbAuth: Option<AuthResponse>) returns (r: Result<Account>)
      requires Valid()
      modifies this
      ensures Valid()
      ensures AuthenticatedFrom(old(timers), old(authenticateTimeout), old(accountValue), response, nowMs, fbAuth)
      ensures r == AuthenticateResult(response, nowMs, fbAuth)
    {
      if response.Failure? {
        return response;
      }
      accountValue := Some(response.value);
      var started := StartAuthenticateTimer(nowMs, fbAuth);
      if started.Failure? {
        return Failure(started.error);
      }
      r := response;
    }

    /** `logout`: cancel the timer whose handle is kept and forget the account. */
    method Logout()
      requires Valid()
      modifies this
      ensures Valid()
      ensures accountValue == None
      ensures timers == ClearTimeout(old(timers), old(authenticateTimeout))
      ensures authenticateTimeout == old(authenticateTimeout)
    {
      timers := ClearTimeout(timers, authenticateTimeout);
      accountValue := None;
    }

    /** `login`: log in with the provider, exchange its token, and say where to navigate.
        `sent` is the access token posted to the authenticate route, if any. */
    method Login(authResponse: Option<AuthResponse>, response: Result<Account>, nowMs: int,
                 fbAuth: Option<AuthResponse>, returnUrl: Option<string>)
      returns (sent: Option<string>, navigateTo: Option<string>)
      requires Valid()
      modifies this
      ensures Valid()
      ensures sent == FacebookLogin(authResponse)
      ensures sent.None? ==> navigateTo.None? && accountValue == old(accountValue) &&
                             timers == old(timers) && authenticateTimeout == old(authenticateTimeout)
      ensures sent.Some? ==>
                AuthenticatedFrom(old(timers), old(authenticateTimeout), old(accountValue), response, nowMs, fbAuth)
      ensures navigateTo == if sent.Some? && AuthenticateResult(response, nowMs, fbAuth).Success?
                            then Some(ReturnUrl(returnUrl)) else None
    {
      sent := FacebookLogin(authResponse);
      navigateTo := None;
      if sent.Some? {
        var r := ApiAuthenticate(response, nowMs, fbAuth);
        if r.Success? {
          navigateTo := Some(ReturnUrl(returnUrl));
        }
      }
    }

    /** A pending refresh fires: it leaves the timer table and re-runs `apiAuthenticate` with
        the access token it captured; `sent` is that token. */
    method FireRefresh(handle: nat, response: Result<Account>, nowMs: int, fbAuth: Option<AuthResponse>)
      returns (sent: string, r: Result<Account>)
      requires Valid() && handle in timers.pending
      modifies this
      ensures Valid()
      ensures sent == old(timers).pending[handle].accessToken
      ensures AuthenticatedFrom(old(timers).(pending := old(timers).pending - {handle}),
                                old(authenticateTimeout), old(accountValue), response, nowMs, fbAuth)
      ensures r == AuthenticateResult(response, nowMs, fbAuth)
    {
      sent := timers.pending[handle].accessToken;
      timers := timers.(pending := timers.pending - {handle});
      r := ApiAuthenticate(response, nowMs, fbAuth);
    }

    /** `update`, from the moment the HTTP answer arrives: when the answered record is the
        logged-in account, publish the merge of the two and hand it on; otherwise hand the
        answer on and leave the session alone. */
    method Update(response: Result<Account>) returns (r: Result<Account>)
      requires Valid()
      modifies this`accountValue
      ensures Valid()
      ensures timers == old(timers) && authenticateTimeout == old(authenticateTimeout)
      ensures response.Failure? ==> r == response && accountValue == old(accountValue)
      ensures response.Success? && old(accountValue).None? ==> r == Failure(TypeError) && accountValue == old(accountValue)
      ensures response.Success? && old(accountValue).Some? ==>
                var current, returned := old(accountValue).value, response.value;
                if returned.id == current.id then
                  r == Success(Merge(current, returned)) && accountValue == Some(Merge(current, returned))
                else
                  r == response && accountValue == old(accountValue)
    {
      if response.Failure? {
        return response;
      }
      if accountValue.None? {
        return Failure(TypeError);
      }
      var account := response.value;
      if account.id == accountValue.value.id {
        account := Merge(accountValue.value, account);
        accountValue := Some(account);
      }
      r := Success(account);
    }

    /** `delete`: after the HTTP call ends, whether it succeeded or not, log out when the
        deleted id is the logged-in account's; the call's own result is handed on. */
    method Delete(id: int, response: Result<()>) returns (r: Result<()>)
      requires Valid()
      modifies this
      ensures Valid()
      ensures r == response
      ensures old(accountValue).Some? && id == old(accountValue).value.id ==>
                accountValue == None && timers == ClearTimeout(old(timers), old(authenticateTimeout))
      ensures old(accountValue).None? || id != old(accountValue).value.id ==>
                accountValue == old(accountValue) && timers == old(timers)
      ensures authenticateTimeout == old(authenticateTimeout)
    {
      if accountValue.Some? && id == accountValue.value.id {
        Logout();
      }
      r := response;
    }
  }
}
