/** The HTTP client layer: the module-level state behind the client's
    request and response interceptors (the failure counter, the
    refresh-in-progress flag and the default Authorization header), the
    manual token refresh, the validity check and the failure classifier.

    Foreign calls become parameters: the token endpoint's answer is a
    `TokenOutcome`, the clock is `nowMs` (milliseconds since the epoch) and
    the identity library's freshness test is `isTokenFresh(issuedAt, expiresIn)`. */
module Services {
  import opened Js
  import opened Storage

  /** Most consecutive failed responses tolerated before a forced sign-out. */
  const Barrier := 7
  /** Where a forced sign-out navigates. */
  const ForcedSignInRoute := "/sign-in?force=true"
  /** Waits of the retry loop for a canceled request. */
  const MaxRetry := 5
  /** Characters of a token shown at its head and at its tail when logged. */
  const AbridgedHead := 15
  const AbridgedTail := 10
  const AbridgedLabel := "Token info: "

  // ---------------------------------------------------------------------
  // Abridged token text

  /** The log form of a token: nothing for an absent or empty token,
      otherwise its first 15 and last 10 characters around "...". */
  function AbridgedTokenInfo(token: Option<string>): (r: Option<string>)
    ensures r.None? <==> !Truthy(token)
    ensures r.Some? ==>
      var t := token.value;
      r.value == AbridgedLabel + t[..Min(AbridgedHead, |t|)] + "..." + t[|t| - Min(AbridgedTail, |t|)..]
    ensures r.Some? ==> |AbridgedLabel| + 5 <= |r.value| <= |AbridgedLabel| + 3 + AbridgedHead + AbridgedTail
    ensures r.Some? && |token.value| >= AbridgedHead ==> |r.value| == 40
  {
    if !Truthy(token) then None
    else
      var t := token.value;
      Some(AbridgedLabel + Substring(t, 0, AbridgedHead) + "..." + Substring(t, |t| - AbridgedTail, |t|))
  }

  /** A token of at most ten characters appears in full, twice. */
  lemma ShortTokenShownTwice(t: string)
    requires 0 < |t| <= AbridgedTail
    ensures AbridgedTokenInfo(Some(t)) == Some(AbridgedLabel + t + "..." + t)
  {
    assert t[..|t|] == t;
    assert t[0..] == t;
  }

  // ---------------------------------------------------------------------
  // Data exchanged with the HTTP client

  /** The error codes the classifier distinguishes. */
  datatype ErrorCode = Canceled | BadRequest | OtherCode

  /** A request configuration: its route and its Authorization header. */
  datatype RequestConfig = RequestConfig(url: string, authorization: Option<string>)

  /** A failed request as the response interceptor sees it: its code, the
      HTTP status if one was received, and its configuration if present. */
  datatype AxiosError = AxiosError(code: ErrorCode, status: Option<int>, config: Option<RequestConfig>)

  /** How the response interceptor settles an error. A resubmission is sent
      with the bare client, so it does not pass through these interceptors. */
  datatype Disposition = ForcedSignOut | Rejected | Resubmitted(config: RequestConfig)

  /** Fields of the token endpoint's JSON answer; each may be missing. */
  datatype TokenReply = TokenReply(accessToken: Option<string>, refreshToken: Option<string>, expiresIn: Option<int>)

  /** The token endpoint either fails (network or HTTP error) or answers. */
  datatype TokenOutcome = RequestFailed | Replied(reply: TokenReply)

  /** What a token refresh can change: the stored tokens and the default header. */
  datatype AuthState = AuthState(tokens: Tokens, header: Option<string>)

  /** The header value `Bearer ${token}` for a token read from the store. */
  function BearerHeader(token: Option<string>): string {
    "Bearer " + Text(token, Null)
  }

  // ---------------------------------------------------------------------
  // The failure counter

  /** An error response tips the counter over the ceiling. */
  predicate ForcesSignOut(fail: int) {
    fail + 1 > Barrier
  }

  /** The counter after one error response: one more, or 0 after a forced
      sign-out. */
  function FailAfterError(fail: int): (r: int)
    ensures fail >= 0 ==> 0 <= r <= Barrier
    ensures fail >= 0 ==> (r == 0 <==> ForcesSignOut(fail))
    ensures !ForcesSignOut(fail) ==> r == fail + 1
  {
    if fail + 1 > Barrier then 0 else fail + 1
  }

  /** The counter after `n` consecutive error responses. */
  function FailAfterErrors(fail: int, n: nat): int {
    if n == 0 then fail else FailAfterError(FailAfterErrors(fail, n - 1))
  }

  /** From a reset counter, the counter cycles through 0..7. */
  lemma {:induction false} StreakFromZero(n: nat)
    ensures FailAfterErrors(0, n) == n % (Barrier + 1)
  {
    if n > 0 {
      StreakFromZero(n - 1);
    }
  }

  /** From a reset counter, the error numbered k + 1 forces a sign-out
      exactly when k is 7 more than a multiple of 8: the first seven errors
      never do, the eighth does. */
  lemma EighthErrorForcesSignOut(k: nat)
    ensures ForcesSignOut(FailAfterErrors(0, k)) <==> k % (Barrier + 1) == Barrier
  {
    StreakFromZero(k);
  }

  // ---------------------------------------------------------------------
  // Refresh and validity, as functions of the state

  /** Issue time and lifetime are both stored. */
  predicate BothStored(t: Tokens) {
    t.issuedAt.Some? && t.expiresIn.Some?
  }

  /** The validity check finds a stored token that is not fresh. */
  predicate IsStale(t: Tokens, isTokenFresh: (int, int) -> bool) {
    BothStored(t) && !isTokenFresh(t.issuedAt.value, t.expiresIn.value)
  }

  /** The state after the manual refresh routine. It does nothing while
      another refresh is in progress or when the token request fails. An
      answer is written key by key: when it lacks expires_in, converting
      that value throws after the access and refresh tokens were already
      written, and the rest is skipped. */
  function Refreshed(s: AuthState, inProgress: bool, o: TokenOutcome, nowMs: nat): (r: AuthState)
    ensures inProgress || o.RequestFailed? ==> r == s
    ensures !inProgress && o.Replied? && o.reply.expiresIn.Some? ==>
      && r.tokens == Tokens(o.reply.accessToken, o.reply.refreshToken, Some(nowMs / 1000), o.reply.expiresIn)
      && r.header == Some("Bearer " + Text(o.reply.accessToken, Undefined))
    ensures !inProgress && o.Replied? && o.reply.expiresIn.None? ==>
      && r.tokens == s.tokens.(access := o.reply.accessToken, refresh := o.reply.refreshToken)
      && r.header == s.header
    ensures r.tokens.issuedAt == s.tokens.issuedAt || r.tokens.issuedAt == Some(nowMs / 1000)
    ensures r.header != s.header ==> BothStored(r.tokens)
    ensures Provenance(s.tokens) && !(o.Replied? && o.reply.expiresIn.None?) ==> Provenance(r.tokens)
  {
    if inProgress then s
    else match o
      case RequestFailed => s
      case Replied(reply) =>
        var partial := s.tokens.(access := reply.accessToken, refresh := reply.refreshToken);
        if reply.expiresIn.None? then AuthState(partial, s.header)
        else AuthState(partial.(expiresIn := reply.expiresIn, issuedAt := Some(nowMs / 1000)),
                       Some("Bearer " + Text(reply.accessToken, Undefined)))
  }

  /** The partial write can leave a usable access token without an issue
      time: the four writes are not atomic. */
  lemma PartialRefreshBreaksProvenance()
    ensures var s := AuthState(Cleared, None);
            var r := Refreshed(s, false, Replied(TokenReply(Some("A"), Some("R"), None)), 0);
            Provenance(s.tokens) && !Provenance(r.tokens)
  {
  }

  /** The state after the validity check: a refresh exactly when both
      timing values are stored and the token is not fresh. */
  function ValidityChecked(s: AuthState, inProgress: bool, isTokenFresh: (int, int) -> bool,
                           o: TokenOutcome, nowMs: nat): (r: AuthState)
    ensures !BothStored(s.tokens) ==> r == s
    ensures BothStored(s.tokens) && isTokenFresh(s.tokens.issuedAt.value, s.tokens.expiresIn.value) ==> r == s
    ensures IsStale(s.tokens, isTokenFresh) ==> r == Refreshed(s, inProgress, o, nowMs)
  {
    if IsStale(s.tokens, isTokenFresh) then Refreshed(s, inProgress, o, nowMs) else s
  }

  // ---------------------------------------------------------------------
  // The failure classifier, as functions of the state

  /** `error.code === ERR.BAD_REQUEST && error_status === status` */
  predicate BadRequestWith(err: AxiosError, status: int) {
    err.code == BadRequest && err.status == Some(status)
  }

  /** The statuses rejected without any retry. */
  predicate RejectedOutright(err: AxiosError) {
    BadRequestWith(err, 404) || BadRequestWith(err, 403) || BadRequestWith(err, 400)
  }

  /** The canceled-request branch applies. */
  predicate CanceledWithConfig(err: AxiosError) {
    err.code == Canceled && err.config.Some?
  }

  /** The configuration after the canceled-request wait loop: if it carried
      an Authorization header, that header is replaced by the stored token. */
  function AfterCancelWait(config: RequestConfig, stored: Option<string>): (r: RequestConfig)
    ensures r.url == config.url
    ensures !Truthy(config.authorization) ==> r == config
    ensures Truthy(config.authorization) ==> r.authorization == Some(BearerHeader(stored))
  {
    if Truthy(config.authorization) then config.(authorization := Some(BearerHeader(stored))) else config
  }

  /** The outcome of the error handler, given the counter before the error
      and the access token in the store. */
  function Route(failBefore: int, err: AxiosError, stored: Option<string>): (d: Disposition)
    ensures d.ForcedSignOut? <==> ForcesSignOut(failBefore)
    ensures !ForcesSignOut(failBefore) && RejectedOutright(err) ==> d == Rejected
    ensures !ForcesSignOut(failBefore) && err.config.None? ==> d == Rejected
    ensures d.Resubmitted? <==> !ForcesSignOut(failBefore) && err.config.Some? && !RejectedOutright(err)
    ensures d.Resubmitted? && err.code != Canceled ==> d.config == err.config.value
    ensures d.Resubmitted? ==> d.config.url == err.config.value.url
    ensures d.Resubmitted? && err.code == Canceled ==> d.config == AfterCancelWait(err.config.value, stored)
  {
    if ForcesSignOut(failBefore) then ForcedSignOut
    else if CanceledWithConfig(err) && Truthy(stored) then
      Resubmitted(AfterCancelWait(err.config.value, stored))
    else if RejectedOutright(err) then Rejected
    else if err.config.Some? then
      Resubmitted(if err.code == Canceled then AfterCancelWait(err.config.value, stored) else err.config.value)
    else Rejected
  }

  /** A bad-request 401 with a configuration leads to one call of the
      refresh routine when both timing values are stored. */
  predicate RefreshesOn401(failBefore: int, err: AxiosError, t: Tokens) {
    !ForcesSignOut(failBefore) && BadRequestWith(err, 401) && err.config.Some? && BothStored(t)
  }

  /** The tokens and default header after the error handler. */
  function AfterError(s: AuthState, failBefore: int, inProgress: bool, err: AxiosError,
                      o: TokenOutcome, nowMs: nat): (r: AuthState)
    ensures ForcesSignOut(failBefore) ==> r == s
    ensures !RefreshesOn401(failBefore, err, s.tokens) ==> r.tokens == s.tokens
    ensures RefreshesOn401(failBefore, err, s.tokens) ==> r == Refreshed(s, inProgress, o, nowMs)
    ensures !ForcesSignOut(failBefore) && CanceledWithConfig(err) && Truthy(err.config.value.authorization) ==>
      r.header == Some(BearerHeader(s.tokens.access))
    ensures (!(CanceledWithConfig(err) && Truthy(err.config.value.authorization))
             && !RefreshesOn401(failBefore, err, s.tokens)) ==> r.header == s.header
  {
    if ForcesSignOut(failBefore) then s
    else if CanceledWithConfig(err) && Truthy(err.config.value.authorization) then
      s.(header := Some(BearerHeader(s.tokens.access)))
    else if RefreshesOn401(failBefore, err, s.tokens) then Refreshed(s, inProgress, o, nowMs)
    else s
  }

  /** Waits taken by the error handler before it settles. */
  function WaitsOnError(failBefore: int, err: AxiosError, stored: Option<string>): nat {
    if ForcesSignOut(failBefore) then 0
    else if CanceledWithConfig(err) then
      (if Truthy(err.config.value.authorization) then 1 else MaxRetry) + (if Truthy(stored) then 0 else 1)
    else if Route(failBefore, err, stored).Resubmitted? then 1
    else 0
  }

  // ---------------------------------------------------------------------
  // The module-level state and the interceptors

  class AuthClient {
    /** The secure store the interceptors read and the refresh writes. */
    const store: SecureStore
    /** Error responses since the last 2xx response or forced sign-out. */
    var fail: int
    var refreshInProgress: bool
    /** The client's default Authorization header. */
    var authorization: Option<string>
    // Recorded effects of the transport.
    /** The shared abort signal has fired. */
    var aborted: bool
    /** Routes navigated to, in order. */
    var redirects: seq<string>
    /** Waits taken before retrying requests. */
    var waits: nat
    /** Calls of the manual refresh routine. */
    var refreshCalls: nat
    /** Token-endpoint requests sent, each with the refresh token it carried. */
    var tokenRequests: seq<Option<string>>

    predicate Valid()
      reads this
    {
      0 <= fail <= Barrier
    }

    function Shared(): AuthState
      reads this, store
    {
      AuthState(store.Contents(), authorization)
    }

    constructor (store: SecureStore)
      ensures Valid() && this.store == store
      ensures fail == 0 && !refreshInProgress && authorization == None
      ensures !aborted && redirects == [] && waits == 0 && refreshCalls == 0 && tokenRequests == []
    {
      this.store := store;
      fail := 0;
      refreshInProgress := false;
      authorization := None;
      aborted := false;
      redirects := [];
      waits := 0;
      refreshCalls := 0;
      tokenRequests := [];
    }

    /** Replaces the default Authorization header. */
    method SetAccessToken(token: string)
      modifies this`authorization
      ensures authorization == Some("Bearer " + token)
    {
      authorization := Some("Bearer " + token);
    }

    /** Sends the refresh grant to the token endpoint; only ever done while
        the refresh flag is raised. */
    method PostTokenRequest(grant: Option<string>, outcome: TokenOutcome) returns (answer: TokenOutcome)
      requires refreshInProgress
      modifies this`tokenRequests
      ensures answer == outcome
      ensures tokenRequests == old(tokenRequests) + [grant]
    {
      tokenRequests := tokenRequests + [grant];
      answer := outcome;
    }

    /** The manual refresh routine. It returns at once while a refresh is
        in progress; otherwise it raises the flag, requests new tokens with
        the stored refresh token, writes the answer key by key, updates the
        default header, swallows any failure and lowers the flag again. */
    method RefreshTokenManually(outcome: TokenOutcome, nowMs: nat)
      modifies this, store
      ensures Shared() == Refreshed(old(Shared()), old(refreshInProgress), outcome, nowMs)
      ensures refreshInProgress == old(refreshInProgress)
      ensures refreshCalls == old(refreshCalls) + 1
      ensures tokenRequests == old(tokenRequests) + (if old(refreshInProgress) then [] else [old(store.refresh)])
      ensures fail == old(fail) && waits == old(waits)
      ensures aborted == old(aborted) && redirects == old(redirects)
    {
      refreshCalls := refreshCalls + 1;
      if refreshInProgress {
        return;
      }
      refreshInProgress := true;
      var grant := store.refresh;
      var answer := PostTokenRequest(grant, outcome);
      match answer {
        case RequestFailed =>
          // the failure is logged and swallowed
        case Replied(reply) =>
          store.access := reply.accessToken;
          store.refresh := reply.refreshToken;
          if reply.expiresIn.Some? {
            store.expiresIn := reply.expiresIn;
            store.issuedAt := Some(nowMs / 1000);
            authorization := Some("Bearer " + Text(reply.accessToken, Undefined));
          }
          // otherwise expires_in.toString() threw after two writes; swallowed
      }
      refreshInProgress := false;
    }

    /** Reads issue time and lifetime from the store; when both are there,
        refreshes a token that is not fresh and answers whether it was
        fresh. Answers false when either is missing. */
    method CheckTokenValidity(isTokenFresh: (int, int) -> bool, outcome: TokenOutcome, nowMs: nat)
      returns (valid: bool)
      modifies this, store
      ensures valid <==> BothStored(old(store.Contents())) && !IsStale(old(store.Contents()), isTokenFresh)
      ensures Shared() == ValidityChecked(old(Shared()), old(refreshInProgress), isTokenFresh, outcome, nowMs)
      ensures refreshInProgress == old(refreshInProgress)
      ensures refreshCalls == old(refreshCalls) + (if IsStale(old(store.Contents()), isTokenFresh) then 1 else 0)
      ensures tokenRequests == old(tokenRequests) +
        (if IsStale(old(store.Contents()), isTokenFresh) && !old(refreshInProgress) then [old(store.refresh)] else [])
      ensures fail == old(fail) && waits == old(waits)
      ensures aborted == old(aborted) && redirects == old(redirects)
    {
      var sid := store.issuedAt;
      var se := store.expiresIn;
      if sid.Some? && se.Some? {
        valid := isTokenFresh(sid.value, se.value);
        if !valid {
          RefreshTokenManually(outcome, nowMs);
        }
      } else {
        valid := false;
      }
    }

    /** The request interceptor: waits once if a refresh is in progress,
        runs the validity check, then re-reads the access token and stamps
        it, present or not, on both the default and the request header. */
    method OnRequest(config: RequestConfig, isTokenFresh: (int, int) -> bool, outcome: TokenOutcome, nowMs: nat)
      returns (sent: RequestConfig)
      requires Valid()
      modifies this, store
      ensures Valid() && fail == old(fail)
      ensures store.Contents() ==
        ValidityChecked(old(Shared()), old(refreshInProgress), isTokenFresh, outcome, nowMs).tokens
      ensures authorization == Some(BearerHeader(store.access))
      ensures sent == config.(authorization := authorization)
      ensures waits == old(waits) + (if old(refreshInProgress) then 1 else 0)
      ensures refreshInProgress == old(refreshInProgress)
      ensures refreshCalls == old(refreshCalls) + (if IsStale(old(store.Contents()), isTokenFresh) then 1 else 0)
      ensures tokenRequests == old(tokenRequests) +
        (if IsStale(old(store.Contents()), isTokenFresh) && !old(refreshInProgress) then [old(store.refresh)] else [])
      ensures aborted == old(aborted) && redirects == old(redirects)
    {
      if refreshInProgress {
        waits := waits + 1;
      }
      var _ := CheckTokenValidity(isTokenFresh, outcome, nowMs);
      var token := store.access;
      authorization := Some(BearerHeader(token));
      sent := config.(authorization := Some(BearerHeader(token)));
    }

    /** The response interceptor for a 2xx response: resets the counter. */
    method OnResponse()
      requires Valid()
      modifies this`fail
      ensures Valid() && fail == 0
    {
      if fail > 0 {
        fail := 0;
      }
    }

    /** The wait loop of the canceled-request branch. While the request
        carries no Authorization header it waits up to five times; once it
        carries one, the stored token is re-read and stamped on the default
        and the request header, and the loop ends. */
    method WaitForHeader(config: RequestConfig) returns (waited: RequestConfig, token: Option<string>)
      modifies this`waits, this`authorization
      ensures token == store.access
      ensures waited == AfterCancelWait(config, store.access)
      ensures waits == old(waits) + (if Truthy(config.authorization) then 1 else MaxRetry)
      ensures authorization ==
        if Truthy(config.authorization) then Some(BearerHeader(store.access)) else old(authorization)
    {
      waited := config;
      token := store.access;
      var retry := 0;
      while retry < MaxRetry
        invariant 0 <= retry <= MaxRetry
        invariant waited == config && token == store.access
        invariant waits == old(waits) + retry
        invariant retry > 0 ==> !Truthy(config.authorization)
        invariant authorization == old(authorization)
      {
        waits := waits + 1;
        var tokenSet := Truthy(waited.authorization);
        if tokenSet {
          token := store.access;
          // a store read yields a string or null, never undefined,
          // so `token !== undefined` always holds here
          authorization := Some(BearerHeader(token));
          waited := waited.(authorization := Some(BearerHeader(token)));
          break;
        }
        retry := retry + 1;
      }
    }

    /** The 401 branch: the validity check refreshes a stale token, and a
        token it finds fresh is refreshed explicitly, so with both timing
        values stored the refresh routine runs exactly once. */
    method RefreshAfterUnauthorized(isTokenFresh: (int, int) -> bool, outcome: TokenOutcome, nowMs: nat)
      modifies this, store
      ensures Shared() ==
        if BothStored(old(store.Contents())) then Refreshed(old(Shared()), old(refreshInProgress), outcome, nowMs)
        else old(Shared())
      ensures refreshInProgress == old(refreshInProgress)
      ensures refreshCalls == old(refreshCalls) + (if BothStored(old(store.Contents())) then 1 else 0)
      ensures tokenRequests == old(tokenRequests) +
        (if BothStored(old(store.Contents())) && !old(refreshInProgress) then [old(store.refresh)] else [])
      ensures fail == old(fail) && waits == old(waits)
      ensures aborted == old(aborted) && redirects == old(redirects)
    {
      var valid := CheckTokenValidity(isTokenFresh, outcome, nowMs);
      if valid {
        RefreshTokenManually(outcome, nowMs);
      }
    }

    /** The response interceptor for an error. Every error counts; past the
        ceiling it aborts, navigates to the forced sign-in and resets the
        counter. A canceled request waits for a header and is resubmitted
        when a token is stored; a bad-request 404, 403 or 400 is rejected;
        a bad-request 401 first refreshes; any other error with a request
        configuration is resubmitted once after a wait. */
    method OnResponseError(err: AxiosError, isTokenFresh: (int, int) -> bool, outcome: TokenOutcome, nowMs: nat)
      returns (d: Disposition)
      requires Valid()
      modifies this, store
      ensures Valid()
      ensures fail == FailAfterError(old(fail))
      ensures d == Route(old(fail), err, old(store.access))
      ensures Shared() == AfterError(old(Shared()), old(fail), old(refreshInProgress), err, outcome, nowMs)
      ensures aborted == (old(aborted) || ForcesSignOut(old(fail)))
      ensures redirects == old(redirects) + (if ForcesSignOut(old(fail)) then [ForcedSignInRoute] else [])
      ensures waits == old(waits) + WaitsOnError(old(fail), err, old(store.access))
      ensures refreshInProgress == old(refreshInProgress)
      ensures refreshCalls == old(refreshCalls) + (if RefreshesOn401(old(fail), err, old(store.Contents())) then 1 else 0)
      ensures tokenRequests == old(tokenRequests) +
        (if RefreshesOn401(old(fail), err, old(store.Contents())) && !old(refreshInProgress)
         then [old(store.refresh)] else [])
    {
      fail := fail + 1;
      if fail > Barrier {
        aborted := true;
        redirects := redirects + [ForcedSignInRoute];
        fail := 0;
        return ForcedSignOut;
      }

      var config := err.config;
      if err.code == Canceled && config.Some? {
        var waited, token := WaitForHeader(config.value);
        config := Some(waited);
        if Truthy(token) {
          return Resubmitted(config.value);
        }
      }

      if BadRequestWith(err, 404) {
        return Rejected;
      }
      if BadRequestWith(err, 403) {
        return Rejected;
      }
      if BadRequestWith(err, 401) && config.Some? {
        RefreshAfterUnauthorized(isTokenFresh, outcome, nowMs);
      }
      if BadRequestWith(err, 400) {
        return Rejected;
      }
      if config.Some? {
        waits := waits + 1;
        return Resubmitted(config.value);
      }
      return Rejected;
    }

    /** A run of error responses with no 2xx response between them, from a
        reset counter: exactly every eighth one forces a sign-out. */
    method ErrorStreak(errs: seq<AxiosError>, isTokenFresh: (int, int) -> bool, outcome: TokenOutcome, nowMs: nat)
      returns (forced: seq<bool>)
      requires Valid() && fail == 0
      modifies this, store
      ensures Valid()
      ensures |forced| == |errs|
      ensures forall i :: 0 <= i < |forced| ==> (forced[i] <==> i % (Barrier + 1) == Barrier)
      ensures fail == |errs| % (Barrier + 1)
    {
      forced := [];
      var i := 0;
      while i < |errs|
        invariant 0 <= i <= |errs| && |forced| == i
        invariant Valid() && fail == FailAfterErrors(0, i)
        invariant forall j :: 0 <= j < i ==> (forced[j] <==> j % (Barrier + 1) == Barrier)
      {
        EighthErrorForcesSignOut(i);
        var d := OnResponseError(errs[i], isTokenFresh, outcome, nowMs);
        forced := forced + [d.ForcedSignOut?];
        i := i + 1;
      }
      StreakFromZero(|errs|);
    }
  }
}
