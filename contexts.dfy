/** The session context: the signed-in user's session as the app sees it.
    It keeps the session (access token), refresh token, issue time, expiry
    and user info in memory; each setter also writes the secure store, and
    the context replaces the HTTP client's default header through the
    client. The identity library's calls (code exchange, refresh) become
    outcome parameters and its freshness test is `isTokenFresh`. */
module Contexts {
  import opened Js
  import opened Storage
  import Services

  /** Lifetime, in seconds, assumed when the identity provider gives none. */
  const DefaultExpiresIn := 3600

  /** Profile data of the signed-in user. */
  datatype UserInfo = UserInfo(name: string)

  /** The identity library's token response. */
  datatype TokenResponse = TokenResponse(accessToken: string, refreshToken: Option<string>,
                                         issuedAt: int, expiresIn: Option<int>)

  /** The refresh call throws or returns a response. */
  datatype RefreshOutcome = RefreshThrew | RefreshReturned(response: TokenResponse)

  /** The code exchange throws or returns a response. */
  datatype ExchangeOutcome = ExchangeThrew | Exchanged(response: TokenResponse)

  /** The type of the authorization prompt's result. */
  datatype ResultType = Success | Dismiss | Cancel | Locked | Opened | Error

  /** Everything the context's operations can change: the in-memory fields,
      the secure store and the client's default header. */
  datatype ContextView = ContextView(mem: Tokens, userInfo: Option<UserInfo>, stored: Tokens, header: Option<string>)

  /** Sign-in takes `expiresIn || 3600`: a missing or zero lifetime becomes 3600. */
  function SignInExpiry(e: Option<int>): (r: int)
    ensures r != 0
    ensures e.Some? && e.value != 0 ==> r == e.value
    ensures e.None? || e == Some(0) ==> r == DefaultExpiresIn
  {
    if e.None? || e.value == 0 then DefaultExpiresIn else e.value
  }

  /** Refresh takes `expiresIn ?? 3600`: only a missing lifetime becomes 3600. */
  function RefreshExpiry(e: Option<int>): (r: int)
    ensures e.Some? ==> r == e.value
    ensures e.None? ==> r == DefaultExpiresIn
  {
    e.GetOr(DefaultExpiresIn)
  }

  /** The two defaults disagree exactly on a lifetime of zero. */
  lemma ExpiryDefaultsDiffer(e: Option<int>)
    ensures SignInExpiry(e) != RefreshExpiry(e) <==> e == Some(0)
  {
  }

  /** The effect of sign-out: with a session, every session field is
      cleared in memory and in the store and the header becomes "Bearer ";
      without one, nothing changes. */
  function SignedOut(v: ContextView): (w: ContextView)
    ensures !Truthy(w.mem.access)
    ensures !Truthy(v.mem.access) ==> w == v
    ensures Truthy(v.mem.access) ==>
      w.mem == Cleared && w.stored == Cleared && w.userInfo.None? && w.header == Some("Bearer ")
    ensures Provenance(v.stored) ==> Provenance(w.stored)
  {
    if !Truthy(v.mem.access) then v
    else ContextView(Cleared, None, Cleared, Some("Bearer "))
  }

  /** A second sign-out changes nothing. */
  lemma SignOutIdempotent(v: ContextView)
    ensures SignedOut(SignedOut(v)) == SignedOut(v)
  {
  }

  /** The tokens a successful refresh writes: the new access token, the
      response's issue time, its lifetime or 3600, and its refresh token or,
      failing a non-empty one, the old refresh token. */
  function RefreshedTokens(prior: Tokens, res: TokenResponse): (t: Tokens)
    requires res.accessToken != ""
    ensures Provenance(t) && t.access == Some(res.accessToken)
    ensures Truthy(res.refreshToken) ==> t.refresh == res.refreshToken
    ensures !Truthy(res.refreshToken) ==> t.refresh == prior.refresh
    ensures Truthy(prior.refresh) ==> Truthy(t.refresh)
    ensures t.issuedAt == Some(res.issuedAt) && t.expiresIn == Some(RefreshExpiry(res.expiresIn))
  {
    Tokens(Some(res.accessToken),
           if Truthy(res.refreshToken) then res.refreshToken else prior.refresh,
           Some(res.issuedAt),
           Some(RefreshExpiry(res.expiresIn)))
  }

  /** The effect of a session refresh. Without a refresh token nothing
      changes; a thrown call or a response without an access token signs
      out; otherwise memory and store both hold the refreshed tokens and the
      header carries the new access token. */
  function RefreshedView(v: ContextView, o: RefreshOutcome): (w: ContextView)
    ensures !Truthy(v.mem.refresh) ==> w == v
    ensures Truthy(v.mem.refresh) && (o.RefreshThrew? || o.response.accessToken == "") ==> w == SignedOut(v)
    ensures Truthy(v.mem.refresh) && o.RefreshReturned? && o.response.accessToken != "" ==>
      && w.mem == w.stored == RefreshedTokens(v.mem, o.response)
      && w.header == Some("Bearer " + o.response.accessToken)
      && w.userInfo == v.userInfo
    ensures Provenance(v.stored) ==> Provenance(w.stored)
    ensures Provenance(v.mem) ==> Provenance(w.mem)
  {
    if !Truthy(v.mem.refresh) then v
    else match o
      case RefreshThrew => SignedOut(v)
      case RefreshReturned(res) =>
        if res.accessToken == "" then SignedOut(v)
        else
          var t := RefreshedTokens(v.mem, res);
          ContextView(t, v.userInfo, t, Some("Bearer " + res.accessToken))
  }

  /** The tokens a completed sign-in writes: a missing or empty refresh
      token is stored as null, and the lifetime defaults to 3600. */
  function SignedInTokens(res: TokenResponse): (t: Tokens)
    ensures Provenance(t) && t.access == Some(res.accessToken)
    ensures t.refresh.Some? ==> t.refresh.value != ""
    ensures Truthy(res.refreshToken) ==> t.refresh == res.refreshToken
    ensures !Truthy(res.refreshToken) ==> t.refresh.None?
    ensures t.issuedAt == Some(res.issuedAt)
    ensures t.expiresIn == Some(SignInExpiry(res.expiresIn)) && t.expiresIn.value != 0
  {
    Tokens(Some(res.accessToken),
           if Truthy(res.refreshToken) then res.refreshToken else None,
           Some(res.issuedAt),
           Some(SignInExpiry(res.expiresIn)))
  }

  /** The issue time and expiry the validity check judges: the in-memory
      pair when both are present, otherwise the stored pair. */
  function ValidityPair(v: ContextView): (p: (Option<int>, Option<int>))
    ensures v.mem.issuedAt.Some? && v.mem.expiresIn.Some? ==> p == (v.mem.issuedAt, v.mem.expiresIn)
    ensures v.mem.issuedAt.None? || v.mem.expiresIn.None? ==> p == (v.stored.issuedAt, v.stored.expiresIn)
  {
    if v.mem.issuedAt.None? || v.mem.expiresIn.None? then (v.stored.issuedAt, v.stored.expiresIn)
    else (v.mem.issuedAt, v.mem.expiresIn)
  }

  /** The validity check refreshes when the pair it judges is complete and
      not fresh, or when it is incomplete and both a session and a refresh
      token are held. */
  predicate CheckRefreshes(v: ContextView, isTokenFresh: (int, int) -> bool) {
    var (sid, se) := ValidityPair(v);
    if sid.Some? && se.Some? then !isTokenFresh(sid.value, se.value)
    else Truthy(v.mem.access) && Truthy(v.mem.refresh)
  }

  /** With a complete in-memory pair, the store's values do not matter. */
  lemma MemoryPairShadowsStore(v: ContextView, u: ContextView, isTokenFresh: (int, int) -> bool)
    requires v.mem == u.mem && v.mem.issuedAt.Some? && v.mem.expiresIn.Some?
    ensures CheckRefreshes(v, isTokenFresh) == CheckRefreshes(u, isTokenFresh)
  {
  }

  /** The test `type === "dismiss" || "cancel" || "locked"` as written:
      the non-empty literal "cancel" is truthy, so it holds for every type. */
  function PromptExitedTest(t: ResultType): (r: bool)
    ensures r
  {
    t == Dismiss || Truthy(Some("cancel")) || Truthy(Some("locked"))
  }

  /** A completed sign-in succeeds only on a prompt result of type success
      with an auth request, a successful exchange and follow-up steps that
      do not throw. */
  predicate SignInSucceeds(hasRequest: bool, t: ResultType, exchange: ExchangeOutcome, followUpThrows: bool) {
    hasRequest && t == Success && exchange.Exchanged? && !followUpThrows
  }

  class SessionProvider {
    const store: SecureStore
    const client: Services.AuthClient
    var session: Option<string>
    var refreshToken: Option<string>
    var sessionIssuedDate: Option<int>
    var sessionExpiry: Option<int>
    var userInfo: Option<UserInfo>
    /** Calls of the session refresh. */
    var refreshCalls: nat
    /** Refresh requests sent to the identity provider, by refresh token. */
    var refreshGrants: seq<string>

    predicate Valid()
      reads this, client
    {
      client.store == store
    }

    function Memory(): Tokens
      reads this
    {
      Tokens(session, refreshToken, sessionIssuedDate, sessionExpiry)
    }

    function View(): ContextView
      reads this, store, client
    {
      ContextView(Memory(), userInfo, store.Contents(), client.authorization)
    }

    /** The session is loaded from the store. */
    constructor (client: Services.AuthClient)
      ensures Valid() && this.client == client && store == client.store
      ensures Memory() == store.Contents() && userInfo.None?
      ensures refreshCalls == 0 && refreshGrants == []
    {
      this.client := client;
      store := client.store;
      session := client.store.access;
      refreshToken := client.store.refresh;
      sessionIssuedDate := client.store.issuedAt;
      sessionExpiry := client.store.expiresIn;
      userInfo := None;
      refreshCalls := 0;
      refreshGrants := [];
    }

    /** Sign-out: with no session, answers false and changes nothing;
        otherwise clears every session field, sets the header to "Bearer "
        and answers true. */
    method SignOut() returns (signedOut: bool)
      requires Valid()
      modifies this, store, client`authorization
      ensures Valid()
      ensures signedOut == Truthy(old(session))
      ensures View() == SignedOut(old(View()))
      ensures refreshCalls == old(refreshCalls) && refreshGrants == old(refreshGrants)
    {
      if !Truthy(session) {
        return false;
      }
      session := None;
      store.access := None;
      refreshToken := None;
      store.refresh := None;
      userInfo := None;
      sessionIssuedDate := None;
      store.issuedAt := None;
      sessionExpiry := None;
      store.expiresIn := None;
      client.SetAccessToken("");
      assert "Bearer " + "" == "Bearer ";
      return true;
    }

    /** Two sign-outs in a row: the second answers false and changes nothing. */
    method SignOutTwice() returns (first: bool, second: bool)
      requires Valid()
      modifies this, store, client`authorization
      ensures Valid()
      ensures first == Truthy(old(session)) && !second
      ensures View() == SignedOut(old(View()))
      ensures refreshCalls == old(refreshCalls) && refreshGrants == old(refreshGrants)
    {
      first := SignOut();
      second := SignOut();
      SignOutIdempotent(old(View()));
    }

    /** Session refresh. Without a refresh token it changes nothing; a
        thrown refresh call or a response without an access token signs
        out; otherwise the session fields and header take the new values.
        The `finally` block returns false, so the answer is false on every
        path, the successful one included. */
    method RefreshSession(o: RefreshOutcome) returns (refreshed: bool)
      requires Valid()
      modifies this, store, client`authorization
      ensures Valid()
      ensures !refreshed
      ensures View() == RefreshedView(old(View()), o)
      ensures refreshCalls == old(refreshCalls) + 1
      ensures refreshGrants == old(refreshGrants) + (if Truthy(old(refreshToken)) then [old(refreshToken).value] else [])
    {
      refreshCalls := refreshCalls + 1;
      if !Truthy(refreshToken) {
        return false;
      }
      refreshGrants := refreshGrants + [refreshToken.value];
      match o {
        case RefreshThrew =>
          var _ := SignOut();
        case RefreshReturned(res) =>
          if res.accessToken != "" {
            session := Some(res.accessToken);
            store.access := Some(res.accessToken);
            client.SetAccessToken(res.accessToken);
            sessionIssuedDate := Some(res.issuedAt);
            store.issuedAt := Some(res.issuedAt);
            sessionExpiry := Some(RefreshExpiry(res.expiresIn));
            store.expiresIn := Some(RefreshExpiry(res.expiresIn));
            var kept := if Truthy(res.refreshToken) then res.refreshToken else refreshToken;
            refreshToken := kept;
            store.refresh := kept;
            // the `return true` here is overridden by the finally block
          } else {
            var _ := SignOut();
          }
      }
      refreshed := false;
    }

    /** The context's validity check: judges the in-memory issue time and
        expiry when both are present and the stored ones otherwise, and
        calls the session refresh when that pair is complete and stale, or
        incomplete while a session and a refresh token are held. */
    method CheckTokenValidity(isTokenFresh: (int, int) -> bool, o: RefreshOutcome)
      requires Valid()
      modifies this, store, client`authorization
      ensures Valid()
      ensures refreshCalls == old(refreshCalls) + (if CheckRefreshes(old(View()), isTokenFresh) then 1 else 0)
      ensures refreshGrants == old(refreshGrants) +
        (if CheckRefreshes(old(View()), isTokenFresh) && Truthy(old(refreshToken)) then [old(refreshToken).value] else [])
      ensures View() == if CheckRefreshes(old(View()), isTokenFresh) then RefreshedView(old(View()), o) else old(View())
    {
      var sid, se;
      if sessionIssuedDate.None? || sessionExpiry.None? {
        sid := store.issuedAt;
        se := store.expiresIn;
      } else {
        sid := sessionIssuedDate;
        se := sessionExpiry;
      }
      if sid.Some? && se.Some? {
        var isFresh := isTokenFresh(sid.value, se.value);
        if !isFresh {
          var _ := RefreshSession(o);
        }
      } else if Truthy(session) && Truthy(refreshToken) {
        var _ := RefreshSession(o);
      }
    }

    /** Completion of the sign-in flow from the prompt's result. On a
        success result with an auth request, the exchanged tokens are
        written; the follow-up steps (initialising the authenticated state
        and recording onboarding) may still throw. Any other result answers
        false without an alert: `type === "dismiss" || "cancel" || "locked"`
        is always truthy, so the branch that throws is never taken. A throw
        raises an alert and answers false, keeping whatever was written. */
    method CompleteSignInFlow(hasRequest: bool, resultType: ResultType, exchange: ExchangeOutcome,
                              followUpThrows: bool)
      returns (result: bool, alerted: bool)
      requires Valid()
      modifies this, store, client`authorization
      ensures Valid()
      ensures result <==> SignInSucceeds(hasRequest, resultType, exchange, followUpThrows)
      ensures alerted <==> hasRequest && resultType == Success && (exchange.ExchangeThrew? || followUpThrows)
      ensures View() ==
        if hasRequest && resultType == Success && exchange.Exchanged?
        then ContextView(SignedInTokens(exchange.response), old(userInfo), SignedInTokens(exchange.response),
                         Some("Bearer " + exchange.response.accessToken))
        else old(View())
      ensures refreshCalls == old(refreshCalls) && refreshGrants == old(refreshGrants)
    {
      result := false;
      alerted := false;
      if hasRequest && resultType == Success {
        match exchange {
          case ExchangeThrew =>
            alerted := true;
          case Exchanged(res) =>
            var kept := if Truthy(res.refreshToken) then res.refreshToken else None;
            session := Some(res.accessToken);
            store.access := Some(res.accessToken);
            client.SetAccessToken(res.accessToken);
            refreshToken := kept;
            store.refresh := kept;
            sessionIssuedDate := Some(res.issuedAt);
            store.issuedAt := Some(res.issuedAt);
            sessionExpiry := Some(SignInExpiry(res.expiresIn));
            store.expiresIn := Some(SignInExpiry(res.expiresIn));
            if followUpThrows {
              alerted := true;
            } else {
              result := true;
            }
        }
      } else if PromptExitedTest(resultType) {
        result := false;
      } else {
        // the thrown "could not be completed" error, caught below
        alerted := true;
      }
    }
  }
}
