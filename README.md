# Token session of expo-auth-sample, in Dafny

This project models the token-session logic of a mobile app that signs in
against an OAuth2/OIDC identity provider. The logic lives in two files.

- `services/index.ts` is the HTTP client layer. Its module-level state is a
  failure counter `fail` with ceiling `barrier = 7`, a `refreshInProgress`
  flag and the client's default `Authorization` header. It reads and writes
  four secure-store keys: access token, refresh token, issued-at and
  expires-in. The layer has a manual token refresh, a validity check, a
  request interceptor that stamps the bearer token, and a response
  interceptor that classifies every error. The classifier's outcomes are a
  forced sign-out, a rejection or one resubmission.
- `store/contexts.tsx` is the session context. It holds the session, refresh
  token, issue time, expiry and user info. It offers sign-out, session
  refresh, a validity check and the completion of the sign-in flow.

Files:

- `js.dfy` (module `Js`) holds the JavaScript semantics the code relies on:
  nullable values, string truthiness, the text of `${x}` for an absent
  value, and `String.prototype.substring`.
- `storage.dfy` (module `Storage`) holds the secure store as a class with
  four fields. `Tokens` is their value, and `Provenance` is the rule that a
  usable access token comes with an issue time and a lifetime.
- `services.dfy` (module `Services`) holds class `AuthClient`, the
  module-level state of `services/index.ts`. Its methods are the
  interceptors and the refresh routine. Each is proved against a pure
  function of the old state (`Refreshed`, `ValidityChecked`, `Route`,
  `AfterError`, `FailAfterError`), and the properties are proved about
  those functions.
- `contexts.dfy` (module `Contexts`) holds class `SessionProvider`. Each of
  its setters writes the in-memory field and the store, as the storage hook
  does. Its methods are proved against `SignedOut`, `RefreshedView` and
  `SignedInTokens`.

Foreign calls are parameters:

- The token endpoint, `refreshAsync` and `exchangeCodeAsync` are outcome
  values: a failure or throw, or an answer.
- The identity library's `TokenResponse.isTokenFresh` is a function
  parameter `isTokenFresh(issuedAt, expiresIn)`.
- `Date.now()` is a parameter `nowMs`.
- Aborts, navigation, waits, refresh-routine calls and token-endpoint
  requests are recorded in fields (`aborted`, `redirects`, `waits`,
  `refreshCalls`, `tokenRequests`, `refreshGrants`).

Quirks of the code that the model keeps:

- Every error response increments the counter, not only 401s.
- A bad-request 401 refreshes and then falls through to the generic
  resubmission. That resubmission uses the bare client, so it does not pass
  through these interceptors, and it carries the request's old header.
- A canceled request that has a configuration is always resubmitted: after
  the wait loop when a token is stored, and by the generic branch otherwise.
- The manual refresh returns early while another refresh is running. It
  does not share that refresh's result.
- The refresh's four store writes are sequential. An answer without
  `expires_in` leaves the new access and refresh tokens beside the old
  issue time and lifetime (`PartialRefreshBreaksProvenance`).
- A failed manual refresh changes nothing, and its error is swallowed.
- Sign-out does not reset the failure counter. A forced sign-out resets the
  counter but does not clear the store.
- The context's refresh answers false on every path, because its `finally`
  block returns false.
- `type === "dismiss" || "cancel" || "locked"` is always truthy. So the
  sign-in throw for an unexpected result type is never reached, and such a
  result returns false with no alert (`PromptExitedTest`).
- A token read from the store that is absent is stamped as `Bearer null`.
  An absent `access_token` in a refresh answer becomes `Bearer undefined`.
  Sign-out sets the header to `Bearer `.
- Sign-in stores `expiresIn || 3600`, so a zero lifetime becomes 3600.
  Refresh stores `expiresIn ?? 3600`, which keeps a zero
  (`ExpiryDefaultsDiffer`).

## Model

| member | source | states |
|---|---|---|
| `Services.AbridgedTokenInfo` | services/index.ts:52-62 | Nothing for an absent or empty token. Otherwise "Token info: " + the first min(15, n) characters + "..." + the last min(10, n) characters. The result is 17 to 40 characters long, and exactly 40 for tokens of 15 or more characters. |
| `Services.ShortTokenShownTwice` | services/index.ts:57-59 | A token of at most 10 characters appears in full on both sides of "...". |
| `Services.FailAfterError` | services/index.ts:231-257 | After an error the counter is the old one plus one, or 0 when that passes the ceiling of 7. From a valid counter it stays in 0..7, and it is 0 exactly when a sign-out is forced. |
| `Services.StreakFromZero` | services/index.ts:30-31 | From 0, n consecutive errors leave the counter at n mod 8. |
| `Services.EighthErrorForcesSignOut` | services/index.ts:239-257 | From 0, error k+1 forces a sign-out iff k mod 8 = 7. The first seven never do, and the eighth does. |
| `Services.Refreshed` | services/index.ts:80-140 | No change while a refresh is in progress or when the token request fails. A full answer stores access, refresh, expires-in and issued-at = floor(now/1000), and sets the header to "Bearer " + access token. An answer without expires-in writes only the two tokens and leaves the header. Issued-at only ever becomes now/1000. Provenance is kept except by that partial write. |
| `Services.PartialRefreshBreaksProvenance` | services/index.ts:113-121 | A concrete answer without expires-in leaves a stored access token that has no issue time. |
| `Services.ValidityChecked` | services/index.ts:142-169 | Refreshes exactly when issued-at and expires-in are both stored and the token is not fresh. Otherwise nothing changes. |
| `Services.AfterCancelWait` | services/index.ts:266-298 | A request with a truthy header gets "Bearer " + the stored token ("Bearer null" when none is stored). Any other request is unchanged. The route is kept. |
| `Services.Route` | services/index.ts:238-357 | Forced sign-out iff the counter passes 7. Otherwise a bad-request 404, 403 or 400 is rejected, and an error without a config is rejected. Every other error with a config is resubmitted once. A non-canceled error is resubmitted with its own config, header included. A canceled error is resubmitted with `AfterCancelWait` of its config, so a truthy header is re-stamped with "Bearer " + the stored token. |
| `Services.AfterError` | services/index.ts:225-358 | A forced sign-out changes nothing. Only a bad-request 401 with a config and both timing values stored changes the tokens, by exactly one refresh. A canceled request with a truthy header sets the default header to "Bearer " + the stored token. In every other case the default header is kept. |
| `Services.AuthClient.constructor` | services/index.ts:30-40 | Counter 0, flag down, no default header, nothing recorded. |
| `Services.AuthClient.SetAccessToken` | services/index.ts:366-368 | The default header becomes "Bearer " + token, and nothing else changes. |
| `Services.AuthClient.PostTokenRequest` | services/index.ts:90-104 | The token endpoint is only called while the refresh flag is raised. The request carries the stored refresh token. |
| `Services.AuthClient.RefreshTokenManually` | services/index.ts:80-140 | The state becomes `Refreshed` of the old state. The flag is back to its old value on every path. The routine is recorded as called once, and a token request is sent iff no refresh was in progress. |
| `Services.AuthClient.CheckTokenValidity` | services/index.ts:142-169 | Answers true iff both timing values are stored and fresh. It refreshes iff they are stored and stale. |
| `Services.AuthClient.OnRequest` | services/index.ts:172-205 | Waits once if a refresh is in progress, then runs the validity check. It re-reads the token and sets both the default and the request header to "Bearer " + that token, even when none is stored. |
| `Services.AuthClient.OnResponse` | services/index.ts:216-224 | A 2xx response sets the counter to 0. |
| `Services.AuthClient.WaitForHeader` | services/index.ts:260-298 | With a header present: one wait, then the header is set to the stored token. Without one: five waits and no change. |
| `Services.AuthClient.RefreshAfterUnauthorized` | services/index.ts:321-336 | The refresh routine is called exactly once when both timing values are stored. This happens through the check if the token is stale and explicitly if it is fresh. It is never called when either value is missing. |
| `Services.AuthClient.OnResponseError` | services/index.ts:225-358 | The counter becomes `FailAfterError` of the old one. The outcome is `Route`, and the tokens and header become `AfterError`. A forced sign-out aborts and navigates to "/sign-in?force=true". The counter stays in 0..7. The number of waits and refresh calls is stated. |
| `Services.AuthClient.ErrorStreak` | services/index.ts:231-257 | Through the handler, from 0 with no 2xx in between, error i forces a sign-out iff i mod 8 = 7. |
| `Contexts.SignInExpiry` | store/contexts.tsx:231 | `expiresIn \|\| 3600` is never 0. It keeps every non-zero lifetime, and a missing or zero lifetime becomes 3600. |
| `Contexts.RefreshExpiry` | store/contexts.tsx:349 | `expiresIn ?? 3600` keeps every given lifetime, 0 included, and a missing lifetime becomes 3600. |
| `Contexts.ExpiryDefaultsDiffer` | store/contexts.tsx:231-349 | The sign-in and refresh defaults differ exactly on a lifetime of 0. |
| `Contexts.SignedOut` | store/contexts.tsx:307-321 | With no session, nothing changes. Otherwise memory and store are cleared, user info is dropped and the header is "Bearer ". Afterwards there is never a session. |
| `Contexts.SignOutIdempotent` | store/contexts.tsx:310 | A second sign-out changes nothing. |
| `Contexts.RefreshedTokens` | store/contexts.tsx:345-350 | The new access token is stored, with the response's issue time and the lifetime `expiresIn ?? 3600`. The refresh token is the new one if non-empty, else the old one, so a held refresh token is never lost. |
| `Contexts.RefreshedView` | store/contexts.tsx:323-372 | Without a refresh token nothing changes. A thrown call or an empty access token signs out. Otherwise memory and store both hold `RefreshedTokens` and the header holds the new token. Provenance is kept. |
| `Contexts.SignedInTokens` | store/contexts.tsx:229-238 | Sign-in stores the access token, the response's issue time and the lifetime `expiresIn \|\| 3600`, which is never 0. A non-empty refresh token is stored; a missing or empty one is stored as null, so the old refresh token is discarded. |
| `Contexts.ValidityPair` | store/contexts.tsx:381-390 | The in-memory issue time and expiry are used iff both are present. Otherwise the stored ones are used. |
| `Contexts.MemoryPairShadowsStore` | store/contexts.tsx:381-390 | With both in-memory values present, the store does not affect the decision. |
| `Contexts.PromptExitedTest` | store/contexts.tsx:248 | The dismiss/cancel/locked test holds for every result type. |
| `Contexts.SessionProvider.constructor` | store/contexts.tsx:114-122 | The in-memory fields start as the stored values, with no user info. |
| `Contexts.SessionProvider.SignOut` | store/contexts.tsx:307-321 | Answers true iff a session is held. The state becomes `SignedOut` of the old state. |
| `Contexts.SessionProvider.SignOutTwice` | store/contexts.tsx:307-321 | A second consecutive sign-out answers false, and the state is that of one sign-out. |
| `Contexts.SessionProvider.RefreshSession` | store/contexts.tsx:323-372 | Always answers false. The state becomes `RefreshedView` of the old state. A refresh request carrying the held refresh token is sent iff one is held. |
| `Contexts.SessionProvider.CheckTokenValidity` | store/contexts.tsx:377-423 | Calls the refresh exactly when the judged pair is complete and not fresh, or incomplete while a session and a refresh token are held. Otherwise nothing changes. |
| `Contexts.SessionProvider.CompleteSignInFlow` | store/contexts.tsx:200-272 | Answers true iff a request exists, the type is "success", the exchange succeeds and the follow-up does not throw. It alerts only on a throw after a success result. The tokens are written whenever the exchange succeeded, even if a later step throws. |

## Left out

- HTTP transport: the client instance's base URL, timeout, accept header
  and abort signal, and the router. Aborts and navigation are recorded as
  `aborted` and `redirects`. A resubmission is returned as a `Disposition`
  and is not executed.
- Sleep durations (`sleep`, `axiosSleeprequest`, `DEFAULT_WAIT`). Waits are
  counted in `waits`. The network constants file is not part of this model,
  so the error codes are the three-valued `ErrorCode`.
- Concurrency. Calls run one after another, so no other caller can raise
  `refreshInProgress` or change a request's header during a wait. The
  early-return path is modelled, but interleavings are not.
- The request interceptor's error callback (services/index.ts:206-211). It
  only logs and rejects.
- Failing store writes. Every write is assumed to succeed, and writing an
  absent value deletes the key. `setStorageItemAsync` and `useStorageState`
  are not part of this model.
- React state timing. A setter updates memory and store at once; React's
  re-render, and closures that capture old values, are not modelled.
- `parseInt`/NaN and non-numeric stored timing values. Issue time and
  lifetime are stored as integers.
- Non-string header values for `printAbridgedTokenInfo` (arrays, numbers).
- Services.AbridgedTokenInfo: JavaScript's `length` and `substring` count UTF-16
  code units, while a Dafny `string` counts Unicode scalar values, so a
  token holding characters outside the Basic Multilingual Plane is cut at
  different places than the model says.
- Logging, `Alert` text, the iOS `dismiss()`, and the floating-point
  "expires in" messages.
- `signInFlow` and `promptAsync` (store/contexts.tsx:277-302).
- Contexts.SessionProvider.CompleteSignInFlow: the follow-up
  `initAuthenticatedState` and onboarding write are modelled only as
  succeeding or throwing. The validity check and refresh that the follow-up
  may run with the session captured before sign-in are not modelled.
- The React screens and provider wiring, the app-state hooks, and the thin
  API wrapper in services/MiddlewareAPIService.ts.
