# ra-auth-msal: the session-decision layer, modelled in Dafny

This project models the session decisions that `ra-auth-msal` makes on top of the MSAL
browser client. `ra-auth-msal` is the adapter that lets a react-admin application sign in
through Microsoft Entra ID. The model covers:

- the auth provider returned by `msalAuthProvider`: login, logout, error classification,
  the route guard `checkAuth`, permissions, identity, and the redirect callback with its
  deep-link marker in `sessionStorage`;
- the request authorizer `msalHttpClient`;
- the refresh hook `msalRefreshAuth`;
- the process-wide initialization gate `initializeMsalInstance`.

The MSAL client and the browser are explicit state in `Msal.Host`:

- the active account and the cached accounts;
- an oracle that answers each silent token request;
- the cached response of `handleRedirectPromise`;
- the `sessionStorage` map, plus `location.href` and `location.origin`;
- whether the globals `window` and `sessionStorage` exist;
- an append-only effect log. It records each call with an outside effect, in order:
  `HandleRedirectPromise`, `AcquireTokenSilent`, `LoginRedirect`, `LogoutRedirect`,
  `SetActiveAccount`, `SetItem`, `RemoveItem` and `LocationReplace`.

The auth provider is a class whose methods call `Host`'s primitives. The authorizer and
the refresh hook are pure functions. Each takes the account state and the oracle, and
returns an `Invocation`: the effects the call caused and how its promise settles.
The initialization gate is a class with one field, `setupPromise`, which starts as
`None`. A trace function `Calls` replays any sequence of calls to the gate, and lemmas
about `Calls` state what holds across calls.

A promise that rejects is modelled as `Settled.Rejected`. When `acquireTokenSilent` or
`handleRedirectPromise` rejects, the rejection propagates: `AuthOutcome.Propagated` in the
provider, and `Rejected` in the authorizer and the refresh hook.

Files: `wrappers.dfy` (Option), `js.dfy` (the JavaScript value semantics the code relies
on), `msal.dfy`, `auth_provider.dfy`, `http_client.dfy`, `refresh_auth.dfy`,
`initialize_msal_instance.dfy`.

## Model

| member | source | states |
|---|---|---|
| `Msal.ResolveAccount` | packages/ra-auth-msal/src/authProvider.ts:141-145 | the active account if there is one, else the first cached account; none exactly when there is no active account and the cache is empty |
| `AuthProvider.CheckError` | packages/ra-auth-msal/src/authProvider.ts:134-138 | fails with Unauthorized exactly when `status` is strictly 401 or 403, otherwise resolves; destructuring undefined or null throws |
| `AuthProvider.DefaultGetPermissionsFromAccount` | packages/ra-auth-msal/src/authProvider.ts:16-18 | the default permissions are an empty list whatever the account |
| `AuthProvider.DefaultGetIdentityFromAccount` | packages/ra-auth-msal/src/authProvider.ts:20-26 | the identity holds every account field, plus `id` = localAccountId and `fullName` = username (both undefined without an account), and no other key |
| `AuthProvider.CanDeepLinkRedirectAsWritten` | packages/ra-auth-msal/src/authProvider.ts:110-113 | as written, the deep-link gate equals `enableDeepLinkRedirect` whatever the host provides |
| `AuthProvider.CanDeepLinkRedirect` | packages/ra-auth-msal/src/authProvider.ts:110-113 | the intended gate is open exactly when deep-linking is enabled and both `window` and `sessionStorage` exist |
| `AuthProvider.GateOpensWithoutGlobals` | packages/ra-auth-msal/src/authProvider.ts:110-113 | on every host that lacks `window` or `sessionStorage`, the written gate opens when deep-linking is enabled, and the intended one stays closed |
| `AuthProvider.GatesAgreeInBrowser` | packages/ra-auth-msal/src/authProvider.ts:110-113 | when both globals exist, the two gates agree |
| `AuthProvider.RedirectTarget` | packages/ra-auth-msal/src/authProvider.ts:187-188 | the callback goes to the stored marker when there is one, else to the origin |
| `AuthProvider.MsalAuthProvider.constructor` | packages/ra-auth-msal/src/authProvider.ts:96-113 | each parameter left undefined takes its default (`User.Read` scopes, the default projections, both flags true). The deep-link gate is computed as written, so it equals `enableDeepLinkRedirect` whatever the host. `handleRedirectPromise` is called once, and no account or storage changes |
| `AuthProvider.MsalAuthProvider.Login` | packages/ra-auth-msal/src/authProvider.ts:116-125 | with the gate open on a browser host, it stores `href` under `_ra_msal_redirect_key` and then logs one `LoginRedirect` with the login request. With the gate open on a host missing `window` or `sessionStorage`, it rejects with a ReferenceError before any effect. With the gate closed, it only logs the `LoginRedirect` |
| `AuthProvider.MsalAuthProvider.Logout` | packages/ra-auth-msal/src/authProvider.ts:127-132 | with no active account nothing changes; otherwise exactly one `LogoutRedirect` for that account is logged |
| `AuthProvider.MsalAuthProvider.CheckAuth` | packages/ra-auth-msal/src/authProvider.ts:140-164 | the token is requested only for the resolved account. Ok exactly when an account and a token are both present. With no account or no token and `redirectOnCheckAuth` true: a login and then SilentFailure, whose message is `false`; a rejection of that login (a missing global) is passed on instead. With the flag false: Unauthorized and no redirect. A rejected token request propagates. The accounts never change |
| `AuthProvider.MsalAuthProvider.GetPermissions` | packages/ra-auth-msal/src/authProvider.ts:166-169 | returns the configured projection of the active account, with no fallback to cached accounts, unchanged |
| `AuthProvider.MsalAuthProvider.GetIdentity` | packages/ra-auth-msal/src/authProvider.ts:171-174 | returns the configured identity projection of the active account |
| `AuthProvider.MsalAuthProvider.HandleCallback` | packages/ra-auth-msal/src/authProvider.ts:176-192 | with no account in the response: Authentication failed, and the active account and storage are untouched. Otherwise that account becomes active. With the gate open on a browser host, it then navigates to the marker (or the origin) and removes the marker, in that order. On a host missing `window` or `sessionStorage`, it rejects with a ReferenceError after activating the account, and storage is untouched |
| `AuthProvider.DeepLinkRoundTrip` | packages/ra-auth-msal/src/authProvider.ts:116-192 | on a browser host with deep-linking enabled, a login followed by a callback navigates back to the page that started the login and clears the marker; a second callback falls back to the origin |
| `HttpClient.UserContext` | packages/ra-auth-msal/src/httpClient.ts:44-48 | `authenticated` is true exactly for a non-empty access token; the header is `Bearer <token>`, or the literal `Bearer undefined` without a result |
| `HttpClient.MsalHttpClient` | packages/ra-auth-msal/src/httpClient.ts:35-50 | exactly one silent request for the active account (present or not). The caller's options, `{}` by default, are forwarded with only `user` added or replaced. A rejection propagates |
| `HttpClient.TokenRequestedForActiveAccount` | packages/ra-auth-msal/src/httpClient.ts:4-43 | the request carries the active account and the configured scopes and refresh flag; the default is `["User.Read"]` with `forceRefresh` false |
| `HttpClient.AuthenticatedIffToken` | packages/ra-auth-msal/src/httpClient.ts:44-46 | `authenticated` holds exactly when the access token is a non-empty string |
| `RefreshAuth.MsalRefreshAuth` | packages/ra-auth-msal/src/refreshAuth.ts:8-29 | it resolves the account like `checkAuth` and makes at most one token request, only for a resolved account. It resolves whatever the token answer, unless the client rejects. It causes no effect other than the token request |
| `RefreshAuth.RefreshSucceedsUnlessRejected` | packages/ra-auth-msal/src/refreshAuth.ts:21-28 | the hook fails exactly when it issued a token request for an account and that request was rejected |
| `InitializeMsalInstance.Settle` | packages/ra-auth-msal/src/initializeMsalInstance.ts:9 | a call yields its own instance exactly when the shared setup fulfilled, and otherwise the setup's rejection |
| `InitializeMsalInstance.Call` | packages/ra-auth-msal/src/initializeMsalInstance.ts:5-9 | the first call stores the setup of its instance and records one `initialize()`; a later call keeps the stored setup and initializes nothing |
| `InitializeMsalInstance.Calls` | packages/ra-auth-msal/src/initializeMsalInstance.ts:3-9 | a sequence of calls yields one outcome per call |
| `InitializeMsalInstance.CallsAfterSetup` | packages/ra-auth-msal/src/initializeMsalInstance.ts:6-9 | once the setup exists it is never replaced or cleared, so a failed setup is never retried, and every call settles from it |
| `InitializeMsalInstance.InitializeAtMostOnce` | packages/ra-auth-msal/src/initializeMsalInstance.ts:3-9 | over any sequence of calls, `initialize()` runs at most once, for the first call's instance, and every call observes that outcome |
| `InitializeMsalInstance.OtherInstanceNeverInitialized` | packages/ra-auth-msal/src/initializeMsalInstance.ts:3-8 | the guard is global: only the first call's instance is ever initialized, and after a failed first setup a later call with another instance fails too |
| `InitializeMsalInstance.Gate.constructor` | packages/ra-auth-msal/src/initializeMsalInstance.ts:3 | the module starts with no setup promise and no initialization |
| `InitializeMsalInstance.Gate.InitializeMsalInstance` | packages/ra-auth-msal/src/initializeMsalInstance.ts:5-9 | one call changes the state exactly as `Call` does: it sets the setup only when none exists and never replaces it, and it returns the caller's instance once that setup settles |

## Left out

- MSAL internals are not modelled: how `acquireTokenSilent`, `loginRedirect`, `logoutRedirect` and `handleRedirectPromise` work, the token cache and the accounts cache. Silent tokens come from a fixed oracle, and the redirect response is a fixed value.
- A redirect or a `location.replace` is only logged. The page unload that follows is not modelled, and `href` does not change.
- `loginRedirect` is not awaited in `login`, and `logoutRedirect` could reject. Rejections of these two calls are not modelled.
- `fetchUtils.fetchJson` is a foreign HTTP/JSON call. `HttpClient.MsalHttpClient` ends with the `(url, options)` pair it would receive.
- `addRefreshAuthToAuthProvider` (packages/ra-auth-msal/src/authProvider.ts:195-198) is a react-admin wrapper. The refresh hook is modelled on its own in `RefreshAuth.MsalRefreshAuth`.
- Custom `getPermissionsFromAccount` and `getIdentityFromAccount` callbacks are arbitrary functions whose result is returned unchanged. An asynchronous callback that rejects is not modelled.
- Request configurations hold only `scopes`, plus `forceRefresh` for the token request. Any other `SilentRequest` field is not modelled. This includes an `account` inside `tokenRequest`, which the spread `{ account, ...tokenRequest }` would let override the resolved account.
- `Account` keeps seven fields of MSAL's `AccountInfo`. The spread `...account` in the default identity projection also copies any other field (for example `idToken` or `nativeAccountId`), so `DefaultGetIdentityFromAccount`'s "no other key" holds for the modelled fields only.
- `./constants` is not part of this model. Its `defaultTokenRequest` is taken to be the one in packages/ra-auth-msal/src/httpClient.ts:4-7.
- Promise interleaving is not modelled. Calls to the initialization gate are taken one after another, and the check and the assignment do not suspend.
- A `status` is a number (`real`). NaN and the other non-integral oddities of JavaScript numbers play no part in `checkError` and are not modelled.
- packages/ra-auth-msal/src/LoginPage.tsx is a view with a one-second timer, and the demo package is wiring and configuration. Neither is modelled.

## Findings

| source | as written | input that shows it | evidently intended | confidence | as-written member | corrected member |
|---|---|---|---|---|---|---|
| packages/ra-auth-msal/src/authProvider.ts:110-113 | `typeof window != undefined && typeof sessionStorage != undefined` compares the string from `typeof` with the value `undefined`. A string is never loosely equal to `undefined`, so the guard is always true and the gate reduces to `enableDeepLinkRedirect` | a host without `sessionStorage` (`hasWindow` true, `hasSessionStorage` false) with deep-linking enabled: the gate opens, and `login` rejects with a ReferenceError at `sessionStorage.setItem` instead of starting the redirect | compare with the string `"undefined"`, so the gate is closed when either global is missing | high; not executed | `AuthProvider.CanDeepLinkRedirectAsWritten`, used by `MsalAuthProvider`, whose `Login`, `CheckAuth` and `HandleCallback` state the ReferenceError; exhibited for every host missing a global by `AuthProvider.GateOpensWithoutGlobals` | `AuthProvider.CanDeepLinkRedirect`: it opens only when both globals exist, so the ReferenceError branches of those three methods, each guarded by an open gate on a host missing a global, cannot be reached. `AuthProvider.GatesAgreeInBrowser` shows both gates agree in a browser |
