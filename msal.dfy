/** The identity client (an MSAL `PublicClientApplication`) and the browser window it runs
    in, as explicit state. How MSAL acquires tokens, caches accounts and performs the
    redirect ceremonies is abstracted: a token request is answered by an oracle, the
    redirect response is a fixed value, and every call with an outside effect appends an
    entry to an append-only effect log. */
module Msal {
  import opened Wrappers
  import opened Js

  /** MSAL's `AccountInfo`. */
  datatype Account = Account(
    homeAccountId: string,
    environment: string,
    tenantId: string,
    username: string,
    localAccountId: string,
    name: Option<string>,
    idTokenClaims: Option<map<string, Value>>)

  /** MSAL's `AuthenticationResult`, reduced to what the adapter reads. */
  datatype AuthenticationResult = AuthenticationResult(account: Option<Account>, accessToken: string)

  /** The settled promise of `acquireTokenSilent` or `handleRedirectPromise`. */
  type MsalResponse = Settled<Option<AuthenticationResult>>

  /** The configured token request (the scope set and whether to bypass the token cache). */
  datatype TokenRequest = TokenRequest(scopes: seq<string>, forceRefresh: bool)

  /** The configured login request of a redirect login. */
  datatype RedirectRequest = RedirectRequest(scopes: seq<string>)

  /** The `SilentRequest` actually sent: `{ account, ...tokenRequest }`. */
  datatype SilentRequest = SilentRequest(account: Option<Account>, scopes: seq<string>, forceRefresh: bool)

  const DefaultLoginRequest := RedirectRequest(["User.Read"])
  const DefaultTokenRequest := TokenRequest(["User.Read"], false)

  function SilentRequestFor(account: Option<Account>, tokenRequest: TokenRequest): SilentRequest {
    SilentRequest(account, tokenRequest.scopes, tokenRequest.forceRefresh)
  }

  /** One call with an outside effect, in the order it was made. */
  datatype Effect =
    | HandleRedirectPromise
    | AcquireTokenSilent(request: SilentRequest)
    | LoginRedirect(loginRequest: RedirectRequest)
    | LogoutRedirect(account: Account)
    | SetActiveAccount(active: Account)
    | SetItem(key: string, value: string)
    | RemoveItem(removedKey: string)
    | LocationReplace(url: string)

  /** What a pure operation did: the effects it caused, then how its promise settled. */
  datatype Invocation<+T> = Invocation(effects: seq<Effect>, result: Settled<T>)

  /** The account-resolution rule of the route guard and the refresh hook: the active
      account, else the first cached account, else none (`accounts[0]` of an empty array). */
  function ResolveAccount(active: Option<Account>, cached: seq<Account>): (r: Option<Account>)
    ensures active.Some? ==> r == active
    ensures active.None? && |cached| > 0 ==> r == Some(cached[0])
    ensures r.None? <==> active.None? && cached == []
    ensures r.Some? ==> r == active || r.value in cached
  {
    if active.Some? then active
    else if |cached| > 0 then Some(cached[0])
    else None
  }

  /** The MSAL client together with the window (`location`) and `sessionStorage`.
      `GetItem`, `SetItem`, `RemoveItem` and `LocationReplace` are calls on those global
      objects, so they require the global to exist; evaluating a missing global throws a
      ReferenceError, which the callers model before making the call. */
  class Host {
    var activeAccount: Option<Account>
    var allAccounts: seq<Account>
    var storage: map<string, string>
    var log: seq<Effect>
    /** The oracle answering each silent token request. */
    const silentToken: SilentRequest -> MsalResponse
    /** The (internally cached) response of `handleRedirectPromise`. */
    const redirectResponse: MsalResponse
    const href: string
    const origin: string
    /** Whether the globals `window` and `sessionStorage` exist in this host. */
    const hasWindow: bool
    const hasSessionStorage: bool

    constructor (activeAccount: Option<Account>, allAccounts: seq<Account>, storage: map<string, string>,
                 silentToken: SilentRequest -> MsalResponse, redirectResponse: MsalResponse,
                 href: string, origin: string, hasWindow: bool, hasSessionStorage: bool)
      ensures this.activeAccount == activeAccount && this.allAccounts == allAccounts
      ensures this.storage == storage && this.log == []
      ensures this.silentToken == silentToken && this.redirectResponse == redirectResponse
      ensures this.href == href && this.origin == origin
      ensures this.hasWindow == hasWindow && this.hasSessionStorage == hasSessionStorage
    {
      this.activeAccount, this.allAccounts, this.storage, this.log := activeAccount, allAccounts, storage, [];
      this.silentToken, this.redirectResponse := silentToken, redirectResponse;
      this.href, this.origin := href, origin;
      this.hasWindow, this.hasSessionStorage := hasWindow, hasSessionStorage;
    }

    method AcquireTokenSilent(request: SilentRequest) returns (r: MsalResponse)
      modifies this`log
      ensures log == old(log) + [Effect.AcquireTokenSilent(request)]
      ensures r == silentToken(request)
    {
      log := log + [Effect.AcquireTokenSilent(request)];
      r := silentToken(request);
    }

    method HandleRedirectPromise() returns (r: MsalResponse)
      modifies this`log
      ensures log == old(log) + [Effect.HandleRedirectPromise]
      ensures r == redirectResponse
    {
      log := log + [Effect.HandleRedirectPromise];
      r := redirectResponse;
    }

    method LoginRedirect(request: RedirectRequest)
      modifies this`log
      ensures log == old(log) + [Effect.LoginRedirect(request)]
    {
      log := log + [Effect.LoginRedirect(request)];
    }

    method LogoutRedirect(account: Account)
      modifies this`log
      ensures log == old(log) + [Effect.LogoutRedirect(account)]
    {
      log := log + [Effect.LogoutRedirect(account)];
    }

    method SetActiveAccount(account: Account)
      modifies this`activeAccount, this`log
      ensures activeAccount == Some(account)
      ensures log == old(log) + [Effect.SetActiveAccount(account)]
    {
      activeAccount := Some(account);
      log := log + [Effect.SetActiveAccount(account)];
    }

    /** `window.location.href`: evaluating `window` throws when the global is missing. */
    function LocationHref(): (r: Settled<string>)
      ensures hasWindow <==> r == Fulfilled(href)
      ensures !hasWindow ==> r == Rejected(ReferenceError)
    {
      if hasWindow then Fulfilled(href) else Rejected(ReferenceError)
    }

    /** `window.location.origin`, likewise. */
    function LocationOrigin(): (r: Settled<string>)
      ensures hasWindow <==> r == Fulfilled(origin)
      ensures !hasWindow ==> r == Rejected(ReferenceError)
    {
      if hasWindow then Fulfilled(origin) else Rejected(ReferenceError)
    }

    /** `sessionStorage.getItem(key)`: null (here `None`) when the key is absent. */
    function GetItem(key: string): (r: Option<string>)
      requires hasSessionStorage
      reads this`storage
      ensures r.Some? <==> key in storage
      ensures r.Some? ==> r.value == storage[key]
    {
      if key in storage then Some(storage[key]) else None
    }

    method SetItem(key: string, value: string)
      requires hasSessionStorage
      modifies this`storage, this`log
      ensures storage == old(storage)[key := value]
      ensures log == old(log) + [Effect.SetItem(key, value)]
    {
      storage := storage[key := value];
      log := log + [Effect.SetItem(key, value)];
    }

    method RemoveItem(key: string)
      requires hasSessionStorage
      modifies this`storage, this`log
      ensures storage == old(storage) - {key}
      ensures log == old(log) + [Effect.RemoveItem(key)]
    {
      storage := storage - {key};
      log := log + [Effect.RemoveItem(key)];
    }

    /** `window.location.replace(url)`: the navigation itself is only logged. */
    method LocationReplace(url: string)
      requires hasWindow
      modifies this`log
      ensures log == old(log) + [Effect.LocationReplace(url)]
    {
      log := log + [Effect.LocationReplace(url)];
    }
  }
}
