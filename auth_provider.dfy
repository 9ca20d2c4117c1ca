/** `msalAuthProvider`: the session controller. It keeps no session state of its own;
    every operation reads the identity client afresh. The only state it writes is the
    deep-link marker in `sessionStorage`, under `RedirectKey`. */
module AuthProvider {
  import opened Wrappers
  import opened Js
  import opened Msal

  const RedirectKey := "_ra_msal_redirect_key"

  /** How an operation's promise settles. */
  datatype AuthOutcome =
    | Ok                        // resolves
    | SilentFailure             // rejects with `{ message: false }`
    | Unauthorized              // rejects with `new Error("Unauthorized")`
    | AuthenticationFailed      // rejects with `new Error("Authentication failed")`
    | Propagated(reason: string) // an identity-client rejection passed through
  {
    /** The `message` of the rejection, or `None` when the promise resolves. */
    function Message(): Option<Value> {
      match this
      case Ok => None
      case SilentFailure => Some(Bool(false))
      case Unauthorized => Some(Str("Unauthorized"))
      case AuthenticationFailed => Some(Str("Authentication failed"))
      case Propagated(reason) => Some(Str(reason))
    }
  }

  /** The constructor's parameters; `None` is a parameter left undefined. */
  datatype Params = Params(
    loginRequest: Option<RedirectRequest>,
    tokenRequest: Option<TokenRequest>,
    getPermissionsFromAccount: Option<Option<Account> -> Value>,
    getIdentityFromAccount: Option<Option<Account> -> Value>,
    redirectOnCheckAuth: Option<bool>,
    enableDeepLinkRedirect: Option<bool>)

  /** `checkError({ status })`: only 401 and 403 (compared with `===`) are this adapter's
      concern. Destructuring `undefined` or `null` throws a TypeError. */
  function CheckError(error: Value): (r: AuthOutcome)
    ensures LooselyEqualsUndefined(error) ==> r == Propagated("TypeError")
    ensures !LooselyEqualsUndefined(error) ==>
      (r == Unauthorized <==> StatusOf(error) == Num(401.0) || StatusOf(error) == Num(403.0))
    ensures !LooselyEqualsUndefined(error) && r != Unauthorized ==> r == Ok
  {
    if LooselyEqualsUndefined(error) then Propagated("TypeError")
    else
      var status := StatusOf(error);
      if status == Num(401.0) || status == Num(403.0) then Unauthorized else Ok
  }

  /** The `status` property of a non-nullish value (undefined when it has none). */
  function StatusOf(error: Value): Value {
    if error.Obj? && "status" in error.fields then error.fields["status"] else Undefined
  }

  /** The default permission projection: an empty list, whatever the account. */
  function DefaultGetPermissionsFromAccount(account: Option<Account>): (r: Value)
    ensures r.Arr? && |r.items| == 0
  {
    Arr([])
  }

  /** The own properties of an `AccountInfo` object; `{ ...undefined }` has none. */
  function AccountFields(account: Option<Account>): map<string, Value> {
    match account
    case None => map[]
    case Some(a) =>
      var required := map["homeAccountId" := Str(a.homeAccountId), "environment" := Str(a.environment),
                          "tenantId" := Str(a.tenantId), "username" := Str(a.username),
                          "localAccountId" := Str(a.localAccountId)];
      var withName := if a.name.Some? then required["name" := Str(a.name.value)] else required;
      if a.idTokenClaims.Some? then withName["idTokenClaims" := Obj(a.idTokenClaims.value)] else withName
  }

  /** The default identity projection `{ ...account, id: account?.localAccountId,
      fullName: account?.username }`. */
  function DefaultGetIdentityFromAccount(account: Option<Account>): (r: Value)
    ensures r.Obj?
    ensures r.fields.Keys == AccountFields(account).Keys + {"id", "fullName"}
    ensures r.fields["id"] == if account.Some? then Str(account.value.localAccountId) else Undefined
    ensures r.fields["fullName"] == if account.Some? then Str(account.value.username) else Undefined
    ensures forall k :: k in AccountFields(account) && k != "id" && k != "fullName" ==>
      r.fields[k] == AccountFields(account)[k]
  {
    var id := if account.Some? then Str(account.value.localAccountId) else Undefined;
    var fullName := if account.Some? then Str(account.value.username) else Undefined;
    Obj(AccountFields(account)["id" := id]["fullName" := fullName])
  }

  /** The deep-link gate AS WRITTEN: `typeof x != undefined` compares a string with the
      value `undefined`, which is never loosely equal to a string, so the host checks
      have no effect. This is the gate the provider uses. */
  function CanDeepLinkRedirectAsWritten(enable: bool, hasWindow: bool, hasSessionStorage: bool): (r: bool)
    ensures r == enable
  {
    enable
    && !LooselyEqualsUndefined(Str(TypeOf(hasWindow)))
    && !LooselyEqualsUndefined(Str(TypeOf(hasSessionStorage)))
  }

  /** The deep-link gate as intended: `typeof x !== "undefined"`. */
  function CanDeepLinkRedirect(enable: bool, hasWindow: bool, hasSessionStorage: bool): (r: bool)
    ensures r <==> enable && hasWindow && hasSessionStorage
  {
    enable && TypeOf(hasWindow) != "undefined" && TypeOf(hasSessionStorage) != "undefined"
  }

  /** On every host that lacks `window` or `sessionStorage`, the written gate still opens
      when deep-linking is enabled, while the intended gate stays closed. */
  lemma GateOpensWithoutGlobals(hasWindow: bool, hasSessionStorage: bool)
    requires !hasWindow || !hasSessionStorage
    ensures CanDeepLinkRedirectAsWritten(true, hasWindow, hasSessionStorage)
    ensures !CanDeepLinkRedirect(true, hasWindow, hasSessionStorage)
  {
  }

  /** In a browser, where both globals exist, the two gates agree. */
  lemma GatesAgreeInBrowser(enable: bool)
    ensures CanDeepLinkRedirectAsWritten(enable, true, true) == CanDeepLinkRedirect(enable, true, true)
  {
  }

  /** `response?.account` of a settled `handleRedirectPromise`. */
  function RedirectAccount(response: MsalResponse): Option<Account> {
    if response.Fulfilled? && response.value.Some? then response.value.value.account else None
  }

  /** Where the callback navigates: the stored marker, else the origin (`??`). */
  function RedirectTarget(storage: map<string, string>, origin: string): (url: string)
    ensures RedirectKey in storage ==> url == storage[RedirectKey]
    ensures RedirectKey !in storage ==> url == origin
  {
    if RedirectKey in storage then storage[RedirectKey] else origin
  }

  /** Whether the host has both browser globals the deep-link protocol touches. */
  predicate HasBrowserGlobals(host: Host) {
    host.hasWindow && host.hasSessionStorage
  }

  class MsalAuthProvider {
    const host: Host
    const loginRequest: RedirectRequest
    const tokenRequest: TokenRequest
    const getPermissionsFromAccount: Option<Account> -> Value
    const getIdentityFromAccount: Option<Account> -> Value
    const redirectOnCheckAuth: bool
    const enableDeepLinkRedirect: bool
    const canDeepLinkRedirect: bool

    ghost predicate Valid() {
      canDeepLinkRedirect == CanDeepLinkRedirectAsWritten(enableDeepLinkRedirect, host.hasWindow, host.hasSessionStorage)
    }

    /** `msalAuthProvider({ msalInstance, ... })`: fills in the defaults, computes the
        deep-link gate as written, and fires the global `handleRedirectPromise()` once. */
    constructor (msalInstance: Host, params: Params)
      modifies msalInstance
      ensures Valid() && host == msalInstance
      ensures loginRequest == params.loginRequest.GetOr(DefaultLoginRequest)
      ensures tokenRequest == params.tokenRequest.GetOr(DefaultTokenRequest)
      ensures getPermissionsFromAccount == params.getPermissionsFromAccount.GetOr(DefaultGetPermissionsFromAccount)
      ensures getIdentityFromAccount == params.getIdentityFromAccount.GetOr(DefaultGetIdentityFromAccount)
      ensures redirectOnCheckAuth == params.redirectOnCheckAuth.GetOr(true)
      ensures enableDeepLinkRedirect == params.enableDeepLinkRedirect.GetOr(true)
      ensures canDeepLinkRedirect == enableDeepLinkRedirect
      ensures msalInstance.activeAccount == old(msalInstance.activeAccount)
      ensures msalInstance.allAccounts == old(msalInstance.allAccounts)
      ensures msalInstance.storage == old(msalInstance.storage)
      ensures msalInstance.log == old(msalInstance.log) + [Effect.HandleRedirectPromise]
    {
      host := msalInstance;
      loginRequest := params.loginRequest.GetOr(DefaultLoginRequest);
      tokenRequest := params.tokenRequest.GetOr(DefaultTokenRequest);
      getPermissionsFromAccount := params.getPermissionsFromAccount.GetOr(DefaultGetPermissionsFromAccount);
      getIdentityFromAccount := params.getIdentityFromAccount.GetOr(DefaultGetIdentityFromAccount);
      redirectOnCheckAuth := params.redirectOnCheckAuth.GetOr(true);
      enableDeepLinkRedirect := params.enableDeepLinkRedirect.GetOr(true);
      canDeepLinkRedirect := CanDeepLinkRedirectAsWritten(params.enableDeepLinkRedirect.GetOr(true),
                                                          msalInstance.hasWindow, msalInstance.hasSessionStorage);
      new;
      var _ := msalInstance.HandleRedirectPromise();
    }

    /** `login()`: remember the current location (when deep-linking), then start the
        redirect login with the configured login request. Evaluating a missing
        `sessionStorage` or `window` throws before the redirect is started. */
    method Login() returns (r: AuthOutcome)
      requires Valid()
      modifies host
      ensures host.activeAccount == old(host.activeAccount) && host.allAccounts == old(host.allAccounts)
      ensures canDeepLinkRedirect && !HasBrowserGlobals(host) ==>
        && r == Propagated(ReferenceError)
        && host.storage == old(host.storage) && host.log == old(host.log)
      ensures canDeepLinkRedirect && HasBrowserGlobals(host) ==>
        && r == Ok
        && host.storage == old(host.storage)[RedirectKey := host.href]
        && host.log == old(host.log) + [SetItem(RedirectKey, host.href), LoginRedirect(loginRequest)]
      ensures !canDeepLinkRedirect ==>
        && r == Ok
        && host.storage == old(host.storage)
        && host.log == old(host.log) + [LoginRedirect(loginRequest)]
    {
      if canDeepLinkRedirect {
        // `sessionStorage.setItem(MSAL_REDIRECT_KEY, window.location.href)`: the callee's
        // object is evaluated before the argument.
        if !host.hasSessionStorage {
          return Propagated(ReferenceError);
        }
        var href := host.LocationHref();
        if href.Rejected? {
          return Propagated(href.reason);
        }
        host.SetItem(RedirectKey, href.value);
      }
      host.LoginRedirect(loginRequest);
      return Ok;
    }

    /** `logout()`: a redirect logout for the active account; nothing at all without one. */
    method Logout()
      modifies host
      ensures host.activeAccount == old(host.activeAccount) && host.allAccounts == old(host.allAccounts)
      ensures host.storage == old(host.storage)
      ensures host.log == old(host.log) +
        (if old(host.activeAccount).Some? then [LogoutRedirect(old(host.activeAccount).value)] else [])
    {
      var account := host.activeAccount;
      if account.Some? {
        host.LogoutRedirect(account.value);
      }
    }

    /** `checkAuth()`: the route guard. The token is requested only for a resolved
        account; without an account or a token it either starts a login and fails
        silently (passing on a rejection of `login`), or fails with Unauthorized. */
    method CheckAuth() returns (r: AuthOutcome)
      requires Valid()
      modifies host
      ensures host.activeAccount == old(host.activeAccount) && host.allAccounts == old(host.allAccounts)
      ensures
        var account := ResolveAccount(old(host.activeAccount), old(host.allAccounts));
        var request := SilentRequestFor(account, tokenRequest);
        var requested := if account.Some? then [AcquireTokenSilent(request)] else [];
        var response := if account.Some? then host.silentToken(request) else Fulfilled(None);
        var loginFails := canDeepLinkRedirect && !HasBrowserGlobals(host);
        && (response.Rejected? ==>
              r == Propagated(response.reason) && host.log == old(host.log) + requested
              && host.storage == old(host.storage))
        && (response.Fulfilled? && account.Some? && response.value.Some? ==>
              r == Ok && host.log == old(host.log) + requested && host.storage == old(host.storage))
        && (response.Fulfilled? && (account.None? || response.value.None?) && redirectOnCheckAuth && loginFails ==>
              r == Propagated(ReferenceError) && host.log == old(host.log) + requested
              && host.storage == old(host.storage))
        && (response.Fulfilled? && (account.None? || response.value.None?) && redirectOnCheckAuth && !loginFails ==>
              && r == SilentFailure && r.Message() == Some(Bool(false))
              && host.log == old(host.log) + requested +
                   (if canDeepLinkRedirect then [SetItem(RedirectKey, host.href)] else []) +
                   [LoginRedirect(loginRequest)]
              && host.storage == if canDeepLinkRedirect then old(host.storage)[RedirectKey := host.href]
                                 else old(host.storage))
        && (response.Fulfilled? && (account.None? || response.value.None?) && !redirectOnCheckAuth ==>
              r == Unauthorized && host.log == old(host.log) + requested && host.storage == old(host.storage))
      ensures
        var account := ResolveAccount(old(host.activeAccount), old(host.allAccounts));
        var response := host.silentToken(SilentRequestFor(account, tokenRequest));
        r == Ok <==> account.Some? && response.Fulfilled? && response.value.Some?
    {
      var account := host.activeAccount;
      if account.None? {
        var accounts := host.allAccounts;
        account := if |accounts| > 0 then Some(accounts[0]) else None;
      }

      var token: Option<AuthenticationResult> := None;
      if account.Some? {
        var response := host.AcquireTokenSilent(SilentRequestFor(account, tokenRequest));
        if response.Rejected? {
          return Propagated(response.reason);
        }
        token := response.value;
      }

      if account.None? || token.None? {
        if redirectOnCheckAuth {
          var login := Login();
          if login != Ok {
            return login;
          }
          return SilentFailure;
        }
        return Unauthorized;
      }
      return Ok;
    }

    /** `getPermissions()`: the configured projection of the active account (no fallback
        to cached accounts), returned unchanged. */
    method GetPermissions() returns (r: Value)
      ensures r == getPermissionsFromAccount(host.activeAccount)
    {
      var account := host.activeAccount;
      r := getPermissionsFromAccount(account);
    }

    /** `getIdentity()`: the configured projection of the active account. */
    method GetIdentity() returns (r: Value)
      ensures r == getIdentityFromAccount(host.activeAccount)
    {
      var account := host.activeAccount;
      r := getIdentityFromAccount(account);
    }

    /** `handleCallback()`: after the identity provider redirected back, activate the
        returned account and restore the deep link (then forget it). A missing global
        throws after the account has been activated. */
    method HandleCallback() returns (r: AuthOutcome)
      requires Valid()
      modifies host
      ensures host.allAccounts == old(host.allAccounts)
      ensures host.redirectResponse.Rejected? ==>
        && r == Propagated(host.redirectResponse.reason)
        && host.activeAccount == old(host.activeAccount) && host.storage == old(host.storage)
        && host.log == old(host.log) + [HandleRedirectPromise]
      ensures host.redirectResponse.Fulfilled? && RedirectAccount(host.redirectResponse).None? ==>
        && r == AuthenticationFailed
        && host.activeAccount == old(host.activeAccount) && host.storage == old(host.storage)
        && host.log == old(host.log) + [HandleRedirectPromise]
      ensures RedirectAccount(host.redirectResponse).Some? ==>
        var account := RedirectAccount(host.redirectResponse).value;
        && host.activeAccount == Some(account)
        && (canDeepLinkRedirect && !HasBrowserGlobals(host) ==>
              && r == Propagated(ReferenceError)
              && host.storage == old(host.storage)
              && host.log == old(host.log) + [HandleRedirectPromise, SetActiveAccount(account)])
        && (canDeepLinkRedirect && HasBrowserGlobals(host) ==>
              && r == Ok
              && host.storage == old(host.storage) - {RedirectKey}
              && host.log == old(host.log) + [HandleRedirectPromise, SetActiveAccount(account),
                   LocationReplace(RedirectTarget(old(host.storage), host.origin)), RemoveItem(RedirectKey)])
        && (!canDeepLinkRedirect ==>
              && r == Ok
              && host.storage == old(host.storage)
              && host.log == old(host.log) + [HandleRedirectPromise, SetActiveAccount(account)])
    {
      var response := host.HandleRedirectPromise();
      if response.Rejected? {
        return Propagated(response.reason);
      }
      var account := if response.value.Some? then response.value.value.account else None;
      if account.None? {
        return AuthenticationFailed;
      }
      host.SetActiveAccount(account.value);

      if canDeepLinkRedirect {
        // `sessionStorage.getItem(MSAL_REDIRECT_KEY) ?? window.location.origin`
        if !host.hasSessionStorage {
          return Propagated(ReferenceError);
        }
        var stored := host.GetItem(RedirectKey);
        var redirectUrl: string;
        if stored.Some? {
          redirectUrl := stored.value;
        } else {
          var origin := host.LocationOrigin();
          if origin.Rejected? {
            return Propagated(origin.reason);
          }
          redirectUrl := origin.value;
        }
        // `window.location.replace(redirectUrl)`
        if !host.hasWindow {
          return Propagated(ReferenceError);
        }
        host.LocationReplace(redirectUrl);
        host.RemoveItem(RedirectKey);
      }
      return Ok;
    }
  }

  /** The deep-link round trip on a browser host: a login stores the current location,
      the callback that follows navigates back to it and clears the marker, and a second
      callback finds no marker and falls back to the origin. */
  method DeepLinkRoundTrip(provider: MsalAuthProvider) returns (login: AuthOutcome, first: AuthOutcome, second: AuthOutcome)
    requires provider.Valid() && provider.enableDeepLinkRedirect && HasBrowserGlobals(provider.host)
    requires RedirectAccount(provider.host.redirectResponse).Some?
    modifies provider.host
    ensures login == Ok && first == Ok && second == Ok
    ensures var host := provider.host;
      var account := RedirectAccount(host.redirectResponse).value;
      && host.activeAccount == Some(account)
      && host.storage == old(host.storage) - {RedirectKey}
      && host.log == old(host.log) + [
           SetItem(RedirectKey, host.href), LoginRedirect(provider.loginRequest),
           HandleRedirectPromise, SetActiveAccount(account), LocationReplace(host.href), RemoveItem(RedirectKey),
           HandleRedirectPromise, SetActiveAccount(account), LocationReplace(host.origin), RemoveItem(RedirectKey)]
  {
    login := provider.Login();
    first := provider.HandleCallback();
    second := provider.HandleCallback();
  }
}
