/** `msalRefreshAuth`: best-effort revalidation. It resolves the account by the same rule
    as the route guard and requests a token only for a resolved account; it reads the
    identity client and never changes it. */
module RefreshAuth {
  import opened Wrappers
  import opened Js
  import opened Msal

  /** One run of the hook built by `msalRefreshAuth({ msalInstance, tokenRequest })`. */
  function MsalRefreshAuth(tokenRequest: Option<TokenRequest>, active: Option<Account>, cached: seq<Account>,
                           silentToken: SilentRequest -> MsalResponse): (r: Invocation<()>)
    ensures |r.effects| <= 1
    ensures forall e <- r.effects :: e.AcquireTokenSilent?
    ensures
      var account := ResolveAccount(active, cached);
      var request := SilentRequestFor(account, tokenRequest.GetOr(DefaultTokenRequest));
      && (account.None? ==> r.effects == [] && r.result == Fulfilled(()))
      && (account.Some? ==> r.effects == [AcquireTokenSilent(request)])
      && (account.Some? && silentToken(request).Rejected? ==> r.result == Rejected(silentToken(request).reason))
      && (account.Some? && silentToken(request).Fulfilled? ==> r.result == Fulfilled(()))
  {
    var account := if active.Some? then active else if |cached| > 0 then Some(cached[0]) else None;
    if account.Some? then
      var request := SilentRequestFor(account, tokenRequest.GetOr(DefaultTokenRequest));
      match silentToken(request)
      case Rejected(reason) => Invocation([AcquireTokenSilent(request)], Rejected(reason))
      case Fulfilled(_) => Invocation([AcquireTokenSilent(request)], Fulfilled(()))
    else
      Invocation([], Fulfilled(()))
  }

  /** Whatever the token answer, the hook resolves unless the identity client rejects:
      a missing token is swallowed. */
  lemma RefreshSucceedsUnlessRejected(tokenRequest: Option<TokenRequest>, active: Option<Account>,
                                      cached: seq<Account>, silentToken: SilentRequest -> MsalResponse)
    ensures MsalRefreshAuth(tokenRequest, active, cached, silentToken).result.Rejected? <==>
      exists request: SilentRequest :: request.account.Some? && silentToken(request).Rejected?
        && MsalRefreshAuth(tokenRequest, active, cached, silentToken).effects == [AcquireTokenSilent(request)]
  {
  }
}
