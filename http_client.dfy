/** `msalHttpClient`: before each request, one silent token request for the active
    account; the result becomes the `user` authorization context handed, with the
    caller's other options, to the HTTP utility (`fetchJson`, not modelled). */
module HttpClient {
  import opened Wrappers
  import opened Js
  import opened Msal

  /** The call handed to `fetchUtils.fetchJson(url, options)`. */
  datatype FetchCall = FetchCall(url: string, options: map<string, Value>)

  /** `authResult?.accessToken`. */
  function AccessToken(authResult: Option<AuthenticationResult>): Value {
    if authResult.Some? then Str(authResult.value.accessToken) else Undefined
  }

  /** `{ authenticated: !!token, token: `Bearer ${token}` }`. */
  function UserContext(authResult: Option<AuthenticationResult>): (r: Value)
    ensures r.Obj? && r.fields.Keys == {"authenticated", "token"}
    ensures r.fields["authenticated"] ==
      Bool(authResult.Some? && authResult.value.accessToken != "")
    ensures authResult.Some? ==> r.fields["token"] == Str("Bearer " + authResult.value.accessToken)
    ensures authResult.None? ==> r.fields["token"] == Str("Bearer undefined")
  {
    var token := AccessToken(authResult);
    assert "Bearer " + "undefined" == "Bearer undefined";
    Obj(map["authenticated" := Bool(Truthy(token)), "token" := Str("Bearer " + Interpolate(token))])
  }

  /** One request through the client built by `msalHttpClient({ msalInstance, tokenRequest })`,
      given the active account and the answer of the silent-token oracle. */
  function MsalHttpClient(tokenRequest: Option<TokenRequest>, active: Option<Account>,
                          silentToken: SilentRequest -> MsalResponse,
                          url: string, options: Option<map<string, Value>>): (r: Invocation<FetchCall>)
    ensures r.effects == [AcquireTokenSilent(SilentRequestFor(active, tokenRequest.GetOr(DefaultTokenRequest)))]
    ensures
      var response := silentToken(SilentRequestFor(active, tokenRequest.GetOr(DefaultTokenRequest)));
      var callerOptions := options.GetOr(map[]);
      && (response.Rejected? ==> r.result == Rejected(response.reason))
      && (response.Fulfilled? ==>
            && r.result.Fulfilled?
            && r.result.value.url == url
            && r.result.value.options.Keys == callerOptions.Keys + {"user"}
            && r.result.value.options["user"] == UserContext(response.value)
            && forall k :: k in callerOptions && k != "user" ==> r.result.value.options[k] == callerOptions[k])
  {
    var request := SilentRequestFor(active, tokenRequest.GetOr(DefaultTokenRequest));
    var response := silentToken(request);
    var effects := [AcquireTokenSilent(request)];
    match response
    case Rejected(reason) => Invocation(effects, Rejected(reason))
    case Fulfilled(authResult) =>
      Invocation(effects, Fulfilled(FetchCall(url, options.GetOr(map[])["user" := UserContext(authResult)])))
  }

  /** The request sent has exactly the configured scopes and refresh flag, for the active
      account even when there is none, and with no fallback to cached accounts. */
  lemma TokenRequestedForActiveAccount(tokenRequest: Option<TokenRequest>, active: Option<Account>,
                                       silentToken: SilentRequest -> MsalResponse,
                                       url: string, options: Option<map<string, Value>>)
    ensures var r := MsalHttpClient(tokenRequest, active, silentToken, url, options);
      && |r.effects| == 1 && r.effects[0].AcquireTokenSilent?
      && r.effects[0].request.account == active
      && r.effects[0].request.scopes == tokenRequest.GetOr(DefaultTokenRequest).scopes
      && r.effects[0].request.forceRefresh == tokenRequest.GetOr(DefaultTokenRequest).forceRefresh
    ensures tokenRequest.None? ==> 
      var r := MsalHttpClient(tokenRequest, active, silentToken, url, options);
      r.effects[0].request.scopes == ["User.Read"] && !r.effects[0].request.forceRefresh
  {
  }

  /** `authenticated` is exactly "a non-empty access token was obtained". */
  lemma AuthenticatedIffToken(authResult: Option<AuthenticationResult>)
    ensures UserContext(authResult).fields["authenticated"] == Bool(true) <==>
      exists t :: AccessToken(authResult) == Str(t) && t != ""
  {
  }
}
