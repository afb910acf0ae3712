/**
 * The decisions the handler takes when a registration or info exchange
 * reports back: how the claim URL is formed, which confirm path a claim token
 * takes, and what a confirm result or an info result turns into.
 */
module RegistrationFlow {
  import opened DiscoveryTypes
  import opened Decimal
  import opened DeviceRegistry

  /** The fixed text between the Cloud Print base URL and the claim token. */
  const ClaimUrlInfix := "/confirm?token="

  /** The token a claim URL carries for a given base URL, if it is one. */
  function ClaimTokenOf(baseUrl: string, url: string): Option<string> {
    var prefix := baseUrl + ClaimUrlInfix;
    if |prefix| <= |url| && url[..|prefix|] == prefix then Some(url[|prefix|..]) else None
  }

  /**
   * "%s/confirm?token=%s" filled with the base URL and the token: the URL keeps
   * the base URL as its prefix and gives back exactly the token.
   */
  function ClaimUrl(baseUrl: string, token: string): (url: string)
    ensures |baseUrl| <= |url| && url[..|baseUrl|] == baseUrl
    ensures ClaimTokenOf(baseUrl, url) == Some(token)
  {
    var url := baseUrl + ClaimUrlInfix + token;
    assert url[..|baseUrl + ClaimUrlInfix|] == baseUrl + ClaimUrlInfix;
    url
  }

  /** What the handler does with a claim token. */
  datatype ClaimStep =
    | ClaimFailed(message: string)
    | ConfirmWith(flow: ConfirmFlow)
    | FetchSecondaryToken(baseUrl: string, userIndex: int, claimUrl: string)

  /** The claim URL a step uses, for the steps that go on. */
  function StepClaimUrl(step: ClaimStep): string
    requires !step.ClaimFailed?
  {
    match step
    case ConfirmWith(flow) => flow.claimUrl
    case FetchSecondaryToken(_, _, url) => url
  }

  /**
   * A claim token arrives for the device the current client was resolved for.
   * The device must still be in the registry; then the user index chosen
   * earlier picks the path: the OAuth2 sentinel confirms with a bearer token
   * (if a token service exists), index 0 confirms with the cookie and the
   * XSRF token cached for the primary user, and any other index first asks the
   * account manager for that user's XSRF token.
   */
  function ClaimTokenStep(registry: Registry, clientName: string, userIndex: int,
                          primaryXsrfToken: string, token: string, hasTokenService: bool): (r: ClaimStep)
    ensures r == ClaimFailed(DeviceGoneMessage) <==> clientName !in registry
    ensures r == ClaimFailed(NoTokenServiceMessage) <==>
      clientName in registry && userIndex == AccountIndexUseOAuth2 && !hasTokenService
    ensures r.ConfirmWith? && r.flow.OAuth2Confirm? <==>
      clientName in registry && userIndex == AccountIndexUseOAuth2 && hasTokenService
    ensures r.ConfirmWith? && r.flow.CookieConfirm? <==> clientName in registry && userIndex == 0
    ensures r.ConfirmWith? && r.flow.CookieConfirm? ==>
      r.flow.userIndex == 0 && r.flow.xsrfToken == primaryXsrfToken
    ensures r.FetchSecondaryToken? <==>
      clientName in registry && userIndex != AccountIndexUseOAuth2 && userIndex != 0
    ensures r.FetchSecondaryToken? ==> r.baseUrl == registry[clientName].url && r.userIndex == userIndex
    ensures !r.ClaimFailed? ==> ClaimTokenOf(registry[clientName].url, StepClaimUrl(r)) == Some(token)
  {
    if clientName !in registry then ClaimFailed(DeviceGoneMessage)
    else
      var baseUrl := registry[clientName].url;
      var claimUrl := ClaimUrl(baseUrl, token);
      if userIndex == AccountIndexUseOAuth2 then
        if !hasTokenService then ClaimFailed(NoTokenServiceMessage)
        else ConfirmWith(OAuth2Confirm(claimUrl))
      else if userIndex == 0 then ConfirmWith(CookieConfirm(userIndex, primaryXsrfToken, claimUrl))
      else FetchSecondaryToken(baseUrl, userIndex, claimUrl)
  }

  /** What a confirm result turns into: completing the registration, or one error for the page. */
  function ConfirmDoneEffect(status: ConfirmStatus): (e: Effect)
    ensures e == Out(CompleteRegistration) <==> status == ConfirmSuccess
    ensures e != Out(CompleteRegistration) ==> e == Ui(RegistrationFailed(ConfirmErrorMessage))
  {
    if status == ConfirmSuccess then Out(CompleteRegistration)
    else Ui(RegistrationFailed(ConfirmErrorMessage))
  }

  const HttpErrorPrefix := "HTTP error "

  /** The status code an info error text reports, if it is one. */
  function HttpErrorCode(message: string): Option<int> {
    if |HttpErrorPrefix| <= |message| && message[..|HttpErrorPrefix|] == HttpErrorPrefix
    then ParseInt(message[|HttpErrorPrefix|..])
    else None
  }

  /**
   * "HTTP error %d": the fixed prefix, then the code as %d renders it; the
   * code can be read back from the text.
   */
  function HttpErrorMessage(httpCode: int): (m: string)
    ensures m == HttpErrorPrefix + FormatInt(httpCode)
    ensures HttpErrorCode(m) == Some(httpCode)
  {
    var m := HttpErrorPrefix + FormatInt(httpCode);
    assert m[|HttpErrorPrefix|..] == FormatInt(httpCode);
    FormatIntRoundTrip(httpCode);
    m
  }

  /**
   * What an info result turns into: the device's JSON is rendered only for an
   * HTTP 200 that carried a dictionary; anything else is an info error that
   * reports the status code, even a 200 whose body did not parse.
   */
  function InfoDoneCall(httpCode: int, json: Option<Json>): (u: UiCall)
    ensures u.RenderInfo? || u.InfoFailed?
    ensures u.RenderInfo? <==> httpCode == HttpOk && json.Some?
    ensures u.RenderInfo? ==> u.json == json.value
    ensures u.InfoFailed? ==> u.message == HttpErrorMessage(httpCode)
    ensures u.InfoFailed? ==> HttpErrorCode(u.message) == Some(httpCode)
  {
    if httpCode != HttpOk || json.None? then InfoFailed(HttpErrorMessage(httpCode))
    else RenderInfo(json.value)
  }
}
