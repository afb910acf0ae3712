/**
 * Whole conversations between collaborators, the page and one handler, with
 * the effects they must produce.
 */
module Scenarios {
  import opened DiscoveryTypes
  import opened DeviceRegistry
  import opened LocalDiscovery
  import opened AccountChoices
  import RegistrationFlow

  /** The printer "p1" every conversation discovers. */
  const Printer := DeviceDescription(HostPort("p1.local", 8080), [], "https://cloud", "")

  /** The request the page's register command makes for "p1". */
  const PrimaryAccountsRequest := AccountRequest("https://cloud", 0, ToAccountsResolved)

  /** The effects of starting discovery and finding "p1". */
  const DiscoveredLog := [
    Out(AcquireDiscoveryClient), Out(ListerStart), Out(DiscoverNewDevices(false)),
    Ui(ServiceUpdate("p1", Some(ServiceInfo("p1.local", 8080, None, "unknown", false))))]

  /** The claim URL for token "tok" under the printer's base URL. */
  lemma ClaimUrlForTok()
    ensures RegistrationFlow.ClaimUrl("https://cloud", "tok") == "https://cloud/confirm?token=tok"
  {
  }

  /** With no other accounts, only the signed-in "a@x" is offered, as the OAuth2 choice. */
  lemma OnlySyncAccountOffered()
    ensures AccountChoicesFor("a@x", []) == [AccountChoice(AccountIndexUseOAuth2, "a@x")]
  {
  }

  /**
   * Discovery finds "p1", the page asks to register it, and the account
   * manager answers with the given accounts and primary-user XSRF token.
   */
  method DiscoverAndListAccounts(accounts: seq<string>, xsrfToken: string, signedInUser: Option<string>)
    returns (h: LocalDiscoveryUIHandler)
    ensures fresh(h)
    ensures h.log == DiscoveredLog + [
      Out(StartAccountManager(PrimaryAccountsRequest)),
      Ui(RequestUser(AccountChoicesFor(SyncAccount(signedInUser), accounts)))]
    ensures h.devices == map["p1" := Printer] && h.currentRegisterDevice == "p1"
    ensures h.xsrfTokenForPrimaryUser == xsrfToken && h.hasHttpFactory
    ensures h.httpClient == None && h.registerOperation == None && h.confirmFlow == None
  {
    var counter := new VisibilityCounter();
    h := new LocalDiscoveryUIHandler(counter);
    h.HandleStart();
    h.DeviceChanged(true, "p1", Printer);
    assert h.devices == map["p1" := Printer];
    h.HandleRegisterDevice("p1");
    h.OnCloudPrintAccountsResolved(accounts, xsrfToken, signedInUser);
  }

  /** ... then the user picks an account and the client for "p1" resolves. */
  method ChooseAndResolve(accounts: seq<string>, xsrfToken: string, signedInUser: Option<string>,
                          userIndex: int, user: string)
    returns (h: LocalDiscoveryUIHandler)
    ensures fresh(h)
    ensures h.log == DiscoveredLog + [
      Out(StartAccountManager(PrimaryAccountsRequest)),
      Ui(RequestUser(AccountChoicesFor(SyncAccount(signedInUser), accounts))),
      Out(ResolveClient(Resolution("p1", HostPort("p1.local", 8080), ForRegister(user)))),
      Out(StartRegisterOperation(user))]
    ensures h.devices == map["p1" := Printer] && h.currentRegisterUserIndex == userIndex
    ensures h.xsrfTokenForPrimaryUser == xsrfToken
    ensures h.httpClient == Some(Client("p1")) && h.registerOperation == Some(user) && h.confirmFlow == None
  {
    h := DiscoverAndListAccounts(accounts, xsrfToken, signedInUser);
    h.HandleChooseUser(userIndex, user);
    h.StartRegisterHTTP(user, Some(Client("p1")));
  }

  /** The effects up to the start of registration when the signed-in "a@x" is the only account offered. */
  const OAuth2ChosenLog := DiscoveredLog + [
    Out(StartAccountManager(PrimaryAccountsRequest)),
    Ui(RequestUser([AccountChoice(AccountIndexUseOAuth2, "a@x")])),
    Out(ResolveClient(Resolution("p1", HostPort("p1.local", 8080), ForRegister("a@x")))),
    Out(StartRegisterOperation("a@x"))]

  /**
   * Registration through the OAuth2 path completes: the only account offered
   * is the signed-in one, the claim URL is formed under the device's base URL,
   * the bearer-token confirm succeeds, the operation finishes and the page
   * learns the new device id.
   */
  method TokenPathRegistration() returns (log: seq<Effect>)
    ensures log == OAuth2ChosenLog + [
      Out(StartConfirm(OAuth2Confirm("https://cloud/confirm?token=tok"))),
      Out(CompleteRegistration),
      Ui(RegistrationSuccess("dev-42"))]
  {
    var h := ChooseAndResolve([], "xsrf", Some("a@x"), AccountIndexUseOAuth2, "a@x");
    OnlySyncAccountOffered();
    ghost var chosen := h.log;
    assert chosen == OAuth2ChosenLog;
    ClaimUrlForTok();
    h.OnPrivetRegisterClaimToken("tok", "", true);
    assert h.log == chosen + [Out(StartConfirm(OAuth2Confirm("https://cloud/confirm?token=tok")))];
    h.OnConfirmDone(ConfirmSuccess);
    h.OnPrivetRegisterDone("dev-42");
    assert h.log == chosen + [
      Out(StartConfirm(OAuth2Confirm("https://cloud/confirm?token=tok"))),
      Out(CompleteRegistration),
      Ui(RegistrationSuccess("dev-42"))];
    log := h.log;
  }

  /** The OAuth2 path without a token service ends with one error and no confirm flow. */
  method TokenPathWithoutTokenService() returns (last: Effect, flow: Option<ConfirmFlow>)
    ensures last == Ui(RegistrationFailed("Could not get token service")) && flow == None
  {
    var h := ChooseAndResolve([], "xsrf", Some("a@x"), AccountIndexUseOAuth2, "a@x");
    h.OnPrivetRegisterClaimToken("tok", "", false);
    last, flow := h.log[|h.log| - 1], h.confirmFlow;
  }

  /**
   * Index 0 confirms with the cached primary-user XSRF token and makes no
   * further account-manager request.
   */
  method PrimaryCookieRegistration() returns (tail: seq<Effect>)
    ensures tail == [Out(StartConfirm(CookieConfirm(0, "xsrf-0", "https://cloud/confirm?token=tok")))]
  {
    var h := ChooseAndResolve(["b@x"], "xsrf-0", Some("a@x"), 0, "b@x");
    var before := |h.log|;
    ClaimUrlForTok();
    h.OnPrivetRegisterClaimToken("tok", "", true);
    tail := h.log[before..];
  }

  /**
   * A secondary account (index 2) costs exactly one more account-manager
   * request, scoped to index 2, and its token then drives the cookie confirm flow.
   */
  method SecondaryAccountRegistration() returns (tail: seq<Effect>)
    ensures tail == [
      Out(StartAccountManager(AccountRequest("https://cloud", 2, ToSecondaryToken("https://cloud/confirm?token=tok")))),
      Out(StartConfirm(CookieConfirm(2, "xsrf-2", "https://cloud/confirm?token=tok")))]
  {
    var h := ChooseAndResolve(["a@x", "b@x", "c@x"], "xsrf-0", Some("a@x"), 2, "c@x");
    var before := |h.log|;
    ClaimUrlForTok();
    ghost var chosen := h.log;
    h.OnPrivetRegisterClaimToken("tok", "", true);
    assert h.accountManager == Some(AccountRequest("https://cloud", 2, ToSecondaryToken("https://cloud/confirm?token=tok")));
    h.OnXSRFTokenForSecondaryAccount("https://cloud/confirm?token=tok", ["a@x", "b@x", "c@x"], "xsrf-2");
    assert h.log == chosen + [
      Out(StartAccountManager(AccountRequest("https://cloud", 2, ToSecondaryToken("https://cloud/confirm?token=tok")))),
      Out(StartConfirm(CookieConfirm(2, "xsrf-2", "https://cloud/confirm?token=tok")))];
    tail := h.log[before..];
  }

  /** A device that disappears after the account was chosen makes the claim fail without a confirm flow. */
  method RemovedAfterChoiceFails() returns (last: Effect, flow: Option<ConfirmFlow>)
    ensures last == Ui(RegistrationFailed("Device no longer exists")) && flow == None
  {
    var h := ChooseAndResolve(["a@x"], "xsrf", None, 0, "a@x");
    h.DeviceRemoved("p1");
    h.OnPrivetRegisterClaimToken("tok", "", true);
    last, flow := h.log[|h.log| - 1], h.confirmFlow;
  }

  /**
   * A device that disappears before the account is chosen comes back: choosing
   * the account indexes the registry with its name, which inserts a default
   * description, so the later membership check passes and the claim is
   * confirmed against an empty base URL.
   */
  method RemovedBeforeChoiceIsResurrected() returns (devices: Registry, flow: Option<ConfirmFlow>)
    ensures devices == map["p1" := DefaultDescription]
    ensures flow == Some(CookieConfirm(0, "xsrf", "/confirm?token=tok"))
  {
    var h := DiscoverAndListAccounts(["a@x"], "xsrf", None);
    h.DeviceRemoved("p1");
    assert h.devices == map[];
    h.HandleChooseUser(0, "a@x");
    assert h.devices == map["p1" := DefaultDescription];
    h.StartRegisterHTTP("a@x", Some(Client("p1")));
    assert RegistrationFlow.ClaimUrl("", "tok") == "/confirm?token=tok";
    h.OnPrivetRegisterClaimToken("tok", "", true);
    devices, flow := h.devices, h.confirmFlow;
  }

  /**
   * Two pages share the counter; repeating a page's current visibility does not
   * count it twice, and destroying a visible page uncounts it.
   */
  method TwoPagesVisibility() returns (afterRepeat: int, afterClose: int, anyVisible: bool)
    ensures afterRepeat == 2 && afterClose == 0 && !anyVisible
  {
    var counter := new VisibilityCounter();
    var a := new LocalDiscoveryUIHandler(counter);
    var b := new LocalDiscoveryUIHandler(counter);
    a.HandleIsVisible(true);
    b.HandleIsVisible(true);
    a.HandleIsVisible(true);
    afterRepeat := counter.numVisible;
    a.HandleIsVisible(false);
    b.Destroy();
    afterClose := counter.numVisible;
    anyVisible := counter.GetHasVisible();
  }
}
