/**
 * The local-discovery page handler: it keeps the registry of advertised
 * devices, tells the page about them, and drives the registration of one
 * device with the cloud (client resolution, the Privet register exchange,
 * account selection and the confirm call). Every call it makes on the page
 * and every piece of work it starts in a collaborator is appended to `log`.
 * Collaborators reply by calling the handler's callback methods with their
 * results as arguments.
 */
module LocalDiscovery {
  import opened DiscoveryTypes
  import opened DeviceRegistry
  import opened AccountChoices
  import opened RegistrationFlow
  import Visibility

  /** The process-wide count of visible local-discovery pages, shared by every handler. */
  class VisibilityCounter {
    var numVisible: int

    constructor ()
      ensures numVisible == 0
    {
      numVisible := 0;
    }

    /** GetHasVisible */
    function GetHasVisible(): bool
      reads this
    {
      Visibility.HasVisible(numVisible)
    }
  }

  class LocalDiscoveryUIHandler {
    const counter: VisibilityCounter

    var devices: Registry
    var currentRegisterDevice: string
    var currentRegisterUserIndex: int
    var xsrfTokenForPrimaryUser: string
    var isVisible: bool

    // Which long-lived collaborators exist.
    var hasLister: bool
    var hasHttpFactory: bool
    var hasDiscoveryClient: bool

    // The in-flight work the handler remembers; starting new work overwrites these.
    var resolution: Option<Resolution>
    var httpClient: Option<Client>
    var registerOperation: Option<string>
    var hasInfoOperation: bool
    var accountManager: Option<AccountRequest>
    var confirmFlow: Option<ConfirmFlow>

    var log: seq<Effect>

    /** A handler that will create its own device lister on start. */
    constructor (counter: VisibilityCounter)
      ensures this.counter == counter && devices == map[] && !isVisible && log == []
      ensures !hasLister && !hasHttpFactory && !hasDiscoveryClient
      ensures resolution == None && httpClient == None && registerOperation == None
      ensures !hasInfoOperation && accountManager == None && confirmFlow == None
    {
      this.counter := counter;
      devices := map[];
      currentRegisterDevice := "";
      currentRegisterUserIndex := 0;
      xsrfTokenForPrimaryUser := "";
      isVisible := false;
      hasLister, hasHttpFactory, hasDiscoveryClient := false, false, false;
      resolution, httpClient, registerOperation := None, None, None;
      hasInfoOperation, accountManager, confirmFlow := false, None, None;
      log := [];
    }

    /**
     * A handler given an existing device lister (a mock, or one kept across a
     * reload); it gets no HTTP factory until someone supplies one. The page
     * starts invisible here too: see the Findings section of the README.
     */
    constructor WithLister(counter: VisibilityCounter)
      ensures this.counter == counter && devices == map[] && !isVisible && log == []
      ensures hasLister && !hasHttpFactory && !hasDiscoveryClient
      ensures resolution == None && httpClient == None && registerOperation == None
      ensures !hasInfoOperation && accountManager == None && confirmFlow == None
    {
      this.counter := counter;
      devices := map[];
      currentRegisterDevice := "";
      currentRegisterUserIndex := 0;
      xsrfTokenForPrimaryUser := "";
      isVisible := false;
      hasLister, hasHttpFactory, hasDiscoveryClient := true, false, false;
      resolution, httpClient, registerOperation := None, None, None;
      hasInfoOperation, accountManager, confirmFlow := false, None, None;
      log := [];
    }

    /** The destructor: the page is forced invisible and the discovery client released. */
    method Destroy()
      modifies this`isVisible, counter`numVisible, this`hasDiscoveryClient, this`log
      ensures (counter.numVisible, isVisible) == Visibility.Toggle(old(counter.numVisible), old(isVisible), false)
      ensures !isVisible && !hasDiscoveryClient
      ensures log == old(log) + (if old(hasDiscoveryClient) then [Out(ReleaseDiscoveryClient)] else [])
    {
      SetIsVisible(false);
      if hasDiscoveryClient {
        hasDiscoveryClient := false;
        log := log + [Out(ReleaseDiscoveryClient)];
      }
    }

    /** The shared counter moves only when this handler's own flag flips. */
    method SetIsVisible(visible: bool)
      modifies this`isVisible, counter`numVisible
      ensures (counter.numVisible, isVisible) == Visibility.Toggle(old(counter.numVisible), old(isVisible), visible)
    {
      if visible != isVisible {
        counter.numVisible := counter.numVisible + (if visible then 1 else -1);
        isVisible := visible;
      }
    }

    /** The page reports whether it is shown. */
    method HandleIsVisible(visible: bool)
      modifies this`isVisible, counter`numVisible
      ensures (counter.numVisible, isVisible) == Visibility.Toggle(old(counter.numVisible), old(isVisible), visible)
    {
      SetIsVisible(visible);
    }

    /**
     * The page starts discovery. The lister and the HTTP factory are created
     * only the first time; every start restarts the lister and asks it for new
     * devices without forcing a refresh.
     */
    method HandleStart()
      modifies this`hasLister, this`hasHttpFactory, this`hasDiscoveryClient, this`log
      ensures hasLister
      ensures old(hasLister) ==> hasHttpFactory == old(hasHttpFactory) && hasDiscoveryClient == old(hasDiscoveryClient)
      ensures !old(hasLister) ==> hasHttpFactory && hasDiscoveryClient
      ensures log == old(log) + (if old(hasLister) then [] else [Out(AcquireDiscoveryClient)])
                              + [Out(ListerStart), Out(DiscoverNewDevices(false))]
    {
      if !hasLister {
        hasDiscoveryClient := true;
        log := log + [Out(AcquireDiscoveryClient)];
        hasLister := true;
        hasHttpFactory := true;
      }
      log := log + [Out(ListerStart)];
      log := log + [Out(DiscoverNewDevices(false))];
    }

    /** Indexing the registry with operator[]: an unknown name is inserted with a default description. */
    method IndexDevice(name: string) returns (d: DeviceDescription)
      modifies this`devices
      ensures Indexed(d, devices) == LookupInserting(old(devices), name)
    {
      if name !in devices {
        devices := devices[name := DefaultDescription];
      }
      d := devices[name];
    }

    /** The Cloud Print base URL a device announced, read through operator[]. */
    method GetCloudPrintBaseUrl(name: string) returns (url: string)
      modifies this`devices
      ensures url == LookupInserting(old(devices), name).description.url
      ensures devices == LookupInserting(old(devices), name).registry
    {
      var d := IndexDevice(name);
      url := d.url;
    }

    /** The lister reports a new or changed device: its entry is replaced and the page told, once. */
    method DeviceChanged(added: bool, name: string, description: DeviceDescription)
      modifies this`devices, this`log
      ensures devices == Apply(old(devices), Changed(added, name, description))
      ensures log == old(log) + [Ui(Notification(Changed(added, name, description)))]
    {
      devices := devices[name := description];
      var ip := if description.ipAddress == [] then None else Some(description.ipAddress);
      var info := ServiceInfo(description.address.host, description.address.port, ip, "unknown", description.id != "");
      log := log + [Ui(ServiceUpdate(name, Some(info)))];
    }

    /** The lister reports a device gone: its entry (if any) is erased and the page told, once. */
    method DeviceRemoved(name: string)
      modifies this`devices, this`log
      ensures devices == Apply(old(devices), Removed(name))
      ensures log == old(log) + [Ui(Notification(Removed(name)))]
    {
      devices := devices - {name};
      log := log + [Ui(ServiceUpdate(name, None))];
    }

    /**
     * The page asks to register a device: remember it and ask the account
     * manager for the accounts of the device's cloud service and the primary
     * user's XSRF token.
     */
    method HandleRegisterDevice(name: string)
      modifies this`currentRegisterDevice, this`devices, this`accountManager, this`log
      ensures currentRegisterDevice == name
      ensures var ix := LookupInserting(old(devices), name);
        devices == ix.registry &&
        accountManager == Some(AccountRequest(ix.description.url, 0, ToAccountsResolved)) &&
        log == old(log) + [Out(StartAccountManager(accountManager.value))]
    {
      currentRegisterDevice := name;
      var baseUrl := GetCloudPrintBaseUrl(name);
      accountManager := Some(AccountRequest(baseUrl, 0, ToAccountsResolved));
      log := log + [Out(StartAccountManager(accountManager.value))];
    }

    /** The page asks for a device's info: resolve a client for it, for an info exchange. */
    method HandleInfoRequested(name: string)
      requires hasHttpFactory
      modifies this`devices, this`resolution, this`log
      ensures var ix := LookupInserting(old(devices), name);
        devices == ix.registry &&
        resolution == Some(Resolution(name, ix.description.address, ForInfo)) &&
        log == old(log) + [Out(ResolveClient(resolution.value))]
    {
      var d := IndexDevice(name);
      resolution := Some(Resolution(name, d.address, ForInfo));
      log := log + [Out(ResolveClient(resolution.value))];
    }

    /** The user picked an account: remember its index and resolve a client for the device being registered. */
    method HandleChooseUser(userIndex: int, user: string)
      requires hasHttpFactory
      modifies this`currentRegisterUserIndex, this`devices, this`resolution, this`log
      ensures currentRegisterUserIndex == userIndex
      ensures var ix := LookupInserting(old(devices), currentRegisterDevice);
        devices == ix.registry &&
        resolution == Some(Resolution(currentRegisterDevice, ix.description.address, ForRegister(user))) &&
        log == old(log) + [Out(ResolveClient(resolution.value))]
    {
      currentRegisterUserIndex := userIndex;
      var d := IndexDevice(currentRegisterDevice);
      resolution := Some(Resolution(currentRegisterDevice, d.address, ForRegister(user)));
      log := log + [Out(ResolveClient(resolution.value))];
    }

    /** A client resolution for registration finished; a null client is a resolution failure. */
    method StartRegisterHTTP(user: string, client: Option<Client>)
      modifies this`httpClient, this`registerOperation, this`log
      ensures httpClient == client
      ensures client.None? ==>
        registerOperation == old(registerOperation) &&
        log == old(log) + [Ui(RegistrationFailed(ResolutionFailedMessage))]
      ensures client.Some? ==>
        registerOperation == Some(user) && log == old(log) + [Out(StartRegisterOperation(user))]
    {
      httpClient := client;
      if client.None? {
        log := log + [Ui(RegistrationFailed(ResolutionFailedMessage))];
        return;
      }
      registerOperation := Some(user);
      log := log + [Out(StartRegisterOperation(user))];
    }

    /**
     * A client resolution for info finished; a null client is reported on the
     * registration-error channel, as for registration.
     */
    method StartInfoHTTP(client: Option<Client>)
      modifies this`httpClient, this`hasInfoOperation, this`log
      ensures httpClient == client
      ensures client.None? ==>
        hasInfoOperation == old(hasInfoOperation) &&
        log == old(log) + [Ui(RegistrationFailed(ResolutionFailedMessage))]
      ensures client.Some? ==> hasInfoOperation && log == old(log) + [Out(StartInfoOperation)]
    {
      httpClient := client;
      if client.None? {
        log := log + [Ui(RegistrationFailed(ResolutionFailedMessage))];
        return;
      }
      hasInfoOperation := true;
      log := log + [Out(StartInfoOperation)];
    }

    /** Starts a confirm flow authenticated by the cookie and the given XSRF token. */
    method StartCookieConfirmFlow(userIndex: int, xsrfToken: string, claimUrl: string)
      modifies this`confirmFlow, this`log
      ensures confirmFlow == Some(CookieConfirm(userIndex, xsrfToken, claimUrl))
      ensures log == old(log) + [Out(StartConfirm(confirmFlow.value))]
    {
      confirmFlow := Some(CookieConfirm(userIndex, xsrfToken, claimUrl));
      log := log + [Out(StartConfirm(confirmFlow.value))];
    }

    /**
     * The register operation handed over a claim token (the URL it came with
     * is not used). Exactly one effect follows: an error for the page, the
     * start of a confirm flow, or one account-manager request.
     */
    method OnPrivetRegisterClaimToken(token: string, url: string, hasTokenService: bool)
      requires httpClient.Some?
      modifies this`confirmFlow, this`accountManager, this`log
      ensures var step := ClaimTokenStep(devices, httpClient.value.name, currentRegisterUserIndex,
                                         xsrfTokenForPrimaryUser, token, hasTokenService);
        match step
        case ClaimFailed(message) =>
          confirmFlow == old(confirmFlow) && accountManager == old(accountManager) &&
          log == old(log) + [Ui(RegistrationFailed(message))]
        case ConfirmWith(flow) =>
          confirmFlow == Some(flow) && accountManager == old(accountManager) &&
          log == old(log) + [Out(StartConfirm(flow))]
        case FetchSecondaryToken(baseUrl, userIndex, claimUrl) =>
          confirmFlow == old(confirmFlow) &&
          accountManager == Some(AccountRequest(baseUrl, userIndex, ToSecondaryToken(claimUrl))) &&
          log == old(log) + [Out(StartAccountManager(accountManager.value))]
    {
      var name := httpClient.value.name;
      if name !in devices {
        log := log + [Ui(RegistrationFailed(DeviceGoneMessage))];
        return;
      }
      // The entry exists, so operator[] inserts nothing here.
      var baseUrl := devices[name].url;
      var claimUrl := ClaimUrl(baseUrl, token);
      if currentRegisterUserIndex == AccountIndexUseOAuth2 {
        if !hasTokenService {
          log := log + [Ui(RegistrationFailed(NoTokenServiceMessage))];
          return;
        }
        confirmFlow := Some(OAuth2Confirm(claimUrl));
        log := log + [Out(StartConfirm(confirmFlow.value))];
      } else if currentRegisterUserIndex == 0 {
        StartCookieConfirmFlow(currentRegisterUserIndex, xsrfTokenForPrimaryUser, claimUrl);
      } else {
        accountManager := Some(AccountRequest(baseUrl, currentRegisterUserIndex, ToSecondaryToken(claimUrl)));
        log := log + [Out(StartAccountManager(accountManager.value))];
      }
    }

    /** The register operation failed in any phase: one generic error for the page. */
    method OnPrivetRegisterError(action: string, reason: nat, printerHttpCode: int, json: Option<Json>)
      modifies this`log
      ensures log == old(log) + [Ui(RegistrationFailed(RegistrationErrorMessage))]
    {
      log := log + [Ui(RegistrationFailed(RegistrationErrorMessage))];
    }

    /** The register operation finished: drop the operation and the client, report the new device id. */
    method OnPrivetRegisterDone(deviceId: string)
      modifies this`registerOperation, this`httpClient, this`log
      ensures registerOperation == None && httpClient == None
      ensures log == old(log) + [Ui(RegistrationSuccess(deviceId))]
    {
      registerOperation := None;
      httpClient := None;
      log := log + [Ui(RegistrationSuccess(deviceId))];
    }

    /** The confirm flow finished: on success the register operation is told to complete the registration. */
    method OnConfirmDone(status: ConfirmStatus)
      requires status == ConfirmSuccess ==> registerOperation.Some?
      modifies this`confirmFlow, this`log
      ensures confirmFlow == if status == ConfirmSuccess then None else old(confirmFlow)
      ensures log == old(log) + [ConfirmDoneEffect(status)]
    {
      if status == ConfirmSuccess {
        confirmFlow := None;
        log := log + [Out(CompleteRegistration)];
      } else {
        log := log + [Ui(RegistrationFailed(ConfirmErrorMessage))];
      }
    }

    /** The info operation finished with an HTTP status and, when the body parsed, a dictionary. */
    method OnPrivetInfoDone(httpCode: int, json: Option<Json>)
      modifies this`log
      ensures log == old(log) + [Ui(InfoDoneCall(httpCode, json))]
    {
      if httpCode != HttpOk || json.None? {
        log := log + [Ui(InfoFailed(HttpErrorMessage(httpCode)))];
        return;
      }
      log := log + [Ui(RenderInfo(json.value))];
    }

    /**
     * The account manager answered the request made for a registration: cache
     * the primary user's XSRF token and ask the user to pick an account.
     * `signedInUser` is what the sign-in manager reports (None when there is none).
     */
    method OnCloudPrintAccountsResolved(accounts: seq<string>, xsrfToken: string, signedInUser: Option<string>)
      modifies this`xsrfTokenForPrimaryUser, this`log
      ensures xsrfTokenForPrimaryUser == xsrfToken
      ensures log == old(log) + [Ui(RequestUser(AccountChoicesFor(SyncAccount(signedInUser), accounts)))]
    {
      xsrfTokenForPrimaryUser := xsrfToken;
      var syncAccount := SyncAccount(signedInUser);
      var list := BuildAccountChoices(syncAccount, accounts);
      log := log + [Ui(RequestUser(list))];
    }

    /**
     * The account manager answered the request made for a secondary account:
     * confirm with its XSRF token, for the user index current at this moment.
     */
    method OnXSRFTokenForSecondaryAccount(claimUrl: string, accounts: seq<string>, xsrfToken: string)
      modifies this`confirmFlow, this`log
      ensures confirmFlow == Some(CookieConfirm(currentRegisterUserIndex, xsrfToken, claimUrl))
      ensures log == old(log) + [Out(StartConfirm(confirmFlow.value))]
    {
      StartCookieConfirmFlow(currentRegisterUserIndex, xsrfToken, claimUrl);
    }
  }
}
