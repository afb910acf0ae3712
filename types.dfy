/**
 * Values exchanged between the local-discovery page handler, the collaborators
 * it drives (device lister, Privet HTTP resolver and operations, Cloud Print
 * account manager, confirm flows) and the web page it reports to.
 */
module DiscoveryTypes {

  datatype Option<+T> = None | Some(value: T)

  newtype byte = b: int | 0 <= b < 0x100

  /** A TCP port as carried by a host/port pair. */
  type Port = p: int | 0 <= p < 0x1_0000

  /** A host/port pair: where the device's Privet HTTP server listens. */
  datatype HostPort = HostPort(host: string, port: Port)

  /**
   * What the device lister knows about one advertised device: its address,
   * its resolved IP address (empty when unknown), the Cloud Print base URL it
   * announces, and its cloud id (empty until the device has been claimed).
   */
  datatype DeviceDescription = DeviceDescription(
    address: HostPort,
    ipAddress: seq<byte>,
    url: string,
    id: string)

  /** The value a default-constructed description holds. */
  const DefaultDescription := DeviceDescription(HostPort("", 0), [], "", "")

  /**
   * The dictionary sent to the page for a changed device. The IP address is
   * rendered by a network library when present; the model keeps the raw bytes
   * and None stands for the empty string sent when the address is unknown.
   */
  datatype ServiceInfo = ServiceInfo(
    domain: string,
    port: Port,
    ip: Option<seq<byte>>,
    lastSeen: string,
    registered: bool)

  /** A JSON dictionary returned by a device; its content is opaque here. */
  datatype Json = Json(text: string)

  /** One entry of the account list offered to the user: selector index and account name. */
  datatype AccountChoice = AccountChoice(index: int, account: string)

  /** The JavaScript functions the handler calls on the page. */
  datatype UiCall =
    | ServiceUpdate(name: string, info: Option<ServiceInfo>)
    | RegistrationFailed(message: string)
    | RegistrationSuccess(deviceId: string)
    | InfoFailed(message: string)
    | RenderInfo(json: Json)
    | RequestUser(choices: seq<AccountChoice>)

  /** A resolved Privet HTTP client; the handler only ever asks it for its device name. */
  datatype Client = Client(name: string)

  /** What a client resolution is for, i.e. which callback receives the client. */
  datatype Purpose = ForInfo | ForRegister(user: string)

  /** A pending client resolution for a device name and address. */
  datatype Resolution = Resolution(name: string, address: HostPort, purpose: Purpose)

  /** The callback an account-manager request is bound to. */
  datatype AccountsCallback =
    | ToAccountsResolved
    | ToSecondaryToken(claimUrl: string)

  /** A request to the Cloud Print account manager: accounts of a service and a token for one user index. */
  datatype AccountRequest = AccountRequest(baseUrl: string, userIndex: int, callback: AccountsCallback)

  /** The two ways of confirming a claim with the cloud: a bearer token or a cookie with an XSRF token. */
  datatype ConfirmFlow =
    | OAuth2Confirm(claimUrl: string)
    | CookieConfirm(userIndex: int, xsrfToken: string, claimUrl: string)

  /** The status a confirm flow reports; every status other than success is kept opaque. */
  datatype ConfirmStatus = ConfirmSuccess | ConfirmFailure(reason: nat)

  /** Work the handler starts in a collaborator. */
  datatype Request =
    | AcquireDiscoveryClient
    | ListerStart
    | DiscoverNewDevices(force: bool)
    | ResolveClient(resolution: Resolution)
    | StartRegisterOperation(user: string)
    | StartInfoOperation
    | StartAccountManager(request: AccountRequest)
    | StartConfirm(flow: ConfirmFlow)
    | CompleteRegistration
    | ReleaseDiscoveryClient

  /** One observable effect of the handler, in the order it happens. */
  datatype Effect = Ui(call: UiCall) | Out(request: Request)

  /** The selector value meaning "confirm with the signed-in account's OAuth2 token". */
  const AccountIndexUseOAuth2: int := -1

  const HttpOk: int := 200

  const ResolutionFailedMessage := "Resolution failed"
  const DeviceGoneMessage := "Device no longer exists"
  const NoTokenServiceMessage := "Could not get token service"
  const ConfirmErrorMessage := "Confirm error"
  const RegistrationErrorMessage := "Registration error"
}
