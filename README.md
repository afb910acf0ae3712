# Local discovery page handler — a Dafny model

This project models `LocalDiscoveryUIHandler`, the page handler behind Chrome's local-discovery page
(`chrome/browser/ui/webui/local_discovery/local_discovery_ui_handler.cc`). The handler does four things:

* It keeps a registry of the Privet devices that the device lister advertises. The registry maps a
  device name to its description. It tells the page about every change with `onServiceUpdate`.
* It keeps a process-wide count of visible local-discovery pages. Each handler moves the count only
  when its own visibility flag flips.
* It builds the list of accounts the user chooses from before registering a device. The signed-in
  account comes first, tagged with the OAuth2 sentinel `-1`. Every other returned account follows,
  tagged with its position in the returned list.
* It drives registration: client resolution, the Privet register operation, the claim token, one of
  three confirm paths, and the final outcome.

The handler is the class `LocalDiscovery.LocalDiscoveryUIHandler` (`handler.dfy`). Its fields mirror the
C++ members. Its methods change them step by step and are framed field by field. Each JavaScript call on
the page and each piece of work started in a collaborator goes to one append-only log, `log: seq<Effect>`,
in order. So properties like "exactly one notification" or "no confirm flow started" are statements about
that log. A collaborator's reply is a call to a callback method. Its result (a client or null, a status,
an account list and token, whether a token service exists, the signed-in user) is a parameter.

The decisions that are pure functions of their inputs live in value modules, and the handler's methods
are specified by them:

* `types.dfy`: the data model.
* `registry.dfy`: the registry, discovery events, the page notification, and `operator[]`.
* `visibility.dfy`: the counter, plus a value-level model of all live handlers and the shared counter.
* `accounts.dfy`: the account list and the loop that builds it.
* `flow.dfy`: claim URL, claim-token branch, confirm result, info result.
* `decimal.dfy`: the `%d` rendering of the HTTP status.
* `scenarios.dfy`: whole registration conversations with a handler, checked against their effects.
* `start_info_scenarios.dfy`: starting discovery and asking a device for its info, checked the same way.

Some behaviours of the code are easy to miss, and the model keeps them:

* The claim-token branch sends every user index other than `-1` and `0` to the account manager,
  negative ones included.
* A failed client resolution for an *info* request is reported on the registration-error channel
  (`registrationFailed("Resolution failed")`), not as an info error.
* `operator[]` in `HandleInfoRequested`, `HandleChooseUser` and `GetCloudPrintBaseUrl` silently
  inserts a default description for an unknown name. One effect follows: a device removed before the
  user picks an account is re-inserted, with an empty host, port 0 and an empty base URL. If the
  resolver still returns a client for that default address, the "Device no longer exists" check
  passes and a confirm flow is started with the claim URL `"/confirm?token=<token>"`, which a URL
  parser would reject (`Scenarios.RemovedBeforeChoiceIsResurrected`).
* The primary user's XSRF token is overwritten on every account answer.
* The account list may contain index `0` for a returned account. That happens whenever the first
  returned account is not the signed-in one.
* There is no generation counter for stale callbacks. A late callback acts on whatever the handler
  currently holds.

## Model

| member | source | states |
|---|---|---|
| `DeviceRegistry.Apply` | chrome/browser/ui/webui/local_discovery/local_discovery_ui_handler.cc:265-294 | a change replaces the entry for its name with the new description; a removal erases it and leaves an unknown name's registry as it was; no other name's entry changes |
| `DeviceRegistry.ServiceInfoOf` | chrome/browser/ui/webui/local_discovery/local_discovery_ui_handler.cc:272-281 | the reported dictionary says `registered` exactly when the device has a cloud id, carries no IP exactly when none is known and the device's IP otherwise, gives the address's host and port, and reports `lastSeen` as `"unknown"` |
| `DeviceRegistry.Notification` | chrome/browser/ui/webui/local_discovery/local_discovery_ui_handler.cc:283-293 | each event yields one `onServiceUpdate` for its device name, with info for a change and null for a removal |
| `DeviceRegistry.ReplayLastEventWins` | chrome/browser/ui/webui/local_discovery/local_discovery_ui_handler.cc:265-294 | after any sequence of change/remove events, the registry holds, for every name, what the last event about that name left (and what it held before if no event named it) |
| `DeviceRegistry.NotificationsInOrder` | chrome/browser/ui/webui/local_discovery/local_discovery_ui_handler.cc:283-293 | a sequence of events produces exactly one notification per event, in arrival order |
| `DeviceRegistry.LookupInserting` | chrome/browser/ui/webui/local_discovery/local_discovery_ui_handler.cc:386-389 | indexing the registry returns the stored description and changes nothing for a known name; for an unknown name it returns the default description and adds that name to the registry |
| `Visibility.Toggle` | chrome/browser/ui/webui/local_discovery/local_discovery_ui_handler.cc:367-372 | after a visibility call the handler's flag is the requested value and the counter has moved by exactly the change of that flag (+1, -1 or 0) |
| `Visibility.SetVisiblePreservesConsistency` | chrome/browser/ui/webui/local_discovery/local_discovery_ui_handler.cc:367-372 | if the counter equals the number of visible handlers, it still does after any handler's visibility call; repeating a handler's current value changes nothing |
| `Visibility.CreateHandlerPreservesConsistency` | chrome/browser/ui/webui/local_discovery/local_discovery_ui_handler.cc:35-36 | a handler created invisible keeps the counter equal to the number of visible handlers |
| `Visibility.DestroyHandlerPreservesConsistency` | chrome/browser/ui/webui/local_discovery/local_discovery_ui_handler.cc:43-44 | destroying a handler (forced invisible, then gone) keeps the counter equal to the number of visible handlers |
| `Visibility.HasVisibleIffSomeHandlerVisible` | chrome/browser/ui/webui/local_discovery/local_discovery_ui_handler.cc:63-65 | while the counter is consistent, `GetHasVisible` (modelled by `Visibility.HasVisible`, and by `LocalDiscovery.VisibilityCounter.GetHasVisible` on the shared counter) is true exactly when some live handler is visible |
| `Visibility.ListerConstructorAsWrittenConsistency` | chrome/browser/ui/webui/local_discovery/local_discovery_ui_handler.cc:38-41 | the lister constructor as written keeps the counter consistent exactly when its uninitialised flag happens to read false |
| `Visibility.ListerConstructorAsWrittenUnderflow` | chrome/browser/ui/webui/local_discovery/local_discovery_ui_handler.cc:38-44 | a lister-built handler whose flag reads true, destroyed without being shown, leaves the counter at -1 and `GetHasVisible` true with no handler alive |
| `AccountChoices.BuildAccountChoices` | chrome/browser/ui/webui/local_discovery/local_discovery_ui_handler.cc:333-352 | the index-counting loop produces exactly the specified list: the sentinel entry for a signed-in account, then the non-duplicate accounts with their positions |
| `AccountChoices.SecondaryChoicesSound` | chrome/browser/ui/webui/local_discovery/local_discovery_ui_handler.cc:343-352 | every entry after the signed-in one names a real position of the returned list, holds the account at that position, and that account differs from the signed-in one (positions advance over skipped duplicates) |
| `AccountChoices.SecondaryChoicesComplete` | chrome/browser/ui/webui/local_discovery/local_discovery_ui_handler.cc:343-352 | every returned account that differs from the signed-in one appears, tagged with its position |
| `AccountChoices.SecondaryChoicesIncreasing` | chrome/browser/ui/webui/local_discovery/local_discovery_ui_handler.cc:343-352 | the entries after the signed-in one are in strictly increasing position order |
| `AccountChoices.AccountChoicesShape` | chrome/browser/ui/webui/local_discovery/local_discovery_ui_handler.cc:336-352 | the list starts with an entry carrying the OAuth2 sentinel exactly when there is a signed-in account, that entry is (-1, signed-in account), and no later entry carries a negative index |
| `Decimal.FormatInt` | chrome/browser/ui/webui/local_discovery/local_discovery_ui_handler.cc:321 | `%d` yields a minus sign exactly for negative values, followed by a non-empty run of decimal digits with no leading zero (zero is the single digit `0`) |
| `Decimal.FormatIntRoundTrip` | chrome/browser/ui/webui/local_discovery/local_discovery_ui_handler.cc:321 | the `%d` text reads back as the same integer |
| `RegistrationFlow.ClaimUrl` | chrome/browser/ui/webui/local_discovery/local_discovery_ui_handler.cc:193-196 | the claim URL (format constant at line 28) starts with the device's base URL and gives back exactly the token after `/confirm?token=` |
| `RegistrationFlow.ClaimTokenStep` | chrome/browser/ui/webui/local_discovery/local_discovery_ui_handler.cc:186-231 | fails with "Device no longer exists" exactly when the client's device is not in the registry; fails with "Could not get token service" exactly for index -1 without a token service; OAuth2 confirm exactly for index -1 with one; cookie confirm with the cached primary XSRF token exactly for index 0; one account-manager request for that index and the device's base URL exactly for any other index; every claim URL carries the token under the device's base URL |
| `RegistrationFlow.ConfirmDoneEffect` | chrome/browser/ui/webui/local_discovery/local_discovery_ui_handler.cc:253-263 | registration is completed exactly on a successful confirm; any other status gives "Confirm error" |
| `RegistrationFlow.HttpErrorMessage` | chrome/browser/ui/webui/local_discovery/local_discovery_ui_handler.cc:321 | the info error text is `HTTP error ` followed by the `%d` text of the code, and the code reads back from it |
| `RegistrationFlow.InfoDoneCall` | chrome/browser/ui/webui/local_discovery/local_discovery_ui_handler.cc:316-326 | the device JSON is rendered exactly for HTTP 200 with a dictionary, and unchanged; otherwise the info error is exactly `HttpErrorMessage` of the status code |
| `LocalDiscovery.VisibilityCounter.constructor` | chrome/browser/ui/webui/local_discovery/local_discovery_ui_handler.cc:32 | the process starts with no visible page |
| `LocalDiscovery.LocalDiscoveryUIHandler.constructor` | chrome/browser/ui/webui/local_discovery/local_discovery_ui_handler.cc:35-36 | a new handler is invisible, with an empty registry, no collaborators, nothing in flight and an empty log |
| `LocalDiscovery.LocalDiscoveryUIHandler.WithLister` | chrome/browser/ui/webui/local_discovery/local_discovery_ui_handler.cc:38-41 | a handler given a lister has that lister but no HTTP factory; it starts invisible (corrected, see Findings) |
| `LocalDiscovery.LocalDiscoveryUIHandler.Destroy` | chrome/browser/ui/webui/local_discovery/local_discovery_ui_handler.cc:43-49 | the handler ends invisible with the counter moved accordingly, and the discovery client is released once if held |
| `LocalDiscovery.LocalDiscoveryUIHandler.SetIsVisible` | chrome/browser/ui/webui/local_discovery/local_discovery_ui_handler.cc:367-372 | the shared counter and the handler's flag change exactly as `Visibility.Toggle` says |
| `LocalDiscovery.LocalDiscoveryUIHandler.HandleIsVisible` | chrome/browser/ui/webui/local_discovery/local_discovery_ui_handler.cc:132-137 | the page's visibility report acts as a visibility call |
| `LocalDiscovery.LocalDiscoveryUIHandler.HandleStart` | chrome/browser/ui/webui/local_discovery/local_discovery_ui_handler.cc:85-99 | the lister, HTTP factory and discovery client are created only when no lister exists yet; every start restarts the lister and asks for new devices without forcing |
| `LocalDiscovery.LocalDiscoveryUIHandler.IndexDevice` | chrome/browser/ui/webui/local_discovery/local_discovery_ui_handler.cc:126 | `operator[]` on the registry returns and, for an unknown name, inserts the default description |
| `LocalDiscovery.LocalDiscoveryUIHandler.GetCloudPrintBaseUrl` | chrome/browser/ui/webui/local_discovery/local_discovery_ui_handler.cc:386-389 | returns the device's announced base URL, or the empty URL after inserting a default entry for an unknown name |
| `LocalDiscovery.LocalDiscoveryUIHandler.DeviceChanged` | chrome/browser/ui/webui/local_discovery/local_discovery_ui_handler.cc:265-285 | the registry entry becomes the new description, others unchanged, and exactly one `onServiceUpdate(name, info)` is logged |
| `LocalDiscovery.LocalDiscoveryUIHandler.DeviceRemoved` | chrome/browser/ui/webui/local_discovery/local_discovery_ui_handler.cc:287-294 | the entry is erased (no-op when absent), others unchanged, and exactly one `onServiceUpdate(name, null)` is logged |
| `LocalDiscovery.LocalDiscoveryUIHandler.HandleRegisterDevice` | chrome/browser/ui/webui/local_discovery/local_discovery_ui_handler.cc:101-118 | remembers the device and starts one account-manager request for its base URL and the primary user (index 0), inserting a default entry for an unknown name |
| `LocalDiscovery.LocalDiscoveryUIHandler.HandleInfoRequested` | chrome/browser/ui/webui/local_discovery/local_discovery_ui_handler.cc:120-130 | starts one client resolution for info, at the address indexed from the registry |
| `LocalDiscovery.LocalDiscoveryUIHandler.HandleChooseUser` | chrome/browser/ui/webui/local_discovery/local_discovery_ui_handler.cc:139-153 | records the chosen user index and starts one client resolution for the remembered device, for registration as that user |
| `LocalDiscovery.LocalDiscoveryUIHandler.StartRegisterHTTP` | chrome/browser/ui/webui/local_discovery/local_discovery_ui_handler.cc:155-168 | keeps the resolved client; a null client logs "Resolution failed" and starts nothing, otherwise one register operation is started for the user |
| `LocalDiscovery.LocalDiscoveryUIHandler.StartInfoHTTP` | chrome/browser/ui/webui/local_discovery/local_discovery_ui_handler.cc:170-180 | keeps the resolved client; a null client logs "Resolution failed" on the registration-error channel and starts nothing, otherwise one info operation is started |
| `LocalDiscovery.LocalDiscoveryUIHandler.StartCookieConfirmFlow` | chrome/browser/ui/webui/local_discovery/local_discovery_ui_handler.cc:391-404 | starts one cookie confirm flow with the given user index, XSRF token and claim URL |
| `LocalDiscovery.LocalDiscoveryUIHandler.OnPrivetRegisterClaimToken` | chrome/browser/ui/webui/local_discovery/local_discovery_ui_handler.cc:182-232 | produces exactly the one effect `RegistrationFlow.ClaimTokenStep` chooses (an error, a confirm-flow start, or an account-manager request) and changes only the matching in-flight field |
| `LocalDiscovery.LocalDiscoveryUIHandler.OnPrivetRegisterError` | chrome/browser/ui/webui/local_discovery/local_discovery_ui_handler.cc:234-242 | always logs exactly "Registration error" |
| `LocalDiscovery.LocalDiscoveryUIHandler.OnPrivetRegisterDone` | chrome/browser/ui/webui/local_discovery/local_discovery_ui_handler.cc:244-251 | clears the register operation and the client and logs `registrationSuccess(id)` |
| `LocalDiscovery.LocalDiscoveryUIHandler.OnConfirmDone` | chrome/browser/ui/webui/local_discovery/local_discovery_ui_handler.cc:253-263 | on success drops the confirm flow and completes the registration; otherwise logs "Confirm error" |
| `LocalDiscovery.LocalDiscoveryUIHandler.OnPrivetInfoDone` | chrome/browser/ui/webui/local_discovery/local_discovery_ui_handler.cc:316-326 | logs exactly the call `RegistrationFlow.InfoDoneCall` chooses |
| `LocalDiscovery.LocalDiscoveryUIHandler.OnCloudPrintAccountsResolved` | chrome/browser/ui/webui/local_discovery/local_discovery_ui_handler.cc:328-356 | caches the token as the primary user's XSRF token and logs one `requestUser` with the specified account list, headed by the signed-in user that `GetSyncAccount` (374-384, modelled by `AccountChoices.SyncAccount`) reports, or by no one without a sign-in manager |
| `LocalDiscovery.LocalDiscoveryUIHandler.OnXSRFTokenForSecondaryAccount` | chrome/browser/ui/webui/local_discovery/local_discovery_ui_handler.cc:358-365 | starts one cookie confirm flow with the secondary account's token, for the user index current at that moment |
| `Scenarios.TokenPathRegistration` | chrome/browser/ui/webui/local_discovery/local_discovery_ui_handler.cc:182-251 | discovery, account choice with the signed-in account, claim, OAuth2 confirm and completion produce exactly the expected effects, ending in `registrationSuccess("dev-42")` |
| `Scenarios.TokenPathWithoutTokenService` | chrome/browser/ui/webui/local_discovery/local_discovery_ui_handler.cc:200-207 | the OAuth2 path without a token service ends with "Could not get token service" and no confirm flow |
| `Scenarios.PrimaryCookieRegistration` | chrome/browser/ui/webui/local_discovery/local_discovery_ui_handler.cc:217-220 | index 0 starts only a cookie confirm flow, with the cached primary XSRF token |
| `Scenarios.SecondaryAccountRegistration` | chrome/browser/ui/webui/local_discovery/local_discovery_ui_handler.cc:221-230 | index 2 makes exactly one more account-manager request, scoped to index 2, and its token drives the cookie confirm flow |
| `Scenarios.RemovedAfterChoiceFails` | chrome/browser/ui/webui/local_discovery/local_discovery_ui_handler.cc:186-189 | a device removed after the account choice makes the claim fail with "Device no longer exists" and no confirm flow |
| `Scenarios.RemovedBeforeChoiceIsResurrected` | chrome/browser/ui/webui/local_discovery/local_discovery_ui_handler.cc:147-152 | a device removed before the account choice is re-inserted with a default description; when the resolver then returns a client for it anyway, a confirm flow is started with the claim URL `"/confirm?token=tok"` under the empty base URL |
| `Scenarios.TwoPagesVisibility` | chrome/browser/ui/webui/local_discovery/local_discovery_ui_handler.cc:367-372 | two pages built with the default constructor and sharing the counter: a repeated visibility report is not counted twice, and hiding one page and destroying the other brings the count back to zero |
| `StartAndInfoScenarios.StartTwice` | chrome/browser/ui/webui/local_discovery/local_discovery_ui_handler.cc:85-99 | a second start creates nothing new; it only restarts the lister and asks for devices again |
| `StartAndInfoScenarios.StartWithGivenLister` | chrome/browser/ui/webui/local_discovery/local_discovery_ui_handler.cc:85-99 | a handler built with a lister creates neither a discovery client nor an HTTP factory when started |
| `StartAndInfoScenarios.InfoRequestFails` | chrome/browser/ui/webui/local_discovery/local_discovery_ui_handler.cc:120-130 | an info request for a discovered device resolves it at its own address, starts one info operation, and a 404 ends in the info error "HTTP error 404" |
| `StartAndInfoScenarios.InfoResolutionFails` | chrome/browser/ui/webui/local_discovery/local_discovery_ui_handler.cc:170-175 | a failed resolution for an info request is reported as `registrationFailed("Resolution failed")` and starts no info operation |

## Left out

- Web UI plumbing is not modelled: `RegisterMessages`, the `base::ListValue` argument parsing and its `DCHECK`s. Handler arguments are typed parameters. Emitted JavaScript calls are entries of the log.
- `Create` and `SetFactory` are not modelled. They are a process-wide factory hook that tests use to inject handlers.
- Collaborators are not modelled; only their inputs and outputs are. Their results arrive as callback parameters: the resolved client or none, the register operation's token and outcome, the account list and token, the confirm status, whether a token service exists, and the signed-in user. This covers the lister, the HTTP factory and clients, the register and info operations, the account manager, the confirm flows, the token service and the sign-in manager. Their own behaviour, their network traffic and their failure modes are outside the model.
- `net::IPAddressToString` is not modelled: the IP address stays as bytes. `GURL` parsing and normalisation are not modelled: the claim URL is plain string concatenation.
- `StringPrintf("%s/confirm?token=%s")` stops at an embedded NUL character. The model concatenates whole strings.
- Callback lifetimes (`base::Unretained`) and asynchronous delivery are not modelled. Each callback is a method call on one thread. Superseded work is not cancelled, and late callbacks are not detected, as in the source.
- The source dereferences pointers that may be null in four places. These become preconditions: `HandleInfoRequested` and `HandleChooseUser` require the HTTP factory, `OnPrivetRegisterClaimToken` requires a current client, and `OnConfirmDone` with success requires a register operation.
- `current_register_user_index_` is an `int` that neither constructor initialises. The model starts it at 0. The source always sets it in `HandleChooseUser` before it reads it. The string fields start empty, as in the source.
- Logging (`DLOG`, `LOG`) is not modelled.
- `OnPrivetRegisterError`'s action, failure reason, printer HTTP code and JSON are accepted and ignored, as in the source.
- `g_num_visible` is a 32-bit `int` but is modelled as unbounded. Overflow would need more than two billion live pages.

## Findings

| source | as written | input that shows it | evidently intended | confidence | as-written member | corrected member |
|---|---|---|---|---|---|---|
| chrome/browser/ui/webui/local_discovery/local_discovery_ui_handler.cc:38-41 | the constructor that takes a device lister does not initialise `is_visible_`, unlike the default constructor at 35-36 | a handler built with a lister whose flag happens to read true, destroyed without ever being shown: `SetIsVisible(false)` in the destructor decrements `g_num_visible` from 0 to -1, and `GetHasVisible` then reports a visible page | `is_visible_(false)` in that constructor too, so that the counter always equals the number of visible handlers | medium; not executed (the header that declares the member is not part of this model) | `Visibility.ListerConstructorAsWrittenUnderflow` | `LocalDiscovery.LocalDiscoveryUIHandler.WithLister`, with `Visibility.CreateHandlerPreservesConsistency` |
