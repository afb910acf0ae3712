/**
 * Short conversations about starting the handler and asking a device for its
 * info, with the effects they must produce.
 */
module StartAndInfoScenarios {
  import opened DiscoveryTypes
  import opened LocalDiscovery
  import opened RegistrationFlow
  import opened Scenarios

  /**
   * Starting twice creates the lister, the HTTP factory and the discovery
   * client once, and restarts the lister each time.
   */
  method StartTwice() returns (log: seq<Effect>)
    ensures log == [Out(AcquireDiscoveryClient), Out(ListerStart), Out(DiscoverNewDevices(false)),
                    Out(ListerStart), Out(DiscoverNewDevices(false))]
  {
    var counter := new VisibilityCounter();
    var h := new LocalDiscoveryUIHandler(counter);
    h.HandleStart();
    h.HandleStart();
    log := h.log;
  }

  /** A handler given a lister only restarts it: no discovery client and no HTTP factory are created. */
  method StartWithGivenLister() returns (log: seq<Effect>, hasHttpFactory: bool)
    ensures log == [Out(ListerStart), Out(DiscoverNewDevices(false))] && !hasHttpFactory
  {
    var counter := new VisibilityCounter();
    var h := new LocalDiscoveryUIHandler.WithLister(counter);
    h.HandleStart();
    log, hasHttpFactory := h.log, h.hasHttpFactory;
  }

  /** A started handler whose discovery has found "p1". */
  method Discovered() returns (h: LocalDiscoveryUIHandler)
    ensures fresh(h) && h.hasHttpFactory && h.devices == map["p1" := Printer]
  {
    var counter := new VisibilityCounter();
    h := new LocalDiscoveryUIHandler(counter);
    h.HandleStart();
    h.DeviceChanged(true, "p1", Printer);
  }

  /** A 404 without a body becomes the info error "HTTP error 404". */
  lemma NotFoundInfo()
    ensures InfoDoneCall(404, None) == InfoFailed("HTTP error 404")
  {
  }

  /** An info request whose device answers 404: one resolution, one info operation, one info error. */
  method InfoRequestFails() returns (tail: seq<Effect>)
    ensures tail == [
      Out(ResolveClient(Resolution("p1", HostPort("p1.local", 8080), ForInfo))),
      Out(StartInfoOperation),
      Ui(InfoFailed("HTTP error 404"))]
  {
    var h := Discovered();
    var before := |h.log|;
    h.HandleInfoRequested("p1");
    h.StartInfoHTTP(Some(Client("p1")));
    NotFoundInfo();
    h.OnPrivetInfoDone(404, None);
    tail := h.log[before..];
  }

  /** A failed resolution for an info request is reported on the registration-error channel. */
  method InfoResolutionFails() returns (last: Effect, infoStarted: bool)
    ensures last == Ui(RegistrationFailed("Resolution failed")) && !infoStarted
  {
    var counter := new VisibilityCounter();
    var h := new LocalDiscoveryUIHandler(counter);
    h.HandleStart();
    h.HandleInfoRequested("p1");
    h.StartInfoHTTP(None);
    last, infoStarted := h.log[|h.log| - 1], h.hasInfoOperation;
  }
}
