/**
 * The handler's registry of discovered devices (device name to description)
 * and the page notification each discovery event produces.
 */
module DeviceRegistry {
  import opened DiscoveryTypes

  type Registry = map<string, DeviceDescription>

  /** The two callbacks the device lister delivers. */
  datatype DiscoveryEvent =
    | Changed(added: bool, name: string, description: DeviceDescription)
    | Removed(name: string)

  /** The registry's entry for a name, as an Option. */
  function Lookup(reg: Registry, name: string): Option<DeviceDescription> {
    if name in reg then Some(reg[name]) else None
  }

  /** The dictionary a changed device is reported with. */
  function ServiceInfoOf(d: DeviceDescription): (info: ServiceInfo)
    ensures info.registered <==> d.id != ""
    ensures info.ip.None? <==> d.ipAddress == []
    ensures info.ip.Some? ==> info.ip.value == d.ipAddress
    ensures info.lastSeen == "unknown"
    ensures info.domain == d.address.host && info.port == d.address.port
  {
    ServiceInfo(d.address.host, d.address.port,
      if d.ipAddress == [] then None else Some(d.ipAddress), "unknown", d.id != "")
  }

  /**
   * The registry after one event: a change replaces the entry for its name
   * wholesale (the `added` flag plays no part), a removal erases it and is a
   * no-op for an unknown name; no other entry is touched.
   */
  function Apply(reg: Registry, e: DiscoveryEvent): (r: Registry)
    ensures e.Changed? ==> r.Keys == reg.Keys + {e.name} && r[e.name] == e.description
    ensures e.Removed? ==> r.Keys == reg.Keys - {e.name}
    ensures e.Removed? && e.name !in reg ==> r == reg
    ensures forall n :: n != e.name ==> Lookup(r, n) == Lookup(reg, n)
  {
    match e
    case Changed(_, name, d) => reg[name := d]
    case Removed(name) => reg - {name}
  }

  /** The onServiceUpdate call an event produces: the device's info, or null for a removal. */
  function Notification(e: DiscoveryEvent): (u: UiCall)
    ensures u.ServiceUpdate? && u.name == e.name
    ensures u.info.Some? <==> e.Changed?
    ensures e.Changed? ==> u.info.value.registered == (e.description.id != "")
  {
    match e
    case Changed(_, name, d) => ServiceUpdate(name, Some(ServiceInfoOf(d)))
    case Removed(name) => ServiceUpdate(name, None)
  }

  /** The registry after a sequence of events, applied in arrival order. */
  function Replay(reg: Registry, events: seq<DiscoveryEvent>): Registry
    decreases |events|
  {
    if events == [] then reg
    else Apply(Replay(reg, events[..|events| - 1]), events[|events| - 1])
  }

  /** The notifications a sequence of events produces, in arrival order. */
  function Notifications(events: seq<DiscoveryEvent>): seq<UiCall>
    decreases |events|
  {
    if events == [] then []
    else Notifications(events[..|events| - 1]) + [Notification(events[|events| - 1])]
  }

  /** The last event of a sequence that concerns a given name. */
  function LastEventFor(events: seq<DiscoveryEvent>, name: string): Option<DiscoveryEvent>
    decreases |events|
  {
    if events == [] then None
    else if events[|events| - 1].name == name then Some(events[|events| - 1])
    else LastEventFor(events[..|events| - 1], name)
  }

  /** What the registry holds for a name once its last event has been applied. */
  function Outcome(last: Option<DiscoveryEvent>, before: Option<DeviceDescription>): Option<DeviceDescription> {
    match last
    case None => before
    case Some(Changed(_, _, d)) => Some(d)
    case Some(Removed(_)) => None
  }

  /** For every name, the registry reflects the last event about that name, and is untouched for other names. */
  lemma {:induction false} ReplayLastEventWins(reg: Registry, events: seq<DiscoveryEvent>, name: string)
    ensures Lookup(Replay(reg, events), name) == Outcome(LastEventFor(events, name), Lookup(reg, name))
    decreases |events|
  {
    if events != [] {
      ReplayLastEventWins(reg, events[..|events| - 1], name);
    }
  }

  /** Each event produces exactly one notification, naming its device, in arrival order. */
  lemma {:induction false} NotificationsInOrder(events: seq<DiscoveryEvent>)
    ensures |Notifications(events)| == |events|
    ensures forall i :: 0 <= i < |events| ==> Notifications(events)[i] == Notification(events[i])
    decreases |events|
  {
    if events != [] {
      NotificationsInOrder(events[..|events| - 1]);
    }
  }

  /** The result of indexing the registry with operator[]: the entry and the registry afterwards. */
  datatype Indexed = Indexed(description: DeviceDescription, registry: Registry)

  /**
   * operator[] on the registry: an unknown name is inserted with a default
   * description, silently, and that default is what the caller reads.
   */
  function LookupInserting(reg: Registry, name: string): (r: Indexed)
    ensures r.registry == reg[name := r.description]
    ensures name in reg ==> r.description == reg[name] && r.registry == reg
    ensures name !in reg ==> r.description == DefaultDescription && r.registry.Keys == reg.Keys + {name}
  {
    if name in reg then Indexed(reg[name], reg) else Indexed(DefaultDescription, reg[name := DefaultDescription])
  }
}
