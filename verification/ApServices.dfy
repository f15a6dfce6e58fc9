/** The service registry of kernel/ap_services.c. */
module ApServices {
  import opened Words
  import opened ApRequest

  const SERVICE_PING: u64 := 0x4150_2d53_5643_0001
  const INTERFACE_PING: u64 := 0x4150_2d49_4643_0001
  const SERVICE_COUNTER: u64 := 0x4150_2d53_5643_0002
  const INTERFACE_COUNTER: u64 := 0x4150_2d49_4643_0002

  datatype Handler = PingHandler | CounterHandler

  datatype Service = Service(service: u64, iface: u64, owner: u32, handler: Handler)

  datatype Lookup = LookupOk | UnknownService | UnknownInterface

  /** The owner indices are build-time parameters. */
  function Registry(pingOwner: u32, counterOwner: u32): (r: seq<Service>) {
    [Service(SERVICE_PING, INTERFACE_PING, pingOwner, PingHandler),
     Service(SERVICE_COUNTER, INTERFACE_COUNTER, counterOwner, CounterHandler)]
  }

  predicate Provides(e: Service, service: u64, iface: u64) {
    e.service == service && e.iface == iface
  }

  predicate FirstProvider(registry: seq<Service>, service: u64, iface: u64, k: nat) {
    && k < |registry| && Provides(registry[k], service, iface)
    && forall j :: 0 <= j < k ==> !Provides(registry[j], service, iface)
  }

  /** `find_ap_service`: the first entry that provides the interface. */
  method FindService(registry: seq<Service>, service: u64, iface: u64) returns (e: Option<Service>)
    ensures e.Some? <==> exists k :: 0 <= k < |registry| && Provides(registry[k], service, iface)
    ensures e.Some? ==> exists k :: 0 <= k < |registry| && registry[k] == e.value && FirstProvider(registry, service, iface, k)
  {
    var i := 0;
    while i < |registry|
      invariant 0 <= i <= |registry| && forall j :: 0 <= j < i ==> !Provides(registry[j], service, iface)
    {
      if Provides(registry[i], service, iface) {
        assert FirstProvider(registry, service, iface, i);
        return Some(registry[i]);
      }
      i := i + 1;
    }
    return None;
  }

  /** `classify_ap_service_lookup`. */
  method Classify(registry: seq<Service>, service: u64, iface: u64) returns (r: Lookup)
    ensures r == LookupOk <==> exists k :: 0 <= k < |registry| && Provides(registry[k], service, iface)
    ensures r == UnknownService <==> forall k :: 0 <= k < |registry| ==> registry[k].service != service
  {
    var seen := false;
    var i := 0;
    while i < |registry|
      invariant 0 <= i <= |registry| && forall j :: 0 <= j < i ==> !Provides(registry[j], service, iface)
      invariant seen <==> exists j :: 0 <= j < i && registry[j].service == service
    {
      if registry[i].service == service {
        seen := true;
        if registry[i].iface == iface {
          return LookupOk;
        }
      }
      i := i + 1;
    }
    return if seen then UnknownInterface else UnknownService;
  }

  /** `find_ap_request_handler` on the built-in registry. */
  function HandlerFor(service: u64, iface: u64): (h: Option<Handler>) {
    if service == SERVICE_PING && iface == INTERFACE_PING then Some(PingHandler)
    else if service == SERVICE_COUNTER && iface == INTERFACE_COUNTER then Some(CounterHandler)
    else None
  }

  /** `ap_dispatch_miss_result_code`: the part of the address that was not found, truncated to 32 bits. */
  function MissCode(service: u64, iface: u64): (c: u32) {
    if service != SERVICE_PING && service != SERVICE_COUNTER then service % 0x1_0000_0000 else iface % 0x1_0000_0000
  }

  /** The pure dispatch used by the request loop is the registry search. */
  method DispatchIsSearch(service: u64, iface: u64, pingOwner: u32, counterOwner: u32) returns (e: Option<Service>)
    ensures e.Some? <==> HandlerFor(service, iface).Some?
    ensures e.Some? ==> Some(e.value.handler) == HandlerFor(service, iface)
  {
    var registry := Registry(pingOwner, counterOwner);
    e := FindService(registry, service, iface);
    assert Provides(registry[0], service, iface) || Provides(registry[1], service, iface) <==> HandlerFor(service, iface).Some?;
  }

  /** The pure miss code used by the request loop is the one the classification gives. */
  method MissIsClassified(service: u64, iface: u64, pingOwner: u32, counterOwner: u32) returns (c: u32)
    ensures c == MissCode(service, iface)
  {
    var registry := Registry(pingOwner, counterOwner);
    var r := Classify(registry, service, iface);
    assert registry[0].service == service || registry[1].service == service <==> r != UnknownService;
    c := if r == UnknownService then service % 0x1_0000_0000 else iface % 0x1_0000_0000;
  }
}
