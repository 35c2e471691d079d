/** The desired Service, Gateway and HTTPRoute of a Route. */
module Resources {
  import opened Model
  import opened HostMaps
  import opened Promises
  import opened Domains
  import opened Names
  import TrafficSplit

  /** An object together with the key it is created under. */
  datatype Named<+O> = Named(key: Key, obj: O)

  function ControllerRef(r: Route): Owner {
    Owner(r.name, r.uid)
  }

  /** The labels that tie an object to its Route. They win over the Route's own labels. */
  function OwnerLabels(r: Route): Labels {
    map[ROUTE_LABEL := r.name, ROUTE_NAMESPACE_LABEL := r.ns]
  }

  function ChildLabels(r: Route): Labels {
    LabelsOf(r) + OwnerLabels(r)
  }

  function ChildAnnotations(r: Route): Labels {
    r.annotations - {LAST_APPLIED}
  }

  lemma OwnerLabelsAdded(r: Route)
    ensures Owned(r, ChildLabels(r)) && Annotated(r, ChildAnnotations(r))
  {
    LabelKeysDiffer();
  }

  /** Kubernetes `matchLabels` semantics. */
  predicate Selects(selector: Labels, labels: Labels) {
    forall k :: k in selector ==> k in labels && labels[k] == selector[k]
  }

  // ---------- placeholder Service ----------

  function ServiceSpecFor(env: Env): ServiceSpec
    requires CLUSTER_LOCAL in env.gateways
  {
    ServiceSpec("ExternalName", env.gateways[CLUSTER_LOCAL].address, "None", [ServicePort("http2", 80, 80)])
  }

  function DesiredService(env: Env, r: Route): ServiceObj
    requires CLUSTER_LOCAL in env.gateways
  {
    Obj(LabelsOf(r), r.annotations, [ControllerRef(r)], ServiceSpecFor(env), "")
  }

  function MakePlaceholderService(env: Env, r: Route, hostname: string): Result<Named<ServiceObj>> {
    if CLUSTER_LOCAL !in env.gateways then Err(Panic)
    else Ok(Named(Key(r.ns, hostname), DesiredService(env, r)))
  }

  // ---------- Gateway ----------

  function GatewayNamespace(env: Env, r: Route, v: string): string
    requires v in env.gateways
  {
    if env.gateways[v].namespace == "" then r.ns else env.gateways[v].namespace
  }

  function GatewayKey(env: Env, r: Route, v: string): Key
    requires v in env.gateways
  {
    Key(GatewayNamespace(env, r, v), GatewayName(env.md5, r, v))
  }

  function ListenerFor(r: Route, host: string): Listener {
    Listener(host, 80, "HTTP", "All", OwnerLabels(r), "HTTPRoute")
  }

  function Listeners(r: Route, hosts: seq<string>): seq<Listener> {
    seq(|hosts|, i requires 0 <= i < |hosts| => ListenerFor(r, hosts[i]))
  }

  function GatewaySpecFor(env: Env, r: Route, hosts: seq<string>, v: string): GatewaySpec
    requires v in env.gateways
  {
    var c := env.gateways[v];
    GatewaySpec(c.gatewayClass, Listeners(r, hosts),
                if c.address == "" then [] else [Address("NamedAddress", c.address)])
  }

  function DesiredGateway(env: Env, r: Route, hosts: seq<string>, v: string): GatewayObj
    requires v in env.gateways
  {
    Obj(ChildLabels(r), ChildAnnotations(r), [], GatewaySpecFor(env, r, hosts, v), "")
  }

  function MakeGateway(env: Env, r: Route, hosts: seq<string>, v: string): Result<Named<GatewayObj>> {
    if v !in env.gateways then Err(Panic)
    else Ok(Named(GatewayKey(env, r, v), DesiredGateway(env, r, hosts, v)))
  }

  class HostCell {
    var value: string
    constructor (value: string)
      ensures this.value == value
    {
      this.value := value;
    }
  }

  /** A listener as it is built, with its hostname behind a pointer. */
  datatype ListenerRef = ListenerRef(hostname: HostCell, rest: Listener)

  function Deref(l: ListenerRef): Listener
    reads l.hostname
  {
    l.rest.(hostname := l.hostname.value)
  }

  /** Builds the listeners. The loop variable is copied, so unlike in the traffic split each
      pointer has a cell of its own and keeps its own host. */
  method MakeListeners(r: Route, hosts: seq<string>) returns (listeners: seq<ListenerRef>)
    ensures |listeners| == |hosts|
    ensures forall i :: 0 <= i < |hosts| ==> fresh(listeners[i].hostname)
    ensures forall i :: 0 <= i < |hosts| ==> Deref(listeners[i]) == Listeners(r, hosts)[i]
    ensures forall i, j :: 0 <= i < j < |hosts| ==> listeners[i].hostname != listeners[j].hostname
  {
    listeners := [];
    for n := 0 to |hosts|
      invariant |listeners| == n
      invariant forall i :: 0 <= i < n ==> fresh(listeners[i].hostname)
      invariant forall i :: 0 <= i < n ==> Deref(listeners[i]) == ListenerFor(r, hosts[i])
      invariant forall i, j :: 0 <= i < j < n ==> listeners[i].hostname != listeners[j].hostname
    {
      var host := new HostCell(hosts[n]);
      listeners := listeners + [ListenerRef(host, ListenerFor(r, ""))];
    }
  }

  /** The Gateway of a Route for one visibility, its listeners read back from the heap. */
  method BuildGateway(env: Env, r: Route, hosts: seq<string>, v: string) returns (res: Result<Named<GatewayObj>>)
    ensures res == MakeGateway(env, r, hosts, v)
    ensures res.Ok? <==> v in env.gateways
    ensures res.Ok? ==>
              var o := res.value.obj;
              && o.spec.gatewayClassName == env.gateways[v].gatewayClass && ListensTo(r, o.spec.listeners, hosts)
              && Addressed(o.spec.addresses, env.gateways[v].address)
              && Owned(r, o.labels) && Annotated(r, o.annotations)
  {
    if v !in env.gateways {
      return Err(Panic);
    }
    var ns := env.gateways[v].namespace;
    if ns == "" {
      ns := r.ns;
    }
    var refs := MakeListeners(r, hosts);
    var listeners := [];
    for i := 0 to |refs|
      invariant listeners == Listeners(r, hosts)[..i]
    {
      listeners := listeners + [Deref(refs[i])];
    }
    assert listeners == Listeners(r, hosts);
    var spec := GatewaySpec(env.gateways[v].gatewayClass, listeners, []);
    if env.gateways[v].address != "" {
      spec := spec.(addresses := [Address("NamedAddress", env.gateways[v].address)]);
    }
    OwnerLabelsAdded(r);
    return Ok(Named(Key(ns, GatewayName(env.md5, r, v)), Obj(ChildLabels(r), ChildAnnotations(r), [], spec, "")));
  }

  // ---------- HTTPRoute ----------

  function DesiredHTTPRouteSpec(r: Route, hostnames: seq<string>, gateways: seq<Key>): HTTPRouteSpec {
    HTTPRouteSpec(hostnames, [TrafficSplit.Splits(r.ns, r.traffic)], "FromList", gateways)
  }

  function DesiredHTTPRoute(r: Route, hostnames: seq<string>, gateways: seq<Key>): HTTPRouteObj {
    Obj(ChildLabels(r), ChildAnnotations(r), [ControllerRef(r)], DesiredHTTPRouteSpec(r, hostnames, gateways), None)
  }

  function HTTPRouteKey(r: Route): Key {
    Key(r.ns, r.name)
  }

  function MakeHTTPRoute(env: Env, r: Route, o: Orders, gateways: seq<Key>): Result<HTTPRouteObj>
    requires |o.hosts| == |r.traffic|
  {
    var hostnames :- RouteHostnames(env, r, o);
    if !TrafficSplit.PercentsSet(r.traffic) then Err(Panic)
    else Ok(DesiredHTTPRoute(r, hostnames, gateways))
  }

  // ---------- selectors ----------

  lemma LabelKeysDiffer()
    ensures ROUTE_LABEL != ROUTE_NAMESPACE_LABEL
  {
  }

  /** Whatever labels the users give their Routes, the labels of one Route's children match the
      selector of another exactly when the two are the same Route. */
  lemma OwnerSelectorIsExact(r: Route, r': Route)
    ensures Selects(OwnerLabels(r), ChildLabels(r')) <==> SameRoute(r, r')
  {
    LabelKeysDiffer();
    assert OwnerLabels(r).Keys == {ROUTE_LABEL, ROUTE_NAMESPACE_LABEL};
    var l := ChildLabels(r');
    assert l[ROUTE_LABEL] == r'.name && l[ROUTE_NAMESPACE_LABEL] == r'.ns;
    if Selects(OwnerLabels(r), l) {
      assert ROUTE_LABEL in OwnerLabels(r) && ROUTE_NAMESPACE_LABEL in OwnerLabels(r);
    }
  }

  /** The listeners of a Route's Gateway select the HTTPRoute of another Route exactly when the
      two are the same Route. */
  lemma SelectorExactness(env: Env, r: Route, hosts: seq<string>, v: string, r': Route, o: Orders, gateways: seq<Key>,
      i: nat)
    requires v in env.gateways && |o.hosts| == |r'.traffic| && i < |hosts|
    requires MakeHTTPRoute(env, r', o, gateways).Ok?
    ensures |DesiredGateway(env, r, hosts, v).spec.listeners| == |hosts|
    ensures Selects(DesiredGateway(env, r, hosts, v).spec.listeners[i].matchLabels,
                    MakeHTTPRoute(env, r', o, gateways).value.labels)
       <==> SameRoute(r, r')
  {
    OwnerSelectorIsExact(r, r');
  }

  /** The Gateways of a Route and its HTTPRoute serve the same hosts equally often. */
  lemma ListenersServeTheHostnames(env: Env, r: Route, o: Orders, gateways: seq<Key>)
    requires ValidOrders(r, o) && MakeHTTPRoute(env, r, o, gateways).Ok?
    requires GatewayVisibilities(r) <= env.gateways.Keys
    ensures multiset(MakeHTTPRoute(env, r, o, gateways).value.spec.hostnames)
         == AllListenerHosts(env, r, RouteDomains(env, r).value, o.gateways)
  {
    HostAgreement(env, r, o, o);
    forall v | v in o.gateways ensures v in env.gateways {
      assert v in GatewayVisibilities(r);
    }
    ListenerHostsAlong(env, r, RouteDomains(env, r).value, o.gateways);
  }

  function ListenerHosts(g: GatewayObj): seq<string> {
    seq(|g.spec.listeners|, i requires 0 <= i < |g.spec.listeners| => g.spec.listeners[i].hostname)
  }

  /** The listener hostnames of the desired Gateways of several visibilities, counted. */
  function AllListenerHosts(env: Env, r: Route, domains: HostMap, vs: seq<string>): multiset<string> {
    if vs == [] then multiset{}
    else AllListenerHosts(env, r, domains, Init(vs)) +
         if Last(vs) in env.gateways
           then multiset(ListenerHosts(DesiredGateway(env, r, Hosts(domains, Last(vs)), Last(vs)))) else multiset{}
  }

  lemma {:induction false} ListenerHostsAlong(env: Env, r: Route, domains: HostMap, vs: seq<string>)
    requires forall v :: v in vs ==> v in env.gateways
    ensures AllListenerHosts(env, r, domains, vs) == multiset(Along(domains, vs))
  {
    if vs != [] {
      ListenerHostsAlong(env, r, domains, Init(vs));
      var hosts := Hosts(domains, Last(vs));
      assert ListenerHosts(DesiredGateway(env, r, hosts, Last(vs))) == hosts;
    }
  }
}
