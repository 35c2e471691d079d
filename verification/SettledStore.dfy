/** What the store that passes converge to offers the users of a Route. */
module SettledStore {
  import opened Model
  import opened Domains
  import opened Promises
  import opened Names
  import opened Syncing
  import opened Resources
  import opened Passes
  import opened Desired
  import opened Convergence

  lemma LimitHolds<S, T>(m: Objs<S, T>, desired: Objs<S, T>, k: Key)
    requires k in desired
    ensures k in Limit(m, desired) && InSync(Limit(m, desired)[k], desired[k])
  {
  }

  lemma LimitKeeps<S, T>(m: Objs<S, T>, desired: Objs<S, T>, k: Key)
    requires k in desired
    ensures Kept(m, k, Limit(m, desired)[k], desired[k].owners, desired[k].other)
  {
  }

  lemma EveryTargetIsServable(env: Env, r: Route, i: nat)
    requires Compilable(env, r) && i < |r.traffic|
    ensures Servable(env, r, r.traffic[i].tag)
    ensures Targets(env, r).Ok? && i < |Targets(env, r).value|
    ensures Targets(env, r).value[i] == HostOf(env, r, r.traffic[i].tag).value
  {
    CompilableServices(env, r);
    RouteCompiles(env, r);
    CollectAll(TargetNames(env, r));
    assert TargetNames(env, r)[i] == Ok(Targets(env, r).value[i]);
  }

  /** Every traffic target has its placeholder Service, under its hostname. */
  lemma EveryTargetHasItsService(env: Env, r: Route, o: Orders, s: Store, i: nat)
    requires Sound(env, r) && ValidOrders(r, o) && i < |r.traffic|
    ensures Servable(env, r, r.traffic[i].tag)
    ensures var k, m := Key(r.ns, HostOf(env, r, r.traffic[i].tag).value), Settled(env, r, o, s).services;
            k in m && IsServiceOf(env, r, m[k]) && Kept(s.services, k, m[k], [Owner(r.name, r.uid)], "")
  {
    EveryTargetIsServable(env, r, i);
    CompilableServices(env, r);
    ServiceKeyOf(env, r, i);
    var k, d := Key(r.ns, HostOf(env, r, r.traffic[i].tag).value), DesiredServices(env, r);
    LimitHolds(s.services, d, k);
    LimitKeeps(s.services, d, k);
    ServiceAsPromised(env, r, Limit(s.services, d)[k]);
  }

  /** The key of the Gateway for `v`: in the configured namespace or, if that is empty, in the Route's. */
  lemma WhereGatewaysAre(env: Env, r: Route, v: string)
    requires v in env.gateways && v in Visibilities(r)
    ensures var k, ns := GatewayKey(env, r, v), env.gateways[v].namespace;
            && k.ns == (if ns != "" then ns else r.ns)
            && (|r.name| + |r.ns| + |v| <= 61 ==> k.name == r.name + "-" + r.ns + "-" + v)
  {
    if |r.name| + |r.ns| + |v| <= 61 {
      PlainGatewayName(env.md5, r, v);
    }
  }

  /** Every listener of a Route's Gateway selects exactly the HTTPRoute of that Route. */
  lemma ListenersSelect(env: Env, r: Route, v: string, g: GatewayObj, r': Route)
    requires IsGatewayOf(env, r, v, g)
    ensures forall l :: l in g.spec.listeners ==> (Selects(l.matchLabels, ChildLabels(r')) <==> SameRoute(r, r'))
  {
    OwnerSelectorIsExact(r, r');
  }

  /** Every visibility has its Gateway, with one listener for each host of each target, in traffic
      order, and with its configured address if there is one. */
  lemma EveryVisibilityHasItsGateway(env: Env, r: Route, o: Orders, s: Store, v: string)
    requires Sound(env, r) && ValidOrders(r, o) && r.traffic != [] && (v == OwnVisibility(r) || v == "cluster-local")
    ensures v in env.gateways
    ensures var k, m := GatewayKey(env, r, v), Settled(env, r, o, s).gateways;
            k in m && IsGatewayOf(env, r, v, m[k]) && Kept(s.gateways, k, m[k], [], "")
  {
    VisibilityOfRoute(r);
    assert v in GatewayVisibilities(r);
    var k, d := GatewayKey(env, r, v), DesiredGateways(env, r);
    GatewayKeyOf(env, r, v);
    LimitHolds(s.gateways, d, k);
    LimitKeeps(s.gateways, d, k);
    GatewayAsPromised(env, r, v, Limit(s.gateways, d)[k]);
  }

  /** When the cluster-local Gateway has an address, every placeholder Service is an alias of it. */
  lemma ServicesLeadToTheGateway(env: Env, r: Route, o: Orders, s: Store, i: nat)
    requires Sound(env, r) && ValidOrders(r, o) && i < |r.traffic|
    ensures CLUSTER_LOCAL in env.gateways && Servable(env, r, r.traffic[i].tag)
    ensures var services, gateways := Settled(env, r, o, s).services, Settled(env, r, o, s).gateways;
            var k, g := Key(r.ns, HostOf(env, r, r.traffic[i].tag).value), GatewayKey(env, r, CLUSTER_LOCAL);
            && k in services && g in gateways
            && (gateways[g].spec.addresses != [] <==> services[k].spec.externalName != "")
            && (gateways[g].spec.addresses != [] ==>
                  gateways[g].spec.addresses == [Address("NamedAddress", services[k].spec.externalName)])
  {
    EveryTargetHasItsService(env, r, o, s, i);
    EveryVisibilityHasItsGateway(env, r, o, s, CLUSTER_LOCAL);
  }

  /** The Route has its HTTPRoute, with one rule that divides the traffic. */
  lemma TheRouteHasItsHTTPRoute(env: Env, r: Route, o: Orders, s: Store)
    requires Sound(env, r) && ValidOrders(r, o)
    ensures var k, m := Key(r.ns, r.name), Settled(env, r, o, s).httproutes;
            k in m && IsHTTPRouteOf(env, r, o.hosts, [], m[k])
            && Kept(s.httproutes, k, m[k], [Owner(r.name, r.uid)], None)
  {
    HTTPRouteAsPromised(env, r, o, [], Settled(env, r, o, s).httproutes[HTTPRouteKey(r)]);
  }

  /** Its HTTPRoute lists the hosts of all the listeners of its Gateways, equally often, and yet
      allows none of those Gateways. */
  lemma HTTPRouteServesTheListeners(env: Env, r: Route, o: Orders, s: Store)
    requires Sound(env, r) && ValidOrders(r, o)
    ensures var m := Settled(env, r, o, s).httproutes;
            && HTTPRouteKey(r) in m
            && multiset(m[HTTPRouteKey(r)].spec.hostnames)
               == AllListenerHosts(env, r, RouteDomains(env, r).value, o.gateways)
            && m[HTTPRouteKey(r)].spec.allow == "FromList" && m[HTTPRouteKey(r)].spec.gatewayRefs == []
  {
    MadeHTTPRoute(env, r, o, []);
    ListenersServeTheHostnames(env, r, o, []);
    var h := Settled(env, r, o, s).httproutes[HTTPRouteKey(r)];
    assert h.spec == DesiredHTTPRouteFor(env, r, o, []).spec;
  }
}
