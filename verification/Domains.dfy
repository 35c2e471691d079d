/** The hostname compiler: which hosts each traffic target of a Route is served under, grouped
    by visibility for the Gateways and flattened for the HTTPRoute. */
module Domains {
  import opened Model
  import opened HostMaps
  import opened Promises

  // ---------- one traffic target ----------

  function HostnameFromTemplate(env: Env, name: string, tag: string): Result<string> {
    if tag == "" then Ok(name)
    else match env.tagTemplate(name, tag)
      case Some(h) => Ok(h)
      case None => Err(TemplateError)
  }

  function DomainName(env: Env, meta: ObjectMeta, hostname: string): Result<string> {
    match env.domainTemplate(meta, hostname)
    case Some(d) => Ok(d)
    case None => Err(TemplateError)
  }

  function Visibility(r: Route): string {
    var v := Lookup(LabelsOf(r), VISIBILITY_LABEL);
    if v == "" then DEFAULT_VISIBILITY else v
  }

  /** The visibilities a Route is exposed under: its own and, always, cluster-local. */
  function Visibilities(r: Route): set<string> {
    {Visibility(r), CLUSTER_LOCAL}
  }

  function MetaOf(r: Route): ObjectMeta {
    ObjectMeta(r.ns, LabelsOf(r), r.annotations)
  }

  function LocalMetaOf(r: Route): ObjectMeta {
    ObjectMeta(r.ns, LabelsOf(r)[VISIBILITY_LABEL := CLUSTER_LOCAL], r.annotations)
  }

  /** The external hosts of a target: none for a cluster-local Route. */
  function ExternalHosts(env: Env, hostname: string, r: Route): Result<seq<string>> {
    if Visibility(r) == CLUSTER_LOCAL then Ok([])
    else
      var domain :- DomainName(env, MetaOf(r), hostname);
      Ok([domain])
  }

  /** The cluster-local hosts of a target. Labelling a Route that has no labels panics. */
  function LocalHosts(env: Env, hostname: string, r: Route): Result<seq<string>> {
    if r.labels.None? then Err(Panic)
    else
      var domain :- DomainName(env, LocalMetaOf(r), hostname);
      Ok(env.expandedHosts(domain))
  }

  /** The hosts of one target by visibility: one external host unless the Route is
      cluster-local, and the expansion of the local domain in any case. */
  function VisibilityDomains(env: Env, tag: string, r: Route): (res: Result<HostMap>)
    ensures res.Ok? ==> res.value.Keys == Visibilities(r)
    ensures res.Ok? && Visibility(r) != CLUSTER_LOCAL ==> |Hosts(res.value, Visibility(r))| == 1
    ensures res.Ok? ==> HostnameFromTemplate(env, r.name, tag).Ok? && r.labels.Some?
  {
    var hostname :- HostnameFromTemplate(env, r.name, tag);
    var external :- ExternalHosts(env, hostname, r);
    var local :- LocalHosts(env, hostname, r);
    Ok(map[Visibility(r) := external][CLUSTER_LOCAL := local])
  }

  method VisibilityToDomain(env: Env, tag: string, r: Route) returns (res: Result<HostMap>)
    ensures res == VisibilityDomains(env, tag, r)
    ensures res.Ok? <==> Servable(env, r, tag)
    ensures res.Ok? ==> forall v :: v in res.value ==> res.value[v] == HostsFor(env, r, tag, v)
  {
    var visibilityToDomain: HostMap := map[];
    var hostname :- HostnameFromTemplate(env, r.name, tag);

    var visibility := Lookup(LabelsOf(r), VISIBILITY_LABEL);
    if visibility == "" {
      visibility := DEFAULT_VISIBILITY;
    }

    var domains := [];
    if visibility != CLUSTER_LOCAL {
      var domain :- DomainName(env, MetaOf(r), hostname);
      domains := domains + [domain];
      assert domains == [domain];
    }
    visibilityToDomain := visibilityToDomain[visibility := domains];

    var ldomains := [];
    if r.labels.None? {
      return Err(Panic);
    }
    var labels := r.labels.value[VISIBILITY_LABEL := CLUSTER_LOCAL];
    var localDomain :- DomainName(env, ObjectMeta(r.ns, labels, r.annotations), hostname);
    var expanded := env.expandedHosts(localDomain);
    for i := 0 to |expanded|
      invariant ldomains == expanded[..i]
    {
      ldomains := ldomains + [expanded[i]];
    }
    assert ldomains == expanded;
    visibilityToDomain := visibilityToDomain[CLUSTER_LOCAL := ldomains];
    return Ok(visibilityToDomain);
  }

  // ---------- all traffic targets ----------

  /** The host map or the error of each target. */
  function TargetResults(env: Env, r: Route): (rs: seq<Result<HostMap>>)
    ensures |rs| == |r.traffic|
    ensures forall i :: 0 <= i < |rs| ==> rs[i] == VisibilityDomains(env, r.traffic[i].tag, r)
  {
    seq(|r.traffic|, i requires 0 <= i < |r.traffic| => VisibilityDomains(env, r.traffic[i].tag, r))
  }

  /** All the values, or the first error. */
  function Collect<T>(rs: seq<Result<T>>): (res: Result<seq<T>>)
    ensures res.Ok? ==> |res.value| == |rs|
  {
    if rs == [] then Ok([])
    else
      var vs :- Collect(Init(rs));
      var v :- Last(rs);
      Ok(vs + [v])
  }

  lemma {:induction false} CollectAll<T>(rs: seq<Result<T>>)
    ensures Collect(rs).Ok? <==> forall i :: 0 <= i < |rs| ==> rs[i].Ok?
    ensures Collect(rs).Ok? ==> forall i :: 0 <= i < |rs| ==> rs[i] == Ok(Collect(rs).value[i])
  {
    if rs != [] {
      CollectAll(Init(rs));
      assert forall i :: 0 <= i < |rs| - 1 ==> Init(rs)[i] == rs[i];
    }
  }

  lemma CollectNext<T>(rs: seq<Result<T>>, n: nat)
    requires n < |rs|
    ensures var p := Collect(rs[..n]);
            Collect(rs[..n + 1]) ==
              if p.Err? then p else if rs[n].Err? then Err(rs[n].error) else Ok(p.value + [rs[n].value])
  {
    assert Init(rs[..n + 1]) == rs[..n];
  }

  lemma {:induction false} CollectFails<T>(rs: seq<Result<T>>, n: nat)
    requires n <= |rs| && Collect(rs[..n]).Err?
    ensures Collect(rs) == Err(Collect(rs[..n]).error)
  {
    if n == |rs| {
      assert rs[..n] == rs;
    } else {
      assert Init(rs)[..n] == rs[..n];
      CollectFails(Init(rs), n);
    }
  }

  function TargetMaps(env: Env, r: Route): (res: Result<seq<HostMap>>)
    ensures res.Ok? ==> |res.value| == |r.traffic|
  {
    Collect(TargetResults(env, r))
  }

  /** The hosts of a Route by visibility, from which its Gateways are made. */
  function RouteDomains(env: Env, r: Route): Result<HostMap> {
    var maps :- TargetMaps(env, r);
    Ok(UnionAll(maps))
  }

  /** The order in which one pass ranges over its maps: that of the Gateways, and the host map
      of each traffic target. */
  datatype Orders = Orders(gateways: seq<string>, hosts: seq<seq<string>>)

  /** The visibilities that the Gateway loop visits. */
  function GatewayVisibilities(r: Route): set<string> {
    if r.traffic == [] then {} else Visibilities(r)
  }

  ghost predicate ValidOrders(r: Route, o: Orders) {
    && IsEnumeration(o.gateways, GatewayVisibilities(r))
    && |o.hosts| == |r.traffic|
    && Enumerations(o.hosts, Visibilities(r))
  }

  /** The hosts of a Route as they are listed in its HTTPRoute. */
  function RouteHostnames(env: Env, r: Route, o: Orders): Result<seq<string>>
    requires |o.hosts| == |r.traffic|
  {
    var maps :- TargetMaps(env, r);
    Ok(FlattenAll(maps, o.hosts))
  }

  /** The hosts of one target, its host map visited in the order given. */
  method Hostnames(env: Env, tag: string, r: Route, order: seq<string>) returns (res: Result<seq<string>>)
    ensures var d := VisibilityDomains(env, tag, r);
            res == if d.Ok? then Ok(Along(d.value, order)) else Err(d.error)
  {
    var hostnames := [];
    var visibilityToDomain :- VisibilityToDomain(env, tag, r);
    for i := 0 to |order|
      invariant hostnames == Along(visibilityToDomain, order[..i])
    {
      assert Init(order[..i + 1]) == order[..i];
      hostnames := hostnames + Hosts(visibilityToDomain, order[i]);
    }
    assert order[..|order|] == order;
    return Ok(hostnames);
  }

  // ---------- what the hosts are ----------

  lemma VisibilityOfRoute(r: Route)
    ensures Visibility(r) == OwnVisibility(r)
  {
  }

  /** A target compiles exactly when its templates succeed and the Route has labels. Only the labels
      can be the reason for a panic, and only if the templates before succeed. */
  lemma TargetCompiles(env: Env, tag: string, r: Route)
    ensures VisibilityDomains(env, tag, r).Ok? <==> Servable(env, r, tag)
    ensures VisibilityDomains(env, tag, r) == Err(Panic)
       <==> r.labels.None? && HostOf(env, r, tag).Some?
            && env.domainTemplate(ObjectMeta(r.ns, map[], r.annotations), HostOf(env, r, tag).value).Some?
    ensures VisibilityDomains(env, tag, r).Err? ==> VisibilityDomains(env, tag, r).error in {Panic, TemplateError}
  {
    VisibilityOfRoute(r);
  }

  /** The hosts of a target: the one domain of its hostname under the metadata of the Route, and the
      expansion of the one under the metadata relabelled cluster-local. */
  lemma TargetHosts(env: Env, tag: string, r: Route, v: string)
    requires Servable(env, r, tag)
    ensures VisibilityDomains(env, tag, r).Ok?
    ensures Hosts(VisibilityDomains(env, tag, r).value, v) == HostsFor(env, r, tag, v)
  {
    TargetCompiles(env, tag, r);
    VisibilityOfRoute(r);
  }

  lemma RouteCompiles(env: Env, r: Route)
    ensures RouteDomains(env, r).Ok? <==> AllServable(env, r, r.traffic)
  {
    var rs := TargetResults(env, r);
    CollectAll(rs);
    forall i | 0 <= i < |rs| ensures rs[i].Ok? <==> Servable(env, r, r.traffic[i].tag) {
      TargetCompiles(env, r.traffic[i].tag, r);
    }
  }

  /** The maps hold the hosts of the targets. */
  ghost predicate MapsHold(env: Env, r: Route, traffic: seq<TrafficTarget>, maps: seq<HostMap>) {
    && AllServable(env, r, traffic) && |maps| == |traffic|
    && forall i, v :: 0 <= i < |maps| ==> Hosts(maps[i], v) == HostsFor(env, r, traffic[i].tag, v)
  }

  lemma TargetMapsHold(env: Env, r: Route)
    requires RouteDomains(env, r).Ok?
    ensures MapsHold(env, r, r.traffic, TargetMaps(env, r).value)
  {
    var maps, rs := TargetMaps(env, r).value, TargetResults(env, r);
    RouteCompiles(env, r);
    CollectAll(rs);
    forall i, v | 0 <= i < |maps| ensures Hosts(maps[i], v) == HostsFor(env, r, r.traffic[i].tag, v) {
      assert rs[i] == Ok(maps[i]);
      TargetHosts(env, r.traffic[i].tag, r, v);
    }
  }

  lemma {:induction false} ConcatenatedHosts(env: Env, r: Route, traffic: seq<TrafficTarget>, maps: seq<HostMap>,
      v: string)
    requires MapsHold(env, r, traffic, maps)
    ensures ConcatAll(maps, v) == HostsOfAll(env, r, traffic, v)
  {
    if traffic != [] {
      ConcatenatedHosts(env, r, Init(traffic), Init(maps), v);
    }
  }

  lemma {:induction false} HostsAlongOrder(env: Env, r: Route, tag: string, m: HostMap, order: seq<string>)
    requires Servable(env, r, tag) && forall v :: Hosts(m, v) == HostsFor(env, r, tag, v)
    ensures Along(m, order) == HostsAlong(env, r, tag, order)
  {
    if order != [] {
      HostsAlongOrder(env, r, tag, m, Init(order));
    }
  }

  lemma {:induction false} FlattenedHosts(env: Env, r: Route, traffic: seq<TrafficTarget>, maps: seq<HostMap>,
      orders: seq<seq<string>>)
    requires MapsHold(env, r, traffic, maps) && |orders| == |traffic|
    ensures FlattenAll(maps, orders) == HostnamesAlong(env, r, traffic, orders)
  {
    if traffic != [] {
      FlattenedHosts(env, r, Init(traffic), Init(maps), Init(orders));
      HostsAlongOrder(env, r, Last(traffic).tag, Last(maps), Last(orders));
    }
  }

  /** The hosts of a Gateway are those of the targets for its visibility, target after target. */
  lemma GatewayHosts(env: Env, r: Route, v: string)
    requires RouteDomains(env, r).Ok?
    ensures AllServable(env, r, r.traffic)
    ensures Hosts(RouteDomains(env, r).value, v) == HostsOfAll(env, r, r.traffic, v)
  {
    TargetMapsHold(env, r);
    UnionIsConcatenation(TargetMaps(env, r).value, v);
    ConcatenatedHosts(env, r, r.traffic, TargetMaps(env, r).value, v);
  }

  /** The hosts of the HTTPRoute are those of the targets, each in the order its map is ranged in. */
  lemma HTTPRouteHosts(env: Env, r: Route, o: Orders)
    requires RouteDomains(env, r).Ok? && |o.hosts| == |r.traffic|
    ensures AllServable(env, r, r.traffic)
    ensures RouteHostnames(env, r, o) == Ok(HostnamesAlong(env, r, r.traffic, o.hosts))
  {
    TargetMapsHold(env, r);
    FlattenedHosts(env, r, r.traffic, TargetMaps(env, r).value, o.hosts);
  }

  // ---------- what the two computations have in common ----------

  lemma RouteMaps(env: Env, r: Route)
    requires RouteDomains(env, r).Ok?
    ensures var maps := TargetMaps(env, r).value;
            && OneExternalHost(maps, Visibility(r), CLUSTER_LOCAL)
            && (forall i :: 0 <= i < |maps| ==> maps[i].Keys == Visibilities(r))
  {
    var maps, rs := TargetMaps(env, r).value, TargetResults(env, r);
    CollectAll(rs);
    forall i | 0 <= i < |maps|
      ensures maps[i].Keys == Visibilities(r)
      ensures Visibility(r) != CLUSTER_LOCAL ==> |Hosts(maps[i], Visibility(r))| == 1
    {
      assert rs[i] == Ok(maps[i]);
    }
  }

  lemma RouteDomainKeys(env: Env, r: Route)
    requires RouteDomains(env, r).Ok?
    ensures RouteDomains(env, r).value.Keys == GatewayVisibilities(r)
  {
    var maps := TargetMaps(env, r).value;
    RouteMaps(env, r);
    forall k ensures k in UnionAll(maps) <==> k in GatewayVisibilities(r) {
      UnionIsConcatenation(maps, k);
      if maps != [] {
        assert k in maps[0] <==> k in Visibilities(r);
      }
    }
  }

  /** Valid orders are exactly the enumerations of the keys of the maps that a pass ranges over: the
      merged map of the Gateway loop, and the host map of each target. */
  lemma OrdersEnumerateTheMaps(env: Env, r: Route, o: Orders)
    requires RouteDomains(env, r).Ok?
    ensures ValidOrders(r, o)
       <==> (IsEnumeration(o.gateways, RouteDomains(env, r).value.Keys)
             && |o.hosts| == |r.traffic|
             && forall i :: 0 <= i < |o.hosts| ==> IsEnumeration(o.hosts[i], TargetMaps(env, r).value[i].Keys))
  {
    RouteMaps(env, r);
    RouteDomainKeys(env, r);
  }

  /** Host agreement: the flattened hostnames of the HTTPRoute and the hosts of all Gateways
      taken together are the same bag, for every pair of orders. */
  lemma HostAgreement(env: Env, r: Route, o: Orders, o': Orders)
    requires ValidOrders(r, o) && ValidOrders(r, o') && RouteDomains(env, r).Ok?
    ensures RouteHostnames(env, r, o).Ok?
    ensures multiset(RouteHostnames(env, r, o).value) == multiset(Along(RouteDomains(env, r).value, o'.gateways))
  {
    var maps := TargetMaps(env, r).value;
    FlattenAgreesWithUnion(maps, o.hosts, Visibility(r), CLUSTER_LOCAL);
    if r.traffic == [] {
      NothingToEnumerate(o'.gateways);
    } else {
      AlongIsBag(UnionAll(maps), o'.gateways, Visibility(r), CLUSTER_LOCAL);
    }
  }

  lemma NonemptyHasMember(order: seq<string>)
    requires order != []
    ensures exists k :: k in order
  {
    assert order[0] in order;
  }

  lemma NothingToEnumerate(order: seq<string>)
    requires IsEnumeration(order, {})
    ensures order == []
  {
    if order != [] {
      NonemptyHasMember(order);
    }
  }

  /** The HTTPRoute hostnames are fixed up to permutation. Two orders give the same list exactly
      when at every target they agree or every cluster-local host is the external one. */
  lemma HostnameOrders(env: Env, r: Route, o: Orders, o': Orders)
    requires ValidOrders(r, o) && ValidOrders(r, o') && RouteDomains(env, r).Ok?
    ensures multiset(RouteHostnames(env, r, o).value) == multiset(RouteHostnames(env, r, o').value)
    ensures RouteHostnames(env, r, o) == RouteHostnames(env, r, o')
       <==> OrdersIrrelevant(TargetMaps(env, r).value, o.hosts, o'.hosts, Visibility(r), CLUSTER_LOCAL)
  {
    var maps, v := TargetMaps(env, r).value, Visibility(r);
    RouteMaps(env, r);
    FlattenAgreesWithUnion(maps, o.hosts, v, CLUSTER_LOCAL);
    FlattenAgreesWithUnion(maps, o'.hosts, v, CLUSTER_LOCAL);
    WhenOrdersShow(maps, o.hosts, o'.hosts, v, CLUSTER_LOCAL);
  }

  /** A cluster-local Route has one possible hostname list. */
  lemma ClusterLocalHidesOrder(env: Env, r: Route, o: Orders, o': Orders)
    requires ValidOrders(r, o) && ValidOrders(r, o') && RouteDomains(env, r).Ok?
    requires Visibility(r) == CLUSTER_LOCAL
    ensures RouteHostnames(env, r, o) == RouteHostnames(env, r, o')
  {
    forall i | 0 <= i < |r.traffic| ensures o.hosts[i] == o'.hosts[i] {
      OrderShapes(o.hosts[i], CLUSTER_LOCAL, CLUSTER_LOCAL);
      OrderShapes(o'.hosts[i], CLUSTER_LOCAL, CLUSTER_LOCAL);
    }
    assert o.hosts == o'.hosts;
  }

  /** Two targets with the same tag, such as a split between two untagged revisions, repeat
      every one of their hosts within its visibility. */
  lemma RepeatedTagsRepeatHosts(env: Env, r: Route, v: string, h: string, i: nat, j: nat)
    requires RouteDomains(env, r).Ok?
    requires i < j < |r.traffic| && r.traffic[i].tag == r.traffic[j].tag
    requires h in Hosts(TargetMaps(env, r).value[i], v)
    ensures multiset(Hosts(RouteDomains(env, r).value, v))[h] >= 2
  {
    var maps, rs := TargetMaps(env, r).value, TargetResults(env, r);
    CollectAll(rs);
    assert Ok(maps[i]) == rs[i] == rs[j] == Ok(maps[j]);
    RepeatedMapsRepeatHosts(maps, v, h, i, j);
  }

  lemma RepeatedMapsRepeatHosts(maps: seq<HostMap>, v: string, h: string, i: nat, j: nat)
    requires i < j < |maps| && maps[i] == maps[j] && h in Hosts(maps[i], v)
    ensures multiset(Hosts(UnionAll(maps), v))[h] >= 2
  {
    MultiplicityIsSum(maps, v, h);
    OccurrencesGrow(maps, v, h, j);
    OccurrencesGrow(maps[..j], v, h, i);
    assert h in multiset(Hosts(maps[i], v));
  }

  /** The number of hostnames when every local domain expands to `e` hosts. */
  lemma HostnameCount(env: Env, r: Route, o: Orders, e: nat)
    requires ValidOrders(r, o) && RouteDomains(env, r).Ok?
    requires forall m :: m in TargetMaps(env, r).value ==> |Hosts(m, CLUSTER_LOCAL)| == e
    ensures |RouteHostnames(env, r, o).value| == |r.traffic| * (if Visibility(r) == CLUSTER_LOCAL then e else e + 1)
  {
    RouteMaps(env, r);
    FlattenedSize(TargetMaps(env, r).value, o.hosts, Visibility(r), CLUSTER_LOCAL, e);
  }

  const MAX_HOSTNAMES := 16

  /** With three hosts per local domain, as for a domain under the cluster domain, a Route that
      is not cluster-local fits the HTTPRoute hostname limit exactly up to four targets. */
  lemma HostnameLimit(env: Env, r: Route, o: Orders)
    requires ValidOrders(r, o) && RouteDomains(env, r).Ok? && Visibility(r) != CLUSTER_LOCAL
    requires forall m :: m in TargetMaps(env, r).value ==> |Hosts(m, CLUSTER_LOCAL)| == 3
    ensures |RouteHostnames(env, r, o).value| <= MAX_HOSTNAMES <==> |r.traffic| <= 4
  {
    HostnameCount(env, r, o, 3);
  }
}
