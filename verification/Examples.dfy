/** Concrete Routes and configurations for which the interesting cases arise. */
module Examples {
  import opened Model
  import opened HostMaps
  import opened Promises
  import opened Domains
  import opened Names
  import opened Passes
  import opened Desired
  import opened Convergence
  import TrafficSplit

  lemma TotalTemplatesCompile(env: Env, r: Route)
    requires r.labels.Some?
    requires forall n, t :: env.tagTemplate(n, t).Some?
    requires forall m, h :: env.domainTemplate(m, h).Some?
    ensures RouteDomains(env, r).Ok?
  {
    CollectAll(TargetResults(env, r));
  }

  /** An ordinary Route, with labels, percentages and a built-in visibility, is sound under templates
      that do not fail, whether or not its Gateway names are hashed. */
  lemma OrdinaryRoutesAreSound(env: Env, r: Route)
    requires Enabled(r) && r.labels.Some? && TrafficSplit.PercentsSet(r.traffic)
    requires GatewayVisibilities(r) <= env.gateways.Keys
    requires FittingName(r) && BuiltIn(Visibility(r))
    requires forall n, t :: env.tagTemplate(n, t).Some?
    requires forall m, h :: env.domainTemplate(m, h).Some?
    ensures Sound(env, r)
  {
    TotalTemplatesCompile(env, r);
    BuiltInsAreConsistent(env, r);
  }

  // ---------- a small configuration ----------

  function ExampleDomain(meta: ObjectMeta, hostname: string): Option<string> {
    Some(hostname + if Lookup(meta.labels, VISIBILITY_LABEL) == CLUSTER_LOCAL then ".svc" else ".com")
  }

  function Zeros(s: string): Digest {
    seq(32, _ => '0')
  }

  function ExampleEnv(gateways: map<string, GatewayConf>): Env {
    Env(gateways, (n, t) => Some(n), ExampleDomain, d => [d], Zeros)
  }

  function DefaultGateways(): map<string, GatewayConf> {
    var conf := GatewayConf("istio", "istio-system", "");
    map[DEFAULT_VISIBILITY := conf, CLUSTER_LOCAL := conf]
  }

  function ExampleRoute(ns: string, name: string, labels: Labels): Route {
    Route(ns, name, "", Some(labels), map[GATEWAY_API_ANNOTATION := "enabled"], [TrafficTarget("", "rev", Some(100))])
  }

  lemma ExampleIsSound(ns: string, name: string)
    requires |name| <= LONGEST
    ensures Visibility(ExampleRoute(ns, name, map[])) == DEFAULT_VISIBILITY
    ensures Sound(ExampleEnv(DefaultGateways()), ExampleRoute(ns, name, map[]))
  {
    OrdinaryRoutesAreSound(ExampleEnv(DefaultGateways()), ExampleRoute(ns, name, map[]));
  }

  /** Thrashing Routes exist: "a" in namespace "b-c" and "a-b" in namespace "c". */
  lemma ThrashingRoutesExist() returns (env: Env, r1: Route, r2: Route)
    ensures Sound(env, r1) && Sound(env, r2) && Shifted(r1, r2) && r1.traffic != [] && r2.traffic != []
    ensures CLUSTER_LOCAL in env.gateways && env.gateways[CLUSTER_LOCAL].namespace != ""
  {
    env, r1, r2 := ExampleEnv(DefaultGateways()), ExampleRoute("b-c", "a", map[]), ExampleRoute("c", "a-b", map[]);
    ExampleIsSound("b-c", "a");
    ExampleIsSound("c", "a-b");
    assert "a-b" == "a" + "-" + "b" && "b-c" == "b" + "-" + "c";
  }

  // ---------- a tagged target ----------

  function TagPrefix(name: string, tag: string): Option<string> {
    Some(tag + "-" + name)
  }

  function ClusterSuffix(domain: string): seq<string> {
    [domain, domain + ".cluster.local"]
  }

  lemma OneTargetOnly(env: Env, r: Route, v: string)
    requires RouteDomains(env, r).Ok? && |r.traffic| == 1
    ensures Servable(env, r, r.traffic[0].tag)
    ensures Hosts(RouteDomains(env, r).value, v) == HostsFor(env, r, r.traffic[0].tag, v)
  {
    GatewayHosts(env, r, v);
    assert r.traffic[..0] == [];
  }

  lemma OneTargetName(env: Env, r: Route)
    requires |r.traffic| == 1 && HostOf(env, r, r.traffic[0].tag).Some?
    ensures Targets(env, r) == Ok([HostOf(env, r, r.traffic[0].tag).value])
  {
    var names := TargetNames(env, r);
    CollectAll(names);
    assert names[0] == Ok(HostOf(env, r, r.traffic[0].tag).value);
    assert Targets(env, r).value == [HostOf(env, r, r.traffic[0].tag).value];
  }

  function TaggedEnv(): Env {
    Env(DefaultGateways(), TagPrefix, ExampleDomain, ClusterSuffix, Zeros)
  }

  /** Route "a" with one target tagged "v2" is served under the hosts of the tag, not of its name. */
  lemma TaggedHosts(r: Route)
    requires r == ExampleRoute("b", "a", map[]).(traffic := [TrafficTarget("v2", "rev", Some(100))])
    ensures Targets(TaggedEnv(), r) == Ok(["v2-a"])
    ensures var d := RouteDomains(TaggedEnv(), r);
            d.Ok? && Hosts(d.value, "default") == ["v2-a.com"]
            && Hosts(d.value, "cluster-local") == ["v2-a.svc", "v2-a.svc.cluster.local"]
  {
    var h := "v2" + "-" + "a";
    assert h == "v2-a" && h + ".com" == "v2-a.com" && h + ".svc" == "v2-a.svc";
    assert "v2-a.svc" + ".cluster.local" == "v2-a.svc.cluster.local";
    assert "default" != "cluster-local" by { assert |"default"| != |"cluster-local"|; }
    TotalTemplatesCompile(TaggedEnv(), r);
    OneTargetName(TaggedEnv(), r);
    OneTargetOnly(TaggedEnv(), r, "default");
    OneTargetOnly(TaggedEnv(), r, "cluster-local");
  }

  // ---------- orders that show ----------

  lemma ExampleMaps(r: Route)
    requires r == ExampleRoute("b", "a", map[])
    ensures var maps := TargetMaps(ExampleEnv(DefaultGateways()), r);
            maps.Ok? && maps.value == [map[DEFAULT_VISIBILITY := ["a.com"], CLUSTER_LOCAL := ["a.svc"]]]
  {
    var env := ExampleEnv(DefaultGateways());
    var rs := TargetResults(env, r);
    CollectAll(rs);
    assert rs[0] == VisibilityDomains(env, "", r);
    assert "a" + ".com" == "a.com" && "a" + ".svc" == "a.svc";
    assert DEFAULT_VISIBILITY != CLUSTER_LOCAL by { assert |DEFAULT_VISIBILITY| != |CLUSTER_LOCAL|; }
  }

  /** The iteration order does show, already for a Route with one untagged target. */
  lemma OrdersCanShow() returns (env: Env, r: Route, o: Orders, o': Orders)
    ensures Sound(env, r) && ValidOrders(r, o) && ValidOrders(r, o')
    ensures !OrdersIrrelevant(TargetMaps(env, r).value, o.hosts, o'.hosts, Visibility(r), CLUSTER_LOCAL)
  {
    env, r := ExampleEnv(DefaultGateways()), ExampleRoute("b", "a", map[]);
    var a, b := [DEFAULT_VISIBILITY, CLUSTER_LOCAL], [CLUSTER_LOCAL, DEFAULT_VISIBILITY];
    o, o' := Orders(a, [a]), Orders(a, [b]);
    ExampleIsSound("b", "a");
    ExampleMaps(r);
    assert DEFAULT_VISIBILITY != CLUSTER_LOCAL by { assert |DEFAULT_VISIBILITY| != |CLUSTER_LOCAL|; }
    var m := TargetMaps(env, r).value[0];
    assert "a.svc" in Hosts(m, CLUSTER_LOCAL) && Hosts(m, DEFAULT_VISIBILITY) == ["a.com"];
    assert "a.svc"[2] != "a.com"[2];
    assert !OrderIrrelevant(m, o.hosts[0], o'.hosts[0], Visibility(r), CLUSTER_LOCAL);
  }

  // ---------- an inconsistent Route ----------

  /** Inconsistent Routes exist as far as this code is concerned: a name that contains the digest of
      name and namespace, and a visibility that is a tail of "cluster-local". */
  lemma InconsistentRoutesExist() returns (env: Env, r: Route)
    ensures Enabled(r) && FittingName(r) && Compilable(env, r) && !Consistent(env, r)
  {
    var zeros := Zeros("");
    env := ExampleEnv(map["local" := GatewayConf("x", "g", ""), CLUSTER_LOCAL := GatewayConf("y", "g", "")]);
    r := ExampleRoute("cluster", "aaaaaaaaaaaaaaaaa" + zeros, map[VISIBILITY_LABEL := "local"]);
    TotalTemplatesCompile(env, r);
    assert "local" != CLUSTER_LOCAL by { assert |"local"| != |CLUSTER_LOCAL|; }
    LocalClash(GatewayParent(r), zeros);
    WhenGatewaysClash(env, r);
  }

  lemma LocalClash(parent: string, zeros: Digest)
    requires parent == "aaaaaaaaaaaaaaaaa" + zeros + "-" + "cluster"
    ensures OwnDigest(parent, zeros, VisibilitySuffix("local"))
  {
    assert LOCAL_SUFFIX[..8] == "-" + "cluster" && LOCAL_SUFFIX[8..] == "-" + "local";
    assert parent[..17] == "aaaaaaaaaaaaaaaaa";
  }
}
