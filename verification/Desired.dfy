/** The desired objects of a Route by key, and when a pass can compute them. */
module Desired {
  import opened Model
  import opened HostMaps
  import opened Promises
  import opened Domains
  import opened Names
  import opened Syncing
  import opened Resources
  import opened Loops
  import opened Passes
  import TrafficSplit

  /** Every template succeeds, every lookup hits, every percentage is set. */
  predicate Compilable(env: Env, r: Route) {
    && RouteDomains(env, r).Ok?
    && GatewayVisibilities(r) <= env.gateways.Keys
    && TrafficSplit.PercentsSet(r.traffic)
  }

  /** The HTTPRoute is looked up under the name it is created with. */
  predicate FittingName(r: Route) {
    |r.name| <= LONGEST
  }

  /** All that the Service phase needs. */
  predicate ServicesCompilable(env: Env, r: Route) {
    Targets(env, r).Ok? && (r.traffic == [] || CLUSTER_LOCAL in env.gateways)
  }

  lemma CompilableServices(env: Env, r: Route)
    requires Compilable(env, r)
    ensures ServicesCompilable(env, r)
  {
    var rs, names := TargetResults(env, r), TargetNames(env, r);
    CollectAll(rs);
    CollectAll(names);
    forall i | 0 <= i < |names| ensures names[i].Ok? {
      assert rs[i].Ok?;
    }
    if r.traffic != [] {
      assert CLUSTER_LOCAL in GatewayVisibilities(r);
    }
  }

  // ---------- Services ----------

  function ServiceKeys(env: Env, r: Route): set<Key> {
    if Targets(env, r).Err? then {} else set t | t in Targets(env, r).value :: Key(r.ns, t)
  }

  /** The Services of a Route. None if they cannot be made. */
  function DesiredServices(env: Env, r: Route): map<Key, ServiceObj> {
    if CLUSTER_LOCAL !in env.gateways then map[]
    else
      var d := DesiredService(env, r);
      map k | k in ServiceKeys(env, r) :: d
  }

  lemma ServiceKeyOf(env: Env, r: Route, i: nat)
    requires Targets(env, r).Ok? && i < |Targets(env, r).value| && CLUSTER_LOCAL in env.gateways
    ensures var k := Key(r.ns, Targets(env, r).value[i]);
            k in DesiredServices(env, r) && DesiredServices(env, r)[k] == DesiredService(env, r)
  {
  }

  lemma ServiceJobsServe(env: Env, r: Route, calls: nat -> Call)
    requires Targets(env, r).Ok?
    ensures Serves(ServiceJobs(env, r, Targets(env, r).value, calls), DesiredServices(env, r))
  {
    var targets := Targets(env, r).value;
    var jobs := ServiceJobs(env, r, targets, calls);
    forall i | 0 <= i < |jobs| && jobs[i].Ok?
      ensures jobs[i].value.key in DesiredServices(env, r)
              && DesiredServices(env, r)[jobs[i].value.key] == jobs[i].value.obj
    {
      assert jobs[i] == ServiceJob(env, r, targets[i], calls(i));
      ServiceKeyOf(env, r, i);
    }
  }

  lemma ServiceJobsCover(env: Env, r: Route, calls: nat -> Call)
    requires ServicesCompilable(env, r) && NoFaults(calls)
    ensures Covers(ServiceJobs(env, r, Targets(env, r).value, calls), DesiredServices(env, r))
  {
    var targets := Targets(env, r).value;
    var jobs := ServiceJobs(env, r, targets, calls);
    forall i | 0 <= i < |jobs| ensures jobs[i].Ok? && jobs[i].value.key == Key(r.ns, targets[i]) {
      assert calls(i).Fine?;
      assert jobs[i] == ServiceJob(env, r, targets[i], calls(i));
    }
    forall k | k in DesiredServices(env, r)
      ensures exists i :: 0 <= i < |jobs| && jobs[i].Ok? && jobs[i].value.key == k {
      var t :| t in targets && k == Key(r.ns, t);
      var i :| 0 <= i < |targets| && targets[i] == t;
      assert jobs[i].value.key == k;
    }
  }

  // ---------- Gateways ----------

  function DesiredGatewayFor(env: Env, r: Route, v: string): GatewayObj
    requires RouteDomains(env, r).Ok? && v in env.gateways
  {
    DesiredGateway(env, r, Hosts(RouteDomains(env, r).value, v), v)
  }

  /** The visibilities of the Route that are configured. */
  function Configured(env: Env, r: Route): set<string> {
    GatewayVisibilities(r) * env.gateways.Keys
  }

  function GatewayKeys(env: Env, r: Route): set<Key> {
    set v | v in Configured(env, r) :: GatewayKey(env, r, v)
  }

  /** Two visibilities of the Route that share a key want the same Gateway there. */
  predicate Consistent(env: Env, r: Route) {
    RouteDomains(env, r).Ok? ==>
      forall v, v' ::
        v in Configured(env, r) && v' in Configured(env, r) && GatewayKey(env, r, v) == GatewayKey(env, r, v')
        ==> DesiredGatewayFor(env, r, v) == DesiredGatewayFor(env, r, v')
  }

  /** The Route's name and namespace contain their own digest where it makes two names equal. */
  predicate HasOwnDigest(env: Env, r: Route) {
    OwnDigest(GatewayParent(r), env.md5(GatewayParent(r)), VisibilitySuffix(Visibility(r)))
  }

  /** The exact condition: a Route is inconsistent when its name contains its own digest, both
      Gateways go to one namespace, and they differ. */
  lemma WhenGatewaysClash(env: Env, r: Route)
    requires Compilable(env, r) && r.traffic != []
    ensures var v := Visibility(r);
            && v in env.gateways && CLUSTER_LOCAL in env.gateways
            && (!Consistent(env, r)
                <==> (v != CLUSTER_LOCAL && HasOwnDigest(env, r)
                      && GatewayNamespace(env, r, v) == GatewayNamespace(env, r, CLUSTER_LOCAL)
                      && DesiredGatewayFor(env, r, v) != DesiredGatewayFor(env, r, CLUSTER_LOCAL)))
  {
    var v := Visibility(r);
    assert v in GatewayVisibilities(r) && CLUSTER_LOCAL in GatewayVisibilities(r);
    VisibilityNamesCollide(env.md5, r, v);
    assert v in Configured(env, r) && CLUSTER_LOCAL in Configured(env, r);
  }

  /** Whatever the length of its name, a Route is consistent unless that contains its own digest. */
  lemma ConsistentWithoutOwnDigest(env: Env, r: Route)
    requires !HasOwnDigest(env, r)
    ensures Consistent(env, r)
  {
    forall v, v' |
      v in Configured(env, r) && v' in Configured(env, r) && GatewayKey(env, r, v) == GatewayKey(env, r, v')
      ensures v == v'
    {
      VisibilityNamesCollide(env.md5, r, Visibility(r));
    }
  }

  /** In particular every Route with a built-in visibility is. */
  lemma BuiltInsAreConsistent(env: Env, r: Route)
    requires BuiltIn(Visibility(r))
    ensures Consistent(env, r)
  {
    BuiltInsHaveNoOwnDigest(GatewayParent(r), env.md5(GatewayParent(r)), Visibility(r));
    ConsistentWithoutOwnDigest(env, r);
  }

  ghost function VisibilityAt(env: Env, r: Route, k: Key): (v: string)
    requires k in GatewayKeys(env, r)
    ensures v in Configured(env, r) && GatewayKey(env, r, v) == k
  {
    var v :| v in Configured(env, r) && GatewayKey(env, r, v) == k;
    v
  }

  /** The Gateways of a Route. None if their hosts cannot be made. */
  ghost function DesiredGateways(env: Env, r: Route): map<Key, GatewayObj> {
    if RouteDomains(env, r).Err? then map[]
    else map k | k in GatewayKeys(env, r) :: DesiredGatewayFor(env, r, VisibilityAt(env, r, k))
  }

  lemma GatewayKeyOf(env: Env, r: Route, v: string)
    requires RouteDomains(env, r).Ok? && Consistent(env, r) && v in Configured(env, r)
    ensures var k := GatewayKey(env, r, v);
            k in DesiredGateways(env, r) && DesiredGateways(env, r)[k] == DesiredGatewayFor(env, r, v)
  {
  }

  lemma GatewayJobsServe(env: Env, r: Route, o: Orders)
    requires RouteDomains(env, r).Ok? && Consistent(env, r) && ValidOrders(r, o)
    ensures Serves(GatewayJobs(env, r, RouteDomains(env, r).value, o.gateways), DesiredGateways(env, r))
  {
    var jobs := GatewayJobs(env, r, RouteDomains(env, r).value, o.gateways);
    forall i | 0 <= i < |jobs| && jobs[i].Ok?
      ensures jobs[i].value.key in DesiredGateways(env, r)
              && DesiredGateways(env, r)[jobs[i].value.key] == jobs[i].value.obj
    {
      assert o.gateways[i] in o.gateways;
      GatewayKeyOf(env, r, o.gateways[i]);
    }
  }

  lemma GatewayJobsCover(env: Env, r: Route, o: Orders)
    requires RouteDomains(env, r).Ok? && GatewayVisibilities(r) <= env.gateways.Keys && ValidOrders(r, o)
    ensures Covers(GatewayJobs(env, r, RouteDomains(env, r).value, o.gateways), DesiredGateways(env, r))
  {
    var vs := o.gateways;
    var jobs := GatewayJobs(env, r, RouteDomains(env, r).value, vs);
    forall i | 0 <= i < |jobs| ensures jobs[i].Ok? && jobs[i].value.key == GatewayKey(env, r, vs[i]) {
      assert vs[i] in vs;
    }
    forall k | k in DesiredGateways(env, r)
      ensures exists i :: 0 <= i < |jobs| && jobs[i].Ok? && jobs[i].value.key == k {
      var v := VisibilityAt(env, r, k);
      assert v in vs;
      var i :| 0 <= i < |vs| && vs[i] == v;
      assert jobs[i].value.key == k;
    }
  }

  // ---------- HTTPRoute ----------

  function DesiredHTTPRouteFor(env: Env, r: Route, o: Orders, gateways: seq<Key>): HTTPRouteObj
    requires RouteDomains(env, r).Ok? && |o.hosts| == |r.traffic|
  {
    DesiredHTTPRoute(r, RouteHostnames(env, r, o).value, gateways)
  }

  lemma FittingLookup(env: Env, r: Route)
    requires FittingName(r)
    ensures LookupKey(env, r) == HTTPRouteKey(r)
  {
  }

  // ---------- what is desired is what is promised ----------

  /** What compilable means: templates succeed, the Route has labels, percentages are set, and both
      visibilities are configured if there is any target. */
  lemma WhenCompilable(env: Env, r: Route)
    ensures Compilable(env, r)
       <==> && (forall i :: 0 <= i < |r.traffic| ==>
                  Servable(env, r, r.traffic[i].tag) && r.traffic[i].percent.Some?)
            && (r.traffic != [] ==> OwnVisibility(r) in env.gateways && "cluster-local" in env.gateways)
  {
    RouteCompiles(env, r);
    VisibilityOfRoute(r);
  }

  lemma ServiceAsPromised(env: Env, r: Route, o: ServiceObj)
    requires CLUSTER_LOCAL in env.gateways && InSync(o, DesiredService(env, r))
    ensures IsServiceOf(env, r, o)
  {
  }

  lemma GatewayAsPromised(env: Env, r: Route, v: string, o: GatewayObj)
    requires RouteDomains(env, r).Ok? && v in env.gateways && InSync(o, DesiredGatewayFor(env, r, v))
    ensures IsGatewayOf(env, r, v, o)
  {
    OwnerLabelsAdded(r);
    GatewayHosts(env, r, v);
  }

  lemma HTTPRouteAsPromised(env: Env, r: Route, o: Orders, gateways: seq<Key>, h: HTTPRouteObj)
    requires RouteDomains(env, r).Ok? && |o.hosts| == |r.traffic|
    requires InSync(h, DesiredHTTPRouteFor(env, r, o, gateways))
    ensures IsHTTPRouteOf(env, r, o.hosts, gateways, h)
  {
    OwnerLabelsAdded(r);
    HTTPRouteHosts(env, r, o);
    TrafficSplit.SplitsDivideTraffic(r.ns, r.traffic);
  }

  lemma MadeAsPromised(env: Env, r: Route, o: Orders, gateways: seq<Key>)
    requires |o.hosts| == |r.traffic|
    ensures var made := MakeHTTPRoute(env, r, o, gateways);
            made.Ok? ==> IsHTTPRouteOf(env, r, o.hosts, gateways, made.value)
                         && made.value.owners == [Owner(r.name, r.uid)] && made.value.other.None?
  {
    if MakeHTTPRoute(env, r, o, gateways).Ok? {
      HTTPRouteAsPromised(env, r, o, gateways, MakeHTTPRoute(env, r, o, gateways).value);
    }
  }

  // ---------- success ----------

  lemma {:induction false} FinishedLoopMadeAll<S, T>(m: Objs<S, T>, jobs: seq<Job<S, T>>, calls: nat -> Call)
    requires Loop(m, jobs, calls, false).error.None?
    ensures forall i :: 0 <= i < |jobs| ==> jobs[i].Ok?
  {
    if jobs != [] {
      FinishedLoopMadeAll(m, Init(jobs), calls);
      assert forall i :: 0 <= i < |jobs| - 1 ==> jobs[i] == Init(jobs)[i];
    }
  }

  lemma FinishedGatewaysAreConfigured(env: Env, r: Route, o: Orders, calls: nat -> Call, m: map<Key, GatewayObj>)
    requires ValidOrders(r, o) && GatewayPhase(env, r, o, calls, m).error.None?
    ensures RouteDomains(env, r).Ok? && GatewayVisibilities(r) <= env.gateways.Keys
  {
    var jobs := GatewayJobs(env, r, RouteDomains(env, r).value, o.gateways);
    FinishedLoopMadeAll(m, jobs, calls);
    forall v | v in GatewayVisibilities(r) ensures v in env.gateways {
      var i :| 0 <= i < |o.gateways| && o.gateways[i] == v;
      assert jobs[i].Ok?;
    }
  }

  lemma CleanServicesSucceed(env: Env, r: Route, calls: nat -> Call, m: map<Key, ServiceObj>)
    requires ServicesCompilable(env, r) && NoFaults(calls)
    ensures ServicePhase(env, r, calls, m).error.None?
  {
    ServiceJobsCover(env, r, calls);
    LoopSucceeds(m, ServiceJobs(env, r, Targets(env, r).value, calls), calls, true);
  }

  lemma CleanGatewaysSucceed(env: Env, r: Route, o: Orders, calls: nat -> Call, m: map<Key, GatewayObj>)
    requires Compilable(env, r) && ValidOrders(r, o) && NoFaults(calls)
    ensures GatewayPhase(env, r, o, calls, m).error.None?
  {
    GatewayJobsCover(env, r, o);
    LoopSucceeds(m, GatewayJobs(env, r, RouteDomains(env, r).value, o.gateways), calls, false);
  }

  lemma CleanHTTPRouteSucceeds(env: Env, r: Route, o: Orders, gws: seq<Key>, m: map<Key, HTTPRouteObj>)
    requires FittingName(r) && RouteDomains(env, r).Ok? && ValidOrders(r, o)
    ensures HTTPRoutePhase(env, r, o, gws, Fine, m).error.None? <==> TrafficSplit.PercentsSet(r.traffic)
  {
    FittingLookup(env, r);
  }

  /** Without API failures, and with a name that fits, a pass succeeds exactly for a compilable
      Route. In particular it panics only if a lookup misses, a percentage is missing or the
      Route has no labels. */
  lemma CleanPassSucceeds(env: Env, r: Route, o: Orders, f: Faults, s: Store)
    requires Enabled(r) && FittingName(r) && ValidOrders(r, o) && Clean(f)
    ensures Pass(env, r, o, f, s).error.None? <==> Compilable(env, r)
  {
    var gp := GatewayPhase(env, r, o, f.gateways, s.gateways);
    if Compilable(env, r) {
      CompilableServices(env, r);
      CleanServicesSucceed(env, r, f.services, s.services);
      CleanGatewaysSucceed(env, r, o, f.gateways, s.gateways);
      CleanHTTPRouteSucceeds(env, r, o, gp.written, s.httproutes);
    }
    if Pass(env, r, o, f, s).error.None? {
      FinishedGatewaysAreConfigured(env, r, o, f.gateways, s.gateways);
      CleanHTTPRouteSucceeds(env, r, o, gp.written, s.httproutes);
    }
  }
}
