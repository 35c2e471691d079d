/** Passes do not panic on well-formed input, whatever fails around them. */
module Safety {
  import opened Model
  import opened HostMaps
  import opened Domains
  import opened Syncing
  import opened Resources
  import opened Loops
  import opened Passes
  import opened Config
  import TrafficSplit

  ghost predicate NoPanics<T>(rs: seq<Result<T>>) {
    forall i :: 0 <= i < |rs| && rs[i].Err? ==> !rs[i].error.Panic?
  }

  lemma {:induction false} CollectDoesNotPanic<T>(rs: seq<Result<T>>)
    requires NoPanics(rs)
    ensures Collect(rs).Err? ==> !Collect(rs).error.Panic?
  {
    if rs != [] {
      CollectDoesNotPanic(Init(rs));
    }
  }

  lemma {:induction false} LoopDoesNotPanic<S, T>(m: Objs<S, T>, jobs: seq<Job<S, T>>, calls: nat -> Call, once: bool)
    requires NoPanics(jobs)
    ensures Loop(m, jobs, calls, once).error != Some(Panic)
  {
    if jobs != [] {
      LoopDoesNotPanic(m, Init(jobs), calls, once);
    }
  }

  lemma ServicesDoNotPanic(env: Env, r: Route, calls: nat -> Call, m: map<Key, ServiceObj>)
    requires GatewayVisibilities(r) <= env.gateways.Keys
    ensures ServicePhase(env, r, calls, m).error != Some(Panic)
  {
    CollectDoesNotPanic(TargetNames(env, r));
    if Targets(env, r).Ok? {
      var targets := Targets(env, r).value;
      var jobs := ServiceJobs(env, r, targets, calls);
      forall i | 0 <= i < |jobs| && jobs[i].Err? ensures !jobs[i].error.Panic? {
        assert CLUSTER_LOCAL in GatewayVisibilities(r);
        assert jobs[i] == ServiceJob(env, r, targets[i], calls(i));
      }
      LoopDoesNotPanic(m, jobs, calls, true);
    }
  }

  lemma DomainsDoNotPanic(env: Env, r: Route)
    requires r.labels.Some?
    ensures TargetMaps(env, r).Err? ==> !TargetMaps(env, r).error.Panic?
  {
    CollectDoesNotPanic(TargetResults(env, r));
  }

  lemma GatewaysDoNotPanic(env: Env, r: Route, o: Orders, calls: nat -> Call, m: map<Key, GatewayObj>)
    requires r.labels.Some? && ValidOrders(r, o) && GatewayVisibilities(r) <= env.gateways.Keys
    ensures GatewayPhase(env, r, o, calls, m).error != Some(Panic)
  {
    DomainsDoNotPanic(env, r);
    if RouteDomains(env, r).Ok? {
      var jobs := GatewayJobs(env, r, RouteDomains(env, r).value, o.gateways);
      forall i | 0 <= i < |jobs| ensures jobs[i].Ok? {
        assert o.gateways[i] in o.gateways;
      }
      LoopDoesNotPanic(m, jobs, calls, false);
    }
  }

  lemma HTTPRouteDoesNotPanic(env: Env, r: Route, o: Orders, gws: seq<Key>, call: Call, m: map<Key, HTTPRouteObj>)
    requires r.labels.Some? && ValidOrders(r, o) && TrafficSplit.PercentsSet(r.traffic)
    ensures HTTPRoutePhase(env, r, o, gws, call, m).error != Some(Panic)
  {
    DomainsDoNotPanic(env, r);
  }

  /** A pass over a Route that has labels, percentages and a configured visibility does not panic,
      whatever the API server and the templates do. */
  lemma PassDoesNotPanic(env: Env, r: Route, o: Orders, f: Faults, s: Store)
    requires r.labels.Some? && ValidOrders(r, o) && TrafficSplit.PercentsSet(r.traffic)
    requires GatewayVisibilities(r) <= env.gateways.Keys
    ensures Pass(env, r, o, f, s).error != Some(Panic)
  {
    ServicesDoNotPanic(env, r, f.services, s.services);
    GatewaysDoNotPanic(env, r, o, f.gateways, s.gateways);
    HTTPRouteDoesNotPanic(env, r, o, GatewayPhase(env, r, o, f.gateways, s.gateways).written,
      f.httproute, s.httproutes);
  }

  /** Under a configuration parsed from any ConfigMap, that covers every Route whose visibility
      label is unset, built in, or a key of the ConfigMap. */
  lemma ParsedConfigIsSafe(data: map<string, string>, unmarshal: string -> Option<GatewayConf>, env: Env, r: Route,
      o: Orders, f: Faults, s: Store)
    requires Parses(data, unmarshal) && env.gateways == Meaning(data, unmarshal)
    requires var v := Lookup(LabelsOf(r), VISIBILITY_LABEL);
             v == "" || v == DEFAULT_VISIBILITY || v == CLUSTER_LOCAL || (v in data && v != EXAMPLE_KEY)
    requires r.labels.Some? && ValidOrders(r, o) && TrafficSplit.PercentsSet(r.traffic)
    ensures Pass(env, r, o, f, s).error != Some(Panic)
  {
    if r.traffic != [] {
      LookupSafety(data, unmarshal, r);
    }
    PassDoesNotPanic(env, r, o, f, s);
  }

  // ---------- from the ConfigMap to the lookups ----------

  /** Loads the configuration of one reconcile: parsed once, copied for each use. */
  method LoadGateway(data: map<string, string>, unmarshal: string -> Option<GatewayConf>) returns (res: Option<Gateway>)
    ensures res.Some? <==> Parses(data, unmarshal)
    ensures res.Some? ==> fresh(res.value) && fresh(res.value.Objects())
    ensures res.Some? ==> res.value.Snapshot() == Some(AllSet(Meaning(data, unmarshal)))
  {
    var parsed := NewGatewayFromConfigMap(data, unmarshal);
    if parsed.None? {
      return None;
    }
    var copy := parsed.value.DeepCopy();
    return Some(copy);
  }

  /** In a configuration so loaded, every lookup for every visibility of such a Route hits, and the
      namespace looked up, or the Route's own if it is empty, is the one its Gateway is keyed under. */
  lemma LoadedLookupsHit(c: Gateway, data: map<string, string>, unmarshal: string -> Option<GatewayConf>, env: Env,
      r: Route, v: string)
    requires Parses(data, unmarshal) && c.Snapshot() == Some(AllSet(Meaning(data, unmarshal)))
    requires env.gateways == Meaning(data, unmarshal) && v in GatewayVisibilities(r)
    requires var l := Lookup(LabelsOf(r), VISIBILITY_LABEL);
             l == "" || l == DEFAULT_VISIBILITY || l == CLUSTER_LOCAL || (l in data && l != EXAMPLE_KEY)
    ensures v in env.gateways && c.LookupGatewayNamespace(v).Ok?
            && c.LookupGatewayClass(v).Ok? && c.LookupAddress(v).Ok?
    ensures var ns := c.LookupGatewayNamespace(v).value;
            GatewayKey(env, r, v).ns == if ns == "" then r.ns else ns
    ensures forall hosts :: DesiredGateway(env, r, hosts, v).spec.gatewayClassName == c.LookupGatewayClass(v).value
  {
    LookupSafety(data, unmarshal, r);
    c.LookupsReadSnapshot(env.gateways, v);
  }
}
