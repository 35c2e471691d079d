/** The reconciler itself, statement by statement, proved to compute the passes that module
    Passes defines. */
module Reconciler {
  import opened Model
  import opened HostMaps
  import opened Promises
  import opened Domains
  import opened Names
  import opened Syncing
  import opened Resources
  import opened Loops
  import opened Passes
  import opened Finalization
  import opened Desired
  import opened Reporting
  import TrafficSplit
  import Readiness

  datatype ConditionStatus = Unset | True | Unknown

  /** The two conditions of a Route that the reconciler sets. */
  class RouteStatus {
    var ingressReady: ConditionStatus
    var certificateProvisioned: ConditionStatus

    constructor ()
      ensures ingressReady == Unset && certificateProvisioned == Unset
    {
      ingressReady, certificateProvisioned := Unset, Unset;
    }
  }

  /** The hosts of a Route by visibility. */
  method CollectDomains(env: Env, r: Route) returns (res: Result<HostMap>)
    ensures res == RouteDomains(env, r)
  {
    ghost var rs, maps := TargetResults(env, r), [];
    var visibilityToDomain: HostMap := map[];
    for i := 0 to |r.traffic|
      invariant Collect(rs[..i]) == Ok(maps) && visibilityToDomain == UnionAll(maps)
    {
      CollectNext(rs, i);
      var mp := VisibilityToDomain(env, r.traffic[i].tag, r);
      if mp.Err? {
        CollectFails(rs, i + 1);
        return Err(mp.error);
      }
      UnionOfTwo(visibilityToDomain, mp.value);
      visibilityToDomain := UnionMaps([visibilityToDomain, mp.value]);
      assert Init(maps + [mp.value]) == maps;
      maps := maps + [mp.value];
    }
    assert rs[..|r.traffic|] == rs;
    return Ok(visibilityToDomain);
  }

  /** The placeholder Service names of a Route, one for each traffic target. */
  method CollectTargets(env: Env, r: Route) returns (res: Result<seq<string>>)
    ensures res == Targets(env, r)
  {
    ghost var names := TargetNames(env, r);
    var targets: seq<string> := [];
    for i := 0 to |r.traffic|
      invariant Collect(names[..i]) == Ok(targets)
    {
      CollectNext(names, i);
      var target := HostnameFromTemplate(env, r.name, r.traffic[i].tag);
      if target.Err? {
        CollectFails(names, i + 1);
        return Err(target.error);
      }
      targets := targets + [target.value];
    }
    assert names[..|r.traffic|] == names;
    return Ok(targets);
  }

  /** The hosts of a Route, flattened. */
  method CollectHostnames(env: Env, r: Route, o: Orders) returns (res: Result<seq<string>>)
    requires |o.hosts| == |r.traffic|
    ensures res == RouteHostnames(env, r, o)
  {
    ghost var rs, maps := TargetResults(env, r), [];
    var domains := [];
    for i := 0 to |r.traffic|
      invariant Collect(rs[..i]) == Ok(maps) && domains == FlattenAll(maps, o.hosts[..i])
    {
      CollectNext(rs, i);
      var d := Hostnames(env, r.traffic[i].tag, r, o.hosts[i]);
      if d.Err? {
        CollectFails(rs, i + 1);
        return Err(d.error);
      }
      ghost var maps' := maps + [rs[i].value];
      assert Init(maps') == maps && Init(o.hosts[..i + 1]) == o.hosts[..i];
      domains, maps := domains + d.value, maps';
    }
    assert rs[..|r.traffic|] == rs && o.hosts[..|r.traffic|] == o.hosts;
    return Ok(domains);
  }

  /** The rule of an HTTPRoute, read back from the heap once it is complete. */
  method ReadRule(ns: string, traffic: seq<TrafficTarget>) returns (rule: Option<seq<ForwardTo>>)
    ensures rule == if TrafficSplit.PercentsSet(traffic) then Some(TrafficSplit.Splits(ns, traffic)) else None
  {
    var splits, panicked := TrafficSplit.MakeRule(ns, traffic);
    if panicked {
      return None;
    }
    ghost var expected := TrafficSplit.Splits(ns, traffic);
    var entries := [];
    for i := 0 to |splits|
      invariant entries == expected[..i]
    {
      entries := entries + [TrafficSplit.Deref(splits[i])];
    }
    assert entries == expected;
    return Some(entries);
  }

  /** The HTTPRoute of a Route. */
  method BuildHTTPRoute(env: Env, r: Route, o: Orders, gateways: seq<Key>) returns (res: Result<HTTPRouteObj>)
    requires |o.hosts| == |r.traffic|
    ensures res == MakeHTTPRoute(env, r, o, gateways)
    ensures res.Ok? ==> IsHTTPRouteOf(env, r, o.hosts, gateways, res.value)
    ensures res.Ok? ==> res.value.owners == [Owner(r.name, r.uid)] && res.value.other.None?
  {
    var domains := CollectHostnames(env, r, o);
    if domains.Err? {
      return Err(domains.error);
    }
    var rule := ReadRule(r.ns, r.traffic);
    if rule.None? {
      return Err(Panic);
    }
    var gatewayRefs := [];
    for i := 0 to |gateways|
      invariant gatewayRefs == gateways[..i]
    {
      gatewayRefs := gatewayRefs + [gateways[i]];
    }
    assert gatewayRefs == gateways;
    MadeAsPromised(env, r, o, gateways);
    return Ok(Obj(ChildLabels(r), ChildAnnotations(r), [ControllerRef(r)],
                  HTTPRouteSpec(domains.value, [rule.value], "FromList", gatewayRefs), None));
  }

  /** The API server's store and the controller's operations on it. */
  class Cluster {
    var services: map<Key, ServiceObj>
    var gateways: map<Key, GatewayObj>
    var httproutes: map<Key, HTTPRouteObj>

    ghost function View(): Store
      reads this
    {
      Store(services, gateways, httproutes)
    }

    constructor ()
      ensures View() == Store(map[], map[], map[])
    {
      services, gateways, httproutes := map[], map[], map[];
    }

    // ---------- one object: read it, then create it or update what differs ----------

    method SyncService(key: Key, desired: ServiceObj, call: Call) returns (wrote: bool, err: Option<Error>)
      modifies this`services
      ensures Synced(services, wrote, err) == SyncOne(old(services), key, desired, call)
    {
      if call.ReadFails? {
        return false, Some(ApiError);
      }
      var write := desired;
      if key in services {
        var found := services[key];
        if found.spec == desired.spec && found.annotations == desired.annotations && found.labels == desired.labels {
          return false, None;
        }
        write := found.(spec := desired.spec, annotations := desired.annotations, labels := desired.labels);
      }
      if call.WriteRejected? {
        return false, Some(ApiError);
      }
      services := services[key := write];
      return true, if call.WriteLost? then Some(ApiError) else None;
    }

    method SyncGateway(key: Key, desired: GatewayObj, call: Call) returns (wrote: bool, err: Option<Error>)
      modifies this`gateways
      ensures Synced(gateways, wrote, err) == SyncOne(old(gateways), key, desired, call)
    {
      if call.ReadFails? {
        return false, Some(ApiError);
      }
      var write := desired;
      if key in gateways {
        var found := gateways[key];
        if found.spec == desired.spec && found.annotations == desired.annotations && found.labels == desired.labels {
          return false, None;
        }
        write := found.(spec := desired.spec, annotations := desired.annotations, labels := desired.labels);
      }
      if call.WriteRejected? {
        return false, Some(ApiError);
      }
      gateways := gateways[key := write];
      return true, if call.WriteLost? then Some(ApiError) else None;
    }

    method SyncHTTPRoute(key: Key, desired: HTTPRouteObj, call: Call) returns (wrote: bool, err: Option<Error>)
      modifies this`httproutes
      ensures Synced(httproutes, wrote, err) == SyncOne(old(httproutes), key, desired, call)
    {
      if call.ReadFails? {
        return false, Some(ApiError);
      }
      var write := desired;
      if key in httproutes {
        var found := httproutes[key];
        if found.spec == desired.spec && found.annotations == desired.annotations && found.labels == desired.labels {
          return false, None;
        }
        write := found.(spec := desired.spec, annotations := desired.annotations, labels := desired.labels);
      }
      if call.WriteRejected? {
        return false, Some(ApiError);
      }
      httproutes := httproutes[key := write];
      return true, if call.WriteLost? then Some(ApiError) else None;
    }

    // ---------- the three phases ----------

    /** Returns after the first Service it writes. */
    method ReconcilePlaceholderServices(env: Env, r: Route, calls: nat -> Call) returns (err: Option<Error>)
      modifies this`services
      ensures services == ServicePhase(env, r, calls, old(services)).store
      ensures err == ServicePhase(env, r, calls, old(services)).error
    {
      var collected := CollectTargets(env, r);
      if collected.Err? {
        return Some(collected.error);
      }
      var targets := collected.value;
      ghost var m, jobs := services, ServiceJobs(env, r, targets, calls);
      for i := 0 to |targets|
        invariant services == m && Loop(m, jobs[..i], calls, true) == Phase(m, [], None)
      {
        LoopNext(m, jobs, calls, true, i);
        if Stopped(Loop(m, jobs[..i + 1], calls, true), true) {
          StoppedForGood(m, jobs, calls, true, i + 1);
        }
        if calls(i).ReadFails? {
          return Some(ApiError);
        }
        var desired := MakePlaceholderService(env, r, targets[i]);
        if desired.Err? {
          return Some(desired.error);
        }
        var wrote;
        wrote, err := SyncService(Key(r.ns, targets[i]), desired.value.obj, calls(i));
        if err.Some? || wrote {
          return;
        }
      }
      assert jobs[..|targets|] == jobs;
      return None;
    }

    /** Only the Gateways written in this pass are returned. */
    method ReconcileGateway(env: Env, r: Route, o: Orders, calls: nat -> Call)
      returns (gws: seq<Key>, err: Option<Error>)
      modifies this`gateways
      ensures var p := GatewayPhase(env, r, o, calls, old(gateways));
              gateways == p.store && err == p.error && (err.None? ==> gws == p.written)
    {
      gws := [];
      var domains := CollectDomains(env, r);
      if domains.Err? {
        return [], Some(domains.error);
      }
      ghost var m, jobs := gateways, GatewayJobs(env, r, domains.value, o.gateways);
      for i := 0 to |o.gateways|
        invariant Loop(m, jobs[..i], calls, false) == Phase(gateways, gws, None)
      {
        LoopNext(m, jobs, calls, false, i);
        if Stopped(Loop(m, jobs[..i + 1], calls, false), false) {
          StoppedForGood(m, jobs, calls, false, i + 1);
        }
        var visibility := o.gateways[i];
        if visibility !in env.gateways {
          return [], Some(Panic);
        }
        var ns := env.gateways[visibility].namespace;
        if ns == "" {
          ns := r.ns;
        }
        var key := Key(ns, GatewayName(env.md5, r, visibility));
        var desired := BuildGateway(env, r, Hosts(domains.value, visibility), visibility);
        var wrote, failed := SyncGateway(key, desired.value.obj, calls(i));
        if failed.Some? {
          return [], failed;
        }
        if wrote {
          gws := gws + [key];
        }
      }
      assert jobs[..|o.gateways|] == jobs;
      return gws, None;
    }

    /** The HTTPRoute is looked up under one name and created under another, which differ if the
        Route's name is too long; creating it then fails if it exists. */
    method ReconcileHTTPRoute(env: Env, r: Route, o: Orders, gws: seq<Key>, call: Call)
      returns (httproute: Option<HTTPRouteObj>, err: Option<Error>)
      requires |o.hosts| == |r.traffic|
      modifies this`httproutes
      ensures var p := HTTPRoutePhase(env, r, o, gws, call, old(httproutes));
              && httproutes == p.store && err == p.error
              && (err.None? ==> httproute.Some? && httproute == ReturnedHTTPRoute(env, r, httproutes))
    {
      if call.ReadFails? {
        return None, Some(ApiError);
      }
      var desired := BuildHTTPRoute(env, r, o, gws);
      if desired.Err? {
        return None, Some(desired.error);
      }
      var key := Key(r.ns, ChildName(env.md5, r.name, ""));
      if key !in httproutes {
        key := Key(r.ns, r.name);
        if key in httproutes {
          return None, Some(ApiError);
        }
      }
      var wrote;
      wrote, err := SyncHTTPRoute(key, desired.value, call);
      httproute := if err.None? then Some(httproutes[key]) else None;
    }

    // ---------- the entry points ----------

    method ReconcileKind(env: Env, r: Route, o: Orders, f: Faults, status: RouteStatus) returns (err: Option<Error>)
      requires |o.hosts| == |r.traffic|
      modifies this, status
      ensures var p := Pass(env, r, o, f, old(View()));
              && View() == p.store && err == p.error
              && (p.status.Untouched? ==> unchanged(status))
              && (p.status.MarkedReady? ==> status.ingressReady == True && status.certificateProvisioned == True)
              && (p.status.MarkedNotConfigured? ==>
                     status.ingressReady == Unknown && unchanged(status`certificateProvisioned))
      ensures !OptedIn(r) ==> err.None? && View() == old(View()) && unchanged(status)
      ensures err.Some? ==> unchanged(status)
      ensures ValidOrders(r, o) && OptedIn(r) && err.None? ==>
                var m, k := old(httproutes), LookupKey(env, r);
                if k in m && AllAdmit(m[k].other)
                  then status.ingressReady == True && status.certificateProvisioned == True
                else status.ingressReady == Unknown && unchanged(status`certificateProvisioned)
    {
      if Lookup(r.annotations, GATEWAY_API_ANNOTATION) == "enabled" {
        err := ReconcilePlaceholderServices(env, r, f.services);
        if err.Some? {
          return;
        }
        var gws;
        gws, err := ReconcileGateway(env, r, o, f.gateways);
        if err.Some? {
          return;
        }
        var httproute;
        httproute, err := ReconcileHTTPRoute(env, r, o, gws, f.httproute);
        if err.Some? {
          return;
        }
        var ready := Readiness.IsHTTPRouteReady(httproute.value.other);
        if ValidOrders(r, o) {
          ReturnedStatus(env, r, o, gws, f.httproute, old(httproutes));
        }
        if ready {
          status.ingressReady := True;
          status.certificateProvisioned := True;
        } else {
          status.ingressReady := Unknown;
        }
      }
      return None;
    }

    /** Deletes the Gateways that the lister returns for the Route, in the order it lists them. */
    method FinalizeKind(r: Route, listFails: bool, listed: seq<Key>, calls: nat -> Call) returns (err: Option<Error>)
      requires Lists(listed, Labelled(gateways, r))
      modifies this`gateways
      ensures listFails ==> gateways == old(gateways) && err == Some(ApiError)
      ensures !listFails ==> Deletion(gateways, err) == DeleteAll(old(gateways), listed, calls)
      ensures err.None? <==> !listFails && forall i :: 0 <= i < |listed| ==> calls(i).Fine?
      ensures err.None? ==> gateways == old(gateways) - Labelled(old(gateways), r)
    {
      if listFails {
        return Some(ApiError);
      }
      ghost var m := gateways;
      WhenDeletionSucceeds(m, listed, calls);
      FinalizeCompleteness(m, r, listed, calls);
      for i := 0 to |listed|
        invariant DeleteAll(m, listed[..i], calls) == Deletion(gateways, None)
      {
        assert Init(listed[..i + 1]) == listed[..i];
        if DeleteAll(m, listed[..i + 1], calls).error.Some? {
          DeletionStops(m, listed, calls, i + 1);
        }
        match calls(i) {
          case Fine =>
            gateways := gateways - {listed[i]};
          case WriteLost =>
            gateways := gateways - {listed[i]};
            return Some(ApiError);
          case _ =>
            return Some(ApiError);
        }
      }
      assert listed[..|listed|] == listed;
      return None;
    }
  }
}
