/** Which error a pass returns when the API does not fail. */
module Errors {
  import opened Model
  import opened HostMaps
  import opened Promises
  import opened Domains
  import opened Syncing
  import opened Loops
  import opened Passes
  import opened Desired
  import opened Convergence
  import TrafficSplit

  lemma FirstJobFails<S, T>(m: Objs<S, T>, jobs: seq<Job<S, T>>, calls: nat -> Call, once: bool, e: Error)
    requires jobs != [] && jobs[0] == Err(e)
    ensures Loop(m, jobs, calls, once).error == Some(e)
  {
    LoopNext(m, jobs, calls, once, 0);
    StoppedForGood(m, jobs, calls, once, 1);
  }

  /** Without API failures a loop raises only what making its objects does. */
  lemma {:induction false} JobErrorsOnly<S, T>(m: Objs<S, T>, jobs: seq<Job<S, T>>, calls: nat -> Call, once: bool,
      e: Error)
    requires NoFaults(calls) && forall i :: 0 <= i < |jobs| && jobs[i].Err? ==> jobs[i].error == e
    ensures Loop(m, jobs, calls, once).error in {None, Some(e)}
  {
    if jobs != [] {
      JobErrorsOnly(m, Init(jobs), calls, once, e);
      assert calls(|jobs| - 1).Fine?;
    }
  }

  lemma NamedTargets(env: Env, r: Route)
    ensures if AllNamed(env, r) then Targets(env, r).Ok? else Targets(env, r) == Err(TemplateError)
  {
    var names := TargetNames(env, r);
    CollectAll(names);
    TemplateErrorsOnly(names);
    forall i | 0 <= i < |names| ensures names[i].Ok? <==> HostOf(env, r, r.traffic[i].tag).Some? {
    }
  }

  lemma ServiceError(env: Env, r: Route, calls: nat -> Call, m: map<Key, ServiceObj>)
    requires NoFaults(calls)
    ensures ServicePhase(env, r, calls, m).error
         == (if !AllNamed(env, r) then Some(TemplateError)
             else if r.traffic != [] && "cluster-local" !in env.gateways then Some(Panic)
             else None)
  {
    NamedTargets(env, r);
    if ServicesCompilable(env, r) {
      CleanServicesSucceed(env, r, calls, m);
    } else if AllNamed(env, r) {
      var targets := Targets(env, r).value;
      var jobs := ServiceJobs(env, r, targets, calls);
      assert calls(0).Fine?;
      assert jobs[0] == ServiceJob(env, r, targets[0], calls(0));
      FirstJobFails(m, jobs, calls, true, Panic);
    }
  }

  /** The error of the host compiler. */
  lemma HostError(env: Env, r: Route)
    requires AllNamed(env, r) && r.traffic != [] && !AllServable(env, r, r.traffic)
    ensures RouteDomains(env, r).Err?
    ensures r.labels.Some? ==> RouteDomains(env, r).error == TemplateError
    ensures r.labels.None? ==> RouteDomains(env, r) == Err(ErrorWithoutLabels(env, r))
  {
    var rs := TargetResults(env, r);
    RouteCompiles(env, r);
    if r.labels.Some? {
      forall i | 0 <= i < |rs| ensures rs[i].Ok? || rs[i].error.TemplateError? {
        TargetCompiles(env, r.traffic[i].tag, r);
      }
      TemplateErrorsOnly(rs);
    } else {
      TargetCompiles(env, r.traffic[0].tag, r);
      assert rs[..1] == [rs[0]] && Init(rs[..1]) == [];
      CollectFails(rs, 1);
    }
  }

  lemma GatewayError(env: Env, r: Route, o: Orders, calls: nat -> Call, m: map<Key, GatewayObj>)
    requires NoFaults(calls) && ValidOrders(r, o) && AllServable(env, r, r.traffic)
    requires r.traffic != [] ==> "cluster-local" in env.gateways
    ensures GatewayPhase(env, r, o, calls, m).error
         == (if r.traffic != [] && OwnVisibility(r) !in env.gateways then Some(Panic) else None)
  {
    RouteCompiles(env, r);
    VisibilityOfRoute(r);
    var jobs := GatewayJobs(env, r, RouteDomains(env, r).value, o.gateways);
    JobErrorsOnly(m, jobs, calls, false, Panic);
    if GatewayVisibilities(r) <= env.gateways.Keys {
      GatewayJobsCover(env, r, o);
      LoopSucceeds(m, jobs, calls, false);
    } else if GatewayPhase(env, r, o, calls, m).error.None? {
      FinishedGatewaysAreConfigured(env, r, o, calls, m);
    }
  }

  lemma WhenPercentsSet(traffic: seq<TrafficTarget>)
    ensures TrafficSplit.PercentsSet(traffic) <==> !exists i :: 0 <= i < |traffic| && traffic[i].percent.None?
  {
  }

  lemma HTTPRouteError(env: Env, r: Route, o: Orders, gws: seq<Key>, m: map<Key, HTTPRouteObj>)
    requires FittingName(r) && ValidOrders(r, o) && RouteDomains(env, r).Ok?
    ensures HTTPRoutePhase(env, r, o, gws, Fine, m).error
         == if TrafficSplit.PercentsSet(r.traffic) then None else Some(Panic)
  {
    CleanHTTPRouteSucceeds(env, r, o, gws, m);
  }

  /** The error of a pass in which the API does not fail is exactly the one expected: it is found
      whatever the store holds and whatever orders the pass ranges in. */
  lemma CleanPassError(env: Env, r: Route, o: Orders, f: Faults, s: Store)
    requires OptedIn(r) && FittingName(r) && ValidOrders(r, o) && Clean(f)
    ensures Pass(env, r, o, f, s).error == ErrorOf(env, r)
  {
    ServiceError(env, r, f.services, s.services);
    RouteCompiles(env, r);
    WhenPercentsSet(r.traffic);
    if ServicePhase(env, r, f.services, s.services).error.None? {
      if AllServable(env, r, r.traffic) {
        GatewayError(env, r, o, f.gateways, s.gateways);
        if GatewayPhase(env, r, o, f.gateways, s.gateways).error.None? {
          HTTPRouteError(env, r, o, GatewayPhase(env, r, o, f.gateways, s.gateways).written, s.httproutes);
        }
      } else {
        HostError(env, r);
      }
    }
  }
}
