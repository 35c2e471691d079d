/** When a pass succeeds, what it has achieved then, and what it reports in the Route's status. */
module Reporting {
  import opened Model
  import opened Promises
  import opened Domains
  import opened Syncing
  import opened Resources
  import opened Loops
  import opened Passes
  import opened Desired
  import opened Convergence
  import Readiness

  // ---------- success under API failures ----------

  /** The calls for an object succeed: its read, and its write if it is out of sync. */
  predicate CallsSucceed(call: Call, settled: bool) {
    !call.ReadFails? && (call.Fine? || settled)
  }

  /** So do those for the Services, up to the first that is out of sync, where the phase stops. */
  ghost predicate ServiceCallsSucceed(env: Env, r: Route, calls: nat -> Call, m: map<Key, ServiceObj>)
    requires Targets(env, r).Ok?
  {
    var pending := Pending(m, DesiredServices(env, r));
    forall i :: 0 <= i < |Targets(env, r).value| && (forall j :: 0 <= j < i ==> TargetKey(env, r, j) !in pending) ==>
      CallsSucceed(calls(i), TargetKey(env, r, i) !in pending)
  }

  ghost predicate EarlierKey(env: Env, r: Route, vs: seq<string>, i: nat)
    requires i < |vs| && forall v :: v in vs ==> v in env.gateways
  {
    exists j :: 0 <= j < i && GatewayKey(env, r, vs[j]) == GatewayKey(env, r, vs[i])
  }

  /** And those for all the Gateways, each written at most once. */
  ghost predicate GatewayCallsSucceed(env: Env, r: Route, o: Orders, calls: nat -> Call, m: map<Key, GatewayObj>)
    requires forall v :: v in o.gateways ==> v in env.gateways
  {
    forall i :: 0 <= i < |o.gateways| ==>
      CallsSucceed(calls(i), GatewayKey(env, r, o.gateways[i]) !in Pending(m, DesiredGateways(env, r))
                             || EarlierKey(env, r, o.gateways, i))
  }

  ghost predicate HTTPRouteCallsSucceed(env: Env, r: Route, o: Orders, gws: seq<Key>, call: Call,
      m: map<Key, HTTPRouteObj>)
    requires RouteDomains(env, r).Ok? && |o.hosts| == |r.traffic|
  {
    var k := HTTPRouteKey(r);
    CallsSucceed(call, k in m && InSync(m[k], DesiredHTTPRouteFor(env, r, o, gws)))
  }

  lemma ServiceJobAt(env: Env, r: Route, calls: nat -> Call, i: nat)
    requires ServicesCompilable(env, r) && i < |Targets(env, r).value|
    ensures ServiceJobs(env, r, Targets(env, r).value, calls)[i]
         == if calls(i).ReadFails? then Err(ApiError) else Ok(Named(TargetKey(env, r, i), DesiredService(env, r)))
  {
  }

  lemma ServiceJobsCan(env: Env, r: Route, calls: nat -> Call, m: map<Key, ServiceObj>)
    requires ServicesCompilable(env, r)
    ensures OnceAllCan(m, ServiceJobs(env, r, Targets(env, r).value, calls), calls, DesiredServices(env, r))
       <==> ServiceCallsSucceed(env, r, calls, m)
  {
    var d, jobs := DesiredServices(env, r), ServiceJobs(env, r, Targets(env, r).value, calls);
    forall i | 0 <= i < |jobs|
      ensures jobs[i] == if calls(i).ReadFails? then Err(ApiError)
                         else Ok(Named(TargetKey(env, r, i), DesiredService(env, r)))
    {
      ServiceJobAt(env, r, calls, i);
    }
    if OnceAllCan(m, jobs, calls, d) {
      forall i | 0 <= i < |jobs| && forall j :: 0 <= j < i ==> TargetKey(env, r, j) !in Pending(m, d)
        ensures CallsSucceed(calls(i), TargetKey(env, r, i) !in Pending(m, d))
      {
        ReachedAreMade(m, jobs, calls, d, i);
        assert OnceCan(m, jobs, calls, d, i);
      }
    }
    if ServiceCallsSucceed(env, r, calls, m) {
      forall i | 0 <= i < |jobs| ensures OnceCan(m, jobs, calls, d, i) {
        if InSyncBefore(m, jobs, d, i) {
          assert forall j :: 0 <= j < i ==> TargetKey(env, r, j) !in Pending(m, d);
        }
      }
    }
  }

  lemma WhenServicesSucceed(env: Env, r: Route, calls: nat -> Call, m: map<Key, ServiceObj>)
    requires ServicesCompilable(env, r)
    ensures ServicePhase(env, r, calls, m).error.None? <==> ServiceCallsSucceed(env, r, calls, m)
    ensures ServicePhase(env, r, calls, m).error in {None, Some(ApiError)}
  {
    var jobs := ServiceJobs(env, r, Targets(env, r).value, calls);
    ServiceJobsServe(env, r, calls);
    ServiceJobsCan(env, r, calls, m);
    WhenOnceSucceeds(m, jobs, calls, DesiredServices(env, r));
    forall i | 0 <= i < |jobs| && jobs[i].Err? ensures jobs[i].error == ApiError {
      ServiceJobAt(env, r, calls, i);
    }
    LoopErrors(m, jobs, calls, true);
  }

  lemma GatewayJobsMade(env: Env, r: Route, o: Orders)
    requires Compilable(env, r) && ValidOrders(r, o)
    ensures forall v :: v in o.gateways ==> v in env.gateways
    ensures var jobs := GatewayJobs(env, r, RouteDomains(env, r).value, o.gateways);
            forall i :: 0 <= i < |jobs| ==> jobs[i].Ok? && jobs[i].value.key == GatewayKey(env, r, o.gateways[i])
  {
    assert forall v :: v in o.gateways ==> v in GatewayVisibilities(r);
  }

  lemma GatewayJobsCan(env: Env, r: Route, o: Orders, calls: nat -> Call, m: map<Key, GatewayObj>)
    requires Compilable(env, r) && ValidOrders(r, o)
    ensures forall v :: v in o.gateways ==> v in env.gateways
    ensures LoopAllCan(m, GatewayJobs(env, r, RouteDomains(env, r).value, o.gateways), calls, DesiredGateways(env, r))
       <==> GatewayCallsSucceed(env, r, o, calls, m)
  {
    var d, jobs := DesiredGateways(env, r), GatewayJobs(env, r, RouteDomains(env, r).value, o.gateways);
    GatewayJobsMade(env, r, o);
    forall i | 0 <= i < |jobs|
      ensures AllCan(m, jobs, calls, d, i)
         <==> CallsSucceed(calls(i), GatewayKey(env, r, o.gateways[i]) !in Pending(m, d)
                                     || EarlierKey(env, r, o.gateways, i))
    {
      assert Repeats(jobs, i) <==> EarlierKey(env, r, o.gateways, i);
    }
  }

  lemma WhenGatewaysSucceed(env: Env, r: Route, o: Orders, calls: nat -> Call, m: map<Key, GatewayObj>)
    requires Compilable(env, r) && Consistent(env, r) && ValidOrders(r, o)
    ensures forall v :: v in o.gateways ==> v in env.gateways
    ensures GatewayPhase(env, r, o, calls, m).error.None? <==> GatewayCallsSucceed(env, r, o, calls, m)
  {
    GatewayJobsServe(env, r, o);
    GatewayJobsCan(env, r, o, calls, m);
    WhenLoopSucceeds(m, GatewayJobs(env, r, RouteDomains(env, r).value, o.gateways), calls, DesiredGateways(env, r));
  }

  lemma GatewayErrors(env: Env, r: Route, o: Orders, calls: nat -> Call, m: map<Key, GatewayObj>)
    requires Compilable(env, r) && ValidOrders(r, o)
    ensures GatewayPhase(env, r, o, calls, m).error in {None, Some(ApiError)}
  {
    GatewayJobsMade(env, r, o);
    LoopErrors(m, GatewayJobs(env, r, RouteDomains(env, r).value, o.gateways), calls, false);
  }

  lemma WhenHTTPRouteSucceeds(env: Env, r: Route, o: Orders, gws: seq<Key>, call: Call, m: map<Key, HTTPRouteObj>)
    requires Compilable(env, r) && FittingName(r) && ValidOrders(r, o)
    ensures HTTPRoutePhase(env, r, o, gws, call, m).error.None? <==> HTTPRouteCallsSucceed(env, r, o, gws, call, m)
    ensures HTTPRoutePhase(env, r, o, gws, call, m).error in {None, Some(ApiError)}
  {
    FittingLookup(env, r);
    MadeHTTPRoute(env, r, o, gws);
    SyncOutcome(m, HTTPRouteKey(r), DesiredHTTPRouteFor(env, r, o, gws), call);
  }

  /** All calls that a pass makes succeed. */
  ghost predicate PassCallsSucceed(env: Env, r: Route, o: Orders, f: Faults, s: Store)
    requires Compilable(env, r) && ValidOrders(r, o)
  {
    CompilableServices(env, r);
    assert forall v :: v in o.gateways ==> v in GatewayVisibilities(r);
    && ServiceCallsSucceed(env, r, f.services, s.services)
    && GatewayCallsSucceed(env, r, o, f.gateways, s.gateways)
    && HTTPRouteCallsSucceed(env, r, o, GatewayPhase(env, r, o, f.gateways, s.gateways).written, f.httproute,
                             s.httproutes)
  }

  /** Under any pattern of API failures, a pass succeeds exactly when the Route compiles and all the
      calls it makes succeed. For a Route that compiles the only possible error is that of the API. */
  lemma WhenPassSucceeds(env: Env, r: Route, o: Orders, f: Faults, s: Store)
    requires Enabled(r) && FittingName(r) && Consistent(env, r) && ValidOrders(r, o)
    ensures Pass(env, r, o, f, s).error.None? <==> Compilable(env, r) && PassCallsSucceed(env, r, o, f, s)
    ensures Compilable(env, r) ==> Pass(env, r, o, f, s).error in {None, Some(ApiError)}
  {
    var gws := GatewayPhase(env, r, o, f.gateways, s.gateways).written;
    if Compilable(env, r) {
      CompilableServices(env, r);
      WhenServicesSucceed(env, r, f.services, s.services);
      WhenGatewaysSucceed(env, r, o, f.gateways, s.gateways);
      GatewayErrors(env, r, o, f.gateways, s.gateways);
      WhenHTTPRouteSucceeds(env, r, o, gws, f.httproute, s.httproutes);
    } else if Pass(env, r, o, f, s).error.None? {
      FinishedGatewaysAreConfigured(env, r, o, f.gateways, s.gateways);
    }
  }

  // ---------- what a successful pass has achieved ----------

  /** After a successful pass, failures or not, every visibility has its Gateway. */
  lemma SuccessLeavesGateways(env: Env, r: Route, o: Orders, f: Faults, s: Store, v: string)
    requires Enabled(r) && Consistent(env, r) && ValidOrders(r, o) && Pass(env, r, o, f, s).error.None?
    requires r.traffic != [] && (v == OwnVisibility(r) || v == "cluster-local")
    ensures v in env.gateways
    ensures var k, m := GatewayKey(env, r, v), Pass(env, r, o, f, s).store.gateways;
            k in m && IsGatewayOf(env, r, v, m[k])
  {
    var m := GatewayPhase(env, r, o, f.gateways, s.gateways).store;
    PassShape(env, r, o, f, s);
    VisibilityOfRoute(r);
    FinishedGatewaysAreConfigured(env, r, o, f.gateways, s.gateways);
    GatewaysMove(env, r, o, f.gateways, s.gateways, s.gateways);
    assert v in GatewayVisibilities(r);
    GatewayKeyOf(env, r, v);
    assert GatewayKey(env, r, v) !in Pending(m, DesiredGateways(env, r));
    GatewayAsPromised(env, r, v, m[GatewayKey(env, r, v)]);
  }

  /** And the Route has its HTTPRoute, which refers to the Gateways that the pass has written. */
  lemma SuccessLeavesHTTPRoute(env: Env, r: Route, o: Orders, f: Faults, s: Store)
    requires Enabled(r) && FittingName(r) && ValidOrders(r, o) && Pass(env, r, o, f, s).error.None?
    ensures var k, m := Key(r.ns, r.name), Pass(env, r, o, f, s).store.httproutes;
            && k in m
            && IsHTTPRouteOf(env, r, o.hosts, GatewayPhase(env, r, o, f.gateways, s.gateways).written, m[k])
            && Kept(s.httproutes, k, m[k], [Owner(r.name, r.uid)], None)
  {
    var gws := GatewayPhase(env, r, o, f.gateways, s.gateways).written;
    PassShape(env, r, o, f, s);
    FinishedHTTPRoute(env, r, o, gws, f.httproute, s.httproutes);
    HTTPRouteAsPromised(env, r, o, gws, Pass(env, r, o, f, s).store.httproutes[HTTPRouteKey(r)]);
  }

  // ---------- what a pass reports ----------

  /** A Route that has not opted in, by exactly this annotation and value, is left alone. */
  lemma OthersAreLeftAlone(env: Env, r: Route, o: Orders, f: Faults, s: Store)
    requires |o.hosts| == |r.traffic| && !OptedIn(r)
    ensures Pass(env, r, o, f, s) == Outcome(s, Untouched, None)
  {
  }

  lemma ReadyIsAllAdmit(status: HTTPRouteStatus)
    ensures Readiness.Ready(status) <==> AllAdmit(status)
  {
    if status.Some? {
      forall gw | gw in status.value ensures Readiness.Admitted(gw) <==> Admits(gw.conditions) {
        AdmittedIsAdmits(gw);
      }
    }
  }

  lemma AdmittedIsAdmits(gw: GatewayStatus)
    ensures Readiness.Admitted(gw) <==> Admits(gw.conditions)
  {
    if i: nat :| Readiness.FirstAdmitted(gw.conditions, i) && gw.conditions[i].status == Readiness.TRUE {
      assert gw.conditions[i] == Condition("Admitted", "True");
    }
    if i :| 0 <= i < |gw.conditions| && gw.conditions[i] == Condition("Admitted", "True")
            && forall j :: 0 <= j < i ==> gw.conditions[j].kind != "Admitted" {
      assert Readiness.FirstAdmitted(gw.conditions, i);
    }
  }

  /** The status that the phase returns is that of the HTTPRoute found before it, if there was one:
      updates do not touch it, and a new HTTPRoute has none. */
  lemma ReturnedStatus(env: Env, r: Route, o: Orders, gws: seq<Key>, call: Call, m: map<Key, HTTPRouteObj>)
    requires ValidOrders(r, o) && HTTPRoutePhase(env, r, o, gws, call, m).error.None?
    ensures var m', k := HTTPRoutePhase(env, r, o, gws, call, m).store, LookupKey(env, r);
            ReturnsReady(env, r, m') <==> k in m && AllAdmit(m[k].other)
  {
    var job, k := HTTPRouteJob(env, r, o, gws, call, m), LookupKey(env, r);
    var m' := HTTPRoutePhase(env, r, o, gws, call, m).store;
    SyncOutcome(m, job.value.key, job.value.obj, call);
    assert job.value.obj.other.None? by { MadeHTTPRoute(env, r, o, gws); }
    if k in m {
      ReadyIsAllAdmit(m[k].other);
    }
  }

  /** A pass reports a Route ready exactly when it has opted in, the pass succeeds, and its HTTPRoute
      was there before the pass and every Gateway in its status, which was not nil, had admitted it.
      If only that fails the pass reports it as not configured; otherwise it reports nothing. */
  lemma WhenReportedReady(env: Env, r: Route, o: Orders, f: Faults, s: Store)
    requires ValidOrders(r, o)
    ensures var p, k := Pass(env, r, o, f, s), LookupKey(env, r);
            var succeeds, admitted := OptedIn(r) && p.error.None?, k in s.httproutes && AllAdmit(s.httproutes[k].other);
            && (p.status.MarkedReady? <==> succeeds && admitted)
            && (p.status.MarkedNotConfigured? <==> succeeds && !admitted)
    ensures |r.name| <= 63 ==> LookupKey(env, r) == Key(r.ns, r.name)
  {
    var gws := GatewayPhase(env, r, o, f.gateways, s.gateways).written;
    if OptedIn(r) && Pass(env, r, o, f, s).error.None? {
      ReturnedStatus(env, r, o, gws, f.httproute, s.httproutes);
    }
  }

  /** So a pass that finds no HTTPRoute, such as one that creates it, never reports the Route ready. */
  lemma NewHTTPRouteIsNotReady(env: Env, r: Route, o: Orders, f: Faults, s: Store)
    requires ValidOrders(r, o) && FittingName(r) && Key(r.ns, r.name) !in s.httproutes
    ensures !Pass(env, r, o, f, s).status.MarkedReady?
  {
    WhenReportedReady(env, r, o, f, s);
  }

  /** A failure-free pass over a settled store reports just what the Gateways say of the HTTPRoute. */
  lemma SettledIsReported(env: Env, r: Route, o: Orders, p: PassInput, s: Store)
    requires Sound(env, r) && ValidOrders(r, o) && ValidOrders(r, p.o) && Clean(p.f)
    ensures var k, s' := Key(r.ns, r.name), Settled(env, r, o, s);
            && k in s'.httproutes
            && Pass(env, r, p.o, p.f, s').status
               == if AllAdmit(s'.httproutes[k].other) then MarkedReady else MarkedNotConfigured
  {
    CleanPassSucceeds(env, r, p.o, p.f, Settled(env, r, o, s));
    WhenReportedReady(env, r, p.o, p.f, Settled(env, r, o, s));
  }
}
