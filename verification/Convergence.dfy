/** What repeated passes over one Route converge to, under any pattern of API failures and any
    map iteration orders. */
module Convergence {
  import opened Model
  import opened HostMaps
  import opened Promises
  import opened Domains
  import opened Syncing
  import opened Resources
  import opened Loops
  import opened Passes
  import opened Desired

  /** The Routes whose passes converge. */
  predicate Sound(env: Env, r: Route) {
    Enabled(r) && FittingName(r) && Compilable(env, r) && Consistent(env, r)
  }

  // ---------- placeholder progress ----------

  lemma {:induction false} FirstPending<S, T>(m: Objs<S, T>, jobs: seq<Job<S, T>>, desired: Objs<S, T>, k: Key)
    returns (i: nat)
    requires Serves(jobs, desired) && Covers(jobs, desired) && k in Pending(m, desired)
    ensures i < |jobs| && jobs[i].value.key in Pending(m, desired)
    ensures forall j :: 0 <= j < i ==> jobs[j].value.key !in Pending(m, desired)
  {
    var n :| 0 <= n < |jobs| && jobs[n].Ok? && jobs[n].value.key == k;
    i := 0;
    while jobs[i].value.key !in Pending(m, desired)
      invariant i <= n
      invariant forall j :: 0 <= j < i ==> jobs[j].value.key !in Pending(m, desired)
      decreases n - i
    {
      i := i + 1;
    }
  }

  function TargetKey(env: Env, r: Route, i: nat): Key
    requires Targets(env, r).Ok? && i < |Targets(env, r).value|
  {
    Key(r.ns, Targets(env, r).value[i])
  }

  /** Target `i` is the first, in traffic order, whose Service is out of sync. */
  ghost predicate FirstOutOfSync(env: Env, r: Route, m: map<Key, ServiceObj>, i: nat)
    requires Targets(env, r).Ok?
  {
    && i < |Targets(env, r).value| && TargetKey(env, r, i) in Pending(m, DesiredServices(env, r))
    && forall j :: 0 <= j < i ==> TargetKey(env, r, j) !in Pending(m, DesiredServices(env, r))
  }

  /** A failure-free Service phase settles the first Service out of sync and changes no other; with
      nothing pending it changes nothing. Repeated tags do not count twice. */
  lemma PlaceholderProgress(env: Env, r: Route, calls: nat -> Call, m: map<Key, ServiceObj>)
    requires ServicesCompilable(env, r) && NoFaults(calls)
    ensures var d, m' := DesiredServices(env, r), ServicePhase(env, r, calls, m).store;
            if Pending(m, d) == {} then m' == m
            else exists i: nat :: FirstOutOfSync(env, r, m, i) &&
                   var k := TargetKey(env, r, i);
                   m' == Put(m, k, d[k]) && Pending(m', d) == Pending(m, d) - {k}
                   && |Pending(m', d)| == |Pending(m, d)| - 1
  {
    ServiceJobsServe(env, r, calls);
    ServiceJobsCover(env, r, calls);
    var d, jobs := DesiredServices(env, r), ServiceJobs(env, r, Targets(env, r).value, calls);
    if Pending(m, d) == {} {
      LoopIdles(m, jobs, calls, true, d);
    } else {
      var k :| k in Pending(m, d);
      var i := FirstPending(m, jobs, d, k);
      OnceSettlesFirst(m, jobs, calls, d, i);
      forall j | 0 <= j <= i ensures jobs[j].value.key == TargetKey(env, r, j) {
        assert jobs[j] == ServiceJob(env, r, Targets(env, r).value[j], calls(j));
      }
      assert FirstOutOfSync(env, r, m, i);
    }
  }

  /** A template error for any target, even the last, means that no Service is written. */
  lemma TemplateErrorWritesNoService(env: Env, r: Route, calls: nat -> Call, m: map<Key, ServiceObj>, i: nat)
    requires i < |r.traffic| && HostnameFromTemplate(env, r.name, r.traffic[i].tag).Err?
    ensures ServicePhase(env, r, calls, m) == Phase(m, [], Some(TemplateError))
  {
    var names := TargetNames(env, r);
    assert names[i].Err?;
    CollectAll(names);
    TemplateErrorsOnly(names);
  }

  lemma {:induction false} TemplateErrorsOnly<T>(names: seq<Result<T>>)
    requires forall i :: 0 <= i < |names| ==> names[i].Ok? || names[i].error.TemplateError?
    ensures Collect(names).Ok? || Collect(names).error.TemplateError?
  {
    if names != [] {
      TemplateErrorsOnly(Init(names));
    }
  }

  // ---------- the effect of one pass ----------

  lemma ServicesMove(env: Env, r: Route, calls: nat -> Call, m0: map<Key, ServiceObj>, m: map<Key, ServiceObj>)
    ensures var d, m' := DesiredServices(env, r), ServicePhase(env, r, calls, m).store;
            && (Toward(m0, m, d) ==> Toward(m0, m', d))
            && Pending(m', d) <= Pending(m, d)
  {
    if Targets(env, r).Ok? {
      ServiceJobsServe(env, r, calls);
      LoopTowards(m0, m, ServiceJobs(env, r, Targets(env, r).value, calls), calls, true, DesiredServices(env, r));
    }
  }

  lemma GatewaysMove(env: Env, r: Route, o: Orders, calls: nat -> Call, m0: map<Key, GatewayObj>,
      m: map<Key, GatewayObj>)
    requires Consistent(env, r) && ValidOrders(r, o)
    ensures var d, p := DesiredGateways(env, r), GatewayPhase(env, r, o, calls, m);
            && (Toward(m0, m, d) ==> Toward(m0, p.store, d))
            && Pending(p.store, d) <= Pending(m, d)
            && (p.error.None? ==> Pending(p.store, d) == {})
            && (Pending(m, d) == {} ==> p.store == m && p.written == [])
  {
    if RouteDomains(env, r).Ok? {
      var d, jobs := DesiredGateways(env, r), GatewayJobs(env, r, RouteDomains(env, r).value, o.gateways);
      GatewayJobsServe(env, r, o);
      LoopTowards(m0, m, jobs, calls, false, d);
      if GatewayPhase(env, r, o, calls, m).error.None? {
        FinishedGatewaysAreConfigured(env, r, o, calls, m);
        GatewayJobsCover(env, r, o);
        LoopReachesLimit(m, m, jobs, calls, d);
      }
      if Pending(m, d) == {} {
        LoopIdles(m, jobs, calls, false, d);
      }
    }
  }

  /** In every pass the Gateways handed to the HTTPRoute are, once each, exactly those that were
      out of sync and have just been written. */
  lemma GatewayRefsAreTheWritten(env: Env, r: Route, o: Orders, calls: nat -> Call, m: map<Key, GatewayObj>)
    requires Consistent(env, r) && ValidOrders(r, o)
    requires GatewayPhase(env, r, o, calls, m).error.None?
    ensures var refs := GatewayPhase(env, r, o, calls, m).written;
            && (forall k :: k in refs <==> k in Pending(m, DesiredGateways(env, r)))
            && (forall i, j :: 0 <= i < j < |refs| ==> refs[i] != refs[j])
  {
    GatewayJobsServe(env, r, o);
    GatewaysMove(env, r, o, calls, m, m);
    LoopWrites(m, GatewayJobs(env, r, RouteDomains(env, r).value, o.gateways), calls, false, DesiredGateways(env, r));
  }

  /** The refs name every Gateway of the Route exactly when all of them were out of sync. */
  lemma WhenRefsAreComplete(env: Env, r: Route, o: Orders, calls: nat -> Call, m: map<Key, GatewayObj>)
    requires Consistent(env, r) && ValidOrders(r, o)
    requires GatewayPhase(env, r, o, calls, m).error.None?
    ensures (forall k :: k in GatewayKeys(env, r) ==> k in GatewayPhase(env, r, o, calls, m).written)
       <==> Pending(m, DesiredGateways(env, r)) == GatewayKeys(env, r)
  {
    GatewayRefsAreTheWritten(env, r, o, calls, m);
    assert DesiredGateways(env, r).Keys == GatewayKeys(env, r);
  }

  lemma StepPuts<S, T>(p: Phase<S, T>, k: Key, d: Obj<S, T>, call: Call)
    ensures var m' := Step(p, Ok(Named(k, d)), call).store;
            (m' == p.store || m' == Put(p.store, k, d)) && (call.Fine? ==> m' == Put(p.store, k, d))
  {
  }

  lemma MadeHTTPRoute(env: Env, r: Route, o: Orders, gws: seq<Key>)
    requires ValidOrders(r, o)
    ensures MakeHTTPRoute(env, r, o, gws).Ok? ==>
              RouteDomains(env, r).Ok? && MakeHTTPRoute(env, r, o, gws).value == DesiredHTTPRouteFor(env, r, o, gws)
    ensures Compilable(env, r) ==> MakeHTTPRoute(env, r, o, gws).Ok?
  {
  }

  lemma HTTPRouteJobPuts(env: Env, r: Route, o: Orders, gws: seq<Key>, call: Call, m: map<Key, HTTPRouteObj>)
    requires FittingName(r) && ValidOrders(r, o)
    ensures var job := HTTPRouteJob(env, r, o, gws, call, m);
            && (job.Ok? ==>
                  && RouteDomains(env, r).Ok?
                  && job.value == Named(HTTPRouteKey(r), DesiredHTTPRouteFor(env, r, o, gws)))
            && (call.Fine? && Compilable(env, r) ==> job.Ok?)
  {
    FittingLookup(env, r);
    MadeHTTPRoute(env, r, o, gws);
  }

  /** The HTTPRoute phase leaves its map alone or puts the desired HTTPRoute. */
  lemma HTTPRouteMoves(env: Env, r: Route, o: Orders, gws: seq<Key>, call: Call, m: map<Key, HTTPRouteObj>)
    requires FittingName(r) && ValidOrders(r, o)
    ensures var m' := HTTPRoutePhase(env, r, o, gws, call, m).store;
            && (m' == m
                || (RouteDomains(env, r).Ok? && m' == Put(m, HTTPRouteKey(r), DesiredHTTPRouteFor(env, r, o, gws))))
            && (call.Fine? && Compilable(env, r) ==> m' == Put(m, HTTPRouteKey(r), DesiredHTTPRouteFor(env, r, o, gws)))
  {
    HTTPRouteJobPuts(env, r, o, gws, call, m);
    var job := HTTPRouteJob(env, r, o, gws, call, m);
    if job.Ok? {
      StepPuts(Phase(m, [], None), job.value.key, job.value.obj, call);
    }
  }

  /** After a successful pass, failures or not, the stored HTTPRoute refers to the Gateways that
      were out of sync before it, once each, and to no other. */
  lemma StoredRefsAreTheWritten(env: Env, r: Route, o: Orders, f: Faults, s: Store)
    requires Enabled(r) && FittingName(r) && Consistent(env, r) && ValidOrders(r, o)
    requires Pass(env, r, o, f, s).error.None?
    ensures HTTPRouteKey(r) in Pass(env, r, o, f, s).store.httproutes
    ensures var refs := Pass(env, r, o, f, s).store.httproutes[HTTPRouteKey(r)].spec.gatewayRefs;
            && (forall k :: k in refs <==> k in Pending(s.gateways, DesiredGateways(env, r)))
            && (forall i, j :: 0 <= i < j < |refs| ==> refs[i] != refs[j])
  {
    var gws := GatewayPhase(env, r, o, f.gateways, s.gateways).written;
    PassShape(env, r, o, f, s);
    GatewayRefsAreTheWritten(env, r, o, f.gateways, s.gateways);
    FinishedHTTPRoute(env, r, o, gws, f.httproute, s.httproutes);
  }

  lemma FinishedHTTPRoute(env: Env, r: Route, o: Orders, gws: seq<Key>, call: Call, m: map<Key, HTTPRouteObj>)
    requires FittingName(r) && ValidOrders(r, o) && HTTPRoutePhase(env, r, o, gws, call, m).error.None?
    ensures var m', k := HTTPRoutePhase(env, r, o, gws, call, m).store, HTTPRouteKey(r);
            && RouteDomains(env, r).Ok? && k in m' && InSync(m'[k], DesiredHTTPRouteFor(env, r, o, gws))
            && Kept(m, k, m'[k], [ControllerRef(r)], None)
  {
    HTTPRouteJobPuts(env, r, o, gws, call, m);
  }

  // ---------- many passes ----------

  datatype PassInput = PassInput(o: Orders, f: Faults)

  ghost predicate ValidPasses(r: Route, ps: seq<PassInput>) {
    forall i :: 0 <= i < |ps| ==> ValidOrders(r, ps[i].o)
  }

  ghost function Run(env: Env, r: Route, ps: seq<PassInput>, s: Store): Store
    requires ValidPasses(r, ps)
  {
    if ps == [] then s else Pass(env, r, Last(ps).o, Last(ps).f, Run(env, r, Init(ps), s)).store
  }

  ghost function CleanCount(ps: seq<PassInput>): nat {
    if ps == [] then 0 else CleanCount(Init(ps)) + if Clean(Last(ps).f) then 1 else 0
  }

  /** The store that passes over a Route lead to: every desired object in place, no Gateway
      referred to, nothing else changed. */
  ghost function Settled(env: Env, r: Route, o: Orders, s: Store): Store
    requires Sound(env, r) && ValidOrders(r, o)
  {
    Store(Limit(s.services, DesiredServices(env, r)),
          Limit(s.gateways, DesiredGateways(env, r)),
          Put(s.httproutes, HTTPRouteKey(r), DesiredHTTPRouteFor(env, r, o, [])))
  }

  ghost predicate ServicesApproach(env: Env, r: Route, m0: map<Key, ServiceObj>, m: map<Key, ServiceObj>, clean: nat) {
    && Toward(m0, m, DesiredServices(env, r))
    && |Pending(m, DesiredServices(env, r))| <= Minus(|Pending(m0, DesiredServices(env, r))|, clean)
  }

  ghost predicate GatewaysApproach(env: Env, r: Route, m0: map<Key, GatewayObj>, m: map<Key, GatewayObj>, clean: nat) {
    && Toward(m0, m, DesiredGateways(env, r))
    && (clean >= 1 ==> Pending(m, DesiredGateways(env, r)) == {})
  }

  function Minus(a: nat, b: nat): nat {
    if a < b then 0 else a - b
  }

  /** `m` differs from `m0` at most at `k`, and there in what updates may change. */
  ghost predicate OnlyUpdated<S, T>(m0: Objs<S, T>, m: Objs<S, T>, k: Key, owners: seq<Owner>, other: T) {
    && SameOutside(m0, m, {k})
    && (k in m0 ==> k in m && m[k].owners == m0[k].owners && m[k].other == m0[k].other)
    && (k !in m0 && k in m ==> m[k].owners == owners && m[k].other == other)
  }

  lemma PutForgets<S, T>(m0: Objs<S, T>, m: Objs<S, T>, k: Key, d: Obj<S, T>)
    requires OnlyUpdated(m0, m, k, d.owners, d.other)
    ensures Put(m, k, d) == Put(m0, k, d)
    ensures OnlyUpdated(m0, Put(m, k, d), k, d.owners, d.other)
  {
    var a, b := Put(m, k, d), Put(m0, k, d);
    forall k' ensures SameAt(a, b, k') {
      assert k' == k || SameAt(m0, m, k');
    }
    assert forall k' :: k' in a <==> k' in b by {
      forall k' ensures k' in a <==> k' in b {
        assert SameAt(a, b, k');
      }
    }
    assert forall k' :: k' in a ==> SameAt(a, b, k');
  }

  lemma ServicePhaseApproaches(env: Env, r: Route, calls: nat -> Call, m0: map<Key, ServiceObj>,
      m: map<Key, ServiceObj>, clean: nat)
    requires ServicesCompilable(env, r) && ServicesApproach(env, r, m0, m, clean)
    ensures ServicesApproach(env, r, m0, ServicePhase(env, r, calls, m).store, clean)
    ensures NoFaults(calls) ==> ServicesApproach(env, r, m0, ServicePhase(env, r, calls, m).store, clean + 1)
  {
    var m', d := ServicePhase(env, r, calls, m).store, DesiredServices(env, r);
    ServicesMove(env, r, calls, m0, m);
    SubsetSize(Pending(m', d), Pending(m, d));
    if NoFaults(calls) {
      PlaceholderProgress(env, r, calls, m);
    }
  }

  lemma PassApproachesServices(env: Env, r: Route, p: PassInput, s0: Store, s: Store, clean: nat)
    requires Sound(env, r) && ValidOrders(r, p.o) && ServicesApproach(env, r, s0.services, s.services, clean)
    ensures ServicesApproach(env, r, s0.services, Pass(env, r, p.o, p.f, s).store.services, clean)
    ensures Clean(p.f) ==> ServicesApproach(env, r, s0.services, Pass(env, r, p.o, p.f, s).store.services, clean + 1)
  {
    PassShape(env, r, p.o, p.f, s);
    CompilableServices(env, r);
    ServicePhaseApproaches(env, r, p.f.services, s0.services, s.services, clean);
  }

  lemma PassApproachesGateways(env: Env, r: Route, p: PassInput, s0: Store, s: Store, clean: nat)
    requires Sound(env, r) && ValidOrders(r, p.o) && GatewaysApproach(env, r, s0.gateways, s.gateways, clean)
    ensures GatewaysApproach(env, r, s0.gateways, Pass(env, r, p.o, p.f, s).store.gateways, clean)
    ensures Clean(p.f) ==> GatewaysApproach(env, r, s0.gateways, Pass(env, r, p.o, p.f, s).store.gateways, clean + 1)
  {
    PassShape(env, r, p.o, p.f, s);
    GatewaysMove(env, r, p.o, p.f.gateways, s0.gateways, s.gateways);
    if Clean(p.f) {
      CompilableServices(env, r);
      CleanServicesSucceed(env, r, p.f.services, s.services);
      CleanGatewaysSucceed(env, r, p.o, p.f.gateways, s.gateways);
    }
  }

  lemma SubsetSize(a: set<Key>, b: set<Key>)
    requires a <= b
    ensures |a| <= |b|
  {
    assert b == a + (b - a);
  }

  lemma {:induction false} RunApproaches(env: Env, r: Route, ps: seq<PassInput>, s: Store)
    requires Sound(env, r) && ValidPasses(r, ps)
    ensures ServicesApproach(env, r, s.services, Run(env, r, ps, s).services, CleanCount(ps))
    ensures GatewaysApproach(env, r, s.gateways, Run(env, r, ps, s).gateways, CleanCount(ps))
  {
    if ps != [] {
      var s' := Run(env, r, Init(ps), s);
      RunApproaches(env, r, Init(ps), s);
      PassApproachesServices(env, r, Last(ps), s, s', CleanCount(Init(ps)));
      PassApproachesGateways(env, r, Last(ps), s, s', CleanCount(Init(ps)));
    }
  }

  lemma PassMovesHTTPRoute(env: Env, r: Route, p: PassInput, s: Store) returns (gws: seq<Key>)
    requires Sound(env, r) && ValidOrders(r, p.o)
    ensures var m, m', d := s.httproutes, Pass(env, r, p.o, p.f, s).store.httproutes,
            DesiredHTTPRouteFor(env, r, p.o, gws);
            && (m' == m || m' == Put(m, HTTPRouteKey(r), d))
            && (Clean(p.f) ==> m' == Put(m, HTTPRouteKey(r), d))
    ensures Pending(s.gateways, DesiredGateways(env, r)) == {} ==> gws == []
  {
    PassShape(env, r, p.o, p.f, s);
    gws := GatewayPhase(env, r, p.o, p.f.gateways, s.gateways).written;
    HTTPRouteMoves(env, r, p.o, gws, p.f.httproute, s.httproutes);
    GatewaysMove(env, r, p.o, p.f.gateways, s.gateways, s.gateways);
    if Clean(p.f) {
      CompilableServices(env, r);
      CleanServicesSucceed(env, r, p.f.services, s.services);
      CleanGatewaysSucceed(env, r, p.o, p.f.gateways, s.gateways);
    }
  }

  /** After two failure-free passes the HTTPRoute is the desired one for the orders of some pass. */
  lemma {:induction false} RunSettlesHTTPRoute(env: Env, r: Route, ps: seq<PassInput>, s: Store) returns (j: nat)
    requires Sound(env, r) && ValidPasses(r, ps)
    ensures OnlyUpdated(s.httproutes, Run(env, r, ps, s).httproutes, HTTPRouteKey(r), [ControllerRef(r)], None)
    ensures CleanCount(ps) >= 2 ==>
              j < |ps|
              && Run(env, r, ps, s).httproutes
                 == Put(s.httproutes, HTTPRouteKey(r), DesiredHTTPRouteFor(env, r, ps[j].o, []))
  {
    j := 0;
    if ps != [] {
      var s', p, k := Run(env, r, Init(ps), s), Last(ps), HTTPRouteKey(r);
      j := RunSettlesHTTPRoute(env, r, Init(ps), s);
      var gws := PassMovesHTTPRoute(env, r, p, s');
      PutForgets(s.httproutes, s'.httproutes, k, DesiredHTTPRouteFor(env, r, p.o, gws));
      RunApproaches(env, r, Init(ps), s);
      if CleanCount(Init(ps)) < 2 || Run(env, r, ps, s).httproutes != s'.httproutes {
        j := |ps| - 1;
      }
    }
  }

  /** The main theorem. Take any run of passes over a sound Route, from any store, with any API
      failures and any map iteration orders. Once it contains max(k, 2) failure-free passes, k
      being the number of Services out of sync at the start, the store is the settled one for
      the orders of one of the passes. */
  lemma Converges(env: Env, r: Route, ps: seq<PassInput>, s: Store) returns (j: nat)
    requires Sound(env, r) && ValidPasses(r, ps)
    requires CleanCount(ps) >= 2 && CleanCount(ps) >= |Pending(s.services, DesiredServices(env, r))|
    ensures j < |ps| && Run(env, r, ps, s) == Settled(env, r, ps[j].o, s)
  {
    RunApproaches(env, r, ps, s);
    var s' := Run(env, r, ps, s);
    SettledIsLimit(s.services, s'.services, DesiredServices(env, r));
    SettledIsLimit(s.gateways, s'.gateways, DesiredGateways(env, r));
    j := RunSettlesHTTPRoute(env, r, ps, s);
  }
}
