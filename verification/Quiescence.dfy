/** Which stores a pass leaves alone, and what keeps a store from ever being left alone. */
module Quiescence {
  import opened Model
  import opened HostMaps
  import opened Domains
  import opened Syncing
  import opened Resources
  import opened Loops
  import opened Passes
  import opened Desired
  import opened Convergence

  lemma SettledServicesIdle(env: Env, r: Route, calls: nat -> Call, m: map<Key, ServiceObj>)
    requires Pending(m, DesiredServices(env, r)) == {}
    ensures ServicePhase(env, r, calls, m).store == m
  {
    if Targets(env, r).Ok? {
      ServiceJobsServe(env, r, calls);
      LoopIdles(m, ServiceJobs(env, r, Targets(env, r).value, calls), calls, true, DesiredServices(env, r));
    }
  }

  /** A pass over a store that is settled for some orders leaves Services and Gateways alone,
      whatever fails, and without failures settles the HTTPRoute for its own orders. */
  lemma PassOverSettled(env: Env, r: Route, o: Orders, p: PassInput, s: Store)
    requires Sound(env, r) && ValidOrders(r, o) && ValidOrders(r, p.o)
    ensures var s', t := Pass(env, r, p.o, p.f, Settled(env, r, o, s)).store, Settled(env, r, o, s);
            && (s' == t || s' == Settled(env, r, p.o, s))
            && (Clean(p.f) ==> s' == Settled(env, r, p.o, s))
  {
    var t := Settled(env, r, o, s);
    LimitIsSettled(s.services, DesiredServices(env, r));
    LimitIsSettled(s.gateways, DesiredGateways(env, r));
    PassShape(env, r, p.o, p.f, t);
    SettledServicesIdle(env, r, p.f.services, t.services);
    GatewaysMove(env, r, p.o, p.f.gateways, t.gateways, t.gateways);
    var gws := PassMovesHTTPRoute(env, r, p, t);
    PutForgets(s.httproutes, s.httproutes, HTTPRouteKey(r), DesiredHTTPRouteFor(env, r, o, []));
    PutForgets(s.httproutes, t.httproutes, HTTPRouteKey(r), DesiredHTTPRouteFor(env, r, p.o, []));
  }

  /** With the iteration orders fixed, no later pass writes anything, whatever fails. */
  lemma {:induction false} StaysSettled(env: Env, r: Route, o: Orders, ps: seq<PassInput>, s: Store)
    requires Sound(env, r) && ValidOrders(r, o) && ValidPasses(r, ps)
    requires forall i :: 0 <= i < |ps| ==> ps[i].o == o
    ensures Run(env, r, ps, Settled(env, r, o, s)) == Settled(env, r, o, s)
  {
    if ps != [] {
      StaysSettled(env, r, o, Init(ps), s);
      PassOverSettled(env, r, o, Last(ps), s);
    }
  }

  lemma SettledOrders(env: Env, r: Route, o: Orders, o': Orders, s: Store)
    requires Sound(env, r) && ValidOrders(r, o) && ValidOrders(r, o')
    ensures Settled(env, r, o', s) == Settled(env, r, o, s)
       <==> OrdersIrrelevant(TargetMaps(env, r).value, o.hosts, o'.hosts, Visibility(r), CLUSTER_LOCAL)
  {
    HostnameOrders(env, r, o, o');
    var k := HTTPRouteKey(r);
    var m, m' := Settled(env, r, o, s).httproutes, Settled(env, r, o', s).httproutes;
    assert m[k].spec.hostnames == RouteHostnames(env, r, o).value;
    assert m'[k].spec.hostnames == RouteHostnames(env, r, o').value;
    assert RouteHostnames(env, r, o).Ok? && RouteHostnames(env, r, o').Ok?;
  }

  /** A failure-free pass leaves a settled store alone exactly when its orders do not show: when every
      target whose host map it ranges in another order has only its external host as local host. */
  lemma OtherOrdersRewrite(env: Env, r: Route, o: Orders, p: PassInput, s: Store)
    requires Sound(env, r) && ValidOrders(r, o) && ValidOrders(r, p.o) && Clean(p.f)
    ensures Pass(env, r, p.o, p.f, Settled(env, r, o, s)).store == Settled(env, r, o, s)
       <==> OrdersIrrelevant(TargetMaps(env, r).value, o.hosts, p.o.hosts, Visibility(r), CLUSTER_LOCAL)
  {
    PassOverSettled(env, r, o, p, s);
    SettledOrders(env, r, o, p.o, s);
  }

  // ---------- quiescent stores ----------

  lemma {:induction false} QuietRun(env: Env, r: Route, p: PassInput, n: nat, s: Store)
    requires ValidOrders(r, p.o) && Clean(p.f) && Pass(env, r, p.o, p.f, s).store == s
    ensures ValidPasses(r, seq(n, _ => p)) && CleanCount(seq(n, _ => p)) == n
    ensures Run(env, r, seq(n, _ => p), s) == s
  {
    if n > 0 {
      QuietRun(env, r, p, n - 1, s);
      assert Init(seq(n, _ => p)) == seq(n - 1, _ => p);
    }
  }

  /** A failure-free pass leaves a store alone exactly when the store is settled for its orders.
      The HTTPRoute of such a store refers to no Gateway at all. */
  lemma QuiescentIffSettled(env: Env, r: Route, p: PassInput, s: Store)
    requires Sound(env, r) && ValidOrders(r, p.o) && Clean(p.f)
    ensures Pass(env, r, p.o, p.f, s).store == s <==> s == Settled(env, r, p.o, s)
    ensures s == Settled(env, r, p.o, s) ==>
              HTTPRouteKey(r) in s.httproutes && s.httproutes[HTTPRouteKey(r)].spec.gatewayRefs == []
  {
    if Pass(env, r, p.o, p.f, s).store == s {
      var k := |Pending(s.services, DesiredServices(env, r))|;
      var n := if k < 2 then 2 else k;
      QuietRun(env, r, p, n, s);
      var j := Converges(env, r, seq(n, _ => p), s);
    }
    if s == Settled(env, r, p.o, s) {
      PassOverSettled(env, r, p.o, p, s);
      assert HTTPRouteKey(r) in Settled(env, r, p.o, s).httproutes;
    }
  }

  // ---------- the bound is tight ----------

  lemma PassSettlesOneService(env: Env, r: Route, p: PassInput, s: Store)
    requires Sound(env, r) && ValidOrders(r, p.o) && Clean(p.f)
    ensures var d, m, m' := DesiredServices(env, r), s.services, Pass(env, r, p.o, p.f, s).store.services;
            |Pending(m', d)| == Minus(|Pending(m, d)|, 1) && (Pending(m, d) != {} ==> m' != m)
  {
    PassShape(env, r, p.o, p.f, s);
    CompilableServices(env, r);
    PlaceholderProgress(env, r, p.f.services, s.services);
  }

  /** Each failure-free pass settles exactly one Service, so fewer passes than Services out of
      sync never suffice. */
  lemma {:induction false} FewerPassesDoNotSuffice(env: Env, r: Route, ps: seq<PassInput>, s: Store)
    requires Sound(env, r) && ValidPasses(r, ps)
    requires forall i :: 0 <= i < |ps| ==> Clean(ps[i].f)
    ensures |Pending(Run(env, r, ps, s).services, DesiredServices(env, r))|
         == Minus(|Pending(s.services, DesiredServices(env, r))|, |ps|)
  {
    if ps != [] {
      FewerPassesDoNotSuffice(env, r, Init(ps), s);
      PassSettlesOneService(env, r, Last(ps), Run(env, r, Init(ps), s));
    }
  }

  /** Nor does a single pass, if a Gateway is out of sync: the HTTPRoute then refers to it. */
  lemma OnePassDoesNotSuffice(env: Env, r: Route, p: PassInput, o: Orders, s: Store)
    requires Sound(env, r) && ValidOrders(r, p.o) && ValidOrders(r, o) && Clean(p.f)
    requires Pending(s.gateways, DesiredGateways(env, r)) != {}
    ensures Pass(env, r, p.o, p.f, s).store != Settled(env, r, o, s)
  {
    PassRefersToPending(env, r, p, s);
    SettledRefersToNone(env, r, o, s);
  }

  lemma PassRefersToPending(env: Env, r: Route, p: PassInput, s: Store)
    requires Sound(env, r) && ValidOrders(r, p.o) && Clean(p.f)
    requires Pending(s.gateways, DesiredGateways(env, r)) != {}
    ensures var m := Pass(env, r, p.o, p.f, s).store.httproutes;
            HTTPRouteKey(r) in m && m[HTTPRouteKey(r)].spec.gatewayRefs != []
  {
    CleanPassSucceeds(env, r, p.o, p.f, s);
    StoredRefsAreTheWritten(env, r, p.o, p.f, s);
    var k :| k in Pending(s.gateways, DesiredGateways(env, r));
    assert k in Pass(env, r, p.o, p.f, s).store.httproutes[HTTPRouteKey(r)].spec.gatewayRefs;
  }

  lemma SettledRefersToNone(env: Env, r: Route, o: Orders, s: Store)
    requires Sound(env, r) && ValidOrders(r, o)
    ensures var m := Settled(env, r, o, s).httproutes;
            HTTPRouteKey(r) in m && m[HTTPRouteKey(r)].spec.gatewayRefs == []
  {
  }

  // ---------- what prevents convergence ----------

  lemma TwoJobsOneKey<S, T>(m: Objs<S, T>, jobs: seq<Job<S, T>>, calls: nat -> Call, k: Key, a: Obj<S, T>, b: Obj<S, T>)
    requires jobs == [Ok(Named(k, a)), Ok(Named(k, b))] && NoFaults(calls) && !InSync(a, b)
    ensures k in Loop(m, jobs, calls, false).written
  {
    var p0 := Loop(m, [], calls, false);
    assert Init(jobs) == [jobs[0]] && Init([jobs[0]]) == [];
    assert calls(0).Fine? && calls(1).Fine?;
    var p1 := Step(p0, jobs[0], calls(0));
    assert Loop(m, [jobs[0]], calls, false) == p1;
    assert k in p1.store && InSync(p1.store[k], a);
    assert Loop(m, jobs, calls, false) == Step(p1, jobs[1], calls(1));
  }

  lemma InconsistentJobs(env: Env, r: Route, o: Orders) returns (k: Key, a: GatewayObj, b: GatewayObj)
    requires Compilable(env, r) && !Consistent(env, r) && ValidOrders(r, o)
    ensures GatewayJobs(env, r, RouteDomains(env, r).value, o.gateways) == [Ok(Named(k, a)), Ok(Named(k, b))]
    ensures !InSync(a, b)
  {
    var v, vs := Visibility(r), o.gateways;
    OrderShapes(vs, v, CLUSTER_LOCAL);
    k, a, b := GatewayKey(env, r, v), DesiredGatewayFor(env, r, vs[0]), DesiredGatewayFor(env, r, vs[1]);
  }

  /** Consistency is needed: without it every failure-free Gateway phase writes, from any store. */
  lemma InconsistentGatewaysNeverSettle(env: Env, r: Route, o: Orders, calls: nat -> Call, m: map<Key, GatewayObj>)
    requires Compilable(env, r) && !Consistent(env, r) && ValidOrders(r, o) && NoFaults(calls)
    ensures GatewayPhase(env, r, o, calls, m).written != []
  {
    var k, a, b := InconsistentJobs(env, r, o);
    TwoJobsOneKey(m, GatewayJobs(env, r, RouteDomains(env, r).value, o.gateways), calls, k, a, b);
  }

  // ---------- names too long to be looked up ----------

  lemma LongLookup(env: Env, r: Route)
    requires !FittingName(r)
    ensures LookupKey(env, r) != HTTPRouteKey(r)
  {
  }

  lemma LongNamePhase(env: Env, r: Route, o: Orders, gws: seq<Key>, call: Call, m: map<Key, HTTPRouteObj>)
    requires !FittingName(r) && ValidOrders(r, o) && LookupKey(env, r) !in m
    ensures var p, k := HTTPRoutePhase(env, r, o, gws, call, m), HTTPRouteKey(r);
            && LookupKey(env, r) !in p.store
            && (k in m ==> p.store == m && p.error.Some?)
            && (p.store == m
                || (RouteDomains(env, r).Ok? && p.store == m[k := DesiredHTTPRouteFor(env, r, o, gws)]))
  {
    LongLookup(env, r);
    MadeHTTPRoute(env, r, o, gws);
  }

  /** The Gateways written in pass `j` of a run. */
  ghost function WrittenInPass(env: Env, r: Route, ps: seq<PassInput>, j: nat, s: Store): seq<Key>
    requires ValidPasses(r, ps) && j < |ps|
  {
    GatewayPhase(env, r, ps[j].o, ps[j].f.gateways, Run(env, r, ps[..j], s).gateways).written
  }

  lemma LongNamePass(env: Env, r: Route, p: PassInput, s: Store)
    requires !FittingName(r) && ValidOrders(r, p.o) && LookupKey(env, r) !in s.httproutes
    ensures var m, m', k := s.httproutes, Pass(env, r, p.o, p.f, s).store.httproutes, HTTPRouteKey(r);
            var gws := GatewayPhase(env, r, p.o, p.f.gateways, s.gateways).written;
            && LookupKey(env, r) !in m'
            && (k in m ==> m' == m)
            && (m' == m || (RouteDomains(env, r).Ok? && m' == m[k := DesiredHTTPRouteFor(env, r, p.o, gws)]))
  {
    if Enabled(r) {
      PassShape(env, r, p.o, p.f, s);
      var gws := GatewayPhase(env, r, p.o, p.f.gateways, s.gateways).written;
      LongNamePhase(env, r, p.o, gws, p.f.httproute, s.httproutes);
    }
  }

  lemma {:induction false} LongNamesKeep(env: Env, r: Route, ps: seq<PassInput>, s: Store)
    requires !FittingName(r) && ValidPasses(r, ps) && LookupKey(env, r) !in s.httproutes
    ensures LookupKey(env, r) !in Run(env, r, ps, s).httproutes
    ensures HTTPRouteKey(r) in s.httproutes ==> Run(env, r, ps, s).httproutes == s.httproutes
  {
    if ps != [] {
      LongNamesKeep(env, r, Init(ps), s);
      LongNamePass(env, r, Last(ps), Run(env, r, Init(ps), s));
    }
  }

  /** `m` is `s.httproutes` with the HTTPRoute that pass `j` creates. */
  ghost predicate CreatedInPass(env: Env, r: Route, ps: seq<PassInput>, j: nat, s: Store, m: map<Key, HTTPRouteObj>)
    requires ValidPasses(r, ps)
  {
    && j < |ps| && RouteDomains(env, r).Ok?
    && m == s.httproutes[HTTPRouteKey(r) := DesiredHTTPRouteFor(env, r, ps[j].o, WrittenInPass(env, r, ps, j, s))]
  }

  lemma CreatedEarlier(env: Env, r: Route, ps: seq<PassInput>, j: nat, s: Store, m: map<Key, HTTPRouteObj>)
    requires ValidPasses(r, ps) && ps != [] && CreatedInPass(env, r, Init(ps), j, s, m)
    ensures CreatedInPass(env, r, ps, j, s, m)
  {
    assert Init(ps)[..j] == ps[..j];
  }

  /** A Route whose name exceeds 63 characters, and whose HTTPRoute lookup therefore misses, has its
      HTTPRoute created at most once in any run, and it keeps for ever the Gateway references of the
      pass that created it; an HTTPRoute that was there before is never changed. */
  lemma {:induction false} LongNamesCreateOnce(env: Env, r: Route, ps: seq<PassInput>, s: Store) returns (j: nat)
    requires !FittingName(r) && ValidPasses(r, ps) && LookupKey(env, r) !in s.httproutes
    ensures HTTPRouteKey(r) in s.httproutes ==> Run(env, r, ps, s).httproutes == s.httproutes
    ensures var m := Run(env, r, ps, s).httproutes;
            LookupKey(env, r) !in m && (m == s.httproutes || CreatedInPass(env, r, ps, j, s, m))
  {
    j := 0;
    LongNamesKeep(env, r, ps, s);
    if ps != [] {
      var s' := Run(env, r, Init(ps), s);
      j := LongNamesCreateOnce(env, r, Init(ps), s);
      LongNamePass(env, r, Last(ps), s');
      if s'.httproutes == s.httproutes {
        j := |ps| - 1;
        assert ps[..j] == Init(ps);
      } else {
        CreatedEarlier(env, r, ps, j, s, s'.httproutes);
      }
    }
  }

  /** Once it exists, every pass fails, whatever else happens, and reports nothing in the Route's
      status. */
  lemma LongNamesFailOnceCreated(env: Env, r: Route, p: PassInput, s: Store)
    requires Enabled(r) && !FittingName(r) && ValidOrders(r, p.o)
    requires LookupKey(env, r) !in s.httproutes && HTTPRouteKey(r) in s.httproutes
    ensures Pass(env, r, p.o, p.f, s).error.Some? && Pass(env, r, p.o, p.f, s).status.Untouched?
  {
    var gws := GatewayPhase(env, r, p.o, p.f.gateways, s.gateways).written;
    LongNamePhase(env, r, p.o, gws, p.f.httproute, s.httproutes);
  }

  // ---------- failure tolerance ----------

  /** Each object is as before, or it is a desired one and now in sync, its owners and other
      fields as before or, if it is new, as desired. */
  ghost predicate OnlyDesiredWritten<S, T>(m: Objs<S, T>, m': Objs<S, T>, desired: Objs<S, T>) {
    forall k :: SameAt(m, m', k) || (k in desired && k in m' && InSync(m'[k], desired[k]) &&
      (if k in m then m'[k].owners == m[k].owners && m'[k].other == m[k].other else m'[k] == desired[k]))
  }

  lemma TowardWritesDesired<S, T>(m: Objs<S, T>, m': Objs<S, T>, desired: Objs<S, T>)
    requires Toward(m, m', desired)
    ensures OnlyDesiredWritten(m, m', desired)
  {
  }

  /** Under any failures a pass takes no Service out of sync, and every Service it writes is the
      desired one. */
  lemma ServicesTolerateFailures(env: Env, r: Route, p: PassInput, s: Store)
    requires ValidOrders(r, p.o)
    ensures var m, m', d := s.services, Pass(env, r, p.o, p.f, s).store.services, DesiredServices(env, r);
            Pending(m', d) <= Pending(m, d) && OnlyDesiredWritten(m, m', d)
  {
    if Enabled(r) {
      PassShape(env, r, p.o, p.f, s);
      ServicesMove(env, r, p.f.services, s.services, s.services);
      TowardWritesDesired(s.services, ServicePhase(env, r, p.f.services, s.services).store, DesiredServices(env, r));
    }
  }

  lemma GatewayPhaseTolerates(env: Env, r: Route, o: Orders, calls: nat -> Call, m: map<Key, GatewayObj>)
    requires Consistent(env, r) && ValidOrders(r, o)
    ensures var m', d := GatewayPhase(env, r, o, calls, m).store, DesiredGateways(env, r);
            Pending(m', d) <= Pending(m, d) && OnlyDesiredWritten(m, m', d)
  {
    GatewaysMove(env, r, o, calls, m, m);
    TowardWritesDesired(m, GatewayPhase(env, r, o, calls, m).store, DesiredGateways(env, r));
  }

  /** Likewise for Gateways. */
  lemma GatewaysTolerateFailures(env: Env, r: Route, p: PassInput, s: Store)
    requires Consistent(env, r) && ValidOrders(r, p.o)
    ensures var m, m', d := s.gateways, Pass(env, r, p.o, p.f, s).store.gateways, DesiredGateways(env, r);
            Pending(m', d) <= Pending(m, d) && OnlyDesiredWritten(m, m', d)
  {
    if Enabled(r) {
      PassShape(env, r, p.o, p.f, s);
      GatewayPhaseTolerates(env, r, p.o, p.f.gateways, s.gateways);
    }
  }

  /** Under any failures the HTTPRoute is left alone or made the desired one for the Gateways just
      written, its owners and status kept, and no other HTTPRoute is touched. */
  lemma HTTPRouteToleratesFailures(env: Env, r: Route, p: PassInput, s: Store)
    requires FittingName(r) && ValidOrders(r, p.o)
    ensures var m, m' := s.httproutes, Pass(env, r, p.o, p.f, s).store.httproutes;
            var gws := GatewayPhase(env, r, p.o, p.f.gateways, s.gateways).written;
            && OnlyUpdated(m, m', HTTPRouteKey(r), [ControllerRef(r)], None)
            && (m' != m ==>
                   RouteDomains(env, r).Ok? && m' == Put(m, HTTPRouteKey(r), DesiredHTTPRouteFor(env, r, p.o, gws)))
  {
    if Enabled(r) {
      var gws := GatewayPhase(env, r, p.o, p.f.gateways, s.gateways).written;
      PassShape(env, r, p.o, p.f, s);
      HTTPRouteMoves(env, r, p.o, gws, p.f.httproute, s.httproutes);
      if RouteDomains(env, r).Ok? {
        PutForgets(s.httproutes, s.httproutes, HTTPRouteKey(r), DesiredHTTPRouteFor(env, r, p.o, gws));
      }
    }
  }

  /** A pass that fails, for whatever reason, does not touch the Route's status. */
  lemma FailedPassKeepsStatus(env: Env, r: Route, o: Orders, f: Faults, s: Store)
    requires ValidOrders(r, o)
    ensures Pass(env, r, o, f, s).error.Some? ==> Pass(env, r, o, f, s).status.Untouched?
  {
  }
}
