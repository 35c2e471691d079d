/** What a pass can touch and depend on, and why passes over unrelated Routes commute. */
module Footprint {
  import opened Model
  import opened Domains
  import opened Syncing
  import opened Resources
  import opened Loops
  import opened Passes
  import opened Desired

  function HTTPRouteKeys(env: Env, r: Route): set<Key> {
    {LookupKey(env, r), HTTPRouteKey(r)}
  }

  ghost predicate AgreeOn(env: Env, r: Route, s: Store, s': Store) {
    && SameOn(s.services, s'.services, ServiceKeys(env, r))
    && SameOn(s.gateways, s'.gateways, GatewayKeys(env, r))
    && SameOn(s.httproutes, s'.httproutes, HTTPRouteKeys(env, r))
  }

  ghost predicate AgreeOutside(env: Env, r: Route, s: Store, s': Store) {
    && SameOutside(s.services, s'.services, ServiceKeys(env, r))
    && SameOutside(s.gateways, s'.gateways, GatewayKeys(env, r))
    && SameOutside(s.httproutes, s'.httproutes, HTTPRouteKeys(env, r))
  }

  lemma ServiceJobKeys(env: Env, r: Route, calls: nat -> Call)
    requires Targets(env, r).Ok?
    ensures KeysWithin(ServiceJobs(env, r, Targets(env, r).value, calls), ServiceKeys(env, r))
  {
    var targets := Targets(env, r).value;
    var jobs := ServiceJobs(env, r, targets, calls);
    forall i | 0 <= i < |jobs| && jobs[i].Ok? ensures jobs[i].value.key in ServiceKeys(env, r) {
      assert targets[i] in targets;
      assert jobs[i] == ServiceJob(env, r, targets[i], calls(i));
    }
  }

  lemma GatewayJobKeys(env: Env, r: Route, o: Orders)
    requires ValidOrders(r, o) && RouteDomains(env, r).Ok?
    ensures KeysWithin(GatewayJobs(env, r, RouteDomains(env, r).value, o.gateways), GatewayKeys(env, r))
  {
  }

  lemma ServiceFootprint(env: Env, r: Route, calls: nat -> Call, m: map<Key, ServiceObj>)
    ensures SameOutside(m, ServicePhase(env, r, calls, m).store, ServiceKeys(env, r))
  {
    if Targets(env, r).Ok? {
      ServiceJobKeys(env, r, calls);
      LoopFootprint(m, ServiceJobs(env, r, Targets(env, r).value, calls), calls, true, ServiceKeys(env, r));
    }
  }

  lemma GatewayFootprint(env: Env, r: Route, o: Orders, calls: nat -> Call, m: map<Key, GatewayObj>)
    requires ValidOrders(r, o)
    ensures SameOutside(m, GatewayPhase(env, r, o, calls, m).store, GatewayKeys(env, r))
  {
    if RouteDomains(env, r).Ok? {
      GatewayJobKeys(env, r, o);
      LoopFootprint(m, GatewayJobs(env, r, RouteDomains(env, r).value, o.gateways), calls, false, GatewayKeys(env, r));
    }
  }

  lemma HTTPRouteFootprint(env: Env, r: Route, o: Orders, gws: seq<Key>, call: Call, m: map<Key, HTTPRouteObj>)
    requires ValidOrders(r, o)
    ensures SameOutside(m, HTTPRoutePhase(env, r, o, gws, call, m).store, HTTPRouteKeys(env, r))
  {
  }

  /** A pass changes only the Services, Gateways and HTTPRoute of its Route, whatever fails. */
  lemma PassFootprint(env: Env, r: Route, o: Orders, f: Faults, s: Store)
    requires ValidOrders(r, o)
    ensures AgreeOutside(env, r, s, Pass(env, r, o, f, s).store)
  {
    if Enabled(r) {
      PassShape(env, r, o, f, s);
      ServiceFootprint(env, r, f.services, s.services);
      GatewayFootprint(env, r, o, f.gateways, s.gateways);
      HTTPRouteFootprint(env, r, o, GatewayPhase(env, r, o, f.gateways, s.gateways).written, f.httproute, s.httproutes);
    }
  }

  lemma ServiceFrame(env: Env, r: Route, calls: nat -> Call, m: map<Key, ServiceObj>, m': map<Key, ServiceObj>)
    requires SameOn(m, m', ServiceKeys(env, r))
    ensures var p, p' := ServicePhase(env, r, calls, m), ServicePhase(env, r, calls, m');
            SameOn(p.store, p'.store, ServiceKeys(env, r)) && p.error == p'.error
  {
    if Targets(env, r).Ok? {
      ServiceJobKeys(env, r, calls);
      LoopFrame(m, m', ServiceJobs(env, r, Targets(env, r).value, calls), calls, true, ServiceKeys(env, r));
    }
  }

  lemma GatewayFrame(env: Env, r: Route, o: Orders, calls: nat -> Call, m: map<Key, GatewayObj>,
      m': map<Key, GatewayObj>)
    requires ValidOrders(r, o) && SameOn(m, m', GatewayKeys(env, r))
    ensures var p, p' := GatewayPhase(env, r, o, calls, m), GatewayPhase(env, r, o, calls, m');
            SameOn(p.store, p'.store, GatewayKeys(env, r)) && p.error == p'.error && p.written == p'.written
  {
    if RouteDomains(env, r).Ok? {
      GatewayJobKeys(env, r, o);
      LoopFrame(m, m', GatewayJobs(env, r, RouteDomains(env, r).value, o.gateways), calls, false, GatewayKeys(env, r));
    }
  }

  lemma HTTPRouteFrame(env: Env, r: Route, o: Orders, gws: seq<Key>, call: Call, m: map<Key, HTTPRouteObj>,
      m': map<Key, HTTPRouteObj>)
    requires ValidOrders(r, o) && SameOn(m, m', HTTPRouteKeys(env, r))
    ensures var p, p' := HTTPRoutePhase(env, r, o, gws, call, m), HTTPRoutePhase(env, r, o, gws, call, m');
            && SameOn(p.store, p'.store, HTTPRouteKeys(env, r)) && p.error == p'.error
            && ReturnedHTTPRoute(env, r, p.store) == ReturnedHTTPRoute(env, r, p'.store)
  {
    assert SameAt(m, m', LookupKey(env, r)) && SameAt(m, m', HTTPRouteKey(r));
    var job := HTTPRouteJob(env, r, o, gws, call, m);
    assert job == HTTPRouteJob(env, r, o, gws, call, m');
    if job.Ok? {
      assert job.value.key in HTTPRouteKeys(env, r);
      SyncFrame(m, m', job.value.key, job.value.obj, call, HTTPRouteKeys(env, r));
      var p, p' := HTTPRoutePhase(env, r, o, gws, call, m), HTTPRoutePhase(env, r, o, gws, call, m');
      assert SameAt(p.store, p'.store, LookupKey(env, r)) && SameAt(p.store, p'.store, HTTPRouteKey(r));
    }
  }

  lemma SyncFrame<S, T>(m: Objs<S, T>, m': Objs<S, T>, k: Key, d: Obj<S, T>, call: Call, keys: set<Key>)
    requires k in keys && SameOn(m, m', keys)
    ensures var s, s' := SyncOne(m, k, d, call), SyncOne(m', k, d, call);
            SameOn(s.store, s'.store, keys) && s.wrote == s'.wrote && s.error == s'.error
  {
  }

  lemma PhasesFrame(env: Env, r: Route, o: Orders, f: Faults, s: Store, s': Store)
    requires ValidOrders(r, o) && AgreeOn(env, r, s, s')
    ensures var sp, sp' := ServicePhase(env, r, f.services, s.services), ServicePhase(env, r, f.services, s'.services);
            SameOn(sp.store, sp'.store, ServiceKeys(env, r)) && sp.error == sp'.error
    ensures var gp, gp' := GatewayPhase(env, r, o, f.gateways, s.gateways),
            GatewayPhase(env, r, o, f.gateways, s'.gateways);
            && SameOn(gp.store, gp'.store, GatewayKeys(env, r)) && gp.error == gp'.error && gp.written == gp'.written
            && var hp, hp' := HTTPRoutePhase(env, r, o, gp.written, f.httproute, s.httproutes),
                   HTTPRoutePhase(env, r, o, gp.written, f.httproute, s'.httproutes);
            && SameOn(hp.store, hp'.store, HTTPRouteKeys(env, r)) && hp.error == hp'.error
            && ReturnedHTTPRoute(env, r, hp.store) == ReturnedHTTPRoute(env, r, hp'.store)
  {
    ServiceFrame(env, r, f.services, s.services, s'.services);
    GatewayFrame(env, r, o, f.gateways, s.gateways, s'.gateways);
    HTTPRouteFrame(env, r, o, GatewayPhase(env, r, o, f.gateways, s.gateways).written,
      f.httproute, s.httproutes, s'.httproutes);
  }

  /** What a pass does depends only on what the store holds for its Route. */
  lemma PassFrame(env: Env, r: Route, o: Orders, f: Faults, s: Store, s': Store)
    requires ValidOrders(r, o) && AgreeOn(env, r, s, s')
    ensures AgreeOn(env, r, Pass(env, r, o, f, s).store, Pass(env, r, o, f, s').store)
  {
    if Enabled(r) {
      PassShape(env, r, o, f, s);
      PassShape(env, r, o, f, s');
      PhasesFrame(env, r, o, f, s, s');
    }
  }

  /** So do its error and what it reports in the Route's status. */
  lemma VerdictFrame(env: Env, r: Route, o: Orders, f: Faults, s: Store, s': Store)
    requires ValidOrders(r, o) && AgreeOn(env, r, s, s')
    ensures Pass(env, r, o, f, s).error == Pass(env, r, o, f, s').error
    ensures Pass(env, r, o, f, s).status == Pass(env, r, o, f, s').status
  {
    if Enabled(r) {
      PhasesFrame(env, r, o, f, s, s');
    }
  }

  // ---------- commutation ----------

  datatype Turn = Turn(env: Env, r: Route, o: Orders, f: Faults)

  ghost predicate Disjoint(t1: Turn, t2: Turn) {
    && ServiceKeys(t1.env, t1.r) !! ServiceKeys(t2.env, t2.r)
    && GatewayKeys(t1.env, t1.r) !! GatewayKeys(t2.env, t2.r)
    && HTTPRouteKeys(t1.env, t1.r) !! HTTPRouteKeys(t2.env, t2.r)
  }

  ghost function Take(t: Turn, s: Store): Store
    requires ValidOrders(t.r, t.o)
  {
    Pass(t.env, t.r, t.o, t.f, s).store
  }

  lemma TurnFootprint(t: Turn, s: Store)
    requires ValidOrders(t.r, t.o)
    ensures AgreeOutside(t.env, t.r, s, Take(t, s))
  {
    PassFootprint(t.env, t.r, t.o, t.f, s);
  }

  lemma TurnFrame(t: Turn, s: Store, s': Store)
    requires ValidOrders(t.r, t.o) && AgreeOn(t.env, t.r, s, s')
    ensures AgreeOn(t.env, t.r, Take(t, s), Take(t, s'))
  {
    PassFrame(t.env, t.r, t.o, t.f, s, s');
  }

  /** One map of the store under two steps in either order. */
  lemma MapsCommute<O>(m: map<Key, O>, a: map<Key, O>, b: map<Key, O>, ab: map<Key, O>, ba: map<Key, O>, ka: set<Key>,
      kb: set<Key>)
    requires ka !! kb
    requires SameOutside(m, a, ka) && SameOutside(m, b, kb)
    requires SameOutside(a, ab, kb) && SameOutside(b, ba, ka)
    requires SameOn(b, ab, kb) && SameOn(a, ba, ka)
    ensures ab == ba
  {
    forall k ensures SameAt(ab, ba, k) {
      if k in ka {
        assert SameAt(a, ba, k) && SameAt(a, ab, k);
      } else if k in kb {
        assert SameAt(b, ab, k) && SameAt(b, ba, k);
      } else {
        assert SameAt(m, a, k) && SameAt(m, b, k) && SameAt(a, ab, k) && SameAt(b, ba, k);
      }
    }
    SameEverywhere(ab, ba);
  }

  lemma SameEverywhere<O>(m: map<Key, O>, m': map<Key, O>)
    requires forall k :: SameAt(m, m', k)
    ensures m == m'
  {
    assert forall k :: k in m ==> SameAt(m, m', k);
    assert forall k :: k in m' ==> SameAt(m, m', k);
  }

  lemma OutsideIsOn(t1: Turn, t2: Turn, s: Store, s': Store)
    requires Disjoint(t1, t2) && AgreeOutside(t1.env, t1.r, s, s')
    ensures AgreeOn(t2.env, t2.r, s, s')
  {
  }

  /** Passes over Routes with disjoint footprints commute, whatever fails in either. */
  lemma PassesCommute(t1: Turn, t2: Turn, s: Store)
    requires ValidOrders(t1.r, t1.o) && ValidOrders(t2.r, t2.o) && Disjoint(t1, t2)
    ensures Take(t2, Take(t1, s)) == Take(t1, Take(t2, s))
  {
    var a, b := Take(t1, s), Take(t2, s);
    var ab, ba := Take(t2, a), Take(t1, b);
    TurnFootprint(t1, s);
    TurnFootprint(t2, s);
    TurnFootprint(t2, a);
    TurnFootprint(t1, b);
    OutsideIsOn(t1, t2, s, a);
    OutsideIsOn(t2, t1, s, b);
    TurnFrame(t2, s, a);
    TurnFrame(t1, s, b);
    StoresCommute(t1, t2, s, a, b, ab, ba);
  }

  lemma StoresCommute(t1: Turn, t2: Turn, s: Store, a: Store, b: Store, ab: Store, ba: Store)
    requires Disjoint(t1, t2)
    requires AgreeOutside(t1.env, t1.r, s, a) && AgreeOutside(t2.env, t2.r, s, b)
    requires AgreeOutside(t2.env, t2.r, a, ab) && AgreeOutside(t1.env, t1.r, b, ba)
    requires AgreeOn(t2.env, t2.r, b, ab) && AgreeOn(t1.env, t1.r, a, ba)
    ensures ab == ba
  {
    MapsCommute(s.services, a.services, b.services, ab.services, ba.services,
      ServiceKeys(t1.env, t1.r), ServiceKeys(t2.env, t2.r));
    MapsCommute(s.gateways, a.gateways, b.gateways, ab.gateways, ba.gateways,
      GatewayKeys(t1.env, t1.r), GatewayKeys(t2.env, t2.r));
    MapsCommute(s.httproutes, a.httproutes, b.httproutes, ab.httproutes, ba.httproutes,
      HTTPRouteKeys(t1.env, t1.r), HTTPRouteKeys(t2.env, t2.r));
  }
}
