/** One pass of the controller over a Route, as a function of the store: the three phases of
    `ReconcileKind` in sequence, and `FinalizeKind`. */
module Passes {
  import opened Model
  import opened HostMaps
  import opened Domains
  import opened Names
  import opened Syncing
  import opened Resources
  import opened Loops
  import Readiness

  /** The fate of the API calls of one pass. A pass makes at most one write for each position of
      a loop, so one verdict per position covers every pattern of failures. */
  datatype Faults = Faults(services: nat -> Call, gateways: nat -> Call, httproute: Call)

  ghost predicate Clean(f: Faults) {
    NoFaults(f.services) && NoFaults(f.gateways) && f.httproute.Fine?
  }

  // ---------- placeholder Services ----------

  function TargetNames(env: Env, r: Route): (rs: seq<Result<string>>)
    ensures |rs| == |r.traffic|
  {
    seq(|r.traffic|, i requires 0 <= i < |r.traffic| => HostnameFromTemplate(env, r.name, r.traffic[i].tag))
  }

  function Targets(env: Env, r: Route): Result<seq<string>> {
    Collect(TargetNames(env, r))
  }

  /** A failed read comes before the object is made. */
  function ServiceJob(env: Env, r: Route, target: string, call: Call): Job<ServiceSpec, string> {
    if call.ReadFails? then Err(ApiError) else MakePlaceholderService(env, r, target)
  }

  function ServiceJobs(env: Env, r: Route, targets: seq<string>, calls: nat -> Call): seq<Job<ServiceSpec, string>> {
    seq(|targets|, i requires 0 <= i < |targets| => ServiceJob(env, r, targets[i], calls(i)))
  }

  function ServicePhase(env: Env, r: Route, calls: nat -> Call, m: map<Key, ServiceObj>): Phase<ServiceSpec, string> {
    match Targets(env, r)
    case Err(e) => Phase(m, [], Some(e))
    case Ok(targets) => Loop(m, ServiceJobs(env, r, targets, calls), calls, true)
  }

  // ---------- Gateways ----------

  function GatewayJobs(env: Env, r: Route, domains: HostMap, order: seq<string>): seq<Job<GatewaySpec, string>> {
    seq(|order|, i requires 0 <= i < |order| => MakeGateway(env, r, Hosts(domains, order[i]), order[i]))
  }

  function GatewayPhase(env: Env, r: Route, o: Orders, calls: nat -> Call,
      m: map<Key, GatewayObj>): Phase<GatewaySpec, string> {
    match RouteDomains(env, r)
    case Err(e) => Phase(m, [], Some(e))
    case Ok(domains) => Loop(m, GatewayJobs(env, r, domains, o.gateways), calls, false)
  }

  // ---------- HTTPRoute ----------

  /** The key under which the HTTPRoute is looked up. */
  function LookupKey(env: Env, r: Route): Key {
    Key(r.ns, ChildName(env.md5, r.name, ""))
  }

  function HTTPRouteJob(env: Env, r: Route, o: Orders, gateways: seq<Key>, call: Call,
      m: map<Key, HTTPRouteObj>): Job<HTTPRouteSpec, HTTPRouteStatus>
    requires |o.hosts| == |r.traffic|
  {
    if call.ReadFails? then Err(ApiError)
    else
      var desired :- MakeHTTPRoute(env, r, o, gateways);
      if LookupKey(env, r) in m then Ok(Named(LookupKey(env, r), desired))
      else if HTTPRouteKey(r) in m then Err(ApiError)
      else Ok(Named(HTTPRouteKey(r), desired))
  }

  function HTTPRoutePhase(env: Env, r: Route, o: Orders, gateways: seq<Key>, call: Call,
      m: map<Key, HTTPRouteObj>): Phase<HTTPRouteSpec, HTTPRouteStatus>
    requires |o.hosts| == |r.traffic|
  {
    Step(Phase(m, [], None), HTTPRouteJob(env, r, o, gateways, call, m), call)
  }

  /** The HTTPRoute that the phase returns. */
  function ReturnedHTTPRoute(env: Env, r: Route, m: map<Key, HTTPRouteObj>): Option<HTTPRouteObj> {
    if LookupKey(env, r) in m then Some(m[LookupKey(env, r)])
    else if HTTPRouteKey(r) in m then Some(m[HTTPRouteKey(r)])
    else None
  }

  // ---------- the whole pass ----------

  datatype StatusChange = Untouched | MarkedReady | MarkedNotConfigured

  datatype Outcome = Outcome(store: Store, status: StatusChange, error: Option<Error>)

  /** The phases in sequence: an error in one ends the pass before the next. */
  function InSequence(s: Store, sp: Phase<ServiceSpec, string>, gp: Phase<GatewaySpec, string>,
      hp: Phase<HTTPRouteSpec, HTTPRouteStatus>, ready: bool): Outcome {
    if sp.error.Some? then Outcome(s.(services := sp.store), Untouched, sp.error)
    else if gp.error.Some? then Outcome(s.(services := sp.store, gateways := gp.store), Untouched, gp.error)
    else if hp.error.Some? then Outcome(Store(sp.store, gp.store, hp.store), Untouched, hp.error)
    else Outcome(Store(sp.store, gp.store, hp.store), if ready then MarkedReady else MarkedNotConfigured, None)
  }

  ghost predicate ReturnsReady(env: Env, r: Route, m: map<Key, HTTPRouteObj>) {
    var returned := ReturnedHTTPRoute(env, r, m);
    returned.Some? && Readiness.Ready(returned.value.other)
  }

  ghost function Pass(env: Env, r: Route, o: Orders, f: Faults, s: Store): Outcome
    requires |o.hosts| == |r.traffic|
  {
    if !Enabled(r) then Outcome(s, Untouched, None)
    else
      var sp := ServicePhase(env, r, f.services, s.services);
      var gp := GatewayPhase(env, r, o, f.gateways, s.gateways);
      var hp := HTTPRoutePhase(env, r, o, gp.written, f.httproute, s.httproutes);
      InSequence(s, sp, gp, hp, ReturnsReady(env, r, hp.store))
  }

  lemma SequenceShape(s: Store, sp: Phase<ServiceSpec, string>, gp: Phase<GatewaySpec, string>,
      hp: Phase<HTTPRouteSpec, HTTPRouteStatus>, ready: bool)
    ensures var s' := InSequence(s, sp, gp, hp, ready).store;
            && s'.services == sp.store
            && s'.gateways == (if sp.error.Some? then s.gateways else gp.store)
            && s'.httproutes == (if sp.error.Some? || gp.error.Some? then s.httproutes else hp.store)
  {
  }

  /** What a pass leaves in each of the three maps. */
  lemma PassShape(env: Env, r: Route, o: Orders, f: Faults, s: Store)
    requires Enabled(r) && |o.hosts| == |r.traffic|
    ensures var s' := Pass(env, r, o, f, s).store;
            var sp, gp := ServicePhase(env, r, f.services, s.services), GatewayPhase(env, r, o, f.gateways, s.gateways);
            && s'.services == sp.store
            && s'.gateways == (if sp.error.Some? then s.gateways else gp.store)
            && s'.httproutes == (if sp.error.Some? || gp.error.Some? then s.httproutes
                                 else HTTPRoutePhase(env, r, o, gp.written, f.httproute, s.httproutes).store)
  {
    var sp := ServicePhase(env, r, f.services, s.services);
    var gp := GatewayPhase(env, r, o, f.gateways, s.gateways);
    var hp := HTTPRoutePhase(env, r, o, gp.written, f.httproute, s.httproutes);
    SequenceShape(s, sp, gp, hp, ReturnsReady(env, r, hp.store));
  }

  // ---------- finalization ----------

  function Labelled(m: map<Key, GatewayObj>, r: Route): set<Key> {
    set k | k in m && Selects(OwnerLabels(r), m[k].labels)
  }

  /** The Gateways a finalization deletes: all that are labelled for the Route, listed in some
      order, up to the first failure. */
  datatype Deletion = Deletion(store: map<Key, GatewayObj>, error: Option<Error>)

  function DeleteAll(m: map<Key, GatewayObj>, listed: seq<Key>, calls: nat -> Call): Deletion {
    if listed == [] then Deletion(m, None)
    else
      var p := DeleteAll(m, Init(listed), calls);
      if p.error.Some? then p
      else match calls(|listed| - 1)
        case Fine => Deletion(p.store - {Last(listed)}, None)
        case WriteLost => Deletion(p.store - {Last(listed)}, Some(ApiError))
        case _ => Deletion(p.store, Some(ApiError))
  }

  ghost predicate Lists(listed: seq<Key>, keys: set<Key>) {
    && (forall k :: k in listed <==> k in keys)
    && (forall i, j :: 0 <= i < j < |listed| ==> listed[i] != listed[j])
  }
}
