/** Runs of the controller: reconciles and finalizations of any Routes in any interleaving, the
    configuration and the Routes changing freely in between. */
module Runs {
  import opened Model
  import opened Domains
  import opened Names
  import opened Syncing
  import opened Resources
  import opened Loops
  import opened Passes
  import opened Desired
  import opened Convergence
  import opened Finalization
  import opened Footprint

  datatype Action =
    | Reconcile(env: Env, r: Route, o: Orders, f: Faults)
    | Finalize(r: Route, listFails: bool, listed: seq<Key>, calls: nat -> Call)

  ghost predicate ValidAction(a: Action, s: Store) {
    match a
    case Reconcile(_, r, o, _) => ValidOrders(r, o)
    case Finalize(r, _, listed, _) => Lists(listed, Labelled(s.gateways, r))
  }

  ghost function Act(a: Action, s: Store): Store
    requires ValidAction(a, s)
  {
    match a
    case Reconcile(env, r, o, f) => Pass(env, r, o, f, s).store
    case Finalize(_, listFails, listed, calls) =>
      if listFails then s else s.(gateways := DeleteAll(s.gateways, listed, calls).store)
  }

  ghost predicate ValidRun(run: seq<Action>, s: Store) {
    run == [] || (ValidAction(run[0], s) && ValidRun(run[1..], Act(run[0], s)))
  }

  ghost function Exec(run: seq<Action>, s: Store): Store
    requires ValidRun(run, s)
  {
    if run == [] then s else Exec(run[1..], Act(run[0], s))
  }

  // ---------- finalization ----------

  ghost predicate NoCallFails(a: Action)
    requires a.Finalize?
  {
    !a.listFails && forall i :: 0 <= i < |a.listed| ==> a.calls(i).Fine?
  }

  /** A finalization none of whose calls fails removes the Gateways labelled for the Route and does
      nothing else. If it cannot even list them it does nothing at all. */
  lemma FinalizeActs(a: Action, s: Store)
    requires a.Finalize? && ValidAction(a, s)
    ensures NoCallFails(a) ==> Act(a, s) == s.(gateways := s.gateways - Labelled(s.gateways, a.r))
    ensures NoCallFails(a) ==> Labelled(Act(a, s).gateways, a.r) == {}
    ensures a.listFails ==> Act(a, s) == s
  {
    FinalizeCompleteness(s.gateways, a.r, a.listed, a.calls);
  }

  // ---------- ownership ----------

  /** `g` is, under `k`, what a pass over `r` with configuration `env` writes. */
  ghost predicate WrittenFor(env: Env, r: Route, k: Key, g: GatewayObj) {
    && RouteDomains(env, r).Ok?
    && exists v :: v in GatewayVisibilities(r) && v in env.gateways
            && k == GatewayKey(env, r, v) && InSync(g, DesiredGatewayFor(env, r, v))
  }

  ghost predicate WrittenBy(a: Action, k: Key, g: GatewayObj) {
    a.Reconcile? && WrittenFor(a.env, a.r, k, g)
  }

  /** A Gateway written for a Route carries its name and namespace and is named after it. */
  lemma WrittenCarriesOwner(env: Env, r: Route, k: Key, g: GatewayObj)
    requires WrittenFor(env, r, k, g)
    ensures g.labels == ChildLabels(r) && Selects(OwnerLabels(r), g.labels)
    ensures exists v :: v in Visibilities(r) && k.name == GatewayName(env.md5, r, v)
  {
  }

  lemma JobWritesFor(env: Env, r: Route, o: Orders, k: Key, g: GatewayObj)
    requires ValidOrders(r, o) && RouteDomains(env, r).Ok?
    requires FromJob(GatewayJobs(env, r, RouteDomains(env, r).value, o.gateways), k, g)
    ensures WrittenFor(env, r, k, g)
  {
    var jobs := GatewayJobs(env, r, RouteDomains(env, r).value, o.gateways);
    var i :| 0 <= i < |jobs| && jobs[i].Ok? && jobs[i].value.key == k && InSync(g, jobs[i].value.obj);
    assert o.gateways[i] in o.gateways;
  }

  lemma GatewayPhaseOrigin(env: Env, r: Route, o: Orders, calls: nat -> Call, m: map<Key, GatewayObj>, k: Key)
    requires ValidOrders(r, o)
    ensures var m' := GatewayPhase(env, r, o, calls, m).store;
            SameAt(m, m', k) || (k in m' && WrittenFor(env, r, k, m'[k]))
  {
    if RouteDomains(env, r).Ok? {
      var m' := GatewayPhase(env, r, o, calls, m).store;
      LoopOrigin(m, GatewayJobs(env, r, RouteDomains(env, r).value, o.gateways), calls, false, k);
      if !SameAt(m, m', k) {
        JobWritesFor(env, r, o, k, m'[k]);
      }
    }
  }

  lemma ActionOrigin(a: Action, s: Store, k: Key)
    requires ValidAction(a, s) && k in Act(a, s).gateways
    ensures SameAt(s.gateways, Act(a, s).gateways, k) || WrittenBy(a, k, Act(a, s).gateways[k])
  {
    match a
    case Reconcile(env, r, o, f) =>
      if Enabled(r) {
        PassShape(env, r, o, f, s);
        GatewayPhaseOrigin(env, r, o, f.gateways, s.gateways, k);
      }
    case Finalize(r, listFails, listed, calls) =>
      DeletionRemovesListed(s.gateways, listed, calls);
  }

  /** No action of the run changes what is stored under `k`. */
  ghost predicate Unchanged(run: seq<Action>, s: Store, k: Key)
    requires ValidRun(run, s)
    decreases |run|
  {
    run == [] || (SameAt(s.gateways, Act(run[0], s).gateways, k) && Unchanged(run[1..], Act(run[0], s), k))
  }

  /** Some reconcile of the run writes what is stored under `k`, and no later action changes it. */
  ghost predicate LastWritten(run: seq<Action>, s: Store, k: Key)
    requires ValidRun(run, s)
    decreases |run|
  {
    run != [] && (var s' := Act(run[0], s);
      || (k in s'.gateways && WrittenBy(run[0], k, s'.gateways[k]) && Unchanged(run[1..], s', k))
      || LastWritten(run[1..], s', k))
  }

  /** Ownership over runs: every Gateway at the end of a run has been there unchanged from the start,
      or is unchanged since a reconcile in the run wrote it. That includes Gateways that a change of
      visibility or configuration has orphaned. */
  lemma {:induction false} OwnershipOverRuns(run: seq<Action>, s: Store, k: Key)
    requires ValidRun(run, s) && k in Exec(run, s).gateways
    ensures Unchanged(run, s, k) || LastWritten(run, s, k)
    decreases |run|
  {
    if run != [] {
      var s' := Act(run[0], s);
      OwnershipOverRuns(run[1..], s', k);
      if Unchanged(run[1..], s', k) {
        UnchangedToTheEnd(run[1..], s', k);
        ActionOrigin(run[0], s, k);
      }
    }
  }

  lemma {:induction false} UnchangedToTheEnd(run: seq<Action>, s: Store, k: Key)
    requires ValidRun(run, s) && Unchanged(run, s, k)
    ensures SameAt(s.gateways, Exec(run, s).gateways, k)
    decreases |run|
  {
    if run != [] {
      UnchangedToTheEnd(run[1..], Act(run[0], s), k);
    }
  }

  /** The Gateway is then still as that reconcile makes it. */
  lemma {:induction false} LastWriterOwns(run: seq<Action>, s: Store, k: Key)
    requires ValidRun(run, s) && LastWritten(run, s, k)
    ensures k in Exec(run, s).gateways
    ensures exists i :: 0 <= i < |run| && WrittenBy(run[i], k, Exec(run, s).gateways[k])
    decreases |run|
  {
    var s' := Act(run[0], s);
    if k in s'.gateways && WrittenBy(run[0], k, s'.gateways[k]) && Unchanged(run[1..], s', k) {
      UnchangedToTheEnd(run[1..], s', k);
    } else {
      LastWriterOwns(run[1..], s', k);
      var i :| 0 <= i < |run[1..]| && WrittenBy(run[1..][i], k, Exec(run, s).gateways[k]);
      assert run[i + 1] == run[1..][i];
    }
  }

  // ---------- what is finalized stays gone ----------

  lemma ForeignActionLabelsNothing(a: Action, s: Store, r: Route)
    requires ValidAction(a, s) && Labelled(s.gateways, r) == {}
    requires a.Reconcile? ==> !SameRoute(r, a.r)
    ensures Labelled(Act(a, s).gateways, r) == {}
  {
    var m' := Act(a, s).gateways;
    forall k | k in m' ensures !Selects(OwnerLabels(r), m'[k].labels) {
      ActionOrigin(a, s, k);
      if SameAt(s.gateways, m', k) {
        assert k !in Labelled(s.gateways, r);
      } else {
        WrittenCarriesOwner(a.env, a.r, k, m'[k]);
        OwnerSelectorIsExact(r, a.r);
      }
    }
  }

  /** No Gateway labelled for a Route reappears in any run that does not reconcile that Route. */
  lemma {:induction false} NoneReappears(run: seq<Action>, s: Store, r: Route)
    requires ValidRun(run, s) && Labelled(s.gateways, r) == {}
    requires forall i :: 0 <= i < |run| && run[i].Reconcile? ==> !SameRoute(r, run[i].r)
    ensures Labelled(Exec(run, s).gateways, r) == {}
  {
    if run != [] {
      ForeignActionLabelsNothing(run[0], s, r);
      NoneReappears(run[1..], Act(run[0], s), r);
    }
  }

  /** After a finalization without failing calls no Gateway of the Route exists, until it is
      reconciled. */
  lemma FinalizedStaysGone(run: seq<Action>, s: Store, r: Route)
    requires ValidRun(run, s) && run != [] && run[0].Finalize? && run[0].r == r && NoCallFails(run[0])
    requires forall i :: 1 <= i < |run| && run[i].Reconcile? ==> !SameRoute(r, run[i].r)
    ensures Labelled(Exec(run, s).gateways, r) == {}
  {
    FinalizeActs(run[0], s);
    NoneReappears(run[1..], Act(run[0], s), r);
  }

  // ---------- two Routes sharing a Gateway ----------

  ghost predicate SharesGateway(t: Turn, k: Key) {
    && Sound(t.env, t.r) && ValidOrders(t.r, t.o) && Clean(t.f)
    && k in GatewayKeys(t.env, t.r)
  }

  lemma TurnClaimsGateway(t: Turn, s: Store, k: Key)
    requires SharesGateway(t, k)
    ensures k in Take(t, s).gateways && Take(t, s).gateways[k].labels == ChildLabels(t.r)
  {
    PassShape(t.env, t.r, t.o, t.f, s);
    CompilableServices(t.env, t.r);
    CleanServicesSucceed(t.env, t.r, t.f.services, s.services);
    CleanGatewaysSucceed(t.env, t.r, t.o, t.f.gateways, s.gateways);
    GatewaysMove(t.env, t.r, t.o, t.f.gateways, s.gateways, s.gateways);
    assert k !in Pending(Take(t, s).gateways, DesiredGateways(t.env, t.r));
  }

  lemma ClaimsDiffer(t: Turn, t': Turn, s: Store, k: Key)
    requires SharesGateway(t, k) && SharesGateway(t', k) && !SameRoute(t.r, t'.r)
    ensures var m, m' := Take(t, s).gateways, Take(t', Take(t, s)).gateways;
            Rewritten(m, m', k)
  {
    TurnClaimsGateway(t, s, k);
    TurnClaimsGateway(t', Take(t, s), k);
    OwnerSelectorIsExact(t.r, t'.r);
    OwnerSelectorIsExact(t.r, t.r);
  }

  /** Passes that all claim one Gateway, no two in a row for the same Route. */
  ghost predicate Alternating(t: Turn, ts: seq<Turn>, k: Key)
    decreases |ts|
  {
    && SharesGateway(t, k)
    && (ts != [] ==> !SameRoute(t.r, ts[0].r) && Alternating(ts[0], ts[1..], k))
  }

  ghost predicate Rewritten(m: map<Key, GatewayObj>, m': map<Key, GatewayObj>, k: Key) {
    k in m && k in m' && m[k] != m'[k]
  }

  ghost predicate EveryPassRewrites(ts: seq<Turn>, s: Store, k: Key) {
    ts != [] ==> && ValidOrders(ts[0].r, ts[0].o)
                 && Rewritten(s.gateways, Take(ts[0], s).gateways, k)
                 && EveryPassRewrites(ts[1..], Take(ts[0], s), k)
  }

  /** Thrash: when passes over distinct Routes that share a Gateway alternate, every pass after
      the first rewrites that Gateway, for ever and from any store. */
  lemma {:induction false} SharedGatewayThrashes(t: Turn, ts: seq<Turn>, s: Store, k: Key)
    requires Alternating(t, ts, k)
    ensures EveryPassRewrites(ts, Take(t, s), k)
    decreases |ts|
  {
    if ts != [] {
      ClaimsDiffer(t, ts[0], s, k);
      SharedGatewayThrashes(ts[0], ts[1..], Take(t, s), k);
    }
  }

  /** Under a configured Gateway namespace, as by default, Routes that differ by a hyphenated piece
      of name and namespace share their cluster-local Gateway, hashed or not. */
  lemma ShiftedRoutesShareGateways(env: Env, r1: Route, r2: Route)
    requires Sound(env, r1) && Sound(env, r2) && r1.traffic != [] && r2.traffic != []
    requires Shifted(r1, r2) && CLUSTER_LOCAL in env.gateways && env.gateways[CLUSTER_LOCAL].namespace != ""
    ensures !SameRoute(r1, r2)
    ensures var k := GatewayKey(env, r1, CLUSTER_LOCAL); k in GatewayKeys(env, r1) && k in GatewayKeys(env, r2)
  {
    assert |r1.name| < |r2.name|;
    ParentsCollide(r1, r2);
    assert GatewayParent(r1) == GatewayParent(r2);
    assert CLUSTER_LOCAL in Configured(env, r1) && CLUSTER_LOCAL in Configured(env, r2);
  }

  predicate ShortNames(r: Route) {
    ShortName(r, Visibility(r)) && ShortName(r, CLUSTER_LOCAL)
  }

  /** The two Gateways have clashing names in one namespace. */
  ghost predicate GatewaysClash(env: Env, r1: Route, v1: string, r2: Route, v2: string) {
    && v1 in Configured(env, r1) && v2 in Configured(env, r2)
    && GatewayNamespace(env, r1, v1) == GatewayNamespace(env, r2, v2) && NamesClash(r1, v1, r2, v2)
  }

  lemma KeysEqualWhenClashing(env: Env, r1: Route, v1: string, r2: Route, v2: string)
    requires ShortNames(r1) && ShortNames(r2) && v1 in Configured(env, r1) && v2 in Configured(env, r2)
    ensures GatewayKey(env, r1, v1) == GatewayKey(env, r2, v2) <==> GatewaysClash(env, r1, v1, r2, v2)
  {
    GatewayNamesCollide(env.md5, r1, v1, r2, v2);
  }

  /** Which pairs of Routes share a Gateway key: those with clashing Gateways, over all pairs of their
      visibilities. */
  lemma WhenRoutesShareGateways(env: Env, r1: Route, r2: Route)
    requires ShortNames(r1) && ShortNames(r2)
    ensures GatewayKeys(env, r1) * GatewayKeys(env, r2) != {} <==> exists v1, v2 :: GatewaysClash(env, r1, v1, r2, v2)
  {
    if GatewayKeys(env, r1) * GatewayKeys(env, r2) != {} {
      var k :| k in GatewayKeys(env, r1) && k in GatewayKeys(env, r2);
      var v1, v2 := VisibilityAt(env, r1, k), VisibilityAt(env, r2, k);
      KeysEqualWhenClashing(env, r1, v1, r2, v2);
      assert GatewaysClash(env, r1, v1, r2, v2);
    }
    if v1, v2 :| GatewaysClash(env, r1, v1, r2, v2) {
      KeysEqualWhenClashing(env, r1, v1, r2, v2);
      var k := GatewayKey(env, r1, v1);
      assert k in GatewayKeys(env, r1);
      assert GatewayKey(env, r2, v2) in GatewayKeys(env, r2);
      assert k in GatewayKeys(env, r1) * GatewayKeys(env, r2);
    }
  }

  /** Both Routes have a Gateway for `v`, in one namespace. */
  predicate MeetAt(env: Env, r1: Route, r2: Route, v: string) {
    && v in Configured(env, r1) && v in Configured(env, r2)
    && GatewayNamespace(env, r1, v) == GatewayNamespace(env, r2, v)
  }

  /** With built-in visibilities only the same and shifted Routes share Gateways. */
  lemma WhenBuiltInRoutesShareGateways(env: Env, r1: Route, r2: Route)
    requires ShortNames(r1) && ShortNames(r2) && BuiltIn(Visibility(r1)) && BuiltIn(Visibility(r2))
    ensures GatewayKeys(env, r1) * GatewayKeys(env, r2) != {}
       <==> ((SameRoute(r1, r2) || Shifted(r1, r2) || Shifted(r2, r1)) && exists v :: MeetAt(env, r1, r2, v))
  {
    WhenRoutesShareGateways(env, r1, r2);
    if v1, v2 :| GatewaysClash(env, r1, v1, r2, v2) {
      BuiltInClash(r1, v1, r2, v2);
      assert MeetAt(env, r1, r2, v1);
    }
    if v :| MeetAt(env, r1, r2, v) {
      BuiltInClash(r1, v, r2, v);
      assert SameRoute(r1, r2) || Shifted(r1, r2) || Shifted(r2, r1) ==> GatewaysClash(env, r1, v, r2, v);
    }
  }

  lemma BuiltInClash(r1: Route, v1: string, r2: Route, v2: string)
    requires BuiltIn(v1) && BuiltIn(v2)
    ensures NamesClash(r1, v1, r2, v2) <==> v1 == v2 && (SameRoute(r1, r2) || Shifted(r1, r2) || Shifted(r2, r1))
  {
    BuiltInsDoNotMove(GatewayParent(r1), v1, GatewayParent(r2), v2);
    BuiltInsDoNotMove(GatewayParent(r2), v2, GatewayParent(r1), v1);
  }
}
