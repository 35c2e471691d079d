/** The Gateway phase with its evident intent restored: Gateways found in sync are returned too. */
module Repaired {
  import opened Model
  import opened HostMaps
  import opened Domains
  import opened Names
  import opened Syncing
  import opened Resources
  import opened Loops
  import opened Passes
  import opened Desired

  /** As `Step`, but the key is appended whether or not the object had to be written. */
  function RepairedStep<S(==), T>(p: Phase<S, T>, job: Job<S, T>, call: Call): Phase<S, T> {
    var q := Step(p, job, call);
    if job.Ok? then q.(written := p.written + [job.value.key]) else q
  }

  function RepairedLoop<S(==), T>(m: Objs<S, T>, jobs: seq<Job<S, T>>, calls: nat -> Call): Phase<S, T> {
    if jobs == [] then Phase(m, [], None)
    else
      var p := RepairedLoop(m, Init(jobs), calls);
      if p.error.Some? then p else RepairedStep(p, Last(jobs), calls(|jobs| - 1))
  }

  function RepairedGatewayPhase(env: Env, r: Route, o: Orders, calls: nat -> Call, m: map<Key, GatewayObj>)
    : Phase<GatewaySpec, string>
  {
    match RouteDomains(env, r)
    case Err(e) => Phase(m, [], Some(e))
    case Ok(domains) => RepairedLoop(m, GatewayJobs(env, r, domains, o.gateways), calls)
  }

  ghost predicate KeysOf<S, T>(jobs: seq<Job<S, T>>, keys: seq<Key>) {
    |keys| == |jobs| && forall i :: 0 <= i < |jobs| ==> jobs[i].Ok? && keys[i] == jobs[i].value.key
  }

  /** The repair changes neither what is stored nor whether the loop fails, and a loop that finishes
      returns the key of every job in order. */
  lemma {:induction false} RepairedLoopReturnsAll<S, T>(m: Objs<S, T>, jobs: seq<Job<S, T>>, calls: nat -> Call)
    ensures var p, q := RepairedLoop(m, jobs, calls), Loop(m, jobs, calls, false);
            && p.store == q.store && p.error == q.error
            && (p.error.None? ==> KeysOf(jobs, p.written))
  {
    if jobs != [] {
      RepairedLoopReturnsAll(m, Init(jobs), calls);
      StepIgnoresWritten(RepairedLoop(m, Init(jobs), calls), Loop(m, Init(jobs), calls, false),
          Last(jobs), calls(|jobs| - 1));
      assert forall i :: 0 <= i < |jobs| - 1 ==> Init(jobs)[i] == jobs[i];
    }
  }

  lemma StepIgnoresWritten<S, T>(p: Phase<S, T>, q: Phase<S, T>, job: Job<S, T>, call: Call)
    requires p.store == q.store
    ensures Step(p, job, call).store == Step(q, job, call).store
    ensures p.error == q.error ==> Step(p, job, call).error == Step(q, job, call).error
  {
  }

  /** In every finished pass the repaired references are one per visibility, in the order visited;
      together they are exactly the Gateways of the Route; and none is repeated unless the Route's
      name contains its own digest. The Gateways stored are those of the original phase. */
  lemma RepairedRefsAreComplete(env: Env, r: Route, o: Orders, calls: nat -> Call, m: map<Key, GatewayObj>)
    requires ValidOrders(r, o) && RepairedGatewayPhase(env, r, o, calls, m).error.None?
    ensures GatewayPhase(env, r, o, calls, m).error.None?
    ensures GatewayPhase(env, r, o, calls, m).store == RepairedGatewayPhase(env, r, o, calls, m).store
    ensures GatewayVisibilities(r) <= env.gateways.Keys
    ensures var refs := RepairedGatewayPhase(env, r, o, calls, m).written;
            && |refs| == |o.gateways|
            && (forall i :: 0 <= i < |refs| ==>
                   o.gateways[i] in env.gateways && refs[i] == GatewayKey(env, r, o.gateways[i]))
            && (forall k :: k in refs <==> k in GatewayKeys(env, r))
            && (!HasOwnDigest(env, r) ==> forall i, j :: 0 <= i < j < |refs| ==> refs[i] != refs[j])
  {
    var jobs := GatewayJobs(env, r, RouteDomains(env, r).value, o.gateways);
    var refs := RepairedGatewayPhase(env, r, o, calls, m).written;
    RepairedLoopReturnsAll(m, jobs, calls);
    FinishedGatewaysAreConfigured(env, r, o, calls, m);
    RefsAreKeys(env, r, o, refs);
    if !HasOwnDigest(env, r) {
      RefsAreDistinct(env, r, o, refs);
    }
  }

  lemma RefsAreKeys(env: Env, r: Route, o: Orders, refs: seq<Key>)
    requires ValidOrders(r, o) && GatewayVisibilities(r) <= env.gateways.Keys && |refs| == |o.gateways|
    requires forall i :: 0 <= i < |refs| ==>
                   o.gateways[i] in env.gateways && refs[i] == GatewayKey(env, r, o.gateways[i])
    ensures forall k :: k in refs <==> k in GatewayKeys(env, r)
  {
    forall k | k in refs ensures k in GatewayKeys(env, r) {
      var i :| 0 <= i < |refs| && refs[i] == k;
      assert o.gateways[i] in o.gateways;
      assert o.gateways[i] in Configured(env, r);
    }
    forall k | k in GatewayKeys(env, r) ensures k in refs {
      var v := VisibilityAt(env, r, k);
      assert v in o.gateways;
      var i :| 0 <= i < |o.gateways| && o.gateways[i] == v;
      assert refs[i] == k;
    }
  }

  lemma RefsAreDistinct(env: Env, r: Route, o: Orders, refs: seq<Key>)
    requires ValidOrders(r, o) && !HasOwnDigest(env, r) && |refs| == |o.gateways|
    requires forall i :: 0 <= i < |refs| ==>
                   o.gateways[i] in env.gateways && refs[i] == GatewayKey(env, r, o.gateways[i])
    ensures forall i, j :: 0 <= i < j < |refs| ==> refs[i] != refs[j]
  {
    forall i, j | 0 <= i < j < |refs| ensures refs[i] != refs[j] {
      assert o.gateways[i] in o.gateways && o.gateways[j] in o.gateways;
      KeysDiffer(env, r, o.gateways[i], o.gateways[j]);
    }
  }

  lemma KeysDiffer(env: Env, r: Route, v: string, v': string)
    requires !HasOwnDigest(env, r) && v != v'
    requires v in GatewayVisibilities(r) && v' in GatewayVisibilities(r) && v in env.gateways && v' in env.gateways
    ensures GatewayKey(env, r, v) != GatewayKey(env, r, v')
  {
    VisibilityNamesCollide(env.md5, r, Visibility(r));
  }
}
