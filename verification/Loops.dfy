/** The loop over a list of desired objects that the Service and the Gateway reconcilers share,
    as a function, and what it does to a store under any pattern of API failures. */
module Loops {
  import opened Model
  import opened HostMaps
  import opened Syncing
  import opened Resources

  /** One iteration's work: an object to bring in sync, or the error that making it raises. */
  type Job<+S, +T> = Result<Named<Obj<S, T>>>

  /** The state of a loop: the store, the keys written so far, and the error that ended it. */
  datatype Phase<S, T> = Phase(store: Objs<S, T>, written: seq<Key>, error: Option<Error>)

  function Step<S(==), T>(p: Phase<S, T>, job: Job<S, T>, call: Call): Phase<S, T> {
    match job
    case Err(e) => p.(error := Some(e))
    case Ok(Named(k, d)) =>
      var s := SyncOne(p.store, k, d, call);
      Phase(s.store, if s.wrote then p.written + [k] else p.written, s.error)
  }

  /** The loop has returned: on an error, or after its first write if it stops there. */
  predicate Stopped<S, T>(p: Phase<S, T>, once: bool) {
    p.error.Some? || (once && p.written != [])
  }

  function Loop<S(==), T>(m: Objs<S, T>, jobs: seq<Job<S, T>>, calls: nat -> Call, once: bool): Phase<S, T> {
    if jobs == [] then Phase(m, [], None)
    else
      var p := Loop(m, Init(jobs), calls, once);
      if Stopped(p, once) then p else Step(p, Last(jobs), calls(|jobs| - 1))
  }

  lemma {:induction false} StoppedForGood<S, T>(m: Objs<S, T>, jobs: seq<Job<S, T>>, calls: nat -> Call, once: bool,
      n: nat)
    requires n <= |jobs| && Stopped(Loop(m, jobs[..n], calls, once), once)
    ensures Loop(m, jobs, calls, once) == Loop(m, jobs[..n], calls, once)
  {
    if n == |jobs| {
      assert jobs[..n] == jobs;
    } else {
      assert Init(jobs)[..n] == jobs[..n];
      StoppedForGood(m, Init(jobs), calls, once, n);
    }
  }

  lemma LoopNext<S, T>(m: Objs<S, T>, jobs: seq<Job<S, T>>, calls: nat -> Call, once: bool, n: nat)
    requires n < |jobs|
    ensures var p := Loop(m, jobs[..n], calls, once);
            Loop(m, jobs[..n + 1], calls, once) == if Stopped(p, once) then p else Step(p, jobs[n], calls(n))
  {
    assert Init(jobs[..n + 1]) == jobs[..n] && Last(jobs[..n + 1]) == jobs[n];
  }

  // ---------- loops towards a consistent set of desired objects ----------

  /** Every job puts what `desired` says for its key. */
  ghost predicate Serves<S, T>(jobs: seq<Job<S, T>>, desired: Objs<S, T>) {
    forall i :: 0 <= i < |jobs| && jobs[i].Ok? ==>
      jobs[i].value.key in desired && desired[jobs[i].value.key] == jobs[i].value.obj
  }

  /** Every desired object has a job. */
  ghost predicate Covers<S, T>(jobs: seq<Job<S, T>>, desired: Objs<S, T>) {
    && (forall i :: 0 <= i < |jobs| ==> jobs[i].Ok?)
    && (forall k :: k in desired ==> exists i :: 0 <= i < |jobs| && jobs[i].Ok? && jobs[i].value.key == k)
  }

  ghost predicate NoFaults(calls: nat -> Call) {
    forall i: nat :: calls(i).Fine?
  }

  lemma StepTowards<S, T>(m0: Objs<S, T>, p: Phase<S, T>, job: Job<S, T>, call: Call, desired: Objs<S, T>)
    requires job.Ok? ==> job.value.key in desired && desired[job.value.key] == job.value.obj
    ensures Toward(m0, p.store, desired) ==> Toward(m0, Step(p, job, call).store, desired)
    ensures Pending(Step(p, job, call).store, desired) <= Pending(p.store, desired)
    ensures job.Ok? && Step(p, job, call).error.None? ==> job.value.key !in Pending(Step(p, job, call).store, desired)
  {
    if job.Ok? {
      var k := job.value.key;
      if Toward(m0, p.store, desired) {
        PutStaysToward(m0, p.store, desired, k);
      }
      PutSettles(p.store, desired, k);
    }
  }

  /** Whatever fails, a loop moves the store towards the limit and takes nothing out of sync. */
  lemma {:induction false} LoopTowards<S, T>(m0: Objs<S, T>, m: Objs<S, T>, jobs: seq<Job<S, T>>, calls: nat -> Call,
      once: bool, desired: Objs<S, T>)
    requires Serves(jobs, desired)
    ensures var p := Loop(m, jobs, calls, once);
            && (Toward(m0, m, desired) ==> Toward(m0, p.store, desired))
            && Pending(p.store, desired) <= Pending(m, desired)
  {
    if jobs != [] {
      LoopTowards(m0, m, Init(jobs), calls, once, desired);
      StepTowards(m0, Loop(m, Init(jobs), calls, once), Last(jobs), calls(|jobs| - 1), desired);
    }
  }

  /** A loop that reaches its end has brought the object of every job in sync. */
  lemma {:induction false} LoopSettles<S, T>(m: Objs<S, T>, jobs: seq<Job<S, T>>, calls: nat -> Call,
      desired: Objs<S, T>)
    requires Serves(jobs, desired) && Loop(m, jobs, calls, false).error.None?
    ensures forall i :: 0 <= i < |jobs| ==>
              jobs[i].Ok? && jobs[i].value.key !in Pending(Loop(m, jobs, calls, false).store, desired)
  {
    if jobs != [] {
      var p := Loop(m, Init(jobs), calls, false);
      LoopSettles(m, Init(jobs), calls, desired);
      StepTowards(m, p, Last(jobs), calls(|jobs| - 1), desired);
      forall i | 0 <= i < |jobs| - 1
        ensures jobs[i].Ok? && jobs[i].value.key !in Pending(Loop(m, jobs, calls, false).store, desired)
      {
        assert jobs[i] == Init(jobs)[i];
      }
    }
  }

  lemma LoopReachesLimit<S, T>(m0: Objs<S, T>, m: Objs<S, T>, jobs: seq<Job<S, T>>, calls: nat -> Call,
      desired: Objs<S, T>)
    requires Serves(jobs, desired) && Covers(jobs, desired) && Toward(m0, m, desired)
    requires Loop(m, jobs, calls, false).error.None?
    ensures Pending(Loop(m, jobs, calls, false).store, desired) == {}
    ensures Loop(m, jobs, calls, false).store == Limit(m0, desired)
  {
    var m' := Loop(m, jobs, calls, false).store;
    LoopTowards(m0, m, jobs, calls, false, desired);
    LoopSettles(m, jobs, calls, desired);
    forall k | k in desired ensures k !in Pending(m', desired) {
      var i :| 0 <= i < |jobs| && jobs[i].Ok? && jobs[i].value.key == k;
    }
    SettledIsLimit(m0, m', desired);
  }

  /** With everything in sync a loop writes nothing, whatever fails. */
  lemma {:induction false} LoopIdles<S, T>(m: Objs<S, T>, jobs: seq<Job<S, T>>, calls: nat -> Call, once: bool,
      desired: Objs<S, T>)
    requires Serves(jobs, desired) && Pending(m, desired) == {}
    ensures Loop(m, jobs, calls, once).store == m && Loop(m, jobs, calls, once).written == []
  {
    if jobs != [] {
      LoopIdles(m, Init(jobs), calls, once, desired);
      if Last(jobs).Ok? {
        assert Last(jobs).value.key !in Pending(m, desired);
      }
    }
  }

  /** Without failures a loop fails only if making one of its objects does. */
  lemma {:induction false} LoopSucceeds<S, T>(m: Objs<S, T>, jobs: seq<Job<S, T>>, calls: nat -> Call, once: bool)
    requires NoFaults(calls) && forall i :: 0 <= i < |jobs| ==> jobs[i].Ok?
    ensures Loop(m, jobs, calls, once).error.None?
  {
    if jobs != [] {
      LoopSucceeds(m, Init(jobs), calls, once);
      assert calls(|jobs| - 1).Fine?;
    }
  }

  lemma StepWrites<S, T>(p: Phase<S, T>, job: Job<S, T>, call: Call, desired: Objs<S, T>)
    requires job.Ok? ==> job.value.key in desired && desired[job.value.key] == job.value.obj
    ensures var p' := Step(p, job, call);
            || (p'.store == p.store && p'.written == p.written)
            || (job.Ok? && job.value.key in Pending(p.store, desired) && p'.written == p.written + [job.value.key]
                && Pending(p'.store, desired) == Pending(p.store, desired) - {job.value.key})
  {
  }

  /** The keys a loop has written are those that were out of sync and no longer are, once each. */
  lemma {:induction false} LoopWrites<S, T>(m: Objs<S, T>, jobs: seq<Job<S, T>>, calls: nat -> Call, once: bool,
      desired: Objs<S, T>)
    requires Serves(jobs, desired)
    ensures var p := Loop(m, jobs, calls, once);
            && (forall k :: k in p.written <==> k in Pending(m, desired) && k !in Pending(p.store, desired))
            && (forall i, j :: 0 <= i < j < |p.written| ==> p.written[i] != p.written[j])
  {
    if jobs != [] {
      var p := Loop(m, Init(jobs), calls, once);
      LoopWrites(m, Init(jobs), calls, once, desired);
      LoopTowards(m, m, Init(jobs), calls, once, desired);
      StepWrites(p, Last(jobs), calls(|jobs| - 1), desired);
    }
  }

  // ---------- stopping after the first write ----------

  /** A failure-free loop that stops after its first write settles exactly one pending key, the
      first in the order of the jobs, and changes no other. */
  lemma {:induction false} OnceSettlesFirst<S, T>(m: Objs<S, T>, jobs: seq<Job<S, T>>, calls: nat -> Call,
      desired: Objs<S, T>, i: nat)
    requires Serves(jobs, desired) && NoFaults(calls)
    requires i < |jobs| && forall j :: 0 <= j <= i ==> jobs[j].Ok?
    requires jobs[i].value.key in Pending(m, desired)
    requires forall j :: 0 <= j < i ==> jobs[j].value.key !in Pending(m, desired)
    ensures Loop(m, jobs, calls, true) == Phase(Put(m, jobs[i].value.key, jobs[i].value.obj), [jobs[i].value.key], None)
    ensures Pending(Loop(m, jobs, calls, true).store, desired) == Pending(m, desired) - {jobs[i].value.key}
  {
    PassesOver(m, jobs, calls, desired, i);
    LoopNext(m, jobs, calls, true, i);
    assert calls(i).Fine?;
    StoppedForGood(m, jobs, calls, true, i + 1);
    PutSettles(m, desired, jobs[i].value.key);
  }

  lemma {:induction false} PassesOver<S, T>(m: Objs<S, T>, jobs: seq<Job<S, T>>, calls: nat -> Call,
      desired: Objs<S, T>, n: nat)
    requires Serves(jobs, desired) && NoFaults(calls)
    requires n <= |jobs| && forall j :: 0 <= j < n ==> jobs[j].Ok? && jobs[j].value.key !in Pending(m, desired)
    ensures Loop(m, jobs[..n], calls, true) == Phase(m, [], None)
  {
    if n > 0 {
      PassesOver(m, jobs, calls, desired, n - 1);
      LoopNext(m, jobs, calls, true, n - 1);
      assert calls(n - 1).Fine?;
    }
  }

  // ---------- which calls must succeed ----------

  /** Making the object succeeds, and so do the calls it needs: the read, and the write if there is one. */
  predicate Succeeds<S, T>(job: Job<S, T>, call: Call, settled: bool) {
    job.Ok? && !call.ReadFails? && (call.Fine? || settled)
  }

  ghost predicate InSyncBefore<S, T>(m: Objs<S, T>, jobs: seq<Job<S, T>>, desired: Objs<S, T>, n: nat)
    requires n <= |jobs|
  {
    forall j :: 0 <= j < n ==> jobs[j].Ok? && jobs[j].value.key !in Pending(m, desired)
  }

  ghost predicate OnceCan<S, T>(m: Objs<S, T>, jobs: seq<Job<S, T>>, calls: nat -> Call, desired: Objs<S, T>, i: nat)
    requires i < |jobs|
  {
    InSyncBefore(m, jobs, desired, i) ==>
      Succeeds(jobs[i], calls(i), jobs[i].Ok? && jobs[i].value.key !in Pending(m, desired))
  }

  lemma StepSucceeds<S, T>(p: Phase<S, T>, job: Job<S, T>, call: Call, desired: Objs<S, T>)
    requires job.Ok? ==> job.value.key in desired && desired[job.value.key] == job.value.obj
    ensures var settled, p' := job.Ok? && job.value.key !in Pending(p.store, desired), Step(p, job, call);
            && (p'.error.None? <==> Succeeds(job, call, settled))
            && (p'.error.None? ==> if settled then p'.store == p.store && p'.written == p.written else p'.written != [])
  {
  }

  ghost predicate OnceAllCan<S, T>(m: Objs<S, T>, jobs: seq<Job<S, T>>, calls: nat -> Call, desired: Objs<S, T>) {
    forall i :: 0 <= i < |jobs| ==> OnceCan(m, jobs, calls, desired, i)
  }

  lemma OnceAllCanLast<S, T>(m: Objs<S, T>, jobs: seq<Job<S, T>>, calls: nat -> Call, desired: Objs<S, T>)
    requires jobs != []
    ensures OnceAllCan(m, jobs, calls, desired)
       <==> OnceAllCan(m, Init(jobs), calls, desired) && OnceCan(m, jobs, calls, desired, |jobs| - 1)
    ensures InSyncBefore(m, jobs, desired, |jobs| - 1) <==> InSyncBefore(m, Init(jobs), desired, |jobs| - 1)
  {
    forall i | 0 <= i < |jobs| - 1
      ensures OnceCan(m, jobs, calls, desired, i) <==> OnceCan(m, Init(jobs), calls, desired, i)
    {
      assert InSyncBefore(m, jobs, desired, i) <==> InSyncBefore(m, Init(jobs), desired, i);
    }
  }

  /** A loop that stops after its first write fails only at the jobs it reaches: those before which
      everything is in sync. */
  lemma {:induction false} WhenOnceSucceeds<S, T>(m: Objs<S, T>, jobs: seq<Job<S, T>>, calls: nat -> Call,
      desired: Objs<S, T>)
    requires Serves(jobs, desired)
    ensures var p := Loop(m, jobs, calls, true);
            && (p.error.None? <==> OnceAllCan(m, jobs, calls, desired))
            && (p.error.None? ==> (p.written == [] <==> InSyncBefore(m, jobs, desired, |jobs|)))
            && (p.error.None? && p.written == [] ==> p.store == m)
  {
    if jobs != [] {
      WhenOnceSucceeds(m, Init(jobs), calls, desired);
      OnceAllCanLast(m, jobs, calls, desired);
      StepSucceeds(Loop(m, Init(jobs), calls, true), Last(jobs), calls(|jobs| - 1), desired);
    }
  }

  /** Before the first object out of sync such a loop cannot fail to make an object and go on. */
  lemma {:induction false} ReachedAreMade<S, T>(m: Objs<S, T>, jobs: seq<Job<S, T>>, calls: nat -> Call,
      desired: Objs<S, T>, n: nat)
    requires n <= |jobs| && OnceAllCan(m, jobs, calls, desired)
    requires forall j :: 0 <= j < n && jobs[j].Ok? ==> jobs[j].value.key !in Pending(m, desired)
    ensures InSyncBefore(m, jobs, desired, n)
  {
    if n > 0 {
      ReachedAreMade(m, jobs, calls, desired, n - 1);
      assert OnceCan(m, jobs, calls, desired, n - 1);
    }
  }

  /** An earlier job is for the same key as job `i`. */
  ghost predicate Repeats<S, T>(jobs: seq<Job<S, T>>, i: nat)
    requires i < |jobs|
  {
    jobs[i].Ok? && exists j :: 0 <= j < i && jobs[j].Ok? && jobs[j].value.key == jobs[i].value.key
  }

  ghost predicate AllCan<S, T>(m: Objs<S, T>, jobs: seq<Job<S, T>>, calls: nat -> Call, desired: Objs<S, T>, i: nat)
    requires i < |jobs|
  {
    Succeeds(jobs[i], calls(i), jobs[i].Ok? && (jobs[i].value.key !in Pending(m, desired) || Repeats(jobs, i)))
  }

  ghost predicate LoopAllCan<S, T>(m: Objs<S, T>, jobs: seq<Job<S, T>>, calls: nat -> Call, desired: Objs<S, T>) {
    forall i :: 0 <= i < |jobs| ==> AllCan(m, jobs, calls, desired, i)
  }

  lemma LoopAllCanLast<S, T>(m: Objs<S, T>, jobs: seq<Job<S, T>>, calls: nat -> Call, desired: Objs<S, T>)
    requires jobs != []
    ensures LoopAllCan(m, jobs, calls, desired)
       <==> LoopAllCan(m, Init(jobs), calls, desired) && AllCan(m, jobs, calls, desired, |jobs| - 1)
  {
    forall i | 0 <= i < |jobs| - 1
      ensures AllCan(m, jobs, calls, desired, i) <==> AllCan(m, Init(jobs), calls, desired, i)
    {
      assert forall j :: 0 <= j <= i ==> Init(jobs)[j] == jobs[j];
      assert Repeats(jobs, i) <==> Repeats(Init(jobs), i);
    }
  }

  /** After a loop without error a key is out of sync if it was before and no job is for it. */
  lemma PendingAfter<S, T>(m: Objs<S, T>, jobs: seq<Job<S, T>>, calls: nat -> Call, desired: Objs<S, T>, k: Key)
    requires Serves(jobs, desired) && Loop(m, jobs, calls, false).error.None?
    ensures k in Pending(Loop(m, jobs, calls, false).store, desired)
       <==> k in Pending(m, desired) && forall j :: 0 <= j < |jobs| && jobs[j].Ok? ==> jobs[j].value.key != k
  {
    var m' := Loop(m, jobs, calls, false).store;
    LoopTowards(m, m, jobs, calls, false, desired);
    LoopSettles(m, jobs, calls, desired);
    if forall j :: 0 <= j < |jobs| && jobs[j].Ok? ==> jobs[j].value.key != k {
      LoopOrigin(m, jobs, calls, false, k);
      assert SameAt(m, m', k);
    }
  }

  lemma LastIsPending<S, T>(m: Objs<S, T>, jobs: seq<Job<S, T>>, calls: nat -> Call, desired: Objs<S, T>)
    requires Serves(jobs, desired) && jobs != [] && Loop(m, Init(jobs), calls, false).error.None? && Last(jobs).Ok?
    ensures Last(jobs).value.key in Pending(Loop(m, Init(jobs), calls, false).store, desired)
       <==> Last(jobs).value.key in Pending(m, desired) && !Repeats(jobs, |jobs| - 1)
  {
    PendingAfter(m, Init(jobs), calls, desired, Last(jobs).value.key);
    assert forall j :: 0 <= j < |jobs| - 1 ==> Init(jobs)[j] == jobs[j];
  }

  /** A loop that goes on to the end succeeds exactly when every object can be made and read, and every
      write that is needed succeeds. */
  lemma {:induction false} WhenLoopSucceeds<S, T>(m: Objs<S, T>, jobs: seq<Job<S, T>>, calls: nat -> Call,
      desired: Objs<S, T>)
    requires Serves(jobs, desired)
    ensures Loop(m, jobs, calls, false).error.None? <==> LoopAllCan(m, jobs, calls, desired)
  {
    if jobs != [] {
      var p := Loop(m, Init(jobs), calls, false);
      WhenLoopSucceeds(m, Init(jobs), calls, desired);
      LoopAllCanLast(m, jobs, calls, desired);
      if p.error.None? {
        StepSucceeds(p, Last(jobs), calls(|jobs| - 1), desired);
        if Last(jobs).Ok? {
          LastIsPending(m, jobs, calls, desired);
        }
      }
    }
  }

  /** A loop reports an API failure unless making an object raises something else. */
  lemma {:induction false} LoopErrors<S, T>(m: Objs<S, T>, jobs: seq<Job<S, T>>, calls: nat -> Call, once: bool)
    requires forall i :: 0 <= i < |jobs| && jobs[i].Err? ==> jobs[i].error == ApiError
    ensures var p := Loop(m, jobs, calls, once); p.error.Some? ==> p.error.value == ApiError
  {
    if jobs != [] {
      LoopErrors(m, Init(jobs), calls, once);
    }
  }

  // ---------- footprint ----------

  ghost predicate SameOn<O>(m: map<Key, O>, m': map<Key, O>, keys: set<Key>) {
    forall k :: k in keys ==> SameAt(m, m', k)
  }

  ghost predicate SameOutside<O>(m: map<Key, O>, m': map<Key, O>, keys: set<Key>) {
    forall k :: k !in keys ==> SameAt(m, m', k)
  }

  ghost predicate KeysWithin<S, T>(jobs: seq<Job<S, T>>, keys: set<Key>) {
    forall i :: 0 <= i < |jobs| && jobs[i].Ok? ==> jobs[i].value.key in keys
  }

  /** A loop changes nothing outside the keys of its jobs. */
  lemma {:induction false} LoopFootprint<S, T>(m: Objs<S, T>, jobs: seq<Job<S, T>>, calls: nat -> Call, once: bool,
      keys: set<Key>)
    requires KeysWithin(jobs, keys)
    ensures SameOutside(m, Loop(m, jobs, calls, once).store, keys)
  {
    if jobs != [] {
      LoopFootprint(m, Init(jobs), calls, once, keys);
    }
  }

  lemma StepFrame<S, T>(p: Phase<S, T>, p': Phase<S, T>, job: Job<S, T>, call: Call, keys: set<Key>)
    requires SameOn(p.store, p'.store, keys) && p.written == p'.written && (job.Ok? ==> job.value.key in keys)
    ensures var q, q' := Step(p, job, call), Step(p', job, call);
            SameOn(q.store, q'.store, keys) && q.written == q'.written && (p.error == p'.error ==> q.error == q'.error)
  {
  }

  /** What a loop does depends only on what the store holds for the keys of its jobs. */
  lemma {:induction false} LoopFrame<S, T>(m: Objs<S, T>, m': Objs<S, T>, jobs: seq<Job<S, T>>, calls: nat -> Call,
      once: bool, keys: set<Key>)
    requires KeysWithin(jobs, keys) && SameOn(m, m', keys)
    ensures var p, p' := Loop(m, jobs, calls, once), Loop(m', jobs, calls, once);
            SameOn(p.store, p'.store, keys) && p.written == p'.written && p.error == p'.error
  {
    if jobs != [] {
      LoopFrame(m, m', Init(jobs), calls, once, keys);
      StepFrame(Loop(m, Init(jobs), calls, once), Loop(m', Init(jobs), calls, once),
          Last(jobs), calls(|jobs| - 1), keys);
    }
  }

  /** `o` is in sync with a job for `k`. */
  ghost predicate FromJob<S, T>(jobs: seq<Job<S, T>>, k: Key, o: Obj<S, T>) {
    exists i :: 0 <= i < |jobs| && jobs[i].Ok? && jobs[i].value.key == k && InSync(o, jobs[i].value.obj)
  }

  lemma StepOrigin<S, T>(p: Phase<S, T>, job: Job<S, T>, call: Call, k: Key)
    ensures var m' := Step(p, job, call).store;
            SameAt(p.store, m', k) || (k in m' && job.Ok? && job.value.key == k && InSync(m'[k], job.value.obj))
  {
  }

  lemma FromEarlierJob<S, T>(jobs: seq<Job<S, T>>, k: Key, o: Obj<S, T>)
    requires jobs != [] && FromJob(Init(jobs), k, o)
    ensures FromJob(jobs, k, o)
  {
  }

  /** Every object in the store after a loop was there before or comes from one of the jobs. */
  lemma {:induction false} LoopOrigin<S, T>(m: Objs<S, T>, jobs: seq<Job<S, T>>, calls: nat -> Call, once: bool, k: Key)
    ensures var m' := Loop(m, jobs, calls, once).store;
            SameAt(m, m', k) || (k in m' && FromJob(jobs, k, m'[k]))
  {
    if jobs != [] {
      var p := Loop(m, Init(jobs), calls, once);
      LoopOrigin(m, Init(jobs), calls, once, k);
      StepOrigin(p, Last(jobs), calls(|jobs| - 1), k);
      if !SameAt(m, p.store, k) {
        FromEarlierJob(jobs, k, p.store[k]);
      }
    }
  }
}
