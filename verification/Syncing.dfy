/** Create-or-update of one object, the step that all three reconcile loops share, and what
    repeating it does to a store. */
module Syncing {
  import opened Model

  /** The comparison that decides whether an update is needed. */
  predicate InSync<S(==), T>(o: Obj<S, T>, desired: Obj<S, T>) {
    o.spec == desired.spec && o.annotations == desired.annotations && o.labels == desired.labels
  }

  /** An update keeps everything but spec, annotations and labels. */
  function Overwrite<S, T>(o: Obj<S, T>, desired: Obj<S, T>): Obj<S, T> {
    o.(spec := desired.spec, annotations := desired.annotations, labels := desired.labels)
  }

  function Put<S, T>(m: Objs<S, T>, k: Key, desired: Obj<S, T>): Objs<S, T> {
    m[k := if k in m then Overwrite(m[k], desired) else desired]
  }

  /** What happens to the API calls made for one object: the read may fail, a write may be
      rejected, or a write may take effect although its response is lost. */
  datatype Call = Fine | ReadFails | WriteRejected | WriteLost

  datatype Synced<S, T> = Synced(store: Objs<S, T>, wrote: bool, error: Option<Error>)

  function Write<S, T>(m: Objs<S, T>, k: Key, desired: Obj<S, T>, call: Call): Synced<S, T> {
    if call.WriteRejected? then Synced(m, false, Some(ApiError))
    else Synced(Put(m, k, desired), true, if call.WriteLost? then Some(ApiError) else None)
  }

  function SyncOne<S(==), T>(m: Objs<S, T>, k: Key, desired: Obj<S, T>, call: Call): Synced<S, T> {
    if call.ReadFails? then Synced(m, false, Some(ApiError))
    else if k in m && InSync(m[k], desired) then Synced(m, false, None)
    else Write(m, k, desired, call)
  }

  /** The exact outcome. The object is written when it is readable, out of sync, and the write is not
      rejected; it is then in sync, nothing else has changed, and an update keeps owners and all else
      that it does not send. There is an error unless every call needed succeeds. */
  lemma SyncOutcome<S, T>(m: Objs<S, T>, k: Key, d: Obj<S, T>, call: Call)
    ensures var s, settled := SyncOne(m, k, d, call), k in m && InSync(m[k], d);
            && (s.error.None? <==> !call.ReadFails? && (call.Fine? || settled))
            && (s.error.Some? ==> s.error.value == ApiError)
            && (s.wrote <==> (call.Fine? || call.WriteLost?) && !settled)
            && (!s.wrote ==> s.store == m)
            && (s.wrote ==> k in s.store && s.store == m[k := s.store[k]])
            && (s.wrote ==> s.store[k].spec == d.spec && s.store[k].labels == d.labels
                            && s.store[k].annotations == d.annotations)
            && (s.wrote ==> if k in m then s.store[k].owners == m[k].owners && s.store[k].other == m[k].other
                            else s.store[k].owners == d.owners && s.store[k].other == d.other)
  {
  }

  // ---------- repeated synchronisation towards a fixed set of desired objects ----------

  /** The keys whose object is missing or differs from the desired one. */
  function Pending<S(==), T>(m: Objs<S, T>, desired: Objs<S, T>): set<Key> {
    set k | k in desired && !(k in m && InSync(m[k], desired[k]))
  }

  /** The store in which every desired object has been put and nothing else has changed. */
  function Limit<S, T>(m: Objs<S, T>, desired: Objs<S, T>): Objs<S, T> {
    map k | k in m.Keys + desired.Keys ::
      if k !in desired then m[k] else if k in m then Overwrite(m[k], desired[k]) else desired[k]
  }

  ghost predicate SameAt<O>(m: map<Key, O>, m': map<Key, O>, k: Key) {
    (k in m <==> k in m') && (k in m ==> m[k] == m'[k])
  }

  /** `m` lies between `m0` and the limit: each key holds its original or its final object. */
  ghost predicate Toward<S, T>(m0: Objs<S, T>, m: Objs<S, T>, desired: Objs<S, T>) {
    forall k :: SameAt(m0, m, k) || (k in desired && SameAt(Limit(m0, desired), m, k))
  }

  lemma PutStaysToward<S, T>(m0: Objs<S, T>, m: Objs<S, T>, desired: Objs<S, T>, k: Key)
    requires Toward(m0, m, desired) && k in desired
    ensures Toward(m0, Put(m, k, desired[k]), desired)
  {
  }

  lemma PutSettles<S, T>(m: Objs<S, T>, desired: Objs<S, T>, k: Key)
    requires k in desired
    ensures Pending(Put(m, k, desired[k]), desired) == Pending(m, desired) - {k}
  {
  }

  /** Nothing pending means the limit is reached. */
  lemma SettledIsLimit<S, T>(m0: Objs<S, T>, m: Objs<S, T>, desired: Objs<S, T>)
    requires Toward(m0, m, desired)
    requires Pending(m, desired) == {}
    ensures m == Limit(m0, desired)
  {
    var l := Limit(m0, desired);
    forall k ensures SameAt(l, m, k) {
      assert SameAt(m0, m, k) || (k in desired && SameAt(l, m, k));
      assert k !in Pending(m, desired);
    }
    assert forall k :: k in l ==> SameAt(l, m, k);
    assert forall k :: k in m ==> SameAt(l, m, k);
  }

  lemma LimitIsSettled<S, T>(m0: Objs<S, T>, desired: Objs<S, T>)
    ensures Pending(Limit(m0, desired), desired) == {}
  {
  }
}
