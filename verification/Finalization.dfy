/** What a finalization deletes, and when it succeeds. */
module Finalization {
  import opened Model
  import opened HostMaps
  import opened Syncing
  import opened Resources
  import opened Loops
  import opened Passes

  function KeysOf(listed: seq<Key>): set<Key> {
    set k | k in listed
  }

  lemma {:induction false} DeletionStops(m: map<Key, GatewayObj>, listed: seq<Key>, calls: nat -> Call, n: nat)
    requires n <= |listed| && DeleteAll(m, listed[..n], calls).error.Some?
    ensures DeleteAll(m, listed, calls) == DeleteAll(m, listed[..n], calls)
  {
    if n == |listed| {
      assert listed[..n] == listed;
    } else {
      assert Init(listed)[..n] == listed[..n];
      DeletionStops(m, Init(listed), calls, n);
    }
  }

  /** With no failing call everything listed is deleted and there is no error. */
  lemma {:induction false} AllAreDeleted(m: map<Key, GatewayObj>, listed: seq<Key>, calls: nat -> Call)
    requires forall i :: 0 <= i < |listed| ==> calls(i).Fine?
    ensures DeleteAll(m, listed, calls) == Deletion(m - KeysOf(listed), None)
  {
    if listed == [] {
      assert KeysOf(listed) == {};
    } else {
      AllAreDeleted(m, Init(listed), calls);
      assert KeysOf(listed) == KeysOf(Init(listed)) + {Last(listed)};
    }
  }

  /** The first failing call ends the finalization with an error: what is listed before it is deleted,
      and what it is for only if just the response was lost. */
  lemma FailureStopsDeletion(m: map<Key, GatewayObj>, listed: seq<Key>, calls: nat -> Call, n: nat)
    requires n < |listed| && !calls(n).Fine? && forall i :: 0 <= i < n ==> calls(i).Fine?
    ensures var gone := KeysOf(listed[..n]) + if calls(n).WriteLost? then {listed[n]} else {};
            DeleteAll(m, listed, calls) == Deletion(m - gone, Some(ApiError))
  {
    AllAreDeleted(m, listed[..n], calls);
    assert Init(listed[..n + 1]) == listed[..n];
    DeletionStops(m, listed, calls, n + 1);
    var s, a, b := m, KeysOf(listed[..n]), {listed[n]};
    assert s - a - b == s - (a + b);
    assert s - a == s - (a + {});
  }

  lemma FirstFailure(calls: nat -> Call, n: nat) returns (i: nat)
    requires exists i :: 0 <= i < n && !calls(i).Fine?
    ensures i < n && !calls(i).Fine? && forall j :: 0 <= j < i ==> calls(j).Fine?
  {
    i := 0;
    while calls(i).Fine?
      invariant i < n && forall j :: 0 <= j < i ==> calls(j).Fine?
      decreases n - i
    {
      i := i + 1;
    }
  }

  /** A finalization succeeds exactly when no call fails. */
  lemma WhenDeletionSucceeds(m: map<Key, GatewayObj>, listed: seq<Key>, calls: nat -> Call)
    ensures DeleteAll(m, listed, calls).error.None? <==> forall i :: 0 <= i < |listed| ==> calls(i).Fine?
  {
    if forall i :: 0 <= i < |listed| ==> calls(i).Fine? {
      AllAreDeleted(m, listed, calls);
    } else {
      var n := FirstFailure(calls, |listed|);
      FailureStopsDeletion(m, listed, calls, n);
    }
  }

  lemma DeletionRemovesListed(m: map<Key, GatewayObj>, listed: seq<Key>, calls: nat -> Call)
    ensures SameOutside(m, DeleteAll(m, listed, calls).store, KeysOf(listed))
    ensures forall k :: k in DeleteAll(m, listed, calls).store ==> SameAt(m, DeleteAll(m, listed, calls).store, k)
  {
    if forall i :: 0 <= i < |listed| ==> calls(i).Fine? {
      AllAreDeleted(m, listed, calls);
    } else {
      var n := FirstFailure(calls, |listed|);
      FailureStopsDeletion(m, listed, calls, n);
    }
  }

  /** The Gateways of a Route are those that carry its name and namespace. */
  lemma WhenLabelled(m: map<Key, GatewayObj>, r: Route, k: Key)
    ensures k in Labelled(m, r)
       <==> && k in m
            && Lookup(m[k].labels, "serving.knative.dev/route") == r.name
            && Lookup(m[k].labels, "serving.knative.dev/routeNamespace") == r.ns
            && {"serving.knative.dev/route", "serving.knative.dev/routeNamespace"} <= m[k].labels.Keys
  {
    LabelKeysDiffer();
    assert OwnerLabels(r).Keys == {ROUTE_LABEL, ROUTE_NAMESPACE_LABEL};
    if k in m && Selects(OwnerLabels(r), m[k].labels) {
      assert ROUTE_LABEL in OwnerLabels(r) && ROUTE_NAMESPACE_LABEL in OwnerLabels(r);
    }
  }

  /** A finalization without failing calls removes every Gateway labelled for the Route, in whatever
      namespace and under whatever name, and no other. One with a failing call reports the failure and
      has removed only such Gateways. */
  lemma FinalizeCompleteness(m: map<Key, GatewayObj>, r: Route, listed: seq<Key>, calls: nat -> Call)
    requires Lists(listed, Labelled(m, r))
    ensures var d := DeleteAll(m, listed, calls);
            if forall i :: 0 <= i < |listed| ==> calls(i).Fine?
              then d == Deletion(m - Labelled(m, r), None) && Labelled(d.store, r) == {}
              else d.error == Some(ApiError) && SameOutside(m, d.store, Labelled(m, r))
  {
    assert KeysOf(listed) == Labelled(m, r);
    DeletionRemovesListed(m, listed, calls);
    if forall i :: 0 <= i < |listed| ==> calls(i).Fine? {
      AllAreDeleted(m, listed, calls);
    } else {
      var n := FirstFailure(calls, |listed|);
      FailureStopsDeletion(m, listed, calls, n);
    }
  }
}
