/** Whether an HTTPRoute is ready: all the Gateways that report on it have admitted it. */
module Readiness {
  import opened Model

  const ADMITTED := "Admitted"
  const TRUE := "True"

  /** Position `i` holds the first Admitted condition. */
  ghost predicate FirstAdmitted(conditions: seq<Condition>, i: nat) {
    && i < |conditions| && conditions[i].kind == ADMITTED
    && forall j :: 0 <= j < i ==> conditions[j].kind != ADMITTED
  }

  ghost predicate Admitted(gw: GatewayStatus) {
    exists i: nat :: FirstAdmitted(gw.conditions, i) && gw.conditions[i].status == TRUE
  }

  ghost predicate Ready(status: HTTPRouteStatus) {
    status.Some? && forall gw :: gw in status.value ==> Admitted(gw)
  }

  method IsGatewayAdmitted(gw: GatewayStatus) returns (admitted: bool)
    ensures admitted <==> Admitted(gw)
  {
    for i := 0 to |gw.conditions|
      invariant forall j :: 0 <= j < i ==> gw.conditions[j].kind != ADMITTED
    {
      if gw.conditions[i].kind == ADMITTED {
        assert FirstAdmitted(gw.conditions, i);
        return gw.conditions[i].status == TRUE;
      }
    }
    return false;
  }

  method IsHTTPRouteReady(status: HTTPRouteStatus) returns (ready: bool)
    ensures ready <==> Ready(status)
  {
    if status.None? {
      return false;
    }
    for i := 0 to |status.value|
      invariant forall j :: 0 <= j < i ==> Admitted(status.value[j])
    {
      var admitted := IsGatewayAdmitted(status.value[i]);
      if !admitted {
        assert status.value[i] in status.value;
        return false;
      }
    }
    return true;
  }

  /** Condition types are map keys of the list in the HTTPRoute definition. */
  ghost predicate UniqueTypes(conditions: seq<Condition>) {
    forall i, j :: 0 <= i < j < |conditions| ==> conditions[i].kind != conditions[j].kind
  }

  /** With unique types, the first Admitted condition is the only one. */
  lemma UniqueAdmitted(gw: GatewayStatus)
    requires UniqueTypes(gw.conditions)
    ensures Admitted(gw) <==> Condition(ADMITTED, TRUE) in gw.conditions
  {
  }

  /** The same Gateways, in any order, each with the same conditions, in any order. */
  ghost predicate Reordered(a: seq<GatewayStatus>, b: seq<GatewayStatus>, to: seq<nat>) {
    && |to| == |a| == |b|
    && (forall i :: 0 <= i < |to| ==> to[i] < |b|)
    && (forall j :: 0 <= j < |b| ==> j in to)
    && (forall i :: 0 <= i < |to| ==> multiset(a[i].conditions) == multiset(b[to[i]].conditions))
  }

  lemma SameConditionsSameVerdict(g: GatewayStatus, g': GatewayStatus)
    requires UniqueTypes(g.conditions) && UniqueTypes(g'.conditions)
    requires multiset(g.conditions) == multiset(g'.conditions)
    ensures Admitted(g) <==> Admitted(g')
  {
    UniqueAdmitted(g);
    UniqueAdmitted(g');
    assert Condition(ADMITTED, TRUE) in g.conditions <==> Condition(ADMITTED, TRUE) in multiset(g.conditions);
    assert Condition(ADMITTED, TRUE) in g'.conditions <==> Condition(ADMITTED, TRUE) in multiset(g'.conditions);
  }

  /** When condition types are unique per Gateway, readiness does not depend on the order of the
      Gateways or of their conditions. */
  lemma ReadinessIgnoresOrder(a: seq<GatewayStatus>, b: seq<GatewayStatus>, to: seq<nat>)
    requires Reordered(a, b, to)
    requires forall gw :: gw in a || gw in b ==> UniqueTypes(gw.conditions)
    ensures Ready(Some(a)) <==> Ready(Some(b))
  {
    forall i | 0 <= i < |to| ensures Admitted(a[i]) <==> Admitted(b[to[i]]) {
      assert a[i] in a && b[to[i]] in b;
      SameConditionsSameVerdict(a[i], b[to[i]]);
    }
    if Ready(Some(a)) {
      forall gw | gw in b ensures Admitted(gw) {
        var j :| 0 <= j < |b| && b[j] == gw;
        assert j in to;
        var i :| 0 <= i < |to| && to[i] == j;
        assert a[i] in a;
      }
    }
    if Ready(Some(b)) {
      forall gw | gw in a ensures Admitted(gw) {
        var i :| 0 <= i < |a| && a[i] == gw;
        assert b[to[i]] in b;
      }
    }
  }

  /** With a repeated type the order of the conditions decides. */
  lemma RepeatedTypesDependOnOrder(gw: Key)
    ensures var t, f := Condition(ADMITTED, TRUE), Condition(ADMITTED, "False");
            Admitted(GatewayStatus(gw, [t, f])) && !Admitted(GatewayStatus(gw, [f, t]))
  {
    var t, f := Condition(ADMITTED, TRUE), Condition(ADMITTED, "False");
    assert FirstAdmitted([t, f], 0) && FirstAdmitted([f, t], 0);
    assert forall i: nat :: FirstAdmitted([f, t], i) ==> i == 0;
    assert |"False"| != |TRUE|;
  }

  /** The Gateway API meaning: an empty list means that no Gateway has admitted the route. */
  ghost predicate AdmittedByApi(status: HTTPRouteStatus) {
    status.Some? && status.value != [] && forall gw :: gw in status.value ==> Admitted(gw)
  }

  /** The code departs from the API exactly on a non-nil empty list, which it reports ready. */
  lemma ReadinessAgainstApi(status: HTTPRouteStatus)
    ensures (Ready(status) <==> AdmittedByApi(status)) <==> status != Some([])
  {
  }
}
