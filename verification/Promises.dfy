/** What the controller owes the users of a Route, in terms of the Route, the configuration and the
    templates alone, with none of the functions that compute it. */
module Promises {
  import opened Model

  // ---------- hosts ----------

  /** The hostname of a target: the name of the Route, or what the tag template makes of it. */
  function HostOf(env: Env, r: Route, tag: string): Option<string> {
    if tag == "" then Some(r.name) else env.tagTemplate(r.name, tag)
  }

  function OwnVisibility(r: Route): string {
    var key := "networking.knative.dev/visibility";
    if r.labels.Some? && key in r.labels.value && r.labels.value[key] != "" then r.labels.value[key] else "default"
  }

  /** The domain of a hostname under the metadata of the Route itself. */
  function ExternalDomain(env: Env, r: Route, host: string): Option<string>
    requires r.labels.Some?
  {
    env.domainTemplate(ObjectMeta(r.ns, r.labels.value, r.annotations), host)
  }

  /** The domain of a hostname under the metadata relabelled cluster-local. */
  function LocalDomain(env: Env, r: Route, host: string): Option<string>
    requires r.labels.Some?
  {
    var labels := r.labels.value["networking.knative.dev/visibility" := "cluster-local"];
    env.domainTemplate(ObjectMeta(r.ns, labels, r.annotations), host)
  }

  /** A target with this tag can be given its hosts. */
  predicate Servable(env: Env, r: Route, tag: string) {
    && r.labels.Some? && HostOf(env, r, tag).Some?
    && LocalDomain(env, r, HostOf(env, r, tag).value).Some?
    && (OwnVisibility(r) != "cluster-local" ==> ExternalDomain(env, r, HostOf(env, r, tag).value).Some?)
  }

  /** The hosts of a target for one visibility. */
  function HostsFor(env: Env, r: Route, tag: string, v: string): seq<string>
    requires Servable(env, r, tag)
  {
    var host := HostOf(env, r, tag).value;
    if v == "cluster-local" then env.expandedHosts(LocalDomain(env, r, host).value)
    else if v == OwnVisibility(r) then [ExternalDomain(env, r, host).value]
    else []
  }

  predicate AllServable(env: Env, r: Route, traffic: seq<TrafficTarget>) {
    forall i :: 0 <= i < |traffic| ==> Servable(env, r, traffic[i].tag)
  }

  /** The hosts of several targets for one visibility, target after target. */
  function HostsOfAll(env: Env, r: Route, traffic: seq<TrafficTarget>, v: string): seq<string>
    requires AllServable(env, r, traffic)
  {
    if traffic == [] then []
    else
      var n := |traffic| - 1;
      HostsOfAll(env, r, traffic[..n], v) + HostsFor(env, r, traffic[n].tag, v)
  }

  /** The hosts of a target, the visibilities in the order given. */
  function HostsAlong(env: Env, r: Route, tag: string, order: seq<string>): seq<string>
    requires Servable(env, r, tag)
  {
    if order == [] then []
    else HostsAlong(env, r, tag, order[..|order| - 1]) + HostsFor(env, r, tag, order[|order| - 1])
  }

  /** The hosts of several targets, target after target, each in its own order. */
  function HostnamesAlong(env: Env, r: Route, traffic: seq<TrafficTarget>, orders: seq<seq<string>>): seq<string>
    requires AllServable(env, r, traffic) && |traffic| == |orders|
  {
    if traffic == [] then []
    else
      var n := |traffic| - 1;
      HostnamesAlong(env, r, traffic[..n], orders[..n]) + HostsAlong(env, r, traffic[n].tag, orders[n])
  }

  // ---------- errors ----------

  predicate AllNamed(env: Env, r: Route) {
    forall i :: 0 <= i < |r.traffic| ==> HostOf(env, r, r.traffic[i].tag).Some?
  }

  /** Labelling a Route that has no labels panics, unless the external domain of its first target fails
      before. */
  function ErrorWithoutLabels(env: Env, r: Route): Error
    requires AllNamed(env, r) && r.traffic != []
  {
    var host := HostOf(env, r, r.traffic[0].tag).value;
    if env.domainTemplate(ObjectMeta(r.ns, map[], r.annotations), host).Some? then Panic else TemplateError
  }

  /** The error of a pass in which the API does not fail, in the order in which the code comes across
      the causes: a tag template, a missing cluster-local configuration, missing labels and domain
      templates, any other missing configuration, and a missing percentage. */
  function ErrorOf(env: Env, r: Route): Option<Error> {
    if !AllNamed(env, r) then Some(TemplateError)
    else if r.traffic == [] then None
    else if "cluster-local" !in env.gateways then Some(Panic)
    else if r.labels.None? then Some(ErrorWithoutLabels(env, r))
    else if !AllServable(env, r, r.traffic) then Some(TemplateError)
    else if OwnVisibility(r) !in env.gateways then Some(Panic)
    else if exists i :: 0 <= i < |r.traffic| && r.traffic[i].percent.None? then Some(Panic)
    else None
  }

  // ---------- metadata ----------

  /** The labels are those of the Route, with its name and namespace added. */
  ghost predicate Owned(r: Route, labels: Labels) {
    var name, ns := "serving.knative.dev/route", "serving.knative.dev/routeNamespace";
    && name in labels && labels[name] == r.name
    && ns in labels && labels[ns] == r.ns
    && forall k :: k != name && k != ns ==>
         if r.labels.Some? && k in r.labels.value then k in labels && labels[k] == r.labels.value[k] else k !in labels
  }

  /** The annotations are those of the Route, but for the one that `kubectl apply` keeps. */
  ghost predicate Annotated(r: Route, annotations: Labels) {
    forall k ::
      if k in r.annotations && k != "kubectl.kubernetes.io/last-applied-configuration"
        then k in annotations && annotations[k] == r.annotations[k] else k !in annotations
  }

  /** A written object is new, with the given owners and with `other` as the controller creates it, or
      it has kept its owners and all else that updates do not send. */
  predicate Kept<S, T(==)>(m: Objs<S, T>, k: Key, o: Obj<S, T>, owners: seq<Owner>, other: T) {
    if k in m then o.owners == m[k].owners && o.other == m[k].other else o.owners == owners && o.other == other
  }

  // ---------- the three objects ----------

  /** A placeholder Service: an alias of the cluster-local gateway. */
  predicate IsServiceOf(env: Env, r: Route, o: ServiceObj) {
    && "cluster-local" in env.gateways
    && o.spec.kind == "ExternalName" && o.spec.externalName == env.gateways["cluster-local"].address
    && o.spec.sessionAffinity == "None" && o.spec.ports == [ServicePort("http2", 80, 80)]
    && o.labels == (if r.labels.Some? then r.labels.value else map[]) && o.annotations == r.annotations
  }

  /** An object has an address exactly when one is configured, and then that one. */
  predicate Addressed(addresses: seq<Address>, address: string) {
    && (addresses == [] <==> address == "")
    && (address != "" ==> addresses == [Address("NamedAddress", address)])
  }

  /** One HTTP listener on port 80 for each host, in order, open to the HTTPRoutes of all namespaces
      that carry the name and namespace of the Route. */
  predicate ListensTo(r: Route, listeners: seq<Listener>, hosts: seq<string>) {
    && |listeners| == |hosts|
    && forall i :: 0 <= i < |hosts| ==>
         var l := listeners[i];
         && l.hostname == hosts[i] && l.port == 80 && l.protocol == "HTTP" && l.from == "All" && l.kind == "HTTPRoute"
         && l.matchLabels == map["serving.knative.dev/route" := r.name, "serving.knative.dev/routeNamespace" := r.ns]
  }

  /** The Gateway of a Route for one visibility. */
  ghost predicate IsGatewayOf(env: Env, r: Route, v: string, o: GatewayObj) {
    && v in env.gateways && AllServable(env, r, r.traffic)
    && o.spec.gatewayClassName == env.gateways[v].gatewayClass
    && ListensTo(r, o.spec.listeners, HostsOfAll(env, r, r.traffic, v))
    && Addressed(o.spec.addresses, env.gateways[v].address)
    && Owned(r, o.labels) && Annotated(r, o.annotations)
  }

  predicate Receives(t: TrafficTarget) {
    t.percent.Some? && t.percent.value != 0
  }

  /** `at` lists the positions of the targets that receive traffic, in order. */
  ghost predicate ReceivingAt(traffic: seq<TrafficTarget>, at: seq<nat>) {
    && (forall j :: 0 <= j < |at| ==> at[j] < |traffic| && Receives(traffic[at[j]]))
    && (forall i, j :: 0 <= i < j < |at| ==> at[i] < at[j])
    && (forall i :: 0 <= i < |traffic| && Receives(traffic[i]) ==> i in at)
  }

  /** The entry of one target: its percentage, cut down to int32, its revision and the namespace as
      headers. The service is that of the last target, as the code has it. */
  predicate ForwardsTo(ns: string, t: TrafficTarget, last: TrafficTarget, f: ForwardTo)
    requires t.percent.Some?
  {
    && f.service == last.revision && f.port == 80
    && -0x8000_0000 <= f.weight < 0x8000_0000 && (t.percent.value - f.weight) % 0x1_0000_0000 == 0
    && (-0x8000_0000 <= t.percent.value < 0x8000_0000 ==> f.weight == t.percent.value)
    && f.setHeaders == map["Knative-Serving-Revision" := t.revision, "Knative-Serving-Namespace" := ns]
  }

  /** Entry by entry, `at` being the positions of the targets they are for. */
  ghost predicate DividesAt(ns: string, traffic: seq<TrafficTarget>, rule: seq<ForwardTo>, at: seq<nat>) {
    && ReceivingAt(traffic, at) && |rule| == |at|
    && forall j :: 0 <= j < |rule| ==> ForwardsTo(ns, traffic[at[j]], traffic[|traffic| - 1], rule[j])
  }

  /** The rule has one entry for each target that receives traffic, in order. */
  ghost predicate DividesTraffic(ns: string, traffic: seq<TrafficTarget>, rule: seq<ForwardTo>) {
    exists at :: DividesAt(ns, traffic, rule, at)
  }

  /** The HTTPRoute of a Route. */
  ghost predicate IsHTTPRouteOf(env: Env, r: Route, orders: seq<seq<string>>, refs: seq<Key>, o: HTTPRouteObj)
    requires |orders| == |r.traffic|
  {
    && AllServable(env, r, r.traffic)
    && o.spec.hostnames == HostnamesAlong(env, r, r.traffic, orders)
    && |o.spec.rules| == 1 && DividesTraffic(r.ns, r.traffic, o.spec.rules[0])
    && o.spec.allow == "FromList" && o.spec.gatewayRefs == refs
    && Owned(r, o.labels) && Annotated(r, o.annotations)
  }

  // ---------- readiness ----------

  /** The first Admitted condition exists and is True. */
  ghost predicate Admits(conditions: seq<Condition>) {
    exists i :: 0 <= i < |conditions| && conditions[i] == Condition("Admitted", "True")
                && forall j :: 0 <= j < i ==> conditions[j].kind != "Admitted"
  }

  /** The status list is not nil and every Gateway in it has admitted the route. */
  ghost predicate AllAdmit(status: HTTPRouteStatus) {
    status.Some? && forall i :: 0 <= i < |status.value| ==> Admits(status.value[i].conditions)
  }

  predicate OptedIn(r: Route) {
    var key := "features.knative.dev/gateway-api";
    key in r.annotations && r.annotations[key] == "enabled"
  }
}
