/** The entities of the Route reconciler as values: Routes, their configuration, and the
    Kubernetes objects the controller writes.

    A nil dereference or a write to a nil map is the error `Panic`, so that no operation
    needs a precondition on the Route or on the configuration. */
module Model {

  datatype Option<+T> = None | Some(value: T)

  /** Why an operation stopped early. */
  datatype Error = TemplateError | ApiError | Panic

  datatype Result<+T> = Ok(value: T) | Err(error: Error) {
    predicate IsFailure() { Err? }

    function PropagateFailure<U>(): Result<U>
      requires Err?
    {
      Err(error)
    }

    function Extract(): T
      requires Ok?
    {
      value
    }
  }

  type Labels = map<string, string>

  const ROUTE_LABEL := "serving.knative.dev/route"
  const ROUTE_NAMESPACE_LABEL := "serving.knative.dev/routeNamespace"
  const VISIBILITY_LABEL := "networking.knative.dev/visibility"
  const CLUSTER_LOCAL := "cluster-local"
  const DEFAULT_VISIBILITY := "default"
  const GATEWAY_API_ANNOTATION := "features.knative.dev/gateway-api"
  const LAST_APPLIED := "kubectl.kubernetes.io/last-applied-configuration"

  /** The namespace and name under which the API server stores an object. */
  datatype Key = Key(ns: string, name: string)

  datatype TrafficTarget = TrafficTarget(tag: string, revision: string, percent: Option<int>)

  /** The part of a Route the reconciler reads. `labels` is None for a nil map. */
  datatype Route = Route(
    ns: string,
    name: string,
    uid: string,
    labels: Option<Labels>,
    annotations: Labels,
    traffic: seq<TrafficTarget>)

  /** The metadata handed to the domain template. */
  datatype ObjectMeta = ObjectMeta(ns: string, labels: Labels, annotations: Labels)

  datatype GatewayConf = GatewayConf(gatewayClass: string, namespace: string, address: string)

  predicate IsHex(c: char) {
    '0' <= c <= '9' || 'a' <= c <= 'f'
  }

  /** An MD5 digest in hexadecimal. */
  type Digest = s: string | |s| == 32 && forall i :: 0 <= i < |s| ==> IsHex(s[i]) witness seq(32, _ => '0')

  /** The configuration found in the context, with the library code that the controller
      calls as uninterpreted functions. */
  datatype Env = Env(
    gateways: map<string, GatewayConf>,
    tagTemplate: (string, string) -> Option<string>,
    domainTemplate: (ObjectMeta, string) -> Option<string>,
    expandedHosts: string -> seq<string>,
    md5: string -> Digest)

  datatype Owner = Owner(name: string, uid: string)

  /** A stored object. `other` is everything the controller never sends in an update apart
      from the owner references: status and server-side fields. */
  datatype Obj<+S, +T> = Obj(labels: Labels, annotations: Labels, owners: seq<Owner>, spec: S, other: T)

  /** Stored objects of one kind. */
  type Objs<+S, +T> = map<Key, Obj<S, T>>

  datatype ServicePort = ServicePort(name: string, port: int, targetPort: int)
  datatype ServiceSpec = ServiceSpec(
    kind: string, externalName: string, sessionAffinity: string, ports: seq<ServicePort>)

  datatype Listener = Listener(
    hostname: string, port: int, protocol: string, from: string, matchLabels: Labels, kind: string)
  datatype Address = Address(kind: string, value: string)
  datatype GatewaySpec = GatewaySpec(
    gatewayClassName: string, listeners: seq<Listener>, addresses: seq<Address>)

  datatype ForwardTo = ForwardTo(service: string, port: int, weight: int, setHeaders: Labels)
  datatype HTTPRouteSpec = HTTPRouteSpec(
    hostnames: seq<string>, rules: seq<seq<ForwardTo>>, allow: string, gatewayRefs: seq<Key>)

  datatype Condition = Condition(kind: string, status: string)
  datatype GatewayStatus = GatewayStatus(gateway: Key, conditions: seq<Condition>)
  /** The `status.gateways` list of an HTTPRoute; None for a nil slice. */
  type HTTPRouteStatus = Option<seq<GatewayStatus>>

  type ServiceObj = Obj<ServiceSpec, string>
  type GatewayObj = Obj<GatewaySpec, string>
  type HTTPRouteObj = Obj<HTTPRouteSpec, HTTPRouteStatus>

  /** The three kinds of object the controller writes. */
  datatype Store = Store(
    services: map<Key, ServiceObj>,
    gateways: map<Key, GatewayObj>,
    httproutes: map<Key, HTTPRouteObj>)

  /** Reading a Go map that may be nil. */
  function LabelsOf(r: Route): Labels {
    if r.labels.Some? then r.labels.value else map[]
  }

  function Lookup(m: Labels, key: string): string {
    if key in m then m[key] else ""
  }

  predicate Enabled(r: Route) {
    Lookup(r.annotations, GATEWAY_API_ANNOTATION) == "enabled"
  }

  predicate SameRoute(r: Route, r': Route) {
    r.ns == r'.ns && r.name == r'.name
  }

  /** What a Go `range` over a map with the given keys may visit, in that order. */
  ghost predicate IsEnumeration(order: seq<string>, keys: set<string>) {
    && (forall k :: k in order <==> k in keys)
    && (forall i, j :: 0 <= i < j < |order| ==> order[i] != order[j])
  }
}
