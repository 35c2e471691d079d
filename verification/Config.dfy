/** The gateway configuration: parsing it from a ConfigMap with defaults, copying it, and
    looking visibilities up in it. */
module Config {
  import opened Model
  import opened Domains

  const EXAMPLE_KEY := "_example"
  const DEFAULT_CLASS := "istio"
  const DEFAULT_NAMESPACE := "istio-system"
  const DEFAULT_LOCAL_SERVICE := "knative-local-gateway.istio-system.svc.cluster.local"

  class GatewayConfig {
    var gatewayClass: string
    var namespace: string
    var address: string

    function Value(): GatewayConf
      reads this
    {
      GatewayConf(gatewayClass, namespace, address)
    }

    constructor (c: GatewayConf)
      ensures Value() == c
    {
      gatewayClass, namespace, address := c.gatewayClass, c.namespace, c.address;
    }
  }

  /** The configuration as it is held in memory: a map, possibly nil, of pointers, possibly nil. */
  class Gateway {
    var gateways: Option<map<string, GatewayConfig?>>

    constructor (gateways: Option<map<string, GatewayConfig?>>)
      ensures this.gateways == gateways
    {
      this.gateways := gateways;
    }

    ghost function Objects(): set<GatewayConfig>
      reads this
    {
      if gateways.None? then {} else set k | k in gateways.value && gateways.value[k] != null :: gateways.value[k]
    }

    /** The configuration as a value. */
    ghost function Snapshot(): Option<map<string, Option<GatewayConf>>>
      reads this, Objects()
    {
      if gateways.None? then None
      else Some(map k | k in gateways.value ::
                  if gateways.value[k] == null then None else Some(gateways.value[k].Value()))
    }

    /** The same, entry by entry. */
    ghost predicate Says(snap: Option<map<string, Option<GatewayConf>>>)
      reads this, Objects()
    {
      if snap.None? then gateways.None?
      else gateways.Some? && gateways.value.Keys == snap.value.Keys && forall k :: k in snap.value ==>
             var g := gateways.value[k];
             if snap.value[k].None? then g == null else g != null && g.Value() == snap.value[k].value
    }

    lemma SaysItsSnapshot(snap: Option<map<string, Option<GatewayConf>>>)
      ensures Says(snap) <==> snap == Snapshot()
    {
      if Says(snap) && snap.Some? {
        var s := Snapshot().value;
        assert s.Keys == snap.value.Keys;
        assert forall k :: k in s ==> s[k] == snap.value[k];
        assert s == snap.value && snap == Some(s);
      }
    }

    /** Copies the configuration into another object. Both then say the same, and the entries of
        the copy are all new. */
    method DeepCopyInto(out: Gateway)
      requires out != this
      modifies out
      ensures out.Snapshot() == old(Snapshot()) == Snapshot()
      ensures fresh(out.Objects())
    {
      ghost var snap := Snapshot();
      SaysItsSnapshot(snap);
      out.gateways := gateways;
      if gateways.Some? {
        var copy := CopyEntries(gateways.value);
        out.gateways := Some(copy);
      }
      assert Says(snap) && out.Says(snap);
      SaysItsSnapshot(snap);
      out.SaysItsSnapshot(snap);
    }

    method DeepCopy() returns (out: Gateway)
      ensures fresh(out) && fresh(out.Objects())
      ensures out.Snapshot() == old(Snapshot()) == Snapshot()
    {
      ghost var snap := Snapshot();
      SaysItsSnapshot(snap);
      out := new Gateway(None);
      assert Says(snap);
      SaysItsSnapshot(snap);
      DeepCopyInto(out);
    }

    // ---------- lookups ----------

    /** A missing or nil entry is dereferenced by the lookups, which panics. */
    function Entry(visibility: string): Result<GatewayConf>
      reads this, Objects()
    {
      if gateways.None? || visibility !in gateways.value || gateways.value[visibility] == null then Err(Panic)
      else Ok(gateways.value[visibility].Value())
    }

    function LookupGatewayNamespace(visibility: string): Result<string>
      reads this, Objects()
    {
      var c :- Entry(visibility);
      Ok(c.namespace)
    }

    function LookupGatewayClass(visibility: string): Result<string>
      reads this, Objects()
    {
      var c :- Entry(visibility);
      Ok(c.gatewayClass)
    }

    function LookupAddress(visibility: string): Result<string>
      reads this, Objects()
    {
      var c :- Entry(visibility);
      Ok(c.address)
    }

    /** Lookups in a configuration that says `conf` hit exactly the keys of `conf` and find there
        what it says. */
    lemma LookupsReadSnapshot(conf: map<string, GatewayConf>, v: string)
      requires Snapshot() == Some(AllSet(conf))
      ensures v in conf ==> LookupGatewayNamespace(v) == Ok(conf[v].namespace)
      ensures v in conf ==> LookupGatewayClass(v) == Ok(conf[v].gatewayClass)
      ensures v in conf ==> LookupAddress(v) == Ok(conf[v].address)
      ensures v !in conf ==> LookupGatewayNamespace(v) == LookupGatewayClass(v) == LookupAddress(v) == Err(Panic)
    {
      var snap := Snapshot().value;
      assert v in snap <==> v in gateways.value;
      assert v in snap <==> v in conf;
      if v in conf {
        assert snap[v] == Some(conf[v]);
      }
    }
  }

  /** New entries with the same contents, nil where the original is nil. The keys are visited in an
      arbitrary order. */
  method CopyEntries(src: map<string, GatewayConfig?>) returns (copy: map<string, GatewayConfig?>)
    ensures copy.Keys == src.Keys
    ensures forall k :: k in src ==>
              if src[k] == null then copy[k] == null
              else copy[k] != null && fresh(copy[k]) && copy[k].Value() == src[k].Value()
  {
    copy := map[];
    var todo := src.Keys;
    while todo != {}
      invariant todo <= src.Keys && copy.Keys == src.Keys - todo
      invariant forall k :: k in copy ==>
                  if src[k] == null then copy[k] == null
              else copy[k] != null && fresh(copy[k]) && copy[k].Value() == src[k].Value()
      decreases todo
    {
      var key :| key in todo;
      var outVal: GatewayConfig? := null;
      if src[key] == null {
        copy := copy[key := null];
      } else {
        outVal := new GatewayConfig(src[key].Value());
      }
      copy := copy[key := outVal];
      todo := todo - {key};
    }
  }

  function AllSet(conf: map<string, GatewayConf>): map<string, Option<GatewayConf>> {
    map k | k in conf :: Some(conf[k])
  }

  // ---------- parsing ----------

  ghost predicate Parses(data: map<string, string>, unmarshal: string -> Option<GatewayConf>) {
    forall k :: k in data && k != EXAMPLE_KEY ==> unmarshal(data[k]).Some?
  }

  function UserKeys(data: map<string, string>): set<string> {
    data.Keys - {EXAMPLE_KEY}
  }

  ghost function UserEntries(data: map<string, string>,
      unmarshal: string -> Option<GatewayConf>): map<string, GatewayConf>
    requires Parses(data, unmarshal)
  {
    map k | k in UserKeys(data) :: unmarshal(data[k]).value
  }

  function OrDefault(conf: map<string, GatewayConf>, key: string, default: GatewayConf): map<string, GatewayConf> {
    if key in conf then conf else conf[key := default]
  }

  /** What a ConfigMap that parses means: its entries but for the example, and a default for each
      of the two visibilities that every Route may need. */
  ghost function Meaning(data: map<string, string>,
      unmarshal: string -> Option<GatewayConf>): (conf: map<string, GatewayConf>)
    requires Parses(data, unmarshal)
    ensures conf.Keys == UserKeys(data) + {DEFAULT_VISIBILITY, CLUSTER_LOCAL}
    ensures forall k :: k in UserKeys(data) ==> Some(conf[k]) == unmarshal(data[k])
  {
    OrDefault(
      OrDefault(UserEntries(data, unmarshal), DEFAULT_VISIBILITY, GatewayConf(DEFAULT_CLASS, DEFAULT_NAMESPACE, "")),
      CLUSTER_LOCAL, GatewayConf(DEFAULT_CLASS, DEFAULT_NAMESPACE, DEFAULT_LOCAL_SERVICE))
  }

  /** In full: the entries of the ConfigMap but for the example are decoded, and each of the built-in
      visibilities that is missing has its default. */
  lemma MeaningInFull(data: map<string, string>, unmarshal: string -> Option<GatewayConf>)
    ensures Parses(data, unmarshal) <==> forall k :: k in data && k != "_example" ==> unmarshal(data[k]).Some?
    ensures Parses(data, unmarshal) ==> forall k ::
              var conf := Meaning(data, unmarshal);
              if k in data && k != "_example" then k in conf && Some(conf[k]) == unmarshal(data[k])
              else if k == "default" then k in conf && conf[k] == GatewayConf("istio", "istio-system", "")
              else if k == "cluster-local" then
                k in conf && conf[k] == GatewayConf("istio", "istio-system",
                                                    "knative-local-gateway.istio-system.svc.cluster.local")
              else k !in conf
  {
  }

  /** The pointers in `m` are set and say `conf`. */
  ghost predicate Represents(m: map<string, GatewayConfig?>, conf: map<string, GatewayConf>)
    reads set k | k in m :: m[k]
  {
    m.Keys == conf.Keys && forall k :: k in m ==> m[k] != null && m[k].Value() == conf[k]
  }

  /** The entries of a ConfigMap, its keys visited in an arbitrary order. */
  method ParseEntries(data: map<string, string>, unmarshal: string -> Option<GatewayConf>)
    returns (res: Option<map<string, GatewayConfig?>>)
    ensures res.Some? <==> Parses(data, unmarshal)
    ensures res.Some? ==> Represents(res.value, UserEntries(data, unmarshal))
    ensures res.Some? ==> forall k :: k in res.value ==> fresh(res.value[k])
  {
    var gateways: map<string, GatewayConfig?> := map[];
    var todo := data.Keys;
    while todo != {}
      invariant todo <= data.Keys && gateways.Keys == UserKeys(data) - todo
      invariant forall k :: k in gateways ==>
                  var g := gateways[k]; g != null && fresh(g) && Some(g.Value()) == unmarshal(data[k])
      decreases todo
    {
      var k :| k in todo;
      todo := todo - {k};
      if k == EXAMPLE_KEY {
        continue;
      }
      var v := unmarshal(data[k]);
      if v.None? {
        return None;
      }
      var config := new GatewayConfig(v.value);
      gateways := gateways[k := config];
    }
    assert forall k :: k in data && k != EXAMPLE_KEY ==> k in gateways;
    return Some(gateways);
  }

  method AddDefault(m: map<string, GatewayConfig?>, key: string, default: GatewayConf,
      ghost conf: map<string, GatewayConf>) returns (m': map<string, GatewayConfig?>)
    requires Represents(m, conf)
    ensures Represents(m', OrDefault(conf, key, default))
    ensures forall k :: k in m' ==> fresh(m'[k]) || (k in m && m'[k] == m[k])
  {
    m' := m;
    if key !in m {
      var config := new GatewayConfig(default);
      m' := m[key := config];
    }
  }

  lemma RepresentationIsSnapshot(c: Gateway, m: map<string, GatewayConfig?>, conf: map<string, GatewayConf>)
    requires c.gateways == Some(m) && Represents(m, conf)
    ensures c.Snapshot() == Some(AllSet(conf))
  {
    c.SaysItsSnapshot(Some(AllSet(conf)));
  }

  /** Parses a ConfigMap and adds the defaults. */
  method NewGatewayFromConfigMap(data: map<string, string>, unmarshal: string -> Option<GatewayConf>)
    returns (res: Option<Gateway>)
    ensures res.Some? <==> Parses(data, unmarshal)
    ensures res.Some? ==> fresh(res.value) && fresh(res.value.Objects())
    ensures res.Some? ==> res.value.Snapshot() == Some(AllSet(Meaning(data, unmarshal)))
  {
    var entries := ParseEntries(data, unmarshal);
    if entries.None? {
      return None;
    }
    var standard := GatewayConf(DEFAULT_CLASS, DEFAULT_NAMESPACE, "");
    var local := GatewayConf(DEFAULT_CLASS, DEFAULT_NAMESPACE, DEFAULT_LOCAL_SERVICE);
    ghost var user := UserEntries(data, unmarshal);
    var withDefault := AddDefault(entries.value, DEFAULT_VISIBILITY, standard, user);
    var gateways := AddDefault(withDefault, CLUSTER_LOCAL, local, OrDefault(user, DEFAULT_VISIBILITY, standard));
    var c := new Gateway(Some(gateways));
    RepresentationIsSnapshot(c, gateways, Meaning(data, unmarshal));
    return Some(c);
  }

  /** For every ConfigMap that parses, the lookups of a Route with traffic all hit exactly when its
      visibility label is unset or empty, one of the two built-in visibilities, or a key of the
      ConfigMap other than the example. */
  lemma LookupSafety(data: map<string, string>, unmarshal: string -> Option<GatewayConf>, r: Route)
    requires Parses(data, unmarshal) && r.traffic != []
    ensures GatewayVisibilities(r) <= Meaning(data, unmarshal).Keys
       <==> (var v := Lookup(LabelsOf(r), VISIBILITY_LABEL);
             v == "" || v == DEFAULT_VISIBILITY || v == CLUSTER_LOCAL || (v in data && v != EXAMPLE_KEY))
  {
  }
}
