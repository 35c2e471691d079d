/** The traffic split: one weighted forwarding entry for each target that receives traffic.

    The entries hold pointers. Every `ServiceName` points to the `RevisionName` field of the one
    loop variable, which Go (before 1.22) shares between iterations, while every `Port` points
    to a variable of its own. `MakeRule` builds the entries on the heap; `Splits` is what they
    say once the rule is complete. */
module TrafficSplit {
  import opened Model
  import opened HostMaps
  import opened Promises

  const HTTP_PORT := 80
  const REVISION_HEADER := "Knative-Serving-Revision"
  const NAMESPACE_HEADER := "Knative-Serving-Namespace"
  const TWO_31 := 0x8000_0000
  const TWO_32 := 0x1_0000_0000

  /** Go's conversion from int64 to int32 keeps the low 32 bits. */
  function ToInt32(x: int): (w: int)
    ensures -TWO_31 <= w < TWO_31
    ensures (x - w) % TWO_32 == 0
    ensures -TWO_31 <= x < TWO_31 ==> w == x
  {
    (x + TWO_31) % TWO_32 - TWO_31
  }

  function Headers(ns: string, revision: string): Labels {
    map[REVISION_HEADER := revision, NAMESPACE_HEADER := ns]
  }

  function PercentOf(t: TrafficTarget): int {
    if t.percent.Some? then t.percent.value else 0
  }

  predicate PercentsSet(traffic: seq<TrafficTarget>) {
    forall t :: t in traffic ==> t.percent.Some?
  }

  /** The targets that receive traffic, in order. */
  function Live(traffic: seq<TrafficTarget>): seq<TrafficTarget> {
    if traffic == [] then []
    else Live(Init(traffic)) + if PercentOf(Last(traffic)) == 0 then [] else [Last(traffic)]
  }

  function Entry(ns: string, t: TrafficTarget, service: string): ForwardTo {
    ForwardTo(service, HTTP_PORT, ToInt32(PercentOf(t)), Headers(ns, t.revision))
  }

  function Entries(ns: string, targets: seq<TrafficTarget>, service: string): seq<ForwardTo> {
    seq(|targets|, i requires 0 <= i < |targets| => Entry(ns, targets[i], service))
  }

  /** The value that all service pointers show in the end. */
  function SharedService(traffic: seq<TrafficTarget>): string {
    if traffic == [] then "" else Last(traffic).revision
  }

  /** The forwarding entries of a complete rule. */
  function Splits(ns: string, traffic: seq<TrafficTarget>): seq<ForwardTo> {
    Entries(ns, Live(traffic), SharedService(traffic))
  }

  // ---------- the rule on the heap ----------

  class StringCell {
    var value: string
    constructor (value: string)
      ensures this.value == value
    {
      this.value := value;
    }
  }

  class IntCell {
    var value: int
    constructor (value: int)
      ensures this.value == value
    {
      this.value := value;
    }
  }

  datatype Pointers = Pointers(serviceName: StringCell, port: IntCell, weight: int, setHeaders: Labels)

  /** What an entry says when its pointers are followed. */
  function Deref(p: Pointers): ForwardTo
    reads p.serviceName, p.port
  {
    ForwardTo(p.serviceName.value, p.port.value, p.weight, p.setHeaders)
  }

  /** All but the service of an entry is that of its own target. */
  ghost predicate Carries(p: Pointers, ns: string, t: TrafficTarget)
    reads p.port
  {
    p.port.value == HTTP_PORT && p.weight == ToInt32(PercentOf(t)) && p.setHeaders == Headers(ns, t.revision)
  }

  /** Builds the entries. A target without a percentage panics. All entries share one service
      cell and no two share a port cell; followed at the end, they say `Splits`. */
  method MakeRule(ns: string, targets: seq<TrafficTarget>) returns (splits: seq<Pointers>, panicked: bool)
    ensures panicked <==> !PercentsSet(targets)
    ensures !panicked ==> |splits| == |Splits(ns, targets)|
    ensures !panicked ==> forall i :: 0 <= i < |splits| ==> Deref(splits[i]) == Splits(ns, targets)[i]
    ensures forall i, j :: 0 <= i < j < |splits| ==> splits[i].serviceName == splits[j].serviceName
    ensures forall i, j :: 0 <= i < j < |splits| ==> splits[i].port != splits[j].port
    ensures forall i :: 0 <= i < |splits| ==> fresh(splits[i].serviceName) && fresh(splits[i].port)
  {
    splits, panicked := [], false;
    var t := new StringCell("");
    ghost var live: seq<TrafficTarget> := [];
    for n := 0 to |targets|
      invariant PercentsSet(targets[..n]) && live == Live(targets[..n]) && |splits| == |live|
      invariant fresh(t) && t.value == SharedService(targets[..n])
      invariant forall i :: 0 <= i < |splits| ==> splits[i].serviceName == t && fresh(splits[i].port)
      invariant forall i :: 0 <= i < |splits| ==> Carries(splits[i], ns, live[i])
      invariant forall i, j :: 0 <= i < j < |splits| ==> splits[i].port != splits[j].port
    {
      assert Init(targets[..n + 1]) == targets[..n];
      var target := targets[n];
      t.value := target.revision;
      if target.percent.None? {
        assert target in targets;
        panicked := true;
        return;
      }
      if target.percent.value != 0 {
        var portNum := new IntCell(HTTP_PORT);
        splits := splits + [Pointers(t, portNum, ToInt32(target.percent.value), Headers(ns, target.revision))];
        live := live + [target];
      }
    }
    assert targets[..|targets|] == targets;
  }

  // ---------- what the split says ----------

  lemma {:induction false} LiveTargets(traffic: seq<TrafficTarget>)
    ensures forall t :: t in Live(traffic) <==> t in traffic && PercentOf(t) != 0
    ensures |Live(traffic)| <= |traffic|
  {
    if traffic != [] {
      LiveTargets(Init(traffic));
      assert traffic == Init(traffic) + [Last(traffic)];
    }
  }

  lemma ReceivingNext(traffic: seq<TrafficTarget>, at: seq<nat>)
    requires traffic != [] && ReceivingAt(Init(traffic), at)
    ensures Receives(Last(traffic)) ==> ReceivingAt(traffic, at + [|traffic| - 1])
    ensures !Receives(Last(traffic)) ==> ReceivingAt(traffic, at)
  {
    var before, after := Init(traffic), at + [|traffic| - 1];
    forall i | 0 <= i < |traffic| && Receives(traffic[i]) ensures i in after {
      if i < |before| {
        assert before[i] == traffic[i] && i in at;
      } else {
        assert after[|at|] == i;
      }
    }
    forall i | 0 <= i < |traffic| && Receives(traffic[i]) && !Receives(Last(traffic)) ensures i in at {
      assert before[i] == traffic[i];
    }
  }

  /** The live targets stand at the positions of those that receive traffic, in order. */
  lemma {:induction false} LiveTargetsInOrder(traffic: seq<TrafficTarget>) returns (at: seq<nat>)
    ensures ReceivingAt(traffic, at) && |at| == |Live(traffic)|
    ensures forall j :: 0 <= j < |at| ==> Live(traffic)[j] == traffic[at[j]]
  {
    at := [];
    if traffic != [] {
      at := LiveTargetsInOrder(Init(traffic));
      ReceivingNext(traffic, at);
      if Receives(Last(traffic)) {
        at := at + [|traffic| - 1];
      }
    }
  }

  /** The split divides the traffic as promised: one entry for each target that receives traffic, in
      order, and in each the promised port, weight, service and headers. */
  lemma SplitsDivideTraffic(ns: string, traffic: seq<TrafficTarget>)
    ensures DividesTraffic(ns, traffic, Splits(ns, traffic))
  {
    var at := LiveTargetsInOrder(traffic);
    assert DividesAt(ns, traffic, Splits(ns, traffic), at);
  }

  function Percents(traffic: seq<TrafficTarget>): int {
    if traffic == [] then 0 else Percents(Init(traffic)) + PercentOf(Last(traffic))
  }

  function Weights(entries: seq<ForwardTo>): int {
    if entries == [] then 0 else Weights(Init(entries)) + Last(entries).weight
  }

  lemma {:induction false} LivePercents(traffic: seq<TrafficTarget>)
    ensures Percents(Live(traffic)) == Percents(traffic)
  {
    if traffic != [] {
      LivePercents(Init(traffic));
      if PercentOf(Last(traffic)) != 0 {
        assert Init(Live(traffic)) == Live(Init(traffic));
      } else {
        assert Live(traffic) == Live(Init(traffic));
      }
    }
  }

  ghost predicate WithinInt32(traffic: seq<TrafficTarget>) {
    forall t :: t in traffic ==> -TWO_31 <= PercentOf(t) < TWO_31
  }

  lemma {:induction false} EntryWeights(ns: string, targets: seq<TrafficTarget>, service: string)
    ensures (Percents(targets) - Weights(Entries(ns, targets, service))) % TWO_32 == 0
    ensures WithinInt32(targets) ==> Weights(Entries(ns, targets, service)) == Percents(targets)
  {
    if targets != [] {
      EntryWeights(ns, Init(targets), service);
      assert Init(Entries(ns, targets, service)) == Entries(ns, Init(targets), service);
      var p := PercentOf(Last(targets));
      SumOfMultiples(Percents(Init(targets)) - Weights(Entries(ns, Init(targets), service)), p - ToInt32(p));
    }
  }

  lemma SumOfMultiples(a: int, b: int)
    requires a % TWO_32 == 0 && b % TWO_32 == 0
    ensures (a + b) % TWO_32 == 0
  {
  }

  /** Weight is conserved: the weights sum to the percentages, modulo 2^32 in general and
      exactly when every percentage is within int32. */
  lemma WeightIsConserved(ns: string, traffic: seq<TrafficTarget>)
    ensures (Percents(traffic) - Weights(Splits(ns, traffic))) % TWO_32 == 0
    ensures WithinInt32(traffic) ==> Weights(Splits(ns, traffic)) == Percents(traffic)
  {
    LivePercents(traffic);
    LiveTargets(traffic);
    EntryWeights(ns, Live(traffic), SharedService(traffic));
  }

  /** Each entry carries the headers of its own revision, and has weight zero only if a
      non-zero percentage is a multiple of 2^32. */
  lemma SplitEntries(ns: string, traffic: seq<TrafficTarget>, i: nat)
    requires i < |Splits(ns, traffic)|
    ensures var t, f := Live(traffic)[i], Splits(ns, traffic)[i];
            && t in traffic && PercentOf(t) != 0
            && f.setHeaders == Headers(ns, t.revision)
            && (f.weight == 0 <==> PercentOf(t) % TWO_32 == 0)
            && (WithinInt32(traffic) ==> f.weight == PercentOf(t) != 0)
  {
  }

  /** Service and header of an entry name the same revision. */
  predicate Agrees(f: ForwardTo) {
    REVISION_HEADER in f.setHeaders && f.setHeaders[REVISION_HEADER] == f.service
  }

  lemma EntryAgrees(ns: string, t: TrafficTarget, service: string)
    ensures Agrees(Entry(ns, t, service)) <==> t.revision == service
  {
  }

  lemma EntriesAgree(ns: string, targets: seq<TrafficTarget>, service: string)
    ensures forall f :: f in Entries(ns, targets, service) ==> f.service == service
    ensures (forall f :: f in Entries(ns, targets, service) ==> Agrees(f))
       <==> (forall t :: t in targets ==> t.revision == service)
  {
    var s := Entries(ns, targets, service);
    forall i | 0 <= i < |s| ensures Agrees(s[i]) <==> targets[i].revision == service {
      EntryAgrees(ns, targets[i], service);
    }
    if forall f :: f in s ==> Agrees(f) {
      forall i | 0 <= i < |targets| ensures targets[i].revision == service {
        assert s[i] in s;
      }
    }
    if forall t :: t in targets ==> t.revision == service {
      forall i | 0 <= i < |s| ensures Agrees(s[i]) {
        assert targets[i] in targets;
      }
    }
  }

  /** Every service pointer shows the revision of the last target, even one without traffic, so
      services and headers agree throughout exactly when every target that receives traffic has
      that revision. */
  lemma ServicesAgreeWithHeaders(ns: string, traffic: seq<TrafficTarget>)
    ensures (forall f :: f in Splits(ns, traffic) ==> f.service == SharedService(traffic))
    ensures (forall f :: f in Splits(ns, traffic) ==> Agrees(f))
       <==> forall t :: t in traffic && PercentOf(t) != 0 ==> t.revision == SharedService(traffic)
  {
    LiveTargets(traffic);
    EntriesAgree(ns, Live(traffic), SharedService(traffic));
  }

  /** The usual two-revision split: both entries forward to the second revision. */
  lemma TwoRevisionsShareAService(ns: string, a: TrafficTarget, b: TrafficTarget)
    requires PercentOf(a) != 0 && PercentOf(b) != 0 && a.revision != b.revision
    ensures var s := Splits(ns, [a, b]);
            |s| == 2 && s[0].service == s[1].service == b.revision && !Agrees(s[0]) && Agrees(s[1])
  {
    assert REVISION_HEADER != NAMESPACE_HEADER by { assert |REVISION_HEADER| != |NAMESPACE_HEADER|; }
    assert Init([a, b]) == [a] && Init([a]) == [];
    assert Live([a]) == [a] && Live([a, b]) == [a, b];
  }
}
