/** Host maps and the two ways of combining the host maps of several traffic targets: merged
    per visibility, and flattened in the order a Go map happens to be ranged in. */
module HostMaps {
  import opened Model

  type HostMap = map<string, seq<string>>

  function Last<T>(s: seq<T>): T
    requires s != []
  {
    s[|s| - 1]
  }

  function Init<T>(s: seq<T>): seq<T>
    requires s != []
  {
    s[..|s| - 1]
  }

  /** Reading a Go map of slices. */
  function Hosts(m: HostMap, v: string): seq<string> {
    if v in m then m[v] else []
  }

  function Union(a: HostMap, b: HostMap): HostMap {
    map k | k in a.Keys + b.Keys :: Hosts(a, k) + Hosts(b, k)
  }

  lemma UnionAt(a: HostMap, b: HostMap, k: string)
    ensures Hosts(Union(a, b), k) == Hosts(a, k) + Hosts(b, k)
    ensures k in Union(a, b) <==> k in a || k in b
  {
  }

  function UnionAll(maps: seq<HostMap>): HostMap {
    if maps == [] then map[] else Union(UnionAll(Init(maps)), Last(maps))
  }

  /** Appends the slices of a map to another, its keys visited in an arbitrary order. */
  method AppendAll(before: HostMap, m: HostMap) returns (out: HostMap)
    ensures out == Union(before, m)
  {
    out := before;
    var todo := m.Keys;
    while todo != {}
      invariant todo <= m.Keys
      invariant out.Keys == before.Keys + (m.Keys - todo)
      invariant forall k :: k in out ==>
                  out[k] == if k in todo then Hosts(before, k) else Hosts(before, k) + Hosts(m, k)
      decreases todo
    {
      var k :| k in todo;
      out := out[k := Hosts(out, k) + m[k]];
      todo := todo - {k};
    }
  }

  /** Merges host maps. */
  method UnionMaps(maps: seq<HostMap>) returns (out: HostMap)
    ensures out == UnionAll(maps)
  {
    out := map[];
    for n := 0 to |maps|
      invariant out == UnionAll(maps[..n])
    {
      assert Init(maps[..n + 1]) == maps[..n];
      out := AppendAll(out, maps[n]);
    }
    assert maps[..|maps|] == maps;
  }

  lemma UnionOfTwo(a: HostMap, b: HostMap)
    ensures UnionAll([a, b]) == Union(a, b)
  {
    forall k ensures Hosts(Union(map[], a), k) == Hosts(a, k) && (k in Union(map[], a) <==> k in a) {
      assert [] + Hosts(a, k) == Hosts(a, k);
    }
    assert forall k :: k in a ==> Hosts(Union(map[], a), k) == a[k];
    assert Union(map[], a) == a;
    assert Init([a, b]) == [a] && Init([a]) == [];
    assert UnionAll([a]) == Union(UnionAll([]), a) == a;
  }

  /** What the maps hold for `k`, one after the other. */
  function ConcatAll(maps: seq<HostMap>, k: string): seq<string> {
    if maps == [] then [] else ConcatAll(Init(maps), k) + Hosts(Last(maps), k)
  }

  /** Each key of a union holds the concatenation of what the maps hold for it, in the order of
      the maps and whatever order their keys were visited in; no key is lost or invented. */
  lemma {:induction false} UnionIsConcatenation(maps: seq<HostMap>, k: string)
    ensures Hosts(UnionAll(maps), k) == ConcatAll(maps, k)
    ensures k in UnionAll(maps) <==> exists i :: 0 <= i < |maps| && k in maps[i]
  {
    if maps != [] {
      UnionIsConcatenation(Init(maps), k);
      UnionAt(UnionAll(Init(maps)), Last(maps), k);
    }
  }

  /** The values of a host map in the given order. */
  function Along(m: HostMap, order: seq<string>): seq<string> {
    if order == [] then [] else Along(m, Init(order)) + Hosts(m, Last(order))
  }

  /** The host maps of several targets, each flattened in its own order. */
  function FlattenAll(maps: seq<HostMap>, orders: seq<seq<string>>): seq<string>
    requires |maps| == |orders|
  {
    if maps == [] then [] else FlattenAll(Init(maps), Init(orders)) + Along(Last(maps), Last(orders))
  }

  // ---------- maps over two visibilities ----------

  lemma Pigeonhole(s: seq<string>, v: string, c: string)
    requires |s| > 2 && forall i :: 0 <= i < |s| ==> s[i] == v || s[i] == c
    ensures exists i, j :: 0 <= i < j < |s| && s[i] == s[j]
  {
    assert s[0] == s[1] || s[1] == s[2] || s[0] == s[2];
  }

  lemma OrderShapes(order: seq<string>, v: string, c: string)
    requires IsEnumeration(order, {v, c})
    ensures if v == c then order == [c] else order == [v, c] || order == [c, v]
  {
    assert v in order && c in order;
    assert forall i :: 0 <= i < |order| ==> order[i] in order;
    assert forall i :: 0 <= i < |order| ==> order[i] == v || order[i] == c;
    if |order| > 2 {
      Pigeonhole(order, v, c);
    } else if |order| == 2 {
      assert order == [order[0], order[1]];
    } else {
      assert order == [order[0]];
    }
  }

  lemma AlongShapes(m: HostMap, a: string, b: string)
    ensures Along(m, [a]) == Hosts(m, a)
    ensures Along(m, [a, b]) == Hosts(m, a) + Hosts(m, b)
  {
  }

  function Bag(m: HostMap, v: string, c: string): multiset<string> {
    multiset(Hosts(m, c)) + if v == c then multiset{} else multiset(Hosts(m, v))
  }

  lemma AlongIsBag(m: HostMap, order: seq<string>, v: string, c: string)
    requires IsEnumeration(order, {v, c})
    ensures multiset(Along(m, order)) == Bag(m, v, c)
  {
    OrderShapes(order, v, c);
    AlongShapes(m, c, v);
    AlongShapes(m, v, c);
  }

  ghost predicate Enumerations(orders: seq<seq<string>>, keys: set<string>) {
    forall i :: 0 <= i < |orders| ==> IsEnumeration(orders[i], keys)
  }

  /** Flattening and merging lose and invent no host, whatever the orders. */
  lemma {:induction false} FlattenAgreesWithUnion(maps: seq<HostMap>, orders: seq<seq<string>>, v: string, c: string)
    requires |maps| == |orders| && Enumerations(orders, {v, c})
    ensures multiset(FlattenAll(maps, orders)) == Bag(UnionAll(maps), v, c)
  {
    if maps != [] {
      FlattenAgreesWithUnion(Init(maps), Init(orders), v, c);
      AlongIsBag(Last(maps), Last(orders), v, c);
      UnionAt(UnionAll(Init(maps)), Last(maps), v);
      UnionAt(UnionAll(Init(maps)), Last(maps), c);
    }
  }

  // ---------- when the order shows ----------

  lemma {:induction false} ShiftedByOne(d: string, l: seq<string>, i: nat)
    requires [d] + l == l + [d] && i < |l|
    ensures l[i] == d
  {
    assert (l + [d])[i] == l[i];
    if i > 0 {
      ShiftedByOne(d, l, i - 1);
      assert ([d] + l)[i] == l[i - 1];
    }
  }

  lemma AllEqualCommutes(d: string, l: seq<string>)
    ensures [d] + l == l + [d] <==> forall h :: h in l ==> h == d
  {
    if [d] + l == l + [d] {
      forall i | 0 <= i < |l| ensures l[i] == d {
        ShiftedByOne(d, l, i);
      }
    }
    if forall h :: h in l ==> h == d {
      forall i | 0 <= i < |l| + 1 ensures ([d] + l)[i] == (l + [d])[i] {
        assert (i > 0 ==> l[i - 1] in l) && (i < |l| ==> l[i] in l);
      }
    }
  }

  /** The two orders agree, or the map holds the same single host throughout. */
  predicate OrderIrrelevant(m: HostMap, order: seq<string>, order': seq<string>, v: string, c: string) {
    order == order' || forall h :: h in Hosts(m, c) ==> [h] == Hosts(m, v)
  }

  lemma AlongTwoOrders(m: HostMap, order: seq<string>, order': seq<string>, v: string, c: string)
    requires IsEnumeration(order, {v, c}) && IsEnumeration(order', {v, c})
    requires v != c ==> |Hosts(m, v)| == 1
    ensures |Along(m, order)| == |Along(m, order')|
    ensures Along(m, order) == Along(m, order') <==> OrderIrrelevant(m, order, order', v, c)
  {
    OrderShapes(order, v, c);
    OrderShapes(order', v, c);
    AlongShapes(m, c, v);
    AlongShapes(m, v, c);
    if v != c {
      var d := Hosts(m, v)[0];
      assert Hosts(m, v) == [d];
      AllEqualCommutes(d, Hosts(m, c));
    }
  }

  lemma SplitEqual(a: seq<string>, a': seq<string>, b: seq<string>, b': seq<string>)
    requires |a| == |a'|
    ensures a + b == a' + b' <==> a == a' && b == b'
  {
    if a + b == a' + b' {
      assert a == (a + b)[..|a|] && b == (a + b)[|a|..];
      assert a' == (a' + b')[..|a|] && b' == (a' + b')[|a|..];
    }
  }

  ghost predicate OneExternalHost(maps: seq<HostMap>, v: string, c: string) {
    v != c ==> forall i :: 0 <= i < |maps| ==> |Hosts(maps[i], v)| == 1
  }

  /** No single map shows the difference between the two families of orders. */
  ghost predicate OrdersIrrelevant(maps: seq<HostMap>, orders: seq<seq<string>>, orders': seq<seq<string>>, v: string,
      c: string)
    requires |maps| == |orders| == |orders'|
  {
    forall i :: 0 <= i < |maps| ==> OrderIrrelevant(maps[i], orders[i], orders'[i], v, c)
  }

  lemma OrdersIrrelevantLast(maps: seq<HostMap>, orders: seq<seq<string>>, orders': seq<seq<string>>, v: string,
      c: string)
    requires |maps| == |orders| == |orders'| && maps != []
    ensures OrdersIrrelevant(maps, orders, orders', v, c)
       <==> && OrdersIrrelevant(Init(maps), Init(orders), Init(orders'), v, c)
            && OrderIrrelevant(Last(maps), Last(orders), Last(orders'), v, c)
  {
  }

  /** Two families of orders flatten to the same list exactly when no single map shows them. */
  lemma {:induction false} WhenOrdersShow(maps: seq<HostMap>, orders: seq<seq<string>>, orders': seq<seq<string>>,
      v: string, c: string)
    requires |maps| == |orders| == |orders'|
    requires Enumerations(orders, {v, c}) && Enumerations(orders', {v, c}) && OneExternalHost(maps, v, c)
    ensures |FlattenAll(maps, orders)| == |FlattenAll(maps, orders')|
    ensures FlattenAll(maps, orders) == FlattenAll(maps, orders') <==> OrdersIrrelevant(maps, orders, orders', v, c)
  {
    if maps != [] {
      WhenOrdersShow(Init(maps), Init(orders), Init(orders'), v, c);
      AlongTwoOrders(Last(maps), Last(orders), Last(orders'), v, c);
      OrdersIrrelevantLast(maps, orders, orders', v, c);
      SplitEqual(FlattenAll(Init(maps), Init(orders)), FlattenAll(Init(maps), Init(orders')),
                 Along(Last(maps), Last(orders)), Along(Last(maps), Last(orders')));
    }
  }

  // ---------- multiplicity and size ----------

  /** How often a host occurs for `k` in all the maps. */
  function Occurrences(maps: seq<HostMap>, k: string, h: string): nat {
    if maps == [] then 0 else Occurrences(Init(maps), k, h) + multiset(Hosts(Last(maps), k))[h]
  }

  /** A host's multiplicity in a union is the sum of its counts in the maps. */
  lemma {:induction false} MultiplicityIsSum(maps: seq<HostMap>, k: string, h: string)
    ensures multiset(Hosts(UnionAll(maps), k))[h] == Occurrences(maps, k, h)
  {
    if maps != [] {
      MultiplicityIsSum(Init(maps), k, h);
      UnionAt(UnionAll(Init(maps)), Last(maps), k);
    }
  }

  lemma {:induction false} OccurrencesGrow(maps: seq<HostMap>, k: string, h: string, i: nat)
    requires i < |maps|
    ensures Occurrences(maps, k, h) >= Occurrences(maps[..i], k, h) + multiset(Hosts(maps[i], k))[h]
  {
    if i < |maps| - 1 {
      OccurrencesGrow(Init(maps), k, h, i);
      assert Init(maps)[..i] == maps[..i];
    }
  }

  lemma {:induction false} ConcatenationSize(maps: seq<HostMap>, k: string, e: nat)
    requires forall i :: 0 <= i < |maps| ==> |Hosts(maps[i], k)| == e
    ensures |ConcatAll(maps, k)| == |maps| * e
  {
    if maps != [] {
      ConcatenationSize(Init(maps), k, e);
      assert |maps| * e == (|maps| - 1) * e + e;
    }
  }

  /** With one external and `e` local hosts per map, flattening gives `e + 1` hosts per map. */
  lemma FlattenedSize(maps: seq<HostMap>, orders: seq<seq<string>>, v: string, c: string, e: nat)
    requires |maps| == |orders| && Enumerations(orders, {v, c}) && OneExternalHost(maps, v, c)
    requires forall i :: 0 <= i < |maps| ==> |Hosts(maps[i], c)| == e
    ensures |FlattenAll(maps, orders)| == |maps| * (if v == c then e else e + 1)
  {
    FlattenAgreesWithUnion(maps, orders, v, c);
    UnionIsConcatenation(maps, c);
    UnionIsConcatenation(maps, v);
    ConcatenationSize(maps, c, e);
    if v != c {
      ConcatenationSize(maps, v, 1);
    }
    assert |maps| * (e + 1) == |maps| * e + |maps|;
    assert |multiset(FlattenAll(maps, orders))| == |FlattenAll(maps, orders)|;
  }
}
