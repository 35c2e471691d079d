/** Child resource names. */
module Names {
  import opened Model

  const LONGEST := 63
  const HEAD := 31

  function TrimRight(s: string, c: char): (t: string)
    ensures t <= s
    ensures t != [] ==> t[|t| - 1] != c
    ensures forall i :: |t| <= i < |s| ==> s[i] == c
  {
    if s != [] && s[|s| - 1] == c then TrimRight(s[..|s| - 1], c) else s
  }

  /** The name of a child resource never exceeds what Kubernetes supports, and it is the
      plain concatenation whenever that fits. */
  function ChildName(md5: string -> Digest, parent: string, suffix: string): (n: string)
    ensures |n| <= LONGEST
    ensures |parent| + |suffix| <= LONGEST ==> n == parent + suffix
  {
    if |parent| > LONGEST - |suffix| then
      if HEAD - |suffix| <= 0 then
        var ret := (if HEAD < |parent| then parent[..HEAD] else parent) + md5(parent + suffix);
        var d := LONGEST - |ret|;
        TrimRight(if d > 0 then ret + suffix[..d] else ret, '-')
      else
        parent[..HEAD - |suffix|] + md5(parent) + suffix
    else
      parent + suffix
  }

  function GatewayParent(r: Route): string {
    r.name + "-" + r.ns
  }

  function VisibilitySuffix(visibility: string): string {
    if visibility != "" then "-" + visibility else ""
  }

  function GatewayName(md5: string -> Digest, r: Route, visibility: string): string {
    ChildName(md5, GatewayParent(r), VisibilitySuffix(visibility))
  }

  /** No hashing takes place for this Route and visibility. */
  predicate ShortName(r: Route, visibility: string) {
    |GatewayParent(r)| + |VisibilitySuffix(visibility)| <= LONGEST
  }

  /** Names that fit are the name of the Route, its namespace and the visibility, hyphenated. */
  lemma PlainGatewayName(md5: string -> Digest, r: Route, v: string)
    requires v != "" && |r.name| + |r.ns| + |v| <= 61
    ensures GatewayName(md5, r, v) == r.name + "-" + r.ns + "-" + v
  {
    assert GatewayParent(r) + VisibilitySuffix(v) == r.name + "-" + r.ns + "-" + v;
  }

  lemma ThreePartsEqual(a: string, h: Digest, a': string, h': Digest, s: string)
    requires |a| == |a'|
    ensures a + h + s == a' + h' + s <==> a == a' && h == h'
  {
    var n, n' := a + h + s, a' + h' + s;
    assert a == n[..|a|] && a' == n'[..|a|];
    assert h == n[|a|..|a| + 32] && h' == n'[|a|..|a| + 32];
  }

  /** Hashed names with one suffix are equal exactly when their parents begin alike and have one
      digest. */
  lemma HashedNamesCollide(md5: string -> Digest, p: string, p': string, s: string)
    requires |s| < 31 && |p| + |s| > 63 && |p'| + |s| > 63
    ensures ChildName(md5, p, s) == ChildName(md5, p', s) <==> p[..31 - |s|] == p'[..31 - |s|] && md5(p) == md5(p')
  {
    ThreePartsEqual(p[..31 - |s|], md5(p), p'[..31 - |s|], md5(p'), s);
  }

  // ---------- splitting a hyphenated string in two ----------

  /** `a-b` and `c-d` are the same string: the same split of it, or a hyphenated piece moved from
      one half to the other. */
  ghost predicate SameOrMoved(a: string, b: string, c: string, d: string) {
    (a == c && b == d) || Moved(a, b, c, d) || Moved(c, d, a, b)
  }

  ghost predicate Moved(a: string, b: string, c: string, d: string) {
    exists x: string :: c == a + "-" + x && b == x + "-" + d
  }

  lemma MovedJoins(a: string, b: string, c: string, d: string)
    requires Moved(a, b, c, d)
    ensures a + "-" + b == c + "-" + d
  {
    var x: string :| c == a + "-" + x && b == x + "-" + d;
    assert a + "-" + b == a + "-" + x + "-" + d;
  }

  lemma JoinsSplit(a: string, b: string, c: string, d: string)
    requires |a| <= |c| && a + "-" + b == c + "-" + d
    ensures (a == c && b == d) || Moved(a, b, c, d)
  {
    var p, q, n := a + "-" + b, c + "-" + d, |a|;
    assert a == p[..n] == q[..n] == c[..n] && b == p[n + 1..] == q[n + 1..] && p[n] == '-';
    if |c| > n {
      assert q[n] == c[n];
      var x := c[n + 1..];
      assert c == a + "-" + x && b == x + "-" + d;
    }
  }

  lemma JoinsCollide(a: string, b: string, c: string, d: string)
    ensures a + "-" + b == c + "-" + d <==> SameOrMoved(a, b, c, d)
  {
    if a + "-" + b == c + "-" + d {
      if |a| <= |c| {
        JoinsSplit(a, b, c, d);
      } else {
        JoinsSplit(c, d, a, b);
      }
    }
    if Moved(a, b, c, d) {
      MovedJoins(a, b, c, d);
    }
    if Moved(c, d, a, b) {
      MovedJoins(c, d, a, b);
    }
  }

  // ---------- two Routes ----------

  /** `longer` is `shorter` with a hyphenated piece moved from the namespace to the name. */
  ghost predicate Shifted(shorter: Route, longer: Route) {
    Moved(shorter.name, shorter.ns, longer.name, longer.ns)
  }

  lemma ParentsCollide(r1: Route, r2: Route)
    ensures GatewayParent(r1) == GatewayParent(r2) <==> SameRoute(r1, r2) || Shifted(r1, r2) || Shifted(r2, r1)
  {
    JoinsCollide(r1.name, r1.ns, r2.name, r2.ns);
  }

  /** The Routes and visibilities whose unhashed Gateway names are equal: one visibility and the
      same or shifted Routes, or a hyphenated piece of one visibility found at the end of the other
      Route's name and namespace. */
  ghost predicate NamesClash(r1: Route, v1: string, r2: Route, v2: string) {
    || (v1 == v2 && (SameRoute(r1, r2) || Shifted(r1, r2) || Shifted(r2, r1)))
    || Moved(GatewayParent(r1), v1, GatewayParent(r2), v2)
    || Moved(GatewayParent(r2), v2, GatewayParent(r1), v1)
  }

  lemma PlainName(md5: string -> Digest, r: Route, v: string)
    requires v != "" && ShortName(r, v)
    ensures GatewayName(md5, r, v) == GatewayParent(r) + "-" + v
  {
  }

  /** Unhashed Gateway names, of any two Routes and visibilities, are equal exactly when they clash. */
  lemma GatewayNamesCollide(md5: string -> Digest, r1: Route, v1: string, r2: Route, v2: string)
    requires v1 != "" && v2 != "" && ShortName(r1, v1) && ShortName(r2, v2)
    ensures GatewayName(md5, r1, v1) == GatewayName(md5, r2, v2) <==> NamesClash(r1, v1, r2, v2)
  {
    var p1, p2 := GatewayParent(r1), GatewayParent(r2);
    PlainName(md5, r1, v1);
    PlainName(md5, r2, v2);
    JoinsCollide(p1, v1, p2, v2);
    ParentsCollide(r1, r2);
  }

  lemma MovedHasHyphen(a: string, b: string, c: string, d: string)
    requires Moved(a, b, c, d)
    ensures '-' in b && '-' in c
  {
    var x: string :| c == a + "-" + x && b == x + "-" + d;
    assert c[|a|] == '-' && b[|x|] == '-';
  }

  /** For one visibility hyphen-free Route names are safe: distinct Routes that share an unhashed
      Gateway name for it cannot both have one. */
  lemma HyphenFreeNamesAreInjective(md5: string -> Digest, r1: Route, r2: Route, v: string)
    requires v != "" && ShortName(r1, v) && ShortName(r2, v)
    requires GatewayName(md5, r1, v) == GatewayName(md5, r2, v)
    ensures SameRoute(r1, r2) || '-' in r1.name || '-' in r2.name
  {
    var p1, p2 := GatewayParent(r1), GatewayParent(r2);
    PlainName(md5, r1, v);
    PlainName(md5, r2, v);
    assert p1 == (p1 + "-" + v)[..|p1|] && p2 == (p2 + "-" + v)[..|p2|];
    ParentsCollide(r1, r2);
    if Shifted(r1, r2) {
      MovedHasHyphen(r1.name, r1.ns, r2.name, r2.ns);
    } else if Shifted(r2, r1) {
      MovedHasHyphen(r2.name, r2.ns, r1.name, r1.ns);
    }
  }

  predicate BuiltIn(v: string) {
    v == DEFAULT_VISIBILITY || v == CLUSTER_LOCAL
  }

  lemma BuiltInsDoNotSplit(v1: string, x: string, v2: string)
    requires BuiltIn(v1) && BuiltIn(v2)
    ensures v1 != x + "-" + v2
  {
    if |v1| == |x| + 1 + |v2| {
      assert |x| == 5 && v1[5] == 'e' && (x + "-" + v2)[5] == '-';
    }
  }

  /** No hyphenated piece can move between two built-in visibilities. */
  lemma BuiltInsDoNotMove(a: string, v1: string, c: string, v2: string)
    requires BuiltIn(v1) && BuiltIn(v2)
    ensures !Moved(a, v1, c, v2)
  {
    forall x: string ensures v1 != x + "-" + v2 {
      BuiltInsDoNotSplit(v1, x, v2);
    }
  }

  /** Between built-in visibilities unhashed names are equal exactly for one visibility and the same
      or shifted Routes, so that there hyphen-free names are safe altogether. */
  lemma BuiltInNamesCollide(md5: string -> Digest, r1: Route, v1: string, r2: Route, v2: string)
    requires BuiltIn(v1) && BuiltIn(v2) && ShortName(r1, v1) && ShortName(r2, v2)
    ensures GatewayName(md5, r1, v1) == GatewayName(md5, r2, v2)
       <==> v1 == v2 && (SameRoute(r1, r2) || Shifted(r1, r2) || Shifted(r2, r1))
  {
    GatewayNamesCollide(md5, r1, v1, r2, v2);
    BuiltInsDoNotMove(GatewayParent(r1), v1, GatewayParent(r2), v2);
    BuiltInsDoNotMove(GatewayParent(r2), v2, GatewayParent(r1), v1);
  }

  /** With other visibilities hyphen-free Routes can clash: "a" in "b" with visibility
      "c-cluster-local", and "a" in "b-c", which like every Route is also cluster-local. */
  lemma HyphenFreeRoutesCanClash(md5: string -> Digest, r: Route)
    ensures var r1, r2 := r.(name := "a", ns := "b"), r.(name := "a", ns := "b-c");
            && '-' !in r1.name && '-' !in r2.name && !SameRoute(r1, r2)
            && GatewayName(md5, r1, "c-cluster-local") == GatewayName(md5, r2, CLUSTER_LOCAL)
  {
    var r1, r2 := r.(name := "a", ns := "b"), r.(name := "a", ns := "b-c");
    var v := "c" + "-" + CLUSTER_LOCAL;
    assert v == "c-cluster-local";
    assert GatewayParent(r1) == "a-b" && GatewayParent(r2) == "a-b" + "-" + "c";
    assert Moved("a-b", v, GatewayParent(r2), CLUSTER_LOCAL);
    GatewayNamesCollide(md5, r1, v, r2, CLUSTER_LOCAL);
  }

  /** Injectivity fails for one visibility too, whatever it is and whether or not names are hashed:
      Route "a-b" in namespace "c" and Route "a" in namespace "b-c". */
  lemma GatewayNameIsNotInjective(md5: string -> Digest, r: Route, v: string)
    ensures var r1, r2 := r.(name := "a-b", ns := "c"), r.(name := "a", ns := "b-c");
            GatewayName(md5, r1, v) == GatewayName(md5, r2, v) && !SameRoute(r1, r2)
  {
    var r1, r2 := r.(name := "a-b", ns := "c"), r.(name := "a", ns := "b-c");
    assert GatewayParent(r1) == "a-b-c" == GatewayParent(r2);
  }

  // ---------- two visibilities of one Route, hashed or not ----------

  const LOCAL_SUFFIX := "-cluster-local"

  /** The parent contains its own digest, in such a place that the name with suffix `s` and the
      cluster-local name, one hashed and the other not, come out the same. */
  predicate OwnDigest(parent: string, digest: Digest, s: string) {
    || (|s| < 14 && |parent| + |s| == LONGEST
        && parent == parent[..17] + digest + LOCAL_SUFFIX[..14 - |s|] && s == LOCAL_SUFFIX[14 - |s|..])
    || (14 < |s| < HEAD && |parent| == 49
        && parent == parent[..HEAD - |s|] + digest + s[..|s| - 14] && s[|s| - 14..] == LOCAL_SUFFIX)
  }

  lemma LocalName(md5: string -> Digest, parent: string)
    ensures |LOCAL_SUFFIX| == 14
    ensures ChildName(md5, parent, LOCAL_SUFFIX)
         == (if |parent| <= 49 then parent else parent[..17] + md5(parent)) + LOCAL_SUFFIX
  {
  }

  lemma TrimKeeps(full: string, c: char, x: nat, i: nat)
    requires x <= i < |full| && full[i] != c
    ensures x < |TrimRight(full, c)| && TrimRight(full, c)[x] == full[x]
  {
  }

  /** A name with a suffix too long to be kept has a digest after at most 31 characters. */
  lemma LongSuffixLeavesDigest(md5: string -> Digest, parent: string, s: string, x: nat)
    requires |s| >= HEAD && |parent| > LONGEST - |s|
    requires (if HEAD < |parent| then HEAD else |parent|) <= x < (if HEAD < |parent| then HEAD else |parent|) + 32
    ensures var n := ChildName(md5, parent, s); x < |n| && IsHex(n[x])
  {
    var h := md5(parent + s);
    var head := if HEAD < |parent| then parent[..HEAD] else parent;
    var ret := head + h;
    var d := LONGEST - |ret|;
    var full := if d > 0 then ret + s[..d] else ret;
    var i := |head| + 31;
    assert full[i] == h[31] && IsHex(h[31]) && full[x] == h[x - |head|] && IsHex(h[x - |head|]);
    TrimKeeps(full, '-', x, i);
  }

  /** There the cluster-local name has its hyphen. */
  lemma LongSuffixesDiffer(md5: string -> Digest, parent: string, s: string)
    requires |s| >= HEAD && |parent| > LONGEST - |s|
    ensures ChildName(md5, parent, s) != ChildName(md5, parent, LOCAL_SUFFIX)
  {
    LocalName(md5, parent);
    var x := if |parent| <= 49 then |parent| else 49;
    LongSuffixLeavesDigest(md5, parent, s, x);
    assert ChildName(md5, parent, LOCAL_SUFFIX)[x] == '-';
  }

  /** Two hashed names differ: if the suffixes are of one length in these, and otherwise where one
      has a hyphen and the other a digit of the digest. */
  lemma HashedNamesDiffer(parent: string, h: Digest, s: string)
    requires 0 < |s| < HEAD && s[0] == '-' && s != LOCAL_SUFFIX && |parent| >= HEAD
    ensures parent[..HEAD - |s|] + h + s != parent[..17] + h + LOCAL_SUFFIX
  {
    var a, b, n := parent[..HEAD - |s|] + h + s, parent[..17] + h + LOCAL_SUFFIX, |s|;
    assert |LOCAL_SUFFIX| == 14;
    if n == 14 {
      assert a[49..] == s && b[49..] == LOCAL_SUFFIX;
    } else if n < 14 {
      assert b[49] == '-' && a[49] == h[49 - (HEAD - n)] && IsHex(h[49 - (HEAD - n)]);
    } else {
      assert a[LONGEST - n] == '-' && b[LONGEST - n] == h[LONGEST - n - 17] && IsHex(h[LONGEST - n - 17]);
    }
  }

  /** An unhashed name against the hashed cluster-local one. */
  lemma PlainAgainstHashed(parent: string, h: Digest, s: string)
    requires 49 < |parent| && |parent| + |s| <= LONGEST
    ensures parent + s == parent[..17] + h + LOCAL_SUFFIX <==> OwnDigest(parent, h, s)
  {
    assert |LOCAL_SUFFIX| == 14;
    var a, b, n := parent + s, parent[..17] + h + LOCAL_SUFFIX, |s|;
    if a == b {
      assert parent == b[..|parent|] == parent[..17] + h + LOCAL_SUFFIX[..14 - n];
      assert s == b[|parent|..] == LOCAL_SUFFIX[14 - n..];
    }
    if OwnDigest(parent, h, s) {
      assert LOCAL_SUFFIX == LOCAL_SUFFIX[..14 - n] + LOCAL_SUFFIX[14 - n..];
      assert a == parent[..17] + h + LOCAL_SUFFIX[..14 - n] + LOCAL_SUFFIX[14 - n..];
    }
  }

  lemma HashedIsPlain(parent: string, h: Digest, s: string, local: string)
    requires |local| == 14 && |parent| <= 49 && LONGEST - |parent| < |s| < HEAD
    requires parent[..HEAD - |s|] + h + s == parent + local
    ensures |parent| == 49 && parent == parent[..HEAD - |s|] + h + s[..|s| - 14] && s[|s| - 14..] == local
  {
    var a, b, n := parent[..HEAD - |s|] + h + s, parent + local, |s|;
    assert |a| == LONGEST && |b| == |parent| + 14;
    assert parent == b[..49] == a[..49] == parent[..HEAD - n] + h + s[..n - 14];
    assert local == b[49..] == a[49..] == s[n - 14..];
  }

  lemma PlainIsHashed(parent: string, h: Digest, s: string, local: string)
    requires |local| == 14 && 14 < |s| < HEAD && |parent| == 49
    requires parent == parent[..HEAD - |s|] + h + s[..|s| - 14] && s[|s| - 14..] == local
    ensures parent[..HEAD - |s|] + h + s == parent + local
  {
    assert s == s[..|s| - 14] + local;
  }

  /** A hashed name against the unhashed cluster-local one. */
  lemma HashedAgainstPlain(parent: string, h: Digest, s: string)
    requires |parent| <= 49 && LONGEST - |parent| < |s| < HEAD
    ensures parent[..HEAD - |s|] + h + s == parent + LOCAL_SUFFIX <==> OwnDigest(parent, h, s)
  {
    assert |LOCAL_SUFFIX| == 14;
    if parent[..HEAD - |s|] + h + s == parent + LOCAL_SUFFIX {
      HashedIsPlain(parent, h, s, LOCAL_SUFFIX);
    }
    if OwnDigest(parent, h, s) {
      PlainIsHashed(parent, h, s, LOCAL_SUFFIX);
    }
  }

  /** For every parent and digest, long or short: the Gateway name for a visibility is that for
      cluster-local exactly when the visibility is, or the parent contains its own digest. */
  lemma VisibilityNamesCollide(md5: string -> Digest, r: Route, v: string)
    requires v != ""
    ensures GatewayName(md5, r, v) == GatewayName(md5, r, CLUSTER_LOCAL)
       <==> v == CLUSTER_LOCAL || OwnDigest(GatewayParent(r), md5(GatewayParent(r)), VisibilitySuffix(v))
  {
    var p, s := GatewayParent(r), VisibilitySuffix(v);
    assert VisibilitySuffix(CLUSTER_LOCAL) == LOCAL_SUFFIX;
    assert v == s[1..] && CLUSTER_LOCAL == LOCAL_SUFFIX[1..];
    LocalName(md5, p);
    if |p| <= LONGEST - |s| {
      if |p| <= 49 {
        assert s == (p + s)[|p|..] && LOCAL_SUFFIX == (p + LOCAL_SUFFIX)[|p|..];
      } else {
        PlainAgainstHashed(p, md5(p), s);
      }
    } else if |s| >= HEAD {
      LongSuffixesDiffer(md5, p, s);
    } else if |p| <= 49 {
      HashedAgainstPlain(p, md5(p), s);
    } else if v != CLUSTER_LOCAL {
      HashedNamesDiffer(p, md5(p), s);
    }
  }

  /** The built-in visibilities are never affected. */
  lemma BuiltInsHaveNoOwnDigest(parent: string, digest: Digest, v: string)
    requires BuiltIn(v)
    ensures !OwnDigest(parent, digest, VisibilitySuffix(v))
  {
    var s := VisibilitySuffix(v);
    if v == DEFAULT_VISIBILITY {
      assert |s| == 8 && s[7] == 't' && LOCAL_SUFFIX[6..][7] == 'l';
    } else {
      assert |s| == 14;
    }
  }
}
