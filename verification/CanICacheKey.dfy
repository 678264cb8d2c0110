/** The cache key of one permission check: which lookups share an entry. */
module CanICacheKey {
  import opened Ordering

  datatype CanICheck = CanICheck(
    verb: string,
    group: string,
    resource: string,
    subresource: string,
    namespace_: string,
    name: string
  )

  /** Who asks (actor and impersonated groups), about which cluster, and what. */
  datatype Query = Query(actor: string, cluster: string, groups: seq<string>, check: CanICheck)

  const GROUP_SEP: char := '\U{1f}'
  const FIELD_SEP: char := '\U{1e}'
  const DIGEST_LENGTH: nat := 16  // 8 bytes in hex

  function Join(parts: seq<string>, sep: char): string {
    if parts == [] then ""
    else if |parts| == 1 then parts[0]
    else parts[0] + [sep] + Join(parts[1..], sep)
  }

  function Fields(c: CanICheck): seq<string> {
    [c.verb, c.group, c.resource, c.subresource, c.namespace_, c.name]
  }

  function GroupText(q: Query): string {
    Join(Sort(q.groups, StrLe), GROUP_SEP)
  }

  function CheckText(q: Query): string {
    Join(Fields(q.check), FIELD_SEP)
  }

  /** `digest` is the truncated, hex-encoded SHA-256. */
  function Key(digest: string -> string, q: Query): string {
    var actor := if q.groups == [] then "" else q.actor;
    actor + "|" + q.cluster + "|" + digest(GroupText(q)) + "|" + digest(CheckText(q))
  }

  /** Two queries the apiserver cannot tell apart. */
  ghost predicate SameQuestion(a: Query, b: Query) {
    && a.cluster == b.cluster
    && a.check == b.check
    && multiset(a.groups) == multiset(b.groups)
    && (a.actor == b.actor || a.groups == [])
  }

  /** What the surrounding program guarantees of a query. */
  predicate WellFormed(q: Query) {
    && q.actor != ""
    && '|' !in q.cluster
    && (forall g :: g in q.groups ==> GROUP_SEP !in g)
    && (forall f :: f in Fields(q.check) ==> FIELD_SEP !in f)
  }

  ghost predicate NoCollision(digest: string -> string, a: string, b: string) {
    digest(a) == digest(b) ==> a == b
  }

  /** A text splits at the first separator in one way. */
  lemma FirstSeparator(a: string, a': string, b: string, b': string, sep: char)
    requires sep !in a && sep !in b && a + [sep] + a' == b + [sep] + b'
    ensures a == b && a' == b'
  {
    var x, y := a + [sep] + a', b + [sep] + b';
    assert x[|a|] == sep && forall i :: 0 <= i < |a| ==> x[i] == a[i];
    assert y[|b|] == sep && forall i :: 0 <= i < |b| ==> y[i] == b[i];
    assert |a| == |b|;
    assert a == x[..|a|] == y[..|b|] == b;
    assert a' == x[|a| + 1..] == y[|b| + 1..] == b';
  }

  /** ... and at the last. */
  lemma LastSeparator(a: string, a': string, b: string, b': string, sep: char)
    requires sep !in a' && sep !in b' && a + [sep] + a' == b + [sep] + b'
    ensures a == b && a' == b'
  {
    var x, y := a + [sep] + a', b + [sep] + b';
    assert x[|a|] == sep && forall i :: |a| < i < |x| ==> x[i] == a'[i - |a| - 1];
    assert y[|b|] == sep && forall i :: |b| < i < |y| ==> y[i] == b'[i - |b| - 1];
    assert |a| == |b|;
    assert a == x[..|a|] == y[..|b|] == b;
    assert a' == x[|a| + 1..] == y[|b| + 1..] == b';
  }

  lemma JoinShowsSeparator(parts: seq<string>, sep: char)
    requires parts != [] && sep !in parts[0]
    ensures sep in Join(parts, sep) <==> |parts| > 1
  {
    if |parts| > 1 {
      assert Join(parts, sep)[|parts[0]|] == sep;
    }
  }

  lemma {:induction false} JoinInjective(a: seq<string>, b: seq<string>, sep: char)
    requires a != [] && b != [] && Join(a, sep) == Join(b, sep)
    requires forall s :: s in a || s in b ==> sep !in s
    ensures a == b
  {
    JoinShowsSeparator(a, sep);
    JoinShowsSeparator(b, sep);
    if |a| > 1 {
      FirstSeparator(a[0], Join(a[1..], sep), b[0], Join(b[1..], sep), sep);
      JoinInjective(a[1..], b[1..], sep);
      assert a == [a[0]] + a[1..] && b == [b[0]] + b[1..];
    }
  }

  /** Two texts that end in parts of the same length agree part by part. */
  lemma SameTail(a: string, t: string, b: string, u: string)
    requires |t| == |u| && a + "|" + t == b + "|" + u
    ensures a == b && t == u
  {
    var x, y := a + "|" + t, b + "|" + u;
    assert |a| == |b|;
    assert a == x[..|a|] == y[..|b|] == b;
    assert t == x[|a| + 1..] == y[|b| + 1..] == u;
  }

  lemma KeyParts(digest: string -> string, a: Query, b: Query)
    requires forall s :: |digest(s)| == DIGEST_LENGTH
    requires '|' !in a.cluster && '|' !in b.cluster
    requires Key(digest, a) == Key(digest, b)
    ensures digest(GroupText(a)) == digest(GroupText(b))
    ensures digest(CheckText(a)) == digest(CheckText(b))
    ensures a.cluster == b.cluster
    ensures (if a.groups == [] then "" else a.actor) == (if b.groups == [] then "" else b.actor)
  {
    var x := if a.groups == [] then "" else a.actor;
    var y := if b.groups == [] then "" else b.actor;
    SameTail(x + "|" + a.cluster + "|" + digest(GroupText(a)), digest(CheckText(a)),
             y + "|" + b.cluster + "|" + digest(GroupText(b)), digest(CheckText(b)));
    SameTail(x + "|" + a.cluster, digest(GroupText(a)), y + "|" + b.cluster, digest(GroupText(b)));
    LastSeparator(x, a.cluster, y, b.cluster, '|');
  }

  lemma SameGroupsSameText(a: Query, b: Query)
    requires multiset(a.groups) == multiset(b.groups)
    ensures GroupText(a) == GroupText(b)
    ensures a.groups == [] <==> b.groups == []
  {
    StrLeIsTotalOrder();
    SortSorts(a.groups, StrLe);
    SortSorts(b.groups, StrLe);
    SortedIsUnique(Sort(a.groups, StrLe), Sort(b.groups, StrLe), StrLe);
    assert |multiset(a.groups)| == |a.groups| && |multiset(b.groups)| == |b.groups|;
  }

  lemma SameTextSameGroups(a: Query, b: Query)
    requires a.groups != [] && b.groups != [] && GroupText(a) == GroupText(b)
    requires forall g :: g in a.groups || g in b.groups ==> GROUP_SEP !in g
    ensures multiset(a.groups) == multiset(b.groups)
  {
    StrLeIsTotalOrder();
    SortSorts(a.groups, StrLe);
    SortSorts(b.groups, StrLe);
    var s, t := Sort(a.groups, StrLe), Sort(b.groups, StrLe);
    forall g | g in s || g in t ensures GROUP_SEP !in g {
      assert g in multiset(s) || g in multiset(t);
    }
    JoinInjective(s, t, GROUP_SEP);
  }

  /** Two lookups share a cache entry exactly when they ask the same question. An actor may
      contain '|', and a list holding one empty group digests like no groups at all: neither
      makes two different questions meet. */
  lemma KeySharedExactly(digest: string -> string, a: Query, b: Query)
    requires WellFormed(a) && WellFormed(b)
    requires forall s :: |digest(s)| == DIGEST_LENGTH
    requires NoCollision(digest, GroupText(a), GroupText(b))
    requires NoCollision(digest, CheckText(a), CheckText(b))
    ensures Key(digest, a) == Key(digest, b) <==> SameQuestion(a, b)
  {
    if Key(digest, a) == Key(digest, b) {
      KeyParts(digest, a, b);
      JoinInjective(Fields(a.check), Fields(b.check), FIELD_SEP);
      assert Fields(a.check)[0] == Fields(b.check)[0] && Fields(a.check)[1] == Fields(b.check)[1];
      assert Fields(a.check)[2] == Fields(b.check)[2] && Fields(a.check)[3] == Fields(b.check)[3];
      assert Fields(a.check)[4] == Fields(b.check)[4] && Fields(a.check)[5] == Fields(b.check)[5];
      if a.groups != [] && b.groups != [] {
        SameTextSameGroups(a, b);
      }
    }
    if SameQuestion(a, b) {
      SameGroupsSameText(a, b);
    }
  }
}
