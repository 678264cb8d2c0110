/**
  The CVE pods list, paged by a cursor: every request sorts its own snapshot by namespace and name,
  and starts after the cursor's key by binary search on the joined key.
  */
module PodPaging {
  import opened Ordering

  const PAGE_SIZE: nat := 100

  datatype Pod = Pod(namespace_: string, name: string)

  datatype Page = Page(rows: seq<Pod>, next: string)

  function PodKey(p: Pod): string {
    p.namespace_ + "/" + p.name
  }

  predicate PodLe(a: Pod, b: Pod) {
    if a.namespace_ != b.namespace_ then StrLe(a.namespace_, b.namespace_) else StrLe(a.name, b.name)
  }

  /** Binary search for the first index in [i, j) whose key is past the cursor. */
  function SearchAfter(pods: seq<Pod>, cursor: string, i: nat, j: nat): (k: nat)
    requires i <= j <= |pods|
    ensures i <= k <= j
    decreases j - i
  {
    if i >= j then i
    else
      var h := (i + j) / 2;
      if !StrLt(cursor, PodKey(pods[h])) then SearchAfter(pods, cursor, h + 1, j)
      else SearchAfter(pods, cursor, i, h)
  }

  function StartOf(sorted: seq<Pod>, cursor: string): (k: nat)
    ensures k <= |sorted|
  {
    if cursor == "" then 0 else SearchAfter(sorted, cursor, 0, |sorted|)
  }

  function PageAt(sorted: seq<Pod>, start: nat, size: nat): Page
    requires size > 0 && start <= |sorted|
  {
    var end := if start + size > |sorted| then |sorted| else start + size;
    Page(sorted[start..end], if end < |sorted| then PodKey(sorted[end - 1]) else "")
  }

  function PageOfSorted(sorted: seq<Pod>, cursor: string, size: nat): Page
    requires size > 0
  {
    PageAt(sorted, StartOf(sorted, cursor), size)
  }

  function PageOf(pods: seq<Pod>, cursor: string, size: nat): Page
    requires size > 0
  {
    PageOfSorted(Sort(pods, PodLe), cursor, size)
  }

  method SortPods(pods: array<Pod>)
    modifies pods
    ensures pods[..] == Sort(old(pods[..]), PodLe)
  {
    PodLeIsTotalOrder();
    SortSorts(pods[..], PodLe);
    var sorted := Sort(pods[..], PodLe);
    for i := 0 to pods.Length
      invariant pods[..i] == sorted[..i]
    {
      pods[i] := sorted[i];
    }
  }

  method FindStart(pods: array<Pod>, cursor: string) returns (start: nat)
    ensures start == SearchAfter(pods[..], cursor, 0, pods.Length)
  {
    var i, j := 0, pods.Length;
    while i < j
      invariant 0 <= i <= j <= pods.Length
      invariant SearchAfter(pods[..], cursor, i, j) == SearchAfter(pods[..], cursor, 0, pods.Length)
    {
      var h := (i + j) / 2;
      if !StrLt(cursor, PodKey(pods[h])) {
        i := h + 1;
      } else {
        j := h;
      }
    }
    start := i;
  }

  method CutPage(pods: array<Pod>, start: nat) returns (page: Page)
    requires start <= pods.Length
    ensures page == PageAt(pods[..], start, PAGE_SIZE)
  {
    var end := start + PAGE_SIZE;
    if end > pods.Length {
      end := pods.Length;
    }
    var rows := pods[start..end];
    var next := "";
    if end < pods.Length {
      next := PodKey(rows[|rows| - 1]);
    }
    page := Page(rows, next);
  }

  /** The handler: sorts the snapshot in place and cuts the page out of it. */
  method ServePods(pods: array<Pod>, cursor: string) returns (page: Page)
    modifies pods
    ensures pods[..] == Sort(old(pods[..]), PodLe)
    ensures page == PageOf(old(pods[..]), cursor, 100)
  {
    SortPods(pods);
    var start := 0;
    if cursor != "" {
      start := FindStart(pods, cursor);
    }
    page := CutPage(pods, start);
  }

  lemma PodLeIsTotalOrder()
    ensures TotalOrder(PodLe)
  {
    StrLeIsTotalOrder();
  }

  // When the sort order is the key order.

  /** `a` is a proper prefix of `b`, which goes on with a character below '/'. */
  predicate Misordered(a: string, b: string) {
    |a| < |b| && b[..|a|] == a && b[|a|] < '/'
  }

  ghost predicate SafeNamespaces(names: set<string>) {
    forall a, b :: a in names && b in names ==> !Misordered(a, b)
  }

  lemma {:induction false} SamePrefixOrder(p: string, x: string, y: string)
    ensures StrLe(p + x, p + y) <==> StrLe(x, y)
  {
    if p == "" {
      assert p + x == x && p + y == y;
    } else {
      var px, py := p + x, p + y;
      assert px != "" && py != "" && px[0] == py[0] == p[0];
      assert px[1..] == p[1..] + x && py[1..] == p[1..] + y;
      SamePrefixOrder(p[1..], x, y);
    }
  }

  lemma MisorderedTails(a: string, b: string)
    requires a != "" && b != "" && a[0] == b[0]
    ensures Misordered(a[1..], b[1..]) ==> Misordered(a, b)
    ensures a[1..] == b[1..] ==> a == b
  {
    if Misordered(a[1..], b[1..]) {
      assert b[..|a|] == [b[0]] + b[1..][..|a| - 1];
    }
    assert a == [a[0]] + a[1..] && b == [b[0]] + b[1..];
  }

  lemma {:induction false} DifferentNamespaceOrder(a: string, x: string, b: string, y: string)
    requires a != b && '/' !in a && '/' !in b
    requires !Misordered(a, b) && !Misordered(b, a)
    ensures StrLe(a + "/" + x, b + "/" + y) <==> StrLe(a, b)
  {
    var u, v := a + "/" + x, b + "/" + y;
    if a == "" {
      assert b[0] != '/' && b[..0] == a;
      assert u[0] == '/' && v[0] == b[0];
    } else if b == "" {
      assert a[0] != '/' && a[..0] == b;
      assert v[0] == '/' && u[0] == a[0];
    } else {
      assert u[0] == a[0] && v[0] == b[0];
      if a[0] == b[0] {
        assert u[1..] == a[1..] + "/" + x && v[1..] == b[1..] + "/" + y;
        MisorderedTails(a, b);
        MisorderedTails(b, a);
        DifferentNamespaceOrder(a[1..], x, b[1..], y);
      }
    }
  }

  /** Where no namespace is misordered, sorting by namespace and name is sorting by key. */
  lemma SortOrderIsKeyOrder(p: Pod, q: Pod)
    requires '/' !in p.namespace_ && '/' !in q.namespace_
    requires !Misordered(p.namespace_, q.namespace_) && !Misordered(q.namespace_, p.namespace_)
    ensures PodLe(p, q) <==> StrLe(PodKey(p), PodKey(q))
  {
    if p.namespace_ == q.namespace_ {
      SamePrefixOrder(p.namespace_ + "/", p.name, q.name);
    } else {
      DifferentNamespaceOrder(p.namespace_, p.name, q.namespace_, q.name);
    }
  }

  /** Where one is, a pod of the extended namespace sorts after every pod of the shorter one but its
      key comes before theirs. */
  lemma MisorderedDisagrees(a: string, b: string, x: string, y: string)
    requires Misordered(a, b)
    ensures PodLe(Pod(a, x), Pod(b, y)) && !StrLe(PodKey(Pod(a, x)), PodKey(Pod(b, y)))
  {
    var rest := b[|a|..];
    assert b == a + rest;
    assert a + "/" + x == a + ("/" + x) && b + "/" + y == a + (rest + "/" + y);
    SamePrefixOrder(a, "/" + x, rest + "/" + y);
    SamePrefixOrder(a, "", rest);
    assert a + "" == a;
  }
}
