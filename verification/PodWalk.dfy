/**
  A client following the pods list from page to page. Every request sees the snapshot the informer
  holds at that moment, so pods may come and go between pages.
  */
module PodWalk {
  import opened Ordering
  import opened PodPaging
  import opened Sequences

  /** The rows the client collects: one snapshot for each request, from an empty `next` no more. */
  function Seen(lists: seq<seq<Pod>>, cursor: string, size: nat): seq<Pod>
    requires size > 0
  {
    if lists == [] then []
    else
      var page := PageOf(lists[0], cursor, size);
      page.rows + if page.next == "" then [] else Seen(lists[1..], page.next, size)
  }

  /** These requests are enough for the client to reach an empty `next`. */
  predicate Finished(lists: seq<seq<Pod>>, cursor: string, size: nat)
    requires size > 0
  {
    if lists == [] then false
    else
      var page := PageOf(lists[0], cursor, size);
      page.next == "" || Finished(lists[1..], page.next, size)
  }

  /** What the API server guarantees of a listing: no pod twice, no '/' in a namespace. */
  ghost predicate Listing(pods: seq<Pod>, names: set<string>) {
    && Distinct(pods)
    && (forall p :: p in pods ==> p.namespace_ in names && '/' !in p.namespace_)
  }

  ghost predicate Listings(lists: seq<seq<Pod>>, names: set<string>) {
    forall l :: l in lists ==> Listing(l, names)
  }

  ghost predicate KeysAscend(s: seq<Pod>) {
    forall i, j :: 0 <= i < j < |s| ==> StrLt(PodKey(s[i]), PodKey(s[j]))
  }

  /** `p` comes after the cursor. */
  predicate Past(p: Pod, cursor: string) {
    StrLt(cursor, PodKey(p))
  }

  // One page.

  lemma PodSort(pods: seq<Pod>)
    ensures SortedBy(Sort(pods, PodLe), PodLe) && multiset(Sort(pods, PodLe)) == multiset(pods)
    ensures |Sort(pods, PodLe)| == |pods|
  {
    PodLeIsTotalOrder();
    SortSorts(pods, PodLe);
  }

  lemma PodLeAntisymmetric(p: Pod, q: Pod)
    requires PodLe(p, q) && PodLe(q, p)
    ensures p == q
  {
    PodLeIsTotalOrder();
  }

  lemma SortedKeysAscend(pods: seq<Pod>, names: set<string>)
    requires Listing(pods, names) && SafeNamespaces(names)
    ensures KeysAscend(Sort(pods, PodLe))
  {
    PodSort(pods);
    var s := Sort(pods, PodLe);
    forall i, j | 0 <= i < j < |s| ensures StrLt(PodKey(s[i]), PodKey(s[j])) {
      SameElements(pods, s, s[i]);
      SameElements(pods, s, s[j]);
      if StrLe(PodKey(s[j]), PodKey(s[i])) {
        SortOrderIsKeyOrder(s[j], s[i]);
        PodLeAntisymmetric(s[i], s[j]);
        TwoPlaces(s, i, j);
        DistinctOnce(pods, s[i]);
      }
    }
  }

  lemma StrLtTransitive(a: string, b: string, c: string)
    requires StrLt(a, b) && (StrLt(b, c) || b == c)
    ensures StrLt(a, c)
  {
    if StrLe(c, a) {
      StrLeTotal(b, c);
      StrLeTransitive(b, c, a);
    }
  }

  lemma PastStaysPast(s: seq<Pod>, cursor: string, h: nat, k: nat)
    requires KeysAscend(s) && h <= k < |s| && Past(s[h], cursor)
    ensures Past(s[k], cursor)
  {
    if h < k {
      StrLtTransitive(cursor, PodKey(s[h]), PodKey(s[k]));
    }
  }

  /** The rows up to `n` are exactly those the cursor has passed. */
  ghost predicate SplitAt(s: seq<Pod>, cursor: string, n: nat) {
    && n <= |s|
    && (forall k :: 0 <= k < n ==> !Past(s[k], cursor))
    && (forall k :: n <= k < |s| ==> Past(s[k], cursor))
  }

  lemma {:induction false} SearchSplits(s: seq<Pod>, cursor: string, i: nat, j: nat)
    requires KeysAscend(s) && i <= j <= |s|
    requires forall k :: 0 <= k < i ==> !Past(s[k], cursor)
    requires forall k :: j <= k < |s| ==> Past(s[k], cursor)
    ensures SplitAt(s, cursor, SearchAfter(s, cursor, i, j))
    decreases j - i
  {
    if i < j {
      var h := (i + j) / 2;
      if Past(s[h], cursor) {
        forall k | h <= k < |s| ensures Past(s[k], cursor) {
          PastStaysPast(s, cursor, h, k);
        }
        SearchSplits(s, cursor, i, h);
      } else {
        forall k | 0 <= k < h + 1 ensures !Past(s[k], cursor) {
          if Past(s[k], cursor) {
            PastStaysPast(s, cursor, k, h);
          }
        }
        SearchSplits(s, cursor, h + 1, j);
      }
    }
  }

  lemma StartSplits(s: seq<Pod>, cursor: string)
    requires KeysAscend(s)
    ensures SplitAt(s, cursor, StartOf(s, cursor))
  {
    if cursor != "" {
      SearchSplits(s, cursor, 0, |s|);
    }
  }

  /** A page is the first rows after the cursor, and its `next` is the key of the last of them,
      empty exactly on the last page. */
  lemma PageIsSlice(s: seq<Pod>, cursor: string, size: nat) returns (start: nat, end: nat)
    requires KeysAscend(s) && size > 0
    ensures SplitAt(s, cursor, start) && start <= end <= |s|
    ensures PageOfSorted(s, cursor, size).rows == s[start..end]
    ensures if end == |s| then PageOfSorted(s, cursor, size).next == "" && end - start <= size
            else end == start + size && PageOfSorted(s, cursor, size).next == PodKey(s[end - 1]) != ""
                 && PageOfSorted(s, cursor, size).next == s[end - 1].namespace_ + "/" + s[end - 1].name
  {
    StartSplits(s, cursor);
    start := StartOf(s, cursor);
    end := if start + size > |s| then |s| else start + size;
  }

  lemma RowsNotPastNext(s: seq<Pod>, end: nat, k: nat)
    requires KeysAscend(s) && k < end <= |s|
    ensures !Past(s[k], PodKey(s[end - 1]))
  {
    StrLeTotal(PodKey(s[k]), PodKey(s[end - 1]));
  }

  lemma SliceAscends(s: seq<Pod>, start: nat, end: nat)
    requires KeysAscend(s) && start <= end <= |s|
    ensures KeysAscend(s[start..end])
  {
  }

  lemma RowsPastCursor(s: seq<Pod>, cursor: string, start: nat, end: nat, p: Pod)
    requires SplitAt(s, cursor, start) && start <= end <= |s| && p in s[start..end]
    ensures Past(p, cursor)
  {
    var k :| 0 <= k < end - start && s[start..end][k] == p;
    assert Past(s[start + k], cursor);
  }

  lemma RowsNotPastLast(s: seq<Pod>, start: nat, end: nat, p: Pod)
    requires KeysAscend(s) && start < end <= |s| && p in s[start..end]
    ensures !Past(p, PodKey(s[end - 1]))
  {
    var k :| 0 <= k < end - start && s[start..end][k] == p;
    RowsNotPastNext(s, end, start + k);
  }

  lemma PageGoesForward(pods: seq<Pod>, names: set<string>, cursor: string, size: nat)
    requires size > 0 && Listing(pods, names) && SafeNamespaces(names)
    ensures KeysAscend(PageOf(pods, cursor, size).rows)
    ensures forall p :: p in PageOf(pods, cursor, size).rows ==> Past(p, cursor)
    ensures var page := PageOf(pods, cursor, size); page.next != "" ==>
              StrLt(cursor, page.next) && forall p :: p in page.rows ==> !Past(p, page.next)
  {
    SortedKeysAscend(pods, names);
    var s, page := Sort(pods, PodLe), PageOf(pods, cursor, size);
    var start, end := PageIsSlice(s, cursor, size);
    SliceAscends(s, start, end);
    forall p | p in page.rows ensures Past(p, cursor) && (page.next != "" ==> !Past(p, page.next)) {
      RowsPastCursor(s, cursor, start, end, p);
      if page.next != "" {
        RowsNotPastLast(s, start, end, p);
      }
    }
    if page.next != "" {
      assert page.rows[size - 1] in page.rows;
    }
  }

  // The whole walk.

  lemma AscendConcat(a: seq<Pod>, b: seq<Pod>, cut: string)
    requires KeysAscend(a) && KeysAscend(b)
    requires forall p :: p in a ==> !Past(p, cut)
    requires forall p :: p in b ==> Past(p, cut)
    ensures KeysAscend(a + b)
  {
    var s := a + b;
    forall i, j | 0 <= i < j < |s| ensures StrLt(PodKey(s[i]), PodKey(s[j])) {
      if i < |a| <= j {
        assert s[i] in a && s[j] in b;
        if StrLe(PodKey(s[j]), PodKey(s[i])) {
          StrLeTransitive(PodKey(s[j]), PodKey(s[i]), cut);
        }
      }
    }
  }

  /** However the list changes between pages, the walk goes forward: no row comes twice, none comes
      from behind the cursor. */
  lemma {:induction false} SeenAscends(lists: seq<seq<Pod>>, names: set<string>, cursor: string, size: nat)
    requires size > 0 && Listings(lists, names) && SafeNamespaces(names)
    ensures KeysAscend(Seen(lists, cursor, size))
    ensures forall p :: p in Seen(lists, cursor, size) ==> Past(p, cursor)
  {
    if lists != [] {
      var page := PageOf(lists[0], cursor, size);
      PageGoesForward(lists[0], names, cursor, size);
      if page.next != "" {
        SeenAscends(lists[1..], names, page.next, size);
        var rest := Seen(lists[1..], page.next, size);
        AscendConcat(page.rows, rest, page.next);
        forall p | p in rest ensures Past(p, cursor) {
          StrLtTransitive(cursor, page.next, PodKey(p));
        }
      }
    }
  }

  /** How many requests the client makes before it meets an empty `next` or runs out of them. */
  function Requests(lists: seq<seq<Pod>>, cursor: string, size: nat): (n: nat)
    requires size > 0
    ensures n <= |lists|
  {
    if lists == [] then 0
    else
      var page := PageOf(lists[0], cursor, size);
      1 + if page.next == "" then 0 else Requests(lists[1..], page.next, size)
  }

  /** Every row comes from a snapshot that was asked. */
  lemma {:induction false} SeenComesFromSnapshots(lists: seq<seq<Pod>>, cursor: string, size: nat, p: Pod)
    requires size > 0
    ensures p in Seen(lists, cursor, size) ==> exists k :: 0 <= k < Requests(lists, cursor, size) && p in lists[k]
  {
    if lists != [] && p in Seen(lists, cursor, size) {
      var page := PageOf(lists[0], cursor, size);
      if p in page.rows {
        PodSort(lists[0]);
        SameElements(Sort(lists[0], PodLe), lists[0], p);
        assert p in lists[0];
      } else {
        SeenComesFromSnapshots(lists[1..], page.next, size, p);
        var k :| 0 <= k < Requests(lists[1..], page.next, size) && p in lists[1..][k];
        assert p in lists[k + 1];
      }
    }
  }

  /** A pod that is there throughout is seen, whatever else comes and goes. */
  lemma {:induction false} SteadyPodIsSeen(lists: seq<seq<Pod>>, names: set<string>, cursor: string, size: nat, p: Pod)
    requires size > 0 && Listings(lists, names) && SafeNamespaces(names)
    requires Finished(lists, cursor, size) && Past(p, cursor)
    requires forall l :: l in lists ==> p in l
    ensures p in Seen(lists, cursor, size)
  {
    SortedKeysAscend(lists[0], names);
    PodSort(lists[0]);
    var s := Sort(lists[0], PodLe);
    SameElements(lists[0], s, p);
    var start, end := PageIsSlice(s, cursor, size);
    var k :| 0 <= k < |s| && s[k] == p;
    if k < end {
      assert s[start..end][k - start] == p;
    } else {
      SteadyPodIsSeen(lists[1..], names, PodKey(s[end - 1]), size, p);
    }
  }

  lemma AscendDistinct(s: seq<Pod>)
    requires KeysAscend(s)
    ensures Distinct(s)
  {
    forall i, j | 0 <= i < j < |s| ensures s[i] != s[j] {
      StrLeTotal(PodKey(s[i]), PodKey(s[i]));
    }
  }

  /** From an empty cursor to an empty `next`: each pod present throughout comes exactly once. */
  lemma WalkSeesSteadyPodsOnce(lists: seq<seq<Pod>>, names: set<string>, size: nat, p: Pod)
    requires size > 0 && Listings(lists, names) && SafeNamespaces(names)
    requires Finished(lists, "", size)
    requires forall l :: l in lists ==> p in l
    ensures multiset(Seen(lists, "", size))[p] == 1
  {
    SteadyPodIsSeen(lists, names, "", size, p);
    SeenAscends(lists, names, "", size);
    AscendDistinct(Seen(lists, "", size));
    DistinctOnce(Seen(lists, "", size), p);
  }

  // Termination.

  /** The rows of `m` full pages. */
  function FullPages(m: nat, size: nat): nat {
    if m == 0 then 0 else size + FullPages(m - 1, size)
  }

  lemma {:induction false} FullPagesIsProduct(m: nat, size: nat)
    ensures FullPages(m, size) == m * size
  {
    if m > 0 {
      FullPagesIsProduct(m - 1, size);
      assert m * size == size + (m - 1) * size;
    }
  }

  lemma FullPage(pods: seq<Pod>, cursor: string, size: nat)
    requires size > 0 && PageOf(pods, cursor, size).next != ""
    ensures |PageOf(pods, cursor, size).rows| == size
  {
  }

  lemma SeenLength(lists: seq<seq<Pod>>, cursor: string, size: nat)
    requires size > 0 && lists != [] && PageOf(lists[0], cursor, size).next != ""
    ensures |Seen(lists, cursor, size)| == size + |Seen(lists[1..], PageOf(lists[0], cursor, size).next, size)|
  {
    FullPage(lists[0], cursor, size);
  }

  lemma StillUnfinished(lists: seq<seq<Pod>>, cursor: string, size: nat)
    requires size > 0 && lists != [] && !Finished(lists, cursor, size)
    ensures var next := PageOf(lists[0], cursor, size).next; next != "" && !Finished(lists[1..], next, size)
  {
  }

  lemma {:induction false} UnfinishedPagesAreFull(lists: seq<seq<Pod>>, cursor: string, size: nat)
    requires size > 0 && !Finished(lists, cursor, size)
    ensures |Seen(lists, cursor, size)| == FullPages(|lists|, size)
  {
    if lists != [] {
      var rest, next := lists[1..], PageOf(lists[0], cursor, size).next;
      StillUnfinished(lists, cursor, size);
      UnfinishedPagesAreFull(rest, next, size);
      SeenLength(lists, cursor, size);
      assert |lists| == |rest| + 1;
    }
  }

  /** Pods may churn for ever, but if only `|universe|` different ones take part the walk ends. */
  lemma WalkEnds(lists: seq<seq<Pod>>, names: set<string>, size: nat, universe: set<Pod>)
    requires size > 0 && Listings(lists, names) && SafeNamespaces(names)
    requires forall l, p :: l in lists && p in l ==> p in universe
    requires |lists| * size > |universe|
    ensures Finished(lists, "", size)
  {
    if !Finished(lists, "", size) {
      var seen := Seen(lists, "", size);
      UnfinishedPagesAreFull(lists, "", size);
      FullPagesIsProduct(|lists|, size);
      SeenAscends(lists, names, "", size);
      AscendDistinct(seen);
      forall p | p in seen ensures p in universe {
        SeenComesFromSnapshots(lists, "", size, p);
      }
      DistinctWithin(seen, universe);
    }
  }

  // An unchanged list.

  function Repeat<T>(x: T, m: nat): (r: seq<T>)
    ensures forall y :: y in r ==> y == x
  {
    if m == 0 then [] else [x] + Repeat(x, m - 1)
  }

  lemma NextRequest(pods: seq<Pod>, m: nat, cursor: string, size: nat)
    requires m > 0 && size > 0
    ensures var page := PageOf(pods, cursor, size);
            Seen(Repeat(pods, m), cursor, size)
              == page.rows + if page.next == "" then [] else Seen(Repeat(pods, m - 1), page.next, size)
    ensures var page := PageOf(pods, cursor, size);
            Finished(Repeat(pods, m), cursor, size)
              == (page.next == "" || Finished(Repeat(pods, m - 1), page.next, size))
  {
    assert Repeat(pods, m)[0] == pods && Repeat(pods, m)[1..] == Repeat(pods, m - 1);
  }

  lemma SplitIsUnique(s: seq<Pod>, cursor: string, n: nat)
    requires KeysAscend(s) && SplitAt(s, cursor, n)
    ensures StartOf(s, cursor) == n
  {
    StartSplits(s, cursor);
    var m := StartOf(s, cursor);
    assert m < |s| ==> Past(s[m], cursor);
    assert n < |s| ==> Past(s[n], cursor);
  }

  lemma NextStartsAtEnd(s: seq<Pod>, end: nat)
    requires KeysAscend(s) && 0 < end < |s|
    ensures StartOf(s, PodKey(s[end - 1])) == end
  {
    forall k | 0 <= k < end ensures !Past(s[k], PodKey(s[end - 1])) {
      RowsNotPastNext(s, end, k);
    }
    SplitIsUnique(s, PodKey(s[end - 1]), end);
  }

  /** What follows the cursor. */
  function Rest(s: seq<Pod>, cursor: string): seq<Pod> {
    s[StartOf(s, cursor)..]
  }

  /** What follows the cursor is the page and what follows its `next`. */
  lemma PageThenRest(s: seq<Pod>, cursor: string, size: nat)
    requires KeysAscend(s) && size > 0
    ensures var page := PageOfSorted(s, cursor, size);
            if page.next == "" then Rest(s, cursor) == page.rows
            else Rest(s, cursor) == page.rows + Rest(s, page.next) && |page.rows| == size && Rest(s, page.next) != []
  {
    var start, end := PageIsSlice(s, cursor, size);
    SplitIsUnique(s, cursor, start);
    if end < |s| {
      NextStartsAtEnd(s, end);
      assert s[start..] == s[start..end] + s[end..];
    }
  }

  /** A client that has enough requests left collects all that follows its cursor. */
  ghost predicate Collects(pods: seq<Pod>, size: nat, m: nat, cursor: string)
    requires size > 0
  {
    Finished(Repeat(pods, m), cursor, size) && Seen(Repeat(pods, m), cursor, size) == Rest(Sort(pods, PodLe), cursor)
  }

  lemma RequestCollects(pods: seq<Pod>, size: nat, m: nat, cursor: string)
    requires size > 0 && m > 0 && KeysAscend(Sort(pods, PodLe))
    requires PageOf(pods, cursor, size).next == "" || Collects(pods, size, m - 1, PageOf(pods, cursor, size).next)
    ensures Collects(pods, size, m, cursor)
  {
    PageThenRest(Sort(pods, PodLe), cursor, size);
    NextRequest(pods, m, cursor, size);
  }

  lemma FewerLeft(pods: seq<Pod>, size: nat, m: nat, cursor: string)
    requires size > 0 && KeysAscend(Sort(pods, PodLe)) && PageOf(pods, cursor, size).next != ""
    requires m > 0 && |Rest(Sort(pods, PodLe), cursor)| <= FullPages(m, size)
    ensures m > 1 && |Rest(Sort(pods, PodLe), PageOf(pods, cursor, size).next)| <= FullPages(m - 1, size)
  {
    PageThenRest(Sort(pods, PodLe), cursor, size);
  }

  lemma {:induction false} RestIsCollected(pods: seq<Pod>, size: nat, m: nat, cursor: string)
    requires size > 0 && KeysAscend(Sort(pods, PodLe))
    requires m > 0 && |Rest(Sort(pods, PodLe), cursor)| <= FullPages(m, size)
    ensures Collects(pods, size, m, cursor)
    decreases m
  {
    var next := PageOf(pods, cursor, size).next;
    if next != "" {
      FewerLeft(pods, size, m, cursor);
      RestIsCollected(pods, size, m - 1, next);
    }
    RequestCollects(pods, size, m, cursor);
  }

  /** The pages of this list, put together, are the sorted list. */
  ghost predicate Tiled(pods: seq<Pod>, size: nat)
    requires size > 0
  {
    forall m :: m > 0 && |pods| <= m * size ==>
      Finished(Repeat(pods, m), "", size) && Seen(Repeat(pods, m), "", size) == Sort(pods, PodLe)
  }

  lemma UnchangedListIsTiled(pods: seq<Pod>, names: set<string>, size: nat)
    requires size > 0 && Listing(pods, names) && SafeNamespaces(names)
    ensures Tiled(pods, size)
  {
    PodSort(pods);
    SortedKeysAscend(pods, names);
    forall m: nat | m > 0 && |pods| <= m * size
      ensures Finished(Repeat(pods, m), "", size) && Seen(Repeat(pods, m), "", size) == Sort(pods, PodLe)
    {
      FullPagesIsProduct(m, size);
      RestIsCollected(pods, size, m, "");
    }
  }

  // A list that is not tiled.

  /** `n` pods of one namespace, in order of their names. */
  function Crowd(a: string, n: nat): (s: seq<Pod>)
    ensures |s| == n && forall i :: 0 <= i < n ==> s[i] == Pod(a, Xs(i + 1))
  {
    if n == 0 then [] else Crowd(a, n - 1) + [Pod(a, Xs(n))]
  }

  /** A full page of pods in namespace `a`, then one in `b`. */
  function CrowdAndOne(a: string, b: string, size: nat): (s: seq<Pod>)
    ensures |s| == size + 1
  {
    Crowd(a, size) + [Pod(b, "x")]
  }

  lemma {:induction false} XsAscend(m: nat, n: nat)
    requires m <= n
    ensures StrLe(Xs(m), Xs(n))
  {
    if m < n {
      XsAscend(m, n - 1);
      SamePrefixOrder(Xs(n - 1), "", "x");
      assert Xs(n - 1) + "" == Xs(n - 1);
      StrLeTransitive(Xs(m), Xs(n - 1), Xs(n));
    } else {
      StrLeTotal(Xs(m), Xs(n));
    }
  }

  lemma CrowdKeysAscend(a: string, m: nat, n: nat)
    requires m <= n
    ensures PodLe(Pod(a, Xs(m)), Pod(a, Xs(n)))
    ensures StrLe(PodKey(Pod(a, Xs(m))), PodKey(Pod(a, Xs(n))))
  {
    XsAscend(m, n);
    SamePrefixOrder(a + "/", Xs(m), Xs(n));
  }

  lemma SortedStays(s: seq<Pod>)
    requires SortedBy(s, PodLe)
    ensures Sort(s, PodLe) == s
  {
    PodLeIsTotalOrder();
    SortSorts(s, PodLe);
    SortedIsUnique(s, Sort(s, PodLe), PodLe);
  }

  lemma CrowdAndOneIsSorted(a: string, b: string, size: nat)
    requires Misordered(a, b)
    ensures Sort(CrowdAndOne(a, b, size), PodLe) == CrowdAndOne(a, b, size)
  {
    var s := CrowdAndOne(a, b, size);
    forall i, j | 0 <= i < j < |s| ensures PodLe(s[i], s[j]) {
      if j < size {
        CrowdKeysAscend(a, i + 1, j + 1);
      } else {
        MisorderedDisagrees(a, b, Xs(i + 1), "x");
      }
    }
    SortedStays(s);
  }

  lemma {:induction false} SearchPastNone(s: seq<Pod>, cursor: string, i: nat, j: nat)
    requires i <= j <= |s|
    requires forall k :: 0 <= k < |s| ==> !Past(s[k], cursor)
    ensures SearchAfter(s, cursor, i, j) == j
    decreases j - i
  {
    if i < j {
      assert !Past(s[(i + j) / 2], cursor);
      SearchPastNone(s, cursor, (i + j) / 2 + 1, j);
    }
  }

  lemma SecondPageIsEmpty(a: string, b: string, size: nat)
    requires Misordered(a, b) && size > 0
    ensures var s := CrowdAndOne(a, b, size); PageOfSorted(s, PodKey(s[size - 1]), size) == Page([], "")
  {
    var s := CrowdAndOne(a, b, size);
    var cursor := PodKey(s[size - 1]);
    forall k | 0 <= k < |s| ensures !Past(s[k], cursor) {
      if k < size {
        CrowdKeysAscend(a, k + 1, size);
      } else {
        MisorderedDisagrees(a, b, Xs(size), "x");
        StrLeTotal(PodKey(s[k]), cursor);
      }
    }
    SearchPastNone(s, cursor, 0, |s|);
  }

  lemma FirstPageIsCrowd(a: string, b: string, size: nat)
    requires size > 0
    ensures var s := CrowdAndOne(a, b, size); PageOfSorted(s, "", size) == Page(Crowd(a, size), PodKey(s[size - 1]))
  {
    var s := CrowdAndOne(a, b, size);
    assert s[..size] == Crowd(a, size);
    assert StartOf(s, "") == 0;
  }

  /** With a namespace that extends another by a character below '/', a page boundary between them
      hides the extended one: the pod is in every snapshot and never in a page. */
  lemma MisorderedListLosesPod(a: string, b: string, size: nat, m: nat)
    requires Misordered(a, b) && size > 0 && m >= 2
    ensures Finished(Repeat(CrowdAndOne(a, b, size), m), "", size)
    ensures Pod(b, "x") !in Seen(Repeat(CrowdAndOne(a, b, size), m), "", size)
  {
    var s := CrowdAndOne(a, b, size);
    CrowdAndOneIsSorted(a, b, size);
    FirstPageIsCrowd(a, b, size);
    SecondPageIsEmpty(a, b, size);
    NextRequest(s, m, "", size);
    NextRequest(s, m - 1, PodKey(s[size - 1]), size);
    assert a != b;
  }

  lemma CrowdAndOneIsListing(a: string, b: string, size: nat, names: set<string>)
    requires a in names && b in names && a != b && '/' !in a && '/' !in b
    ensures Listing(CrowdAndOne(a, b, size), names)
  {
    var s := CrowdAndOne(a, b, size);
    forall i, j | 0 <= i < j < |s| ensures s[i] != s[j] {
      assert j < size ==> |s[i].name| != |s[j].name|;
    }
  }

  lemma EnoughRequests(size: nat)
    requires size > 0
    ensures size + 1 <= (size + 1) * size
  {
  }

  lemma CrowdIsNotTiled(a: string, b: string, size: nat)
    requires Misordered(a, b) && size > 0
    ensures !Tiled(CrowdAndOne(a, b, size), size)
  {
    var s := CrowdAndOne(a, b, size);
    CrowdAndOneIsSorted(a, b, size);
    EnoughRequests(size);
    MisorderedListLosesPod(a, b, size, size + 1);
    assert s[size] in s;
  }

  /** Which namespaces may live side by side: every list over them is tiled, at every page size,
      exactly when none of them extends another by a character below '/'. */
  lemma ListsAreTiledExactlyWhenSafe(names: set<string>, size: nat)
    requires size > 0 && forall n :: n in names ==> '/' !in n
    ensures SafeNamespaces(names) <==> forall pods :: Listing(pods, names) ==> Tiled(pods, size)
  {
    if SafeNamespaces(names) {
      forall pods | Listing(pods, names) ensures Tiled(pods, size) {
        UnchangedListIsTiled(pods, names, size);
      }
    } else {
      var a, b :| a in names && b in names && Misordered(a, b);
      var s := CrowdAndOne(a, b, size);
      CrowdAndOneIsListing(a, b, size, names);
      CrowdIsNotTiled(a, b, size);
    }
  }
}
