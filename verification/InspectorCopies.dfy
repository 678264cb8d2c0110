/**
  How often a row comes back. A finding whose resources fall into several chunks is fetched once for
  each of them, and so are its rows.
  */
module InspectorCopies {
  import opened InspectorFetch
  import opened InspectorMeaning
  import opened Sequences

  // Multisets of rows.

  lemma {:induction false} RowsForCount(rows: seq<Finding>, id: string, x: Finding)
    ensures multiset(RowsFor(rows, id))[x] == if x.resourceID == id then multiset(rows)[x] else 0
  {
    if rows != [] {
      assert rows == [rows[0]] + rows[1..];
      RowsForCount(rows[1..], id, x);
    }
  }

  ghost predicate SameRowsFor(a: seq<Finding>, b: seq<Finding>, id: string) {
    multiset(RowsFor(a, id)) == multiset(RowsFor(b, id))
  }

  lemma SameRowsAgree(a: seq<Finding>, b: seq<Finding>, id: string)
    requires multiset(a) == multiset(b)
    ensures SameRowsFor(a, b, id)
  {
    forall x ensures multiset(RowsFor(a, id))[x] == multiset(RowsFor(b, id))[x] {
      RowsForCount(a, id, x);
      RowsForCount(b, id, x);
    }
  }

  /** Lists that agree under every ID are the same multiset of rows. */
  lemma AgreeingRowsAreSame(a: seq<Finding>, b: seq<Finding>)
    requires forall id :: SameRowsFor(a, b, id)
    ensures multiset(a) == multiset(b)
  {
    forall x ensures multiset(a)[x] == multiset(b)[x] {
      assert SameRowsFor(a, b, x.resourceID);
      RowsForCount(a, x.resourceID, x);
      RowsForCount(b, x.resourceID, x);
    }
  }

  lemma MiddleOut<T>(a: seq<T>, b: seq<T>, c: seq<T>)
    ensures multiset(a + (b + c)) == multiset(b) + multiset(a + c)
  {
  }

  lemma RowsCons(f: SdkFinding, fs: seq<SdkFinding>)
    ensures Rows([f] + fs) == Project(f) + Rows(fs)
  {
    assert ([f] + fs)[1..] == fs;
  }

  lemma RowsBetween(before: seq<SdkFinding>, f: SdkFinding, after: seq<SdkFinding>)
    ensures multiset(Rows(before + ([f] + after))) == multiset(Project(f)) + multiset(Rows(before + after))
  {
    RowsCons(f, after);
    RowsAppend(before, after);
    RowsAppend(before, [f] + after);
    MiddleOut(Rows(before), Project(f), Rows(after));
  }

  lemma SameWithout<T>(x: T, a: seq<T>, b: seq<T>)
    requires multiset{x} + multiset(a) == multiset{x} + multiset(b)
    ensures multiset(a) == multiset(b)
  {
    assert multiset(a) == multiset{x} + multiset(a) - multiset{x};
    assert multiset(b) == multiset{x} + multiset(b) - multiset{x};
  }

  lemma SplitAt<T>(s: seq<T>, x: T) returns (before: seq<T>, after: seq<T>)
    requires x in s
    ensures s == before + ([x] + after)
  {
    var i :| 0 <= i < |s| && s[i] == x;
    before, after := s[..i], s[i + 1..];
  }

  /** The first element of one order stands somewhere in the other; the rest are a permutation again. */
  lemma FindFirst<T>(a: seq<T>, b: seq<T>) returns (before: seq<T>, after: seq<T>)
    requires a != [] && multiset(a) == multiset(b)
    ensures b == before + ([a[0]] + after) && multiset(a[1..]) == multiset(before + after)
  {
    assert a[0] in multiset(b);
    before, after := SplitAt(b, a[0]);
    MiddleOut(before, [a[0]], after);
    assert a == [a[0]] + a[1..];
    SameWithout(a[0], a[1..], before + after);
  }

  /** The rows do not depend on the order in which the findings came. */
  lemma {:induction false} RowsOfPermutation(a: seq<SdkFinding>, b: seq<SdkFinding>)
    requires multiset(a) == multiset(b)
    ensures multiset(Rows(a)) == multiset(Rows(b))
  {
    if a == [] {
      assert |multiset(b)| == |b|;
    } else {
      var before, after := FindFirst(a, b);
      RowsBetween(before, a[0], after);
      RowsOfPermutation(a[1..], before + after);
    }
  }

  // What the account is expected to return.

  function Expected(account: seq<SdkFinding>, field: Field, chunks: seq<seq<string>>): seq<SdkFinding> {
    if chunks == [] then []
    else Matching(account, Criteria(field, chunks[0])) + Expected(account, field, chunks[1..])
  }

  lemma {:induction false} FetchedIsExpected(api: Api, account: seq<SdkFinding>, field: Field, chunks: seq<seq<string>>)
    requires ServesAll(api, account, field, chunks) && FetchChunks(api, field, chunks).ok
    ensures multiset(FetchChunks(api, field, chunks).findings) == multiset(Expected(account, field, chunks))
  {
    if chunks != [] {
      ServesAllCons(api, account, field, chunks);
      FetchedIsExpected(api, account, field, chunks[1..]);
    }
  }

  /** How many of the chunks select a finding. */
  function Hits(field: Field, chunks: seq<seq<string>>, f: SdkFinding): nat {
    if chunks == [] then 0
    else (if Matches(Criteria(field, chunks[0]), f) then 1 else 0) + Hits(field, chunks[1..], f)
  }

  function Copies<T>(s: seq<T>, n: nat): seq<T> {
    if n == 0 then [] else s + Copies(s, n - 1)
  }

  lemma Regroup<T>(a: seq<T>, b: seq<T>, c: seq<T>, d: seq<T>, e: seq<T>)
    requires multiset(e) == multiset(c) + multiset(d)
    ensures multiset((a + b) + e) == multiset(a + c) + multiset(b + d)
  {
  }

  /** The copy of `f` that a filter selects, if any. */
  function Selected(c: Criteria, f: SdkFinding): seq<SdkFinding> {
    if Matches(c, f) then [f] else []
  }

  lemma CopiesOfHits(field: Field, chunks: seq<seq<string>>, f: SdkFinding)
    requires chunks != []
    ensures Copies([f], Hits(field, chunks, f))
            == Selected(Criteria(field, chunks[0]), f) + Copies([f], Hits(field, chunks[1..], f))
  {
  }

  lemma ExpectedCons(account: seq<SdkFinding>, field: Field, chunks: seq<seq<string>>)
    requires account != [] && chunks != []
    ensures var c := Criteria(field, chunks[0]);
            Expected(account, field, chunks)
              == (Selected(c, account[0]) + Matching(account[1..], c)) + Expected(account, field, chunks[1..])
  {
  }

  lemma {:induction false} ExpectedOfFirst(account: seq<SdkFinding>, field: Field, chunks: seq<seq<string>>)
    requires account != []
    ensures multiset(Expected(account, field, chunks))
            == multiset(Copies([account[0]], Hits(field, chunks, account[0])))
               + multiset(Expected(account[1..], field, chunks))
  {
    if chunks != [] {
      ExpectedOfFirst(account, field, chunks[1..]);
      var f, c := account[0], Criteria(field, chunks[0]);
      ExpectedCons(account, field, chunks);
      CopiesOfHits(field, chunks, f);
      Regroup(Selected(c, f), Matching(account[1..], c),
              Copies([f], Hits(field, chunks[1..], f)), Expected(account[1..], field, chunks[1..]),
              Expected(account, field, chunks[1..]));
    }
  }

  lemma {:induction false} RowsOfCopies(f: SdkFinding, n: nat)
    ensures Rows(Copies([f], n)) == Copies(Project(f), n)
  {
    if n > 0 {
      RowsOfCopies(f, n - 1);
      assert ([f] + Copies([f], n - 1))[1..] == Copies([f], n - 1);
    }
  }

  lemma RowsOfFirst(account: seq<SdkFinding>, field: Field, chunks: seq<seq<string>>)
    requires account != []
    ensures multiset(Rows(Expected(account, field, chunks)))
            == multiset(Copies(Project(account[0]), Hits(field, chunks, account[0])))
               + multiset(Rows(Expected(account[1..], field, chunks)))
  {
    var n := Hits(field, chunks, account[0]);
    var rest := Expected(account[1..], field, chunks);
    ExpectedOfFirst(account, field, chunks);
    RowsOfPermutation(Expected(account, field, chunks), Copies([account[0]], n) + rest);
    RowsAppend(Copies([account[0]], n), rest);
    RowsOfCopies(account[0], n);
  }

  // Chunks against the whole.

  /** The second list of chunks selects each finding once if the first selects it at all. */
  ghost predicate OnceForAny(field: Field, chunks: seq<seq<string>>, whole: seq<seq<string>>) {
    forall f :: Hits(field, whole, f) == if Hits(field, chunks, f) > 0 then 1 else 0
  }

  /** A finding with rows that is fetched more than once. */
  predicate Spans(field: Field, chunks: seq<seq<string>>, f: SdkFinding) {
    Project(f) != [] && Hits(field, chunks, f) > 1
  }

  predicate AnySpans(account: seq<SdkFinding>, field: Field, chunks: seq<seq<string>>) {
    exists f :: f in account && Spans(field, chunks, f)
  }

  lemma AnySpansCons(account: seq<SdkFinding>, field: Field, chunks: seq<seq<string>>)
    requires account != []
    ensures AnySpans(account, field, chunks)
            <==> Spans(field, chunks, account[0]) || AnySpans(account[1..], field, chunks)
  {
    assert account == [account[0]] + account[1..];
  }

  lemma {:induction false} CopiesGrow<T>(s: seq<T>, n: nat)
    ensures |Copies(s, n)| >= if n == 0 then 0 else |s|
    ensures n > 1 && s != [] ==> |Copies(s, n)| > |s|
    ensures s == [] ==> Copies(s, n) == []
  {
    if n > 0 {
      CopiesGrow(s, n - 1);
    }
  }

  lemma {:induction false} RowsCompared(account: seq<SdkFinding>, field: Field, chunks: seq<seq<string>>,
                                        whole: seq<seq<string>>)
    requires OnceForAny(field, chunks, whole)
    ensures var a, b := Rows(Expected(account, field, chunks)), Rows(Expected(account, field, whole));
            && |a| >= |b|
            && (AnySpans(account, field, chunks) ==> |a| > |b|)
            && (!AnySpans(account, field, chunks) ==> multiset(a) == multiset(b))
  {
    if account == [] {
      NothingExpected(field, chunks);
      NothingExpected(field, whole);
    } else {
      RowsCompared(account[1..], field, chunks, whole);
      FirstCompared(account, field, chunks, whole);
      AnySpansCons(account, field, chunks);
    }
  }

  lemma {:induction false} NothingExpected(field: Field, chunks: seq<seq<string>>)
    ensures Expected([], field, chunks) == []
  {
    if chunks != [] {
      NothingExpected(field, chunks[1..]);
    }
  }

  lemma FirstCompared(account: seq<SdkFinding>, field: Field, chunks: seq<seq<string>>, whole: seq<seq<string>>)
    requires account != [] && OnceForAny(field, chunks, whole)
    ensures var a, b := Rows(Expected(account, field, chunks)), Rows(Expected(account, field, whole));
            var c, d := Rows(Expected(account[1..], field, chunks)), Rows(Expected(account[1..], field, whole));
            && |a| - |c| >= |b| - |d|
            && (Spans(field, chunks, account[0]) ==> |a| - |c| > |b| - |d|)
            && (!Spans(field, chunks, account[0]) && multiset(c) == multiset(d) ==> multiset(a) == multiset(b))
  {
    var f := account[0];
    var n, m := Hits(field, chunks, f), Hits(field, whole, f);
    RowsOfFirst(account, field, chunks);
    RowsOfFirst(account, field, whole);
    FirstSizes(account, field, chunks);
    FirstSizes(account, field, whole);
    CopiesGrow(Project(f), n);
    assert Copies(Project(f), 1) == Project(f) + Copies(Project(f), 0);
    assert m <= 1 && |Copies(Project(f), m)| <= |Copies(Project(f), n)|;
  }

  lemma FirstSizes(account: seq<SdkFinding>, field: Field, chunks: seq<seq<string>>)
    requires account != []
    ensures |Rows(Expected(account, field, chunks))|
            == |Copies(Project(account[0]), Hits(field, chunks, account[0]))|
               + |Rows(Expected(account[1..], field, chunks))|
  {
    RowsOfFirst(account, field, chunks);
    assert |multiset(Rows(Expected(account, field, chunks)))| == |Rows(Expected(account, field, chunks))|;
  }

  // Whole listings.

  lemma {:induction false} HitsMeans(field: Field, chunks: seq<seq<string>>, f: SdkFinding)
    ensures Hits(field, chunks, f) > 0 <==> AnyMatches(field, chunks, f)
    ensures Hits(field, chunks, f) <= |chunks|
  {
    if chunks != [] {
      HitsMeans(field, chunks[1..], f);
      AnyMatchesCons(field, chunks, f);
    }
  }

  lemma WholeIsOnce(field: Field, ids: seq<string>, m: nat, n: nat)
    requires m > 0 && n > 0 && n >= |ids|
    ensures OnceForAny(field, Chunks(ids, m), Chunks(ids, n))
  {
    forall f ensures Hits(field, Chunks(ids, n), f) == if Hits(field, Chunks(ids, m), f) > 0 then 1 else 0 {
      HitsMeans(field, Chunks(ids, m), f);
      HitsMeans(field, Chunks(ids, n), f);
      ChunksMatchWhole(field, ids, m, f);
      ChunksMatchWhole(field, ids, n, f);
    }
  }

  lemma ListedIsExpected(api: Api, account: seq<SdkFinding>, ids: seq<string>, field: Field, size: nat)
    requires size > 0 && ServesListing(api, account, ids, field, size) && Listing(api, ids, field, size).1
    ensures multiset(ListedRows(api, ids, field, size)) 
         == multiset(Rows(Expected(account, field, Chunks(Dedup(ids), size))))
    ensures |ListedRows(api, ids, field, size)| == |Rows(Expected(account, field, Chunks(Dedup(ids), size)))|
  {
    var chunks := Chunks(Dedup(ids), size);
    FetchedIsExpected(api, account, field, chunks);
    RowsOfPermutation(FetchChunks(api, field, chunks).findings, Expected(account, field, chunks));
    assert |multiset(ListedRows(api, ids, field, size))| == |ListedRows(api, ids, field, size)|;
  }

  /** Both listings hold the same rows under `id`, each as often. */
  ghost predicate SameListing(api: Api, ids: seq<string>, field: Field, m: nat, n: nat, id: string)
    requires m > 0 && n > 0
  {
    multiset(At(Listing(api, ids, field, m).0, id)) == multiset(At(Listing(api, ids, field, n).0, id))
  }

  lemma SameListingMeans(api: Api, ids: seq<string>, field: Field, m: nat, n: nat, id: string)
    requires m > 0 && n > 0
    ensures SameListing(api, ids, field, m, n, id)
            <==> SameRowsFor(ListedRows(api, ids, field, m), ListedRows(api, ids, field, n), id)
  {
    ListingMeans(api, ids, field, m, id);
    ListingMeans(api, ids, field, n, id);
  }

  lemma SameListingsSameRows(api: Api, ids: seq<string>, field: Field, m: nat, n: nat)
    requires m > 0 && n > 0
    requires forall id :: SameListing(api, ids, field, m, n, id)
    ensures |ListedRows(api, ids, field, m)| == |ListedRows(api, ids, field, n)|
  {
    var a, b := ListedRows(api, ids, field, m), ListedRows(api, ids, field, n);
    forall id ensures SameRowsFor(a, b, id) {
      SameListingMeans(api, ids, field, m, n, id);
    }
    AgreeingRowsAreSame(a, b);
    assert |multiset(a)| == |a|;
  }

  /** A chunked listing has, under every ID, each row as often as one unchunked call has, exactly when
      no finding in the account has resources in two chunks. */
  lemma SameRowsExactlyWhenNoFindingSpans(api: Api, account: seq<SdkFinding>, ids: seq<string>, field: Field, m: nat,
                                          n: nat)
    requires m > 0 && n > 0 && n >= |Dedup(ids)|
    requires ServesListing(api, account, ids, field, m) && ServesListing(api, account, ids, field, n)
    requires Listing(api, ids, field, m).1 && Listing(api, ids, field, n).1
    ensures (forall id :: SameListing(api, ids, field, m, n, id)) <==> !AnySpans(account, field, Chunks(Dedup(ids), m))
  {
    var a, b := ListedRows(api, ids, field, m), ListedRows(api, ids, field, n);
    ListedIsExpected(api, account, ids, field, m);
    ListedIsExpected(api, account, ids, field, n);
    WholeIsOnce(field, Dedup(ids), m, n);
    RowsCompared(account, field, Chunks(Dedup(ids), m), Chunks(Dedup(ids), n));
    if !AnySpans(account, field, Chunks(Dedup(ids), m)) {
      forall id ensures SameListing(api, ids, field, m, n, id) {
        SameRowsAgree(a, b, id);
        SameListingMeans(api, ids, field, m, n, id);
      }
    } else if forall id :: SameListing(api, ids, field, m, n, id) {
      SameListingsSameRows(api, ids, field, m, n);
    }
  }

  lemma {:induction false} DistinctChunksShareNothing(ids: seq<string>, size: nat, id: string)
    requires size > 0 && Distinct(ids)
    ensures forall i, j :: 0 <= i < j < |Chunks(ids, size)| && id in Chunks(ids, size)[i] ==>
              id !in Chunks(ids, size)[j]
  {
    if |ids| > size {
      DistinctChunksShareNothing(ids[size..], size, id);
      ChunksTile(ids[size..], size);
      forall j | 1 <= j < |Chunks(ids, size)| && id in ids[..size] ensures id !in Chunks(ids, size)[j] {
        assert Chunks(ids, size)[j] == Chunks(ids[size..], size)[j - 1];
        ConcatHas(Chunks(ids[size..], size), id);
      }
    }
  }

  lemma {:induction false} DistinctIDHitsOnce(field: Field, chunks: seq<seq<string>>, f: SdkFinding, r: Resource)
    requires f.resources == [r]
    requires forall i, j, id :: 0 <= i < j < |chunks| && id in chunks[i] ==> id !in chunks[j]
    ensures Hits(field, chunks, f) <= 1
  {
    if chunks != [] {
      DistinctIDHitsOnce(field, chunks[1..], f, r);
      if Matches(Criteria(field, chunks[0]), f) {
        HitsMeans(field, chunks[1..], f);
        assert ResourceMatches(Criteria(field, chunks[0]), r);
        var id := if field.ByInstance? then r.id.value else r.imageHash.value;
        assert id in chunks[0];
        forall j | 1 <= j < |chunks| ensures !Matches(Criteria(field, chunks[j]), f) {
          assert id !in chunks[j];
        }
      }
    }
  }

  /** With one resource to a finding, chunking cannot show at all. */
  lemma SingleResourcesListTheSame(api: Api, account: seq<SdkFinding>, ids: seq<string>, field: Field, m: nat, n: nat)
    requires m > 0 && n > 0 && n >= |Dedup(ids)|
    requires ServesListing(api, account, ids, field, m) && ServesListing(api, account, ids, field, n)
    requires Listing(api, ids, field, m).1 && Listing(api, ids, field, n).1
    requires forall f :: f in account ==> |f.resources| <= 1
    ensures forall id :: SameListing(api, ids, field, m, n, id)
  {
    var chunks := Chunks(Dedup(ids), m);
    DedupKeepsEachOnce(ids);
    forall i, j, id | 0 <= i < j < |chunks| && id in chunks[i] ensures id !in chunks[j] {
      DistinctChunksShareNothing(Dedup(ids), m, id);
    }
    forall f | f in account ensures !Spans(field, chunks, f) {
      if f.resources != [] {
        DistinctIDHitsOnce(field, chunks, f, f.resources[0]);
      }
    }
    SameRowsExactlyWhenNoFindingSpans(api, account, ids, field, m, n);
  }
}
