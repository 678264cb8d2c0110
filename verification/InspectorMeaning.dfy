/** What a chunked listing returns, compared with the account and with one unchunked call. */
module InspectorMeaning {
  import opened InspectorFetch
  import opened Wrappers

  // From the map back to the rows.

  /** What a map gives for an ID. */
  function At(m: map<string, seq<Finding>>, id: string): seq<Finding> {
    if id in m then m[id] else []
  }

  lemma {:induction false} AddRowsMeans(m: map<string, seq<Finding>>, rows: seq<Finding>, id: string)
    ensures At(AddRows(m, rows), id) == At(m, id) + RowsFor(rows, id)
    ensures id in AddRows(m, rows) <==> id in m || RowsFor(rows, id) != []
    decreases rows
  {
    if rows != [] {
      AddRowsMeans(AddRow(m, rows[0]), rows[1..], id);
    }
  }

  lemma {:induction false} EnsureKeysMeans(m: map<string, seq<Finding>>, ids: seq<string>, id: string)
    ensures At(EnsureKeys(m, ids), id) == At(m, id)
    ensures id in EnsureKeys(m, ids) <==> id in m || id in ids
    decreases ids
  {
    if ids != [] {
      EnsureKeysMeans(if ids[0] in m then m else m[ids[0] := []], ids[1..], id);
    }
  }

  /** The rows that a listing gathers, before they are grouped. */
  function ListedRows(api: Api, ids: seq<string>, field: Field, size: nat): seq<Finding>
    requires size > 0
  {
    Rows(FetchChunks(api, field, Chunks(Dedup(ids), size)).findings)
  }

  lemma ListingMeans(api: Api, ids: seq<string>, field: Field, size: nat, id: string)
    requires size > 0
    ensures var out := Listing(api, ids, field, size).0; var rows := ListedRows(api, ids, field, size);
            At(out, id) == RowsFor(rows, id) && (id in out <==> RowsFor(rows, id) != [] || (id in ids && id != ""))
  {
    var rows := ListedRows(api, ids, field, size);
    AddRowsMeans(map[], rows, id);
    EnsureKeysMeans(AddRows(map[], rows), Dedup(ids), id);
    DedupKeepsEachOnce(ids);
  }

  /** A caller may look up every ID it asked for, even after a fault. */
  lemma RequestedAreKeys(api: Api, ids: seq<string>, field: Field, size: nat)
    requires size > 0
    ensures forall id :: id in ids && id != "" ==> id in Listing(api, ids, field, size).0
  {
    forall id | id in ids && id != "" ensures id in Listing(api, ids, field, size).0 {
      ListingMeans(api, ids, field, size, id);
    }
  }

  // From the rows back to the account.

  lemma {:induction false} RowsForHas(rows: seq<Finding>, id: string, x: Finding)
    ensures x in RowsFor(rows, id) <==> x in rows && x.resourceID == id
  {
    if rows != [] {
      RowsForHas(rows[1..], id, x);
      assert rows == [rows[0]] + rows[1..];
    }
  }

  lemma {:induction false} RowsHas(fs: seq<SdkFinding>, x: Finding)
    ensures x in Rows(fs) <==> exists f :: f in fs && x in Project(f)
  {
    if fs != [] {
      RowsHas(fs[1..], x);
      assert fs == [fs[0]] + fs[1..];
    }
  }

  lemma {:induction false} MatchingHas(account: seq<SdkFinding>, c: Criteria, f: SdkFinding)
    ensures f in Matching(account, c) <==> f in account && Matches(c, f)
  {
    if account != [] {
      MatchingHas(account[1..], c, f);
      assert account == [account[0]] + account[1..];
    }
  }

  /** The service answers each of these filters as `Serves` says. */
  ghost predicate ServesAll(api: Api, account: seq<SdkFinding>, field: Field, chunks: seq<seq<string>>) {
    forall chunk :: chunk in chunks ==> Serves(api, account, Criteria(field, chunk))
  }

  predicate AnyMatches(field: Field, chunks: seq<seq<string>>, f: SdkFinding) {
    exists chunk :: chunk in chunks && Matches(Criteria(field, chunk), f)
  }

  lemma ServedHas(api: Api, account: seq<SdkFinding>, c: Criteria, f: SdkFinding)
    requires Serves(api, account, c)
    ensures f in FetchPages(api(c)).findings ==> f in account && Matches(c, f)
    ensures FetchPages(api(c)).ok && f in account && Matches(c, f) ==> f in FetchPages(api(c)).findings
  {
    var got := FetchPages(api(c)).findings;
    MatchingHas(account, c, f);
    assert f in got <==> f in multiset(got);
    assert f in Matching(account, c) <==> f in multiset(Matching(account, c));
  }

  lemma AnyMatchesCons(field: Field, chunks: seq<seq<string>>, f: SdkFinding)
    requires chunks != []
    ensures AnyMatches(field, chunks, f)
            <==> Matches(Criteria(field, chunks[0]), f) || AnyMatches(field, chunks[1..], f)
  {
    assert chunks == [chunks[0]] + chunks[1..];
  }

  lemma ServesAllCons(api: Api, account: seq<SdkFinding>, field: Field, chunks: seq<seq<string>>)
    requires ServesAll(api, account, field, chunks) && chunks != []
    ensures Serves(api, account, Criteria(field, chunks[0])) && ServesAll(api, account, field, chunks[1..])
  {
  }

  lemma FetchedCons(api: Api, field: Field, chunks: seq<seq<string>>, f: SdkFinding)
    requires chunks != []
    ensures var first := FetchPages(api(Criteria(field, chunks[0])));
            var rest, all := FetchChunks(api, field, chunks[1..]), FetchChunks(api, field, chunks);
            && all.ok == (first.ok && rest.ok)
            && (f in all.findings <==> f in first.findings || (first.ok && f in rest.findings))
  {
  }

  lemma {:induction false} FetchedHas(api: Api, account: seq<SdkFinding>, field: Field, chunks: seq<seq<string>>,
                                      f: SdkFinding)
    requires ServesAll(api, account, field, chunks)
    ensures f in FetchChunks(api, field, chunks).findings ==> f in account && AnyMatches(field, chunks, f)
    ensures FetchChunks(api, field, chunks).ok && f in account && AnyMatches(field, chunks, f)
            ==> f in FetchChunks(api, field, chunks).findings
  {
    if chunks != [] {
      ServesAllCons(api, account, field, chunks);
      ServedHas(api, account, Criteria(field, chunks[0]), f);
      FetchedHas(api, account, field, chunks[1..], f);
      AnyMatchesCons(field, chunks, f);
      FetchedCons(api, field, chunks, f);
    }
  }

  /** A finding's rows: one row for each EC2 instance, under its ID, and each ECR image, under its hash. */
  lemma ProjectMeans(f: SdkFinding, x: Finding)
    ensures x in Project(f) <==>
            x.details == f.details && x.resourceID != ""
            && exists r :: r in f.resources && ((r.kind == Ec2Instance && r.id == Some(x.resourceID))
                                                || (r.kind == EcrImage && r.imageHash == Some(x.resourceID)))
  {
    ProjectHas(f.details, f.resources, x);
  }

  /** All that the API would answer for the chunks, page after page. */
  function AllPages(api: Api, field: Field, chunks: seq<seq<string>>): seq<Response> {
    if chunks == [] then [] else api(Criteria(field, chunks[0])) + AllPages(api, field, chunks[1..])
  }

  /** The findings of these pages. */
  function PageFindings(pages: seq<Response>): seq<SdkFinding> {
    if pages == [] then []
    else (if pages[0].Findings? then pages[0].findings else []) + PageFindings(pages[1..])
  }

  /** The first `n` pages came, and the next, if there is one, failed. */
  ghost predicate CameUpTo(pages: seq<Response>, n: nat) {
    && n <= |pages| && (forall i :: 0 <= i < n ==> pages[i].Findings?)
    && (n < |pages| ==> pages[n].Fault?)
  }

  lemma {:induction false} FetchedPages(pages: seq<Response>) returns (n: nat)
    ensures CameUpTo(pages, n) && FetchPages(pages) == Fetched(PageFindings(pages[..n]), n == |pages|)
  {
    n := 0;
    if pages != [] && pages[0].Findings? {
      n := FetchedPages(pages[1..]);
      n := n + 1;
      assert pages[..n][1..] == pages[1..][..n - 1];
    }
  }

  lemma {:induction false} PageFindingsAppend(a: seq<Response>, b: seq<Response>)
    ensures PageFindings(a + b) == PageFindings(a) + PageFindings(b)
  {
    if a == [] {
      assert a + b == b;
    } else {
      assert (a + b)[1..] == a[1..] + b;
      PageFindingsAppend(a[1..], b);
    }
  }

  /** What is fetched, chunk after chunk and page after page, is all that came before the first fault, and no
      fault is reported exactly if there was none. */
  lemma {:induction false} FetchStopsAtFault(api: Api, field: Field, chunks: seq<seq<string>>) returns (n: nat)
    ensures CameUpTo(AllPages(api, field, chunks), n)
    ensures FetchChunks(api, field, chunks)
         == Fetched(PageFindings(AllPages(api, field, chunks)[..n]), n == |AllPages(api, field, chunks)|)
  {
    n := 0;
    if chunks != [] {
      var first, later := api(Criteria(field, chunks[0])), AllPages(api, field, chunks[1..]);
      var k := FetchedPages(first);
      if k < |first| {
        n := k;
        assert (first + later)[..n] == first[..k];
      } else {
        var m := FetchStopsAtFault(api, field, chunks[1..]);
        n := k + m;
        assert first[..k] == first && (first + later)[..n] == first + later[..m];
        PageFindingsAppend(first, later[..m]);
      }
    }
  }

  lemma {:induction false} ConcatHas<T>(ss: seq<seq<T>>, x: T)
    ensures x in Concat(ss) <==> exists s :: s in ss && x in s
  {
    if ss != [] {
      ConcatHas(ss[1..], x);
      assert ss == [ss[0]] + ss[1..];
    }
  }

  /** Asking chunk by chunk asks for the same findings as asking at once. */
  lemma ChunksMatchWhole(field: Field, ids: seq<string>, size: nat, f: SdkFinding)
    requires size > 0
    ensures AnyMatches(field, Chunks(ids, size), f) <==> Matches(Criteria(field, ids), f)
  {
    var chunks := Chunks(ids, size);
    ChunksTile(ids, size);
    if Matches(Criteria(field, ids), f) {
      var r :| r in f.resources && ResourceMatches(Criteria(field, ids), r);
      var id := if field.ByInstance? then r.id.value else r.imageHash.value;
      ConcatHas(chunks, id);
      var chunk :| chunk in chunks && id in chunk;
      assert ResourceMatches(Criteria(field, chunk), r);
    }
    if AnyMatches(field, chunks, f) {
      var chunk :| chunk in chunks && Matches(Criteria(field, chunk), f);
      var r :| r in f.resources && ResourceMatches(Criteria(field, chunk), r);
      ConcatHas(chunks, if field.ByInstance? then r.id.value else r.imageHash.value);
      assert ResourceMatches(Criteria(field, ids), r);
    }
  }

  ghost predicate ServesListing(api: Api, account: seq<SdkFinding>, ids: seq<string>, field: Field, size: nat)
    requires size > 0
  {
    ServesAll(api, account, field, Chunks(Dedup(ids), size))
  }

  /** `x` is a row of a finding that the filter for all the IDs would select. */
  ghost predicate Due(account: seq<SdkFinding>, ids: seq<string>, field: Field, x: Finding) {
    exists f :: f in account && Matches(Criteria(field, Dedup(ids)), f) && x in Project(f)
  }

  /** A listing has, under each ID, exactly the rows due to it; after a fault, some of them. */
  lemma ListingIsDue(api: Api, account: seq<SdkFinding>, ids: seq<string>, field: Field, size: nat, x: Finding)
    requires size > 0 && ServesListing(api, account, ids, field, size)
    ensures var (out, ok) := Listing(api, ids, field, size);
            && (x in At(out, x.resourceID) ==> Due(account, ids, field, x))
            && (ok && Due(account, ids, field, x) ==> x in At(out, x.resourceID))
  {
    var chunks := Chunks(Dedup(ids), size);
    var got := FetchChunks(api, field, chunks);
    var rows := Rows(got.findings);
    ListingMeans(api, ids, field, size, x.resourceID);
    RowsForHas(rows, x.resourceID, x);
    RowsHas(got.findings, x);
    if x in rows {
      var f :| f in got.findings && x in Project(f);
      FetchedHas(api, account, field, chunks, f);
      ChunksMatchWhole(field, Dedup(ids), size, f);
    }
    if got.ok && Due(account, ids, field, x) {
      var f :| f in account && Matches(Criteria(field, Dedup(ids)), f) && x in Project(f);
      FetchedHas(api, account, field, chunks, f);
      ChunksMatchWhole(field, Dedup(ids), size, f);
    }
  }

  lemma ListingKeepsIDs(api: Api, ids: seq<string>, field: Field, size: nat, id: string, x: Finding)
    requires size > 0 && x in At(Listing(api, ids, field, size).0, id)
    ensures x.resourceID == id
  {
    ListingMeans(api, ids, field, size, id);
    RowsForHas(ListedRows(api, ids, field, size), id, x);
  }

  /** Two listings that met no fault hold the same findings under every ID, whatever the chunk sizes:
      a size no smaller than the input is the one unchunked call. */
  lemma ChunkSizeDoesNotShow(api: Api, account: seq<SdkFinding>, ids: seq<string>, field: Field, m: nat, n: nat,
                             id: string, x: Finding)
    requires m > 0 && n > 0
    requires ServesListing(api, account, ids, field, m) && ServesListing(api, account, ids, field, n)
    requires Listing(api, ids, field, m).1 && Listing(api, ids, field, n).1
    ensures x in At(Listing(api, ids, field, m).0, id) <==> x in At(Listing(api, ids, field, n).0, id)
  {
    ListingIsDue(api, account, ids, field, m, x);
    ListingIsDue(api, account, ids, field, n, x);
    if x in At(Listing(api, ids, field, m).0, id) {
      ListingKeepsIDs(api, ids, field, m, id, x);
    } else if x in At(Listing(api, ids, field, n).0, id) {
      ListingKeepsIDs(api, ids, field, n, id, x);
    }
  }

  /** No finding of a requested resource is missed. */
  lemma RequestedResourceIsComplete(api: Api, account: seq<SdkFinding>, ids: seq<string>, field: Field, size: nat,
                                    f: SdkFinding, r: Resource)
    requires size > 0 && ServesListing(api, account, ids, field, size) && Listing(api, ids, field, size).1
    requires f in account && r in f.resources && JoinKey(r) in ids && JoinKey(r) != ""
    requires r.kind == if field.ByInstance? then Ec2Instance else EcrImage
    ensures Finding(JoinKey(r), f.details) in At(Listing(api, ids, field, size).0, JoinKey(r))
  {
    var x := Finding(JoinKey(r), f.details);
    DedupKeepsEachOnce(ids);
    assert ResourceMatches(Criteria(field, Dedup(ids)), r);
    ProjectHas(f.details, f.resources, x);
    ListingIsDue(api, account, ids, field, size, x);
  }
}
