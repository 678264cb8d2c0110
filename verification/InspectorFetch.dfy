/**
  Batched fetching of Inspector findings: the requested IDs are deduplicated, cut into chunks the
  filter accepts, and each chunk's pages are fanned out over the resources of every finding.
  */
module InspectorFetch {
  import opened Sequences
  import opened Wrappers

  const BATCH_SIZE: nat := 50
  const DIGEST_BATCH_SIZE: nat := 10

  datatype Kind = Ec2Instance | EcrImage | OtherKind

  /** `imageHash` is absent when the resource carries no image details. */
  datatype Resource = Resource(kind: Kind, id: Option<string>, imageHash: Option<string>)

  datatype Details = Details(arn: string, title: string, severity: string, cve: string)

  datatype SdkFinding = SdkFinding(details: Details, resources: seq<Resource>)

  datatype Finding = Finding(resourceID: string, details: Details)

  // Fan-out.

  function Deref(s: Option<string>): string {
    if s.Some? then s.value else ""
  }

  function JoinKey(r: Resource): string {
    match r.kind
    case EcrImage => Deref(r.imageHash)
    case Ec2Instance => Deref(r.id)
    case OtherKind => ""
  }

  function ProjectOne(d: Details, r: Resource): seq<Finding> {
    if JoinKey(r) == "" then [] else [Finding(JoinKey(r), d)]
  }

  function ProjectFrom(d: Details, rs: seq<Resource>): seq<Finding> {
    if rs == [] then [] else ProjectFrom(d, rs[..|rs| - 1]) + ProjectOne(d, rs[|rs| - 1])
  }

  /** One row for each resource the store has a key for. */
  function Project(f: SdkFinding): seq<Finding> {
    ProjectFrom(f.details, f.resources)
  }

  lemma {:induction false} ProjectHas(d: Details, rs: seq<Resource>, x: Finding)
    ensures x in ProjectFrom(d, rs) <==>
            x.details == d && x.resourceID != "" && exists r :: r in rs && JoinKey(r) == x.resourceID
  {
    if rs != [] {
      ProjectHas(d, rs[..|rs| - 1], x);
      assert rs == rs[..|rs| - 1] + [rs[|rs| - 1]];
    }
  }

  method ProjectFinding(f: SdkFinding) returns (out: seq<Finding>)
    ensures out == Project(f)
  {
    out := [];
    for i := 0 to |f.resources|
      invariant out == ProjectFrom(f.details, f.resources[..i])
    {
      var id := JoinKey(f.resources[i]);
      assert f.resources[..i + 1][..i] == f.resources[..i];
      if id != "" {
        out := out + [Finding(id, f.details)];
      }
    }
    assert f.resources[..|f.resources|] == f.resources;
  }

  // Deduplication.

  function Dedup(ids: seq<string>): seq<string> {
    if ids == [] then []
    else
      var d, x := Dedup(ids[..|ids| - 1]), ids[|ids| - 1];
      if x == "" || x in d then d else d + [x]
  }

  method DedupIDs(ids: seq<string>) returns (out: seq<string>)
    ensures out == Dedup(ids)
  {
    out := [];
    var seen: set<string> := {};
    for i := 0 to |ids|
      invariant out == Dedup(ids[..i])
      invariant forall x :: x in seen <==> x in out
    {
      assert ids[..i + 1][..i] == ids[..i];
      if ids[i] != "" && ids[i] !in seen {
        seen := seen + {ids[i]};
        out := out + [ids[i]];
      }
    }
    assert ids[..|ids|] == ids;
  }

  /** Nothing twice, nothing empty, nothing lost. */
  lemma {:induction false} DedupKeepsEachOnce(ids: seq<string>)
    ensures Distinct(Dedup(ids))
    ensures forall x :: x in Dedup(ids) <==> x in ids && x != ""
  {
    if ids != [] {
      DedupKeepsEachOnce(ids[..|ids| - 1]);
      assert ids == ids[..|ids| - 1] + [ids[|ids| - 1]];
    }
  }

  /** The order is that of the first occurrences: a prefix of the input gives a prefix of the output. */
  lemma {:induction false} DedupKeepsOrder(ids: seq<string>, n: nat)
    requires n <= |ids|
    ensures Dedup(ids[..n]) <= Dedup(ids)
  {
    if n < |ids| {
      DedupKeepsOrder(ids[..|ids| - 1], n);
      assert ids[..|ids| - 1][..n] == ids[..n];
    } else {
      assert ids[..n] == ids;
    }
  }

  // Chunks.

  function Chunks<T>(s: seq<T>, size: nat): seq<seq<T>>
    requires size > 0
  {
    if s == [] then []
    else if |s| <= size then [s]
    else [s[..size]] + Chunks(s[size..], size)
  }

  function Concat<T>(ss: seq<seq<T>>): seq<T> {
    if ss == [] then [] else ss[0] + Concat(ss[1..])
  }

  /** The chunks put together are the input; every one fits the filter and only the last may be short. */
  lemma {:induction false} ChunksTile<T>(s: seq<T>, size: nat)
    requires size > 0
    ensures Concat(Chunks(s, size)) == s
    ensures forall k :: 0 <= k < |Chunks(s, size)| ==> 1 <= |Chunks(s, size)[k]| <= size
    ensures forall k :: 0 <= k < |Chunks(s, size)| - 1 ==> |Chunks(s, size)[k]| == size
  {
    if s != [] {
      if |s| <= size {
        assert Concat([s]) == s + Concat([]);
      } else {
        ChunksTile(s[size..], size);
        assert s == s[..size] + s[size..];
      }
    }
  }

  // The API.

  datatype Field = ByInstance | ByDigest

  datatype Criteria = Criteria(field: Field, ids: seq<string>)

  datatype Response = Findings(findings: seq<SdkFinding>) | Fault

  /** The pages that the paginator meets for a filter. */
  type Api = Criteria -> seq<Response>

  predicate ResourceMatches(c: Criteria, r: Resource) {
    match c.field
    case ByInstance => r.id.Some? && r.id.value in c.ids
    case ByDigest => r.imageHash.Some? && r.imageHash.value in c.ids
  }

  predicate Matches(c: Criteria, f: SdkFinding) {
    exists r :: r in f.resources && ResourceMatches(c, r)
  }

  /** What the account holds for a filter. */
  function Matching(account: seq<SdkFinding>, c: Criteria): seq<SdkFinding> {
    if account == [] then []
    else (if Matches(c, account[0]) then [account[0]] else []) + Matching(account[1..], c)
  }

  datatype Fetched = Fetched(findings: seq<SdkFinding>, ok: bool)

  function FetchPages(pages: seq<Response>): Fetched {
    if pages == [] then Fetched([], true)
    else if pages[0].Fault? then Fetched([], false)
    else
      var rest := FetchPages(pages[1..]);
      Fetched(pages[0].findings + rest.findings, rest.ok)
  }

  function FetchChunks(api: Api, field: Field, chunks: seq<seq<string>>): Fetched {
    if chunks == [] then Fetched([], true)
    else
      var first := FetchPages(api(Criteria(field, chunks[0])));
      if !first.ok then first
      else
        var rest := FetchChunks(api, field, chunks[1..]);
        Fetched(first.findings + rest.findings, rest.ok)
  }

  /** The service answers a filter, in pages and in any order, with exactly the findings that have a
      resource in it; a fault cuts the pages short. */
  ghost predicate Serves(api: Api, account: seq<SdkFinding>, c: Criteria) {
    var got := FetchPages(api(c));
    if got.ok then multiset(got.findings) == multiset(Matching(account, c))
    else multiset(got.findings) <= multiset(Matching(account, c))
  }

  // Grouping.

  function Rows(fs: seq<SdkFinding>): seq<Finding> {
    if fs == [] then [] else Project(fs[0]) + Rows(fs[1..])
  }

  function AddRow(m: map<string, seq<Finding>>, x: Finding): map<string, seq<Finding>> {
    m[x.resourceID := (if x.resourceID in m then m[x.resourceID] else []) + [x]]
  }

  function AddRows(m: map<string, seq<Finding>>, rows: seq<Finding>): map<string, seq<Finding>>
    decreases rows
  {
    if rows == [] then m else AddRows(AddRow(m, rows[0]), rows[1..])
  }

  function EnsureKeys(m: map<string, seq<Finding>>, ids: seq<string>): map<string, seq<Finding>>
    decreases ids
  {
    if ids == [] then m
    else EnsureKeys(if ids[0] in m then m else m[ids[0] := []], ids[1..])
  }

  /** The rows of one resource. */
  function RowsFor(rows: seq<Finding>, id: string): seq<Finding> {
    if rows == [] then []
    else (if rows[0].resourceID == id then [rows[0]] else []) + RowsFor(rows[1..], id)
  }

  lemma {:induction false} RowsAppend(a: seq<SdkFinding>, b: seq<SdkFinding>)
    ensures Rows(a + b) == Rows(a) + Rows(b)
  {
    if a == [] {
      assert a + b == b;
    } else {
      assert (a + b)[1..] == a[1..] + b;
      RowsAppend(a[1..], b);
    }
  }

  lemma {:induction false} AddRowsAppend(m: map<string, seq<Finding>>, a: seq<Finding>, b: seq<Finding>)
    ensures AddRows(m, a + b) == AddRows(AddRows(m, a), b)
    decreases a
  {
    if a == [] {
      assert a + b == b;
    } else {
      assert (a + b)[1..] == a[1..] + b;
      AddRowsAppend(AddRow(m, a[0]), a[1..], b);
    }
  }

  // The client.

  method AddFinding(m: map<string, seq<Finding>>, f: SdkFinding) returns (out: map<string, seq<Finding>>)
    ensures out == AddRows(m, Project(f))
  {
    var rows := ProjectFinding(f);
    out := m;
    for i := 0 to |rows|
      invariant AddRows(out, rows[i..]) == AddRows(m, rows)
    {
      out := out[rows[i].resourceID := (if rows[i].resourceID in out then out[rows[i].resourceID] else []) + [rows[i]]];
    }
  }

  method AddPage(m: map<string, seq<Finding>>, findings: seq<SdkFinding>) returns (out: map<string, seq<Finding>>)
    ensures out == AddRows(m, Rows(findings))
  {
    out := m;
    for i := 0 to |findings|
      invariant AddRows(out, Rows(findings[i..])) == AddRows(m, Rows(findings))
    {
      AddRowsAppend(out, Project(findings[i]), Rows(findings[i + 1..]));
      assert findings[i..][1..] == findings[i + 1..];
      out := AddFinding(out, findings[i]);
    }
  }

  method AddPages(m: map<string, seq<Finding>>, pages: seq<Response>)
    returns (out: map<string, seq<Finding>>, ok: bool)
    ensures out == AddRows(m, Rows(FetchPages(pages).findings)) && ok == FetchPages(pages).ok
  {
    out, ok := m, true;
    var i := 0;
    while i < |pages|
      invariant i <= |pages|
      invariant AddRows(out, Rows(FetchPages(pages[i..]).findings)) == AddRows(m, Rows(FetchPages(pages).findings))
      invariant FetchPages(pages[i..]).ok == FetchPages(pages).ok
    {
      assert pages[i..][1..] == pages[i + 1..];
      if pages[i].Fault? {
        return out, false;
      }
      ghost var rest := FetchPages(pages[i + 1..]).findings;
      RowsAppend(pages[i].findings, rest);
      AddRowsAppend(out, Rows(pages[i].findings), Rows(rest));
      out := AddPage(out, pages[i].findings);
      i := i + 1;
    }
  }

  /** What is left to fetch from the `i`th ID on. */
  ghost function Remaining(api: Api, field: Field, ids: seq<string>, i: nat, size: nat): Fetched
    requires size > 0
  {
    FetchChunks(api, field, Chunks(if i < |ids| then ids[i..] else [], size))
  }

  lemma FirstChunk(api: Api, field: Field, ids: seq<string>, i: nat, end: nat, size: nat)
    requires size > 0 && i < |ids| && end == if i + size > |ids| then |ids| else i + size
    ensures var first := FetchPages(api(Criteria(field, ids[i..end])));
            var rest := Remaining(api, field, ids, i + size, size);
            Remaining(api, field, ids, i, size)
              == if first.ok then Fetched(first.findings + rest.findings, rest.ok) else first
  {
    var s := ids[i..];
    assert s[..end - i] == ids[i..end];
    if end < |ids| {
      assert s[size..] == ids[end..];
      assert Chunks(s, size) == [s[..size]] + Chunks(s[size..], size);
      assert Chunks(s, size)[1..] == Chunks(s[size..], size);
    } else {
      assert s == ids[i..end];
      assert Chunks(s, size) == [s] && Chunks(s, size)[1..] == [];
      var first := FetchPages(api(Criteria(field, ids[i..end])));
      assert first.findings + [] == first.findings;
    }
  }

  lemma AddRemaining(m: map<string, seq<Finding>>, api: Api, field: Field, ids: seq<string>, i: nat, end: nat,
                     size: nat)
    requires size > 0 && i < |ids| && end == if i + size > |ids| then |ids| else i + size
    ensures var first := FetchPages(api(Criteria(field, ids[i..end])));
            var rest, left := Remaining(api, field, ids, i + size, size), Remaining(api, field, ids, i, size);
            var got := AddRows(m, Rows(first.findings));
            && left.ok == (first.ok && rest.ok)
            && AddRows(m, Rows(left.findings)) == if first.ok then AddRows(got, Rows(rest.findings)) else got
  {
    FirstChunk(api, field, ids, i, end, size);
    var first := FetchPages(api(Criteria(field, ids[i..end])));
    var rest := Remaining(api, field, ids, i + size, size);
    RowsAppend(first.findings, rest.findings);
    AddRowsAppend(m, Rows(first.findings), Rows(rest.findings));
  }

  /** `m` with the chunks from the `i`th ID on added, up to the first fault. */
  ghost function AddChunks(m: map<string, seq<Finding>>, api: Api, field: Field, ids: seq<string>, i: nat, size: nat)
    : (map<string, seq<Finding>>, bool)
    requires size > 0
    decreases |ids| - i
  {
    if i >= |ids| then (m, true)
    else
      var first := FetchPages(api(Criteria(field, ids[i..if i + size > |ids| then |ids| else i + size])));
      var got := AddRows(m, Rows(first.findings));
      if first.ok then AddChunks(got, api, field, ids, i + size, size) else (got, false)
  }

  lemma {:induction false} AddChunksIsFetch(m: map<string, seq<Finding>>, api: Api, field: Field, ids: seq<string>,
                                            i: nat, size: nat)
    requires size > 0
    ensures var left := Remaining(api, field, ids, i, size);
            AddChunks(m, api, field, ids, i, size) == (AddRows(m, Rows(left.findings)), left.ok)
    decreases |ids| - i
  {
    if i < |ids| {
      var end := if i + size > |ids| then |ids| else i + size;
      AddRemaining(m, api, field, ids, i, end, size);
      AddChunksIsFetch(AddRows(m, Rows(FetchPages(api(Criteria(field, ids[i..end]))).findings)),
                       api, field, ids, i + size, size);
    }
  }

  /** Chunk by chunk, page by page; a fault returns what is there and stops. */
  method ListByIDs(api: Api, ids: seq<string>, field: Field, size: nat)
    returns (out: map<string, seq<Finding>>, ok: bool)
    requires size > 0
    ensures var got := FetchChunks(api, field, Chunks(ids, size));
            out == AddRows(map[], Rows(got.findings)) && ok == got.ok
  {
    out, ok := map[], true;
    AddChunksIsFetch(out, api, field, ids, 0, size);
    assert ids != [] ==> ids[0..] == ids;
    var i := 0;
    while i < |ids|
      invariant 0 <= i && ok
      invariant AddChunks(out, api, field, ids, i, size) == AddChunks(map[], api, field, ids, 0, size)
      decreases |ids| - i
    {
      var end := if i + size > |ids| then |ids| else i + size;
      var pages := api(Criteria(field, ids[i..end]));
      out, ok := AddPages(out, pages);
      if !ok {
        return;
      }
      i := i + size;
    }
  }

  method EnsureKeysIn(m: map<string, seq<Finding>>, ids: seq<string>) returns (out: map<string, seq<Finding>>)
    ensures out == EnsureKeys(m, ids)
  {
    out := m;
    for i := 0 to |ids|
      invariant EnsureKeys(out, ids[i..]) == EnsureKeys(m, ids)
    {
      if ids[i] !in out {
        out := out[ids[i] := []];
      }
    }
  }

  /** What a listing of these IDs returns. */
  function Listing(api: Api, ids: seq<string>, field: Field, size: nat): (r: (map<string, seq<Finding>>, bool))
    requires size > 0
  {
    var got := FetchChunks(api, field, Chunks(Dedup(ids), size));
    (EnsureKeys(AddRows(map[], Rows(got.findings)), Dedup(ids)), got.ok)
  }

  method ListFindingsByInstance(api: Api, ids: seq<string>) returns (out: map<string, seq<Finding>>, ok: bool)
    ensures (out, ok) == Listing(api, ids, ByInstance, 50)
  {
    var unique := DedupIDs(ids);
    out, ok := ListByIDs(api, unique, ByInstance, BATCH_SIZE);
    out := EnsureKeysIn(out, unique);
  }

  method ListFindingsByImageDigest(api: Api, ids: seq<string>) returns (out: map<string, seq<Finding>>, ok: bool)
    ensures (out, ok) == Listing(api, ids, ByDigest, 10)
  {
    var unique := DedupIDs(ids);
    out, ok := ListByIDs(api, unique, ByDigest, DIGEST_BATCH_SIZE);
    out := EnsureKeysIn(out, unique);
  }
}
