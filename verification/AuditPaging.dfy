/**
  The audit reader's paging: clamped limit and offset over a newest-first order, the total of the
  same filter, and what a client sees that steps the offset by the limit it was given.
  */
module AuditPaging {
  import opened Wrappers
  import opened Ordering
  import opened AuditQuery
  import opened AuditQueryMeaning

  const DEFAULT_QUERY_LIMIT: nat := 50
  const MAX_QUERY_LIMIT: nat := 500

  /** A table row: its key, and the event it was stored from. */
  datatype Stored = Stored(id: int, event: Event)

  datatype Item = Item(id: int, event: Event)

  datatype QueryResult = QueryResult(items: seq<Item>, total: nat, limit: nat, offset: nat)

  ghost predicate UniqueIds(table: seq<Stored>) {
    forall i, j :: 0 <= i < j < |table| ==> table[i].id != table[j].id
  }

  /** ORDER BY ts_unix_nano DESC, id DESC. */
  predicate NewerFirst(a: Stored, b: Stored) {
    a.event.timestamp > b.event.timestamp || (a.event.timestamp == b.event.timestamp && a.id >= b.id)
  }

  predicate Selected(where: string, args: seq<Value>, s: Stored) {
    EvalWhere(where, args, Record(s.event)) == Some(True)
  }

  function Select(table: seq<Stored>, where: string, args: seq<Value>): seq<Stored> {
    if table == [] then []
    else (if Selected(where, args, table[0]) then [table[0]] else []) + Select(table[1..], where, args)
  }

  function Slice<T>(s: seq<T>, limit: nat, offset: nat): seq<T> {
    if offset >= |s| then [] else if offset + limit >= |s| then s[offset..] else s[offset..offset + limit]
  }

  function ToItem(s: Stored): Item {
    Item(s.id, ScanRow(Record(s.event)))
  }

  function ToItems(rows: seq<Stored>): (items: seq<Item>)
    ensures |items| == |rows|
  {
    if rows == [] then [] else [ToItem(rows[0])] + ToItems(rows[1..])
  }

  /** The rows a WHERE text selects, newest first. */
  function Found(table: seq<Stored>, where: string, args: seq<Value>): seq<Stored> {
    Sort(Select(table, where, args), NewerFirst)
  }

  function Limit(limit: int): nat {
    if limit <= 0 then DEFAULT_QUERY_LIMIT else if limit > MAX_QUERY_LIMIT then MAX_QUERY_LIMIT else limit
  }

  function Offset(offset: int): nat {
    if offset < 0 then 0 else offset
  }

  /** What one pair of SELECTs with clamped bounds returns. */
  function Page(table: seq<Stored>, where: string, args: seq<Value>, limit: int, offset: int): (r: QueryResult)
    ensures r.total == |Select(table, where, args)| && r.limit == Limit(limit) > 0 && r.offset == Offset(offset)
  {
    QueryResult(ToItems(Slice(Found(table, where, args), Limit(limit), Offset(offset))),
                |Select(table, where, args)|, Limit(limit), Offset(offset))
  }

  function Query(table: seq<Stored>, q: QueryArgs): QueryResult {
    Page(table, WhereText(q), Args(Filters(q)), q.limit, q.offset)
  }

  method ScanRows(found: seq<Stored>) returns (items: seq<Item>)
    ensures items == ToItems(found)
  {
    items := [];
    for k := 0 to |found|
      invariant items + ToItems(found[k..]) == ToItems(found)
    {
      items := items + [ToItem(found[k])];
    }
  }

  class AuditTable {
    var rows: seq<Stored>

    method RunQuery(q: QueryArgs) returns (r: QueryResult)
      ensures r == Query(rows, q)
      ensures r.limit == if q.limit <= 0 then 50 else if q.limit > 500 then 500 else q.limit
      ensures r.offset == if q.offset < 0 then 0 else q.offset
    {
      var where, args := BuildQueryWhere(q);
      var limit := q.limit;
      if limit <= 0 {
        limit := DEFAULT_QUERY_LIMIT;
      }
      if limit > MAX_QUERY_LIMIT {
        limit := MAX_QUERY_LIMIT;
      }
      var offset := q.offset;
      if offset < 0 {
        offset := 0;
      }
      var total := |Select(rows, where, args)|;
      var found := Slice(Sort(Select(rows, where, args), NewerFirst), limit, offset);
      var items := ScanRows(found);
      r := QueryResult(items, total, limit, offset);
    }
  }

  lemma NewerFirstIsPreorder()
    ensures TotalPreorder(NewerFirst)
  {
  }

  lemma {:induction false} SelectMembers(table: seq<Stored>, where: string, args: seq<Value>)
    ensures forall s :: multiset(Select(table, where, args))[s] ==
                        if Selected(where, args, s) then multiset(table)[s] else 0
  {
    if table != [] {
      SelectMembers(table[1..], where, args);
      assert table == [table[0]] + table[1..];
    }
  }

  lemma SelectedHaveNoTies(table: seq<Stored>, where: string, args: seq<Value>, found: seq<Stored>)
    requires UniqueIds(table) && multiset(found) == multiset(Select(table, where, args))
    ensures NoTies(found, NewerFirst)
  {
    SelectMembers(table, where, args);
    forall x, y | x in found && y in found && NewerFirst(x, y) && NewerFirst(y, x) ensures x == y {
      assert x in multiset(found) && y in multiset(found);
      assert x in multiset(table) && y in multiset(table);
    }
  }

  /** With unique ids the order has no ties: every engine gives every request the same sequence. */
  lemma OrderIsDetermined(table: seq<Stored>, where: string, args: seq<Value>, found: seq<Stored>)
    requires UniqueIds(table)
    requires SortedBy(found, NewerFirst)
    requires multiset(found) == multiset(Select(table, where, args))
    ensures found == Found(table, where, args)
  {
    NewerFirstIsPreorder();
    SortSorts(Select(table, where, args), NewerFirst);
    SelectedHaveNoTies(table, where, args, found);
    SortedIsUnique(found, Found(table, where, args), NewerFirst);
  }

  /** Later rows have lower timestamps, or the same and lower ids. */
  predicate NewestFirst(s: seq<Stored>) {
    forall i, j :: 0 <= i < j < |s| ==>
      var a, b := s[i], s[j];
      a.event.timestamp > b.event.timestamp || (a.event.timestamp == b.event.timestamp && a.id >= b.id)
  }

  lemma {:induction false} SortedIsNewestFirst(s: seq<Stored>)
    requires SortedBy(s, NewerFirst)
    ensures NewestFirst(s)
  {
    forall i, j | 0 <= i < j < |s| ensures NewerFirst(s[i], s[j]) {
    }
  }

  lemma {:induction false} ItemsAre(rows: seq<Stored>, k: nat)
    requires k < |rows|
    ensures ToItems(rows)[k] == Item(rows[k].id, rows[k].event.(route := ""))
  {
    RecordRoundTrip(rows[0].event);
    if k > 0 {
      ItemsAre(rows[1..], k - 1);
    }
  }

  /** These items are the rows from the offset on, as many as the limit allows, each with its id and its event. */
  predicate ItemsOf(items: seq<Item>, rows: seq<Stored>, limit: nat, offset: nat) {
    && |items| == (if offset >= |rows| then 0 else if |rows| - offset < limit then |rows| - offset else limit)
    && forall k :: 0 <= k < |items| ==>
         && offset + k < |rows|
         && items[k] == Item(rows[offset + k].id, rows[offset + k].event.(route := ""))
  }

  lemma SliceItems(rows: seq<Stored>, limit: nat, offset: nat)
    ensures ItemsOf(ToItems(Slice(rows, limit, offset)), rows, limit, offset)
  {
    var slice := Slice(rows, limit, offset);
    forall k | 0 <= k < |slice|
      ensures offset + k < |rows|
      ensures ToItems(slice)[k] == Item(rows[offset + k].id, rows[offset + k].event.(route := ""))
    {
      ItemsAre(slice, k);
      assert slice[k] == rows[offset + k];
    }
  }

  lemma PageIsSlice(table: seq<Stored>, q: QueryArgs)
    ensures var r := Query(table, q);
            ItemsOf(r.items, Found(table, WhereText(q), Args(Filters(q))), r.limit, r.offset)
  {
    PageItems(table, WhereText(q), Args(Filters(q)), q.limit, q.offset);
    SliceItems(Found(table, WhereText(q), Args(Filters(q))), Limit(q.limit), Offset(q.offset));
  }

  /** The rows found are the matching rows, as often as they are in the table, newest first; the
      total counts them. */
  lemma FoundIsMatches(table: seq<Stored>, q: QueryArgs)
    ensures
      var found := Found(table, WhereText(q), Args(Filters(q)));
      && SortedBy(found, NewerFirst) && NewestFirst(found)
      && (forall s :: multiset(found)[s] == if Matches(q, s.event) then multiset(table)[s] else 0)
      && Query(table, q).total == |found|
  {
    NewerFirstIsPreorder();
    SortSorts(Select(table, WhereText(q), Args(Filters(q))), NewerFirst);
    SelectMembers(table, WhereText(q), Args(Filters(q)));
    SortedIsNewestFirst(Found(table, WhereText(q), Args(Filters(q))));
    forall s: Stored ensures Selected(WhereText(q), Args(Filters(q)), s) <==> Matches(q, s.event) {
      WhereSelectsMatches(q, s.event);
    }
  }

  /** The offset takes no part in the filter: the same query from elsewhere is another page. */
  lemma MovedQueryIsPage(table: seq<Stored>, q: QueryArgs, offset: int)
    ensures Query(table, q.(offset := offset)) == Page(table, WhereText(q), Args(Filters(q)), q.limit, offset)
  {
    assert Filters(q.(offset := offset)) == Filters(q);
  }

  lemma FoundLength(table: seq<Stored>, where: string, args: seq<Value>)
    ensures |Found(table, where, args)| == |Select(table, where, args)|
  {
    NewerFirstIsPreorder();
    SortSorts(Select(table, where, args), NewerFirst);
  }

  lemma {:induction false} ToItemsAppend(a: seq<Stored>, b: seq<Stored>)
    ensures ToItems(a + b) == ToItems(a) + ToItems(b)
  {
    if a == [] {
      assert a + b == b;
    } else {
      assert (a + b)[1..] == a[1..] + b;
      ToItemsAppend(a[1..], b);
    }
  }

  lemma PagesJoin(all: seq<Stored>, limit: nat, offset: nat)
    requires offset + limit < |all|
    ensures ToItems(Slice(all, limit, offset)) + ToItems(Slice(all, |all|, offset + limit))
         == ToItems(Slice(all, |all|, offset))
  {
    assert all[offset..] == all[offset..offset + limit] + all[offset + limit..];
    ToItemsAppend(all[offset..offset + limit], all[offset + limit..]);
  }

  /** Every answer is about the same `total` rows, from the offset asked for. */
  ghost predicate Steady(ask: nat -> QueryResult, total: nat) {
    forall offset: nat :: var r := ask(offset); r.total == total && r.offset == offset && r.limit > 0
  }

  /** A client that repeats its query with the offset moved on by the limit it was told, until the
      total is reached. */
  ghost function Follow(ask: nat -> QueryResult, total: nat, offset: nat): seq<Item>
    requires Steady(ask, total)
    decreases total - offset
  {
    var r := ask(offset);
    if r.offset + r.limit >= r.total then r.items else r.items + Follow(ask, total, r.offset + r.limit)
  }

  /** The answers to a query text, by offset. */
  function Pages(table: seq<Stored>, where: string, args: seq<Value>, limit: int): (ask: nat -> QueryResult)
    ensures Steady(ask, |Select(table, where, args)|)
  {
    offset => Page(table, where, args, limit, offset)
  }

  ghost function Walk(table: seq<Stored>, where: string, args: seq<Value>, limit: int, offset: nat): seq<Item> {
    Follow(Pages(table, where, args, limit), |Select(table, where, args)|, offset)
  }

  /** The items from an offset on. */
  function Rest(all: seq<Stored>, offset: nat): seq<Item> {
    ToItems(Slice(all, |all|, offset))
  }

  function From(table: seq<Stored>, where: string, args: seq<Value>, offset: nat): seq<Item> {
    Rest(Found(table, where, args), offset)
  }

  lemma LastSlice(all: seq<Stored>, limit: nat, offset: nat)
    requires offset + limit >= |all|
    ensures Slice(all, limit, offset) == Slice(all, |all|, offset)
  {
  }

  lemma SliceThenRest(all: seq<Stored>, r: QueryResult)
    requires r.items == ToItems(Slice(all, r.limit, r.offset)) && r.total == |all|
    ensures Rest(all, r.offset)
            == if r.offset + r.limit >= r.total then r.items else r.items + Rest(all, r.offset + r.limit)
  {
    if r.offset + r.limit < |all| {
      PagesJoin(all, r.limit, r.offset);
    } else {
      LastSlice(all, r.limit, r.offset);
    }
  }

  lemma PageItems(table: seq<Stored>, where: string, args: seq<Value>, limit: int, offset: int)
    ensures
      var r := Page(table, where, args, limit, offset);
      r.items == ToItems(Slice(Found(table, where, args), r.limit, r.offset)) && r.total == |Found(table, where, args)|
  {
    FoundLength(table, where, args);
  }

  /** What follows an offset is the page there and what follows the page. */
  lemma PageThenRest(table: seq<Stored>, where: string, args: seq<Value>, limit: int, offset: int)
    ensures
      var r := Page(table, where, args, limit, offset);
      From(table, where, args, r.offset)
        == if r.offset + r.limit >= r.total then r.items else r.items + From(table, where, args, r.offset + r.limit)
  {
    PageItems(table, where, args, limit, offset);
    SliceThenRest(Found(table, where, args), Page(table, where, args, limit, offset));
  }

  /** If every answer is the page of `all` at its offset, following them gives all the rest. */
  lemma {:induction false} FollowIsRest(ask: nat -> QueryResult, all: seq<Stored>, offset: nat)
    requires Steady(ask, |all|)
    requires forall o: nat :: var r := ask(o); r.items == ToItems(Slice(all, r.limit, r.offset))
    ensures Follow(ask, |all|, offset) == Rest(all, offset)
    decreases |all| - offset
  {
    var r := ask(offset);
    SliceThenRest(all, r);
    if r.offset + r.limit < r.total {
      FollowIsRest(ask, all, r.offset + r.limit);
    }
  }

  lemma WalkIsFrom(table: seq<Stored>, where: string, args: seq<Value>, limit: int, offset: nat)
    ensures Walk(table, where, args, limit, offset) == From(table, where, args, offset)
  {
    var ask := Pages(table, where, args, limit);
    var all := Found(table, where, args);
    FoundLength(table, where, args);
    forall o: nat ensures ask(o).items == ToItems(Slice(all, ask(o).limit, ask(o).offset)) {
      PageItems(table, where, args, limit, o);
    }
    FollowIsRest(ask, all, offset);
  }

  /** Starting at the top, with whatever limit, the client gets every matching row exactly once,
      newest first. */
  lemma WalkSeesEveryMatchOnce(table: seq<Stored>, q: QueryArgs)
    ensures
      var found := Found(table, WhereText(q), Args(Filters(q)));
      && Walk(table, WhereText(q), Args(Filters(q)), q.limit, 0) == ToItems(found)
      && SortedBy(found, NewerFirst)
      && (forall s :: multiset(found)[s] == if Matches(q, s.event) then multiset(table)[s] else 0)
      && |found| == Query(table, q).total
  {
    var where, args := WhereText(q), Args(Filters(q));
    WalkIsFrom(table, where, args, q.limit, 0);
    FoundIsMatches(table, q);
    assert Slice(Found(table, where, args), |Found(table, where, args)|, 0) == Found(table, where, args);
  }
}
