/**
  The EKS add-on and node group caches: list and detail responses of all clusters in one map, told
  apart by the text of the key. Cluster names have no '|'; add-on and node group names may.
  */
module EksCache {
  import opened CacheRuns
  import Text = CanICacheKey
  import opened TtlCache
  import opened Wrappers

  /** One of the two responses, as the entry's value holds. */
  datatype Slot<L, D> = Slot(list: Option<L>, detail: Option<D>)

  function ListKey(cluster: string): string {
    cluster + "|list"
  }

  function DetailKey(cluster: string, name: string): string {
    cluster + "|d|" + name
  }

  class ResponseCache<L(!new), D(!new)> {
    const cache: Cache<Slot<L, D>>

    constructor (ttl: int, max: nat)
      ensures fresh(cache) && cache.ttl == ttl && cache.max == max && cache.m == map[]
    {
      cache := new Cache(ttl, max);
    }

    method GetList(cluster: string, now: int) returns (r: Option<L>)
      modifies cache
      ensures cache.m == AfterGet(old(cache.m), ListKey(cluster), now)
      ensures var e := Looked(old(cache.m), ListKey(cluster), now); r == if e.Some? then e.value.list else None
      ensures var k, m := cluster + "|list", old(cache.m);
              r == if k in m && now <= m[k].expires then m[k].value.list else None
    {
      var e := cache.Get(ListKey(cluster), now);
      r := if e.Some? then e.value.list else None;
    }

    method PutList(cluster: string, val: L, now: int, later: int)
      modifies cache
      ensures AfterPut(old(cache.m), Entry(Slot(Some(val), None), now + cache.ttl), ListKey(cluster), later,
                       cache.max, cache.m)
    {
      cache.Put(ListKey(cluster), Slot(Some(val), None), now, later);
    }

    method GetDetail(cluster: string, name: string, now: int) returns (r: Option<D>)
      modifies cache
      ensures cache.m == AfterGet(old(cache.m), DetailKey(cluster, name), now)
      ensures var e := Looked(old(cache.m), DetailKey(cluster, name), now);
              r == if e.Some? then e.value.detail else None
      ensures var k, m := cluster + "|d|" + name, old(cache.m);
              r == if k in m && now <= m[k].expires then m[k].value.detail else None
    {
      var e := cache.Get(DetailKey(cluster, name), now);
      r := if e.Some? then e.value.detail else None;
    }

    method PutDetail(cluster: string, name: string, val: D, now: int, later: int)
      modifies cache
      ensures AfterPut(old(cache.m), Entry(Slot(None, Some(val)), now + cache.ttl), DetailKey(cluster, name), later,
                       cache.max, cache.m)
    {
      cache.Put(DetailKey(cluster, name), Slot(None, Some(val)), now, later);
    }

    method InvalidateList(cluster: string)
      modifies cache
      ensures cache.m == old(cache.m) - {ListKey(cluster)}
    {
      cache.Invalidate(ListKey(cluster));
    }

    method InvalidateDetail(cluster: string, name: string)
      modifies cache
      ensures cache.m == old(cache.m) - {DetailKey(cluster, name)}
    {
      cache.Invalidate(DetailKey(cluster, name));
    }

    method InvalidateCluster(cluster: string)
      modifies cache
      ensures cache.m == WithoutPrefix(old(cache.m), cluster + "|")
    {
      cache.InvalidateCluster(cluster);
    }
  }

  // Calls by cluster and name.

  datatype Call<L, D> =
    | GetList(cluster: string, now: int, listHit: Option<L>)
    | PutList(cluster: string, list: L, now: int, later: int)
    | GetDetail(cluster: string, name: string, now: int, detailHit: Option<D>)
    | PutDetail(cluster: string, name: string, detail: D, now: int, later: int)
    | InvalidateList(cluster: string)
    | InvalidateDetail(cluster: string, name: string)
    | InvalidateCluster(cluster: string)

  function Keyed<L, D>(c: Call<L, D>): Op<Slot<L, D>> {
    match c
    case GetList(cl, now, hit) =>
      Op.Get(ListKey(cl), now, if hit.None? then None else Some(Slot(Some(hit.value), None)))
    case PutList(cl, v, now, later) => Op.Put(ListKey(cl), Slot(Some(v), None), now, later)
    case GetDetail(cl, n, now, hit) =>
      Op.Get(DetailKey(cl, n), now, if hit.None? then None else Some(Slot(None, Some(hit.value))))
    case PutDetail(cl, n, v, now, later) => Op.Put(DetailKey(cl, n), Slot(None, Some(v)), now, later)
    case InvalidateList(cl) => Op.Invalidate(ListKey(cl))
    case InvalidateDetail(cl, n) => Op.Invalidate(DetailKey(cl, n))
    case InvalidateCluster(cl) => Op.InvalidateCluster(cl)
  }

  function KeyedAll<L, D>(calls: seq<Call<L, D>>): (ops: seq<Op<Slot<L, D>>>)
    ensures |ops| == |calls|
  {
    if calls == [] then [] else KeyedAll(calls[..|calls| - 1]) + [Keyed(calls[|calls| - 1])]
  }

  /** The last list put for a cluster and not invalidated since, with its expiry. */
  function LastList<L, D>(ttl: int, calls: seq<Call<L, D>>, cluster: string): Option<Entry<L>> {
    if calls == [] then None
    else
      var before, c := LastList(ttl, calls[..|calls| - 1], cluster), calls[|calls| - 1];
      if c.cluster != cluster then before
      else if c.PutList? then Some(Entry(c.list, c.now + ttl))
      else if c.InvalidateList? || c.InvalidateCluster? then None
      else before
  }

  function LastDetail<L, D>(ttl: int, calls: seq<Call<L, D>>, cluster: string, name: string): Option<Entry<D>> {
    if calls == [] then None
    else
      var before, c := LastDetail(ttl, calls[..|calls| - 1], cluster, name), calls[|calls| - 1];
      if c.cluster != cluster then before
      else if c.PutDetail? && c.name == name then Some(Entry(c.detail, c.now + ttl))
      else if (c.InvalidateDetail? && c.name == name) || c.InvalidateCluster? then None
      else before
  }

  // The keys.

  lemma KeyStart(a: string, t: string, b: string, u: string)
    requires '|' !in a && '|' !in b
    ensures HasPrefix(b + "|" + u, a + "|") <==> a == b
    ensures a + "|" + t == b + "|" + u <==> a == b && t == u
  {
    var y := b + "|" + u;
    if HasPrefix(y, a + "|") {
      assert y == a + ['|'] + y[|a| + 1..];
      Text.FirstSeparator(a, y[|a| + 1..], b, u, '|');
    }
    if a + "|" + t == y {
      Text.FirstSeparator(a, t, b, u, '|');
    }
    if a == b {
      assert y == (a + "|") + u;
    }
  }

  lemma KeyParts(cluster: string, name: string)
    ensures ListKey(cluster) == cluster + "|" + "list"
    ensures DetailKey(cluster, name) == cluster + "|" + ("d|" + name)
  {
  }

  /** No two clusters, lists or details share a key, and a cluster's prefix starts its keys alone. */
  lemma KeysDoNotClash(a: string, n: string, b: string, m: string)
    requires '|' !in a && '|' !in b
    ensures ListKey(a) == ListKey(b) <==> a == b
    ensures DetailKey(a, n) == DetailKey(b, m) <==> a == b && n == m
    ensures ListKey(a) != DetailKey(b, m)
    ensures HasPrefix(ListKey(b), a + "|") <==> a == b
    ensures HasPrefix(DetailKey(b, m), a + "|") <==> a == b
  {
    KeyParts(a, n);
    KeyParts(b, m);
    KeyStart(a, "list", b, "list");
    KeyStart(a, "list", b, "d|" + m);
    KeyStart(a, "d|" + n, b, "d|" + m);
    assert ("list")[0] != ("d|" + m)[0];
    assert ("d|" + n)[2..] == n && ("d|" + m)[2..] == m;
  }

  ghost predicate PlainClusters<L(!new), D(!new)>(calls: seq<Call<L, D>>) {
    forall c :: c in calls ==> '|' !in c.cluster
  }

  function ListSlot<L, D>(e: Option<Entry<L>>): Option<Entry<Slot<L, D>>> {
    if e.None? then None else Some(Entry(Slot(Some(e.value.value), None), e.value.expires))
  }

  function DetailSlot<L, D>(e: Option<Entry<D>>): Option<Entry<Slot<L, D>>> {
    if e.None? then None else Some(Entry(Slot(None, Some(e.value.value)), e.value.expires))
  }

  function At<V>(m: Entries<V>, k: string): Option<Entry<V>> {
    if k in m then Some(m[k]) else None
  }

  lemma {:induction false} ListKeyHoldsLastList<L(!new), D(!new)>(ttl: int, calls: seq<Call<L, D>>, cluster: string)
    requires PlainClusters(calls) && '|' !in cluster
    ensures At(Ideal(ttl, KeyedAll(calls)), ListKey(cluster)) == ListSlot(LastList(ttl, calls, cluster))
  {
    if calls != [] {
      var init, c := calls[..|calls| - 1], calls[|calls| - 1];
      ListKeyHoldsLastList(ttl, init, cluster);
      assert KeyedAll(calls)[..|calls| - 1] == KeyedAll(init);
      KeysDoNotClash(c.cluster, "", cluster, "");
      if c.GetDetail? || c.PutDetail? || c.InvalidateDetail? {
        KeysDoNotClash(cluster, "", c.cluster, c.name);
      }
    }
  }

  lemma {:induction false} DetailKeyHoldsLastDetail<L(!new), D(!new)>(ttl: int, calls: seq<Call<L, D>>, cluster: string,
                                                                      name: string)
    requires PlainClusters(calls) && '|' !in cluster
    ensures At(Ideal(ttl, KeyedAll(calls)), DetailKey(cluster, name))
         == DetailSlot(LastDetail(ttl, calls, cluster, name))
  {
    if calls != [] {
      var init, c := calls[..|calls| - 1], calls[|calls| - 1];
      DetailKeyHoldsLastDetail(ttl, init, cluster, name);
      assert KeyedAll(calls)[..|calls| - 1] == KeyedAll(init);
      var other := if c.GetDetail? || c.PutDetail? || c.InvalidateDetail? then c.name else "";
      KeysDoNotClash(c.cluster, other, cluster, name);
    }
  }

  lemma {:induction false} KeyedPrefix<L, D>(calls: seq<Call<L, D>>, i: nat)
    requires i <= |calls|
    ensures KeyedAll(calls)[..i] == KeyedAll(calls[..i])
  {
    if i < |calls| {
      KeyedPrefix(calls[..|calls| - 1], i);
      assert calls[..|calls| - 1][..i] == calls[..i];
      assert KeyedAll(calls)[..i] == KeyedAll(calls[..|calls| - 1])[..i];
    } else {
      assert calls[..i] == calls;
    }
  }

  /** A list that is served is the last one put for that cluster and not invalidated since, by
      itself or with the whole cluster, and is no older than the TTL. */
  lemma ServedListIsLast<L(!new), D(!new)>(ttl: int, max: nat, calls: seq<Call<L, D>>, states: seq<Entries<Slot<L, D>>>,
                                           i: nat, cluster: string, now: int)
    requires IsRun(ttl, max, KeyedAll(calls), states) && PlainClusters(calls) && '|' !in cluster && i <= |calls|
    requires Looked(states[i], ListKey(cluster), now).Some?
    ensures var last := LastList(ttl, calls[..i], cluster);
            && last.Some? && !Expired(last.value, now)
            && Looked(states[i], ListKey(cluster), now).value.list == Some(last.value.value)
  {
    HitsAreCurrent(ttl, max, KeyedAll(calls), states, i, ListKey(cluster), now);
    KeyedPrefix(calls, i);
    ListKeyHoldsLastList(ttl, calls[..i], cluster);
  }

  lemma ServedDetailIsLast<L(!new), D(!new)>(ttl: int, max: nat, calls: seq<Call<L, D>>,
                                             states: seq<Entries<Slot<L, D>>>, i: nat,
                                             cluster: string, name: string, now: int)
    requires IsRun(ttl, max, KeyedAll(calls), states) && PlainClusters(calls) && '|' !in cluster && i <= |calls|
    requires Looked(states[i], DetailKey(cluster, name), now).Some?
    ensures var last := LastDetail(ttl, calls[..i], cluster, name);
            && last.Some? && !Expired(last.value, now)
            && Looked(states[i], DetailKey(cluster, name), now).value.detail == Some(last.value.value)
  {
    HitsAreCurrent(ttl, max, KeyedAll(calls), states, i, DetailKey(cluster, name), now);
    KeyedPrefix(calls, i);
    DetailKeyHoldsLastDetail(ttl, calls[..i], cluster, name);
  }

  lemma {:induction false} KeyedAt<L, D>(calls: seq<Call<L, D>>, i: nat)
    requires i < |calls|
    ensures KeyedAll(calls)[i] == Keyed(calls[i])
  {
    if i < |calls| - 1 {
      KeyedAt(calls[..|calls| - 1], i);
    }
  }

  /** The call stores a cluster's list or drops it. */
  predicate TouchesList<L, D>(c: Call<L, D>, cluster: string) {
    c.cluster == cluster && (c.PutList? || c.InvalidateList? || c.InvalidateCluster?)
  }

  predicate TouchesDetail<L, D>(c: Call<L, D>, cluster: string, name: string) {
    && c.cluster == cluster
    && (c.InvalidateCluster? || ((c.PutDetail? || c.InvalidateDetail?) && c.name == name))
  }

  lemma KeyedTouches<L(!new), D(!new)>(c: Call<L, D>, cluster: string, name: string)
    requires '|' !in c.cluster && '|' !in cluster
    ensures Touches(Keyed(c), ListKey(cluster)) <==> TouchesList(c, cluster)
    ensures Touches(Keyed(c), DetailKey(cluster, name)) <==> TouchesDetail(c, cluster, name)
  {
    var other := if c.GetDetail? || c.PutDetail? || c.InvalidateDetail? then c.name else "";
    KeysDoNotClash(c.cluster, other, cluster, name);
    KeysDoNotClash(cluster, name, c.cluster, other);
  }

  /** A list that is returned was put for its cluster by the last call to touch it, at most the TTL ago. */
  lemma ListHitIsLastPut<L(!new), D(!new)>(ttl: int, max: nat, calls: seq<Call<L, D>>,
                                           states: seq<Entries<Slot<L, D>>>, i: nat) returns (j: nat)
    requires IsRun(ttl, max, KeyedAll(calls), states) && PlainClusters(calls)
    requires i < |calls| && calls[i].GetList? && calls[i].listHit.Some?
    ensures j < i && calls[j].PutList? && calls[j].cluster == calls[i].cluster
    ensures calls[i].listHit == Some(calls[j].list)
    ensures calls[i].now <= calls[j].now + ttl
    ensures forall m :: j < m < i ==> !TouchesList(calls[m], calls[i].cluster)
  {
    var cluster := calls[i].cluster;
    KeyedAt(calls, i);
    j := HitIsLastPut(ttl, max, KeyedAll(calls), states, i);
    forall m | j <= m < i
      ensures KeyedAll(calls)[m] == Keyed(calls[m])
      ensures Touches(Keyed(calls[m]), ListKey(cluster)) <==> TouchesList(calls[m], cluster)
    {
      KeyedAt(calls, m);
      assert calls[m] in calls && calls[i] in calls;
      KeyedTouches(calls[m], cluster, "");
    }
  }

  /** The same for a detail, by cluster and name. */
  lemma DetailHitIsLastPut<L(!new), D(!new)>(ttl: int, max: nat, calls: seq<Call<L, D>>,
                                             states: seq<Entries<Slot<L, D>>>, i: nat) returns (j: nat)
    requires IsRun(ttl, max, KeyedAll(calls), states) && PlainClusters(calls)
    requires i < |calls| && calls[i].GetDetail? && calls[i].detailHit.Some?
    ensures j < i && calls[j].PutDetail? && calls[j].cluster == calls[i].cluster && calls[j].name == calls[i].name
    ensures calls[i].detailHit == Some(calls[j].detail) && calls[i].now <= calls[j].now + ttl
    ensures forall m :: j < m < i ==> !TouchesDetail(calls[m], calls[i].cluster, calls[i].name)
  {
    var cluster, name := calls[i].cluster, calls[i].name;
    KeyedAt(calls, i);
    j := HitIsLastPut(ttl, max, KeyedAll(calls), states, i);
    forall m | j <= m < i
      ensures KeyedAll(calls)[m] == Keyed(calls[m])
      ensures Touches(Keyed(calls[m]), DetailKey(cluster, name)) <==> TouchesDetail(calls[m], cluster, name)
    {
      KeyedAt(calls, m);
      assert calls[m] in calls && calls[i] in calls;
      KeyedTouches(calls[m], cluster, name);
    }
  }

  /** These are the calls by key. */
  ghost predicate KeyedCalls<L(!new), D(!new)>(calls: seq<Call<L, D>>, ops: seq<Op<Slot<L, D>>>) {
    |ops| == |calls| && forall i :: 0 <= i < |calls| ==> ops[i] == Keyed(calls[i])
  }

  lemma AreKeyed<L(!new), D(!new)>(calls: seq<Call<L, D>>)
    ensures KeyedCalls(calls, KeyedAll(calls))
  {
    forall i | 0 <= i < |calls| ensures KeyedAll(calls)[i] == Keyed(calls[i]) {
      KeyedAt(calls, i);
    }
  }

  lemma ListUntouched<L(!new), D(!new)>(calls: seq<Call<L, D>>, ops: seq<Op<Slot<L, D>>>, cluster: string,
                                        j: nat, i: nat)
    requires KeyedCalls(calls, ops) && PlainClusters(calls) && '|' !in cluster && i <= |calls|
    requires forall m :: j < m < i ==> !TouchesList(calls[m], cluster)
    ensures forall m :: j < m < i ==> !Touches(ops[m], ListKey(cluster))
  {
    forall m | j < m < i ensures !Touches(ops[m], ListKey(cluster)) {
      assert calls[m] in calls;
      KeyedTouches(calls[m], cluster, "");
    }
  }

  lemma DetailUntouched<L(!new), D(!new)>(calls: seq<Call<L, D>>, ops: seq<Op<Slot<L, D>>>, cluster: string,
                                          name: string, j: nat, i: nat)
    requires KeyedCalls(calls, ops) && PlainClusters(calls) && '|' !in cluster && i <= |calls|
    requires forall m :: j < m < i ==> !TouchesDetail(calls[m], cluster, name)
    ensures forall m :: j < m < i ==> !Touches(ops[m], DetailKey(cluster, name))
  {
    forall m | j < m < i ensures !Touches(ops[m], DetailKey(cluster, name)) {
      assert calls[m] in calls;
      KeyedTouches(calls[m], cluster, name);
    }
  }

  /** While no Put leaves more than `max` keys live, the last list put at most the TTL ago is returned ... */
  lemma LastListIsHit<L(!new), D(!new)>(ttl: int, max: nat, calls: seq<Call<L, D>>, ops: seq<Op<Slot<L, D>>>,
                                        states: seq<Entries<Slot<L, D>>>, start: int, i: nat, j: nat)
    requires KeyedCalls(calls, ops) && IsRun(ttl, max, ops, states) && PlainClusters(calls)
    requires Timely(ops, start) && LiveFits(ttl, max, ops)
    requires j < i < |calls| && calls[i].GetList? && calls[j].PutList? && calls[j].cluster == calls[i].cluster
    requires forall m :: j < m < i ==> !TouchesList(calls[m], calls[i].cluster)
    requires calls[i].now <= calls[j].now + ttl
    ensures calls[i].listHit == Some(calls[j].list)
  {
    assert calls[i] in calls && ops[i] == Keyed(calls[i]) && ops[j] == Keyed(calls[j]);
    ListUntouched(calls, ops, calls[i].cluster, j, i);
    LastPutIsHit(ttl, max, ops, states, start, i, j);
  }

  /** ... and the last detail. */
  lemma LastDetailIsHit<L(!new), D(!new)>(ttl: int, max: nat, calls: seq<Call<L, D>>, ops: seq<Op<Slot<L, D>>>,
                                          states: seq<Entries<Slot<L, D>>>, start: int, i: nat, j: nat)
    requires KeyedCalls(calls, ops) && IsRun(ttl, max, ops, states) && PlainClusters(calls)
    requires Timely(ops, start) && LiveFits(ttl, max, ops)
    requires j < i < |calls| && calls[i].GetDetail? && calls[j].PutDetail?
    requires calls[j].cluster == calls[i].cluster && calls[j].name == calls[i].name
    requires forall m :: j < m < i ==> !TouchesDetail(calls[m], calls[i].cluster, calls[i].name)
    requires calls[i].now <= calls[j].now + ttl
    ensures calls[i].detailHit == Some(calls[j].detail)
  {
    assert calls[i] in calls && ops[i] == Keyed(calls[i]) && ops[j] == Keyed(calls[j]);
    DetailUntouched(calls, ops, calls[i].cluster, calls[i].name, j, i);
    LastPutIsHit(ttl, max, ops, states, start, i, j);
  }
}
