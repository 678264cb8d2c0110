/**
  The bounded TTL cache shared by the Helm release list and the EKS add-on and node group handlers:
  an entry is served until it expires, a Put over the cap sweeps the expired entries and then, if
  that is not enough, trims the ones that expire first down to nine tenths of the cap.
  */
module TtlCache {
  import opened Ordering
  import opened Sequences
  import opened Wrappers

  datatype Entry<V> = Entry(value: V, expires: int)

  type Entries<V> = map<string, Entry<V>>

  predicate Expired(e: Entry, now: int) {
    now > e.expires
  }

  function Live<V>(m: Entries<V>, now: int): Entries<V> {
    map k | k in m && !Expired(m[k], now) :: m[k]
  }

  function TrimTarget(max: nat): nat {
    max * 9 / 10
  }

  /** `after` is `target` of the entries of `before`, none of which expires before one that went. */
  ghost predicate Trimmed<V(!new)>(before: Entries<V>, after: Entries<V>, target: nat) {
    && |after| == target
    && (forall k :: k in after ==> k in before && after[k] == before[k])
    && (forall k, r :: k in after && r in before && r !in after ==> before[r].expires <= before[k].expires)
  }

  ghost predicate Evicted<V(!new)>(before: Entries<V>, now: int, max: nat, after: Entries<V>) {
    var live := Live(before, now);
    if |live| <= max then after == live else Trimmed(live, after, TrimTarget(max))
  }

  function Looked<V>(m: Entries<V>, k: string, now: int): Option<V> {
    if k in m && !Expired(m[k], now) then Some(m[k].value) else None
  }

  function AfterGet<V>(m: Entries<V>, k: string, now: int): Entries<V> {
    if k in m && Expired(m[k], now) then m - {k} else m
  }

  /** The clock is read once for the expiry and, over the cap, once more for the sweep. */
  ghost predicate AfterPut<V(!new)>(m: Entries<V>, e: Entry<V>, k: string, later: int, max: nat, after: Entries<V>) {
    var n := m[k := e];
    if |n| > max then Evicted(n, later, max, after) else after == n
  }

  predicate HasPrefix(k: string, prefix: string) {
    prefix <= k
  }

  function WithoutPrefix<V>(m: Entries<V>, prefix: string): Entries<V> {
    map k | k in m && !HasPrefix(k, prefix) :: m[k]
  }

  // The trim.

  datatype KeyExpiry = KeyExpiry(key: string, exp: int)

  predicate ExpLe(a: KeyExpiry, b: KeyExpiry) {
    a.exp <= b.exp
  }

  /** Each entry of the map stands in the list once. */
  ghost predicate Lists<V>(all: seq<KeyExpiry>, m: Entries<V>) {
    && Distinct(all)
    && (forall x :: x in all ==> x.key in m && m[x.key].expires == x.exp)
    && (forall k :: k in m ==> KeyExpiry(k, m[k].expires) in all)
  }

  lemma SortLists<V>(all: seq<KeyExpiry>, m: Entries<V>)
    requires Lists(all, m)
    ensures Lists(Sort(all, ExpLe), m) && SortedBy(Sort(all, ExpLe), ExpLe) && |Sort(all, ExpLe)| == |all|
  {
    SortSorts(all, ExpLe);
    PermutationKeepsDistinct(all, Sort(all, ExpLe));
    forall x ensures x in Sort(all, ExpLe) <==> x in all {
      SameElements(all, Sort(all, ExpLe), x);
    }
  }

  /** `rest` is `m` without the first `n` of the list. */
  ghost predicate Dropped<V>(m: Entries<V>, all: seq<KeyExpiry>, n: nat, rest: Entries<V>)
    requires n <= |all|
  {
    && (forall k :: k in rest ==> k in m && rest[k] == m[k])
    && (forall i :: 0 <= i < n ==> all[i].key !in rest)
    && (forall i :: n <= i < |all| ==> all[i].key in rest)
  }

  lemma DropNext<V>(m: Entries<V>, all: seq<KeyExpiry>, n: nat, rest: Entries<V>)
    requires Lists(all, m) && n < |all| && Dropped(m, all, n, rest)
    ensures Dropped(m, all, n + 1, rest - {all[n].key})
  {
    forall i | n + 1 <= i < |all| ensures all[i].key != all[n].key {
      assert all[n] in all && all[i] in all && all[n] != all[i];
    }
  }

  /** Dropping the first of a sorted list drops entries that expire no later than those that stay. */
  lemma DroppedIsTrimmed<V(!new)>(m: Entries<V>, all: seq<KeyExpiry>, n: nat, rest: Entries<V>)
    requires Lists(all, m) && SortedBy(all, ExpLe) && n <= |all| && Dropped(m, all, n, rest)
    ensures Trimmed(m, rest, |rest|)
  {
    forall k, r | k in rest && r in m && r !in rest ensures m[r].expires <= m[k].expires {
      var i :| 0 <= i < |all| && all[i] == KeyExpiry(r, m[r].expires);
      var j :| 0 <= j < |all| && all[j] == KeyExpiry(k, m[k].expires);
      assert i < n <= j;
      assert ExpLe(all[i], all[j]);
    }
  }

  class Cache<V(!new)> {
    const ttl: int
    const max: nat
    var m: Entries<V>

    constructor (ttl: int, max: nat)
      ensures this.ttl == ttl && this.max == max && m == map[]
    {
      this.ttl, this.max, m := ttl, max, map[];
    }

    method Get(k: string, now: int) returns (r: Option<V>)
      modifies this
      ensures r == Looked(old(m), k, now) && m == AfterGet(old(m), k, now)
      ensures r == if k in old(m) && now <= old(m)[k].expires then Some(old(m)[k].value) else None
      ensures m == if k in old(m) && now > old(m)[k].expires then old(m) - {k} else old(m)
    {
      if k !in m {
        return None;
      }
      var e := m[k];
      if now > e.expires {
        m := m - {k};
        return None;
      }
      return Some(e.value);
    }

    method Put(k: string, v: V, now: int, later: int)
      modifies this
      ensures AfterPut(old(m), Entry(v, now + ttl), k, later, max, m)
      ensures |old(m)[k := Entry(v, now + ttl)]| <= max ==> m == old(m)[k := Entry(v, now + ttl)]
    {
      m := m[k := Entry(v, now + ttl)];
      if |m| > max {
        EvictLocked(later);
      }
    }

    method EvictLocked(now: int)
      modifies this
      ensures Evicted(old(m), now, max, m)
      ensures var live := map k | k in old(m) && now <= old(m)[k].expires :: old(m)[k];
              if |live| <= max then m == live
              else && |m| == max * 9 / 10 && (forall k :: k in m ==> k in live && m[k] == live[k])
                   && (forall k, gone :: k in m && gone in live && gone !in m ==> live[gone].expires <= m[k].expires)
    {
      Sweep(now);
      if |m| <= max {
        return;
      }
      var all := SortedEntries();
      Trim(all, TrimTarget(max));
    }

    method Sweep(now: int)
      modifies this
      ensures m == Live(old(m), now) == map k | k in old(m) && now <= old(m)[k].expires :: old(m)[k]
    {
      var todo := m.Keys;
      while todo != {}
        invariant todo <= m.Keys <= old(m).Keys
        invariant forall k :: k in m ==> m[k] == old(m)[k]
        invariant forall k :: k in old(m) && k !in todo ==> (k in m <==> !Expired(old(m)[k], now))
      {
        var k :| k in todo;
        todo := todo - {k};
        if now > m[k].expires {
          m := m - {k};
        }
      }
    }

    method SortedEntries() returns (all: seq<KeyExpiry>)
      ensures Lists(all, m) && SortedBy(all, ExpLe) && |all| == |m|
    {
      all := [];
      var todo := m.Keys;
      while todo != {}
        invariant todo <= m.Keys
        invariant forall x :: x in all ==> x.key in m && m[x.key].expires == x.exp
        invariant forall k :: k in m && k !in todo ==> KeyExpiry(k, m[k].expires) in all
        invariant Distinct(all) && forall x :: x in all ==> x.key !in todo
        invariant |all| + |todo| == |m|
      {
        var k :| k in todo;
        todo := todo - {k};
        all := all + [KeyExpiry(k, m[k].expires)];
      }
      SortLists(all, m);
      all := Sort(all, ExpLe);
    }

    method Trim(all: seq<KeyExpiry>, target: nat)
      requires Lists(all, m) && SortedBy(all, ExpLe) && |all| == |m| >= target
      modifies this
      ensures Trimmed(old(m), m, target)
    {
      var i := 0;
      while i < |all| - target
        invariant 0 <= i <= |all| - target
        invariant Dropped(old(m), all, i, m)
        invariant |m| == |all| - i
      {
        DropNext(old(m), all, i, m);
        m := m - {all[i].key};
        i := i + 1;
      }
      DroppedIsTrimmed(old(m), all, i, m);
    }

    method Invalidate(k: string)
      modifies this
      ensures m == old(m) - {k}
    {
      m := m - {k};
    }

    method InvalidateCluster(cluster: string)
      modifies this
      ensures m == WithoutPrefix(old(m), cluster + "|")
      ensures m == map k | k in old(m) && !(cluster + "|" <= k) :: old(m)[k]
    {
      var prefix := cluster + "|";
      var todo := m.Keys;
      while todo != {}
        invariant todo <= m.Keys <= old(m).Keys
        invariant forall k :: k in m ==> m[k] == old(m)[k]
        invariant forall k :: k in old(m) && k !in todo ==> (k in m <==> !HasPrefix(k, prefix))
      {
        var k :| k in todo;
        todo := todo - {k};
        if |k| >= |prefix| && k[..|prefix|] == prefix {
          m := m - {k};
        }
      }
    }
  }
}
