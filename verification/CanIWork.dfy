/**
  The cached results of a can-i request, as values: what a look at the cache for all checks comes to, and what
  noting and storing results one by one leaves.
  */
module CanIWork {
  import opened Sequences

  type Time = int

  datatype CanIResult = CanIResult(allowed: bool, reason: string)

  ghost predicate Ascends(time: nat -> Time) {
    forall i: nat, j: nat :: i <= j ==> time(i) <= time(j)
  }

  datatype Entry = Entry(result: CanIResult, expires: Time)

  ghost predicate Within(m: map<string, Entry>, m': map<string, Entry>) {
    forall k :: k in m ==> k in m' && m[k] == m'[k]
  }

  /** The indices below `n` are split between two lists, each in one place once. */
  ghost predicate Split(n: nat, s: seq<nat>, t: seq<nat>) {
    && Distinct(s) && Distinct(t)
    && (forall i: nat :: i < n <==> i in s || i in t)
    && (forall i :: i in s ==> i !in t)
  }

  lemma SplitGrows(n: nat, s: seq<nat>, t: seq<nat>)
    requires Split(n, s, t)
    ensures Split(n + 1, s + [n], t) && Split(n + 1, s, t + [n])
  {
    DistinctAppend(s, n);
    DistinctAppend(t, n);
  }

  ghost predicate Missed(keys: seq<string>, hits: seq<nat>, k: string) {
    exists i :: 0 <= i < |keys| && i !in hits && keys[i] == k
  }

  lemma StillMissed(keys: seq<string>, hits: seq<nat>, k: string, next: string)
    requires Missed(keys, hits, k) && forall i :: i in hits ==> i < |keys|
    ensures Missed(keys + [next], hits, k) && Missed(keys + [next], hits + [|keys|], k)
  {
    var i :| 0 <= i < |keys| && i !in hits && keys[i] == k;
    assert (keys + [next])[i] == k && i !in hits + [|keys|];
  }

  /** What a look at the cache for some keys, between two clock values, comes to: an entry is missed only if it
      expired by the end, hit only if it was alive at the start, and dropped only if it was missed. */
  ghost predicate Scanned(m0: map<string, Entry>, m: map<string, Entry>, keys: seq<string>, hits: seq<nat>,
                          start: Time, end: Time) {
    && Within(m, m0)
    && (forall k :: k in m0 && k !in m ==> m0[k].expires < end && Missed(keys, hits, k))
    && (forall i :: 0 <= i < |keys| && i in hits ==> keys[i] in m0 && start <= m0[keys[i]].expires)
    && (forall i :: 0 <= i < |keys| && i !in hits && keys[i] in m0 ==> m0[keys[i]].expires < end)
  }

  lemma ScannedGrows(m0: map<string, Entry>, m: map<string, Entry>, m': map<string, Entry>, keys: seq<string>,
                     k: string, hits: seq<nat>, start: Time, before: Time, end: Time, live: bool)
    requires Scanned(m0, m, keys, hits, start, before) && start <= before <= end
    requires forall i :: i in hits ==> i < |keys|
    requires live == (k in m && before <= m[k].expires) && m' == (if live then m else m - {k})
    requires k in m && !live ==> m[k].expires < end
    ensures Scanned(m0, m', keys + [k], if live then hits + [|keys|] else hits, start, end)
  {
    var hits' := if live then hits + [|keys|] else hits;
    forall k' | k' in m0 && k' !in m' ensures m0[k'].expires < end && Missed(keys + [k], hits', k') {
      if k' in m {
        assert k' == k && (keys + [k])[|keys|] == k' && |keys| !in hits';
      } else {
        StillMissed(keys, hits, k', k);
      }
    }
  }

  // What answering does, call by call.

  /** A result is noted for index `i` and stored in the cache. */
  datatype Write = Write(i: nat, r: CanIResult)

  /** What a request works on. */
  datatype Work = Work(results: seq<CanIResult>, m: map<string, Entry>, ticks: nat)

  /** The cache keys of the checks, the TTL and the clock. */
  datatype Setting = Setting(keys: seq<string>, ttl: Time, time: nat -> Time)

  function Written(e: Setting, w: Work, x: Write): Work {
    if x.i >= |w.results| || x.i >= |e.keys| then w
    else Work(w.results[x.i := x.r], w.m[e.keys[x.i] := Entry(x.r, e.time(w.ticks) + e.ttl)], w.ticks + 1)
  }

  function WrittenAll(e: Setting, w: Work, xs: seq<Write>): Work {
    if xs == [] then w else Written(e, WrittenAll(e, w, xs[..|xs| - 1]), xs[|xs| - 1])
  }

  lemma WrittenNext(e: Setting, w: Work, xs: seq<Write>, k: nat)
    requires k < |xs|
    ensures WrittenAll(e, w, xs[..k + 1]) == Written(e, WrittenAll(e, w, xs[..k]), xs[k])
  {
    assert xs[..k + 1][..k] == xs[..k];
  }

  lemma {:induction false} WrittenAppend(e: Setting, w: Work, xs: seq<Write>, ys: seq<Write>)
    ensures WrittenAll(e, w, xs + ys) == WrittenAll(e, WrittenAll(e, w, xs), ys)
  {
    if ys == [] {
      assert xs + ys == xs;
    } else {
      assert (xs + ys)[..|xs + ys| - 1] == xs + ys[..|ys| - 1];
      WrittenAppend(e, w, xs, ys[..|ys| - 1]);
    }
  }

  /** The results that writes for these indices leave. */
  lemma {:induction false} WrittenResults(e: Setting, w: Work, idxs: seq<nat>, xs: seq<Write>, val: nat -> CanIResult)
    requires |xs| == |idxs| && |w.results| == |e.keys|
    requires forall k :: 0 <= k < |xs| ==> xs[k] == Write(idxs[k], val(idxs[k]))
    ensures var w' := WrittenAll(e, w, xs);
            && |w'.results| == |w.results| && w'.ticks >= w.ticks
            && forall i :: 0 <= i < |w.results| ==> w'.results[i] == if i in idxs then val(i) else w.results[i]
  {
    if xs != [] {
      var n := |xs| - 1;
      WrittenResults(e, w, idxs[..n], xs[..n], val);
      assert idxs == idxs[..n] + [idxs[n]];
    }
  }

  // What it comes to.

  ghost predicate Fit(e: Setting, w: Work, xs: seq<Write>) {
    |w.results| == |e.keys| && forall x :: x in xs ==> x.i < |e.keys|
  }

  lemma {:induction false} WrittenSize(e: Setting, w: Work, xs: seq<Write>)
    requires Fit(e, w, xs)
    ensures |WrittenAll(e, w, xs).results| == |w.results| && WrittenAll(e, w, xs).ticks == w.ticks + |xs|
  {
    if xs != [] {
      WrittenSize(e, w, xs[..|xs| - 1]);
    }
  }

  /** Of writes for different indices each is noted. */
  lemma {:induction false} WrittenNoted(e: Setting, w: Work, xs: seq<Write>, j: nat)
    requires Fit(e, w, xs) && j < |xs|
    requires forall k :: j < k < |xs| ==> xs[j].i != xs[k].i
    ensures |WrittenAll(e, w, xs).results| == |w.results|
    ensures WrittenAll(e, w, xs).results[xs[j].i] == xs[j].r
  {
    var n := |xs| - 1;
    WrittenSize(e, w, xs[..n]);
    if j < n {
      WrittenNoted(e, w, xs[..n], j);
    }
  }

  /** The entry is what was stored for the key since the clock read `start`. */
  ghost predicate StoredFor(e: Setting, xs: seq<Write>, k: string, entry: Entry, start: Time) {
    && start + e.ttl <= entry.expires
    && exists x :: x in xs && x.i < |e.keys| && e.keys[x.i] == k && x.r == entry.result
  }

  lemma StoredForMore(e: Setting, xs: seq<Write>, x: Write, k: string, entry: Entry, start: Time)
    requires StoredFor(e, xs, k, entry, start)
    ensures StoredFor(e, xs + [x], k, entry, start)
  {
    var y :| y in xs && y.i < |e.keys| && e.keys[y.i] == k && y.r == entry.result;
    assert y in xs + [x];
  }

  /** Under each key the cache has what was stored for it, and what it had before if nothing was. */
  lemma {:induction false} WrittenCached(e: Setting, w: Work, xs: seq<Write>, k: string)
    requires Fit(e, w, xs)
    requires Ascends(e.time)
    ensures var m := WrittenAll(e, w, xs).m;
            if exists x :: x in xs && e.keys[x.i] == k then k in m && StoredFor(e, xs, k, m[k], e.time(w.ticks))
            else (k in m <==> k in w.m) && (k in m ==> m[k] == w.m[k])
  {
    if xs != [] {
      var n := |xs| - 1;
      var before := WrittenAll(e, w, xs[..n]);
      assert xs == xs[..n] + [xs[n]];
      WrittenSize(e, w, xs[..n]);
      WrittenCached(e, w, xs[..n], k);
      if e.keys[xs[n].i] == k {
        assert xs[n] in xs && e.time(w.ticks) <= e.time(before.ticks);
      } else if exists x :: x in xs && e.keys[x.i] == k {
        StoredForMore(e, xs[..n], xs[n], k, before.m[k], e.time(w.ticks));
      }
    }
  }

  predicate NoKeyOf(keys: seq<string>, idxs: seq<nat>, k: string) {
    forall i :: i in idxs && i < |keys| ==> keys[i] != k
  }

  /** The entry under this key is what was noted for an index with the key, and lasts for a while. */
  ghost predicate Holds(keys: seq<string>, idxs: seq<nat>, results: seq<CanIResult>, m: map<string, Entry>, k: string,
                        until: Time) {
    && k in m && until <= m[k].expires
    && exists j :: j in idxs && j < |keys| && j < |results| && keys[j] == k && m[k].result == results[j]
  }

  /** The results for these indices are in the cache, the last one stored under each key, until some time at
      least; nothing else in the cache changed. */
  ghost predicate CacheFilled(keys: seq<string>, idxs: seq<nat>, results: seq<CanIResult>, m0: map<string, Entry>,
                              m: map<string, Entry>, until: Time) {
    && (forall i :: i in idxs && i < |keys| ==> Holds(keys, idxs, results, m, keys[i], until))
    && (forall k :: NoKeyOf(keys, idxs, k) ==> (k in m <==> k in m0) && (k in m ==> m[k] == m0[k]))
  }

  /** These are writes for these indices. */
  ghost predicate WritesFor(xs: seq<Write>, idxs: seq<nat>) {
    |xs| == |idxs| && forall k :: 0 <= k < |xs| ==> xs[k].i == idxs[k]
  }

  lemma WritesAreFit(e: Setting, w: Work, xs: seq<Write>, idxs: seq<nat>)
    requires WritesFor(xs, idxs) && |w.results| == |e.keys| && forall i :: i in idxs ==> i < |e.keys|
    ensures Fit(e, w, xs)
  {
    forall x | x in xs ensures x.i < |e.keys| {
      var k :| 0 <= k < |xs| && xs[k] == x;
      assert idxs[k] in idxs;
    }
  }

  lemma AllNoted(e: Setting, w: Work, xs: seq<Write>, idxs: seq<nat>)
    requires WritesFor(xs, idxs) && |w.results| == |e.keys| && forall i :: i in idxs ==> i < |e.keys|
    requires Distinct(idxs)
    ensures |WrittenAll(e, w, xs).results| == |e.keys|
    ensures forall x :: x in xs ==> x.i < |e.keys| && WrittenAll(e, w, xs).results[x.i] == x.r
  {
    WritesAreFit(e, w, xs, idxs);
    WrittenSize(e, w, xs);
    forall x | x in xs ensures x.i < |e.keys| && WrittenAll(e, w, xs).results[x.i] == x.r {
      var k :| 0 <= k < |xs| && xs[k] == x;
      WrittenNoted(e, w, xs, k);
    }
  }

  lemma WritesHold(e: Setting, w: Work, xs: seq<Write>, idxs: seq<nat>, i: nat)
    requires WritesFor(xs, idxs) && |w.results| == |e.keys| && (forall i :: i in idxs ==> i < |e.keys|)
    requires Distinct(idxs) && i in idxs
    requires Ascends(e.time)
    ensures var w' := WrittenAll(e, w, xs); Holds(e.keys, idxs, w'.results, w'.m, e.keys[i], e.time(w.ticks) + e.ttl)
  {
    var w' := WrittenAll(e, w, xs);
    var n :| 0 <= n < |idxs| && idxs[n] == i;
    assert xs[n] in xs && e.keys[xs[n].i] == e.keys[i];
    WritesAreFit(e, w, xs, idxs);
    WrittenCached(e, w, xs, e.keys[i]);
    AllNoted(e, w, xs, idxs);
    var x :| x in xs && x.i < |e.keys| && e.keys[x.i] == e.keys[i] && x.r == w'.m[e.keys[i]].result;
    var m :| 0 <= m < |xs| && xs[m] == x;
    assert idxs[m] in idxs;
  }

  lemma WritesMiss(e: Setting, w: Work, xs: seq<Write>, idxs: seq<nat>, k: string)
    requires WritesFor(xs, idxs) && |w.results| == |e.keys| && (forall i :: i in idxs ==> i < |e.keys|)
    requires NoKeyOf(e.keys, idxs, k)
    requires Ascends(e.time)
    ensures var m := WrittenAll(e, w, xs).m; (k in m <==> k in w.m) && (k in m ==> m[k] == w.m[k])
  {
    WritesAreFit(e, w, xs, idxs);
    forall x | x in xs ensures e.keys[x.i] != k {
      var n :| 0 <= n < |xs| && xs[n] == x;
      assert idxs[n] in idxs;
    }
    WrittenCached(e, w, xs, k);
  }

  lemma WritesFillCache(e: Setting, w: Work, xs: seq<Write>, idxs: seq<nat>)
    requires WritesFor(xs, idxs) && |w.results| == |e.keys| && forall i :: i in idxs ==> i < |e.keys|
    requires Distinct(idxs)
    requires Ascends(e.time)
    ensures var w' := WrittenAll(e, w, xs);
            CacheFilled(e.keys, idxs, w'.results, w.m, w'.m, e.time(w.ticks) + e.ttl)
  {
    var w' := WrittenAll(e, w, xs);
    forall i | i in idxs && i < |e.keys|
      ensures Holds(e.keys, idxs, w'.results, w'.m, e.keys[i], e.time(w.ticks) + e.ttl)
    {
      WritesHold(e, w, xs, idxs, i);
    }
    forall k | NoKeyOf(e.keys, idxs, k) ensures (k in w'.m <==> k in w.m) && (k in w'.m ==> w'.m[k] == w.m[k]) {
      WritesMiss(e, w, xs, idxs, k);
    }
  }

  /** The cache answers what it has alive, between two clock values; the rest is pending. */
  ghost predicate CacheAnswers(keys: seq<string>, m0: map<string, Entry>, results: seq<CanIResult>, pending: seq<nat>,
                               start: Time, end: Time) {
    |results| == |keys| && forall i :: 0 <= i < |keys| ==>
      if i in pending then keys[i] in m0 ==> m0[keys[i]].expires < end
      else keys[i] in m0 && start <= m0[keys[i]].expires && results[i] == m0[keys[i]].result
  }

  /** The scan dropped nothing that is not pending. */
  lemma ScanDropsPending(keys: seq<string>, hits: seq<nat>, pending: seq<nat>, m0: map<string, Entry>,
                         m: map<string, Entry>, start: Time, end: Time, k: string)
    requires Split(|keys|, hits, pending) && Scanned(m0, m, keys, hits, start, end) && NoKeyOf(keys, pending, k)
    ensures (k in m <==> k in m0) && (k in m ==> m[k] == m0[k])
  {
    if Missed(keys, hits, k) {
      MissedIsPending(keys, hits, pending, k);
    }
  }

  lemma MissedIsPending(keys: seq<string>, hits: seq<nat>, pending: seq<nat>, k: string)
    requires Split(|keys|, hits, pending) && Missed(keys, hits, k)
    ensures !NoKeyOf(keys, pending, k)
  {
    var i :| 0 <= i < |keys| && i !in hits && keys[i] == k;
    assert i in pending;
  }

  lemma HoldsSince(keys: seq<string>, idxs: seq<nat>, pending: seq<nat>, results: seq<CanIResult>,
                   m: map<string, Entry>, k: string, until: Time, since: Time)
    requires Holds(keys, idxs, results, m, k, until) && since <= until && forall i :: i in idxs <==> i in pending
    ensures Holds(keys, pending, results, m, k, since)
  {
  }

  lemma CacheFilledSinceScan(keys: seq<string>, hits: seq<nat>, pending: seq<nat>, idxs: seq<nat>,
                             results: seq<CanIResult>, m0: map<string, Entry>, m: map<string, Entry>,
                             m': map<string, Entry>, start: Time, end: Time, until: Time, since: Time)
    requires Split(|keys|, hits, pending) && Scanned(m0, m, keys, hits, start, end) && since <= until
    requires CacheFilled(keys, idxs, results, m, m', until) && forall i :: i in idxs <==> i in pending
    ensures CacheFilled(keys, pending, results, m0, m', since)
  {
    forall i | i in pending && i < |keys| ensures Holds(keys, pending, results, m', keys[i], since) {
      HoldsSince(keys, idxs, pending, results, m', keys[i], until, since);
    }
    forall k | NoKeyOf(keys, pending, k) ensures (k in m' <==> k in m0) && (k in m' ==> m'[k] == m0[k]) {
      ScanDropsPending(keys, hits, pending, m0, m, start, end, k);
      assert NoKeyOf(keys, idxs, k);
    }
  }
}
