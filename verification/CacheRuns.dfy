/** The bounded cache against an unbounded one, over every sequence of calls. */
module CacheRuns {
  import opened TtlCache
  import opened Wrappers

  datatype Op<V> =
    | Get(k: string, now: int, hit: Option<V>)
    | Put(k: string, v: V, now: int, later: int)
    | Invalidate(k: string)
    | InvalidateCluster(cluster: string)

  ghost predicate Step<V(!new)>(ttl: int, max: nat, m: Entries<V>, op: Op<V>, after: Entries<V>) {
    match op
    case Get(k, now, hit) => hit == Looked(m, k, now) && after == AfterGet(m, k, now)
    case Put(k, v, now, later) => AfterPut(m, Entry(v, now + ttl), k, later, max, after)
    case Invalidate(k) => after == m - {k}
    case InvalidateCluster(cluster) => after == WithoutPrefix(m, cluster + "|")
  }

  /** `states[i]` is the cache after `i` calls. */
  ghost predicate IsRun<V(!new)>(ttl: int, max: nat, ops: seq<Op<V>>, states: seq<Entries<V>>) {
    && |states| == |ops| + 1 && states[0] == map[]
    && forall i :: 0 <= i < |ops| ==> Step(ttl, max, states[i], ops[i], states[i + 1])
  }

  /** A map without a cap, which forgets nothing but what is invalidated: under each key the last Put
      since the last invalidation. */
  function Ideal<V>(ttl: int, ops: seq<Op<V>>): Entries<V> {
    if ops == [] then map[]
    else
      var m, op := Ideal(ttl, ops[..|ops| - 1]), ops[|ops| - 1];
      match op
      case Get(_, _, _) => m
      case Put(k, v, now, _) => m[k := Entry(v, now + ttl)]
      case Invalidate(k) => m - {k}
      case InvalidateCluster(cluster) => WithoutPrefix(m, cluster + "|")
  }

  ghost predicate Within<V>(m: Entries<V>, ideal: Entries<V>) {
    forall k :: k in m ==> k in ideal && m[k] == ideal[k]
  }

  lemma StepStaysWithin<V(!new)>(ttl: int, max: nat, ops: seq<Op<V>>, m: Entries<V>, after: Entries<V>)
    requires ops != [] && Within(m, Ideal(ttl, ops[..|ops| - 1])) && Step(ttl, max, m, ops[|ops| - 1], after)
    ensures Within(after, Ideal(ttl, ops))
  {
  }

  lemma {:induction false} RunStaysWithin<V(!new)>(ttl: int, max: nat, ops: seq<Op<V>>, states: seq<Entries<V>>, i: nat)
    requires IsRun(ttl, max, ops, states) && i <= |ops|
    ensures Within(states[i], Ideal(ttl, ops[..i]))
  {
    if i > 0 {
      RunStaysWithin(ttl, max, ops, states, i - 1);
      assert ops[..i][..i - 1] == ops[..i - 1];
      StepStaysWithin(ttl, max, ops[..i], states[i - 1], states[i]);
    }
  }

  /** A hit is the value of the latest Put to its key that was not invalidated since, at most `ttl` ago. */
  lemma HitsAreCurrent<V(!new)>(ttl: int, max: nat, ops: seq<Op<V>>, states: seq<Entries<V>>, i: nat, k: string,
                                now: int)
    requires IsRun(ttl, max, ops, states) && i <= |ops|
    requires Looked(states[i], k, now).Some?
    ensures Looked(states[i], k, now) == Looked(Ideal(ttl, ops[..i]), k, now)
  {
    RunStaysWithin(ttl, max, ops, states, i);
  }

  /** The call stores something under the key or drops what is there. */
  predicate Touches<V>(op: Op<V>, k: string) {
    (op.Put? && op.k == k) || (op.Invalidate? && op.k == k) || (op.InvalidateCluster? && op.cluster + "|" <= k)
  }

  /** Call `j` is the last one, of these, to touch the key, and it is a Put. */
  ghost predicate LastPut<V(!new)>(ops: seq<Op<V>>, k: string, j: nat) {
    && j < |ops| && ops[j].Put? && ops[j].k == k
    && forall i :: j < i < |ops| ==> !Touches(ops[i], k)
  }

  lemma IdealStep<V(!new)>(ttl: int, ops: seq<Op<V>>, op: Op<V>, k: string)
    ensures var m, m' := Ideal(ttl, ops), Ideal(ttl, ops + [op]);
            if !Touches(op, k) then (k in m' <==> k in m) && (k in m ==> m'[k] == m[k])
            else if op.Put? then k in m' && m'[k] == Entry(op.v, op.now + ttl)
            else k !in m'
  {
    assert (ops + [op])[..|ops|] == ops;
  }

  lemma {:induction false} IdealHasLastPut<V(!new)>(ttl: int, ops: seq<Op<V>>, k: string) returns (j: nat)
    requires k in Ideal(ttl, ops)
    ensures LastPut(ops, k, j) && Ideal(ttl, ops)[k] == Entry(ops[j].v, ops[j].now + ttl)
  {
    var n := |ops| - 1;
    assert ops == ops[..n] + [ops[n]];
    IdealStep(ttl, ops[..n], ops[n], k);
    if Touches(ops[n], k) {
      j := n;
    } else {
      j := IdealHasLastPut(ttl, ops[..n], k);
    }
  }

  lemma {:induction false} LastPutIsIdeal<V(!new)>(ttl: int, ops: seq<Op<V>>, k: string, j: nat)
    requires LastPut(ops, k, j)
    ensures k in Ideal(ttl, ops) && Ideal(ttl, ops)[k] == Entry(ops[j].v, ops[j].now + ttl)
  {
    var n := |ops| - 1;
    assert ops == ops[..n] + [ops[n]];
    IdealStep(ttl, ops[..n], ops[n], k);
    if j < n {
      LastPutIsIdeal(ttl, ops[..n], k, j);
    }
  }

  lemma CallFollows<V(!new)>(ttl: int, max: nat, ops: seq<Op<V>>, states: seq<Entries<V>>, i: nat)
    requires IsRun(ttl, max, ops, states) && i < |ops| && ops[i].Get?
    ensures ops[i].hit == Looked(states[i], ops[i].k, ops[i].now)
  {
    assert Step(ttl, max, states[i], ops[i], states[i + 1]);
  }

  /** A value that a Get returns was put under its key by the last call to touch it, at most the TTL ago. */
  lemma HitIsLastPut<V(!new)>(ttl: int, max: nat, ops: seq<Op<V>>, states: seq<Entries<V>>, i: nat) returns (j: nat)
    requires IsRun(ttl, max, ops, states) && i < |ops| && ops[i].Get? && ops[i].hit.Some?
    ensures j < i && ops[j].Put? && ops[j].k == ops[i].k && ops[i].hit == Some(ops[j].v)
    ensures ops[i].now <= ops[j].now + ttl
    ensures forall m :: j < m < i ==> !Touches(ops[m], ops[i].k)
  {
    var k := ops[i].k;
    CallFollows(ttl, max, ops, states, i);
    RunStaysWithin(ttl, max, ops, states, i);
    j := IdealHasLastPut(ttl, ops[..i], k);
    forall m | j < m < i ensures !Touches(ops[m], k) {
      assert ops[..i][m] == ops[m];
    }
  }

  /** The cap holds after every call. */
  lemma {:induction false} CapHolds<V(!new)>(ttl: int, max: nat, ops: seq<Op<V>>, states: seq<Entries<V>>, i: nat)
    requires IsRun(ttl, max, ops, states) && i <= |ops|
    ensures |states[i]| <= max
  {
    if i > 0 {
      CapHolds(ttl, max, ops, states, i - 1);
      StepKeepsCap(ttl, max, states[i - 1], ops[i - 1], states[i]);
    }
  }

  lemma StepKeepsCap<V(!new)>(ttl: int, max: nat, m: Entries<V>, op: Op<V>, after: Entries<V>)
    requires |m| <= max && Step(ttl, max, m, op, after)
    ensures |after| <= max
  {
    if !op.Put? {
      KeysShrink(after, m);
    }
  }

  lemma KeysShrink<V>(a: Entries<V>, b: Entries<V>)
    requires a.Keys <= b.Keys
    ensures |a| <= |b|
  {
    var rest := b.Keys - a.Keys;
    assert b.Keys == a.Keys + rest;
  }

  // Nothing live is lost below the cap.

  /** The latest time read by these calls; the lock makes the readings nondecreasing. */
  function Clock<V>(ops: seq<Op<V>>, start: int): int {
    if ops == [] then start
    else match ops[|ops| - 1]
      case Get(_, now, _) => now
      case Put(_, _, _, later) => later
      case Invalidate(_) => Clock(ops[..|ops| - 1], start)
      case InvalidateCluster(_) => Clock(ops[..|ops| - 1], start)
  }

  predicate Reads<V>(op: Op<V>, clock: int) {
    match op
    case Get(_, now, _) => clock <= now
    case Put(_, _, now, later) => clock <= now <= later
    case Invalidate(_) => true
    case InvalidateCluster(_) => true
  }

  ghost predicate Timely<V>(ops: seq<Op<V>>, start: int) {
    forall i :: 0 <= i < |ops| ==> Reads(ops[i], Clock(ops[..i], start))
  }

  /** No Put leaves more than `max` keys live. */
  ghost predicate LiveFits<V>(ttl: int, max: nat, ops: seq<Op<V>>) {
    forall i :: 0 <= i < |ops| && ops[i].Put? ==> |Live(Ideal(ttl, ops[..i + 1]), ops[i].later)| <= max
  }

  /** All that the unbounded map still serves at `clock` is in the cache. */
  ghost predicate Covers<V>(m: Entries<V>, ideal: Entries<V>, clock: int) {
    forall k :: k in ideal && !Expired(ideal[k], clock) ==> k in m && m[k] == ideal[k]
  }

  /** The sweep alone makes the room: what is live fits, and it is all that goes by. */
  lemma SweepCovers<V(!new)>(max: nat, n: Entries<V>, ideal: Entries<V>, later: int, after: Entries<V>)
    requires Within(n, ideal) && Covers(n, ideal, later) && |Live(ideal, later)| <= max
    requires if |n| > max then Evicted(n, later, max, after) else after == n
    ensures Covers(after, ideal, later)
  {
    KeysShrink(Live(n, later), Live(ideal, later));
  }

  lemma PutCovers<V(!new)>(max: nat, m: Entries<V>, ideal: Entries<V>, clock: int, k: string, e: Entry<V>, later: int,
                           after: Entries<V>)
    requires Within(m, ideal) && Covers(m, ideal, clock) && clock <= later
    requires |Live(ideal[k := e], later)| <= max && AfterPut(m, e, k, later, max, after)
    ensures Covers(after, ideal[k := e], later)
  {
    SweepCovers(max, m[k := e], ideal[k := e], later, after);
  }

  lemma OtherCovers<V(!new)>(ttl: int, max: nat, ops: seq<Op<V>>, start: int, m: Entries<V>, after: Entries<V>)
    requires ops != [] && !ops[|ops| - 1].Put?
    requires var init := ops[..|ops| - 1];
             && Within(m, Ideal(ttl, init)) && Covers(m, Ideal(ttl, init), Clock(init, start))
             && Reads(ops[|ops| - 1], Clock(init, start))
    requires Step(ttl, max, m, ops[|ops| - 1], after)
    ensures Covers(after, Ideal(ttl, ops), Clock(ops, start))
  {
  }

  lemma StepCovers<V(!new)>(ttl: int, max: nat, ops: seq<Op<V>>, start: int, m: Entries<V>, after: Entries<V>)
    requires ops != []
    requires var init := ops[..|ops| - 1];
             && Within(m, Ideal(ttl, init)) && Covers(m, Ideal(ttl, init), Clock(init, start))
             && Reads(ops[|ops| - 1], Clock(init, start))
    requires var op := ops[|ops| - 1];
             (op.Put? ==> |Live(Ideal(ttl, ops), op.later)| <= max) && Step(ttl, max, m, op, after)
    ensures Covers(after, Ideal(ttl, ops), Clock(ops, start))
  {
    var init, op := ops[..|ops| - 1], ops[|ops| - 1];
    if op.Put? {
      PutCovers(max, m, Ideal(ttl, init), Clock(init, start), op.k, Entry(op.v, op.now + ttl), op.later, after);
    } else {
      OtherCovers(ttl, max, ops, start, m, after);
    }
  }

  lemma {:induction false} RunCovers<V(!new)>(ttl: int, max: nat, ops: seq<Op<V>>, states: seq<Entries<V>>, start: int,
                                              i: nat)
    requires IsRun(ttl, max, ops, states) && Timely(ops, start) && LiveFits(ttl, max, ops) && i <= |ops|
    ensures Covers(states[i], Ideal(ttl, ops[..i]), Clock(ops[..i], start))
  {
    if i > 0 {
      RunCovers(ttl, max, ops, states, start, i - 1);
      RunStaysWithin(ttl, max, ops, states, i - 1);
      assert ops[..i][..i - 1] == ops[..i - 1];
      StepCovers(ttl, max, ops[..i], start, states[i - 1], states[i]);
    }
  }

  /** As long as no more than `max` keys are live the cap does not show: every look-up gives what the
      unbounded map gives, misses included. */
  lemma BelowCapIsExact<V(!new)>(ttl: int, max: nat, ops: seq<Op<V>>, states: seq<Entries<V>>, start: int, i: nat,
                                 k: string, now: int)
    requires IsRun(ttl, max, ops, states) && Timely(ops, start) && LiveFits(ttl, max, ops) && i <= |ops|
    requires Clock(ops[..i], start) <= now
    ensures Looked(states[i], k, now) == Looked(Ideal(ttl, ops[..i]), k, now)
  {
    RunStaysWithin(ttl, max, ops, states, i);
    RunCovers(ttl, max, ops, states, start, i);
  }

  /** After the first `i` calls no look-up, now or later, tells the cache from the unbounded map. */
  ghost predicate Indistinct<V(!new)>(ttl: int, ops: seq<Op<V>>, states: seq<Entries<V>>, start: int, i: nat)
    requires i <= |ops| && i < |states|
  {
    forall k, now :: Clock(ops[..i], start) <= now ==> Looked(states[i], k, now) == Looked(Ideal(ttl, ops[..i]), k, now)
  }

  /** A Put that leaves more than `max` keys live loses one of them. */
  lemma OverCapLoses<V(!new)>(ttl: int, max: nat, ops: seq<Op<V>>, states: seq<Entries<V>>, start: int, i: nat)
    requires IsRun(ttl, max, ops, states) && i < |ops| && ops[i].Put?
    requires |Live(Ideal(ttl, ops[..i + 1]), ops[i].later)| > max
    ensures !Indistinct(ttl, ops, states, start, i + 1)
  {
    var live, after, now := Live(Ideal(ttl, ops[..i + 1]), ops[i].later), states[i + 1], ops[i].later;
    CapHolds(ttl, max, ops, states, i + 1);
    if live.Keys <= after.Keys {
      KeysShrink(live, after);
    }
    var k :| k in live && k !in after;
    assert Clock(ops[..i + 1], start) == now;
    assert Looked(after, k, now) != Looked(Ideal(ttl, ops[..i + 1]), k, now);
  }

  /** The cap shows in a run exactly if some Put leaves more than `max` keys live. */
  lemma CapShowsExactly<V(!new)>(ttl: int, max: nat, ops: seq<Op<V>>, states: seq<Entries<V>>, start: int)
    requires IsRun(ttl, max, ops, states) && Timely(ops, start)
    ensures LiveFits(ttl, max, ops) <==> forall i :: 0 <= i <= |ops| ==> Indistinct(ttl, ops, states, start, i)
  {
    if LiveFits(ttl, max, ops) {
      forall i, k, now | 0 <= i <= |ops| && Clock(ops[..i], start) <= now
        ensures Looked(states[i], k, now) == Looked(Ideal(ttl, ops[..i]), k, now)
      {
        BelowCapIsExact(ttl, max, ops, states, start, i, k, now);
      }
    } else {
      var i :| 0 <= i < |ops| && ops[i].Put? && |Live(Ideal(ttl, ops[..i + 1]), ops[i].later)| > max;
      OverCapLoses(ttl, max, ops, states, start, i);
    }
  }

  /** While no Put leaves more than `max` keys live, a Get returns what the last call to touch its key put there, if
      that was a Put at most the TTL ago. */
  lemma LastPutIsHit<V(!new)>(ttl: int, max: nat, ops: seq<Op<V>>, states: seq<Entries<V>>, start: int, i: nat, j: nat)
    requires IsRun(ttl, max, ops, states) && Timely(ops, start) && LiveFits(ttl, max, ops)
    requires j < i < |ops| && ops[i].Get? && ops[j].Put? && ops[j].k == ops[i].k
    requires forall m :: j < m < i ==> !Touches(ops[m], ops[i].k)
    requires ops[i].now <= ops[j].now + ttl
    ensures ops[i].hit == Some(ops[j].v)
  {
    var k := ops[i].k;
    forall m | j < m < i ensures !Touches(ops[..i][m], k) {
      assert ops[..i][m] == ops[m];
    }
    CallFollows(ttl, max, ops, states, i);
    assert Reads(ops[i], Clock(ops[..i], start));
    BelowCapIsExact(ttl, max, ops, states, start, i, k, ops[i].now);
    LastPutIsIdeal(ttl, ops[..i], k, j);
  }
}
