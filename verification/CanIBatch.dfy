/**
  POST can-i: one request's checks are answered from the cache, by one rules review per large
  namespace bucket, and by single access reviews for the rest. It must agree with asking about
  each check on its own.
  */
module CanIBatch {
  import opened Wrappers
  import opened CanICacheKey
  import opened Sequences
  import opened CanIRouting
  import opened CanIWork

  const MAX_CHECKS: nat := 64

  datatype Response =
    | Results(results: seq<CanIResult>)
    | TooManyChecks
    | ClientGone

  /** How a backend call ends: well, cancelled by the client, or with an error code. */
  datatype Fault = NoFault | Canceled | Failed(code: string)

  /** The rules the apiserver lists for one identity in one namespace. */
  datatype RuleSet = RuleSet(actor: string, cluster: string, groups: seq<string>, namespace_: string)

  datatype SSRRCheck = SSRRCheck(verb: string, group: string, resource: string, name: string)

  /** The clock and the apiserver. `oracle` and `reason` are what an access review says,
      `evaluate` is the local evaluation of a listed rule set; which of the calls fail is up to
      `fault`. */
  class Backend {
    const oracle: Query -> bool
    const reason: Query -> string
    const evaluate: (RuleSet, SSRRCheck) -> bool
    const fault: nat -> Fault
    const time: nat -> Time
    var calls: nat
    var ticks: nat
    var failures: nat

    constructor (oracle: Query -> bool, reason: Query -> string, evaluate: (RuleSet, SSRRCheck) -> bool,
                 fault: nat -> Fault, time: nat -> Time)
      ensures this.oracle == oracle && this.reason == reason && this.evaluate == evaluate
      ensures this.fault == fault && this.time == time
      ensures calls == ticks == failures == 0
    {
      this.oracle, this.reason, this.evaluate, this.fault, this.time := oracle, reason, evaluate, fault, time;
      calls, ticks, failures := 0, 0, 0;
    }

    method Now() returns (now: Time)
      modifies this`ticks
      ensures ticks == old(ticks) + 1 && now == time(old(ticks))
    {
      now := time(ticks);
      ticks := ticks + 1;
    }

    method Call() returns (f: Fault)
      modifies this`calls, this`failures
      ensures f == fault(old(calls)) && calls == old(calls) + 1
      ensures failures == old(failures) + if f == NoFault then 0 else 1
    {
      f := fault(calls);
      calls := calls + 1;
      if f != NoFault {
        failures := failures + 1;
      }
    }

    /** A rules review sees what access reviews see, for the checks it may be used for. */
    ghost predicate ReviewsAgree() {
      forall q: Query :: q.check.namespace_ != "" && q.check.subresource == "" && q.check.name == "" ==>
        evaluate(RuleSet(q.actor, q.cluster, q.groups, q.check.namespace_),
                 SSRRCheck(q.check.verb, q.check.group, q.check.resource, q.check.name)) == oracle(q)
    }

    /** Group order does not matter, nor does the actor when nothing is impersonated. */
    ghost predicate OracleRespectsIdentity() {
      forall a, b :: SameQuestion(a, b) ==> oracle(a) == oracle(b)
    }

    ghost predicate ClockRuns() {
      Ascends(time)
    }
  }

  predicate FromCache(digest: string -> string, m: map<string, Entry>, q: Query, r: CanIResult) {
    Key(digest, q) in m && m[Key(digest, q)].result == r
  }

  /** `poison` is history: the instants at which the outcome of a failed call was stored. */
  class CanICache {
    const ttl: Time
    const digest: string -> string
    var m: map<string, Entry>
    ghost var poison: set<Time>

    constructor (ttl: Time, digest: string -> string)
      ensures this.ttl == ttl && this.digest == digest && m == map[] && poison == {}
    {
      this.ttl, this.digest, m, poison := ttl, digest, map[], {};
    }

    method Get(q: Query, b: Backend) returns (hit: Option<CanIResult>)
      modifies this`m, b`ticks
      ensures b.ticks >= old(b.ticks) && (Key(digest, q) in old(m) ==> b.ticks == old(b.ticks) + 1)
      ensures var k := Key(digest, q); var live := k in old(m) && b.time(old(b.ticks)) <= old(m)[k].expires;
              && hit == (if live then Some(old(m)[k].result) else None)
              && m == (if live then old(m) else old(m) - {k})
    {
      var k := Key(digest, q);
      if k !in m {
        return None;
      }
      var now := b.Now();
      if now > m[k].expires {
        m := m - {k};
        return None;
      }
      return Some(m[k].result);
    }

    method Put(q: Query, result: CanIResult, b: Backend, ghost failed: bool)
      modifies this, b`ticks
      ensures b.ticks == old(b.ticks) + 1
      ensures m == old(m)[Key(digest, q) := Entry(result, b.time(old(b.ticks)) + ttl)]
      ensures poison == old(poison) + if failed then {b.time(old(b.ticks))} else {}
    {
      var now := b.Now();
      m := m[Key(digest, q) := Entry(result, now + ttl)];
      if failed {
        poison := poison + {now};
      }
    }
  }

  /** Over the queries anyone asks, the digests keep different texts apart. */
  ghost predicate Distinguishes(digest: string -> string, asked: set<Query>) {
    && (forall s :: |digest(s)| == DIGEST_LENGTH)
    && (forall q :: q in asked ==> WellFormed(q))
    && (forall a, b :: a in asked && b in asked ==>
          NoCollision(digest, GroupText(a), GroupText(b)) && NoCollision(digest, CheckText(a), CheckText(b)))
  }

  /** An answer never allows what the oracle denies; a `clean` answer is the oracle's. */
  predicate Settles(oracle: Query -> bool, q: Query, r: CanIResult, clean: bool) {
    (r.allowed ==> oracle(q)) && (clean ==> (r.allowed <==> oracle(q)))
  }

  /** What the cached entries may be trusted for. */
  ghost predicate TrustedEntries(oracle: Query -> bool, digest: string -> string, ttl: Time,
                                 m: map<string, Entry>, poison: set<Time>, asked: set<Query>)
  {
    forall q :: q in asked && Key(digest, q) in m ==>
      var e := m[Key(digest, q)];
      Settles(oracle, q, e.result, e.expires - ttl !in poison)
  }

  ghost predicate Trusted(cache: CanICache, b: Backend, asked: set<Query>)
    reads cache
  {
    TrustedEntries(b.oracle, cache.digest, cache.ttl, cache.m, cache.poison, asked)
  }

  /** No outcome of a failed call stored in the last ttl before `start`. */
  ghost predicate Quiet(cache: CanICache, start: Time)
    reads cache
  {
    forall p :: p in cache.poison ==> p + cache.ttl < start
  }

  ghost predicate Assumptions(cache: CanICache, b: Backend, asked: set<Query>) {
    && b.ReviewsAgree() && b.OracleRespectsIdentity() && b.ClockRuns()
    && Distinguishes(cache.digest, asked)
  }

  lemma SharedKeySameAnswer(oracle: Query -> bool, digest: string -> string, asked: set<Query>, p: Query, q: Query)
    requires Distinguishes(digest, asked) && p in asked && q in asked && Key(digest, p) == Key(digest, q)
    requires forall a, b :: SameQuestion(a, b) ==> oracle(a) == oracle(b)
    ensures oracle(p) == oracle(q)
  {
    KeySharedExactly(digest, p, q);
  }

  /** Storing an answer for `q` stores it for the same question only. */
  lemma PutKeepsTrust(oracle: Query -> bool, digest: string -> string, ttl: Time, m: map<string, Entry>,
                      poison: set<Time>, asked: set<Query>, q: Query, r: CanIResult, failed: bool, now: Time)
    requires Distinguishes(digest, asked) && q in asked
    requires forall a, b :: SameQuestion(a, b) ==> oracle(a) == oracle(b)
    requires TrustedEntries(oracle, digest, ttl, m, poison, asked)
    requires Settles(oracle, q, r, !failed)
    ensures TrustedEntries(oracle, digest, ttl, m[Key(digest, q) := Entry(r, now + ttl)],
                           poison + (if failed then {now} else {}), asked)
  {
    forall p | p in asked && Key(digest, p) == Key(digest, q) ensures oracle(p) == oracle(q) {
      SharedKeySameAnswer(oracle, digest, asked, p, q);
    }
  }

  /** Every index in `idxs` has an answer that settles its check. */
  ghost predicate AllSettled(b: Backend, req: Request, results: seq<CanIResult>, idxs: seq<nat>, clean: bool) {
    |results| == |req.checks| &&
    forall i :: i in idxs ==> i < |req.checks| && Settles(b.oracle, req.At(i), results[i], clean)
  }

  /** A lookup keeps the cache trusted, and a hit settles its check; the answer is the oracle's
      when the ttl before `start` was quiet. */
  method Consult(q: Query, cache: CanICache, b: Backend, ghost asked: set<Query>, ghost start: Time)
    returns (hit: Option<CanIResult>)
    requires b.ClockRuns() && Trusted(cache, b, asked) && q in asked
    requires start <= b.time(b.ticks)
    modifies cache`m, b`ticks
    ensures Trusted(cache, b, asked) && b.ticks >= old(b.ticks)
    ensures hit.Some? ==> Settles(b.oracle, q, hit.value, Quiet(cache, start))
    ensures hit.Some? ==> FromCache(cache.digest, old(cache.m), q, hit.value)
    ensures Within(cache.m, old(cache.m))
    ensures var k := Key(cache.digest, q);
            var live := k in old(cache.m) && b.time(old(b.ticks)) <= old(cache.m)[k].expires;
            && hit == (if live then Some(old(cache.m)[k].result) else None)
            && cache.m == (if live then old(cache.m) else old(cache.m) - {k})
            && (k in old(cache.m) && !live ==> b.ticks == old(b.ticks) + 1)
  {
    hit := cache.Get(q, b);
    FewerEntriesTrusted(b.oracle, cache.digest, cache.ttl, old(cache.m), cache.m, cache.poison, asked);
    if hit.Some? {
      HitSettles(b.oracle, cache.digest, cache.ttl, cache.m, cache.poison, asked, q, hit.value, start);
    }
  }

  lemma FewerEntriesTrusted(oracle: Query -> bool, digest: string -> string, ttl: Time, m: map<string, Entry>,
                            m': map<string, Entry>, poison: set<Time>, asked: set<Query>)
    requires TrustedEntries(oracle, digest, ttl, m, poison, asked) && Within(m', m)
    ensures TrustedEntries(oracle, digest, ttl, m', poison, asked)
  {
  }

  lemma HitSettles(oracle: Query -> bool, digest: string -> string, ttl: Time, m: map<string, Entry>,
                   poison: set<Time>, asked: set<Query>, q: Query, r: CanIResult, start: Time)
    requires TrustedEntries(oracle, digest, ttl, m, poison, asked) && q in asked
    requires FromCache(digest, m, q, r) && start <= m[Key(digest, q)].expires
    ensures Settles(oracle, q, r, forall p :: p in poison ==> p + ttl < start)
  {
    var e := m[Key(digest, q)];
    assert e.expires - ttl in poison ==> start <= (e.expires - ttl) + ttl;
  }

  ghost predicate AllCached(digest: string -> string, m: map<string, Entry>, req: Request,
                            results: seq<CanIResult>, idxs: seq<nat>)
  {
    |results| == |req.checks| &&
    forall i :: i in idxs ==> i < |req.checks| && FromCache(digest, m, req.At(i), results[i])
  }

  lemma HitKeepsSettled(b: Backend, digest: string -> string, m: map<string, Entry>, req: Request,
                        results: seq<CanIResult>, hits: seq<nat>, i: nat, r: CanIResult, clean: bool)
    requires AllSettled(b, req, results, hits, clean) && AllCached(digest, m, req, results, hits)
    requires i < |req.checks| && i !in hits
    requires Settles(b.oracle, req.At(i), r, clean) && FromCache(digest, m, req.At(i), r)
    ensures AllSettled(b, req, results[i := r], hits + [i], clean)
    ensures AllCached(digest, m, req, results[i := r], hits + [i])
  {
  }

  /** The cache keys of the checks. */
  function Keys(digest: string -> string, req: Request): (r: seq<string>)
    ensures |r| == |req.checks| && forall i :: 0 <= i < |r| ==> r[i] == Key(digest, req.At(i))
  {
    seq(|req.checks|, i requires 0 <= i < |req.checks| => Key(digest, req.At(i)))
  }

  /** One more look, for the next of some keys. */
  method Look(q: Query, cache: CanICache, b: Backend, ghost asked: set<Query>, ghost start: Time,
              ghost m0: map<string, Entry>, ghost keys: seq<string>, ghost hits: seq<nat>)
    returns (hit: Option<CanIResult>)
    requires b.ClockRuns() && Trusted(cache, b, asked) && q in asked
    requires start <= b.time(b.ticks) && (forall i :: i in hits ==> i < |keys|)
    requires Scanned(m0, cache.m, keys, hits, start, b.time(b.ticks))
    modifies cache`m, b`ticks
    ensures Trusted(cache, b, asked) && b.ticks >= old(b.ticks)
    ensures hit.Some? ==> Settles(b.oracle, q, hit.value, Quiet(cache, start))
    ensures hit.Some? ==> FromCache(cache.digest, m0, q, hit.value)
    ensures Scanned(m0, cache.m, keys + [Key(cache.digest, q)], if hit.Some? then hits + [|keys|] else hits, start,
                    b.time(b.ticks))
  {
    ghost var m, ticks, k := cache.m, b.ticks, Key(cache.digest, q);
    hit := Consult(q, cache, b, asked, start);
    ScannedGrows(m0, m, cache.m, keys, k, hits, start, b.time(ticks), b.time(b.ticks), hit.Some?);
  }

  /** Where the scan is after `n` checks. */
  ghost predicate ScanOk(b: Backend, digest: string -> string, m0: map<string, Entry>, m: map<string, Entry>,
                         req: Request, n: nat, results: seq<CanIResult>, hits: seq<nat>, pending: seq<nat>,
                         start: Time, end: Time, quiet: bool)
    requires n <= |req.checks|
  {
    && Split(n, hits, pending)
    && AllSettled(b, req, results, hits, quiet) && AllCached(digest, m0, req, results, hits)
    && Scanned(m0, m, Keys(digest, req)[..n], hits, start, end)
  }

  lemma KeysGrow(digest: string -> string, req: Request, n: nat)
    requires n < |req.checks|
    ensures Keys(digest, req)[..n + 1] == Keys(digest, req)[..n] + [Key(digest, req.At(n))]
  {
  }

  lemma ScanHits(b: Backend, digest: string -> string, m0: map<string, Entry>, m: map<string, Entry>,
                 m': map<string, Entry>, req: Request, n: nat, results: seq<CanIResult>, hits: seq<nat>,
                 pending: seq<nat>, start: Time, end: Time, end': Time, quiet: bool, r: CanIResult)
    requires n < |req.checks| && ScanOk(b, digest, m0, m, req, n, results, hits, pending, start, end, quiet)
    requires Settles(b.oracle, req.At(n), r, quiet) && FromCache(digest, m0, req.At(n), r)
    requires Scanned(m0, m', Keys(digest, req)[..n] + [Key(digest, req.At(n))], hits + [n], start, end')
    ensures ScanOk(b, digest, m0, m', req, n + 1, results[n := r], hits + [n], pending, start, end', quiet)
  {
    KeysGrow(digest, req, n);
    SplitGrows(n, hits, pending);
    HitKeepsSettled(b, digest, m0, req, results, hits, n, r, quiet);
  }

  lemma ScanMisses(b: Backend, digest: string -> string, m0: map<string, Entry>, m: map<string, Entry>,
                   m': map<string, Entry>, req: Request, n: nat, results: seq<CanIResult>, hits: seq<nat>,
                   pending: seq<nat>, start: Time, end: Time, end': Time, quiet: bool)
    requires n < |req.checks| && ScanOk(b, digest, m0, m, req, n, results, hits, pending, start, end, quiet)
    requires Scanned(m0, m', Keys(digest, req)[..n] + [Key(digest, req.At(n))], hits, start, end')
    ensures ScanOk(b, digest, m0, m', req, n + 1, results, hits, pending + [n], start, end', quiet)
  {
    KeysGrow(digest, req, n);
    SplitGrows(n, hits, pending);
  }

  /** The scan's next check. */
  method ScanOne(req: Request, i: nat, cache: CanICache, b: Backend, ghost asked: set<Query>,
                 results: array<CanIResult>, ghost start: Time, ghost m0: map<string, Entry>,
                 ghost hits: seq<nat>, pending: seq<nat>)
    returns (pending': seq<nat>, ghost hits': seq<nat>)
    requires results.Length == |req.checks| && i < |req.checks|
    requires b.ClockRuns() && Trusted(cache, b, asked) && req.At(i) in asked && start <= b.time(b.ticks)
    requires ScanOk(b, cache.digest, m0, cache.m, req, i, results[..], hits, pending, start, b.time(b.ticks),
                    Quiet(cache, start))
    modifies results, cache`m, b`ticks
    ensures Trusted(cache, b, asked) && b.ticks >= old(b.ticks)
    ensures ScanOk(b, cache.digest, m0, cache.m, req, i + 1, results[..], hits', pending', start, b.time(b.ticks),
                   Quiet(cache, start))
  {
    ghost var before, m, end, quiet := results[..], cache.m, b.time(b.ticks), Quiet(cache, start);
    hits', pending' := hits, pending;
    var hit := Look(req.At(i), cache, b, asked, start, m0, Keys(cache.digest, req)[..i], hits);
    if hit.Some? {
      results[i] := hit.value;
      assert results[..] == before[i := hit.value];
      ScanHits(b, cache.digest, m0, m, cache.m, req, i, before, hits, pending, start, end, b.time(b.ticks), quiet,
               hit.value);
      hits' := hits + [i];
    } else {
      ScanMisses(b, cache.digest, m0, m, cache.m, req, i, before, hits, pending, start, end, b.time(b.ticks), quiet);
      pending' := pending + [i];
    }
  }

  /** Answers from the cache first; what it cannot answer is pending. */
  method ScanCache(req: Request, cache: CanICache, b: Backend, ghost asked: set<Query>, results: array<CanIResult>)
    returns (pending: seq<nat>, ghost hits: seq<nat>)
    requires results.Length == |req.checks|
    requires b.ClockRuns() && Trusted(cache, b, asked)
    requires forall i :: 0 <= i < |req.checks| ==> req.At(i) in asked
    modifies results, cache`m, b`ticks
    ensures Trusted(cache, b, asked) && b.ticks >= old(b.ticks)
    ensures Split(|req.checks|, hits, pending)
    ensures AllSettled(b, req, results[..], hits, Quiet(cache, b.time(old(b.ticks))))
    ensures AllCached(cache.digest, old(cache.m), req, results[..], hits)
    ensures Scanned(old(cache.m), cache.m, Keys(cache.digest, req), hits, b.time(old(b.ticks)), b.time(b.ticks))
  {
    pending, hits := [], [];
    ghost var start, m0 := b.time(b.ticks), cache.m;
    for i := 0 to |req.checks|
      invariant Trusted(cache, b, asked) && b.ticks >= old(b.ticks)
      invariant ScanOk(b, cache.digest, m0, cache.m, req, i, results[..], hits, pending, start, b.time(b.ticks),
                       Quiet(cache, start))
    {
      pending, hits := ScanOne(req, i, cache, b, asked, results, start, m0, hits, pending);
    }
    assert Keys(cache.digest, req)[..|req.checks|] == Keys(cache.digest, req);
  }

  /** What the backend calls from `lo` up to `hi` can have answered about `q`: the oracle's verdict with the
      reason of an access review (a rules review gives none), or a denial with the code of one that failed. */
  ghost predicate Answers(b: Backend, lo: nat, hi: nat, q: Query, r: CanIResult) {
    || ((r.allowed <==> b.oracle(q)) && (r.reason == b.reason(q) || (r.reason == "" && SSRREligible(q.check))))
    || (!r.allowed && exists n: nat :: lo <= n < hi && b.fault(n) == Failed(r.reason))
  }

  ghost predicate AllAnswered(b: Backend, lo: nat, hi: nat, req: Request, results: seq<CanIResult>, idxs: seq<nat>) {
    |results| == |req.checks| &&
    forall i :: i in idxs ==> i < |req.checks| && Answers(b, lo, hi, req.At(i), results[i])
  }

  ghost function SettingOf(req: Request, cache: CanICache, b: Backend): Setting {
    Setting(Keys(cache.digest, req), cache.ttl, b.time)
  }

  ghost function WorkOf(cache: CanICache, b: Backend, results: array<CanIResult>): Work
    reads cache, b, results
  {
    Work(results[..], cache.m, b.ticks)
  }

  /** What a call that ended with `f` says about index `i`: a denial with the error's code, or the oracle's
      verdict, with the reason of an access review; a rules review gives none. */
  function Told(b: Backend, req: Request, c: Call, i: nat, f: Fault): CanIResult {
    if i >= |req.checks| then CanIResult(false, "")
    else if f.Failed? then CanIResult(false, f.code)
    else CanIResult(b.oracle(req.At(i)), if c.Rules? then "" else b.reason(req.At(i)))
  }

  function CallWrites(b: Backend, req: Request, c: Call, f: Fault): (xs: seq<Write>)
    ensures |xs| == |c.Indices()|
    ensures forall k :: 0 <= k < |xs| ==> xs[k] == Write(c.Indices()[k], Told(b, req, c, c.Indices()[k], f))
  {
    seq(|c.Indices()|, k requires 0 <= k < |c.Indices()| =>
      Write(c.Indices()[k], Told(b, req, c, c.Indices()[k], f)))
  }

  /** The calls of a plan, of which the first is the backend's call number `lo`. */
  function PlanWrites(b: Backend, req: Request, plan: seq<Call>, lo: nat): seq<Write> {
    if plan == [] then [] else CallWrites(b, req, plan[0], b.fault(lo)) + PlanWrites(b, req, plan[1..], lo + 1)
  }

  lemma {:induction false} PlansAppend(b: Backend, req: Request, p: seq<Call>, q: seq<Call>, lo: nat)
    ensures PlanWrites(b, req, p + q, lo) == PlanWrites(b, req, p, lo) + PlanWrites(b, req, q, lo + |p|)
  {
    if p == [] {
      assert p + q == q;
    } else {
      assert (p + q)[1..] == p[1..] + q;
      PlansAppend(b, req, p[1..], q, lo + 1);
    }
  }

  lemma OneCall(b: Backend, req: Request, c: Call, lo: nat)
    ensures PlanWrites(b, req, [c], lo) == CallWrites(b, req, c, b.fault(lo))
  {
  }

  /** None of the backend's calls `lo` to `hi` was cancelled. */
  ghost predicate NotCanceled(b: Backend, lo: nat, hi: nat) {
    forall n: nat :: lo <= n < hi ==> b.fault(n) != Canceled
  }

  /** The call before `hi` was, and it was the first since `lo`. */
  ghost predicate CanceledAt(b: Backend, lo: nat, hi: nat) {
    lo < hi && b.fault(hi - 1) == Canceled && NotCanceled(b, lo, hi - 1)
  }

  method Store(q: Query, r: CanIResult, cache: CanICache, b: Backend, ghost asked: set<Query>, ghost failed: bool)
    requires Assumptions(cache, b, asked) && Trusted(cache, b, asked) && q in asked
    requires Settles(b.oracle, q, r, !failed)
    modifies cache, b`ticks
    ensures Trusted(cache, b, asked) && b.ticks == old(b.ticks) + 1
    ensures cache.m == old(cache.m)[Key(cache.digest, q) := Entry(r, b.time(old(b.ticks)) + cache.ttl)]
  {
    PutKeepsTrust(b.oracle, cache.digest, cache.ttl, cache.m, cache.poison, asked, q, r, failed, b.time(b.ticks));
    cache.Put(q, r, b, failed);
  }

  /** Notes the result of a check and stores it. */
  method Note(req: Request, i: nat, r: CanIResult, cache: CanICache, b: Backend, ghost asked: set<Query>,
              results: array<CanIResult>, ghost failed: bool)
    requires results.Length == |req.checks| && i < |req.checks|
    requires Assumptions(cache, b, asked) && Trusted(cache, b, asked) && req.At(i) in asked
    requires Settles(b.oracle, req.At(i), r, !failed)
    modifies results, cache, b`ticks
    ensures Trusted(cache, b, asked)
    ensures WorkOf(cache, b, results) == Written(SettingOf(req, cache, b), old(WorkOf(cache, b, results)), Write(i, r))
  {
    ghost var e, w := SettingOf(req, cache, b), WorkOf(cache, b, results);
    results[i] := r;
    Store(req.At(i), r, cache, b, asked, failed);
    assert e.keys[i] == Key(cache.digest, req.At(i)) && results[..] == w.results[i := r];
  }

  /** Fails closed: every check of the bucket is denied with the error's code. */
  method DenyBucket(req: Request, ns: string, idxs: seq<nat>, code: string, cache: CanICache, b: Backend,
                    ghost asked: set<Query>, results: array<CanIResult>)
    requires results.Length == |req.checks|
    requires Assumptions(cache, b, asked) && Trusted(cache, b, asked)
    requires forall i :: 0 <= i < |req.checks| ==> req.At(i) in asked
    requires forall i :: i in idxs ==> i < |req.checks|
    modifies results, cache, b`ticks
    ensures Trusted(cache, b, asked) && b.ticks >= old(b.ticks)
    ensures forall i :: 0 <= i < |req.checks| ==>
              results[i] == if i in idxs then CanIResult(false, code) else old(results[i])
    ensures WorkOf(cache, b, results) == WrittenAll(SettingOf(req, cache, b), old(WorkOf(cache, b, results)),
                                                    CallWrites(b, req, Rules(ns, idxs), Failed(code)))
  {
    ghost var e, w, xs := SettingOf(req, cache, b), WorkOf(cache, b, results),
                          CallWrites(b, req, Rules(ns, idxs), Failed(code));
    for k := 0 to |idxs|
      invariant Trusted(cache, b, asked)
      invariant WorkOf(cache, b, results) == WrittenAll(e, w, xs[..k])
    {
      var i := idxs[k];
      assert i in idxs;
      WrittenNext(e, w, xs, k);
      Note(req, i, CanIResult(false, code), cache, b, asked, results, true);
    }
    assert xs[..|xs|] == xs;
    WrittenResults(e, w, idxs, xs, (i: nat) => Told(b, req, Rules(ns, idxs), i, Failed(code)));
  }

  /** Evaluates every check of the bucket against the namespace's rules. */
  method EvaluateBucket(req: Request, ns: string, idxs: seq<nat>, cache: CanICache, b: Backend,
                        ghost asked: set<Query>, results: array<CanIResult>)
    requires results.Length == |req.checks|
    requires Assumptions(cache, b, asked) && Trusted(cache, b, asked)
    requires forall i :: 0 <= i < |req.checks| ==> req.At(i) in asked
    requires forall i :: i in idxs ==> req.BatchableIn(i, ns)
    modifies results, cache, b`ticks
    ensures Trusted(cache, b, asked) && b.ticks >= old(b.ticks)
    ensures forall i :: 0 <= i < |req.checks| ==>
              results[i] == if i in idxs then CanIResult(b.oracle(req.At(i)), "") else old(results[i])
    ensures WorkOf(cache, b, results) == WrittenAll(SettingOf(req, cache, b), old(WorkOf(cache, b, results)),
                                                    CallWrites(b, req, Rules(ns, idxs), NoFault))
  {
    var rules := RuleSet(req.actor, req.cluster, req.groups, ns);
    ghost var e, w, xs := SettingOf(req, cache, b), WorkOf(cache, b, results),
                          CallWrites(b, req, Rules(ns, idxs), NoFault);
    for k := 0 to |idxs|
      invariant Trusted(cache, b, asked)
      invariant WorkOf(cache, b, results) == WrittenAll(e, w, xs[..k])
    {
      var i := idxs[k];
      assert i in idxs;
      var ch := req.checks[i];
      var allowed := b.evaluate(rules, SSRRCheck(ch.verb, ch.group, ch.resource, ch.name));
      assert allowed == b.oracle(req.At(i));
      WrittenNext(e, w, xs, k);
      Note(req, i, CanIResult(allowed, ""), cache, b, asked, results, false);
    }
    assert xs[..|xs|] == xs;
    WrittenResults(e, w, idxs, xs, (i: nat) => Told(b, req, Rules(ns, idxs), i, NoFault));
  }

  /** Answers the checks `idxs` from one rules review of their namespace, or denies them all when
      the review fails. `gone` reports a cancelled request. */
  method ReviewNamespace(req: Request, ns: string, idxs: seq<nat>, cache: CanICache, b: Backend,
                         ghost asked: set<Query>, results: array<CanIResult>)
    returns (gone: bool)
    requires results.Length == |req.checks|
    requires Assumptions(cache, b, asked) && Trusted(cache, b, asked)
    requires forall i :: 0 <= i < |req.checks| ==> req.At(i) in asked
    requires forall i :: i in idxs ==> req.BatchableIn(i, ns)
    modifies results, cache, b
    ensures Trusted(cache, b, asked) && b.ticks >= old(b.ticks) && b.failures >= old(b.failures)
    ensures gone <==> b.fault(old(b.calls)) == Canceled
    ensures gone ==> b.failures > old(b.failures)
    ensures !gone ==> AllSettled(b, req, results[..], idxs, b.failures == old(b.failures))
    ensures b.calls == old(b.calls) + 1 && (!gone ==> AllAnswered(b, old(b.calls), b.calls, req, results[..], idxs))
    ensures forall i :: 0 <= i < |req.checks| && i !in idxs ==> results[i] == old(results[i])
    ensures !gone ==> WorkOf(cache, b, results)
                      == WrittenAll(SettingOf(req, cache, b), old(WorkOf(cache, b, results)),
                                    CallWrites(b, req, Rules(ns, idxs), b.fault(old(b.calls))))
  {
    ghost var call := b.calls;
    var f := b.Call();
    if f == Canceled {
      return true;
    }
    if f.Failed? {
      assert b.fault(call) == f;
      DenyBucket(req, ns, idxs, f.code, cache, b, asked, results);
    } else {
      EvaluateBucket(req, ns, idxs, cache, b, asked, results);
    }
    return false;
  }

  lemma OneWrite(e: Setting, w: Work, b: Backend, req: Request, i: nat, f: Fault)
    ensures WrittenAll(e, w, CallWrites(b, req, Access(i), f)) == Written(e, w, Write(i, Told(b, req, Access(i), i, f)))
  {
    var xs := CallWrites(b, req, Access(i), f);
    assert xs == [Write(i, Told(b, req, Access(i), i, f))] && xs[..0] == [];
  }

  /** One access review. */
  method ReviewOne(req: Request, i: nat, cache: CanICache, b: Backend, ghost asked: set<Query>,
                   results: array<CanIResult>)
    returns (gone: bool)
    requires results.Length == |req.checks| && i < |req.checks|
    requires Assumptions(cache, b, asked) && Trusted(cache, b, asked) && req.At(i) in asked
    modifies results, cache, b
    ensures Trusted(cache, b, asked) && b.ticks >= old(b.ticks)
    ensures b.calls == old(b.calls) + 1 && b.failures >= old(b.failures)
    ensures gone <==> b.fault(old(b.calls)) == Canceled
    ensures gone ==> b.failures > old(b.failures)
    ensures !gone ==> AllSettled(b, req, results[..], [i], b.failures == old(b.failures))
    ensures !gone ==> AllAnswered(b, old(b.calls), b.calls, req, results[..], [i])
    ensures forall j :: 0 <= j < |req.checks| && j != i ==> results[j] == old(results[j])
    ensures !gone ==> WorkOf(cache, b, results)
                      == WrittenAll(SettingOf(req, cache, b), old(WorkOf(cache, b, results)),
                                    CallWrites(b, req, Access(i), b.fault(old(b.calls))))
  {
    var q := req.At(i);
    ghost var call := b.calls;
    var f := b.Call();
    if f == Canceled {
      return true;
    }
    assert b.fault(call) == f;
    var r := if f.Failed? then CanIResult(false, f.code) else CanIResult(b.oracle(q), b.reason(q));
    ghost var e, w := SettingOf(req, cache, b), WorkOf(cache, b, results);
    Note(req, i, r, cache, b, asked, results, f.Failed?);
    OneWrite(e, w, b, req, i, f);
    assert results[..] == w.results[i := r];
    return false;
  }

  predicate Unauthenticated(actor: string) {
    actor == "" || actor == "anonymous"
  }

  lemma SettledConcat(b: Backend, req: Request, before: seq<CanIResult>, after: seq<CanIResult>,
                      s: seq<nat>, t: seq<nat>, then_: bool, now: bool)
    requires AllSettled(b, req, before, s, then_) && AllSettled(b, req, after, t, now) && (now ==> then_)
    requires forall i :: i in s ==> i < |before| == |after| && after[i] == before[i]
    ensures AllSettled(b, req, after, s + t, now)
  {
  }

  lemma AnsweredConcat(b: Backend, req: Request, before: seq<CanIResult>, after: seq<CanIResult>,
                       s: seq<nat>, t: seq<nat>, lo: nat, mid: nat, hi: nat)
    requires lo <= mid <= hi && AllAnswered(b, lo, mid, req, before, s) && AllAnswered(b, mid, hi, req, after, t)
    requires forall i :: i in s ==> i < |before| == |after| && after[i] == before[i]
    ensures AllAnswered(b, lo, hi, req, after, s + t)
  {
  }

  // Answering what is pending.

  /** After the calls of a plan, from the backend's call `lo` on, with work `w0` before and `w` now: what they
      told is noted and stored, call by call; none was cancelled; and it settles the checks of `order`. */
  ghost predicate Answered(b: Backend, e: Setting, w0: Work, lo: nat, failures0: nat, req: Request, plan: seq<Call>,
                           order: seq<nat>, w: Work, calls: nat, failures: nat) {
    && CallsDone(b, e, w0, lo, req, plan, order, w, calls)
    && failures0 <= failures && AllSettled(b, req, w.results, order, failures == failures0)
    && lo <= calls && AllAnswered(b, lo, calls, req, w.results, order)
  }

  ghost predicate CallsDone(b: Backend, e: Setting, w0: Work, lo: nat, req: Request, plan: seq<Call>, order: seq<nat>,
                            w: Work, calls: nat) {
    && calls == lo + |plan| && NotCanceled(b, lo, calls)
    && AllWritten(b, e, w0, lo, req, plan, w) && IndicesAre(plan, order)
  }

  ghost predicate AllWritten(b: Backend, e: Setting, w0: Work, lo: nat, req: Request, plan: seq<Call>, w: Work) {
    w == WrittenAll(e, w0, PlanWrites(b, req, plan, lo))
  }

  lemma CallWritten(b: Backend, e: Setting, w0: Work, lo: nat, req: Request, plan: seq<Call>, w: Work, c: Call,
                    w': Work)
    requires AllWritten(b, e, w0, lo, req, plan, w)
    requires w' == WrittenAll(e, w, CallWrites(b, req, c, b.fault(lo + |plan|)))
    ensures AllWritten(b, e, w0, lo, req, plan + [c], w')
  {
    WritesGoOn(b, e, w0, lo, req, plan, c);
  }

  lemma CallDone(b: Backend, e: Setting, w0: Work, lo: nat, req: Request, plan: seq<Call>, order: seq<nat>, w: Work,
                 calls: nat, c: Call, w': Work)
    requires CallsDone(b, e, w0, lo, req, plan, order, w, calls)
    requires b.fault(calls) != Canceled && w' == WrittenAll(e, w, CallWrites(b, req, c, b.fault(calls)))
    ensures CallsDone(b, e, w0, lo, req, plan + [c], order + c.Indices(), w', calls + 1)
  {
    CallWritten(b, e, w0, lo, req, plan, w, c, w');
    CallIndexed(plan, order, c);
    OneMoreUncanceled(b, lo, calls);
  }

  lemma OneMoreUncanceled(b: Backend, lo: nat, hi: nat)
    requires NotCanceled(b, lo, hi) && b.fault(hi) != Canceled
    ensures NotCanceled(b, lo, hi + 1)
  {
  }

  lemma NothingAnswered(b: Backend, e: Setting, w: Work, lo: nat, failures: nat, req: Request)
    requires |w.results| == |req.checks|
    ensures Answered(b, e, w, lo, failures, req, [], [], w, lo, failures)
  {
  }

  lemma WritesGoOn(b: Backend, e: Setting, w0: Work, lo: nat, req: Request, plan: seq<Call>, c: Call)
    ensures WrittenAll(e, w0, PlanWrites(b, req, plan + [c], lo))
         == WrittenAll(e, WrittenAll(e, w0, PlanWrites(b, req, plan, lo)), CallWrites(b, req, c, b.fault(lo + |plan|)))
  {
    PlansAppend(b, req, plan, [c], lo);
    OneCall(b, req, c, lo + |plan|);
    WrittenAppend(e, w0, PlanWrites(b, req, plan, lo), CallWrites(b, req, c, b.fault(lo + |plan|)));
  }

  lemma AnsweredGrows(b: Backend, e: Setting, w0: Work, lo: nat, failures0: nat, req: Request, plan: seq<Call>,
                      order: seq<nat>, w: Work, calls: nat, failures: nat, c: Call, w': Work, failures': nat)
    requires Answered(b, e, w0, lo, failures0, req, plan, order, w, calls, failures) && failures <= failures'
    requires b.fault(calls) != Canceled && w' == WrittenAll(e, w, CallWrites(b, req, c, b.fault(calls)))
    requires AllSettled(b, req, w'.results, c.Indices(), failures' == failures)
    requires AllAnswered(b, calls, calls + 1, req, w'.results, c.Indices())
    requires forall i :: i in order ==> i !in c.Indices()
    requires forall i :: 0 <= i < |req.checks| && i !in c.Indices() ==> w'.results[i] == w.results[i]
    ensures Answered(b, e, w0, lo, failures0, req, plan + [c], order + c.Indices(), w', calls + 1, failures')
  {
    CallDone(b, e, w0, lo, req, plan, order, w, calls, c, w');
    SettledConcat(b, req, w.results, w'.results, order, c.Indices(), failures == failures0, failures' == failures0);
    AnsweredConcat(b, req, w.results, w'.results, order, c.Indices(), lo, calls, calls + 1);
  }

  /** One more access review, after the calls of `plan`. */
  method ReviewNext(req: Request, i: nat, cache: CanICache, b: Backend, ghost asked: set<Query>,
                    results: array<CanIResult>, ghost w0: Work, ghost lo: nat, ghost failures0: nat,
                    ghost plan: seq<Call>, ghost order: seq<nat>)
    returns (gone: bool)
    requires results.Length == |req.checks| && i < |req.checks| && i !in order
    requires Assumptions(cache, b, asked) && Trusted(cache, b, asked) && req.At(i) in asked
    requires Answered(b, SettingOf(req, cache, b), w0, lo, failures0, req, plan, order, WorkOf(cache, b, results),
                      b.calls, b.failures)
    modifies results, cache, b
    ensures Trusted(cache, b, asked) && b.ticks >= old(b.ticks) && b.failures >= old(b.failures)
    ensures gone ==> CanceledAt(b, lo, b.calls) && b.failures > old(b.failures)
    ensures b.calls == old(b.calls) + 1
    ensures !gone ==> Answered(b, SettingOf(req, cache, b), w0, lo, failures0, req, plan + [Access(i)], order + [i],
                               WorkOf(cache, b, results), b.calls, b.failures)
    ensures forall j :: 0 <= j < |req.checks| && j != i ==> results[j] == old(results[j])
  {
    ghost var w, failures, calls := WorkOf(cache, b, results), b.failures, b.calls;
    gone := ReviewOne(req, i, cache, b, asked, results);
    if !gone {
      AnsweredGrows(b, SettingOf(req, cache, b), w0, lo, failures0, req, plan, order, w, calls, failures, Access(i),
                    WorkOf(cache, b, results), b.failures);
    }
  }

  /** One access review for each check in `idxs`, after the calls of `plan`. */
  method ReviewSingly(req: Request, idxs: seq<nat>, cache: CanICache, b: Backend, ghost asked: set<Query>,
                      results: array<CanIResult>, ghost w0: Work, ghost lo: nat, ghost failures0: nat,
                      ghost plan: seq<Call>, ghost order: seq<nat>)
    returns (gone: bool)
    requires results.Length == |req.checks|
    requires Assumptions(cache, b, asked) && Trusted(cache, b, asked)
    requires forall i :: 0 <= i < |req.checks| ==> req.At(i) in asked
    requires Distinct(idxs) && forall i :: i in idxs ==> i < |req.checks| && i !in order
    requires Answered(b, SettingOf(req, cache, b), w0, lo, failures0, req, plan, order, WorkOf(cache, b, results),
                      b.calls, b.failures)
    modifies results, cache, b
    ensures Trusted(cache, b, asked) && b.ticks >= old(b.ticks) && b.failures >= old(b.failures)
    ensures gone ==> CanceledAt(b, lo, b.calls) && b.failures > old(b.failures)
    ensures !gone ==> b.calls == old(b.calls) + |idxs|
    ensures !gone ==> Answered(b, SettingOf(req, cache, b), w0, lo, failures0, req, plan + Accesses(idxs), order + idxs,
                               WorkOf(cache, b, results), b.calls, b.failures)
    ensures forall i :: 0 <= i < |req.checks| && i !in idxs ==> results[i] == old(results[i])
  {
    ghost var plan', order' := plan, order;
    assert plan + Accesses(idxs[..0]) == plan && order + idxs[..0] == order;
    for k := 0 to |idxs|
      invariant Trusted(cache, b, asked) && b.ticks >= old(b.ticks) && b.failures >= old(b.failures)
      invariant b.calls == old(b.calls) + k && plan' == plan + Accesses(idxs[..k]) && order' == order + idxs[..k]
      invariant Answered(b, SettingOf(req, cache, b), w0, lo, failures0, req, plan', order',
                         WorkOf(cache, b, results), b.calls, b.failures)
      invariant forall i :: 0 <= i < |req.checks| && i !in idxs ==> results[i] == old(results[i])
    {
      NextSingle(plan, order, idxs, k);
      gone := ReviewNext(req, idxs[k], cache, b, asked, results, w0, lo, failures0, plan', order');
      if gone {
        return;
      }
      plan', order' := plan' + [Access(idxs[k])], order' + [idxs[k]];
    }
    assert idxs[..|idxs|] == idxs;
    return false;
  }

  /** One more rules review, after the calls of `plan`. */
  method ReviewBucket(req: Request, ns: string, idxs: seq<nat>, cache: CanICache, b: Backend, ghost asked: set<Query>,
                      results: array<CanIResult>, ghost w0: Work, ghost lo: nat, ghost failures0: nat,
                      ghost plan: seq<Call>, ghost order: seq<nat>)
    returns (gone: bool)
    requires results.Length == |req.checks| && forall i :: i in idxs ==> req.BatchableIn(i, ns) && i !in order
    requires Assumptions(cache, b, asked) && Trusted(cache, b, asked)
    requires forall i :: 0 <= i < |req.checks| ==> req.At(i) in asked
    requires Answered(b, SettingOf(req, cache, b), w0, lo, failures0, req, plan, order, WorkOf(cache, b, results),
                      b.calls, b.failures)
    modifies results, cache, b
    ensures Trusted(cache, b, asked) && b.ticks >= old(b.ticks) && b.failures >= old(b.failures)
    ensures gone ==> CanceledAt(b, lo, b.calls) && b.failures > old(b.failures)
    ensures !gone ==> Answered(b, SettingOf(req, cache, b), w0, lo, failures0, req, plan + [Rules(ns, idxs)],
                               order + idxs, WorkOf(cache, b, results), b.calls, b.failures)
    ensures forall i :: 0 <= i < |req.checks| && i !in idxs ==> results[i] == old(results[i])
  {
    ghost var w, failures, calls := WorkOf(cache, b, results), b.failures, b.calls;
    gone := ReviewNamespace(req, ns, idxs, cache, b, asked, results);
    if !gone {
      AnsweredGrows(b, SettingOf(req, cache, b), w0, lo, failures0, req, plan, order, w, calls, failures,
                    Rules(ns, idxs), WorkOf(cache, b, results), b.failures);
    }
  }

  /** Visits the namespace buckets in any order. Small ones join the single reviews, large ones
      get a rules review; `visited` lists the indices that were answered. */
  method ReviewBuckets(req: Request, buckets: map<string, seq<nat>>, small: seq<nat>, cache: CanICache, b: Backend,
                       ghost asked: set<Query>, results: array<CanIResult>, ghost pending: seq<nat>)
    returns (gone: bool, single: seq<nat>, ghost visited: seq<nat>, ghost rules: seq<Call>)
    requires results.Length == |req.checks|
    requires Assumptions(cache, b, asked) && Trusted(cache, b, asked)
    requires forall i :: 0 <= i < |req.checks| ==> req.At(i) in asked
    requires forall i :: i in pending ==> i < |req.checks|
    requires Routed(req, pending, buckets, small)
    modifies results, cache, b
    ensures Trusted(cache, b, asked) && b.ticks >= old(b.ticks) && b.failures >= old(b.failures)
    ensures gone ==> CanceledAt(b, old(b.calls), b.calls) && b.failures > old(b.failures)
    ensures !gone ==> Distinct(single) && Distinct(visited)
    ensures !gone ==> forall i :: i in pending <==> i in single || i in visited
    ensures !gone ==> forall i :: i in single ==> i !in visited
    ensures !gone ==> forall i :: i in pending ==> (i in visited <==> Large(req, buckets, i))
    ensures !gone ==> RulesMade(buckets, {}, rules)
    ensures !gone ==> Answered(b, SettingOf(req, cache, b), old(WorkOf(cache, b, results)), old(b.calls),
                               old(b.failures), req, rules, visited, WorkOf(cache, b, results), b.calls, b.failures)
    ensures forall i :: 0 <= i < |req.checks| && i !in pending ==> results[i] == old(results[i])
  {
    single, visited, rules := small, [], [];
    var left := buckets.Keys;
    ghost var e, w0, lo, failures0 := SettingOf(req, cache, b), WorkOf(cache, b, results), b.calls, b.failures;
    ProgressStarts(req, pending, buckets, small);
    NothingAnswered(b, e, w0, lo, failures0, req);
    while left != {}
      invariant Progress(req, pending, buckets, left, single, visited) && RulesMade(buckets, left, rules)
      invariant Trusted(cache, b, asked) && b.ticks >= old(b.ticks)
      invariant Answered(b, e, w0, lo, failures0, req, rules, visited, WorkOf(cache, b, results), b.calls, b.failures)
      invariant forall i :: 0 <= i < |req.checks| && i !in pending ==> results[i] == old(results[i])
      decreases left
    {
      var ns :| ns in left;
      var idxs := buckets[ns];
      MoreRules(buckets, left, rules, ns);
      if |idxs| < SSRR_BATCH_THRESHOLD {
        SmallProgresses(req, pending, buckets, small, left, ns, single, visited);
        single := single + idxs;
      } else {
        LargeProgresses(req, pending, buckets, small, left, ns, single, visited);
        gone := ReviewBucket(req, ns, idxs, cache, b, asked, results, w0, lo, failures0, rules, visited);
        if gone {
          return;
        }
        visited, rules := visited + idxs, rules + [Rules(ns, idxs)];
      }
      left := left - {ns};
    }
    gone := false;
  }

  /** What the cache could not answer: rules reviews for the large buckets, access reviews for the rest. Unless
      the client is gone, what the calls of the plan told is noted and stored, call by call. */
  method AnswerPending(req: Request, pending: seq<nat>, cache: CanICache, b: Backend, ghost asked: set<Query>,
                       results: array<CanIResult>)
    returns (gone: bool, ghost order: seq<nat>, ghost plan: seq<Call>)
    requires results.Length == |req.checks|
    requires Assumptions(cache, b, asked) && Trusted(cache, b, asked)
    requires forall i :: 0 <= i < |req.checks| ==> req.At(i) in asked
    requires Distinct(pending) && forall i :: i in pending ==> i < |req.checks|
    modifies results, cache, b
    ensures Trusted(cache, b, asked) && b.failures >= old(b.failures) && b.ticks >= old(b.ticks)
    ensures gone ==> CanceledAt(b, old(b.calls), b.calls) && b.failures > old(b.failures)
    ensures !gone ==> Distinct(order) && forall i :: i in order <==> i in pending
    ensures !gone ==> IsPlan(req, pending, plan)
    ensures !gone ==> Answered(b, SettingOf(req, cache, b), old(WorkOf(cache, b, results)), old(b.calls),
                               old(b.failures), req, plan, order, WorkOf(cache, b, results), b.calls, b.failures)
    ensures forall i :: 0 <= i < |req.checks| && i !in pending ==> results[i] == old(results[i])
  {
    order, plan := [], [];
    ghost var w0, lo, failures0 := WorkOf(cache, b, results), b.calls, b.failures;
    var buckets, single := Route(req, pending);
    ghost var routed, visited, rules := single, [], [];
    gone, single, visited, rules := ReviewBuckets(req, buckets, single, cache, b, asked, results, pending);
    if gone {
      return;
    }
    gone := ReviewSingly(req, single, cache, b, asked, results, w0, lo, failures0, rules, visited);
    if gone {
      return;
    }
    DistinctConcat(visited, single);
    LoopsMakePlan(req, pending, buckets, routed, rules, single);
    order, plan := visited + single, rules + Accesses(single);
  }

  lemma {:induction false} PlanWritesHave(b: Backend, req: Request, plan: seq<Call>, lo: nat, c: nat, i: nat)
    requires c < |plan| && i in plan[c].Indices()
    ensures Write(i, Told(b, req, plan[c], i, b.fault(lo + c))) in PlanWrites(b, req, plan, lo)
  {
    if c == 0 {
      var xs := CallWrites(b, req, plan[0], b.fault(lo));
      var k :| 0 <= k < |xs| && plan[0].Indices()[k] == i;
      assert xs[k] in xs;
    } else {
      PlanWritesHave(b, req, plan[1..], lo + 1, c - 1, i);
    }
  }

  lemma {:induction false} PlanWriteIndices(b: Backend, req: Request, plan: seq<Call>, lo: nat)
    ensures |PlanWrites(b, req, plan, lo)| == |IndicesOf(plan)|
    ensures forall k :: 0 <= k < |IndicesOf(plan)| ==> PlanWrites(b, req, plan, lo)[k].i == IndicesOf(plan)[k]
  {
    if plan != [] {
      PlanWriteIndices(b, req, plan[1..], lo + 1);
    }
  }

  /** Every result of a plan is what its own call said. */
  ghost predicate ToldByPlan(b: Backend, req: Request, plan: seq<Call>, lo: nat, results: seq<CanIResult>) {
    forall c: nat, i: nat :: c < |plan| && i in plan[c].Indices() ==> ToldAt(b, req, plan, lo, results, c, i)
  }

  /** The result of index `i` is what the plan's call number `c` said about it. */
  predicate ToldAt(b: Backend, req: Request, plan: seq<Call>, lo: nat, results: seq<CanIResult>, c: nat, i: nat)
    requires c < |plan|
  {
    i < |results| && results[i] == Told(b, req, plan[c], i, b.fault(lo + c))
  }

  lemma ToldOnceNoted(b: Backend, req: Request, plan: seq<Call>, lo: nat, results: seq<CanIResult>)
    requires forall x :: x in PlanWrites(b, req, plan, lo) ==> x.i < |results| && results[x.i] == x.r
    ensures ToldByPlan(b, req, plan, lo, results)
  {
    forall c: nat, i: nat | c < |plan| && i in plan[c].Indices() ensures ToldAt(b, req, plan, lo, results, c, i) {
      PlanWritesHave(b, req, plan, lo, c, i);
    }
  }

  /** What a plan's calls leave: every result is what its call said, and all are cached. */
  lemma PlanComesTo(b: Backend, e: Setting, w0: Work, req: Request, plan: seq<Call>, lo: nat, order: seq<nat>, w: Work,
                    calls: nat)
    requires CallsDone(b, e, w0, lo, req, plan, order, w, calls)
    requires |w0.results| == |e.keys| && Distinct(order) && forall i :: i in order ==> i < |e.keys|
    requires Ascends(e.time)
    ensures ToldByPlan(b, req, plan, lo, w.results) && w0.ticks <= w.ticks
    ensures CacheFilled(e.keys, order, w.results, w0.m, w.m, e.time(w0.ticks) + e.ttl)
  {
    var xs := PlanWrites(b, req, plan, lo);
    PlanWriteIndices(b, req, plan, lo);
    AllNoted(e, w0, xs, order);
    ToldOnceNoted(b, req, plan, lo, w.results);
    WritesFillCache(e, w0, xs, order);
    WritesAreFit(e, w0, xs, order);
    WrittenSize(e, w0, xs);
  }

  lemma ScanIsCacheAnswers(digest: string -> string, req: Request, m0: map<string, Entry>, m: map<string, Entry>,
                           results: seq<CanIResult>, hits: seq<nat>, pending: seq<nat>, start: Time, end: Time,
                           late: Time)
    requires Split(|req.checks|, hits, pending) && end <= late && |results| == |req.checks|
    requires Scanned(m0, m, Keys(digest, req), hits, start, end)
    requires forall i :: i in hits ==> i < |req.checks| && FromCache(digest, m0, req.At(i), results[i])
    ensures CacheAnswers(Keys(digest, req), m0, results, pending, start, late)
  {
    forall i | 0 <= i < |req.checks|
      ensures var k := Keys(digest, req)[i];
              if i in pending then k in m0 ==> m0[k].expires < late
              else k in m0 && start <= m0[k].expires && results[i] == m0[k].result
    {
      assert i in hits || i in pending;
    }
  }

  /** The results of a request: every one settles its check, and comes from the cache or from a call made. */
  ghost predicate AllChecksSettled(b: Backend, digest: string -> string, m0: map<string, Entry>, req: Request,
                                   results: seq<CanIResult>, order: seq<nat>, lo: nat, hi: nat, clean: bool) {
    && |results| == |req.checks| && Distinct(order) && (forall i: nat :: i in order <==> i < |req.checks|)
    && AllSettled(b, req, results, order, clean)
    && (forall i :: 0 <= i < |req.checks| ==>
          FromCache(digest, m0, req.At(i), results[i]) || Answers(b, lo, hi, req.At(i), results[i]))
  }

  /** How they came about: what is alive is taken from the cache, a plan is made for the rest, the result of each
      is what its call said, and those are cached. */
  ghost predicate AllChecksTold(b: Backend, digest: string -> string, ttl: Time, m0: map<string, Entry>,
                                m: map<string, Entry>, req: Request, results: seq<CanIResult>, pending: seq<nat>,
                                plan: seq<Call>, lo: nat, hi: nat, start: Time, end: Time) {
    && |results| == |req.checks| && (forall i :: i in pending ==> i < |req.checks|)
    && CacheAnswers(Keys(digest, req), m0, results, pending, start, end)
    && IsPlan(req, pending, plan) && hi == lo + |plan| && ToldByPlan(b, req, plan, lo, results)
    && CacheFilled(Keys(digest, req), pending, results, m0, m, start + ttl)
  }

  lemma HitsAndAnswers(b: Backend, digest: string -> string, m0: map<string, Entry>, req: Request,
                       scanned: seq<CanIResult>, results: seq<CanIResult>, hits: seq<nat>, pending: seq<nat>,
                       answered: seq<nat>, lo: nat, hi: nat, quiet: bool, calm: bool)
    requires Split(|req.checks|, hits, pending) && Distinct(answered) && forall i :: i in answered <==> i in pending
    requires AllSettled(b, req, scanned, hits, quiet) && AllCached(digest, m0, req, scanned, hits)
    requires |results| == |req.checks|
    requires forall i :: 0 <= i < |req.checks| && i !in pending ==> results[i] == scanned[i]
    requires AllSettled(b, req, results, answered, calm) && AllAnswered(b, lo, hi, req, results, answered)
    ensures AllChecksSettled(b, digest, m0, req, results, hits + answered, lo, hi, calm && quiet)
  {
    DistinctConcat(hits, answered);
    SettledConcat(b, req, scanned, results, hits, answered, quiet, calm && quiet);
  }

  lemma PlanAfterScan(b: Backend, e: Setting, req: Request, m0: map<string, Entry>, w0: Work, w: Work, hits: seq<nat>,
                      pending: seq<nat>, answered: seq<nat>, plan: seq<Call>, lo: nat, hi: nat, start: Time)
    requires |w0.results| == |e.keys| && Ascends(e.time)
    requires Split(|e.keys|, hits, pending) && Distinct(answered) && forall i :: i in answered <==> i in pending
    requires Scanned(m0, w0.m, e.keys, hits, start, e.time(w0.ticks)) && start <= e.time(w0.ticks)
    requires CallsDone(b, e, w0, lo, req, plan, answered, w, hi)
    ensures ToldByPlan(b, req, plan, lo, w.results) && start <= e.time(w0.ticks) <= e.time(w.ticks)
    ensures CacheFilled(e.keys, pending, w.results, m0, w.m, start + e.ttl)
  {
    PlanComesTo(b, e, w0, req, plan, lo, answered, w, hi);
    CacheFilledSinceScan(e.keys, hits, pending, answered, w.results, m0, w0.m, w.m, start, e.time(w0.ticks),
                         e.time(w0.ticks) + e.ttl, start + e.ttl);
  }

  lemma ScanAndPlan(b: Backend, e: Setting, digest: string -> string, req: Request, m0: map<string, Entry>, w0: Work,
                    w: Work, hits: seq<nat>, pending: seq<nat>, answered: seq<nat>, plan: seq<Call>, lo: nat, hi: nat,
                    start: Time)
    requires e.keys == Keys(digest, req) && |w0.results| == |req.checks| && Ascends(e.time) && e.time == b.time
    requires Split(|req.checks|, hits, pending) && Distinct(answered) && forall i :: i in answered <==> i in pending
    requires Scanned(m0, w0.m, e.keys, hits, start, e.time(w0.ticks)) && start <= e.time(w0.ticks)
    requires AllCached(digest, m0, req, w0.results, hits)
    requires IsPlan(req, pending, plan) && CallsDone(b, e, w0, lo, req, plan, answered, w, hi)
    requires |w.results| == |req.checks|
    requires forall i :: 0 <= i < |req.checks| && i !in pending ==> w.results[i] == w0.results[i]
    ensures AllChecksTold(b, digest, e.ttl, m0, w.m, req, w.results, pending, plan, lo, hi, start, b.time(w.ticks))
  {
    PlanAfterScan(b, e, req, m0, w0, w, hits, pending, answered, plan, lo, hi, start);
    HitsStay(digest, m0, req, w0.results, w.results, hits, pending);
    ScanIsCacheAnswers(digest, req, m0, w0.m, w.results, hits, pending, start, e.time(w0.ticks), e.time(w.ticks));
  }

  lemma HitsStay(digest: string -> string, m0: map<string, Entry>, req: Request, scanned: seq<CanIResult>,
                 results: seq<CanIResult>, hits: seq<nat>, pending: seq<nat>)
    requires Split(|req.checks|, hits, pending) && AllCached(digest, m0, req, scanned, hits)
    requires |results| == |req.checks|
    requires forall i :: 0 <= i < |req.checks| && i !in pending ==> results[i] == scanned[i]
    ensures forall i :: i in hits ==> i < |req.checks| && FromCache(digest, m0, req.At(i), results[i])
  {
  }

  /** A request that passed the checks at the door. */
  method AnswerChecks(req: Request, cache: CanICache, b: Backend, ghost asked: set<Query>)
    returns (resp: Response, ghost order: seq<nat>, ghost pending: seq<nat>, ghost plan: seq<Call>)
    requires Assumptions(cache, b, asked) && Trusted(cache, b, asked)
    requires forall i :: 0 <= i < |req.checks| ==> req.At(i) in asked
    modifies cache, b
    ensures Trusted(cache, b, asked) && b.ticks >= old(b.ticks) && (resp.Results? || resp.ClientGone?)
    ensures resp == ClientGone ==> b.failures > old(b.failures) && CanceledAt(b, old(b.calls), b.calls)
    ensures resp.Results? ==> NotCanceled(b, old(b.calls), b.calls)
    ensures resp.Results? ==>
              AllChecksSettled(b, cache.digest, old(cache.m), req, resp.results, order, old(b.calls), b.calls,
                               b.failures == old(b.failures) && old(Quiet(cache, b.time(b.ticks))))
    ensures resp.Results? ==>
              AllChecksTold(b, cache.digest, cache.ttl, old(cache.m), cache.m, req, resp.results, pending, plan,
                            old(b.calls), b.calls, b.time(old(b.ticks)), b.time(b.ticks))
  {
    var results := new CanIResult[|req.checks|](_ => CanIResult(false, ""));
    ghost var e, m0, start, quiet := SettingOf(req, cache, b), cache.m, b.time(b.ticks), Quiet(cache, b.time(b.ticks));
    var todo;
    ghost var hits;
    todo, hits := ScanCache(req, cache, b, asked, results);
    ghost var w0, lo, failures0 := WorkOf(cache, b, results), b.calls, b.failures;
    var gone;
    ghost var answered;
    gone, answered, plan := AnswerPending(req, todo, cache, b, asked, results);
    order, pending := hits + answered, todo;
    if gone {
      return ClientGone, order, pending, plan;
    }
    HitsAndAnswers(b, cache.digest, m0, req, w0.results, results[..], hits, pending, answered, lo, b.calls, quiet,
                   b.failures == failures0);
    ScanAndPlan(b, e, cache.digest, req, m0, w0, WorkOf(cache, b, results), hits, pending, answered, plan, lo, b.calls,
                start);
    return Results(results[..]), order, pending, plan;
  }

  /** The whole request. `order` lists the indices as they were answered, every one exactly once; `pending`
      those that the cache did not answer, and `plan` the calls made for them. */
  method CanI(req: Request, cache: CanICache, b: Backend, ghost asked: set<Query>)
    returns (resp: Response, ghost order: seq<nat>, ghost pending: seq<nat>, ghost plan: seq<Call>)
    requires Assumptions(cache, b, asked) && Trusted(cache, b, asked)
    requires forall i :: 0 <= i < |req.checks| ==> req.At(i) in asked
    modifies cache, b
    ensures Trusted(cache, b, asked) && b.ticks >= old(b.ticks)
    ensures resp == TooManyChecks <==> |req.checks| > 64
    ensures resp == ClientGone ==> b.failures > old(b.failures)
    ensures resp == ClientGone ==> old(b.calls) < b.calls && b.fault(b.calls - 1) == Canceled
    ensures resp.Results? ==> forall n: nat :: old(b.calls) <= n < b.calls ==> b.fault(n) != Canceled
    ensures resp.Results? ==> |resp.results| == |req.checks|
    ensures |req.checks| == 0 || |req.checks| > 64 || req.actor in {"", "anonymous"} ==>
              b.calls == old(b.calls) && cache.m == old(cache.m)
    ensures resp.Results? && req.actor in {"", "anonymous"} ==>
              forall i :: 0 <= i < |req.checks| ==> resp.results[i] == CanIResult(false, "unauthenticated")
    ensures resp.Results? && req.actor !in {"", "anonymous"} ==>
              AllChecksSettled(b, cache.digest, old(cache.m), req, resp.results, order, old(b.calls), b.calls,
                               b.failures == old(b.failures) && old(Quiet(cache, b.time(b.ticks))))
    ensures resp.Results? && req.actor !in {"", "anonymous"} ==>
              AllChecksTold(b, cache.digest, cache.ttl, old(cache.m), cache.m, req, resp.results, pending, plan,
                            old(b.calls), b.calls, b.time(old(b.ticks)), b.time(b.ticks))
  {
    order, pending, plan := [], [], [];
    var n := |req.checks|;
    if n == 0 {
      return Results([]), [], [], [];
    }
    if n > MAX_CHECKS {
      return TooManyChecks, [], [], [];
    }
    if Unauthenticated(req.actor) {
      return Results(seq(n, _ => CanIResult(false, "unauthenticated"))), [], [], [];
    }
    resp, order, pending, plan := AnswerChecks(req, cache, b, asked);
  }
}
