/**
  How the checks that the cache did not answer are routed: one rules review for each namespace with enough
  eligible checks, one access review for each other check.
  */
module CanIRouting {
  import opened CanICacheKey
  import opened Sequences

  const SSRR_BATCH_THRESHOLD: nat := 3

  predicate SSRREligible(ch: CanICheck) {
    ch.namespace_ != "" && ch.subresource == "" && ch.name == ""
  }

  /** One request: the identity it runs as and its checks. */
  datatype Request = Request(actor: string, cluster: string, groups: seq<string>, checks: seq<CanICheck>) {
    function At(i: nat): Query
      requires i < |checks|
    {
      Query(actor, cluster, groups, checks[i])
    }

    predicate Batchable(i: nat) {
      i < |checks| && SSRREligible(checks[i])
    }

    /** Index `i` may be answered from a rules review of namespace `ns`. */
    predicate BatchableIn(i: nat, ns: string) {
      Batchable(i) && checks[i].namespace_ == ns
    }
  }

  // Routing.

  /** A backend call: a rules review for a bucket of indices, or an access review for one index. */
  datatype Call = Rules(ns: string, idxs: seq<nat>) | Access(idx: nat) {
    function Indices(): seq<nat> {
      if Rules? then idxs else [idx]
    }
  }

  /** The pending indices that a rules review of `ns` would answer, in order. */
  function Bucket(req: Request, pending: seq<nat>, ns: string): seq<nat> {
    if pending == [] then []
    else
      var i := pending[|pending| - 1];
      Bucket(req, pending[..|pending| - 1], ns) + if req.BatchableIn(i, ns) then [i] else []
  }

  predicate InLargeBucket(req: Request, pending: seq<nat>, i: nat) {
    req.Batchable(i) && |Bucket(req, pending, req.checks[i].namespace_)| >= SSRR_BATCH_THRESHOLD
  }

  function CallFor(req: Request, pending: seq<nat>, i: nat): Call
    requires i < |req.checks|
  {
    if InLargeBucket(req, pending, i) then
      var ns := req.checks[i].namespace_;
      Rules(ns, Bucket(req, pending, ns))
    else Access(i)
  }

  /** The calls for the pending indices, each once, rules reviews first, otherwise in any order. */
  predicate IsPlan(req: Request, pending: seq<nat>, plan: seq<Call>) {
    && (forall i :: i in pending ==> i < |req.checks| && CallFor(req, pending, i) in plan)
    && (forall c :: c in plan ==> exists i :: i in pending && i < |req.checks| && c == CallFor(req, pending, i))
    && InOrder(plan)
  }

  predicate InOrder(plan: seq<Call>) {
    forall a, b :: 0 <= a < b < |plan| ==> plan[a] != plan[b] && (plan[b].Rules? ==> plan[a].Rules?)
  }

  lemma {:induction false} BucketHas(req: Request, pending: seq<nat>, ns: string, i: nat)
    ensures i in Bucket(req, pending, ns) <==> i in pending && req.BatchableIn(i, ns)
  {
    if pending != [] {
      BucketHas(req, pending[..|pending| - 1], ns, i);
      assert pending == pending[..|pending| - 1] + [pending[|pending| - 1]];
    }
  }

  /** The pending indices that a rules review of `ns` would answer. */
  function EligibleIn(req: Request, pending: seq<nat>, ns: string): set<nat> {
    set i | i in pending && req.BatchableIn(i, ns)
  }

  lemma EligibleGrows(req: Request, init: seq<nat>, i: nat, ns: string)
    requires i !in init
    ensures i !in EligibleIn(req, init, ns)
    ensures EligibleIn(req, init + [i], ns) == EligibleIn(req, init, ns) + if req.BatchableIn(i, ns) then {i} else {}
  {
  }

  lemma {:induction false} BucketSize(req: Request, pending: seq<nat>, ns: string)
    requires Distinct(pending)
    ensures |Bucket(req, pending, ns)| == |EligibleIn(req, pending, ns)|
  {
    if pending != [] {
      var init, i := pending[..|pending| - 1], pending[|pending| - 1];
      BucketSize(req, init, ns);
      assert pending == init + [i];
      EligibleGrows(req, init, i, ns);
    }
  }

  /** A rules review is made exactly for a check with a namespace and neither a subresource nor a name, of which
      at least three are pending in its namespace. */
  lemma RulesReviewExactly(req: Request, pending: seq<nat>, i: nat)
    requires Distinct(pending) && i < |req.checks|
    ensures var ch := req.checks[i];
            CallFor(req, pending, i).Rules? <==>
              && ch.namespace_ != "" && ch.subresource == "" && ch.name == ""
              && |set j | j in pending && j < |req.checks| && req.checks[j].namespace_ == ch.namespace_
                          && req.checks[j].subresource == "" && req.checks[j].name == ""| >= 3
  {
    var ch := req.checks[i];
    BucketSize(req, pending, ch.namespace_);
    if ch.namespace_ != "" {
      assert EligibleIn(req, pending, ch.namespace_)
          == (set j | j in pending && j < |req.checks| && req.checks[j].namespace_ == ch.namespace_
                      && req.checks[j].subresource == "" && req.checks[j].name == "");
    }
  }

  lemma BucketGrows(req: Request, pending: seq<nat>, i: nat, ns: string)
    ensures Bucket(req, pending + [i], ns) == Bucket(req, pending, ns) + if req.BatchableIn(i, ns) then [i] else []
  {
    assert (pending + [i])[..|pending|] == pending;
  }

  /** Where the indices of `pending` are: the batchable ones in their namespace's bucket, the
      others among the single reviews, each once. */
  ghost predicate Routed(req: Request, pending: seq<nat>, buckets: map<string, seq<nat>>, single: seq<nat>) {
    && Distinct(single)
    && (forall i :: i in single <==> i in pending && !req.Batchable(i))
    && (forall ns :: ns in buckets ==> Distinct(buckets[ns]))
    && (forall ns, i :: ns in buckets && i in buckets[ns] ==> i in pending && req.BatchableIn(i, ns))
    && (forall i, ns :: i in pending && req.BatchableIn(i, ns) ==> ns in buckets && i in buckets[ns])
  }

  lemma RouteToBucket(req: Request, pending: seq<nat>, buckets: map<string, seq<nat>>, single: seq<nat>, i: nat)
    requires Routed(req, pending, buckets, single) && i !in pending && req.Batchable(i)
    ensures var ns := req.checks[i].namespace_;
            Routed(req, pending + [i], buckets[ns := (if ns in buckets then buckets[ns] else []) + [i]], single)
  {
    var ns := req.checks[i].namespace_;
    DistinctAppend(if ns in buckets then buckets[ns] else [], i);
  }

  lemma RouteToSingle(req: Request, pending: seq<nat>, buckets: map<string, seq<nat>>, single: seq<nat>, i: nat)
    requires Routed(req, pending, buckets, single) && i !in pending && i < |req.checks| && !req.Batchable(i)
    ensures Routed(req, pending + [i], buckets, single + [i])
  {
    DistinctAppend(single, i);
  }

  /** Each bucket holds its indices in the order in which they were pending. */
  ghost predicate InPendingOrder(req: Request, pending: seq<nat>, buckets: map<string, seq<nat>>) {
    && (forall ns :: ns in buckets ==> buckets[ns] == Bucket(req, pending, ns))
    && (forall ns :: ns !in buckets ==> Bucket(req, pending, ns) == [])
  }

  lemma OrderedBucket(req: Request, pending: seq<nat>, buckets: map<string, seq<nat>>, i: nat, ns: string)
    requires InPendingOrder(req, pending, buckets) && req.BatchableIn(i, ns)
    ensures InPendingOrder(req, pending + [i], buckets[ns := (if ns in buckets then buckets[ns] else []) + [i]])
  {
    forall other ensures Bucket(req, pending + [i], other)
                         == Bucket(req, pending, other) + if other == ns then [i] else [] {
      BucketGrows(req, pending, i, other);
    }
  }

  lemma OrderedSingle(req: Request, pending: seq<nat>, buckets: map<string, seq<nat>>, i: nat)
    requires InPendingOrder(req, pending, buckets) && !req.Batchable(i)
    ensures InPendingOrder(req, pending + [i], buckets)
  {
    forall ns ensures Bucket(req, pending + [i], ns) == Bucket(req, pending, ns) {
      BucketGrows(req, pending, i, ns);
    }
  }

  lemma NextPending(pending: seq<nat>, k: nat)
    requires Distinct(pending) && k < |pending|
    ensures pending[k] in pending && pending[k] !in pending[..k] && pending[..k + 1] == pending[..k] + [pending[k]]
  {
  }

  ghost predicate Placed(req: Request, pending: seq<nat>, buckets: map<string, seq<nat>>, single: seq<nat>) {
    Routed(req, pending, buckets, single) && InPendingOrder(req, pending, buckets)
  }

  lemma PlaceInBucket(req: Request, pending: seq<nat>, buckets: map<string, seq<nat>>, single: seq<nat>,
                      i: nat, ns: string)
    requires Placed(req, pending, buckets, single) && i !in pending && req.BatchableIn(i, ns)
    ensures Placed(req, pending + [i], buckets[ns := (if ns in buckets then buckets[ns] else []) + [i]], single)
  {
    RouteToBucket(req, pending, buckets, single, i);
    OrderedBucket(req, pending, buckets, i, ns);
  }

  lemma PlaceAlone(req: Request, pending: seq<nat>, buckets: map<string, seq<nat>>, single: seq<nat>, i: nat)
    requires Placed(req, pending, buckets, single) && i !in pending && i < |req.checks| && !req.Batchable(i)
    ensures Placed(req, pending + [i], buckets, single + [i])
  {
    RouteToSingle(req, pending, buckets, single, i);
    OrderedSingle(req, pending, buckets, i);
  }

  /** Splits the pending indices: eligible ones by namespace, the others for single reviews. */
  method Route(req: Request, pending: seq<nat>) returns (buckets: map<string, seq<nat>>, single: seq<nat>)
    requires Distinct(pending) && forall i :: i in pending ==> i < |req.checks|
    ensures Routed(req, pending, buckets, single) && InPendingOrder(req, pending, buckets)
  {
    buckets, single := map[], [];
    for k := 0 to |pending|
      invariant Placed(req, pending[..k], buckets, single)
    {
      var i := pending[k];
      NextPending(pending, k);
      var ch := req.checks[i];
      if SSRREligible(ch) {
        var ns := ch.namespace_;
        PlaceInBucket(req, pending[..k], buckets, single, i, ns);
        buckets := buckets[ns := (if ns in buckets then buckets[ns] else []) + [i]];
      } else {
        PlaceAlone(req, pending[..k], buckets, single, i);
        single := single + [i];
      }
    }
    assert pending[..|pending|] == pending;
  }

  /** Index `i` waits in the bucket of a namespace not yet visited. */
  ghost predicate Waiting(req: Request, buckets: map<string, seq<nat>>, left: set<string>, i: nat) {
    exists ns :: ns in left && ns in buckets && i in buckets[ns]
  }

  /** Index `i` is in a bucket worth a rules review. */
  predicate Large(req: Request, buckets: map<string, seq<nat>>, i: nat) {
    && req.Batchable(i)
    && var ns := req.checks[i].namespace_;
       ns in buckets && |buckets[ns]| >= SSRR_BATCH_THRESHOLD
  }

  /** Where the indices of `pending` are while the buckets are visited: each is in one place, the
      answered ones in large buckets, the single ones in none. */
  ghost predicate Progress(req: Request, pending: seq<nat>, buckets: map<string, seq<nat>>, left: set<string>,
                           single: seq<nat>, visited: seq<nat>) {
    && left <= buckets.Keys && Distinct(single) && Distinct(visited)
    && (forall i :: i in pending <==> i in single || i in visited || Waiting(req, buckets, left, i))
    && (forall i :: i in single ==> i !in visited && !Waiting(req, buckets, left, i) && !Large(req, buckets, i))
    && (forall i :: i in visited ==> !Waiting(req, buckets, left, i) && Large(req, buckets, i))
  }

  lemma ProgressStarts(req: Request, pending: seq<nat>, buckets: map<string, seq<nat>>, small: seq<nat>)
    requires Routed(req, pending, buckets, small)
    ensures Progress(req, pending, buckets, buckets.Keys, small, [])
  {
    forall i | i in pending && req.Batchable(i) ensures Waiting(req, buckets, buckets.Keys, i) {
      assert req.BatchableIn(i, req.checks[i].namespace_);
    }
  }

  /** The indices of one bucket leave those that wait. */
  lemma BucketLeaves(req: Request, pending: seq<nat>, buckets: map<string, seq<nat>>, small: seq<nat>,
                     left: set<string>, ns: string)
    requires Routed(req, pending, buckets, small) && ns in left && ns in buckets
    ensures Distinct(buckets[ns])
    ensures forall i :: i in buckets[ns] ==> Waiting(req, buckets, left, i) && !Waiting(req, buckets, left - {ns}, i)
    ensures forall i :: Waiting(req, buckets, left, i) <==> i in buckets[ns] || Waiting(req, buckets, left - {ns}, i)
    ensures forall i :: i in buckets[ns] ==> (Large(req, buckets, i) <==> |buckets[ns]| >= SSRR_BATCH_THRESHOLD)
  {
    forall i ensures Waiting(req, buckets, left, i) <==> i in buckets[ns] || Waiting(req, buckets, left - {ns}, i) {
      WaitingSplits(req, buckets, left, ns, i);
    }
    forall i | i in buckets[ns]
      ensures !Waiting(req, buckets, left - {ns}, i)
      ensures Large(req, buckets, i) <==> |buckets[ns]| >= SSRR_BATCH_THRESHOLD
    {
      assert req.BatchableIn(i, ns);
    }
  }

  lemma SmallProgresses(req: Request, pending: seq<nat>, buckets: map<string, seq<nat>>, small: seq<nat>,
                        left: set<string>, ns: string, single: seq<nat>, visited: seq<nat>)
    requires Routed(req, pending, buckets, small) && Progress(req, pending, buckets, left, single, visited)
    requires ns in left && |buckets[ns]| < SSRR_BATCH_THRESHOLD
    ensures Progress(req, pending, buckets, left - {ns}, single + buckets[ns], visited)
  {
    BucketLeaves(req, pending, buckets, small, left, ns);
    DistinctConcat(single, buckets[ns]);
  }

  lemma LargeProgresses(req: Request, pending: seq<nat>, buckets: map<string, seq<nat>>, small: seq<nat>,
                        left: set<string>, ns: string, single: seq<nat>, visited: seq<nat>)
    requires Routed(req, pending, buckets, small) && Progress(req, pending, buckets, left, single, visited)
    requires ns in left && |buckets[ns]| >= SSRR_BATCH_THRESHOLD
    ensures forall i :: i in buckets[ns] ==> i in pending && i !in visited && req.BatchableIn(i, ns)
    ensures Progress(req, pending, buckets, left - {ns}, single, visited + buckets[ns])
  {
    BucketLeaves(req, pending, buckets, small, left, ns);
    DistinctConcat(visited, buckets[ns]);
  }

  // The calls that the loops make, in order.

  /** The rules reviews made so far: one for each large bucket visited. */
  ghost predicate RulesMade(buckets: map<string, seq<nat>>, left: set<string>, rules: seq<Call>) {
    && Distinct(rules)
    && (forall c :: c in rules ==>
          c.Rules? && c.ns in buckets && c.ns !in left && c.idxs == buckets[c.ns] && |c.idxs| >= SSRR_BATCH_THRESHOLD)
    && (forall ns :: ns in buckets && ns !in left && |buckets[ns]| >= SSRR_BATCH_THRESHOLD ==>
          Rules(ns, buckets[ns]) in rules)
  }

  /** The indices that calls are about, call by call. */
  function IndicesOf(calls: seq<Call>): seq<nat> {
    if calls == [] then [] else calls[0].Indices() + IndicesOf(calls[1..])
  }

  function Accesses(idxs: seq<nat>): (r: seq<Call>)
    ensures |r| == |idxs| && forall j :: 0 <= j < |r| ==> r[j] == Access(idxs[j])
  {
    seq(|idxs|, j requires 0 <= j < |idxs| => Access(idxs[j]))
  }

  lemma {:induction false} IndicesAppend(a: seq<Call>, b: seq<Call>)
    ensures IndicesOf(a + b) == IndicesOf(a) + IndicesOf(b)
  {
    if a == [] {
      assert a + b == b;
    } else {
      IndicesAppend(a[1..], b);
      TailOfSum(a, b);
      Regrouped(a[0].Indices(), IndicesOf(a[1..]), IndicesOf(b));
    }
  }

  lemma {:induction false} IndicesOfAccesses(idxs: seq<nat>)
    ensures IndicesOf(Accesses(idxs)) == idxs
  {
    if idxs != [] {
      IndicesOfAccesses(idxs[1..]);
      assert Accesses(idxs)[1..] == Accesses(idxs[1..]);
    }
  }

  lemma MoreRules(buckets: map<string, seq<nat>>, left: set<string>, rules: seq<Call>, ns: string)
    requires RulesMade(buckets, left, rules) && ns in left && ns in buckets
    ensures |buckets[ns]| < SSRR_BATCH_THRESHOLD ==> RulesMade(buckets, left - {ns}, rules)
    ensures |buckets[ns]| >= SSRR_BATCH_THRESHOLD ==> RulesMade(buckets, left - {ns}, rules + [Rules(ns, buckets[ns])])
    ensures IndicesOf(rules + [Rules(ns, buckets[ns])]) == IndicesOf(rules) + buckets[ns]
  {
    IndicesAppend(rules, [Rules(ns, buckets[ns])]);
    assert IndicesOf([Rules(ns, buckets[ns])]) == buckets[ns];
  }

  lemma CallsInOrder(rules: seq<Call>, single: seq<nat>)
    requires Distinct(rules) && Distinct(single) && forall c :: c in rules ==> c.Rules?
    ensures InOrder(rules + Accesses(single))
  {
    var plan := rules + Accesses(single);
    forall a, b | 0 <= a < b < |plan| ensures plan[a] != plan[b] && (plan[b].Rules? ==> plan[a].Rules?) {
      if a < |rules| {
        assert plan[a] in rules;
      }
    }
  }

  /** What the routing and the loops over its result make of the pending indices is a plan. */
  lemma LoopsMakePlan(req: Request, pending: seq<nat>, buckets: map<string, seq<nat>>, small: seq<nat>,
                      rules: seq<Call>, single: seq<nat>)
    requires Routed(req, pending, buckets, small) && InPendingOrder(req, pending, buckets)
    requires RulesMade(buckets, {}, rules)
    requires forall i :: i in pending ==> i < |req.checks|
    requires Distinct(single) && forall i :: i in single <==> i in pending && !Large(req, buckets, i)
    ensures IsPlan(req, pending, rules + Accesses(single))
  {
    var plan := rules + Accesses(single);
    CallsInOrder(rules, single);
    forall i | i in pending ensures CallFor(req, pending, i) in plan {
      SameBucket(req, pending, buckets, small, i);
      if !Large(req, buckets, i) {
        var j :| 0 <= j < |single| && single[j] == i;
        assert plan[|rules| + j] == Access(i);
      }
    }
    forall c | c in plan ensures exists i :: i in pending && i < |req.checks| && c == CallFor(req, pending, i) {
      var i := if c.Rules? then c.idxs[0] else c.idx;
      if c.Rules? {
        assert req.BatchableIn(i, c.ns);
      }
      SameBucket(req, pending, buckets, small, i);
    }
  }

  lemma SameBucket(req: Request, pending: seq<nat>, buckets: map<string, seq<nat>>, small: seq<nat>, i: nat)
    requires Routed(req, pending, buckets, small) && InPendingOrder(req, pending, buckets)
    requires i in pending && i < |req.checks|
    ensures Large(req, buckets, i) <==> InLargeBucket(req, pending, i)
    ensures req.Batchable(i) ==>
              var ns := req.checks[i].namespace_;
              ns in buckets && buckets[ns] == Bucket(req, pending, ns)
  {
    if req.Batchable(i) {
      assert req.BatchableIn(i, req.checks[i].namespace_);
    }
  }

  predicate IndicesAre(plan: seq<Call>, order: seq<nat>) {
    order == IndicesOf(plan)
  }

  lemma CallIndexed(plan: seq<Call>, order: seq<nat>, c: Call)
    requires IndicesAre(plan, order)
    ensures IndicesAre(plan + [c], order + c.Indices())
  {
    IndicesGoOn(plan, c);
  }

  lemma IndicesGoOn(plan: seq<Call>, c: Call)
    ensures IndicesOf(plan + [c]) == IndicesOf(plan) + c.Indices()
  {
    IndicesAppend(plan, [c]);
    assert IndicesOf([c]) == c.Indices();
  }

  lemma NextSingle(plan: seq<Call>, order: seq<nat>, idxs: seq<nat>, k: nat)
    requires k < |idxs| && Distinct(idxs) && forall i :: i in idxs ==> i !in order
    ensures idxs[k] in idxs && idxs[k] !in order + idxs[..k]
    ensures plan + Accesses(idxs[..k + 1]) == plan + Accesses(idxs[..k]) + [Access(idxs[k])]
    ensures order + idxs[..k + 1] == order + idxs[..k] + [idxs[k]]
  {
  }

  lemma WaitingSplits(req: Request, buckets: map<string, seq<nat>>, left: set<string>, ns: string, i: nat)
    requires ns in left && ns in buckets
    ensures Waiting(req, buckets, left, i) <==> i in buckets[ns] || Waiting(req, buckets, left - {ns}, i)
  {
    if Waiting(req, buckets, left, i) && i !in buckets[ns] {
      var m :| m in left && m in buckets && i in buckets[m];
      assert m in left - {ns};
    }
  }
}
