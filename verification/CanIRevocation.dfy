/**
  How old a can-i answer can be: every result was said by the apiserver at an instant of the run, a
  permission taken away is gone after the TTL and the delay of a store, and that bound is reached.
  */
module CanIRevocation {
  import opened Wrappers
  import opened CanICacheKey
  import opened CanIBatch
  import opened CanIRouting
  import opened CanIWork
  import opened CanIShared

  /** An instant of the run at which logged answer `n` was given. */
  ghost predicate GivenAt(r: Run, j: nat, a: Answer) {
    && j < |r.events| && j < |r.states|
    && r.events[j].Move? && r.events[j].t == a.t && r.events[j].op.Ask?
    && r.states[j].version == a.version && r.states[j].clock == a.clock
  }

  lemma AskLogsNow(cfg: Config, st: State, t: Tid, h: Handler, fault: Fault, st': State)
    requires StepAsk(cfg, st, t, h, fault) == Some(st')
    ensures st.log <= st'.log
    ensures forall n :: |st.log| <= n < |st'.log| ==>
              st'.log[n].t == t && st'.log[n].version == st.version && st'.log[n].clock == st.clock
  {
  }

  lemma NewAnswersAreNow(cfg: Config, st: State, e: Event, st': State)
    requires Step(cfg, st, e) == Some(st')
    ensures st.log <= st'.log && (st'.log != st.log ==> e.Move? && e.op.Ask?)
    ensures forall n :: |st.log| <= n < |st'.log| ==>
              st'.log[n].t == e.t && st'.log[n].version == st.version && st'.log[n].clock == st.clock
  {
    if e.Move? {
      MoveFrame(cfg, st, e.t, st.handlers[e.t], e.op, st');
      if e.op.Ask? {
        AskLogsNow(cfg, st, e.t, st.handlers[e.t], e.op.fault, st');
      }
    }
  }

  lemma {:induction false} AnswerHasInstant(cfg: Config, asked: set<Query>, delay: Time, r: Run, i: nat, n: nat)
    returns (j: nat)
    requires IsRun(cfg, asked, delay, r) && i < |r.states| && n < |r.states[i].log|
    ensures j < i && GivenAt(r, j, r.states[i].log[n])
  {
    NewAnswersAreNow(cfg, r.states[i - 1], r.events[i - 1], r.states[i]);
    if n < |r.states[i - 1].log| {
      j := AnswerHasInstant(cfg, asked, delay, r, i - 1, n);
    } else {
      j := i - 1;
    }
  }

  lemma SameKeySameAnswer(cfg: Config, asked: set<Query>, p: Query, q: Query)
    requires Trustworthy(cfg, asked) && p in asked && q in asked && Key(cfg.digest, p) == Key(cfg.digest, q)
    ensures SameQuestion(p, q) && forall v :: cfg.allows(v, p) == cfg.allows(v, q)
  {
    KeySharedExactly(cfg.digest, p, q);
  }

  /** A finished request has a result for every index, and each is what the apiserver said about that
      check at an instant of the run, or the denial of a failed call: its own, during the request, or one
      no longer before the request than the TTL and the delay. */
  lemma ResultsAreRecent(cfg: Config, asked: set<Query>, delay: Time, r: Run, i: nat, t: Tid, x: nat) returns (j: nat)
    requires IsRun(cfg, asked, delay, r) && Trustworthy(cfg, asked) && i < |r.states|
    requires t in r.states[i].handlers && r.states[i].handlers[t].pc.Done? && x < |r.states[i].handlers[t].req.checks|
    ensures
      var h := r.states[i].handlers[t];
      && x in h.results && h.results[x].answer < |r.states[i].log|
      && var q, got, a := h.req.At(x), h.results[x], r.states[i].log[h.results[x].answer];
         && j < i && GivenAt(r, j, a) && SameQuestion(a.query, q) && got.result == a.result
         && (if a.code.Some? then got.result == CanIResult(false, a.code.value)
             else got.result.allowed <==> cfg.allows(r.states[j].version, q))
         && (if got.via.Own? then a.t == t && h.start <= r.states[j].clock
             else h.start <= r.states[j].clock + cfg.ttl + delay)
  {
    RunIsSound(cfg, asked, delay, r, i);
    var h := r.states[i].handlers[t];
    assert HandlerOk(cfg, asked, delay, r.states[i].log, r.states[i].clock, t, h);
    assert Accounted(h, x);
    var got := h.results[x];
    assert GotOk(cfg, delay, r.states[i].log, r.states[i].clock, t, h.start, h.req.At(x), got);
    var a := r.states[i].log[got.answer];
    assert Said(cfg, a);
    SameKeySameAnswer(cfg, asked, a.query, h.req.At(x));
    j := AnswerHasInstant(cfg, asked, delay, r, i, got.answer);
  }

  /** A request that misses an expired entry leaves none under its key, and one that is answered stores its answer
      there with the TTL from its clock read. */
  lemma CacheSteps(cfg: Config, asked: set<Query>, delay: Time, r: Run, i: nat, t: Tid)
    requires IsRun(cfg, asked, delay, r) && i < |r.events|
    ensures r.events[i] == Move(t, Drop) ==>
              && t in r.states[i].handlers && var h := r.states[i].handlers[t];
              && h.pc.Dropping? && h.pc.i < |h.req.checks|
              && r.states[i + 1].cache == r.states[i].cache - {Key(cfg.digest, h.req.At(h.pc.i))}
    ensures r.events[i] == Move(t, Store) ==>
              && t in r.states[i].handlers && var h := r.states[i].handlers[t];
              && h.pc.Storing? && h.pc.j < |h.pc.answers| && h.pc.j < |h.pc.call.Indices()|
              && h.pc.call.Indices()[h.pc.j] < |h.req.checks|
              && r.states[i + 1].cache ==
                   r.states[i].cache[Key(cfg.digest, h.req.At(h.pc.call.Indices()[h.pc.j])) :=
                     Slot(h.pc.answers[h.pc.j], h.pc.stamp + cfg.ttl, h.pc.base + h.pc.j)]
  {
    assert Step(cfg, r.states[i], r.events[i]) == Some(r.states[i + 1]);
  }

  lemma StepClock(cfg: Config, st: State, e: Event, st': State)
    requires Step(cfg, st, e) == Some(st')
    ensures st.clock <= st'.clock
  {
    if e.Move? {
      MoveFrame(cfg, st, e.t, st.handlers[e.t], e.op, st');
    }
  }

  lemma ClockMoves(cfg: Config, asked: set<Query>, delay: Time, r: Run, k: nat)
    requires IsRun(cfg, asked, delay, r) && k < |r.events|
    ensures r.states[k].clock <= r.states[k + 1].clock
  {
    StepClock(cfg, r.states[k], r.events[k], r.states[k + 1]);
  }

  lemma {:induction false} ClocksAscend(states: seq<State>, j: nat, k: nat)
    requires j <= k < |states|
    requires forall i :: 0 < i < |states| ==> states[i - 1].clock <= states[i].clock
    ensures states[j].clock <= states[k].clock
    decreases k
  {
    if j < k {
      ClocksAscend(states, j, k - 1);
    }
  }

  lemma ClockMovesOn(cfg: Config, asked: set<Query>, delay: Time, r: Run, j: nat, k: nat)
    requires IsRun(cfg, asked, delay, r) && j <= k < |r.states|
    ensures r.states[j].clock <= r.states[k].clock
  {
    forall i | 0 < i < |r.states| ensures r.states[i - 1].clock <= r.states[i].clock {
      ClockMoves(cfg, asked, delay, r, i - 1);
    }
    ClocksAscend(r.states, j, k);
  }

  /** From instant `k` to instant `i` the apiserver denies the question. */
  ghost predicate Denied(cfg: Config, r: Run, k: nat, i: nat, q: Query) {
    k < |r.states| && forall j :: k <= j <= i && j < |r.states| ==> !cfg.allows(r.states[j].version, q)
  }

  /** A permission taken away is gone for every request that comes later than the TTL and the delay. */
  lemma RevocationTakesHold(cfg: Config, asked: set<Query>, delay: Time, r: Run, i: nat, t: Tid, x: nat, k: nat)
    requires IsRun(cfg, asked, delay, r) && Trustworthy(cfg, asked) && i < |r.states| && 0 <= cfg.ttl + delay
    requires t in r.states[i].handlers && r.states[i].handlers[t].pc.Done? && x < |r.states[i].handlers[t].req.checks|
    requires var h := r.states[i].handlers[t];
             Denied(cfg, r, k, i, h.req.At(x)) && h.start > r.states[k].clock + cfg.ttl + delay
    ensures x in r.states[i].handlers[t].results && !r.states[i].handlers[t].results[x].result.allowed
  {
    var j := ResultsAreRecent(cfg, asked, delay, r, i, t, x);
    if j < k {
      ClockMovesOn(cfg, asked, delay, r, j, k);
    }
  }

  // The bound is exact.

  /** A run that ends in `st`. */
  ghost predicate EndsIn(cfg: Config, asked: set<Query>, delay: Time, r: Run, st: State) {
    IsRun(cfg, asked, delay, r) && r.states[|r.events|] == st
  }

  lemma RunGoesOn(cfg: Config, asked: set<Query>, delay: Time, r: Run, st: State, e: Event, st': State)
    returns (r': Run)
    requires EndsIn(cfg, asked, delay, r, st) && Step(cfg, st, e) == Some(st') && Expected(asked, delay, st, e)
    ensures EndsIn(cfg, asked, delay, r', st') && r' == Run(r.states + [st'], r.events + [e])
    ensures forall j :: 0 <= j < |r.states| ==> r'.states[j] == r.states[j]
  {
    r' := Run(r.states + [st'], r.events + [e]);
    forall i | 0 <= i < |r'.events|
      ensures Step(cfg, r'.states[i], r'.events[i]) == Some(r'.states[i + 1])
              && Expected(asked, delay, r'.states[i], r'.events[i])
    {
      if i < |r.events| {
        assert r'.states[i] == r.states[i] && r'.states[i + 1] == r.states[i + 1] && r'.events[i] == r.events[i];
      } else {
        assert r'.states[i] == st && r'.states[i + 1] == st' && r'.events[i] == e;
      }
    }
    var clock, version :| r.states[0] == Start(clock, version);
    assert r'.states[0] == Start(clock, version);
  }

  lemma LonePlan(req: Request)
    requires |req.checks| == 1
    ensures IsPlan(req, [0], [Access(0)]) && IsPlan(req, [], [])
  {
    BucketOfOne(req, req.checks[0].namespace_);
    assert CallFor(req, [0], 0) == Access(0);
  }

  lemma BucketOfOne(req: Request, ns: string)
    ensures |Bucket(req, [0], ns)| <= 1
  {
    assert [0][..0] == [] && Bucket(req, [], ns) == [];
  }

  lemma RequestComes(cfg: Config, req: Request, delay: Time, r: Run, st: State, t: Tid) returns (r': Run, st': State)
    requires |req.checks| == 1 && !Unauthenticated(req.actor) && t !in st.handlers
    requires EndsIn(cfg, {req.At(0)}, delay, r, st)
    ensures EndsIn(cfg, {req.At(0)}, delay, r', st') && r' == Run(r.states + [st'], r.events + [Arrive(t, req)])
    ensures st' == Put(st, t, Handler(req, st.clock, [], map[], Scanning(0)))
  {
    st' := Put(st, t, Handler(req, st.clock, [], map[], Scanning(0)));
    r' := RunGoesOn(cfg, {req.At(0)}, delay, r, st, Arrive(t, req), st');
  }

  /** A request of one check finds nothing and sets out to ask. */
  lemma RequestMisses(cfg: Config, req: Request, delay: Time, r: Run, st: State, t: Tid) returns (r': Run, st': State)
    requires |req.checks| == 1 && !Unauthenticated(req.actor) && t !in st.handlers
    requires EndsIn(cfg, {req.At(0)}, delay, r, st) && Key(cfg.digest, req.At(0)) !in st.cache
    ensures EndsIn(cfg, {req.At(0)}, delay, r', st') && |r'.events| == |r.events| + 3
    ensures st' == Put(st, t, Handler(req, st.clock, [0], map[], Working([Access(0)])))
  {
    var asked := {req.At(0)};
    LonePlan(req);
    var s1;
    r', s1 := RequestComes(cfg, req, delay, r, st, t);
    assert s1.handlers[t].pending + [0] == [0];
    var s2 := Put(s1, t, Handler(req, st.clock, [0], map[], Scanning(1)));
    r' := RunGoesOn(cfg, asked, delay, r', s1, Move(t, Load), s2);
    st' := Put(s2, t, Handler(req, st.clock, [0], map[], Working([Access(0)])));
    r' := RunGoesOn(cfg, asked, delay, r', s2, Move(t, Route([Access(0)])), st');
    assert st'.handlers == st.handlers[t := st'.handlers[t]];
  }

  /** It is answered. */
  lemma RequestAsks(cfg: Config, req: Request, delay: Time, r: Run, st: State, t: Tid, h: Handler)
    returns (r': Run, st': State)
    requires |req.checks| == 1 && t in st.handlers && st.handlers[t] == h
    requires h.req == req && h.pc == Working([Access(0)])
    requires EndsIn(cfg, {req.At(0)}, delay, r, st)
    ensures EndsIn(cfg, {req.At(0)}, delay, r', st') && |r'.events| == |r.events| + 1
    ensures var a := AnswerFor(cfg, st, t, req, Access(0), NoFault, 0);
            st' == Put(st.(log := st.log + [a]), t, h.(pc := Stamping(Access(0), [a.result], |st.log|, 0, [])))
  {
    var c, a := Access(0), AnswerFor(cfg, st, t, req, Access(0), NoFault, 0);
    assert LoggedAnswers(cfg, st, t, req, c, NoFault) == [a];
    assert [c][1..] == [];
    st' := Step(cfg, st, Move(t, Ask(NoFault))).value;
    assert st'.handlers[t].pc.answers == [a.result];
    r' := RunGoesOn(cfg, {req.At(0)}, delay, r, st, Move(t, Ask(NoFault)), st');
  }

  /** It stores the answer, `delay` later. */
  lemma RequestStores(cfg: Config, req: Request, delay: Time, r: Run, st: State, t: Tid, h: Handler, a: Answer)
    returns (r': Run, st': State)
    requires |req.checks| == 1 && t in st.handlers && st.handlers[t] == h && st.log == [a]
             && st.clock - a.clock <= delay
    requires h.req == req && h.pc == Stamping(Access(0), [a.result], 0, 0, [])
    requires EndsIn(cfg, {req.At(0)}, delay, r, st)
    ensures EndsIn(cfg, {req.At(0)}, delay, r', st') && r.states <= r'.states && |r'.events| == |r.events| + 2
    ensures forall j :: |r.states| <= j < |r'.states| ==> r'.states[j].version == st.version
    ensures st'.clock == st.clock && st'.version == st.version && st'.handlers.Keys == st.handlers.Keys
    ensures st'.cache == st.cache[Key(cfg.digest, req.At(0)) := Slot(a.result, st.clock + cfg.ttl, 0)]
  {
    var s1 := Put(st, t, h.(results := h.results[0 := Got(a.result, Own, 0)],
                            pc := Storing(Access(0), [a.result], 0, 0, st.clock, [])));
    r' := RunGoesOn(cfg, {req.At(0)}, delay, r, st, Move(t, Stamp), s1);
    st' := StepStore(cfg, s1, t, s1.handlers[t]).value;
    r' := RunGoesOn(cfg, {req.At(0)}, delay, r', s1, Move(t, Store), st');
  }

  /** The policy changes, and time passes. */
  lemma Meanwhile(cfg: Config, asked: set<Query>, delay: Time, r: Run, st: State, w: nat, to: Time)
    returns (r': Run, st': State)
    requires EndsIn(cfg, asked, delay, r, st) && st.clock <= to
    ensures EndsIn(cfg, asked, delay, r', st') && |r'.events| == |r.events| + 2
    ensures var k := |r.states|; r'.states[k].clock == st.clock && r'.states[k].version == r'.states[k + 1].version == w
    ensures st' == st.(version := w, clock := to)
  {
    var s1 := st.(version := w);
    r' := RunGoesOn(cfg, asked, delay, r, st, Policy(w), s1);
    st' := s1.(clock := to);
    r' := RunGoesOn(cfg, asked, delay, r', s1, Tick(to), st');
  }

  /** A request is allowed the check, and then the policy changes and time passes. */
  lemma StalledAnswer(cfg: Config, req: Request, v: nat, w: nat, delay: Time) returns (r: Run, st: State, a: Answer)
    requires |req.checks| == 1 && !Unauthenticated(req.actor) && delay >= 0
    ensures EndsIn(cfg, {req.At(0)}, delay, r, st) && |r.events| == 6
    ensures r.states[5].clock == 0 && r.states[5].version == r.states[6].version == w
    ensures st.clock == delay && st.version == w && st.cache == map[] && st.log == [a]
    ensures a.clock == 0 && a.result == Verdict(cfg, v, req, Access(0), 0)
    ensures st.handlers == map[1 := Handler(req, 0, [0], map[], Stamping(Access(0), [a.result], 0, 0, []))]
  {
    var start := Start(0, v);
    var s1, s2;
    r, s1 := RequestMisses(cfg, req, delay, Run([start], []), start, 1);
    r, s2 := RequestAsks(cfg, req, delay, r, s1, 1, s1.handlers[1]);
    a := AnswerFor(cfg, s1, 1, req, Access(0), NoFault, 0);
    r, st := Meanwhile(cfg, {req.At(0)}, delay, r, s2, w, delay);
  }

  /** Only then it stores its answer. */
  lemma StalledStore(cfg: Config, req: Request, v: nat, w: nat, delay: Time) returns (r: Run, st: State)
    requires |req.checks| == 1 && !Unauthenticated(req.actor) && delay >= 0
    ensures EndsIn(cfg, {req.At(0)}, delay, r, st) && |r.events| == 8
    ensures r.states[5].clock == 0 && forall j :: 5 <= j <= 8 ==> r.states[j].version == w
    ensures st.clock == delay && 2 !in st.handlers && st.version == w
    ensures st.cache == map[Key(cfg.digest, req.At(0)) := Slot(Verdict(cfg, v, req, Access(0), 0), delay + cfg.ttl, 0)]
  {
    var s1, a;
    r, s1, a := StalledAnswer(cfg, req, v, w, delay);
    r, st := RequestStores(cfg, req, delay, r, s1, 1, s1.handlers[1], a);
  }

  /** A request of one check looks up an entry ... */
  lemma RequestLoads(cfg: Config, req: Request, delay: Time, r: Run, st: State, t: Tid) returns (r': Run, st': State)
    requires |req.checks| == 1 && !Unauthenticated(req.actor) && t !in st.handlers
    requires EndsIn(cfg, {req.At(0)}, delay, r, st) && Key(cfg.digest, req.At(0)) in st.cache
    ensures EndsIn(cfg, {req.At(0)}, delay, r', st') && r.states <= r'.states
    ensures forall j :: |r.states| <= j < |r'.states| ==> r'.states[j].version == st.version
    ensures st'.version == st.version && st'.clock == st.clock && t in st'.handlers
    ensures st'.handlers[t] == Handler(req, st.clock, [], map[], Loaded(0, st.cache[Key(cfg.digest, req.At(0))]))
  {
    var s1;
    r', s1 := RequestComes(cfg, req, delay, r, st, t);
    st' := Put(s1, t, s1.handlers[t].(pc := Loaded(0, st.cache[Key(cfg.digest, req.At(0))])));
    r' := RunGoesOn(cfg, {req.At(0)}, delay, r', s1, Move(t, Load), st');
  }

  /** ... that is alive ... */
  lemma RequestHits(cfg: Config, req: Request, delay: Time, r: Run, st: State, t: Tid, h: Handler)
    returns (r': Run, st': State)
    requires |req.checks| == 1 && t in st.handlers && st.handlers[t] == h
    requires h.req == req && h.pc.Loaded? && h.pc.i == 0 && st.clock <= h.pc.slot.expires
    requires EndsIn(cfg, {req.At(0)}, delay, r, st)
    ensures EndsIn(cfg, {req.At(0)}, delay, r', st') && r' == Run(r.states + [st'], r.events + [Move(t, CheckClock)])
    ensures st'.version == st.version && t in st'.handlers
    ensures var got := Got(h.pc.slot.result, Cached(h.pc.slot.expires - cfg.ttl, st.clock), h.pc.slot.answer);
            st'.handlers[t] == h.(results := h.results[0 := got], pc := Scanning(1))
  {
    st' := StepCheck(cfg, st, t, h).value;
    r' := RunGoesOn(cfg, {req.At(0)}, delay, r, st, Move(t, CheckClock), st');
  }

  /** ... and is done. */
  lemma RequestEnds(cfg: Config, req: Request, delay: Time, r: Run, st: State, t: Tid, h: Handler)
    returns (r': Run, st': State)
    requires |req.checks| == 1 && t in st.handlers && st.handlers[t] == h
    requires h.req == req && h.pc == Scanning(1) && h.pending == []
    requires EndsIn(cfg, {req.At(0)}, delay, r, st)
    ensures EndsIn(cfg, {req.At(0)}, delay, r', st') && r.states <= r'.states
    ensures forall j :: |r.states| <= j < |r'.states| ==> r'.states[j].version == st.version
    ensures t in st'.handlers && st'.handlers[t] == h.(pc := Done)
  {
    LonePlan(req);
    var s1 := Put(st, t, h.(pc := Working([])));
    r' := RunGoesOn(cfg, {req.At(0)}, delay, r, st, Move(t, Route([])), s1);
    st' := Put(s1, t, h.(pc := Done));
    r' := RunGoesOn(cfg, {req.At(0)}, delay, r', s1, Move(t, Finish), st');
  }

  /** For every TTL and delay, and a permission that any policy takes away: a request that comes exactly
      the TTL and the delay later is still allowed. */
  lemma RevocationBoundIsReached(cfg: Config, req: Request, v: nat, w: nat, delay: Time) returns (r: Run)
    requires |req.checks| == 1 && !Unauthenticated(req.actor) && cfg.ttl >= 0 && delay >= 0
    requires cfg.allows(v, req.At(0)) && !cfg.allows(w, req.At(0))
    ensures IsRun(cfg, {req.At(0)}, delay, r) && |r.states| > 5 && Denied(cfg, r, 5, |r.events|, req.At(0))
    ensures 2 in r.states[|r.events|].handlers
    ensures var h := r.states[|r.events|].handlers[2];
            && h.req == req && h.pc.Done? && h.start == r.states[5].clock + cfg.ttl + delay
            && 0 in h.results && h.results[0].result.allowed
  {
    var r1, s1 := StalledStore(cfg, req, v, w, delay);
    var s2, s3, s4, s5 := s1.(clock := delay + cfg.ttl), s1, s1, s1;
    r := RunGoesOn(cfg, {req.At(0)}, delay, r1, s1, Tick(delay + cfg.ttl), s2);
    r, s3 := RequestLoads(cfg, req, delay, r, s2, 2);
    r, s4 := RequestHits(cfg, req, delay, r, s3, 2, s3.handlers[2]);
    r, s5 := RequestEnds(cfg, req, delay, r, s4, 2, s4.handlers[2]);
    assert forall j :: 0 <= j < |r1.states| ==> r.states[j] == r1.states[j];
    assert forall j :: 5 <= j < |r.states| ==> r.states[j].version == w;
  }
}
