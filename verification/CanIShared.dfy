/**
  Concurrent can-i requests over one cache, while permissions change.

  A step is one look-up, clock read, delete or store of the shared map, or one backend call; any number
  of requests interleave, and the apiserver's policy and the clock move between any two steps. Whatever
  the interleaving, an answer is what the apiserver said at an instant that is not long past: the TTL
  runs from the clock read before the store, so what a request may be late by is the TTL and the time
  its source took from its answer to that clock read.
  */
module CanIShared {
  import opened Wrappers
  import opened CanICacheKey
  import opened CanIBatch
  import opened CanIRouting
  import opened CanIWork

  type Tid = nat

  /** `allows`, `reason` and `evaluate` are as in CanIBatch, under each version of the policy. */
  datatype Config = Config(
    ttl: Time,
    digest: string -> string,
    allows: (nat, Query) -> bool,
    reason: (nat, Query) -> string,
    evaluate: (nat, RuleSet, SSRRCheck) -> bool
  )

  /** A cached result; `answer` is history: where in the log it came from. */
  datatype Slot = Slot(result: CanIResult, expires: Time, answer: nat)

  /** How a request came by a result: from its own call, or from an entry stored with clock `stamp` and
      found alive at clock `checked`. `answer` is history. */
  datatype Source = Own | Cached(stamp: Time, checked: Time)

  datatype Got = Got(result: CanIResult, via: Source, answer: nat)

  datatype PC =
    | Scanning(i: nat)
    | Loaded(i: nat, slot: Slot)
    | Dropping(i: nat)
    | Working(work: seq<Call>)
    | Stamping(call: Call, answers: seq<CanIResult>, base: nat, j: nat, work: seq<Call>)
    | Storing(call: Call, answers: seq<CanIResult>, base: nat, j: nat, stamp: Time, work: seq<Call>)
    | Done
    | Gone

  /** `start` is history: the clock when the request came. */
  datatype Handler = Handler(req: Request, start: Time, pending: seq<nat>, results: map<nat, Got>, pc: PC)

  /** One check the apiserver was asked about, under which policy and when; `code` if the call failed. */
  datatype Answer = Answer(t: Tid, query: Query, version: nat, clock: Time, code: Option<string>, result: CanIResult)

  /** `log` is history: every answer the apiserver gave. No step reads it. */
  datatype State = State(
    clock: Time,
    version: nat,
    cache: map<string, Slot>,
    handlers: map<Tid, Handler>,
    log: seq<Answer>
  )

  datatype Op = Load | CheckClock | Drop | Route(plan: seq<Call>) | Ask(fault: Fault) | Stamp | Store | Finish

  datatype Event = Tick(to: Time) | Policy(version: nat) | Arrive(t: Tid, req: Request) | Move(t: Tid, op: Op)

  function Start(clock: Time, version: nat): State {
    State(clock, version, map[], map[], [])
  }

  // The steps.

  /** What the apiserver, asked by `c` under a policy, makes of index `i`. */
  function Verdict(cfg: Config, version: nat, req: Request, c: Call, i: nat): CanIResult
    requires i < |req.checks|
  {
    var q := req.At(i);
    if c.Rules? then
      CanIResult(cfg.evaluate(version, RuleSet(q.actor, q.cluster, q.groups, c.ns),
                              SSRRCheck(q.check.verb, q.check.group, q.check.resource, q.check.name)), "")
    else CanIResult(cfg.allows(version, q), cfg.reason(version, q))
  }

  function AnswerFor(cfg: Config, st: State, t: Tid, req: Request, c: Call, fault: Fault, i: nat): Answer
    requires i < |req.checks|
  {
    if fault.Failed? then Answer(t, req.At(i), st.version, st.clock, Some(fault.code), CanIResult(false, fault.code))
    else Answer(t, req.At(i), st.version, st.clock, None, Verdict(cfg, st.version, req, c, i))
  }

  function LoggedAnswers(cfg: Config, st: State, t: Tid, req: Request, c: Call, fault: Fault): (r: seq<Answer>)
    requires forall i :: i in c.Indices() ==> i < |req.checks|
    ensures |r| == |c.Indices()|
  {
    seq(|c.Indices()|, j requires 0 <= j < |c.Indices()| =>
      assert c.Indices()[j] in c.Indices();
      AnswerFor(cfg, st, t, req, c, fault, c.Indices()[j]))
  }

  function Put(st: State, t: Tid, h: Handler): State {
    st.(handlers := st.handlers[t := h])
  }

  function StepLoad(cfg: Config, st: State, t: Tid, h: Handler): Option<State> {
    if !h.pc.Scanning? || h.pc.i >= |h.req.checks| then None
    else
      var i := h.pc.i;
      var k := Key(cfg.digest, h.req.At(i));
      if k in st.cache then Some(Put(st, t, h.(pc := Loaded(i, st.cache[k]))))
      else Some(Put(st, t, h.(pending := h.pending + [i], pc := Scanning(i + 1))))
  }

  function StepCheck(cfg: Config, st: State, t: Tid, h: Handler): Option<State> {
    if !h.pc.Loaded? then None
    else
      var i, slot := h.pc.i, h.pc.slot;
      if st.clock > slot.expires then Some(Put(st, t, h.(pc := Dropping(i))))
      else
        var got := Got(slot.result, Cached(slot.expires - cfg.ttl, st.clock), slot.answer);
        Some(Put(st, t, h.(results := h.results[i := got], pc := Scanning(i + 1))))
  }

  /** Deletes by key: the entry that goes may be a newer one. */
  function StepDrop(cfg: Config, st: State, t: Tid, h: Handler): Option<State> {
    if !h.pc.Dropping? || h.pc.i >= |h.req.checks| then None
    else
      var i := h.pc.i;
      Some(Put(st.(cache := st.cache - {Key(cfg.digest, h.req.At(i))}), t,
               h.(pending := h.pending + [i], pc := Scanning(i + 1))))
  }

  function StepRoute(st: State, t: Tid, h: Handler, plan: seq<Call>): Option<State> {
    if !h.pc.Scanning? || h.pc.i < |h.req.checks| || !IsPlan(h.req, h.pending, plan) then None
    else Some(Put(st, t, h.(pc := Working(plan))))
  }

  function StepAsk(cfg: Config, st: State, t: Tid, h: Handler, fault: Fault): Option<State> {
    if !h.pc.Working? || h.pc.work == [] then None
    else if fault.Canceled? then Some(Put(st, t, h.(pc := Gone)))
    else
      var c := h.pc.work[0];
      if exists i :: i in c.Indices() && i >= |h.req.checks| then None
      else
        var answers := LoggedAnswers(cfg, st, t, h.req, c, fault);
        var results := seq(|answers|, j requires 0 <= j < |answers| => answers[j].result);
        Some(Put(st.(log := st.log + answers), t, h.(pc := Stamping(c, results, |st.log|, 0, h.pc.work[1..]))))
  }

  /** Notes the next result and reads the clock for storing it. */
  function StepStamp(st: State, t: Tid, h: Handler): Option<State> {
    if !h.pc.Stamping? || h.pc.j >= |h.pc.answers| || h.pc.j >= |h.pc.call.Indices()| then None
    else
      var pc := h.pc;
      var got := Got(pc.answers[pc.j], Own, pc.base + pc.j);
      Some(Put(st, t, h.(results := h.results[pc.call.Indices()[pc.j] := got],
                         pc := Storing(pc.call, pc.answers, pc.base, pc.j, st.clock, pc.work))))
  }

  function StepStore(cfg: Config, st: State, t: Tid, h: Handler): Option<State> {
    if !h.pc.Storing? || h.pc.j >= |h.pc.answers| || h.pc.j >= |h.pc.call.Indices()| then None
    else if h.pc.call.Indices()[h.pc.j] >= |h.req.checks| then None
    else
      var pc := h.pc;
      var k := Key(cfg.digest, h.req.At(pc.call.Indices()[pc.j]));
      var next := if pc.j + 1 < |pc.call.Indices()| then Stamping(pc.call, pc.answers, pc.base, pc.j + 1, pc.work)
                  else Working(pc.work);
      var slot := Slot(pc.answers[pc.j], pc.stamp + cfg.ttl, pc.base + pc.j);
      Some(Put(st.(cache := st.cache[k := slot]), t, h.(pc := next)))
  }

  function StepFinish(st: State, t: Tid, h: Handler): Option<State> {
    if h.pc == Working([]) then Some(Put(st, t, h.(pc := Done))) else None
  }

  function StepMove(cfg: Config, st: State, t: Tid, h: Handler, op: Op): Option<State> {
    match op
    case Load => StepLoad(cfg, st, t, h)
    case CheckClock => StepCheck(cfg, st, t, h)
    case Drop => StepDrop(cfg, st, t, h)
    case Route(plan) => StepRoute(st, t, h, plan)
    case Ask(fault) => StepAsk(cfg, st, t, h, fault)
    case Stamp => StepStamp(st, t, h)
    case Store => StepStore(cfg, st, t, h)
    case Finish => StepFinish(st, t, h)
  }

  function Step(cfg: Config, st: State, e: Event): Option<State> {
    match e
    case Tick(to) => if to < st.clock then None else Some(st.(clock := to))
    case Policy(version) => Some(st.(version := version))
    case Arrive(t, req) =>
      if t in st.handlers || !(0 < |req.checks| <= MAX_CHECKS) || Unauthenticated(req.actor) then None
      else Some(Put(st, t, Handler(req, st.clock, [], map[], Scanning(0))))
    case Move(t, op) => if t in st.handlers then StepMove(cfg, st, t, st.handlers[t], op) else None
  }

  datatype Run = Run(states: seq<State>, events: seq<Event>)

  /** The clock read for a store comes at most `delay` after the answer. */
  predicate Timely(delay: Time, st: State, h: Handler, op: Op) {
    op.Stamp? && h.pc.Stamping? && h.pc.base + h.pc.j < |st.log| ==>
      st.clock - st.log[h.pc.base + h.pc.j].clock <= delay
  }

  predicate Punctual(delay: Time, st: State, e: Event) {
    e.Move? && e.t in st.handlers ==> Timely(delay, st, st.handlers[e.t], e.op)
  }

  /** Requests are about the queries `asked`, and stores come within the delay. */
  predicate Expected(asked: set<Query>, delay: Time, st: State, e: Event) {
    && (e.Arrive? ==> forall i :: 0 <= i < |e.req.checks| ==> e.req.At(i) in asked)
    && Punctual(delay, st, e)
  }

  ghost predicate IsRun(cfg: Config, asked: set<Query>, delay: Time, r: Run) {
    && |r.states| == |r.events| + 1
    && (exists clock, version :: r.states[0] == Start(clock, version))
    && forall i :: 0 <= i < |r.events| ==>
         && Step(cfg, r.states[i], r.events[i]) == Some(r.states[i + 1])
         && Expected(asked, delay, r.states[i], r.events[i])
  }

  /** A clock is read for a store just `delay` after the answer. */
  predicate Attains(delay: Time, st: State, e: Event) {
    && e.Move? && e.op.Stamp? && e.t in st.handlers && st.handlers[e.t].pc.Stamping?
    && var pc := st.handlers[e.t].pc;
       pc.base + pc.j < |st.log| && st.clock - st.log[pc.base + pc.j].clock == delay
  }

  /** Every run has a longest delay: it is no assumption, but a measure. */
  lemma {:induction false} DelayOf(r: Run, k: nat) returns (delay: Time)
    requires k <= |r.events| <= |r.states|
    ensures forall i :: 0 <= i < k ==> Punctual(delay, r.states[i], r.events[i])
    ensures delay > 0 ==> exists i :: 0 <= i < k && Attains(delay, r.states[i], r.events[i])
    ensures delay >= 0
  {
    if k == 0 {
      delay := 0;
    } else {
      var d := DelayOf(r, k - 1);
      var st, e := r.states[k - 1], r.events[k - 1];
      delay := d;
      if !Punctual(d, st, e) {
        var pc := st.handlers[e.t].pc;
        delay := st.clock - st.log[pc.base + pc.j].clock;
        assert Attains(delay, r.states[k - 1], r.events[k - 1]);
      }
      forall i | 0 <= i < k - 1 ensures Punctual(delay, r.states[i], r.events[i]) {
        assert Punctual(d, r.states[i], r.events[i]);
      }
    }
  }

  /** The apiserver and the digests, as CanIBatch assumes them, under every policy. */
  ghost predicate Trustworthy(cfg: Config, asked: set<Query>) {
    && Distinguishes(cfg.digest, asked)
    && (forall v, a, b :: SameQuestion(a, b) ==> cfg.allows(v, a) == cfg.allows(v, b))
    && (forall v, q: Query :: SSRREligible(q.check) ==>
          cfg.evaluate(v, RuleSet(q.actor, q.cluster, q.groups, q.check.namespace_),
                       SSRRCheck(q.check.verb, q.check.group, q.check.resource, q.check.name)) == cfg.allows(v, q))
  }

  // Where results come from.

  /** An answer is the verdict of its policy, or a denial with the code of a failed call. */
  predicate Said(cfg: Config, a: Answer) {
    if a.code.Some? then a.result == CanIResult(false, a.code.value)
    else (a.result.allowed <==> cfg.allows(a.version, a.query))
         && (a.result.reason == cfg.reason(a.version, a.query)
             || (a.result.reason == "" && SSRREligible(a.query.check)))
  }

  /** The result is that of a logged answer to a question with this key. */
  predicate From(cfg: Config, log: seq<Answer>, n: nat, key: string, r: CanIResult) {
    n < |log| && r == log[n].result && Key(cfg.digest, log[n].query) == key
  }

  predicate SlotOk(cfg: Config, delay: Time, log: seq<Answer>, clock: Time, key: string, slot: Slot) {
    && From(cfg, log, slot.answer, key, slot.result)
    && log[slot.answer].clock <= slot.expires - cfg.ttl <= clock
    && slot.expires - cfg.ttl - log[slot.answer].clock <= delay
  }

  predicate GotOk(cfg: Config, delay: Time, log: seq<Answer>, clock: Time, t: Tid, start: Time, q: Query, got: Got) {
    && From(cfg, log, got.answer, Key(cfg.digest, q), got.result)
    && var a := log[got.answer];
       if got.via.Own? then a.t == t && a.query == q && start <= a.clock
       else start <= got.via.checked <= clock && got.via.checked <= got.via.stamp + cfg.ttl
            && a.clock <= got.via.stamp && got.via.stamp - a.clock <= delay
  }

  predicate CallOk(req: Request, c: Call) {
    c.Indices() != [] && forall i :: i in c.Indices() ==> i < |req.checks| && (c.Rules? ==> req.BatchableIn(i, c.ns))
  }

  /** The calls still to be made are about indices of the request. */
  predicate WorkOk(req: Request, work: seq<Call>) {
    forall c :: c in work ==> CallOk(req, c)
  }

  /** Entry `n` of the log is this request's answer for index `i`. */
  predicate OwnAnswer(log: seq<Answer>, t: Tid, req: Request, start: Time, i: nat, r: CanIResult, n: nat) {
    && i < |req.checks| && n < |log|
    && log[n].t == t && log[n].query == req.At(i) && log[n].result == r && start <= log[n].clock
  }

  /** The answers in hand are those logged from `base` on. */
  predicate AnswersOk(log: seq<Answer>, t: Tid, req: Request, start: Time, idxs: seq<nat>, answers: seq<CanIResult>,
                      base: nat) {
    |answers| == |idxs| && forall j :: 0 <= j < |idxs| ==> OwnAnswer(log, t, req, start, idxs[j], answers[j], base + j)
  }

  predicate PcOk(cfg: Config, delay: Time, log: seq<Answer>, clock: Time, t: Tid, req: Request, start: Time, pc: PC) {
    if pc.Loaded? then pc.i < |req.checks| && SlotOk(cfg, delay, log, clock, Key(cfg.digest, req.At(pc.i)), pc.slot)
    else if pc.Dropping? then pc.i < |req.checks|
    else if pc.Working? then WorkOk(req, pc.work)
    else if pc.Stamping? then
      && WorkOk(req, pc.work) && AnswersOk(log, t, req, start, pc.call.Indices(), pc.answers, pc.base)
      && pc.j < |pc.answers|
    else if pc.Storing? then
      && WorkOk(req, pc.work) && AnswersOk(log, t, req, start, pc.call.Indices(), pc.answers, pc.base)
      && pc.j < |pc.answers|
      && pc.base + pc.j < |log| && log[pc.base + pc.j].clock <= pc.stamp <= clock
      && pc.stamp - log[pc.base + pc.j].clock <= delay
    else true
  }

  ghost predicate InWork(work: seq<Call>, i: nat) {
    exists c :: c in work && i in c.Indices()
  }

  ghost predicate InHand(c: Call, j: nat, i: nat) {
    exists m: nat :: j <= m < |c.Indices()| && c.Indices()[m] == i
  }

  /** Index `i` is not forgotten: it has a result, or will get one. */
  ghost predicate Accounted(h: Handler, i: nat) {
    var pc := h.pc;
    || pc.Gone? || i in h.results
    || ((pc.Scanning? || pc.Loaded? || pc.Dropping?) && (i in h.pending || i >= pc.i))
    || (pc.Working? && InWork(pc.work, i))
    || (pc.Stamping? && (InWork(pc.work, i) || InHand(pc.call, pc.j, i)))
    || (pc.Storing? && (InWork(pc.work, i) || InHand(pc.call, pc.j + 1, i)))
  }

  ghost predicate Covered(h: Handler) {
    && (forall i :: 0 <= i < |h.req.checks| ==> Accounted(h, i))
    && (forall i :: i in h.pending ==> i < |h.req.checks|)
    && (forall i :: i in h.results ==> i < |h.req.checks|)
  }

  predicate ResultsOk(cfg: Config, delay: Time, log: seq<Answer>, clock: Time, t: Tid, req: Request, start: Time,
                      results: map<nat, Got>) {
    forall i :: i in results && i < |req.checks| ==> GotOk(cfg, delay, log, clock, t, start, req.At(i), results[i])
  }

  ghost predicate HandlerOk(cfg: Config, asked: set<Query>, delay: Time, log: seq<Answer>, clock: Time, t: Tid,
                            h: Handler) {
    && h.start <= clock && (forall i :: 0 <= i < |h.req.checks| ==> h.req.At(i) in asked)
    && PcOk(cfg, delay, log, clock, t, h.req, h.start, h.pc)
    && Covered(h)
    && ResultsOk(cfg, delay, log, clock, t, h.req, h.start, h.results)
  }

  ghost predicate CacheOk(cfg: Config, delay: Time, log: seq<Answer>, clock: Time, cache: map<string, Slot>) {
    forall k :: k in cache ==> SlotOk(cfg, delay, log, clock, k, cache[k])
  }

  ghost predicate LogOk(cfg: Config, asked: set<Query>, log: seq<Answer>, clock: Time) {
    forall n :: 0 <= n < |log| ==> Said(cfg, log[n]) && log[n].query in asked && log[n].clock <= clock
  }

  ghost predicate Sound(cfg: Config, asked: set<Query>, delay: Time, st: State) {
    && LogOk(cfg, asked, st.log, st.clock)
    && CacheOk(cfg, delay, st.log, st.clock, st.cache)
    && forall t :: t in st.handlers ==> HandlerOk(cfg, asked, delay, st.log, st.clock, t, st.handlers[t])
  }

  // What others do: the log grows, the clock moves on.

  lemma SlotStaysOk(cfg: Config, delay: Time, log: seq<Answer>, clock: Time, log': seq<Answer>, clock': Time,
                    key: string, slot: Slot)
    requires SlotOk(cfg, delay, log, clock, key, slot) && log <= log' && clock <= clock'
    ensures SlotOk(cfg, delay, log', clock', key, slot)
  {
    assert log'[slot.answer] == log[slot.answer];
  }

  lemma AnswersStayOk(log: seq<Answer>, log': seq<Answer>, t: Tid, req: Request, start: Time, idxs: seq<nat>,
                      answers: seq<CanIResult>, base: nat)
    requires AnswersOk(log, t, req, start, idxs, answers, base) && log <= log'
    ensures AnswersOk(log', t, req, start, idxs, answers, base)
  {
    forall j | 0 <= j < |idxs| ensures OwnAnswer(log', t, req, start, idxs[j], answers[j], base + j) {
      assert OwnAnswer(log, t, req, start, idxs[j], answers[j], base + j);
    }
  }

  lemma PcStaysOk(cfg: Config, delay: Time, log: seq<Answer>, clock: Time, log': seq<Answer>, clock': Time, t: Tid,
                  req: Request, start: Time, pc: PC)
    requires PcOk(cfg, delay, log, clock, t, req, start, pc) && log <= log' && clock <= clock'
    ensures PcOk(cfg, delay, log', clock', t, req, start, pc)
  {
    if pc.Loaded? {
      SlotStaysOk(cfg, delay, log, clock, log', clock', Key(cfg.digest, req.At(pc.i)), pc.slot);
    } else if pc.Stamping? || pc.Storing? {
      AnswersStayOk(log, log', t, req, start, pc.call.Indices(), pc.answers, pc.base);
      assert pc.Storing? ==> log'[pc.base + pc.j] == log[pc.base + pc.j];
    }
  }

  lemma ResultsStayOk(cfg: Config, delay: Time, log: seq<Answer>, clock: Time, log': seq<Answer>, clock': Time, t: Tid,
                      req: Request, start: Time, results: map<nat, Got>)
    requires ResultsOk(cfg, delay, log, clock, t, req, start, results) && log <= log' && clock <= clock'
    ensures ResultsOk(cfg, delay, log', clock', t, req, start, results)
  {
    forall i | i in results && i < |req.checks|
      ensures GotOk(cfg, delay, log', clock', t, start, req.At(i), results[i])
    {
      assert GotOk(cfg, delay, log, clock, t, start, req.At(i), results[i]);
      assert log'[results[i].answer] == log[results[i].answer];
    }
  }

  lemma HandlerStaysOk(cfg: Config, asked: set<Query>, delay: Time, log: seq<Answer>, clock: Time,
                       log': seq<Answer>, clock': Time, t: Tid, h: Handler)
    requires HandlerOk(cfg, asked, delay, log, clock, t, h) && log <= log' && clock <= clock'
    ensures HandlerOk(cfg, asked, delay, log', clock', t, h)
  {
    PcStaysOk(cfg, delay, log, clock, log', clock', t, h.req, h.start, h.pc);
    ResultsStayOk(cfg, delay, log, clock, log', clock', t, h.req, h.start, h.results);
  }

  /** A step that leaves every other request alone is sound if what it leaves behind is. */
  lemma FrameIsSound(cfg: Config, asked: set<Query>, delay: Time, st: State, t: Tid, st': State)
    requires Sound(cfg, asked, delay, st) && st.log <= st'.log && st.clock <= st'.clock
    requires st'.handlers == st.handlers || (t in st'.handlers && st'.handlers == st.handlers[t := st'.handlers[t]]
               && HandlerOk(cfg, asked, delay, st'.log, st'.clock, t, st'.handlers[t]))
    requires LogOk(cfg, asked, st'.log, st'.clock) && CacheOk(cfg, delay, st'.log, st'.clock, st'.cache)
    ensures Sound(cfg, asked, delay, st')
  {
    forall u | u in st'.handlers ensures HandlerOk(cfg, asked, delay, st'.log, st'.clock, u, st'.handlers[u]) {
      if u in st.handlers && st'.handlers[u] == st.handlers[u] {
        HandlerStaysOk(cfg, asked, delay, st.log, st.clock, st'.log, st'.clock, u, st.handlers[u]);
      }
    }
  }

  lemma CacheStaysOk(cfg: Config, delay: Time, log: seq<Answer>, clock: Time, log': seq<Answer>, clock': Time,
                     cache: map<string, Slot>)
    requires CacheOk(cfg, delay, log, clock, cache) && log <= log' && clock <= clock'
    ensures CacheOk(cfg, delay, log', clock', cache)
  {
    forall k | k in cache ensures SlotOk(cfg, delay, log', clock', k, cache[k]) {
      SlotStaysOk(cfg, delay, log, clock, log', clock', k, cache[k]);
    }
  }

  lemma CallForHas(req: Request, pending: seq<nat>, i: nat)
    requires i < |req.checks| && i in pending
    ensures i in CallFor(req, pending, i).Indices() && CallOk(req, CallFor(req, pending, i))
  {
    forall k ensures k in Bucket(req, pending, req.checks[i].namespace_)
                     <==> k in pending && req.BatchableIn(k, req.checks[i].namespace_) {
      BucketHas(req, pending, req.checks[i].namespace_, k);
    }
  }

  lemma PlanIsOk(req: Request, pending: seq<nat>, plan: seq<Call>)
    requires IsPlan(req, pending, plan)
    ensures WorkOk(req, plan) && forall i :: i in pending ==> InWork(plan, i)
  {
    forall c | c in plan ensures CallOk(req, c) {
      var i :| i in pending && i < |req.checks| && c == CallFor(req, pending, i);
      CallForHas(req, pending, i);
    }
    forall i | i in pending ensures InWork(plan, i) {
      CallForHas(req, pending, i);
    }
  }

  // One request's steps forget no index ...

  lemma LoadCovers(cfg: Config, st: State, t: Tid, h: Handler, st': State)
    requires Covered(h) && StepLoad(cfg, st, t, h) == Some(st')
    ensures Covered(st'.handlers[t])
  {
    forall i | 0 <= i < |h.req.checks| ensures Accounted(st'.handlers[t], i) {
      assert Accounted(h, i);
    }
  }

  lemma CheckCovers(cfg: Config, st: State, t: Tid, h: Handler, st': State)
    requires Covered(h) && StepCheck(cfg, st, t, h) == Some(st') && h.pc.i < |h.req.checks|
    ensures Covered(st'.handlers[t])
  {
    forall i | 0 <= i < |h.req.checks| ensures Accounted(st'.handlers[t], i) {
      assert Accounted(h, i);
    }
  }

  lemma DropCovers(cfg: Config, st: State, t: Tid, h: Handler, st': State)
    requires Covered(h) && StepDrop(cfg, st, t, h) == Some(st')
    ensures Covered(st'.handlers[t])
  {
    forall i | 0 <= i < |h.req.checks| ensures Accounted(st'.handlers[t], i) {
      assert Accounted(h, i);
    }
  }

  lemma RouteCovers(st: State, t: Tid, h: Handler, plan: seq<Call>, st': State)
    requires Covered(h) && StepRoute(st, t, h, plan) == Some(st')
    ensures Covered(st'.handlers[t])
  {
    PlanIsOk(h.req, h.pending, plan);
    forall i | 0 <= i < |h.req.checks| ensures Accounted(st'.handlers[t], i) {
      assert Accounted(h, i);
    }
  }

  lemma AskCovers(cfg: Config, st: State, t: Tid, h: Handler, fault: Fault, st': State)
    requires Covered(h) && StepAsk(cfg, st, t, h, fault) == Some(st')
    ensures Covered(st'.handlers[t])
  {
    forall i | 0 <= i < |h.req.checks| ensures Accounted(st'.handlers[t], i) {
      assert Accounted(h, i);
      assert h.pc.work == [h.pc.work[0]] + h.pc.work[1..];
    }
  }

  lemma StampCovers(st: State, t: Tid, h: Handler, st': State)
    requires Covered(h) && StepStamp(st, t, h) == Some(st') && h.pc.call.Indices()[h.pc.j] < |h.req.checks|
    ensures Covered(st'.handlers[t])
  {
    forall i | 0 <= i < |h.req.checks| ensures Accounted(st'.handlers[t], i) {
      assert Accounted(h, i);
    }
  }

  lemma StoreCovers(cfg: Config, st: State, t: Tid, h: Handler, st': State)
    requires Covered(h) && StepStore(cfg, st, t, h) == Some(st')
    ensures Covered(st'.handlers[t])
  {
    forall i | 0 <= i < |h.req.checks| ensures Accounted(st'.handlers[t], i) {
      assert Accounted(h, i);
    }
  }

  lemma FinishCovers(st: State, t: Tid, h: Handler, st': State)
    requires Covered(h) && StepFinish(st, t, h) == Some(st')
    ensures Covered(st'.handlers[t])
  {
    forall i | 0 <= i < |h.req.checks| ensures Accounted(st'.handlers[t], i) {
      assert Accounted(h, i);
    }
  }

  // ... and keep what it knows of its results.

  lemma OneMoreResult(cfg: Config, delay: Time, log: seq<Answer>, clock: Time, t: Tid, req: Request, start: Time,
                      results: map<nat, Got>, i: nat, got: Got)
    requires ResultsOk(cfg, delay, log, clock, t, req, start, results)
    requires i < |req.checks| && GotOk(cfg, delay, log, clock, t, start, req.At(i), got)
    ensures ResultsOk(cfg, delay, log, clock, t, req, start, results[i := got])
  {
  }

  lemma LoadIsOk(cfg: Config, asked: set<Query>, delay: Time, st: State, t: Tid, h: Handler, st': State)
    requires StepLoad(cfg, st, t, h) == Some(st') && CacheOk(cfg, delay, st.log, st.clock, st.cache)
    requires HandlerOk(cfg, asked, delay, st.log, st.clock, t, h)
    ensures HandlerOk(cfg, asked, delay, st.log, st.clock, t, st'.handlers[t])
  {
    LoadCovers(cfg, st, t, h, st');
  }

  /** An entry found alive now was stored no longer ago than the TTL. */
  lemma AliveIsOk(cfg: Config, delay: Time, log: seq<Answer>, clock: Time, t: Tid, start: Time, q: Query, slot: Slot)
    requires SlotOk(cfg, delay, log, clock, Key(cfg.digest, q), slot) && start <= clock <= slot.expires
    ensures GotOk(cfg, delay, log, clock, t, start, q,
                  Got(slot.result, Cached(slot.expires - cfg.ttl, clock), slot.answer))
  {
  }

  lemma CheckedResults(cfg: Config, delay: Time, st: State, t: Tid, h: Handler, st': State)
    requires StepCheck(cfg, st, t, h) == Some(st') && h.start <= st.clock && h.pc.i < |h.req.checks|
    requires SlotOk(cfg, delay, st.log, st.clock, Key(cfg.digest, h.req.At(h.pc.i)), h.pc.slot)
    requires ResultsOk(cfg, delay, st.log, st.clock, t, h.req, h.start, h.results)
    ensures ResultsOk(cfg, delay, st.log, st.clock, t, h.req, h.start, st'.handlers[t].results)
  {
    var i, slot := h.pc.i, h.pc.slot;
    if st.clock <= slot.expires {
      var got := Got(slot.result, Cached(slot.expires - cfg.ttl, st.clock), slot.answer);
      AliveIsOk(cfg, delay, st.log, st.clock, t, h.start, h.req.At(i), slot);
      OneMoreResult(cfg, delay, st.log, st.clock, t, h.req, h.start, h.results, i, got);
    }
  }

  lemma CheckIsOk(cfg: Config, asked: set<Query>, delay: Time, st: State, t: Tid, h: Handler, st': State)
    requires StepCheck(cfg, st, t, h) == Some(st')
    requires HandlerOk(cfg, asked, delay, st.log, st.clock, t, h)
    ensures HandlerOk(cfg, asked, delay, st.log, st.clock, t, st'.handlers[t])
  {
    CheckCovers(cfg, st, t, h, st');
    CheckedResults(cfg, delay, st, t, h, st');
  }

  lemma DropIsOk(cfg: Config, asked: set<Query>, delay: Time, st: State, t: Tid, h: Handler, st': State)
    requires StepDrop(cfg, st, t, h) == Some(st')
    requires HandlerOk(cfg, asked, delay, st.log, st.clock, t, h)
    ensures HandlerOk(cfg, asked, delay, st.log, st.clock, t, st'.handlers[t])
  {
    DropCovers(cfg, st, t, h, st');
  }

  lemma RouteIsOk(cfg: Config, asked: set<Query>, delay: Time, st: State, t: Tid, h: Handler, plan: seq<Call>,
                  st': State)
    requires StepRoute(st, t, h, plan) == Some(st')
    requires HandlerOk(cfg, asked, delay, st.log, st.clock, t, h)
    ensures HandlerOk(cfg, asked, delay, st.log, st.clock, t, st'.handlers[t])
  {
    PlanIsOk(h.req, h.pending, plan);
    RouteCovers(st, t, h, plan, st');
  }

  lemma OwnIsOk(cfg: Config, delay: Time, log: seq<Answer>, clock: Time, t: Tid, req: Request, start: Time,
                idxs: seq<nat>, answers: seq<CanIResult>, base: nat, j: nat)
    requires AnswersOk(log, t, req, start, idxs, answers, base) && j < |idxs|
    ensures idxs[j] < |req.checks|
    ensures GotOk(cfg, delay, log, clock, t, start, req.At(idxs[j]), Got(answers[j], Own, base + j))
  {
  }

  lemma StampedResults(cfg: Config, delay: Time, st: State, t: Tid, h: Handler, st': State)
    requires StepStamp(st, t, h) == Some(st')
    requires AnswersOk(st.log, t, h.req, h.start, h.pc.call.Indices(), h.pc.answers, h.pc.base)
    requires ResultsOk(cfg, delay, st.log, st.clock, t, h.req, h.start, h.results)
    ensures h.pc.call.Indices()[h.pc.j] < |h.req.checks|
    ensures ResultsOk(cfg, delay, st.log, st.clock, t, h.req, h.start, st'.handlers[t].results)
  {
    var pc, idxs := h.pc, h.pc.call.Indices();
    OwnIsOk(cfg, delay, st.log, st.clock, t, h.req, h.start, idxs, pc.answers, pc.base, pc.j);
    var got := Got(pc.answers[pc.j], Own, pc.base + pc.j);
    OneMoreResult(cfg, delay, st.log, st.clock, t, h.req, h.start, h.results, idxs[pc.j], got);
  }

  lemma StampedPc(cfg: Config, asked: set<Query>, delay: Time, st: State, t: Tid, h: Handler, st': State)
    requires StepStamp(st, t, h) == Some(st') && LogOk(cfg, asked, st.log, st.clock)
    requires PcOk(cfg, delay, st.log, st.clock, t, h.req, h.start, h.pc)
    requires h.pc.base + h.pc.j < |st.log| ==> st.clock - st.log[h.pc.base + h.pc.j].clock <= delay
    ensures PcOk(cfg, delay, st.log, st.clock, t, h.req, h.start, st'.handlers[t].pc)
  {
    var pc := h.pc;
    assert OwnAnswer(st.log, t, h.req, h.start, pc.call.Indices()[pc.j], pc.answers[pc.j], pc.base + pc.j);
  }

  lemma StampIsOk(cfg: Config, asked: set<Query>, delay: Time, st: State, t: Tid, h: Handler, st': State)
    requires StepStamp(st, t, h) == Some(st') && LogOk(cfg, asked, st.log, st.clock)
    requires HandlerOk(cfg, asked, delay, st.log, st.clock, t, h)
    requires h.pc.base + h.pc.j < |st.log| ==> st.clock - st.log[h.pc.base + h.pc.j].clock <= delay
    ensures HandlerOk(cfg, asked, delay, st.log, st.clock, t, st'.handlers[t])
  {
    StampedResults(cfg, delay, st, t, h, st');
    StampedPc(cfg, asked, delay, st, t, h, st');
    StampCovers(st, t, h, st');
  }

  lemma StoreIsOk(cfg: Config, asked: set<Query>, delay: Time, st: State, t: Tid, h: Handler, st': State)
    requires StepStore(cfg, st, t, h) == Some(st')
    requires HandlerOk(cfg, asked, delay, st.log, st.clock, t, h)
    ensures HandlerOk(cfg, asked, delay, st.log, st.clock, t, st'.handlers[t])
  {
    StoreCovers(cfg, st, t, h, st');
  }

  lemma StoreFillsSlot(cfg: Config, asked: set<Query>, delay: Time, st: State, t: Tid, h: Handler, st': State)
    requires StepStore(cfg, st, t, h) == Some(st') && CacheOk(cfg, delay, st.log, st.clock, st.cache)
    requires PcOk(cfg, delay, st.log, st.clock, t, h.req, h.start, h.pc)
    ensures CacheOk(cfg, delay, st.log, st.clock, st'.cache)
  {
  }

  lemma FinishIsOk(cfg: Config, asked: set<Query>, delay: Time, st: State, t: Tid, h: Handler, st': State)
    requires StepFinish(st, t, h) == Some(st')
    requires HandlerOk(cfg, asked, delay, st.log, st.clock, t, h)
    ensures HandlerOk(cfg, asked, delay, st.log, st.clock, t, st'.handlers[t])
  {
    FinishCovers(st, t, h, st');
  }

  /** What the apiserver answers is what it says. */
  lemma AnswerIsSaid(cfg: Config, asked: set<Query>, st: State, t: Tid, req: Request, c: Call, fault: Fault, i: nat)
    requires Trustworthy(cfg, asked) && i < |req.checks| && (c.Rules? ==> req.BatchableIn(i, c.ns))
    ensures Said(cfg, AnswerFor(cfg, st, t, req, c, fault, i))
  {
  }

  lemma AnswersAreSaid(cfg: Config, asked: set<Query>, st: State, t: Tid, h: Handler, c: Call, fault: Fault)
    requires Trustworthy(cfg, asked) && LogOk(cfg, asked, st.log, st.clock)
    requires forall i :: 0 <= i < |h.req.checks| ==> h.req.At(i) in asked
    requires CallOk(h.req, c)
    ensures LogOk(cfg, asked, st.log + LoggedAnswers(cfg, st, t, h.req, c, fault), st.clock)
  {
    var log := st.log + LoggedAnswers(cfg, st, t, h.req, c, fault);
    forall n | 0 <= n < |log| ensures Said(cfg, log[n]) && log[n].query in asked && log[n].clock <= st.clock {
      if n >= |st.log| {
        assert c.Indices()[n - |st.log|] in c.Indices();
        AnswerIsSaid(cfg, asked, st, t, h.req, c, fault, c.Indices()[n - |st.log|]);
      }
    }
  }

  lemma LoggedAnswersOk(cfg: Config, st: State, t: Tid, req: Request, start: Time, c: Call, fault: Fault,
                        answers: seq<CanIResult>)
    requires CallOk(req, c) && start <= st.clock && |answers| == |c.Indices()|
    requires forall j :: 0 <= j < |answers| ==> answers[j] == LoggedAnswers(cfg, st, t, req, c, fault)[j].result
    ensures AnswersOk(st.log + LoggedAnswers(cfg, st, t, req, c, fault), t, req, start, c.Indices(), answers, |st.log|)
  {
    var log, idxs := st.log + LoggedAnswers(cfg, st, t, req, c, fault), c.Indices();
    forall j | 0 <= j < |idxs| ensures OwnAnswer(log, t, req, start, idxs[j], answers[j], |st.log| + j) {
      assert idxs[j] in idxs && log[|st.log| + j] == AnswerFor(cfg, st, t, req, c, fault, idxs[j]);
    }
  }

  /** The call returns: the answers in hand are the ones logged. */
  lemma AskLogs(cfg: Config, st: State, t: Tid, h: Handler, fault: Fault, st': State)
    requires StepAsk(cfg, st, t, h, fault) == Some(st') && !fault.Canceled? && h.start <= st.clock
    requires WorkOk(h.req, h.pc.work)
    ensures CallOk(h.req, h.pc.work[0]) && st'.log == st.log + LoggedAnswers(cfg, st, t, h.req, h.pc.work[0], fault)
    ensures var h' := st'.handlers[t];
            && h'.pc.Stamping? && h'.pc.work == h.pc.work[1..] && h'.pc.j < |h'.pc.answers|
            && AnswersOk(st'.log, t, h.req, h.start, h'.pc.call.Indices(), h'.pc.answers, h'.pc.base)
  {
    assert CallOk(h.req, h.pc.work[0]);
    LoggedAnswersOk(cfg, st, t, h.req, h.start, h.pc.work[0], fault, st'.handlers[t].pc.answers);
  }

  lemma AskedPcIsOk(cfg: Config, delay: Time, log: seq<Answer>, clock: Time, t: Tid, h: Handler, h': Handler)
    requires PcOk(cfg, delay, log, clock, t, h.req, h.start, h.pc) && h.pc.Working? && h.pc.work != []
    requires h'.pc.Stamping? && h'.pc.work == h.pc.work[1..] && h'.pc.j < |h'.pc.answers|
    requires AnswersOk(log, t, h.req, h.start, h'.pc.call.Indices(), h'.pc.answers, h'.pc.base)
    ensures PcOk(cfg, delay, log, clock, t, h.req, h.start, h'.pc)
  {
  }

  lemma AskIsOk(cfg: Config, asked: set<Query>, delay: Time, st: State, t: Tid, h: Handler, fault: Fault, st': State)
    requires StepAsk(cfg, st, t, h, fault) == Some(st') && Trustworthy(cfg, asked)
             && LogOk(cfg, asked, st.log, st.clock)
    requires HandlerOk(cfg, asked, delay, st.log, st.clock, t, h)
    ensures st.log <= st'.log && LogOk(cfg, asked, st'.log, st.clock)
    ensures HandlerOk(cfg, asked, delay, st'.log, st.clock, t, st'.handlers[t])
  {
    AskCovers(cfg, st, t, h, fault, st');
    if !fault.Canceled? {
      var h' := st'.handlers[t];
      AskLogs(cfg, st, t, h, fault, st');
      AnswersAreSaid(cfg, asked, st, t, h, h.pc.work[0], fault);
      HandlerStaysOk(cfg, asked, delay, st.log, st.clock, st'.log, st.clock, t, h);
      AskedPcIsOk(cfg, delay, st'.log, st.clock, t, h, h');
    }
  }

  // Every run.

  /** What a request's step leaves alone. */
  lemma MoveFrame(cfg: Config, st: State, t: Tid, h: Handler, op: Op, st': State)
    requires StepMove(cfg, st, t, h, op) == Some(st')
    ensures t in st'.handlers && st'.handlers == st.handlers[t := st'.handlers[t]]
    ensures st'.handlers[t].req == h.req && st'.handlers[t].start == h.start
    ensures st'.clock == st.clock && st'.version == st.version
    ensures !op.Ask? ==> st'.log == st.log
    ensures !op.Drop? && !op.Store? ==> st'.cache == st.cache
    ensures op.Drop? ==> forall k :: k in st'.cache ==> k in st.cache && st'.cache[k] == st.cache[k]
  {
  }

  lemma MoveIsOk(cfg: Config, asked: set<Query>, delay: Time, st: State, t: Tid, h: Handler, op: Op, st': State)
    requires StepMove(cfg, st, t, h, op) == Some(st') && Trustworthy(cfg, asked)
    requires LogOk(cfg, asked, st.log, st.clock) && CacheOk(cfg, delay, st.log, st.clock, st.cache)
    requires HandlerOk(cfg, asked, delay, st.log, st.clock, t, h)
    requires Timely(delay, st, h, op)
    ensures st.log <= st'.log && LogOk(cfg, asked, st'.log, st.clock)
    ensures t in st'.handlers && HandlerOk(cfg, asked, delay, st'.log, st.clock, t, st'.handlers[t])
  {
    MoveFrame(cfg, st, t, h, op, st');
    if op.Load? {
      LoadIsOk(cfg, asked, delay, st, t, h, st');
    } else if op.CheckClock? {
      CheckIsOk(cfg, asked, delay, st, t, h, st');
    } else if op.Drop? {
      DropIsOk(cfg, asked, delay, st, t, h, st');
    } else if op.Route? {
      RouteIsOk(cfg, asked, delay, st, t, h, op.plan, st');
    } else if op.Ask? {
      AskIsOk(cfg, asked, delay, st, t, h, op.fault, st');
    } else if op.Stamp? {
      StampIsOk(cfg, asked, delay, st, t, h, st');
    } else if op.Store? {
      StoreIsOk(cfg, asked, delay, st, t, h, st');
    } else {
      FinishIsOk(cfg, asked, delay, st, t, h, st');
    }
  }

  lemma MoveKeepsCache(cfg: Config, asked: set<Query>, delay: Time, st: State, t: Tid, h: Handler, op: Op, st': State)
    requires StepMove(cfg, st, t, h, op) == Some(st') && CacheOk(cfg, delay, st.log, st.clock, st.cache)
    requires PcOk(cfg, delay, st.log, st.clock, t, h.req, h.start, h.pc) && st.log <= st'.log
    ensures CacheOk(cfg, delay, st'.log, st.clock, st'.cache)
  {
    MoveFrame(cfg, st, t, h, op, st');
    if op.Store? {
      StoreFillsSlot(cfg, asked, delay, st, t, h, st');
    } else {
      CacheStaysOk(cfg, delay, st.log, st.clock, st'.log, st.clock, st.cache);
    }
  }

  lemma MoveIsSound(cfg: Config, asked: set<Query>, delay: Time, st: State, t: Tid, h: Handler, op: Op, st': State)
    requires t in st.handlers && st.handlers[t] == h && StepMove(cfg, st, t, h, op) == Some(st')
    requires Timely(delay, st, h, op) && Trustworthy(cfg, asked) && Sound(cfg, asked, delay, st)
    ensures Sound(cfg, asked, delay, st')
  {
    MoveFrame(cfg, st, t, h, op, st');
    MoveIsOk(cfg, asked, delay, st, t, h, op, st');
    MoveKeepsCache(cfg, asked, delay, st, t, h, op, st');
    FrameIsSound(cfg, asked, delay, st, t, st');
  }

  /** Time passes, or the policy changes. */
  lemma OthersAreSound(cfg: Config, asked: set<Query>, delay: Time, st: State, clock: Time, version: nat)
    requires Sound(cfg, asked, delay, st) && st.clock <= clock
    ensures Sound(cfg, asked, delay, st.(clock := clock, version := version))
  {
    CacheStaysOk(cfg, delay, st.log, st.clock, st.log, clock, st.cache);
    FrameIsSound(cfg, asked, delay, st, 0, st.(clock := clock, version := version));
  }

  /** A request that comes has everything before it. */
  lemma ArriveIsSound(cfg: Config, asked: set<Query>, delay: Time, st: State, t: Tid, req: Request, st': State)
    requires Step(cfg, st, Arrive(t, req)) == Some(st') && Expected(asked, delay, st, Arrive(t, req))
    requires Sound(cfg, asked, delay, st)
    ensures Sound(cfg, asked, delay, st')
  {
    FrameIsSound(cfg, asked, delay, st, t, st');
  }

  /** Every step of every request, of the policy and of the clock keeps the invariant: each cached or
      returned result is a logged answer to the same question, stored within the delay. */
  lemma StepIsSound(cfg: Config, asked: set<Query>, delay: Time, st: State, e: Event, st': State)
    requires Step(cfg, st, e) == Some(st') && Expected(asked, delay, st, e)
    requires Trustworthy(cfg, asked) && Sound(cfg, asked, delay, st)
    ensures Sound(cfg, asked, delay, st')
  {
    if e.Move? {
      MoveIsSound(cfg, asked, delay, st, e.t, st.handlers[e.t], e.op, st');
    } else if e.Arrive? {
      ArriveIsSound(cfg, asked, delay, st, e.t, e.req, st');
    } else {
      OthersAreSound(cfg, asked, delay, st, st'.clock, st'.version);
    }
  }

  lemma RunStepIsSound(cfg: Config, asked: set<Query>, delay: Time, r: Run, i: nat)
    requires IsRun(cfg, asked, delay, r) && Trustworthy(cfg, asked) && i < |r.events|
    requires Sound(cfg, asked, delay, r.states[i])
    ensures Sound(cfg, asked, delay, r.states[i + 1])
  {
    StepIsSound(cfg, asked, delay, r.states[i], r.events[i], r.states[i + 1]);
  }

  lemma {:induction false} RunIsSound(cfg: Config, asked: set<Query>, delay: Time, r: Run, i: nat)
    requires IsRun(cfg, asked, delay, r) && Trustworthy(cfg, asked) && i < |r.states|
    ensures Sound(cfg, asked, delay, r.states[i])
  {
    if i > 0 {
      RunIsSound(cfg, asked, delay, r, i - 1);
      RunStepIsSound(cfg, asked, delay, r, i - 1);
    }
  }

  // No request is ever stuck.

  function Added(plan: seq<Call>, c: Call): seq<Call> {
    if c in plan then plan else if c.Rules? then [c] + plan else plan + [c]
  }

  lemma AddedKeepsOrder(plan: seq<Call>, c: Call)
    requires InOrder(plan)
    ensures InOrder(Added(plan, c)) && forall d :: d in Added(plan, c) <==> d in plan || d == c
  {
  }

  /** The calls for the first `k` pending indices. */
  lemma {:induction false} PlanFor(req: Request, pending: seq<nat>, k: nat) returns (plan: seq<Call>)
    requires k <= |pending| && forall i :: i in pending ==> i < |req.checks|
    ensures InOrder(plan)
    ensures forall i :: i in pending[..k] ==> i < |req.checks| && CallFor(req, pending, i) in plan
    ensures forall c :: c in plan ==> exists i :: i in pending && i < |req.checks| && c == CallFor(req, pending, i)
  {
    if k == 0 {
      plan := [];
    } else {
      var i := pending[k - 1];
      assert i in pending && pending[..k] == pending[..k - 1] + [i];
      var rest := PlanFor(req, pending, k - 1);
      AddedKeepsOrder(rest, CallFor(req, pending, i));
      plan := Added(rest, CallFor(req, pending, i));
    }
  }

  /** Whatever is pending can be routed. */
  lemma PlanExists(req: Request, pending: seq<nat>) returns (plan: seq<Call>)
    requires forall i :: i in pending ==> i < |req.checks|
    ensures IsPlan(req, pending, plan)
  {
    plan := PlanFor(req, pending, |pending|);
    assert pending[..|pending|] == pending;
  }

  lemma ScanGoesOn(cfg: Config, st: State, t: Tid, h: Handler) returns (op: Op)
    requires h.pc.Scanning? && Covered(h)
    ensures StepMove(cfg, st, t, h, op).Some?
  {
    if h.pc.i < |h.req.checks| {
      op := Load;
    } else {
      var plan := PlanExists(h.req, h.pending);
      op := Route(plan);
    }
  }

  lemma WorkGoesOn(cfg: Config, st: State, t: Tid, h: Handler) returns (op: Op)
    requires h.pc.Working? && WorkOk(h.req, h.pc.work)
    ensures StepMove(cfg, st, t, h, op).Some?
  {
    if h.pc.work == [] {
      op := Finish;
    } else {
      assert CallOk(h.req, h.pc.work[0]);
      op := Ask(NoFault);
    }
  }

  lemma HandGoesOn(cfg: Config, st: State, t: Tid, h: Handler) returns (op: Op)
    requires h.pc.Stamping? || h.pc.Storing?
    requires AnswersOk(st.log, t, h.req, h.start, h.pc.call.Indices(), h.pc.answers, h.pc.base)
             && h.pc.j < |h.pc.answers|
    ensures StepMove(cfg, st, t, h, op).Some?
  {
    var pc := h.pc;
    assert OwnAnswer(st.log, t, h.req, h.start, pc.call.Indices()[pc.j], pc.answers[pc.j], pc.base + pc.j);
    op := if pc.Stamping? then Stamp else Store;
  }

  lemma EntryGoesOn(cfg: Config, st: State, t: Tid, h: Handler) returns (op: Op)
    requires h.pc.Loaded? || (h.pc.Dropping? && h.pc.i < |h.req.checks|)
    ensures StepMove(cfg, st, t, h, op).Some?
  {
    op := if h.pc.Loaded? then CheckClock else Drop;
  }

  lemma RequestGoesOn(cfg: Config, delay: Time, st: State, t: Tid, h: Handler) returns (op: Op)
    requires Covered(h) && PcOk(cfg, delay, st.log, st.clock, t, h.req, h.start, h.pc) && !h.pc.Done? && !h.pc.Gone?
    ensures StepMove(cfg, st, t, h, op).Some?
  {
    if h.pc.Scanning? {
      op := ScanGoesOn(cfg, st, t, h);
    } else if h.pc.Working? {
      op := WorkGoesOn(cfg, st, t, h);
    } else if h.pc.Loaded? || h.pc.Dropping? {
      op := EntryGoesOn(cfg, st, t, h);
    } else {
      op := HandGoesOn(cfg, st, t, h);
    }
  }

  /** A request that is neither done nor gone can take its next step, in every state of every run. */
  lemma NeverStuck(cfg: Config, asked: set<Query>, delay: Time, r: Run, i: nat, t: Tid) returns (op: Op)
    requires IsRun(cfg, asked, delay, r) && Trustworthy(cfg, asked) && i < |r.states| && t in r.states[i].handlers
    requires !r.states[i].handlers[t].pc.Done? && !r.states[i].handlers[t].pc.Gone?
    ensures StepMove(cfg, r.states[i], t, r.states[i].handlers[t], op).Some?
  {
    var st := r.states[i];
    RunIsSound(cfg, asked, delay, r, i);
    assert HandlerOk(cfg, asked, delay, st.log, st.clock, t, st.handlers[t]);
    op := RequestGoesOn(cfg, delay, st, t, st.handlers[t]);
  }
}
