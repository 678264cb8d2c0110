/** What a request may say about the store: where its records and its tokens came from. */
module SessionReads {
  import opened Wrappers
  import opened SessionStore
  import opened SessionProtocol
  import opened SessionSafety

  /** The record a request holds exactly as it was in the store. */
  function Observed(pc: PC): Option<(SessionId, Session)> {
    if pc.FGot? || pc.FHeldGot? || pc.MGot? then
      if pc.got.Some? then Some((pc.sid, pc.got.value)) else None
    else if pc.FSpending? || pc.FConfirming? then
      Some((pc.sid, pc.sess))
    else if pc.MChecked? || pc.MRefreshing? || pc.MStoring? || pc.MServing? then
      Some((pc.sid, pc.seen))
    else
      None
  }

  /** The token a FreshIDToken call is about to return or has returned. */
  function Granted(pc: PC): Option<(SessionId, string)> {
    if (pc.FLeaving? || pc.FReturned?) && pc.answer.Token? then Some((pc.sid, pc.answer.idToken)) else None
  }

  /** A record held by the thread that moved was held before, or is in the store as it stands. */
  ghost predicate Explained(st: State, pc: PC, st': State, pc': PC) {
    var o := Observed(pc');
    o.Some? ==>
      || Observed(pc) == o
      || Lookup(st.store, o.value.0) == Some(o.value.1)
      || Lookup(st'.store, o.value.0) == Some(o.value.1)
  }

  lemma FreshObserved(cfg: Config, st: State, t: Tid, op: FreshOp, pc: PC, st': State)
    requires StepFresh(cfg, st, t, op, pc) == Some(st') && ThreadOk(cfg, st, pc)
    ensures t in st'.threads && Explained(st, pc, st', st'.threads[t])
  {
  }

  lemma GuardObserved(cfg: Config, st: State, t: Tid, op: GuardOp, pc: PC, st': State)
    requires StepGuard(cfg, st, t, op, pc) == Some(st') && ThreadOk(cfg, st, pc)
    ensures t in st'.threads && Explained(st, pc, st', st'.threads[t])
  {
  }

  lemma GuardTimes(cfg: Config, st: State, t: Tid, op: GuardOp, pc: PC, st': State)
    requires StepGuard(cfg, st, t, op, pc) == Some(st')
    ensures t in st'.threads && Granted(st'.threads[t]) == None
    ensures var pc' := st'.threads[t]; Timed(pc') ==> if Timed(pc) then pc'.now == pc.now else pc'.now == st.clock
  {
  }

  /** A granted token was granted before, or has just been checked on the record in hand. */
  ghost predicate JustChecked(cfg: Config, st: State, pc: PC, g: (SessionId, string)) {
    && Observed(pc).Some?
    && Observed(pc).value.0 == g.0
    && Observed(pc).value.1.idToken == g.1
    && !ExpSoon(cfg, g.1, st.clock)
  }

  lemma FreshGranted(cfg: Config, st: State, t: Tid, op: FreshOp, pc: PC, st': State)
    requires StepFresh(cfg, st, t, op, pc) == Some(st')
    ensures t in st'.threads && !Timed(st'.threads[t])
    ensures var g := Granted(st'.threads[t]);
            g.Some? ==> Granted(pc) == g || JustChecked(cfg, st, pc, g.value)
  {
  }

  /** Middleware's program points past the timeout checks, where the instant read is in hand. */
  predicate Timed(pc: PC) {
    pc.MChecked? || pc.MRefreshing? || pc.MStoring? || pc.MServing?
  }

  lemma ObservedStep(cfg: Config, st: State, e: Event, st': State, t: Tid)
    requires Step(cfg, st, e) == Some(st') && Safe(cfg, st)
    requires t in st'.threads && Observed(st'.threads[t]).Some?
    ensures t in st.threads && Explained(st, st.threads[t], st', st'.threads[t])
  {
    WhoMoved(cfg, st, e, st', t);
    if t in st.threads && st'.threads[t] != st.threads[t] {
      assert ThreadOk(cfg, st, st.threads[t]);
      if e.Fresh? {
        FreshObserved(cfg, st, t, e.f, st.threads[t], st');
      } else {
        GuardObserved(cfg, st, t, e.g, st.threads[t], st');
      }
    }
  }

  lemma GrantedStep(cfg: Config, st: State, e: Event, st': State, t: Tid)
    requires Step(cfg, st, e) == Some(st') && Safe(cfg, st)
    requires t in st'.threads && Granted(st'.threads[t]).Some?
    ensures t in st.threads
    ensures var g := Granted(st'.threads[t]);
            Granted(st.threads[t]) == g || JustChecked(cfg, st, st.threads[t], g.value)
  {
    WhoMoved(cfg, st, e, st', t);
    if t in st.threads && st'.threads[t] != st.threads[t] {
      assert ThreadOk(cfg, st, st.threads[t]);
      if e.Fresh? {
        FreshGranted(cfg, st, t, e.f, st.threads[t], st');
      } else {
        GuardTimes(cfg, st, t, e.g, st.threads[t], st');
      }
    }
  }

  lemma TimedStep(cfg: Config, st: State, e: Event, st': State, t: Tid)
    requires Step(cfg, st, e) == Some(st') && Safe(cfg, st)
    requires t in st'.threads && Timed(st'.threads[t])
    ensures t in st.threads
    ensures if Timed(st.threads[t]) then st'.threads[t].now == st.threads[t].now
            else st'.threads[t].now == st.clock
  {
    WhoMoved(cfg, st, e, st', t);
    if t in st.threads && st'.threads[t] != st.threads[t] {
      assert ThreadOk(cfg, st, st.threads[t]);
      if e.Fresh? {
        FreshGranted(cfg, st, t, e.f, st.threads[t], st');
      } else {
        GuardTimes(cfg, st, t, e.g, st.threads[t], st');
      }
    }
  }

  lemma {:induction false} ReadDuringTheCall(cfg: Config, r: Run, t: Tid, i: nat) returns (k: nat)
    requires IsRun(cfg, r) && i < |r.states|
    requires t in r.states[i].threads && Observed(r.states[i].threads[t]).Some?
    ensures k <= i && t in r.states[k].threads
    ensures
      var (sid, s) := Observed(r.states[i].threads[t]).value;
      Lookup(r.states[k].store, sid) == Some(s)
  {
    assert i != 0;
    var before, now := r.states[i - 1], r.states[i];
    SafeRun(cfg, r, i - 1);
    ObservedStep(cfg, before, r.events[i - 1], now, t);
    var (sid, s) := Observed(now.threads[t]).value;
    if Observed(before.threads[t]) == Observed(now.threads[t]) {
      k := ReadDuringTheCall(cfg, r, t, i - 1);
    } else if Lookup(before.store, sid) == Some(s) {
      k := i - 1;
    } else {
      k := i;
    }
  }

  /** Whatever path it took, a returned id_token was the session's stored token at some instant
      `k` of the call, and had at least 90 seconds to live when it was checked at `m`. */
  lemma {:induction false} ReturnedTokenIsFresh(cfg: Config, r: Run, t: Tid, i: nat) returns (k: nat, m: nat)
    requires IsRun(cfg, r) && i < |r.states|
    requires t in r.states[i].threads && Granted(r.states[i].threads[t]).Some?
    ensures k <= m < i && t in r.states[k].threads && t in r.states[m].threads
    ensures
      var (sid, tok) := Granted(r.states[i].threads[t]).value;
      && sid in r.states[k].store && r.states[k].store[sid].idToken == tok
      && LivesFor(cfg, tok, r.states[m].clock, 90_000_000_000)
  {
    assert i != 0;
    var before, now := r.states[i - 1], r.states[i];
    SafeRun(cfg, r, i - 1);
    GrantedStep(cfg, before, r.events[i - 1], now, t);
    if Granted(before.threads[t]) == Granted(now.threads[t]) {
      k, m := ReturnedTokenIsFresh(cfg, r, t, i - 1);
    } else {
      m := i - 1;
      k := ReadDuringTheCall(cfg, r, t, i - 1);
    }
  }

  lemma {:induction false} CheckedDuringTheCall(cfg: Config, r: Run, t: Tid, i: nat) returns (m: nat)
    requires IsRun(cfg, r) && i < |r.states| && t in r.states[i].threads
    requires Timed(r.states[i].threads[t])
    ensures m <= i && t in r.states[m].threads && r.states[m].clock == r.states[i].threads[t].now
  {
    assert i != 0;
    SafeRun(cfg, r, i - 1);
    TimedStep(cfg, r.states[i - 1], r.events[i - 1], r.states[i], t);
    if Timed(r.states[i - 1].threads[t]) {
      m := CheckedDuringTheCall(cfg, r, t, i - 1);
    } else {
      m := i - 1;
    }
  }

  /** A request that is given an identity read its session record from the store at `k`, checked it
      against both timeouts with the clock of `m`, and speaks for that record's subject. */
  lemma ServedRequestsWereChecked(cfg: Config, r: Run, t: Tid, i: nat) returns (k: nat, m: nat)
    requires IsRun(cfg, r) && i < |r.states| && t in r.states[i].threads
    requires r.states[i].threads[t].MServing?
    ensures k <= i && m <= i && t in r.states[k].threads && t in r.states[m].threads
    ensures
      var MServing(sid, seen, now, identity) := r.states[i].threads[t];
      && sid in r.states[k].store && r.states[k].store[sid] == seen
      && now == r.states[m].clock
      && now <= seen.absoluteExpiry
      && (cfg.idleTimeout > 0 ==> now - seen.lastActivity <= cfg.idleTimeout)
      && identity == Identity(seen.subject, seen.email, seen.groups)
  {
    k := ReadDuringTheCall(cfg, r, t, i);
    m := CheckedDuringTheCall(cfg, r, t, i);
    SafeRun(cfg, r, i);
    assert ThreadOk(cfg, r.states[i], r.states[i].threads[t]);
  }
}
