/**
  Which of Middleware's steps break the single use of refresh tokens: exactly those that are not
  Harmless. After one of them a FreshIDToken call can be led to present a spent token; after any other
  step nobody can.
  */
module SingleUse {
  import opened Sequences
  import opened Wrappers
  import opened SessionStore
  import opened SessionProtocol
  import opened SessionSafety
  import opened SingleFlight

  /** `r` goes on from `st` by admitted events. */
  ghost predicate Continues(cfg: Config, st: State, r: Run) {
    && |r.states| == |r.events| + 1 && r.states[0] == st
    && forall i :: 0 <= i < |r.events| ==>
         Step(cfg, r.states[i], r.events[i]) == Some(r.states[i + 1]) && Admitted(cfg, r.states[i], r.events[i])
  }

  ghost predicate Reaches(cfg: Config, st: State, st': State) {
    exists r :: Continues(cfg, st, r) && r.states[|r.events|] == st'
  }

  /** The token was redeemed, and later redeemed again. */
  ghost predicate RedeemedAgain(log: seq<Redemption>, rt: string) {
    exists i, j :: 0 <= i < j < |log| && log[i].ok && log[j].ok && log[i].refreshToken == rt == log[j].refreshToken
  }

  /** From here a spent token can be presented again ... */
  ghost predicate CanPresentSpent(cfg: Config, st: State) {
    exists st' :: Reaches(cfg, st, st') && !OnceSpent(st'.log)
  }

  /** ... and, if the provider lets it pass, this one can be redeemed again. */
  ghost predicate CanRedeemAgain(cfg: Config, st: State, rt: string) {
    exists st' :: Reaches(cfg, st, st') && RedeemedAgain(st'.log, rt)
  }

  lemma AgainIsSpent(cfg: Config, st: State, rt: string)
    requires CanRedeemAgain(cfg, st, rt)
    ensures CanPresentSpent(cfg, st)
  {
    var st' :| Reaches(cfg, st, st') && RedeemedAgain(st'.log, rt);
    assert !OnceSpent(st'.log);
  }

  lemma ReachesItself(cfg: Config, st: State)
    ensures Reaches(cfg, st, st)
  {
    assert Continues(cfg, st, Run([st], [])) && Run([st], []).states[|Run([st], []).events|] == st;
  }

  lemma ReachesNext(cfg: Config, st: State, a: State, e: Event, b: State)
    requires Reaches(cfg, st, a) && Step(cfg, a, e) == Some(b) && Admitted(cfg, a, e)
    ensures Reaches(cfg, st, b)
  {
    var r :| Continues(cfg, st, r) && r.states[|r.events|] == a;
    RunExtends(cfg, st, r, e, b);
    assert Run(r.states + [b], r.events + [e]).states[|r.events| + 1] == b;
  }

  lemma RunExtends(cfg: Config, st: State, r: Run, e: Event, b: State)
    requires Continues(cfg, st, r)
    requires Step(cfg, r.states[|r.events|], e) == Some(b) && Admitted(cfg, r.states[|r.events|], e)
    ensures Continues(cfg, st, Run(r.states + [b], r.events + [e]))
  {
    var states, events := r.states + [b], r.events + [e];
    forall i | 0 <= i < |events|
      ensures Step(cfg, states[i], events[i]) == Some(states[i + 1]) && Admitted(cfg, states[i], events[i])
    {
      if i < |r.events| {
        assert states[i] == r.states[i] && states[i + 1] == r.states[i + 1] && events[i] == r.events[i];
      } else {
        assert states[i] == r.states[|r.events|] && events[i] == e && states[i + 1] == b;
      }
    }
  }

  // After a harmless step.

  lemma {:induction false} FlightContinues(cfg: Config, st: State, r: Run, i: nat)
    requires Flight(cfg, st) && Continues(cfg, st, r) && i < |r.states|
    ensures Flight(cfg, r.states[i])
  {
    if i > 0 {
      FlightContinues(cfg, st, r, i - 1);
      FlightStep(cfg, r.states[i - 1], r.events[i - 1], r.states[i]);
    }
  }

  lemma FlightPresentsOnce(cfg: Config, st: State)
    requires Flight(cfg, st)
    ensures !CanPresentSpent(cfg, st)
  {
    forall st' | Reaches(cfg, st, st') ensures OnceSpent(st'.log) {
      var r :| Continues(cfg, st, r) && r.states[|r.events|] == st';
      FlightContinues(cfg, st, r, |r.events|);
    }
  }

  // After a harmful one.

  /** The refresh token that will be in the store once the lock of the session is free. */
  ghost function NextStored(cfg: Config, st: State, sid: SessionId): string
    requires sid in st.store
  {
    if BeingReplaced(cfg, st, sid) then st.threads[st.locks[cfg.shard(sid)]].sess.refreshToken
    else st.store[sid].refreshToken
  }

  /** The session is about to have the spent token `rt` in the store, or has it there. */
  ghost predicate Doomed(cfg: Config, st: State, sid: SessionId, rt: string) {
    && Safe(cfg, st) && LocksOk(cfg, st) && "" !in Spent(st.log)
    && sid != "" && sid in st.store && NextStored(cfg, st, sid) == rt && rt in Spent(st.log)
  }

  /** How many steps a thread in its critical section is from leaving it, at most. */
  function Rank(pc: PC): nat {
    if pc.FHolding? then 5
    else if pc.FHeldGot? then 4
    else if pc.FSpending? || pc.FStoring? then 3
    else if pc.FConfirming? then 2
    else if pc.FLeaving? then 1
    else 0
  }

  /** The step that brings it there, with any refresh failing. */
  function WayOut(pc: PC): FreshOp {
    if pc.FHolding? then FReGet
    else if pc.FHeldGot? then FSlowCheck
    else if pc.FSpending? then FRefresh(None)
    else if pc.FStoring? then FUpdate
    else if pc.FConfirming? then FFinalCheck
    else FUnlock
  }

  lemma WayOutGoes(cfg: Config, st: State, t: Tid, pc: PC) returns (st': State)
    requires Critical(pc)
    ensures StepFresh(cfg, st, t, WayOut(pc), pc) == Some(st')
    ensures t in st'.threads && Rank(st'.threads[t]) < Rank(pc) && !st'.threads[t].FStoring?
    ensures Spent(st'.log) == Spent(st.log)
    ensures st'.store == if pc.FStoring? then Updated(st.store, pc.sess) else st.store
  {
    st' := StepFresh(cfg, st, t, WayOut(pc), pc).value;
    if pc.FSpending? {
      SpentGrows(st.log, Redemption(pc.sess.id, pc.sess.refreshToken, false));
    }
  }

  /** No step of the lock's holder changes what will be stored. */
  lemma HolderKeepsNext(cfg: Config, st: State, sid: SessionId, u: Tid, pc: PC, st': State)
    requires sid in st.store && cfg.shard(sid) in st.locks && st.locks[cfg.shard(sid)] == u
    requires u in st.threads && st.threads[u] == pc && (pc.FStoring? ==> pc.sess.id == pc.sid)
    requires u in st'.threads && !st'.threads[u].FStoring?
    requires st'.locks == st.locks || st'.locks == st.locks - {cfg.shard(sid)}
    requires st'.store == if pc.FStoring? then Updated(st.store, pc.sess) else st.store
    ensures sid in st'.store && NextStored(cfg, st', sid) == NextStored(cfg, st, sid)
  {
    assert BeingReplaced(cfg, st, sid) <==> pc.FStoring? && pc.sid == sid;
    assert !BeingReplaced(cfg, st', sid);
  }

  /** The holder of the session's lock takes a step; the token to be stored is the same. */
  lemma HolderSteps(cfg: Config, st: State, sid: SessionId, rt: string) returns (e: Event, st': State)
    requires Doomed(cfg, st, sid, rt) && cfg.shard(sid) in st.locks
    ensures Step(cfg, st, e) == Some(st') && Admitted(cfg, st, e) && Doomed(cfg, st', sid, rt)
    ensures var u := st.locks[cfg.shard(sid)];
            cfg.shard(sid) in st'.locks ==>
              st'.locks[cfg.shard(sid)] == u && u in st.threads && u in st'.threads
              && Rank(st'.threads[u]) < Rank(st.threads[u])
  {
    var u := st.locks[cfg.shard(sid)];
    var pc := st.threads[u];
    e := Fresh(u, WayOut(pc));
    st' := WayOutGoes(cfg, st, u, pc);
    assert ThreadOk(cfg, st, pc);
    SafeStep(cfg, st, e, st');
    StepKeepsLocks(cfg, st, e, st');
    FreshLocks(cfg, st, u, WayOut(pc), pc, st');
    HolderKeepsNext(cfg, st, sid, u, pc, st');
  }

  lemma {:induction false} LockComesFree(cfg: Config, from: State, st: State, sid: SessionId, rt: string, rank: nat)
    returns (st': State)
    requires Reaches(cfg, from, st) && Doomed(cfg, st, sid, rt)
    requires cfg.shard(sid) in st.locks ==>
               st.locks[cfg.shard(sid)] in st.threads && Rank(st.threads[st.locks[cfg.shard(sid)]]) <= rank
    ensures Reaches(cfg, from, st') && Doomed(cfg, st', sid, rt) && cfg.shard(sid) !in st'.locks
    decreases rank
  {
    if cfg.shard(sid) !in st.locks {
      st' := st;
    } else {
      var e, next := HolderSteps(cfg, st, sid, rt);
      ReachesNext(cfg, from, st, e, next);
      if cfg.shard(sid) in next.locks {
        st' := LockComesFree(cfg, from, next, sid, rt, rank - 1);
      } else {
        st' := next;
      }
    }
  }

  /** Time passes until a token is stale. */
  lemma TimePasses(cfg: Config, from: State, st: State, token: string) returns (st': State)
    requires Reaches(cfg, from, st)
    ensures Reaches(cfg, from, st') && st' == st.(clock := st'.clock) && ExpSoon(cfg, token, st'.clock)
  {
    var exp := cfg.jwtExp(token);
    var to := if exp.Some? && exp.value > st.clock then exp.value else st.clock;
    st' := st.(clock := to);
    ReachesNext(cfg, from, st, Tick(to), st');
  }

  /** A new FreshIDToken call finds the id_token stale ... */
  lemma CallWaits(cfg: Config, from: State, st: State, t: Tid, sid: SessionId) returns (st': State)
    requires Reaches(cfg, from, st) && sid != "" && sid in st.store && t !in st.threads
    requires ExpSoon(cfg, st.store[sid].idToken, st.clock)
    ensures Reaches(cfg, from, st') && st' == Goto(st, t, FWaiting(sid))
  {
    var s1 := Goto(st, t, FStart(sid));
    var s2 := Goto(s1, t, FGot(sid, Some(st.store[sid])));
    st' := Goto(s2, t, FWaiting(sid));
    ReachesNext(cfg, from, st, FCall(t, sid), s1);
    ReachesNext(cfg, from, s1, Fresh(t, FGet), s2);
    ReachesNext(cfg, from, s2, Fresh(t, FFastCheck), st');
    assert st'.threads == st.threads[t := FWaiting(sid)];
  }

  /** ... takes the session's lock, looks again and has to refresh ... */
  lemma CallSpends(cfg: Config, from: State, st: State, t: Tid, sid: SessionId) returns (st': State)
    requires Reaches(cfg, from, st) && sid in st.store && st.store[sid].refreshToken != ""
    requires t in st.threads && st.threads[t] == FWaiting(sid) && cfg.shard(sid) !in st.locks
    requires ExpSoon(cfg, st.store[sid].idToken, st.clock)
    ensures Reaches(cfg, from, st')
    ensures st' == Goto(st.(locks := st.locks[cfg.shard(sid) := t]), t, FSpending(sid, st.store[sid]))
  {
    var s1 := Goto(st.(locks := st.locks[cfg.shard(sid) := t]), t, FHolding(sid));
    var s2 := Goto(s1, t, FHeldGot(sid, Some(st.store[sid])));
    st' := Goto(s2, t, FSpending(sid, st.store[sid]));
    ReachesNext(cfg, from, st, Fresh(t, FLock), s1);
    ReachesNext(cfg, from, s1, Fresh(t, FReGet), s2);
    ReachesNext(cfg, from, s2, Fresh(t, FSlowCheck), st');
    assert st'.threads == st.threads[t := FSpending(sid, st.store[sid])];
  }

  /** A token response with a new refresh token and no id_token. */
  function Successor(rt: string): Grant {
    Grant("access", rt, "", 0)
  }

  /** ... and redeems what it has in hand, spent or not. */
  lemma CallRedeems(cfg: Config, from: State, st: State, t: Tid)
    requires Reaches(cfg, from, st) && t in st.threads && st.threads[t].FSpending?
    requires st.threads[t].sess.refreshToken in Spent(st.log)
    ensures CanRedeemAgain(cfg, from, st.threads[t].sess.refreshToken)
  {
    var s := st.threads[t].sess;
    var rt := FreshID(st.issued.Keys + {""});
    var e := Fresh(t, FRefresh(Some(Successor(rt))));
    var st' := Step(cfg, st, e).value;
    ReachesNext(cfg, from, st, e, st');
    AgainInLog(st.log, Redemption(s.id, s.refreshToken, true));
  }

  lemma AgainInLog(log: seq<Redemption>, r: Redemption)
    requires r.refreshToken in Spent(log)
    ensures r.ok ==> RedeemedAgain(log + [r], r.refreshToken)
    ensures !OnceSpent(log + [r])
  {
    var i :| 0 <= i < |log| && log[i].ok && log[i].refreshToken == r.refreshToken;
    assert (log + [r])[i] == log[i] && (log + [r])[|log|] == r;
  }

  lemma DoomedRedeemsAgain(cfg: Config, from: State, st: State, sid: SessionId, rt: string)
    requires Reaches(cfg, from, st) && Doomed(cfg, st, sid, rt)
    ensures CanRedeemAgain(cfg, from, rt)
  {
    var free := LockComesFree(cfg, from, st, sid, rt, 5);
    var late := TimePasses(cfg, from, free, free.store[sid].idToken);
    var t := FreshNat(late.threads.Keys);
    var waiting := CallWaits(cfg, from, late, t, sid);
    var spending := CallSpends(cfg, from, waiting, t, sid);
    CallRedeems(cfg, from, spending, t);
  }

  /** A call that holds a spent token presents it. */
  lemma HandRedeemsAgain(cfg: Config, st: State, t: Tid, rt: string)
    requires t in st.threads && MayPresent(st.threads[t], rt) && rt != "" && rt in Spent(st.log)
    ensures CanRedeemAgain(cfg, st, rt)
  {
    ReachesItself(cfg, st);
    var pc := st.threads[t];
    if pc.FSpending? {
      CallRedeems(cfg, st, st, t);
    } else {
      var late := TimePasses(cfg, st, st, pc.got.value.idToken);
      var spending := Goto(late, t, FSpending(pc.sid, pc.got.value));
      ReachesNext(cfg, st, late, Fresh(t, FSlowCheck), spending);
      CallRedeems(cfg, st, spending, t);
    }
  }

  lemma HarmfulUpdate(cfg: Config, st: State, t: Tid, st': State)
    requires Flight(cfg, st) && Step(cfg, st, Guard(t, MUpdate)) == Some(st') && !Harmless(cfg, st, Guard(t, MUpdate))
    ensures CanRedeemAgain(cfg, st', st.threads[t].sess.refreshToken)
  {
    var s := st.threads[t].sess;
    SafeStep(cfg, st, Guard(t, MUpdate), st');
    StepKeepsLocks(cfg, st, Guard(t, MUpdate), st');
    GuardFrame(cfg, st, t, MUpdate, st.threads[t], st');
    assert !BeingReplaced(cfg, st', s.id);
    assert Descends(st.born, s.id, st.store[s.id]);
    ReachesItself(cfg, st');
    DoomedRedeemsAgain(cfg, st', st', s.id, s.refreshToken);
  }

  lemma GuardKeepsSafe(cfg: Config, st: State, t: Tid, op: GuardOp, st': State)
    requires Safe(cfg, st) && LocksOk(cfg, st)
    requires t in st.threads && StepGuard(cfg, st, t, op, st.threads[t]) == Some(st')
    ensures Safe(cfg, st') && LocksOk(cfg, st')
  {
    GuardSafe(cfg, st, t, op, st');
    GuardKeepsLocks(cfg, st, t, op, st');
  }

  /** What the store has, or is about to have, is the session's latest token. */
  lemma LatestIsStored(cfg: Config, st: State, latest: Sessions, sid: SessionId, s: Session)
    requires Tracks(cfg, st, latest) && LocksOk(cfg, st) && sid in st.store
    requires Known(st.issued, Spent(st.log), latest, sid, s) && s.refreshToken !in Spent(st.log)
    ensures NextStored(cfg, st, sid) == s.refreshToken
  {
    assert ShelfOk(cfg, st, latest, sid);
    if BeingReplaced(cfg, st, sid) {
      assert HandOk(cfg, st, latest, st.threads[st.locks[cfg.shard(sid)]]);
    }
  }

  lemma SeenIsNext(cfg: Config, st: State, latest: Sessions, t: Tid, pc: PC)
    requires Tracks(cfg, st, latest) && LocksOk(cfg, st) && t in st.threads && st.threads[t] == pc
    requires pc.MRefreshing? && pc.seen.refreshToken !in Spent(st.log) && pc.sid in st.store
    ensures NextStored(cfg, st, pc.sid) == pc.seen.refreshToken != ""
  {
    assert HandOk(cfg, st, latest, pc);
    LatestIsStored(cfg, st, latest, pc.sid, pc.seen);
  }

  lemma StoredIsNamed(cfg: Config, st: State, sid: SessionId)
    requires Safe(cfg, st) && "" !in st.born && sid in st.store
    ensures sid != ""
  {
    assert Descends(st.born, sid, st.store[sid]);
  }

  /** Middleware spends that token. */
  lemma RefreshDooms(cfg: Config, st: State, latest: Sessions, t: Tid, g: Grant, pc: PC, st': State)
    requires Safe(cfg, st) && LocksOk(cfg, st) && Tracks(cfg, st, latest) && "" !in st.born && "" !in Spent(st.log)
    requires t in st.threads && st.threads[t] == pc && StepGuard(cfg, st, t, MRefresh(Some(g)), pc) == Some(st')
    requires pc.seen.refreshToken !in Spent(st.log) && pc.sid in st.store
    ensures Doomed(cfg, st', pc.sid, pc.seen.refreshToken)
  {
    GuardSpends(cfg, st, t, g, pc, st');
    SeenIsNext(cfg, st, latest, t, pc);
    StoredIsNamed(cfg, st, pc.sid);
    SameNext(cfg, st, t, pc.sid, st');
    GuardKeepsSafe(cfg, st, t, MRefresh(Some(g)), st');
  }

  lemma SameNext(cfg: Config, st: State, t: Tid, sid: SessionId, st': State)
    requires t in st.threads && !st.threads[t].FStoring?
    requires t in st'.threads && !st'.threads[t].FStoring? && st'.threads == st.threads[t := st'.threads[t]]
    requires st'.store == st.store && st'.locks == st.locks && sid in st.store
    ensures NextStored(cfg, st', sid) == NextStored(cfg, st, sid)
  {
    assert BeingReplaced(cfg, st', sid) == BeingReplaced(cfg, st, sid);
  }

  lemma SpentRefresh(cfg: Config, st: State, t: Tid, g: Grant, pc: PC, st': State)
    requires StepGuard(cfg, st, t, MRefresh(Some(g)), pc) == Some(st') && pc.seen.refreshToken in Spent(st.log)
    ensures CanRedeemAgain(cfg, st', pc.seen.refreshToken)
  {
    GuardSpends(cfg, st, t, g, pc, st');
    AgainInLog(st.log, Redemption(pc.seen.id, pc.seen.refreshToken, true));
    ReachesItself(cfg, st');
  }

  lemma RefreshBehindCall(cfg: Config, st: State, t: Tid, g: Grant, pc: PC, st': State, u: Tid)
    requires StepGuard(cfg, st, t, MRefresh(Some(g)), pc) == Some(st') && t in st.threads && st.threads[t] == pc
    requires pc.seen.refreshToken != "" && u in st.threads && MayPresent(st.threads[u], pc.seen.refreshToken)
    ensures CanRedeemAgain(cfg, st', pc.seen.refreshToken)
  {
    GuardSpends(cfg, st, t, g, pc, st');
    HandRedeemsAgain(cfg, st', u, pc.seen.refreshToken);
  }

  lemma HarmfulRefresh(cfg: Config, st: State, t: Tid, g: Grant, st': State)
    requires Flight(cfg, st) && t in st.threads && StepGuard(cfg, st, t, MRefresh(Some(g)), st.threads[t]) == Some(st')
    requires !HarmlessRefresh(st, st.threads[t].sid, st.threads[t].seen.refreshToken, true)
    ensures CanRedeemAgain(cfg, st', st.threads[t].seen.refreshToken)
  {
    var pc := st.threads[t];
    var latest :| Tracks(cfg, st, latest);
    if pc.seen.refreshToken in Spent(st.log) {
      SpentRefresh(cfg, st, t, g, pc, st');
    } else if pc.sid in st.store {
      RefreshDooms(cfg, st, latest, t, g, pc, st');
      ReachesItself(cfg, st');
      DoomedRedeemsAgain(cfg, st', st', pc.sid, pc.seen.refreshToken);
    } else {
      assert HandOk(cfg, st, latest, pc);
      var u :| u in st.threads && MayPresent(st.threads[u], pc.seen.refreshToken);
      RefreshBehindCall(cfg, st, t, g, pc, st', u);
    }
  }

  lemma HarmfulFailure(cfg: Config, st: State, t: Tid, st': State)
    requires Step(cfg, st, Guard(t, MRefresh(None))) == Some(st')
    requires !Harmless(cfg, st, Guard(t, MRefresh(None)))
    ensures CanPresentSpent(cfg, st')
  {
    var s := st.threads[t].seen;
    AgainInLog(st.log, Redemption(s.id, s.refreshToken, false));
    ReachesItself(cfg, st');
  }

  /** Whatever led here: after the next step a spent token can be presented again exactly when that step
      is one of Middleware's that are not harmless. */
  lemma SingleUseBreaksExactly(cfg: Config, r: Run, e: Event, st': State)
    requires AdmittedRun(cfg, r) && var st := r.states[|r.events|]; Rotates(st, e) && Step(cfg, st, e) == Some(st')
    ensures CanPresentSpent(cfg, st') <==> !Harmless(cfg, r.states[|r.events|], e)
  {
    var st := r.states[|r.events|];
    FlightRun(cfg, r, |r.events|);
    if Harmless(cfg, st, e) {
      FlightStep(cfg, st, e, st');
      FlightPresentsOnce(cfg, st');
    } else if e.g.MUpdate? || e.g.grant.Some? {
      HarmIsRedemption(cfg, r, e, st');
      AgainIsSpent(cfg, st', Risked(st.threads[e.t], e.g));
    } else {
      HarmfulFailure(cfg, st, e.t, st');
    }
  }

  /** The token that Middleware writes back, or presents. */
  function Risked(pc: PC, op: GuardOp): string {
    if op.MUpdate? && pc.MStoring? then pc.sess.refreshToken
    else if op.MRefresh? && pc.MRefreshing? then pc.seen.refreshToken
    else ""
  }

  /** ... and redeemed again, unless that step is itself a refused presentation: the token is the one written
      back or redeemed. */
  lemma HarmIsRedemption(cfg: Config, r: Run, e: Event, st': State)
    requires AdmittedRun(cfg, r) && Step(cfg, r.states[|r.events|], e) == Some(st')
    requires !Harmless(cfg, r.states[|r.events|], e) && e.g != MRefresh(None)
    ensures CanRedeemAgain(cfg, st', Risked(r.states[|r.events|].threads[e.t], e.g))
  {
    var st := r.states[|r.events|];
    FlightRun(cfg, r, |r.events|);
    if e.g.MUpdate? {
      HarmfulUpdate(cfg, st, e.t, st');
    } else {
      HarmfulRefresh(cfg, st, e.t, e.g.grant.value, st');
    }
  }

  // A run that gets there.

  /** A request passes Middleware's checks and is about to write its session back. */
  lemma RequestChecks(cfg: Config, from: State, st: State, t: Tid, sid: SessionId) returns (st': State)
    requires Reaches(cfg, from, st) && sid != "" && sid in st.store && t !in st.threads
    requires !Lapsed(cfg, st.store[sid], st.clock) && st.store[sid].accessExpiry - st.clock >= ACCESS_TOKEN_SKEW
    ensures Reaches(cfg, from, st')
    ensures st' == Goto(st, t, MStoring(sid, st.store[sid], st.clock, st.store[sid]))
  {
    var s := st.store[sid];
    var s1 := Goto(st, t, MStart(sid));
    var s2 := Goto(s1, t, MGot(sid, Some(s)));
    var s3 := Goto(s2, t, MChecked(sid, s, st.clock));
    st' := Goto(s3, t, MStoring(sid, s, st.clock, s));
    ReachesNext(cfg, from, st, MCall(t, sid), s1);
    ReachesNext(cfg, from, s1, Guard(t, MGet), s2);
    ReachesNext(cfg, from, s2, Guard(t, MCheck), s3);
    ReachesNext(cfg, from, s3, Guard(t, MDecide), st');
    assert st'.threads == st.threads[t := MStoring(sid, s, st.clock, s)];
  }

  /** It writes back a token that is not spent, and is served. */
  lemma RequestIsServed(cfg: Config, from: State, st: State, t: Tid) returns (st': State)
    requires Reaches(cfg, from, st) && t in st.threads && st.threads[t].MStoring?
    requires var pc := st.threads[t]; pc.sess.id in st.store && pc.sess.refreshToken !in Spent(st.log)
    ensures Reaches(cfg, from, st')
    ensures var pc := st.threads[t]; var s := pc.sess.(lastActivity := pc.now);
            st' == Goto(st.(store := st.store[s.id := s]), t, MServing(pc.sid, pc.seen, pc.now, ToIdentity(s)))
  {
    st' := Step(cfg, st, Guard(t, MUpdate)).value;
    ReachesNext(cfg, from, st, Guard(t, MUpdate), st');
  }

  /** A FreshIDToken call redeems the stored token and stores its successor ... */
  lemma CallStores(cfg: Config, from: State, st: State, t: Tid, sid: SessionId, rt: string) returns (st': State)
    requires Reaches(cfg, from, st) && t in st.threads && sid in st.store && st.store[sid].id == sid
    requires st.threads[t] == FSpending(sid, st.store[sid]) && NewToken(st, rt)
    ensures Reaches(cfg, from, st')
    ensures var s := ApplyGrant(st.store[sid], Successor(rt));
            && st'.threads == st.threads[t := FConfirming(sid, s)]
            && st'.store == st.store[sid := s] && st'.locks == st.locks
    ensures st.store[sid].refreshToken in Spent(st'.log)
  {
    var was := st.store[sid];
    var g := Successor(rt);
    var s := ApplyGrant(was, g);
    var s1 := Goto(Redeem(st, was, Some(g)), t, FStoring(sid, s));
    st' := Goto(s1.(store := st.store[sid := s]), t, FConfirming(sid, s));
    ReachesNext(cfg, from, st, Fresh(t, FRefresh(Some(g))), s1);
    ReachesNext(cfg, from, s1, Fresh(t, FUpdate), st');
    SpentGrows(st.log, Redemption(was.id, was.refreshToken, true));
  }

  /** ... and leaves. */
  lemma CallLeaves(cfg: Config, from: State, st: State, t: Tid, sid: SessionId, s: Session) returns (st': State)
    requires Reaches(cfg, from, st) && t in st.threads && st.threads[t] == FConfirming(sid, s)
    ensures Reaches(cfg, from, st') && st'.log == st.log && st'.store == st.store
    ensures st'.locks == st.locks - {cfg.shard(sid)}
    ensures forall u :: u in st.threads && u != t ==> u in st'.threads && st'.threads[u] == st.threads[u]
  {
    var s1 := Step(cfg, st, Fresh(t, FFinalCheck)).value;
    st' := Step(cfg, s1, Fresh(t, FUnlock)).value;
    ReachesNext(cfg, from, st, Fresh(t, FFinalCheck), s1);
    ReachesNext(cfg, from, s1, Fresh(t, FUnlock), st');
  }

  /** The session has just logged in, and nothing else has happened. */
  function LoggedIn(s: Session, now: Time): State {
    Start(now).(store := map[s.id := s], born := map[s.id := s], issued := map[s.refreshToken := s.id])
  }

  /** Two requests pass the checks while the id_token is still good; the second is served. */
  lemma TwoRequests(cfg: Config, s: Session, now: Time) returns (st: State)
    requires s.id != "" && s.refreshToken != ""
    requires !Lapsed(cfg, s, now) && s.accessExpiry - now >= ACCESS_TOKEN_SKEW
    ensures Reaches(cfg, LoggedIn(s, now), st) && st.clock == now && st.log == [] && st.locks == map[]
    ensures st.store == map[s.id := s.(lastActivity := now)]
    ensures st.threads == map[1 := MStoring(s.id, s, now, s),
                              2 := MServing(s.id, s, now, ToIdentity(s.(lastActivity := now)))]
  {
    var from := LoggedIn(s, now);
    ReachesItself(cfg, from);
    var one := RequestChecks(cfg, from, from, 1, s.id);
    var two := RequestChecks(cfg, from, one, 2, s.id);
    st := RequestIsServed(cfg, from, two, 2);
  }

  lemma CallAsks(cfg: Config, from: State, st: State, t: Tid, sid: SessionId) returns (st': State, rt: string)
    requires Reaches(cfg, from, st) && sid != "" && sid in st.store && t !in st.threads && cfg.shard(sid) !in st.locks
    requires st.store[sid].refreshToken != "" && ExpSoon(cfg, st.store[sid].idToken, st.clock)
    ensures Reaches(cfg, from, st') && st'.store == st.store && st'.locks == st.locks[cfg.shard(sid) := t]
    ensures st'.threads == st.threads[t := FSpending(sid, st.store[sid])] && NewToken(st', rt)
  {
    var waiting := CallWaits(cfg, from, st, t, sid);
    st' := CallSpends(cfg, from, waiting, t, sid);
    rt := FreshID(st'.issued.Keys + {""});
  }

  /** A whole FreshIDToken call that finds the id_token stale and the lock free. */
  lemma WholeCall(cfg: Config, from: State, st: State, t: Tid, sid: SessionId) returns (st': State)
    requires Reaches(cfg, from, st) && sid != "" && sid in st.store && t !in st.threads && cfg.shard(sid) !in st.locks
    requires st.store[sid].id == sid && st.store[sid].refreshToken != ""
    requires ExpSoon(cfg, st.store[sid].idToken, st.clock)
    ensures Reaches(cfg, from, st') && cfg.shard(sid) !in st'.locks
    ensures st.store[sid].refreshToken in Spent(st'.log) && sid in st'.store
    ensures forall u :: u in st.threads ==> u in st'.threads && st'.threads[u] == st.threads[u]
  {
    var spending, rt := CallAsks(cfg, from, st, t, sid);
    var stored := CallStores(cfg, from, spending, t, sid, rt);
    st' := CallLeaves(cfg, from, stored, t, sid, stored.threads[t].sess);
  }

  /** The served request goes on to FreshIDToken when the id_token has just become stale, and redeems the
      session's refresh token. */
  lemma SecondRefreshes(cfg: Config, s: Session, exp: Time) returns (served: State, st: State)
    requires cfg.jwtExp(s.idToken) == Some(exp) && s.id != "" && s.refreshToken != ""
    requires var now := exp - ID_TOKEN_SKEW; !Lapsed(cfg, s, now) && s.accessExpiry - now >= ACCESS_TOKEN_SKEW
    ensures Reaches(cfg, LoggedIn(s, exp - ID_TOKEN_SKEW), served) && Reaches(cfg, served, st)
    ensures 2 in served.threads && served.threads[2].MServing? && served.threads[2].sid == s.id
    ensures 1 in st.threads && st.threads[1] == MStoring(s.id, s, exp - ID_TOKEN_SKEW, s)
    ensures s.refreshToken in Spent(st.log) && s.id in st.store && cfg.shard(s.id) !in st.locks
  {
    served := TwoRequests(cfg, s, exp - ID_TOKEN_SKEW);
    var stale := served.(clock := served.clock + 1);
    ReachesItself(cfg, served);
    ReachesNext(cfg, served, served, Tick(served.clock + 1), stale);
    st := WholeCall(cfg, served, stale, 3, s.id);
  }

  /** One run after another. */
  lemma RunsJoin(cfg: Config, st: State, a: Run, b: Run) returns (r: Run)
    requires Continues(cfg, st, a) && Continues(cfg, a.states[|a.events|], b)
    ensures Continues(cfg, st, r) && r.events == a.events + b.events && |a.states| + |b.events| == |r.states|
    ensures a.states <= r.states && r.states[|a.events|..] == b.states && r.states[|r.events|] == b.states[|b.events|]
  {
    r := Run(a.states + b.states[1..], a.events + b.events);
    forall i | 0 <= i < |r.events|
      ensures Step(cfg, r.states[i], r.events[i]) == Some(r.states[i + 1]) && Admitted(cfg, r.states[i], r.events[i])
    {
      if i < |a.events| {
        assert r.states[i] == a.states[i] && r.states[i + 1] == a.states[i + 1] && r.events[i] == a.events[i];
      } else {
        var j := i - |a.events|;
        assert r.states[i] == b.states[j] && r.states[i + 1] == b.states[j + 1] && r.events[i] == b.events[j];
      }
    }
  }

  /** A run from one state to another by way of a third. */
  lemma RunThrough(cfg: Config, st: State, mid: State, end: State) returns (r: Run, k: nat)
    requires Reaches(cfg, st, mid) && Reaches(cfg, mid, end)
    ensures Continues(cfg, st, r) && r.states[|r.events|] == end && k <= |r.events| && r.states[k] == mid
  {
    var a :| Continues(cfg, st, a) && a.states[|a.events|] == mid;
    var b :| Continues(cfg, mid, b) && b.states[|b.events|] == end;
    r := RunsJoin(cfg, st, a, b);
    k := |a.events|;
  }

  /** A run from the login on. */
  lemma RunFromLogin(cfg: Config, s: Session, now: Time, mid: State, end: State) returns (r: Run, k: nat)
    requires s.id != "" && s.refreshToken != ""
    requires Reaches(cfg, LoggedIn(s, now), mid) && Reaches(cfg, mid, end)
    ensures Continues(cfg, Start(now), r) && r.events != [] && r.events[0] == Login(s)
    ensures r.states[|r.events|] == end && k <= |r.events| && r.states[k] == mid
  {
    var login := Run([Start(now), LoggedIn(s, now)], [Login(s)]);
    assert Continues(cfg, Start(now), login);
    var rest;
    rest, k := RunThrough(cfg, LoggedIn(s, now), mid, end);
    r := RunsJoin(cfg, Start(now), login, rest);
    assert r.states[1..][k] == rest.states[k];
    k := k + 1;
  }

  /** For every session with a refresh token and a readable id_token, and every configuration with an OIDC
      client: an admitted run that begins with its login and in which a request for it is served (at `k`);
      then another request's write-back, a nanosecond late, puts the session's first refresh token back, spent
      as it is, and that token can be redeemed again. */
  lemma WriteBackBreaksSingleUse(cfg: Config, s: Session, exp: Time) returns (r: Run, k: nat, st': State)
    requires cfg.hasClient && cfg.jwtExp(s.idToken) == Some(exp) && s.id != "" && s.refreshToken != ""
    requires var now := exp - ID_TOKEN_SKEW; !Lapsed(cfg, s, now) && s.accessExpiry - now >= ACCESS_TOKEN_SKEW
    ensures AdmittedRun(cfg, r) && r.events != [] && r.events[0] == Login(s)
    ensures k <= |r.events| && 2 in r.states[k].threads
            && r.states[k].threads[2].MServing? && r.states[k].threads[2].sid == s.id
    ensures var st := r.states[|r.events|];
            && 1 in st.threads && st.threads[1].MStoring? && st.threads[1].sess == s
            && s.id in st.store && s.refreshToken in Spent(st.log)
            && Step(cfg, st, Guard(1, MUpdate)) == Some(st') && !Harmless(cfg, st, Guard(1, MUpdate))
    ensures CanRedeemAgain(cfg, st', s.refreshToken)
  {
    var served, st := SecondRefreshes(cfg, s, exp);
    r, k := RunFromLogin(cfg, s, exp - ID_TOKEN_SKEW, served, st);
    var e := Guard(1, MUpdate);
    st' := Step(cfg, st, e).value;
    assert !HarmlessUpdate(cfg, st, s);
    HarmIsRedemption(cfg, r, e, st');
  }
}
