/**
  What a call comes to, in numbers and fields: which answer FreshIDToken gives and which identity
  Middleware serves, by what the call read, when it looked at the clock and what the provider said, and
  what either leaves in the store.
  */
module SessionOutcomes {
  import opened Wrappers
  import opened SessionStore
  import opened SessionProtocol
  import opened SessionSafety
  import opened SessionReads
  import opened SessionRefusals
  import opened SingleFlight

  /** The session as a successful refresh leaves it: the provider may omit the refresh and id tokens. */
  predicate Renewed(s: Session, g: Grant, s': Session) {
    && s'.accessToken == g.accessToken && s'.accessExpiry == g.expiry
    && s'.refreshToken == (if g.refreshToken == "" then s.refreshToken else g.refreshToken)
    && s'.idToken == (if g.idToken == "" then s.idToken else g.idToken)
    && s'.id == s.id && s'.subject == s.subject && s'.email == s.email && s'.groups == s.groups
    && s'.absoluteExpiry == s.absoluteExpiry && s'.lastActivity == s.lastActivity
  }

  /** The store with the session replaced, if it is still there. */
  predicate WrittenBack(store: Sessions, s: Session, store': Sessions) {
    && store'.Keys == store.Keys
    && (forall id :: id in store ==> store'[id] == if id == s.id then s else store[id])
  }

  // Logins, logouts and the cleanup.

  /** A login puts its record in the store, a logout takes that session out, the cleanup takes out exactly what is
      past its absolute expiry; none touches another session. */
  lemma EventsChangeStore(cfg: Config, r: Run, i: nat)
    requires IsRun(cfg, r) && i < |r.events|
    ensures var (e, store, store') := (r.events[i], r.states[i].store, r.states[i + 1].store);
            && (e.Login? ==> store' == store[e.session.id := e.session])
            && (e.Logout? ==> store' == store - {e.sid})
            && (e.Cleanup? ==> store' == map id | id in store && store[id].absoluteExpiry >= e.now :: store[id])
  {
    assert Step(cfg, r.states[i], r.events[i]) == Some(r.states[i + 1]);
  }

  // FreshIDToken, check by check.

  /** Without the lock: a stored id_token that is readable and has at least 90 seconds left is returned. */
  lemma FastPathReturns(cfg: Config, r: Run, t: Tid, i: nat)
    requires IsRun(cfg, r) && i < |r.events| && r.events[i] == Fresh(t, FFastCheck)
    ensures t in r.states[i].threads && t in r.states[i + 1].threads && r.states[i].threads[t].FGot?
    ensures var (pc, now) := (r.states[i].threads[t], r.states[i].clock);
            r.states[i + 1].threads[t] ==
              if pc.got.Some? && LivesFor(cfg, pc.got.value.idToken, now, 90_000_000_000)
              then FReturned(pc.sid, Token(pc.got.value.idToken)) else FWaiting(pc.sid)
  {
    assert Step(cfg, r.states[i], r.events[i]) == Some(r.states[i + 1]);
  }

  /** Under the lock: the same, and the provider is asked exactly for a stale session that has a refresh
      token. */
  lemma SlowPathReturns(cfg: Config, r: Run, t: Tid, i: nat)
    requires IsRun(cfg, r) && i < |r.events| && r.events[i] == Fresh(t, FSlowCheck)
    ensures t in r.states[i].threads && t in r.states[i + 1].threads && r.states[i].threads[t].FHeldGot?
    ensures var (pc, now) := (r.states[i].threads[t], r.states[i].clock);
            r.states[i + 1].threads[t] ==
              if pc.got.None? then FLeaving(pc.sid, ReauthRequired)
              else if LivesFor(cfg, pc.got.value.idToken, now, 90_000_000_000)
              then FLeaving(pc.sid, Token(pc.got.value.idToken))
              else if pc.got.value.refreshToken != "" then FSpending(pc.sid, pc.got.value)
              else FLeaving(pc.sid, ReauthRequired)
  {
    assert Step(cfg, r.states[i], r.events[i]) == Some(r.states[i + 1]);
  }

  /** Where a call was before it got where it is. */
  lemma {:induction false} Before(cfg: Config, r: Run, t: Tid, i: nat) returns (j: nat)
    requires IsRun(cfg, r) && i < |r.states| && t in r.states[i].threads
    ensures j < i && t in r.states[j + 1].threads && r.states[j + 1].threads[t] == r.states[i].threads[t]
    ensures t in r.states[j].threads ==> r.states[j].threads[t] != r.states[i].threads[t]
    ensures Step(cfg, r.states[j], r.events[j]) == Some(r.states[j + 1])
  {
    assert i != 0;
    if t in r.states[i - 1].threads && r.states[i - 1].threads[t] == r.states[i].threads[t] {
      j := Before(cfg, r, t, i - 1);
    } else {
      j := i - 1;
      assert Step(cfg, r.states[j], r.events[j]) == Some(r.states[j + 1]);
    }
  }

  // The answer of a call.

  /** What decides the answer: the fast check, the check under the lock, the provider, the store, or the
      check of what was just stored. */
  predicate Decides(cfg: Config, st: State, op: FreshOp, pc: PC, answer: Answer) {
    || (pc.FGot? && pc.got.Some? && LivesFor(cfg, pc.got.value.idToken, st.clock, 90_000_000_000)
        && answer == Token(pc.got.value.idToken))
    || (pc.FHeldGot? && pc.got.Some? && LivesFor(cfg, pc.got.value.idToken, st.clock, 90_000_000_000)
        && answer == Token(pc.got.value.idToken))
    || (pc.FHeldGot? && answer == ReauthRequired
        && (pc.got.None? || (pc.got.value.refreshToken == ""
                             && !LivesFor(cfg, pc.got.value.idToken, st.clock, 90_000_000_000))))
    || (pc.FSpending? && answer == ReauthRequired && op == FRefresh(None))
    || (pc.FStoring? && answer == ReauthRequired && pc.sess.id !in st.store)
    || (pc.FConfirming?
        && answer == if LivesFor(cfg, pc.sess.idToken, st.clock, 90_000_000_000) then Token(pc.sess.idToken)
                     else ReauthRequired)
  }

  lemma FreshReturns(cfg: Config, st: State, t: Tid, op: FreshOp, pc: PC, st': State)
    requires StepFresh(cfg, st, t, op, pc) == Some(st') && st'.threads[t].FReturned?
    ensures var to := st'.threads[t];
            pc == FLeaving(to.sid, to.answer) || (pc.FGot? && pc.sid == to.sid && Decides(cfg, st, op, pc, to.answer))
  {
  }

  lemma FreshLeaves(cfg: Config, st: State, t: Tid, op: FreshOp, pc: PC, st': State)
    requires StepFresh(cfg, st, t, op, pc) == Some(st') && st'.threads[t].FLeaving?
    ensures (pc.FHeldGot? || pc.FSpending? || pc.FStoring? || pc.FConfirming?) && pc.sid == st'.threads[t].sid
    ensures Decides(cfg, st, op, pc, st'.threads[t].answer)
  {
  }

  lemma FreshConfirming(cfg: Config, st: State, t: Tid, op: FreshOp, pc: PC, st': State)
    requires StepFresh(cfg, st, t, op, pc) == Some(st') && st'.threads[t].FConfirming?
    ensures pc == FStoring(st'.threads[t].sid, st'.threads[t].sess)
    ensures pc.sess.id in st.store && WrittenBack(st.store, pc.sess, st'.store)
  {
  }

  lemma FreshStoring(cfg: Config, st: State, t: Tid, op: FreshOp, pc: PC, st': State)
    requires StepFresh(cfg, st, t, op, pc) == Some(st') && st'.threads[t].FStoring?
    ensures pc.FSpending? && pc.sid == st'.threads[t].sid && op.FRefresh? && op.grant.Some?
    ensures Renewed(pc.sess, op.grant.value, st'.threads[t].sess)
  {
  }

  /** A FreshIDToken call that is on its way was moved by one of its own steps. */
  lemma FreshMoved(cfg: Config, st: State, e: Event, st': State, t: Tid)
    requires Step(cfg, st, e) == Some(st') && t in st'.threads && IsFresh(st'.threads[t])
    requires t in st.threads ==> st.threads[t] != st'.threads[t]
    requires !st'.threads[t].FStart? && st'.threads[t] != FReturned("", ReauthRequired)
    ensures t in st.threads && e.Fresh? && e.t == t && StepFresh(cfg, st, t, e.f, st.threads[t]) == Some(st')
  {
    WhoMoved(cfg, st, e, st', t);
    if e.Guard? && t in st.threads && e.t == t {
      GuardAsks(cfg, st, t, e.g, st.threads[t], st');
    }
  }

  /** Every answer is the one that decision calls for; `c` is the instant at which it was taken. */
  lemma AnswerIsDecided(cfg: Config, r: Run, t: Tid, i: nat) returns (c: nat)
    requires IsRun(cfg, r) && i < |r.states| && t in r.states[i].threads
    requires r.states[i].threads[t].FReturned? && r.states[i].threads[t].sid != ""
    ensures c < i && t in r.states[c].threads && r.events[c].Fresh? && r.events[c].t == t
    ensures var (pc, from) := (r.states[i].threads[t], r.states[c].threads[t]);
            && (from.FGot? || from.FHeldGot? || from.FSpending? || from.FStoring? || from.FConfirming?)
            && from.sid == pc.sid && Decides(cfg, r.states[c], r.events[c].f, from, pc.answer)
  {
    c := Before(cfg, r, t, i);
    FreshMoved(cfg, r.states[c], r.events[c], r.states[c + 1], t);
    FreshReturns(cfg, r.states[c], t, r.events[c].f, r.states[c].threads[t], r.states[c + 1]);
    if r.states[c].threads[t].FLeaving? {
      c := Before(cfg, r, t, c);
      FreshMoved(cfg, r.states[c], r.events[c], r.states[c + 1], t);
      FreshLeaves(cfg, r.states[c], t, r.events[c].f, r.states[c].threads[t], r.states[c + 1]);
    }
  }

  /** What a refreshing call looks at last is the record it read, renewed by the provider's grant (at `f`)
      and stored (at `u`). */
  lemma ConfirmedIsRenewed(cfg: Config, r: Run, t: Tid, i: nat) returns (f: nat, u: nat)
    requires IsRun(cfg, r) && i < |r.states| && t in r.states[i].threads && r.states[i].threads[t].FConfirming?
    ensures f < u < i && t in r.states[f].threads && r.states[f].threads[t].FSpending?
    ensures r.events[f].Fresh? && r.events[f].t == t && r.events[f].f.FRefresh? && r.events[f].f.grant.Some?
    ensures var s := r.states[i].threads[t].sess;
            && Renewed(r.states[f].threads[t].sess, r.events[f].f.grant.value, s)
            && s.id in r.states[u].store && WrittenBack(r.states[u].store, s, r.states[u + 1].store)
  {
    u := Before(cfg, r, t, i);
    FreshMoved(cfg, r.states[u], r.events[u], r.states[u + 1], t);
    FreshConfirming(cfg, r.states[u], t, r.events[u].f, r.states[u].threads[t], r.states[u + 1]);
    f := Before(cfg, r, t, u);
    FreshMoved(cfg, r.states[f], r.events[f], r.states[f + 1], t);
    FreshStoring(cfg, r.states[f], t, r.events[f].f, r.states[f].threads[t], r.states[f + 1]);
  }

  // Middleware.

  /** A record is turned away exactly when it is past its absolute expiry or idle for too long. */
  lemma CheckTurnsAway(cfg: Config, r: Run, t: Tid, i: nat)
    requires IsRun(cfg, r) && i < |r.events| && r.events[i] == Guard(t, MCheck)
    ensures t in r.states[i].threads && t in r.states[i + 1].threads && r.states[i].threads[t].MGot?
    ensures var (pc, now) := (r.states[i].threads[t], r.states[i].clock);
            r.states[i + 1].threads[t] ==
              if pc.got.None? then MRejected
              else if now > pc.got.value.absoluteExpiry
                      || (cfg.idleTimeout > 0 && now - pc.got.value.lastActivity > cfg.idleTimeout)
              then MDropping(pc.sid)
              else MChecked(pc.sid, pc.got.value, now)
  {
    assert Step(cfg, r.states[i], r.events[i]) == Some(r.states[i + 1]);
  }

  /** A refresh is due with an OIDC client and a refresh token, less than 60 seconds before the access token
      expires. */
  predicate Due(cfg: Config, s: Session, now: Time) {
    cfg.hasClient && s.refreshToken != "" && s.accessExpiry < now + 60_000_000_000
  }

  /** A request refreshes its session exactly when that is due. */
  lemma RefreshesWhenDue(cfg: Config, r: Run, t: Tid, i: nat)
    requires IsRun(cfg, r) && i < |r.events| && r.events[i] == Guard(t, MDecide)
    ensures t in r.states[i].threads && t in r.states[i + 1].threads && r.states[i].threads[t].MChecked?
    ensures var pc := r.states[i].threads[t];
            r.states[i + 1].threads[t] ==
              if Due(cfg, pc.seen, r.states[i].clock) then MRefreshing(pc.sid, pc.seen, pc.now)
              else MStoring(pc.sid, pc.seen, pc.now, pc.seen)
  {
    assert Step(cfg, r.states[i], r.events[i]) == Some(r.states[i + 1]);
  }

  lemma GuardServes(cfg: Config, st: State, t: Tid, op: GuardOp, pc: PC, st': State)
    requires StepGuard(cfg, st, t, op, pc) == Some(st') && st'.threads[t].MServing?
    ensures var to := st'.threads[t];
            && pc.MStoring? && pc.sid == to.sid && pc.seen == to.seen && pc.now == to.now
            && WrittenBack(st.store, pc.sess.(lastActivity := pc.now), st'.store)
            && to.identity == Identity(pc.sess.subject, pc.sess.email, pc.sess.groups)
  {
  }

  lemma GuardWrites(cfg: Config, st: State, t: Tid, op: GuardOp, pc: PC, st': State)
    requires StepGuard(cfg, st, t, op, pc) == Some(st') && st'.threads[t].MStoring?
    ensures var to := st'.threads[t];
            || (pc == MChecked(to.sid, to.seen, to.now) && to.sess == to.seen && !Due(cfg, to.seen, st.clock))
            || (pc == MRefreshing(to.sid, to.seen, to.now) && op.MRefresh? && op.grant.Some?
                && Renewed(to.seen, op.grant.value, to.sess))
  {
  }

  lemma GuardRefreshes(cfg: Config, st: State, t: Tid, op: GuardOp, pc: PC, st': State)
    requires StepGuard(cfg, st, t, op, pc) == Some(st') && st'.threads[t].MRefreshing?
    ensures var to := st'.threads[t]; pc == MChecked(to.sid, to.seen, to.now) && Due(cfg, to.seen, st.clock)
  {
  }

  lemma GuardRejects(cfg: Config, st: State, t: Tid, op: GuardOp, pc: PC, st': State)
    requires StepGuard(cfg, st, t, op, pc) == Some(st') && st'.threads[t].MRejected?
    ensures (pc.MGot? && pc.got.None?) || (pc.MDropping? && st'.store == st.store - {pc.sid})
  {
  }

  /** A request in Middleware that is on its way was moved by one of its own steps. */
  lemma GuardMoved(cfg: Config, st: State, e: Event, st': State, t: Tid)
    requires Step(cfg, st, e) == Some(st') && t in st'.threads && !IsFresh(st'.threads[t]) && !st'.threads[t].MStart?
    requires t in st.threads ==> st.threads[t] != st'.threads[t]
    ensures || (t !in st.threads && e == MCall(t, "") && st'.threads[t].MRejected?)
            || (t in st.threads && e.Guard? && e.t == t && StepGuard(cfg, st, t, e.g, st.threads[t]) == Some(st'))
  {
    WhoMoved(cfg, st, e, st', t);
    if e.Fresh? && t in st.threads && e.t == t {
      FreshAsks(cfg, st, t, e.f, st.threads[t], st');
    }
  }

  /** How a request came to the record it is about to write back. */
  lemma WrittenOnceDecided(cfg: Config, r: Run, t: Tid, u: nat) returns (d: nat, m: nat)
    requires IsRun(cfg, r) && u < |r.states| && t in r.states[u].threads && r.states[u].threads[t].MStoring?
    ensures d <= m < u && t in r.states[d].threads
    ensures var pc := r.states[u].threads[t];
            && r.states[d].threads[t] == MChecked(pc.sid, pc.seen, pc.now)
            && (if Due(cfg, pc.seen, r.states[d].clock)
                then r.events[m].Guard? && r.events[m].t == t && r.events[m].g.MRefresh? && r.events[m].g.grant.Some?
                     && Renewed(pc.seen, r.events[m].g.grant.value, pc.sess)
                else pc.sess == pc.seen)
  {
    m := Before(cfg, r, t, u);
    d := m;
    GuardMoved(cfg, r.states[m], r.events[m], r.states[m + 1], t);
    assert t in r.states[m].threads;
    GuardWrites(cfg, r.states[m], t, r.events[m].g, r.states[m].threads[t], r.states[m + 1]);
    if r.states[m].threads[t].MRefreshing? {
      d := Before(cfg, r, t, m);
      GuardMoved(cfg, r.states[d], r.events[d], r.states[d + 1], t);
      GuardRefreshes(cfg, r.states[d], t, r.events[d].g, r.states[d].threads[t], r.states[d + 1]);
    }
  }

  /** A served request wrote its record back (at `u`) with the time of its check as last activity: the record
      it read if no refresh was due (at `d`), and otherwise that record renewed by the provider (at `m`). */
  lemma ServedWroteBack(cfg: Config, r: Run, t: Tid, i: nat) returns (d: nat, m: nat, u: nat, s: Session)
    requires IsRun(cfg, r) && i < |r.states| && t in r.states[i].threads && r.states[i].threads[t].MServing?
    ensures d <= m < u < i
    ensures var pc := r.states[i].threads[t];
            && WrittenBack(r.states[u].store, s.(lastActivity := pc.now), r.states[u + 1].store)
            && t in r.states[d].threads && r.states[d].threads[t] == MChecked(pc.sid, pc.seen, pc.now)
            && (if Due(cfg, pc.seen, r.states[d].clock)
                then r.events[m].Guard? && r.events[m].t == t && r.events[m].g.MRefresh? && r.events[m].g.grant.Some?
                     && Renewed(pc.seen, r.events[m].g.grant.value, s)
                else s == pc.seen)
  {
    u := Before(cfg, r, t, i);
    GuardMoved(cfg, r.states[u], r.events[u], r.states[u + 1], t);
    GuardServes(cfg, r.states[u], t, r.events[u].g, r.states[u].threads[t], r.states[u + 1]);
    s := r.states[u].threads[t].sess;
    d, m := WrittenOnceDecided(cfg, r, t, u);
  }

  /** A request that is turned away has found no session, or has deleted it, and no other. */
  lemma RejectedDropsSession(cfg: Config, r: Run, t: Tid, i: nat) returns (d: nat)
    requires IsRun(cfg, r) && i < |r.states| && t in r.states[i].threads && r.states[i].threads[t].MRejected?
    ensures d < i
    ensures
      || r.events[d] == MCall(t, "")
      || (t in r.states[d].threads &&
          var pc := r.states[d].threads[t];
          (pc.MGot? && pc.got.None?) || (pc.MDropping? && r.states[d + 1].store == r.states[d].store - {pc.sid}))
  {
    d := Before(cfg, r, t, i);
    GuardMoved(cfg, r.states[d], r.events[d], r.states[d + 1], t);
    if t in r.states[d].threads {
      GuardRejects(cfg, r.states[d], t, r.events[d].g, r.states[d].threads[t], r.states[d + 1]);
    }
  }

  // No call is stuck.

  predicate Finished(pc: PC) {
    pc.FReturned? || pc.MRejected? || pc.MServing?
  }

  /** The call has a step to take, whatever the provider answers if it is asked. */
  ghost predicate CanMove(cfg: Config, st: State, t: Tid, answer: Option<Grant>) {
    exists e: Event :: Moves(e, t, answer) && Step(cfg, st, e).Some?
  }

  predicate Moves(e: Event, t: Tid, answer: Option<Grant>) {
    || (e.Fresh? && e.t == t && (e.f.FRefresh? ==> e.f.grant == answer))
    || (e.Guard? && e.t == t && (e.g.MRefresh? ==> e.g.grant == answer))
  }

  /** The next step of a call that is on its way. */
  function NextStep(t: Tid, pc: PC, answer: Option<Grant>): Event {
    match pc
    case FStart(_) => Fresh(t, FGet)
    case FGot(_, _) => Fresh(t, FFastCheck)
    case FWaiting(_) => Fresh(t, FLock)
    case FHolding(_) => Fresh(t, FReGet)
    case FHeldGot(_, _) => Fresh(t, FSlowCheck)
    case FSpending(_, _) => Fresh(t, FRefresh(answer))
    case FStoring(_, _) => Fresh(t, FUpdate)
    case FConfirming(_, _) => Fresh(t, FFinalCheck)
    case FLeaving(_, _) => Fresh(t, FUnlock)
    case MStart(_) => Guard(t, MGet)
    case MGot(_, _) => Guard(t, MCheck)
    case MChecked(_, _, _) => Guard(t, MDecide)
    case MRefreshing(_, _, _) => Guard(t, MRefresh(answer))
    case MStoring(_, _, _, _) => Guard(t, MUpdate)
    case _ => Guard(t, MDrop)
  }

  lemma MovesUnlessWaiting(cfg: Config, st: State, t: Tid, answer: Option<Grant>)
    requires t in st.threads && !Finished(st.threads[t])
    requires st.threads[t].FWaiting? ==> cfg.shard(st.threads[t].sid) !in st.locks
    ensures CanMove(cfg, st, t, answer)
  {
    var e := NextStep(t, st.threads[t], answer);
    assert Moves(e, t, answer) && Step(cfg, st, e).Some?;
  }

  /** In every state of every run an unfinished call can take its next step, unless it waits for its session's
      lock; then there is a call past that lock (`u`), and that one can. */
  lemma NoCallIsStuck(cfg: Config, r: Run, i: nat, t: Tid, answer: Option<Grant>) returns (u: Tid)
    requires IsRun(cfg, r) && i < |r.states| && t in r.states[i].threads && !Finished(r.states[i].threads[t])
    ensures u in r.states[i].threads && CanMove(cfg, r.states[i], u, answer)
    ensures u == t || (r.states[i].threads[t].FWaiting? && Critical(r.states[i].threads[u])
                       && cfg.shard(r.states[i].threads[u].sid) == cfg.shard(r.states[i].threads[t].sid))
  {
    var st := r.states[i];
    LocksRun(cfg, r, i);
    u := t;
    if st.threads[t].FWaiting? && cfg.shard(st.threads[t].sid) in st.locks {
      u := st.locks[cfg.shard(st.threads[t].sid)];
    }
    MovesUnlessWaiting(cfg, st, u, answer);
  }
}
