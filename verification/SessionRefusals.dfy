/** The other side of a request: what must have happened to its session for a call to be refused. */
module SessionRefusals {
  import opened Wrappers
  import opened SessionStore
  import opened SessionProtocol
  import opened SessionSafety
  import opened SessionReads

  // Calls over a run.

  /** The session ID a call was made with; a rejected request has let go of it. */
  function Asked(pc: PC): Option<SessionId> {
    if pc.FStart? || pc.MStart? then Some(pc.cookie) else if pc.MRejected? then None else Some(pc.sid)
  }

  /** A FreshIDToken call, as against a request in Middleware. */
  predicate IsFresh(pc: PC) {
    || pc.FStart? || pc.FGot? || pc.FWaiting? || pc.FHolding? || pc.FHeldGot? || pc.FSpending? || pc.FStoring?
    || pc.FConfirming? || pc.FLeaving? || pc.FReturned?
  }

  lemma FreshAsks(cfg: Config, st: State, t: Tid, op: FreshOp, pc: PC, st': State)
    requires StepFresh(cfg, st, t, op, pc) == Some(st')
    ensures t in st'.threads && Asked(st'.threads[t]) == Asked(pc) && IsFresh(pc) && IsFresh(st'.threads[t])
  {
  }

  lemma GuardAsks(cfg: Config, st: State, t: Tid, op: GuardOp, pc: PC, st': State)
    requires StepGuard(cfg, st, t, op, pc) == Some(st')
    ensures t in st'.threads && !IsFresh(pc) && !IsFresh(st'.threads[t])
    ensures st'.threads[t].MRejected? || Asked(st'.threads[t]) == Asked(pc)
  {
  }

  lemma StepAsks(cfg: Config, st: State, e: Event, st': State, t: Tid)
    requires Step(cfg, st, e) == Some(st') && t in st.threads
    ensures t in st'.threads && IsFresh(st'.threads[t]) == IsFresh(st.threads[t])
    ensures st'.threads[t].MRejected? || Asked(st'.threads[t]) == Asked(st.threads[t])
  {
    if e.Fresh? {
      FreshFrame(cfg, st, e.t, e.f, st.threads[e.t], st');
      FreshAsks(cfg, st, e.t, e.f, st.threads[e.t], st');
    } else if e.Guard? {
      GuardFrame(cfg, st, e.t, e.g, st.threads[e.t], st');
      GuardAsks(cfg, st, e.t, e.g, st.threads[e.t], st');
    }
  }

  /** Event `a` starts the call of thread `t`. */
  predicate Starts(e: Event, t: Tid, sid: SessionId) {
    e == FCall(t, sid) || e == MCall(t, sid)
  }

  lemma {:induction false} CallKeepsID(cfg: Config, r: Run, t: Tid, sid: SessionId, a: nat, i: nat)
    requires IsRun(cfg, r) && a < i < |r.states| && Starts(r.events[a], t, sid)
    ensures t in r.states[i].threads
    ensures var pc := r.states[i].threads[t];
            (IsFresh(pc) <==> r.events[a].FCall?) && (pc.MRejected? || Asked(pc) == Some(sid))
    decreases i
  {
    if i == a + 1 {
      assert Step(cfg, r.states[a], r.events[a]) == Some(r.states[i]);
    } else {
      CallKeepsID(cfg, r, t, sid, a, i - 1);
      StepAsks(cfg, r.states[i - 1], r.events[i - 1], r.states[i], t);
    }
  }

  lemma {:induction false} ThreadStays(cfg: Config, r: Run, t: Tid, k: nat, i: nat)
    requires IsRun(cfg, r) && k <= i < |r.states| && t in r.states[k].threads
    ensures t in r.states[i].threads
    decreases i
  {
    if k < i {
      ThreadStays(cfg, r, t, k, i - 1);
      StepAsks(cfg, r.states[i - 1], r.events[i - 1], r.states[i], t);
    }
  }

  /** An instant at which the thread exists is one of the call. */
  lemma DuringTheCall(cfg: Config, r: Run, t: Tid, sid: SessionId, a: nat, k: nat)
    requires IsRun(cfg, r) && a < |r.events| && k < |r.states| && Starts(r.events[a], t, sid)
    requires t in r.states[k].threads
    ensures a < k
  {
    assert Step(cfg, r.states[a], r.events[a]) == Some(r.states[a + 1]);
    if k <= a {
      ThreadStays(cfg, r, t, k, a);
    }
  }

  lemma StepClock(cfg: Config, st: State, e: Event, st': State)
    requires Step(cfg, st, e) == Some(st')
    ensures st.clock <= st'.clock
  {
    if e.Fresh? {
      FreshFrame(cfg, st, e.t, e.f, st.threads[e.t], st');
    } else if e.Guard? {
      GuardFrame(cfg, st, e.t, e.g, st.threads[e.t], st');
    }
  }

  lemma {:induction false} ClockGrows(cfg: Config, r: Run, m: nat, i: nat)
    requires IsRun(cfg, r) && m <= i < |r.states|
    ensures r.states[m].clock <= r.states[i].clock
    decreases i
  {
    if m < i {
      ClockGrows(cfg, r, m, i - 1);
      StepClock(cfg, r.states[i - 1], r.events[i - 1], r.states[i]);
    }
  }

  // A session that was not found.

  /** The session that a call looked for and did not find. */
  function Missed(pc: PC): Option<SessionId> {
    if (pc.FGot? || pc.FHeldGot? || pc.MGot?) && pc.got.None? then Some(pc.sid) else None
  }

  lemma FreshMiss(cfg: Config, st: State, t: Tid, op: FreshOp, pc: PC, st': State, sid: SessionId)
    requires StepFresh(cfg, st, t, op, pc) == Some(st')
    ensures t in st'.threads && (Missed(st'.threads[t]) == Some(sid) ==> sid !in st.store)
  {
  }

  lemma GuardMiss(cfg: Config, st: State, t: Tid, op: GuardOp, pc: PC, st': State, sid: SessionId)
    requires StepGuard(cfg, st, t, op, pc) == Some(st')
    ensures t in st'.threads && (Missed(st'.threads[t]) == Some(sid) ==> sid !in st.store)
  {
  }

  lemma MissStep(cfg: Config, st: State, e: Event, st': State, t: Tid, sid: SessionId)
    requires Step(cfg, st, e) == Some(st') && t in st'.threads && Missed(st'.threads[t]) == Some(sid)
    ensures t in st.threads && (Missed(st.threads[t]) == Some(sid) || sid !in st.store)
  {
    WhoMoved(cfg, st, e, st', t);
    if t in st.threads && st'.threads[t] != st.threads[t] {
      if e.Fresh? {
        FreshMiss(cfg, st, t, e.f, st.threads[t], st', sid);
      } else {
        GuardMiss(cfg, st, t, e.g, st.threads[t], st', sid);
      }
    }
  }

  /** It was missing from the store at an instant `k` of the call. */
  lemma MissRun(cfg: Config, r: Run, t: Tid, sid: SessionId, i: nat)
    requires IsRun(cfg, r) && i < |r.states| && t in r.states[i].threads && Missed(r.states[i].threads[t]) == Some(sid)
    ensures i > 0 && t in r.states[i - 1].threads
    ensures Missed(r.states[i - 1].threads[t]) == Some(sid) || sid !in r.states[i - 1].store
  {
    assert i != 0;
    MissStep(cfg, r.states[i - 1], r.events[i - 1], r.states[i], t, sid);
  }

  lemma {:induction false} MissedSessionWasGone(cfg: Config, r: Run, t: Tid, sid: SessionId, i: nat) returns (k: nat)
    requires IsRun(cfg, r) && i < |r.states| && t in r.states[i].threads && Missed(r.states[i].threads[t]) == Some(sid)
    ensures k < i && t in r.states[k].threads && sid !in r.states[k].store
  {
    MissRun(cfg, r, t, sid, i);
    if Missed(r.states[i - 1].threads[t]) == Some(sid) {
      k := MissedSessionWasGone(cfg, r, t, sid, i - 1);
    } else {
      k := i - 1;
    }
  }

  // The step that refuses.

  /** A call that has been refused or is about to be. */
  predicate Refused(pc: PC) {
    || ((pc.FLeaving? || pc.FReturned?) && pc.answer.ReauthRequired?)
    || pc.MDropping? || pc.MRejected?
  }

  ghost predicate FreshRefuses(cfg: Config, st: State, op: FreshOp, pc: PC) {
    || (op.FSlowCheck? && pc.FHeldGot? &&
        (pc.got.None? || (ExpSoon(cfg, pc.got.value.idToken, st.clock) && pc.got.value.refreshToken == "")))
    || (op == FRefresh(None) && pc.FSpending?)
    || (op.FUpdate? && pc.FStoring? && pc.sess.id !in st.store)
    || (op.FFinalCheck? && pc.FConfirming? && ExpSoon(cfg, pc.sess.idToken, st.clock))
  }

  ghost predicate GuardRefuses(cfg: Config, st: State, op: GuardOp, pc: PC) {
    || (op.MCheck? && pc.MGot? && (pc.got.None? || Lapsed(cfg, pc.got.value, st.clock)))
    || (op == MRefresh(None) && pc.MRefreshing?)
  }

  ghost predicate Refuses(cfg: Config, st: State, e: Event, t: Tid) {
    || Starts(e, t, "")
    || (e.Fresh? && e.t == t && t in st.threads && FreshRefuses(cfg, st, e.f, st.threads[t]))
    || (e.Guard? && e.t == t && t in st.threads && GuardRefuses(cfg, st, e.g, st.threads[t]))
  }

  lemma FreshRefusal(cfg: Config, st: State, t: Tid, op: FreshOp, pc: PC, st': State)
    requires StepFresh(cfg, st, t, op, pc) == Some(st')
    ensures t in st'.threads
    ensures Refused(st'.threads[t]) ==> Refused(pc) || FreshRefuses(cfg, st, op, pc)
  {
  }

  lemma GuardRefusal(cfg: Config, st: State, t: Tid, op: GuardOp, pc: PC, st': State)
    requires StepGuard(cfg, st, t, op, pc) == Some(st')
    ensures t in st'.threads
    ensures Refused(st'.threads[t]) ==> Refused(pc) || GuardRefuses(cfg, st, op, pc)
  {
  }

  lemma RefusalStep(cfg: Config, st: State, e: Event, st': State, t: Tid)
    requires Step(cfg, st, e) == Some(st') && t in st'.threads && Refused(st'.threads[t])
    ensures (t in st.threads && Refused(st.threads[t])) || Refuses(cfg, st, e, t)
  {
    WhoMoved(cfg, st, e, st', t);
    if t in st.threads && st'.threads[t] != st.threads[t] {
      if e.Fresh? {
        FreshRefusal(cfg, st, t, e.f, st.threads[t], st');
      } else {
        GuardRefusal(cfg, st, t, e.g, st.threads[t], st');
      }
    }
  }

  lemma {:induction false} RefusingEvent(cfg: Config, r: Run, t: Tid, i: nat) returns (m: nat)
    requires IsRun(cfg, r) && i < |r.states| && t in r.states[i].threads && Refused(r.states[i].threads[t])
    ensures m < i && Refuses(cfg, r.states[m], r.events[m], t)
  {
    assert i != 0;
    RefusalStep(cfg, r.states[i - 1], r.events[i - 1], r.states[i], t);
    if t in r.states[i - 1].threads && Refused(r.states[i - 1].threads[t]) {
      m := RefusingEvent(cfg, r, t, i - 1);
    } else {
      m := i - 1;
    }
  }

  // What the call read before.

  /** A call about to refresh has found its id_token stale. */
  ghost predicate SpendsStale(cfg: Config, clock: Time, pc: PC) {
    pc.FSpending? ==> ExpSoon(cfg, pc.sess.idToken, clock)
  }

  lemma FreshSpendsStale(cfg: Config, st: State, t: Tid, op: FreshOp, pc: PC, st': State)
    requires StepFresh(cfg, st, t, op, pc) == Some(st')
    ensures t in st'.threads && SpendsStale(cfg, st'.clock, st'.threads[t])
  {
  }

  lemma GuardSpendsNothing(cfg: Config, st: State, t: Tid, op: GuardOp, pc: PC, st': State)
    requires StepGuard(cfg, st, t, op, pc) == Some(st')
    ensures t in st'.threads && !st'.threads[t].FSpending? && !st'.threads[t].FConfirming?
  {
  }

  lemma SpendsStaleStep(cfg: Config, st: State, e: Event, st': State, t: Tid)
    requires Step(cfg, st, e) == Some(st') && t in st'.threads
    requires t in st.threads ==> SpendsStale(cfg, st.clock, st.threads[t])
    ensures SpendsStale(cfg, st'.clock, st'.threads[t])
  {
    WhoMoved(cfg, st, e, st', t);
    StepClock(cfg, st, e, st');
    if t in st.threads && st'.threads[t] != st.threads[t] {
      if e.Fresh? {
        FreshSpendsStale(cfg, st, t, e.f, st.threads[t], st');
      } else {
        GuardSpendsNothing(cfg, st, t, e.g, st.threads[t], st');
      }
    }
  }

  lemma {:induction false} SpendsStaleRun(cfg: Config, r: Run, t: Tid, i: nat)
    requires IsRun(cfg, r) && i < |r.states| && t in r.states[i].threads
    ensures SpendsStale(cfg, r.states[i].clock, r.states[i].threads[t])
  {
    assert i != 0;
    if t in r.states[i - 1].threads {
      SpendsStaleRun(cfg, r, t, i - 1);
    }
    SpendsStaleStep(cfg, r.states[i - 1], r.events[i - 1], r.states[i], t);
  }

  /** In every run FreshIDToken asks the provider only while the id_token it read is stale, and what it read,
      the refresh token it presents included, was stored at an instant `k` of the call. */
  lemma RefreshesAreStale(cfg: Config, r: Run, t: Tid, grant: Option<Grant>, i: nat) returns (k: nat)
    requires IsRun(cfg, r) && i < |r.events| && r.events[i] == Fresh(t, FRefresh(grant))
    ensures t in r.states[i].threads && r.states[i].threads[t].FSpending?
    ensures var pc := r.states[i].threads[t];
            && !LivesFor(cfg, pc.sess.idToken, r.states[i].clock, 90_000_000_000)
            && r.states[i + 1].log == r.states[i].log + [Redemption(pc.sess.id, pc.sess.refreshToken, grant.Some?)]
            && k <= i && t in r.states[k].threads && Lookup(r.states[k].store, pc.sid) == Some(pc.sess)
  {
    assert Step(cfg, r.states[i], r.events[i]) == Some(r.states[i + 1]);
    SpendsStaleRun(cfg, r, t, i);
    k := ReadDuringTheCall(cfg, r, t, i);
  }

  lemma FreshConfirms(cfg: Config, st: State, t: Tid, op: FreshOp, pc: PC, st': State)
    requires StepFresh(cfg, st, t, op, pc) == Some(st') && ThreadOk(cfg, st, pc)
    ensures t in st'.threads
    ensures var pc' := st'.threads[t];
            pc'.FConfirming? ==> op.FUpdate? && pc'.sid in st'.store && st'.store[pc'.sid] == pc'.sess
  {
  }

  lemma ConfirmingStep(cfg: Config, st: State, e: Event, st': State, t: Tid)
    requires Step(cfg, st, e) == Some(st') && Safe(cfg, st)
    requires t in st'.threads && st'.threads[t].FConfirming?
    ensures t in st.threads
    ensures st.threads[t] == st'.threads[t]
            || (e == Fresh(t, FUpdate) && var pc := st'.threads[t]; pc.sid in st'.store && st'.store[pc.sid] == pc.sess)
  {
    WhoMoved(cfg, st, e, st', t);
    if t in st.threads && st'.threads[t] != st.threads[t] {
      assert ThreadOk(cfg, st, st.threads[t]);
      if e.Fresh? {
        FreshConfirms(cfg, st, t, e.f, st.threads[t], st');
      } else {
        GuardSpendsNothing(cfg, st, t, e.g, st.threads[t], st');
      }
    }
  }

  /** A call that checks the refreshed id_token has stored it itself. */
  lemma {:induction false} ConfirmingHasStored(cfg: Config, r: Run, t: Tid, i: nat) returns (m: nat)
    requires IsRun(cfg, r) && i < |r.states| && t in r.states[i].threads && r.states[i].threads[t].FConfirming?
    ensures m < i && r.events[m] == Fresh(t, FUpdate) && t in r.states[m].threads
    ensures var pc := r.states[i].threads[t];
            pc.sid in r.states[m + 1].store && r.states[m + 1].store[pc.sid] == pc.sess
  {
    assert i != 0;
    SafeRun(cfg, r, i - 1);
    ConfirmingStep(cfg, r.states[i - 1], r.events[i - 1], r.states[i], t);
    if r.states[i - 1].threads[t] == r.states[i].threads[t] {
      m := ConfirmingHasStored(cfg, r, t, i - 1);
    } else {
      m := i - 1;
    }
  }

  // Causes.

  ghost predicate Gone(r: Run, sid: SessionId, a: nat, k: nat, i: nat)
    requires i < |r.states|
  {
    a < k <= i && sid !in r.states[k].store
  }

  /** The record stored at instant `k` of the call has an id_token that is unreadable or has less than
      90 seconds left by the call's end. */
  ghost predicate Stale(cfg: Config, r: Run, sid: SessionId, a: nat, k: nat, i: nat)
    requires i < |r.states|
  {
    a < k <= i && sid in r.states[k].store
    && !LivesFor(cfg, r.states[k].store[sid].idToken, r.states[i].clock, 90_000_000_000)
  }

  /** Why FreshIDToken asks for a new login. */
  ghost predicate ReauthCause(cfg: Config, r: Run, t: Tid, sid: SessionId, a: nat, k: nat, m: nat, i: nat)
    requires i < |r.states| == |r.events| + 1
  {
    || Gone(r, sid, a, k, i)
    || (Stale(cfg, r, sid, a, k, i) &&
        (|| r.states[k].store[sid].refreshToken == ""
         || (a < m < i && r.events[m] == Fresh(t, FRefresh(None)))
         || (k == m + 1 && m < i && r.events[m] == Fresh(t, FUpdate))))
  }

  lemma FreshCause(cfg: Config, r: Run, t: Tid, sid: SessionId, a: nat, m: nat, i: nat) returns (k: nat, n: nat)
    requires IsRun(cfg, r) && a < m < i < |r.states| && r.events[a] == FCall(t, sid)
    requires r.events[m].Fresh? && r.events[m].t == t && t in r.states[m].threads
    requires FreshRefuses(cfg, r.states[m], r.events[m].f, r.states[m].threads[t])
    ensures ReauthCause(cfg, r, t, sid, a, k, n, i)
  {
    var pc := r.states[m].threads[t];
    CallKeepsID(cfg, r, t, sid, a, m);
    ClockGrows(cfg, r, m, i);
    SafeRun(cfg, r, m);
    assert ThreadOk(cfg, r.states[m], pc);
    n := m;
    if pc.FHeldGot? && pc.got.None? {
      k := MissedSessionWasGone(cfg, r, t, sid, m);
      DuringTheCall(cfg, r, t, sid, a, k);
    } else if pc.FStoring? {
      k := m;
    } else if pc.FConfirming? {
      n := ConfirmingHasStored(cfg, r, t, m);
      DuringTheCall(cfg, r, t, sid, a, n);
      k := n + 1;
    } else {
      k := ReadBefore(cfg, r, t, sid, a, m);
      SpendsStaleRun(cfg, r, t, m);
    }
  }

  /** FreshIDToken asks for a new login only if, at an instant of the call, its session was not in the store,
      or the session's id_token was stale by the end of the call and could not be refreshed: there was no
      refresh token, the provider refused it, or what the call had just stored was stale itself. */
  lemma ReauthHasCause(cfg: Config, r: Run, t: Tid, sid: SessionId, a: nat, i: nat) returns (k: nat, m: nat)
    requires IsRun(cfg, r) && a < i < |r.states| && r.events[a] == FCall(t, sid)
    requires t in r.states[i].threads && Refused(r.states[i].threads[t])
    ensures ReauthCause(cfg, r, t, sid, a, k, m, i)
  {
    m := RefusingEvent(cfg, r, t, i);
    if Starts(r.events[m], t, "") {
      SameStart(cfg, r, t, sid, "", a, m);
      NoEmptySession(cfg, r, i);
      k := i;
    } else {
      DuringTheCall(cfg, r, t, sid, a, m);
      CallKeepsID(cfg, r, t, sid, a, m);
      k, m := FreshCause(cfg, r, t, sid, a, m, i);
    }
  }

  /** A thread is started once. */
  lemma SameStart(cfg: Config, r: Run, t: Tid, sid: SessionId, other: SessionId, a: nat, m: nat)
    requires IsRun(cfg, r) && a < |r.events| && m < |r.events|
    requires Starts(r.events[a], t, sid) && Starts(r.events[m], t, other)
    ensures a == m && sid == other
  {
    assert Step(cfg, r.states[a], r.events[a]) == Some(r.states[a + 1]);
    assert Step(cfg, r.states[m], r.events[m]) == Some(r.states[m + 1]);
    if a < m {
      ThreadStays(cfg, r, t, a + 1, m);
    } else if m < a {
      ThreadStays(cfg, r, t, m + 1, a);
    }
  }

  /** Why Middleware turns a request away. */
  ghost predicate RejectionCause(cfg: Config, r: Run, t: Tid, sid: SessionId, a: nat, k: nat, m: nat, i: nat)
    requires i < |r.states| == |r.events| + 1
  {
    || Gone(r, sid, a, k, i)
    || (a < k <= m < i && sid in r.states[k].store &&
        var s, now := r.states[k].store[sid], r.states[m].clock;
        now > s.absoluteExpiry || (cfg.idleTimeout > 0 && now > s.lastActivity + cfg.idleTimeout))
    || (a < m < i && r.events[m] == Guard(t, MRefresh(None)))
  }

  lemma ReadBefore(cfg: Config, r: Run, t: Tid, sid: SessionId, a: nat, m: nat) returns (k: nat)
    requires IsRun(cfg, r) && a < m < |r.states| && Starts(r.events[a], t, sid)
    requires t in r.states[m].threads && Observed(r.states[m].threads[t]).Some?
    ensures a < k <= m && Lookup(r.states[k].store, sid) == Some(Observed(r.states[m].threads[t]).value.1)
  {
    CallKeepsID(cfg, r, t, sid, a, m);
    k := ReadDuringTheCall(cfg, r, t, m);
    DuringTheCall(cfg, r, t, sid, a, k);
  }

  /** Middleware turns a request away only if, at an instant of the call, its session was not in the store,
      or a record then stored had outlived a timeout when it was checked, or the provider refused its
      refresh token. */
  lemma RejectionHasCause(cfg: Config, r: Run, t: Tid, sid: SessionId, a: nat, i: nat) returns (k: nat, m: nat)
    requires IsRun(cfg, r) && a < i < |r.states| && r.events[a] == MCall(t, sid)
    requires t in r.states[i].threads && Refused(r.states[i].threads[t])
    ensures RejectionCause(cfg, r, t, sid, a, k, m, i)
  {
    m := RefusingEvent(cfg, r, t, i);
    k := i;
    if Starts(r.events[m], t, "") {
      SameStart(cfg, r, t, sid, "", a, m);
      NoEmptySession(cfg, r, i);
    } else {
      DuringTheCall(cfg, r, t, sid, a, m);
      CallKeepsID(cfg, r, t, sid, a, m);
      if r.events[m].g.MCheck? {
        var pc := r.states[m].threads[t];
        if pc.got.None? {
          k := MissedSessionWasGone(cfg, r, t, sid, m);
          DuringTheCall(cfg, r, t, sid, a, k);
        } else {
          k := ReadBefore(cfg, r, t, sid, a, m);
        }
      }
    }
  }
}
