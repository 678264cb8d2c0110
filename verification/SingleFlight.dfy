/**
  Refresh tokens are single-use: no token is presented to the provider again once a redemption of
  it has succeeded, and FreshIDToken never refreshes while the stored id_token is still good.

  The provider hands out a new refresh token on each success. Of Middleware's steps the two that
  take no per-session lock where FreshIDToken relies on it, the write-back of a whole record and
  the refresh, are admitted when they are Harmless; SingleUse shows that exactly the others can
  lead to a token being presented again.
  */
module SingleFlight {
  import opened Wrappers
  import opened SessionStore
  import opened SessionProtocol
  import opened SessionSafety

  predicate Critical(pc: PC) {
    pc.FHolding? || pc.FHeldGot? || pc.FSpending? || pc.FStoring? || pc.FConfirming? || pc.FLeaving?
  }

  ghost predicate Holds(cfg: Config, st: State, t: Tid, sid: SessionId) {
    cfg.shard(sid) in st.locks && st.locks[cfg.shard(sid)] == t
  }

  /** A thread that has redeemed the session's token is about to store the new one. */
  ghost predicate BeingReplaced(cfg: Config, st: State, sid: SessionId) {
    && cfg.shard(sid) in st.locks
    && var t := st.locks[cfg.shard(sid)];
       t in st.threads && st.threads[t].FStoring? && st.threads[t].sid == sid
  }

  // What is admitted.

  predicate NewToken(st: State, rt: string) {
    rt != "" && rt !in st.issued
  }

  /** What a token response holds: an access token, and a refresh token never seen before. */
  predicate NewGrant(st: State, g: Grant) {
    g.accessToken != "" && NewToken(st, g.refreshToken)
  }

  /** The provider rotates: every refresh token it hands out is new. */
  predicate Rotates(st: State, e: Event) {
    && (e.Login? ==> e.session.refreshToken == "" || NewToken(st, e.session.refreshToken))
    && (e.Fresh? && e.f.FRefresh? && e.f.grant.Some? ==> NewGrant(st, e.f.grant.value))
    && (e.Guard? && e.g.MRefresh? && e.g.grant.Some? ==> NewGrant(st, e.g.grant.value))
  }

  /** A FreshIDToken call has this token in hand and may still present it. */
  predicate MayPresent(pc: PC, rt: string) {
    || (pc.FHeldGot? && pc.got.Some? && pc.got.value.refreshToken == rt)
    || (pc.FSpending? && pc.sess.refreshToken == rt)
  }

  /** Middleware's write-back does no harm when the session is gone, or the token written back is not
      spent, or its redeemer is about to overwrite it. */
  ghost predicate HarmlessUpdate(cfg: Config, st: State, s: Session) {
    s.id !in st.store || s.refreshToken !in Spent(st.log) || BeingReplaced(cfg, st, s.id)
  }

  /** Middleware's refresh does no harm when its token is not spent and, if it succeeds, the session is
      gone and no FreshIDToken call has the token in hand. */
  ghost predicate HarmlessRefresh(st: State, sid: SessionId, rt: string, granted: bool) {
    && rt !in Spent(st.log)
    && (granted ==> sid !in st.store && forall t :: t in st.threads ==> !MayPresent(st.threads[t], rt))
  }

  ghost predicate Harmless(cfg: Config, st: State, e: Event) {
    e.Guard? && e.t in st.threads ==>
      var pc := st.threads[e.t];
      && (e.g.MUpdate? && pc.MStoring? ==> HarmlessUpdate(cfg, st, pc.sess))
      && (e.g.MRefresh? && pc.MRefreshing? ==> HarmlessRefresh(st, pc.sid, pc.seen.refreshToken, e.g.grant.Some?))
  }

  ghost predicate Admitted(cfg: Config, st: State, e: Event) {
    Rotates(st, e) && Harmless(cfg, st, e)
  }

  // The lock bank.

  /** The lock bank is held exactly by the threads in their critical section. */
  ghost predicate LocksOk(cfg: Config, st: State) {
    && (forall t :: t in st.threads && Critical(st.threads[t]) ==> Holds(cfg, st, t, st.threads[t].sid))
    && (forall k :: k in st.locks ==>
          && st.locks[k] in st.threads
          && Critical(st.threads[st.locks[k]])
          && cfg.shard(st.threads[st.locks[k]].sid) == k)
  }

  /** Where a FreshIDToken step leaves the lock bank and its own place in the critical section. */
  lemma FreshLocks(cfg: Config, st: State, t: Tid, op: FreshOp, pc: PC, st': State)
    requires StepFresh(cfg, st, t, op, pc) == Some(st')
    ensures t in st'.threads && (Critical(st'.threads[t]) ==> st'.threads[t].sid == pc.sid)
    ensures if op.FLock? then !Critical(pc) && Critical(st'.threads[t]) && cfg.shard(pc.sid) !in st.locks
                                && st'.locks == st.locks[cfg.shard(pc.sid) := t]
            else if op.FUnlock? then Critical(pc) && !Critical(st'.threads[t])
                                     && st'.locks == st.locks - {cfg.shard(pc.sid)}
            else Critical(pc) == Critical(st'.threads[t]) && st'.locks == st.locks
  {
  }

  lemma FreshKeepsLocks(cfg: Config, st: State, t: Tid, op: FreshOp, st': State)
    requires t in st.threads && StepFresh(cfg, st, t, op, st.threads[t]) == Some(st')
    requires LocksOk(cfg, st)
    ensures LocksOk(cfg, st')
  {
    FreshFrame(cfg, st, t, op, st.threads[t], st');
    FreshLocks(cfg, st, t, op, st.threads[t], st');
  }

  lemma GuardKeepsLocks(cfg: Config, st: State, t: Tid, op: GuardOp, st': State)
    requires t in st.threads && StepGuard(cfg, st, t, op, st.threads[t]) == Some(st')
    requires LocksOk(cfg, st)
    ensures LocksOk(cfg, st')
  {
    GuardFrame(cfg, st, t, op, st.threads[t], st');
    GuardIsUncritical(cfg, st, t, op, st.threads[t], st');
  }

  lemma GuardIsUncritical(cfg: Config, st: State, t: Tid, op: GuardOp, pc: PC, st': State)
    requires StepGuard(cfg, st, t, op, pc) == Some(st')
    ensures t in st'.threads && !Critical(pc) && !Critical(st'.threads[t]) && st'.locks == st.locks
  {
  }

  lemma StepKeepsLocks(cfg: Config, st: State, e: Event, st': State)
    requires Step(cfg, st, e) == Some(st') && LocksOk(cfg, st)
    ensures LocksOk(cfg, st')
  {
    if e.Fresh? {
      FreshKeepsLocks(cfg, st, e.t, e.f, st');
    } else if e.Guard? {
      GuardKeepsLocks(cfg, st, e.t, e.g, st');
    }
  }

  lemma {:induction false} LocksRun(cfg: Config, r: Run, i: nat)
    requires IsRun(cfg, r) && i < |r.states|
    ensures LocksOk(cfg, r.states[i])
  {
    if i > 0 {
      LocksRun(cfg, r, i - 1);
      StepKeepsLocks(cfg, r.states[i - 1], r.events[i - 1], r.states[i]);
    }
  }

  /** Mutual exclusion: two threads in their critical sections are for different sessions. */
  lemma OneFlightPerSession(cfg: Config, st: State, t: Tid, u: Tid)
    requires LocksOk(cfg, st) && t in st.threads && u in st.threads && t != u
    requires Critical(st.threads[t]) && Critical(st.threads[u])
    ensures st.threads[t].sid != st.threads[u].sid
  {
    assert Holds(cfg, st, t, st.threads[t].sid) && Holds(cfg, st, u, st.threads[u].sid);
  }

  /** At most one FreshIDToken call per session is past the lock at any time, in every run. */
  lemma RefreshesDoNotOverlap(cfg: Config, r: Run, i: nat, t: Tid, u: Tid)
    requires IsRun(cfg, r) && i < |r.states| && t != u
    requires t in r.states[i].threads && Critical(r.states[i].threads[t])
    requires u in r.states[i].threads && Critical(r.states[i].threads[u])
    ensures r.states[i].threads[t].sid != r.states[i].threads[u].sid
  {
    LocksRun(cfg, r, i);
    OneFlightPerSession(cfg, r.states[i], t, u);
  }

  // Tokens.

  type Issued = map<string, SessionId>

  /** The token was issued for this session; if it is not spent it is the session's latest, and comes
      with the session's latest id_token. */
  ghost predicate Known(issued: Issued, spent: set<string>, latest: Sessions, sid: SessionId, s: Session) {
    && (s.refreshToken == "" || (s.refreshToken in issued && issued[s.refreshToken] == sid))
    && (s.refreshToken !in spent ==>
          sid in latest && s.refreshToken == latest[sid].refreshToken && s.idToken == latest[sid].idToken)
  }

  /** What a FreshIDToken call past the lock may rely on, and Middleware before a refresh. */
  ghost predicate Fit(cfg: Config, spent: set<string>, clock: Time, store: Sessions, pc: PC) {
    && (pc.FHeldGot? && pc.got.Some? ==> pc.got.value.refreshToken !in spent)
    && (pc.FSpending? ==>
          pc.sess.refreshToken !in spent && pc.sess.refreshToken != "" && ExpSoon(cfg, pc.sess.idToken, clock))
    && (pc.FStoring? && pc.sid in store ==> pc.sess.refreshToken !in spent)
    && (pc.MRefreshing? ==> pc.seen.refreshToken != "")
  }

  ghost predicate HandOk(cfg: Config, st: State, latest: Sessions, pc: PC) {
    && (var c := Carried(pc); c.Some? ==> Known(st.issued, Spent(st.log), latest, c.value.0, c.value.1))
    && Fit(cfg, Spent(st.log), st.clock, st.store, pc)
  }

  /** A stored token that is spent is about to be overwritten. */
  ghost predicate ShelfOk(cfg: Config, st: State, latest: Sessions, sid: SessionId)
    requires sid in st.store
  {
    && Known(st.issued, Spent(st.log), latest, sid, st.store[sid])
    && (st.store[sid].refreshToken in Spent(st.log) ==> BeingReplaced(cfg, st, sid))
  }

  ghost predicate Tracks(cfg: Config, st: State, latest: Sessions) {
    && (forall t :: t in st.threads ==> HandOk(cfg, st, latest, st.threads[t]))
    && (forall sid :: sid in st.store ==> ShelfOk(cfg, st, latest, sid))
  }

  /** After a success with a token, no attempt with it. */
  ghost predicate OnceSpent(log: seq<Redemption>) {
    forall i, j :: 0 <= i < j < |log| && log[i].ok ==> log[i].refreshToken != log[j].refreshToken
  }

  ghost predicate LogOk(st: State) {
    && OnceSpent(st.log)
    && "" !in Spent(st.log)
    && Spent(st.log) <= st.issued.Keys
  }

  ghost predicate Flight(cfg: Config, st: State) {
    && Safe(cfg, st) && "" !in st.born && LocksOk(cfg, st) && LogOk(st)
    && exists latest :: Tracks(cfg, st, latest)
  }

  // Steps that spend nothing.

  /** Nothing is spent or issued, one thread moves at most, records leave the store or are replaced by
      ones that belong there. */
  lemma QuietTracks(cfg: Config, st: State, st': State, latest: Sessions, t: Tid)
    requires Tracks(cfg, st, latest)
    requires Spent(st'.log) == Spent(st.log) && st'.issued == st.issued && st.clock <= st'.clock
    requires st'.threads == st.threads || (t in st'.threads && st'.threads == st.threads[t := st'.threads[t]]
                                           && HandOk(cfg, st', latest, st'.threads[t]))
    requires st'.store.Keys <= st.store.Keys
    requires forall sid :: sid in st'.store ==> st'.store[sid] == st.store[sid] || ShelfOk(cfg, st', latest, sid)
    requires forall sid :: sid in st'.store && BeingReplaced(cfg, st, sid) ==>
               BeingReplaced(cfg, st', sid) || ShelfOk(cfg, st', latest, sid)
    ensures Tracks(cfg, st', latest)
  {
    forall u | u in st'.threads ensures HandOk(cfg, st', latest, st'.threads[u]) {
      assert u in st.threads ==> HandOk(cfg, st, latest, st.threads[u]);
    }
    forall sid | sid in st'.store ensures ShelfOk(cfg, st', latest, sid) {
      assert ShelfOk(cfg, st, latest, sid);
    }
  }

  /** Deletes, ticks and new calls. */
  lemma ShrinkTracks(cfg: Config, st: State, st': State, latest: Sessions, t: Tid)
    requires Tracks(cfg, st, latest)
    requires st'.log == st.log && st'.issued == st.issued && st.clock <= st'.clock && st'.locks == st.locks
    requires st'.threads == st.threads || (t !in st.threads && t in st'.threads
                                           && st'.threads == st.threads[t := st'.threads[t]]
                                           && HandOk(cfg, st', latest, st'.threads[t]))
    requires st'.store.Keys <= st.store.Keys
    requires forall sid :: sid in st'.store ==> st'.store[sid] == st.store[sid]
    ensures Tracks(cfg, st', latest)
  {
    QuietTracks(cfg, st, st', latest, t);
  }

  /** A read of the session under its lock: a spent token would be about to be replaced by the holder. */
  lemma HeldReadIsUnspent(cfg: Config, st: State, latest: Sessions, t: Tid)
    requires Tracks(cfg, st, latest) && LocksOk(cfg, st) && t in st.threads && st.threads[t].FHolding?
    ensures var sid := st.threads[t].sid; sid in st.store ==>
              && Known(st.issued, Spent(st.log), latest, sid, st.store[sid])
              && st.store[sid].refreshToken !in Spent(st.log)
  {
    var sid := st.threads[t].sid;
    assert Holds(cfg, st, t, sid);
    if sid in st.store {
      assert ShelfOk(cfg, st, latest, sid);
    }
  }

  lemma FreshReadHand(cfg: Config, st: State, latest: Sessions, t: Tid, st': State)
    requires t in st.threads && StepFresh(cfg, st, t, FGet, st.threads[t]) == Some(st')
    requires Tracks(cfg, st, latest)
    ensures t in st'.threads && HandOk(cfg, st', latest, st'.threads[t])
  {
    var sid := st.threads[t].cookie;
    if sid in st.store {
      assert ShelfOk(cfg, st, latest, sid);
    }
  }

  lemma FreshReReadHand(cfg: Config, st: State, latest: Sessions, t: Tid, st': State)
    requires t in st.threads && StepFresh(cfg, st, t, FReGet, st.threads[t]) == Some(st')
    requires Tracks(cfg, st, latest) && LocksOk(cfg, st)
    ensures t in st'.threads && HandOk(cfg, st', latest, st'.threads[t])
  {
    HeldReadIsUnspent(cfg, st, latest, t);
  }

  /** The other steps keep the record in hand or let it go. */
  lemma FreshKeptHand(cfg: Config, st: State, latest: Sessions, t: Tid, op: FreshOp, pc: PC, st': State)
    requires StepFresh(cfg, st, t, op, pc) == Some(st')
    requires !op.FRefresh? && !op.FGet? && !op.FReGet? && HandOk(cfg, st, latest, pc)
    ensures t in st'.threads && HandOk(cfg, st', latest, st'.threads[t])
  {
  }

  lemma FreshHand(cfg: Config, st: State, latest: Sessions, t: Tid, op: FreshOp, st': State)
    requires t in st.threads && StepFresh(cfg, st, t, op, st.threads[t]) == Some(st')
    requires !op.FRefresh? && Tracks(cfg, st, latest) && LocksOk(cfg, st)
    ensures t in st'.threads && HandOk(cfg, st', latest, st'.threads[t])
  {
    if op.FGet? {
      FreshReadHand(cfg, st, latest, t, st');
    } else if op.FReGet? {
      FreshReReadHand(cfg, st, latest, t, st');
    } else {
      FreshKeptHand(cfg, st, latest, t, op, st.threads[t], st');
    }
  }

  /** No step but the holder's own FUpdate ends a replacement. */
  lemma FreshReplacement(cfg: Config, st: State, t: Tid, op: FreshOp, st': State, sid: SessionId)
    requires t in st.threads && StepFresh(cfg, st, t, op, st.threads[t]) == Some(st')
    requires LocksOk(cfg, st) && BeingReplaced(cfg, st, sid)
    ensures BeingReplaced(cfg, st', sid) || (op.FUpdate? && st.threads[t].sid == sid)
  {
    FreshFrame(cfg, st, t, op, st.threads[t], st');
    if op.FUnlock? {
      assert Holds(cfg, st, t, st.threads[t].sid);
    }
  }

  lemma UpdateShelf(cfg: Config, st: State, latest: Sessions, t: Tid, st': State)
    requires t in st.threads && StepFresh(cfg, st, t, FUpdate, st.threads[t]) == Some(st')
    requires Tracks(cfg, st, latest) && ThreadOk(cfg, st, st.threads[t])
    ensures var pc := st.threads[t];
            && st'.store == (if pc.sid in st.store then st.store[pc.sid := pc.sess] else st.store)
            && (pc.sid in st'.store ==> ShelfOk(cfg, st', latest, pc.sid))
  {
    assert HandOk(cfg, st, latest, st.threads[t]);
  }

  lemma FreshTracks(cfg: Config, st: State, latest: Sessions, t: Tid, op: FreshOp, st': State)
    requires t in st.threads && StepFresh(cfg, st, t, op, st.threads[t]) == Some(st')
    requires !op.FRefresh? && Tracks(cfg, st, latest) && LocksOk(cfg, st) && Safe(cfg, st)
    ensures Tracks(cfg, st', latest)
  {
    FreshFrame(cfg, st, t, op, st.threads[t], st');
    FreshHand(cfg, st, latest, t, op, st');
    if op.FUpdate? {
      UpdateShelf(cfg, st, latest, t, st');
    } else {
      FreshLeavesStore(cfg, st, t, op, st.threads[t], st');
    }
    FreshLeavesLog(cfg, st, t, op, st.threads[t], st');
    forall sid | sid in st'.store && BeingReplaced(cfg, st, sid)
      ensures BeingReplaced(cfg, st', sid) || ShelfOk(cfg, st', latest, sid)
    {
      FreshReplacement(cfg, st, t, op, st', sid);
    }
    QuietTracks(cfg, st, st', latest, t);
  }

  lemma FreshLeavesStore(cfg: Config, st: State, t: Tid, op: FreshOp, pc: PC, st': State)
    requires StepFresh(cfg, st, t, op, pc) == Some(st') && !op.FUpdate?
    ensures st'.store == st.store
  {
  }

  lemma FreshLeavesLog(cfg: Config, st: State, t: Tid, op: FreshOp, pc: PC, st': State)
    requires StepFresh(cfg, st, t, op, pc) == Some(st') && !op.FRefresh?
    ensures st'.log == st.log && st'.issued == st.issued
  {
  }

  lemma GuardLeavesLog(cfg: Config, st: State, t: Tid, op: GuardOp, pc: PC, st': State)
    requires StepGuard(cfg, st, t, op, pc) == Some(st') && !op.MRefresh?
    ensures st'.log == st.log && st'.issued == st.issued
  {
  }

  lemma GuardReadHand(cfg: Config, st: State, latest: Sessions, t: Tid, st': State)
    requires t in st.threads && StepGuard(cfg, st, t, MGet, st.threads[t]) == Some(st')
    requires Tracks(cfg, st, latest)
    ensures t in st'.threads && HandOk(cfg, st', latest, st'.threads[t])
  {
    var sid := st.threads[t].cookie;
    if sid in st.store {
      assert ShelfOk(cfg, st, latest, sid);
    }
  }

  lemma GuardKeptHand(cfg: Config, st: State, latest: Sessions, t: Tid, op: GuardOp, pc: PC, st': State)
    requires StepGuard(cfg, st, t, op, pc) == Some(st')
    requires !op.MRefresh? && !op.MGet? && HandOk(cfg, st, latest, pc)
    ensures t in st'.threads && HandOk(cfg, st', latest, st'.threads[t])
  {
  }

  lemma GuardHand(cfg: Config, st: State, latest: Sessions, t: Tid, op: GuardOp, st': State)
    requires t in st.threads && StepGuard(cfg, st, t, op, st.threads[t]) == Some(st')
    requires !op.MRefresh? && Tracks(cfg, st, latest)
    ensures t in st'.threads && HandOk(cfg, st', latest, st'.threads[t])
  {
    if op.MGet? {
      GuardReadHand(cfg, st, latest, t, st');
    } else {
      GuardKeptHand(cfg, st, latest, t, op, st.threads[t], st');
    }
  }

  lemma GuardReplacement(cfg: Config, st: State, t: Tid, op: GuardOp, st': State, sid: SessionId)
    requires t in st.threads && StepGuard(cfg, st, t, op, st.threads[t]) == Some(st')
    requires BeingReplaced(cfg, st, sid)
    ensures BeingReplaced(cfg, st', sid)
  {
    GuardFrame(cfg, st, t, op, st.threads[t], st');
    GuardIsUncritical(cfg, st, t, op, st.threads[t], st');
  }

  lemma GuardStore(cfg: Config, st: State, t: Tid, op: GuardOp, pc: PC, st': State)
    requires StepGuard(cfg, st, t, op, pc) == Some(st')
    ensures st'.store.Keys <= st.store.Keys
    ensures forall sid :: sid in st'.store ==>
              || st'.store[sid] == st.store[sid]
              || (op.MUpdate? && pc.MStoring? && sid == pc.sess.id
                  && st'.store[sid] == pc.sess.(lastActivity := pc.now))
  {
  }

  lemma GuardTracks(cfg: Config, st: State, latest: Sessions, t: Tid, op: GuardOp, st': State)
    requires t in st.threads && StepGuard(cfg, st, t, op, st.threads[t]) == Some(st')
    requires !op.MRefresh? && Tracks(cfg, st, latest) && Safe(cfg, st) && Harmless(cfg, st, Guard(t, op))
    ensures Tracks(cfg, st', latest)
  {
    var pc := st.threads[t];
    GuardFrame(cfg, st, t, op, pc, st');
    GuardHand(cfg, st, latest, t, op, st');
    GuardStore(cfg, st, t, op, pc, st');
    GuardLeavesLog(cfg, st, t, op, pc, st');
    forall sid | sid in st.store && BeingReplaced(cfg, st, sid) ensures BeingReplaced(cfg, st', sid) {
      GuardReplacement(cfg, st, t, op, st', sid);
    }
    forall sid | sid in st'.store ensures st'.store[sid] == st.store[sid] || ShelfOk(cfg, st', latest, sid) {
      if st'.store[sid] != st.store[sid] {
        assert HandOk(cfg, st, latest, pc) && ThreadOk(cfg, st, pc);
      }
    }
    QuietTracks(cfg, st, st', latest, t);
  }

  // Logins and refreshes.

  lemma LoginHand(cfg: Config, st: State, latest: Sessions, s: Session, st': State, t: Tid)
    requires Step(cfg, st, Login(s)) == Some(st') && Rotates(st, Login(s))
    requires Tracks(cfg, st, latest) && Safe(cfg, st) && t in st.threads
    ensures HandOk(cfg, st', latest[s.id := s], st.threads[t])
  {
    assert HandOk(cfg, st, latest, st.threads[t]) && ThreadOk(cfg, st, st.threads[t]);
  }

  lemma LoginShelf(cfg: Config, st: State, latest: Sessions, s: Session, st': State, sid: SessionId)
    requires Step(cfg, st, Login(s)) == Some(st') && Rotates(st, Login(s))
    requires Tracks(cfg, st, latest) && LogOk(st) && sid in st'.store
    ensures ShelfOk(cfg, st', latest[s.id := s], sid)
  {
    assert sid != s.id ==> ShelfOk(cfg, st, latest, sid);
  }

  lemma LoginTracks(cfg: Config, st: State, latest: Sessions, s: Session, st': State)
    requires Step(cfg, st, Login(s)) == Some(st') && Rotates(st, Login(s))
    requires Tracks(cfg, st, latest) && Safe(cfg, st) && LogOk(st)
    ensures Tracks(cfg, st', latest[s.id := s])
  {
    forall t | t in st'.threads ensures HandOk(cfg, st', latest[s.id := s], st'.threads[t]) {
      LoginHand(cfg, st, latest, s, st', t);
    }
    forall sid | sid in st'.store ensures ShelfOk(cfg, st', latest[s.id := s], sid) {
      LoginShelf(cfg, st, latest, s, st', sid);
    }
  }

  lemma SpentGrows(log: seq<Redemption>, r: Redemption)
    ensures Spent(log + [r]) == Spent(log) + if r.ok then {r.refreshToken} else {}
  {
    var both := log + [r];
    forall x | x in Spent(log) ensures x in Spent(both) {
      var i :| 0 <= i < |log| && log[i].ok && log[i].refreshToken == x;
      assert both[i] == log[i];
    }
    assert both[|log|] == r;
  }

  lemma LogStaysOk(log: seq<Redemption>, r: Redemption)
    requires OnceSpent(log) && r.refreshToken !in Spent(log)
    ensures OnceSpent(log + [r])
  {
  }

  /** What a record known before is known to be after its session's token `rt` was spent for `s`. */
  lemma KnownAfterSpending(issued: Issued, spent: set<string>, latest: Sessions, sid: SessionId, rt: string, s: Session,
                           other: SessionId, x: Session)
    requires Known(issued, spent, latest, other, x)
    requires sid in latest && latest[sid].refreshToken == rt
    requires s.refreshToken != "" && s.refreshToken !in issued
    ensures Known(issued[s.refreshToken := sid], spent + {rt}, latest[sid := s], other, x)
  {
  }

  /** One session's token is spent and a new one comes to a thread: others that might present or store the
      old one there are none. */
  lemma SpendTracks(cfg: Config, st: State, st': State, latest: Sessions, t: Tid, sid: SessionId, rt: string,
                    s: Session)
    requires Tracks(cfg, st, latest) && LogOk(st)
    requires rt != "" && rt in st.issued && st.issued[rt] == sid && sid in latest && latest[sid].refreshToken == rt
    requires s.refreshToken != "" && s.refreshToken !in st.issued
    requires Spent(st'.log) == Spent(st.log) + {rt} && st'.issued == st.issued[s.refreshToken := sid]
    requires st'.clock == st.clock && st'.store == st.store
    requires t in st'.threads && st'.threads == st.threads[t := st'.threads[t]]
    requires Carried(st'.threads[t]) == Some((sid, s)) && Fit(cfg, Spent(st'.log), st'.clock, st'.store, st'.threads[t])
    requires forall u :: u in st.threads && u != t ==> !MayPresent(st.threads[u], rt)
    requires forall u :: u in st.threads && u != t && st.threads[u].FStoring? && st.threads[u].sid in st.store ==>
               st.threads[u].sess.refreshToken != rt
    requires sid in st.store ==> BeingReplaced(cfg, st', sid)
    requires forall x :: x in st.store && BeingReplaced(cfg, st, x) ==> BeingReplaced(cfg, st', x)
    ensures Tracks(cfg, st', latest[sid := s])
  {
    var latest' := latest[sid := s];
    forall u | u in st'.threads ensures HandOk(cfg, st', latest', st'.threads[u]) {
      if u != t {
        var pc := st.threads[u];
        assert HandOk(cfg, st, latest, pc);
        if Carried(pc).Some? {
          KnownAfterSpending(st.issued, Spent(st.log), latest, sid, rt, s, Carried(pc).value.0, Carried(pc).value.1);
        }
      }
    }
    forall x | x in st'.store ensures ShelfOk(cfg, st', latest', x) {
      assert ShelfOk(cfg, st, latest, x);
      KnownAfterSpending(st.issued, Spent(st.log), latest, sid, rt, s, x, st.store[x]);
    }
  }

  /** The redeemer under the lock is alone with its token. */
  lemma AloneWithToken(cfg: Config, st: State, latest: Sessions, t: Tid, u: Tid)
    requires Tracks(cfg, st, latest) && LocksOk(cfg, st)
    requires t in st.threads && u in st.threads && t != u && st.threads[t].FSpending?
    ensures !MayPresent(st.threads[u], st.threads[t].sess.refreshToken)
    ensures st.threads[u].FStoring? ==> st.threads[u].sess.refreshToken != st.threads[t].sess.refreshToken
  {
    assert HandOk(cfg, st, latest, st.threads[t]) && HandOk(cfg, st, latest, st.threads[u]);
    if Critical(st.threads[u]) {
      OneFlightPerSession(cfg, st, t, u);
    }
  }

  lemma FRefreshTracks(cfg: Config, st: State, latest: Sessions, t: Tid, g: Grant, st': State)
    requires t in st.threads && StepFresh(cfg, st, t, FRefresh(Some(g)), st.threads[t]) == Some(st')
    requires Tracks(cfg, st, latest) && Safe(cfg, st) && LocksOk(cfg, st) && LogOk(st)
    requires Rotates(st, Fresh(t, FRefresh(Some(g))))
    ensures exists latest' :: Tracks(cfg, st', latest')
  {
    var pc := st.threads[t];
    var s := ApplyGrant(pc.sess, g);
    assert HandOk(cfg, st, latest, pc) && ThreadOk(cfg, st, pc);
    assert Holds(cfg, st, t, pc.sid);
    SpentGrows(st.log, Redemption(pc.sess.id, pc.sess.refreshToken, true));
    forall u | u in st.threads && u != t
      ensures !MayPresent(st.threads[u], pc.sess.refreshToken)
      ensures st.threads[u].FStoring? ==> st.threads[u].sess.refreshToken != pc.sess.refreshToken
    {
      AloneWithToken(cfg, st, latest, t, u);
    }
    forall x | x in st.store && BeingReplaced(cfg, st, x) ensures BeingReplaced(cfg, st', x) {
      FreshReplacement(cfg, st, t, FRefresh(Some(g)), st', x);
    }
    SpendTracks(cfg, st, st', latest, t, pc.sid, pc.sess.refreshToken, s);
  }

  lemma GuardSpends(cfg: Config, st: State, t: Tid, g: Grant, pc: PC, st': State)
    requires StepGuard(cfg, st, t, MRefresh(Some(g)), pc) == Some(st')
    ensures pc.MRefreshing? && t in st'.threads && st'.threads == st.threads[t := st'.threads[t]]
            && st'.threads[t].MStoring?
    ensures st'.store == st.store && st'.locks == st.locks
    ensures st'.log == st.log + [Redemption(pc.seen.id, pc.seen.refreshToken, true)]
    ensures Spent(st'.log) == Spent(st.log) + {pc.seen.refreshToken}
  {
    SpentGrows(st.log, Redemption(pc.seen.id, pc.seen.refreshToken, true));
  }

  /** Of a session that is gone, no token is about to be stored for one that is there. */
  lemma StoredForOthers(cfg: Config, st: State, latest: Sessions, sid: SessionId, rt: string)
    requires Tracks(cfg, st, latest) && sid !in st.store && rt != "" && rt in st.issued && st.issued[rt] == sid
    ensures forall u :: u in st.threads && st.threads[u].FStoring? && st.threads[u].sid in st.store ==>
              st.threads[u].sess.refreshToken != rt
  {
    forall u | u in st.threads && st.threads[u].FStoring? && st.threads[u].sid in st.store
      ensures st.threads[u].sess.refreshToken != rt
    {
      assert HandOk(cfg, st, latest, st.threads[u]);
    }
  }

  lemma MRefreshTracks(cfg: Config, st: State, latest: Sessions, t: Tid, g: Grant, st': State)
    requires t in st.threads && StepGuard(cfg, st, t, MRefresh(Some(g)), st.threads[t]) == Some(st')
    requires Tracks(cfg, st, latest) && Safe(cfg, st) && LogOk(st)
    requires Rotates(st, Guard(t, MRefresh(Some(g)))) && Harmless(cfg, st, Guard(t, MRefresh(Some(g))))
    ensures exists latest' :: Tracks(cfg, st', latest')
  {
    var pc := st.threads[t];
    var s := ApplyGrant(pc.seen, g);
    assert HandOk(cfg, st, latest, pc) && ThreadOk(cfg, st, pc);
    GuardSpends(cfg, st, t, g, pc, st');
    StoredForOthers(cfg, st, latest, pc.sid, pc.seen.refreshToken);
    forall x | x in st.store && BeingReplaced(cfg, st, x) ensures BeingReplaced(cfg, st', x) {
      GuardReplacement(cfg, st, t, MRefresh(Some(g)), st', x);
    }
    SpendTracks(cfg, st, st', latest, t, pc.sid, pc.seen.refreshToken, s);
  }

  /** A refresh that fails spends nothing. */
  lemma FRefreshFailsTracks(cfg: Config, st: State, latest: Sessions, t: Tid, st': State)
    requires t in st.threads && StepFresh(cfg, st, t, FRefresh(None), st.threads[t]) == Some(st')
    requires Tracks(cfg, st, latest) && LocksOk(cfg, st)
    ensures Tracks(cfg, st', latest)
  {
    var s := st.threads[t].sess;
    SpentGrows(st.log, Redemption(s.id, s.refreshToken, false));
    forall sid | sid in st.store && BeingReplaced(cfg, st, sid) ensures BeingReplaced(cfg, st', sid) {
      FreshReplacement(cfg, st, t, FRefresh(None), st', sid);
    }
    QuietTracks(cfg, st, st', latest, t);
  }

  lemma MRefreshFailsTracks(cfg: Config, st: State, latest: Sessions, t: Tid, st': State)
    requires t in st.threads && StepGuard(cfg, st, t, MRefresh(None), st.threads[t]) == Some(st')
    requires Tracks(cfg, st, latest)
    ensures Tracks(cfg, st', latest)
  {
    var s := st.threads[t].seen;
    SpentGrows(st.log, Redemption(s.id, s.refreshToken, false));
    forall sid | sid in st.store && BeingReplaced(cfg, st, sid) ensures BeingReplaced(cfg, st', sid) {
      GuardReplacement(cfg, st, t, MRefresh(None), st', sid);
    }
    QuietTracks(cfg, st, st', latest, t);
  }

  lemma FreshStepTracks(cfg: Config, st: State, latest: Sessions, t: Tid, op: FreshOp, st': State)
    requires t in st.threads && StepFresh(cfg, st, t, op, st.threads[t]) == Some(st')
    requires Tracks(cfg, st, latest) && Safe(cfg, st) && LocksOk(cfg, st) && LogOk(st) && Rotates(st, Fresh(t, op))
    ensures exists latest' :: Tracks(cfg, st', latest')
  {
    if !op.FRefresh? {
      FreshTracks(cfg, st, latest, t, op, st');
    } else if op.grant.Some? {
      FRefreshTracks(cfg, st, latest, t, op.grant.value, st');
    } else {
      FRefreshFailsTracks(cfg, st, latest, t, st');
    }
  }

  lemma GuardStepTracks(cfg: Config, st: State, latest: Sessions, t: Tid, op: GuardOp, st': State)
    requires t in st.threads && StepGuard(cfg, st, t, op, st.threads[t]) == Some(st')
    requires Tracks(cfg, st, latest) && Safe(cfg, st) && LogOk(st) && Admitted(cfg, st, Guard(t, op))
    ensures exists latest' :: Tracks(cfg, st', latest')
  {
    if !op.MRefresh? {
      GuardTracks(cfg, st, latest, t, op, st');
    } else if op.grant.Some? {
      MRefreshTracks(cfg, st, latest, t, op.grant.value, st');
    } else {
      MRefreshFailsTracks(cfg, st, latest, t, st');
    }
  }

  /** Ticks, deletes and new calls. */
  lemma OtherStepTracks(cfg: Config, st: State, latest: Sessions, e: Event, st': State)
    requires Step(cfg, st, e) == Some(st') && Tracks(cfg, st, latest)
    requires !e.Login? && !e.Fresh? && !e.Guard?
    ensures Tracks(cfg, st', latest)
  {
    ShrinkTracks(cfg, st, st', latest, if e.FCall? || e.MCall? then e.t else 0);
  }

  lemma StepTracks(cfg: Config, st: State, latest: Sessions, e: Event, st': State)
    requires Step(cfg, st, e) == Some(st') && Tracks(cfg, st, latest)
    requires Safe(cfg, st) && LocksOk(cfg, st) && LogOk(st) && Admitted(cfg, st, e)
    ensures exists latest' :: Tracks(cfg, st', latest')
  {
    if e.Login? {
      LoginTracks(cfg, st, latest, e.session, st');
    } else if e.Fresh? {
      FreshStepTracks(cfg, st, latest, e.t, e.f, st');
    } else if e.Guard? {
      GuardStepTracks(cfg, st, latest, e.t, e.g, st');
    } else {
      OtherStepTracks(cfg, st, latest, e, st');
    }
  }

  lemma FreshAttemptLog(cfg: Config, st: State, latest: Sessions, t: Tid, g: Option<Grant>, st': State)
    requires t in st.threads && StepFresh(cfg, st, t, FRefresh(g), st.threads[t]) == Some(st')
    requires Tracks(cfg, st, latest) && LogOk(st)
    ensures LogOk(st')
  {
    var s := st.threads[t].sess;
    assert HandOk(cfg, st, latest, st.threads[t]);
    var r := Redemption(s.id, s.refreshToken, g.Some?);
    SpentGrows(st.log, r);
    LogStaysOk(st.log, r);
  }

  lemma GuardAttemptLog(cfg: Config, st: State, latest: Sessions, t: Tid, g: Option<Grant>, st': State)
    requires t in st.threads && StepGuard(cfg, st, t, MRefresh(g), st.threads[t]) == Some(st')
    requires Tracks(cfg, st, latest) && LogOk(st) && Harmless(cfg, st, Guard(t, MRefresh(g)))
    ensures LogOk(st')
  {
    var s := st.threads[t].seen;
    assert HandOk(cfg, st, latest, st.threads[t]);
    var r := Redemption(s.id, s.refreshToken, g.Some?);
    SpentGrows(st.log, r);
    LogStaysOk(st.log, r);
  }

  lemma QuietLog(cfg: Config, st: State, e: Event, st': State)
    requires Step(cfg, st, e) == Some(st') && LogOk(st)
    requires !(e.Fresh? && e.f.FRefresh?) && !(e.Guard? && e.g.MRefresh?)
    ensures LogOk(st')
  {
    if e.Fresh? {
      FreshLeavesLog(cfg, st, e.t, e.f, st.threads[e.t], st');
    } else if e.Guard? {
      GuardLeavesLog(cfg, st, e.t, e.g, st.threads[e.t], st');
    }
  }

  lemma FlightStep(cfg: Config, st: State, e: Event, st': State)
    requires Flight(cfg, st) && Admitted(cfg, st, e) && Step(cfg, st, e) == Some(st')
    ensures Flight(cfg, st')
  {
    var latest :| Tracks(cfg, st, latest);
    SafeStep(cfg, st, e, st');
    NoEmptyID(cfg, st, e, st');
    StepKeepsLocks(cfg, st, e, st');
    StepTracks(cfg, st, latest, e, st');
    if e.Fresh? && e.f.FRefresh? {
      FreshAttemptLog(cfg, st, latest, e.t, e.f.grant, st');
    } else if e.Guard? && e.g.MRefresh? {
      GuardAttemptLog(cfg, st, latest, e.t, e.g.grant, st');
    } else {
      QuietLog(cfg, st, e, st');
    }
  }

  // Whole runs.

  ghost predicate AdmittedRun(cfg: Config, r: Run) {
    IsRun(cfg, r) && forall i :: 0 <= i < |r.events| ==> Admitted(cfg, r.states[i], r.events[i])
  }

  lemma StartFlies(cfg: Config, clock: Time)
    ensures Flight(cfg, Start(clock))
  {
    assert Tracks(cfg, Start(clock), map[]);
  }

  lemma {:induction false} FlightRun(cfg: Config, r: Run, i: nat)
    requires AdmittedRun(cfg, r) && i < |r.states|
    ensures Flight(cfg, r.states[i])
  {
    if i == 0 {
      StartFlies(cfg, r.states[0].clock);
    } else {
      FlightRun(cfg, r, i - 1);
      FlightStep(cfg, r.states[i - 1], r.events[i - 1], r.states[i]);
    }
  }

  /** The record whose refresh token an event presents to the provider, if it does. */
  function Presented(st: State, e: Event): Option<Session> {
    if e.Fresh? && e.f.FRefresh? && e.t in st.threads && st.threads[e.t].FSpending? then Some(st.threads[e.t].sess)
    else if e.Guard? && e.g.MRefresh? && e.t in st.threads && st.threads[e.t].MRefreshing?
        then Some(st.threads[e.t].seen)
    else None
  }

  function Grants(e: Event): bool {
    (e.Fresh? && e.f.FRefresh? && e.f.grant.Some?) || (e.Guard? && e.g.MRefresh? && e.g.grant.Some?)
  }

  /** The log is the presentations, in order. */
  lemma LogStep(cfg: Config, st: State, e: Event, st': State)
    requires Step(cfg, st, e) == Some(st')
    ensures var p := Presented(st, e);
            st'.log == if p.None? then st.log else st.log + [Redemption(p.value.id, p.value.refreshToken, Grants(e))]
  {
    if e.Fresh? && !e.f.FRefresh? {
      FreshLeavesLog(cfg, st, e.t, e.f, st.threads[e.t], st');
    } else if e.Guard? && !e.g.MRefresh? {
      GuardLeavesLog(cfg, st, e.t, e.g, st.threads[e.t], st');
    }
  }

  lemma {:induction false} LogGrows(cfg: Config, r: Run, i: nat, j: nat)
    requires IsRun(cfg, r) && i <= j < |r.states|
    ensures r.states[i].log <= r.states[j].log
    decreases j
  {
    if i < j {
      LogGrows(cfg, r, i, j - 1);
      LogStep(cfg, r.states[j - 1], r.events[j - 1], r.states[j]);
    }
  }

  /** A token presented again, by FreshIDToken or by Middleware, is a token whose earlier redemption
      failed. */
  lemma RefreshTokenIsSpentOnce(cfg: Config, r: Run, i: nat, j: nat)
    requires AdmittedRun(cfg, r) && i < j < |r.events|
    requires var p, q := Presented(r.states[i], r.events[i]), Presented(r.states[j], r.events[j]);
             p.Some? && q.Some? && p.value.refreshToken == q.value.refreshToken
    ensures !Grants(r.events[i])
  {
    var first := |r.states[i].log|;
    LogStep(cfg, r.states[i], r.events[i], r.states[i + 1]);
    LogStep(cfg, r.states[j], r.events[j], r.states[j + 1]);
    LogGrows(cfg, r, i + 1, j);
    FlightRun(cfg, r, j + 1);
    var log := r.states[j + 1].log;
    assert log[first] == r.states[i + 1].log[first];
    assert log[|log| - 1].refreshToken == Presented(r.states[j], r.events[j]).value.refreshToken;
  }

  /** FreshIDToken asks the provider only when the session's stored id_token is stale now, and with its
      stored refresh token; the one exception is a session deleted since the caller looked. */
  lemma RefreshOnlyWhenStale(cfg: Config, r: Run, i: nat)
    requires AdmittedRun(cfg, r) && i < |r.events| && r.events[i].Fresh? && Presented(r.states[i], r.events[i]).Some?
    ensures
      var st, sess := r.states[i], Presented(r.states[i], r.events[i]).value;
      && !LivesFor(cfg, sess.idToken, st.clock, 90_000_000_000)
      && (sess.id in st.store ==>
            st.store[sess.id].idToken == sess.idToken && st.store[sess.id].refreshToken == sess.refreshToken)
  {
    FlightRun(cfg, r, i);
    var st := r.states[i];
    var latest :| Tracks(cfg, st, latest);
    var pc := st.threads[r.events[i].t];
    assert HandOk(cfg, st, latest, pc) && ThreadOk(cfg, st, pc);
    assert Holds(cfg, st, r.events[i].t, pc.sid);
    if pc.sid in st.store {
      assert ShelfOk(cfg, st, latest, pc.sid);
    }
  }

  /** In particular: runs in which Middleware neither refreshes nor writes back. */
  lemma WithoutMiddlewareWrites(cfg: Config, r: Run)
    requires IsRun(cfg, r)
    requires forall i :: 0 <= i < |r.events| ==>
               && Rotates(r.states[i], r.events[i])
               && (r.events[i].Guard? ==> !r.events[i].g.MUpdate? && !r.events[i].g.MRefresh?)
    ensures AdmittedRun(cfg, r) && OnceSpent(r.states[|r.events|].log)
  {
    forall i | 0 <= i < |r.events| ensures Admitted(cfg, r.states[i], r.events[i]) {
      assert Harmless(cfg, r.states[i], r.events[i]);
    }
    FlightRun(cfg, r, |r.events|);
  }
}
