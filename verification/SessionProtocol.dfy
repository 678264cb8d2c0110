/**
  Every request that touches the session store, one store, lock, clock or identity-provider
  access at a time.

  A thread is one request. Its program counter carries the local variables that are live at
  that point of FreshIDToken or Middleware. Threads, logins, logouts, the cleanup ticker and
  the clock interleave freely: a run is any sequence of enabled events.
  */
module SessionProtocol {
  import opened Wrappers
  import opened SessionStore

  type Tid = nat

  const SECOND: Time := 1_000_000_000
  const ID_TOKEN_SKEW: Time := 90 * SECOND
  const ACCESS_TOKEN_SKEW: Time := 60 * SECOND

  /** What the program is given: the exp claim of a token (None when it cannot be read), the
      lock bank's hash, and the configuration. */
  datatype Config = Config(
    jwtExp: string -> Option<Time>,
    shard: SessionId -> nat,
    hasClient: bool,
    idleTimeout: Time
  )

  /** The identity provider's token response; "" is an absent token. */
  datatype Grant = Grant(accessToken: string, refreshToken: string, idToken: string, expiry: Time)

  datatype Answer = Token(idToken: string) | ReauthRequired

  datatype PC =
    // FreshIDToken
    | FStart(cookie: SessionId)
    | FGot(sid: SessionId, got: Option<Session>)
    | FWaiting(sid: SessionId)
    | FHolding(sid: SessionId)
    | FHeldGot(sid: SessionId, got: Option<Session>)
    | FSpending(sid: SessionId, sess: Session)
    | FStoring(sid: SessionId, sess: Session)
    | FConfirming(sid: SessionId, sess: Session)
    | FLeaving(sid: SessionId, answer: Answer)
    | FReturned(sid: SessionId, answer: Answer)
    // Middleware
    | MStart(cookie: SessionId)
    | MGot(sid: SessionId, got: Option<Session>)
    | MChecked(sid: SessionId, seen: Session, now: Time)
    | MRefreshing(sid: SessionId, seen: Session, now: Time)
    | MStoring(sid: SessionId, seen: Session, now: Time, sess: Session)
    | MDropping(sid: SessionId)
    | MServing(sid: SessionId, seen: Session, now: Time, identity: Identity)
    | MRejected

  /** One call to the token endpoint, as the caller saw it end. */
  datatype Redemption = Redemption(sid: SessionId, refreshToken: string, ok: bool)

  /** `born`, `issued` and `log` are history: the records as first created, the session each
      refresh token was issued for, and every refresh attempt so far. No step reads `log`. */
  datatype State = State(
    clock: Time,
    store: Sessions,
    locks: map<nat, Tid>,
    threads: map<Tid, PC>,
    born: Sessions,
    issued: map<string, SessionId>,
    log: seq<Redemption>
  )

  /** The steps of a FreshIDToken call after it has its cookie. */
  datatype FreshOp =
    | FGet
    | FFastCheck
    | FLock
    | FReGet
    | FSlowCheck
    | FRefresh(grant: Option<Grant>)
    | FUpdate
    | FFinalCheck
    | FUnlock

  /** The steps of a request through Middleware after it has its cookie. */
  datatype GuardOp =
    | MGet
    | MCheck
    | MDecide
    | MRefresh(grant: Option<Grant>)
    | MUpdate
    | MDrop

  datatype Event =
    | Tick(to: Time)
    | Login(session: Session)
    | Logout(sid: SessionId)
    | Cleanup(now: Time)
    | FCall(t: Tid, cookie: SessionId)
    | MCall(t: Tid, cookie: SessionId)
    | Fresh(t: Tid, f: FreshOp)
    | Guard(t: Tid, g: GuardOp)

  function Start(clock: Time): State {
    State(clock, map[], map[], map[], map[], map[], [])
  }

  predicate ExpSoon(cfg: Config, idToken: string, now: Time) {
    match cfg.jwtExp(idToken)
    case None => true
    case Some(exp) => now + ID_TOKEN_SKEW > exp
  }

  /** Past the absolute expiry, or idle for longer than a configured idle timeout. */
  predicate Lapsed(cfg: Config, s: Session, now: Time) {
    now > s.absoluteExpiry || (cfg.idleTimeout > 0 && now - s.lastActivity > cfg.idleTimeout)
  }

  function ApplyGrant(s: Session, g: Grant): Session {
    s.(accessToken := g.accessToken,
       refreshToken := if g.refreshToken != "" then g.refreshToken else s.refreshToken,
       accessExpiry := g.expiry,
       idToken := if g.idToken != "" then g.idToken else s.idToken)
  }

  function Issue(issued: map<string, SessionId>, refreshToken: string, sid: SessionId): map<string, SessionId> {
    if refreshToken == "" then issued else issued[refreshToken := sid]
  }

  function Goto(st: State, t: Tid, pc: PC): State {
    st.(threads := st.threads[t := pc])
  }

  /** The record a refresh leaves the caller with, and the history of having asked. */
  function Redeem(st: State, sess: Session, grant: Option<Grant>): State {
    match grant
    case None => st.(log := st.log + [Redemption(sess.id, sess.refreshToken, false)])
    case Some(g) => st.(log := st.log + [Redemption(sess.id, sess.refreshToken, true)],
                        issued := Issue(st.issued, g.refreshToken, sess.id))
  }

  /** The state after event `e`, or None when `e` cannot happen. */
  function Step(cfg: Config, st: State, e: Event): Option<State> {
    match e
    case Tick(to) =>
      if st.clock <= to then Some(st.(clock := to)) else None
    case Login(s) =>
      // Session ids are 256 random bits: never reused, never empty.
      if s.id == "" || s.id in st.born then None
      else Some(st.(store := Created(st.store, s), born := st.born[s.id := s],
                    issued := Issue(st.issued, s.refreshToken, s.id)))
    case Logout(sid) =>
      Some(st.(store := Deleted(st.store, sid)))
    case Cleanup(now) =>
      // The ticker reads the clock before it waits for the store's mutex.
      if now <= st.clock then Some(st.(store := Swept(st.store, now))) else None
    case FCall(t, cookie) =>
      if t in st.threads then None
      else Some(Goto(st, t, if cookie == "" then FReturned(cookie, ReauthRequired) else FStart(cookie)))
    case MCall(t, cookie) =>
      if t in st.threads then None
      else Some(Goto(st, t, if cookie == "" then MRejected else MStart(cookie)))
    case Fresh(t, op) =>
      if t in st.threads then StepFresh(cfg, st, t, op, st.threads[t]) else None
    case Guard(t, op) =>
      if t in st.threads then StepGuard(cfg, st, t, op, st.threads[t]) else None
  }

  function StepFresh(cfg: Config, st: State, t: Tid, op: FreshOp, pc: PC): Option<State> {
    match op
    case FGet =>
      if !pc.FStart? then None
      else Some(Goto(st, t, FGot(pc.cookie, Lookup(st.store, pc.cookie))))
    case FFastCheck =>
      if !pc.FGot? then None
      else Some(Goto(st, t, if pc.got.Some? && !ExpSoon(cfg, pc.got.value.idToken, st.clock)
                            then FReturned(pc.sid, Token(pc.got.value.idToken))
                            else FWaiting(pc.sid)))
    case FLock =>
      if !pc.FWaiting? || cfg.shard(pc.sid) in st.locks then None
      else Some(Goto(st.(locks := st.locks[cfg.shard(pc.sid) := t]), t, FHolding(pc.sid)))
    case FReGet =>
      if !pc.FHolding? then None
      else Some(Goto(st, t, FHeldGot(pc.sid, Lookup(st.store, pc.sid))))
    case FSlowCheck =>
      if !pc.FHeldGot? then None
      else Some(Goto(st, t,
                     if pc.got.None? then FLeaving(pc.sid, ReauthRequired)
                     else if !ExpSoon(cfg, pc.got.value.idToken, st.clock)
                     then FLeaving(pc.sid, Token(pc.got.value.idToken))
                     else if pc.got.value.refreshToken == "" then FLeaving(pc.sid, ReauthRequired)
                     else FSpending(pc.sid, pc.got.value)))
    case FRefresh(grant) =>
      if !pc.FSpending? then None
      else Some(Goto(Redeem(st, pc.sess, grant), t,
                     if grant.None? then FLeaving(pc.sid, ReauthRequired)
                     else FStoring(pc.sid, ApplyGrant(pc.sess, grant.value))))
    case FUpdate =>
      if !pc.FStoring? then None
      else Some(Goto(st.(store := Updated(st.store, pc.sess)), t,
                     if pc.sess.id in st.store then FConfirming(pc.sid, pc.sess)
                     else FLeaving(pc.sid, ReauthRequired)))
    case FFinalCheck =>
      if !pc.FConfirming? then None
      else Some(Goto(st, t, FLeaving(pc.sid, if ExpSoon(cfg, pc.sess.idToken, st.clock) then ReauthRequired
                                             else Token(pc.sess.idToken))))
    case FUnlock =>
      if !pc.FLeaving? then None
      else Some(Goto(st.(locks := st.locks - {cfg.shard(pc.sid)}), t, FReturned(pc.sid, pc.answer)))
  }

  function StepGuard(cfg: Config, st: State, t: Tid, op: GuardOp, pc: PC): Option<State> {
    match op
    case MGet =>
      if !pc.MStart? then None
      else Some(Goto(st, t, MGot(pc.cookie, Lookup(st.store, pc.cookie))))
    case MCheck =>
      if !pc.MGot? then None
      else Some(Goto(st, t,
                     if pc.got.None? then MRejected
                     else if Lapsed(cfg, pc.got.value, st.clock) then MDropping(pc.sid)
                     else MChecked(pc.sid, pc.got.value, st.clock)))
    case MDecide =>
      if !pc.MChecked? then None
      else Some(Goto(st, t,
                     if && cfg.hasClient && pc.seen.refreshToken != ""
                        && pc.seen.accessExpiry - st.clock < ACCESS_TOKEN_SKEW
                     then MRefreshing(pc.sid, pc.seen, pc.now)
                     else MStoring(pc.sid, pc.seen, pc.now, pc.seen)))
    case MRefresh(grant) =>
      if !pc.MRefreshing? then None
      else Some(Goto(Redeem(st, pc.seen, grant), t,
                     if grant.None? then MDropping(pc.sid)
                     else MStoring(pc.sid, pc.seen, pc.now, ApplyGrant(pc.seen, grant.value))))
    case MUpdate =>
      // The whole record is written back, without the per-session lock.
      if !pc.MStoring? then None
      else
        var s := pc.sess.(lastActivity := pc.now);
        Some(Goto(st.(store := Updated(st.store, s)), t, MServing(pc.sid, pc.seen, pc.now, ToIdentity(s))))
    case MDrop =>
      if !pc.MDropping? then None
      else Some(Goto(st.(store := Deleted(st.store, pc.sid)), t, MRejected))
  }

  /** A run: the states met and the event between each two. */
  datatype Run = Run(states: seq<State>, events: seq<Event>)

  ghost predicate IsRun(cfg: Config, r: Run) {
    && |r.states| == |r.events| + 1
    && (exists c :: r.states[0] == Start(c))
    && (forall i :: 0 <= i < |r.events| ==> Step(cfg, r.states[i], r.events[i]) == Some(r.states[i + 1]))
  }

  /** The refresh tokens whose redemption succeeded. */
  function Spent(log: seq<Redemption>): set<string> {
    set i | 0 <= i < |log| && log[i].ok :: log[i].refreshToken
  }
}
