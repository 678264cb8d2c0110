/** What the session store keeps in every run, Middleware's whole-record writes included. */
module SessionSafety {
  import opened Wrappers
  import opened SessionStore
  import opened SessionProtocol

  /** The fields nothing may change once the session exists. */
  predicate SameLogin(s: Session, born: Session) {
    && s.id == born.id
    && s.subject == born.subject
    && s.email == born.email
    && s.groups == born.groups
    && s.absoluteExpiry == born.absoluteExpiry
  }

  predicate Descends(born: Sessions, sid: SessionId, s: Session) {
    sid in born && s.id == sid && SameLogin(s, born[sid])
  }

  /** The token can be read, and is good for at least `span` nanoseconds more. */
  predicate LivesFor(cfg: Config, idToken: string, now: Time, span: Time) {
    var exp := cfg.jwtExp(idToken);
    exp.Some? && now + span <= exp.value
  }

  /** The record a program counter carries, with the id it was asked for. */
  function Carried(pc: PC): Option<(SessionId, Session)> {
    if pc.FGot? || pc.FHeldGot? || pc.MGot? then
      if pc.got.Some? then Some((pc.sid, pc.got.value)) else None
    else if pc.FSpending? || pc.FStoring? || pc.FConfirming? || pc.MStoring? then
      Some((pc.sid, pc.sess))
    else if pc.MChecked? || pc.MRefreshing? then
      Some((pc.sid, pc.seen))
    else
      None
  }

  /** The records Middleware has read, checked and not let go of. */
  ghost predicate Vetted(cfg: Config, clock: Time, pc: PC) {
    match pc
    case MChecked(_, seen, now) => now <= clock && !Lapsed(cfg, seen, now)
    case MRefreshing(_, seen, now) => now <= clock && !Lapsed(cfg, seen, now)
    case MStoring(_, seen, now, s) =>
      now <= clock && !Lapsed(cfg, seen, now) && ToIdentity(s) == ToIdentity(seen)
    case MServing(_, seen, now, identity) =>
      now <= clock && !Lapsed(cfg, seen, now) && identity == ToIdentity(seen)
    case _ => true
  }

  ghost predicate StoreOk(st: State) {
    forall sid :: sid in st.store ==> Descends(st.born, sid, st.store[sid])
  }

  ghost predicate ThreadOk(cfg: Config, st: State, pc: PC) {
    && (var c := Carried(pc); c.Some? ==> Descends(st.born, c.value.0, c.value.1))
    && Vetted(cfg, st.clock, pc)
  }

  ghost predicate Safe(cfg: Config, st: State) {
    && StoreOk(st)
    && (forall t :: t in st.threads ==> ThreadOk(cfg, st, st.threads[t]))
  }

  lemma FreshFrame(cfg: Config, st: State, t: Tid, op: FreshOp, pc: PC, st': State)
    requires StepFresh(cfg, st, t, op, pc) == Some(st')
    ensures t in st'.threads && st'.threads == st.threads[t := st'.threads[t]]
    ensures st'.clock == st.clock && st'.born == st.born
  {
  }

  lemma FreshReaderStaysOk(cfg: Config, st: State, t: Tid, op: FreshOp, pc: PC, st': State)
    requires StepFresh(cfg, st, t, op, pc) == Some(st') && (op.FGet? || op.FReGet?)
    requires StoreOk(st)
    ensures t in st'.threads && ThreadOk(cfg, st', st'.threads[t])
  {
  }

  lemma FreshKeeperStaysOk(cfg: Config, st: State, t: Tid, op: FreshOp, pc: PC, st': State)
    requires StepFresh(cfg, st, t, op, pc) == Some(st') && !op.FGet? && !op.FReGet?
    requires ThreadOk(cfg, st, pc)
    ensures t in st'.threads && ThreadOk(cfg, st', st'.threads[t])
  {
  }

  lemma FreshMoverStaysOk(cfg: Config, st: State, t: Tid, op: FreshOp, pc: PC, st': State)
    requires StepFresh(cfg, st, t, op, pc) == Some(st')
    requires StoreOk(st) && ThreadOk(cfg, st, pc)
    ensures t in st'.threads && ThreadOk(cfg, st', st'.threads[t])
  {
    if op.FGet? || op.FReGet? {
      FreshReaderStaysOk(cfg, st, t, op, pc, st');
    } else {
      FreshKeeperStaysOk(cfg, st, t, op, pc, st');
    }
  }

  lemma FreshWritesWell(cfg: Config, st: State, t: Tid, op: FreshOp, pc: PC, st': State)
    requires StepFresh(cfg, st, t, op, pc) == Some(st')
    requires StoreOk(st) && ThreadOk(cfg, st, pc)
    ensures StoreOk(st')
  {
  }

  lemma GuardFrame(cfg: Config, st: State, t: Tid, op: GuardOp, pc: PC, st': State)
    requires StepGuard(cfg, st, t, op, pc) == Some(st')
    ensures t in st'.threads && st'.threads == st.threads[t := st'.threads[t]]
    ensures st'.clock == st.clock && st'.born == st.born
  {
  }

  lemma GuardReaderStaysOk(cfg: Config, st: State, t: Tid, op: GuardOp, pc: PC, st': State)
    requires StepGuard(cfg, st, t, op, pc) == Some(st') && !op.MRefresh? && !op.MUpdate?
    requires StoreOk(st) && ThreadOk(cfg, st, pc)
    ensures t in st'.threads && ThreadOk(cfg, st', st'.threads[t])
  {
  }

  lemma GuardWriterStaysOk(cfg: Config, st: State, t: Tid, op: GuardOp, pc: PC, st': State)
    requires StepGuard(cfg, st, t, op, pc) == Some(st') && (op.MRefresh? || op.MUpdate?)
    requires ThreadOk(cfg, st, pc)
    ensures t in st'.threads && ThreadOk(cfg, st', st'.threads[t])
  {
  }

  lemma GuardMoverStaysOk(cfg: Config, st: State, t: Tid, op: GuardOp, pc: PC, st': State)
    requires StepGuard(cfg, st, t, op, pc) == Some(st')
    requires StoreOk(st) && ThreadOk(cfg, st, pc)
    ensures t in st'.threads && ThreadOk(cfg, st', st'.threads[t])
  {
    if op.MRefresh? || op.MUpdate? {
      GuardWriterStaysOk(cfg, st, t, op, pc, st');
    } else {
      GuardReaderStaysOk(cfg, st, t, op, pc, st');
    }
  }

  lemma GuardWritesWell(cfg: Config, st: State, t: Tid, op: GuardOp, pc: PC, st': State)
    requires StepGuard(cfg, st, t, op, pc) == Some(st')
    requires StoreOk(st) && ThreadOk(cfg, st, pc)
    ensures StoreOk(st')
  {
  }

  /** A thread is where it was, or has just been started, or is the one that moved. */
  lemma WhoMoved(cfg: Config, st: State, e: Event, st': State, t: Tid)
    requires Step(cfg, st, e) == Some(st') && t in st'.threads
    ensures
      || (t in st.threads && st'.threads[t] == st.threads[t])
      || (e.FCall? && e.t == t && st'.threads[t] in {FStart(e.cookie), FReturned(e.cookie, ReauthRequired)})
      || (e.MCall? && e.t == t && st'.threads[t] in {MStart(e.cookie), MRejected})
      || (e.Fresh? && e.t == t && t in st.threads && StepFresh(cfg, st, t, e.f, st.threads[t]) == Some(st'))
      || (e.Guard? && e.t == t && t in st.threads && StepGuard(cfg, st, t, e.g, st.threads[t]) == Some(st'))
  {
    if e.Fresh? {
      FreshFrame(cfg, st, e.t, e.f, st.threads[e.t], st');
    } else if e.Guard? {
      GuardFrame(cfg, st, e.t, e.g, st.threads[e.t], st');
    }
  }

  lemma FreshSafe(cfg: Config, st: State, t: Tid, op: FreshOp, st': State)
    requires Safe(cfg, st) && t in st.threads && StepFresh(cfg, st, t, op, st.threads[t]) == Some(st')
    ensures Safe(cfg, st')
  {
    FreshFrame(cfg, st, t, op, st.threads[t], st');
    FreshMoverStaysOk(cfg, st, t, op, st.threads[t], st');
    FreshWritesWell(cfg, st, t, op, st.threads[t], st');
  }

  lemma GuardSafe(cfg: Config, st: State, t: Tid, op: GuardOp, st': State)
    requires Safe(cfg, st) && t in st.threads && StepGuard(cfg, st, t, op, st.threads[t]) == Some(st')
    ensures Safe(cfg, st')
  {
    GuardFrame(cfg, st, t, op, st.threads[t], st');
    GuardMoverStaysOk(cfg, st, t, op, st.threads[t], st');
    GuardWritesWell(cfg, st, t, op, st.threads[t], st');
  }

  /** Ticks, logins, deletes and new calls. */
  lemma OthersSafe(cfg: Config, st: State, e: Event, st': State)
    requires Safe(cfg, st) && Step(cfg, st, e) == Some(st') && !e.Fresh? && !e.Guard?
    ensures Safe(cfg, st')
  {
  }

  lemma SafeStep(cfg: Config, st: State, e: Event, st': State)
    requires Safe(cfg, st) && Step(cfg, st, e) == Some(st')
    ensures Safe(cfg, st')
  {
    if e.Fresh? {
      FreshSafe(cfg, st, e.t, e.f, st');
    } else if e.Guard? {
      GuardSafe(cfg, st, e.t, e.g, st');
    } else {
      OthersSafe(cfg, st, e, st');
    }
  }

  lemma {:induction false} SafeRun(cfg: Config, r: Run, i: nat)
    requires IsRun(cfg, r) && i < |r.states|
    ensures Safe(cfg, r.states[i])
  {
    if i > 0 {
      SafeRun(cfg, r, i - 1);
      SafeStep(cfg, r.states[i - 1], r.events[i - 1], r.states[i]);
    }
  }

  lemma NoEmptyID(cfg: Config, st: State, e: Event, st': State)
    requires Step(cfg, st, e) == Some(st') && "" !in st.born
    ensures "" !in st'.born
  {
    if e.Fresh? {
      FreshFrame(cfg, st, e.t, e.f, st.threads[e.t], st');
    } else if e.Guard? {
      GuardFrame(cfg, st, e.t, e.g, st.threads[e.t], st');
    }
  }

  /** No session has an empty ID. */
  lemma {:induction false} NoEmptySession(cfg: Config, r: Run, i: nat)
    requires IsRun(cfg, r) && i < |r.states|
    ensures "" !in r.states[i].born && "" !in r.states[i].store
    decreases i
  {
    SafeRun(cfg, r, i);
    if i > 0 {
      NoEmptySession(cfg, r, i - 1);
      NoEmptyID(cfg, r.states[i - 1], r.events[i - 1], r.states[i]);
    }
  }

  /** No step of a request adds a key to the store. */
  lemma FreshAddsNoKey(cfg: Config, st: State, t: Tid, op: FreshOp, pc: PC, st': State)
    requires StepFresh(cfg, st, t, op, pc) == Some(st')
    ensures st'.store.Keys <= st.store.Keys
  {
  }

  lemma GuardAddsNoKey(cfg: Config, st: State, t: Tid, op: GuardOp, pc: PC, st': State)
    requires StepGuard(cfg, st, t, op, pc) == Some(st')
    ensures st'.store.Keys <= st.store.Keys
  {
  }

  /** Only a login with a new id adds a key, and logins are never forgotten. */
  lemma StoreShrinks(cfg: Config, st: State, e: Event, st': State, sid: SessionId)
    requires Step(cfg, st, e) == Some(st') && sid in st.born
    ensures sid in st'.born && st'.born[sid] == st.born[sid]
    ensures sid in st'.store ==> sid in st.store
  {
    if e.Fresh? {
      FreshFrame(cfg, st, e.t, e.f, st.threads[e.t], st');
      FreshAddsNoKey(cfg, st, e.t, e.f, st.threads[e.t], st');
    } else if e.Guard? {
      GuardFrame(cfg, st, e.t, e.g, st.threads[e.t], st');
      GuardAddsNoKey(cfg, st, e.t, e.g, st.threads[e.t], st');
    }
  }

  lemma {:induction false} BornForGood(cfg: Config, r: Run, sid: SessionId, i: nat, j: nat)
    requires IsRun(cfg, r) && i <= j < |r.states| && sid in r.states[i].born
    ensures sid in r.states[j].born && r.states[j].born[sid] == r.states[i].born[sid]
    ensures sid in r.states[j].store ==> sid in r.states[i].store
    decreases j - i
  {
    if i < j {
      BornForGood(cfg, r, sid, i, j - 1);
      StoreShrinks(cfg, r.states[j - 1], r.events[j - 1], r.states[j], sid);
    }
  }

  /** A session that was there and is gone never comes back, whatever stale copies still circulate. */
  lemma DeletedNeverReappears(cfg: Config, r: Run, sid: SessionId, i: nat, j: nat, k: nat)
    requires IsRun(cfg, r) && i <= j <= k < |r.states|
    requires sid in r.states[i].store && sid !in r.states[j].store
    ensures sid !in r.states[k].store
  {
    SafeRun(cfg, r, i);
    BornForGood(cfg, r, sid, i, j);
    BornForGood(cfg, r, sid, j, k);
  }

  /** Subject, email, groups and absolute expiry are those of the login, at every later instant. */
  lemma LoginFieldsNeverChange(cfg: Config, r: Run, sid: SessionId, i: nat, j: nat)
    requires IsRun(cfg, r) && i < |r.events| && i < j < |r.states|
    requires r.events[i].Login? && r.events[i].session.id == sid && sid in r.states[j].store
    ensures SameLogin(r.states[j].store[sid], r.events[i].session)
  {
    assert Step(cfg, r.states[i], r.events[i]) == Some(r.states[i + 1]);
    BornForGood(cfg, r, sid, i + 1, j);
    SafeRun(cfg, r, j);
  }
}
