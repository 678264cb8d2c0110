/**
  Opening a cluster shell: the handler counts the actor's sessions, counts the cluster's, upgrades the
  connection and only then registers. Other handlers run in between, so the caps can be overrun by as
  many openings as overlap.
  */
module SessionCap {
  import opened Sequences
  import opened ShellRegistry

  datatype Caps = Caps(perUser: int, total: int)

  datatype Phase =
    | UserChecked(actor: string, cluster: string)
    | Upgrading(actor: string, cluster: string)
    | Open(actor: string, cluster: string, id: string)

  datatype State = State(sessions: Sessions, handlers: map<nat, Phase>)

  datatype Event =
    | CheckUser(h: nat, actor: string, cluster: string)
    | CheckCluster(h: nat)
    | UpgradeFails(h: nat)
    | Register(h: nat, id: string)
    | Leave(h: nat)

  function CapOf(caps: Caps, who: Who): int {
    match who
    case User(_) => caps.perUser
    case Cluster(_) => caps.total
  }

  predicate Admits(caps: Caps, s: State, who: Who) {
    |Registered(s.sessions, who)| < CapOf(caps, who)
  }

  predicate Enabled(s: State, e: Event) {
    match e
    case CheckUser(h, _, _) => h !in s.handlers
    case CheckCluster(h) => h in s.handlers && s.handlers[h].UserChecked?
    case UpgradeFails(h) => h in s.handlers && s.handlers[h].Upgrading?
    case Register(h, _) => h in s.handlers && s.handlers[h].Upgrading?
    case Leave(h) => h in s.handlers && s.handlers[h].Open?
  }

  function Gone(s: State, h: nat): State {
    s.(handlers := s.handlers - {h})
  }

  function Moved(s: State, h: nat, p: Phase): State {
    s.(handlers := s.handlers[h := p])
  }

  /** A refused handler answers 429, or 500 when its session ID is taken, and is gone. */
  function Step(caps: Caps, s: State, e: Event): State
    requires Enabled(s, e)
  {
    match e
    case CheckUser(h, actor, cluster) =>
      if Admits(caps, s, User(actor)) then Moved(s, h, UserChecked(actor, cluster)) else s
    case CheckCluster(h) =>
      var p := s.handlers[h];
      if Admits(caps, s, Cluster(p.cluster)) then Moved(s, h, Upgrading(p.actor, p.cluster)) else Gone(s, h)
    case UpgradeFails(h) => Gone(s, h)
    case Register(h, id) =>
      var p := s.handlers[h];
      if id in s.sessions then Gone(s, h)
      else Moved(s.(sessions := s.sessions[id := SessionRecord(id, p.actor, p.cluster)]), h,
                 Open(p.actor, p.cluster, id))
    case Leave(h) => Gone(s.(sessions := s.sessions - {s.handlers[h].id}), h)
  }

  ghost predicate IsRun(caps: Caps, states: seq<State>, events: seq<Event>) {
    && |states| == |events| + 1 && states[0] == State(map[], map[])
    && forall i :: 0 <= i < |events| ==>
         Enabled(states[i], events[i]) && states[i + 1] == Step(caps, states[i], events[i])
  }

  /** Between the check of this cap and the registration. */
  predicate InWindow(p: Phase, who: Who) {
    !p.Open? && Belongs(p.actor, p.cluster, who) && (who.Cluster? ==> p.Upgrading?)
  }

  function Window(s: State, who: Who): set<nat> {
    set h | h in s.handlers && InWindow(s.handlers[h], who)
  }

  function Load(s: State, who: Who): nat {
    |Registered(s.sessions, who)| + |Window(s, who)|
  }

  // The bound.

  lemma WindowMoves(s: State, h: nat, p: Phase, who: Who)
    ensures Window(Moved(s, h, p), who) == if InWindow(p, who) then Window(s, who) + {h} else Window(s, who) - {h}
  {
  }

  lemma RegisteredAdds(m: Sessions, r: SessionRecord, who: Who)
    requires r.id !in m
    ensures Registered(m[r.id := r], who)
            == if Belongs(r.actor, r.cluster, who) then Registered(m, who) + {r.id} else Registered(m, who)
  {
  }

  lemma RegisterLoad(caps: Caps, s: State, e: Event, who: Who)
    requires Enabled(s, e) && e.Register? && e.id !in s.sessions
    ensures Load(Step(caps, s, e), who) == Load(s, who)
  {
    var p := s.handlers[e.h];
    WindowMoves(s, e.h, Open(p.actor, p.cluster, e.id), who);
    RegisteredAdds(s.sessions, SessionRecord(e.id, p.actor, p.cluster), who);
    assert e.h in Window(s, who) <==> Belongs(p.actor, p.cluster, who);
    assert e.id !in Registered(s.sessions, who);
    assert Window(Step(caps, s, e), who) == Window(s, who) - {e.h};
  }

  lemma WindowShrinks(s: State, h: nat, m: Sessions, who: Who)
    requires m.Keys <= s.sessions.Keys && forall id :: id in m ==> m[id] == s.sessions[id]
    ensures Load(Gone(s.(sessions := m), h), who) <= Load(s, who)
  {
    var t := Gone(s.(sessions := m), h);
    assert Window(t, who) == Window(s, who) - {h};
    CardinalityOfSubset(Registered(m, who), Registered(s.sessions, who));
  }

  lemma CheckLoad(caps: Caps, s: State, e: Event, who: Who)
    requires Enabled(s, e) && (e.CheckUser? || e.CheckCluster?)
    ensures var t := Step(caps, s, e);
            || Load(t, who) <= Load(s, who)
            || (Registered(t.sessions, who) == Registered(s.sessions, who) && Admits(caps, s, who)
                && e.h !in Window(s, who) && Window(t, who) == Window(s, who) + {e.h})
  {
    if e.CheckUser? {
      WindowMoves(s, e.h, UserChecked(e.actor, e.cluster), who);
    } else {
      var p := s.handlers[e.h];
      WindowMoves(s, e.h, Upgrading(p.actor, p.cluster), who);
      WindowShrinks(s, e.h, s.sessions, who);
      if e.h in Window(s, who) {
        assert Window(s, who) + {e.h} == Window(s, who);
      }
    }
  }

  /** A step either admits one more to the window, below the cap, or does not raise the load. */
  lemma StepLoad(caps: Caps, s: State, e: Event, who: Who)
    requires Enabled(s, e)
    ensures var t := Step(caps, s, e);
            || Load(t, who) <= Load(s, who)
            || (Registered(t.sessions, who) == Registered(s.sessions, who) && Admits(caps, s, who)
                && e.h !in Window(s, who) && Window(t, who) == Window(s, who) + {e.h})
  {
    if e.CheckUser? || e.CheckCluster? {
      CheckLoad(caps, s, e, who);
    } else if e.Register? && e.id !in s.sessions {
      RegisterLoad(caps, s, e, who);
    } else if e.Leave? {
      WindowShrinks(s, e.h, s.sessions - {s.handlers[e.h].id}, who);
    } else {
      WindowShrinks(s, e.h, s.sessions, who);
    }
  }

  /** Registered sessions and those on the way in never exceed the cap by more than the openings
      that overlapped, less one. */
  lemma {:induction false} LoadIsBounded(caps: Caps, states: seq<State>, events: seq<Event>, who: Who, overlap: nat,
                                         i: nat)
    requires IsRun(caps, states, events) && i <= |events|
    requires forall j :: 0 <= j <= |events| ==> |Window(states[j], who)| <= overlap
    ensures Load(states[i], who) == 0 || Load(states[i], who) <= CapOf(caps, who) - 1 + overlap
  {
    if i == 0 {
      assert Registered(states[0].sessions, who) == {} && Window(states[0], who) == {};
    } else {
      LoadIsBounded(caps, states, events, who, overlap, i - 1);
      StepLoad(caps, states[i - 1], events[i - 1], who);
    }
  }

  /** Openings that do not overlap keep the cap. */
  lemma CapHoldsWithoutOverlap(caps: Caps, states: seq<State>, events: seq<Event>, who: Who, i: nat)
    requires IsRun(caps, states, events) && i <= |events| && CapOf(caps, who) >= 0
    requires forall j :: 0 <= j <= |events| ==> |Window(states[j], who)| <= 1
    ensures |Registered(states[i].sessions, who)| <= CapOf(caps, who)
  {
    LoadIsBounded(caps, states, events, who, 1, i);
  }

  // The registry.

  ghost predicate Holds(s: State, h: nat, id: string) {
    h in s.handlers && s.handlers[h].Open? && s.handlers[h].id == id
  }

  ghost predicate RegistryExact(s: State) {
    && (forall id :: id in s.sessions ==> exists h :: Holds(s, h, id))
    && (forall h, id :: Holds(s, h, id) ==>
          id in s.sessions && s.sessions[id] == SessionRecord(id, s.handlers[h].actor, s.handlers[h].cluster))
    && (forall g, h, id :: Holds(s, g, id) && Holds(s, h, id) ==> g == h)
  }

  lemma HoldsAfter(caps: Caps, s: State, e: Event, h: nat, id: string)
    requires Enabled(s, e)
    ensures Holds(Step(caps, s, e), h, id) <==>
            if h != e.h then Holds(s, h, id) else e.Register? && e.id == id && id !in s.sessions
  {
  }

  lemma StepKeepsRegistry(caps: Caps, s: State, e: Event)
    requires Enabled(s, e) && RegistryExact(s)
    ensures RegistryExact(Step(caps, s, e))
  {
    var t := Step(caps, s, e);
    if e.Leave? {
      assert Holds(s, e.h, s.handlers[e.h].id);
    }
    forall id | id in t.sessions ensures exists h :: Holds(t, h, id) {
      if id in s.sessions {
        var h :| Holds(s, h, id);
        HoldsAfter(caps, s, e, h, id);
      } else {
        HoldsAfter(caps, s, e, e.h, id);
      }
    }
    forall h, id | Holds(t, h, id)
      ensures id in t.sessions && t.sessions[id] == SessionRecord(id, t.handlers[h].actor, t.handlers[h].cluster)
    {
      HoldsAfter(caps, s, e, h, id);
    }
    forall g, h, id | Holds(t, g, id) && Holds(t, h, id) ensures g == h {
      HoldsAfter(caps, s, e, g, id);
      HoldsAfter(caps, s, e, h, id);
    }
  }

  /** The registry holds exactly the open sessions, each under the ID of one handler alone: a
      colliding ID is refused, so leaving never removes another handler's record. */
  lemma {:induction false} RegistryIsOpenSessions(caps: Caps, states: seq<State>, events: seq<Event>, i: nat)
    requires IsRun(caps, states, events) && i <= |events|
    ensures RegistryExact(states[i])
  {
    if i > 0 {
      RegistryIsOpenSessions(caps, states, events, i - 1);
      StepKeepsRegistry(caps, states[i - 1], events[i - 1]);
    }
  }

  // The bound is reached.

  ghost predicate Overlaps(states: seq<State>, who: Who, overlap: nat) {
    forall s :: s in states ==> |Window(s, who)| <= overlap
  }

  /** Some run in which at most `overlap` openings overlap leads to this state. */
  ghost predicate Reaches(caps: Caps, who: Who, overlap: nat, s: State) {
    exists states, events :: IsRun(caps, states, events) && states[|events|] == s && Overlaps(states, who, overlap)
  }

  lemma RunExtends(caps: Caps, states: seq<State>, events: seq<Event>, e: Event, t: State)
    requires IsRun(caps, states, events) && Enabled(states[|events|], e) && t == Step(caps, states[|events|], e)
    ensures IsRun(caps, states + [t], events + [e])
  {
    var more, es := states + [t], events + [e];
    forall i | 0 <= i < |es| ensures Enabled(more[i], es[i]) && more[i + 1] == Step(caps, more[i], es[i]) {
      if i < |events| {
        assert more[i] == states[i] && more[i + 1] == states[i + 1] && es[i] == events[i];
      }
    }
  }

  lemma ReachesNext(caps: Caps, who: Who, overlap: nat, s: State, e: Event, t: State)
    requires Reaches(caps, who, overlap, s) && Enabled(s, e) && t == Step(caps, s, e) && |Window(t, who)| <= overlap
    ensures Reaches(caps, who, overlap, t)
  {
    var states, events :| IsRun(caps, states, events) && states[|events|] == s && Overlaps(states, who, overlap);
    RunExtends(caps, states, events, e, t);
    assert (states + [t])[|events + [e]|] == t;
  }

  /** The cap in question is an actor's, or that of the cluster where the sessions are opened. */
  predicate Concerns(who: Who, cluster: string) {
    who.User? || who.name == cluster
  }

  /** For an actor's cap that actor opens sessions in the cluster, for the cluster's cap each handler is
      another actor's: `k` sessions are open and `w` handlers are past this cap's check. */
  ghost predicate Crowded(s: State, who: Who, cluster: string, k: nat, w: nat) {
    && Concerns(who, cluster)
    && |Registered(s.sessions, who)| == k && |Window(s, who)| == w
    && (who.User? ==> |Registered(s.sessions, Cluster(cluster))| == k)
    && forall h :: h in s.handlers && !s.handlers[h].Open? ==>
         if who.User? then s.handlers[h] == UserChecked(who.actor, cluster)
         else s.handlers[h].Upgrading? && s.handlers[h].cluster == cluster
  }

  /** The other cap leaves room for `n` sessions. */
  predicate Room(caps: Caps, who: Who, n: nat) {
    if who.User? then n <= caps.total else 0 < caps.perUser
  }

  lemma ActorChecks(caps: Caps, who: Who, cluster: string, overlap: nat, s: State, k: nat, w: nat) returns (t: State)
    requires Reaches(caps, who, overlap, s) && who.User? && Crowded(s, who, cluster, k, w) && k < caps.perUser
             && w < overlap
    ensures Reaches(caps, who, overlap, t) && Crowded(t, who, cluster, k, w + 1)
  {
    var h := FreshNat(s.handlers.Keys);
    var e := CheckUser(h, who.actor, cluster);
    t := Step(caps, s, e);
    WindowMoves(s, h, UserChecked(who.actor, cluster), who);
    assert h !in Window(s, who);
    ReachesNext(caps, who, overlap, s, e, t);
  }

  lemma FreshActor(m: Sessions) returns (a: string)
    ensures |Registered(m, User(a))| == 0
  {
    var actors: set<string> := set id | id in m :: m[id].actor;
    a := FreshID(actors);
    assert Registered(m, User(a)) == {};
  }

  /** An actor without sessions passes its own check ... */
  lemma StrangerChecks(caps: Caps, cluster: string, overlap: nat, s: State) returns (h: nat, a: string, t: State)
    requires Reaches(caps, Cluster(cluster), overlap, s) && 0 < caps.perUser && |Window(s, Cluster(cluster))| <= overlap
    ensures h !in s.handlers && t == Moved(s, h, UserChecked(a, cluster))
    ensures Reaches(caps, Cluster(cluster), overlap, t) && Window(t, Cluster(cluster)) == Window(s, Cluster(cluster))
            && h !in Window(s, Cluster(cluster))
  {
    h := FreshNat(s.handlers.Keys);
    a := FreshActor(s.sessions);
    t := Step(caps, s, CheckUser(h, a, cluster));
    WindowMoves(s, h, UserChecked(a, cluster), Cluster(cluster));
    assert h !in Window(s, Cluster(cluster)) && Window(t, Cluster(cluster)) == Window(s, Cluster(cluster));
    ReachesNext(caps, Cluster(cluster), overlap, s, CheckUser(h, a, cluster), t);
  }

  /** ... and the cluster's. */
  lemma StrangerUpgrades(caps: Caps, cluster: string, overlap: nat, s: State) returns (h: nat, a: string, t: State)
    requires Reaches(caps, Cluster(cluster), overlap, s) && 0 < caps.perUser && Admits(caps, s, Cluster(cluster))
    requires |Window(s, Cluster(cluster))| < overlap
    ensures h !in s.handlers && t == Moved(s, h, Upgrading(a, cluster))
    ensures Reaches(caps, Cluster(cluster), overlap, t) && h !in Window(s, Cluster(cluster))
            && Window(t, Cluster(cluster)) == Window(s, Cluster(cluster)) + {h}
  {
    var u;
    h, a, u := StrangerChecks(caps, cluster, overlap, s);
    t := Moved(u, h, Upgrading(a, cluster));
    WindowMoves(u, h, Upgrading(a, cluster), Cluster(cluster));
    ReachesNext(caps, Cluster(cluster), overlap, u, CheckCluster(h), t);
    assert t.handlers == s.handlers[h := Upgrading(a, cluster)];
  }

  lemma ClusterChecks(caps: Caps, cluster: string, overlap: nat, s: State, k: nat, w: nat) returns (t: State)
    requires Reaches(caps, Cluster(cluster), overlap, s) && Crowded(s, Cluster(cluster), cluster, k, w)
    requires 0 < caps.perUser && k < caps.total && w < overlap
    ensures Reaches(caps, Cluster(cluster), overlap, t) && Crowded(t, Cluster(cluster), cluster, k, w + 1)
  {
    var h, a;
    h, a, t := StrangerUpgrades(caps, cluster, overlap, s);
  }

  lemma OneMoreChecks(caps: Caps, who: Who, cluster: string, overlap: nat, s: State, k: nat, w: nat) returns (t: State)
    requires Reaches(caps, who, overlap, s) && Crowded(s, who, cluster, k, w) && Room(caps, who, 0)
    requires k < CapOf(caps, who) && w < overlap
    ensures Reaches(caps, who, overlap, t) && Crowded(t, who, cluster, k, w + 1)
  {
    if who.User? {
      t := ActorChecks(caps, who, cluster, overlap, s, k, w);
    } else {
      t := ClusterChecks(caps, cluster, overlap, s, k, w);
    }
  }

  lemma ActorUpgrades(caps: Caps, who: Who, cluster: string, overlap: nat, s: State, k: nat, w: nat)
    returns (h: nat, t: State)
    requires Reaches(caps, who, overlap, s) && who.User? && Crowded(s, who, cluster, k, w) && k < caps.total
             && 0 < w <= overlap
    ensures h in s.handlers && t == Moved(s, h, Upgrading(who.actor, cluster))
    ensures Reaches(caps, who, overlap, t) && |Window(t, who)| == w
  {
    assert Window(s, who) != {};
    h :| h in Window(s, who);
    t := Step(caps, s, CheckCluster(h));
    WindowMoves(s, h, Upgrading(who.actor, cluster), who);
    assert Window(s, who) + {h} == Window(s, who);
    ReachesNext(caps, who, overlap, s, CheckCluster(h), t);
  }

  /** A handler between upgrade and registration registers. */
  lemma Registers(caps: Caps, who: Who, overlap: nat, s: State, k: nat, w: nat, h: nat) returns (t: State)
    requires Reaches(caps, who, overlap, s) && |Registered(s.sessions, who)| == k && |Window(s, who)| == w <= overlap
    requires h in s.handlers && s.handlers[h].Upgrading? && InWindow(s.handlers[h], who)
    ensures Reaches(caps, who, overlap, t)
    ensures |Registered(t.sessions, who)| == k + 1 && |Window(t, who)| == w - 1
    ensures t.handlers.Keys == s.handlers.Keys && t.handlers[h].Open?
    ensures forall g :: g in s.handlers && g != h ==> t.handlers[g] == s.handlers[g]
    ensures exists id :: id !in s.sessions
              && t.sessions == s.sessions[id := SessionRecord(id, s.handlers[h].actor, s.handlers[h].cluster)]
  {
    var p := s.handlers[h];
    var id := FreshID(s.sessions.Keys);
    t := Step(caps, s, Register(h, id));
    RegisteredAdds(s.sessions, SessionRecord(id, p.actor, p.cluster), who);
    WindowMoves(s, h, Open(p.actor, p.cluster, id), who);
    assert h in Window(s, who) && id !in Registered(s.sessions, who) && Window(t, who) == Window(s, who) - {h};
    ReachesNext(caps, who, overlap, s, Register(h, id), t);
  }

  lemma OneMoreRegisters(caps: Caps, who: Who, cluster: string, overlap: nat, s: State, k: nat, w: nat)
    returns (t: State)
    requires Reaches(caps, who, overlap, s) && Crowded(s, who, cluster, k, w) && 0 < w <= overlap
             && Room(caps, who, k + 1)
    ensures Reaches(caps, who, overlap, t) && Crowded(t, who, cluster, k + 1, w - 1)
  {
    if who.User? {
      var h, u := ActorUpgrades(caps, who, cluster, overlap, s, k, w);
      t := Registers(caps, who, overlap, u, k, w, h);
      var id :| id !in u.sessions && t.sessions == u.sessions[id := SessionRecord(id, who.actor, cluster)];
      RegisteredAdds(u.sessions, SessionRecord(id, who.actor, cluster), Cluster(cluster));
      assert id !in Registered(u.sessions, Cluster(cluster));
    } else {
      assert Window(s, who) != {};
      var h :| h in Window(s, who);
      t := Registers(caps, who, overlap, s, k, w, h);
    }
  }

  lemma NothingOpen(caps: Caps, who: Who, cluster: string, overlap: nat)
    requires Concerns(who, cluster)
    ensures Reaches(caps, who, overlap, State(map[], map[])) && Crowded(State(map[], map[]), who, cluster, 0, 0)
  {
    var s := State(map[], map[]);
    assert Window(s, who) == {} && Registered(s.sessions, who) == {} && Registered(s.sessions, Cluster(cluster)) == {};
    assert IsRun(caps, [s], []) && [s][0] == s;
  }

  lemma {:induction false} OpensInTurn(caps: Caps, who: Who, cluster: string, overlap: nat, k: nat) returns (s: State)
    requires Concerns(who, cluster) && Room(caps, who, k) && k < CapOf(caps, who) && overlap > 0
    ensures Reaches(caps, who, overlap, s) && Crowded(s, who, cluster, k, 0)
    decreases k
  {
    if k == 0 {
      s := State(map[], map[]);
      NothingOpen(caps, who, cluster, overlap);
    } else {
      s := OpensInTurn(caps, who, cluster, overlap, k - 1);
      s := OneMoreChecks(caps, who, cluster, overlap, s, k - 1, 0);
      s := OneMoreRegisters(caps, who, cluster, overlap, s, k - 1, 1);
    }
  }

  lemma {:induction false} AllCheck(caps: Caps, who: Who, cluster: string, overlap: nat, k: nat, w: nat)
    returns (s: State)
    requires Concerns(who, cluster) && Room(caps, who, k) && k < CapOf(caps, who) && w <= overlap && overlap > 0
    ensures Reaches(caps, who, overlap, s) && Crowded(s, who, cluster, k, w)
    decreases w
  {
    if w == 0 {
      s := OpensInTurn(caps, who, cluster, overlap, k);
    } else {
      s := AllCheck(caps, who, cluster, overlap, k, w - 1);
      s := OneMoreChecks(caps, who, cluster, overlap, s, k, w - 1);
    }
  }

  lemma {:induction false} AllRegister(caps: Caps, who: Who, cluster: string, overlap: nat, n: nat) returns (s: State)
    requires Concerns(who, cluster) && 0 < CapOf(caps, who) && n <= overlap && overlap > 0
    requires Room(caps, who, CapOf(caps, who) - 1 + overlap)
    ensures Reaches(caps, who, overlap, s) && Crowded(s, who, cluster, CapOf(caps, who) - 1 + n, overlap - n)
    decreases n
  {
    var cap := CapOf(caps, who);
    if n == 0 {
      s := AllCheck(caps, who, cluster, overlap, cap - 1, overlap);
    } else {
      s := AllRegister(caps, who, cluster, overlap, n - 1);
      s := OneMoreRegisters(caps, who, cluster, overlap, s, cap - 1 + n - 1, overlap - n + 1);
    }
  }

  /** The bound is exact, for the cap of any actor, in any cluster, and for that of any cluster: with `overlap`
      openings at once `cap - 1 + overlap` sessions can be held, so from two on the cap is overrun. */
  lemma BoundIsReached(caps: Caps, who: Who, cluster: string, overlap: nat)
    requires Concerns(who, cluster) && 0 < CapOf(caps, who) && 0 < overlap
    requires Room(caps, who, CapOf(caps, who) - 1 + overlap)
    ensures exists s ::
              Reaches(caps, who, overlap, s) && |Registered(s.sessions, who)| == CapOf(caps, who) - 1 + overlap
  {
    var s := AllRegister(caps, who, cluster, overlap, overlap);
  }
}
