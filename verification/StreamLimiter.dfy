/**
  The per-user cap on watch streams and the registry of active streams, under any interleaving of
  handlers. A handler acquires a slot, registers its stream, and on the way out deregisters it and
  then releases the slot.
  */
module StreamLimiter {
  import opened Ordering
  import opened Sequences

  datatype StreamEntry = StreamEntry(id: int, actor: string, cluster: string, kind: string, namespace_: string,
                                     openedAt: int)

  type Counts = map<string, nat>

  function CountOf(counts: Counts, actor: string): nat {
    if actor in counts then counts[actor] else 0
  }

  function Admits(max: nat, counts: Counts, actor: string): bool {
    max == 0 || CountOf(counts, actor) < max
  }

  function Acquired(max: nat, counts: Counts, actor: string): Counts {
    if max == 0 || CountOf(counts, actor) >= max then counts
    else counts[actor := CountOf(counts, actor) + 1]
  }

  function Released(max: nat, counts: Counts, actor: string): Counts {
    if max == 0 then counts
    else if CountOf(counts, actor) <= 1 then counts - {actor}
    else counts[actor := CountOf(counts, actor) - 1]
  }

  class UserStreamLimiter {
    const max: nat
    var counts: Counts

    constructor (max: int)
      ensures this.max == (if max < 0 then 0 else max) && counts == map[]
    {
      this.max := if max < 0 then 0 else max;
      counts := map[];
    }

    method Acquire(actor: string) returns (ok: bool)
      modifies this
      ensures ok == Admits(max, old(counts), actor)
      ensures counts == Acquired(max, old(counts), actor)
    {
      if max == 0 {
        return true;
      }
      if CountOf(counts, actor) >= max {
        return false;
      }
      counts := counts[actor := CountOf(counts, actor) + 1];
      return true;
    }

    method Release(actor: string)
      modifies this
      ensures counts == Released(max, old(counts), actor)
    {
      if max == 0 {
        return;
      }
      if CountOf(counts, actor) > 0 {
        counts := counts[actor := CountOf(counts, actor) - 1];
      }
      if CountOf(counts, actor) == 0 {
        counts := counts - {actor};
      }
    }
  }

  predicate IdLe(a: StreamEntry, b: StreamEntry) {
    a.id <= b.id
  }

  ghost predicate Lists(active: map<int, StreamEntry>, out: seq<StreamEntry>) {
    && (forall e :: e in out ==> e.id in active && active[e.id] == e)
    && (forall id :: id in active ==> active[id] in out)
  }

  /** A snapshot: every active entry once, oldest stream first. */
  ghost predicate SnapshotOf(active: map<int, StreamEntry>, out: seq<StreamEntry>) {
    && Lists(active, out)
    && |out| == |active|
    && (forall i, j :: 0 <= i < j < |out| ==> out[i].id < out[j].id)
  }

  class StreamTracker {
    var next: int
    var active: map<int, StreamEntry>

    constructor ()
      ensures next == 0 && active == map[]
    {
      next, active := 0, map[];
    }

    method Register(e: StreamEntry) returns (id: int)
      modifies this
      ensures next == old(next) + 1 && id == next
      ensures active == old(active)[next := e.(id := next)]
    {
      next := next + 1;
      active := active[next := e.(id := next)];
      return next;
    }

    method Deregister(id: int)
      modifies this
      ensures next == old(next) && active == old(active) - {id}
    {
      active := active - {id};
    }

    method Snapshot() returns (out: seq<StreamEntry>)
      requires forall id :: id in active ==> active[id].id == id
      ensures SnapshotOf(active, out)
    {
      out := [];
      var todo := active.Keys;
      while todo != {}
        invariant todo <= active.Keys
        invariant forall e :: e in out ==> e.id in active && e.id !in todo && active[e.id] == e
        invariant forall id :: id in active && id !in todo ==> active[id] in out
        invariant Distinct(out) && |out| + |todo| == |active|
      {
        SomeId(todo);
        var id :| id in todo;
        todo := todo - {id};
        out := out + [active[id]];
      }
      SortSnapshot(active, out);
      out := Sort(out, IdLe);
    }
  }

  lemma SomeId(ids: set<int>)
    requires ids != {}
    ensures exists id :: id in ids
  {
    assert (forall id :: id !in ids) ==> ids == {};
  }

  lemma SortSnapshot(active: map<int, StreamEntry>, out: seq<StreamEntry>)
    requires Lists(active, out) && Distinct(out) && |out| == |active|
    ensures SnapshotOf(active, Sort(out, IdLe))
  {
    SortSorts(out, IdLe);
    var s := Sort(out, IdLe);
    PermutationKeepsDistinct(out, s);
    forall e ensures e in s <==> e in out {
      SameElements(out, s, e);
    }
    forall i, j | 0 <= i < j < |s| ensures s[i].id < s[j].id {
      assert IdLe(s[i], s[j]) && s[i] in out && s[j] in out;
    }
  }

  // Handlers.

  datatype Phase =
    | Holding                // the slot is acquired
    | Streaming(id: int)     // registered
    | Closing                // deregistered again

  datatype Handler = Handler(actor: string, phase: Phase)

  datatype State = State(counts: Counts, next: int, active: map<int, StreamEntry>, open: map<nat, Handler>)

  datatype Event =
    | Acquire(h: nat, actor: string)
    | Register(h: nat, entry: StreamEntry)
    | Deregister(h: nat)
    | Release(h: nat)

  predicate Enabled(max: nat, s: State, e: Event) {
    match e
    case Acquire(h, _) => h !in s.open
    case Register(h, entry) => h in s.open && s.open[h].phase.Holding? && entry.actor == s.open[h].actor
    case Deregister(h) => h in s.open && s.open[h].phase.Streaming?
    case Release(h) => h in s.open && !s.open[h].phase.Streaming?
  }

  /** A refused handler answers 429 and is gone; an opened one moves from phase to phase. */
  function Step(max: nat, s: State, e: Event): State
    requires Enabled(max, s, e)
  {
    match e
    case Acquire(h, actor) =>
      s.(counts := Acquired(max, s.counts, actor),
         open := if Admits(max, s.counts, actor) then s.open[h := Handler(actor, Holding)] else s.open)
    case Register(h, entry) =>
      s.(next := s.next + 1, active := s.active[s.next + 1 := entry.(id := s.next + 1)],
         open := s.open[h := s.open[h].(phase := Streaming(s.next + 1))])
    case Deregister(h) =>
      s.(active := s.active - {s.open[h].phase.id}, open := s.open[h := s.open[h].(phase := Closing)])
    case Release(h) =>
      s.(counts := Released(max, s.counts, s.open[h].actor), open := s.open - {h})
  }

  ghost predicate IsRun(max: nat, states: seq<State>, events: seq<Event>) {
    && |states| == |events| + 1 && states[0] == State(map[], 0, map[], map[])
    && forall i :: 0 <= i < |events| ==>
         Enabled(max, states[i], events[i]) && states[i + 1] == Step(max, states[i], events[i])
  }

  /** The handlers of an actor between Acquire and Release. */
  function OpenOf(s: State, actor: string): set<nat> {
    set h | h in s.open && s.open[h].actor == actor
  }

  ghost predicate CountExact(max: nat, s: State, actor: string) {
    && (actor in s.counts ==> 0 < s.counts[actor] <= max)
    && CountOf(s.counts, actor) == if max == 0 then 0 else |OpenOf(s, actor)|
  }

  lemma OpenAfter(max: nat, s: State, e: Event, actor: string)
    requires Enabled(max, s, e)
    ensures var was, now := OpenOf(s, actor), OpenOf(Step(max, s, e), actor);
            && (e.Acquire? ==> now == if actor == e.actor && Admits(max, s.counts, actor) then was + {e.h} else was)
            && (e.Release? ==> now == if actor == s.open[e.h].actor then was - {e.h} else was)
            && (e.Register? || e.Deregister? ==> now == was)
  {
  }

  lemma CountsAfter(max: nat, s: State, e: Event, actor: string)
    requires CountExact(max, s, actor) && Enabled(max, s, e)
    ensures var t := Step(max, s, e);
            && (actor in t.counts ==> 0 < t.counts[actor] <= max)
            && CountOf(t.counts, actor) == CountOf(s.counts, actor)
                 + (if e.Acquire? && actor == e.actor && max > 0 && Admits(max, s.counts, actor) then 1 else 0)
                 - (if e.Release? && actor == s.open[e.h].actor && CountOf(s.counts, actor) > 0 then 1 else 0)
  {
  }

  lemma CountStaysExact(max: nat, s: State, e: Event, actor: string)
    requires CountExact(max, s, actor) && Enabled(max, s, e)
    ensures CountExact(max, Step(max, s, e), actor)
  {
    OpenAfter(max, s, e, actor);
    CountsAfter(max, s, e, actor);
    if e.Acquire? {
      assert e.h !in OpenOf(s, actor);
    } else if e.Release? && actor == s.open[e.h].actor {
      assert e.h in OpenOf(s, actor);
    }
  }

  /** The ids under which the open handlers are registered. */
  ghost predicate Streams(s: State, h: nat, id: int) {
    h in s.open && s.open[h].phase == Streaming(id)
  }

  ghost predicate TrackedExact(s: State) {
    && s.next >= 0
    && (forall id :: id in s.active ==> 1 <= id <= s.next && s.active[id].id == id)
    && (forall id :: id in s.active ==> exists h :: Streams(s, h, id))
    && (forall h, id :: Streams(s, h, id) ==> id in s.active && s.active[id].actor == s.open[h].actor)
    && (forall g, h, id :: Streams(s, g, id) && Streams(s, h, id) ==> g == h)
  }

  lemma StreamsAfter(max: nat, s: State, e: Event, h: nat, id: int)
    requires Enabled(max, s, e)
    ensures Streams(Step(max, s, e), h, id) <==>
            match e
            case Register(g, _) => if h == g then id == s.next + 1 else Streams(s, h, id)
            case Deregister(g) => h != g && Streams(s, h, id)
            case Acquire(_, _) => Streams(s, h, id)
            case Release(_) => Streams(s, h, id)
  {
  }

  lemma TrackedStaysExact(max: nat, s: State, e: Event)
    requires TrackedExact(s) && Enabled(max, s, e)
    ensures TrackedExact(Step(max, s, e))
  {
    var t := Step(max, s, e);
    if e.Deregister? {
      assert Streams(s, e.h, s.open[e.h].phase.id);
    }
    forall id | id in t.active ensures exists h :: Streams(t, h, id) {
      if e.Register? && id == t.next {
        StreamsAfter(max, s, e, e.h, id);
      } else {
        var h :| Streams(s, h, id);
        StreamsAfter(max, s, e, h, id);
      }
    }
    forall h, id | Streams(t, h, id) ensures id in t.active && t.active[id].actor == t.open[h].actor {
      StreamsAfter(max, s, e, h, id);
    }
    forall g, h, id | Streams(t, g, id) && Streams(t, h, id) ensures g == h {
      StreamsAfter(max, s, e, g, id);
      StreamsAfter(max, s, e, h, id);
    }
  }

  lemma {:induction false} RunCountsExactly(max: nat, states: seq<State>, events: seq<Event>, i: nat, actor: string)
    requires IsRun(max, states, events) && i <= |events|
    ensures CountExact(max, states[i], actor)
  {
    if i == 0 {
      assert OpenOf(states[0], actor) == {};
    } else {
      RunCountsExactly(max, states, events, i - 1, actor);
      CountStaysExact(max, states[i - 1], events[i - 1], actor);
    }
  }

  lemma {:induction false} RunTracksExactly(max: nat, states: seq<State>, events: seq<Event>, i: nat)
    requires IsRun(max, states, events) && i <= |events|
    ensures TrackedExact(states[i])
  {
    if i > 0 {
      RunTracksExactly(max, states, events, i - 1);
      TrackedStaysExact(max, states[i - 1], events[i - 1]);
    }
  }

  /** With a cap: an actor's count is the number of its open handlers, is never over the cap, and
      takes no room when it is zero. */
  lemma CountIsOpenHandlers(max: nat, states: seq<State>, events: seq<Event>, i: nat, actor: string)
    requires IsRun(max, states, events) && i <= |events| && max > 0
    ensures CountOf(states[i].counts, actor) == |OpenOf(states[i], actor)| <= max
    ensures actor in states[i].counts <==> OpenOf(states[i], actor) != {}
  {
    RunCountsExactly(max, states, events, i, actor);
  }

  /** A handler is refused exactly when its actor has as many handlers open as the cap allows. */
  lemma RefusedExactlyAtCap(max: nat, states: seq<State>, events: seq<Event>, i: nat)
    requires IsRun(max, states, events) && i < |events| && events[i].Acquire?
    ensures events[i].h in states[i + 1].open <==> max == 0 || |OpenOf(states[i], events[i].actor)| < max
  {
    RunCountsExactly(max, states, events, i, events[i].actor);
  }

  function ActiveOf(s: State, actor: string): set<int> {
    set id | id in s.active && s.active[id].actor == actor
  }

  /** The tracker shows exactly the registered streams, each under an id of its own ... */
  lemma TrackerShowsOpenStreams(max: nat, states: seq<State>, events: seq<Event>, i: nat, id: int)
    requires IsRun(max, states, events) && i <= |events|
    ensures id in states[i].active <==> exists h :: Streams(states[i], h, id)
    ensures forall g, h :: Streams(states[i], g, id) && Streams(states[i], h, id) ==> g == h
    ensures id in states[i].active ==> states[i].active[id].id == id <= states[i].next
  {
    RunTracksExactly(max, states, events, i);
  }

  lemma NextGrows(max: nat, states: seq<State>, events: seq<Event>, i: nat, j: nat)
    requires IsRun(max, states, events) && i <= j <= |events|
    ensures states[i].next <= states[j].next
    decreases j
  {
    if i < j {
      NextGrows(max, states, events, i, j - 1);
    }
  }

  /** ... that no later stream gets again. */
  lemma IdsAreNotReused(max: nat, states: seq<State>, events: seq<Event>, i: nat, j: nat)
    requires IsRun(max, states, events) && i < j < |events| && events[i].Register? && events[j].Register?
    ensures states[i + 1].next < states[j + 1].next
    ensures states[i + 1].open[events[i].h].phase == Streaming(states[i + 1].next)
    ensures states[j + 1].open[events[j].h].phase == Streaming(states[j + 1].next)
  {
    NextGrows(max, states, events, i + 1, j);
  }

  /** What the operators see is capped as well: an actor never has more than `max` streams listed. */
  lemma ListedStreamsAreCapped(max: nat, states: seq<State>, events: seq<Event>, i: nat, actor: string)
    requires IsRun(max, states, events) && i <= |events| && max > 0
    ensures |ActiveOf(states[i], actor)| <= max
  {
    var s := states[i];
    RunTracksExactly(max, states, events, i);
    RunCountsExactly(max, states, events, i, actor);
    FewIds(s, ActiveOf(s, actor), OpenOf(s, actor));
  }

  lemma {:induction false} FewIds(s: State, ids: set<int>, handlers: set<nat>)
    requires TrackedExact(s) && ids <= s.active.Keys
    requires forall h, id :: Streams(s, h, id) && id in ids ==> h in handlers
    ensures |ids| <= |handlers|
    decreases |ids|
  {
    if ids != {} {
      SomeId(ids);
      var id :| id in ids;
      var h :| Streams(s, h, id);
      FewIds(s, ids - {id}, handlers - {h});
    }
  }
}
