/**
  One watch stream: a producer goroutine offers events to a sink over a bounded channel, and the
  handler's select loop writes them to the client until the client, the server, the session or the
  producer ends it. Every interleaving of their steps is a run.
  */
module WatchStream {

  const CHANNEL_CAP: nat := 256

  datatype Kind = Snapshot | Added | Modified | Deleted | Relist | Unknown

  datatype WatchEvent = WatchEvent(kind: Kind, resourceVersion: string, payload: string)

  datatype StreamErr = NoErr | Canceled | Failed(message: string)

  datatype Terminal = Shutdown | AuthExpired | Error(message: string) | Backpressure

  datatype Frame = Data(kind: Kind, id: string, payload: string) | Ping | End(terminal: Terminal)

  datatype CloseReason = CtxDone | ServerShutdown | AuthGone | StreamFailed | Overflowed | Eof

  /** Where the producer is: between Sends, inside one before or after its first check, refused,
      returned, or through with closing the channel and then the done signal. */
  datatype Producer =
    | Running
    | Sending(ev: WatchEvent)
    | Passed(ev: WatchEvent)
    | Refused
    | Returned
    | ChannelClosed
    | Exited

  /** Where the handler is: in its loop, waiting for the producer to exit, or back from the request. */
  datatype Handler = Looping | AwaitAfterCancel | AwaitAfterClose | Gone

  /** `offered`, `accepted` and `taken` record the events that entered Send, entered the channel and
      left it. */
  datatype State = State(
    producer: Producer,
    streamErr: StreamErr,
    closedByBackpressure: bool,
    queue: seq<WatchEvent>,
    ctxDone: bool,
    serverDone: bool,
    handler: Handler,
    closeReason: CloseReason,
    wire: seq<Frame>,
    offered: seq<WatchEvent>,
    accepted: seq<WatchEvent>,
    taken: seq<WatchEvent>)

  datatype Event =
    | Offer(ev: WatchEvent) | SendSeesDone | SendPasses | SendEnqueues | SendCancelled | SendOverflows
    | WatchReturns(err: StreamErr) | CloseChannel | CloseDone
    | ClientCancels | ServerStops
    | SeesCancel | FinishesAfterCancel | SeesShutdown | AuthTick(valid: bool) | Heartbeat
    | Takes | SeesClosed | FinishesAfterClose

  /** The frames that an event becomes: a kind the writer does not know becomes none. */
  function Emit(ev: WatchEvent): seq<Frame> {
    match ev.kind
    case Unknown => []
    case Relist => [Data(Relist, "", "gone_410")]
    case Snapshot => [Data(ev.kind, ev.resourceVersion, ev.payload)]
    case Added => [Data(ev.kind, ev.resourceVersion, ev.payload)]
    case Modified => [Data(ev.kind, ev.resourceVersion, ev.payload)]
    case Deleted => [Data(ev.kind, ev.resourceVersion, ev.payload)]
  }

  function Start(): State {
    State(Running, NoErr, false, [], false, false, Looping, CtxDone, [], [], [], [])
  }

  predicate Enabled(s: State, e: Event) {
    match e
    case Offer(_) => s.producer.Running?
    case SendSeesDone => s.producer.Sending? && s.ctxDone
    case SendPasses => s.producer.Sending? && !s.ctxDone
    case SendEnqueues => s.producer.Passed? && |s.queue| < CHANNEL_CAP
    case SendCancelled => s.producer.Passed? && s.ctxDone
    case SendOverflows => s.producer.Passed? && |s.queue| >= CHANNEL_CAP && !s.ctxDone
    case WatchReturns(_) => s.producer.Running? || s.producer.Refused?
    case CloseChannel => s.producer.Returned?
    case CloseDone => s.producer.ChannelClosed?
    case ClientCancels => true
    case ServerStops => true
    case SeesCancel => s.handler.Looping? && s.ctxDone
    case FinishesAfterCancel => s.handler.AwaitAfterCancel? && s.producer.Exited?
    case SeesShutdown => s.handler.Looping? && s.serverDone
    case AuthTick(_) => s.handler.Looping?
    case Heartbeat => s.handler.Looping?
    case Takes => s.handler.Looping? && s.queue != []
    case SeesClosed => s.handler.Looping? && s.queue == [] && (s.producer.ChannelClosed? || s.producer.Exited?)
    case FinishesAfterClose => s.handler.AwaitAfterClose? && s.producer.Exited?
  }

  function Finish(s: State): State {
    if s.streamErr.Failed? then
      s.(handler := Gone, closeReason := StreamFailed, wire := s.wire + [End(Error(s.streamErr.message))])
    else if s.closedByBackpressure then
      s.(handler := Gone, closeReason := Overflowed, wire := s.wire + [End(Backpressure)])
    else
      s.(handler := Gone, closeReason := Eof)
  }

  function ProducerStep(s: State, e: Event): State
    requires Enabled(s, e)
  {
    match e
    case Offer(ev) => s.(producer := Sending(ev), offered := s.offered + [ev])
    case SendSeesDone => s.(producer := Refused)
    case SendPasses => s.(producer := Passed(s.producer.ev))
    case SendEnqueues =>
      s.(producer := Running, queue := s.queue + [s.producer.ev], accepted := s.accepted + [s.producer.ev])
    case SendCancelled => s.(producer := Refused)
    case SendOverflows => s.(producer := Refused, closedByBackpressure := true)
    case WatchReturns(err) => s.(producer := Returned, streamErr := err)
    case CloseChannel => s.(producer := ChannelClosed)
    case CloseDone => s.(producer := Exited)
    case _ => s
  }

  function HandlerStep(s: State, e: Event): State
    requires Enabled(s, e)
  {
    match e
    case ClientCancels => s.(ctxDone := true)
    case ServerStops => s.(serverDone := true)
    case SeesCancel => s.(handler := AwaitAfterCancel)
    case FinishesAfterCancel => s.(handler := Gone)
    case SeesShutdown => s.(handler := Gone, closeReason := ServerShutdown, wire := s.wire + [End(Shutdown)])
    case AuthTick(valid) =>
      if valid then s else s.(handler := Gone, closeReason := AuthGone, wire := s.wire + [End(AuthExpired)])
    case Heartbeat => s.(wire := s.wire + [Ping])
    case Takes => s.(queue := s.queue[1..], taken := s.taken + [s.queue[0]], wire := s.wire + Emit(s.queue[0]))
    case SeesClosed => s.(handler := AwaitAfterClose)
    case FinishesAfterClose => Finish(s)
    case _ => s
  }

  predicate OfProducer(e: Event) {
    e.Offer? || e.SendSeesDone? || e.SendPasses? || e.SendEnqueues? || e.SendCancelled? || e.SendOverflows?
    || e.WatchReturns? || e.CloseChannel? || e.CloseDone?
  }

  function Step(s: State, e: Event): State
    requires Enabled(s, e)
  {
    if OfProducer(e) then ProducerStep(s, e) else HandlerStep(s, e)
  }

  ghost predicate IsRun(states: seq<State>, events: seq<Event>) {
    && |states| == |events| + 1 && states[0] == Start()
    && forall i :: 0 <= i < |events| ==> Enabled(states[i], events[i]) && states[i + 1] == Step(states[i], events[i])
  }

  // What the client got.

  function EmitAll(evs: seq<WatchEvent>): seq<Frame> {
    if evs == [] then [] else EmitAll(evs[..|evs| - 1]) + Emit(evs[|evs| - 1])
  }

  /** The data frames of a stream, without heartbeats and the closing event. */
  function DataOf(wire: seq<Frame>): seq<Frame> {
    if wire == [] then []
    else DataOf(wire[..|wire| - 1]) + if wire[|wire| - 1].Data? then [wire[|wire| - 1]] else []
  }

  /** The events of the kinds that the writer knows. */
  function Known(evs: seq<WatchEvent>): seq<WatchEvent> {
    if evs == [] then []
    else Known(evs[..|evs| - 1]) + if evs[|evs| - 1].kind == Unknown then [] else [evs[|evs| - 1]]
  }

  /** The frames are those of the events, one for one and in order: each has its event's kind, resource version
      and payload, but for a relist, which has neither and says why. */
  predicate Tell(frames: seq<Frame>, evs: seq<WatchEvent>) {
    && |frames| == |Known(evs)|
    && forall k :: 0 <= k < |frames| ==>
         var ev := Known(evs)[k];
         frames[k] == if ev.kind == Relist then Data(Relist, "", "gone_410")
                      else Data(ev.kind, ev.resourceVersion, ev.payload)
  }

  /** The closing events of a stream. */
  function EndsOf(wire: seq<Frame>): seq<Terminal> {
    if wire == [] then []
    else EndsOf(wire[..|wire| - 1]) + if wire[|wire| - 1].End? then [wire[|wire| - 1].terminal] else []
  }

  // The invariant.

  predicate Stopped(p: Producer) {
    p.Refused? || p.Returned? || p.ChannelClosed? || p.Exited?
  }

  /** The channel passes on what it took, in order; a refused event is the last one offered. */
  ghost predicate ChannelOk(s: State) {
    && s.accepted == s.taken + s.queue
    && |s.queue| <= CHANNEL_CAP
    && (s.producer.Running? ==> s.offered == s.accepted)
    && (s.producer.Sending? || s.producer.Passed? ==> s.offered == s.accepted + [s.producer.ev])
    && (Stopped(s.producer) && s.offered != s.accepted ==>
          |s.offered| == |s.accepted| + 1 && s.accepted == s.offered[..|s.accepted|]
          && (s.closedByBackpressure || s.ctxDone))
    && (s.closedByBackpressure ==> Stopped(s.producer) && s.offered != s.accepted && |s.accepted| >= CHANNEL_CAP)
    && (s.producer.Refused? ==> s.offered != s.accepted)
  }

  ghost predicate HandlerOk(s: State) {
    && (s.handler.AwaitAfterClose? || s.closeReason in {StreamFailed, Overflowed, Eof} ==>
          s.queue == [] && (s.producer.ChannelClosed? || s.producer.Exited?))
    && (s.closeReason != CtxDone ==> s.handler.Gone?)
    && (s.closeReason == Overflowed ==> s.closedByBackpressure && !s.streamErr.Failed?)
    && (s.closeReason == Eof ==> !s.closedByBackpressure && !s.streamErr.Failed?)
  }

  predicate EndsWith(s: State, t: Terminal) {
    match t
    case Shutdown => s.closeReason == ServerShutdown
    case AuthExpired => s.closeReason == AuthGone
    case Error(m) => s.closeReason == StreamFailed && s.streamErr == Failed(m)
    case Backpressure => s.closeReason == Overflowed
  }

  /** Before the handler closes the stream there is no closing event; after, there is one, as the
      last frame, unless the client left or the producer came to its end. */
  ghost predicate EndOk(s: State) {
    if s.closeReason == CtxDone || s.closeReason == Eof then EndsOf(s.wire) == []
    else
      && s.wire != [] && EndsOf(s.wire[..|s.wire| - 1]) == []
      && s.wire[|s.wire| - 1].End? && EndsWith(s, s.wire[|s.wire| - 1].terminal)
  }

  ghost predicate DataOk(s: State) {
    DataOf(s.wire) == EmitAll(s.taken)
  }

  ghost predicate Ok(s: State) {
    ChannelOk(s) && HandlerOk(s) && DataOk(s) && EndOk(s)
  }

  lemma ProducerKeepsChannel(s: State, e: Event)
    requires Ok(s) && Enabled(s, e) && OfProducer(e)
    ensures ChannelOk(Step(s, e))
  {
  }

  lemma TakesKeepsChannel(s: State)
    requires ChannelOk(s) && Enabled(s, Takes)
    ensures ChannelOk(Step(s, Takes))
  {
    assert s.queue == [s.queue[0]] + s.queue[1..];
  }

  /** The handler's other steps touch nothing of the producer's and the channel's. */
  lemma HandlerFrame(s: State, e: Event)
    requires Enabled(s, e) && !OfProducer(e) && !e.Takes?
    ensures var t := Step(s, e);
            && t.producer == s.producer && t.streamErr == s.streamErr
            && t.closedByBackpressure == s.closedByBackpressure
            && t.queue == s.queue && t.offered == s.offered && t.accepted == s.accepted && t.taken == s.taken
            && (s.ctxDone ==> t.ctxDone)
  {
  }

  lemma SameChannel(s: State, t: State)
    requires ChannelOk(s) && (s.ctxDone ==> t.ctxDone)
    requires t.producer == s.producer && t.closedByBackpressure == s.closedByBackpressure
    requires t.queue == s.queue && t.offered == s.offered && t.accepted == s.accepted && t.taken == s.taken
    ensures ChannelOk(t)
  {
  }

  lemma HandlerKeepsChannel(s: State, e: Event)
    requires ChannelOk(s) && Enabled(s, e) && !OfProducer(e) && !e.Takes?
    ensures ChannelOk(Step(s, e))
  {
    HandlerFrame(s, e);
    SameChannel(s, Step(s, e));
  }

  /** The producer's steps touch nothing of the handler's. */
  lemma ProducerFrame(s: State, e: Event)
    requires Enabled(s, e) && OfProducer(e)
    ensures var t := Step(s, e);
            t.handler == s.handler && t.closeReason == s.closeReason && t.wire == s.wire && t.taken == s.taken
  {
  }

  /** Once the channel is closed they change nothing that the handler goes by. */
  lemma ClosedProducer(s: State, e: Event)
    requires Enabled(s, e) && OfProducer(e) && (s.producer.ChannelClosed? || s.producer.Exited?)
    ensures var t := Step(s, e);
            t.producer.Exited? && t.queue == s.queue && t.closedByBackpressure == s.closedByBackpressure
            && t.streamErr == s.streamErr
  {
  }

  lemma ProducerKeepsHandler(s: State, e: Event)
    requires HandlerOk(s) && Enabled(s, e) && OfProducer(e)
    ensures HandlerOk(Step(s, e))
  {
    ProducerFrame(s, e);
    if s.producer.ChannelClosed? || s.producer.Exited? {
      ClosedProducer(s, e);
    }
  }

  lemma HandlerKeepsHandler(s: State, e: Event)
    requires HandlerOk(s) && Enabled(s, e) && !OfProducer(e)
    ensures HandlerOk(Step(s, e))
  {
  }

  lemma StepKeepsHandler(s: State, e: Event)
    requires HandlerOk(s) && Enabled(s, e)
    ensures HandlerOk(Step(s, e))
  {
    if OfProducer(e) {
      ProducerKeepsHandler(s, e);
    } else {
      HandlerKeepsHandler(s, e);
    }
  }

  lemma WireGrows(wire: seq<Frame>, f: Frame)
    ensures DataOf(wire + [f]) == DataOf(wire) + if f.Data? then [f] else []
    ensures EndsOf(wire + [f]) == EndsOf(wire) + if f.End? then [f.terminal] else []
  {
    assert (wire + [f])[..|wire|] == wire;
  }

  lemma EmitAllGrows(taken: seq<WatchEvent>, ev: WatchEvent)
    ensures EmitAll(taken + [ev]) == EmitAll(taken) + Emit(ev)
  {
    assert (taken + [ev])[..|taken|] == taken;
  }

  lemma EmitIsData(wire: seq<Frame>, ev: WatchEvent)
    ensures DataOf(wire + Emit(ev)) == DataOf(wire) + Emit(ev)
    ensures EndsOf(wire + Emit(ev)) == EndsOf(wire)
  {
    if ev.kind.Unknown? {
      assert wire + Emit(ev) == wire && DataOf(wire) + Emit(ev) == DataOf(wire);
    } else {
      var f := Emit(ev)[0];
      assert Emit(ev) == [f];
      WireGrows(wire, f);
      assert EndsOf(wire) + [] == EndsOf(wire);
    }
  }

  lemma TakenGrows(taken: seq<WatchEvent>, wire: seq<Frame>, ev: WatchEvent)
    requires DataOf(wire) == EmitAll(taken)
    ensures DataOf(wire + Emit(ev)) == EmitAll(taken + [ev])
    ensures EndsOf(wire + Emit(ev)) == EndsOf(wire)
  {
    EmitAllGrows(taken, ev);
    EmitIsData(wire, ev);
  }

  lemma HandlerAddsNoData(s: State, e: Event)
    requires Enabled(s, e) && !OfProducer(e) && !e.Takes?
    ensures Step(s, e).wire == s.wire || exists f: Frame :: !f.Data? && Step(s, e).wire == s.wire + [f]
  {
  }

  /** A step other than Takes leaves the wire alone or adds one frame that is not data. */
  lemma OtherStepsAddNoData(s: State, e: Event)
    requires Enabled(s, e) && !e.Takes?
    ensures Step(s, e).taken == s.taken
    ensures Step(s, e).wire == s.wire || exists f: Frame :: !f.Data? && Step(s, e).wire == s.wire + [f]
  {
    if OfProducer(e) {
      ProducerFrame(s, e);
    } else {
      HandlerFrame(s, e);
      HandlerAddsNoData(s, e);
    }
  }

  lemma StepKeepsData(s: State, e: Event)
    requires DataOk(s) && Enabled(s, e)
    ensures DataOk(Step(s, e))
  {
    if e.Takes? {
      TakenGrows(s.taken, s.wire, s.queue[0]);
    } else {
      OtherStepsAddNoData(s, e);
      if Step(s, e).wire != s.wire {
        var f: Frame :| !f.Data? && Step(s, e).wire == s.wire + [f];
        WireGrows(s.wire, f);
      }
    }
  }

  lemma ProducerKeepsEnd(s: State, e: Event)
    requires HandlerOk(s) && EndOk(s) && Enabled(s, e) && OfProducer(e)
    ensures EndOk(Step(s, e))
  {
  }

  lemma EndAppended(wire: seq<Frame>, f: Frame)
    ensures (wire + [f])[..|wire|] == wire
  {
  }

  lemma TakesKeepsEnd(s: State)
    requires HandlerOk(s) && DataOk(s) && EndOk(s) && Enabled(s, Takes)
    ensures EndOk(Step(s, Takes))
  {
    TakenGrows(s.taken, s.wire, s.queue[0]);
  }

  lemma Closes(wire: seq<Frame>, t: Terminal)
    requires EndsOf(wire) == []
    ensures var w := wire + [End(t)]; w[|w| - 1] == End(t) && EndsOf(w[..|w| - 1]) == []
  {
    EndAppended(wire, End(t));
  }

  lemma FinishKeepsEnd(s: State)
    requires HandlerOk(s) && EndOk(s) && s.handler.AwaitAfterClose?
    ensures EndOk(Finish(s))
  {
    Closes(s.wire, Backpressure);
    if s.streamErr.Failed? {
      Closes(s.wire, Error(s.streamErr.message));
    }
  }

  lemma HeartbeatKeepsEnd(s: State)
    requires HandlerOk(s) && EndOk(s) && s.handler.Looping?
    ensures EndOk(s.(wire := s.wire + [Ping]))
  {
    WireGrows(s.wire, Ping);
  }

  lemma ShutdownKeepsEnd(s: State)
    requires HandlerOk(s) && EndOk(s) && s.handler.Looping?
    ensures EndOk(s.(handler := Gone, closeReason := ServerShutdown, wire := s.wire + [End(Shutdown)]))
  {
    Closes(s.wire, Shutdown);
  }

  lemma AuthKeepsEnd(s: State)
    requires HandlerOk(s) && EndOk(s) && s.handler.Looping?
    ensures EndOk(s.(handler := Gone, closeReason := AuthGone, wire := s.wire + [End(AuthExpired)]))
  {
    Closes(s.wire, AuthExpired);
  }

  lemma SameEnd(s: State, t: State)
    requires EndOk(s) && t.wire == s.wire && t.closeReason == s.closeReason && t.streamErr == s.streamErr
    ensures EndOk(t)
  {
  }

  lemma HandlerKeepsEnd(s: State, e: Event)
    requires HandlerOk(s) && EndOk(s) && Enabled(s, e) && !OfProducer(e) && !e.Takes?
    ensures EndOk(Step(s, e))
  {
    if e.Heartbeat? {
      HeartbeatKeepsEnd(s);
    } else if e.FinishesAfterClose? {
      FinishKeepsEnd(s);
    } else if e.SeesShutdown? {
      ShutdownKeepsEnd(s);
    } else if e.AuthTick? {
      AuthKeepsEnd(s);
    } else {
      SameEnd(s, Step(s, e));
    }
  }

  lemma HandlerKeepsOk(s: State, e: Event)
    requires Ok(s) && Enabled(s, e) && !OfProducer(e)
    ensures ChannelOk(Step(s, e)) && EndOk(Step(s, e))
  {
    if e.Takes? {
      TakesKeepsChannel(s);
      TakesKeepsEnd(s);
    } else {
      HandlerKeepsChannel(s, e);
      HandlerKeepsEnd(s, e);
    }
  }

  lemma {:induction false} RunIsOk(states: seq<State>, events: seq<Event>, i: nat)
    requires IsRun(states, events) && i <= |events|
    ensures Ok(states[i])
  {
    if i > 0 {
      RunIsOk(states, events, i - 1);
      var s, e := states[i - 1], events[i - 1];
      if OfProducer(e) {
        ProducerKeepsChannel(s, e);
        ProducerKeepsEnd(s, e);
      } else {
        HandlerKeepsOk(s, e);
      }
      StepKeepsHandler(s, e);
      StepKeepsData(s, e);
    }
  }

  // What holds of every run.

  lemma {:induction false} EmittedTell(evs: seq<WatchEvent>)
    ensures Tell(EmitAll(evs), evs)
  {
    if evs != [] {
      EmittedTell(evs[..|evs| - 1]);
    }
  }

  /** The client got a gap-free prefix of what the producer offered, whatever ended the stream. */
  lemma ClientGetsPrefix(states: seq<State>, events: seq<Event>, i: nat)
    requires IsRun(states, events) && i <= |events|
    ensures states[i].taken <= states[i].accepted <= states[i].offered
    ensures DataOf(states[i].wire) == EmitAll(states[i].taken)
    ensures Tell(DataOf(states[i].wire), states[i].taken)
    ensures |states[i].queue| <= 256
  {
    RunIsOk(states, events, i);
    EmittedTell(states[i].taken);
  }

  /** A backpressure close comes after every accepted event was written and one was refused, which
      takes a full channel. */
  lemma BackpressureComesLast(states: seq<State>, events: seq<Event>, i: nat) returns (j: nat)
    requires IsRun(states, events) && i <= |events| && End(Backpressure) in states[i].wire
    ensures DataOf(states[i].wire) == EmitAll(states[i].accepted)
    ensures Tell(DataOf(states[i].wire), states[i].accepted)
    ensures |states[i].offered| == |states[i].accepted| + 1
    ensures states[i].accepted == states[i].offered[..|states[i].accepted|]
    ensures j < i && events[j].SendOverflows? && |states[j].queue| == 256
  {
    RunIsOk(states, events, i);
    EmittedTell(states[i].accepted);
    EndIsLast(states[i], End(Backpressure));
    j := OverflowFoundFull(states, events, i);
    assert states[i].taken + [] == states[i].taken;
  }

  lemma FlagRaised(s: State, e: Event)
    requires Enabled(s, e)
    ensures Step(s, e).closedByBackpressure == (s.closedByBackpressure || e.SendOverflows?)
    ensures e.SendOverflows? ==> |s.queue| >= CHANNEL_CAP
  {
  }

  lemma RunRaisesFlag(states: seq<State>, events: seq<Event>, i: nat)
    requires IsRun(states, events) && i < |events|
    ensures states[i + 1].closedByBackpressure == (states[i].closedByBackpressure || events[i].SendOverflows?)
    ensures events[i].SendOverflows? ==> |states[i].queue| == CHANNEL_CAP
  {
    RunIsOk(states, events, i);
    FlagRaised(states[i], events[i]);
  }

  /** The flag is raised by a Send that finds the channel full. */
  lemma {:induction false} OverflowFoundFull(states: seq<State>, events: seq<Event>, i: nat) returns (j: nat)
    requires IsRun(states, events) && i <= |events| && states[i].closedByBackpressure
    ensures j < i && events[j].SendOverflows? && |states[j].queue| == CHANNEL_CAP
  {
    assert i != 0;
    RunRaisesFlag(states, events, i - 1);
    if states[i - 1].closedByBackpressure {
      j := OverflowFoundFull(states, events, i - 1);
    } else {
      j := i - 1;
    }
  }

  lemma {:induction false} EndsHave(wire: seq<Frame>, k: nat)
    requires k < |wire| && wire[k].End?
    ensures EndsOf(wire) != []
  {
    if k < |wire| - 1 {
      EndsHave(wire[..|wire| - 1], k);
    }
  }

  lemma EndOnlyAtEnd(s: State, k: nat)
    requires EndOk(s) && k < |s.wire| && s.wire[k].End?
    ensures k == |s.wire| - 1 && EndsWith(s, s.wire[k].terminal)
  {
    EndsHave(s.wire, k);
    if k < |s.wire| - 1 {
      EndsHave(s.wire[..|s.wire| - 1], k);
    }
  }

  lemma EndIsLast(s: State, f: Frame)
    requires EndOk(s) && f in s.wire && f.End?
    ensures f == s.wire[|s.wire| - 1] && EndsWith(s, f.terminal)
  {
    var k :| 0 <= k < |s.wire| && s.wire[k] == f;
    EndOnlyAtEnd(s, k);
  }

  /** The stream has at most one closing event, and nothing follows it, now or later. */
  lemma ClosingEventIsFinal(states: seq<State>, events: seq<Event>, i: nat, j: nat, k: nat)
    requires IsRun(states, events) && i <= j <= |events|
    requires k < |states[i].wire| && states[i].wire[k].End?
    ensures k == |states[i].wire| - 1 && states[j].wire == states[i].wire
  {
    RunIsOk(states, events, i);
    EndOnlyAtEnd(states[i], k);
    GoneStaysGone(states, events, i, j);
  }

  lemma {:induction false} GoneStaysGone(states: seq<State>, events: seq<Event>, i: nat, j: nat)
    requires IsRun(states, events) && i <= j <= |events| && states[i].handler.Gone?
    ensures states[j].handler.Gone? && states[j].wire == states[i].wire
    decreases j
  {
    if i < j {
      GoneStaysGone(states, events, i, j - 1);
    }
  }

  /** When the producer's end closed the stream nothing accepted is missing; if it was a plain end of
      file and the client had not left, nothing offered is. */
  lemma EndOfFileIsComplete(states: seq<State>, events: seq<Event>, i: nat)
    requires IsRun(states, events) && i <= |events| && states[i].closeReason in {StreamFailed, Overflowed, Eof}
    ensures DataOf(states[i].wire) == EmitAll(states[i].accepted)
    ensures states[i].closeReason == Eof && !states[i].ctxDone ==> DataOf(states[i].wire) == EmitAll(states[i].offered)
    ensures Tell(DataOf(states[i].wire), states[i].accepted)
    ensures states[i].closeReason == Eof && !states[i].ctxDone ==> Tell(DataOf(states[i].wire), states[i].offered)
  {
    RunIsOk(states, events, i);
    EmittedTell(states[i].accepted);
    EmittedTell(states[i].offered);
    assert states[i].taken + [] == states[i].taken;
  }

  /** Why the client sees a backpressure close: a Send found the channel full, and the watch itself did
      not fail; a failure is reported instead. */
  lemma BackpressureExactly(states: seq<State>, events: seq<Event>, i: nat)
    requires IsRun(states, events) && i <= |events| && states[i].closeReason in {StreamFailed, Overflowed, Eof}
    ensures End(Backpressure) in states[i].wire <==> states[i].closedByBackpressure && !states[i].streamErr.Failed?
  {
    RunIsOk(states, events, i);
    OverflowIsTold(states[i]);
  }

  /** What makes the handler close the stream with this event. */
  predicate Causes(s: State, e: Event, t: Terminal) {
    match t
    case Shutdown => e.SeesShutdown?
    case AuthExpired => e == AuthTick(false)
    case Error(m) => e.FinishesAfterClose? && s.streamErr == Failed(m)
    case Backpressure =>
      e.FinishesAfterClose? && s.closedByBackpressure && (s.streamErr == NoErr || s.streamErr == Canceled)
  }

  lemma HandlerCloses(s: State, e: Event, t: Terminal)
    requires Enabled(s, e) && !OfProducer(e) && !e.Takes?
    ensures End(t) in Step(s, e).wire <==> End(t) in s.wire || Causes(s, e, t)
  {
  }

  lemma HandlerKeepsWire(s: State, e: Event)
    requires Enabled(s, e) && !OfProducer(e) && !e.Takes?
    ensures s.wire <= Step(s, e).wire
  {
  }

  lemma TakesWritesNoEnd(s: State, t: Terminal)
    requires Enabled(s, Takes)
    ensures End(t) in Step(s, Takes).wire <==> End(t) in s.wire
    ensures s.wire <= Step(s, Takes).wire
  {
  }

  /** What is written stays written, and only its cause writes a closing event. */
  lemma StepCloses(s: State, e: Event, t: Terminal)
    requires Enabled(s, e)
    ensures End(t) in Step(s, e).wire <==> End(t) in s.wire || Causes(s, e, t)
    ensures s.wire <= Step(s, e).wire
  {
    if OfProducer(e) {
      ProducerFrame(s, e);
    } else if e.Takes? {
      TakesWritesNoEnd(s, t);
    } else {
      HandlerCloses(s, e, t);
      HandlerKeepsWire(s, e);
    }
  }

  lemma RunCloses(states: seq<State>, events: seq<Event>, i: nat, t: Terminal)
    requires IsRun(states, events) && i < |events|
    ensures End(t) in states[i + 1].wire <==> End(t) in states[i].wire || Causes(states[i], events[i], t)
    ensures states[i].wire <= states[i + 1].wire
  {
    StepCloses(states[i], events[i], t);
  }

  /** The stream is closed with an event exactly if its cause came to pass: the server stopped, the session was
      found invalid, the watch failed with that message, or a Send overflowed and the watch did not fail. */
  lemma {:induction false} ClosedExactlyByCause(states: seq<State>, events: seq<Event>, i: nat, t: Terminal)
    requires IsRun(states, events) && i <= |events|
    ensures End(t) in states[i].wire <==> exists j :: 0 <= j < i && Causes(states[j], events[j], t)
  {
    if i > 0 {
      ClosedExactlyByCause(states, events, i - 1, t);
      RunCloses(states, events, i - 1, t);
    }
  }

  /** The flag is up exactly after a Send that found the channel full. */
  lemma {:induction false} FlagMeansOverflow(states: seq<State>, events: seq<Event>, i: nat)
    requires IsRun(states, events) && i <= |events|
    ensures states[i].closedByBackpressure <==> exists j :: 0 <= j < i && events[j].SendOverflows?
  {
    if i > 0 {
      FlagMeansOverflow(states, events, i - 1);
      RunRaisesFlag(states, events, i - 1);
    }
  }

  lemma ErrorIsSet(s: State, e: Event)
    requires Enabled(s, e)
    ensures Step(s, e).streamErr == if e.WatchReturns? then e.err else s.streamErr
    ensures e.WatchReturns? || HasReturned(s) ==> HasReturned(Step(s, e))
    ensures e.WatchReturns? ==> !HasReturned(s)
  {
  }

  predicate HasReturned(s: State) {
    s.producer.Returned? || s.producer.ChannelClosed? || s.producer.Exited?
  }

  /** The error the handler goes by is the one the watch returned, once. */
  lemma {:induction false} ErrorIsFromWatch(states: seq<State>, events: seq<Event>, i: nat, err: StreamErr)
    requires IsRun(states, events) && i <= |events|
    ensures (exists j :: 0 <= j < i && events[j].WatchReturns?) ==> HasReturned(states[i])
    ensures (exists j :: 0 <= j < i && events[j] == WatchReturns(err)) ==> states[i].streamErr == err
    ensures states[i].streamErr == err && err != NoErr ==> exists j :: 0 <= j < i && events[j] == WatchReturns(err)
  {
    if i > 0 {
      ErrorIsFromWatch(states, events, i - 1, err);
      ErrorIsSet(states[i - 1], events[i - 1]);
    }
  }

  /** A heartbeat writes a ping, and the stream goes on. */
  lemma HeartbeatPings(states: seq<State>, events: seq<Event>, i: nat)
    requires IsRun(states, events) && i < |events| && events[i].Heartbeat?
    ensures states[i + 1].wire == states[i].wire + [Ping] && states[i + 1].handler.Looping?
  {
  }

  lemma OverflowIsTold(s: State)
    requires HandlerOk(s) && EndOk(s) && s.closeReason in {StreamFailed, Overflowed, Eof}
    ensures End(Backpressure) in s.wire <==> s.closedByBackpressure && !s.streamErr.Failed?
  {
    if End(Backpressure) in s.wire {
      EndIsLast(s, End(Backpressure));
    }
  }

  // Whatever is offered can be delivered.

  lemma RunGoesOn(states: seq<State>, events: seq<Event>, e: Event) returns (states': seq<State>, events': seq<Event>)
    requires IsRun(states, events) && Enabled(states[|events|], e)
    ensures IsRun(states', events') && |events'| == |events| + 1
    ensures states'[|events'|] == Step(states[|events|], e)
  {
    states', events' := states + [Step(states[|events|], e)], events + [e];
    forall i | 0 <= i < |events'|
      ensures Enabled(states'[i], events'[i]) && states'[i + 1] == Step(states'[i], events'[i])
    {
      if i < |events| {
        assert states'[i] == states[i] && states'[i + 1] == states[i + 1] && events'[i] == events[i];
      }
    }
  }

  /** The handler has written these events, and waits for more. */
  predicate UpToDate(s: State, evs: seq<WatchEvent>) {
    && s.producer.Running? && s.handler.Looping? && !s.ctxDone && s.queue == [] && !s.closedByBackpressure
    && s.offered == s.taken == evs && s.wire == EmitAll(evs)
  }

  /** One more event is offered, sent, taken and written. */
  lemma OneMoreDelivered(states: seq<State>, events: seq<Event>, evs: seq<WatchEvent>, ev: WatchEvent)
    returns (states': seq<State>, events': seq<Event>)
    requires IsRun(states, events) && UpToDate(states[|events|], evs)
    ensures IsRun(states', events') && UpToDate(states'[|events'|], evs + [ev])
  {
    states', events' := RunGoesOn(states, events, Offer(ev));
    states', events' := RunGoesOn(states', events', SendPasses);
    states', events' := RunGoesOn(states', events', SendEnqueues);
    states', events' := RunGoesOn(states', events', Takes);
    EmitAllGrows(evs, ev);
  }

  lemma {:induction false} AllDelivered(evs: seq<WatchEvent>) returns (states: seq<State>, events: seq<Event>)
    ensures IsRun(states, events) && UpToDate(states[|events|], evs)
  {
    if evs == [] {
      states, events := [Start()], [];
    } else {
      var n := |evs| - 1;
      states, events := AllDelivered(evs[..n]);
      states, events := OneMoreDelivered(states, events, evs[..n], evs[n]);
      assert evs == evs[..n] + [evs[n]];
    }
  }

  /** However many events there are: a run in which the client gets them all, and nothing else, before the stream
      ends with the watch. */
  lemma EverythingCanBeDelivered(evs: seq<WatchEvent>) returns (states: seq<State>, events: seq<Event>)
    ensures IsRun(states, events) && states[|events|].handler.Gone? && states[|events|].closeReason == Eof
    ensures states[|events|].offered == evs && Tell(states[|events|].wire, evs)
  {
    states, events := AllDelivered(evs);
    states, events := RunGoesOn(states, events, WatchReturns(NoErr));
    states, events := RunGoesOn(states, events, CloseChannel);
    states, events := RunGoesOn(states, events, SeesClosed);
    states, events := RunGoesOn(states, events, CloseDone);
    states, events := RunGoesOn(states, events, FinishesAfterClose);
    EmittedTell(evs);
  }
}
