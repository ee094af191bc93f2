/** An emitter, the bus it shares with other turns, and the consumer of its queue. */
module Delivery {
  import opened Prelude
  import opened Events
  import opened TurnGrammar
  import opened Bus
  import E = Emitter
  import P = Projection

  /** An emitter with its mandatory transport. */
  datatype System = System(bus: BusState, run: E.Run)

  datatype Names = Names(sessionId: string, turnId: string)

  function Answer(bus: BusState, turnId: string): E.Transport {
    E.Transport(turnId in bus.senders, bus.Connected(turnId))
  }

  /** The bus after an event was offered to it; everybody else hears only what the subscriber got. */
  function Offered(bus: BusState, event: SemanticEvent): BusState {
    var sent := bus.AfterPublishTurn(event);
    if bus.Connected(event.turnId) then sent.AfterPublishGlobal(event) else sent
  }

  /** One emitter call in its surroundings. */
  function Called(names: Names, s: System, call: E.Call): System {
    var answer := Answer(s.bus, names.turnId);
    System(
      if answer.ready && E.Legal(s.run.state, call) && E.BodyOf(call).Some? then
        Offered(s.bus, SemanticEvent(names.sessionId, names.turnId, s.run.state.nextSequence, E.BodyOf(call).value))
      else s.bus,
      E.Emit(s.run, call, answer))
  }

  /** This is what the methods of the emitter do. */
  twostate lemma EmitterCalls(em: E.TurnEventEmitter, call: E.Call, ok: bool)
    requires em.requireTransport && em.Performed(call, ok)
    ensures System(em.bus.View(), em.View())
         == Called(Names(em.sessionId, em.turnId), old(System(em.bus.View(), em.View())), call)
  {
  }

  /** What happens on the bus: calls of this emitter, and the traffic of other turns. */
  datatype Act =
    | Call(call: E.Call)
    | Subscribe(turn: string)
    | CloseTurn(turn: string)
    | Depart(queue: nat)
    | Publish(event: SemanticEvent)
    | Broadcast(event: SemanticEvent)

  /** Only this turn's own subscriber and emitter use its name; anybody may close it. */
  predicate Possible(names: Names, s: System, act: Act) {
    match act
    case Subscribe(turn) => turn != names.turnId
    case Publish(event) => event.turnId != names.turnId
    case Depart(queue) => queue < |s.bus.channels|
    case _ => true
  }

  function After(names: Names, s: System, act: Act): System
    requires Possible(names, s, act)
  {
    match act
    case Call(call) => Called(names, s, call)
    case Subscribe(turn) => s.(bus := s.bus.AfterSubscribe(turn))
    case CloseTurn(turn) => s.(bus := s.bus.AfterClose(turn))
    case Depart(queue) => s.(bus := s.bus.AfterDeparture(queue))
    case Publish(event) => s.(bus := s.bus.AfterPublishTurn(event))
    case Broadcast(event) => s.(bus := s.bus.AfterPublishGlobal(event))
  }

  predicate PossibleRun(names: Names, s: System, acts: seq<Act>)
    decreases |acts|
  {
    acts == [] || (Possible(names, s, acts[0]) && PossibleRun(names, After(names, s, acts[0]), acts[1..]))
  }

  function Run(names: Names, s: System, acts: seq<Act>): System
    requires PossibleRun(names, s, acts)
    decreases |acts|
  {
    if acts == [] then s else Run(names, After(names, s, acts[0]), acts[1..])
  }

  /** A turn whose client has just subscribed. */
  function Opened(names: Names, bus: BusState): System {
    System(bus.AfterSubscribe(names.turnId), E.FreshRun)
  }

  /** The queue belongs to the turn: nobody else sends to it, and the turn sends nowhere else. */
  ghost predicate Owns(bus: BusState, turnId: string, queue: nat) {
    && bus.Valid() && queue < |bus.channels|
    && (turnId in bus.senders ==> bus.senders[turnId] == queue)
    && (forall t | t in bus.senders && bus.senders[t] == queue :: t == turnId)
  }

  /** The queue holds exactly what the emitter published, numbered from zero. */
  ghost predicate Carries(names: Names, s: System, queue: nat) {
    && Owns(s.bus, names.turnId, queue)
    && s.bus.channels[queue].items == Stamp(names.sessionId, names.turnId, s.run.word)
    && Reflects(s.run) && TurnWord(s.run.word)
  }

  lemma StampSnoc(names: Names, w: seq<EventBody>, e: EventBody)
    ensures Stamp(names.sessionId, names.turnId, w + [e])
         == Stamp(names.sessionId, names.turnId, w)
          + [SemanticEvent(names.sessionId, names.turnId, Saturated(|w|), e)]
  {
  }

  lemma OfferedKeepsOwner(bus: BusState, event: SemanticEvent, queue: nat)
    requires Owns(bus, event.turnId, queue)
    ensures Owns(Offered(bus, event), event.turnId, queue)
    ensures Offered(bus, event).channels[queue].items
         == bus.channels[queue].items + if bus.Connected(event.turnId) then [event] else []
  {
  }

  lemma CallCarries(names: Names, s: System, call: E.Call, queue: nat)
    requires Carries(names, s, queue)
    ensures Carries(names, Called(names, s, call), queue)
  {
    var answer := Answer(s.bus, names.turnId);
    EmitStaysInGrammar(s.run, call, answer);
    if answer.ready && E.Legal(s.run.state, call) && E.BodyOf(call).Some? {
      var body := E.BodyOf(call).value;
      OfferedKeepsOwner(s.bus, SemanticEvent(names.sessionId, names.turnId, s.run.state.nextSequence, body), queue);
      StampSnoc(names, s.run.word, body);
    }
  }

  /** The traffic of other turns does not touch the queue. */
  lemma TrafficCarries(names: Names, s: System, act: Act, queue: nat)
    requires Carries(names, s, queue) && Possible(names, s, act) && !act.Call?
    ensures Carries(names, After(names, s, act), queue)
  {
  }

  lemma {:induction false} RunCarries(names: Names, s: System, acts: seq<Act>, queue: nat)
    requires Carries(names, s, queue) && PossibleRun(names, s, acts)
    ensures Carries(names, Run(names, s, acts), queue)
    decreases |acts|
  {
    if acts != [] {
      if acts[0].Call? {
        CallCarries(names, s, acts[0].call, queue);
      } else {
        TrafficCarries(names, s, acts[0], queue);
      }
      RunCarries(names, After(names, s, acts[0]), acts[1..], queue);
    }
  }

  /** A word that has not ended is consumed whole. */
  lemma OpenWordIsConsumed(names: Names, w: seq<EventBody>, notify: P.Action -> bool)
    requires TurnWord(w) && (w == [] || !Last(w).IsTerminal())
    requires forall a: P.Action :: notify(a)
    ensures P.Consumed(Stamp(names.sessionId, names.turnId, w), names.turnId, notify, 0) == |w|
  {
    var events := Stamp(names.sessionId, names.turnId, w);
    forall i | 0 <= i < |w|
      ensures !events[i].body.IsTerminal()
    {
      TurnIsFramed(w, i);
    }
    P.ConsumedReaches(events, names.turnId, notify, 0, |w|);
  }

  /**
   * Whatever the emitter is asked to do, whatever the other turns do meanwhile and whenever the client leaves: the
   * queue carries the published word, numbered 0, 1, 2 and so on. Its consumer reports the end of the turn exactly
   * if the emitter published a terminal event, and has then shown all events before it, in order.
   */
  lemma EveryRunIsDelivered(names: Names, bus: BusState, acts: seq<Act>, notify: P.Action -> bool)
    requires bus.Valid() && PossibleRun(names, Opened(names, bus), acts)
    requires forall a: P.Action :: notify(a)
    ensures var s := Run(names, Opened(names, bus), acts);
      && |bus.channels| < |s.bus.channels|
      && var queue, w := s.bus.channels[|bus.channels|].items, s.run.word;
      && queue == Stamp(names.sessionId, names.turnId, w)
      && var k := P.Consumed(queue, names.turnId, notify, 0);
      && (P.Report(queue, names.turnId, k) == P.Finished <==> s.run.state.integrity.phase.Terminal?)
      && (if s.run.state.integrity.phase.Terminal? then w != [] && P.Bodies(queue[..k]) == Front(w) else k == |w|)
  {
    var s := Run(names, Opened(names, bus), acts);
    assert Stamp(names.sessionId, names.turnId, []) == [];
    EmitterPublishesTurnWords([]);
    RunCarries(names, Opened(names, bus), acts, |bus.channels|);
    if s.run.state.integrity.phase.Terminal? {
      P.StampedWordIsAccepted(names.sessionId, names.turnId, s.run.word, notify);
    } else {
      OpenWordIsConsumed(names, s.run.word, notify);
    }
  }

  /** A finished turn has shown its client exactly the text and the reasoning that were published, in order. */
  lemma ClientHasSeenEverything(names: Names, bus: BusState, acts: seq<Act>, notify: P.Action -> bool)
    requires bus.Valid() && PossibleRun(names, Opened(names, bus), acts)
    requires forall a: P.Action :: notify(a)
    requires Run(names, Opened(names, bus), acts).run.state.integrity.phase.Terminal?
    ensures var s := Run(names, Opened(names, bus), acts);
      && |bus.channels| < |s.bus.channels|
      && var queue := s.bus.channels[|bus.channels|].items;
      && var shown := P.Actions(P.Bodies(queue[..P.Consumed(queue, names.turnId, notify, 0)]));
      && P.TextNotified(shown) == TextShown(s.run.word) && P.ReasoningNotified(shown) == ThoughtShown(s.run.word)
  {
    EveryRunIsDelivered(names, bus, acts, notify);
    var s := Run(names, Opened(names, bus), acts);
    ShownOfFinished(names, s.run.word, notify);
  }

  lemma ShownOfFinished(names: Names, w: seq<EventBody>, notify: P.Action -> bool)
    requires w != []
    requires var queue := Stamp(names.sessionId, names.turnId, w);
      var k := P.Consumed(queue, names.turnId, notify, 0);
      P.Report(queue, names.turnId, k) == P.Finished && P.Bodies(queue[..k]) == Front(w)
    ensures var queue := Stamp(names.sessionId, names.turnId, w);
      var shown := P.Actions(P.Bodies(queue[..P.Consumed(queue, names.turnId, notify, 0)]));
      P.TextNotified(shown) == TextShown(w) && P.ReasoningNotified(shown) == ThoughtShown(w)
  {
    var queue := Stamp(names.sessionId, names.turnId, w);
    var k := P.Consumed(queue, names.turnId, notify, 0);
    assert |P.Bodies(queue[..k])| == k == |w| - 1 && queue[k].body == Last(w);
    P.ClientIsShownText(Front(w));
    ShownSnoc(Front(w), Last(w));
    assert w == Front(w) + [Last(w)];
  }
}
