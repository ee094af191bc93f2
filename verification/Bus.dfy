/** The event bus: one lossless FIFO queue per subscribed turn, plus a best-effort global fan-out. */
module Bus {
  import opened Prelude
  import opened Events

  /** One unbounded queue. A receiver keeps its queue after the sender side is gone. */
  datatype TurnChannel = TurnChannel(items: seq<SemanticEvent>, receiverOpen: bool)

  /** `senders` maps a turn to the index of its queue in `channels`. */
  datatype BusState = BusState(
    channels: seq<TurnChannel>,
    senders: map<string, nat>,
    globalLog: seq<SemanticEvent>)
  {
    ghost predicate Valid() {
      && (forall t | t in senders :: senders[t] < |channels|)
      && (forall t, u | t in senders && u in senders && t != u :: senders[t] != senders[u])
    }

    /** A publish to this turn will reach a receiver. */
    predicate Connected(turnId: string) {
      turnId in senders && senders[turnId] < |channels| && channels[senders[turnId]].receiverOpen
    }

    function Appended(event: SemanticEvent): BusState
      requires event.turnId in senders && senders[event.turnId] < |channels|
    {
      var c := senders[event.turnId];
      this.(channels := channels[c := channels[c].(items := channels[c].items + [event])])
    }

    /** Effect of `publish_turn`: append, or drop a sender whose receiver is gone. */
    function AfterPublishTurn(event: SemanticEvent): BusState {
      if Connected(event.turnId) then Appended(event)
      else this.(senders := senders - {event.turnId})
    }

    function AfterPublishGlobal(event: SemanticEvent): BusState {
      this.(globalLog := globalLog + [event])
    }

    /** Effect of `subscribe_turn`: a new queue, and its sender in place of an older one. */
    function AfterSubscribe(turnId: string): BusState {
      this.(channels := channels + [TurnChannel([], true)], senders := senders[turnId := |channels|])
    }

    function AfterClose(turnId: string): BusState {
      this.(senders := senders - {turnId})
    }

    /** The receiver of a queue goes away; what it was sent stays. */
    function AfterDeparture(queue: nat): BusState
      requires queue < |channels|
    {
      this.(channels := channels[queue := channels[queue].(receiverOpen := false)])
    }
  }

  class EventBus {
    var channels: seq<TurnChannel>
    var turnSenders: map<string, nat>
    var globalLog: seq<SemanticEvent>

    function View(): BusState
      reads this
    {
      BusState(channels, turnSenders, globalLog)
    }

    constructor ()
      ensures View() == BusState([], map[], []) && View().Valid()
    {
      channels, turnSenders, globalLog := [], map[], [];
    }

    method PublishGlobal(event: SemanticEvent)
      modifies this
      ensures View() == old(View()).AfterPublishGlobal(event)
    {
      globalLog := globalLog + [event];
    }

    predicate HasTurnSubscriber(turnId: string)
      reads this
    {
      turnId in turnSenders
    }

    method PublishTurn(event: SemanticEvent) returns (ok: bool)
      requires View().Valid()
      modifies this
      ensures View().Valid()
      ensures ok == old(View()).Connected(event.turnId)
      ensures View() == old(View()).AfterPublishTurn(event)
    {
      if event.turnId !in turnSenders {
        assert turnSenders - {event.turnId} == turnSenders;
        return false;
      }
      var c := turnSenders[event.turnId];
      if channels[c].receiverOpen {
        channels := channels[c := channels[c].(items := channels[c].items + [event])];
        ok := true;
      } else {
        turnSenders := turnSenders - {event.turnId};
        ok := false;
      }
    }

    /** Registers a new queue for the turn; the result names the receiver's queue. */
    method SubscribeTurn(turnId: string) returns (receiver: nat)
      requires View().Valid()
      modifies this
      ensures View().Valid() && View().Connected(turnId)
      ensures receiver == |old(channels)| && View() == old(View()).AfterSubscribe(turnId)
    {
      receiver := |channels|;
      channels := channels + [TurnChannel([], true)];
      turnSenders := turnSenders[turnId := receiver];
    }

    method CloseTurn(turnId: string)
      requires View().Valid()
      modifies this
      ensures View().Valid() && View() == old(View()).AfterClose(turnId)
    {
      turnSenders := turnSenders - {turnId};
    }

    /** The client of a turn drops its receiver. */
    method Depart(turnId: string)
      requires View().Valid()
      modifies this
      ensures View().Valid() && turnSenders == old(turnSenders)
      ensures View() == if turnId in turnSenders then old(View()).AfterDeparture(turnSenders[turnId]) else old(View())
    {
      if turnId in turnSenders {
        var c := turnSenders[turnId];
        channels := channels[c := channels[c].(receiverOpen := false)];
      }
    }
  }

  /** A publish touches only the queue of its own turn, and there it appends the event at the end. */
  lemma PublishReachesOwnQueueOnly(b: BusState, event: SemanticEvent, t: string)
    requires b.Valid() && t in b.senders && b.Connected(event.turnId)
    ensures var after := b.AfterPublishTurn(event);
      && after.senders == b.senders
      && after.channels[after.senders[t]].items
         == b.channels[b.senders[t]].items + (if t == event.turnId then [event] else [])
  {
  }
}
