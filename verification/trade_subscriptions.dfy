/** Subscriptions to trade events (Ask, Bid, Fill, Match) for one ticker: the
    request and reply records, the shared overloads of the manager base class, and
    the distributed pub-sub and no-op managers. */
module TradeSubscriptions {
  import opened Wrappers
  import opened Mediator

  datatype TradeEventType = Ask | Bid | Fill | Match

  /** Every trade event type, in declaration order. */
  const AllTradeEventTypes: seq<TradeEventType> := [Ask, Bid, Fill, Match]

  datatype TradeSubscribe = TradeSubscribe(stockId: string, events: seq<TradeEventType>, subscriber: ActorRef)
  datatype TradeUnsubscribe = TradeUnsubscribe(stockId: string, events: seq<TradeEventType>, subscriber: ActorRef)
  datatype TradeSubscribeAck = TradeSubscribeAck(stockId: string, events: seq<TradeEventType>)
  datatype TradeUnsubscribeAck = TradeUnsubscribeAck(stockId: string, events: seq<TradeEventType>)
  datatype TradeSubscribeNack = TradeSubscribeNack(stockId: string, events: seq<TradeEventType>, reason: string)
  datatype TradeUnsubscribeNack = TradeUnsubscribeNack(stockId: string, events: seq<TradeEventType>, reason: string)

  /** The topic name of one (ticker, event type) pair; its format is not part of this model. */
  type TopicFormatter = (string, TradeEventType) -> string

  /** `TradeEventSubscriptionManagerBase.ToTopics`: one topic per requested event, same order. */
  function ToTopics(format: TopicFormatter, ticker: string, events: seq<TradeEventType>): (topics: seq<string>)
    ensures |topics| == |events|
    ensures forall i :: 0 <= i < |events| ==> topics[i] == format(ticker, events[i])
  {
    seq(|events|, i requires 0 <= i < |events| => format(ticker, events[i]))
  }

  /** The two trade subscription backends shown here. */
  datatype TradeManager = DistributedPubSubManager(format: TopicFormatter) | NoOpManager

  /** Outcome of one call: the mediator requests sent and the reply (an error when an await failed). */
  datatype SubscribeOutcome = SubscribeOutcome(requests: seq<MediatorRequest>, reply: Result<TradeSubscribeAck>)
  datatype UnsubscribeOutcome = UnsubscribeOutcome(requests: seq<MediatorRequest>, reply: Result<TradeUnsubscribeAck>)

  /** `Subscribe(ticker, events, subscriber)`. The distributed manager sends one mediator
      subscribe per topic and acks with the request's ticker and events only when every one
      was acknowledged; requests already sent are never withdrawn. The no-op manager sends
      nothing and acks with all trade event types, whatever was asked for. */
  function Subscribe(mgr: TradeManager, ticker: string, events: seq<TradeEventType>, subscriber: ActorRef,
                     faults: map<int, string>): (r: SubscribeOutcome)
    ensures mgr.DistributedPubSubManager? ==>
              && |r.requests| == |events|
              && (forall i :: 0 <= i < |events| ==>
                    r.requests[i] == SubscribeTopic(mgr.format(ticker, events[i]), subscriber))
              && (r.reply.Ok? <==> forall i :: 0 <= i < |events| ==> i !in faults)
              && (r.reply.Ok? ==> r.reply.value == TradeSubscribeAck(ticker, events))
    ensures mgr.NoOpManager? ==> r == SubscribeOutcome([], Ok(TradeSubscribeAck(ticker, AllTradeEventTypes)))
  {
    match mgr
    case NoOpManager => SubscribeOutcome([], Ok(TradeSubscribeAck(ticker, AllTradeEventTypes)))
    case DistributedPubSubManager(format) =>
      var fan := SubscribeTopics(ToTopics(format, ticker, events), subscriber, faults);
      SubscribeOutcome(fan.requests,
                       if fan.failure.Some? then Err(fan.failure.value) else Ok(TradeSubscribeAck(ticker, events)))
  }

  /** `Unsubscribe(ticker, events, subscriber)`: as `Subscribe`, with unsubscribe requests;
      both managers ack with the request's own ticker and events. */
  function Unsubscribe(mgr: TradeManager, ticker: string, events: seq<TradeEventType>, subscriber: ActorRef,
                       faults: map<int, string>): (r: UnsubscribeOutcome)
    ensures mgr.DistributedPubSubManager? ==>
              && |r.requests| == |events|
              && (forall i :: 0 <= i < |events| ==>
                    r.requests[i] == UnsubscribeTopic(mgr.format(ticker, events[i]), subscriber))
              && (r.reply.Ok? <==> forall i :: 0 <= i < |events| ==> i !in faults)
              && (r.reply.Ok? ==> r.reply.value == TradeUnsubscribeAck(ticker, events))
    ensures mgr.NoOpManager? ==> r == UnsubscribeOutcome([], Ok(TradeUnsubscribeAck(ticker, events)))
  {
    match mgr
    case NoOpManager => UnsubscribeOutcome([], Ok(TradeUnsubscribeAck(ticker, events)))
    case DistributedPubSubManager(format) =>
      var fan := UnsubscribeTopics(ToTopics(format, ticker, events), subscriber, faults);
      UnsubscribeOutcome(fan.requests,
                         if fan.failure.Some? then Err(fan.failure.value) else Ok(TradeUnsubscribeAck(ticker, events)))
  }

  /** `Subscribe(ticker, subscriber)`: every trade event type. With the distributed manager
      that is four requests, one per type in declaration order. */
  function SubscribeAllEvents(mgr: TradeManager, ticker: string, subscriber: ActorRef,
                              faults: map<int, string>): (r: SubscribeOutcome)
    ensures r == Subscribe(mgr, ticker, AllTradeEventTypes, subscriber, faults)
    ensures r.reply.Ok? ==> r.reply.value == TradeSubscribeAck(ticker, AllTradeEventTypes)
    ensures mgr.DistributedPubSubManager? ==>
              r.requests == [SubscribeTopic(mgr.format(ticker, Ask), subscriber),
                             SubscribeTopic(mgr.format(ticker, Bid), subscriber),
                             SubscribeTopic(mgr.format(ticker, Fill), subscriber),
                             SubscribeTopic(mgr.format(ticker, Match), subscriber)]
  {
    Subscribe(mgr, ticker, AllTradeEventTypes, subscriber, faults)
  }

  /** `Subscribe(ticker, event, subscriber)`: a one-element request. */
  function SubscribeEvent(mgr: TradeManager, ticker: string, event: TradeEventType, subscriber: ActorRef,
                          faults: map<int, string>): (r: SubscribeOutcome)
    ensures r == Subscribe(mgr, ticker, [event], subscriber, faults)
    ensures mgr.DistributedPubSubManager? ==>
              r.requests == [SubscribeTopic(mgr.format(ticker, event), subscriber)]
              && (r.reply.Ok? <==> 0 !in faults)
              && (r.reply.Ok? ==> r.reply.value == TradeSubscribeAck(ticker, [event]))
  {
    Subscribe(mgr, ticker, [event], subscriber, faults)
  }

  /** `Unsubscribe(ticker, event, subscriber)`: a one-element request. */
  function UnsubscribeEvent(mgr: TradeManager, ticker: string, event: TradeEventType, subscriber: ActorRef,
                            faults: map<int, string>): (r: UnsubscribeOutcome)
    ensures r == Unsubscribe(mgr, ticker, [event], subscriber, faults)
    ensures r.reply.Ok? ==> r.reply.value == TradeUnsubscribeAck(ticker, [event])
    ensures mgr.DistributedPubSubManager? ==>
              r.requests == [UnsubscribeTopic(mgr.format(ticker, event), subscriber)]
              && (r.reply.Ok? <==> 0 !in faults)
  {
    Unsubscribe(mgr, ticker, [event], subscriber, faults)
  }

  /** `Unsubscribe(ticker, subscriber)`: every trade event type. */
  function UnsubscribeAllEvents(mgr: TradeManager, ticker: string, subscriber: ActorRef,
                                faults: map<int, string>): (r: UnsubscribeOutcome)
    ensures r == Unsubscribe(mgr, ticker, AllTradeEventTypes, subscriber, faults)
    ensures r.reply.Ok? ==> r.reply.value == TradeUnsubscribeAck(ticker, AllTradeEventTypes)
    ensures mgr.DistributedPubSubManager? ==>
              r.requests == [UnsubscribeTopic(mgr.format(ticker, Ask), subscriber),
                             UnsubscribeTopic(mgr.format(ticker, Bid), subscriber),
                             UnsubscribeTopic(mgr.format(ticker, Fill), subscriber),
                             UnsubscribeTopic(mgr.format(ticker, Match), subscriber)]
  {
    Unsubscribe(mgr, ticker, AllTradeEventTypes, subscriber, faults)
  }

  /** Every trade event type is listed, exactly once. */
  lemma AllTradeEventTypesComplete(e: TradeEventType)
    ensures e in AllTradeEventTypes
    ensures forall i, j :: 0 <= i < j < |AllTradeEventTypes| ==> AllTradeEventTypes[i] != AllTradeEventTypes[j]
  {
  }

  /** The no-op manager ignores the requested events on subscribe but echoes them on
      unsubscribe, and depends on nothing but its arguments. */
  lemma NoOpAcks(ticker: string, events: seq<TradeEventType>, s1: ActorRef, s2: ActorRef,
                 f1: map<int, string>, f2: map<int, string>)
    ensures Subscribe(NoOpManager, ticker, events, s1, f1) == Subscribe(NoOpManager, ticker, AllTradeEventTypes, s2, f2)
    ensures Unsubscribe(NoOpManager, ticker, events, s1, f1).reply == Ok(TradeUnsubscribeAck(ticker, events))
    ensures Unsubscribe(NoOpManager, ticker, events, s1, f1) == Unsubscribe(NoOpManager, ticker, events, s2, f2)
  {
  }
}
