/** Subscriptions to market events for one ticker: the in-memory registry (which is also
    a publisher), the distributed pub-sub manager and publisher, the no-op manager, and
    the overloads the manager base class adds on top of all three. */
module MarketSubscriptions {
  import opened Wrappers
  import opened Mediator
  import opened MarketEvents
  import opened PriceTopics

  datatype MarketSubscribeAck = MarketSubscribeAck(tickerSymbol: string, events: seq<MarketEventType>)
  datatype MarketUnsubscribeAck = MarketUnsubscribeAck(tickerSymbol: string, events: seq<MarketEventType>)

  // ---------------------------------------------------------------- in-memory registry

  /** Subscribers by event type. A key, once added, is never removed. */
  type Registry = map<MarketEventType, set<ActorRef>>

  /** The subscribers of one event type; a missing key has none. */
  function Members(reg: Registry, e: MarketEventType): set<ActorRef> {
    if e in reg then reg[e] else {}
  }

  /** `EnsureSub`: adds an empty set for `e` when it has none, and changes no membership. */
  function EnsureSub(reg: Registry, e: MarketEventType): (r: Registry)
    ensures r.Keys == reg.Keys + {e}
    ensures forall k :: Members(r, k) == Members(reg, k)
    ensures e in reg ==> r == reg
  {
    if e in reg then reg else reg[e := {}]
  }

  /** The `foreach` of `Subscribe`: ensure the key, then add the subscriber, event by event. */
  function AddToAll(reg: Registry, events: seq<MarketEventType>, s: ActorRef): (r: Registry)
    ensures forall e :: e in r <==> e in reg || e in events
    ensures forall e :: Members(r, e) == if e in events then Members(reg, e) + {s} else Members(reg, e)
    decreases |events|
  {
    if |events| == 0 then reg
    else
      var reg1 := EnsureSub(reg, events[0]);
      AddToAll(reg1[events[0] := reg1[events[0]] + {s}], events[1..], s)
  }

  /** The `foreach` of `Unsubscribe`: ensure the key, then remove the subscriber, event by event. */
  function RemoveFromAll(reg: Registry, events: seq<MarketEventType>, s: ActorRef): (r: Registry)
    ensures forall e :: e in r <==> e in reg || e in events
    ensures forall e :: Members(r, e) == if e in events then Members(reg, e) - {s} else Members(reg, e)
    decreases |events|
  {
    if |events| == 0 then reg
    else
      var reg1 := EnsureSub(reg, events[0]);
      RemoveFromAll(reg1[events[0] := reg1[events[0]] - {s}], events[1..], s)
  }

  /** In-memory `Subscribe`: `s` joins the set of every requested type; other sets are untouched;
      the ack echoes the ticker and events. */
  function InMemSubscribe(reg: Registry, ticker: string, events: seq<MarketEventType>, s: ActorRef)
    : (r: (Registry, MarketSubscribeAck))
    ensures forall e :: e in events ==> s in Members(r.0, e)
    ensures forall e :: e !in events ==> Members(r.0, e) == Members(reg, e)
    ensures forall e, a :: a != s ==> (a in Members(r.0, e) <==> a in Members(reg, e))
    ensures r.1 == MarketSubscribeAck(ticker, events)
  {
    (AddToAll(reg, events, s), MarketSubscribeAck(ticker, events))
  }

  /** In-memory `Unsubscribe`: `s` leaves the set of every requested type, whether or not it
      was there; other sets are untouched; the ack echoes the ticker and events. */
  function InMemUnsubscribe(reg: Registry, ticker: string, events: seq<MarketEventType>, s: ActorRef)
    : (r: (Registry, MarketUnsubscribeAck))
    ensures forall e :: e in events ==> s !in Members(r.0, e)
    ensures forall e :: e !in events ==> Members(r.0, e) == Members(reg, e)
    ensures forall e, a :: a != s ==> (a in Members(r.0, e) <==> a in Members(reg, e))
    ensures r.1 == MarketUnsubscribeAck(ticker, events)
  {
    (RemoveFromAll(reg, events, s), MarketUnsubscribeAck(ticker, events))
  }

  /** In-memory `Publish`: classify the event (an error leaves the registry alone), ensure
      its key, and deliver it to exactly the members of that type. */
  function InMemPublish(reg: Registry, ticker: string, ev: MarketEvent): (r: Result<(Registry, set<ActorRef>)>)
    ensures r.Err? <==> ToMarketEventType(ev).Err?
    ensures r.Ok? ==> r.value.1 == Members(reg, ToMarketEventType(ev).value)
                      && forall e :: Members(r.value.0, e) == Members(reg, e)
  {
    var e :- ToMarketEventType(ev);
    var reg' := EnsureSub(reg, e);
    Ok((reg', reg'[e]))
  }

  /** Registries with the same members are the same registry. */
  lemma RegistryExt(a: Registry, b: Registry)
    requires a.Keys == b.Keys
    requires forall e :: Members(a, e) == Members(b, e)
    ensures a == b
  {
    forall e | e in a
      ensures a[e] == b[e]
    {
      assert Members(a, e) == Members(b, e);
    }
  }

  /** Subscribing twice is subscribing once, and so is unsubscribing. */
  lemma InMemIdempotent(reg: Registry, ticker: string, events: seq<MarketEventType>, s: ActorRef)
    ensures var once := InMemSubscribe(reg, ticker, events, s);
            InMemSubscribe(once.0, ticker, events, s) == once
    ensures var once := InMemUnsubscribe(reg, ticker, events, s);
            InMemUnsubscribe(once.0, ticker, events, s) == once
  {
    var once := InMemSubscribe(reg, ticker, events, s).0;
    var twice := InMemSubscribe(once, ticker, events, s).0;
    assert twice.Keys == once.Keys by {
      assert forall e :: e in twice <==> e in once;
    }
    RegistryExt(twice, once);
    var uonce := InMemUnsubscribe(reg, ticker, events, s).0;
    var utwice := InMemUnsubscribe(uonce, ticker, events, s).0;
    assert utwice.Keys == uonce.Keys by {
      assert forall e :: e in utwice <==> e in uonce;
    }
    RegistryExt(utwice, uonce);
  }

  /** The registry is keyed by event type only: the ticker changes nothing but the ack, and
      a publish for one ticker reaches the subscribers registered under any other. */
  lemma InMemIgnoresTicker(reg: Registry, t1: string, t2: string, events: seq<MarketEventType>,
                           s: ActorRef, ev: MarketEvent)
    ensures InMemSubscribe(reg, t1, events, s).0 == InMemSubscribe(reg, t2, events, s).0
    ensures InMemUnsubscribe(reg, t1, events, s).0 == InMemUnsubscribe(reg, t2, events, s).0
    ensures InMemPublish(reg, t1, ev) == InMemPublish(reg, t2, ev)
  {
  }

  /** After `s` subscribes to an event's type, a publish reaches `s`; after `s`
      unsubscribes from all types, no publish of any ticker reaches it. */
  lemma InMemDelivery(reg: Registry, ticker: string, events: seq<MarketEventType>, s: ActorRef, ev: MarketEvent)
    requires ToMarketEventType(ev).Ok?
    ensures ToMarketEventType(ev).value in events ==>
              s in InMemPublish(InMemSubscribe(reg, ticker, events, s).0, ticker, ev).value.1
    ensures s !in InMemPublish(InMemUnsubscribe(reg, ticker, AllMarketEventTypes, s).0, ticker, ev).value.1
  {
  }

  // ---------------------------------------------------------------- distributed pub-sub

  /** `ToTopics`: one topic per requested event, in order. */
  function ToTopics(ticker: string, events: seq<MarketEventType>): (topics: seq<string>)
    ensures |topics| == |events|
    ensures forall i :: 0 <= i < |events| ==> topics[i] == ToTopic(ticker, events[i])
  {
    seq(|events|, i requires 0 <= i < |events| => ToTopic(ticker, events[i]))
  }

  /** A mediator `Publish(topic, message)`. */
  datatype PublishRequest = PublishRequest(topic: string, message: MarketEvent)

  /** `DistributedPubSubMarketEventPublisher.Publish`: one publish of the unchanged event to
      the topic of the ticker argument and the event's type; an unclassifiable event fails
      before anything is sent. */
  function DpsPublish(ticker: string, ev: MarketEvent): (r: Result<seq<PublishRequest>>)
    ensures r.Err? <==> ev.OtherMarketEvent?
    ensures r.Ok? ==> r.value == [PublishRequest(ToTopic(ticker, ToMarketEventType(ev).value), ev)]
    ensures ev.PriceUpdate? ==> r == Ok([PublishRequest(PriceUpdateTopic(ticker), ev)])
  {
    var e :- ToMarketEventType(ev);
    PriceTopicAgrees(ticker);
    Ok([PublishRequest(ToTopic(ticker, e), ev)])
  }

  // ---------------------------------------------------------------- the managers

  /** The market subscription backends. The in-memory one carries its registry. */
  datatype MarketManager = InMemoryManager(registry: Registry) | DistributedPubSubManager | NoOpManager

  /** The mediator requests sent, the manager afterwards, and the reply (an error when an
      await failed). */
  datatype SubscribeOutcome = SubscribeOutcome(requests: seq<MediatorRequest>, manager: MarketManager,
                                               reply: Result<MarketSubscribeAck>)
  datatype UnsubscribeOutcome = UnsubscribeOutcome(requests: seq<MediatorRequest>, manager: MarketManager,
                                                   reply: Result<MarketUnsubscribeAck>)

  /** `Subscribe(ticker, events, subscriber)` on each backend. Only the distributed manager
      can fail: it sends one mediator subscribe per topic and acks only if all were
      acknowledged, without withdrawing the ones that were. */
  function Subscribe(mgr: MarketManager, ticker: string, events: seq<MarketEventType>, s: ActorRef,
                     faults: map<int, string>): (r: SubscribeOutcome)
    ensures r.reply.Ok? ==> r.reply.value == MarketSubscribeAck(ticker, events)
    ensures !mgr.DistributedPubSubManager? ==> r.requests == [] && r.reply.Ok?
    ensures mgr.NoOpManager? ==> r.manager == NoOpManager
    ensures mgr.InMemoryManager? ==>
              r.manager.InMemoryManager? && forall e :: e in events ==> s in Members(r.manager.registry, e)
    ensures mgr.DistributedPubSubManager? ==>
              && r.manager == mgr
              && |r.requests| == |events|
              && (forall i :: 0 <= i < |events| ==> r.requests[i] == SubscribeTopic(ToTopic(ticker, events[i]), s))
              && (r.reply.Ok? <==> forall i :: 0 <= i < |events| ==> i !in faults)
  {
    match mgr
    case InMemoryManager(reg) =>
      var (reg', ack) := InMemSubscribe(reg, ticker, events, s);
      SubscribeOutcome([], InMemoryManager(reg'), Ok(ack))
    case DistributedPubSubManager =>
      var fan := SubscribeTopics(ToTopics(ticker, events), s, faults);
      SubscribeOutcome(fan.requests, mgr,
                       if fan.failure.Some? then Err(fan.failure.value) else Ok(MarketSubscribeAck(ticker, events)))
    case NoOpManager => SubscribeOutcome([], mgr, Ok(MarketSubscribeAck(ticker, events)))
  }

  /** `Unsubscribe(ticker, events, subscriber)` on each backend. */
  function Unsubscribe(mgr: MarketManager, ticker: string, events: seq<MarketEventType>, s: ActorRef,
                       faults: map<int, string>): (r: UnsubscribeOutcome)
    ensures r.reply.Ok? ==> r.reply.value == MarketUnsubscribeAck(ticker, events)
    ensures !mgr.DistributedPubSubManager? ==> r.requests == [] && r.reply.Ok?
    ensures mgr.NoOpManager? ==> r.manager == NoOpManager
    ensures mgr.InMemoryManager? ==>
              r.manager.InMemoryManager? && forall e :: e in events ==> s !in Members(r.manager.registry, e)
    ensures mgr.DistributedPubSubManager? ==>
              && r.manager == mgr
              && |r.requests| == |events|
              && (forall i :: 0 <= i < |events| ==> r.requests[i] == UnsubscribeTopic(ToTopic(ticker, events[i]), s))
              && (r.reply.Ok? <==> forall i :: 0 <= i < |events| ==> i !in faults)
  {
    match mgr
    case InMemoryManager(reg) =>
      var (reg', ack) := InMemUnsubscribe(reg, ticker, events, s);
      UnsubscribeOutcome([], InMemoryManager(reg'), Ok(ack))
    case DistributedPubSubManager =>
      var fan := UnsubscribeTopics(ToTopics(ticker, events), s, faults);
      UnsubscribeOutcome(fan.requests, mgr,
                         if fan.failure.Some? then Err(fan.failure.value) else Ok(MarketUnsubscribeAck(ticker, events)))
    case NoOpManager => UnsubscribeOutcome([], mgr, Ok(MarketUnsubscribeAck(ticker, events)))
  }

  /** `Subscribe(ticker, subscriber)`: every market event type. */
  function SubscribeAllEvents(mgr: MarketManager, ticker: string, s: ActorRef, faults: map<int, string>)
    : (r: SubscribeOutcome)
    ensures r == Subscribe(mgr, ticker, AllMarketEventTypes, s, faults)
    ensures r.reply.Ok? ==> r.reply.value == MarketSubscribeAck(ticker, AllMarketEventTypes)
    ensures mgr.InMemoryManager? ==> forall e :: s in Members(r.manager.registry, e)
    ensures mgr.DistributedPubSubManager? ==>
              r.requests == [SubscribeTopic(ToTopic(ticker, VolumeChange), s),
                             SubscribeTopic(ToTopic(ticker, PriceChange), s)]
  {
    AllMarketEventTypesComplete();
    Subscribe(mgr, ticker, AllMarketEventTypes, s, faults)
  }

  /** `Subscribe(ticker, event, subscriber)`: a one-element request. */
  function SubscribeEvent(mgr: MarketManager, ticker: string, e: MarketEventType, s: ActorRef,
                          faults: map<int, string>): (r: SubscribeOutcome)
    ensures r == Subscribe(mgr, ticker, [e], s, faults)
    ensures r.reply.Ok? ==> r.reply.value == MarketSubscribeAck(ticker, [e])
    ensures mgr.InMemoryManager? ==>
              s in Members(r.manager.registry, e)
              && forall e' :: e' != e ==> Members(r.manager.registry, e') == Members(mgr.registry, e')
    ensures mgr.DistributedPubSubManager? ==>
              r.requests == [SubscribeTopic(ToTopic(ticker, e), s)] && (r.reply.Ok? <==> 0 !in faults)
  {
    Subscribe(mgr, ticker, [e], s, faults)
  }

  /** `Unsubscribe(ticker, event, subscriber)`: a one-element request. */
  function UnsubscribeEvent(mgr: MarketManager, ticker: string, e: MarketEventType, s: ActorRef,
                            faults: map<int, string>): (r: UnsubscribeOutcome)
    ensures r == Unsubscribe(mgr, ticker, [e], s, faults)
    ensures r.reply.Ok? ==> r.reply.value == MarketUnsubscribeAck(ticker, [e])
    ensures mgr.InMemoryManager? ==>
              s !in Members(r.manager.registry, e)
              && forall e' :: e' != e ==> Members(r.manager.registry, e') == Members(mgr.registry, e')
    ensures mgr.DistributedPubSubManager? ==>
              r.requests == [UnsubscribeTopic(ToTopic(ticker, e), s)] && (r.reply.Ok? <==> 0 !in faults)
  {
    Unsubscribe(mgr, ticker, [e], s, faults)
  }

  /** `Unsubscribe(ticker, subscriber)`: every market event type. */
  function UnsubscribeAllEvents(mgr: MarketManager, ticker: string, s: ActorRef, faults: map<int, string>)
    : (r: UnsubscribeOutcome)
    ensures r == Unsubscribe(mgr, ticker, AllMarketEventTypes, s, faults)
    ensures r.reply.Ok? ==> r.reply.value == MarketUnsubscribeAck(ticker, AllMarketEventTypes)
    ensures mgr.InMemoryManager? ==> forall e :: s !in Members(r.manager.registry, e)
    ensures mgr.DistributedPubSubManager? ==>
              r.requests == [UnsubscribeTopic(ToTopic(ticker, VolumeChange), s),
                             UnsubscribeTopic(ToTopic(ticker, PriceChange), s)]
  {
    AllMarketEventTypesComplete();
    Unsubscribe(mgr, ticker, AllMarketEventTypes, s, faults)
  }

  /** The no-op manager echoes its arguments and depends on nothing else. */
  lemma NoOpEchoes(ticker: string, events: seq<MarketEventType>, s1: ActorRef, s2: ActorRef,
                   f1: map<int, string>, f2: map<int, string>)
    ensures Subscribe(NoOpManager, ticker, events, s1, f1)
            == Subscribe(NoOpManager, ticker, events, s2, f2)
            == SubscribeOutcome([], NoOpManager, Ok(MarketSubscribeAck(ticker, events)))
    ensures Unsubscribe(NoOpManager, ticker, events, s1, f1)
            == Unsubscribe(NoOpManager, ticker, events, s2, f2)
            == UnsubscribeOutcome([], NoOpManager, Ok(MarketUnsubscribeAck(ticker, events)))
  {
  }

  /** Subscribers of the distributed manager and the distributed publisher meet on the same
      topic exactly when ticker and event type agree. */
  lemma DpsPublishReachesSubscribers(ticker: string, events: seq<MarketEventType>, s: ActorRef,
                                     faults: map<int, string>, t: string, ev: MarketEvent, i: int)
    requires DpsPublish(t, ev).Ok? && 0 <= i < |events|
    ensures Subscribe(DistributedPubSubManager, ticker, events, s, faults).requests[i].topic
              == DpsPublish(t, ev).value[0].topic
            <==> ticker == t && events[i] == ToMarketEventType(ev).value
  {
    ToTopicInjective(ticker, events[i], t, ToMarketEventType(ev).value);
  }
}
