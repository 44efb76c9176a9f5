# Akka.CQRS order processing and price fan-out, in Dafny

This project models the message-driven core of the Akka.CQRS cluster workshop. The system is a
stock exchange: trade processors keep one persistent order book per ticker, and pricing nodes
turn matches into moving-average price and volume samples that subscribers receive.

Every actor is modelled as a pure state-transition function
`(state, command) -> (state, effects)`. Every effect the actor would perform (a `Tell`, a
persisted event, a mediator request, a snapshot save or delete) is a value in the returned
sequence. The models, one module each:

- **Events** (`events.dfy`): the trade value types `Bid`, `Ask`, `Fill`, `Match`, `Order` and
  `OrderbookSnapshot`, and the two queries. It covers the hand-written `Equals(object)`,
  `Equals(Fill)`, `==`/`!=` and `GetHashCode` of `Bid`, `Ask` and `Fill`, with reference identity
  and null made explicit (`Obj`, `FillRef`).
- **Time** (`time.dfy`): `DateTimeOffset` as UTC ticks, with the .NET constants of
  `ToUnixTimeMilliseconds` and `FromUnixTimeMilliseconds`.
- **Serialization** (`serializer.dfy`): the string-manifest serializer (identifier 517). It
  covers `ToBinary`, `Manifest` and `FromBinary` dispatch and every `ToProto`/`FromProto` pair.
  Protobuf messages are records.
- **Routing** (`routing.dfy`): the sharding entity id and the consistent-hash key.
- **OrderBookMaster** (`orderbook_master.dfy`): the child-per-ticker parent.
- **OrderBook** (`orderbook.dfy`): `OrderBookActor`. It covers the batch it persists per order,
  `PersistTrade` (confirm, publish, snapshot every 100th event), snapshot clean-up, recovery and
  subscription handling.
- **MatchAggregation** (`match_aggregator.dfy`): `MatchAggregator`. It covers the match,
  publish-tick and fetch handlers, persistence every tick, a snapshot every 10th record, and
  recovery.
- **BoundedBuffer** (`bounded_buffer.dfy`): the circular buffer, which drops its oldest element
  when full.
- **Mediator** (`mediator.dfy`): fan-out of subscribe and unsubscribe requests to the
  distributed pub-sub mediator. The failed requests are an input (a map from request position
  to exception message). `await Task.WhenAll` reports the first of them.
- **TradeSubscriptions** and **MarketSubscriptions**: the trade and market subscription
  managers (distributed pub-sub, in-memory, no-op) and the overloads their base classes add.
- **MarketEvents** and **PriceTopics** (`market_events.dfy`): the market-event classifier and
  the topic names.
- **ClientHandler** (`client_handler.dfy`): the translation of web-node client requests into
  trade subscriptions for the price router.

Three pieces of code sit outside what is modelled: the matching engine, the moving-average
aggregate and the topic formatter for trade events. Each is a parameter: a record of functions
(`MatchingEngine<E>`, `AggregateOps<A>`, `TopicFormatter`). Results that depend on the
infrastructure are inputs:

- a subscription manager's asynchronous reply to the order book;
- which mediator requests failed;
- the current time at a publish tick;
- the symbols the client handler subscribes to;
- the `decimal`/`double` casts prices cross the wire with (`NumericCasts`).

## Model

| member | source | states |
|---|---|---|
| Time.ToUnixTimeMilliseconds | src/Akka.CQRS/Serialization/TradeEventSerializer.cs:172 | The wire timestamp is the whole number of milliseconds since the Unix epoch within which the instant falls, and lies in the range `DateTimeOffset` accepts back |
| Time.FromUnixTimeMilliseconds | src/Akka.CQRS/Serialization/TradeEventSerializer.cs:179-180 | Reading a timestamp succeeds exactly for values in .NET's range, gives a millisecond-aligned instant, and inverts `ToUnixTimeMilliseconds` |
| Time.MillisecondRoundTrip | src/Akka.CQRS/Serialization/TradeEventSerializer.cs:164-181 | Writing then reading a timestamp truncates it to whole milliseconds; it is exact for millisecond-aligned instants |
| Events.NewFillDefaultsToComplete | src/Akka.CQRS/Events/Fill.cs:12-22 | A fill constructed without `partialFill` is not partial, and is the fill built with `false` |
| Events.BidEquals | src/Akka.CQRS/Events/Bid.cs:32-42 | `Bid.Equals(object)` is false for null, and otherwise true exactly for a bid with the same stock, price, quantity and order id, whatever its timestamp |
| Events.AskEquals | src/Akka.CQRS/Events/Ask.cs:30-40 | `Ask.Equals(object)` is false for null, and otherwise true exactly for an ask with the same stock, price, quantity and order id |
| Events.BidNeverEqualsAsk | src/Akka.CQRS/Events/Bid.cs:37-42 | A bid is unequal to an ask carrying identical fields, and equal to itself re-issued at another time |
| Events.FillEquals | src/Akka.CQRS/Events/Fill.cs:41-47 | `Equals(Fill)` is false for null, true for the same reference, and otherwise field equality on order id, quantity, price, filler, partial flag and stock, ignoring the timestamp |
| Events.FillObjectEquals | src/Akka.CQRS/Events/Fill.cs:49-54 | `Equals(object)` is false for null and for a non-fill at another address, and agrees with `Equals(Fill)` on fills |
| Events.FillOperatorEquals | src/Akka.CQRS/Events/Fill.cs:70-73 | `==` is true for two nulls, false when exactly one side is null, and the left operand's `Equals` otherwise |
| Events.FillOperatorNotEquals | src/Akka.CQRS/Events/Fill.cs:75-78 | `!=` is exactly the negation of `==` |
| Events.FillOperatorIsStructural | src/Akka.CQRS/Events/Fill.cs:41-73 | Between two non-null fills `==` is the timestamp-free field equality and is symmetric |
| Events.BidHashAgreesWithEquals | src/Akka.CQRS/Events/Bid.cs:32-54 | Equal bids have equal 32-bit hash codes, whatever their timestamps |
| Events.AskHashAgreesWithEquals | src/Akka.CQRS/Events/Ask.cs:30-52 | Equal asks have equal 32-bit hash codes |
| Events.FillHashAgreesWithEquals | src/Akka.CQRS/Events/Fill.cs:41-68 | Equal fills have equal 32-bit hash codes |
| Serialization.SideFromProto | src/Akka.CQRS/Serialization/TradeEventSerializer.cs:244-255 | Reading a trade side succeeds exactly for the two known wire values; anything else is an error |
| Serialization.SideRoundTrip | src/Akka.CQRS/Serialization/TradeEventSerializer.cs:244-268 | The side conversion is a bijection: Buy to Buy, Sell to Sell, and reading inverts writing |
| Serialization.PriceFromWire | src/Akka.CQRS/Serialization/TradeEventSerializer.cs:179 | A wire price reads back exactly when the `(decimal)` cast of the double succeeds |
| Serialization.FillsFromProto | src/Akka.CQRS/Serialization/TradeEventSerializer.cs:224 | Wire fills are read in order, one fill per wire fill; the list fails only if some fill fails |
| Serialization.OrdersFromProto | src/Akka.CQRS/Serialization/TradeEventSerializer.cs:157-158 | Wire orders are read in order, one per wire order; the list fails only if some order fails |
| Serialization.ToBinary | src/Akka.CQRS/Serialization/TradeEventSerializer.cs:34-57 | Writing fails exactly for a type other than the eight supported ones |
| Serialization.Manifest | src/Akka.CQRS/Serialization/TradeEventSerializer.cs:84-107 | A manifest exists exactly for the eight supported types |
| Serialization.FromBinary | src/Akka.CQRS/Serialization/TradeEventSerializer.cs:59-82 | Any manifest other than the eight known ones is rejected |
| Serialization.ManifestInjective | src/Akka.CQRS/Serialization/TradeEventSerializer.cs:84-103 | Every supported kind gets a manifest `FromBinary` accepts, and two events share a manifest exactly when they are of the same kind |
| Serialization.FillRoundTrip | src/Akka.CQRS/Serialization/TradeEventSerializer.cs:270-280 | A fill whose price survives the double cast reads back as itself with its timestamp cut to milliseconds |
| Serialization.FillsRoundTrip | src/Akka.CQRS/Serialization/TradeEventSerializer.cs:221-239 | An order's fills come back in the order written |
| Serialization.OrderRoundTrip | src/Akka.CQRS/Serialization/TradeEventSerializer.cs:219-242 | An order reads back with its original quantity, side and fills in order; an empty fill list stays empty |
| Serialization.OrdersRoundTrip | src/Akka.CQRS/Serialization/TradeEventSerializer.cs:142-158 | A list of orders comes back in the same order |
| Serialization.SnapshotFromProto | src/Akka.CQRS/Serialization/TradeEventSerializer.cs:155-161 | The time is converted first, so its error wins over any order's; the snapshot reads back exactly when the time and every non-empty order list convert, with stock, quantities and time carried over |
| Serialization.SnapshotRoundTrip | src/Akka.CQRS/Serialization/TradeEventSerializer.cs:132-161 | An order-book snapshot reads back as itself with all timestamps cut to milliseconds: asks and bids in the order written, every other field unchanged |
| Serialization.SerializationRoundTrip | src/Akka.CQRS/Serialization/TradeEventSerializer.cs:34-82 | For every supported event, reading back what was written under its own manifest gives the event with timestamps truncated to milliseconds |
| Serialization.RoundTripKeepsKind | src/Akka.CQRS/Serialization/TradeEventSerializer.cs:34-107 | Whatever the prices, a successful read-back is of the same kind as the event written |
| Serialization.TruncatedFillsAreSame | src/Akka.CQRS/Events/Fill.cs:41-47 | Cutting timestamps to milliseconds never changes a fill list under `Fill`'s equality |
| Serialization.RoundTripPreservesEquality | src/Akka.CQRS/Serialization/TradeEventSerializer.cs:164-217 | Match, Fill, Ask, Bid and Order come back equal to what was written under their own equality |
| Routing.EntityId | src/Akka.CQRS.Infrastructure/StockShardMsgRouter.cs:26-39 | The entity is the message's own StockId, else the StockId inside a confirmable envelope, else none; a direct StockId wins |
| Routing.TradeEventMapping | src/Akka.CQRS.Infrastructure/TradeEventConsistentHashMapping.cs:13-21 | The hash key is the StockId when there is one, else the message's string form; every message has a key |
| Routing.SameStockSameKey | src/Akka.CQRS.Infrastructure/TradeEventConsistentHashMapping.cs:15-18 | Two messages with the same StockId get the same hash key and the same entity, whatever else differs |
| Routing.EnvelopeKeysDiffer | src/Akka.CQRS.Infrastructure/StockShardMsgRouter.cs:33-36 | For an envelope the shard router uses the inner StockId while the hash mapping uses the envelope's string form |
| OrderBookMaster.ChildFor | src/Akka.CQRS.TradeProcessor.Actors/OrderBookMasterActor.cs:27-31 | An existing child is reused unchanged; a missing one is created under the ticker's name with a fresh publisher, and creation fails exactly when that name is not a valid actor name |
| OrderBookMaster.Receive | src/Akka.CQRS.TradeProcessor.Actors/OrderBookMasterActor.cs:12-25 | A message with a StockId, or an envelope around one, is forwarded unmodified to the child of that name; existing children are kept, only that child can be added, and only under a valid actor name; an invalid new name forwards nothing and changes nothing |
| OrderBookMaster.ReceivePreservesValid | src/Akka.CQRS.TradeProcessor.Actors/OrderBookMasterActor.cs:14-30 | After any message, no two tickers' children share a publisher |
| OrderBookMaster.ReceiveAllKeepsChildren | src/Akka.CQRS.TradeProcessor.Actors/OrderBookMasterActor.cs:12-31 | Over any run a child, once created, stays the same child, every forward goes to an existing child, and publishers stay distinct |
| Mediator.FirstFaultAt | src/Akka.CQRS.Subscriptions/DistributedPubSub/DistributedPubSubTradeEventSubscriptionManager.cs:26 | Finds the lowest-positioned failed request, or reports that none failed |
| Mediator.FirstFault | src/Akka.CQRS.Subscriptions/DistributedPubSub/DistributedPubSubTradeEventSubscriptionManager.cs:23-26 | The awaited fan-out fails exactly when some request failed, and then with the message of the first failed one |
| Mediator.SubscribeTopics | src/Akka.CQRS.Subscriptions/DistributedPubSub/DistributedPubSubTradeEventSubscriptionManager.cs:23-26 | One mediator subscribe per topic, in order, for the same subscriber; failure exactly when one failed |
| Mediator.UnsubscribeTopics | src/Akka.CQRS.Subscriptions/DistributedPubSub/DistributedPubSubTradeEventSubscriptionManager.cs:33-36 | One mediator unsubscribe per topic, in order; failure exactly when one failed |
| TradeSubscriptions.ToTopics | src/Akka.CQRS.Subscriptions/TradeEventSubscriptionManagerBase.cs:39-42 | One topic per requested event, same length and order |
| TradeSubscriptions.Subscribe | src/Akka.CQRS.Subscriptions/DistributedPubSub/DistributedPubSubTradeEventSubscriptionManager.cs:21-29 | The distributed manager sends one subscribe per event's topic and acks with the ticker and requested events exactly when none failed, with no rollback; the no-op manager sends nothing |
| TradeSubscriptions.Unsubscribe | src/Akka.CQRS.Subscriptions/DistributedPubSub/DistributedPubSubTradeEventSubscriptionManager.cs:31-39 | One unsubscribe per topic; ack with ticker and events exactly when none failed |
| TradeSubscriptions.SubscribeAllEvents | src/Akka.CQRS.Subscriptions/TradeEventSubscriptionManagerBase.cs:14-17 | Subscribing to a ticker is subscribing to all four trade event types, one request each in declaration order |
| TradeSubscriptions.SubscribeEvent | src/Akka.CQRS.Subscriptions/TradeEventSubscriptionManagerBase.cs:19-22 | Subscribing to one event is subscribing to the one-element list: one request, acked with that event |
| TradeSubscriptions.UnsubscribeEvent | src/Akka.CQRS.Subscriptions/TradeEventSubscriptionManagerBase.cs:29-32 | Unsubscribing from one event is unsubscribing from the one-element list |
| TradeSubscriptions.UnsubscribeAllEvents | src/Akka.CQRS.Subscriptions/TradeEventSubscriptionManagerBase.cs:34-37 | Unsubscribing from a ticker is unsubscribing from all four trade event types |
| TradeSubscriptions.AllTradeEventTypesComplete | src/Akka.CQRS.Subscriptions/TradeEventSubscriptionManagerBase.cs:16 | Every trade event type is in the all-types list, exactly once |
| TradeSubscriptions.NoOpAcks | src/Akka.CQRS.Subscriptions/NoOp/NoOpTradeEventSubscriptionManager.cs:17-25 | The no-op subscribe acks all trade event types whatever was asked; the no-op unsubscribe echoes the requested events; neither depends on subscriber or mediator |
| MarketEvents.ToMarketEventType | src/Akka.CQRS.Pricing.Subscriptions/MarketEventHelpers.cs:15-26 | Price updates are `PriceChange`, volume updates `VolumeChange`, anything else is an error carrying the `Message` of the exception as written, "event (Parameter '[type] is not a supported market event type.')", which opens with "event" and names the type inside the parameter part; every result is in the all-types list |
| MarketEvents.AsWrittenExceptionSwapsArguments | src/Akka.CQRS.Pricing.Subscriptions/MarketEventHelpers.cs:24 | As written, the parameter name holds the sentence and is no parameter of the classifier; the reported `Message` is "event (Parameter '…')" and differs from the intended one |
| MarketEvents.CorrectedExceptionNamesType | src/Akka.CQRS.Pricing.Subscriptions/MarketEventHelpers.cs:24 | The corrected exception names the parameter "event", and its reported `Message` opens with the sentence naming the event's type, followed by " (Parameter 'event')" |
| MarketEvents.AllMarketEventTypesComplete | src/Akka.CQRS.Pricing.Subscriptions/MarketEventHelpers.cs:12-13 | The all-types list holds every enum value, two distinct ones |
| PriceTopics.ToTopicInjective | src/Akka.CQRS.Pricing.Subscriptions/DistributedPubSub/DistributedPubSubPriceTopicFormatter.cs:20-35 | Two topics are equal exactly when ticker and event type are |
| PriceTopics.PriceTopicAgrees | src/Akka.CQRS.Pricing.Subscriptions/DistributedPubSub/DistributedPubSubPriceTopicFormatter.cs:10-27 | The price-update topic is the topic of `PriceChange` |
| PriceTopics.VolumeTopicMismatch | src/Akka.CQRS.Pricing.Subscriptions/DistributedPubSub/DistributedPubSubPriceTopicFormatter.cs:15-35 | The volume-update topic as written ("-update") is no topic `ToTopic` ever produces, for any ticker and type |
| PriceTopics.VolumeTopicAgrees | src/Akka.CQRS.Pricing.Subscriptions/DistributedPubSub/DistributedPubSubPriceTopicFormatter.cs:15-35 | The corrected volume-update topic, `VolumeUpdateTopicCorrected` ("-volume"), is the topic of `VolumeChange` |
| MarketSubscriptions.EnsureSub | src/Akka.CQRS.Pricing.Subscriptions/InMem/InMemoryMarketEventSubscriptionManager.cs:53-59 | Adds the key when missing, changes no membership, and is the identity when the key exists |
| MarketSubscriptions.AddToAll | src/Akka.CQRS.Pricing.Subscriptions/InMem/InMemoryMarketEventSubscriptionManager.cs:24-28 | The subscriber joins exactly the sets of the listed types; the keys grow by those types |
| MarketSubscriptions.RemoveFromAll | src/Akka.CQRS.Pricing.Subscriptions/InMem/InMemoryMarketEventSubscriptionManager.cs:35-39 | The subscriber leaves exactly the sets of the listed types |
| MarketSubscriptions.InMemSubscribe | src/Akka.CQRS.Pricing.Subscriptions/InMem/InMemoryMarketEventSubscriptionManager.cs:22-31 | The subscriber is in every requested type's set, nothing else changes, and the ack echoes ticker and events |
| MarketSubscriptions.InMemUnsubscribe | src/Akka.CQRS.Pricing.Subscriptions/InMem/InMemoryMarketEventSubscriptionManager.cs:33-42 | The subscriber is in no requested type's set, nothing else changes, and the ack echoes ticker and events even if it was absent |
| MarketSubscriptions.InMemPublish | src/Akka.CQRS.Pricing.Subscriptions/InMem/InMemoryMarketEventSubscriptionManager.cs:44-51 | Delivers to exactly the members of the event's type, changes no membership, and fails exactly for an unclassifiable event |
| MarketSubscriptions.InMemIdempotent | src/Akka.CQRS.Pricing.Subscriptions/InMem/InMemoryMarketEventSubscriptionManager.cs:22-42 | Subscribing twice is subscribing once; so is unsubscribing |
| MarketSubscriptions.InMemIgnoresTicker | src/Akka.CQRS.Pricing.Subscriptions/InMem/InMemoryMarketEventSubscriptionManager.cs:12-51 | The registry does not depend on the ticker: subscriptions and deliveries are the same for any two tickers |
| MarketSubscriptions.InMemDelivery | src/Akka.CQRS.Pricing.Subscriptions/InMem/InMemoryMarketEventSubscriptionManager.cs:22-51 | A subscriber to an event's type receives its publishes; one unsubscribed from all types receives none |
| MarketSubscriptions.ToTopics | src/Akka.CQRS.Pricing.Subscriptions/DistributedPubSub/DistributedPubSubMarketEventSubscriptionManager.cs:41-44 | One `ToTopic(ticker, e)` per requested event, same order |
| MarketSubscriptions.DpsPublish | src/Akka.CQRS.Pricing.Subscriptions/DistributedPubSub/DistributedPubSubMarketEventPublisher.cs:19-24 | Exactly one publish of the unchanged event to the ticker argument's topic for its type; an unclassifiable event fails before anything is sent |
| MarketSubscriptions.Subscribe | src/Akka.CQRS.Pricing.Subscriptions/DistributedPubSub/DistributedPubSubMarketEventSubscriptionManager.cs:21-29 | Distributed: one subscribe per topic, ack exactly when none failed; in-memory: registers the subscriber; no-op: nothing; every ack echoes ticker and events |
| MarketSubscriptions.Unsubscribe | src/Akka.CQRS.Pricing.Subscriptions/DistributedPubSub/DistributedPubSubMarketEventSubscriptionManager.cs:31-39 | Distributed: one unsubscribe per topic, ack exactly when none failed; in-memory: deregisters; every ack echoes ticker and events |
| MarketSubscriptions.SubscribeAllEvents | src/Akka.CQRS.Pricing.Subscriptions/MarketEventSubscriptionManagerBase.cs:11-14 | Subscribing to a ticker is subscribing to every market event type; in memory the subscriber joins every set |
| MarketSubscriptions.SubscribeEvent | src/Akka.CQRS.Pricing.Subscriptions/MarketEventSubscriptionManagerBase.cs:16-19 | Subscribing to one type is subscribing to the one-element list; other types' sets are untouched |
| MarketSubscriptions.UnsubscribeEvent | src/Akka.CQRS.Pricing.Subscriptions/MarketEventSubscriptionManagerBase.cs:27-30 | Unsubscribing from one type is unsubscribing from the one-element list |
| MarketSubscriptions.UnsubscribeAllEvents | src/Akka.CQRS.Pricing.Subscriptions/MarketEventSubscriptionManagerBase.cs:32-35 | Unsubscribing from a ticker is unsubscribing from every type; in memory the subscriber leaves every set |
| MarketSubscriptions.NoOpEchoes | src/Akka.CQRS.Pricing.Subscriptions/NoOp/NoOpMarketEventSubscriptionManager.cs:14-22 | The no-op manager acks with the requested ticker and events and depends on nothing else |
| MarketSubscriptions.DpsPublishReachesSubscribers | src/Akka.CQRS.Pricing.Subscriptions/DistributedPubSub/DistributedPubSubMarketEventSubscriptionManager.cs:41-44 | A subscriber's topic and a publish's topic meet exactly when ticker and event type agree |
| OrderBook.PersistenceIdInjective | src/Akka.CQRS.TradeProcessor.Actors/OrderBookActor.cs:53 | The persistence id is the ticker followed by "-orderBook", so distinct tickers never share a journal |
| OrderBook.PersistAll | src/Akka.CQRS.TradeProcessor.Actors/OrderBookActor.cs:200-215 | Persisting a batch only confirms, publishes under the actor's ticker, or saves snapshots |
| OrderBook.PersistAllPublishes | src/Akka.CQRS.TradeProcessor.Actors/OrderBookActor.cs:208 | Every persisted event is published once, in batch order |
| OrderBook.PersistAllConfirms | src/Akka.CQRS.TradeProcessor.Actors/OrderBookActor.cs:200-206 | The confirmation goes to the sender once per Ask/Bid in the batch, never for Fill or Match, and first when the batch starts with an order |
| OrderBook.PersistAllSnapshots | src/Akka.CQRS.TradeProcessor.Actors/OrderBookActor.cs:210-214 | A snapshot is saved exactly at the batch's sequence numbers that are multiples of 100 |
| OrderBook.Batch | src/Akka.CQRS.TradeProcessor.Actors/OrderBookActor.cs:179-180 | The order heads the batch, followed by the engine's events in engine order; it holds exactly one order event |
| OrderBook.ReplayDerivedIsNoOp | src/Akka.CQRS.TradeProcessor.Actors/OrderBookActor.cs:84-86 | Replaying fills and matches leaves the engine unchanged |
| OrderBook.ReplayBatch | src/Akka.CQRS.TradeProcessor.Actors/OrderBookActor.cs:179-185 | Replaying any non-empty prefix of an order's batch rebuilds the engine that placing the order produced |
| OrderBook.Recover | src/Akka.CQRS.TradeProcessor.Actors/OrderBookActor.cs:73-86 | An order-book snapshot offer replaces the engine and other offers are ignored; then bids and asks are re-applied and fills and matches change nothing |
| OrderBook.PlaceOrder | src/Akka.CQRS.TradeProcessor.Actors/OrderBookActor.cs:177-198 | Placing an order updates the engine, appends the batch to the journal, publishes the batch, confirms once (first) when confirmable, and snapshots at exactly the multiples of 100 in the new range |
| OrderBook.Receive | src/Akka.CQRS.TradeProcessor.Actors/OrderBookActor.cs:89-175 | An order is handled exactly as `PlaceOrder` handles it, state and effects; only orders change engine and journal. (Un)subscribe first asks the manager: on success, subscribe watches the subscriber, and the subscriber and then the sender get the ack; on failure only the subscriber gets a nack with the error. Unsubscribe keeps the watch. Termination unsubscribes the actor from all types. A saved snapshot at n deletes snapshots to n-1 and messages to n. A query answers the current snapshot |
| OrderBook.ReceivePreservesConsistency | src/Akka.CQRS.TradeProcessor.Actors/OrderBookActor.cs:179-197 | After every command the live engine equals recovery of the whole journal from a new engine |
| OrderBook.SavedSnapshotsMatchJournal | src/Akka.CQRS.TradeProcessor.Actors/OrderBookActor.cs:210-214 | The snapshot saved at sequence n is the snapshot of the engine rebuilt from the first n journal events |
| OrderBook.RecoveryFromSnapshot | src/Akka.CQRS.TradeProcessor.Actors/OrderBookActor.cs:73-86 | Provided the engine rebuilds exactly from its own snapshot, recovering from the snapshot saved at n plus the journal after n rebuilds the live engine |
| OrderBook.ForeignSnapshotIgnored | src/Akka.CQRS.TradeProcessor.Actors/OrderBookActor.cs:75-78 | A snapshot offer that is not an order-book snapshot is ignored |
| BoundedBuffer.Add | src/Akka.CQRS.Pricing.Actors/MatchAggregator.cs:157-158 | Adding appends the sample, dropping the oldest one only when the buffer was full |
| BoundedBuffer.Enqueue | src/Akka.CQRS.Pricing.Actors/MatchAggregator.cs:101-102 | Enqueueing many samples keeps the newest `capacity` of the old contents followed by the new ones |
| BoundedBuffer.EnqueueIntoEmpty | src/Akka.CQRS.Pricing.Actors/MatchAggregator.cs:36-37 | An empty buffer filled with at most its capacity holds exactly what was enqueued |
| MatchAggregation.Init | src/Akka.CQRS.Pricing.Actors/MatchAggregator.cs:36-37 | A new aggregator has no aggregate and two empty buffers of the sample size |
| MatchAggregation.OnMatch | src/Akka.CQRS.Pricing.Actors/MatchAggregator.cs:112-131 | The first own-ticker match creates the aggregate from its price and quantity; every own-ticker match changes only the aggregate; a match for another ticker changes nothing |
| MatchAggregation.OnPublishEvents | src/Akka.CQRS.Pricing.Actors/MatchAggregator.cs:148-172 | Without an aggregate nothing happens. Otherwise one sample is added to each buffer before the record holding them is persisted; the price sample goes to "-price" and, as written, the volume sample to "-update"; a snapshot is saved at multiples of 10 |
| MatchAggregation.AsWrittenVolumeSamplesMissSubscribers | src/Akka.CQRS.Pricing.Actors/MatchAggregator.cs:169-171 | As written, a tick's volume sample is published to a topic that is no `ToTopic` result, so no volume subscriber receives it |
| MatchAggregation.OnPublishEventsCorrected | src/Akka.CQRS.Pricing.Actors/MatchAggregator.cs:169-171 | The corrected tick has the same state and effects as the tick as written, except that the volume sample goes to the corrected "-volume" topic |
| MatchAggregation.PublishedSamplesReachSubscribers | src/Akka.CQRS.Pricing.Actors/MatchAggregator.cs:169-171 | The corrected tick publishes the price sample to the `PriceChange` topic and the volume sample to the `VolumeChange` topic that subscribers join |
| MatchAggregation.OnFetch | src/Akka.CQRS.Pricing.Actors/MatchAggregator.cs:134-146 | The empty placeholder exactly when either buffer is empty, otherwise both buffers' contents |
| MatchAggregation.Receive | src/Akka.CQRS.Pricing.Actors/MatchAggregator.cs:110-188 | A match is handled by `OnMatch` with no effects and a publish tick by `OnPublishEvents`; only publish ticks touch buffers and journal; fetch replies to the sender; ping does nothing; a saved snapshot at n deletes snapshots to n-1 and messages to n |
| MatchAggregation.RecoverAggregateDataAsWritten | src/Akka.CQRS.Pricing.Actors/MatchAggregator.cs:98-103 | Recovering a record resets the averages and appends the saved samples to what the buffers already hold |
| MatchAggregation.RecoverAggregateData | src/Akka.CQRS.Pricing.Actors/MatchAggregator.cs:98-103 | The corrected handler: the saved samples replace the buffers' contents |
| MatchAggregation.Replay | src/Akka.CQRS.Pricing.Actors/MatchAggregator.cs:76-84 | With the corrected handler, replaying records after an offer ends with the averages and samples of the newest record, or of a record snapshot when no record follows it, or unchanged otherwise |
| MatchAggregation.ReplayAsWritten | src/Akka.CQRS.Pricing.Actors/MatchAggregator.cs:98-103 | As written, replaying an offer and any records leaves each buffer holding the newest samples of what it held before, then the offer's samples, then every record's samples in order; the averages are the last record's, or the snapshot's when no record follows it |
| MatchAggregation.RecoverAsWritten | src/Akka.CQRS.Pricing.Actors/MatchAggregator.cs:76-84 | As written, recovery keeps the whole stored journal; the buffers end with the newest of the offer's samples followed by every replayed record's samples, and the averages come from the newest record |
| MatchAggregation.Recover | src/Akka.CQRS.Pricing.Actors/MatchAggregator.cs:76-84 | Recovery keeps the whole stored journal, so sequence numbers continue from its end; records after the offered snapshot's number are replayed; with the corrected handler it ends with the averages and samples of the newest record, or of a record snapshot when none follows it, or unchanged otherwise |
| MatchAggregation.ReceivePreservesBuffersPersisted | src/Akka.CQRS.Pricing.Actors/MatchAggregator.cs:155-160 | The newest persisted record always holds exactly the live buffers' contents |
| MatchAggregation.RecoveryRestoresBuffers | src/Akka.CQRS.Pricing.Actors/MatchAggregator.cs:76-103 | With the corrected handler, recovering the whole journal, or a snapshot the actor saved at n with or without records after it, restores the journal and the live sample buffers |
| MatchAggregation.RecoverRestoresNewest | src/Akka.CQRS.Pricing.Actors/MatchAggregator.cs:98-103 | When at least one record follows the offer, recovery ends with that newest record's averages and samples |
| MatchAggregation.PublishNumbersNext | src/Akka.CQRS.Pricing.Actors/MatchAggregator.cs:160-166 | A publish tick persists the next record at sequence number journal length plus one and snapshots it exactly when that number is a multiple of 10 |
| MatchAggregation.RecoveryKeepsSequence | src/Akka.CQRS.Pricing.Actors/MatchAggregator.cs:160-166 | After recovery, the next publish tick's record follows the stored journal, and its snapshot is taken at the multiple of 10 the live actor would use |
| MatchAggregation.SnapshotIsNewestRecord | src/Akka.CQRS.Pricing.Actors/MatchAggregator.cs:160-166 | The snapshot saved at n is the record persisted at n, a multiple of 10, and holds the buffers as of then |
| MatchAggregation.AsWrittenRecoveryDuplicatesSamples | src/Akka.CQRS.Pricing.Actors/MatchAggregator.cs:84-103 | As written, replaying two publish ticks' records yields [p1, p1, p2] where the live actor held [p1, p2]; the corrected handler yields [p1, p2] |
| ClientHandler.Receive | src/Akka.CQRS.Pricing.Actors/ClientHandlerActor.cs:22-38 | Subscribe and unsubscribe become one trade (un)subscribe for that ticker; subscribe-all becomes one per symbol in order; all ask for every trade event type on behalf of the sender |
| ClientHandler.SubscribeAllIsEach | src/Akka.CQRS.Pricing.Actors/ClientHandlerActor.cs:27-33 | Subscribing to all symbols sends exactly what subscribing to each symbol in turn sends |

## Left out

- Serializer configuration binding and the protobuf byte encoding. Messages are records. Bytes
  of a different message type than the manifest names are a parse failure, where protobuf
  might decode garbage instead.
- Prices and quantities are exact reals. The `decimal`→`double`→`decimal` price trip is the
  `NumericCasts` parameter, so price round trips hold only for prices that survive it. Null
  strings, NaN and `double` quantities are not modelled.
- The UTC offset of `DateTimeOffset`: instants are UTC ticks.
- The matching engine, the moving-average aggregate (`MatchAggregate`, including
  `DefaultSampleSize`, which is a parameter) and the circular buffer's internals. These classes
  are not part of this model. They are parameters, and no matching-correctness property is
  claimed.
- `HashCodeMessageExtractor` (shard number from the entity id), `EntityIdHelper`,
  `AvailableTickerSymbols` (a parameter of the client handler) and
  `DistributedPubSubTradeEventTopicFormatter` (an abstract formatter). None of these is part of
  this model.
- `TradeEventHelpers` is not part of this model. `AllTradeEventTypes` is assumed to be
  [Ask, Bid, Fill, Match], and `Match` and `Order` equality is assumed to be every field except
  timestamps.
- The in-memory trade event publisher used by the order-book master. A child's publisher is
  only an identity.
- Timers, `PersistAsync` interleaving, death-watch mechanics, and actor scheduling and delivery.
  Handlers are sequential functions, and the outcome of an awaited call arrives with its
  command.
- An out-of-range enum value has no representation, so `ToTopic`'s throw for one is not
  modelled. The same goes for an event that is both a price and a volume update.
- The no-op managers' singleton instance and private constructor. A manager is a stateless
  value.
- Ask-with-timeout wrappers, the web relay, the operator CLI, bootstrapping, and the duplicate
  manager base class in `IMarketEventSubscriptionManager.cs`.
- OrderBook.PersistAll: its own contract only bounds the kinds of effects. Publication,
  confirmation and snapshots are stated by `PersistAllPublishes`, `PersistAllConfirms` and
  `PersistAllSnapshots`, and `PlaceOrder` combines them.
- OrderBook.RecoveryFromSnapshot and `SnapshotThenTail` assume the engine rebuilds exactly from
  its own snapshot (`fromSnapshot(getSnapshot(e)) == e`). The engine is not part of this model,
  so this is a hypothesis about it, not a proved fact.
- Actor names: `ValidActorName` only checks for a non-empty name with no leading `$` and no `/`.
  The runtime's full character rules, its exception text, and the supervisor restart that
  follows the exception (which stops the existing children) are not modelled; the master keeps
  its children and forwards nothing.
- Error texts are modelled where the source builds them from the input (the unrecognized trade
  side, the unsupported market event). Other failures carry a short text of their own.
- MarketEvents.ToMarketEventType: the exception's `Message` follows the .NET Core layout,
  `message (Parameter 'name')`. The .NET Framework layout, with the parameter name on a second
  line, is not modelled.
- MatchAggregation.Recover: a snapshot numbered beyond the journal's end is excluded by its
  requires. The actor only saves snapshots at numbers it has persisted.

## Findings

| source | as written | input that shows it | evidently intended | confidence | as-written member | corrected member |
|---|---|---|---|---|---|---|
| src/Akka.CQRS.Pricing.Actors/MatchAggregator.cs:98-103 | Recovery enqueues each record's saved samples on top of what the buffers already hold. Every record holds the whole buffer, so replaying several records duplicates samples | Take a match, then two publish ticks, which persist records [p1] and [p1, p2], then restart: the buffers become [p1, p1, p2] (sample size at least 3) | Each recovered record replaces the buffers' contents, restoring [p1, p2] | not executed | MatchAggregation.AsWrittenRecoveryDuplicatesSamples | MatchAggregation.RecoveryRestoresBuffers |
| src/Akka.CQRS.Pricing.Subscriptions/MarketEventHelpers.cs:24 | `ArgumentOutOfRangeException` takes the parameter name first and the message second; the call passes them the other way round | Any event that is neither a price nor a volume update: the parameter name is the sentence, and the reported `Message` is "event (Parameter '[type] is not a supported market event type.')" | Parameter name "event"; `Message` opening with the sentence naming the unsupported event | not executed | MarketEvents.AsWrittenExceptionSwapsArguments | MarketEvents.CorrectedExceptionNamesType |
| src/Akka.CQRS.Pricing.Subscriptions/DistributedPubSub/DistributedPubSubPriceTopicFormatter.cs:15-18 | The aggregator publishes volume samples to "{ticker}-update", while volume subscribers join `ToTopic(ticker, VolumeChange)`, which is "{ticker}-volume" | Ticker "MSFT": samples go to "MSFT-update", subscribers listen on "MSFT-volume", so none arrives | The volume-update topic is "{ticker}-volume" | not executed | MatchAggregation.AsWrittenVolumeSamplesMissSubscribers | MatchAggregation.PublishedSamplesReachSubscribers |
