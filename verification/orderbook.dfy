/** `OrderBookActor`: the persistent actor that owns one ticker's order book.

    The matching engine itself is not part of this model: it is a record of functions
    over an engine state `E`. What the actor adds around it is modelled exactly: the
    order it persists events in, the confirmation it sends, what it publishes, when it
    snapshots, what it deletes after a snapshot, how it recovers, and how it answers
    subscriptions.

    Asynchronous calls into the subscription manager are represented by their outcome,
    which arrives with the command. */
module OrderBook {
  import opened Wrappers
  import opened Events
  import opened Mediator
  import TS = TradeSubscriptions

  /** Take a snapshot every this many persisted events. */
  const SnapshotInterval: int := 100

  /** The journal id of a ticker's order book. */
  function PersistenceId(ticker: string): string {
    ticker + "-orderBook"
  }

  /** Distinct tickers never share a journal. */
  lemma PersistenceIdInjective(a: string, b: string)
    ensures PersistenceId(a) == PersistenceId(b) <==> a == b
    ensures |PersistenceId(a)| == |a| + 10 && PersistenceId(a)[..|a|] == a
  {
    if PersistenceId(a) == PersistenceId(b) {
      assert |a| == |b|;
      assert a == PersistenceId(a)[..|a|] == PersistenceId(b)[..|b|] == b;
    }
  }

  /** What the engine reports back from matching one order. */
  datatype Derived = DerivedFill(fill: Fill) | DerivedMatch(matched: Match)

  function DerivedEvent(d: Derived): TradeEvent {
    match d
    case DerivedFill(f) => FillEvent(f)
    case DerivedMatch(m) => MatchEvent(m)
  }

  /** The matching engine's interface: apply a bid or an ask, materialise a snapshot,
      rebuild from one. */
  datatype MatchingEngine<!E> = MatchingEngine(
    withBid: (E, Bid) -> (E, seq<Derived>),
    withAsk: (E, Ask) -> (E, seq<Derived>),
    getSnapshot: E -> OrderbookSnapshot,
    fromSnapshot: OrderbookSnapshot -> E)

  /** A new order placed with the book. */
  datatype NewOrder = NewBid(bid: Bid) | NewAsk(ask: Ask)

  function OrderEventOf(o: NewOrder): TradeEvent {
    match o
    case NewBid(b) => BidEvent(b)
    case NewAsk(a) => AskEvent(a)
  }

  function Apply<E>(eng: MatchingEngine<E>, e: E, o: NewOrder): (E, seq<Derived>) {
    match o
    case NewBid(b) => eng.withBid(e, b)
    case NewAsk(a) => eng.withAsk(e, a)
  }

  /** The reply to a placed order, sent to the original sender: (ConfirmationId, SenderId). */
  datatype Confirmation = Confirmation(confirmationId: int, senderId: string)

  datatype Outgoing =
    | ConfirmationMsg(confirmation: Confirmation)
    | SubscribeAckMsg(subscribeAck: TS.TradeSubscribeAck)
    | SubscribeNackMsg(subscribeNack: TS.TradeSubscribeNack)
    | UnsubscribeAckMsg(unsubscribeAck: TS.TradeUnsubscribeAck)
    | UnsubscribeNackMsg(unsubscribeNack: TS.TradeUnsubscribeNack)
    | SnapshotMsg(snapshot: OrderbookSnapshot)

  datatype Effect =
    | Tell(recipient: ActorRef, msg: Outgoing)
    | Publish(ticker: string, event: TradeEvent)
    | SaveSnapshot(sequenceNr: int, snapshot: OrderbookSnapshot)
    | DeleteSnapshots(maxSequenceNr: int)
    | DeleteMessages(toSequenceNr: int)
    | Watch(subject: ActorRef)
    | ManagerSubscribe(subscribe: TS.TradeSubscribe)
    | ManagerUnsubscribe(unsubscribe: TS.TradeUnsubscribe)

  /** The actor's state: its ticker, the engine, every event it has persisted (the event
      with sequence number n is `journal[n - 1]`), and the actors it death-watches. */
  datatype Book<E> = Book(ticker: string, engine: E, journal: seq<TradeEvent>, watched: set<ActorRef>)

  datatype Command =
    | Place(order: NewOrder, confirmationId: Option<int>)
    | Subscribe(sub: TS.TradeSubscribe, subscribeReply: Result<TS.TradeSubscribeAck>)
    | Unsubscribe(unsub: TS.TradeUnsubscribe, unsubscribeReply: Result<TS.TradeUnsubscribeAck>)
    | Terminated(subject: ActorRef)
    | SaveSnapshotSuccess(sequenceNr: int)
    | GetSnapshot(query: GetOrderBookSnapshot)

  // ---------------------------------------------------------------- effect views

  /** The events published, in order. */
  function Published(effects: seq<Effect>): seq<TradeEvent> {
    if |effects| == 0 then []
    else (if effects[0].Publish? then [effects[0].event] else []) + Published(effects[1..])
  }

  /** The confirmations sent, in order. */
  function Confirmations(effects: seq<Effect>): seq<Confirmation> {
    if |effects| == 0 then []
    else (if effects[0].Tell? && effects[0].msg.ConfirmationMsg? then [effects[0].msg.confirmation] else [])
         + Confirmations(effects[1..])
  }

  predicate Saves(effects: seq<Effect>, n: int, s: OrderbookSnapshot) {
    SaveSnapshot(n, s) in effects
  }

  predicate IsOrderEvent(ev: TradeEvent) {
    ev.AskEvent? || ev.BidEvent?
  }

  function CountOrderEvents(batch: seq<TradeEvent>): nat {
    if |batch| == 0 then 0
    else (if IsOrderEvent(batch[0]) then 1 else 0) + CountOrderEvents(batch[1..])
  }

  // ---------------------------------------------------------------- persisting a batch

  /** `PersistTrade` for the event persisted with sequence number `seqNr`: confirm an order
      event to the sender, publish it under the ticker, and snapshot the engine on every
      `SnapshotInterval`-th event. `snapshot` is the engine's snapshot when the handler runs,
      that is after the whole batch was applied. */
  function PersistTrade(ticker: string, snapshot: OrderbookSnapshot, confirmation: Option<Confirmation>,
                        sender: ActorRef, ev: TradeEvent, seqNr: int): seq<Effect>
  {
    (if confirmation.Some? && IsOrderEvent(ev) then [Tell(sender, ConfirmationMsg(confirmation.value))] else [])
    + [Publish(ticker, ev)]
    + (if seqNr % SnapshotInterval == 0 then [SaveSnapshot(seqNr, snapshot)] else [])
  }

  /** `PersistAll(batch, PersistTrade)`, the first event getting sequence number `firstSeq`. */
  function PersistAll(ticker: string, snapshot: OrderbookSnapshot, confirmation: Option<Confirmation>,
                      sender: ActorRef, batch: seq<TradeEvent>, firstSeq: int): (effects: seq<Effect>)
    ensures forall e :: e in effects ==> e.Tell? || (e.Publish? && e.ticker == ticker) || e.SaveSnapshot?
    decreases |batch|
  {
    if |batch| == 0 then []
    else
      var head := PersistTrade(ticker, snapshot, confirmation, sender, batch[0], firstSeq);
      var rest := PersistAll(ticker, snapshot, confirmation, sender, batch[1..], firstSeq + 1);
      head + rest
  }

  /** Every event of the batch is published once, in persistence order, under the ticker. */
  lemma {:induction false} PersistAllPublishes(ticker: string, snapshot: OrderbookSnapshot,
                                               confirmation: Option<Confirmation>, sender: ActorRef,
                                               batch: seq<TradeEvent>, firstSeq: int)
    ensures Published(PersistAll(ticker, snapshot, confirmation, sender, batch, firstSeq)) == batch
    decreases |batch|
  {
    if |batch| > 0 {
      var confirm := if confirmation.Some? && IsOrderEvent(batch[0]) then [Tell(sender, ConfirmationMsg(confirmation.value))] else [];
      var save := if firstSeq % SnapshotInterval == 0 then [SaveSnapshot(firstSeq, snapshot)] else [];
      var rest := PersistAll(ticker, snapshot, confirmation, sender, batch[1..], firstSeq + 1);
      var head := confirm + [Publish(ticker, batch[0])] + save;
      assert PersistAll(ticker, snapshot, confirmation, sender, batch, firstSeq) == head + rest;
      PersistAllPublishes(ticker, snapshot, confirmation, sender, batch[1..], firstSeq + 1);
      PublishedAppend(confirm + [Publish(ticker, batch[0])], save);
      PublishedAppend(confirm, [Publish(ticker, batch[0])]);
      PublishedAppend(head, rest);
      assert Published(head) == [batch[0]];
    }
  }

  /** With a confirmation, the sender is told it once per order event of the batch, and
      before anything else when the batch starts with one; without, nobody is told anything. */
  lemma {:induction false} PersistAllConfirms(ticker: string, snapshot: OrderbookSnapshot,
                                              confirmation: Option<Confirmation>, sender: ActorRef,
                                              batch: seq<TradeEvent>, firstSeq: int)
    ensures var effects := PersistAll(ticker, snapshot, confirmation, sender, batch, firstSeq);
            && (forall e :: e in effects && e.Tell? ==>
                  confirmation.Some? && e == Tell(sender, ConfirmationMsg(confirmation.value)))
            && |Confirmations(effects)| == (if confirmation.Some? then CountOrderEvents(batch) else 0)
            && (confirmation.Some? && |batch| > 0 && IsOrderEvent(batch[0]) ==>
                  effects[0] == Tell(sender, ConfirmationMsg(confirmation.value)))
    decreases |batch|
  {
    if |batch| > 0 {
      var confirm := if confirmation.Some? && IsOrderEvent(batch[0]) then [Tell(sender, ConfirmationMsg(confirmation.value))] else [];
      var save := if firstSeq % SnapshotInterval == 0 then [SaveSnapshot(firstSeq, snapshot)] else [];
      var rest := PersistAll(ticker, snapshot, confirmation, sender, batch[1..], firstSeq + 1);
      var head := confirm + [Publish(ticker, batch[0])] + save;
      assert PersistAll(ticker, snapshot, confirmation, sender, batch, firstSeq) == head + rest;
      PersistAllConfirms(ticker, snapshot, confirmation, sender, batch[1..], firstSeq + 1);
      ConfirmationsAppend(confirm + [Publish(ticker, batch[0])], save);
      ConfirmationsAppend(confirm, [Publish(ticker, batch[0])]);
      ConfirmationsAppend(head, rest);
    }
  }

  /** A snapshot is saved exactly for the sequence numbers of the batch that are multiples
      of the interval, each with the engine's current snapshot. */
  lemma {:induction false} PersistAllSnapshots(ticker: string, snapshot: OrderbookSnapshot,
                                               confirmation: Option<Confirmation>, sender: ActorRef,
                                               batch: seq<TradeEvent>, firstSeq: int)
    ensures forall n, s :: Saves(PersistAll(ticker, snapshot, confirmation, sender, batch, firstSeq), n, s) <==>
              firstSeq <= n < firstSeq + |batch| && n % SnapshotInterval == 0 && s == snapshot
    decreases |batch|
  {
    if |batch| > 0 {
      var head := PersistTrade(ticker, snapshot, confirmation, sender, batch[0], firstSeq);
      var rest := PersistAll(ticker, snapshot, confirmation, sender, batch[1..], firstSeq + 1);
      PersistAllSnapshots(ticker, snapshot, confirmation, sender, batch[1..], firstSeq + 1);
      assert forall n, s :: Saves(head + rest, n, s) <==> Saves(head, n, s) || Saves(rest, n, s);
    }
  }

  lemma PublishedAppend(a: seq<Effect>, b: seq<Effect>)
    ensures Published(a + b) == Published(a) + Published(b)
    decreases |a|
  {
    if |a| == 0 {
      assert a + b == b;
    } else {
      assert (a + b)[0] == a[0] && (a + b)[1..] == a[1..] + b;
      PublishedAppend(a[1..], b);
    }
  }

  lemma ConfirmationsAppend(a: seq<Effect>, b: seq<Effect>)
    ensures Confirmations(a + b) == Confirmations(a) + Confirmations(b)
    decreases |a|
  {
    if |a| == 0 {
      assert a + b == b;
    } else {
      assert (a + b)[0] == a[0] && (a + b)[1..] == a[1..] + b;
      ConfirmationsAppend(a[1..], b);
    }
  }

  /** The events a placed order persists: the order first, then what the engine derived from it. */
  function Batch(order: NewOrder, derived: seq<Derived>): (batch: seq<TradeEvent>)
    ensures |batch| == 1 + |derived| && batch[0] == OrderEventOf(order)
    ensures forall i :: 0 <= i < |derived| ==> batch[i + 1] == DerivedEvent(derived[i])
    ensures CountOrderEvents(batch) == 1
  {
    var tail := seq(|derived|, i requires 0 <= i < |derived| => DerivedEvent(derived[i]));
    NoOrderEventsDerived(tail);
    assert ([OrderEventOf(order)] + tail)[1..] == tail;
    [OrderEventOf(order)] + tail
  }

  lemma NoOrderEventsDerived(evs: seq<TradeEvent>)
    requires forall i :: 0 <= i < |evs| ==> evs[i].FillEvent? || evs[i].MatchEvent?
    ensures CountOrderEvents(evs) == 0
    decreases |evs|
  {
    if |evs| > 0 {
      NoOrderEventsDerived(evs[1..]);
    }
  }

  // ---------------------------------------------------------------- recovery

  /** What one journal event does to the engine during recovery: bids and asks are
      re-applied; fills and matches cannot change the engine; nothing else is handled. */
  function RecoverEvent<E>(eng: MatchingEngine<E>, e: E, ev: TradeEvent): E {
    match ev
    case BidEvent(b) => eng.withBid(e, b).0
    case AskEvent(a) => eng.withAsk(e, a).0
    case _ => e
  }

  /** Replays journal events, oldest first. */
  function Replay<E>(eng: MatchingEngine<E>, e: E, evs: seq<TradeEvent>): E
    decreases |evs|
  {
    if |evs| == 0 then e else Replay(eng, RecoverEvent(eng, e, evs[0]), evs[1..])
  }

  lemma {:induction false} ReplayAppend<E>(eng: MatchingEngine<E>, e: E, a: seq<TradeEvent>, b: seq<TradeEvent>)
    ensures Replay(eng, e, a + b) == Replay(eng, Replay(eng, e, a), b)
    decreases |a|
  {
    if |a| == 0 {
      assert a + b == b;
    } else {
      assert (a + b)[0] == a[0] && (a + b)[1..] == a[1..] + b;
      ReplayAppend(eng, RecoverEvent(eng, e, a[0]), a[1..], b);
    }
  }

  /** Replaying fills and matches leaves the engine as it was. */
  lemma {:induction false} ReplayDerivedIsNoOp<E>(eng: MatchingEngine<E>, e: E, evs: seq<TradeEvent>)
    requires forall i :: 0 <= i < |evs| ==> evs[i].FillEvent? || evs[i].MatchEvent?
    ensures Replay(eng, e, evs) == e
    decreases |evs|
  {
    if |evs| > 0 {
      ReplayDerivedIsNoOp(eng, e, evs[1..]);
    }
  }

  /** Replaying the persisted batch of an order gives exactly the engine that placing it produced. */
  lemma ReplayBatch<E>(eng: MatchingEngine<E>, e: E, order: NewOrder, k: int)
    requires 1 <= k <= |Batch(order, Apply(eng, e, order).1)|
    ensures Replay(eng, e, Batch(order, Apply(eng, e, order).1)[..k]) == Apply(eng, e, order).0
  {
    var batch := Batch(order, Apply(eng, e, order).1);
    assert batch[..k] == [batch[0]] + batch[1..k];
    ReplayDerivedIsNoOp(eng, Apply(eng, e, order).0, batch[1..k]);
  }

  /** A snapshot offered at recovery. Only an order-book snapshot is used. */
  datatype SnapshotPayload = BookSnapshot(snapshot: OrderbookSnapshot) | OtherSnapshot(typeName: string)

  /** Recovery: start from a new engine, or from the offered order-book snapshot, then
      replay the journal events newer than the snapshot. */
  function Recover<E>(eng: MatchingEngine<E>, initial: E, offer: Option<SnapshotPayload>,
                      evs: seq<TradeEvent>): (e: E)
    ensures offer.Some? && offer.value.BookSnapshot? ==>
              e == Replay(eng, eng.fromSnapshot(offer.value.snapshot), evs)
    ensures (offer.None? || offer.value.OtherSnapshot?) ==> e == Replay(eng, initial, evs)
    ensures (forall i :: 0 <= i < |evs| ==> evs[i].FillEvent? || evs[i].MatchEvent?) ==>
              e == if offer.Some? && offer.value.BookSnapshot? then eng.fromSnapshot(offer.value.snapshot) else initial
  {
    var start := if offer.Some? && offer.value.BookSnapshot? then eng.fromSnapshot(offer.value.snapshot) else initial;
    if forall i :: 0 <= i < |evs| ==> evs[i].FillEvent? || evs[i].MatchEvent? then
      ReplayDerivedIsNoOp(eng, start, evs);
      Replay(eng, start, evs)
    else Replay(eng, start, evs)
  }

  // ---------------------------------------------------------------- commands

  /** Places an order: match it, persist the order and then its fills and matches, and run
      `PersistTrade` for each with sequence numbers following the journal. */
  function PlaceOrder<E>(eng: MatchingEngine<E>, book: Book<E>, order: NewOrder, confirmationId: Option<int>,
                         sender: ActorRef): (r: (Book<E>, seq<Effect>))
    ensures r.0.ticker == book.ticker && r.0.watched == book.watched
    ensures r.0.engine == Apply(eng, book.engine, order).0
    ensures r.0.journal == book.journal + Batch(order, Apply(eng, book.engine, order).1)
    ensures Published(r.1) == Batch(order, Apply(eng, book.engine, order).1)
    ensures Confirmations(r.1) == if confirmationId.Some? then [Confirmation(confirmationId.value, PersistenceId(book.ticker))] else []
    ensures confirmationId.Some? ==>
              r.1[0] == Tell(sender, ConfirmationMsg(Confirmation(confirmationId.value, PersistenceId(book.ticker))))
    ensures forall n, s :: Saves(r.1, n, s) <==>
              |book.journal| < n <= |r.0.journal| && n % SnapshotInterval == 0 && s == eng.getSnapshot(r.0.engine)
  {
    var (e', derived) := Apply(eng, book.engine, order);
    var batch := Batch(order, derived);
    var confirmation := if confirmationId.Some? then Some(Confirmation(confirmationId.value, PersistenceId(book.ticker))) else None;
    var effects := PersistAll(book.ticker, eng.getSnapshot(e'), confirmation, sender, batch, |book.journal| + 1);
    PersistAllPublishes(book.ticker, eng.getSnapshot(e'), confirmation, sender, batch, |book.journal| + 1);
    PersistAllConfirms(book.ticker, eng.getSnapshot(e'), confirmation, sender, batch, |book.journal| + 1);
    PersistAllSnapshots(book.ticker, eng.getSnapshot(e'), confirmation, sender, batch, |book.journal| + 1);
    ConfirmationsAreAll(effects, confirmation, sender);
    (Book(book.ticker, e', book.journal + batch, book.watched), effects)
  }

  lemma ConfirmationsAreAll(effects: seq<Effect>, confirmation: Option<Confirmation>, sender: ActorRef)
    requires forall e :: e in effects ==> e.Tell? ==>
               confirmation.Some? && e == Tell(sender, ConfirmationMsg(confirmation.value))
    ensures forall c :: c in Confirmations(effects) ==> confirmation == Some(c)
    ensures confirmation.None? ==> Confirmations(effects) == []
    ensures |Confirmations(effects)| == 1 ==> Confirmations(effects) == [confirmation.value]
    decreases |effects|
  {
    if |effects| > 0 {
      ConfirmationsAreAll(effects[1..], confirmation, sender);
    }
  }

  /** Handles one command from `sender`. */
  function Receive<E>(eng: MatchingEngine<E>, book: Book<E>, cmd: Command, sender: ActorRef): (r: (Book<E>, seq<Effect>))
    ensures r.0.ticker == book.ticker
    ensures !cmd.Place? ==> r.0.engine == book.engine && r.0.journal == book.journal
    ensures cmd.Place? ==> r == PlaceOrder(eng, book, cmd.order, cmd.confirmationId, sender)
    ensures cmd.GetSnapshot? ==> r.1 == [Tell(sender, SnapshotMsg(eng.getSnapshot(book.engine)))]
    ensures cmd.SaveSnapshotSuccess? ==>
              r.1 == [DeleteSnapshots(cmd.sequenceNr - 1), DeleteMessages(cmd.sequenceNr)]
    ensures cmd.Subscribe? ==>
              && |r.1| > 0 && r.1[0] == ManagerSubscribe(cmd.sub)
              && (r.0.watched == if cmd.subscribeReply.Ok? then book.watched + {cmd.sub.subscriber} else book.watched)
              && (cmd.subscribeReply.Ok? ==>
                    r.1[1..] == [Watch(cmd.sub.subscriber),
                                 Tell(cmd.sub.subscriber, SubscribeAckMsg(cmd.subscribeReply.value)),
                                 Tell(sender, SubscribeAckMsg(cmd.subscribeReply.value))])
              && (cmd.subscribeReply.Err? ==>
                    r.1[1..] == [Tell(cmd.sub.subscriber, SubscribeNackMsg(
                      TS.TradeSubscribeNack(cmd.sub.stockId, cmd.sub.events, cmd.subscribeReply.message)))])
    ensures cmd.Unsubscribe? ==>
              && r.0.watched == book.watched
              && |r.1| > 0 && r.1[0] == ManagerUnsubscribe(cmd.unsub)
              && (cmd.unsubscribeReply.Ok? ==>
                    r.1[1..] == [Tell(cmd.unsub.subscriber, UnsubscribeAckMsg(cmd.unsubscribeReply.value)),
                                 Tell(sender, UnsubscribeAckMsg(cmd.unsubscribeReply.value))])
              && (cmd.unsubscribeReply.Err? ==>
                    r.1[1..] == [Tell(cmd.unsub.subscriber, UnsubscribeNackMsg(
                      TS.TradeUnsubscribeNack(cmd.unsub.stockId, cmd.unsub.events, cmd.unsubscribeReply.message)))])
    ensures cmd.Terminated? ==>
              r.1 == [ManagerUnsubscribe(TS.TradeUnsubscribe(book.ticker, TS.AllTradeEventTypes, cmd.subject))]
              && r.0.watched == book.watched - {cmd.subject}
  {
    match cmd
    case Place(order, confirmationId) => PlaceOrder(eng, book, order, confirmationId, sender)
    case Subscribe(sub, reply) =>
      (match reply
       case Ok(ack) =>
         (book.(watched := book.watched + {sub.subscriber}),
          [ManagerSubscribe(sub), Watch(sub.subscriber),
           Tell(sub.subscriber, SubscribeAckMsg(ack)), Tell(sender, SubscribeAckMsg(ack))])
       case Err(message) =>
         (book, [ManagerSubscribe(sub),
                 Tell(sub.subscriber, SubscribeNackMsg(TS.TradeSubscribeNack(sub.stockId, sub.events, message)))]))
    case Unsubscribe(unsub, reply) =>
      (match reply
       case Ok(ack) =>
         (book, [ManagerUnsubscribe(unsub), Tell(unsub.subscriber, UnsubscribeAckMsg(ack)),
                 Tell(sender, UnsubscribeAckMsg(ack))])
       case Err(message) =>
         (book, [ManagerUnsubscribe(unsub),
                 Tell(unsub.subscriber, UnsubscribeNackMsg(TS.TradeUnsubscribeNack(unsub.stockId, unsub.events, message)))]))
    case Terminated(subject) =>
      (book.(watched := book.watched - {subject}),
       [ManagerUnsubscribe(TS.TradeUnsubscribe(book.ticker, TS.AllTradeEventTypes, subject))])
    case SaveSnapshotSuccess(n) => (book, [DeleteSnapshots(n - 1), DeleteMessages(n)])
    case GetSnapshot(_) => (book, [Tell(sender, SnapshotMsg(eng.getSnapshot(book.engine)))])
  }

  // ---------------------------------------------------------------- persistence invariants

  /** The live engine is what recovering the whole journal from a new engine would give. */
  ghost predicate Consistent<E>(eng: MatchingEngine<E>, initial: E, book: Book<E>) {
    book.engine == Replay(eng, initial, book.journal)
  }

  /** Every command keeps the engine equal to the replay of the journal, so a restart
      without snapshots rebuilds the same book. */
  lemma ReceivePreservesConsistency<E>(eng: MatchingEngine<E>, initial: E, book: Book<E>, cmd: Command, sender: ActorRef)
    requires Consistent(eng, initial, book)
    ensures Consistent(eng, initial, Receive(eng, book, cmd, sender).0)
  {
    if cmd.Place? {
      var batch := Batch(cmd.order, Apply(eng, book.engine, cmd.order).1);
      ReplayAppend(eng, initial, book.journal, batch);
      ReplayBatch(eng, book.engine, cmd.order, |batch|);
      assert batch[..|batch|] == batch;
    }
  }

  /** Every snapshot a command saves with sequence number n is the snapshot of the engine
      rebuilt from the first n journal events: snapshot n is in step with the journal. */
  lemma SavedSnapshotsMatchJournal<E>(eng: MatchingEngine<E>, initial: E, book: Book<E>, cmd: Command,
                                      sender: ActorRef, n: int, s: OrderbookSnapshot)
    requires Consistent(eng, initial, book)
    requires Saves(Receive(eng, book, cmd, sender).1, n, s)
    ensures 0 < n <= |Receive(eng, book, cmd, sender).0.journal|
    ensures n % SnapshotInterval == 0
    ensures s == eng.getSnapshot(Replay(eng, initial, Receive(eng, book, cmd, sender).0.journal[..n]))
  {
    match cmd {
      case Place(order, confirmationId) =>
        var batch := Batch(order, Apply(eng, book.engine, order).1);
        var journal' := book.journal + batch;
        var k := n - |book.journal|;
        assert journal'[..n] == book.journal + batch[..k];
        ReplayAppend(eng, initial, book.journal, batch[..k]);
        ReplayBatch(eng, book.engine, order, k);
      case Subscribe(sub, reply) =>
        assert false;
      case Unsubscribe(unsub, reply) =>
        assert false;
      case Terminated(subject) =>
        assert false;
      case SaveSnapshotSuccess(m) =>
        assert false;
      case GetSnapshot(q) =>
        assert false;
    }
  }

  /** Recovering from snapshot n and the journal events after it gives the live engine,
      provided the engine survives its own snapshot. So deleting the events up to n after
      the snapshot is saved loses nothing. */
  lemma RecoveryFromSnapshot<E>(eng: MatchingEngine<E>, initial: E, book: Book<E>, cmd: Command,
                                sender: ActorRef, n: int, s: OrderbookSnapshot)
    requires forall e :: eng.fromSnapshot(eng.getSnapshot(e)) == e
    requires Consistent(eng, initial, book)
    requires Saves(Receive(eng, book, cmd, sender).1, n, s)
    ensures var book' := Receive(eng, book, cmd, sender).0;
            0 < n <= |book'.journal|
            && Recover(eng, initial, Some(BookSnapshot(s)), book'.journal[n..]) == book'.engine
  {
    SavedSnapshotsMatchJournal(eng, initial, book, cmd, sender, n, s);
    ReceivePreservesConsistency(eng, initial, book, cmd, sender);
    SnapshotThenTail(eng, initial, Receive(eng, book, cmd, sender).0, n, s);
  }

  /** Restoring the snapshot of the first n journal events and replaying the rest rebuilds
      a consistent book's engine. */
  lemma SnapshotThenTail<E>(eng: MatchingEngine<E>, initial: E, book: Book<E>, n: int, s: OrderbookSnapshot)
    requires forall e :: eng.fromSnapshot(eng.getSnapshot(e)) == e
    requires Consistent(eng, initial, book)
    requires 0 < n <= |book.journal|
    requires s == eng.getSnapshot(Replay(eng, initial, book.journal[..n]))
    ensures Recover(eng, initial, Some(BookSnapshot(s)), book.journal[n..]) == book.engine
  {
    var pre, post := book.journal[..n], book.journal[n..];
    var mid := Replay(eng, initial, pre);
    assert eng.fromSnapshot(s) == mid by {
      assert eng.fromSnapshot(eng.getSnapshot(mid)) == mid;
    }
    assert book.journal == pre + post;
    ReplayAppend(eng, initial, pre, post);
  }

  /** A snapshot offer that is not an order-book snapshot is ignored. */
  lemma ForeignSnapshotIgnored<E>(eng: MatchingEngine<E>, initial: E, typeName: string, evs: seq<TradeEvent>)
    ensures Recover(eng, initial, Some(OtherSnapshot(typeName)), evs) == Recover(eng, initial, None, evs)
  {
  }
}
