/** The pricing node's client handler: it turns requests arriving from web nodes into
    trade subscription requests for the price router, on behalf of the requesting client. */
module ClientHandler {
  import opened Mediator
  import TS = TradeSubscriptions

  /** Requests from a web node. */
  datatype ClientRequest =
    | SubscribeClient(stockId: string)
    | SubscribeClientAll
    | UnsubscribeClient(stockId: string)

  /** What the handler tells the price router. */
  datatype RouterMessage =
    | RouteSubscribe(subscribe: TS.TradeSubscribe)
    | RouteUnsubscribe(unsubscribe: TS.TradeUnsubscribe)

  /** A subscription request for every trade event of one ticker. */
  function SubscribeAll(stockId: string, client: ActorRef): RouterMessage {
    RouteSubscribe(TS.TradeSubscribe(stockId, TS.AllTradeEventTypes, client))
  }

  /** Handles one request from `sender`; `symbols` are the tickers the cluster trades.
      Everything produced goes to the price router, in the order produced. */
  function Receive(req: ClientRequest, sender: ActorRef, symbols: seq<string>): (r: seq<RouterMessage>)
    ensures req.SubscribeClient? ==>
              r == [RouteSubscribe(TS.TradeSubscribe(req.stockId, TS.AllTradeEventTypes, sender))]
    ensures req.UnsubscribeClient? ==>
              r == [RouteUnsubscribe(TS.TradeUnsubscribe(req.stockId, TS.AllTradeEventTypes, sender))]
    ensures req.SubscribeClientAll? ==>
              && |r| == |symbols|
              && (forall i :: 0 <= i < |symbols| ==>
                    r[i].RouteSubscribe? && r[i].subscribe.stockId == symbols[i])
    ensures forall i :: 0 <= i < |r| ==> ForClient(r[i], sender)
  {
    match req
    case SubscribeClient(s) => [SubscribeAll(s, sender)]
    case SubscribeClientAll => seq(|symbols|, i requires 0 <= i < |symbols| => SubscribeAll(symbols[i], sender))
    case UnsubscribeClient(s) => [RouteUnsubscribe(TS.TradeUnsubscribe(s, TS.AllTradeEventTypes, sender))]
  }

  /** Every router message asks for all trade events on behalf of `client`. */
  predicate ForClient(msg: RouterMessage, client: ActorRef) {
    match msg
    case RouteSubscribe(s) => s.events == TS.AllTradeEventTypes && s.subscriber == client
    case RouteUnsubscribe(u) => u.events == TS.AllTradeEventTypes && u.subscriber == client
  }

  /** Subscribing one ticker at a time, in order: the reference for subscribing to all. */
  function SubscribeEach(symbols: seq<string>, sender: ActorRef): seq<RouterMessage>
    decreases |symbols|
  {
    if |symbols| == 0 then []
    else Receive(SubscribeClient(symbols[0]), sender, symbols) + SubscribeEach(symbols[1..], sender)
  }

  /** Subscribing to all tickers sends exactly what subscribing to each in turn sends. */
  lemma {:induction false} SubscribeAllIsEach(symbols: seq<string>, sender: ActorRef)
    ensures Receive(SubscribeClientAll, sender, symbols) == SubscribeEach(symbols, sender)
    decreases |symbols|
  {
    if |symbols| > 0 {
      SubscribeAllIsEach(symbols[1..], sender);
      var all := Receive(SubscribeClientAll, sender, symbols);
      var rest := Receive(SubscribeClientAll, sender, symbols[1..]);
      assert all == [SubscribeAll(symbols[0], sender)] + rest;
    }
  }
}
