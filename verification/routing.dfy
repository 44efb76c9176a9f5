/** Key extraction for cluster sharding and consistent-hash routing.

    A message is described by the interfaces it implements: `stockId` is present
    when it implements `IWithStockId`, `envelope` when it is a confirmable envelope,
    and `text` is what its `ToString()` returns. */
module Routing {
  import opened Wrappers

  /** 3 nodes hosting order books, 10 shards per node. */
  const DefaultShardCount: int := 30

  datatype Message = Message(stockId: Option<string>, envelope: Option<Message>, text: string)

  /** `StockShardMsgRouter.EntityId`: the message's own StockId, else the StockId of the
      message an envelope carries, else none (null). */
  function EntityId(msg: Message): (r: Option<string>)
    ensures msg.stockId.Some? ==> r == msg.stockId
    ensures msg.stockId.None? && msg.envelope.Some? ==> r == msg.envelope.value.stockId
    ensures r.Some? <==> msg.stockId.Some? || (msg.envelope.Some? && msg.envelope.value.stockId.Some?)
  {
    if msg.stockId.Some? then msg.stockId
    else if msg.envelope.Some? && msg.envelope.value.stockId.Some? then msg.envelope.value.stockId
    else None
  }

  /** `TradeEventConsistentHashMapping.TradeEventMapping`: the StockId when there is one,
      otherwise the message's string form. Every message gets a key. */
  function TradeEventMapping(msg: Message): (key: string)
    ensures msg.stockId.Some? ==> key == msg.stockId.value
    ensures msg.stockId.None? ==> key == msg.text
  {
    match msg.stockId
    case Some(s) => s
    case None => msg.text
  }

  /** Two stock messages with the same StockId share a hash key and an entity, whatever
      else differs between them, and for such messages both functions pick the same id. */
  lemma SameStockSameKey(a: Message, b: Message)
    requires a.stockId.Some? && a.stockId == b.stockId
    ensures TradeEventMapping(a) == TradeEventMapping(b)
    ensures EntityId(a) == EntityId(b) == Some(TradeEventMapping(a))
  {
  }

  /** The two key functions part ways on envelopes: the shard router looks inside, the
      hash mapping uses the envelope's string form. */
  lemma EnvelopeKeysDiffer(inner: string, text: string, confirmationText: string)
    ensures var env := Message(None, Some(Message(Some(inner), None, confirmationText)), text);
            EntityId(env) == Some(inner) && TradeEventMapping(env) == text
  {
  }
}
