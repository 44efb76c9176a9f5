/** The trade-side value types: orders, bids, asks, fills, matches, order-book
    snapshots and the two queries, together with the structural equality and
    hashing that `Bid`, `Ask` and `Fill` define for themselves.

    Prices (`decimal` in the source) and quantities (`double`) are exact reals.
    Dafny datatypes are immutable, so a constructor stores each argument in the
    field of the same name. */
module Events {
  import opened Time

  datatype TradeSide = Buy | Sell

  /** A buy-side order event: (StockId, OrderId, BidPrice, BidQuantity, TimeIssued). */
  datatype Bid = Bid(stockId: string, orderId: string, bidPrice: real, bidQuantity: real, timeIssued: Instant)

  /** A sell-side order event: (StockId, OrderId, AskPrice, AskQuantity, TimeIssued). */
  datatype Ask = Ask(stockId: string, orderId: string, askPrice: real, askQuantity: real, timeIssued: Instant)

  /** A fill of an open order by the counter-order `filledById`. */
  datatype Fill = Fill(orderId: string, stockId: string, quantity: real, price: real,
                       filledById: string, timestamp: Instant, partial: bool)

  /** A matched buy/sell pair. */
  datatype Match = Match(stockId: string, buyOrderId: string, sellOrderId: string,
                         settlementPrice: real, quantity: real, timeStamp: Instant)

  /** A resting order with the fills applied to it, oldest first. */
  datatype Order = Order(orderId: string, stockId: string, side: TradeSide, originalQuantity: real,
                         price: real, timeIssued: Instant, fills: seq<Fill>)

  /** Point-in-time materialisation of one order book. */
  datatype OrderbookSnapshot = OrderbookSnapshot(stockId: string, timestamp: Instant, askQuantity: real,
                                                 bidQuantity: real, asks: seq<Order>, bids: seq<Order>)

  datatype GetOrderBookSnapshot = GetOrderBookSnapshot(stockId: string)

  datatype GetRecentMatches = GetRecentMatches(stockId: string)

  /** Every trade-side message the wire layer knows about. */
  datatype TradeEvent =
    | OrderEvent(order: Order)
    | AskEvent(ask: Ask)
    | BidEvent(bid: Bid)
    | FillEvent(fill: Fill)
    | MatchEvent(matched: Match)
    | SnapshotEvent(snapshot: OrderbookSnapshot)
    | GetSnapshotQuery(getSnapshot: GetOrderBookSnapshot)
    | GetRecentMatchesQuery(getRecentMatches: GetRecentMatches)

  /** The `Fill` constructor, whose `partialFill` argument defaults to `false`. */
  function NewFill(orderId: string, stockId: string, quantity: real, price: real,
                   filledById: string, timestamp: Instant, partialFill: bool := false): Fill
  {
    Fill(orderId, stockId, quantity, price, filledById, timestamp, partialFill)
  }

  /** A fill built without the optional argument is not partial; all other arguments are kept. */
  lemma NewFillDefaultsToComplete(orderId: string, stockId: string, quantity: real, price: real,
                                  filledById: string, timestamp: Instant)
    ensures !NewFill(orderId, stockId, quantity, price, filledById, timestamp).partial
    ensures NewFill(orderId, stockId, quantity, price, filledById, timestamp)
         == NewFill(orderId, stockId, quantity, price, filledById, timestamp, false)
  {
  }

  // ---------------------------------------------------------------------------
  // Structural equality: the compared fields, never the timestamp.
  // ---------------------------------------------------------------------------

  predicate SameBid(a: Bid, b: Bid) {
    a.stockId == b.stockId && a.bidPrice == b.bidPrice && a.bidQuantity == b.bidQuantity && a.orderId == b.orderId
  }

  predicate SameAsk(a: Ask, b: Ask) {
    a.stockId == b.stockId && a.askPrice == b.askPrice && a.askQuantity == b.askQuantity && a.orderId == b.orderId
  }

  predicate SameFill(a: Fill, b: Fill) {
    a.orderId == b.orderId && a.quantity == b.quantity && a.price == b.price
    && a.filledById == b.filledById && a.partial == b.partial && a.stockId == b.stockId
  }

  /** Equality of `Match`; the class is not part of this model, so this is assumed to
      compare every field except the timestamp (the serializer's round-trip test relies on it). */
  predicate SameMatch(a: Match, b: Match) {
    a.stockId == b.stockId && a.buyOrderId == b.buyOrderId && a.sellOrderId == b.sellOrderId
    && a.settlementPrice == b.settlementPrice && a.quantity == b.quantity
  }

  predicate SameFills(a: seq<Fill>, b: seq<Fill>) {
    |a| == |b| && forall i :: 0 <= i < |a| ==> SameFill(a[i], b[i])
  }

  /** Equality of `Order`; the class is not part of this model, so this is assumed to
      compare every field except the timestamp, and the fills with `Fill`'s own equality. */
  predicate SameOrder(a: Order, b: Order) {
    a.orderId == b.orderId && a.stockId == b.stockId && a.side == b.side
    && a.originalQuantity == b.originalQuantity && a.price == b.price && SameFills(a.fills, b.fills)
  }

  // ---------------------------------------------------------------------------
  // Object-level `Equals(object)`: references, null and run-time types.
  // ---------------------------------------------------------------------------

  /** The run-time value behind a reference. */
  datatype Value = BidValue(bid: Bid) | AskValue(ask: Ask) | FillValue(fill: Fill) | OtherValue(typeName: string)

  /** A reference-typed variable: null, or a heap address holding a value. */
  datatype Obj = Null | Ref(address: nat, value: Value)

  /** Two references are heap-consistent when equal addresses hold equal values. */
  predicate HeapConsistent(a: Obj, b: Obj) {
    a.Ref? && b.Ref? && a.address == b.address ==> a.value == b.value
  }

  /** `Bid.Equals(object)` called on the bid `self` stored at `selfAddress`. */
  function BidEquals(self: Bid, selfAddress: nat, obj: Obj): (r: bool)
    ensures obj.Null? ==> !r
    ensures HeapConsistent(Ref(selfAddress, BidValue(self)), obj) ==>
              (r <==> obj.Ref? && obj.value.BidValue? && SameBid(self, obj.value.bid))
  {
    if obj.Null? then false
    else if obj.address == selfAddress then true
    else obj.value.BidValue? && SameBid(self, obj.value.bid)
  }

  /** `Ask.Equals(object)` called on the ask `self` stored at `selfAddress`. */
  function AskEquals(self: Ask, selfAddress: nat, obj: Obj): (r: bool)
    ensures obj.Null? ==> !r
    ensures HeapConsistent(Ref(selfAddress, AskValue(self)), obj) ==>
              (r <==> obj.Ref? && obj.value.AskValue? && SameAsk(self, obj.value.ask))
  {
    if obj.Null? then false
    else if obj.address == selfAddress then true
    else obj.value.AskValue? && SameAsk(self, obj.value.ask)
  }

  /** A bid is never equal to an ask, even one with the very same fields, and the
      comparison ignores when either order was issued. */
  lemma BidNeverEqualsAsk(self: Bid, selfAddress: nat, otherAddress: nat, t: Instant)
    requires selfAddress != otherAddress
    ensures !BidEquals(self, selfAddress,
                       Ref(otherAddress, AskValue(Ask(self.stockId, self.orderId, self.bidPrice, self.bidQuantity, self.timeIssued))))
    ensures BidEquals(self, selfAddress, Ref(otherAddress, BidValue(self.(timeIssued := t))))
  {
  }

  /** A fill reference as the typed `Fill` operands of `Equals(Fill)` and `==` see it. */
  datatype FillRef = NullFill | FillAt(address: nat, fill: Fill)

  predicate FillHeapConsistent(a: FillRef, b: FillRef) {
    a.FillAt? && b.FillAt? && a.address == b.address ==> a.fill == b.fill
  }

  /** `Fill.Equals(Fill)` called on `self` stored at `selfAddress`. */
  function FillEquals(self: Fill, selfAddress: nat, other: FillRef): (r: bool)
    ensures other.NullFill? ==> !r
    ensures other == FillAt(selfAddress, self) ==> r
    ensures FillHeapConsistent(FillAt(selfAddress, self), other) ==>
              (r <==> other.FillAt? && SameFill(self, other.fill))
  {
    if other.NullFill? then false
    else if other.address == selfAddress then true
    else SameFill(self, other.fill)
  }

  /** `Fill.Equals(object)`: false for null and for non-fills, else `Equals(Fill)`. */
  function FillObjectEquals(self: Fill, selfAddress: nat, obj: Obj): (r: bool)
    ensures obj.Null? ==> !r
    ensures obj.Ref? && !obj.value.FillValue? && obj.address != selfAddress ==> !r
    ensures obj.Ref? && obj.value.FillValue? ==>
              r == FillEquals(self, selfAddress, FillAt(obj.address, obj.value.fill))
  {
    if obj.Null? then false
    else if obj.address == selfAddress then true
    else obj.value.FillValue? && FillEquals(self, selfAddress, FillAt(obj.address, obj.value.fill))
  }

  /** `operator ==(Fill, Fill)`, i.e. the static `object.Equals(left, right)`:
      true for the same reference (two nulls included), false when exactly one side
      is null, and otherwise the left operand's `Equals`. */
  function FillOperatorEquals(left: FillRef, right: FillRef): (r: bool)
    ensures left.NullFill? && right.NullFill? ==> r
    ensures left.NullFill? != right.NullFill? ==> !r
    ensures left.FillAt? ==> r == FillEquals(left.fill, left.address, right)
  {
    if left == right then true
    else if left.NullFill? || right.NullFill? then false
    else FillEquals(left.fill, left.address, right)
  }

  /** `operator !=(Fill, Fill)`: the negation of `==`. */
  function FillOperatorNotEquals(left: FillRef, right: FillRef): (r: bool)
    ensures r <==> !FillOperatorEquals(left, right)
  {
    !FillOperatorEquals(left, right)
  }

  /** Between two non-null, heap-consistent fills, `==` is exactly field equality
      without the timestamp, and it is symmetric. */
  lemma FillOperatorIsStructural(left: FillRef, right: FillRef)
    requires left.FillAt? && right.FillAt? && FillHeapConsistent(left, right)
    ensures FillOperatorEquals(left, right) <==> SameFill(left.fill, right.fill)
    ensures FillOperatorEquals(left, right) == FillOperatorEquals(right, left)
  {
  }

  // ---------------------------------------------------------------------------
  // Hash codes: unchecked 32-bit arithmetic over the component hashes.
  // ---------------------------------------------------------------------------

  /** Hash codes of the component types, supplied by the runtime (string hashing is
      randomised per process, so it is a parameter rather than a definition). */
  datatype Hashers = Hashers(ofString: string -> bv32, ofDecimal: real -> bv32, ofDouble: real -> bv32)

  /** `bool.GetHashCode`: 1 for true, 0 for false. */
  function BoolHash(b: bool): bv32 {
    if b then 1 else 0
  }

  /** One step of `hashCode = (hashCode * 397) ^ next` in unchecked 32-bit arithmetic. */
  function Combine(hash: bv32, next: bv32): bv32 {
    (hash * 397) ^ next
  }

  function BidHash(hs: Hashers, b: Bid): bv32 {
    Combine(Combine(Combine(hs.ofString(b.stockId), hs.ofDecimal(b.bidPrice)), hs.ofDouble(b.bidQuantity)),
            hs.ofString(b.orderId))
  }

  function AskHash(hs: Hashers, a: Ask): bv32 {
    Combine(Combine(Combine(hs.ofString(a.stockId), hs.ofDecimal(a.askPrice)), hs.ofDouble(a.askQuantity)),
            hs.ofString(a.orderId))
  }

  function FillHash(hs: Hashers, f: Fill): bv32 {
    Combine(Combine(Combine(Combine(Combine(hs.ofString(f.orderId), hs.ofDouble(f.quantity)),
                                    hs.ofDecimal(f.price)), hs.ofString(f.filledById)),
                    BoolHash(f.partial)), hs.ofString(f.stockId))
  }

  /** Equal bids hash alike, whatever their timestamps. */
  lemma BidHashAgreesWithEquals(hs: Hashers, a: Bid, b: Bid)
    requires SameBid(a, b)
    ensures BidHash(hs, a) == BidHash(hs, b)
  {
  }

  /** Equal asks hash alike, whatever their timestamps. */
  lemma AskHashAgreesWithEquals(hs: Hashers, a: Ask, b: Ask)
    requires SameAsk(a, b)
    ensures AskHash(hs, a) == AskHash(hs, b)
  {
  }

  /** Equal fills hash alike, whatever their timestamps. */
  lemma FillHashAgreesWithEquals(hs: Hashers, a: Fill, b: Fill)
    requires SameFill(a, b)
    ensures FillHash(hs, a) == FillHash(hs, b)
  {
  }
}
