/** The trade-event wire layer: a string-manifest serializer that maps each of the
    eight supported kinds to a protobuf message and back.

    Protobuf messages are records here, not bytes. Prices cross the wire as `double`;
    the two numeric casts are supplied by the runtime as `NumericCasts`, so the
    price round trip is stated only for prices that survive them. */
module Serialization {
  import opened Wrappers
  import opened Time
  import opened Events

  /** Identifier the serializer registers under. */
  const Identifier: int := 517

  /** `(double)decimal` and `(decimal)double`; the latter fails (an overflow exception)
      for values outside decimal's range. */
  datatype NumericCasts = NumericCasts(toDouble: real -> real, toDecimal: real -> Option<real>)

  /** A decimal price that comes back unchanged after a trip through `double`. */
  predicate Survives(c: NumericCasts, price: real) {
    c.toDecimal(c.toDouble(price)) == Some(price)
  }

  // ---------------------------------------------------------------------------
  // Wire records
  // ---------------------------------------------------------------------------

  /** Protobuf enums are open: any number other than the two known ones may arrive. */
  datatype ProtoTradeSide = ProtoBuy | ProtoSell | ProtoUnrecognized(number: int)

  datatype ProtoFill = ProtoFill(filledById: string, orderId: string, partialFill: bool, price: real,
                                 quantity: real, stockId: string, timeIssued: int)
  datatype ProtoAsk = ProtoAsk(orderId: string, stockId: string, price: real, quantity: real, timeIssued: int)
  datatype ProtoBid = ProtoBid(orderId: string, stockId: string, price: real, quantity: real, timeIssued: int)
  datatype ProtoMatch = ProtoMatch(stockId: string, buyOrderId: string, sellOrderId: string, price: real,
                                   timeIssued: int, quantity: real)
  datatype ProtoOrder = ProtoOrder(orderId: string, stockId: string, price: real, quantity: real,
                                   side: ProtoTradeSide, timeIssued: int, fills: seq<ProtoFill>)
  datatype ProtoSnapshot = ProtoSnapshot(askQuantity: real, bidQuantity: real, stockId: string, timeIssued: int,
                                         asks: seq<ProtoOrder>, bids: seq<ProtoOrder>)

  /** The serialized form of one object: which message type was written, with its fields. */
  datatype ProtoMessage =
    | OrderMsg(order: ProtoOrder)
    | AskMsg(ask: ProtoAsk)
    | BidMsg(bid: ProtoBid)
    | FillMsg(fill: ProtoFill)
    | MatchMsg(matched: ProtoMatch)
    | SnapshotMsg(snapshot: ProtoSnapshot)
    | GetSnapshotMsg(snapshotStockId: string)
    | GetRecentMatchesMsg(matchesStockId: string)

  /** What `ToBinary` and `Manifest` may be handed: a supported trade event or any other type. */
  datatype Serializable = Supported(event: TradeEvent) | Unsupported(typeName: string)

  // ---------------------------------------------------------------------------
  // Trade side
  // ---------------------------------------------------------------------------

  function SideToProto(s: TradeSide): ProtoTradeSide {
    match s
    case Buy => ProtoBuy
    case Sell => ProtoSell
  }

  function SideFromProto(p: ProtoTradeSide): (r: Result<TradeSide>)
    ensures r.Ok? <==> !p.ProtoUnrecognized?
  {
    match p
    case ProtoBuy => Ok(Buy)
    case ProtoSell => Ok(Sell)
    case ProtoUnrecognized(n) => Err("Unrecognized TradeSide [" + IntToString(n) + "]")
  }

  /** The decimal digits of `n`, as an enum value without a name prints. */
  function NatToString(n: nat): (r: string)
    ensures |r| > 0 && forall i :: 0 <= i < |r| ==> '0' <= r[i] <= '9'
    decreases n
  {
    var digit := ['0' + (n % 10) as char];
    if n < 10 then digit else NatToString(n / 10) + digit
  }

  function IntToString(i: int): string {
    if i < 0 then "-" + NatToString(-i) else NatToString(i)
  }

  /** The side conversion is a bijection between the two sides and the two known wire values. */
  lemma SideRoundTrip(s: TradeSide, p: ProtoTradeSide)
    ensures SideFromProto(SideToProto(s)) == Ok(s)
    ensures SideFromProto(p) == Ok(s) <==> SideToProto(s) == p
  {
  }

  // ---------------------------------------------------------------------------
  // Field-level conversions
  // ---------------------------------------------------------------------------

  function PriceFromWire(c: NumericCasts, wire: real): (r: Result<real>)
    ensures r.Ok? <==> c.toDecimal(wire).Some?
  {
    match c.toDecimal(wire)
    case Some(p) => Ok(p)
    case None => Err("Value was either too large or too small for a Decimal.")
  }

  function FillToProto(c: NumericCasts, f: Fill): ProtoFill {
    ProtoFill(f.filledById, f.orderId, f.partial, c.toDouble(f.price), f.quantity, f.stockId,
              ToUnixTimeMilliseconds(f.timestamp))
  }

  function FillFromProto(c: NumericCasts, f: ProtoFill): Result<Fill> {
    var price :- PriceFromWire(c, f.price);
    var time :- FromUnixTimeMilliseconds(f.timeIssued);
    Ok(Fill(f.orderId, f.stockId, f.quantity, price, f.filledById, time, f.partialFill))
  }

  function AskToProto(c: NumericCasts, a: Ask): ProtoAsk {
    ProtoAsk(a.orderId, a.stockId, c.toDouble(a.askPrice), a.askQuantity, ToUnixTimeMilliseconds(a.timeIssued))
  }

  function AskFromProto(c: NumericCasts, a: ProtoAsk): Result<Ask> {
    var price :- PriceFromWire(c, a.price);
    var time :- FromUnixTimeMilliseconds(a.timeIssued);
    Ok(Ask(a.stockId, a.orderId, price, a.quantity, time))
  }

  function BidToProto(c: NumericCasts, b: Bid): ProtoBid {
    ProtoBid(b.orderId, b.stockId, c.toDouble(b.bidPrice), b.bidQuantity, ToUnixTimeMilliseconds(b.timeIssued))
  }

  function BidFromProto(c: NumericCasts, b: ProtoBid): Result<Bid> {
    var price :- PriceFromWire(c, b.price);
    var time :- FromUnixTimeMilliseconds(b.timeIssued);
    Ok(Bid(b.stockId, b.orderId, price, b.quantity, time))
  }

  function MatchToProto(c: NumericCasts, m: Match): ProtoMatch {
    ProtoMatch(m.stockId, m.buyOrderId, m.sellOrderId, c.toDouble(m.settlementPrice),
               ToUnixTimeMilliseconds(m.timeStamp), m.quantity)
  }

  function MatchFromProto(c: NumericCasts, m: ProtoMatch): Result<Match> {
    var price :- PriceFromWire(c, m.price);
    var time :- FromUnixTimeMilliseconds(m.timeIssued);
    Ok(Match(m.stockId, m.buyOrderId, m.sellOrderId, price, m.quantity, time))
  }

  function FillsToProto(c: NumericCasts, fs: seq<Fill>): (r: seq<ProtoFill>)
    ensures |r| == |fs|
    ensures forall i :: 0 <= i < |fs| ==> r[i] == FillToProto(c, fs[i])
  {
    seq(|fs|, i requires 0 <= i < |fs| => FillToProto(c, fs[i]))
  }

  /** Converts wire fills in order; the first failing one decides the error. */
  function FillsFromProto(c: NumericCasts, fs: seq<ProtoFill>): (r: Result<seq<Fill>>)
    ensures r.Ok? ==> |r.value| == |fs|
    ensures r.Ok? ==> forall i :: 0 <= i < |fs| ==> FillFromProto(c, fs[i]) == Ok(r.value[i])
    ensures r.Err? ==> exists i :: 0 <= i < |fs| && FillFromProto(c, fs[i]).Err?
    decreases |fs|
  {
    if |fs| == 0 then Ok([])
    else
      var head :- FillFromProto(c, fs[0]);
      var tail :- FillsFromProto(c, fs[1..]);
      assert forall i :: 1 <= i < |fs| ==> fs[i] == fs[1..][i - 1];
      Ok([head] + tail)
  }

  /** Writes `OriginalQuantity` as the quantity, and the fills only when there are any. */
  function OrderToProto(c: NumericCasts, o: Order): ProtoOrder {
    ProtoOrder(o.orderId, o.stockId, c.toDouble(o.price), o.originalQuantity, SideToProto(o.side),
               ToUnixTimeMilliseconds(o.timeIssued),
               if |o.fills| > 0 then FillsToProto(c, o.fills) else [])
  }

  /** Reads an order; a non-empty fill list is restored in order, an empty one gives no fills. */
  function OrderFromProto(c: NumericCasts, o: ProtoOrder): Result<Order> {
    var side :- SideFromProto(o.side);
    var price :- PriceFromWire(c, o.price);
    var time :- FromUnixTimeMilliseconds(o.timeIssued);
    if |o.fills| > 0 then
      var fills :- FillsFromProto(c, o.fills);
      Ok(Order(o.orderId, o.stockId, side, o.quantity, price, time, fills))
    else
      Ok(Order(o.orderId, o.stockId, side, o.quantity, price, time, []))
  }

  function OrdersToProto(c: NumericCasts, os: seq<Order>): (r: seq<ProtoOrder>)
    ensures |r| == |os|
    ensures forall i :: 0 <= i < |os| ==> r[i] == OrderToProto(c, os[i])
  {
    seq(|os|, i requires 0 <= i < |os| => OrderToProto(c, os[i]))
  }

  function OrdersFromProto(c: NumericCasts, os: seq<ProtoOrder>): (r: Result<seq<Order>>)
    ensures r.Ok? ==> |r.value| == |os|
    ensures r.Ok? ==> forall i :: 0 <= i < |os| ==> OrderFromProto(c, os[i]) == Ok(r.value[i])
    ensures r.Err? ==> exists i :: 0 <= i < |os| && OrderFromProto(c, os[i]).Err?
    decreases |os|
  {
    if |os| == 0 then Ok([])
    else
      var head :- OrderFromProto(c, os[0]);
      var tail :- OrdersFromProto(c, os[1..]);
      assert forall i :: 1 <= i < |os| ==> os[i] == os[1..][i - 1];
      Ok([head] + tail)
  }

  function SnapshotToProto(c: NumericCasts, s: OrderbookSnapshot): ProtoSnapshot {
    ProtoSnapshot(s.askQuantity, s.bidQuantity, s.stockId, ToUnixTimeMilliseconds(s.timestamp),
                  if |s.asks| > 0 then OrdersToProto(c, s.asks) else [],
                  if |s.bids| > 0 then OrdersToProto(c, s.bids) else [])
  }

  /** Reads a snapshot. The order lists are read lazily, so the timestamp is converted first
      and its range error takes precedence over any malformed order. */
  function SnapshotFromProto(c: NumericCasts, s: ProtoSnapshot): (r: Result<OrderbookSnapshot>)
    ensures FromUnixTimeMilliseconds(s.timeIssued).Err? ==>
              r == Err(FromUnixTimeMilliseconds(s.timeIssued).message)
    ensures r.Ok? <==> && FromUnixTimeMilliseconds(s.timeIssued).Ok?
                       && (|s.asks| == 0 || OrdersFromProto(c, s.asks).Ok?)
                       && (|s.bids| == 0 || OrdersFromProto(c, s.bids).Ok?)
    ensures r.Ok? ==> r.value.stockId == s.stockId && r.value.askQuantity == s.askQuantity
                      && r.value.bidQuantity == s.bidQuantity
                      && r.value.timestamp == FromUnixTimeMilliseconds(s.timeIssued).value
  {
    var time :- FromUnixTimeMilliseconds(s.timeIssued);
    var asks :- if |s.asks| > 0 then OrdersFromProto(c, s.asks) else Ok([]);
    var bids :- if |s.bids| > 0 then OrdersFromProto(c, s.bids) else Ok([]);
    Ok(OrderbookSnapshot(s.stockId, time, s.askQuantity, s.bidQuantity, asks, bids))
  }

  // ---------------------------------------------------------------------------
  // Dispatch
  // ---------------------------------------------------------------------------

  function ToBinary(c: NumericCasts, obj: Serializable): (r: Result<ProtoMessage>)
    ensures r.Err? <==> obj.Unsupported?
  {
    match obj
    case Unsupported(t) => Err("Type " + t + " is not supported by this serializer.")
    case Supported(ev) =>
      match ev
      case OrderEvent(o) => Ok(OrderMsg(OrderToProto(c, o)))
      case AskEvent(a) => Ok(AskMsg(AskToProto(c, a)))
      case BidEvent(b) => Ok(BidMsg(BidToProto(c, b)))
      case FillEvent(f) => Ok(FillMsg(FillToProto(c, f)))
      case MatchEvent(m) => Ok(MatchMsg(MatchToProto(c, m)))
      case SnapshotEvent(s) => Ok(SnapshotMsg(SnapshotToProto(c, s)))
      case GetSnapshotQuery(g) => Ok(GetSnapshotMsg(g.stockId))
      case GetRecentMatchesQuery(g) => Ok(GetRecentMatchesMsg(g.stockId))
  }

  function Manifest(obj: Serializable): (r: Result<string>)
    ensures r.Err? <==> obj.Unsupported?
  {
    match obj
    case Unsupported(t) => Err("Type " + t + " is not supported by this serializer.")
    case Supported(ev) =>
      match ev
      case OrderEvent(_) => Ok("O")
      case AskEvent(_) => Ok("A")
      case BidEvent(_) => Ok("B")
      case FillEvent(_) => Ok("F")
      case MatchEvent(_) => Ok("M")
      case SnapshotEvent(_) => Ok("OBS")
      case GetSnapshotQuery(_) => Ok("GOBS")
      case GetRecentMatchesQuery(_) => Ok("GRM")
  }

  /** The failure reported when the bytes do not parse as the message type the manifest names. */
  const ParseFailure: string := "Protocol message could not be parsed as the manifest's message type."

  /** The eight manifests `FromBinary` accepts. */
  const KnownManifests: set<string> := {"O", "A", "B", "F", "M", "OBS", "GOBS", "GRM"}

  function FromBinary(c: NumericCasts, bytes: ProtoMessage, manifest: string): (r: Result<TradeEvent>)
    ensures manifest !in KnownManifests ==> r.Err?
  {
    match manifest
    case "O" => if bytes.OrderMsg? then var o :- OrderFromProto(c, bytes.order); Ok(OrderEvent(o)) else Err(ParseFailure)
    case "A" => if bytes.AskMsg? then var a :- AskFromProto(c, bytes.ask); Ok(AskEvent(a)) else Err(ParseFailure)
    case "B" => if bytes.BidMsg? then var b :- BidFromProto(c, bytes.bid); Ok(BidEvent(b)) else Err(ParseFailure)
    case "F" => if bytes.FillMsg? then var f :- FillFromProto(c, bytes.fill); Ok(FillEvent(f)) else Err(ParseFailure)
    case "M" => if bytes.MatchMsg? then var m :- MatchFromProto(c, bytes.matched); Ok(MatchEvent(m)) else Err(ParseFailure)
    case "OBS" =>
      if bytes.SnapshotMsg? then var s :- SnapshotFromProto(c, bytes.snapshot); Ok(SnapshotEvent(s)) else Err(ParseFailure)
    case "GOBS" =>
      if bytes.GetSnapshotMsg? then Ok(GetSnapshotQuery(GetOrderBookSnapshot(bytes.snapshotStockId))) else Err(ParseFailure)
    case "GRM" =>
      if bytes.GetRecentMatchesMsg? then Ok(GetRecentMatchesQuery(GetRecentMatches(bytes.matchesStockId)))
      else Err(ParseFailure)
    case _ => Err("Type " + manifest + " is not supported by this serializer.")
  }

  // ---------------------------------------------------------------------------
  // Properties
  // ---------------------------------------------------------------------------

  /** The kind of a trade event, i.e. which class it is. */
  datatype Kind = OrderKind | AskKind | BidKind | FillKind | MatchKind | SnapshotKind | GetSnapshotKind | GetRecentMatchesKind

  function KindOf(ev: TradeEvent): Kind {
    match ev
    case OrderEvent(_) => OrderKind
    case AskEvent(_) => AskKind
    case BidEvent(_) => BidKind
    case FillEvent(_) => FillKind
    case MatchEvent(_) => MatchKind
    case SnapshotEvent(_) => SnapshotKind
    case GetSnapshotQuery(_) => GetSnapshotKind
    case GetRecentMatchesQuery(_) => GetRecentMatchesKind
  }

  /** Distinct kinds get distinct manifests, and every manifest produced is one `FromBinary` accepts. */
  lemma ManifestInjective(a: TradeEvent, b: TradeEvent)
    ensures Manifest(Supported(a)).Ok? && Manifest(Supported(a)).value in KnownManifests
    ensures Manifest(Supported(a)) == Manifest(Supported(b)) <==> KindOf(a) == KindOf(b)
  {
  }

  /** Whether every price an event carries survives the trip through `double`. */
  predicate FillPricesSurvive(c: NumericCasts, fs: seq<Fill>) {
    forall i :: 0 <= i < |fs| ==> Survives(c, fs[i].price)
  }

  predicate OrderPricesSurvive(c: NumericCasts, o: Order) {
    Survives(c, o.price) && FillPricesSurvive(c, o.fills)
  }

  predicate OrdersPricesSurvive(c: NumericCasts, os: seq<Order>) {
    forall i :: 0 <= i < |os| ==> OrderPricesSurvive(c, os[i])
  }

  predicate PricesSurvive(c: NumericCasts, ev: TradeEvent) {
    match ev
    case OrderEvent(o) => OrderPricesSurvive(c, o)
    case AskEvent(a) => Survives(c, a.askPrice)
    case BidEvent(b) => Survives(c, b.bidPrice)
    case FillEvent(f) => Survives(c, f.price)
    case MatchEvent(m) => Survives(c, m.settlementPrice)
    case SnapshotEvent(s) => OrdersPricesSurvive(c, s.asks) && OrdersPricesSurvive(c, s.bids)
    case GetSnapshotQuery(_) => true
    case GetRecentMatchesQuery(_) => true
  }

  /** What reading back should produce: the same event with every timestamp cut to whole milliseconds. */
  function TruncateFill(f: Fill): Fill {
    f.(timestamp := TruncateToMilliseconds(f.timestamp))
  }

  function TruncateFills(fs: seq<Fill>): (r: seq<Fill>)
    ensures |r| == |fs|
    ensures forall i :: 0 <= i < |fs| ==> r[i] == TruncateFill(fs[i])
  {
    seq(|fs|, i requires 0 <= i < |fs| => TruncateFill(fs[i]))
  }

  function TruncateOrder(o: Order): Order {
    o.(timeIssued := TruncateToMilliseconds(o.timeIssued), fills := TruncateFills(o.fills))
  }

  function TruncateOrders(os: seq<Order>): (r: seq<Order>)
    ensures |r| == |os|
    ensures forall i :: 0 <= i < |os| ==> r[i] == TruncateOrder(os[i])
  {
    seq(|os|, i requires 0 <= i < |os| => TruncateOrder(os[i]))
  }

  function TruncateEvent(ev: TradeEvent): TradeEvent {
    match ev
    case OrderEvent(o) => OrderEvent(TruncateOrder(o))
    case AskEvent(a) => AskEvent(a.(timeIssued := TruncateToMilliseconds(a.timeIssued)))
    case BidEvent(b) => BidEvent(b.(timeIssued := TruncateToMilliseconds(b.timeIssued)))
    case FillEvent(f) => FillEvent(TruncateFill(f))
    case MatchEvent(m) => MatchEvent(m.(timeStamp := TruncateToMilliseconds(m.timeStamp)))
    case SnapshotEvent(s) =>
      SnapshotEvent(s.(timestamp := TruncateToMilliseconds(s.timestamp),
                       asks := TruncateOrders(s.asks), bids := TruncateOrders(s.bids)))
    case GetSnapshotQuery(_) => ev
    case GetRecentMatchesQuery(_) => ev
  }

  lemma FillRoundTrip(c: NumericCasts, f: Fill)
    requires Survives(c, f.price)
    ensures FillFromProto(c, FillToProto(c, f)) == Ok(TruncateFill(f))
  {
    MillisecondRoundTrip(f.timestamp);
  }

  /** Fills come back in the order they were written. */
  lemma {:induction false} FillsRoundTrip(c: NumericCasts, fs: seq<Fill>)
    requires FillPricesSurvive(c, fs)
    ensures FillsFromProto(c, FillsToProto(c, fs)) == Ok(TruncateFills(fs))
    decreases |fs|
  {
    if |fs| > 0 {
      FillRoundTrip(c, fs[0]);
      FillsRoundTrip(c, fs[1..]);
      assert FillsToProto(c, fs)[1..] == FillsToProto(c, fs[1..]);
      assert TruncateFills(fs) == [TruncateFill(fs[0])] + TruncateFills(fs[1..]);
    } else {
      assert FillsToProto(c, fs) == [];
      assert TruncateFills(fs) == [];
    }
  }

  lemma OrderRoundTrip(c: NumericCasts, o: Order)
    requires OrderPricesSurvive(c, o)
    ensures OrderFromProto(c, OrderToProto(c, o)) == Ok(TruncateOrder(o))
  {
    MillisecondRoundTrip(o.timeIssued);
    SideRoundTrip(o.side, SideToProto(o.side));
    if |o.fills| > 0 {
      FillsRoundTrip(c, o.fills);
    } else {
      assert TruncateFills(o.fills) == [];
    }
  }

  lemma {:induction false} OrdersRoundTrip(c: NumericCasts, os: seq<Order>)
    requires OrdersPricesSurvive(c, os)
    ensures OrdersFromProto(c, OrdersToProto(c, os)) == Ok(TruncateOrders(os))
    decreases |os|
  {
    if |os| > 0 {
      OrderRoundTrip(c, os[0]);
      OrdersRoundTrip(c, os[1..]);
      assert OrdersToProto(c, os)[1..] == OrdersToProto(c, os[1..]);
      assert TruncateOrders(os) == [TruncateOrder(os[0])] + TruncateOrders(os[1..]);
    } else {
      assert OrdersToProto(c, os) == [];
      assert TruncateOrders(os) == [];
    }
  }

  /** An order book snapshot keeps its asks and bids, in order, and both aggregate quantities. */
  lemma SnapshotRoundTrip(c: NumericCasts, s: OrderbookSnapshot)
    requires OrdersPricesSurvive(c, s.asks) && OrdersPricesSurvive(c, s.bids)
    ensures SnapshotFromProto(c, SnapshotToProto(c, s))
         == Ok(s.(timestamp := TruncateToMilliseconds(s.timestamp),
                  asks := TruncateOrders(s.asks), bids := TruncateOrders(s.bids)))
  {
    MillisecondRoundTrip(s.timestamp);
    if |s.asks| > 0 { OrdersRoundTrip(c, s.asks); } else { assert TruncateOrders(s.asks) == []; }
    if |s.bids| > 0 { OrdersRoundTrip(c, s.bids); } else { assert TruncateOrders(s.bids) == []; }
  }

  /** Serializing a supported event and reading it back under its own manifest gives the
      event again, only with its timestamps cut to whole milliseconds. */
  lemma SerializationRoundTrip(c: NumericCasts, ev: TradeEvent)
    requires PricesSurvive(c, ev)
    ensures ToBinary(c, Supported(ev)).Ok? && Manifest(Supported(ev)).Ok?
    ensures FromBinary(c, ToBinary(c, Supported(ev)).value, Manifest(Supported(ev)).value) == Ok(TruncateEvent(ev))
  {
    match ev
    case OrderEvent(o) => OrderRoundTrip(c, o);
    case AskEvent(a) => MillisecondRoundTrip(a.timeIssued);
    case BidEvent(b) => MillisecondRoundTrip(b.timeIssued);
    case FillEvent(f) => FillRoundTrip(c, f);
    case MatchEvent(m) => MillisecondRoundTrip(m.timeStamp);
    case SnapshotEvent(s) => SnapshotRoundTrip(c, s);
    case GetSnapshotQuery(_) =>
    case GetRecentMatchesQuery(_) =>
  }

  /** Whatever the prices, a successful read-back is of the same kind as what was written. */
  lemma RoundTripKeepsKind(c: NumericCasts, ev: TradeEvent)
    ensures var r := FromBinary(c, ToBinary(c, Supported(ev)).value, Manifest(Supported(ev)).value);
            r.Ok? ==> KindOf(r.value) == KindOf(ev)
  {
    var bytes, manifest := ToBinary(c, Supported(ev)).value, Manifest(Supported(ev)).value;
    match ev {
      case OrderEvent(_) => assert manifest == "O" && bytes.OrderMsg?;
      case AskEvent(_) => assert manifest == "A" && bytes.AskMsg?;
      case BidEvent(_) => assert manifest == "B" && bytes.BidMsg?;
      case FillEvent(_) => assert manifest == "F" && bytes.FillMsg?;
      case MatchEvent(_) => assert manifest == "M" && bytes.MatchMsg?;
      case SnapshotEvent(_) => assert manifest == "OBS" && bytes.SnapshotMsg?;
      case GetSnapshotQuery(_) => assert manifest == "GOBS" && bytes.GetSnapshotMsg?;
      case GetRecentMatchesQuery(_) => assert manifest == "GRM" && bytes.GetRecentMatchesMsg?;
    }
  }

  /** Truncating timestamps never changes a value under the types' own equality. */
  lemma TruncatedFillsAreSame(fs: seq<Fill>)
    ensures SameFills(TruncateFills(fs), fs)
  {
  }

  /** The round trip is the identity under the types' own equality for Match, Fill, Ask,
      Bid and Order, as the serializer's test expects. */
  lemma RoundTripPreservesEquality(c: NumericCasts, ev: TradeEvent)
    requires PricesSurvive(c, ev)
    requires ev.MatchEvent? || ev.FillEvent? || ev.AskEvent? || ev.BidEvent? || ev.OrderEvent?
    ensures var r := FromBinary(c, ToBinary(c, Supported(ev)).value, Manifest(Supported(ev)).value);
            r.Ok? && KindOf(r.value) == KindOf(ev)
            && match ev
               case MatchEvent(m) => SameMatch(r.value.matched, m)
               case FillEvent(f) => SameFill(r.value.fill, f)
               case AskEvent(a) => SameAsk(r.value.ask, a)
               case BidEvent(b) => SameBid(r.value.bid, b)
               case OrderEvent(o) => SameOrder(r.value.order, o)
               case _ => true
  {
    SerializationRoundTrip(c, ev);
    if ev.OrderEvent? {
      TruncatedFillsAreSame(ev.order.fills);
    }
  }
}
