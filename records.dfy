// The values the gateway's order bookkeeping works with: the caller's
// order and cancel requests, the exchange's order updates and placement
// acknowledgements, the trades and order snapshots the gateway publishes,
// and the order record itself, which is an object because the gateway
// files the same record under its local id and its exchange id. The pure
// functions below say how one polled or pushed update changes a record.

module Records {
  import opened Common
  import opened Tables
  import opened Json
  import opened Signer
  import opened Fills

  /** The three product families, each with its own REST and WebSocket client. */
  datatype Segment = Futures | Swap | Spot

  /** VN_SEPARATOR.join([gatewayName, orderID]); the separator's text is not modelled. */
  datatype VtOrderId = VtOrderId(gatewayName: string, orderID: string)

  /** An average price: the exchange's decimal text, or for spot the quotient
      filled_notional / filled_size, whose float value is not modelled. */
  datatype Price = Decimal(text: string) | Quotient(notional: string, size: int)

  /** A VtOrderReq; price is the text of the float, volume its integer part. */
  datatype OrderRequest = OrderRequest(symbol: string, direction: Direction, offset: Offset, price: string, volume: int)

  /** A VtCancelOrderReq. */
  datatype CancelRequest = CancelRequest(symbol: string, orderID: string)

  /** One order item of a REST poll or a WebSocket push. orderId is 'order_id' (the
      futures push reads it as 'orderid': see FuturesPushIdAsWritten); filled is 'filled_qty', or 'filled_size' for
      spot; side and notional are read by the spot push only. */
  datatype OrderUpdate = OrderUpdate(orderId: string, clientOid: Option<string>, instrumentId: string,
                                     price: string, priceAvg: string, size: int, filled: int,
                                     typeCode: string, status: string, side: string, notional: string)

  /** The response to an order placement. */
  datatype Ack = Ack(clientOid: string, orderId: string, errorCode: int)

  /** A VtTradeData as published; tradeID is the gateway's trade counter. */
  datatype Trade = Trade(tradeID: nat, orderID: string, symbol: string, direction: Direction, offset: Offset,
                         volume: int, price: Price)

  /** The fields of an order record the model follows. */
  datatype OrderView = OrderView(orderID: string, symbol: string, direction: Direction, offset: Offset,
                                 price: string, priceAvg: Price, totalVolume: int, tradedVolume: int,
                                 thisTradedVolume: int, status: Status)

  /** What OkexGateway.sendOrder reports: the order's vtOrderID, None for a symbol
      no client serves, or an exception from the client. */
  datatype SendOutcome = Placed(id: VtOrderId) | UnknownSymbol | Raised

  /** str(loginTime + orderID), the local id for counter value n. */
  function LocalId(loginTime: nat, n: nat): (id: string)
    ensures |id| >= 1 && AllDigits(id)
  {
    NatToString(loginTime + n)
  }

  /** Two counter values give two different local ids. */
  lemma LocalIdsDistinct(loginTime: nat, a: nat, b: nat)
    requires a != b
    ensures LocalId(loginTime, a) != LocalId(loginTime, b)
  {
    NatToStringInjective(loginTime + a, loginTime + b);
  }

  /** A local id counts as bound to an exchange id when its mapping is truthy. */
  predicate Bound(m: map<string, string>, id: string)
  {
    id in m && m[id] != ""
  }

  /** The order placement each client posts. */
  function PlacementRequest(seg: Segment, req: OrderRequest, orderID: string, instrument: string,
                            typeCode: string, leverage: int): (r: Request)
    ensures r.httpMethod == "POST" && r.params == [] && r.data.JObj? && |r.data.fields| == (if seg == Swap then 5 else 6)
    ensures r.data.fields[0] == ("client_oid", JStr(orderID)) && r.data.fields[1] == ("instrument_id", JStr(instrument))
  {
    match seg
    case Futures =>
      Request("POST", "/api/futures/v3/order", [],
              JObj([("client_oid", JStr(orderID)), ("instrument_id", JStr(instrument)), ("type", JStr(typeCode)),
                    ("price", JFloat(req.price)), ("size", JInt(req.volume)), ("leverage", JInt(leverage))]))
    case Swap =>
      Request("POST", "/api/swap/v3/order", [],
              JObj([("client_oid", JStr(orderID)), ("instrument_id", JStr(instrument)), ("type", JStr(typeCode)),
                    ("price", JFloat(req.price)), ("size", JInt(req.volume))]))
    case Spot =>
      // the spot client sends the type code as 'side' and the volume as a float
      Request("POST", "/api/spot/v3/order", [],
              JObj([("client_oid", JStr(orderID)), ("instrument_id", JStr(instrument)), ("side", JStr(typeCode)),
                    ("price", JFloat(req.price)), ("size", JFloat(IntToString(req.volume) + ".0")),
                    ("margin_trading", JInt(if leverage != 0 then 2 else 1))]))
  }

  /** The cancel request each client posts for an order bound to `remote`. */
  function CancelFor(seg: Segment, req: CancelRequest, remote: string, instrument: string): (r: Request)
    ensures r.httpMethod == "POST"
  {
    match seg
    case Futures => Request("POST", "/api/futures/v3/cancel_order/" + instrument + "/" + remote, [], JNull)
    case Swap => Request("POST", "/api/swap/v3/cancel_order/" + req.symbol + "/" + remote, [], JNull)
    case Spot => Request("POST", "/api/spot/v3/cancel_orders/" + remote,
                         [("client_oid", req.orderID), ("instrument_id", req.symbol)], JNull)
  }

  /** The record sendOrder files before the exchange has answered. */
  function InitialView(req: OrderRequest, orderID: string): OrderView
  {
    OrderView(orderID, req.symbol, req.direction, req.offset, req.price, Decimal(""), req.volume, 0, 0, NoStatus)
  }

  /** The direction and offset a spot push sets from 'side'; any other side leaves them. */
  function SideOf(side: string, d: Direction, o: Offset): (r: (Direction, Offset))
    ensures side == "buy" ==> Some(r) == TypeOf("1")
    ensures side == "sell" ==> Some(r) == TypeOf("2")
    ensures side != "buy" && side != "sell" ==> r == (d, o)
  {
    if side == "buy" then (Long, Open) else if side == "sell" then (Short, Open) else (d, o)
  }

  /** The average price a push carries. */
  function PushAvg(seg: Segment, d: OrderUpdate): Price
    requires seg == Spot ==> d.filled != 0
  {
    if seg == Spot then Quotient(d.notional, d.filled) else Decimal(d.priceAvg)
  }

  /** The record a push creates for an order the gateway has no record of. */
  function PushedNewView(seg: Segment, d: OrderUpdate, orderID: string, symbol: string): OrderView
    requires seg != Spot ==> TypeOf(d.typeCode).Some?
  {
    var (dir, off) := if seg == Spot then (NoDirection, NoOffset) else TypeOf(d.typeCode).value;
    OrderView(orderID, symbol, dir, off, d.price, Decimal(""), d.size, 0, 0, NoStatus)
  }

  /** A record after a push that went through. */
  function PushedView(seg: Segment, v: OrderView, d: OrderUpdate): (w: OrderView)
    requires StatusOf(d.status).Some? && (seg == Spot ==> d.filled != 0)
    ensures w.tradedVolume == d.filled && w.thisTradedVolume == d.filled - v.tradedVolume
    ensures w.status == StatusOf(d.status).value
    ensures (w.orderID, w.symbol, w.price, w.totalVolume) == (v.orderID, v.symbol, v.price, v.totalVolume)
  {
    var (dir, off) := if seg == Spot then SideOf(d.side, v.direction, v.offset) else (v.direction, v.offset);
    v.(direction := dir, offset := off, priceAvg := PushAvg(seg, d),
       thisTradedVolume := d.filled - v.tradedVolume, status := StatusOf(d.status).value, tradedVolume := d.filled)
  }

  /** A record after a push that raised part way: the spot division by a zero
      filled_size, or an unknown status code. The traded volume is not touched yet. */
  function FailedPushView(seg: Segment, v: OrderView, d: OrderUpdate): (w: OrderView)
    ensures (w.orderID, w.symbol, w.tradedVolume, w.status) == (v.orderID, v.symbol, v.tradedVolume, v.status)
  {
    var (dir, off) := if seg == Spot then SideOf(d.side, v.direction, v.offset) else (v.direction, v.offset);
    if seg == Spot && d.filled == 0 then v.(direction := dir, offset := off)
    else v.(direction := dir, offset := off, priceAvg := if seg == Spot then Quotient(d.notional, d.filled) else Decimal(d.priceAvg),
            thisTradedVolume := d.filled - v.tradedVolume)
  }

  /** The record the REST poll creates for an order the gateway has no record of. */
  function PolledNewView(orderID: string, symbol: string): OrderView
  {
    OrderView(orderID, symbol, NoDirection, NoOffset, "", Decimal(""), 0, 0, 0, NoStatus)
  }

  /** A record after a polled item that went through. */
  function PolledView(v: OrderView, d: OrderUpdate): (w: OrderView)
    requires StatusOf(d.status).Some? && TypeOf(d.typeCode).Some?
    ensures w.tradedVolume == d.filled && w.thisTradedVolume == d.filled - v.tradedVolume
    ensures w.status == StatusOf(d.status).value && Some((w.direction, w.offset)) == TypeOf(d.typeCode)
    ensures (w.orderID, w.symbol) == (v.orderID, v.symbol)
  {
    v.(price := d.price, priceAvg := Decimal(d.priceAvg), totalVolume := d.size,
       thisTradedVolume := d.filled - v.tradedVolume, tradedVolume := d.filled,
       status := StatusOf(d.status).value, direction := TypeOf(d.typeCode).value.0, offset := TypeOf(d.typeCode).value.1)
  }

  /** A record after a polled item that raised on its status or type code. Unlike the
      push, the poll has already overwritten the traded volume. */
  function FailedPollView(v: OrderView, d: OrderUpdate): (w: OrderView)
    ensures w.tradedVolume == d.filled && w.thisTradedVolume == d.filled - v.tradedVolume
    ensures (w.orderID, w.symbol) == (v.orderID, v.symbol)
  {
    var w := v.(price := d.price, priceAvg := Decimal(d.priceAvg), totalVolume := d.size,
                thisTradedVolume := d.filled - v.tradedVolume, tradedVolume := d.filled);
    if StatusOf(d.status).None? then w else w.(status := StatusOf(d.status).value)
  }

  /** The trade synthesised from a record's latest update, at the update's average
      price (for futures and swap the text of price_avg, for spot the quotient). */
  function TradeOf(tradeID: nat, v: OrderView): Trade
  {
    Trade(tradeID, v.orderID, v.symbol, v.direction, v.offset, v.thisTradedVolume, v.priceAvg)
  }

  /** An order record (VtOrderData). */
  class Order {
    var orderID: string
    var symbol: string
    var direction: Direction
    var offset: Offset
    var price: string
    var priceAvg: Price
    var totalVolume: int
    var tradedVolume: int
    var thisTradedVolume: int
    var status: Status

    constructor (orderID: string, symbol: string, direction: Direction, offset: Offset, price: string, totalVolume: int)
      ensures View() == OrderView(orderID, symbol, direction, offset, price, Decimal(""), totalVolume, 0, 0, NoStatus)
    {
      this.orderID := orderID;
      this.symbol := symbol;
      this.direction := direction;
      this.offset := offset;
      this.price := price;
      this.priceAvg := Decimal("");
      this.totalVolume := totalVolume;
      this.tradedVolume := 0;
      this.thisTradedVolume := 0;
      this.status := NoStatus;
    }

    function View(): OrderView
      reads this
    {
      OrderView(orderID, symbol, direction, offset, price, priceAvg, totalVolume, tradedVolume, thisTradedVolume, status)
    }
  }

  // -----------------------------------------------------------------------
  // Properties of one update

  /** A push that goes through consumes its fill exactly as Fill says: the record's
      traded volume becomes the snapshot's, and the trade synthesised, if any, is for
      the difference. */
  lemma PushFollowsFill(seg: Segment, v: OrderView, d: OrderUpdate, tradeID: nat)
    requires StatusOf(d.status).Some? && (seg == Spot ==> d.filled != 0)
    ensures var w := PushedView(seg, v, d);
            var f := Fill(v.tradedVolume, tradeID, d.filled);
            f.traded == w.tradedVolume &&
            (f.emitted.Some? <==> w.thisTradedVolume != 0) &&
            (f.emitted.Some? ==> f.emitted.value == w.thisTradedVolume)
  {
  }

  /** A push that raises leaves the fill for the next push of the same order: the
      traded volume is as before, so the same snapshot later still yields its trade. */
  lemma FailedPushKeepsFill(seg: Segment, v: OrderView, d: OrderUpdate, d2: OrderUpdate, tradeID: nat)
    requires StatusOf(d2.status).Some? && (seg == Spot ==> d2.filled != 0)
    requires d2.filled == d.filled && d.filled != v.tradedVolume
    ensures PushedView(seg, FailedPushView(seg, v, d), d2).thisTradedVolume == d.filled - v.tradedVolume
    ensures Fill(FailedPushView(seg, v, d).tradedVolume, tradeID, d2.filled).emitted == Some(d.filled - v.tradedVolume)
  {
  }

  /** A poll that raises on its status or type code after the traded volume was
      overwritten loses the fill: the next poll of the same quantity yields no trade. */
  lemma FailedPollLosesFill(v: OrderView, d: OrderUpdate, d2: OrderUpdate, tradeID: nat)
    requires StatusOf(d2.status).Some? && TypeOf(d2.typeCode).Some?
    requires d2.filled == d.filled
    ensures PolledView(FailedPollView(v, d), d2).thisTradedVolume == 0
    ensures Fill(FailedPollView(v, d).tradedVolume, tradeID, d2.filled).emitted.None?
  {
  }

  /** Every order placement carries the local id as client_oid, which is what the
      acknowledgement and the pushes hand back. */
  lemma PlacementCarriesLocalId(seg: Segment, req: OrderRequest, orderID: string, instrument: string,
                                typeCode: string, leverage: int)
    ensures var r := PlacementRequest(seg, req, orderID, instrument, typeCode, leverage);
            r.data.fields[0] == ("client_oid", JStr(orderID)) &&
            r.path == match seg case Futures => "/api/futures/v3/order"
                                case Swap => "/api/swap/v3/order"
                                case Spot => "/api/spot/v3/order"
  {
  }

  // -----------------------------------------------------------------------
  // The key of the exchange id in a futures push item

  /** str(data['orderid']) as the futures push handler reads it; None where the lookup raises. */
  function FuturesPushIdAsWritten(item: map<string, string>): (r: Option<string>)
    ensures r.Some? <==> "orderid" in item
    ensures r.Some? ==> r.value == item["orderid"]
  {
    if "orderid" in item then Some(item["orderid"]) else None
  }

  /** The exchange id under 'order_id', the key of the handler's own sample item and of
      every other handler; this is the orderId an OrderUpdate carries. */
  function PushExchangeId(item: map<string, string>): (r: Option<string>)
    ensures r.Some? <==> "order_id" in item
    ensures r.Some? ==> r.value == item["order_id"]
  {
    if "order_id" in item then Some(item["order_id"]) else None
  }

  /** An item shaped like the sample, with 'order_id' and no 'orderid', makes the handler
      as written raise at its first statement, before any record, counter or dict is
      touched, while the corrected lookup yields the exchange id. */
  lemma SamplePushRaises(item: map<string, string>)
    requires "order_id" in item && "orderid" !in item
    ensures FuturesPushIdAsWritten(item).None?
    ensures PushExchangeId(item) == Some(item["order_id"])
  {
  }
}
