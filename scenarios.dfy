// Whole exchanges with the gateway, from a fresh gateway with one swap
// contract subscribed: the order's placement, its acknowledgement and its
// pushes, in the orders the exchange may deliver them.

module Scenarios {
  import opened Common
  import opened Tables
  import opened Signer
  import opened Records
  import opened Okex

  const Symbol: string := "LTC-USD-SWAP"
  /** The exchange's id for the order placed. */
  const Remote: string := "65-6e-2e904c43d-0"

  /** A buy-to-open of one contract. */
  function Buy(): OrderRequest
  {
    OrderRequest(Symbol, Long, Open, "46.19", 1)
  }

  /** A futures/swap push for the order, with its cumulative filled quantity and status code. */
  function Push(localId: string, filled: int, status: string): OrderUpdate
  {
    OrderUpdate(Remote, Some(localId), Symbol, "46.19", "46.19", 1, filled, "1", status, "", "")
  }

  /** A gateway with the given login time that subscribes Symbol on the swap segment. */
  method Fresh(loginTime: nat) returns (gw: Gateway)
    ensures fresh(gw) && gw.Valid() && gw.Linked()
    ensures gw.orderID == 10000 && gw.loginTime == loginTime && gw.gatewayName == "OKEX"
    ensures gw.orderDict == map[] && gw.localRemoteDict == map[] && gw.trades == [] && gw.orderEvents == []
    ensures gw.Route(Symbol) == Some(Swap)
    ensures gw.restSwap.Idle()
  {
    gw := new Gateway("OKEX", loginTime, [], [Symbol], [], 10, 10, 0);
  }

  /** A local id differs from the exchange's id, whose characters are not all digits. */
  lemma LocalIsNotRemote(loginTime: nat, n: nat)
    ensures LocalId(loginTime, n) != Remote
  {
    assert Remote[2] == '-';
  }

  /** Placed: the record is filed under the local id, which is registered as its own
      exchange id, and the placement is in the swap client's outbox. */
  method Place(loginTime: nat) returns (gw: Gateway, r: SendOutcome, id: string)
    ensures fresh(gw) && gw.Valid() && gw.Linked() && id == LocalId(loginTime, 10001) && id != Remote
    ensures gw.wsSwap.gateway == gw && gw.wsSwap.segment == Swap
    ensures r == Placed(VtOrderId("OKEX", id))
    ensures gw.trades == [] && gw.tradeID == 0 && gw.localRemoteDict == map[id := id]
    ensures gw.orderDict.Keys == {id} && fresh(gw.orderDict[id]) && gw.orderDict[id].View() == InitialView(Buy(), id)
    ensures gw.Route(Symbol) == Some(Swap) && gw.restSwap.cancelDict == map[] && |gw.restSwap.outbox| == 1
  {
    gw := Fresh(loginTime);
    id := LocalId(loginTime, 10001);
    LocalIsNotRemote(loginTime, 10001);
    r := gw.SendOrder(Buy());
  }

  /** Placed and acknowledged: the record is filed under both ids and its local id is
      bound to the exchange's. */
  method PlaceAndAck(loginTime: nat) returns (gw: Gateway, r: SendOutcome, id: string)
    ensures fresh(gw) && gw.Valid() && gw.restFutures != null && id == LocalId(loginTime, 10001) && id != Remote
    ensures gw.wsSwap != null && gw.wsSwap.gateway == gw && gw.wsSwap.segment == Swap
    ensures r == Placed(VtOrderId("OKEX", id))
    ensures gw.trades == [] && gw.tradeID == 0 && gw.localRemoteDict == map[id := Remote]
    ensures gw.orderDict.Keys == {id, Remote} && gw.orderDict[Remote] == gw.orderDict[id]
    ensures fresh(gw.orderDict[id]) && gw.orderDict[id].View() == InitialView(Buy(), id)
  {
    gw, r, id := Place(loginTime);
    var acked := gw.restSwap.OnSendOrder(Ack(id, Remote, 0));
  }

  /** Placed, acknowledged, then pushed as fully traded: one trade of the whole volume
      numbered 1, and both ids released from the registry and the record table. */
  method PlaceAckFill(loginTime: nat) returns (r: SendOutcome, trades: seq<Trade>, registered: bool, filed: bool)
    ensures r == Placed(VtOrderId("OKEX", LocalId(loginTime, 10001)))
    ensures |trades| == 1 && trades[0].tradeID == 1 && trades[0].volume == 1 && trades[0].orderID == LocalId(loginTime, 10001)
    ensures !registered && !filed
  {
    var gw, id;
    gw, r, id := PlaceAndAck(loginTime);
    var d := Push(id, 1, "2");
    assert StatusOf(d.status) == Some(AllTraded);
    var pushed, order := gw.wsSwap.OnTradeItem(d);
    trades := gw.trades;
    registered := id in gw.localRemoteDict;
    filed := id in gw.orderDict || Remote in gw.orderDict;
  }

  /** A cancel issued before the acknowledgement is not queued: sendOrder registered the
      local id as its own exchange id, so the cancel goes out at once against the local id. */
  method CancelBeforeAck(loginTime: nat) returns (sent: seq<Request>, queued: bool)
    ensures |sent| == 2
    ensures sent[1].path == "/api/swap/v3/cancel_order/" + Symbol + "/" + LocalId(loginTime, 10001)
    ensures !queued
  {
    var gw, r, id := Place(loginTime);
    var ok := gw.CancelOrder(CancelRequest(Symbol, id));
    sent := gw.restSwap.outbox;
    queued := id in gw.restSwap.cancelDict;
  }

  /** The first push of a fill that overtakes the acknowledgement: a second record is
      filed under the exchange id and the fill yields its trade. */
  method EarlyPush(loginTime: nat) returns (gw: Gateway, id: string)
    ensures fresh(gw) && gw.Valid() && gw.restFutures != null && gw.restSwap != null && gw.restSwap.Valid()
    ensures gw.restSwap.gateway == gw && gw.wsSwap != null && gw.wsSwap.gateway == gw && gw.wsSwap.segment == Swap
    ensures id == LocalId(loginTime, 10001) && id != Remote
    ensures |gw.trades| == 1 && gw.trades[0].volume == 1
    ensures gw.orderDict.Keys == {id, Remote} && fresh(gw.orderDict[id]) && gw.orderDict[id].View() == InitialView(Buy(), id)
  {
    var r;
    gw, r, id := Place(loginTime);
    var d := Push(id, 1, "1");
    assert StatusOf(d.status) == Some(PartTraded);
    var pushed, record := gw.wsSwap.OnTradeItem(d);
  }

  /** A push that arrives before the acknowledgement finds no record under the exchange id
      and files a second record there; the acknowledgement then files the first record
      over it, so a repeated push of the same filled quantity counts the fill again. */
  method PushBeforeAck(loginTime: nat) returns (trades: seq<Trade>)
    ensures |trades| == 2 && trades[0].volume == 1 && trades[1].volume == 1
  {
    var gw, id := EarlyPush(loginTime);
    var acked := gw.restSwap.OnSendOrder(Ack(id, Remote, 0));
    var d := Push(id, 1, "1");
    assert StatusOf(d.status) == Some(PartTraded);
    var second, late := gw.wsSwap.OnTradeItem(d);
    trades := gw.trades;
  }

  /** A push that raises on its status code leaves the record's traded volume alone, so
      the next push of the same quantity still yields the trade. */
  method FailedPushThenFill(loginTime: nat) returns (failed: bool, trades: seq<Trade>)
    ensures failed && |trades| == 1 && trades[0].volume == 1
  {
    var gw, r, id := PlaceAndAck(loginTime);
    var bad := Push(id, 1, "9");
    var ok, order := gw.wsSwap.OnTradeItem(bad);
    failed := !ok;
    var d := Push(id, 1, "1");
    assert StatusOf(d.status) == Some(PartTraded);
    ok, order := gw.wsSwap.OnTradeItem(d);
    trades := gw.trades;
  }
}
