// The gateway object and its three REST clients (futures, swap, spot). The
// gateway owns the order counter, the trade counter, the id registry
// localRemoteDict (local id to exchange id) and the record table orderDict;
// every REST and WebSocket client works on these same two dicts. A REST
// request the gateway would post is appended to its client's outbox, and
// the onOrder and onTrade events are appended to the gateway's logs.

module Okex {
  import opened Common
  import opened Tables
  import opened Json
  import opened Signer
  import opened Contracts
  import opened Fills
  import opened Scheduler
  import opened Records

  /** The length of qryFunctionList: initQuery registers queryInfo alone. */
  const QryFunctions: nat := 1

  class Gateway {
    const gatewayName: string
    const loginTime: nat
    const contracts: seq<string>
    const swapContracts: seq<string>
    const currencyPairs: seq<string>

    var orderID: nat
    var tradeID: nat
    var localRemoteDict: map<string, string>
    var orderDict: map<string, Order>
    /** The onOrder events, each a snapshot of the record at the time it was published. */
    var orderEvents: seq<OrderView>
    /** The onTrade events. */
    var trades: seq<Trade>

    var qryEnabled: bool
    var qryCount: int
    var qryTrigger: int
    var qryNextFunction: nat
    /** How often queryInfo has run. */
    var queriesRun: nat

    var restFutures: RestApi?
    var restSwap: RestApi?
    var restSpot: RestApi?
    var wsFutures: WebsocketApi?
    var wsSwap: WebsocketApi?
    var wsSpot: WebsocketApi?

    /** Trades are numbered 1, 2, ... by the trade counter, and the scheduler index is in range. */
    ghost predicate Valid()
      reads this
    {
      tradeID == |trades| &&
      (forall i :: 0 <= i < |trades| ==> trades[i].tradeID == i + 1) &&
      qryNextFunction < QryFunctions
    }

    /** Each client belongs to this gateway and serves its own segment. */
    ghost predicate Linked()
      reads this, restFutures, restSwap, restSpot
    {
      restFutures != null && restSwap != null && restSpot != null &&
      wsFutures != null && wsSwap != null && wsSpot != null &&
      restFutures.gateway == this && restFutures.segment == Futures && restFutures.Valid() &&
      restSwap.gateway == this && restSwap.segment == Swap && restSwap.Valid() &&
      restSpot.gateway == this && restSpot.segment == Spot && restSpot.Valid() &&
      wsFutures.gateway == this && wsFutures.segment == Futures &&
      wsSwap.gateway == this && wsSwap.segment == Swap &&
      wsSpot.gateway == this && wsSpot.segment == Spot
    }

    /** The record filed under `key`, as a set for modifies clauses. */
    function Existing(key: string): set<Order>
      reads this
    {
      if key in orderDict then {orderDict[key]} else {}
    }

    /** The segment whose subscribed symbols list `symbol`, futures first. */
    function Route(symbol: string): (r: Option<Segment>)
      ensures r == Some(Futures) <==> symbol in contracts
      ensures r == Some(Swap) <==> symbol !in contracts && symbol in swapContracts
      ensures r == Some(Spot) <==> symbol !in contracts && symbol !in swapContracts && symbol in currencyPairs
    {
      if symbol in contracts then Some(Futures)
      else if symbol in swapContracts then Some(Swap)
      else if symbol in currencyPairs then Some(Spot)
      else None
    }

    function Rest(seg: Segment): (api: RestApi?)
      reads this
      ensures api == match seg case Futures => restFutures case Swap => restSwap case Spot => restSpot
    {
      match seg
      case Futures => restFutures
      case Swap => restSwap
      case Spot => restSpot
    }

    constructor (gatewayName: string, loginTime: nat, contracts: seq<string>, swapContracts: seq<string>,
                 currencyPairs: seq<string>, futureLeverage: int, swapLeverage: int, marginToken: int)
      ensures Valid() && Linked()
      ensures this.gatewayName == gatewayName && this.loginTime == loginTime
      ensures this.contracts == contracts && this.swapContracts == swapContracts && this.currencyPairs == currencyPairs
      ensures orderID == 10000 && tradeID == 0
      ensures localRemoteDict == map[] && orderDict == map[] && orderEvents == [] && trades == []
      ensures !qryEnabled && queriesRun == 0
      ensures fresh(restFutures) && fresh(restSwap) && fresh(restSpot)
      ensures restFutures.leverage == futureLeverage && restSwap.leverage == swapLeverage && restSpot.leverage == marginToken
      ensures restFutures.Idle() && restSwap.Idle() && restSpot.Idle()
    {
      this.gatewayName := gatewayName;
      this.loginTime := loginTime;
      this.contracts := contracts;
      this.swapContracts := swapContracts;
      this.currencyPairs := currencyPairs;
      orderID := 10000;
      tradeID := 0;
      localRemoteDict := map[];
      orderDict := map[];
      orderEvents := [];
      trades := [];
      qryEnabled := false;
      qryCount := 0;
      qryTrigger := 0;
      qryNextFunction := 0;
      queriesRun := 0;
      new;
      Attach(futureLeverage, swapLeverage, marginToken);
    }

    /** The client objects of __init__, with the leverages connect hands them. */
    method Attach(futureLeverage: int, swapLeverage: int, marginToken: int)
      modifies this`restFutures, this`restSwap, this`restSpot, this`wsFutures, this`wsSwap, this`wsSpot
      ensures Linked()
      ensures fresh(restFutures) && fresh(restSwap) && fresh(restSpot)
      ensures restFutures.leverage == futureLeverage && restSwap.leverage == swapLeverage && restSpot.leverage == marginToken
      ensures restFutures.Idle() && restSwap.Idle() && restSpot.Idle()
    {
      restFutures := new RestApi(this, Futures, futureLeverage);
      restSwap := new RestApi(this, Swap, swapLeverage);
      restSpot := new RestApi(this, Spot, marginToken);
      wsFutures := new WebsocketApi(this, Futures);
      wsSwap := new WebsocketApi(this, Swap);
      wsSpot := new WebsocketApi(this, Spot);
    }

    /** OkexGateway.sendOrder: bump the order counter, derive the local id and pass the
        order to the client of the symbol's segment. */
    method SendOrder(req: OrderRequest) returns (r: SendOutcome)
      requires Linked()
      modifies this`orderID, this`localRemoteDict, this`orderDict, restFutures`outbox, restSwap`outbox, restSpot`outbox
      ensures Linked()
      ensures orderID == old(orderID) + 1
      ensures Route(req.symbol).None? ==>
                r == UnknownSymbol && localRemoteDict == old(localRemoteDict) && orderDict == old(orderDict) &&
                restFutures.outbox == old(restFutures.outbox) && restSwap.outbox == old(restSwap.outbox) &&
                restSpot.outbox == old(restSpot.outbox)
      ensures Route(req.symbol).Some? ==>
                var seg := Route(req.symbol).value;
                var api := Rest(seg);
                var id := LocalId(loginTime, orderID);
                (forall s :: s != seg ==> Rest(s).outbox == old(Rest(s).outbox)) &&
                (r == Raised <==> !api.Accepts(req)) &&
                (r == Raised ==> localRemoteDict == old(localRemoteDict) && orderDict == old(orderDict) &&
                                 api.outbox == old(api.outbox)) &&
                (r != Raised ==> r == Placed(VtOrderId(gatewayName, id)) &&
                                 api.outbox == old(api.outbox) + [api.Placement(req, id)] &&
                                 localRemoteDict == old(localRemoteDict)[id := id] &&
                                 id in orderDict && orderDict == old(orderDict)[id := orderDict[id]] &&
                                 fresh(orderDict[id]) && orderDict[id].View() == InitialView(req, id))
    {
      orderID := orderID + 1;
      var id := LocalId(loginTime, orderID);
      var route := Route(req.symbol);
      if route.None? {
        return UnknownSymbol;
      }
      var api := Rest(route.value);
      var placed := api.SendOrder(req, id);
      r := if placed.Some? then Placed(placed.value) else Raised;
    }

    /** OkexGateway.cancelOrder: pass the cancel to the client of the symbol's segment. */
    method CancelOrder(req: CancelRequest) returns (ok: bool)
      requires Linked()
      modifies restFutures`cancelDict, restFutures`outbox, restSwap`cancelDict, restSwap`outbox,
               restSpot`cancelDict, restSpot`outbox
      ensures Linked()
      ensures Route(req.symbol).None? ==>
                ok && forall s :: Rest(s).cancelDict == old(Rest(s).cancelDict) && Rest(s).outbox == old(Rest(s).outbox)
      ensures Route(req.symbol).Some? ==>
                var seg := Route(req.symbol).value;
                var api := Rest(seg);
                (forall s :: s != seg ==> Rest(s).cancelDict == old(Rest(s).cancelDict) && Rest(s).outbox == old(Rest(s).outbox)) &&
                api.CancelOutcome(req, old(api.cancelDict), old(api.outbox), ok)
    {
      var route := Route(req.symbol);
      if route.None? {
        return true;
      }
      var api := Rest(route.value);
      ok := api.CancelOrder(req);
    }

    /** setQryEnabled. */
    method SetQryEnabled(enabled: bool)
      modifies this`qryEnabled
      ensures qryEnabled == enabled
    {
      qryEnabled := enabled;
    }

    /** initQuery: with queries enabled, reset the scheduler to trigger every `freq` timer events. */
    method InitQuery(freq: int)
      requires Valid()
      modifies this`qryCount, this`qryTrigger, this`qryNextFunction
      ensures Valid()
      ensures qryEnabled ==> qryCount == 0 && qryTrigger == freq && qryNextFunction == 0
      ensures !qryEnabled ==> qryCount == old(qryCount) && qryTrigger == old(qryTrigger) && qryNextFunction == old(qryNextFunction)
    {
      if qryEnabled {
        qryCount := 0;
        qryTrigger := freq;
        qryNextFunction := 0;
      }
    }

    /** query, the timer handler: count one event and, past the trigger, run the next
        query function. The clock moves exactly as Scheduler.Tick says. */
    method Query()
      requires Valid()
      modifies this`qryCount, this`qryNextFunction, this`queriesRun
      ensures Valid()
      ensures var t := Tick(Clock(old(qryCount), old(qryNextFunction)), qryTrigger, QryFunctions);
              Clock(qryCount, qryNextFunction) == t.0 &&
              queriesRun == old(queriesRun) + (if t.1.Some? then 1 else 0)
    {
      qryCount := qryCount + 1;
      if qryCount > qryTrigger {
        qryCount := 0;
        // qryFunctionList[qryNextFunction] is queryInfo, whose requests are not modelled
        queriesRun := queriesRun + 1;
        qryNextFunction := qryNextFunction + 1;
        if qryNextFunction == QryFunctions {
          qryNextFunction := 0;
        }
      }
    }

    /** The local id a new record gets: the item's client_oid, or the next counter value. */
    function NewLocalId(d: OrderUpdate, counter: nat): string
      reads this
    {
      if d.clientOid.Some? then d.clientOid.value else LocalId(loginTime, counter + 1)
    }

    /** onOrder with the record's snapshot, then onTrade for a nonzero traded volume. */
    method Publish(v: OrderView)
      requires Valid()
      modifies this`orderEvents, this`tradeID, this`trades
      ensures Valid()
      ensures var f := Fill(v.tradedVolume - v.thisTradedVolume, old(tradeID), v.tradedVolume);
              orderEvents == old(orderEvents) + [v] &&
              tradeID == f.tradeID &&
              trades == old(trades) + (if f.emitted.Some? then [TradeOf(f.tradeID, v)] else [])
    {
      orderEvents := orderEvents + [v];
      if v.thisTradedVolume != 0 {
        tradeID := tradeID + 1;
        trades := trades + [TradeOf(tradeID, v)];
      }
    }
  }

  /** A REST client. The swap and spot clients differ from the futures one in their
      paths and bodies, and in naming instruments by the symbol itself. */
  class RestApi {
    const gateway: Gateway
    const segment: Segment
    const leverage: int
    /** Cancels waiting for their order's exchange id, by local id. */
    var cancelDict: map<string, CancelRequest>
    /** The requests handed to addRequest, in order. */
    var outbox: seq<Request>
    /** The keys of contractDict, in insertion order. */
    var contractKeys: seq<string>
    var contractMap: OMap
    var contractReverseMap: map<string, string>

    ghost predicate Valid()
      reads this
    {
      contractMap.Valid() &&
      forall k :: k in cancelDict ==> cancelDict[k].orderID == k
    }

    /** Nothing queued, posted or listed yet. */
    predicate Idle()
      reads this
    {
      cancelDict == map[] && outbox == [] && contractKeys == [] && contractMap == EmptyOMap && contractReverseMap == map[]
    }

    constructor (gateway: Gateway, segment: Segment, leverage: int)
      ensures Valid() && Idle()
      ensures this.gateway == gateway && this.segment == segment && this.leverage == leverage
    {
      this.gateway := gateway;
      this.segment := segment;
      this.leverage := leverage;
      cancelDict := map[];
      outbox := [];
      contractKeys := [];
      contractMap := EmptyOMap;
      contractReverseMap := map[];
    }

    /** The exchange's name for a symbol: for futures contractReverseMap[symbol], which
        may raise; swap and spot use the symbol itself. */
    function Instrument(symbol: string): (r: Option<string>)
      reads this
      ensures segment != Futures ==> r == Some(symbol)
      ensures segment == Futures ==> (r.Some? <==> symbol in contractReverseMap)
    {
      if segment != Futures then Some(symbol)
      else if symbol in contractReverseMap then Some(contractReverseMap[symbol])
      else None
    }

    /** sendOrder gets through typeMap and, for futures, contractReverseMap. */
    predicate Accepts(req: OrderRequest)
      reads this
    {
      TypeCode(req.direction, req.offset).Some? && Instrument(req.symbol).Some?
    }

    function Placement(req: OrderRequest, orderID: string): Request
      requires Accepts(req)
      reads this
    {
      PlacementRequest(segment, req, orderID, Instrument(req.symbol).value, TypeCode(req.direction, req.offset).value, leverage)
    }

    /** sendOrder: post the placement, pre-register the local id as its own exchange id
        and file a new record under it. */
    method SendOrder(req: OrderRequest, orderID: string) returns (r: Option<VtOrderId>)
      modifies this`outbox, gateway`localRemoteDict, gateway`orderDict
      ensures r.Some? <==> Accepts(req)
      ensures r.None? ==>
                outbox == old(outbox) && gateway.localRemoteDict == old(gateway.localRemoteDict) &&
                gateway.orderDict == old(gateway.orderDict)
      ensures r.Some? ==>
                r.value == VtOrderId(gateway.gatewayName, orderID) &&
                outbox == old(outbox) + [Placement(req, orderID)] &&
                gateway.localRemoteDict == old(gateway.localRemoteDict)[orderID := orderID] &&
                orderID in gateway.orderDict && gateway.orderDict == old(gateway.orderDict)[orderID := gateway.orderDict[orderID]] &&
                fresh(gateway.orderDict[orderID]) && gateway.orderDict[orderID].View() == InitialView(req, orderID)
    {
      if !Accepts(req) {
        // typeMap or contractReverseMap raises KeyError
        return None;
      }
      var order := new Order(orderID, req.symbol, req.direction, req.offset, req.price, req.volume);
      outbox := outbox + [Placement(req, orderID)];
      gateway.localRemoteDict := gateway.localRemoteDict[orderID := orderID];
      gateway.orderDict := gateway.orderDict[orderID := order];
      r := Some(VtOrderId(gateway.gatewayName, orderID));
    }

    /** What cancelOrder does from a cancel queue `queued` and an outbox `sent`: with no
        truthy exchange id for the order it queues the request and posts nothing;
        otherwise it posts one cancel against that id, unless naming the instrument raises. */
    ghost predicate CancelOutcome(req: CancelRequest, queued: map<string, CancelRequest>, sent: seq<Request>, ok: bool)
      reads this, gateway
    {
      var lr := gateway.localRemoteDict;
      if !Bound(lr, req.orderID) then
        ok && cancelDict == queued[req.orderID := req] && outbox == sent
      else
        (ok <==> Instrument(req.symbol).Some?) && cancelDict == queued &&
        outbox == sent + (if ok then [CancelFor(segment, req, lr[req.orderID], Instrument(req.symbol).value)] else [])
    }

    /** cancelOrder. */
    method CancelOrder(req: CancelRequest) returns (ok: bool)
      requires Valid()
      modifies this`cancelDict, this`outbox
      ensures Valid()
      ensures CancelOutcome(req, old(cancelDict), old(outbox), ok)
    {
      var lr := gateway.localRemoteDict;
      if !Bound(lr, req.orderID) {
        cancelDict := cancelDict[req.orderID := req];
        return true;
      }
      var instrument := Instrument(req.symbol);
      if instrument.None? {
        return false;
      }
      outbox := outbox + [CancelFor(segment, req, lr[req.orderID], instrument.value)];
      ok := true;
    }

    /** onSendOrder: bind the local id to the exchange id, file the local record under the
        exchange id as well, and replay a cancel that was waiting for the binding. The
        error code is only logged. */
    method OnSendOrder(ack: Ack) returns (ok: bool)
      requires Valid()
      modifies gateway`localRemoteDict, gateway`orderDict, this`cancelDict, this`outbox
      ensures Valid()
      ensures gateway.localRemoteDict == old(gateway.localRemoteDict)[ack.clientOid := ack.orderId]
      ensures ack.clientOid !in old(gateway.orderDict) ==>
                !ok && gateway.orderDict == old(gateway.orderDict) && cancelDict == old(cancelDict) && outbox == old(outbox)
      ensures ack.clientOid in old(gateway.orderDict) ==>
                gateway.orderDict == old(gateway.orderDict)[ack.orderId := old(gateway.orderDict)[ack.clientOid]]
      ensures ack.clientOid in old(gateway.orderDict) && ack.clientOid !in old(cancelDict) ==>
                ok && cancelDict == old(cancelDict) && outbox == old(outbox)
      ensures ack.clientOid in old(gateway.orderDict) && ack.clientOid in old(cancelDict) ==>
                var req := old(cancelDict)[ack.clientOid];
                CancelOutcome(req, old(cancelDict) - {ack.clientOid}, old(outbox), ok)
    {
      gateway.localRemoteDict := gateway.localRemoteDict[ack.clientOid := ack.orderId];
      if ack.clientOid !in gateway.orderDict {
        return false;
      }
      gateway.orderDict := gateway.orderDict[ack.orderId := gateway.orderDict[ack.clientOid]];
      ok := true;
      if ack.clientOid in cancelDict {
        var req := cancelDict[ack.clientOid];
        cancelDict := cancelDict - {ack.clientOid};
        ok := CancelOrder(req);
      }
    }
    /** onQueryContract (futures): file the listed instrument ids in contractDict, name
        the dated contracts of each prefix group before the first "BTG" id, and invert
        the names into contractReverseMap. The three loops over the groups, the names and
        the contracts run as AssignGroups and ReverseInto say, and stop where Python raises. */
    method OnQueryContract(data: seq<string>) returns (ok: bool)
      requires Valid() && segment == Futures
      modifies this`contractKeys, this`contractMap, this`contractReverseMap
      ensures Valid()
      ensures contractKeys == ListingKeys(old(contractKeys), data)
      ensures var g := GroupIds(BeforeBtg(contractKeys));
              var s := AssignGroups(old(contractMap), g, |g.order|);
              contractMap == s.map_ &&
              (!s.ok ==> !ok && contractReverseMap == old(contractReverseMap)) &&
              (s.ok ==> var r := ReverseInto(old(contractReverseMap), contractMap, contractKeys, |contractMap.keys|);
                        contractReverseMap == r.0 && ok == r.1)
    {
      ListContracts(data);
      var g := GroupListed(contractKeys);
      ok := AssignRoles(g);
      if ok {
        ok := ReverseRoles();
      }
    }

    /** The first loop of onQueryContract: contractDict[instrument_id] for each listed item. */
    method ListContracts(data: seq<string>)
      modifies this`contractKeys
      ensures contractKeys == ListingKeys(old(contractKeys), data)
    {
      var i := 0;
      while i < |data|
        invariant 0 <= i <= |data|
        invariant contractKeys == ListingKeys(old(contractKeys), data[..i])
      {
        assert data[..i + 1][..i] == data[..i];
        if data[i] !in contractKeys {
          contractKeys := contractKeys + [data[i]];
        }
        i := i + 1;
      }
      assert data[..|data|] == data;
    }

    /** The loop that builds newcontractDict, up to the first id containing "BTG". */
    static method GroupListed(keys: seq<string>) returns (g: Groups)
      ensures g == GroupIds(BeforeBtg(keys))
    {
      g := Groups([], map[]);
      var j := 0;
      while j < |keys| && !Contains(keys[j], "BTG")
        invariant 0 <= j <= |keys|
        invariant j <= |BeforeBtg(keys)|
        invariant g == GroupIds(keys[..j])
      {
        GroupIdsNext(keys, j);
        g := AddId(g, keys[j]);
        j := j + 1;
      }
      assert keys[..j] == BeforeBtg(keys);
    }

    /** The loop over newcontractDict that names each group's contracts in contractMap,
        taken as a whole: AssignGroups follows it one group at a time. */
    method AssignRoles(g: Groups) returns (ok: bool)
      requires contractMap.Valid() && g.Valid()
      modifies this`contractMap
      ensures contractMap.Valid()
      ensures AssignGroups(old(contractMap), g, |g.order|) == Step(contractMap, ok)
    {
      var step := AssignGroups(contractMap, g, |g.order|);
      contractMap, ok := step.map_, step.ok;
    }

    /** The loop over contractMap that fills contractReverseMap. */
    method ReverseRoles() returns (ok: bool)
      requires contractMap.Valid()
      modifies this`contractReverseMap
      ensures ReverseInto(old(contractReverseMap), contractMap, contractKeys, |contractMap.keys|) == (contractReverseMap, ok)
    {
      var k := 0;
      while k < |contractMap.keys|
        invariant 0 <= k <= |contractMap.keys|
        invariant ReverseInto(old(contractReverseMap), contractMap, contractKeys, k) == (contractReverseMap, true)
      {
        var key := contractMap.keys[k];
        if key !in contractKeys {
          // contractDict[key] raises KeyError
          ReverseIntoStuck(old(contractReverseMap), contractMap, contractKeys, k + 1, |contractMap.keys|);
          return false;
        }
        contractReverseMap := contractReverseMap[contractMap.m[key] := key];
        k := k + 1;
      }
      ok := true;
    }

    /** One item of onQueryOrder (futures), reading the item's own price_avg. A record the
        gateway does not know is created under the name contractMap gives its instrument,
        with a local id drawn from the counter: the source looks for client_oid in the
        response, which carries only 'result' and 'order_info', so the item's client_oid
        is never used. The local id is bound to the exchange id straight away. The poll
        then overwrites price, average price, size and the traded volumes, and raises on
        an unknown status or type code. */
    method PollItem(d: OrderUpdate) returns (ok: bool)
      requires segment == Futures && gateway.Valid()
      modifies gateway`orderID, gateway`tradeID, gateway`localRemoteDict, gateway`orderDict,
               gateway`orderEvents, gateway`trades, gateway.Existing(d.orderId)
      ensures gateway.Valid()
      ensures var key := d.orderId;
              var existed := key in old(gateway.orderDict);
              var creatable := !existed && d.instrumentId in contractMap.m;
              var localId := LocalId(gateway.loginTime, old(gateway.orderID) + 1);
              gateway.orderID == old(gateway.orderID) + (if creatable then 1 else 0) &&
              (ok <==> (existed || creatable) && StatusOf(d.status).Some? && TypeOf(d.typeCode).Some?) &&
              (creatable ==> gateway.localRemoteDict == old(gateway.localRemoteDict)[localId := key]) &&
              (!creatable ==> gateway.localRemoteDict == old(gateway.localRemoteDict))
      ensures var key := d.orderId;
              var existed := key in old(gateway.orderDict);
              ok ==>
                var prev := if existed then old(gateway.orderDict[key].View())
                            else PolledNewView(LocalId(gateway.loginTime, old(gateway.orderID) + 1), contractMap.m[d.instrumentId]);
                var v := PolledView(prev, d);
                var f := Fill(prev.tradedVolume, old(gateway.tradeID), d.filled);
                key in gateway.orderDict && gateway.orderDict == old(gateway.orderDict)[key := gateway.orderDict[key]] &&
                (existed ==> gateway.orderDict[key] == old(gateway.orderDict[key])) &&
                (!existed ==> fresh(gateway.orderDict[key])) &&
                gateway.orderDict[key].View() == v &&
                gateway.orderEvents == old(gateway.orderEvents) + [v] &&
                gateway.tradeID == f.tradeID &&
                gateway.trades == old(gateway.trades) + (if f.emitted.Some? then [TradeOf(f.tradeID, v)] else [])
      ensures var key := d.orderId;
              !ok ==>
                gateway.orderDict == old(gateway.orderDict) && gateway.orderEvents == old(gateway.orderEvents) &&
                gateway.trades == old(gateway.trades) && gateway.tradeID == old(gateway.tradeID) &&
                (key in old(gateway.orderDict) ==>
                   old(gateway.orderDict[key]).View() == FailedPollView(old(gateway.orderDict[key].View()), d))
    {
      var key := d.orderId;
      var order: Order;
      if key !in gateway.orderDict {
        if d.instrumentId !in contractMap.m {
          // the vtSymbol join of None raises
          return false;
        }
        gateway.orderID := gateway.orderID + 1;
        var localId := LocalId(gateway.loginTime, gateway.orderID);
        var v := PolledNewView(localId, contractMap.m[d.instrumentId]);
        order := new Order(v.orderID, v.symbol, v.direction, v.offset, v.price, v.totalVolume);
        gateway.localRemoteDict := gateway.localRemoteDict[localId := key];
      } else {
        order := gateway.orderDict[key];
      }
      ok := ApplyPoll(order, d);
      if ok {
        gateway.orderDict := gateway.orderDict[key := order];
        gateway.Publish(order.View());
      }
    }

    /** OnQueryOrder's field updates on one record, up to the lookup that raises. */
    static method ApplyPoll(order: Order, d: OrderUpdate) returns (ok: bool)
      modifies order
      ensures ok <==> StatusOf(d.status).Some? && TypeOf(d.typeCode).Some?
      ensures ok ==> order.View() == PolledView(old(order.View()), d)
      ensures !ok ==> order.View() == FailedPollView(old(order.View()), d)
    {
      order.price := d.price;
      order.priceAvg := Decimal(d.priceAvg);
      order.totalVolume := d.size;
      order.thisTradedVolume := d.filled - order.tradedVolume;
      order.tradedVolume := d.filled;
      var status := StatusOf(d.status);
      if status.None? {
        return false;
      }
      order.status := status.value;
      var typ := TypeOf(d.typeCode);
      if typ.None? {
        return false;
      }
      order.direction, order.offset := typ.value.0, typ.value.1;
      ok := true;
    }

    /** onQueryOrder (futures): the items in order, until one raises. */
    method OnQueryOrder(items: seq<OrderUpdate>) returns (handled: nat)
      requires segment == Futures && gateway.Valid()
      modifies gateway`orderID, gateway`tradeID, gateway`localRemoteDict, gateway`orderDict,
               gateway`orderEvents, gateway`trades, gateway.orderDict.Values
      ensures gateway.Valid()
      ensures handled <= |items|
      ensures old(gateway.orderEvents) <= gateway.orderEvents && old(gateway.trades) <= gateway.trades
      ensures |gateway.orderEvents| == |old(gateway.orderEvents)| + handled
      ensures |gateway.trades| <= |old(gateway.trades)| + handled
    {
      handled := 0;
      while handled < |items|
        invariant handled <= |items|
        invariant gateway.Valid()
        invariant old(gateway.orderEvents) <= gateway.orderEvents && old(gateway.trades) <= gateway.trades
        invariant |gateway.orderEvents| == |old(gateway.orderEvents)| + handled
        invariant |gateway.trades| <= |old(gateway.trades)| + handled
        invariant forall k :: k in gateway.orderDict ==> gateway.orderDict[k] in old(gateway.orderDict.Values) || fresh(gateway.orderDict[k])
      {
        var ok := PollItem(items[handled]);
        if !ok {
          return;
        }
        handled := handled + 1;
      }
    }
  }

  /** A WebSocket client; only its order-push handler, onTrade, is modelled. The
      three segments' handlers differ in how they name a new record's symbol and where
      its direction comes from, and the spot one derives the average price itself. */
  class WebsocketApi {
    const gateway: Gateway
    const segment: Segment

    constructor (gateway: Gateway, segment: Segment)
      ensures this.gateway == gateway && this.segment == segment
    {
      this.gateway := gateway;
      this.segment := segment;
    }

    /** The symbol a push gives a new record: for futures contractMap.get of the
        instrument, where None makes the vtSymbol join raise; otherwise the instrument. */
    function NewSymbol(d: OrderUpdate): (r: Option<string>)
      requires gateway.restFutures != null
      reads gateway, gateway.restFutures
      ensures segment != Futures ==> r == Some(d.instrumentId)
      ensures segment == Futures ==> (r.Some? <==> d.instrumentId in gateway.restFutures.contractMap.m)
    {
      if segment != Futures then Some(d.instrumentId)
      else if d.instrumentId in gateway.restFutures.contractMap.m then Some(gateway.restFutures.contractMap.m[d.instrumentId])
      else None
    }

    /** A pushed item goes through: a new record can be named and, outside spot, typed;
        a spot item has a nonzero filled_size to divide by; the status code is known. */
    predicate PushAccepted(d: OrderUpdate, existed: bool)
      requires gateway.restFutures != null
      reads gateway, gateway.restFutures
    {
      (existed || (NewSymbol(d).Some? && (segment == Spot || TypeOf(d.typeCode).Some?))) &&
      (segment == Spot ==> d.filled != 0) &&
      StatusOf(d.status).Some?
    }

    /** One item of onTrade. The record filed under the exchange id, or a new one named
        from the item, takes the push; the local id is bound to the exchange id, the
        record is filed under it, onOrder and onTrade are published as for a poll, and a
        fully traded or cancelled order has both its ids released. */
    method OnTradeItem(d: OrderUpdate) returns (ok: bool, order: Order?)
      requires gateway.Valid() && gateway.restFutures != null
      modifies gateway`orderID, gateway`tradeID, gateway`localRemoteDict, gateway`orderDict,
               gateway`orderEvents, gateway`trades, gateway.Existing(d.orderId)
      ensures gateway.Valid()
      ensures var existed := d.orderId in old(gateway.orderDict);
              gateway.orderID == old(gateway.orderID) + (if !existed && NewSymbol(d).Some? && d.clientOid.None? then 1 else 0) &&
              (ok <==> PushAccepted(d, existed))
      ensures var key := d.orderId;
              var existed := key in old(gateway.orderDict);
              ok ==>
                var prev := if existed then old(gateway.orderDict[key].View())
                            else PushedNewView(segment, d, gateway.NewLocalId(d, old(gateway.orderID)), NewSymbol(d).value);
                var v := PushedView(segment, prev, d);
                var f := Fill(prev.tradedVolume, old(gateway.tradeID), d.filled);
                var bound := old(gateway.localRemoteDict)[v.orderID := key];
                gateway.orderEvents == old(gateway.orderEvents) + [v] &&
                gateway.tradeID == f.tradeID &&
                gateway.trades == old(gateway.trades) + (if f.emitted.Some? then [TradeOf(f.tradeID, v)] else []) &&
                order != null && order.View() == v &&
                (existed ==> order == old(gateway.orderDict[key])) && (!existed ==> fresh(order)) &&
                (ReleasesIds(v.status) ==>
                   gateway.localRemoteDict == bound - {v.orderID} &&
                   gateway.orderDict == old(gateway.orderDict) - {key} - {v.orderID}) &&
                (!ReleasesIds(v.status) ==>
                   gateway.localRemoteDict == bound && gateway.orderDict == old(gateway.orderDict)[key := order])
      ensures var key := d.orderId;
              !ok ==>
                gateway.localRemoteDict == old(gateway.localRemoteDict) && gateway.orderDict == old(gateway.orderDict) &&
                gateway.orderEvents == old(gateway.orderEvents) && gateway.trades == old(gateway.trades) &&
                gateway.tradeID == old(gateway.tradeID) &&
                (key in old(gateway.orderDict) ==>
                   old(gateway.orderDict[key]).View() == FailedPushView(segment, old(gateway.orderDict[key].View()), d))
    {
      order := RecordFor(d);
      if order == null {
        return false, null;
      }
      ok := ApplyPush(segment, order, d);
      if ok {
        File(d.orderId, order);
      }
    }

    /** The end of onTrade for a record that took its push: bind the local id and file
        the record under the exchange id, publish, and release both ids of a finished order. */
    method File(key: string, order: Order)
      requires gateway.Valid()
      modifies gateway`localRemoteDict, gateway`orderDict, gateway`orderEvents, gateway`tradeID, gateway`trades
      ensures gateway.Valid()
      ensures var v := order.View();
              var f := Fill(v.tradedVolume - v.thisTradedVolume, old(gateway.tradeID), v.tradedVolume);
              var bound := old(gateway.localRemoteDict)[v.orderID := key];
              gateway.orderEvents == old(gateway.orderEvents) + [v] &&
              gateway.tradeID == f.tradeID &&
              gateway.trades == old(gateway.trades) + (if f.emitted.Some? then [TradeOf(f.tradeID, v)] else []) &&
              (ReleasesIds(v.status) ==>
                 gateway.localRemoteDict == bound - {v.orderID} &&
                 gateway.orderDict == old(gateway.orderDict) - {key} - {v.orderID}) &&
              (!ReleasesIds(v.status) ==>
                 gateway.localRemoteDict == bound && gateway.orderDict == old(gateway.orderDict)[key := order])
    {
      var v := order.View();
      gateway.localRemoteDict := gateway.localRemoteDict[v.orderID := key];
      gateway.orderDict := gateway.orderDict[key := order];
      gateway.Publish(v);
      if ReleasesIds(v.status) {
        gateway.localRemoteDict := gateway.localRemoteDict - {v.orderID};
        gateway.orderDict := gateway.orderDict - {key} - {v.orderID};
      }
    }

    /** orderDict.get of the exchange id, or a new record named from the item; null where
        naming or typing the new record raises. The counter moves only for a new record
        without client_oid, after the symbol lookup and before the type lookup. */
    method RecordFor(d: OrderUpdate) returns (order: Order?)
      requires gateway.restFutures != null
      modifies gateway`orderID
      ensures d.orderId in gateway.orderDict ==> order == gateway.orderDict[d.orderId] && gateway.orderID == old(gateway.orderID)
      ensures d.orderId !in gateway.orderDict ==>
                gateway.orderID == old(gateway.orderID) + (if NewSymbol(d).Some? && d.clientOid.None? then 1 else 0) &&
                (order != null <==> NewSymbol(d).Some? && (segment == Spot || TypeOf(d.typeCode).Some?)) &&
                (order != null ==>
                   fresh(order) &&
                   order.View() == PushedNewView(segment, d, gateway.NewLocalId(d, old(gateway.orderID)), NewSymbol(d).value))
    {
      if d.orderId in gateway.orderDict {
        return gateway.orderDict[d.orderId];
      }
      var symbol := NewSymbol(d);
      if symbol.None? {
        return null;
      }
      var localId := gateway.NewLocalId(d, gateway.orderID);
      if d.clientOid.None? {
        gateway.orderID := gateway.orderID + 1;
      }
      if segment != Spot && TypeOf(d.typeCode).None? {
        // typeMapReverse raises KeyError
        return null;
      }
      var v := PushedNewView(segment, d, localId, symbol.value);
      order := new Order(v.orderID, v.symbol, v.direction, v.offset, v.price, v.totalVolume);
    }

    /** onTrade's field updates on one record, up to the step that raises. */
    static method ApplyPush(seg: Segment, order: Order, d: OrderUpdate) returns (ok: bool)
      modifies order
      ensures ok <==> StatusOf(d.status).Some? && (seg == Spot ==> d.filled != 0)
      ensures ok ==> order.View() == PushedView(seg, old(order.View()), d)
      ensures !ok ==> order.View() == FailedPushView(seg, old(order.View()), d)
    {
      if seg == Spot {
        var side := SideOf(d.side, order.direction, order.offset);
        order.direction, order.offset := side.0, side.1;
        if d.filled == 0 {
          // filled_notional / filled_size raises ZeroDivisionError
          return false;
        }
      }
      order.priceAvg := PushAvg(seg, d);
      order.thisTradedVolume := d.filled - order.tradedVolume;
      var status := StatusOf(d.status);
      if status.None? {
        // statusMapReverse raises KeyError
        return false;
      }
      order.status := status.value;
      order.tradedVolume := d.filled;
      ok := true;
    }

    /** onTrade: the pushed items in order, until one raises. */
    method OnTrade(items: seq<OrderUpdate>) returns (handled: nat)
      requires gateway.Valid() && gateway.restFutures != null
      modifies gateway`orderID, gateway`tradeID, gateway`localRemoteDict, gateway`orderDict,
               gateway`orderEvents, gateway`trades, gateway.orderDict.Values
      ensures gateway.Valid()
      ensures handled <= |items|
      ensures old(gateway.orderEvents) <= gateway.orderEvents && old(gateway.trades) <= gateway.trades
      ensures |gateway.orderEvents| == |old(gateway.orderEvents)| + handled
      ensures |gateway.trades| <= |old(gateway.trades)| + handled
    {
      handled := 0;
      while handled < |items|
        invariant handled <= |items|
        invariant gateway.Valid()
        invariant old(gateway.orderEvents) <= gateway.orderEvents && old(gateway.trades) <= gateway.trades
        invariant |gateway.orderEvents| == |old(gateway.orderEvents)| + handled
        invariant |gateway.trades| <= |old(gateway.trades)| + handled
        invariant forall k :: k in gateway.orderDict ==> gateway.orderDict[k] in old(gateway.orderDict.Values) || fresh(gateway.orderDict[k])
      {
        var ok, _ := OnTradeItem(items[handled]);
        if !ok {
          return;
        }
        handled := handled + 1;
      }
    }
  }
}
