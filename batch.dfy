// Selection logic of the futures bulk operations. onCancelAll chooses
// which open orders to cancel and cuts them into batches of 20.
// onCloseAll chooses, per holding, the market close orders to send from
// the direction filter and the quantities available. The HTTP round trips
// around them are not modelled: a request that would be posted is
// returned instead.

module Batch {
  import opened Common
  import opened Json
  import opened Signer
  import opened Tables

  // -----------------------------------------------------------------------
  // Cancel-all

  /** One entry of 'order_info' as onCancelAll reads it. */
  datatype OpenOrder = OpenOrder(orderId: string, status: string)

  /** The ids of the entries whose status is '0' (not traded) or '1' (part traded), in listing order. */
  function Pending(info: seq<OpenOrder>): (ids: seq<string>)
    ensures |ids| <= |info|
    ensures forall x :: x in ids <==> exists i :: 0 <= i < |info| && info[i].orderId == x && info[i].status in {"0", "1"}
    decreases |info|
  {
    if info == [] then []
    else
      var rest := Pending(info[1..]);
      assert forall i :: 0 < i < |info| ==> info[i] == info[1..][i - 1];
      if info[0].status == "0" || info[0].status == "1" then [info[0].orderId] + rest else rest
  }

  predicate NoDuplicates(xs: seq<string>)
  {
    forall i, j :: 0 <= i < j < |xs| ==> xs[i] != xs[j]
  }

  /** A listing of set(ids) & set(wanted): each id of both, once. */
  function Intersect(ids: seq<string>, wanted: seq<string>): (r: seq<string>)
    ensures NoDuplicates(r)
    ensures forall x :: x in r <==> x in ids && x in wanted
    decreases |ids|
  {
    if ids == [] then []
    else
      var rest := Intersect(ids[1..], wanted);
      if ids[0] in wanted && ids[0] !in rest then [ids[0]] + rest else rest
  }

  /** The ids onCancelAll goes on to cancel; `orders` is the caller's comma-separated
      id list, and applies only when it is truthy (given and not empty). */
  function CancelCandidates(info: seq<OpenOrder>, orders: Option<string>): seq<string>
  {
    var ids := Pending(info);
    if orders.Some? && orders.value != "" then Intersect(ids, Split(orders.value, ',')) else ids
  }

  /** An id is a candidate exactly when it is listed as not traded or part traded and,
      given a caller's list, is on it. */
  lemma CandidatesExact(info: seq<OpenOrder>, orders: Option<string>, x: string)
    ensures x in CancelCandidates(info, orders) <==>
              (exists i :: 0 <= i < |info| && info[i].orderId == x && info[i].status in {"0", "1"}) &&
              (orders.Some? && orders.value != "" ==> x in Split(orders.value, ','))
  {
  }

  /** The chunk orderids[i*20:(i+1)*20], with Python's clamping of slice bounds. */
  function Chunk(ids: seq<string>, i: nat): (c: seq<string>)
    ensures |c| <= 20
  {
    var lo := if i * 20 <= |ids| then i * 20 else |ids|;
    var hi := if (i + 1) * 20 <= |ids| then (i + 1) * 20 else |ids|;
    ids[lo..hi]
  }

  /** The batch-cancel request for one chunk. */
  function BatchRequest(instrument: string, ids: seq<string>): Request
  {
    Request("POST", "/api/futures/v3/cancel_batch_orders/" + instrument, [],
            JObj([("instrument_id", JStr(instrument)),
                  ("order_ids", JArr(seq(|ids|, k requires 0 <= k < |ids| => JStr(ids[k]))))]))
  }

  /** onCancelAll as written: the loop returns the response of its first iteration, so
      exactly one request goes out, holding at most the first 20 ids. */
  function CancelRequestsAsWritten(instrument: string, ids: seq<string>): (rs: seq<Request>)
    ensures |rs| == 1
  {
    [BatchRequest(instrument, Chunk(ids, 0))]
  }

  /** The loop of onCancelAll run to the end: one request per slice i*20 for i in
      range(len(ids) // 20 + 1), every one for the instrument of the original query. */
  function CancelRequests(instrument: string, ids: seq<string>): (rs: seq<Request>)
  {
    seq(|ids| / 20 + 1, i requires 0 <= i <= |ids| / 20 => BatchRequest(instrument, Chunk(ids, i)))
  }

  function Chunks(ids: seq<string>, n: nat): seq<seq<string>>
  {
    seq(n, i requires 0 <= i < n => Chunk(ids, i))
  }

  function Flatten(xss: seq<seq<string>>): seq<string>
    decreases |xss|
  {
    if xss == [] then [] else Flatten(xss[..|xss| - 1]) + xss[|xss| - 1]
  }

  /** The first n chunks put together are the ids up to n*20. */
  lemma {:induction false} ChunksPrefix(ids: seq<string>, n: nat)
    ensures Flatten(Chunks(ids, n)) == ids[..if n * 20 <= |ids| then n * 20 else |ids|]
  {
    if n > 0 {
      ChunksPrefix(ids, n - 1);
      assert Chunks(ids, n)[..n - 1] == Chunks(ids, n - 1);
    }
  }

  /** Run to the end, the batches hold at most 20 ids each and together are exactly
      the candidate ids in order, so every candidate is cancelled once. */
  lemma CancelRequestsCoverAll(instrument: string, ids: seq<string>)
    ensures |CancelRequests(instrument, ids)| == |ids| / 20 + 1
    ensures forall i :: 0 <= i <= |ids| / 20 ==>
              CancelRequests(instrument, ids)[i] == BatchRequest(instrument, Chunk(ids, i))
    ensures Flatten(Chunks(ids, |ids| / 20 + 1)) == ids
  {
    ChunksPrefix(ids, |ids| / 20 + 1);
  }

  /** The early return drops every id after the twentieth: with 21 distinct
      candidates, the 21st is in no request sent. */
  lemma CancelAsWrittenDropsIds(instrument: string, ids: seq<string>)
    requires |ids| > 20 && NoDuplicates(ids)
    ensures var sent := CancelRequestsAsWritten(instrument, ids);
            |sent| == 1 && sent[0] == BatchRequest(instrument, ids[..20]) && ids[20] !in ids[..20]
    ensures ids[20] in Chunk(ids, 1)
  {
    assert ids[20] == Chunk(ids, 1)[0];
  }

  // -----------------------------------------------------------------------
  // Close-all

  /** One entry of 'holding' as onCloseAll reads it. */
  datatype Holding = Holding(instrumentId: string, longAvgCost: string, longAvailQty: int,
                             shortAvgCost: string, shortAvailQty: int)

  /** A market order of type `code` closing `qty` of the holding at `cost`. */
  function CloseRequest(h: Holding, code: string, cost: string, qty: int, leverage: int): Request
  {
    Request("POST", "/api/futures/v3/order", [],
            JObj([("instrument_id", JStr(h.instrumentId)), ("type", JStr(code)), ("price", JStr(cost)),
                  ("size", JStr(IntToString(qty))), ("match_price", JStr("1")), ("leverage", JInt(leverage))]))
  }

  /** req_long: type '3' closes the long side. */
  function CloseLong(h: Holding, leverage: int): Request
  {
    CloseRequest(h, "3", h.longAvgCost, h.longAvailQty, leverage)
  }

  /** req_short: type '4' closes the short side. */
  function CloseShort(h: Holding, leverage: int): Request
  {
    CloseRequest(h, "4", h.shortAvgCost, h.shortAvailQty, leverage)
  }

  /** The orders sent for one holding when the filter (request.extra) is `filter`:
      None is Python's None, Some(Long) and Some(Short) the two direction constants,
      and any other direction value matches neither branch. */
  function CloseOrders(h: Holding, filter: Option<Direction>, leverage: int): (rs: seq<Request>)
  {
    match filter
    case Some(Long) => if h.longAvailQty > 0 then [CloseLong(h, leverage)] else []
    case Some(Short) => if h.shortAvailQty > 0 then [CloseShort(h, leverage)] else []
    case Some(_) => []
    case None =>
      (if h.longAvailQty > 0 then [CloseLong(h, leverage)] else []) +
      (if h.shortAvailQty > 0 then [CloseShort(h, leverage)] else [])
  }

  /** What each code's request closes, and that a side with nothing available is never closed. */
  lemma CloseOrdersShape(h: Holding, filter: Option<Direction>, leverage: int)
    ensures CloseLong(h, leverage) in CloseOrders(h, filter, leverage) <==>
              h.longAvailQty > 0 && (filter == None || filter == Some(Long))
    ensures CloseShort(h, leverage) in CloseOrders(h, filter, leverage) <==>
              h.shortAvailQty > 0 && (filter == None || filter == Some(Short))
    ensures forall r :: r in CloseOrders(h, filter, leverage) ==> r == CloseLong(h, leverage) || r == CloseShort(h, leverage)
    ensures |CloseOrders(h, filter, leverage)| <= 2
  {
    CloseSidesDiffer(h, leverage);
  }

  lemma CloseSidesDiffer(h: Holding, leverage: int)
    ensures CloseLong(h, leverage) != CloseShort(h, leverage)
  {
    assert CloseLong(h, leverage).data.fields[1] != CloseShort(h, leverage).data.fields[1];
  }

  /** onCloseAll as written: once an order has been sent, `request` has been rebound
      to that order's Request, whose extra is None, so later holdings are closed on
      both sides whatever the caller's filter was. */
  function CloseAllAsWritten(hs: seq<Holding>, filter: Option<Direction>, leverage: int): seq<Request>
    decreases |hs|
  {
    if hs == [] then []
    else
      var here := CloseOrders(hs[0], filter, leverage);
      here + CloseAllAsWritten(hs[1..], if here != [] then None else filter, leverage)
  }

  /** The loop of onCloseAll, with the variable `request.extra` it reads. */
  method OnCloseAll(holdings: seq<Holding>, extra: Option<Direction>, leverage: int) returns (sent: seq<Request>)
    ensures sent == CloseAllAsWritten(holdings, extra, leverage)
  {
    var filter := extra;
    sent := [];
    var i := 0;
    while i < |holdings|
      invariant 0 <= i <= |holdings|
      invariant sent + CloseAllAsWritten(holdings[i..], filter, leverage) == CloseAllAsWritten(holdings, extra, leverage)
    {
      ghost var before, f0 := sent, filter;
      var here;
      here, filter := CloseHolding(holdings[i], filter, leverage);
      sent := sent + here;
      CloseAllStep(holdings, i, f0, leverage);
      ConcatAssoc(before, here, CloseAllAsWritten(holdings[i + 1..], filter, leverage));
      i := i + 1;
    }
  }

  /** One pass of the loop body: the orders sent for holding h, and the filter the
      next pass reads, None once `request` has been rebound. */
  method CloseHolding(h: Holding, extra: Option<Direction>, leverage: int) returns (sent: seq<Request>, filter: Option<Direction>)
    ensures sent == CloseOrders(h, extra, leverage)
    ensures filter == if sent != [] then None else extra
  {
    sent, filter := [], extra;
    if extra == Some(Long) && h.longAvailQty > 0 {
      sent := [CloseLong(h, leverage)];
      filter := None;
    } else if extra == Some(Short) && h.shortAvailQty > 0 {
      sent := [CloseShort(h, leverage)];
      filter := None;
    } else if extra == None {
      if h.longAvailQty > 0 {
        sent := sent + [CloseLong(h, leverage)];
      }
      if h.shortAvailQty > 0 {
        sent := sent + [CloseShort(h, leverage)];
      }
    }
  }

  lemma ConcatAssoc<T>(a: seq<T>, b: seq<T>, c: seq<T>)
    ensures (a + b) + c == a + (b + c)
  {
  }

  lemma CloseAllStep(hs: seq<Holding>, i: nat, filter: Option<Direction>, leverage: int)
    requires i < |hs|
    ensures var here := CloseOrders(hs[i], filter, leverage);
            CloseAllAsWritten(hs[i..], filter, leverage) ==
              here + CloseAllAsWritten(hs[i + 1..], if here != [] then None else filter, leverage)
  {
    assert hs[i..][0] == hs[i] && hs[i..][1..] == hs[i + 1..];
  }

  /** The evidently intended behaviour: every holding is treated under the caller's filter. */
  function ClosePlan(hs: seq<Holding>, filter: Option<Direction>, leverage: int): seq<Request>
    decreases |hs|
  {
    if hs == [] then [] else CloseOrders(hs[0], filter, leverage) + ClosePlan(hs[1..], filter, leverage)
  }

  /** r is the close order ClosePlan makes for holding h's long or short side: that side
      has something available and the filter allows it. */
  predicate Closes(h: Holding, filter: Option<Direction>, leverage: int, r: Request)
  {
    (r == CloseLong(h, leverage) && h.longAvailQty > 0 && (filter == None || filter == Some(Long))) ||
    (r == CloseShort(h, leverage) && h.shortAvailQty > 0 && (filter == None || filter == Some(Short)))
  }

  /** Under ClosePlan a side is closed exactly when the filter allows it and something
      is available on it, holding by holding. */
  lemma ClosePlanRespectsFilter(hs: seq<Holding>, filter: Option<Direction>, leverage: int)
    ensures forall r :: r in ClosePlan(hs, filter, leverage) ==> exists i :: 0 <= i < |hs| && Closes(hs[i], filter, leverage, r)
    ensures forall i :: 0 <= i < |hs| && hs[i].longAvailQty > 0 && (filter == None || filter == Some(Long)) ==>
              CloseLong(hs[i], leverage) in ClosePlan(hs, filter, leverage)
    ensures forall i :: 0 <= i < |hs| && hs[i].shortAvailQty > 0 && (filter == None || filter == Some(Short)) ==>
              CloseShort(hs[i], leverage) in ClosePlan(hs, filter, leverage)
  {
    ClosePlanSound(hs, filter, leverage);
    ClosePlanComplete(hs, filter, leverage);
  }

  lemma {:induction false} ClosePlanSound(hs: seq<Holding>, filter: Option<Direction>, leverage: int)
    ensures forall r :: r in ClosePlan(hs, filter, leverage) ==> exists i :: 0 <= i < |hs| && Closes(hs[i], filter, leverage, r)
    decreases |hs|
  {
    if hs != [] {
      ClosePlanSound(hs[1..], filter, leverage);
      CloseOrdersShape(hs[0], filter, leverage);
      var here := CloseOrders(hs[0], filter, leverage);
      var rest := ClosePlan(hs[1..], filter, leverage);
      assert ClosePlan(hs, filter, leverage) == here + rest;
      forall r | r in here + rest
        ensures exists i :: 0 <= i < |hs| && Closes(hs[i], filter, leverage, r)
      {
        if r in here {
          assert Closes(hs[0], filter, leverage, r);
        } else {
          var j :| 0 <= j < |hs[1..]| && Closes(hs[1..][j], filter, leverage, r);
          assert hs[1..][j] == hs[j + 1];
        }
      }
    }
  }

  lemma {:induction false} ClosePlanComplete(hs: seq<Holding>, filter: Option<Direction>, leverage: int)
    ensures forall i :: 0 <= i < |hs| && hs[i].longAvailQty > 0 && (filter == None || filter == Some(Long)) ==>
              CloseLong(hs[i], leverage) in ClosePlan(hs, filter, leverage)
    ensures forall i :: 0 <= i < |hs| && hs[i].shortAvailQty > 0 && (filter == None || filter == Some(Short)) ==>
              CloseShort(hs[i], leverage) in ClosePlan(hs, filter, leverage)
    decreases |hs|
  {
    if hs != [] {
      ClosePlanComplete(hs[1..], filter, leverage);
      CloseOrdersShape(hs[0], filter, leverage);
      assert ClosePlan(hs, filter, leverage) == CloseOrders(hs[0], filter, leverage) + ClosePlan(hs[1..], filter, leverage);
      forall i | 0 < i < |hs| ensures hs[i] == hs[1..][i - 1] { }
    }
  }

  /** Without a filter the rebinding does no harm: as written and as intended agree. */
  lemma {:induction false} CloseAllAgreesWithoutFilter(hs: seq<Holding>, leverage: int)
    ensures CloseAllAsWritten(hs, None, leverage) == ClosePlan(hs, None, leverage)
    decreases |hs|
  {
    if hs != [] {
      CloseAllAgreesWithoutFilter(hs[1..], leverage);
    }
  }

  /** Closing only the long side of two holdings, the first long and the second short:
      the intended plan sends one order, the code as written also closes the short side
      of the second holding. */
  lemma CloseAllLosesFilter(h1: Holding, h2: Holding, leverage: int)
    requires h1.longAvailQty > 0 && h2.longAvailQty == 0 && h2.shortAvailQty > 0
    ensures ClosePlan([h1, h2], Some(Long), leverage) == [CloseLong(h1, leverage)]
    ensures CloseAllAsWritten([h1, h2], Some(Long), leverage) == [CloseLong(h1, leverage), CloseShort(h2, leverage)]
  {
    assert [h1, h2][1..] == [h2];
    assert [h2][1..] == [];
    assert CloseOrders(h1, Some(Long), leverage) == [CloseLong(h1, leverage)];
    assert CloseOrders(h2, Some(Long), leverage) == [];
    assert CloseOrders(h2, None, leverage) == [CloseShort(h2, leverage)];
    assert ClosePlan([h2], Some(Long), leverage) == [];
    assert CloseAllAsWritten([h2], None, leverage) == [CloseShort(h2, leverage)];
  }
}
