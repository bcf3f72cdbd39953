// Fill-delta synthesis. Every order update, whether polled over REST or
// pushed over the WebSocket, carries the order's cumulative filled
// quantity. The gateway keeps the last one it saw as the record's traded
// volume. The difference between the new and the old quantity is this
// update's traded volume, and a trade with the next trade number is
// synthesised whenever that difference is not zero.

module Fills {
  import opened Common

  /** Outcome of one update for one record: the new traded volume, the new trade
      counter, and the volume of the trade synthesised, if any. */
  datatype FillResult = FillResult(traded: int, tradeID: nat, emitted: Option<int>)

  /** One update whose cumulative filled quantity is `filled`. */
  function Fill(traded: int, tradeID: nat, filled: int): (r: FillResult)
    ensures r.traded == filled
    ensures r.emitted.Some? <==> filled != traded
    ensures r.emitted.Some? ==> r.emitted.value == filled - traded && r.tradeID == tradeID + 1
    ensures r.emitted.None? ==> r.tradeID == tradeID
  {
    var delta := filled - traded;
    if delta != 0 then FillResult(filled, tradeID + 1, Some(delta)) else FillResult(filled, tradeID, None)
  }

  /** The volumes of the trades synthesised for successive snapshots `fills` of one
      order whose record starts at traded volume `start`. */
  function EmittedVolumes(start: int, fills: seq<int>): (vs: seq<int>)
    ensures |vs| <= |fills|
    decreases |fills|
  {
    if fills == [] then []
    else
      var r := Fill(start, 0, fills[0]);
      (if r.emitted.Some? then [r.emitted.value] else []) + EmittedVolumes(fills[0], fills[1..])
  }

  function Sum(xs: seq<int>): int
    decreases |xs|
  {
    if xs == [] then 0 else xs[0] + Sum(xs[1..])
  }

  /** Where the last snapshot left the record's traded volume. */
  function LastFilled(start: int, fills: seq<int>): int
  {
    if fills == [] then start else fills[|fills| - 1]
  }

  /** Fills are counted exactly once: the synthesised volumes add up to the
      difference between the last snapshot and the starting traded volume. */
  lemma {:induction false} EmittedSum(start: int, fills: seq<int>)
    ensures Sum(EmittedVolumes(start, fills)) == LastFilled(start, fills) - start
    decreases |fills|
  {
    if fills != [] {
      EmittedSum(fills[0], fills[1..]);
      var head := if fills[0] != start then [fills[0] - start] else [];
      SumConcat(head, EmittedVolumes(fills[0], fills[1..]));
      if |fills| > 1 {
        assert fills[1..][|fills[1..]| - 1] == fills[|fills| - 1];
      }
    }
  }

  lemma {:induction false} SumConcat(a: seq<int>, b: seq<int>)
    ensures Sum(a + b) == Sum(a) + Sum(b)
    decreases |a|
  {
    if a != [] {
      SumConcat(a[1..], b);
      assert (a + b)[0] == a[0] && (a + b)[1..] == a[1..] + b;
    } else {
      assert a + b == b;
    }
  }

  /** A record that starts from zero reports the whole last filled quantity. */
  lemma FromZero(fills: seq<int>)
    requires fills != []
    ensures Sum(EmittedVolumes(0, fills)) == fills[|fills| - 1]
  {
    EmittedSum(0, fills);
  }

  predicate NonDecreasingFrom(start: int, fills: seq<int>)
  {
    (fills != [] ==> start <= fills[0]) &&
    forall i :: 0 < i < |fills| ==> fills[i - 1] <= fills[i]
  }

  /** When the exchange's cumulative quantity never goes down, every synthesised trade has a positive volume. */
  lemma {:induction false} EmittedPositive(start: int, fills: seq<int>)
    requires NonDecreasingFrom(start, fills)
    ensures forall i :: 0 <= i < |EmittedVolumes(start, fills)| ==> EmittedVolumes(start, fills)[i] > 0
    decreases |fills|
  {
    if fills != [] {
      assert NonDecreasingFrom(fills[0], fills[1..]) by {
        forall i | 0 < i < |fills[1..]| ensures fills[1..][i - 1] <= fills[1..][i] {
          assert fills[1..][i - 1] == fills[i] && fills[1..][i] == fills[i + 1];
        }
      }
      EmittedPositive(fills[0], fills[1..]);
    }
  }

  /** A repeated snapshot synthesises nothing. */
  lemma RepeatedSnapshotIsSilent(traded: int, tradeID: nat)
    ensures Fill(traded, tradeID, traded) == FillResult(traded, tradeID, None)
  {
  }

  // -----------------------------------------------------------------------
  // The futures REST poll as written: the price of the synthesised trade is
  // read from the response dictionary, which holds only 'result' and
  // 'order_info', instead of from the order item. The KeyError comes after
  // the record's traded volume is overwritten and the trade counter is
  // bumped, and before the trade is published.

  datatype PollResult = PollResult(fill: FillResult, published: bool, raised: bool)

  /** One polled item for an existing record; `responseHasPriceAvg` says whether the
      response dictionary itself has a 'price_avg' key. */
  function PollFillAsWritten(traded: int, tradeID: nat, filled: int, responseHasPriceAvg: bool): (r: PollResult)
    ensures r.fill.traded == filled
    ensures r.raised <==> filled != traded && !responseHasPriceAvg
    ensures r.published <==> filled != traded && responseHasPriceAvg
  {
    var f := Fill(traded, tradeID, filled);
    if f.emitted.Some? && !responseHasPriceAvg then PollResult(f, false, true)
    else PollResult(f, f.emitted.Some?, false)
  }

  /** The poll as written loses a fill for good: the first poll that sees it raises
      without publishing a trade, yet leaves the traded volume at the new quantity and
      the trade counter one higher, so the next poll of the same quantity finds no
      difference and publishes nothing either. */
  lemma PollLosesFill(traded: int, tradeID: nat, filled: int)
    requires filled != traded
    ensures var first := PollFillAsWritten(traded, tradeID, filled, false);
            first.raised && !first.published &&
            first.fill.traded == filled && first.fill.tradeID == tradeID + 1 &&
            var second := PollFillAsWritten(first.fill.traded, first.fill.tradeID, filled, false);
            !second.raised && !second.published && second.fill.emitted.None?
  {
  }

  /** The corrected poll reads the item's own price and publishes every nonzero difference. */
  function PollFill(traded: int, tradeID: nat, filled: int): (r: PollResult)
    ensures r.fill == Fill(traded, tradeID, filled)
    ensures !r.raised
    ensures r.published <==> filled != traded
  {
    var f := Fill(traded, tradeID, filled);
    PollResult(f, f.emitted.Some?, false)
  }

  /** Volumes published by successive corrected polls of one order. */
  function PolledVolumes(start: int, fills: seq<int>): seq<int>
    decreases |fills|
  {
    if fills == [] then []
    else
      var r := PollFill(start, 0, fills[0]);
      (if r.published then [r.fill.emitted.value] else []) + PolledVolumes(fills[0], fills[1..])
  }

  /** With the correction, the published volumes are the synthesised ones, so they add
      up to the last polled quantity. */
  lemma {:induction false} PolledVolumesAddUp(start: int, fills: seq<int>)
    ensures PolledVolumes(start, fills) == EmittedVolumes(start, fills)
    ensures Sum(PolledVolumes(start, fills)) == LastFilled(start, fills) - start
    decreases |fills|
  {
    if fills != [] {
      PolledVolumesAddUp(fills[0], fills[1..]);
    }
    EmittedSum(start, fills);
  }
}
