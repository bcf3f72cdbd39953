// The gateway's round-robin query scheduler (OkexGateway.query). Each
// timer event raises a countdown; once the countdown passes the trigger,
// it is reset and the next function of the query list runs, the index
// wrapping round at the end of the list.

module Scheduler {
  import opened Common

  /** qryCount and qryNextFunction. */
  datatype Clock = Clock(count: int, next: nat)

  /** The number of timer events between two queries. */
  function Period(trigger: int): (p: nat)
    ensures p >= 1
  {
    if trigger < 0 then 1 else trigger + 1
  }

  /** The index after i in a list of n functions, wrapping round to 0. */
  function Succ(i: nat, n: nat): (j: nat)
    requires i < n
    ensures j < n
    ensures j == 0 || j == i + 1
  {
    if i + 1 == n then 0 else i + 1
  }

  /** One timer event for a list of n query functions: the new clock, and the index
      of the function run, if one is. */
  function Tick(c: Clock, trigger: int, n: nat): (r: (Clock, Option<nat>))
    requires n >= 1 && c.next < n
    ensures r.0.next < n
    ensures r.1.Some? <==> c.count + 1 > trigger
    ensures r.1.Some? ==> r.1.value == c.next && r.0 == Clock(0, Succ(c.next, n))
    ensures r.1.None? ==> r.0 == Clock(c.count + 1, c.next)
  {
    var count := c.count + 1;
    if count > trigger then
      (Clock(0, Succ(c.next, n)), Some(c.next))
    else
      (Clock(count, c.next), None)
  }

  /** k timer events from clock c: the final clock and the indices run, in order. */
  function Run(c: Clock, trigger: int, n: nat, k: nat): (r: (Clock, seq<nat>))
    requires n >= 1 && c.next < n
    ensures r.0.next < n
  {
    if k == 0 then (c, [])
    else
      var prev := Run(c, trigger, n, k - 1);
      var t := Tick(prev.0, trigger, n);
      (t.0, prev.1 + if t.1.Some? then [t.1.value] else [])
  }

  /** Starting from a reset clock, after k timer events the queries run so far number
      k divided by the period (the countdown holds the remainder), the first one ran
      function 0, each later one the function after the one before, and the clock
      points at the function after the last one run. */
  lemma {:induction false} RoundRobin(trigger: int, n: nat, k: nat)
    requires n >= 1
    ensures var r := Run(Clock(0, 0), trigger, n, k);
            |r.1| * Period(trigger) + r.0.count == k &&
            0 <= r.0.count < Period(trigger) &&
            (r.1 != [] ==> r.1[0] == 0) &&
            (forall j :: 0 <= j < |r.1| ==> r.1[j] < n) &&
            (forall j :: 0 <= j && j + 1 < |r.1| ==> r.1[j + 1] == Succ(r.1[j], n)) &&
            r.0.next == (if r.1 == [] then 0 else Succ(r.1[|r.1| - 1], n))
  {
    if k > 0 {
      RoundRobin(trigger, n, k - 1);
      var p := Period(trigger);
      var prev := Run(Clock(0, 0), trigger, n, k - 1);
      var f := |prev.1|;
      if prev.0.count + 1 > trigger {
        assert prev.0.count == p - 1;
        assert (f + 1) * p == f * p + p;
      }
    }
  }

  /** With one query function, as the gateway sets it up, every run is of function 0. */
  lemma SingleFunction(trigger: int, k: nat)
    ensures forall j :: 0 <= j < |Run(Clock(0, 0), trigger, 1, k).1| ==> Run(Clock(0, 0), trigger, 1, k).1[j] == 0
  {
    RoundRobin(trigger, 1, k);
  }
}
