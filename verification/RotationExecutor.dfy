/** The executor as the source runs it: cash and coins changed in place, fills appended, day by day. */
module RotationExecutor {
  import opened Basics
  import opened RotationModel
  import opened RotationTheorems

  class Executor {
    const c: Costs
    const q: array<int>
    var cash: real
    var fills: seq<Fill>
    var entries: int
    var roundtrips: int
    var rejections: int

    /** Coins in lots, with the cash, the fills and the counters. */
    function Now(): (s: Account)
      reads this, q
      ensures |s.lots| == q.Length
    {
      Account(cash, q[..], fills, entries, roundtrips, rejections)
    }

    constructor (costs: Costs, n: nat)
      ensures c == costs && q.Length == n && Now() == Opening(costs, n) && fresh(q)
      ensures cash == costs.initial && fills == [] && forall k | 0 <= k < n :: q[k] == 0
    {
      c := costs;
      q := new int[n](_ => 0);
      cash, fills, entries, roundtrips, rejections := costs.initial, [], 0, 0, 0;
      new;
      assert q[..] == seq(n, _ => 0);
    }

    /** The inner trade: clamped to the cash or the coins, priced with slippage, and booked. */
    method TradeLots(day: nat, k: nat, buy: bool, lots: int, reference: Option<real>, capacity: Option<real>,
                     reason: Reason) returns (done: bool)
      requires k < q.Length
      modifies this, q
      ensures Now() == Trade(c, old(Now()), day, k, buy, lots, reference, capacity, reason)
      ensures done <==> Tried(c, old(cash), old(q[k]), buy, lots, reference, capacity).Filled?
    {
      hide Amount, Mul, Booked, Affordable, Cost;
      if reference.None? || reference.value <= 0.0 || TooSmall(c, lots, reference.value) {
        return false;
      }
      if capacity.None? || Amount(c, lots) > capacity.value + 0.0000000001 {
        rejections := rejections + 1;
        return false;
      }
      PositiveProduct(reference.value, if buy then 1.0 + c.slip else 1.0 - c.slip);
      var price := Price(c, buy, reference.value);
      var limit := if buy then Affordable(c, cash, price) else q[k];
      var units := if lots <= limit then lots else limit;
      if TooSmall(c, units, price) || units <= 0 {
        return false;
      }
      hide TooSmall, Price;
      Book(day, k, buy, units, reference.value, reason);
      return true;
    }

    /** Moves cash and coins by one fill, counts it and appends it. */
    method Book(day: nat, k: nat, buy: bool, units: nat, reference: real, reason: Reason)
      requires k < q.Length
      modifies this`cash, this`fills, this`entries, this`roundtrips, q
      ensures Now() == Booked(c, old(Now()), day, k, buy, units, reference, reason)
    {
      var price := Price(c, buy, reference);
      var notional := Cost(c, buy, units, reference);
      hide Amount, Mul, Price, Cost;
      var fee := notional * c.fee;
      var held := q[k];
      if buy {
        q[k] := held + units;
        cash := cash - (notional + fee);
      } else {
        q[k] := held - units;
        cash := cash + (notional - fee);
      }
      if held == 0 && q[k] > 0 { entries := entries + 1; }
      if held > 0 && q[k] == 0 { roundtrips := roundtrips + 1; }
      fills := fills + [Fill(day, k, buy, units, Amount(c, units), price, notional, fee, cash, reason)];
      assert q[..] == old(q[..])[k := q[k]];
      ghost var t := Booked(c, old(Now()), day, k, buy, units, reference, reason);
      assert t.cash == cash;
      assert t.lots == q[..];
      assert t.fills == fills;
    }

    /** First every sale, then every purchase, toward the desired lots. */
    method Rebalance(day: nat, open: seq<Option<real>>, desired: seq<int>, cap: seq<Option<real>>)
      requires q.Length == |open| == |desired| == |cap|
      modifies this, q
      ensures Now() == Rebalanced(c, old(Now()), day, open, desired, cap)
    {
      hide Trade;
      for k := 0 to |open|
        invariant Now() == Sells(c, old(Now()), day, open, desired, cap, k)
      {
        if desired[k] < q[k] {
          var _ := TradeLots(day, k, false, q[k] - desired[k], open[k], cap[k], Reason.Rebalance);
        }
      }
      ghost var sold := Now();
      for k := 0 to |open|
        invariant Now() == Buys(c, sold, day, open, desired, cap, k)
      {
        if desired[k] > q[k] {
          var _ := TradeLots(day, k, true, desired[k] - q[k], open[k], cap[k], Reason.Rebalance);
        }
      }
    }

    /** The last close: everything still held is offered for sale. */
    method Finish(day: nat, close: seq<Option<real>>, cap: seq<Option<real>>)
      requires q.Length == |close| == |cap|
      modifies this, q
      ensures Now() == Finals(c, old(Now()), day, close, cap, |close|)
    {
      hide Trade;
      for k := 0 to |close|
        invariant Now() == Finals(c, old(Now()), day, close, cap, k)
      {
        if q[k] > 0 {
          var _ := TradeLots(day, k, false, q[k], close[k], cap[k], PeriodEnd);
        }
      }
    }

    /** The day loop; the run ends sound and its fills replay to this very account. */
    method Simulate(plan: Plan, days: seq<Day>, targets: seq<seq<real>>) returns (equity: Option<real>)
      requires Ready(plan, days, targets, q.Length) && Now() == Opening(c, q.Length)
      modifies this, q
      ensures Now() == Through(c, plan, days, targets, q.Length, plan.last) && Sound(c, Now())
      ensures equity == MarkedEquity(c, Now(), days[plan.last - 1].close)
    {
      hide Rebalanced, Finals, Desired, Capacities, FinalCapacities, Wealth, Missing, Worth, Sound, MarkedEquity;
      var n := q.Length;
      for i := plan.first to plan.last
        invariant Now() == Through(c, plan, days, targets, n, i)
      {
        var wealth := Wealth(c, Now(), days[i].open);
        var j := i - 2 - c.extraDelay;
        if Scheduled(plan, days, i) && j >= 0 && wealth.Some? && !Missing(Now(), days[i]) && i < plan.last - 1 {
          Rebalance(i, days[i].open, Desired(c, wealth.value, targets[j], days[i].open), Capacities(c, days, i, n));
        }
        if i == plan.last - 1 {
          Finish(i, days[i].close, FinalCapacities(c, days, i, n));
        }
      }
      EveryDaySound(c, plan, days, targets, n, plan.last);
      equity := MarkedEquity(c, Now(), days[plan.last - 1].close);
    }
  }

  /** inspect_ledger: replays the fills and passes exactly when every assertion of the replay holds. */
  method InspectLedger(c: Costs, n: nat, fills: seq<Fill>, close: seq<Option<real>>, equity: real) returns (passed: bool)
    requires |close| == n
    ensures passed <==> LedgerHolds(c, n, fills, close, equity)
  {
    hide Worth, Mul;
    var cash := c.initial;
    var units: seq<int> := seq(n, _ => 0);
    for m := 0 to |fills|
      invariant Replayed(c, n, fills[..m]) == Ledger(cash, units)
      invariant forall j | 0 <= j <= m :: Accepts(c, n, fills[..j])
    {
      var f := fills[m];
      assert fills[..m + 1][..m] == fills[..m];
      if f.asset >= n {
        assert !Accepts(c, n, fills[..m + 1]);
        return false;
      }
      var lots := if f.buy then units[f.asset] + f.lots else units[f.asset] - f.lots;
      units := units[f.asset := lots];
      cash := if f.buy then cash - Mul(f.quantity, f.price) - f.fee else cash + Mul(f.quantity, f.price) - f.fee;
      if cash < -0.00001 || (exists k | 0 <= k < n :: units[k] < 0) || cash != f.cashAfter {
        assert !Accepts(c, n, fills[..m + 1]);
        return false;
      }
    }
    assert fills[..|fills|] == fills;
    var worth := Worth(c, units, close, n);
    passed := worth.Some? && cash + worth.value * (1.0 - c.slip) * (1.0 - c.fee) == equity;
  }
}
