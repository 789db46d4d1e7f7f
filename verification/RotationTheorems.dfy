/** No borrowing, an exact ledger, a buffer that always pays, and no look-ahead. */
module RotationTheorems {
  import opened Basics
  import opened RotationModel

  // ---------------------------------------------------------------- replay

  datatype Ledger = Ledger(cash: real, lots: seq<int>)

  /** inspect_ledger's own arithmetic: quantity times price, fee, and lots, from the fills alone. */
  function Replayed(c: Costs, n: nat, fills: seq<Fill>): (l: Ledger)
    ensures |l.lots| == n
  {
    if fills == [] then Ledger(c.initial, seq(n, _ => 0))
    else
      var l := Replayed(c, n, fills[..|fills| - 1]);
      var f := fills[|fills| - 1];
      if f.asset >= n then l
      else
        var cash := if f.buy then l.cash - Mul(f.quantity, f.price) - f.fee else l.cash + Mul(f.quantity, f.price) - f.fee;
        Ledger(cash, l.lots[f.asset := if f.buy then l.lots[f.asset] + f.lots else l.lots[f.asset] - f.lots])
  }

  /** What the replay asserts after the last of these fills. */
  ghost predicate Accepts(c: Costs, n: nat, fills: seq<Fill>) {
    fills == [] ||
    var l, f := Replayed(c, n, fills), fills[|fills| - 1];
    f.asset < n && l.cash >= -0.00001 && l.cash == f.cashAfter && forall k | 0 <= k < n :: l.lots[k] >= 0
  }

  /** Exactly when the replay passes: every prefix is accepted and the marked remainder is the reported equity. */
  ghost predicate LedgerHolds(c: Costs, n: nat, fills: seq<Fill>, close: seq<Option<real>>, equity: real)
    requires |close| == n
  {
    && (forall m | 0 <= m <= |fills| :: Accepts(c, n, fills[..m]))
    && var l := Replayed(c, n, fills);
       var worth := Worth(c, l.lots, close, n);
       worth.Some? && l.cash + worth.value * (1.0 - c.slip) * (1.0 - c.fee) == equity
  }

  function HeldCount(lots: seq<int>): nat {
    if lots == [] then 0 else HeldCount(lots[..|lots| - 1]) + if lots[|lots| - 1] > 0 then 1 else 0
  }

  lemma {:induction false} HeldUpdate(lots: seq<int>, k: nat, v: int)
    requires k < |lots|
    ensures HeldCount(lots[k := v])
         == HeldCount(lots) - (if lots[k] > 0 then 1 else 0) + if v > 0 then 1 else 0
  {
    var m := |lots| - 1;
    if k == m {
      assert lots[k := v][..m] == lots[..m];
    } else {
      HeldUpdate(lots[..m], k, v);
      assert lots[k := v][..m] == lots[..m][k := v];
    }
  }

  lemma {:induction false} NothingHeld(n: nat)
    ensures HeldCount(seq(n, _ => 0)) == 0
  {
    var lots: seq<int> := seq(n, _ => 0);
    if n > 0 {
      NothingHeld(n - 1);
      assert lots[..n - 1] == seq(n - 1, _ => 0);
    }
  }

  // ---------------------------------------------------------------- invariant

  /** No borrowing or shorting, counters that count holdings, and fills that replay to this very account. */
  ghost predicate Sound(c: Costs, s: Account) {
    && s.cash >= 0.0
    && (forall k | 0 <= k < |s.lots| :: s.lots[k] >= 0)
    && s.entries - s.roundtrips == HeldCount(s.lots)
    && Replayed(c, |s.lots|, s.fills) == Ledger(s.cash, s.lots)
    && (forall m | 0 <= m <= |s.fills| :: Accepts(c, |s.lots|, s.fills[..m]))
  }

  lemma OpeningSound(c: Costs, n: nat)
    ensures Sound(c, Opening(c, n))
  {
    NothingHeld(n);
  }

  lemma FloorScale(x: real, step: Positive, lots: int)
    requires lots <= (x / step).Floor
    ensures Times(lots, step) <= x
  {
    MulMono(lots as real, x / step, step);
    assert (x / step) * step == x;
  }

  /** A buy within the affordable lots never costs more than the cash. */
  lemma AffordableCovers(c: Costs, cash: real, reference: Positive, lots: int)
    requires Price(c, true, reference) > 0.0 && 0 < lots <= Affordable(c, cash, Price(c, true, reference))
    ensures var notional := Cost(c, true, lots, reference); notional >= 0.0 && notional + notional * c.fee <= cash
  {
    hide Mul, Price, WithFee, Amount;
    var price := Price(c, true, reference);
    LotsWithin(cash, WithFee(c, price), c.step, lots);
    WithFeeCosts(c, Amount(c, lots), price);
    AmountPositive(c, lots);
    MulPositive(Amount(c, lots), price);
  }

  lemma AmountPositive(c: Costs, lots: int)
    requires lots > 0
    ensures Amount(c, lots) > 0.0 && Amount(c, lots) == Times(lots, c.step)
  {
    PositiveProduct(lots as real, c.step);
  }

  lemma WithFeeCosts(c: Costs, amount: real, price: Positive)
    ensures Mul(amount, price) + Mul(amount, price) * c.fee == Mul(amount, WithFee(c, price))
  {
    Distribute(1.0, c.fee, amount * price);
  }

  lemma LotsWithin(cash: real, unit: Positive, step: Positive, lots: int)
    requires lots <= (cash / unit / step).Floor
    ensures Mul(Times(lots, step), unit) <= cash
  {
    FloorScale(cash / unit, step, lots);
    QuotientFits(Times(lots, step), cash, unit);
  }

  lemma SaleCredits(c: Costs, reference: Positive, lots: nat)
    ensures var notional := Cost(c, false, lots, reference); notional - notional * c.fee >= 0.0
  {
    var price := Price(c, false, reference);
    PositiveProduct(reference, 1.0 - c.slip);
    MulMono(0.0, lots as real, c.step);
    MulMono(0.0, Amount(c, lots), price);
    var notional := Cost(c, false, lots, reference);
    MulMono(c.fee, 1.0, notional);
  }

  lemma AcceptsGrow(c: Costs, n: nat, fills: seq<Fill>, f: Fill)
    requires forall m | 0 <= m <= |fills| :: Accepts(c, n, fills[..m])
    requires Accepts(c, n, fills + [f])
    ensures forall m | 0 <= m <= |fills| + 1 :: Accepts(c, n, (fills + [f])[..m])
  {
    forall m | 0 <= m <= |fills| + 1
      ensures Accepts(c, n, (fills + [f])[..m])
    {
      if m <= |fills| {
        assert (fills + [f])[..m] == fills[..m];
      } else {
        assert (fills + [f])[..m] == fills + [f];
      }
    }
  }

  /** The cash after a trade, by what the attempt came to. */
  lemma TradeCash(c: Costs, s: Account, day: nat, k: nat, buy: bool, lots: int, reference: Option<real>,
                  capacity: Option<real>, reason: Reason)
    requires k < |s.lots| && s.cash >= 0.0 && s.lots[k] >= 0
    ensures var t := Trade(c, s, day, k, buy, lots, reference, capacity, reason);
            && t.cash >= 0.0 && t.lots[k] >= 0 && t.lots == s.lots[k := t.lots[k]]
  {
    hide TooSmall, Cost, Affordable, Amount;
    var attempt := Tried(c, s.cash, s.lots[k], buy, lots, reference, capacity);
    if attempt.Filled? {
      if buy {
        PositiveProduct(reference.value, 1.0 + c.slip);
        AffordableCovers(c, s.cash, reference.value, attempt.lots);
      } else {
        SaleCredits(c, reference.value, attempt.lots);
      }
    }
  }

  /** One fill replays to exactly the account it leaves. */
  lemma BookedReplays(c: Costs, s: Account, day: nat, k: nat, buy: bool, units: nat, reference: real, reason: Reason)
    requires k < |s.lots| && Replayed(c, |s.lots|, s.fills) == Ledger(s.cash, s.lots)
    ensures var t := Booked(c, s, day, k, buy, units, reference, reason);
            && t.fills == s.fills + [t.fills[|s.fills|]] && t.fills[|s.fills|].asset == k
            && t.fills[|s.fills|].cashAfter == t.cash
            && Replayed(c, |s.lots|, t.fills) == Ledger(t.cash, t.lots)
  {
    hide Amount, Price;
    var t := Booked(c, s, day, k, buy, units, reference, reason);
    assert t.fills[..|t.fills| - 1] == s.fills;
  }

  lemma TradeSound(c: Costs, s: Account, day: nat, k: nat, buy: bool, lots: int, reference: Option<real>,
                   capacity: Option<real>, reason: Reason)
    requires k < |s.lots| && Sound(c, s)
    ensures Sound(c, Trade(c, s, day, k, buy, lots, reference, capacity, reason))
  {
    hide Price, Amount, Cost, HeldCount, Replayed, TooSmall, Affordable;
    TradeCash(c, s, day, k, buy, lots, reference, capacity, reason);
    var t := Trade(c, s, day, k, buy, lots, reference, capacity, reason);
    HeldUpdate(s.lots, k, t.lots[k]);
    var attempt := Tried(c, s.cash, s.lots[k], buy, lots, reference, capacity);
    if attempt.Filled? {
      BookedReplays(c, s, day, k, buy, attempt.lots, reference.value, reason);
      assert Accepts(c, |s.lots|, t.fills);
      AcceptsGrow(c, |s.lots|, s.fills, t.fills[|s.fills|]);
    }
    hide Accepts;
  }

  lemma {:induction false} SellsSound(c: Costs, s: Account, day: nat, open: seq<Option<real>>, desired: seq<int>,
                                      cap: seq<Option<real>>, k: nat)
    requires k <= |s.lots| == |open| == |desired| == |cap| && Sound(c, s)
    ensures Sound(c, Sells(c, s, day, open, desired, cap, k))
  {
    hide Sound, Trade;
    if k > 0 {
      SellsSound(c, s, day, open, desired, cap, k - 1);
      var t := Sells(c, s, day, open, desired, cap, k - 1);
      TradeSound(c, t, day, k - 1, false, t.lots[k - 1] - desired[k - 1], open[k - 1], cap[k - 1], Rebalance);
    }
  }

  lemma {:induction false} BuysSound(c: Costs, s: Account, day: nat, open: seq<Option<real>>, desired: seq<int>,
                                     cap: seq<Option<real>>, k: nat)
    requires k <= |s.lots| == |open| == |desired| == |cap| && Sound(c, s)
    ensures Sound(c, Buys(c, s, day, open, desired, cap, k))
  {
    hide Sound, Trade;
    if k > 0 {
      BuysSound(c, s, day, open, desired, cap, k - 1);
      var t := Buys(c, s, day, open, desired, cap, k - 1);
      TradeSound(c, t, day, k - 1, true, desired[k - 1] - t.lots[k - 1], open[k - 1], cap[k - 1], Rebalance);
    }
  }

  lemma {:induction false} FinalsSound(c: Costs, s: Account, day: nat, close: seq<Option<real>>, cap: seq<Option<real>>,
                                       k: nat)
    requires k <= |s.lots| == |close| == |cap| && Sound(c, s)
    ensures Sound(c, Finals(c, s, day, close, cap, k))
  {
    hide Sound, Trade;
    if k > 0 {
      FinalsSound(c, s, day, close, cap, k - 1);
      var t := Finals(c, s, day, close, cap, k - 1);
      TradeSound(c, t, day, k - 1, false, t.lots[k - 1], close[k - 1], cap[k - 1], PeriodEnd);
    }
  }

  lemma MorningSound(c: Costs, plan: Plan, days: seq<Day>, targets: seq<seq<real>>, n: nat, s: Account, i: nat)
    requires Ready(plan, days, targets, n) && i < plan.last && |s.lots| == n && Sound(c, s)
    ensures Sound(c, Morning(c, plan, days, targets, n, s, i))
  {
    hide Sound, Sells, Buys, DesiredLots;
    var j := i - 2 - c.extraDelay;
    var wealth := Wealth(c, s, days[i].open);
    if j >= 0 && wealth.Some? {
      var desired := Desired(c, wealth.value, targets[j], days[i].open);
      var cap := Capacities(c, days, i, n);
      SellsSound(c, s, i, days[i].open, desired, cap, n);
      BuysSound(c, Sells(c, s, i, days[i].open, desired, cap, n), i, days[i].open, desired, cap, n);
    }
    hide Desired, Capacities, Wealth, Missing;
  }

  /** In every run, after every day: no borrowing, no shorting, true counters, and a ledger that replays. */
  lemma {:induction false} EveryDaySound(c: Costs, plan: Plan, days: seq<Day>, targets: seq<seq<real>>, n: nat, i: nat)
    requires Ready(plan, days, targets, n) && plan.first <= i <= plan.last
    ensures Sound(c, Through(c, plan, days, targets, n, i))
    decreases i
  {
    hide Sound, Morning, Finals, FinalCapacities;
    if i == plan.first {
      OpeningSound(c, n);
    } else {
      EveryDaySound(c, plan, days, targets, n, i - 1);
      var s := Through(c, plan, days, targets, n, i - 1);
      MorningSound(c, plan, days, targets, n, s, i - 1);
      var m := Morning(c, plan, days, targets, n, s, i - 1);
      FinalsSound(c, m, i - 1, days[i - 1].close, FinalCapacities(c, days, i - 1, n), n);
    }
  }

  /** The independent replay accepts the finished run: every cash_after, the coins and the final equity. */
  lemma ReplayAcceptsRun(c: Costs, plan: Plan, days: seq<Day>, targets: seq<seq<real>>, n: nat)
    requires Ready(plan, days, targets, n)
    ensures var s := Through(c, plan, days, targets, n, plan.last);
            var close := days[plan.last - 1].close;
            && Replayed(c, n, s.fills) == Ledger(s.cash, s.lots)
            && (MarkedEquity(c, s, close).Some? ==>
                  LedgerHolds(c, n, s.fills, close, MarkedEquity(c, s, close).value))
  {
    hide Through, Accepts, Replayed, HeldCount, Worth;
    EveryDaySound(c, plan, days, targets, n, plan.last);
  }

  /**
   On the very first row the closing sale would read its capacities from the last row, but nothing was bought
   before it, so nothing is sold.
   */
  lemma FirstRowSellsNothing(c: Costs, plan: Plan, days: seq<Day>, targets: seq<seq<real>>, n: nat)
    requires Ready(plan, days, targets, n) && plan.first == 0
    ensures var s := Morning(c, plan, days, targets, n, Opening(c, n), 0);
            DayEnd(c, plan, days, targets, n, s, 0) == Opening(c, n)
  {
    FlatSellsNothing(c, Opening(c, n), 0, days[0].close, FinalCapacities(c, days, 0, n), n);
    hide Finals;
  }

  lemma {:induction false} FlatSellsNothing(c: Costs, s: Account, day: nat, close: seq<Option<real>>,
                                            cap: seq<Option<real>>, k: nat)
    requires k <= |s.lots| == |close| == |cap| && forall j | 0 <= j < |s.lots| :: s.lots[j] == 0
    ensures Finals(c, s, day, close, cap, k) == s
  {
    hide Trade;
    if k > 0 {
      FlatSellsNothing(c, s, day, close, cap, k - 1);
    }
  }
}
