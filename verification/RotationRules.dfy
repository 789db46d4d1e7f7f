/** What the spot executor asks, fills and books, in terms of quotes, volumes and cash. */
module RotationRules {
  import opened Basics
  import opened RotationModel

  /** A usable reference price. */
  predicate Quoted(reference: Option<real>) {
    reference.Some? && reference.value > 0.0
  }

  /** A purchase pays the slippage on top of its reference, a sale gives it up. */
  function PaidPrice(c: Costs, buy: bool, reference: real): real {
    if buy then reference * (1.0 + c.slip) else reference * (1.0 - c.slip)
  }

  /** Lots at a price, before fees. */
  function Notional(c: Costs, lots: int, price: real): real {
    Mul(Times(lots, c.step), price)
  }

  /** A purchase of these lots can be paid, fee included. */
  predicate Payable(c: Costs, cash: real, lots: int, price: real) {
    Mul(Notional(c, lots, price), 1.0 + c.fee) <= cash
  }

  /** Asked for at least the minimum value at a usable price. */
  predicate Sizeable(c: Costs, lots: int, reference: Option<real>) {
    Quoted(reference) && Notional(c, lots, reference.value) >= c.minimum
  }

  predicate WithinCapacity(c: Costs, lots: int, capacity: Option<real>) {
    capacity.Some? && Times(lots, c.step) <= capacity.value + 0.0000000001
  }

  lemma FloorFits(x: real, step: Positive, n: int)
    ensures n <= (x / step).Floor <==> Times(n, step) <= x
  {
    QuotientOrder(n as real, x, step);
    assert n <= (x / step).Floor <==> n as real <= x / step;
  }

  lemma PayableExactly(c: Costs, cash: real, lots: int, price: Positive)
    ensures lots <= Affordable(c, cash, price) <==> Payable(c, cash, lots, price)
  {
    var unit := WithFee(c, price);
    FloorFits(cash / unit, c.step, lots);
    QuotientOrder(Times(lots, c.step), cash, unit);
    Regroup(Times(lots, c.step), price, 1.0 + c.fee);
    hide Mul, WithFee;
    assert WithFee(c, price) == price * (1.0 + c.fee) by { WithFeeIs(c, price); }
  }

  lemma WithFeeIs(c: Costs, price: Positive)
    ensures WithFee(c, price) == price * (1.0 + c.fee)
  {
  }

  lemma Regroup(x: real, y: real, z: real)
    ensures Mul(Mul(x, y), z) == x * (y * z)
  {
  }

  lemma MoreIsDearer(c: Costs, m: int, n: int, price: Positive)
    requires m <= n
    ensures Notional(c, m, price) <= Notional(c, n, price)
  {
    MoreSteps(m, n, c.step);
    MulMono(Times(m, c.step), Times(n, c.step), price);
  }

  lemma PriceIs(c: Costs, buy: bool, reference: real)
    ensures Price(c, buy, reference) == PaidPrice(c, buy, reference)
    ensures reference > 0.0 ==> PaidPrice(c, buy, reference) > 0.0
  {
    if reference > 0.0 {
      PositiveProduct(reference, if buy then 1.0 + c.slip else 1.0 - c.slip);
    }
  }

  /**
   A request of a usable price and enough value is refused exactly beyond its capacity. Within it, it is filled with
   the most lots that are asked for and payable (or held), unless even those are worth less than the minimum.
   */
  lemma TriedExactly(c: Costs, cash: real, held: int, buy: bool, lots: int, reference: Option<real>,
                     capacity: Option<real>, u: int)
    ensures var t := Tried(c, cash, held, buy, lots, reference, capacity);
            && (t.Refused? <==> Sizeable(c, lots, reference) && !WithinCapacity(c, lots, capacity))
            && (t.Filled? ==> Sizeable(c, lots, reference) && WithinCapacity(c, lots, capacity))
            && (t.Filled? ==>
                  var price := PaidPrice(c, buy, reference.value);
                  && 1 <= t.lots <= lots && Notional(c, t.lots, price) >= c.minimum
                  && (if buy then Payable(c, cash, t.lots, price) else t.lots <= held)
                  && (1 <= u <= lots && (if buy then Payable(c, cash, u, price) else u <= held) ==> u <= t.lots))
            && (t.Skipped? && Sizeable(c, lots, reference) && 1 <= u <= lots ==>
                  var price := PaidPrice(c, buy, reference.value);
                  (if buy then Payable(c, cash, u, price) else u <= held) ==> Notional(c, u, price) < c.minimum)
  {
    hide Affordable, Payable, Price, PaidPrice, Times, Mul;
    if Quoted(reference) {
      PriceIs(c, buy, reference.value);
      var price := PaidPrice(c, buy, reference.value);
      PayableExactly(c, cash, u, price);
      PayableExactly(c, cash, lots, price);
      PayableExactly(c, cash, Affordable(c, cash, price), price);
      var limit := if buy then Affordable(c, cash, price) else held;
      var units := if lots <= limit then lots else limit;
      if u <= units {
        MoreIsDearer(c, u, units, price);
      }
    }
  }

  /** The row and the account of a fill: price with slippage, fee on its value, cash and lots to match. */
  lemma BookedExactly(c: Costs, s: Account, day: nat, k: nat, buy: bool, units: nat, reference: real, reason: Reason)
    requires k < |s.lots|
    ensures var t := Booked(c, s, day, k, buy, units, reference, reason);
            && |t.fills| == |s.fills| + 1 && t.fills[..|s.fills|] == s.fills && t.rejections == s.rejections
            && var f := t.fills[|s.fills|];
               && f.day == day && f.asset == k && f.buy == buy && f.lots == units && f.reason == reason
               && f.price == PaidPrice(c, buy, reference) && f.quantity == Times(units, c.step)
               && f.notional == Mul(f.quantity, f.price) && f.fee == f.notional * c.fee && f.cashAfter == t.cash
               && t.cash == s.cash - f.fee + (if buy then -f.notional else f.notional)
               && t.lots == s.lots[k := if buy then s.lots[k] + units else s.lots[k] - units]
  {
    PriceIs(c, buy, reference);
    hide Mul, Times, Price, PaidPrice;
  }

  // ---------------------------------------------------------------- what is asked

  /**
   The desired lots are the most whose cost with slippage and fee fits the asset's weight of the allocated wealth,
   four thousandths kept back; none without a usable open.
   */
  lemma DesiredExactly(c: Costs, wealth: real, weight: real, open: Option<real>, n: int)
    ensures var d := DesiredLots(c, wealth, weight, open);
            if Quoted(open) then
              n <= d <==> n as real * (open.value * (1.0 + c.slip) * (1.0 + c.fee) * c.step)
                          <= Mul(wealth * c.allocation * 0.996, weight)
            else d == 0
  {
    if Quoted(open) {
      FloorFits(Mul(Budget(c, wealth), weight), LotCost(c, open.value), n);
      LotCostIs(c, open.value);
      hide LotCost, Mul, Budget;
      assert Budget(c, wealth) == wealth * c.allocation * 0.996 by { BudgetIs(c, wealth); }
    }
  }

  lemma LotCostIs(c: Costs, open: Positive)
    ensures LotCost(c, open) == open * (1.0 + c.slip) * (1.0 + c.fee) * c.step
  {
  }

  lemma BudgetIs(c: Costs, wealth: real)
    ensures Budget(c, wealth) == wealth * c.allocation * 0.996
  {
  }

  /** A scheduled day, its targets known, every held asset quoted all day, the last day excluded. */
  predicate Due(c: Costs, plan: Plan, days: seq<Day>, targets: seq<seq<real>>, n: nat, s: Account, i: nat)
    requires Ready(plan, days, targets, n) && i < plan.last && |s.lots| == n
  {
    && (i == plan.first || (!plan.holdOnly && days[i].calendar % plan.every == 0))
    && i >= 2 + c.extraDelay && i + 1 < plan.last
    && forall k | 0 <= k < n && s.lots[k] > 0 ::
         days[i].open[k].Some? && days[i].low[k].Some? && days[i].close[k].Some?
  }

  lemma {:induction false} WorthKnown(c: Costs, lots: seq<int>, prices: seq<Option<real>>, k: nat)
    requires k <= |lots| == |prices|
    ensures Worth(c, lots, prices, k).Some? <==> forall j | 0 <= j < k && lots[j] > 0 :: prices[j].Some?
  {
    if k > 0 {
      WorthKnown(c, lots, prices, k - 1);
    }
  }

  /** Exactly on due days the account is rebalanced, to the targets of two days and the delay before. */
  lemma RebalancesWhenDue(c: Costs, plan: Plan, days: seq<Day>, targets: seq<seq<real>>, n: nat, s: Account, i: nat)
    requires Ready(plan, days, targets, n) && i < plan.last && |s.lots| == n
    ensures var t := Morning(c, plan, days, targets, n, s, i);
            if Due(c, plan, days, targets, n, s, i) then
              var wealth := Wealth(c, s, days[i].open);
              && wealth.Some?
              && t == Rebalanced(c, s, i, days[i].open,
                                 Desired(c, wealth.value, targets[i - 2 - c.extraDelay], days[i].open),
                                 Capacities(c, days, i, n))
            else t == s
  {
    hide Rebalanced, Desired, Worth, Capacities;
    WorthKnown(c, s.lots, days[i].open, n);
  }

  // ---------------------------------------------------------------- capacity

  /** A fill within the participation in the volume of the day before; the final sale's first row looks at the last. */
  predicate WithinVolume(c: Costs, days: seq<Day>, n: nat, f: Fill)
    requires forall j | 0 <= j < |days| :: |days[j].volume| == n
  {
    f.day < |days| && f.asset < n
    && if f.day == 0 && f.reason.Rebalance? then f.quantity <= 0.0000000001
       else
         var volume := days[if f.day == 0 then |days| - 1 else f.day - 1].volume[f.asset];
         volume.Some? && f.quantity <= volume.value * c.participation + 0.0000000001
  }

  ghost predicate AllWithin(c: Costs, days: seq<Day>, n: nat, fills: seq<Fill>)
    requires forall j | 0 <= j < |days| :: |days[j].volume| == n
  {
    forall m | 0 <= m < |fills| :: WithinVolume(c, days, n, fills[m])
  }

  /** A trade adds at most one fill, and that within its capacity. */
  lemma TradeWithin(c: Costs, s: Account, day: nat, k: nat, buy: bool, lots: int, reference: Option<real>,
                    capacity: Option<real>, reason: Reason)
    requires k < |s.lots|
    ensures var t := Trade(c, s, day, k, buy, lots, reference, capacity, reason);
            t.fills != s.fills ==>
              && |t.fills| == |s.fills| + 1 && t.fills[..|s.fills|] == s.fills && capacity.Some?
              && var f := t.fills[|s.fills|];
                 f.day == day && f.asset == k && f.reason == reason && f.quantity <= capacity.value + 0.0000000001
  {
    hide Tried, Booked, Times;
    var attempt := Tried(c, s.cash, s.lots[k], buy, lots, reference, capacity);
    TriedExactly(c, s.cash, s.lots[k], buy, lots, reference, capacity, 0);
    if attempt.Filled? {
      BookedExactly(c, s, day, k, buy, attempt.lots, reference.value, reason);
      MoreSteps(attempt.lots, lots, c.step);
    }
  }

  /** The capacity at hand is the one the volumes allow. */
  lemma CapacityAllows(c: Costs, days: seq<Day>, n: nat, f: Fill, i: nat, final: bool)
    requires i < |days| && forall j | 0 <= j < |days| :: |days[j].volume| == n
    requires f.day == i && f.asset < n && f.reason.PeriodEnd? == final
    requires var cap := (if final then FinalCapacities(c, days, i, n) else Capacities(c, days, i, n))[f.asset];
             cap.Some? && f.quantity <= cap.value + 0.0000000001
    ensures WithinVolume(c, days, n, f)
  {
    if final {
      var row := if i == 0 then |days| - 1 else i - 1;
      assert FinalCapacities(c, days, i, n)[f.asset] == Capacity(c, days[row].volume[f.asset]);
    } else if i > 0 {
      assert Capacities(c, days, i, n)[f.asset] == Capacity(c, days[i - 1].volume[f.asset]);
    } else {
      assert Capacities(c, days, i, n)[f.asset] == Some(0.0);
    }
  }

  lemma AddsWithin(c: Costs, days: seq<Day>, n: nat, s: Account, i: nat, k: nat, buy: bool, lots: int,
                   reference: Option<real>, final: bool)
    requires i < |days| && (forall j | 0 <= j < |days| :: |days[j].volume| == n) && |s.lots| == n && k < n
    requires AllWithin(c, days, n, s.fills)
    ensures var cap := if final then FinalCapacities(c, days, i, n) else Capacities(c, days, i, n);
            AllWithin(c, days, n, Trade(c, s, i, k, buy, lots, reference, cap[k],
                                        if final then PeriodEnd else Rebalance).fills)
  {
    hide WithinVolume, Trade;
    var cap := if final then FinalCapacities(c, days, i, n) else Capacities(c, days, i, n);
    hide Capacities, FinalCapacities;
    var reason := if final then PeriodEnd else Rebalance;
    TradeWithin(c, s, i, k, buy, lots, reference, cap[k], reason);
    var t := Trade(c, s, i, k, buy, lots, reference, cap[k], reason);
    if t.fills != s.fills {
      CapacityAllows(c, days, n, t.fills[|s.fills|], i, final);
      forall m | 0 <= m < |t.fills|
        ensures WithinVolume(c, days, n, t.fills[m])
      {
        if m < |s.fills| {
          assert t.fills[m] == s.fills[m];
        }
      }
    }
  }

  lemma {:induction false} SellsWithin(c: Costs, days: seq<Day>, n: nat, s: Account, i: nat, desired: seq<int>, k: nat)
    requires i < |days| && (forall j | 0 <= j < |days| :: |days[j].volume| == |days[j].open| == n)
    requires |s.lots| == |desired| == n && k <= n && AllWithin(c, days, n, s.fills)
    ensures AllWithin(c, days, n, Sells(c, s, i, days[i].open, desired, Capacities(c, days, i, n), k).fills)
  {
    hide AllWithin, Trade, Capacities;
    if k > 0 {
      SellsWithin(c, days, n, s, i, desired, k - 1);
      var t := Sells(c, s, i, days[i].open, desired, Capacities(c, days, i, n), k - 1);
      AddsWithin(c, days, n, t, i, k - 1, false, t.lots[k - 1] - desired[k - 1], days[i].open[k - 1], false);
    }
  }

  lemma {:induction false} BuysWithin(c: Costs, days: seq<Day>, n: nat, s: Account, i: nat, desired: seq<int>, k: nat)
    requires i < |days| && (forall j | 0 <= j < |days| :: |days[j].volume| == |days[j].open| == n)
    requires |s.lots| == |desired| == n && k <= n && AllWithin(c, days, n, s.fills)
    ensures AllWithin(c, days, n, Buys(c, s, i, days[i].open, desired, Capacities(c, days, i, n), k).fills)
  {
    hide AllWithin, Trade, Capacities;
    if k > 0 {
      BuysWithin(c, days, n, s, i, desired, k - 1);
      var t := Buys(c, s, i, days[i].open, desired, Capacities(c, days, i, n), k - 1);
      AddsWithin(c, days, n, t, i, k - 1, true, desired[k - 1] - t.lots[k - 1], days[i].open[k - 1], false);
    }
  }

  lemma {:induction false} FinalsWithin(c: Costs, days: seq<Day>, n: nat, s: Account, i: nat, k: nat)
    requires i < |days| && (forall j | 0 <= j < |days| :: |days[j].volume| == |days[j].close| == n)
    requires |s.lots| == n && k <= n && AllWithin(c, days, n, s.fills)
    ensures AllWithin(c, days, n, Finals(c, s, i, days[i].close, FinalCapacities(c, days, i, n), k).fills)
  {
    hide AllWithin, Trade, FinalCapacities;
    if k > 0 {
      FinalsWithin(c, days, n, s, i, k - 1);
      var t := Finals(c, s, i, days[i].close, FinalCapacities(c, days, i, n), k - 1);
      AddsWithin(c, days, n, t, i, k - 1, false, t.lots[k - 1], days[i].close[k - 1], true);
    }
  }

  /** In every run no fill exceeds the participation in the volume of the day before its own. */
  lemma {:induction false} FillsWithinVolume(c: Costs, plan: Plan, days: seq<Day>, targets: seq<seq<real>>, n: nat, i: nat)
    requires Ready(plan, days, targets, n) && plan.first <= i <= plan.last
    ensures AllWithin(c, days, n, Through(c, plan, days, targets, n, i).fills)
    decreases i
  {
    hide AllWithin, Sells, Buys, Finals, Desired, Capacities, FinalCapacities, Wealth, Missing, Scheduled;
    if i > plan.first {
      FillsWithinVolume(c, plan, days, targets, n, i - 1);
      var s := Through(c, plan, days, targets, n, i - 1);
      MorningWithin(c, plan, days, targets, n, s, i - 1);
      FinalsWithin(c, days, n, Morning(c, plan, days, targets, n, s, i - 1), i - 1, n);
      hide Morning;
    } else {
      NothingFilled(c, days, n);
    }
  }

  lemma NothingFilled(c: Costs, days: seq<Day>, n: nat)
    requires forall j | 0 <= j < |days| :: |days[j].volume| == n
    ensures AllWithin(c, days, n, [])
  {
  }

  lemma MorningWithin(c: Costs, plan: Plan, days: seq<Day>, targets: seq<seq<real>>, n: nat, s: Account, i: nat)
    requires Ready(plan, days, targets, n) && i < plan.last && |s.lots| == n && AllWithin(c, days, n, s.fills)
    ensures AllWithin(c, days, n, Morning(c, plan, days, targets, n, s, i).fills)
  {
    hide AllWithin, Sells, Buys, Desired, Capacities, Worth;
    var wealth := Wealth(c, s, days[i].open);
    var j := i - 2 - c.extraDelay;
    if wealth.Some? && j >= 0 {
      var desired := Desired(c, wealth.value, targets[j], days[i].open);
      SellsWithin(c, days, n, s, i, desired, n);
      BuysWithin(c, days, n, Sells(c, s, i, days[i].open, desired, Capacities(c, days, i, n), n), i, desired, n);
    }
  }

  // ---------------------------------------------------------------- the last day

  /** What a final sale of a whole holding leaves of it: nothing, if its close, value and capacity allow. */
  predicate Sellable(c: Costs, lots: int, close: Option<real>, capacity: Option<real>) {
    && lots > 0 && Sizeable(c, lots, close) && WithinCapacity(c, lots, capacity)
    && Notional(c, lots, PaidPrice(c, false, close.value)) >= c.minimum
  }

  lemma SaleLeaves(c: Costs, s: Account, day: nat, k: nat, close: Option<real>, capacity: Option<real>)
    requires k < |s.lots| && s.lots[k] > 0
    ensures var t := Trade(c, s, day, k, false, s.lots[k], close, capacity, PeriodEnd);
            t.lots == if Sellable(c, s.lots[k], close, capacity) then s.lots[k := 0] else s.lots
  {
    hide Tried, Booked, Notional, PaidPrice, Sizeable, WithinCapacity;
    var attempt := Tried(c, s.cash, s.lots[k], false, s.lots[k], close, capacity);
    TriedExactly(c, s.cash, s.lots[k], false, s.lots[k], close, capacity, s.lots[k]);
    SizeableSees(c, s.lots[k], close);
    if attempt.Filled? {
      BookedExactly(c, s, day, k, false, attempt.lots, close.value, PeriodEnd);
    }
  }

  lemma SizeableSees(c: Costs, lots: int, reference: Option<real>)
    ensures Sizeable(c, lots, reference) ==> reference.Some?
  {
  }

  lemma {:induction false} FinalsLeave(c: Costs, s: Account, day: nat, close: seq<Option<real>>, cap: seq<Option<real>>,
                                       k: nat)
    requires k <= |s.lots| == |close| == |cap|
    ensures var t := Finals(c, s, day, close, cap, k);
            && (forall j | k <= j < |s.lots| :: t.lots[j] == s.lots[j])
            && forall j | 0 <= j < k :: t.lots[j] == if Sellable(c, s.lots[j], close[j], cap[j]) then 0 else s.lots[j]
  {
    hide Trade, Sellable;
    if k > 0 {
      FinalsLeave(c, s, day, close, cap, k - 1);
      var t := Finals(c, s, day, close, cap, k - 1);
      if t.lots[k - 1] > 0 {
        SaleLeaves(c, t, day, k - 1, close[k - 1], cap[k - 1]);
      } else {
        NotHeld(c, t.lots[k - 1], close[k - 1], cap[k - 1]);
      }
    }
  }

  lemma NotHeld(c: Costs, lots: int, close: Option<real>, capacity: Option<real>)
    ensures Sellable(c, lots, close, capacity) ==> lots > 0
  {
  }

  /** The last day, and no other, sells every holding that its close, minimum and the volume behind it allow. */
  lemma EndsFlat(c: Costs, plan: Plan, days: seq<Day>, targets: seq<seq<real>>, n: nat, s: Account, i: nat)
    requires Ready(plan, days, targets, n) && i < plan.last && |s.lots| == n
    ensures var t := DayEnd(c, plan, days, targets, n, s, i);
            && (i + 1 < plan.last ==> t == s)
            && (i + 1 == plan.last ==>
                  forall k | 0 <= k < n ::
                    t.lots[k] == if Sellable(c, s.lots[k], days[i].close[k], FinalCapacities(c, days, i, n)[k]) then 0
                                 else s.lots[k])
  {
    hide Sellable, Finals;
    FinalsLeave(c, s, i, days[i].close, FinalCapacities(c, days, i, n), n);
    hide FinalCapacities;
  }
}
