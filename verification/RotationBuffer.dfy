/** The buffer always pays: a rebalance whose sales fill never runs out of cash for its purchases. */
module RotationBuffer {
  import opened Basics
  import opened RotationModel

  /** Cash that buying (or selling) one lot takes (or brings), slippage and fee included. */
  function UnitSpend(c: Costs, open: real): real {
    open * (1.0 + c.slip) * (1.0 + c.fee) * c.step
  }

  function UnitRaise(c: Costs, open: real): real {
    open * c.step * Keep(c)
  }

  /** What remains of a sale after slippage and fee. */
  function Keep(c: Costs): real {
    Mul(1.0 - c.slip, 1.0 - c.fee)
  }

  function Quote(open: Option<real>): real {
    if open.Some? then open.value else 0.0
  }

  /** Cash raised by selling the first k assets down to the desired lots. */
  function Raised(c: Costs, held: seq<int>, desired: seq<int>, open: seq<Option<real>>, k: nat): real
    requires k <= |held| == |desired| == |open|
  {
    if k == 0 then 0.0
    else
      Raised(c, held, desired, open, k - 1)
      + if desired[k - 1] < held[k - 1] then Mul((held[k - 1] - desired[k - 1]) as real, UnitRaise(c, Quote(open[k - 1])))
        else 0.0
  }

  /** Cash needed to buy the first k assets up to the desired lots. */
  function Needed(c: Costs, held: seq<int>, desired: seq<int>, open: seq<Option<real>>, k: nat): real
    requires k <= |held| == |desired| == |open|
  {
    if k == 0 then 0.0
    else
      Needed(c, held, desired, open, k - 1)
      + if desired[k - 1] > held[k - 1] then Mul((desired[k - 1] - held[k - 1]) as real, UnitSpend(c, Quote(open[k - 1])))
        else 0.0
  }

  function WeightSum(weights: seq<real>, k: nat): real
    requires k <= |weights|
  {
    if k == 0 then 0.0 else WeightSum(weights, k - 1) + weights[k - 1]
  }

  // ---------------------------------------------------------------- the trades move exactly that cash

  lemma Regroup(lots: real, step: real, open: real, slipped: real, kept: real)
    ensures Mul(lots * step, open * slipped) * kept == Mul(lots, open * step * Mul(slipped, kept))
    ensures Mul(lots * step, open * slipped) * kept == Mul(lots, open * slipped * kept * step)
  {
    assert lots * step * (open * slipped) * kept == lots * (open * step * (slipped * kept));
    assert open * step * (slipped * kept) == open * slipped * kept * step;
  }

  lemma SaleBrings(c: Costs, lots: int, open: real)
    ensures Cost(c, false, lots, open) - Cost(c, false, lots, open) * c.fee == Mul(lots as real, UnitRaise(c, open))
  {
    Regroup(lots as real, c.step, open, 1.0 - c.slip, 1.0 - c.fee);
  }

  lemma PurchaseTakes(c: Costs, lots: int, open: real)
    ensures Cost(c, true, lots, open) + Cost(c, true, lots, open) * c.fee == Mul(lots as real, UnitSpend(c, open))
  {
    Regroup(lots as real, c.step, open, 1.0 + c.slip, 1.0 + c.fee);
  }

  lemma {:induction false} SellsElsewhere(c: Costs, s: Account, day: nat, open: seq<Option<real>>, desired: seq<int>,
                                          cap: seq<Option<real>>, k: nat, j: nat)
    requires k <= |s.lots| == |open| == |desired| == |cap| && j < |s.lots|
    ensures j >= k ==> Sells(c, s, day, open, desired, cap, k).lots[j] == s.lots[j]
    ensures j < k ==> Sells(c, s, day, open, desired, cap, k).lots[j] == Sells(c, s, day, open, desired, cap, j + 1).lots[j]
  {
    hide Tried, Cost, Price, Amount;
    if k > 0 && j != k - 1 {
      SellsElsewhere(c, s, day, open, desired, cap, k - 1, j);
    }
  }

  /** Every asset held above its desired lots is sold down to them. */
  ghost predicate SalesFill(c: Costs, s: Account, day: nat, open: seq<Option<real>>, desired: seq<int>,
                            cap: seq<Option<real>>)
    requires |s.lots| == |open| == |desired| == |cap|
  {
    forall k | 0 <= k < |open| :: Sells(c, s, day, open, desired, cap, |open|).lots[k] <= desired[k]
  }

  /** One sale that ends at or below the desired lots sold exactly the surplus, at a real positive quote. */
  lemma FullSale(c: Costs, s: Account, day: nat, k: nat, desired: int, open: Option<real>, cap: Option<real>)
    requires k < |s.lots| && desired < s.lots[k]
    requires Trade(c, s, day, k, false, s.lots[k] - desired, open, cap, Rebalance).lots[k] <= desired
    ensures open.Some? && open.value > 0.0
    ensures var t := Trade(c, s, day, k, false, s.lots[k] - desired, open, cap, Rebalance);
            t.lots[k] == desired && t.cash == s.cash + Mul((s.lots[k] - desired) as real, UnitRaise(c, open.value))
  {
    hide TooSmall, Cost, UnitRaise;
    if open.Some? {
      SaleBrings(c, s.lots[k] - desired, open.value);
    }
  }

  lemma {:induction false} SellsRaise(c: Costs, s: Account, day: nat, open: seq<Option<real>>, desired: seq<int>,
                                      cap: seq<Option<real>>, k: nat)
    requires k <= |s.lots| == |open| == |desired| == |cap| && SalesFill(c, s, day, open, desired, cap)
    ensures var t := Sells(c, s, day, open, desired, cap, k);
            && t.cash == s.cash + Raised(c, s.lots, desired, open, k)
            && forall j | 0 <= j < k ::
                 && t.lots[j] == (if desired[j] < s.lots[j] then desired[j] else s.lots[j])
                 && (desired[j] < s.lots[j] ==> open[j].Some? && open[j].value > 0.0)
  {
    hide Trade, UnitRaise, Mul;
    if k > 0 {
      SellsRaise(c, s, day, open, desired, cap, k - 1);
      var before := Sells(c, s, day, open, desired, cap, k - 1);
      SellsElsewhere(c, s, day, open, desired, cap, k - 1, k - 1);
      SellsElsewhere(c, s, day, open, desired, cap, |open|, k - 1);
      if desired[k - 1] < s.lots[k - 1] {
        FullSale(c, before, day, k - 1, desired[k - 1], open[k - 1], cap[k - 1]);
      }
      forall j | 0 <= j < k - 1
        ensures Sells(c, s, day, open, desired, cap, k).lots[j] == before.lots[j]
      {
        SellsElsewhere(c, s, day, open, desired, cap, k, j);
        SellsElsewhere(c, s, day, open, desired, cap, k - 1, j);
      }
    }
  }

  // ---------------------------------------------------------------- raised and needed cash

  lemma KeepBelowOne(c: Costs)
    ensures 0.0 < Keep(c) <= 1.0 <= Mul(1.0 + c.slip, 1.0 + c.fee)
  {
    MulPositive(1.0 - c.slip, 1.0 - c.fee);
    Fraction(1.0 - c.slip, 1.0 - c.fee);
    Magnified(1.0 + c.slip, 1.0 + c.fee);
  }

  lemma Unfold(a: real, b: real)
    ensures Mul(a, b) == a * b
  {
  }

  lemma SpendAboveRaise(c: Costs, open: real)
    requires open >= 0.0
    ensures 0.0 <= UnitRaise(c, open) <= UnitSpend(c, open)
  {
    KeepBelowOne(c);
    MulMono(0.0, open, c.step);
    var value, up := open * c.step, Mul(1.0 + c.slip, 1.0 + c.fee);
    MulMono(0.0, Keep(c), value);
    MulMono(Keep(c), up, value);
    Expand(open, c.step, 1.0 + c.slip, 1.0 + c.fee);
  }

  lemma Expand(open: real, step: real, slipped: real, kept: real)
    ensures open * step * Mul(slipped, kept) == open * slipped * kept * step
  {
  }

  /** Per asset: proceeds less cost are at least what holdings would bring, less the whole target's cost. */
  lemma FlowBound(held: int, desired: int, raise: real, spend: real)
    requires held >= 0 && desired >= 0 && 0.0 <= raise <= spend
    ensures desired < held ==>
              Mul((held - desired) as real, raise) >= Mul(held as real, raise) - Mul(desired as real, spend)
    ensures desired >= held ==>
              -Mul((desired - held) as real, spend) >= Mul(held as real, raise) - Mul(desired as real, spend)
  {
    Distribute(held as real, desired as real, raise);
    Distribute(desired as real, held as real, spend);
    MulMono(raise, spend, desired as real);
    MulMono(raise, spend, held as real);
  }

  lemma HeldRaise(c: Costs, lots: int, open: real)
    ensures Mul(lots as real, UnitRaise(c, open)) == Mul(Keep(c), Mul(Amount(c, lots), open))
  {
    Regroup(lots as real, c.step, open, 1.0 - c.slip, 1.0 - c.fee);
    Shift(lots as real, c.step, open, Keep(c));
  }

  lemma Shift(lots: real, step: real, open: real, keep: real)
    ensures Mul(lots, open * step * keep) == Mul(keep, Mul(lots * step, open))
  {
  }

  /** The desired lots cost no more than their share of the buffered wealth. */
  lemma DesiredCost(c: Costs, wealth: real, weight: real, open: Option<real>)
    requires wealth >= 0.0 && weight >= 0.0
    ensures var d := DesiredLots(c, wealth, weight, open);
            d >= 0 && Mul(d as real, UnitSpend(c, Quote(open))) <= Mul(Budget(c, wealth), weight)
  {
    MulMono(0.0, wealth, c.allocation);
    MulMono(0.0, Budget(c, wealth), weight);
    var budget := Mul(Budget(c, wealth), weight);
    if open.Some? && open.value > 0.0 {
      FloorWithin(budget, LotCost(c, open.value));
      assert LotCost(c, open.value) == UnitSpend(c, open.value);
    }
  }

  lemma FloorWithin(budget: real, unit: Positive)
    requires budget >= 0.0
    ensures (budget / unit).Floor >= 0 && Mul((budget / unit).Floor as real, unit) <= budget
  {
    var q := budget / unit;
    assert q * unit == budget;
    MulMono(q.Floor as real, q, unit);
  }

  /** Quotes the rebalance relies on: every held asset has a positive open, and nothing is short. */
  ghost predicate Sellable(held: seq<int>, open: seq<Option<real>>) {
    |held| == |open| && forall k | 0 <= k < |held| :: held[k] >= 0 && (held[k] > 0 ==> open[k].Some? && open[k].value > 0.0)
  }

  lemma {:induction false} WorthQuoted(c: Costs, held: seq<int>, open: seq<Option<real>>, k: nat)
    requires k <= |held| && Sellable(held, open)
    ensures Worth(c, held, open, k).Some? && Worth(c, held, open, k).value >= 0.0
  {
    if k > 0 {
      WorthQuoted(c, held, open, k - 1);
      if held[k - 1] > 0 {
        PositiveProduct(held[k - 1] as real, c.step);
        PositiveProduct(Amount(c, held[k - 1]), open[k - 1].value);
      }
    }
  }

  lemma FlowStep(c: Costs, wealth: real, held: int, weight: real, open: Option<real>)
    requires wealth >= 0.0 && weight >= 0.0 && held >= 0 && (held > 0 ==> open.Some? && open.value > 0.0)
    ensures var d := DesiredLots(c, wealth, weight, open);
            (if d < held then Mul((held - d) as real, UnitRaise(c, Quote(open))) else 0.0)
            - (if d > held then Mul((d - held) as real, UnitSpend(c, Quote(open))) else 0.0)
            >= Mul(Keep(c), Mul(Amount(c, held), Quote(open))) - Mul(Budget(c, wealth), weight)
  {
    var d := DesiredLots(c, wealth, weight, open);
    DesiredCost(c, wealth, weight, open);
    hide DesiredLots, UnitRaise, UnitSpend, Mul, Keep, Amount, Budget;
    if open.Some? && open.value > 0.0 {
      SpendAboveRaise(c, open.value);
      FlowBound(held, d, UnitRaise(c, open.value), UnitSpend(c, open.value));
      HeldRaise(c, held, open.value);
      MulZero(UnitSpend(c, open.value));
      MulZero(UnitRaise(c, open.value));
    } else {
      NothingHeldNothingDesired(c, wealth, weight, open);
    }
  }

  lemma NothingHeldNothingDesired(c: Costs, wealth: real, weight: real, open: Option<real>)
    requires wealth >= 0.0 && weight >= 0.0 && (open.None? || open.value <= 0.0)
    ensures DesiredLots(c, wealth, weight, open) == 0 && Amount(c, 0) == 0.0
    ensures Mul(Keep(c), Mul(Amount(c, 0), Quote(open))) == 0.0 && Mul(Budget(c, wealth), weight) >= 0.0
  {
    MulMono(0.0, wealth, c.allocation);
    MulMono(0.0, Budget(c, wealth), weight);
  }

  lemma {:induction false} FlowsCover(c: Costs, wealth: real, held: seq<int>, weights: seq<real>, open: seq<Option<real>>,
                                      k: nat)
    requires k <= |held| == |weights| == |open| && wealth >= 0.0 && Sellable(held, open)
    requires forall j | 0 <= j < |weights| :: weights[j] >= 0.0
    ensures Worth(c, held, open, k).Some?
    ensures var d := Desired(c, wealth, weights, open);
            Raised(c, held, d, open, k) - Needed(c, held, d, open, k)
            >= Mul(Keep(c), Worth(c, held, open, k).value) - Mul(Budget(c, wealth), WeightSum(weights, k))
  {
    hide DesiredLots, UnitRaise, UnitSpend, Amount, Keep, Budget, Mul, Quote;
    WorthQuoted(c, held, open, k);
    MulZero(Keep(c));
    MulZero(Budget(c, wealth));
    if k > 0 {
      FlowsCover(c, wealth, held, weights, open, k - 1);
      FlowStep(c, wealth, held[k - 1], weights[k - 1], open[k - 1]);
      WorthStep(c, held, open, k);
      MulAdds(Keep(c), Worth(c, held, open, k - 1).value, Mul(Amount(c, held[k - 1]), Quote(open[k - 1])));
      MulAdds(Budget(c, wealth), WeightSum(weights, k - 1), weights[k - 1]);
      hide Worth;
    }
  }

  lemma WorthStep(c: Costs, held: seq<int>, open: seq<Option<real>>, k: nat)
    requires 0 < k <= |held| && Sellable(held, open) && Worth(c, held, open, k - 1).Some?
    ensures Worth(c, held, open, k)
         == Some(Worth(c, held, open, k - 1).value + Mul(Amount(c, held[k - 1]), Quote(open[k - 1])))
  {
    if held[k - 1] == 0 {
      assert Amount(c, 0) == 0.0;
      MulZero(Quote(open[k - 1]));
    }
  }

  /** Cash plus holdings at the open; spending this share of it never exceeds cash plus kept proceeds. */
  lemma BufferPays(cash: real, worth: real, keep: real, share: real)
    requires cash >= 0.0 && worth >= 0.0 && 0.0 <= keep <= 1.0 && 0.0 <= share <= keep
    ensures cash + Mul(keep, worth) - Mul(cash + worth, share) >= 0.0
  {
    MulMono(share, keep, cash + worth);
    Distribute(cash, worth, keep);
    MulMono(keep, 1.0, cash);
  }

  /** The costs leave at least what the buffered targets ask for. */
  ghost predicate Buffered(c: Costs, weights: seq<real>) {
    Mul(c.allocation * BUFFER, WeightSum(weights, |weights|)) <= Keep(c)
  }

  lemma {:induction false} WeightSumSign(weights: seq<real>, k: nat)
    requires k <= |weights| && forall j | 0 <= j < |weights| :: weights[j] >= 0.0
    ensures WeightSum(weights, k) >= 0.0
  {
    if k > 0 {
      WeightSumSign(weights, k - 1);
    }
  }

  /** Costs of at most 0.004 in all and weights summing to at most one satisfy the buffer. */
  lemma SmallCostsBuffered(c: Costs, weights: seq<real>)
    requires 1.0 - Keep(c) <= 0.004 && WeightSum(weights, |weights|) <= 1.0
    requires forall j | 0 <= j < |weights| :: weights[j] >= 0.0
    ensures Buffered(c, weights)
  {
    WeightSumSign(weights, |weights|);
    hide WeightSum, Keep;
    var sum := WeightSum(weights, |weights|);
    var share := c.allocation * BUFFER;
    MulMono(share, BUFFER, sum);
    MulMono(sum, 1.0, BUFFER);
    Unfold(share, sum);
  }

  lemma Reassociate(wealth: real, allocation: real, sum: real)
    ensures Mul(wealth * allocation * BUFFER, sum) == Mul(wealth, Mul(allocation * BUFFER, sum))
  {
  }

  lemma CashCovers(c: Costs, cash: real, held: seq<int>, weights: seq<real>, open: seq<Option<real>>)
    requires |held| == |weights| == |open| && cash >= 0.0 && Sellable(held, open) && Buffered(c, weights)
    requires forall j | 0 <= j < |weights| :: weights[j] >= 0.0
    requires Worth(c, held, open, |open|).Some?
    ensures var d := Desired(c, cash + Worth(c, held, open, |open|).value, weights, open);
            Needed(c, held, d, open, |open|) <= cash + Raised(c, held, d, open, |open|)
  {
    hide Worth, Raised, Needed, Keep, WeightSum, DesiredLots;
    var n := |open|;
    WorthQuoted(c, held, open, n);
    var worth := Worth(c, held, open, n).value;
    FlowsCover(c, cash + worth, held, weights, open, n);
    KeepBelowOne(c);
    WeightSumSign(weights, n);
    MulMono(0.0, WeightSum(weights, n), c.allocation * BUFFER);
    Reassociate(cash + worth, c.allocation, WeightSum(weights, n));
    BufferPays(cash, worth, Keep(c), Mul(c.allocation * BUFFER, WeightSum(weights, n)));
  }

  // ---------------------------------------------------------------- purchases

  /** A purchase order passes every test but the cash: a positive quote, the minimum, and the capacity. */
  predicate Accepted(c: Costs, lots: int, open: Option<real>, cap: Option<real>) {
    && open.Some? && open.value > 0.0 && !TooSmall(c, lots, open.value)
    && cap.Some? && Amount(c, lots) <= cap.value + 0.0000000001
  }

  lemma EnoughLots(cash: real, unit: Positive, step: Positive, each: real, lots: int)
    requires each == unit * step && Mul(lots as real, each) <= cash
    ensures lots <= (cash / unit / step).Floor
  {
    PositiveProduct(unit, step);
    var q := cash / unit / step;
    assert q * step == cash / unit;
    assert (cash / unit) * unit == cash;
    assert q * (unit * step) == cash;
    if q < lots as real {
      MulStrict(q, lots as real, unit * step);
    }
  }

  /** Cash for a purchase is enough for the affordability clamp to leave it alone. */
  lemma AffordableEnough(c: Costs, cash: real, open: Positive, lots: int)
    requires Mul(lots as real, UnitSpend(c, open)) <= cash && Price(c, true, open) > 0.0
    ensures lots <= Affordable(c, cash, Price(c, true, open))
  {
    hide UnitSpend, Price, Mul, WithFee;
    SpendIs(c, open);
    EnoughLots(cash, WithFee(c, Price(c, true, open)), c.step, UnitSpend(c, open), lots);
  }

  lemma SpendIs(c: Costs, open: Positive)
    requires Price(c, true, open) > 0.0
    ensures UnitSpend(c, open) == WithFee(c, Price(c, true, open)) * c.step
  {
  }

  lemma SlippedStillLarge(c: Costs, lots: int, open: Positive)
    requires lots > 0 && !TooSmall(c, lots, open)
    ensures !TooSmall(c, lots, Price(c, true, open))
  {
    PositiveProduct(lots as real, c.step);
    MulMono(1.0, 1.0 + c.slip, open);
    MulMono(open, Price(c, true, open), Amount(c, lots));
  }

  /** With the cash for it, a purchase fills in full exactly when the other tests accept it. */
  lemma FullPurchase(c: Costs, s: Account, day: nat, k: nat, desired: int, open: Option<real>, cap: Option<real>)
    requires k < |s.lots| && desired > s.lots[k]
    requires Mul((desired - s.lots[k]) as real, UnitSpend(c, Quote(open))) <= s.cash
    ensures var t := Trade(c, s, day, k, true, desired - s.lots[k], open, cap, Rebalance);
            && t.lots[k] == (if Accepted(c, desired - s.lots[k], open, cap) then desired else s.lots[k])
            && t.lots == s.lots[k := t.lots[k]]
            && t.cash == s.cash - (if Accepted(c, desired - s.lots[k], open, cap)
                                   then Mul((desired - s.lots[k]) as real, UnitSpend(c, Quote(open))) else 0.0)
  {
    hide TooSmall, Cost, UnitSpend, Affordable, Price, Mul, Amount;
    var lots := desired - s.lots[k];
    if Accepted(c, lots, open, cap) {
      PriceAbove(c, open.value);
      AffordableEnough(c, s.cash, open.value, lots);
      SlippedStillLarge(c, lots, open.value);
      PurchaseTakes(c, lots, open.value);
    }
  }

  lemma PriceAbove(c: Costs, open: Positive)
    ensures Price(c, true, open) > 0.0
  {
    PositiveProduct(open, 1.0 + c.slip);
  }

  /** Lots after a purchase round in which cash never runs out. */
  function Bought(c: Costs, held: int, desired: int, open: Option<real>, cap: Option<real>): int {
    if desired > held && Accepted(c, desired - held, open, cap) then desired else held
  }

  lemma SpendSign(c: Costs, open: Option<real>, lots: int)
    requires lots >= 0 && (open.Some? ==> open.value >= 0.0)
    ensures Mul(lots as real, UnitSpend(c, Quote(open))) >= 0.0
  {
    SpendAboveRaise(c, Quote(open));
    MulMono(0.0, UnitSpend(c, Quote(open)), lots as real);
  }

  /** Desired lots exist only at positive quotes. */
  ghost predicate Priced(desired: seq<int>, open: seq<Option<real>>) {
    |desired| == |open| && forall k | 0 <= k < |open| :: desired[k] > 0 ==> open[k].Some? && open[k].value > 0.0
  }

  lemma {:induction false} NeededGrows(c: Costs, held: seq<int>, desired: seq<int>, open: seq<Option<real>>, k: nat)
    requires k <= |held| == |desired| == |open| && Priced(desired, open)
    requires forall j | 0 <= j < |held| :: held[j] >= 0
    ensures Needed(c, held, desired, open, k) <= Needed(c, held, desired, open, |open|)
    decreases |open| - k
  {
    hide UnitSpend, Mul;
    if k < |open| {
      NeededGrows(c, held, desired, open, k + 1);
      if desired[k] > held[k] {
        SpendSign(c, open[k], desired[k] - held[k]);
      }
    }
  }

  lemma {:induction false} BuysFill(c: Costs, s: Account, day: nat, open: seq<Option<real>>, desired: seq<int>,
                                    cap: seq<Option<real>>, k: nat)
    requires k <= |s.lots| == |open| == |desired| == |cap| && Priced(desired, open)
    requires (forall j | 0 <= j < |s.lots| :: s.lots[j] >= 0) && Needed(c, s.lots, desired, open, |open|) <= s.cash
    ensures var t := Buys(c, s, day, open, desired, cap, k);
            && t.cash >= s.cash - Needed(c, s.lots, desired, open, k)
            && forall j | 0 <= j < |open| ::
                 t.lots[j] == if j < k then Bought(c, s.lots[j], desired[j], open[j], cap[j]) else s.lots[j]
  {
    hide Trade, UnitSpend, Mul, Accepted;
    if k > 0 {
      BuysFill(c, s, day, open, desired, cap, k - 1);
      var t := Buys(c, s, day, open, desired, cap, k - 1);
      NeededGrows(c, s.lots, desired, open, k);
      if desired[k - 1] > t.lots[k - 1] {
        SpendSign(c, open[k - 1], desired[k - 1] - t.lots[k - 1]);
        FullPurchase(c, t, day, k - 1, desired[k - 1], open[k - 1], cap[k - 1]);
      }
    }
  }

  // ---------------------------------------------------------------- the theorem

  lemma {:induction false} WorthNeedsQuotes(c: Costs, held: seq<int>, open: seq<Option<real>>, k: nat)
    requires k <= |held| == |open| && Worth(c, held, open, k).Some?
    ensures forall j | 0 <= j < k :: held[j] > 0 ==> open[j].Some?
  {
    if k > 0 && held[k - 1] <= 0 {
      WorthNeedsQuotes(c, held, open, k - 1);
    } else if k > 0 {
      WorthNeedsQuotes(c, held, open, k - 1);
    }
  }

  /** Lots after a rebalance that never lacks cash: sold down to the desired, or bought up if accepted. */
  function Reached(c: Costs, held: int, desired: int, open: Option<real>, cap: Option<real>): int {
    if desired < held then desired else Bought(c, held, desired, open, cap)
  }

  /**
   If every sale of a rebalance fills and the costs leave what the buffered targets ask for, the cash clamp
   never binds: each purchase ends at its desired lots unless its quote, the minimum or the capacity refuses it.
   */
  lemma BufferAlwaysPays(c: Costs, s: Account, day: nat, weights: seq<real>, open: seq<Option<real>>,
                         cap: seq<Option<real>>)
    requires |s.lots| == |weights| == |open| == |cap| && Wealth(c, s, open).Some? && Buffered(c, weights)
    requires s.cash >= 0.0 && forall j | 0 <= j < |open| :: weights[j] >= 0.0 && s.lots[j] >= 0
    requires SalesFill(c, s, day, open, Desired(c, Wealth(c, s, open).value, weights, open), cap)
    ensures var d := Desired(c, Wealth(c, s, open).value, weights, open);
            var t := Rebalanced(c, s, day, open, d, cap);
            && Needed(c, s.lots, d, open, |open|) <= s.cash + Raised(c, s.lots, d, open, |open|)
            && t.cash >= 0.0
            && forall k | 0 <= k < |open| :: t.lots[k] == Reached(c, s.lots[k], d[k], open[k], cap[k])
  {
    hide Sells, Buys, Needed, Raised, Accepted, Keep, SalesFill;
    var n := |open|;
    var d := Desired(c, Wealth(c, s, open).value, weights, open);
    SellsRaise(c, s, day, open, d, cap, n);
    WorthNeedsQuotes(c, s.lots, open, n);
    AllSellable(c, s.lots, Wealth(c, s, open).value, weights, open);
    WorthQuoted(c, s.lots, open, n);
    hide Worth;
    CashCovers(c, s.cash, s.lots, weights, open);
    DesiredPriced(c, Wealth(c, s, open).value, weights, open);
    hide Desired, Priced;
    var sold := Sells(c, s, day, open, d, cap, n);
    NeededAfterSales(c, s.lots, sold.lots, d, open, n);
    BuysFill(c, sold, day, open, d, cap, n);
  }

  /** Quoted holdings whose surplus all finds a positive quote are sellable. */
  lemma AllSellable(c: Costs, held: seq<int>, wealth: real, weights: seq<real>, open: seq<Option<real>>)
    requires |held| == |weights| == |open|
    requires forall j | 0 <= j < |held| :: held[j] >= 0 && (held[j] > 0 ==> open[j].Some?)
    requires forall j | 0 <= j < |held| ::
               Desired(c, wealth, weights, open)[j] < held[j] ==> open[j].Some? && open[j].value > 0.0
    ensures Sellable(held, open)
  {
    forall j | 0 <= j < |held| && held[j] > 0
      ensures open[j].value > 0.0
    {
      assert Desired(c, wealth, weights, open)[j] == DesiredLots(c, wealth, weights[j], open[j]);
    }
  }

  lemma DesiredPriced(c: Costs, wealth: real, weights: seq<real>, open: seq<Option<real>>)
    requires |weights| == |open| && wealth >= 0.0 && forall j | 0 <= j < |open| :: weights[j] >= 0.0
    ensures Priced(Desired(c, wealth, weights, open), open)
    ensures forall j | 0 <= j < |open| :: Desired(c, wealth, weights, open)[j] >= 0
  {
    forall j | 0 <= j < |open|
      ensures Desired(c, wealth, weights, open)[j] >= 0
    {
      DesiredCost(c, wealth, weights[j], open[j]);
    }
    hide LotCost;
  }

  /** Selling does not change what is needed for the purchases. */
  lemma {:induction false} NeededAfterSales(c: Costs, held: seq<int>, sold: seq<int>, desired: seq<int>,
                                            open: seq<Option<real>>, k: nat)
    requires k <= |held| == |sold| == |desired| == |open|
    requires forall j | 0 <= j < |held| :: sold[j] == if desired[j] < held[j] then desired[j] else held[j]
    ensures Needed(c, sold, desired, open, k) == Needed(c, held, desired, open, k)
  {
    hide UnitSpend, Mul;
    if k > 0 {
      NeededAfterSales(c, held, sold, desired, open, k - 1);
    }
  }
}
