/** The cash clamp never binds exactly when the costs leave what the buffer asks for: the missing half, by witness. */
module RotationClamp {
  import opened Basics
  import opened RotationModel
  import opened RotationBuffer
  import RotationTheorems

  /** A rebalance of an account that owes nothing, on priced holdings, at weights of at most one, whose sales fill. */
  ghost predicate Proper(c: Costs, s: Account, day: nat, weights: seq<real>, open: seq<Option<real>>,
                         cap: seq<Option<real>>)
  {
    && |s.lots| == |weights| == |open| == |cap| && s.cash >= 0.0 && Wealth(c, s, open).Some?
    && (forall j | 0 <= j < |open| :: weights[j] >= 0.0 && s.lots[j] >= 0) && WeightSum(weights, |weights|) <= 1.0
    && SalesFill(c, s, day, open, Desired(c, Wealth(c, s, open).value, weights, open), cap)
  }

  /** Every purchase ends at its desired lots unless its quote, the minimum or the capacity refuses it. */
  ghost predicate Idle(c: Costs, s: Account, day: nat, weights: seq<real>, open: seq<Option<real>>,
                       cap: seq<Option<real>>)
    requires Proper(c, s, day, weights, open, cap)
  {
    var d := Desired(c, Wealth(c, s, open).value, weights, open);
    var t := Rebalanced(c, s, day, open, d, cap);
    forall k | 0 <= k < |open| :: t.lots[k] == Reached(c, s.lots[k], d[k], open[k], cap[k])
  }

  ghost predicate NeverBinds(c: Costs) {
    forall s: Account, day: nat, weights: seq<real>, open: seq<Option<real>>, cap: seq<Option<real>> ::
      Proper(c, s, day, weights, open, cap) ==> Idle(c, s, day, weights, open, cap)
  }

  // ---------------------------------------------------------------- the condition suffices

  lemma CostsLeaveEnough(c: Costs, weights: seq<real>)
    requires c.allocation * BUFFER <= Keep(c) && WeightSum(weights, |weights|) <= 1.0
    requires forall j | 0 <= j < |weights| :: weights[j] >= 0.0
    ensures Buffered(c, weights)
  {
    WeightSumSign(weights, |weights|);
    hide WeightSum, Keep;
    Fraction(c.allocation * BUFFER, WeightSum(weights, |weights|));
  }

  // ---------------------------------------------------------------- and is needed

  lemma Archimedes(x: Positive, y: real) returns (n: nat)
    ensures n as real * x >= y
  {
    var q := y / x;
    assert q * x == y;
    n := if q.Floor + 1 >= 0 then q.Floor + 1 else 0;
    MulMono(q, n as real, x);
  }

  lemma Scales(a: nat, b: nat, x: Positive, y: real)
    requires a <= b && a as real * x >= y
    ensures Mul(b as real, x) >= y
  {
    MulMono(a as real, b as real, x);
  }

  /** What a purchase costs beyond its reference, and the share of wealth the targets may spend. */
  function Up(c: Costs): (r: real)
    ensures r > 0.0
  {
    MulPositive(1.0 + c.slip, 1.0 + c.fee);
    Mul(1.0 + c.slip, 1.0 + c.fee)
  }

  function ShareOf(c: Costs): (r: real)
    ensures r > 0.0
  {
    c.allocation * BUFFER
  }

  /** What a sold lot is worth after slippage, at a unit price. */
  function SoldLot(c: Costs): (r: real)
    ensures r > 0.0
  {
    PositiveProduct(c.step, 1.0 - c.slip);
    c.step * (1.0 - c.slip)
  }

  /** The minimum order in lots. */
  function LeastLots(c: Costs): (r: real)
    ensures r >= 0.0
  {
    QuotientSign(c.minimum, c.step);
    c.minimum / c.step
  }

  lemma QuotientSign(x: Size, y: Positive)
    ensures x / y >= 0.0
  {
    var q := x / y;
    assert q * y == x;
    if q < 0.0 {
      MulStrict(q, 0.0, y);
    }
  }

  /** Lots enough that the shortfall exceeds one lot and no order is below the minimum. */
  ghost predicate Plenty(c: Costs, h: nat) {
    && h > 0 && Mul(h as real, ShareOf(c) - Keep(c)) >= Up(c)
    && Mul(h as real, SoldLot(c)) >= c.minimum
    && Mul(h as real, ShareOf(c)) >= Mul(Up(c), LeastLots(c) + 2.0)
  }

  lemma PlentyExists(c: Costs) returns (h: nat)
    requires ShareOf(c) > Keep(c)
    ensures Plenty(c, h)
  {
    hide Keep, Up, ShareOf, LeastLots, SoldLot, Mul;
    var m := Archimedes(ShareOf(c) - Keep(c), Up(c));
    var n := Archimedes(SoldLot(c), c.minimum);
    var k := Archimedes(ShareOf(c), Mul(Up(c), LeastLots(c) + 2.0));
    h := m + n + k + 1;
    Scales(m, h, ShareOf(c) - Keep(c), Up(c));
    Scales(n, h, SoldLot(c), c.minimum);
    Scales(k, h, ShareOf(c), Mul(Up(c), LeastLots(c) + 2.0));
  }

  const ONES: seq<Option<real>> := [Some(1.0), Some(1.0)]
  const SWITCH: seq<real> := [0.0, 1.0]

  /** All coins, no cash and no fills: an account no run leaves; the claim is over all accounts. */
  function Holder(h: nat): Account {
    Account(0.0, [h, 0], [], 0, 0, 0)
  }

  /** Everything held in the first asset, at unit prices, is to be switched into the second. */
  function Wanted(c: Costs, h: nat): int {
    DesiredLots(c, Amount(c, h), 1.0, Some(1.0))
  }

  function Ample(c: Costs, h: nat): seq<Option<real>> {
    var most := Max(Amount(c, h), Amount(c, Wanted(c, h)));
    [Some(most), Some(most)]
  }

  lemma HolderWealth(c: Costs, h: nat)
    requires h > 0
    ensures Wealth(c, Holder(h), ONES) == Some(Amount(c, h))
    ensures Desired(c, Amount(c, h), SWITCH, ONES) == [0, Wanted(c, h)]
    ensures WeightSum(SWITCH, 2) == 1.0
  {
    assert Worth(c, [h, 0], ONES, 0) == Some(0.0);
    assert Worth(c, [h, 0], ONES, 1) == Some(Amount(c, h));
    ZeroWeight(c, Amount(c, h));
    assert WeightSum(SWITCH, 1) == 0.0;
    hide DesiredLots, Amount;
    assert Desired(c, Amount(c, h), SWITCH, ONES)[1] == Wanted(c, h);
  }

  lemma ZeroWeight(c: Costs, wealth: real)
    ensures DesiredLots(c, wealth, 0.0, Some(1.0)) == 0
  {
    MulZero(Budget(c, wealth));
    assert 0.0 / LotCost(c, 1.0) == 0.0;
    hide Mul, LotCost, Budget;
  }

  lemma FloorAbove(x: real, unit: Positive)
    ensures Mul((x / unit).Floor as real + 1.0, unit) > x
  {
    var q := x / unit;
    assert q * unit == x;
    MulStrict(q, q.Floor as real + 1.0, unit);
  }

  lemma LotCostIs(c: Costs)
    ensures LotCost(c, 1.0) == Mul(Up(c), c.step) == UnitSpend(c, 1.0)
  {
  }

  lemma BudgetIs(c: Costs, h: nat)
    ensures Mul(Budget(c, Amount(c, h)), 1.0) == Mul(Mul(h as real, ShareOf(c)), c.step)
  {
    BudgetArithmetic(h as real, c.step, c.allocation);
  }

  lemma BudgetArithmetic(h: real, step: real, allocation: real)
    ensures h * step * allocation * BUFFER == Mul(Mul(h, allocation * BUFFER), step)
  {
  }

  /** One more lot than wanted would exceed the buffered wealth. */
  lemma WantedNext(c: Costs, h: nat)
    ensures Mul(Wanted(c, h) as real + 1.0, Mul(Up(c), c.step)) > Mul(Mul(h as real, ShareOf(c)), c.step)
  {
    hide LotCost, Mul, Up, ShareOf, Budget, Amount;
    LotCostIs(c);
    BudgetIs(c, h);
    FloorAbove(Mul(Budget(c, Amount(c, h)), 1.0), LotCost(c, 1.0));
  }

  lemma CancelStep(x: real, up: real, y: real, step: Positive)
    requires Mul(x, Mul(up, step)) > Mul(y, step)
    ensures Mul(x, up) > y
  {
    assert Mul(x, Mul(up, step)) == Mul(x, up) * step;
    if Mul(x, up) <= y {
      MulMono(Mul(x, up), y, step);
    }
  }

  lemma Shortfall(h: real, d: real, ratio: Size, a: real, keep: real, up: Positive)
    requires Mul(d + 1.0, up) > Mul(h, a) && Mul(h, a - keep) >= up && Mul(h, a) >= Mul(up, ratio + 2.0)
    ensures Mul(d, up) > Mul(h, keep) && d > ratio + 1.0
  {
    hide Mul;
    MulAdds(up, d, 1.0);
    MulAdds(up, ratio + 1.0, 1.0);
    MulAdds(h, a - keep, keep);
    Fraction(up, 1.0);
    Magnified(up, 1.0);
    Turn(d, up);
    Turn(d + 1.0, up);
    Above(d, ratio + 1.0, up);
  }

  lemma Turn(x: real, y: real)
    ensures Mul(x, y) == Mul(y, x)
  {
  }

  lemma Above(x: real, y: real, up: Positive)
    ensures Mul(up, x) > Mul(up, y) ==> x > y
  {
    if x <= y {
      MulMono(x, y, up);
    }
  }

  /** The lots wanted cost more than the sale raises, and are not below the minimum. */
  lemma WantedCost(c: Costs, h: nat)
    requires Plenty(c, h)
    ensures var d := Wanted(c, h);
            d > 0 && Amount(c, d) >= c.minimum && Mul(d as real, UnitSpend(c, 1.0)) > Mul(h as real, UnitRaise(c, 1.0))
  {
    hide Keep, LotCost, UnitSpend, UnitRaise, Up, ShareOf, Wanted, Mul;
    var d := Wanted(c, h);
    WantedNext(c, h);
    CancelStep(d as real + 1.0, Up(c), Mul(h as real, ShareOf(c)), c.step);
    Shortfall(h as real, d as real, LeastLots(c), ShareOf(c), Keep(c), Up(c));
    AboveMinimum(d as real, c.minimum, c.step);
    ScaleBack(d as real, h as real, Up(c), Keep(c), c.step);
    LotCostIs(c);
    RaiseIs(c);
  }

  lemma AboveMinimum(d: real, minimum: real, step: Positive)
    requires d >= minimum / step
    ensures d * step >= minimum
  {
    assert (minimum / step) * step == minimum;
    MulMono(minimum / step, d, step);
  }

  lemma ScaleBack(d: real, h: real, up: real, keep: real, step: Positive)
    requires Mul(d, up) > Mul(h, keep)
    ensures Mul(d, Mul(up, step)) > Mul(h, Mul(step, keep))
  {
    MulStrict(Mul(h, keep), Mul(d, up), step);
    assert Mul(d, Mul(up, step)) == Mul(d, up) * step;
    assert Mul(h, Mul(step, keep)) == Mul(h, keep) * step;
  }

  lemma RaiseIs(c: Costs)
    ensures UnitRaise(c, 1.0) == Mul(c.step, Keep(c))
  {
  }

  // ---------------------------------------------------------------- the witness rebalance

  lemma HolderSells(c: Costs, h: nat)
    requires Plenty(c, h)
    ensures var t := Trade(c, Holder(h), 0, 0, false, h, Some(1.0), Ample(c, h)[0], Rebalance);
            t.lots == [0, 0] && t.cash == Mul(h as real, UnitRaise(c, 1.0))
  {
    hide Keep, UnitRaise, Wanted, TooSmall, Cost, Amount, Up, ShareOf, LeastLots, Mul, Affordable;
    SaleLargeEnough(c, h);
    SaleBrings(c, h, 1.0);
  }

  /** Neither the reference nor the slipped value of the sale is below the minimum. */
  lemma SaleLargeEnough(c: Costs, h: nat)
    requires Plenty(c, h)
    ensures !TooSmall(c, h, 1.0) && !TooSmall(c, h, Price(c, false, 1.0))
  {
    hide Keep, Up, ShareOf, LeastLots;
    MulMono(0.0, h as real, c.step);
    assert Mul(h as real, c.step * (1.0 - c.slip)) == Amount(c, h) * (1.0 - c.slip);
    Fraction(Amount(c, h), 1.0 - c.slip);
  }

  /** Without the cash for all of it, a purchase does not reach its desired lots. */
  lemma ClampStops(c: Costs, s: Account, day: nat, k: nat, desired: int, open: Positive, cap: Option<real>)
    requires k < |s.lots| && desired > s.lots[k] && Mul((desired - s.lots[k]) as real, UnitSpend(c, open)) > s.cash
    ensures Trade(c, s, day, k, true, desired - s.lots[k], Some(open), cap, Rebalance).lots[k] != desired
  {
    hide TooSmall, Cost, UnitSpend, Affordable, Price, Mul, Amount;
    var lots := desired - s.lots[k];
    var attempt := Tried(c, s.cash, s.lots[k], true, lots, Some(open), cap);
    if attempt.Filled? && attempt.lots == lots {
      PriceAbove(c, open);
      RotationTheorems.AffordableCovers(c, s.cash, open, lots);
      PurchaseTakes(c, lots, open);
    }
  }

  /** Costs beyond the buffer have a proper rebalance in which the clamp binds. */
  lemma ClampBinds(c: Costs, h: nat)
    requires Plenty(c, h)
    ensures Proper(c, Holder(h), 0, SWITCH, ONES, Ample(c, h))
    ensures !Idle(c, Holder(h), 0, SWITCH, ONES, Ample(c, h))
  {
    hide Trade, Wanted, Plenty, Ample, Accepted;
    var s, d, cap := Holder(h), [0, Wanted(c, h)], Ample(c, h);
    assert h > 0 && |cap| == 2 by { PlentyShape(c, h); }
    HolderWealth(c, h);
    WantedCost(c, h);
    HolderSells(c, h);
    hide Desired, Wealth, WeightSum;
    var sold := Sells(c, s, 0, ONES, d, cap, 1);
    assert Sells(c, s, 0, ONES, d, cap, 0) == s;
    assert Sells(c, s, 0, ONES, d, cap, 2) == sold;
    assert Buys(c, sold, 0, ONES, d, cap, 1) == sold;
    ClampStops(c, sold, 0, 1, d[1], 1.0, cap[1]);
    WantedAccepted(c, h);
  }

  lemma PlentyShape(c: Costs, h: nat)
    requires Plenty(c, h)
    ensures h > 0 && |Ample(c, h)| == 2
  {
  }

  lemma WantedAccepted(c: Costs, h: nat)
    requires Plenty(c, h)
    ensures Accepted(c, Wanted(c, h), Some(1.0), Ample(c, h)[1])
  {
    WantedCost(c, h);
    hide Plenty, Wanted;
  }

  /**
   The clamp never binds, whatever the account, the holdings, the quotes and the weights of at most one, exactly
   when the costs leave at least the buffered allocation.
   */
  lemma BufferExact(c: Costs)
    ensures NeverBinds(c) <==> c.allocation * BUFFER <= Keep(c)
  {
    hide Proper, Idle, Keep, Plenty;
    if c.allocation * BUFFER <= Keep(c) {
      forall s: Account, day: nat, weights: seq<real>, open: seq<Option<real>>, cap: seq<Option<real>>
        | Proper(c, s, day, weights, open, cap)
        ensures Idle(c, s, day, weights, open, cap)
      {
        EnoughIsIdle(c, s, day, weights, open, cap);
      }
    } else {
      var h := PlentyExists(c);
      ClampBinds(c, h);
    }
  }

  lemma EnoughIsIdle(c: Costs, s: Account, day: nat, weights: seq<real>, open: seq<Option<real>>, cap: seq<Option<real>>)
    requires Proper(c, s, day, weights, open, cap) && c.allocation * BUFFER <= Keep(c)
    ensures Idle(c, s, day, weights, open, cap)
  {
    hide SalesFill, Desired, Wealth, Rebalanced, Reached, Buffered;
    CostsLeaveEnough(c, weights);
    BufferAlwaysPays(c, s, day, weights, open, cap);
  }
}
