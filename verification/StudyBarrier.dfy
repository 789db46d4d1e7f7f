/** The older study's barrier leaves the exit's own costs out, and misses the threshold by exactly those. */
module StudyBarrier {
  import opened Basics
  import opened MinuteModel
  import opened MinuteTheorems

  /** The price at which the position's value, before any exit cost, brings equity to the threshold. */
  function RiskStop(floor: real, cash: real, h: Holding): real {
    h.entry + Sign(h.side, (floor - cash) / h.qty)
  }

  /** Slippage and fee of leaving at a raw price. */
  function ExitCost(costs: Costs, h: Holding, raw: real): real {
    Sign(h.side, Mul(raw, h.qty) - Mul(raw, Unit(costs, h)))
  }

  lemma AtRiskStop(floor: real, cash: real, h: Holding)
    ensures Sign(h.side, Mul(RiskStop(floor, cash, h), h.qty) - h.qty * h.entry) == floor - cash
  {
    var x := (floor - cash) / h.qty;
    assert x * h.qty == floor - cash;
    if h.side.Long? {
      Distribute(h.entry, x, h.qty);
    } else {
      Distribute(h.entry, x, h.qty);
      assert Mul(h.entry - x, h.qty) == h.entry * h.qty - x * h.qty;
    }
  }

  /** Leaving exactly at the study's barrier leaves the threshold less the costs of leaving. */
  lemma ShortByExitCost(costs: Costs, floor: real, cash: real, h: Holding)
    ensures Liquid(costs, cash, h, RiskStop(floor, cash, h)) == floor - ExitCost(costs, h, RiskStop(floor, cash, h))
  {
    hide Liquid, Unit;
    var raw := RiskStop(floor, cash, h);
    AtRiskStop(floor, cash, h);
    LiquidLinear(costs, cash, h, raw);
    assert raw * Unit(costs, h) == Mul(raw, Unit(costs, h));
    hide RiskStop, Mul;
  }

  lemma NetIsOne(costs: Costs, side: Side)
    ensures Sign(side, 1.0 - Net(costs, side)) >= 0.0
    ensures Net(costs, side) == 1.0 <==> costs.fee == 0.0 && costs.slip == 0.0
  {
    hide Mul;
    Fraction(1.0, 1.0);
    Magnified(1.0, 1.0);
    if side.Long? {
      Fraction(1.0 - costs.slip, 1.0 - costs.fee);
      Fraction(1.0 - costs.fee, 1.0 - costs.slip);
    } else {
      Magnified(1.0 + costs.slip, 1.0 + costs.fee);
      Magnified(1.0 + costs.fee, 1.0 + costs.slip);
    }
  }

  lemma CostOf(costs: Costs, h: Holding, raw: Positive)
    ensures ExitCost(costs, h, raw) == Mul(Mul(raw, h.qty), Sign(h.side, 1.0 - Net(costs, h.side)))
  {
    var n := Net(costs, h.side);
    hide Net;
    assert Mul(raw, Unit(costs, h)) == raw * h.qty * n;
    Distribute(1.0, n, raw * h.qty);
  }

  /** So the study's barrier keeps the threshold exactly when leaving is free. */
  lemma KeepsThresholdOnlyFree(costs: Costs, floor: real, cash: real, h: Holding)
    requires RiskStop(floor, cash, h) > 0.0
    ensures Liquid(costs, cash, h, RiskStop(floor, cash, h)) >= floor <==> costs.fee == 0.0 && costs.slip == 0.0
  {
    hide Liquid, ExitCost, RiskStop, Net;
    var raw := RiskStop(floor, cash, h);
    ShortByExitCost(costs, floor, cash, h);
    CostOf(costs, h, raw);
    NetIsOne(costs, h.side);
    PositiveProduct(raw, h.qty);
    Vanishes(Mul(raw, h.qty), Sign(h.side, 1.0 - Net(costs, h.side)));
    hide Mul;
  }

  lemma Vanishes(x: Positive, y: Size)
    ensures Mul(x, y) >= 0.0 && (Mul(x, y) == 0.0 <==> y == 0.0)
  {
    if y > 0.0 {
      PositiveProduct(x, y);
    }
  }
}
