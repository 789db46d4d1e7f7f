/** The modelled loss of an order never exceeds the budget it was sized for. */
module BrokerRisk {
  import opened Basics
  import opened Market
  import opened Ledger
  import opened BrokerModel
  import opened BrokerFacts
  import opened BrokerQuiet

  /** Loss per unit of one fill that later leaves at the stop. */
  function UnitLoss(cfg: Config, side: Side, price: real, feeRate: real, stop: real): real {
    Sign(side, price) + price * feeRate - StopProceeds(cfg, side, stop)
  }

  /** A fill the broker may give this order: part of it, at its limit or better, at its own fee. */
  predicate WithinOrder(cfg: Config, o: Order, qty: real, price: real, feeRate: real) {
    && 0.0 < qty <= o.remaining && Sign(o.proposal.side, price - o.limit) <= 0.0
    && feeRate == EntryFee(cfg, o.proposal)
  }

  lemma FillLoss(cfg: Config, side: Side, entries: seq<Fill>, stop: real, qty: real, price: real, feeRate: real)
    ensures StopLoss(cfg, side, entries + [Fill(qty, price, FeeOf(qty, price, feeRate))], stop)
            == StopLoss(cfg, side, entries, stop) + Mul(qty, UnitLoss(cfg, side, price, feeRate, stop))
    ensures StopLoss(cfg, side, [], stop) == 0.0
  {
    var proceeds := StopProceeds(cfg, side, stop);
    FillsAppend(entries, Fill(qty, price, FeeOf(qty, price, feeRate)));
    Distribute(Quantity(entries), qty, proceeds);
    Distribute(Sign(side, price) + price * feeRate, proceeds, qty);
    Distribute(Sign(side, price), price * feeRate, qty);
    assert qty * (price * feeRate) == FeeOf(qty, price, feeRate);
    hide StopProceeds, FeeOf;
  }

  lemma MoveCommitted(remaining: real, qty: real, unit: real, loss: real)
    requires 0.0 < qty <= remaining && unit >= 0.0
    ensures 0.0 <= Mul(remaining - qty, unit)
    ensures loss <= unit ==> Mul(qty, loss) + Mul(remaining - qty, unit) <= Mul(remaining, unit)
  {
    MulMono(0.0, unit, remaining - qty);
    Distribute(remaining, qty, unit);
    if loss <= unit {
      MulMono(loss, unit, qty);
    }
  }

  /** A fill moves at least its own modelled loss from the committed part of the budget to the position. */
  lemma OrderFillLoss(cfg: Config, o: Order, entries: seq<Fill>, stop: real, qty: real, price: real, feeRate: real)
    requires OrderGated(o) && WithinOrder(cfg, o, qty, price, feeRate)
    requires Sign(o.proposal.side, stop - o.proposal.stop) >= 0.0
    ensures var unit := UnitRisk(cfg, o.proposal, o.limit);
            && 0.0 <= Mul(o.remaining - qty, unit)
            && (RiskSafe(cfg, o.proposal.side) ==>
                  StopLoss(cfg, o.proposal.side, entries + [Fill(qty, price, FeeOf(qty, price, feeRate))], stop)
                  + Mul(o.remaining - qty, unit)
                  <= StopLoss(cfg, o.proposal.side, entries, stop) + Mul(o.remaining, unit))
  {
    var side := o.proposal.side;
    var unit := UnitRisk(cfg, o.proposal, o.limit);
    var loss := UnitLoss(cfg, side, price, feeRate, stop);
    FillLoss(cfg, side, entries, stop, qty, price, feeRate);
    UnitRiskPositive(cfg, o.proposal, o.limit);
    if RiskSafe(cfg, side) {
      UnitLossBound(cfg, o.proposal, o.limit, price, stop);
    }
    MoveCommitted(o.remaining, qty, unit, loss);
    hide FeeOf, UnitLoss, UnitRisk, StopLoss, StopDistance, Mul;
  }

  lemma LongArithmetic(limit: real, stop: real, exit: real, fee: real, taker: real, slip: real)
    requires 0.0 < stop < limit && 0.0 <= slip && 0.0 <= taker && exit == stop - stop * slip
    ensures limit + limit * fee - (exit - exit * taker) <= (limit - stop) + limit * (fee + taker + 2.0 * slip)
  {
    MulMono(0.0, stop, slip);
    MulMono(stop, limit, slip);
    MulMono(exit, limit, taker);
    var a, b, c := stop * slip, limit * slip, limit * taker;
    assert 0.0 <= a <= b && exit * taker <= c;
    assert limit * (fee + taker + 2.0 * slip) == limit * fee + limit * taker + 2.0 * (limit * slip);
  }

  lemma ShortArithmetic(limit: real, stop: real, exit: real, fee: real, taker: real, slip: real)
    requires 0.0 < limit < stop && stop - limit <= 0.05 * limit && 0.0 <= slip && 0.0 <= taker
    requires exit == stop + stop * slip && taker * (0.05 + 1.05 * slip) <= 0.95 * slip
    ensures -limit + limit * fee - (-exit - exit * taker) <= (stop - limit) + limit * (fee + taker + 2.0 * slip)
  {
    var extra := slip + taker + slip * taker;
    assert exit * taker == stop * taker + stop * (slip * taker);
    assert stop * extra == stop * slip + stop * taker + stop * (slip * taker);
    MulMono(0.0, slip, taker);
    MulMono(stop, 1.05 * limit, extra);
    assert taker * (0.05 + 1.05 * slip) == 0.05 * taker + 1.05 * (slip * taker);
    MulMono(1.05 * extra, taker + 2.0 * slip, limit);
    assert 1.05 * limit * extra == limit * (1.05 * extra);
    assert limit * (fee + taker + 2.0 * slip) == limit * fee + limit * (taker + 2.0 * slip);
  }

  lemma CheaperLong(price: real, limit: real, fee: real)
    requires price <= limit && 0.0 <= fee
    ensures price + price * fee <= limit + limit * fee
  {
    MulMono(price, limit, fee);
  }

  lemma DearerShort(price: real, limit: real, fee: real)
    requires limit <= price && fee <= 1.0
    ensures -price + price * fee <= -limit + limit * fee
  {
    var gap := price - limit;
    MulMono(fee, 1.0, gap);
    assert gap * fee == price * fee - limit * fee;
  }

  lemma WorstAtLimit(cfg: Config, side: Side, price: real, limit: real, feeRate: real, stop: real, planned: real)
    requires Sign(side, price - limit) <= 0.0 && Sign(side, stop - planned) >= 0.0 && 0.0 <= feeRate < 1.0
    ensures UnitLoss(cfg, side, price, feeRate, stop) <= UnitLoss(cfg, side, limit, feeRate, planned)
  {
    ProceedsGrow(cfg, side, planned, stop);
    if side.Long? {
      CheaperLong(price, limit, feeRate);
    } else {
      DearerShort(price, limit, feeRate);
    }
    hide StopProceeds;
  }

  lemma SlippedExit(cfg: Config, side: Side, stop: real)
    ensures Slipped(cfg, side.Opposite(), stop) == stop - Sign(side, stop * cfg.slip)
  {
  }

  /** Filled at the limit and stopped as planned, a unit loses at most the sizing unit. */
  lemma PlannedUnitLoss(cfg: Config, p: Proposal, limit: Positive)
    requires 0.0 < StopDistance(p, limit) <= 0.05 * limit && RiskSafe(cfg, p.side)
    ensures UnitLoss(cfg, p.side, limit, EntryFee(cfg, p), p.stop) <= UnitRisk(cfg, p, limit)
  {
    hide Slipped, EntryFee;
    var fee := EntryFee(cfg, p);
    var exit := Slipped(cfg, p.side.Opposite(), p.stop);
    SlippedExit(cfg, p.side, p.stop);
    if p.side.Long? {
      LongArithmetic(limit, p.stop, exit, fee, cfg.takerFee, cfg.slip);
    } else {
      ShortArithmetic(limit, p.stop, exit, fee, cfg.takerFee, cfg.slip);
    }
  }

  /** Any fill at the limit or better, stopped anywhere tighter than planned, loses at most the sizing unit. */
  lemma UnitLossBound(cfg: Config, p: Proposal, limit: Positive, price: real, stop: real)
    requires 0.0 < StopDistance(p, limit) <= 0.05 * limit
    requires Sign(p.side, price - limit) <= 0.0 && Sign(p.side, stop - p.stop) >= 0.0
    requires RiskSafe(cfg, p.side)
    ensures UnitLoss(cfg, p.side, price, EntryFee(cfg, p), stop) <= UnitRisk(cfg, p, limit)
  {
    WorstAtLimit(cfg, p.side, price, limit, EntryFee(cfg, p), stop, p.stop);
    PlannedUnitLoss(cfg, p, limit);
    hide UnitLoss, UnitRisk;
  }

  /** If the gate admits the proposal at this limit, a unit filled there and stopped loses at most its sizing unit. */
  ghost predicate UnitCovered(cfg: Config, p: Proposal, limit: Positive) {
    PassesCostGate(cfg, p, limit) ==>
      UnitLoss(cfg, p.side, limit, EntryFee(cfg, p), p.stop) <= UnitRisk(cfg, p, limit)
  }

  lemma GateFits(distance: real, price: Positive)
    requires distance / price <= 0.05
    ensures distance <= 0.05 * price
  {
    MulMono(distance / price, 0.05, price);
    assert (distance / price) * price == distance;
  }

  lemma GateBoundsStop(cfg: Config, p: Proposal, limit: Positive)
    requires PassesCostGate(cfg, p, limit)
    ensures 0.0 < StopDistance(p, limit) <= 0.05 * limit
  {
    GateFits(StopDistance(p, limit), limit);
  }

  /** The sizing covers every short the gate admits exactly when slippage dominates the taker fee this way. */
  lemma ShortSizingExact(cfg: Config)
    ensures (forall p: Proposal, limit: Positive :: p.side.Short? ==> UnitCovered(cfg, p, limit))
            <==> RiskSafe(cfg, Short)
  {
    if RiskSafe(cfg, Short) {
      forall p: Proposal, limit: Positive | p.side.Short?
        ensures UnitCovered(cfg, p, limit)
      {
        if PassesCostGate(cfg, p, limit) {
          GateBoundsStop(cfg, p, limit);
          UnitLossBound(cfg, p, limit, limit, p.stop);
        }
      }
    } else {
      UncoveredShort(cfg);
      assert !UnitCovered(cfg, WIDEST_SHORT, 1.0);
    }
  }

  /** Filled at 1 and stopped at 1.05, the widest stop the gate admits. */
  const WIDEST_SHORT: Proposal := Idea(0, Cascade, Short, false, 1.0, 1.05, 0.3, 1)

  lemma UncoveredShort(cfg: Config)
    requires !RiskSafe(cfg, Short)
    ensures PassesCostGate(cfg, WIDEST_SHORT, 1.0)
    ensures UnitLoss(cfg, Short, 1.0, EntryFee(cfg, WIDEST_SHORT), WIDEST_SHORT.stop) > UnitRisk(cfg, WIDEST_SHORT, 1.0)
  {
    hide RiskSafe;
    ExcessFee(cfg.takerFee, cfg.slip);
    SafeShort(cfg);
    assert UnitCosts(cfg, WIDEST_SHORT, 1.0) == 2.0 * cfg.takerFee + 2.0 * cfg.slip;
    WidestLoss(cfg);
    hide UnitLoss, UnitCosts;
  }

  lemma SafeShort(cfg: Config)
    ensures RiskSafe(cfg, Short) <==> 0.05 * cfg.takerFee + 1.05 * Mul(cfg.takerFee, cfg.slip) <= 0.95 * cfg.slip
  {
    Distribute(0.05, 1.05 * cfg.slip, cfg.takerFee);
  }

  /** A fee that outweighs slippage this way is possible only with little slippage. */
  lemma ExcessFee(fee: real, slip: real)
    requires 0.0 <= fee <= 0.1 && slip >= 0.0
    ensures 0.05 * fee + 1.05 * Mul(fee, slip) > 0.95 * slip ==> slip < 0.01
  {
    MulMono(fee, 0.1, slip);
  }

  lemma WidestLoss(cfg: Config)
    ensures UnitLoss(cfg, Short, 1.0, EntryFee(cfg, WIDEST_SHORT), 1.05)
         == 0.05 + 1.05 * cfg.slip + 2.0 * cfg.takerFee + 0.05 * cfg.takerFee + 1.05 * Mul(cfg.takerFee, cfg.slip)
  {
    assert Slipped(cfg, Long, 1.05) == 1.05 + 1.05 * cfg.slip;
    Distribute(1.05, 1.05 * cfg.slip, cfg.takerFee);
  }

  /** Longs are covered whatever the fees. */
  lemma LongSizingCovers(cfg: Config, p: Proposal, limit: Positive)
    requires p.side.Long?
    ensures UnitCovered(cfg, p, limit)
  {
    if PassesCostGate(cfg, p, limit) {
      GateBoundsStop(cfg, p, limit);
      UnitLossBound(cfg, p, limit, limit, p.stop);
    }
  }
}
