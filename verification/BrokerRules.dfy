/** When the paper broker enters, how much, at what price, and when its latches set, in terms of prices and times. */
module BrokerRules {
  import opened Basics
  import opened Market
  import opened Ledger
  import opened BrokerModel
  import opened BrokerFacts

  /** A book no older than allowed and not from the future. */
  predicate Current(cfg: Config, now: int, f: Feed) {
    f.book.Some? && f.time <= now <= f.time + cfg.bookAge
  }

  lemma FreshIs(cfg: Config, now: int, f: Feed)
    ensures Fresh(cfg, now, f) <==> Current(cfg, now, f)
  {
  }

  /** Best price at which a long can be sold, or a short bought back. */
  function ExitTouch(b: BookView, side: Side): Positive {
    if side.Long? then b.bids[0].price else b.asks[0].price
  }

  function EntryTouch(b: BookView, side: Side): Positive {
    if side.Long? then b.asks[0].price else b.bids[0].price
  }

  function Gained(p: Position, price: real): real {
    if p.side.Long? then Mul(p.qty, price - p.entry) else Mul(p.qty, p.entry - price)
  }

  lemma GainIs(p: Position, price: real)
    ensures Gain(p.side, p.qty, p.entry, price) == Gained(p, price)
  {
  }

  /** Cash and what closing at the touch would bring, less its taker fee. */
  function WorthNow(cfg: Config, d: Desk, b: BookView): real {
    if d.position.None? then d.cash
    else
      var p := d.position.value;
      d.cash + Gained(p, ExitTouch(b, p.side)) - p.qty * ExitTouch(b, p.side) * cfg.takerFee
  }

  /** Equity is known when flat or with a current book, and is then that worth. */
  lemma EquityExactly(cfg: Config, now: int, d: Desk, f: Feed)
    ensures var eq := Equity(cfg, now, d, f);
            if d.position.None? then eq == Some(d.cash)
            else if Current(cfg, now, f) then eq.Some? && eq.value == WorthNow(cfg, d, f.book.value)
            else eq.None?
  {
    if d.position.Some? && Current(cfg, now, f) {
      GainIs(d.position.value, ExitTouch(f.book.value, d.position.value.side));
    }
    hide Gain, Gained;
  }

  // ---------------------------------------------------------------- risk by drawdown

  lemma DrawdownReaches(eq: real, peak: Positive, x: real)
    ensures Drawdown(eq, peak) >= x <==> eq <= (1.0 - x) * peak
  {
    QuotientOrder(1.0 - x, eq, peak);
  }

  lemma DrawdownIs(eq: real, peak: Positive)
    ensures eq == (1.0 - Drawdown(eq, peak)) * peak
  {
    var share := eq / peak;
    assert eq == share * peak;
  }

  /** Full risk above 97 percent of the peak, half down to 95, and at most a thousandth below; none if unknown. */
  lemma RiskExactly(cfg: Config, eq: real, peak: Positive)
    ensures RiskFraction(cfg, Some(eq), peak)
         == if eq > 0.97 * peak then cfg.risk
            else if eq > 0.95 * peak then cfg.risk / 2.0
            else if cfg.risk / 2.0 <= 0.001 then cfg.risk / 2.0 else 0.001
    ensures RiskFraction(cfg, None, peak) == 0.0
  {
    DrawdownReaches(eq, peak, 0.03);
    DrawdownReaches(eq, peak, 0.05);
    hide Drawdown;
  }

  /** The deeper the drawdown, the less is risked. */
  lemma DeeperRisksLess(cfg: Config, low: real, high: real, peak: Positive)
    requires low <= high
    ensures 0.0 < RiskFraction(cfg, Some(low), peak) <= RiskFraction(cfg, Some(high), peak) <= cfg.risk
  {
    RiskExactly(cfg, low, peak);
    RiskExactly(cfg, high, peak);
    hide RiskFraction;
  }

  /** A flat account risks on one order that share of its cash, full, halved or at most a thousandth by its drawdown. */
  lemma BudgetExactly(cfg: Config, s: State)
    requires s.desk.position.None?
    ensures var cash, peak := s.desk.cash, s.guard.peak;
            RiskBudget(cfg, s)
            == Mul(cash, if cash > 0.97 * peak then cfg.risk
                         else if cash > 0.95 * peak || cfg.risk <= 0.002 then cfg.risk / 2.0
                         else 0.001)
  {
    RiskExactly(cfg, s.desk.cash, s.guard.peak);
    hide RiskFraction;
  }

  // ---------------------------------------------------------------- price, gate and size

  /** A passive order rests at its own touch, rounded away from the market by less than a tick. */
  ghost predicate JoinsTouch(limit: real, side: Side, b: BookView, tick: Positive) {
    && Whole(limit, tick)
    && if side.Long? then b.bids[0].price - tick < limit <= b.bids[0].price
       else b.asks[0].price <= limit < b.asks[0].price + tick
  }

  /** An immediate order reaches beyond the far touch by the larger of five basis points and twice the slippage. */
  predicate ReachesBeyond(cfg: Config, limit: real, side: Side, b: BookView) {
    var band := if 2.0 * cfg.slip >= 0.0005 then 2.0 * cfg.slip else 0.0005;
    limit == if side.Long? then b.asks[0].price * (1.0 + band) else b.bids[0].price * (1.0 - band)
  }

  lemma PricesExactly(cfg: Config, b: BookView, tick: Positive, p: Proposal)
    ensures var limit := LimitPrice(cfg, b, tick, p);
            if p.passive then JoinsTouch(limit, p.side, b, tick) else ReachesBeyond(cfg, limit, p.side, b)
  {
    hide Whole;
    if !p.passive {
      Offset(p.side, Touch(b, p.side.Opposite()), Max(0.0005, 2.0 * cfg.slip));
    }
  }

  function CostsPerUnit(cfg: Config, p: Proposal, price: real): real {
    price * ((if p.passive then cfg.makerFee else cfg.takerFee) + cfg.takerFee + 2.0 * cfg.slip)
  }

  /** Distance from the limit to the stop, on the losing side. */
  function ToStop(p: Proposal, price: real): real {
    if p.side.Long? then price - p.stop else p.stop - price
  }

  /** A stop on the losing side within five percent, and a target worth half again the stop and thrice the costs. */
  predicate WorthCosts(cfg: Config, p: Proposal, price: real) {
    && price > 0.0 && 0.0 < ToStop(p, price) <= 0.05 * price
    && var reward := if p.side.Long? then p.target - price else price - p.target;
       reward >= 1.5 * ToStop(p, price) && reward >= 3.0 * CostsPerUnit(cfg, p, price)
  }

  lemma GateIs(cfg: Config, p: Proposal, price: real)
    ensures PassesCostGate(cfg, p, price) <==> WorthCosts(cfg, p, price)
  {
    if price > 0.0 {
      QuotientOrder(0.05, ToStop(p, price), price);
    }
    hide CostsPerUnit, UnitCosts;
    assert CostsPerUnit(cfg, p, price) == UnitCosts(cfg, p, price) by { CostsAre(cfg, p, price); }
  }

  lemma CostsAre(cfg: Config, p: Proposal, price: real)
    ensures UnitCosts(cfg, p, price) == CostsPerUnit(cfg, p, price)
  {
  }

  /** Stopped out with all costs it loses at most the budget, and its value is within the exposure cap. */
  predicate Affords(cfg: Config, cash: real, budget: real, p: Proposal, price: real, qty: real) {
    Mul(qty, ToStop(p, price) + CostsPerUnit(cfg, p, price)) <= budget && Mul(qty, price) <= Mul(cash, cfg.exposure)
  }

  lemma UnitIs(cfg: Config, p: Proposal, price: real)
    ensures UnitRisk(cfg, p, price) == ToStop(p, price) + CostsPerUnit(cfg, p, price)
  {
    CostsAre(cfg, p, price);
    hide UnitCosts, CostsPerUnit;
  }

  /** The order size is the largest number of whole steps that budget and cap allow. */
  lemma LargestOrder(cfg: Config, cash: real, budget: real, p: Proposal, price: Positive, step: Positive, qty: real)
    requires StopDistance(p, price) > 0.0 && Whole(qty, step)
    ensures var size := OrderSize(cfg, cash, budget, p, price, step);
            && Whole(size, step) && (size > 0.0 ==> Affords(cfg, cash, budget, p, price, size))
            && (qty > 0.0 && Affords(cfg, cash, budget, p, price, qty) ==> qty <= size)
  {
    hide RoundDown, Whole, UnitRisk, CostsPerUnit, ToStop, StopDistance, Most, Mul, OrderSize;
    UnitRiskPositive(cfg, p, price);
    UnitIs(cfg, p, price);
    var unit := UnitRisk(cfg, p, price);
    var size := OrderSize(cfg, cash, budget, p, price, step);
    var most := Most(budget, unit, Mul(cash, cfg.exposure), price);
    SizeIs(cfg, cash, budget, p, price, step);
    FitsBoth(budget, unit, Mul(cash, cfg.exposure), price, size);
    FitsBoth(budget, unit, Mul(cash, cfg.exposure), price, qty);
    if 0.0 < qty <= most {
      RoundDownLargest(qty, most, step);
    }
  }

  lemma SizeIs(cfg: Config, cash: real, budget: real, p: Proposal, price: Positive, step: Positive)
    requires StopDistance(p, price) > 0.0 && UnitRisk(cfg, p, price) > 0.0
    ensures OrderSize(cfg, cash, budget, p, price, step)
         == RoundDown(Most(budget, UnitRisk(cfg, p, price), Mul(cash, cfg.exposure), price), step)
  {
    hide RoundDown, Most;
  }

  lemma FitsBoth(budget: real, unit: Positive, cap: real, price: Positive, qty: real)
    ensures qty <= Most(budget, unit, cap, price) <==> Mul(qty, unit) <= budget && Mul(qty, price) <= cap
  {
    QuotientOrder(qty, budget, unit);
    QuotientOrder(qty, cap, price);
  }

  // ---------------------------------------------------------------- proposals

  /** Nothing stands in the way of an entry now. */
  predicate MayEnter(cfg: Config, s: State, allowed: bool) {
    && s.desk.position.None? && s.desk.pending.None?
    && !s.guard.halted && !s.guard.dayHalted && !s.guard.incomplete && s.now >= s.desk.lastExit + 60_000
    && !cfg.mode.Observe? && (cfg.mode.Calibrated? ==> allowed)
    && Current(cfg, s.now, s.feed) && s.feed.instrument.Some?
    && s.feed.nextFunding.Some? && s.feed.nextFunding.value > s.now + 5_000
  }

  /** Whole steps, at least the venue's minimum in size and value, affordable. */
  ghost predicate Placeable(cfg: Config, s: State, p: Proposal, limit: real, qty: real)
    requires s.feed.instrument.Some?
  {
    var i := s.feed.instrument.value;
    && Whole(qty, i.step) && qty >= i.minQty && Mul(qty, limit) >= i.minNotional
    && Affords(cfg, s.desk.cash, RiskBudget(cfg, s), p, limit, qty)
  }

  lemma SmallIs(i: Instrument, qty: real, price: real)
    ensures TooSmall(i, qty, price) <==> qty < i.minQty || Mul(qty, price) < i.minNotional
  {
  }

  /** The proposal is worth its costs at its limit, and some size can be placed. */
  ghost predicate WorthPlacing(cfg: Config, s: State, p: Proposal)
    requires s.feed.book.Some? && s.feed.instrument.Some?
  {
    var limit := LimitPrice(cfg, s.feed.book.value, s.feed.instrument.value.tick, p);
    WorthCosts(cfg, p, limit) && exists q :: Placeable(cfg, s, p, limit, q)
  }

  /** The largest placeable size at the proposal's limit, live after the latency, until its time to live. */
  ghost predicate BestOrder(cfg: Config, s: State, p: Proposal, o: Order)
    requires s.feed.book.Some? && s.feed.instrument.Some?
  {
    var limit := LimitPrice(cfg, s.feed.book.value, s.feed.instrument.value.tick, p);
    && o == o.(proposal := p, limit := o.limit, active := s.now + cfg.latency, expires := s.now + cfg.ttl,
               cancelAt := None, activated := false, queue := 0.0)
    && o.limit == limit && o.riskBudget == RiskBudget(cfg, s)
    && Placeable(cfg, s, p, limit, o.remaining)
    && forall q | Placeable(cfg, s, p, limit, q) :: q <= o.remaining
  }

  /** What submission comes to once nothing stands in the way. */
  lemma SubmitsExactly(cfg: Config, s: State, p: Proposal)
    requires s.feed.book.Some? && s.feed.instrument.Some?
    ensures var (t, reply) := Submit(cfg, s, p);
            && (reply.Accepted? <==> WorthPlacing(cfg, s, p))
            && (reply.Accepted? ==> t.desk.pending.Some? && BestOrder(cfg, s, p, t.desk.pending.value))
            && (!reply.Accepted? ==> t.desk.pending == s.desk.pending && reply.Declined?)
  {
    hide Whole, OrderSize, WorthCosts, Affords, LimitPrice, RiskBudget, TooSmall, UnitRisk, UnitCosts;
    var i := s.feed.instrument.value;
    var limit := LimitPrice(cfg, s.feed.book.value, i.tick, p);
    var budget := RiskBudget(cfg, s);
    GateIs(cfg, p, limit);
    if PassesCostGate(cfg, p, limit) {
      var size := OrderSize(cfg, s.desk.cash, budget, p, limit, i.step);
      SmallIs(i, size, limit);
      NothingWhole(i.step);
      LargestOrder(cfg, s.desk.cash, budget, p, limit, i.step, 0.0);
      forall q | Placeable(cfg, s, p, limit, q)
        ensures q <= size && Mul(q, limit) <= Mul(size, limit)
      {
        LargestOrder(cfg, s.desk.cash, budget, p, limit, i.step, q);
        MulMono(q, size, limit);
      }
      assert Placeable(cfg, s, p, limit, size) <==> !TooSmall(i, size, limit);
    }
    hide PassesCostGate, Placeable, Mul;
  }

  lemma NothingWhole(step: Positive)
    ensures Whole(0.0, step)
  {
    assert 0.0 == Times(0, step);
  }

  /**
   A proposal of the present moment is accepted exactly when nothing stands in the way, it is worth its costs at its
   limit, and some placeable size exists; the largest such size is submitted.
   */
  lemma AcceptsExactly(cfg: Config, s: State, p: Proposal, allowed: bool)
    requires Sane(s)
    ensures var (t, reply) := Propose(cfg, s, p, allowed);
            && (reply.Rejected? <==> p.time != s.now)
            && (reply.Accepted? <==> p.time == s.now && MayEnter(cfg, s, allowed) && WorthPlacing(cfg, s, p))
            && (reply.Accepted? ==> t.desk.pending.Some? && BestOrder(cfg, s, p, t.desk.pending.value))
  {
    hide Submit, WorthPlacing, BestOrder, Redirect, Fresh, Current;
    FreshIs(cfg, s.now, s.feed);
    CurrentSees(cfg, s.now, s.feed);
    var seen := s.(proposals := s.proposals + 1, desk := Record(s.now, s.desk, ProposalSeen(p.family, p.side)));
    if s.feed.book.Some? && s.feed.instrument.Some? {
      SubmitsExactly(cfg, seen, p);
      var t := Submit(cfg, seen, p).0;
      SeenAlike(cfg, s, seen, p,
                if t.desk.pending.Some? then t.desk.pending.value
                else Order(p, 0.0, 1.0, 0, 0, None, false, 0.0, 1.0));
    }
  }

  /** What a flat account logs of a present proposal: that it was seen, then the order or the first block in its way. */
  lemma BlocksNamed(cfg: Config, s: State, p: Proposal, allowed: bool)
    requires Sane(s) && s.desk.position.None? && p.time == s.now
    ensures var (t, reply) := Propose(cfg, s, p, allowed);
            var seen := s.desk.events + [Noted(s.now, ProposalSeen(p.family, p.side))];
            var blocked := cfg.mode.Observe? || (cfg.mode.Calibrated? && !allowed);
            var waits := s.desk.pending.Some? || s.guard.halted || s.guard.dayHalted || s.guard.incomplete
                         || s.now < s.desk.lastExit + 60_000;
            && (cfg.mode.Observe? ==> t.desk.events == seen + [Noted(s.now, ObserveOnly)])
            && (cfg.mode.Calibrated? && !allowed ==> t.desk.events == seen + [Noted(s.now, NotCalibrated)])
            && (!blocked && waits ==> t.desk.events == seen)
            && (!blocked && !waits && !MayEnter(cfg, s, allowed) ==>
                  t.desk.events == seen + [Noted(s.now, MissingContext)])
            && (MayEnter(cfg, s, allowed) && !reply.Accepted? ==>
                  t.desk.events == seen || t.desk.events == seen + [Noted(s.now, CostOrStopGate)])
            && (reply.Accepted? ==>
                  && t.desk.pending.Some?
                  && var o := t.desk.pending.value;
                     t.desk.events == seen + [EntrySubmitted(s.now, o.remaining, o.limit, p.passive)])
  {
    hide LimitPrice, PassesCostGate, OrderSize, RiskBudget, TooSmall, Fresh, Current;
    FreshIs(cfg, s.now, s.feed);
    CurrentSees(cfg, s.now, s.feed);
  }

  /** Counting and logging a proposal changes nothing it is judged by. */
  lemma SeenAlike(cfg: Config, s: State, t: State, p: Proposal, o: Order)
    requires s.feed.book.Some? && s.feed.instrument.Some?
    requires t == s.(proposals := t.proposals, desk := s.desk.(events := t.desk.events))
    ensures WorthPlacing(cfg, t, p) == WorthPlacing(cfg, s, p)
    ensures BestOrder(cfg, t, p, o) == BestOrder(cfg, s, p, o)
  {
    hide Whole, WorthCosts, LimitPrice, RiskFraction, Fresh, OpenValue, Affords;
    assert RiskBudget(cfg, t) == RiskBudget(cfg, s);
    hide RiskBudget;
    forall limit: real, q: real
      ensures Placeable(cfg, t, p, limit, q) == Placeable(cfg, s, p, limit, q)
    {
    }
    hide Placeable;
  }

  lemma CurrentSees(cfg: Config, now: int, f: Feed)
    ensures Current(cfg, now, f) ==> f.book.Some?
  {
  }

  // ---------------------------------------------------------------- latches

  /** Each latch sets exactly at its threshold, the day's on a start that a new day resets with its latch. */
  lemma LatchesExactly(g: Guard, now: int, eq: real)
    ensures var m := Marked(g, now, eq);
            var today := now / 86_400_000;
            && m.peak >= g.peak && m.peak >= eq && (m.peak == g.peak || m.peak == eq)
            && m.day == Some(today) && m.dayStart == (if g.day == Some(today) then g.dayStart else eq)
            && (m.halted <==> g.halted || eq <= 0.93 * m.peak)
            && (m.dayHalted <==> (g.day == Some(today) && g.dayHalted) || eq <= 0.99 * m.dayStart)
            && m.incomplete == g.incomplete
            && m.maxDrawdown >= g.maxDrawdown && eq >= (1.0 - m.maxDrawdown) * m.peak
            && (m.maxDrawdown == g.maxDrawdown || eq == (1.0 - m.maxDrawdown) * m.peak)
  {
    var peak := Max(g.peak, eq);
    DrawdownReaches(eq, peak, 0.07);
    DrawdownReaches(eq, peak, Marked(g, now, eq).maxDrawdown);
    DrawdownIs(eq, peak);
    hide Drawdown;
  }

  /** The circuit breaker marks the equity when it is known, and a latch then asks for a cancel and an exit. */
  lemma CircuitExactly(cfg: Config, s: State)
    ensures var eq, t := Equity(cfg, s.now, s.desk, s.feed), Circuit(cfg, s);
            if eq.None? then t == s
            else
              var g := Marked(s.guard, s.now, eq.value);
              && t == s.(guard := g, desk := s.desk.(pending := t.desk.pending, exitOrder := t.desk.exitOrder,
                                                     events := t.desk.events))
              && (if g.halted || g.dayHalted then
                    && (t.desk.pending.Some? <==> s.desk.pending.Some?)
                    && (s.desk.pending.Some? ==>
                          t.desk.pending.value.cancelAt ==
                          (if s.desk.pending.value.cancelAt.None? then Some(s.now + cfg.latency)
                           else s.desk.pending.value.cancelAt))
                    && (t.desk.exitOrder ==
                        if s.desk.position.Some? && s.desk.exitOrder.None? then
                          Some(ExitOrder(s.now + cfg.latency, RiskHalt, -1))
                        else s.desk.exitOrder)
                  else t.desk == s.desk)
  {
    hide Equity, Marked;
  }
}
