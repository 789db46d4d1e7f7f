/** What an accepted entry order always satisfies, and where the latches must set. */
module BrokerOrders {
  import opened Basics
  import opened Market
  import opened Ledger
  import opened BrokerModel
  import opened BrokerFacts
  import opened BrokerRisk

  /** The account is flat, free of orders and latches, cooled down, and sees a fresh book well before funding. */
  predicate Clear(cfg: Config, s: State, p: Proposal, allowed: bool) {
    && p.time == s.now && s.desk.position.None? && s.desk.pending.None?
    && !s.guard.halted && !s.guard.dayHalted && !s.guard.incomplete && s.now - s.desk.lastExit >= MINUTE
    && !cfg.mode.Observe? && (cfg.mode.Calibrated? ==> allowed)
    && Fresh(cfg, s.now, s.feed) && s.feed.instrument.Some?
    && s.feed.nextFunding.Some? && s.feed.nextFunding.value > s.now + 5000
  }

  /** A passive price never reaches the market; an aggressive one stays within its band beyond the touch. */
  predicate PricedFairly(cfg: Config, book: BookView, p: Proposal, limit: real) {
    var band := Max(0.0005, 2.0 * cfg.slip);
    if p.passive then Sign(p.side, Touch(book, p.side) - limit) >= 0.0
    else 0.0 <= Sign(p.side, limit - Touch(book, p.side.Opposite())) <= Touch(book, p.side.Opposite()) * band
  }

  /** Whole steps, at least the venue's minimum, within the exposure cap and the risk budget. */
  ghost predicate SizedFairly(cfg: Config, s: State, o: Order)
    requires s.feed.instrument.Some?
  {
    var i := s.feed.instrument.value;
    && Whole(o.remaining, i.step) && o.remaining >= i.minQty && o.remaining * o.limit >= i.minNotional
    && o.remaining * o.limit <= s.desk.cash * cfg.exposure
    && o.remaining * UnitRisk(cfg, o.proposal, o.limit) <= o.riskBudget
    && o.riskBudget == RiskBudget(cfg, s)
  }

  lemma SizeFits(cfg: Config, cash: real, budget: real, p: Proposal, price: Positive, step: Positive)
    requires StopDistance(p, price) > 0.0 && OrderSize(cfg, cash, budget, p, price, step) > 0.0
    ensures var q := OrderSize(cfg, cash, budget, p, price, step);
            Whole(q, step) && q * price <= cash * cfg.exposure && q * UnitRisk(cfg, p, price) <= budget
  {
    hide UnitRisk, Whole;
    UnitRiskPositive(cfg, p, price);
    var q := OrderSize(cfg, cash, budget, p, price, step);
    QuotientFits(q, budget, UnitRisk(cfg, p, price));
    QuotientFits(q, cash * cfg.exposure, price);
  }

  lemma LimitFair(cfg: Config, book: BookView, tick: Positive, p: Proposal)
    ensures PricedFairly(cfg, book, p, LimitPrice(cfg, book, tick, p))
  {
    hide Whole;
    if !p.passive {
      var best := Touch(book, p.side.Opposite());
      MulMono(0.0, Max(0.0005, 2.0 * cfg.slip), best);
      Distribute(1.0, Sign(p.side, Max(0.0005, 2.0 * cfg.slip)), best);
    }
  }

  /** Every accepted entry order was clear to enter, is priced and sized fairly, and is worth its costs. */
  lemma AcceptedOrder(cfg: Config, s: State, p: Proposal, allowed: bool)
    requires Sane(s) && Propose(cfg, s, p, allowed).1.Accepted?
    ensures Clear(cfg, s, p, allowed)
    ensures var o := Propose(cfg, s, p, allowed).0.desk.pending;
            && o.Some? && o.value.proposal == p && PricedFairly(cfg, s.feed.book.value, p, o.value.limit)
            && SizedFairly(cfg, s, o.value) && PassesCostGate(cfg, p, o.value.limit)
            && o.value.active == s.now + cfg.latency && o.value.expires == s.now + cfg.ttl && !o.value.activated
  {
    hide Whole, OrderSize, UnitRisk, StopDistance, UnitCosts, Redirect, Touch, LimitPrice, PricedFairly,
         RiskFraction, OpenValue;
    var seen := s.(proposals := s.proposals + 1, desk := Record(s.now, s.desk, ProposalSeen(p.family, p.side)));
    SubmittedOrder(cfg, seen, p);
    hide PassesCostGate;
    assert RiskBudget(cfg, seen) == RiskBudget(cfg, s);
  }

  lemma SubmittedOrder(cfg: Config, s: State, p: Proposal)
    requires s.feed.book.Some? && s.feed.instrument.Some? && Submit(cfg, s, p).1.Accepted?
    ensures var o := Submit(cfg, s, p).0.desk.pending;
            && o.Some? && o.value.proposal == p && PricedFairly(cfg, s.feed.book.value, p, o.value.limit)
            && SizedFairly(cfg, s, o.value) && PassesCostGate(cfg, p, o.value.limit)
  {
    hide Whole, OrderSize, UnitRisk, StopDistance, UnitCosts, Touch, LimitPrice, PricedFairly, RiskBudget;
    var i := s.feed.instrument.value;
    var price := LimitPrice(cfg, s.feed.book.value, i.tick, p);
    LimitFair(cfg, s.feed.book.value, i.tick, p);
    SizeFits(cfg, s.desk.cash, RiskBudget(cfg, s), p, price, i.step);
  }

  // ---------------------------------------------------------------- latches

  /** With equity known, the peak covers it, and each latch is set at or beyond its threshold. */
  predicate Latched(cfg: Config, s: State) {
    var eq := Equity(cfg, s.now, s.desk, s.feed);
    eq.Some? ==>
      && s.guard.peak >= eq.value && s.guard.day == Some(s.now / DAY)
      && (Drawdown(eq.value, s.guard.peak) >= 0.07 ==> s.guard.halted)
      && (eq.value <= s.guard.dayStart * 0.99 ==> s.guard.dayHalted)
  }

  lemma EquityIgnoresOrders(cfg: Config, now: int, d: Desk, f: Feed, reason: Reason)
    ensures Equity(cfg, now, Cancel(cfg, now, d, reason), f) == Equity(cfg, now, d, f)
    ensures Equity(cfg, now, RequestExit(cfg, now, d, reason), f) == Equity(cfg, now, d, f)
  {
    hide OpenValue;
  }

  lemma CircuitLatches(cfg: Config, s: State)
    ensures Latched(cfg, Circuit(cfg, s))
  {
    hide Drawdown, OpenValue, Cancel, RequestExit, Equity;
    EquityIgnoresOrders(cfg, s.now, s.desk, s.feed, RiskHalt);
    EquityIgnoresOrders(cfg, s.now, Cancel(cfg, s.now, s.desk, RiskHalt), s.feed, RiskHalt);
  }

  /** After every processed event an account whose equity is known cannot be past a threshold without its latch. */
  lemma HaltsAtThreshold(cfg: Config, s: State, e: Event)
    requires Sane(s) && OnEvent(cfg, s, e).1.Done?
    ensures Latched(cfg, OnEvent(cfg, s, e).0)
  {
    hide Dispatch, CaptureFunding, Deadline, Maintenance, Circuit, Latched;
    var s1 := Arrive(cfg, s, e.received);
    CircuitLatches(cfg, Maintenance(cfg, s1));
    if e.source == cfg.venue {
      CircuitLatches(cfg, Maintenance(cfg, Dispatch(cfg, s1, e).0));
    }
  }
}
