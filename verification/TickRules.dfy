/** What the tick broker does with a signal, a quote and a print, in terms of their own prices and times. */
module TickRules {
  import opened Basics
  import opened TickMarket
  import opened TickModel
  import MakerQueue

  /** A quote no older than allowed and not from the future. */
  predicate Current(p: Parameters, now: int, quote: Option<Quote>) {
    quote.Some? && quote.value.ts <= now <= quote.value.ts + p.quoteMaxAge
  }

  /** A price on the passive side of the spread: a purchase below the ask, a sale above the bid. */
  predicate Passively(side: Side, limit: real, quote: Quote) {
    if side.Long? then limit < quote.ask else limit > quote.bid
  }

  /** Displayed at the touch the order joins. */
  function Shown(side: Side, quote: Quote): Size {
    if side.Long? then quote.bidQty else quote.askQty
  }

  // ---------------------------------------------------------------- submission

  predicate MayTrade(p: Parameters, s: State, now: int, quote: Option<Quote>) {
    && !s.limits.halted && !s.limits.dayHalted && !s.limits.incomplete
    && s.account.position.None? && s.orders.pending.None? && now >= s.account.lastExit + p.cooldown
    && Current(p, now, quote)
  }

  /** The gain from the limit to the target, as a fraction of the limit. */
  function GainFraction(signal: Signal): real {
    if signal.side.Long? then signal.target / signal.limit - 1.0 else 1.0 - signal.target / signal.limit
  }

  /** Passive, between the first and the 469th minute of the eight hours, and worth twice its stop and thrice its costs. */
  predicate WorthTrading(p: Parameters, signal: Signal, quote: Quote) {
    && Passively(signal.side, signal.limit, quote)
    && 1 <= signal.ts / 60_000 % 480 <= 469
    && GainFraction(signal) >= 2.0 * signal.stopFraction
    && GainFraction(signal) >= 3.0 * (p.maker + p.taker + 2.0 * p.slippage)
  }

  /** Within the exposure cap, and within the risk budget if stopped, costs included. */
  predicate Affords(p: Parameters, cash: real, signal: Signal, qty: real) {
    && Mul(qty, signal.limit) <= cash * p.maxExposure
    && Mul(Mul(qty, signal.limit), signal.stopFraction + (p.maker + p.taker + 2.0 * p.slippage)) <= cash * p.riskFraction
  }

  lemma CapFits(cap: real, budget: real, unit: Positive, limit: Positive, qty: real)
    ensures qty <= Min(cap, budget / unit) / limit <==> Mul(qty, limit) <= cap && Mul(Mul(qty, limit), unit) <= budget
  {
    var most := Min(cap, budget / unit);
    if qty <= most / limit {
      QuotientFits(qty, most, limit);
      QuotientFits(Mul(qty, limit), budget, unit);
    }
    if Mul(qty, limit) <= cap && Mul(Mul(qty, limit), unit) <= budget {
      FitsQuotient(Mul(qty, limit), budget, unit);
      FitsQuotient(qty, most, limit);
    }
  }

  /** The order size is the largest number of whole lots that cap and budget allow. */
  lemma LargestOrder(p: Parameters, cash: real, signal: Signal, qty: real)
    requires signal.stopFraction >= 0.001 && Whole(qty, p.lot)
    ensures var size := OrderSize(p, cash, signal);
            && Whole(size, p.lot) && (size > 0.0 ==> Affords(p, cash, signal, size))
            && (qty > 0.0 && Affords(p, cash, signal, qty) ==> qty <= size)
  {
    hide RoundDown, Whole, Mul;
    var unit := signal.stopFraction + p.Costs();
    var size := OrderSize(p, cash, signal);
    var most := Min(cash * p.maxExposure, cash * p.riskFraction / unit) / signal.limit;
    assert size == RoundDown(most, p.lot);
    hide OrderSize;
    CapFits(cash * p.maxExposure, cash * p.riskFraction, unit, signal.limit, size);
    CapFits(cash * p.maxExposure, cash * p.riskFraction, unit, signal.limit, qty);
    if 0.0 < qty <= most {
      RoundDownLargest(qty, most, p.lot);
    }
  }

  lemma NothingWhole(step: Positive)
    ensures Whole(0.0, step)
  {
    assert 0.0 == Times(0, step);
  }

  lemma SubmitTests(p: Parameters, s: State, signal: Signal, quote: Option<Quote>)
    ensures Blocked(p, s, signal, quote) <==> !MayTrade(p, s, signal.ts, quote)
    ensures quote.Some? ==> (Refused(p, signal, quote.value) <==> !WorthTrading(p, signal, quote.value))
  {
  }

  /**
   A signal is refused by an exception exactly when its stop is out of range while trading is allowed, and accepted
   exactly when trading is allowed, it is worth it, and some whole number of lots is affordable; then the largest such
   number rests at its limit behind the size shown there, live after the latency until its time to live.
   */
  lemma SubmitsExactly(p: Parameters, s: State, signal: Signal, quote: Option<Quote>)
    ensures var (t, reply) := Submit(p, s, signal, quote);
            && (reply.Raised? <==> MayTrade(p, s, signal.ts, quote)
                                   && (signal.stopFraction < 0.001 || signal.stopFraction > 0.002))
            && (reply.Accepted? <==>
                  && MayTrade(p, s, signal.ts, quote) && 0.001 <= signal.stopFraction <= 0.002
                  && WorthTrading(p, signal, quote.value)
                  && exists q :: q > 0.0 && Whole(q, p.lot) && Affords(p, s.account.cash, signal, q))
            && (!reply.Accepted? ==> t == s)
            && (reply.Accepted? ==>
                  && t.account == s.account && t.limits == s.limits && t.orders.target == s.orders.target
                  && t.orders.signal == Some(signal) && t.orders.pending.Some?
                  && var o := t.orders.pending.value;
                     && t.orders.submitted == o.remaining > 0.0 && Whole(o.remaining, p.lot)
                     && Affords(p, s.account.cash, signal, o.remaining)
                     && (forall q | q > 0.0 && Whole(q, p.lot) && Affords(p, s.account.cash, signal, q) ::
                           q <= o.remaining)
                     && o == Passive(signal.side, signal.limit, o.remaining, Shown(signal.side, quote.value),
                                     signal.ts + p.latency, signal.ts + p.latency + p.ttl, false))
  {
    hide Blocked, MayTrade, Refused, WorthTrading, Whole, Affords, OrderSize;
    SubmitTests(p, s, signal, quote);
    MayTradeSees(p, s, signal.ts, quote);
    if 0.001 <= signal.stopFraction <= 0.002 {
      NothingWhole(p.lot);
      LargestOrder(p, s.account.cash, signal, 0.0);
      forall q | q > 0.0 && Whole(q, p.lot) && Affords(p, s.account.cash, signal, q)
        ensures q <= OrderSize(p, s.account.cash, signal)
      {
        LargestOrder(p, s.account.cash, signal, q);
      }
    }
  }

  lemma MayTradeSees(p: Parameters, s: State, now: int, quote: Option<Quote>)
    ensures MayTrade(p, s, now, quote) ==> quote.Some?
  {
  }

  // ---------------------------------------------------------------- the resting order

  /**
   A quote drops an order past its cancel time, and turns one whose latency has passed into a resting order behind
   the larger of its two queue estimates, or drops it if the quote is stale or the order would trade at once.
   */
  lemma ActivatesExactly(p: Parameters, o: Passive, now: int, quote: Option<Quote>)
    ensures var a := Activate(p, Some(o), now, quote);
            if now >= o.cancelAt then a.None?
            else if o.activated || now < o.activeAt then a == Some(o)
            else if Current(p, now, quote) && Passively(o.side, o.limit, quote.value) then
              && a.Some? && a.value == o.(queue := a.value.queue, activated := true)
              && a.value.queue >= o.queue && a.value.queue >= Shown(o.side, quote.value)
              && (a.value.queue == o.queue || a.value.queue == Shown(o.side, quote.value))
            else a.None?
  {
  }

  /** A print reaches a live resting order from the other side, at its limit or through it. */
  lemma ReachedExactly(o: Passive, t: Print)
    ensures Reached(o, t)
       <==> o.activated && o.activeAt <= t.ts < o.cancelAt
            && if o.side.Long? then !t.buyer && t.price <= o.limit else t.buyer && t.price >= o.limit
  {
  }

  // ---------------------------------------------------------------- entry fills

  /** The tick at or beyond a goal: not below it for a seller, not above it for a buyer, and the nearest such. */
  ghost predicate TickBeyond(price: real, goal: real, seller: bool, tick: Positive) {
    && Whole(price, tick)
    && if seller then goal <= price < goal + tick else goal - tick < price <= goal
  }

  lemma FloorBelow(x: real, step: Positive)
    ensures FloorTo(x, step) <= x < FloorTo(x, step) + step && Whole(FloorTo(x, step), step)
  {
    var q := x / step;
    assert q * step == x;
    ScaleBetween(q, q.Floor, step);
    Distribute(q.Floor as real, 1.0, step);
  }

  lemma TargetBeyond(p: Parameters, h: Held, goal: real, ts: int)
    ensures var o := TargetFor(p, h, goal, ts);
            && TickBeyond(o.limit, goal, h.side.Long?, p.tick)
            && o.side == (if h.side.Long? then Short else Long) && o.remaining == h.qty && o.queue == 0.0
            && o.activeAt == ts + p.latency && o.activated
  {
    if h.side.Long? {
      FloorBelow(-goal, p.tick);
      var n: int :| FloorTo(-goal, p.tick) == Times(n, p.tick);
      assert -Times(n, p.tick) == Times(-n, p.tick);
    } else {
      FloorBelow(goal, p.tick);
    }
    hide FloorTo;
  }

  /** What a print does to the entry: nothing, a shorter queue, or a fill at the limit with the maker fee. */
  lemma EntryFillsExactly(p: Parameters, s: State, t: Print)
    requires s.orders.pending.Some? ==> s.orders.signal.Some?
    ensures var (r, filled) := EntryFill(p, s, t);
            if s.orders.pending.None? || !s.orders.pending.value.activated then r == s && !filled
            else
              var o := s.orders.pending.value;
              var q := FillOf(p, o, t);
              && (filled <==> q > 0.0) && r.limits == s.limits && r.account.trades == s.account.trades
              && (!filled ==> r == s.(orders := s.orders.(pending := Some(Filled(p, o, t)))))
              && (filled ==>
                    && r.account.position.Some? && r.orders.target.Some? && r.orders.signal == s.orders.signal
                    && r.account.cash == s.account.cash - Mul(q, o.limit) * p.maker
                    && r.orders.target == Some(TargetFor(p, r.account.position.value, s.orders.signal.value.target, t.ts))
                    && (r.orders.pending == if Filled(p, o, t).remaining < p.lot / 2.0 then None
                                            else Some(Filled(p, o, t)))
                    && var h := r.account.position.value;
                       && h.side == o.side && h.entry == o.limit
                       && if s.account.position.None? then
                            h.qty == h.total == q && h.entered == t.ts && h.fees == Mul(q, o.limit) * p.maker
                            && h.gross == h.funding == h.proceeds == 0.0
                          else
                            var was := s.account.position.value;
                            h == was.(side := o.side, entry := o.limit, qty := was.qty + q, total := was.total + q,
                                      fees := was.fees + Mul(q, o.limit) * p.maker))
  {
    hide FillOf, Filled, TargetFor, Mul;
  }

  /** A print meets the order as the quote of its moment leaves it, so a due order can be filled by that very print. */
  lemma FillsAfterActivation(p: Parameters, s: State, t: Print, quote: Option<Quote>)
    requires Sane(s)
    ensures var (a, filled) := Arrived(p, s, t, quote);
            var o := Activate(p, s.orders.pending, t.ts, quote);
            && (filled <==> o.Some? && o.value.activated && FillOf(p, o.value, t) > 0.0)
            && (filled ==> a.account.position.Some? && a.account.position.value.entry == o.value.limit)
            && (!filled ==> a.account == s.account && a.orders.target == s.orders.target)
  {
    hide FillOf, Filled, TargetFor, Mul, Activate, Equity;
  }

  // ---------------------------------------------------------------- exits

  /** Gained by a quantity bought at the entry, or sold there, between entry and price. */
  function Gained(side: Side, qty: real, entry: real, price: real): real {
    if side.Long? then Mul(qty, price - entry) else Mul(qty, entry - price)
  }

  lemma GainIs(side: Side, qty: real, entry: real, price: real)
    ensures Sign(side, Mul(qty, price - entry)) == Gained(side, qty, entry, price)
  {
  }

  function Marked(a: Account, price: real): real {
    if a.position.None? then a.cash
    else a.cash + Gained(a.position.value.side, a.position.value.qty, a.position.value.entry, price)
  }

  lemma EquityIs(a: Account, price: real)
    ensures Equity(a, price) == Marked(a, price)
  {
    if a.position.Some? {
      GainIs(a.position.value.side, a.position.value.qty, a.position.value.entry, price);
    }
    hide Gained;
  }

  /** Selling a whole position at a price: flat, and one row with its cash flows. */
  predicate SoldOut(a: Account, t: Account, now: int, price: real, rate: real, reason: Reason)
    requires a.position.Some?
  {
    var h := a.position.value;
    var gain := Gained(h.side, h.qty, h.entry, price);
    var fee := Mul(h.qty, price) * rate;
    && t.position.None? && t.lastExit == now && t.cash == a.cash + gain - fee
    && |t.trades| == |a.trades| + 1 && t.trades[..|a.trades|] == a.trades
    && var row := t.trades[|a.trades|];
       && row.entered == h.entered && row.exited == now && row.side == h.side && row.entry == h.entry
       && row.quantity == h.total && row.gross == h.gross + gain && row.fees == h.fees + fee
       && row.funding == h.funding && row.net == row.gross - row.fees - row.funding
       && row.proceeds == h.proceeds + Mul(h.qty, price) && row.reason == reason
  }

  /** Sold out, with no order left. */
  predicate ClosedAt(p: Parameters, s: State, t: State, now: int, price: real, rate: real, reason: Reason)
    requires s.account.position.Some?
  {
    SoldOut(s.account, t.account, now, price, rate, reason) && t.orders == s.orders.(pending := None, target := None)
  }

  lemma ClosesWhole(p: Parameters, s: State, now: int, price: real, maker: bool, reason: Reason)
    requires s.account.position.Some?
    ensures var t := CloseQty(p, s, now, s.account.position.value.qty, price, maker, reason);
            ClosedAt(p, s, t, now, price, if maker then p.maker else p.taker, reason) && t.limits == s.limits
  {
    hide Mul, Gained;
    var h := s.account.position.value;
    GainIs(h.side, h.qty, h.entry, price);
  }

  /** The print is at the stop or through it, at its fraction from the entry. */
  predicate Stopped(h: Held, signal: Signal, price: real) {
    if h.side.Long? then price <= h.entry * (1.0 - signal.stopFraction)
    else price >= h.entry * (1.0 + signal.stopFraction)
  }

  lemma StopHitIs(h: Held, signal: Signal, price: real)
    ensures StopHit(h, signal, price) <==> Stopped(h, signal, price)
  {
    Offset(h.side, h.entry, signal.stopFraction);
  }

  /** The worse of print and touch, slipped: what a forced exit gets. */
  function ForcedPrice(p: Parameters, side: Side, t: Print, quote: Quote): real {
    if side.Long? then (if t.price < quote.bid then t.price else quote.bid) * (1.0 - p.slippage)
    else (if t.price > quote.ask then t.price else quote.ask) * (1.0 + p.slippage)
  }

  lemma ForcedPriceIs(p: Parameters, side: Side, t: Print, quote: Quote)
    ensures ProtectivePrice(p, side, t, quote) == ForcedPrice(p, side, t, quote)
  {
    Offset(side, if side.Long? then Min(t.price, quote.bid) else Max(t.price, quote.ask), p.slippage);
  }

  lemma WorseOf(a: Positive, b: Positive, slip: real)
    requires 0.0 <= slip
    ensures var low := (if a < b then a else b) * (1.0 - slip); low <= a && low <= b
    ensures var high := (if a > b then a else b) * (1.0 + slip); high >= a && high >= b
  {
    MulMono(1.0 - slip, 1.0, if a < b then a else b);
    MulMono(1.0, 1.0 + slip, if a > b then a else b);
  }

  /** A forced exit is never better than the print or the touch. */
  lemma ForcedNeverBetter(p: Parameters, side: Side, t: Print, quote: Quote)
    ensures var x := ForcedPrice(p, side, t, quote);
            if side.Long? then x <= t.price && x <= quote.bid else x >= t.price && x >= quote.ask
  {
    WorseOf(t.price, if side.Long? then quote.bid else quote.ask, p.slippage);
  }

  /** The day's start and the peak as they stand once the print has been marked. */
  predicate Broken(p: Parameters, l: Limits, eq: real) {
    var peak := if eq > l.peak then eq else l.peak;
    eq <= peak * (1.0 - p.maxDrawdown) || eq <= l.dayStart * (1.0 - p.dailyLoss)
  }

  lemma BreaksIs(p: Parameters, l: Limits, eq: real)
    ensures Breaks(p, Measured(p, l, eq), eq) <==> Broken(p, l, eq)
  {
  }

  /** A position must be closed at this print: stopped, out of time, or a limit broken. */
  predicate MustClose(p: Parameters, s: State, t: Print)
    requires s.account.position.Some? && s.orders.signal.Some?
  {
    var h := s.account.position.value;
    || Stopped(h, s.orders.signal.value, t.price) || t.ts >= h.entered + p.hold
    || Broken(p, s.limits, Marked(s.account, t.price))
  }

  function CloseReason(p: Parameters, s: State, t: Print): Reason
    requires s.account.position.Some? && s.orders.signal.Some?
  {
    if Broken(p, s.limits, Marked(s.account, t.price)) then Risk
    else if Stopped(s.account.position.value, s.orders.signal.value, t.price) then Stop
    else Time
  }

  /** How the position is dealt with once the limits have been measured. */
  lemma ProtectedIs(p: Parameters, s: State, filled: bool, breaks: bool, t: Print, quote: Option<Quote>)
    requires Sane(s) && s.account.position.Some?
    ensures var h := s.account.position.value;
            var stop := Stopped(h, s.orders.signal.value, t.price);
            var (r, failed) := Protected(p, s, filled, breaks, t, quote);
            if breaks || stop || t.ts >= h.entered + p.hold then
              if Current(p, t.ts, quote) then
                && !failed && r.limits == s.limits
                && ClosedAt(p, s, r, t.ts, ForcedPrice(p, h.side, t, quote.value), p.taker,
                            if breaks then Risk else if stop then Stop else Time)
              else failed && r == Fail(s)
            else !failed && r == if filled then s else TargetExit(p, s, t)
  {
    hide TargetExit, ProtectivePrice, ForcedPrice, CloseQty, ClosedAt, StopHit, Stopped;
    var h := s.account.position.value;
    StopHitIs(h, s.orders.signal.value, t.price);
    if Current(p, t.ts, quote) {
      var price := ForcedPrice(p, h.side, t, quote.value);
      ForcedPriceIs(p, h.side, t, quote.value);
      ClosesWhole(p, s, t.ts, price, false, Risk);
      ClosesWhole(p, s, t.ts, price, false, Stop);
      ClosesWhole(p, s, t.ts, price, false, Time);
    }
  }

  /** The closing measurement keeps the account, and every order but a pending one. */
  lemma PrintEnds(p: Parameters, s: State, t: Print, quote: Option<Quote>)
    requires Sane(s)
    ensures var (a, filled) := Arrived(p, s, t, quote);
            var eq := Equity(a.account, t.price);
            var s3 := a.(limits := Measured(p, a.limits, eq));
            && Sane(s3)
            && var (s4, failed) := Protected(p, s3, filled, Breaks(p, s3.limits, eq), t, quote);
               var r := OnTrade(p, s, t, quote);
               && r.account == s4.account && r.orders == s4.orders.(pending := r.orders.pending)
               && (r.orders.pending == s4.orders.pending || r.orders.pending.None?) && (failed ==> r == s4)
  {
    hide Arrived, Protected, Measured, Equity, Breaks;
  }

  /**
   A position open when a print's limits are looked at is closed in full at the forced price, if the quote is
   current, exactly when it must close; without a current quote it stays, and the account is incomplete and halted.
   Otherwise nothing is forced: only its target can be filled, and not by the print that filled the entry.
   */
  lemma ProtectsExactly(p: Parameters, s: State, t: Print, quote: Option<Quote>)
    requires Sane(s) && Arrived(p, s, t, quote).0.account.position.Some?
    ensures var (a, filled) := Arrived(p, s, t, quote);
            var r := OnTrade(p, s, t, quote);
            if MustClose(p, a, t) then
              if Current(p, t.ts, quote) then
                ClosedAt(p, a, r, t.ts, ForcedPrice(p, a.account.position.value.side, t, quote.value), p.taker,
                         CloseReason(p, a, t))
              else
                && r.account == a.account && r.limits.incomplete && r.limits.halted
                && r.orders == a.orders.(pending := None)
            else if filled then r.account == a.account
            else r.account == TargetExit(p, a, t).account
  {
    hide Arrived, TargetExit, Equity, Marked, Breaks, Broken, ForcedPrice, ClosedAt, Stopped, Protected, Measured,
         OnTrade;
    var (a, filled) := Arrived(p, s, t, quote);
    var eq := Equity(a.account, t.price);
    var s3 := a.(limits := Measured(p, a.limits, eq));
    var breaks := Breaks(p, s3.limits, eq);
    EquityIs(a.account, t.price);
    BreaksIs(p, a.limits, eq);
    PrintEnds(p, s, t, quote);
    ProtectedIs(p, s3, filled, breaks, t, quote);
    TargetSeesNoLimits(p, a, s3, t);
    if MustClose(p, a, t) && Current(p, t.ts, quote) {
      var s4 := Protected(p, s3, filled, breaks, t, quote).0;
      ClosedKeepsAccount(p, a, s3, s4, OnTrade(p, s, t, quote), t.ts,
                         ForcedPrice(p, a.account.position.value.side, t, quote.value), p.taker, CloseReason(p, a, t));
    }
  }

  lemma ClosedKeepsAccount(p: Parameters, a: State, s: State, t: State, r: State, now: int, price: real, rate: real,
                           reason: Reason)
    requires a.account == s.account && a.orders == s.orders && a.account.position.Some?
    ensures ClosedAt(p, s, t, now, price, rate, reason) && r.account == t.account
            && r.orders == t.orders.(pending := r.orders.pending) && (r.orders.pending.None? || r.orders == t.orders) ==>
              ClosedAt(p, a, r, now, price, rate, reason)
  {
    hide SoldOut;
  }

  lemma TargetSeesNoLimits(p: Parameters, a: State, b: State, t: Print)
    requires a.account.position.Some? && a.orders.target.Some? && a.account == b.account && a.orders == b.orders
    ensures TargetExit(p, a, t).account == TargetExit(p, b, t).account
  {
    hide FillOf, Filled;
  }

  // ---------------------------------------------------------------- targets

  /** A sale of part of the position at the target's price, with the maker fee. */
  predicate TakenAt(p: Parameters, s: State, t: State, qty: real, price: real)
    requires s.account.position.Some?
  {
    var h := s.account.position.value;
    var gain, fee := Gained(h.side, qty, h.entry, price), Mul(qty, price) * p.maker;
    && t.account.position.Some? && t.account.trades == s.account.trades && t.account.lastExit == s.account.lastExit
    && t.account.cash == s.account.cash + gain - fee
    && t.account.position.value == h.(qty := t.account.position.value.qty, gross := h.gross + gain, fees := h.fees + fee,
                                      proceeds := h.proceeds + Mul(qty, price))
    && t.account.position.value.qty == h.qty - qty
  }

  /**
   The target is taken only by a print strictly beyond it, for what its queue rules give, at its own price with the
   maker fee; taking all but less than half a lot closes the trade.
   */
  lemma TakesTargetExactly(p: Parameters, s: State, t: Print)
    requires s.account.position.Some? && s.orders.target.Some?
    ensures var h, o := s.account.position.value, s.orders.target.value;
            var r, q := TargetExit(p, s, t), FillOf(p, o, t);
            var beyond := if h.side.Long? then t.price > o.limit else t.price < o.limit;
            if !beyond then r == s
            else if q <= 0.0 then r == s.(orders := s.orders.(target := Some(Filled(p, o, t))))
            else if h.qty - q < p.lot / 2.0 then
              (q == h.qty ==> ClosedAt(p, s, r, t.ts, o.limit, p.maker, Target)) && r.account.position.None?
              && |r.account.trades| == |s.account.trades| + 1 && r.account.trades[|s.account.trades|].reason == Target
            else
              TakenAt(p, s, r, q, o.limit) && r.orders == s.orders.(target := Some(Filled(p, o, t)))
  {
    hide FillOf, Filled, CloseQty, ClosedAt, TakenAt;
    var h, o := s.account.position.value, s.orders.target.value;
    var q := FillOf(p, o, t);
    if q > 0.0 {
      var s1 := s.(orders := s.orders.(target := Some(Filled(p, o, t))));
      ClosesPart(p, s1, t.ts, q, o.limit);
      ClosesWhole(p, s1, t.ts, o.limit, true, Target);
      TargetAside(p, s, s1, CloseQty(p, s1, t.ts, q, o.limit, true, Target), t.ts, q, o.limit);
    }
  }

  lemma ClosesPart(p: Parameters, s: State, now: int, q: Positive, price: real)
    requires s.account.position.Some?
    ensures var t, h := CloseQty(p, s, now, q, price, true, Target), s.account.position.value;
            if h.qty - q < p.lot / 2.0 then
              t.account.position.None? && |t.account.trades| == |s.account.trades| + 1
              && t.account.trades[|s.account.trades|].reason == Target
            else TakenAt(p, s, t, q, price) && t.orders == s.orders
  {
    hide Mul, Gained;
    GainIs(s.account.position.value.side, q, s.account.position.value.entry, price);
  }

  /** What is left of the target does not matter to a sale. */
  lemma TargetAside(p: Parameters, a: State, s: State, t: State, now: int, q: Positive, price: real)
    requires a.account == s.account && s.orders == a.orders.(target := s.orders.target) && a.account.position.Some?
    ensures ClosedAt(p, s, t, now, price, p.maker, Target) ==> ClosedAt(p, a, t, now, price, p.maker, Target)
    ensures TakenAt(p, s, t, q, price) ==> TakenAt(p, a, t, q, price)
  {
    hide Mul, Gained, SoldOut;
  }

  // ---------------------------------------------------------------- funding and limits

  /** At a positive rate a long pays quantity * mark * rate and a short receives it. */
  lemma FundingMoves(s: State, rate: real, mark: Positive)
    ensures var t := OnFunding(s, rate, mark);
            if s.account.position.None? then t == s
            else
              var h := s.account.position.value;
              var pay := if h.side.Long? then Mul(h.qty, mark * rate) else -Mul(h.qty, mark * rate);
              t == s.(account := s.account.(cash := s.account.cash - pay,
                                            position := Some(h.(funding := h.funding + pay))))
  {
    hide Mul;
  }

  /** A new day starts at the equity of its first print and lifts only the day's latch. */
  lemma DayStarts(a: Account, l: Limits, t: Print)
    ensures var today := t.ts / 86_400_000;
            NewDay(a, l, t) == if l.day == today then l
                               else l.(day := today, dayStart := Marked(a, t.price), dayHalted := false)
  {
    EquityIs(a, t.price);
    hide Equity, Marked;
  }

  /** The peak rises to the equity; each latch sets exactly at its fraction, and never clears. */
  lemma MeasuresExactly(p: Parameters, l: Limits, eq: real)
    ensures var m := Measured(p, l, eq);
            && m.peak >= l.peak && m.peak >= eq && (m.peak == l.peak || m.peak == eq)
            && (m.halted <==> l.halted || eq <= m.peak * (1.0 - p.maxDrawdown))
            && (m.dayHalted <==> l.dayHalted || eq <= l.dayStart * (1.0 - p.dailyLoss))
            && m == l.(peak := m.peak, halted := m.halted, dayHalted := m.dayHalted)
  {
  }

  /** After every print that could be dealt with, an account at or beyond a limit has its latch, and no entry under it. */
  lemma LatchedAfterPrint(p: Parameters, s: State, t: Print, quote: Option<Quote>)
    requires Sane(s)
    ensures var (a, filled) := Arrived(p, s, t, quote);
            var r := OnTrade(p, s, t, quote);
            var eq := Marked(r.account, t.price);
            a.account.position.None? || Current(p, t.ts, quote) || !MustClose(p, a, t) ==>
              && r.limits.peak >= eq
              && (eq <= r.limits.peak * (1.0 - p.maxDrawdown) ==> r.limits.halted)
              && (eq <= r.limits.dayStart * (1.0 - p.dailyLoss) ==> r.limits.dayHalted)
              && (r.limits.halted || r.limits.dayHalted ==> r.orders.pending.None?)
  {
    hide Arrived, TargetExit, Equity, Marked, Breaks, Broken, ForcedPrice, ClosedAt, Stopped, Protected, Measured;
    var (a, filled) := Arrived(p, s, t, quote);
    var eq := Equity(a.account, t.price);
    var s3 := a.(limits := Measured(p, a.limits, eq));
    var breaks := Breaks(p, s3.limits, eq);
    EquityIs(a.account, t.price);
    BreaksIs(p, a.limits, eq);
    if a.account.position.Some? {
      ProtectedIs(p, s3, filled, breaks, t, quote);
    } else {
      NothingToProtect(p, s3, filled, breaks, t, quote);
    }
    var s4 := Protected(p, s3, filled, breaks, t, quote).0;
    EquityIs(s4.account, t.price);
    MeasuresExactly(p, s4.limits, Equity(s4.account, t.price));
  }

  lemma NothingToProtect(p: Parameters, s: State, filled: bool, breaks: bool, t: Print, quote: Option<Quote>)
    requires Sane(s) && s.account.position.None?
    ensures Protected(p, s, filled, breaks, t, quote) == (s, false)
  {
  }
}
