/** What the minute simulator does at each point of a bar, in terms of the bar's own prices. */
module MinuteRules {
  import opened Basics
  import opened MinuteModel
  import MinuteTheorems

  // ---------------------------------------------------------------- funding

  /** At a positive rate a long pays quantity * mark * rate and a short receives it. */
  function PaysAt(h: Holding, mark: real, rate: real): real {
    if h.side.Long? then h.qty * mark * rate else -(h.qty * mark * rate)
  }

  lemma PaymentIs(h: Holding, mark: real, rate: real)
    ensures Payment(h, mark, rate) == PaysAt(h, mark, rate)
  {
  }

  /** A settlement at a usable mark moves cash and the position's funding by the same signed payment. */
  lemma SettlementPaid(s: Loop, b: Bar)
    ensures var t := Fund(s, b);
            if s.holding.None? || !b.event then t == s
            else
              var h := s.holding.value;
              if b.mark.None? || b.mark.value <= 0.0 then t == s.(unpriced := s.unpriced + 1, halted := true)
              else
                var pay := PaysAt(h, b.mark.value, b.rate);
                && t.holding.Some? && t.holding.value == h.(funding := h.funding + pay, extra := t.holding.value.extra)
                && t == s.(cash := s.cash - pay, holding := t.holding, unpriced := t.unpriced, halted := t.halted)
  {
    if s.holding.Some? && b.event && b.mark.Some? {
      PaymentIs(s.holding.value, b.mark.value, b.rate);
    }
    hide Payment, PaysAt, Worse;
  }

  /**
   With both extremes of the mark known, the reserve grows by exactly what the worst of them would have cost beyond
   the payment, so no mark in between could have cost more; without the one that matters the run is halted.
   */
  lemma ReserveCoversMinute(s: Loop, b: Bar, m: real)
    requires s.holding.Some? && b.event && b.mark.Some? && b.mark.value > 0.0
    requires b.markLow.Some? && b.markHigh.Some? && b.markLow.value <= b.mark.value <= b.markHigh.value
    requires b.markLow.value <= m <= b.markHigh.value
    ensures var h, t := s.holding.value, Fund(s, b);
            var pay := PaysAt(h, b.mark.value, b.rate);
            && t.halted == s.halted && t.unpriced == s.unpriced && t.holding.Some?
            && var more := t.holding.value.extra - h.extra;
               && PaysAt(h, m, b.rate) <= pay + more
               && (more == PaysAt(h, b.markLow.value, b.rate) - pay || more == PaysAt(h, b.markHigh.value, b.rate) - pay)
  {
    var h := s.holding.value;
    var worst := if Sign(h.side, b.rate) >= 0.0 then b.markHigh.value else b.markLow.value;
    PaymentIs(h, b.mark.value, b.rate);
    WorseIs(h, b.mark.value, b.rate, worst);
    hide Payment, Worse;
    Steeper(h, b.rate, m, worst);
    Steeper(h, b.rate, b.mark.value, worst);
    hide PaysAt;
  }

  lemma WorseIs(h: Holding, mark: real, rate: real, bound: real)
    ensures Worse(h, mark, rate, bound) == Max(0.0, PaysAt(h, bound, rate) - PaysAt(h, mark, rate))
  {
    assert h.qty * rate * (bound - mark) == h.qty * bound * rate - h.qty * mark * rate;
  }

  /** Towards the worst extreme the payment only grows. */
  lemma Steeper(h: Holding, rate: real, m: real, worst: real)
    requires if Sign(h.side, rate) >= 0.0 then m <= worst else m >= worst
    ensures PaysAt(h, m, rate) <= PaysAt(h, worst, rate)
  {
    Slope(h.qty, rate, m, worst);
  }

  lemma Slope(qty: Positive, rate: real, x: real, y: real)
    ensures rate >= 0.0 && x <= y ==> qty * x * rate <= qty * y * rate
    ensures rate <= 0.0 && x >= y ==> qty * x * rate <= qty * y * rate
    ensures rate >= 0.0 && x >= y ==> qty * x * rate >= qty * y * rate
    ensures rate <= 0.0 && x <= y ==> qty * x * rate >= qty * y * rate
  {
    if x <= y {
      MulMono(x, y, qty);
    } else {
      MulMono(y, x, qty);
    }
    var a, b := qty * x, qty * y;
    if rate >= 0.0 {
      MulMono(Min(a, b), Max(a, b), rate);
    } else {
      MulMono(Min(a, b), Max(a, b), -rate);
    }
  }

  /** Without the extreme that could have cost more, or a usable mark, the run is halted and the gap is counted. */
  lemma MissingMarkHalts(s: Loop, b: Bar)
    requires s.holding.Some? && b.event
    ensures var up := if s.holding.value.side.Long? then b.rate >= 0.0 else b.rate <= 0.0;
            b.mark.None? || b.mark.value <= 0.0 || (if up then b.markHigh.None? else b.markLow.None?)
            <==> Fund(s, b).unpriced > s.unpriced
    ensures Fund(s, b).unpriced > s.unpriced ==> Fund(s, b).halted && Fund(s, b).unpriced == s.unpriced + 1
    ensures Fund(s, b).unpriced == s.unpriced ==> Fund(s, b).halted == s.halted
  {
    hide Payment, Worse;
  }

  // ---------------------------------------------------------------- entries

  /** A size within the risk budget at its stop and costs, twice the cash, and a thousandth of the last volume. */
  predicate Affords(costs: Costs, cash: real, sf: real, price: real, volume: Size, qty: real) {
    && Mul(Mul(qty, price), sf + 2.0 * costs.fee + 2.0 * costs.slip) <= cash * 0.0025
    && Mul(qty, price) <= cash * 2.0
    && qty <= volume * 0.001
  }

  lemma CapsFit(budget: real, unit: Positive, cap: real, price: Positive, qty: real)
    ensures qty <= budget / unit / price ==> Mul(Mul(qty, price), unit) <= budget
    ensures Mul(Mul(qty, price), unit) <= budget ==> qty <= budget / unit / price
    ensures qty <= cap / price <==> Mul(qty, price) <= cap
  {
    if qty <= budget / unit / price {
      QuotientFits(qty, budget / unit, price);
      QuotientFits(Mul(qty, price), budget, unit);
    }
    if Mul(Mul(qty, price), unit) <= budget {
      FitsQuotient(Mul(qty, price), budget, unit);
      FitsQuotient(qty, budget / unit, price);
    }
    if qty <= cap / price {
      QuotientFits(qty, cap, price);
    }
    if Mul(qty, price) <= cap {
      FitsQuotient(qty, cap, price);
    }
  }

  /** The size taken is the largest number of whole lots that the account affords. */
  lemma LargestEntry(costs: Costs, cash: real, sf: real, price: Positive, volume: Size, qty: real)
    requires sf >= 0.001 && Whole(qty, LOT)
    ensures var size := EntrySize(costs, cash, cash * 0.0025, sf, price, volume);
            && Whole(size, LOT) && (size > 0.0 ==> Affords(costs, cash, sf, price, volume, size))
            && (qty > 0.0 && Affords(costs, cash, sf, price, volume, qty) ==> qty <= size)
  {
    hide RoundDown, Whole, Mul;
    var unit := sf + 2.0 * costs.fee + 2.0 * costs.slip;
    var size := EntrySize(costs, cash, cash * 0.0025, sf, price, volume);
    var most := Min(Min(cash * 0.0025 / unit / price, cash * 2.0 / price), volume * 0.001);
    assert size == RoundDown(most, LOT);
    hide EntrySize;
    CapsFit(cash * 0.0025, unit, cash * 2.0, price, size);
    CapsFit(cash * 0.0025, unit, cash * 2.0, price, qty);
    if 0.0 < qty <= most {
      RoundDownLargest(qty, most, LOT);
    }
  }

  /**
   A signal one bar and the latency old, with a stop between a tenth of a percent and five, worth its costs, met flat
   and unlatched outside funding minutes, two bars after the last exit and before the last bar.
   */
  predicate Invited(costs: Costs, plan: Plan, s: Loop, b: Bar, i: nat)
    requires i < |plan.signal| == |plan.stopFraction|
  {
    var j := i - 1 - costs.latency;
    && j >= 0 && plan.signal[j] != 0 && 0.001 <= plan.stopFraction[j] <= 0.05
    && (if plan.rr > 0.0 then plan.stopFraction[j] * plan.rr >= 0.0024 else plan.stopFraction[j] >= 0.0012)
    && s.holding.None? && !s.halted && !s.dayHalted && !b.event && i >= s.lastExit + 2 && i + 1 < |plan.signal|
  }

  /** The open made worse by the slippage: above it for a purchase, below it for a sale. */
  function PaidPrice(costs: Costs, side: Side, open: Positive): Positive {
    PositiveProduct(open, 1.0 + costs.slip);
    PositiveProduct(open, 1.0 - costs.slip);
    if side.Long? then open * (1.0 + costs.slip) else open * (1.0 - costs.slip)
  }

  /** The position of a fill: stop and target at their fractions of the price, on their own sides of it. */
  predicate Bracketed(costs: Costs, plan: Plan, side: Side, sf: real, price: Positive, h: Holding) {
    && h.side == side && h.entry == price && h.funding == 0.0 && h.extra == 0.0
    && h.stop == (if side.Long? then price * (1.0 - sf) else price * (1.0 + sf))
    && (if plan.rr > 0.0 then
          h.target == Some(Mul(price, if side.Long? then 1.0 + Mul(sf, plan.rr) else 1.0 - Mul(sf, plan.rr)))
        else h.target.None?)
    && h.entryFee == Mul(Mul(h.qty, price), costs.fee)
  }

  lemma PaidPriceIs(costs: Costs, side: Side, open: Positive)
    ensures EntryPrice(costs, side, open) == PaidPrice(costs, side, open)
  {
  }

  lemma InvitedMay(costs: Costs, plan: Plan, s: Loop, b: Bar, i: nat)
    requires i < |plan.signal| == |plan.stopFraction|
    ensures Invited(costs, plan, s, b, i) <==> MayEnter(costs, plan, Idle(s), s.lastExit, b, i, |plan.signal|)
  {
  }

  lemma TakenPosition(costs: Costs, plan: Plan, cash: real, b: Bar, i: nat, volume: Size, side: Side, price: Positive,
                      size: real)
    requires 0 <= SignalIndex(costs, i) < |plan.signal| == |plan.stopFraction|
    requires plan.stopFraction[SignalIndex(costs, i)] >= 0.001
    requires side == (if plan.signal[SignalIndex(costs, i)] > 0 then Long else Short)
    requires price == EntryPrice(costs, side, b.open)
    requires size == EntrySize(costs, cash, cash * 0.0025, plan.stopFraction[SignalIndex(costs, i)], price, volume)
    ensures var h := Position(costs, plan, cash, b, i, volume);
            && (h.None? <==> size <= 0.0 || Mul(size, price) < 100.0)
            && (h.Some? ==>
                  && Bracketed(costs, plan, side, plan.stopFraction[SignalIndex(costs, i)], price, h.value)
                  && h.value.qty == size && h.value.entered == i && h.value.budget == cash * 0.0025)
  {
    hide EntryPrice, EntrySize, Mul;
    Offset(side, price, plan.stopFraction[SignalIndex(costs, i)]);
  }

  lemma EnteredPosition(costs: Costs, plan: Plan, s: Loop, b: Bar, i: nat, volume: Size)
    requires i < |plan.signal| == |plan.stopFraction| && Invited(costs, plan, s, b, i)
    ensures var j := i - 1 - costs.latency;
            var sf := plan.stopFraction[j];
            var side := if plan.signal[j] > 0 then Long else Short;
            var price := PaidPrice(costs, side, b.open);
            var size := EntrySize(costs, s.cash, s.cash * 0.0025, sf, price, volume);
            var t := Enter(costs, plan, s, b, i, |plan.signal|, volume);
            if size <= 0.0 || Mul(size, price) < 100.0 then t == s
            else
              && t.holding.Some? && t == s.(cash := s.cash - t.holding.value.entryFee, holding := t.holding)
              && Bracketed(costs, plan, side, sf, price, t.holding.value)
              && t.holding.value.qty == size && t.holding.value.entered == i
              && t.holding.value.budget == s.cash * 0.0025
  {
    hide EntrySize, PaidPrice, Bracketed, Position, EntryPrice, Mul;
    var j := i - 1 - costs.latency;
    assert SignalIndex(costs, i) == j;
    var side := if plan.signal[j] > 0 then Long else Short;
    PaidPriceIs(costs, side, b.open);
    var price := PaidPrice(costs, side, b.open);
    TakenPosition(costs, plan, s.cash, b, i, volume, side, price,
                  EntrySize(costs, s.cash, s.cash * 0.0025, plan.stopFraction[j], price, volume));
    InvitedMay(costs, plan, s, b, i);
  }

  /** Nothing is entered without an invitation. */
  lemma UninvitedStays(costs: Costs, plan: Plan, s: Loop, b: Bar, i: nat, volume: Size)
    requires i < |plan.signal| == |plan.stopFraction| && !Invited(costs, plan, s, b, i)
    ensures Enter(costs, plan, s, b, i, |plan.signal|, volume) == s
  {
    hide Position, MayEnter, Invited;
    InvitedMay(costs, plan, s, b, i);
  }

  /**
   An invited signal is taken exactly when some whole number of lots is affordable and worth a hundred; then the
   largest affordable number is bought or sold at the worsened open, with its stop and target.
   */
  lemma EntersExactly(costs: Costs, plan: Plan, s: Loop, b: Bar, i: nat, volume: Size)
    requires i < |plan.signal| == |plan.stopFraction| && Invited(costs, plan, s, b, i)
    ensures var j := i - 1 - costs.latency;
            var sf := plan.stopFraction[j];
            var side := if plan.signal[j] > 0 then Long else Short;
            var price := PaidPrice(costs, side, b.open);
            var t := Enter(costs, plan, s, b, i, |plan.signal|, volume);
            && (t.holding.None? ==> t == s)
            && (t.holding.Some? ==>
                  var h := t.holding.value;
                  && Bracketed(costs, plan, side, sf, price, h) && h.entered == i && t.cash == s.cash - h.entryFee
                  && Whole(h.qty, 0.001) && Affords(costs, s.cash, sf, price, volume, h.qty) && Mul(h.qty, price) >= 100.0
                  && forall q | Whole(q, 0.001) && q > 0.0 && Affords(costs, s.cash, sf, price, volume, q) :: q <= h.qty)
            && (t.holding.Some?
                <==> exists q :: Whole(q, 0.001) && q > 0.0 && Affords(costs, s.cash, sf, price, volume, q)
                                 && Mul(q, price) >= 100.0)
  {
    hide Enter, Whole, Affords, EntrySize, Bracketed, PaidPrice;
    EnteredPosition(costs, plan, s, b, i, volume);
    var j := i - 1 - costs.latency;
    var sf := plan.stopFraction[j];
    var side := if plan.signal[j] > 0 then Long else Short;
    var price := PaidPrice(costs, side, b.open);
    var size := EntrySize(costs, s.cash, s.cash * 0.0025, sf, price, volume);
    NothingWhole(LOT);
    LargestEntry(costs, s.cash, sf, price, volume, 0.0);
    forall q | Whole(q, 0.001) && q > 0.0 && Affords(costs, s.cash, sf, price, volume, q)
      ensures q <= size && Mul(q, price) <= Mul(size, price)
    {
      LargestEntry(costs, s.cash, sf, price, volume, q);
      MulMono(q, size, price);
    }
  }

  lemma NothingWhole(step: Positive)
    ensures Whole(0.0, step)
  {
    assert 0.0 == Times(0, step);
  }

  // ---------------------------------------------------------------- the trailing stop

  /** x protects at least as closely as y: not below it for a long, not above it for a short. */
  predicate Tight(side: Side, x: real, y: real) {
    if side.Long? then x >= y else x <= y
  }

  /** The stop a trailing plan asks for at this close. */
  function TrailAt(side: Side, close: Positive, sf: real): real {
    if side.Long? then close * (1.0 - sf) else close * (1.0 + sf)
  }

  /**
   A position that survives its bar keeps everything but its stop. Without trailing the stop stays; with trailing it
   is no looser than before, no looser than the close less (or plus) the fraction, and is one of the two.
   */
  lemma TrailTightens(costs: Costs, plan: Plan, bars: seq<Bar>, s: Loop, i: nat)
    requires i < |bars| == |plan.signal| == |plan.stopFraction|
    requires s.holding.Some? ==> 0 <= s.holding.value.entered < |bars|
    requires Protect(costs, plan, bars, s, i).holding.Some?
    ensures s.holding.Some?
    ensures var h, t := s.holding.value, Protect(costs, plan, bars, s, i);
            var stop := t.holding.value.stop;
            var trail := TrailAt(h.side, bars[i].close, plan.stopFraction[i]);
            && t == s.(holding := Some(h.(stop := stop)))
            && (if plan.trailing then
                  Tight(h.side, stop, h.stop) && Tight(h.side, stop, trail) && (stop == h.stop || stop == trail)
                else stop == h.stop)
  {
    hide LeaveAt, Row, Proceeds;
    if s.holding.Some? {
      Offset(s.holding.value.side, bars[i].close, plan.stopFraction[i]);
    }
  }

  /** The same position later in its life: a stop no looser, and nothing changed but funding. */
  predicate SameButTighter(h: Holding, k: Holding) {
    k == h.(stop := k.stop, funding := k.funding, extra := k.extra) && Tight(h.side, k.stop, h.stop)
  }

  /** Over one bar a position is carried on, no looser, or newly entered at this bar. */
  lemma CarriedBar(costs: Costs, plan: Plan, bars: seq<Bar>, s: Loop, i: nat)
    requires i < |bars| == |plan.signal| == |plan.stopFraction| && EnteredInRange(s, |bars|)
    ensures var t := BarStep(costs, plan, bars, s, i);
            t.holding.Some? ==>
              if s.holding.Some? then SameButTighter(s.holding.value, t.holding.value) else t.holding.value.entered == i
  {
    var f := Fund(NewDay(s, bars[i]), bars[i]);
    var o := Opened(costs, plan, bars, s, i);
    assert s.holding.Some? ==> f.holding.Some?
                                && f.holding.value == s.holding.value.(funding := f.holding.value.funding,
                                                                       extra := f.holding.value.extra) by {
      hide Payment, Worse;
    }
    assert s.holding.Some? ==> o == f;
    assert s.holding.None? && o.holding.Some? ==> o.holding.value.entered == i by {
      hide EntrySize, EntryPrice;
    }
    hide Opened, Fund, NewDay, Tight, TrailAt;
    if Protect(costs, plan, bars, o, i).holding.Some? {
      TrailTightens(costs, plan, bars, o, i);
      TightItself(o.holding.value);
    }
    hide Protect;
  }

  lemma TightItself(h: Holding)
    ensures Tight(h.side, h.stop, h.stop)
  {
  }

  lemma {:induction false} EnteredEarlier(costs: Costs, plan: Plan, bars: seq<Bar>, j: nat)
    requires j <= |bars| == |plan.signal| == |plan.stopFraction|
    ensures var s := Run(costs, plan, bars, j); s.holding.Some? ==> s.holding.value.entered < j
  {
    hide BarStep;
    if j > 0 {
      EnteredEarlier(costs, plan, bars, j - 1);
      CarriedBar(costs, plan, bars, Run(costs, plan, bars, j - 1), j - 1);
    }
  }

  /** For as long as the same position is held, in any run, its stop only tightens. */
  lemma {:induction false} StopOnlyTightens(costs: Costs, plan: Plan, bars: seq<Bar>, i: nat, j: nat)
    requires i <= j <= |bars| == |plan.signal| == |plan.stopFraction|
    requires Run(costs, plan, bars, i).holding.Some? && Run(costs, plan, bars, j).holding.Some?
    requires Run(costs, plan, bars, i).holding.value.entered == Run(costs, plan, bars, j).holding.value.entered
    ensures SameButTighter(Run(costs, plan, bars, i).holding.value, Run(costs, plan, bars, j).holding.value)
    decreases j
  {
    hide BarStep;
    if i < j {
      var s := Run(costs, plan, bars, j - 1);
      EnteredEarlier(costs, plan, bars, i);
      CarriedBar(costs, plan, bars, s, j - 1);
      assert s.holding.Some?;
      StopOnlyTightens(costs, plan, bars, i, j - 1);
    }
  }

  // ---------------------------------------------------------------- exits

  /** What the position has gained at a price. */
  function Gained(h: Holding, price: real): real {
    if h.side.Long? then Mul(h.qty, price - h.entry) else Mul(h.qty, h.entry - price)
  }

  lemma GainIs(h: Holding, price: real)
    ensures Gain(h, price) == Gained(h, price)
  {
  }

  /** The bar's range reaches the stop or the barrier. */
  predicate Touched(h: Holding, barrier: real, b: Bar) {
    if h.side.Long? then b.low <= h.stop || b.low <= barrier else b.high >= h.stop || b.high >= barrier
  }

  predicate ReachedTarget(h: Holding, b: Bar) {
    h.target.Some? && if h.side.Long? then h.target.value <= b.high else b.low <= h.target.value
  }

  /** Held for its bars, at the last bar, or with a settlement that could not be priced. */
  predicate Overstayed(plan: Plan, s: Loop, h: Holding, i: nat, n: nat) {
    i - h.entered + 1 >= plan.hold || i == n - 1 || s.unpriced > 0
  }

  /** More than twice what selling at the close would leave. */
  predicate OverLevered(costs: Costs, s: Loop, h: Holding, close: Positive) {
    var left := s.cash + Gained(h, close) - h.qty * close * costs.fee;
    left <= 0.0 || h.qty * close > 2.0 * left
  }

  /**
   A position leaves a bar exactly when its range touches the stop or the barrier, or else reaches the target, or it
   has overstayed, or is over-levered at the close, in that order; a touch pays the worse of the open and the closer
   of stop and barrier, a target its own price, everything else the close.
   */
  lemma LeavesExactly(costs: Costs, plan: Plan, s: Loop, h: Holding, b: Bar, i: nat, n: nat)
    ensures var exit := LeaveAt(costs, plan, s, h, b, i, n);
            var barrier := MinuteTheorems.Floor(costs, s, h);
            if Touched(h, barrier, b) then
              exit == Some(if h.side.Long? then
                             (if b.open < h.stop && b.open < barrier then b.open
                              else if barrier > h.stop then Min(b.open, barrier) else Min(b.open, h.stop),
                              if barrier > h.stop then Barrier else Stop)
                           else
                             (if b.open > h.stop && b.open > barrier then b.open
                              else if barrier < h.stop then Max(b.open, barrier) else Max(b.open, h.stop),
                              if barrier < h.stop then Barrier else Stop))
            else if ReachedTarget(h, b) then exit == Some((h.target.value, Target))
            else if Overstayed(plan, s, h, i, n) then exit == Some((b.close, if i < n - 1 then Time else Finish))
            else if OverLevered(costs, s, h, b.close) then exit == Some((b.close, Exposure))
            else exit.None?
  {
    hide BarrierPrice, Gain, Gained;
    GainIs(h, b.close);
  }

  /** The row of an exit: the raw price worsened by slippage, gross and fees at that price, and cash to match. */
  lemma ClosedRow(costs: Costs, bars: seq<Bar>, s: Loop, h: Holding, i: nat, raw: real, reason: Reason)
    requires i < |bars| && 0 <= h.entered < |bars|
    ensures var t := CloseAt(costs, bars, s, h, i, raw, reason);
            var exit := if h.side.Long? then raw * (1.0 - costs.slip) else raw * (1.0 + costs.slip);
            && t.holding.None? && t.lastExit == i && |t.trades| == |s.trades| + 1 && t.trades[..|s.trades|] == s.trades
            && var row := t.trades[|s.trades|];
               && row.exit == exit && row.entry == h.entry && row.side == h.side && row.qty == h.qty
               && row.gross == Gained(h, exit) && row.funding == h.funding && row.reason == reason
               && row.fees == h.entryFee + h.qty * row.exit * costs.fee && row.net == row.gross - row.fees - row.funding
               && row.entryTime == bars[h.entered].time && row.exitTime == bars[i].time + 60_000
               && t.cash == s.cash + row.gross - h.qty * row.exit * costs.fee
  {
    hide Gain, Gained;
    GainIs(h, ExitPrice(costs, h.side, raw));
  }

  // ---------------------------------------------------------------- latches

  /** A run starts flat with a thousand, unlatched and free to enter. */
  lemma StartsFree()
    ensures var s := Start();
            && s.cash == s.peak == s.dayStart == 1000.0 && s.holding.None? && s.trades == [] && s.unpriced == 0
            && !s.halted && !s.dayHalted && s.lastExit + 2 <= 0
  {
  }

  /** A new day starts at the equity of its first open and lifts only the day's latch. */
  lemma DayRolls(s: Loop, b: Bar)
    ensures var eq := if s.holding.None? then s.cash else s.cash + Gained(s.holding.value, b.open);
            var today := b.time / 86_400_000;
            NewDay(s, b) == if today == s.day then s else s.(day := today, dayStart := eq, dayHalted := false)
  {
    hide Gain, Gained;
    if s.holding.Some? {
      GainIs(s.holding.value, b.open);
    }
  }

  /** Each latch sets at its threshold on the marked equity, the drawdown's against a peak that includes it. */
  lemma LatchesExactly(s: Loop, b: Bar)
    ensures var eq := if s.holding.None? then s.cash else s.cash + Gained(s.holding.value, b.close);
            var t := Mark(s, b);
            && t.peak >= s.peak && t.peak >= eq && (t.peak == s.peak || t.peak == eq)
            && (t.halted <==> s.halted || eq <= t.peak * 0.93 + 0.00000001)
            && (t.dayHalted <==> s.dayHalted || eq <= s.dayStart * 0.99 + 0.00000001)
            && (t.halted && !s.halted ==> t.haltAt == b.time + 60_000) && (t.halted == s.halted ==> t.haltAt == s.haltAt)
  {
    hide Gain, Gained;
    if s.holding.Some? {
      GainIs(s.holding.value, b.close);
    }
  }

  /** A drawdown halt never clears, and nothing is entered after it. */
  lemma {:induction false} HaltedForGood(costs: Costs, plan: Plan, bars: seq<Bar>, i: nat, j: nat)
    requires i <= j <= |bars| == |plan.signal| == |plan.stopFraction| && Run(costs, plan, bars, i).halted
    ensures var s := Run(costs, plan, bars, j);
            s.halted && (s.holding.Some? ==> s.holding.value.entered < i)
    decreases j
  {
    hide BarStep;
    EnteredEarlier(costs, plan, bars, j);
    if i < j {
      HaltedForGood(costs, plan, bars, i, j - 1);
      HaltedBar(costs, plan, bars, Run(costs, plan, bars, j - 1), j - 1);
      CarriedBar(costs, plan, bars, Run(costs, plan, bars, j - 1), j - 1);
    }
  }

  lemma HaltedBar(costs: Costs, plan: Plan, bars: seq<Bar>, s: Loop, i: nat)
    requires i < |bars| == |plan.signal| == |plan.stopFraction| && EnteredInRange(s, |bars|) && s.halted
    ensures var t := BarStep(costs, plan, bars, s, i); t.halted && (t.holding.Some? ==> s.holding.Some?)
  {
    hide Marked, Paid, Position, LeaveAt, Row, Proceeds, TrailedStop;
  }
}
