/** The barrier is exact, so a run without gaps never breaks its daily-loss or drawdown bound. */
module MinuteTheorems {
  import opened Basics
  import opened MinuteModel

  /** Equity left after leaving at a raw price, with slippage and fee. */
  function Liquid(costs: Costs, cash: real, h: Holding, raw: real): real {
    cash + Proceeds(costs, h, raw)
  }

  function Unit(costs: Costs, h: Holding): real {
    h.qty * Net(costs, h.side)
  }

  lemma LongProceeds(qty: real, entry: real, raw: real, slip: real, fee: real)
    ensures qty * (raw * (1.0 - slip) - entry) - qty * (raw * (1.0 - slip)) * fee
            == raw * (qty * Mul(1.0 - slip, 1.0 - fee)) - qty * entry
  {
    var p := raw * (1.0 - slip);
    assert qty * (p - entry) - qty * p * fee == qty * p * (1.0 - fee) - qty * entry;
    assert qty * p * (1.0 - fee) == raw * (qty * Mul(1.0 - slip, 1.0 - fee));
  }

  lemma ShortProceeds(qty: real, entry: real, raw: real, slip: real, fee: real)
    ensures -(qty * (raw * (1.0 + slip) - entry)) - qty * (raw * (1.0 + slip)) * fee
            == qty * entry - raw * (qty * Mul(1.0 + slip, 1.0 + fee))
  {
    var p := raw * (1.0 + slip);
    assert -(qty * (p - entry)) - qty * p * fee == qty * entry - qty * p * (1.0 + fee);
    assert qty * p * (1.0 + fee) == raw * (qty * Mul(1.0 + slip, 1.0 + fee));
  }

  /** Equity after leaving is linear in the raw exit price. */
  lemma LiquidLinear(costs: Costs, cash: real, h: Holding, raw: real)
    ensures Liquid(costs, cash, h, raw) == cash + Sign(h.side, raw * Unit(costs, h) - h.qty * h.entry)
  {
    if h.side.Long? {
      LongProceeds(h.qty, h.entry, raw, costs.slip, costs.fee);
    } else {
      ShortProceeds(h.qty, h.entry, raw, costs.slip, costs.fee);
    }
  }

  /** The barrier at this state. */
  function Floor(costs: Costs, s: Loop, h: Holding): real {
    BarrierPrice(costs, Threshold(s.dayStart, s.peak), s.cash, h)
  }

  lemma SolvedPrice(side: Side, floor: real, cash: real, paid: real, unit: Positive, raw: real)
    ensures cash + Sign(side, raw * unit - paid) >= floor
            <==> Safer(side, raw, if side.Long? then (floor - cash + paid) / unit else (cash + paid - floor) / unit)
  {
    if side.Long? {
      QuotientOrder(raw, floor - cash + paid, unit);
    } else {
      QuotientOrder(raw, cash + paid - floor, unit);
    }
  }

  /** The barrier is exact on both sides: leaving keeps the threshold exactly from its safe side. */
  lemma BarrierExact(costs: Costs, s: Loop, h: Holding, raw: real)
    ensures Liquid(costs, s.cash, h, raw) >= Threshold(s.dayStart, s.peak) <==> Safer(h.side, raw, Floor(costs, s, h))
  {
    hide Liquid, Threshold, Net, Safer;
    PositiveProduct(h.qty, Net(costs, h.side));
    LiquidLinear(costs, s.cash, h, raw);
    var floor, paid := Threshold(s.dayStart, s.peak), h.qty * h.entry;
    SolvedPrice(h.side, floor, s.cash, paid, Unit(costs, h), raw);
    assert Floor(costs, s, h)
        == if h.side.Long? then (floor - s.cash + paid) / Unit(costs, h) else (s.cash + paid - floor) / Unit(costs, h);
    hide Floor, Unit, BarrierPrice;
  }

  /** What a bar must not do: open beyond the barrier when its range reaches the stop, or else pay a target beyond it. */
  predicate BarSafe(costs: Costs, s: Loop, h: Holding, b: Bar) {
    if StopHit(Effective(costs, Threshold(s.dayStart, s.peak), s.cash, h), h.side, b) then
      Safer(h.side, b.open, Floor(costs, s, h))
    else TargetHit(h, b) ==> Safer(h.side, h.target.value, Floor(costs, s, h))
  }

  /** Raw price the position is worth at the end of the bar: its exit, or the close if it survives. */
  function Outcome(costs: Costs, plan: Plan, s: Loop, h: Holding, b: Bar, i: nat, n: nat): real {
    var exit := LeaveAt(costs, plan, s, h, b, i, n);
    if exit.Some? then exit.value.0 else b.close
  }

  /** For either side, a bar leaves at least the threshold exactly when it is safe. */
  lemma BarKeepsThreshold(costs: Costs, plan: Plan, s: Loop, h: Holding, b: Bar, i: nat, n: nat)
    ensures Liquid(costs, s.cash, h, Outcome(costs, plan, s, h, b, i, n)) >= Threshold(s.dayStart, s.peak)
            <==> BarSafe(costs, s, h, b)
  {
    BarrierExact(costs, s, h, Outcome(costs, plan, s, h, b, i, n));
    hide Liquid, Threshold, BarrierPrice, Marked;
  }

  lemma MarkedCoversLiquid(costs: Costs, cash: real, h: Holding, raw: Positive)
    ensures Marked(cash, Some(h), raw) >= Liquid(costs, cash, h, raw)
  {
    hide ExitPrice;
    var price := ExitPrice(costs, h.side, raw);
    SlipHurts(costs, h.side, raw);
    if h.side.Long? {
      MulMono(price - h.entry, raw - h.entry, h.qty);
    } else {
      MulMono(raw - h.entry, price - h.entry, h.qty);
    }
    PositiveProduct(h.qty, price);
    MulMono(0.0, h.qty * price, costs.fee);
  }

  lemma SlipHurts(costs: Costs, side: Side, raw: Positive)
    ensures ExitPrice(costs, side, raw) > 0.0 && Sign(side, raw - ExitPrice(costs, side, raw)) >= 0.0
  {
    var kept, lost := 1.0 - Sign(side, costs.slip), raw * costs.slip;
    PositiveProduct(raw, kept);
    assert ExitPrice(costs, side, raw) == raw * kept;
    MulMono(0.0, raw, costs.slip);
    assert lost >= 0.0 && raw * kept == raw - Sign(side, lost);
  }

  // ---------------------------------------------------------------- bounds over whole runs

  /** At the end of a bar, with eq the equity written for it. */
  predicate WithinBounds(s: Loop, eq: real) {
    && eq >= s.dayStart * 0.99 && eq >= s.peak * 0.93 && s.peak >= CAPITAL
    && (s.holding.None? ==> s.cash == eq)
  }

  /** Nothing before the exits moves a flat account, its peak, or, within a day, its day start. */
  lemma OpenedKeeps(costs: Costs, plan: Plan, bars: seq<Bar>, s: Loop, i: nat)
    requires i < |bars| == |plan.signal| == |plan.stopFraction|
    ensures var o := Opened(costs, plan, bars, s, i);
            && o.peak == s.peak && o.day == bars[i].time / DAY
            && o.dayStart == (if s.day == bars[i].time / DAY then s.dayStart else Marked(s.cash, s.holding, bars[i].open))
            && (o.holding.None? ==> s.holding.None? && o.cash == s.cash)
            && o.trades == s.trades
  {
    hide Position, MayEnter, Gain;
  }

  /** After the exits: flat with the liquidated equity, or still holding at an equity no lower than that. */
  lemma ProtectWorth(costs: Costs, plan: Plan, bars: seq<Bar>, s: Loop, i: nat)
    requires i < |bars| == |plan.signal| == |plan.stopFraction| && EnteredInRange(s, |bars|)
    ensures var t := Protect(costs, plan, bars, s, i);
            && t.dayStart == s.dayStart && t.peak == s.peak && t.day == s.day
            && (s.holding.None? ==> t == s)
            && (s.holding.Some? ==>
                  Marked(t.cash, t.holding, bars[i].close)
                  >= Liquid(costs, s.cash, s.holding.value,
                            Outcome(costs, plan, s, s.holding.value, bars[i], i, |bars|)))
  {
    hide Leave, ExitPrice, Row;
    if s.holding.Some? {
      hide Liquid;
      MarkedCoversLiquid(costs, s.cash, s.holding.value, bars[i].close);
      if LeaveAt(costs, plan, s, s.holding.value, bars[i], i, |bars|).Some? {
        ClosedWorth(costs, bars, s, s.holding.value, i, Outcome(costs, plan, s, s.holding.value, bars[i], i, |bars|),
                    LeaveAt(costs, plan, s, s.holding.value, bars[i], i, |bars|).value.1);
      }
    }
  }

  lemma ClosedWorth(costs: Costs, bars: seq<Bar>, s: Loop, h: Holding, i: nat, raw: real, reason: Reason)
    requires i < |bars| && 0 <= h.entered < |bars|
    ensures CloseAt(costs, bars, s, h, i, raw, reason).cash == Liquid(costs, s.cash, h, raw)
  {
    hide Gain, ExitPrice;
  }

  /** Marking the bar keeps an equity already within the bounds within them. */
  lemma MarkKeepsBounds(s: Loop, b: Bar)
    requires var eq := Marked(s.cash, s.holding, b.close); eq >= Threshold(s.dayStart, s.peak) && s.peak >= CAPITAL
    ensures var eq := Marked(s.cash, s.holding, b.close);
            WithinBounds(Mark(s, b), eq) && Mark(s, b).peak >= s.peak && Mark(s, b).peak >= eq
    ensures Mark(s, b).cash == s.cash && Mark(s, b).holding == s.holding
    ensures Mark(s, b).day == s.day && Mark(s, b).dayStart == s.dayStart
  {
    hide Gain;
  }

  lemma BarKeepsBounds(costs: Costs, plan: Plan, bars: seq<Bar>, s: Loop, eq: real, i: nat)
    requires i < |bars| == |plan.signal| == |plan.stopFraction| && EnteredInRange(s, |bars|)
    requires WithinBounds(s, eq)
    requires var o := Opened(costs, plan, bars, s, i);
             o.holding.Some? ==> BarSafe(costs, o, o.holding.value, bars[i])
    ensures var t := BarStep(costs, plan, bars, s, i);
            var now := Marked(t.cash, t.holding, bars[i].close);
            WithinBounds(t, now) && t.peak >= s.peak && t.peak >= now
  {
    var o := Opened(costs, plan, bars, s, i);
    OpenedKeeps(costs, plan, bars, s, i);
    OpenedInRange(costs, plan, bars, s, i);
    hide Opened, Protect, Mark, BarSafe, Liquid, Outcome;
    ProtectWorth(costs, plan, bars, o, i);
    if o.holding.Some? {
      BarKeepsThreshold(costs, plan, o, o.holding.value, bars[i], i, |bars|);
    }
    MarkKeepsBounds(Protect(costs, plan, bars, o, i), bars[i]);
    hide Gain;
  }

  /** Every bar of the run that still holds a position at its exits is safe. */
  ghost predicate GapFree(costs: Costs, plan: Plan, bars: seq<Bar>)
    requires |bars| == |plan.signal| == |plan.stopFraction|
  {
    forall i | 0 <= i < |bars| :: SafeAt(costs, plan, bars, i)
  }

  predicate SafeAt(costs: Costs, plan: Plan, bars: seq<Bar>, i: nat)
    requires i < |bars| == |plan.signal| == |plan.stopFraction|
  {
    var o := Opened(costs, plan, bars, Run(costs, plan, bars, i), i);
    o.holding.Some? ==> BarSafe(costs, o, o.holding.value, bars[i])
  }

  lemma {:induction false} RunKeepsBounds(costs: Costs, plan: Plan, bars: seq<Bar>, k: nat)
    requires k <= |bars| == |plan.signal| == |plan.stopFraction| && GapFree(costs, plan, bars)
    ensures var s := Run(costs, plan, bars, k);
            && WithinBounds(s, if k == 0 then CAPITAL else EquityAt(costs, plan, bars, k - 1))
            && (forall j | 0 <= j < k :: EquityAt(costs, plan, bars, j) <= s.peak)
  {
    hide BarStep, SafeAt, Marked;
    if k > 0 {
      RunKeepsBounds(costs, plan, bars, k - 1);
      var eq := if k == 1 then CAPITAL else EquityAt(costs, plan, bars, k - 2);
      assert SafeAt(costs, plan, bars, k - 1);
      SafeBarKeepsBounds(costs, plan, bars, eq, k - 1);
      hide WithinBounds;
    }
  }

  lemma SafeBarKeepsBounds(costs: Costs, plan: Plan, bars: seq<Bar>, eq: real, i: nat)
    requires i < |bars| == |plan.signal| == |plan.stopFraction| && SafeAt(costs, plan, bars, i)
    requires WithinBounds(Run(costs, plan, bars, i), eq)
    ensures var t := Run(costs, plan, bars, i + 1);
            && WithinBounds(t, EquityAt(costs, plan, bars, i)) && t.peak >= EquityAt(costs, plan, bars, i)
            && t.peak >= Run(costs, plan, bars, i).peak
  {
    hide BarStep, WithinBounds, BarSafe, Opened, Marked;
    BarKeepsBounds(costs, plan, bars, Run(costs, plan, bars, i), eq, i);
  }

  /** The equity bar i must not end below: its day's start and the peak before it, as the exits see them. */
  function FloorAt(costs: Costs, plan: Plan, bars: seq<Bar>, i: nat): real
    requires i < |bars| == |plan.signal| == |plan.stopFraction|
  {
    var o := Opened(costs, plan, bars, Run(costs, plan, bars, i), i);
    Threshold(o.dayStart, o.peak)
  }

  /** A bar that ends at or above its floor was safe. */
  lemma AboveFloorWasSafe(costs: Costs, plan: Plan, bars: seq<Bar>, i: nat)
    requires i < |bars| == |plan.signal| == |plan.stopFraction|
    requires EquityAt(costs, plan, bars, i) >= FloorAt(costs, plan, bars, i)
    ensures SafeAt(costs, plan, bars, i)
  {
    hide Opened, BarSafe, Liquid, Leave, Threshold, BarStep, Outcome;
    var s := Run(costs, plan, bars, i);
    var o := Opened(costs, plan, bars, s, i);
    if o.holding.Some? {
      BarKeepsThreshold(costs, plan, o, o.holding.value, bars[i], i, |bars|);
      LeavingWorth(costs, plan, bars, s, i);
      if !BarSafe(costs, o, o.holding.value, bars[i]) {
        UnsafeBarCloses(costs, plan, o, o.holding.value, bars[i], i, |bars|);
      }
    }
  }

  /** A bar that leaves its position ends flat at the liquidated equity. */
  lemma LeavingWorth(costs: Costs, plan: Plan, bars: seq<Bar>, s: Loop, i: nat)
    requires i < |bars| == |plan.signal| == |plan.stopFraction| && EnteredInRange(s, |bars|)
    ensures var o, t := Opened(costs, plan, bars, s, i), BarStep(costs, plan, bars, s, i);
            o.holding.Some? && LeaveAt(costs, plan, o, o.holding.value, bars[i], i, |bars|).Some? ==>
              t.holding.None?
              && t.cash == Liquid(costs, o.cash, o.holding.value,
                                  Outcome(costs, plan, o, o.holding.value, bars[i], i, |bars|))
  {
    hide Opened, Liquid, Leave, Row, Marked;
    OpenedInRange(costs, plan, bars, s, i);
    var o := Opened(costs, plan, bars, s, i);
    if o.holding.Some? && LeaveAt(costs, plan, o, o.holding.value, bars[i], i, |bars|).Some? {
      var exit := LeaveAt(costs, plan, o, o.holding.value, bars[i], i, |bars|).value;
      ClosedWorth(costs, bars, o, o.holding.value, i, exit.0, exit.1);
      hide Proceeds;
    }
  }

  /** Only a bar that leaves its position can be unsafe. */
  lemma UnsafeBarCloses(costs: Costs, plan: Plan, s: Loop, h: Holding, b: Bar, i: nat, n: nat)
    requires !BarSafe(costs, s, h, b)
    ensures LeaveAt(costs, plan, s, h, b, i, n).Some?
  {
  }

  lemma BoundsCoverFloor(costs: Costs, plan: Plan, bars: seq<Bar>, i: nat)
    requires i < |bars| == |plan.signal| == |plan.stopFraction| && GapFree(costs, plan, bars)
    ensures EquityAt(costs, plan, bars, i) >= FloorAt(costs, plan, bars, i)
  {
    hide SafeAt, EquityAt, BarSafe;
    RunKeepsBounds(costs, plan, bars, i + 1);
    var s := Run(costs, plan, bars, i);
    StepKeepsDayStart(costs, plan, bars, s, i);
    hide BarStep, Opened;
  }

  lemma StepKeepsDayStart(costs: Costs, plan: Plan, bars: seq<Bar>, s: Loop, i: nat)
    requires i < |bars| == |plan.signal| == |plan.stopFraction| && EnteredInRange(s, |bars|)
    ensures var o, t := Opened(costs, plan, bars, s, i), BarStep(costs, plan, bars, s, i);
            t.dayStart == o.dayStart && t.peak >= o.peak
  {
    OpenedInRange(costs, plan, bars, s, i);
    hide Opened, Leave, Row, Marked, ExitPrice;
  }

  /** Every bar of the run is safe exactly when the run never ends a bar below that bar's floor. */
  lemma SafeRunExact(costs: Costs, plan: Plan, bars: seq<Bar>)
    requires |bars| == |plan.signal| == |plan.stopFraction|
    ensures GapFree(costs, plan, bars)
       <==> forall i | 0 <= i < |bars| :: EquityAt(costs, plan, bars, i) >= FloorAt(costs, plan, bars, i)
  {
    hide SafeAt, EquityAt, FloorAt;
    if GapFree(costs, plan, bars) {
      forall i | 0 <= i < |bars|
        ensures EquityAt(costs, plan, bars, i) >= FloorAt(costs, plan, bars, i)
      {
        BoundsCoverFloor(costs, plan, bars, i);
      }
    }
    if forall i | 0 <= i < |bars| :: EquityAt(costs, plan, bars, i) >= FloorAt(costs, plan, bars, i) {
      forall i | 0 <= i < |bars|
        ensures SafeAt(costs, plan, bars, i)
      {
        AboveFloorWasSafe(costs, plan, bars, i);
      }
    }
  }

  /** Without gaps equity never falls seven percent below the start or any equity reached before. */
  lemma DrawdownBounded(costs: Costs, plan: Plan, bars: seq<Bar>, i: nat)
    requires i < |bars| == |plan.signal| == |plan.stopFraction| && GapFree(costs, plan, bars)
    ensures EquityAt(costs, plan, bars, i) >= 0.93 * CAPITAL
    ensures forall j | 0 <= j <= i :: EquityAt(costs, plan, bars, i) >= 0.93 * EquityAt(costs, plan, bars, j)
  {
    RunKeepsBounds(costs, plan, bars, i + 1);
    hide Run, EquityAt;
  }

  /** Equity at the opening of bar d. */
  function OpeningEquity(costs: Costs, plan: Plan, bars: seq<Bar>, d: nat): real
    requires d < |bars| == |plan.signal| == |plan.stopFraction|
  {
    var s := Run(costs, plan, bars, d);
    Marked(s.cash, s.holding, bars[d].open)
  }

  /** Bar d opens a new day for the simulator, and bars d..i all lie in it. */
  predicate SameDay(costs: Costs, plan: Plan, bars: seq<Bar>, d: nat, i: nat)
    requires d <= i < |bars| == |plan.signal| == |plan.stopFraction|
  {
    && Run(costs, plan, bars, d).day != bars[d].time / DAY
    && forall j | d <= j <= i :: bars[j].time / DAY == bars[d].time / DAY
  }

  lemma {:induction false} DayStartHeld(costs: Costs, plan: Plan, bars: seq<Bar>, d: nat, i: nat)
    requires d <= i < |bars| == |plan.signal| == |plan.stopFraction| && SameDay(costs, plan, bars, d, i)
    ensures var s := Run(costs, plan, bars, i + 1);
            s.day == bars[d].time / DAY && s.dayStart == OpeningEquity(costs, plan, bars, d)
  {
    hide Opened, Leave, Row, Marked, ExitPrice, Gain;
    OpenedKeeps(costs, plan, bars, Run(costs, plan, bars, i), i);
    if i > d {
      DayStartHeld(costs, plan, bars, d, i - 1);
    }
  }

  /** Without gaps no day loses more than one percent of its opening equity. */
  lemma DailyLossBounded(costs: Costs, plan: Plan, bars: seq<Bar>, d: nat, i: nat)
    requires d <= i < |bars| == |plan.signal| == |plan.stopFraction| && GapFree(costs, plan, bars)
    requires SameDay(costs, plan, bars, d, i)
    ensures EquityAt(costs, plan, bars, i) >= 0.99 * OpeningEquity(costs, plan, bars, d)
  {
    hide Run, EquityAt, OpeningEquity, GapFree, SameDay;
    RunKeepsBounds(costs, plan, bars, i + 1);
    DayStartHeld(costs, plan, bars, d, i);
  }

  // ---------------------------------------------------------------- ledger

  function SumNet(rows: seq<TradeRow>): real {
    if rows == [] then 0.0 else SumNet(rows[..|rows| - 1]) + rows[|rows| - 1].net
  }

  function Nonzero(signal: seq<int>): nat {
    if signal == [] then 0
    else Nonzero(signal[..|signal| - 1]) + if signal[|signal| - 1] != 0 then 1 else 0
  }

  /** Charges already taken from cash for the open position. */
  function Carried(s: Loop): real {
    if s.holding.None? then 0.0 else s.holding.value.entryFee + s.holding.value.funding
  }

  predicate Balanced(s: Loop) {
    s.cash == CAPITAL + SumNet(s.trades) - Carried(s)
  }

  /** Signals that bars before k can have acted on. */
  function Actionable(costs: Costs, plan: Plan, k: nat): nat {
    var j := SignalIndex(costs, k);
    if j <= 0 then 0 else if j <= |plan.signal| then Nonzero(plan.signal[..j]) else Nonzero(plan.signal)
  }

  function Used(s: Loop): nat {
    |s.trades| + if s.holding.Some? then 1 else 0
  }

  lemma OpenedBalanced(costs: Costs, plan: Plan, bars: seq<Bar>, s: Loop, i: nat)
    requires i < |bars| == |plan.signal| == |plan.stopFraction| && Balanced(s)
    ensures Balanced(Opened(costs, plan, bars, s, i))
  {
    hide NewDay, Fund, Enter, Balanced;
    FundBalanced(s, bars[i]);
    EnterBalanced(costs, plan, Fund(NewDay(s, bars[i]), bars[i]), bars[i], i, |bars|, PriorVolume(bars, i));
  }

  lemma FundBalanced(s: Loop, b: Bar)
    requires Balanced(s)
    ensures Balanced(Fund(NewDay(s, b), b))
  {
    hide Gain, SumNet;
  }

  lemma EnterBalanced(costs: Costs, plan: Plan, s: Loop, b: Bar, i: nat, n: nat, volume: Size)
    requires i < n == |plan.signal| == |plan.stopFraction| && Balanced(s)
    ensures Balanced(Enter(costs, plan, s, b, i, n, volume))
  {
    hide EntrySize, EntryPrice, SumNet;
  }

  lemma ProtectBalanced(costs: Costs, plan: Plan, bars: seq<Bar>, s: Loop, i: nat)
    requires i < |bars| == |plan.signal| == |plan.stopFraction| && EnteredInRange(s, |bars|) && Balanced(s)
    ensures Balanced(Protect(costs, plan, bars, s, i))
    ensures i == |bars| - 1 ==> Protect(costs, plan, bars, s, i).holding.None?
  {
    if s.holding.Some? {
      var h := s.holding.value;
      var exit := LeaveAt(costs, plan, s, h, bars[i], i, |bars|);
      if exit.Some? {
        var t := CloseAt(costs, bars, s, h, i, exit.value.0, exit.value.1);
        assert t.trades[..|s.trades|] == s.trades;
      }
    }
    hide StopHit, TargetHit, Effective, Gain, ExitPrice, Marked;
  }

  lemma OpenedInRange(costs: Costs, plan: Plan, bars: seq<Bar>, s: Loop, i: nat)
    requires i < |bars| == |plan.signal| == |plan.stopFraction| && EnteredInRange(s, |bars|)
    ensures EnteredInRange(Opened(costs, plan, bars, s, i), |bars|)
  {
    hide EntrySize, EntryPrice, MayEnter, Marked;
  }

  lemma {:induction false} RunBalanced(costs: Costs, plan: Plan, bars: seq<Bar>, k: nat)
    requires k <= |bars| == |plan.signal| == |plan.stopFraction|
    ensures Balanced(Run(costs, plan, bars, k))
    ensures k == |bars| > 0 ==> Run(costs, plan, bars, k).holding.None?
  {
    hide Opened, Protect, Marked;
    if k > 0 {
      RunBalanced(costs, plan, bars, k - 1);
      OpenedBalanced(costs, plan, bars, Run(costs, plan, bars, k - 1), k - 1);
      OpenedInRange(costs, plan, bars, Run(costs, plan, bars, k - 1), k - 1);
      ProtectBalanced(costs, plan, bars, Opened(costs, plan, bars, Run(costs, plan, bars, k - 1), k - 1), k - 1);
    }
  }

  /** The ledger check of the study never fails: capital and all closed trades make the final equity. */
  lemma LedgerCloses(costs: Costs, plan: Plan, bars: seq<Bar>)
    requires 0 < |bars| == |plan.signal| == |plan.stopFraction|
    ensures EquityAt(costs, plan, bars, |bars| - 1) == CAPITAL + SumNet(Run(costs, plan, bars, |bars|).trades)
  {
    RunBalanced(costs, plan, bars, |bars|);
    hide Run;
  }

  lemma ActionableGrows(costs: Costs, plan: Plan, k: nat)
    requires k < |plan.signal|
    ensures Actionable(costs, plan, k + 1)
         == Actionable(costs, plan, k)
            + if SignalIndex(costs, k) >= 0 && plan.signal[SignalIndex(costs, k)] != 0 then 1 else 0
  {
    var j := SignalIndex(costs, k);
    if j >= 0 {
      assert plan.signal[..j + 1][..j] == plan.signal[..j];
    }
  }

  lemma StepUses(costs: Costs, plan: Plan, bars: seq<Bar>, s: Loop, i: nat)
    requires i < |bars| == |plan.signal| == |plan.stopFraction| && EnteredInRange(s, |bars|)
    ensures Used(BarStep(costs, plan, bars, s, i))
         <= Used(s) + if SignalIndex(costs, i) >= 0 && plan.signal[SignalIndex(costs, i)] != 0 then 1 else 0
  {
    hide Position, Gain, Row, StopHit, TargetHit, Effective, ExitPrice, Marked;
  }

  /** Each position spends its own nonzero signal, so the preallocated trade rows always suffice. */
  lemma {:induction false} TradesFit(costs: Costs, plan: Plan, bars: seq<Bar>, k: nat)
    requires k <= |bars| == |plan.signal| == |plan.stopFraction|
    ensures Used(Run(costs, plan, bars, k)) <= Actionable(costs, plan, k)
    ensures Actionable(costs, plan, k) <= Nonzero(plan.signal)
  {
    hide BarStep;
    ActionableWithin(costs, plan, k);
    if k > 0 {
      TradesFit(costs, plan, bars, k - 1);
      StepUses(costs, plan, bars, Run(costs, plan, bars, k - 1), k - 1);
      ActionableGrows(costs, plan, k - 1);
    }
  }

  lemma {:induction false} PrefixNonzero(signal: seq<int>, j: nat)
    requires j <= |signal|
    ensures Nonzero(signal[..j]) <= Nonzero(signal)
    decreases |signal| - j
  {
    if j < |signal| {
      PrefixNonzero(signal, j + 1);
      assert signal[..j + 1][..j] == signal[..j];
    } else {
      assert signal[..j] == signal;
    }
  }

  lemma ActionableWithin(costs: Costs, plan: Plan, k: nat)
    ensures Actionable(costs, plan, k) <= Nonzero(plan.signal)
  {
    var j := SignalIndex(costs, k);
    if 0 < j <= |plan.signal| {
      PrefixNonzero(plan.signal, j);
    }
  }
}
