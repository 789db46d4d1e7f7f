/** The minute simulator as the loop it is: local state, an equity array and a preallocated trade buffer. */
module MinuteEngine {
  import opened Basics
  import opened MinuteModel
  import MinuteTheorems

  /** One pass over the bars; every row written is inside the buffer sized by the signals. */
  method Simulate(costs: Costs, plan: Plan, bars: seq<Bar>)
    returns (equity: array<real>, trades: array<TradeRow>, count: nat, haltAt: int, unpriced: nat)
    requires |bars| == |plan.signal| == |plan.stopFraction|
    ensures equity.Length == |bars|
    ensures forall k | 0 <= k < |bars| :: equity[k] == EquityAt(costs, plan, bars, k)
    ensures count <= trades.Length == MinuteTheorems.Nonzero(plan.signal) + 1
    ensures var s := Run(costs, plan, bars, |bars|);
            trades[..count] == s.trades && haltAt == s.haltAt && unpriced == s.unpriced
  {
    hide Gain, Proceeds, Position, Leave, MayEnter, Marked, Row, Threshold, TrailedStop, Run, BarStep, EquityAt,
         Opened, Protect;
    RunEnds(costs, plan, bars);
    var n := |bars|;
    equity := new real[n];
    var buffer := MinuteTheorems.Nonzero(plan.signal) + 1;
    trades := new TradeRow[buffer](_ => TradeRow(0, 0, Long, 0.0, 0.0, 0.0, 0.0, 0.0, 0.0, 0.0, Stop, 0.0, 0.0));
    var cash, peak, dayStart, day := CAPITAL, CAPITAL, CAPITAL, -1;
    var holding: Option<Holding> := None;
    var lastExit, halted, dayHalted := -100, false, false;
    haltAt, unpriced, count := 0, 0, 0;
    var i := 0;
    while i < n
      invariant 0 <= i <= n && count <= trades.Length == buffer && equity.Length == n
      invariant Loop(cash, peak, dayStart, day, holding, lastExit, halted, dayHalted, haltAt, unpriced, trades[..count])
             == Run(costs, plan, bars, i)
      invariant forall k | 0 <= k < i :: equity[k] == EquityAt(costs, plan, bars, k)
    {
      var b := bars[i];
      ghost var s := Run(costs, plan, bars, i);
      RoomForOne(costs, plan, bars, i);
      RunNext(costs, plan, bars, i);
      ghost var s3 := Opened(costs, plan, bars, s, i);

      cash, holding, dayStart, day, dayHalted, unpriced, halted :=
        OpenBar(costs, plan, bars, i, cash, holding, dayStart, day, dayHalted, unpriced, halted, lastExit, s);
      assert Loop(cash, peak, dayStart, day, holding, lastExit, halted, dayHalted, haltAt, unpriced, s.trades) == s3;
      ghost var s4 := Protect(costs, plan, bars, s3, i);

      if holding.Some? {
        var row: Option<TradeRow>;
        cash, holding, row := WatchExits(costs, plan, bars, i, cash, Threshold(dayStart, peak), unpriced,
                                         holding.value, s3);
        if row.Some? {
          trades[count] := row.value;
          assert trades[..count + 1] == s.trades + [row.value];
          count, lastExit := count + 1, i;
        }
      } else {
        FlatUnprotected(costs, plan, bars, s3, i);
      }
      assert Loop(cash, peak, dayStart, day, holding, lastExit, halted, dayHalted, haltAt, unpriced, trades[..count])
          == s4;

      var eq := Marked(cash, holding, b.close);
      equity[i] := eq;
      peak := Max(peak, eq);
      if eq <= dayStart * 0.99 + 0.00000001 {
        dayHalted := true;
      }
      if eq <= peak * 0.93 + 0.00000001 && !halted {
        halted, haltAt := true, b.time + MINUTE;
      }
      i := i + 1;
    }
  }

  /** The bar before its exits: day roll, then funding, then a possible entry. */
  method OpenBar(costs: Costs, plan: Plan, bars: seq<Bar>, i: nat, cash0: real, holding0: Option<Holding>,
                 dayStart0: real, day0: int, dayHalted0: bool, unpriced0: nat, halted0: bool, lastExit: int,
                 ghost s: Loop)
    returns (cash: real, holding: Option<Holding>, dayStart: real, day: int, dayHalted: bool, unpriced: nat,
             halted: bool)
    requires i < |bars| == |plan.signal| == |plan.stopFraction|
    requires s == s.(cash := cash0, holding := holding0, dayStart := dayStart0, day := day0, dayHalted := dayHalted0,
                     unpriced := unpriced0, halted := halted0, lastExit := lastExit)
    ensures Opened(costs, plan, bars, s, i)
         == s.(cash := cash, holding := holding, dayStart := dayStart, day := day, dayHalted := dayHalted,
               unpriced := unpriced, halted := halted)
  {
    hide Position, MayEnter, Paid, Marked;
    var b := bars[i];
    cash, holding, unpriced, halted := cash0, holding0, unpriced0, halted0;
    dayStart, day, dayHalted := dayStart0, day0, dayHalted0;
    var today := b.time / DAY;
    if today != day {
      day, dayStart, dayHalted := today, Marked(cash, holding, b.open), false;
    }
    if holding.Some? && b.event {
      var pay, h, missing := PayFunding(holding.value, b);
      cash, holding := cash - pay, Some(h);
      if missing {
        unpriced, halted := unpriced + 1, true;
      }
    }
    if MayEnter(costs, plan, holding.None? && !halted && !dayHalted, lastExit, b, i, |bars|) {
      MayEnterReady(costs, plan, holding.None? && !halted && !dayHalted, lastExit, b, i, |bars|);
      var taken := Position(costs, plan, cash, b, i, PriorVolume(bars, i));
      if taken.Some? {
        cash, holding := cash - taken.value.entryFee, taken;
      }
    }
  }

  /** A funding settlement of the open position. */
  method PayFunding(h: Holding, b: Bar) returns (pay: real, after: Holding, missing: bool)
    ensures (pay, after, missing) == Paid(h, b)
  {
    hide Payment, Worse;
    pay, after, missing := 0.0, h, true;
    if b.mark.None? || b.mark.value <= 0.0 {
      return;
    }
    pay := Payment(h, b.mark.value, b.rate);
    after := h.(funding := h.funding + pay);
    var bound := if Sign(h.side, b.rate) >= 0.0 then b.markHigh else b.markLow;
    if bound.Some? {
      missing := false;
      after := after.(extra := after.extra + Worse(h, b.mark.value, b.rate, bound.value));
    }
  }

  lemma RunEnds(costs: Costs, plan: Plan, bars: seq<Bar>)
    requires |bars| == |plan.signal| == |plan.stopFraction|
    ensures Run(costs, plan, bars, 0) == Start()
  {
  }

  lemma RunNext(costs: Costs, plan: Plan, bars: seq<Bar>, i: nat)
    requires i < |bars| == |plan.signal| == |plan.stopFraction|
    ensures var o := Opened(costs, plan, bars, Run(costs, plan, bars, i), i);
            EnteredInRange(o, |bars|) &&
            var t := Protect(costs, plan, bars, o, i);
            && Run(costs, plan, bars, i + 1) == Mark(t, bars[i])
            && EquityAt(costs, plan, bars, i) == Marked(t.cash, t.holding, bars[i].close)
  {
    hide Opened, Protect, Marked;
    MinuteTheorems.OpenedInRange(costs, plan, bars, Run(costs, plan, bars, i), i);
  }

  /** Stop, barrier, target, time and exposure exits of one bar, else the trailing stop. */
  method WatchExits(costs: Costs, plan: Plan, bars: seq<Bar>, i: nat, cash: real, floor: real, unpriced: nat, h: Holding,
                    ghost s: Loop)
    returns (left: real, holding: Option<Holding>, row: Option<TradeRow>)
    requires i < |bars| == |plan.signal| == |plan.stopFraction| && 0 <= h.entered < |bars|
    requires s.cash == cash && s.unpriced == unpriced && s.holding == Some(h) && floor == Threshold(s.dayStart, s.peak)
    ensures Protect(costs, plan, bars, s, i)
         == s.(cash := left, holding := holding, lastExit := if row.Some? then i else s.lastExit,
               trades := if row.Some? then s.trades + [row.value] else s.trades)
  {
    hide Leave, Proceeds, Row, TrailedStop, Threshold;
    left, holding, row := cash, Some(h), None;
    var exit := Leave(costs, plan, floor, cash, unpriced, h, bars[i], i, |bars|);
    if exit.Some? {
      var raw, reason := exit.value.0, exit.value.1;
      left := cash + Proceeds(costs, h, raw);
      row := Some(Row(costs, bars, h, i, raw, reason));
      holding := None;
    } else if plan.trailing {
      holding := Some(h.(stop := TrailedStop(h, bars[i].close, plan.stopFraction[i])));
    }
  }

  lemma FlatUnprotected(costs: Costs, plan: Plan, bars: seq<Bar>, s: Loop, i: nat)
    requires i < |bars| == |plan.signal| == |plan.stopFraction| && s.holding.None?
    ensures Protect(costs, plan, bars, s, i) == s
  {
  }

  lemma MayEnterReady(costs: Costs, plan: Plan, idle: bool, lastExit: int, b: Bar, i: nat, n: nat)
    requires i < n == |plan.signal| == |plan.stopFraction| && MayEnter(costs, plan, idle, lastExit, b, i, n)
    ensures 0 <= SignalIndex(costs, i) < n && plan.stopFraction[SignalIndex(costs, i)] >= 0.001
  {
  }

  /** Before bar i there is a free row, whatever the bar does. */
  lemma RoomForOne(costs: Costs, plan: Plan, bars: seq<Bar>, i: nat)
    requires i < |bars| == |plan.signal| == |plan.stopFraction|
    ensures |Run(costs, plan, bars, i).trades| < MinuteTheorems.Nonzero(plan.signal) + 1
  {
    MinuteTheorems.TradesFit(costs, plan, bars, i);
  }
}
