/** The minute-bar leveraged simulator: one bar of its loop, as functions of the loop's variables. */
module MinuteModel {
  import opened Basics

  /** One closed minute with its funding data; an absent mark is the source's non-finite value. */
  datatype Candle = Candle(time: int, open: Positive, high: Positive, low: Positive, close: Positive, volume: Size,
                           rate: real, event: bool, mark: Option<real>, markHigh: Option<real>, markLow: Option<real>)

  type Bar = b: Candle | b.low <= b.open <= b.high && b.low <= b.close <= b.high
    witness Candle(0, 1.0, 1.0, 1.0, 1.0, 0.0, 0.0, false, None, None, None)

  datatype Charges = Charges(fee: real, slip: real, latency: nat)

  type Costs = c: Charges | 0.0 <= c.fee < 0.1 && 0.0 <= c.slip < 0.1 witness Charges(0.0005, 0.0001, 0)

  /** signal is -1, 0 or 1 per bar; rr and hold are the reward ratio and the holding limit in bars. */
  datatype Plan = Plan(signal: seq<int>, stopFraction: seq<real>, rr: real, hold: int, trailing: bool)

  datatype Reason = Stop | Target | Time | Barrier | Finish | Exposure

  datatype Holding = Holding(side: Side, qty: Positive, entry: Positive, stop: real, target: Option<real>, entered: int,
                             entryFee: real, funding: real, extra: real, budget: real)

  datatype TradeRow = TradeRow(entryTime: int, exitTime: int, side: Side, entry: real, exit: real, qty: real,
                               gross: real, fees: real, funding: real, net: real, reason: Reason, budget: real,
                               extra: real)

  datatype Loop = Loop(cash: real, peak: real, dayStart: real, day: int, holding: Option<Holding>, lastExit: int,
                       halted: bool, dayHalted: bool, haltAt: int, unpriced: nat, trades: seq<TradeRow>)

  const CAPITAL := 1000.0
  const DAY := 86_400_000
  const MINUTE := 60_000

  function Start(): Loop {
    Loop(CAPITAL, CAPITAL, CAPITAL, -1, None, -100, false, false, 0, 0, [])
  }

  /** Cash plus the open position marked at a price, before any exit cost. */
  function Marked(cash: real, holding: Option<Holding>, price: real): real {
    if holding.None? then cash else cash + Gain(holding.value, price)
  }

  function Gain(h: Holding, price: real): real {
    Sign(h.side, h.qty * (price - h.entry))
  }

  function NewDay(s: Loop, b: Bar): Loop {
    var today := b.time / DAY;
    if today == s.day then s
    else s.(day := today, dayStart := Marked(s.cash, s.holding, b.open), dayHalted := false)
  }

  function Payment(h: Holding, mark: real, rate: real): real {
    Sign(h.side, h.qty * mark * rate)
  }

  /** How much worse the payment could have been within the settlement minute. */
  function Worse(h: Holding, mark: real, rate: real, bound: real): real {
    Max(0.0, Sign(h.side, h.qty * rate * (bound - mark)))
  }

  /** A settlement's payment, the position after it, and whether its mark or bound was missing. */
  function Paid(h: Holding, b: Bar): (real, Holding, bool) {
    if b.mark.None? || b.mark.value <= 0.0 then (0.0, h, true)
    else
      var pay := Payment(h, b.mark.value, b.rate);
      var bound := if Sign(h.side, b.rate) >= 0.0 then b.markHigh else b.markLow;
      var paid := h.(funding := h.funding + pay);
      if bound.None? then (pay, paid, true)
      else (pay, paid.(extra := h.extra + Worse(h, b.mark.value, b.rate, bound.value)), false)
  }

  /** Funding is paid at the mark; without a usable mark or bound the run is flagged and halted. */
  function Fund(s: Loop, b: Bar): Loop {
    if s.holding.None? || !b.event then s
    else
      var (pay, h, missing) := Paid(s.holding.value, b);
      s.(cash := s.cash - pay, holding := Some(h), unpriced := s.unpriced + (if missing then 1 else 0),
         halted := s.halted || missing)
  }

  predicate Gate(plan: Plan, sf: real) {
    if plan.rr > 0.0 then sf * plan.rr >= 2.0 * 0.0012 else sf >= 0.0012
  }

  /** The signal acted on at bar i was issued one bar and the latency earlier. */
  function SignalIndex(costs: Costs, i: nat): int {
    i - 1 - costs.latency
  }

  predicate MayEnter(costs: Costs, plan: Plan, idle: bool, lastExit: int, b: Bar, i: nat, n: nat)
    requires i < n == |plan.signal| == |plan.stopFraction|
  {
    var j := SignalIndex(costs, i);
    && j >= 0 && plan.signal[j] != 0 && 0.001 <= plan.stopFraction[j] <= 0.05 && Gate(plan, plan.stopFraction[j])
    && idle && !b.event && i > lastExit + 1 && i < n - 1
  }

  /** Flat and neither halt latched. */
  predicate Idle(s: Loop) {
    s.holding.None? && !s.halted && !s.dayHalted
  }

  function EntryPrice(costs: Costs, side: Side, open: Positive): Positive {
    PositiveProduct(open, 1.0 + Sign(side, costs.slip));
    open * (1.0 + Sign(side, costs.slip))
  }

  const LOT: Positive := 0.001

  function EntrySize(costs: Costs, cash: real, budget: real, sf: real, price: Positive, volume: Size): real
    requires sf >= 0.001
  {
    RoundDown(Min(Min(budget / (sf + 2.0 * costs.fee + 2.0 * costs.slip) / price, cash * 2.0 / price), volume * 0.001),
              LOT)
  }

  function Enter(costs: Costs, plan: Plan, s: Loop, b: Bar, i: nat, n: nat, volume: Size): Loop
    requires i < n == |plan.signal| == |plan.stopFraction|
  {
    if !MayEnter(costs, plan, Idle(s), s.lastExit, b, i, n) then s
    else
      var taken := Position(costs, plan, s.cash, b, i, volume);
      if taken.None? then s else s.(cash := s.cash - taken.value.entryFee, holding := taken)
  }

  /** The position a signal opens, unless it rounds to nothing or to less than the minimum notional. */
  function Position(costs: Costs, plan: Plan, cash: real, b: Bar, i: nat, volume: Size): Option<Holding>
    requires 0 <= SignalIndex(costs, i) < |plan.signal| == |plan.stopFraction|
    requires plan.stopFraction[SignalIndex(costs, i)] >= 0.001
  {
    var sf := plan.stopFraction[SignalIndex(costs, i)];
    var side := if plan.signal[SignalIndex(costs, i)] > 0 then Long else Short;
    var price := EntryPrice(costs, side, b.open);
    var budget := cash * 0.0025;
    var qty := EntrySize(costs, cash, budget, sf, price, volume);
    if qty <= 0.0 || Mul(qty, price) < 100.0 then None
    else
      var target := if plan.rr > 0.0 then Some(Mul(price, 1.0 + Sign(side, Mul(sf, plan.rr)))) else None;
      Some(Holding(side, qty, price, price * (1.0 - Sign(side, sf)), target, i, Mul(Mul(qty, price), costs.fee), 0.0,
                   0.0, budget))
  }

  /** Equity the risk rule must not lose: one percent in a day, seven from the peak. */
  function Threshold(dayStart: real, peak: real): real {
    Max(dayStart * 0.99, peak * 0.93)
  }

  /** What one unit brings (or costs) at a price after slippage and fee. */
  function Net(costs: Costs, side: Side): Positive {
    if side.Long? then
      MulPositive(1.0 - costs.slip, 1.0 - costs.fee);
      Mul(1.0 - costs.slip, 1.0 - costs.fee)
    else
      MulPositive(1.0 + costs.slip, 1.0 + costs.fee);
      Mul(1.0 + costs.slip, 1.0 + costs.fee)
  }

  /** The price at which leaving would bring equity exactly to the threshold. */
  function BarrierPrice(costs: Costs, floor: real, cash: real, h: Holding): real {
    PositiveProduct(h.qty, Net(costs, h.side));
    var unit := h.qty * Net(costs, h.side);
    if h.side.Long? then (floor - cash + h.qty * h.entry) / unit else (cash + h.qty * h.entry - floor) / unit
  }

  function Effective(costs: Costs, floor: real, cash: real, h: Holding): real {
    var barrier := BarrierPrice(costs, floor, cash, h);
    if h.side.Long? then Max(h.stop, barrier) else Min(h.stop, barrier)
  }

  /** x is no worse than y for this side. */
  predicate Safer(side: Side, x: real, y: real) {
    Sign(side, x - y) >= 0.0
  }

  /** The worst price of the bar for this side reaches the effective stop. */
  predicate StopHit(effective: real, side: Side, b: Bar) {
    if side.Long? then b.low <= effective else b.high >= effective
  }

  predicate TargetHit(h: Holding, b: Bar) {
    h.target.Some? && if h.side.Long? then b.high >= h.target.value else b.low <= h.target.value
  }

  function ExitPrice(costs: Costs, side: Side, raw: real): real {
    raw * (1.0 - Sign(side, costs.slip))
  }

  /** Raw exit price and reason, before slippage; None when the position survives the bar. */
  function Leave(costs: Costs, plan: Plan, floor: real, cash: real, unpriced: nat, h: Holding, b: Bar, i: nat, n: nat)
    : Option<(real, Reason)>
  {
    var effective := Effective(costs, floor, cash, h);
    if StopHit(effective, h.side, b) then
      Some((if h.side.Long? then Min(b.open, effective) else Max(b.open, effective),
            if effective != h.stop then Barrier else Stop))
    else if TargetHit(h, b) then Some((h.target.value, Target))
    else if i - h.entered + 1 >= plan.hold || i == n - 1 || unpriced != 0 then
      Some((b.close, if i < n - 1 then Time else Finish))
    else
      var liquid := Marked(cash, Some(h), b.close) - h.qty * b.close * costs.fee;
      if liquid <= 0.0 || h.qty * b.close > 2.0 * liquid then Some((b.close, Exposure)) else None
  }

  /** The exit decision at this bar, from the loop's state. */
  function LeaveAt(costs: Costs, plan: Plan, s: Loop, h: Holding, b: Bar, i: nat, n: nat): Option<(real, Reason)> {
    Leave(costs, plan, Threshold(s.dayStart, s.peak), s.cash, s.unpriced, h, b, i, n)
  }

  function Row(costs: Costs, bars: seq<Bar>, h: Holding, i: nat, raw: real, reason: Reason): TradeRow
    requires i < |bars| && 0 <= h.entered < |bars|
  {
    var price := ExitPrice(costs, h.side, raw);
    var gross := Gain(h, price);
    var fees := h.entryFee + h.qty * price * costs.fee;
    TradeRow(bars[h.entered].time, bars[i].time + MINUTE, h.side, h.entry, price, h.qty, gross, fees, h.funding,
             gross - fees - h.funding, reason, h.budget, h.extra)
  }

  /** What leaving at a raw price adds to cash. */
  function Proceeds(costs: Costs, h: Holding, raw: real): real {
    var price := ExitPrice(costs, h.side, raw);
    Gain(h, price) - h.qty * price * costs.fee
  }

  function CloseAt(costs: Costs, bars: seq<Bar>, s: Loop, h: Holding, i: nat, raw: real, reason: Reason): Loop
    requires i < |bars| && 0 <= h.entered < |bars|
  {
    s.(cash := s.cash + Proceeds(costs, h, raw), holding := None, lastExit := i,
       trades := s.trades + [Row(costs, bars, h, i, raw, reason)])
  }

  /** A closed bar may only tighten the stop of the next one. */
  function TrailedStop(h: Holding, close: real, sf: real): real {
    var candidate := close * (1.0 - Sign(h.side, sf));
    if h.side.Long? then Max(h.stop, candidate) else Min(h.stop, candidate)
  }

  function Protect(costs: Costs, plan: Plan, bars: seq<Bar>, s: Loop, i: nat): Loop
    requires i < |bars| == |plan.signal| == |plan.stopFraction|
    requires s.holding.Some? ==> 0 <= s.holding.value.entered < |bars|
  {
    if s.holding.None? then s
    else
      var h := s.holding.value;
      var exit := LeaveAt(costs, plan, s, h, bars[i], i, |bars|);
      if exit.Some? then CloseAt(costs, bars, s, h, i, exit.value.0, exit.value.1)
      else if plan.trailing then
        s.(holding := Some(h.(stop := TrailedStop(h, bars[i].close, plan.stopFraction[i]))))
      else s
  }

  /** End of bar: equity at the close, the new peak, and the two latches. */
  function Mark(s: Loop, b: Bar): Loop {
    var eq := Marked(s.cash, s.holding, b.close);
    var peak := Max(s.peak, eq);
    var falls := eq <= peak * 0.93 + 0.00000001;
    s.(peak := peak, dayHalted := s.dayHalted || eq <= s.dayStart * 0.99 + 0.00000001,
       halted := s.halted || falls, haltAt := if falls && !s.halted then b.time + MINUTE else s.haltAt)
  }

  /** Volume of the bar before, or of the first bar. */
  function PriorVolume(bars: seq<Bar>, i: nat): Size
    requires i < |bars|
  {
    bars[if i == 0 then 0 else i - 1].volume
  }

  /** The bar up to the moment the exits are looked at. */
  function Opened(costs: Costs, plan: Plan, bars: seq<Bar>, s: Loop, i: nat): Loop
    requires i < |bars| == |plan.signal| == |plan.stopFraction|
  {
    Enter(costs, plan, Fund(NewDay(s, bars[i]), bars[i]), bars[i], i, |bars|, PriorVolume(bars, i))
  }

  predicate EnteredInRange(s: Loop, n: nat) {
    s.holding.Some? ==> 0 <= s.holding.value.entered < n
  }

  function BarStep(costs: Costs, plan: Plan, bars: seq<Bar>, s: Loop, i: nat): (t: Loop)
    requires i < |bars| == |plan.signal| == |plan.stopFraction|
    requires EnteredInRange(s, |bars|)
    ensures EnteredInRange(t, |bars|)
  {
    Mark(Protect(costs, plan, bars, Opened(costs, plan, bars, s, i), i), bars[i])
  }

  function Run(costs: Costs, plan: Plan, bars: seq<Bar>, k: nat): (s: Loop)
    requires k <= |bars| == |plan.signal| == |plan.stopFraction|
    ensures EnteredInRange(s, |bars|)
  {
    if k == 0 then Start() else BarStep(costs, plan, bars, Run(costs, plan, bars, k - 1), k - 1)
  }

  /** The equity written for bar k. */
  function EquityAt(costs: Costs, plan: Plan, bars: seq<Bar>, k: nat): real
    requires k < |bars| == |plan.signal| == |plan.stopFraction|
  {
    var s := Run(costs, plan, bars, k + 1);
    Marked(s.cash, s.holding, bars[k].close)
  }
}
