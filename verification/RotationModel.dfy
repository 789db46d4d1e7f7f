/** The integer-lot spot executor: one day of its loop, as functions of cash, coins and fills. */
module RotationModel {
  import opened Basics

  datatype Settings = Settings(fee: real, slip: real, allocation: real, extraDelay: nat, initial: real, step: Positive,
                               minimum: real, participation: real)
  {
    predicate Valid() {
      && 0.0 <= fee < 0.05 && 0.0 <= slip < 0.05 && 0.0 < allocation <= 1.0
      && initial > 0.0 && minimum >= 0.0 && 0.0 < participation <= 1.0
    }
  }

  type Costs = c: Settings | c.Valid() witness Settings(0.001, 0.0005, 1.0, 0, 10000.0, 0.00000001, 10.0, 0.001)

  /** One calendar day of every asset; an absent quote is the source's NaN. */
  datatype Day = Day(calendar: int, open: seq<Option<real>>, low: seq<Option<real>>, close: seq<Option<real>>,
                     volume: seq<Option<real>>)

  datatype Reason = Rebalance | PeriodEnd

  datatype Fill = Fill(day: nat, asset: nat, buy: bool, lots: nat, quantity: real, price: real, notional: real, fee: real,
                       cashAfter: real, reason: Reason)

  /** Coins are counted in whole lots, as the source keeps them. */
  datatype Account = Account(cash: real, lots: seq<int>, fills: seq<Fill>, entries: int, roundtrips: int,
                             rejections: int)

  ghost predicate Rectangular(days: seq<Day>, targets: seq<seq<real>>, n: nat) {
    && |targets| == |days|
    && forall i | 0 <= i < |days| ::
         && |days[i].open| == |days[i].low| == |days[i].close| == |days[i].volume| == n
         && |targets[i]| == n
         && forall k | 0 <= k < n :: targets[i][k] >= 0.0
  }

  function Amount(c: Costs, lots: int): real {
    Times(lots, c.step)
  }

  function Price(c: Costs, buy: bool, reference: real): real {
    reference * (if buy then 1.0 + c.slip else 1.0 - c.slip)
  }

  /** A price with the fee on it. */
  function WithFee(c: Costs, price: Positive): Positive {
    PositiveProduct(price, 1.0 + c.fee);
    price * (1.0 + c.fee)
  }

  /** Whole lots the cash can pay for, fee included. */
  function Affordable(c: Costs, cash: real, price: Positive): int {
    (cash / WithFee(c, price) / c.step).Floor
  }

  predicate TooSmall(c: Costs, lots: int, price: real) {
    Mul(Amount(c, lots), price) < c.minimum
  }

  datatype Attempt = Skipped | Refused | Filled(lots: nat)

  /** What a trade request comes to: nothing, a capacity refusal, or a fill of that many lots. */
  function Tried(c: Costs, cash: real, held: int, buy: bool, lots: int, reference: Option<real>, capacity: Option<real>)
    : Attempt
  {
    if reference.None? || reference.value <= 0.0 || TooSmall(c, lots, reference.value) then Skipped
    else if capacity.None? || Amount(c, lots) > capacity.value + 0.0000000001 then Refused
    else
      PositiveProduct(reference.value, if buy then 1.0 + c.slip else 1.0 - c.slip);
      var price := Price(c, buy, reference.value);
      var limit := if buy then Affordable(c, cash, price) else held;
      var units := if lots <= limit then lots else limit;
      if TooSmall(c, units, price) || units <= 0 then Skipped else Filled(units)
  }

  function Cost(c: Costs, buy: bool, lots: int, reference: real): real {
    Mul(Amount(c, lots), Price(c, buy, reference))
  }

  function Trade(c: Costs, s: Account, day: nat, k: nat, buy: bool, lots: int, reference: Option<real>,
                 capacity: Option<real>, reason: Reason): (t: Account)
    requires k < |s.lots|
    ensures |t.lots| == |s.lots|
  {
    match Tried(c, s.cash, s.lots[k], buy, lots, reference, capacity)
    case Skipped => s
    case Refused => s.(rejections := s.rejections + 1)
    case Filled(units) => Booked(c, s, day, k, buy, units, reference.value, reason)
  }

  /** The account after a fill of this many lots. */
  function Booked(c: Costs, s: Account, day: nat, k: nat, buy: bool, units: nat, reference: real, reason: Reason)
    : (t: Account)
    requires k < |s.lots|
    ensures |t.lots| == |s.lots|
  {
    var notional := Cost(c, buy, units, reference);
    var fee := notional * c.fee;
    var cash := if buy then s.cash - (notional + fee) else s.cash + (notional - fee);
    var left := if buy then s.lots[k] + units else s.lots[k] - units;
    var fill := Fill(day, k, buy, units, Amount(c, units), Price(c, buy, reference), notional, fee, cash, reason);
    Account(cash, s.lots[k := left], s.fills + [fill],
            if s.lots[k] == 0 && left > 0 then s.entries + 1 else s.entries,
            if s.lots[k] > 0 && left == 0 then s.roundtrips + 1 else s.roundtrips, s.rejections)
  }

  /** Cash plus holdings at these prices, if every held one is quoted. */
  function Worth(c: Costs, lots: seq<int>, prices: seq<Option<real>>, k: nat): Option<real>
    requires k <= |lots| == |prices|
  {
    if k == 0 then Some(0.0)
    else
      var before := Worth(c, lots, prices, k - 1);
      if lots[k - 1] <= 0 then before
      else if before.None? || prices[k - 1].None? then None
      else Some(before.value + Mul(Amount(c, lots[k - 1]), prices[k - 1].value))
  }

  function Wealth(c: Costs, s: Account, prices: seq<Option<real>>): Option<real>
    requires |s.lots| == |prices|
  {
    var worth := Worth(c, s.lots, prices, |prices|);
    if worth.None? then None else Some(s.cash + worth.value)
  }

  predicate Missing(s: Account, day: Day)
    requires |s.lots| == |day.open| == |day.low| == |day.close|
  {
    exists k | 0 <= k < |s.lots| :: s.lots[k] > 0 && (day.open[k].None? || day.close[k].None? || day.low[k].None?)
  }

  const BUFFER := 0.996

  /** One lot bought at the open, slippage and fee included. */
  function LotCost(c: Costs, open: Positive): Positive {
    PositiveProduct(open, 1.0 + c.slip);
    PositiveProduct(open * (1.0 + c.slip), 1.0 + c.fee);
    PositiveProduct(open * (1.0 + c.slip) * (1.0 + c.fee), c.step);
    open * (1.0 + c.slip) * (1.0 + c.fee) * c.step
  }

  /** What the targets may spend in all. */
  function Budget(c: Costs, wealth: real): real {
    wealth * c.allocation * BUFFER
  }

  /** Whole lots of the asset that its share of the buffered wealth can buy. */
  function DesiredLots(c: Costs, wealth: real, weight: real, open: Option<real>): int {
    if open.None? || open.value <= 0.0 then 0
    else (Mul(Budget(c, wealth), weight) / LotCost(c, open.value)).Floor
  }

  function Desired(c: Costs, wealth: real, weights: seq<real>, open: seq<Option<real>>): (d: seq<int>)
    requires |weights| == |open|
    ensures |d| == |open|
  {
    seq(|open|, k requires 0 <= k < |open| => DesiredLots(c, wealth, weights[k], open[k]))
  }

  function Capacity(c: Costs, volume: Option<real>): Option<real> {
    if volume.None? then None else Some(volume.value * c.participation)
  }

  /** Capacities of a rebalance: a share of yesterday's volume, nothing on the very first row. */
  function Capacities(c: Costs, days: seq<Day>, i: nat, n: nat): (cap: seq<Option<real>>)
    requires i < |days| && forall j | 0 <= j < |days| :: |days[j].volume| == n
    ensures |cap| == n
  {
    if i == 0 then seq(n, _ => Some(0.0)) else seq(n, k requires 0 <= k < n => Capacity(c, days[i - 1].volume[k]))
  }

  /** After the first k assets have been considered for selling down to the desired lots. */
  function Sells(c: Costs, s: Account, day: nat, open: seq<Option<real>>, desired: seq<int>, cap: seq<Option<real>>, k: nat)
    : (t: Account)
    requires k <= |s.lots| == |open| == |desired| == |cap|
    ensures |t.lots| == |s.lots|
  {
    if k == 0 then s
    else
      var t := Sells(c, s, day, open, desired, cap, k - 1);
      if desired[k - 1] < t.lots[k - 1] then
        Trade(c, t, day, k - 1, false, t.lots[k - 1] - desired[k - 1], open[k - 1], cap[k - 1], Rebalance)
      else t
  }

  function Buys(c: Costs, s: Account, day: nat, open: seq<Option<real>>, desired: seq<int>, cap: seq<Option<real>>, k: nat)
    : (t: Account)
    requires k <= |s.lots| == |open| == |desired| == |cap|
    ensures |t.lots| == |s.lots|
  {
    if k == 0 then s
    else
      var t := Buys(c, s, day, open, desired, cap, k - 1);
      if desired[k - 1] > t.lots[k - 1] then
        Trade(c, t, day, k - 1, true, desired[k - 1] - t.lots[k - 1], open[k - 1], cap[k - 1], Rebalance)
      else t
  }

  /** Sells everything, then buys everything, toward the desired lots. */
  function Rebalanced(c: Costs, s: Account, day: nat, open: seq<Option<real>>, desired: seq<int>,
                      cap: seq<Option<real>>): (t: Account)
    requires |s.lots| == |open| == |desired| == |cap|
    ensures |t.lots| == |s.lots|
  {
    var n := |open|;
    Buys(c, Sells(c, s, day, open, desired, cap, n), day, open, desired, cap, n)
  }

  /** Everything still held is offered at the close of the last day. */
  function Finals(c: Costs, s: Account, day: nat, close: seq<Option<real>>, cap: seq<Option<real>>, k: nat): (t: Account)
    requires k <= |s.lots| == |close| == |cap|
    ensures |t.lots| == |s.lots|
  {
    if k == 0 then s
    else
      var t := Finals(c, s, day, close, cap, k - 1);
      if t.lots[k - 1] > 0 then Trade(c, t, day, k - 1, false, t.lots[k - 1], close[k - 1], cap[k - 1], PeriodEnd)
      else t
  }

  /** The run trades days first..last-1; every gives the rebalance cadence unless holding only. */
  datatype Plan = Plan(first: nat, last: nat, every: int, holdOnly: bool)

  predicate Scheduled(plan: Plan, days: seq<Day>, i: nat)
    requires i < |days| && plan.every > 0
  {
    i == plan.first || (!plan.holdOnly && days[i].calendar % plan.every == 0)
  }

  ghost predicate Ready(plan: Plan, days: seq<Day>, targets: seq<seq<real>>, n: nat) {
    Rectangular(days, targets, n) && plan.first < plan.last <= |days| && plan.every > 0
  }

  /** The opening of day i: a scheduled rebalance on the targets of two days and the delay before. */
  function Morning(c: Costs, plan: Plan, days: seq<Day>, targets: seq<seq<real>>, n: nat, s: Account, i: nat): (t: Account)
    requires Ready(plan, days, targets, n) && i < plan.last && |s.lots| == n
    ensures |t.lots| == n
  {
    var j := i - 2 - c.extraDelay;
    var wealth := Wealth(c, s, days[i].open);
    if Scheduled(plan, days, i) && j >= 0 && wealth.Some? && !Missing(s, days[i]) && i < plan.last - 1 then
      Rebalanced(c, s, i, days[i].open, Desired(c, wealth.value, targets[j], days[i].open), Capacities(c, days, i, n))
    else s
  }

  /** Volumes behind the final sale: the day before, or, on the first row, the last row (a negative index). */
  function FinalCapacities(c: Costs, days: seq<Day>, i: nat, n: nat): (cap: seq<Option<real>>)
    requires i < |days| && forall j | 0 <= j < |days| :: |days[j].volume| == n
    ensures |cap| == n
  {
    var row := if i == 0 then |days| - 1 else i - 1;
    seq(n, k requires 0 <= k < n => Capacity(c, days[row].volume[k]))
  }

  function DayEnd(c: Costs, plan: Plan, days: seq<Day>, targets: seq<seq<real>>, n: nat, s: Account, i: nat): (t: Account)
    requires Ready(plan, days, targets, n) && i < plan.last && |s.lots| == n
    ensures |t.lots| == n
  {
    if i == plan.last - 1 then Finals(c, s, i, days[i].close, FinalCapacities(c, days, i, n), n) else s
  }

  function Opening(c: Costs, n: nat): (s: Account)
    ensures |s.lots| == n
  {
    Account(c.initial, seq(n, _ => 0), [], 0, 0, 0)
  }

  /** The account after the days before i. */
  function Through(c: Costs, plan: Plan, days: seq<Day>, targets: seq<seq<real>>, n: nat, i: nat): (s: Account)
    requires Ready(plan, days, targets, n) && plan.first <= i <= plan.last
    ensures |s.lots| == n
    decreases i
  {
    if i == plan.first then Opening(c, n)
    else
      var s := Through(c, plan, days, targets, n, i - 1);
      DayEnd(c, plan, days, targets, n, Morning(c, plan, days, targets, n, s, i - 1), i - 1)
  }

  /** Equity written for a day: holdings at the close, less the cost of selling them. */
  function MarkedEquity(c: Costs, s: Account, close: seq<Option<real>>): Option<real>
    requires |s.lots| == |close|
  {
    var worth := Worth(c, s.lots, close, |close|);
    if worth.None? then None else Some(s.cash + worth.value * (1.0 - c.slip) * (1.0 - c.fee))
  }
}
