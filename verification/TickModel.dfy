/** The tick-level passive-order broker, one operation at a time. */
module TickModel {
  import opened Basics
  import opened TickMarket
  import MakerQueue

  /** A resting order; queue is the size estimated ahead of it. */
  datatype Passive = Passive(side: Side, limit: real, remaining: real, queue: real, activeAt: int, cancelAt: int,
                             activated: bool)

  /** An open position; proceeds only records what its exits sold for. */
  datatype Held = Held(side: Side, qty: Positive, total: real, entered: int, entry: real, gross: real, fees: real,
                       funding: real, proceeds: real)

  datatype Reason = Risk | Stop | Time | Target

  datatype Closed = Closed(entered: int, exited: int, side: Side, entry: real, quantity: real, gross: real, fees: real,
                           funding: real, net: real, proceeds: real, reason: Reason)

  datatype Account = Account(cash: real, position: Option<Held>, lastExit: int, trades: seq<Closed>)

  /** submitted only records the size of the last accepted order. */
  datatype Orders = Orders(signal: Option<Signal>, pending: Option<Passive>, target: Option<Passive>, submitted: real)

  datatype Limits = Limits(peak: real, dayStart: real, day: int, halted: bool, dayHalted: bool, incomplete: bool)

  datatype State = State(account: Account, orders: Orders, limits: Limits)

  const NEVER := 1_000_000_000_000_000_000
  const LONG_AGO := -1_000_000_000_000_000
  const DAY := 86_400_000

  function Init(capital: Positive): State {
    State(Account(capital, None, LONG_AGO, []), Orders(None, None, None, 0.0),
          Limits(capital, capital, -1, false, false, false))
  }

  function Worth(h: Held, price: real): real {
    Sign(h.side, Mul(h.qty, price - h.entry))
  }

  function Equity(a: Account, price: real): real {
    if a.position.None? then a.cash else a.cash + Worth(a.position.value, price)
  }

  // ---------------------------------------------------------------- submission

  predicate Blocked(p: Parameters, s: State, signal: Signal, quote: Option<Quote>) {
    || s.limits.halted || s.limits.dayHalted || s.limits.incomplete || s.account.position.Some? || s.orders.pending.Some?
    || signal.ts - s.account.lastExit < p.cooldown || !Timely(p, signal.ts, quote)
  }

  /** The settlement minute and the ten before it. */
  predicate NearSettlement(ts: nat) {
    var minute := ts / 60000 % 480;
    minute == 0 || minute >= 470
  }

  function Reward(signal: Signal): real {
    Sign(signal.side, signal.target / signal.limit - 1.0)
  }

  function OrderSize(p: Parameters, cash: real, signal: Signal): real
    requires signal.stopFraction >= 0.001
  {
    RoundDown(Min(cash * p.maxExposure, cash * p.riskFraction / (signal.stopFraction + p.Costs())) / signal.limit, p.lot)
  }

  datatype Reply = Raised | Declined | Accepted

  predicate Refused(p: Parameters, signal: Signal, quote: Quote) {
    || Crosses(signal.side, signal.limit, quote) || NearSettlement(signal.ts)
    || Reward(signal) < Max(2.0 * signal.stopFraction, 3.0 * p.Costs())
  }

  function QueueAt(side: Side, quote: Quote): Size {
    if side.Long? then quote.bidQty else quote.askQty
  }

  function Submit(p: Parameters, s: State, signal: Signal, quote: Option<Quote>): (State, Reply) {
    if Blocked(p, s, signal, quote) then (s, Declined)
    else if !(0.001 <= signal.stopFraction <= 0.002) then (s, Raised)
    else if Refused(p, signal, quote.value) then (s, Declined)
    else
      var qty := OrderSize(p, s.account.cash, signal);
      if qty <= 0.0 then (s, Declined)
      else
        var order := Passive(signal.side, signal.limit, qty, QueueAt(signal.side, quote.value), signal.ts + p.latency,
                             signal.ts + p.ttl + p.latency, false);
        (s.(orders := s.orders.(signal := Some(signal), pending := Some(order), submitted := qty)), Accepted)
  }

  // ---------------------------------------------------------------- orders

  function Activate(p: Parameters, pending: Option<Passive>, now: int, quote: Option<Quote>): Option<Passive> {
    if pending.None? || now >= pending.value.cancelAt then None
    else
      var o := pending.value;
      if o.activated || now < o.activeAt then pending
      else if !Timely(p, now, quote) || Crosses(o.side, o.limit, quote.value) then None
      else Some(o.(queue := Max(o.queue, QueueAt(o.side, quote.value)), activated := true))
  }

  /** A quote event: only the pending order may change. */
  function OnQuote(p: Parameters, s: State, now: int, quote: Option<Quote>): State {
    s.(orders := s.orders.(pending := Activate(p, s.orders.pending, now, quote)))
  }

  /** A print against the order at its price or better, while it is live. */
  predicate Reached(o: Passive, t: Print) {
    && o.activated && o.activeAt <= t.ts < o.cancelAt
    && t.buyer == o.side.Short? && Sign(o.side, t.price - o.limit) <= 0.0
  }

  function FillOf(p: Parameters, o: Passive, t: Print): real {
    if Reached(o, t) then MakerQueue.Fill(MakerQueue.Resting(o.queue, o.remaining), t.qty, p.participation, p.lot)
    else 0.0
  }

  function Filled(p: Parameters, o: Passive, t: Print): Passive {
    if Reached(o, t) then
      var r := MakerQueue.Next(MakerQueue.Resting(o.queue, o.remaining), t.qty, p.participation, p.lot);
      o.(queue := r.queue, remaining := r.remaining)
    else o
  }

  function Entered(p: Parameters, h: Option<Held>, o: Passive, q: Positive, ts: int): Held {
    var fee := Mul(q, o.limit) * p.maker;
    if h.None? then Held(o.side, q, q, ts, o.limit, 0.0, fee, 0.0, 0.0)
    else
      h.value.(side := o.side, entry := o.limit, qty := h.value.qty + q, total := h.value.total + q,
               fees := h.value.fees + fee)
  }

  /** The target rounded to a tick beyond the average, for the whole open quantity. */
  function TargetFor(p: Parameters, h: Held, goal: real, ts: int): Passive {
    Passive(h.side.Opposite(), if h.side.Long? then CeilTo(goal, p.tick) else FloorTo(goal, p.tick), h.qty, 0.0,
            ts + p.latency, NEVER, true)
  }

  /** A print's effect on the pending entry: the queue moves, and a fill opens or enlarges the position. */
  function EntryFill(p: Parameters, s: State, t: Print): (State, bool)
    requires s.orders.pending.Some? ==> s.orders.signal.Some?
  {
    if s.orders.pending.None? || !s.orders.pending.value.activated then (s, false)
    else
      var o := s.orders.pending.value;
      var q := FillOf(p, o, t);
      var after := Filled(p, o, t);
      if q <= 0.0 then (s.(orders := s.orders.(pending := Some(after))), false)
      else
        var h := Entered(p, s.account.position, o, q, t.ts);
        var rest := if after.remaining < p.lot / 2.0 then None else Some(after);
        (s.(account := s.account.(cash := s.account.cash - Mul(q, o.limit) * p.maker, position := Some(h)),
            orders := s.orders.(pending := rest,
                                target := Some(TargetFor(p, h, s.orders.signal.value.target, t.ts)))), true)
  }

  // ---------------------------------------------------------------- exits

  function ExitOf(p: Parameters, h: Held, q: Positive, price: real, maker: bool): Held {
    h.(gross := h.gross + Sign(h.side, Mul(q, price - h.entry)),
       fees := h.fees + Mul(q, price) * (if maker then p.maker else p.taker), proceeds := h.proceeds + Mul(q, price))
  }

  /** What one exit adds to cash. */
  function ExitCash(p: Parameters, h: Held, q: real, price: real, maker: bool): real {
    Sign(h.side, Mul(q, price - h.entry)) - Mul(q, price) * (if maker then p.maker else p.taker)
  }

  function CloseRow(h: Held, now: int, reason: Reason): Closed {
    Closed(h.entered, now, h.side, h.entry, h.total, h.gross, h.fees, h.funding, h.gross - h.fees - h.funding,
           h.proceeds, reason)
  }

  /** Sells at most the open quantity; selling the last of it closes the trade and drops every order. */
  function CloseQty(p: Parameters, s: State, now: int, offered: Positive, price: real, maker: bool, reason: Reason): State
    requires s.account.position.Some?
  {
    var h := s.account.position.value;
    var q := Min(offered, h.qty);
    var sold := ExitOf(p, h, q, price, maker);
    var left := Max(0.0, h.qty - q);
    var cash := s.account.cash + ExitCash(p, h, q, price, maker);
    if left < p.lot / 2.0 then
      s.(account := Account(cash, None, now, s.account.trades + [CloseRow(sold, now, reason)]),
         orders := s.orders.(pending := None, target := None))
    else s.(account := s.account.(cash := cash, position := Some(sold.(qty := left))))
  }

  function OnFunding(s: State, rate: real, mark: Positive): State {
    if s.account.position.None? then s
    else
      var h := s.account.position.value;
      var cost := Sign(h.side, Mul(h.qty, mark * rate));
      s.(account := s.account.(cash := s.account.cash - cost, position := Some(h.(funding := h.funding + cost))))
  }

  // ---------------------------------------------------------------- prints

  function NewDay(a: Account, l: Limits, t: Print): Limits {
    if l.day == t.ts / DAY then l else l.(day := t.ts / DAY, dayStart := Equity(a, t.price), dayHalted := false)
  }

  predicate Drawn(p: Parameters, l: Limits, eq: real) {
    eq <= l.peak * (1.0 - p.maxDrawdown)
  }

  predicate DayLost(p: Parameters, l: Limits, eq: real) {
    eq <= l.dayStart * (1.0 - p.dailyLoss)
  }

  /** The peak rises to the equity, then either latch may set. */
  function Measured(p: Parameters, l: Limits, eq: real): Limits {
    var m := l.(peak := Max(l.peak, eq));
    m.(halted := l.halted || Drawn(p, m, eq), dayHalted := l.dayHalted || DayLost(p, m, eq))
  }

  predicate Breaks(p: Parameters, l: Limits, eq: real) {
    Drawn(p, l, eq) || DayLost(p, l, eq)
  }

  function StopPrice(h: Held, signal: Signal): real {
    h.entry * (1.0 - Sign(h.side, signal.stopFraction))
  }

  predicate StopHit(h: Held, signal: Signal, price: real) {
    Sign(h.side, price - StopPrice(h, signal)) <= 0.0
  }

  predicate TimedOut(p: Parameters, h: Held, ts: int) {
    ts - h.entered >= p.hold
  }

  /** The worse of the print and the touch, less slippage. */
  function ProtectivePrice(p: Parameters, side: Side, t: Print, quote: Quote): real {
    (if side.Long? then Min(t.price, quote.bid) else Max(t.price, quote.ask)) * (1.0 - Sign(side, p.slippage))
  }

  function Fail(s: State): State {
    s.(limits := s.limits.(incomplete := true, halted := true), orders := s.orders.(pending := None))
  }

  /** A print through the target, which had to be resting before this print, fills it. */
  function TargetExit(p: Parameters, s: State, t: Print): State
    requires s.account.position.Some? && s.orders.target.Some?
  {
    var h, o := s.account.position.value, s.orders.target.value;
    if Sign(h.side, t.price - o.limit) <= 0.0 then s
    else
      var q := FillOf(p, o, t);
      var s1 := s.(orders := s.orders.(target := Some(Filled(p, o, t))));
      if q <= 0.0 then s1 else CloseQty(p, s1, t.ts, q, o.limit, true, Target)
  }

  /** Limits checked, positions protected or taken at target; the flag says an exit could not be priced. */
  function Protected(p: Parameters, s: State, filled: bool, breaks: bool, t: Print, quote: Option<Quote>): (State, bool)
    requires s.account.position.Some? ==> s.orders.signal.Some? && s.orders.target.Some?
  {
    if s.account.position.None? then (s, false)
    else
      var h := s.account.position.value;
      var stop := StopHit(h, s.orders.signal.value, t.price);
      if stop || TimedOut(p, h, t.ts) || breaks then
        if !Timely(p, t.ts, quote) then (Fail(s), true)
        else
          (CloseQty(p, s, t.ts, h.qty, ProtectivePrice(p, h.side, t, quote.value), false,
                    if breaks then Risk else if stop then Stop else Time), false)
      else if filled then (s, false)
      else (TargetExit(p, s, t), false)
  }

  /** The closing measurement; no order stays while a latch is set. */
  function Settled(p: Parameters, s: State, price: real): State {
    var l := Measured(p, s.limits, Equity(s.account, price));
    s.(limits := l, orders := if l.halted || l.dayHalted then s.orders.(pending := None) else s.orders)
  }

  /** What every operation needs to be well defined, and keeps. */
  predicate Sane(s: State) {
    && (s.orders.pending.Some? ==> s.orders.signal.Some?)
    && (s.account.position.Some? ==> s.orders.signal.Some? && s.orders.target.Some?)
  }

  /** The state when the limits are looked at, and whether this print filled the entry. */
  function Arrived(p: Parameters, s: State, t: Print, quote: Option<Quote>): (r: (State, bool))
    requires Sane(s)
    ensures Sane(r.0)
  {
    EntryFill(p, OnQuote(p, s.(limits := NewDay(s.account, s.limits, t)), t.ts, quote), t)
  }

  function OnTrade(p: Parameters, s: State, t: Print, quote: Option<Quote>): State
    requires Sane(s)
  {
    var (s2, filled) := Arrived(p, s, t, quote);
    var eq := Equity(s2.account, t.price);
    var s3 := s2.(limits := Measured(p, s2.limits, eq));
    var (s4, failed) := Protected(p, s3, filled, Breaks(p, s3.limits, eq), t, quote);
    if failed then s4 else Settled(p, s4, t.price)
  }
}
