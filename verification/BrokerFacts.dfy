/** What holds of the paper account in every reachable state, and the steps that leave the books alone. */
module BrokerFacts {
  import opened Basics
  import opened Market
  import opened Ledger
  import opened BrokerModel

  // ---------------------------------------------------------------- order of entries and exits

  /** An order that may still fill once the exit is live does not exist: its cancel lands no later. */
  ghost predicate Ordered(cfg: Config, now: int, d: Desk) {
    && (d.exitOrder.Some? ==> d.position.Some?)
    && (d.pending.Some? && d.pending.value.cancelAt.Some? ==>
          now < d.pending.value.cancelAt.value <= now + cfg.latency)
    && (d.pending.Some? && d.exitOrder.Some? ==>
          d.pending.value.cancelAt.Some? && d.pending.value.cancelAt.value <= d.exitOrder.value.active)
    && (d.pending.Some? && d.position.Some? ==> FromOrder(d.pending.value, d.position.value))
  }

  /** The position so far is the filled part of this order, none of it closed. */
  ghost predicate FromOrder(o: Order, p: Position) {
    && p.qty == p.totalQty && p.side == o.proposal.side && p.riskBudget == o.riskBudget
    && p.planned == o.proposal.stop
  }

  ghost predicate SameLife(h: seq<Mark>, i: int) {
    0 < i < |h| && h[i].id == h[i - 1].id
  }

  ghost predicate Falls(h: seq<Mark>, i: int) {
    SameLife(h, i) && h[i].qty < h[i - 1].qty
  }

  /** Positions follow one another, and a new one starts only from zero exposure. */
  ghost predicate Successive(h: seq<Mark>) {
    && (forall i | 0 <= i < |h| :: h[i].qty >= 0.0 && h[i].id >= 1)
    && (forall i, j | 0 <= i < j < |h| :: h[i].id <= h[j].id)
    && (forall i | 0 < i < |h| && !SameLife(h, i) :: h[i].id == h[i - 1].id + 1 && h[i - 1].qty == 0.0)
  }

  /** Within a position every fill moves the exposure, never the side, and none follows zero. */
  ghost predicate Moving(h: seq<Mark>) {
    forall i | SameLife(h, i) :: h[i].side == h[i - 1].side && h[i].qty != h[i - 1].qty && h[i - 1].qty > 0.0
  }

  /** Once the exposure of a position has fallen it only falls. */
  ghost predicate FallsForGood(h: seq<Mark>) {
    forall i, j | Falls(h, i) && i < j < |h| && h[j].id == h[i].id :: Falls(h, j)
  }

  /** Exposure of each position rises, then falls, then is zero for good. */
  ghost predicate Waves(h: seq<Mark>) {
    Successive(h) && Moving(h) && FallsForGood(h)
  }

  /** The last mark is the current exposure, and an untouched position has no falling mark. */
  ghost predicate Tracked(d: Desk) {
    && Waves(d.history)
    && (forall i | 0 <= i < |d.history| :: d.history[i].id <= d.serial)
    && (d.history == [] ==> d.serial == 0 && d.position.None?)
    && (d.history != [] ==>
          var last := d.history[|d.history| - 1];
          && last.id == d.serial
          && (if d.position.Some? then last.qty == d.position.value.qty && last.side == d.position.value.side
              else last.qty == 0.0))
    && (d.position.Some? && d.position.value.qty == d.position.value.totalQty ==>
          forall i | Falls(d.history, i) :: d.history[i].id < d.serial)
  }

  // ---------------------------------------------------------------- books

  ghost predicate Numbered(d: Desk) {
    && (forall i | 0 <= i < |d.trades| :: d.trades[i].id == i + 1)
    && d.serial == |d.trades| + (if d.position.Some? then 1 else 0)
    && (d.position.Some? ==> d.position.value.id == d.serial)
  }

  function OpenNet(d: Desk): real {
    if d.position.None? then 0.0
    else d.position.value.gross - d.position.value.fees - d.position.value.funding
  }

  ghost predicate CashExact(cfg: Config, d: Desk) {
    d.cash == cfg.capital + SumNet(d.trades) + OpenNet(d)
  }

  ghost predicate Matches(g: Segment, t: Trade) {
    Agrees(g, t) && Balanced(g) && Quantity(g.entries) == t.quantity && t.netR == t.net / t.riskBudget
  }

  ghost predicate OpenMatches(g: Segment, p: Position) {
    && Quantity(g.entries) == p.totalQty >= p.qty
    && Notional(g.entries) == p.entry * p.totalQty
    && Quantity(g.exits) == p.totalQty - p.qty
    && p.gross == Sign(p.side, Notional(g.exits) - p.entry * Quantity(g.exits))
    && p.fees == Fees(g.entries) + Fees(g.exits)
  }

  ghost predicate ClosedMatch(closed: seq<Segment>, trades: seq<Trade>) {
    |closed| == |trades| && forall i | 0 <= i < |closed| :: Matches(closed[i], trades[i])
  }

  /** The log re-segments into exactly the closed trades, with the open position left over. */
  ghost predicate Booked(d: Desk) {
    var sp := Split(d.events);
    && ClosedMatch(sp.closed, d.trades)
    && (d.position.None? ==> sp.open == Segment([], []))
    && (d.position.Some? ==> OpenMatches(sp.open, d.position.value))
  }

  // ---------------------------------------------------------------- risk

  /** Shorts need this for the sizing to cover exit costs above the entry price. */
  predicate RiskSafe(cfg: Config, side: Side) {
    side.Long? || cfg.takerFee * (0.05 + 1.05 * cfg.slip) <= 0.95 * cfg.slip
  }

  /** Modelled loss if everything bought or sold by these entries leaves at the stop, with slippage and fee. */
  function StopLoss(cfg: Config, side: Side, entries: seq<Fill>, stop: real): real {
    Sign(side, Notional(entries)) + Fees(entries) - Quantity(entries) * StopProceeds(cfg, side, stop)
  }

  /** Signed value received per unit when leaving at the stop. */
  function StopProceeds(cfg: Config, side: Side, stop: real): real {
    var price := Slipped(cfg, side.Opposite(), stop);
    Sign(side, price) - price * cfg.takerFee
  }

  ghost predicate OrderGated(o: Order) {
    o.remaining >= 0.0 && 0.0 < StopDistance(o.proposal, o.limit) <= 0.05 * o.limit
  }

  function Committed(cfg: Config, d: Desk): real {
    if d.pending.None? then 0.0
    else Mul(d.pending.value.remaining, UnitRisk(cfg, d.pending.value.proposal, d.pending.value.limit))
  }

  ghost predicate RiskBounded(cfg: Config, d: Desk) {
    && (d.pending.Some? ==> OrderGated(d.pending.value))
    && (d.pending.Some? && d.position.None? ==> Committed(cfg, d) <= d.pending.value.riskBudget)
    && (d.position.Some? ==> Sign(d.position.value.side, d.position.value.stop - d.position.value.planned) >= 0.0)
    && (d.position.Some? && RiskSafe(cfg, d.position.value.side) ==>
          StopLoss(cfg, d.position.value.side, Split(d.events).open.entries, d.position.value.planned)
          + Committed(cfg, d) <= d.position.value.riskBudget)
  }

  // ---------------------------------------------------------------- funding

  /** At a positive rate longs pay what shorts receive: quantity at the mark, times the rate. */
  function Owed(x: Exposure, rate: real, mark: real): real {
    if x.side.Long? then x.qty * mark * rate else -(x.qty * mark * rate)
  }

  /** What a settlement asks of a position: nothing unless its exposure was that position's. */
  function Due(values: map<int, (real, real)>, history: seq<Mark>, time: int, id: int): real
    requires time in values
  {
    var x := ExposureAt(history, time);
    if x.Some? && x.value.id == id then Owed(x.value, values[time].0, values[time].1) else 0.0
  }

  lemma Inhabited(times: set<int>)
    ensures times == {} || exists t :: t in times
  {
    if forall t :: t !in times {
      assert times == {};
    }
  }

  ghost function Pick(times: set<int>): (t: int)
    requires times != {}
    ensures t in times
  {
    Inhabited(times);
    var t :| t in times;
    t
  }

  /** What a position owes for a set of settlements: a sum that knows nothing of their arrival. */
  ghost function SumDue(times: set<int>, values: map<int, (real, real)>, history: seq<Mark>, id: int): real
    requires times <= values.Keys
  {
    if times == {} then 0.0
    else
      var t := Pick(times);
      Due(values, history, t, id) + SumDue(times - {t}, values, history, id)
  }

  function FundingOf(d: Desk, id: int): real {
    if 1 <= id <= |d.trades| then d.trades[id - 1].funding
    else if d.position.Some? then d.position.value.funding
    else 0.0
  }

  ghost predicate Funded(now: int, d: Desk, u: Funding) {
    && u.seen == u.values.Keys
    && u.unresolved == u.obligations.Keys - u.seen
    && (forall t | t in u.obligations :: t <= now && ExposureAt(d.history, t) == Some(u.obligations[t]))
    && (forall t | t in u.seen :: t <= now)
    && (forall i | 0 <= i < |d.history| :: d.history[i].time <= now)
    && (forall id | 1 <= id <= d.serial :: FundingOf(d, id) == SumDue(u.seen, u.values, d.history, id))
  }

  // ---------------------------------------------------------------- depth

  /** Nothing is available beyond what is displayed, nor was more taken than was ever added. */
  ghost predicate DepthExact(f: Feed) {
    forall k :: 0.0 <= At(f.available, k) <= At(f.size, k) && At(f.taken, k) + At(f.available, k) <= At(f.shown, k)
  }

  // ---------------------------------------------------------------- the invariant

  ghost predicate DeskInv(cfg: Config, now: int, d: Desk) {
    Ordered(cfg, now, d) && Tracked(d) && Numbered(d) && CashExact(cfg, d) && Booked(d) && RiskBounded(cfg, d)
  }

  ghost predicate Inv(cfg: Config, s: State) {
    && DeskInv(cfg, s.now, s.desk)
    && Funded(s.now, s.desk, s.funding)
    && DepthExact(s.feed)
    && s.feed.time <= s.now
    && (s.desk.pending.Some? ==> s.feed.instrument.Some?)
    && s.guard.peak >= cfg.capital
  }

  lemma InitInv(cfg: Config)
    ensures Inv(cfg, Init(cfg))
  {
  }

  // ---------------------------------------------------------------- what only moves forward

  ghost predicate Extends(h: seq<Mark>, g: seq<Mark>, time: int) {
    && |h| <= |g| && g[..|h|] == h
    && forall i | |h| <= i < |g| :: g[i].time >= time
  }

  ghost predicate SameExit(d: Desk, e: Desk) {
    d.exitOrder.Some? ==>
      && e.exitOrder.Some? && e.exitOrder.value.active == d.exitOrder.value.active
      && e.exitOrder.value.reason == d.exitOrder.value.reason
  }

  /** The same position later: side, budget and identity kept, stop no looser, exit order not withdrawn. */
  ghost predicate SameHolding(d: Desk, e: Desk)
    requires d.position.Some? && e.position.Some?
  {
    var p, q := d.position.value, e.position.value;
    && q.side == p.side && q.riskBudget == p.riskBudget && q.planned == p.planned
    && Sign(p.side, q.stop - p.stop) >= 0.0 && SameExit(d, e)
  }

  /** From d to e history only grows, closed positions stay closed, and a held one is only protected more. */
  ghost predicate Onward(time: int, d: Desk, e: Desk) {
    && Extends(d.history, e.history, time)
    && d.serial <= e.serial
    && (d.position.Some? ==> d.position.value.id == d.serial)
    && (e.position.Some? ==> e.position.value.id == e.serial)
    && (d.position.None? && e.position.Some? ==> d.serial < e.serial)
    && (d.position.Some? && e.position.Some? && d.serial == e.serial ==> SameHolding(d, e))
  }
}
