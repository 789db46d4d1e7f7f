/** State of the paper account and the effect of each of its operations, as functions of that state. */
module BrokerModel {
  import opened Basics
  import opened Market
  import opened Ledger
  import MakerQueue

  datatype Mode = Observe | Diagnostic | Calibrated

  datatype Settings = Settings(capital: real, risk: real, exposure: real, makerFee: real, takerFee: real, slip: real,
                               latency: int, ttl: int, participation: real, bookAge: int, venue: Source, mode: Mode)
  {
    /** The limits Settings and Broker enforce on construction. */
    predicate Valid() {
      && capital > 0.0 && 0.0 < risk <= 0.005 && 0.0 < exposure <= 2.0
      && 0.0 <= makerFee < 0.1 && 0.0 <= takerFee < 0.1 && 0.0 <= slip < 0.1
      && latency >= 1 && ttl >= 1 && bookAge >= 1 && 0.0 < participation <= 1.0
      && !venue.Elsewhere?
    }
  }

  type Config = c: Settings | c.Valid()
    witness Settings(1000.0, 0.0025, 2.0, 0.0002, 0.0005, 0.0001, 250, 15000, 0.01, 1500, BybitPerp, Observe)

  /** planned only records the stop the position's order was sized for. */
  datatype Position = Position(id: int, side: Side, qty: Positive, entry: real, stop: real, planned: real, target: real,
                               family: Family, initialFamily: Family, openedAt: int, expires: int,
                               gross: real, fees: real, funding: real, totalQty: real, riskBudget: Positive)

  datatype Order = Order(proposal: Proposal, remaining: real, limit: Positive, active: int, expires: int,
                         cancelAt: Option<int>, activated: bool, queue: real, riskBudget: Positive)

  datatype ExitOrder = ExitOrder(active: int, reason: Reason, lastBook: int)

  /** Exposure after a fill, stamped with the receive clock. */
  datatype Mark = Mark(time: int, id: int, side: Side, qty: real)

  datatype Exposure = Exposure(id: int, side: Side, qty: real)

  /** Cash, orders and the records they leave. */
  datatype Desk = Desk(cash: real, position: Option<Position>, pending: Option<Order>, exitOrder: Option<ExitOrder>,
                       trades: seq<Trade>, events: seq<LogEntry>, history: seq<Mark>, serial: int, lastExit: int,
                       lastBadFlow: Option<int>, lastTrailing: int)

  datatype Guard = Guard(peak: Positive, dayStart: real, day: Option<int>, maxDrawdown: real,
                         halted: bool, dayHalted: bool, incomplete: bool)

  /** taken and shown only record history: size consumed and size ever added, per level. */
  datatype Feed = Feed(book: Option<BookView>, time: int, serial: int, instrument: Option<Instrument>,
                       nextFunding: Option<int>, size: map<DepthKey, Size>, available: map<DepthKey, real>,
                       taken: map<DepthKey, real>, shown: map<DepthKey, real>)

  datatype Funding = Funding(seen: set<int>, unresolved: set<int>, obligations: map<int, Exposure>,
                             values: map<int, (real, real)>, revised: bool)

  datatype State = State(now: int, desk: Desk, guard: Guard, feed: Feed, funding: Funding, proposals: int)

  const LONG_AGO := -1_000_000_000_000_000
  const DAY := 86_400_000
  const MINUTE := 60_000

  function Init(cfg: Config): State {
    State(-1,
          Desk(cfg.capital, None, None, None, [], [], [], 0, LONG_AGO, None, -1),
          Guard(cfg.capital, cfg.capital, None, 0.0, false, false, false),
          Feed(None, -1, 0, None, None, map[], map[], map[], map[]),
          Funding({}, {}, map[], map[], false), 0)
  }

  /** What every operation needs to be well defined, and keeps. */
  predicate Sane(s: State) {
    && (s.desk.pending.Some? ==> s.feed.instrument.Some?)
    && (s.desk.exitOrder.Some? ==> s.desk.position.Some?)
  }

  function Record(now: int, d: Desk, note: Note): Desk {
    d.(events := d.events + [Noted(now, note)])
  }

  predicate Fresh(cfg: Config, now: int, f: Feed) {
    f.book.Some? && 0 <= now - f.time <= cfg.bookAge
  }

  function Equity(cfg: Config, now: int, d: Desk, f: Feed): Option<real> {
    if d.position.None? then Some(d.cash)
    else if !Fresh(cfg, now, f) then None
    else Some(d.cash + OpenValue(cfg, d.position.value, Touch(f.book.value, d.position.value.side)))
  }

  /** Unrealized gain at a mark, less the fee of closing there. */
  function OpenValue(cfg: Config, p: Position, mark: real): real {
    Gain(p.side, p.qty, p.entry, mark) - FeeOf(p.qty, mark, cfg.takerFee)
  }

  function Drawdown(eq: real, peak: Positive): real {
    1.0 - eq / peak
  }

  function RiskFraction(cfg: Config, equity: Option<real>, peak: Positive): real {
    if equity.None? then 0.0
    else
      var drawdown := Drawdown(equity.value, peak);
      if drawdown >= 0.05 then Min(cfg.risk / 2.0, 0.001)
      else if drawdown >= 0.03 then cfg.risk / 2.0
      else cfg.risk
  }

  function Cancel(cfg: Config, now: int, d: Desk, reason: Reason): Desk {
    if d.pending.Some? && d.pending.value.cancelAt.None? then
      Record(now, d.(pending := Some(d.pending.value.(cancelAt := Some(now + cfg.latency)))), CancelRequested(reason))
    else d
  }

  function RequestExit(cfg: Config, now: int, d: Desk, reason: Reason): Desk {
    if d.position.Some? && d.exitOrder.None? then
      Record(now, Cancel(cfg, now, d, ReduceOnlyExit).(exitOrder := Some(ExitOrder(now + cfg.latency, reason, -1))),
             ExitRequested(reason))
    else d
  }

  /** Day roll, peak, drawdown and the two latches, at a known equity. */
  function Marked(g: Guard, now: int, eq: real): Guard {
    var day := now / DAY;
    var g1 := if g.day != Some(day) then g.(day := Some(day), dayStart := eq, dayHalted := false) else g;
    var peak := Max(g1.peak, eq);
    var drawdown := Drawdown(eq, peak);
    g1.(peak := peak, maxDrawdown := Max(g1.maxDrawdown, drawdown), halted := g1.halted || drawdown >= 0.07,
        dayHalted := g1.dayHalted || eq <= g1.dayStart * 0.99)
  }

  function Circuit(cfg: Config, s: State): State {
    var eq := Equity(cfg, s.now, s.desk, s.feed);
    if eq.None? then s
    else
      var s1 := s.(guard := Marked(s.guard, s.now, eq.value));
      if s1.guard.halted || s1.guard.dayHalted then
        s1.(desk := RequestExit(cfg, s.now, Cancel(cfg, s.now, s.desk, RiskHalt), RiskHalt))
      else s1
  }

  datatype Reply = Rejected | Declined | Accepted

  /** The stop may only move toward the market. */
  function Tightened(side: Side, stop: real, other: real): real {
    if side.Long? then Max(stop, other) else Min(stop, other)
  }

  function Promote(now: int, d: Desk, p: Proposal): Desk
    requires d.position.Some?
  {
    var pos := d.position.value;
    var kept := pos.(family := SpotTrend, expires := now + p.hold, stop := Tightened(p.side, pos.stop, p.stop));
    Record(now, d.(position := Some(kept)), Promoted)
  }

  /** Order price: the rounded touch for a passive order, else a capped marketable price. */
  function LimitPrice(cfg: Config, book: BookView, tick: Positive, p: Proposal): real {
    if p.passive then
      if p.side.Long? then RoundDown(Touch(book, Long), tick) else RoundUp(Touch(book, Short), tick)
    else Touch(book, p.side.Opposite()) * (1.0 + Sign(p.side, Max(0.0005, 2.0 * cfg.slip)))
  }

  function EntryFee(cfg: Config, p: Proposal): real {
    if p.passive then cfg.makerFee else cfg.takerFee
  }

  function UnitCosts(cfg: Config, p: Proposal, price: real): real {
    price * (EntryFee(cfg, p) + cfg.takerFee + 2.0 * cfg.slip)
  }

  function StopDistance(p: Proposal, price: real): real {
    Sign(p.side, price - p.stop)
  }

  /** Loss the sizing charges per unit: distance to the stop plus all modelled costs. */
  function UnitRisk(cfg: Config, p: Proposal, price: real): real {
    StopDistance(p, price) + UnitCosts(cfg, p, price)
  }

  predicate PassesCostGate(cfg: Config, p: Proposal, price: real) {
    && StopDistance(p, price) > 0.0 && price > 0.0 && StopDistance(p, price) / price <= 0.05
    && Sign(p.side, p.target - price) >= Max(StopDistance(p, price) * 1.5, UnitCosts(cfg, p, price) * 3.0)
  }

  lemma UnitRiskPositive(cfg: Config, p: Proposal, price: real)
    requires price > 0.0 && StopDistance(p, price) > 0.0
    ensures UnitCosts(cfg, p, price) >= 0.0 && UnitRisk(cfg, p, price) > 0.0
  {
    MulMono(0.0, EntryFee(cfg, p) + cfg.takerFee + 2.0 * cfg.slip, price);
  }

  /** The most that budget and cap allow, in any size. */
  function Most(budget: real, unit: Positive, cap: real, price: Positive): real {
    Min(budget / unit, cap / price)
  }

  /** Largest quantity whose modelled loss fits the budget and whose notional fits the exposure cap. */
  function OrderSize(cfg: Config, cash: real, budget: real, p: Proposal, price: Positive, step: Positive): real
    requires StopDistance(p, price) > 0.0
  {
    UnitRiskPositive(cfg, p, price);
    RoundDown(Most(budget, UnitRisk(cfg, p, price), Mul(cash, cfg.exposure), price), step)
  }

  lemma BudgetPositive(cfg: Config, cash: real, budget: real, p: Proposal, price: Positive, step: Positive)
    requires StopDistance(p, price) > 0.0
    requires OrderSize(cfg, cash, budget, p, price, step) > 0.0
    ensures budget > 0.0
  {
    UnitRiskPositive(cfg, p, price);
    QuotientPositive(budget, UnitRisk(cfg, p, price));
  }

  lemma QuotientPositive(a: real, b: Positive)
    requires a / b > 0.0
    ensures a > 0.0
  {
    MulStrict(0.0, a / b, b);
    assert (a / b) * b == a;
  }

  function Propose(cfg: Config, s: State, p: Proposal, allowed: bool): (State, Reply)
    requires Sane(s)
  {
    if p.time != s.now then (s, Rejected)
    else
      var d := Record(s.now, s.desk, ProposalSeen(p.family, p.side));
      var s1 := s.(proposals := s.proposals + 1, desk := d);
      if d.position.Some? then (s1.(desk := Redirect(cfg, s.now, d, p, allowed)), Declined)
      else Enter(cfg, s1, p, allowed)
  }

  /** Mode, calibration, halts, cooldown and missing context all block an entry. */
  function Enter(cfg: Config, s: State, p: Proposal, allowed: bool): (State, Reply) {
    if cfg.mode.Observe? then Blocked(s, ObserveOnly)
    else if cfg.mode.Calibrated? && !allowed then Blocked(s, NotCalibrated)
    else if s.desk.pending.Some? || s.guard.halted || s.guard.dayHalted || s.guard.incomplete
            || s.now - s.desk.lastExit < MINUTE then (s, Declined)
    else if !Fresh(cfg, s.now, s.feed) || s.feed.instrument.None? || s.feed.nextFunding.None?
            || s.feed.nextFunding.value <= s.now + 5000 then Blocked(s, MissingContext)
    else Submit(cfg, s, p)
  }

  /** A proposal that meets an open position never adds to it. */
  function Redirect(cfg: Config, now: int, d: Desk, p: Proposal, allowed: bool): Desk
    requires d.position.Some?
  {
    if p.side != d.position.value.side then RequestExit(cfg, now, d, OppositeSignal)
    else if p.family.SpotTrend? && !d.position.value.family.SpotTrend? then
      if cfg.mode.Calibrated? && !allowed then Record(now, d, PromotionBlocked) else Promote(now, d, p)
    else d
  }

  function Blocked(s: State, why: Note): (State, Reply) {
    (s.(desk := Record(s.now, s.desk, why)), Declined)
  }

  function RiskBudget(cfg: Config, s: State): real {
    s.desk.cash * RiskFraction(cfg, Equity(cfg, s.now, s.desk, s.feed), s.guard.peak)
  }

  predicate TooSmall(i: Instrument, qty: real, price: real) {
    qty < i.minQty || qty * price < i.minNotional
  }

  /** The sizing and submission end of propose, once every block has passed. */
  function Submit(cfg: Config, s: State, p: Proposal): (State, Reply)
    requires s.feed.book.Some? && s.feed.instrument.Some?
  {
    var i := s.feed.instrument.value;
    var price := LimitPrice(cfg, s.feed.book.value, i.tick, p);
    if !PassesCostGate(cfg, p, price) then Blocked(s, CostOrStopGate)
    else
      var budget := RiskBudget(cfg, s);
      var qty := OrderSize(cfg, s.desk.cash, budget, p, price, i.step);
      if TooSmall(i, qty, price) then (s, Declined)
      else
        BudgetPositive(cfg, s.desk.cash, budget, p, price, i.step);
        var order := Order(p, qty, price, s.now + cfg.latency, s.now + cfg.ttl, None, false, 0.0, budget);
        (s.(desk := s.desk.(pending := Some(order),
                            events := s.desk.events + [EntrySubmitted(s.now, qty, price, p.passive)])), Accepted)
  }

  function FeeOf(qty: real, price: real, rate: real): real {
    qty * price * rate
  }

  function Gain(side: Side, qty: real, entry: real, price: real): real {
    Sign(side, qty * (price - entry))
  }

  function Averaged(entry: real, held: Size, price: real, qty: Positive): real {
    (entry * held + price * qty) / (held + qty)
  }

  /** The position after a fill: opened from its order's proposal, or grown at average cost. */
  function Grown(now: int, d: Desk, o: Order, qty: Positive, price: real, fee: real): Position {
    var p := o.proposal;
    if d.position.None? then
      Position(d.serial + 1, p.side, qty, Averaged(0.0, 0.0, price, qty), p.stop, p.stop, p.target, p.family,
               p.family, now, now + p.hold, 0.0, fee, 0.0, qty, o.riskBudget)
    else
      var pos := d.position.value;
      pos.(entry := Averaged(pos.entry, pos.qty, price, qty), qty := pos.qty + qty,
           totalQty := pos.totalQty + qty, fees := pos.fees + fee)
  }

  function EntryFill(now: int, d: Desk, step: Positive, qty: Positive, price: real, feeRate: real): Desk
    requires d.pending.Some?
  {
    var o := d.pending.value;
    var fee := FeeOf(qty, price, feeRate);
    var pos := Grown(now, d, o, qty, price, fee);
    var remaining := Max(0.0, o.remaining - qty);
    var opening := d.position.None?;
    Desk(d.cash - fee, Some(pos),
         if remaining < step / 2.0 then None else Some(o.(remaining := remaining)),
         d.exitOrder, d.trades, d.events + [EntryFilled(now, qty, price, fee)],
         d.history + [Mark(now, pos.id, pos.side, pos.qty)],
         if opening then d.serial + 1 else d.serial, d.lastExit,
         if opening then None else d.lastBadFlow, if opening then -1 else d.lastTrailing)
  }

  function ClosedTrade(now: int, pos: Position, gross: real, fees: real, reason: Reason): Trade {
    var net := gross - fees - pos.funding;
    Trade(pos.id, pos.riskBudget, pos.openedAt, now, pos.side, pos.initialFamily, pos.family, pos.totalQty,
          gross, fees, pos.funding, net, net / pos.riskBudget, reason)
  }

  function ExitFill(cfg: Config, now: int, d: Desk, offered: Positive, price: real): Desk
    requires d.position.Some? && d.exitOrder.Some?
  {
    var pos := d.position.value;
    var reason := d.exitOrder.value.reason;
    var qty := Min(offered, pos.qty);
    var fee := FeeOf(qty, price, cfg.takerFee);
    var gain := Gain(pos.side, qty, pos.entry, price);
    var d1 := d.(cash := d.cash + (gain - fee),
                 history := d.history + [Mark(now, pos.id, pos.side, pos.qty - qty)],
                 events := d.events + [ExitFilled(now, qty, price, fee, reason)]);
    if qty == pos.qty then
      var trade := ClosedTrade(now, pos, pos.gross + gain, pos.fees + fee, reason);
      var d2 := d1.(trades := d.trades + [trade], position := None, exitOrder := None, lastExit := now);
      if d.pending.Some? then Record(now, d2.(pending := None), RemainderReduced) else d2
    else
      d1.(position := Some(pos.(gross := pos.gross + gain, fees := pos.fees + fee, qty := pos.qty - qty)))
  }

  function TakeDepth(f: Feed, key: DepthKey, qty: real): Feed {
    f.(available := f.available[key := At(f.available, key) - qty], taken := f.taken[key := At(f.taken, key) + qty])
  }

  /** Price of a fill after adverse slippage: a buyer pays more, a seller receives less. */
  function Slipped(cfg: Config, buyer: Side, price: real): real {
    price * (1.0 + Sign(buyer, cfg.slip))
  }

  function ExitLevel(cfg: Config, now: int, d: Desk, f: Feed, level: Level): (Desk, Feed)
    requires d.position.Some? && d.exitOrder.Some?
  {
    var side := d.position.value.side;
    var key := DepthKey(side.Long?, level.price);
    var qty := Min(At(f.available, key), d.position.value.qty);
    if qty > 0.0 then
      (ExitFill(cfg, now, d, qty, Slipped(cfg, side.Opposite(), level.price)), TakeDepth(f, key, qty))
    else (d, f)
  }

  function ExitLevels(cfg: Config, now: int, d: Desk, f: Feed, levels: seq<Level>): (Desk, Feed)
    decreases |levels|
  {
    if levels == [] || d.position.None? || d.exitOrder.None? then (d, f)
    else
      var (d1, f1) := ExitLevel(cfg, now, d, f, levels[0]);
      ExitLevels(cfg, now, d1, f1, levels[1..])
  }

  /** True when the IOC sweep must stop: past the limit, or at or through the stop. */
  predicate BeyondLimit(cfg: Config, o: Order, level: Level) {
    var fill := Slipped(cfg, o.proposal.side, level.price);
    Sign(o.proposal.side, fill - o.limit) > 0.0 || Sign(o.proposal.side, fill - o.proposal.stop) <= 0.0
  }

  function EntryLevel(cfg: Config, now: int, d: Desk, f: Feed, step: Positive, level: Level): (Desk, Feed)
    requires d.pending.Some?
  {
    var side := d.pending.value.proposal.side;
    var key := DepthKey(side.Short?, level.price);
    var qty := RoundDown(Min(At(f.available, key), d.pending.value.remaining), step);
    if qty > 0.0 then
      (EntryFill(now, d, step, qty, Slipped(cfg, side, level.price), cfg.takerFee), TakeDepth(f, key, qty))
    else (d, f)
  }

  function EntryLevels(cfg: Config, now: int, d: Desk, f: Feed, step: Positive, levels: seq<Level>): (Desk, Feed)
    decreases |levels|
  {
    if levels == [] || d.pending.None? || BeyondLimit(cfg, d.pending.value, levels[0]) then (d, f)
    else
      var (d1, f1) := EntryLevel(cfg, now, d, f, step, levels[0]);
      EntryLevels(cfg, now, d1, f1, step, levels[1..])
  }

  /** Size displayed at the order's own price, first match, as the source looks it up. */
  function Visible(levels: seq<Level>, limit: real): Option<real> {
    if levels == [] then None
    else if Abs(levels[0].price - limit) < 0.000000001 then Some(levels[0].qty)
    else Visible(levels[1..], limit)
  }

  predicate ExitDue(now: int, d: Desk, bookTime: int) {
    d.exitOrder.Some? && now >= d.exitOrder.value.active && bookTime >= d.exitOrder.value.active
  }

  predicate EntryDue(now: int, d: Desk, bookTime: int) {
    d.pending.Some? && now >= d.pending.value.active && bookTime >= d.pending.value.active
  }

  function ExecuteBook(cfg: Config, now: int, d: Desk, f: Feed): (Desk, Feed)
    requires d.pending.Some? ==> f.instrument.Some?
    requires d.exitOrder.Some? ==> d.position.Some?
  {
    if !Fresh(cfg, now, f) then (d, f)
    else if ExitDue(now, d, f.time) then
      if d.exitOrder.value.lastBook == f.serial then (d, f)
      else
        ExitLevels(cfg, now, d.(exitOrder := Some(d.exitOrder.value.(lastBook := f.serial))), f,
                   Facing(f.book.value, d.position.value.side))
    else if !EntryDue(now, d, f.time) then (d, f)
    else if d.pending.value.proposal.passive then
      (if d.pending.value.activated then d else Activate(now, d, f.book.value), f)
    else
      var levels := Facing(f.book.value, d.pending.value.proposal.side.Opposite());
      var (d1, f1) := EntryLevels(cfg, now, d, f, f.instrument.value.step, levels);
      (d1.(pending := None), f1)
  }

  function Activate(now: int, d: Desk, book: BookView): Desk
    requires d.pending.Some?
  {
    var o := d.pending.value;
    var side := o.proposal.side;
    if Sign(side, o.limit - Touch(book, side.Opposite())) >= 0.0 then
      Record(now, d.(pending := None), PostOnlyRejected)
    else
      var queue := Visible(Facing(book, side), o.limit);
      if queue.None? then Record(now, d.(pending := None), UnknownQueueRejected)
      else d.(pending := Some(o.(queue := queue.value, activated := true)))
  }

  /** Net exposure strictly before a settlement: the last fill stamped earlier than it. */
  function Snapshot(history: seq<Mark>, time: int): Option<Exposure> {
    if history == [] then None
    else
      var last := history[|history| - 1];
      if last.time < time then Some(Exposure(last.id, last.side, last.qty))
      else Snapshot(history[..|history| - 1], time)
  }

  function ExposureAt(history: seq<Mark>, time: int): Option<Exposure> {
    var x := Snapshot(history, time);
    if x.Some? && x.value.qty > 0.0 then x else None
  }

  function CaptureFunding(now: int, history: seq<Mark>, next: Option<int>, u: Funding): Funding {
    if next.None? || next.value > now || next.value in u.seen || next.value in u.obligations then u
    else
      var x := ExposureAt(history, next.value);
      if x.None? then u
      else u.(obligations := u.obligations[next.value := x.value], unresolved := u.unresolved + {next.value})
  }

  datatype Outcome = Done | ClockReversed | BadFunding | OrphanFunding

  /** Index of the first trade with this id, or the number of trades. */
  function OwnerIndex(trades: seq<Trade>, id: int): (i: nat)
    ensures i <= |trades|
    ensures i < |trades| ==> trades[i].id == id
    ensures forall k | 0 <= k < i :: trades[k].id != id
  {
    if trades == [] || trades[0].id == id then 0
    else
      var i := OwnerIndex(trades[1..], id);
      assert forall k | 1 <= k <= i :: trades[k] == trades[1..][k - 1];
      i + 1
  }

  function Charged(t: Trade, cost: real): Trade {
    var net := t.gross - t.fees - (t.funding + cost);
    t.(funding := t.funding + cost, net := net, netR := net / t.riskBudget)
  }

  function FundingCost(x: Exposure, rate: real, mark: real): real {
    Sign(x.side, x.qty * mark * rate)
  }

  function ChargeFunding(now: int, d: Desk, time: int, x: Exposure, cost: real): (Desk, Outcome) {
    var d1 := d.(cash := d.cash - cost);
    var receipt := FundingPaid(now, cost, x.id, time);
    if d.position.Some? && d.position.value.id == x.id then
      var pos := d.position.value;
      (d1.(position := Some(pos.(funding := pos.funding + cost)), events := d.events + [receipt]), Done)
    else
      var i := OwnerIndex(d.trades, x.id);
      if i == |d.trades| then (d1, OrphanFunding)
      else (d1.(trades := d.trades[i := Charged(d.trades[i], cost)], events := d.events + [receipt]), Done)
  }

  function ApplyFunding(s: State, time: int, rate: real, mark: real): (State, Outcome) {
    if mark <= 0.0 || time > s.now then (s, BadFunding)
    else if time in s.funding.values then
      if s.funding.values[time] != (rate, mark) then
        (s.(guard := s.guard.(incomplete := true, halted := true),
            desk := Record(s.now, s.desk, ConflictingFunding)), Done)
      else (s, Done)
    else Settle(s, time, rate, mark)
  }

  /** A fill stamped with the settlement's own millisecond leaves its exposure uncertified. */
  predicate Tied(history: seq<Mark>, time: int) {
    exists i | 0 <= i < |history| :: history[i].time == time
  }

  /** The first application of a settlement. */
  function Settle(s: State, time: int, rate: real, mark: real): (State, Outcome) {
    var exposure := if time in s.funding.obligations then Some(s.funding.obligations[time])
                    else ExposureAt(s.desk.history, time);
    var s1 :=
      if Tied(s.desk.history, time) then
        s.(guard := s.guard.(incomplete := true), desk := Record(s.now, s.desk, FundingTie))
      else s;
    var u := s.funding.(values := s.funding.values[time := (rate, mark)], seen := s.funding.seen + {time},
                        unresolved := s.funding.unresolved - {time});
    Discharge(s1.(funding := u), time, exposure, rate, mark)
  }

  /** Charges a recorded settlement to the exposure it found, if any. */
  function Discharge(s: State, time: int, exposure: Option<Exposure>, rate: real, mark: real): (State, Outcome) {
    if exposure.None? then (s, Done)
    else
      var (d, outcome) := ChargeFunding(s.now, s.desk, time, exposure.value, FundingCost(exposure.value, rate, mark));
      if outcome.OrphanFunding? then (s.(desk := d, guard := s.guard.(incomplete := true, halted := true)), outcome)
      else (s.(desk := d, funding := s.funding.(revised := s.funding.revised || time < s.now)), outcome)
  }

  predicate Overdue(now: int, u: Funding) {
    exists t | t in u.unresolved :: t + 5000 < now
  }

  function Maintenance(cfg: Config, s: State): State {
    var s1 := if Overdue(s.now, s.funding) then
                s.(guard := s.guard.(incomplete := true),
                   desk := RequestExit(cfg, s.now, s.desk, FundingNotVerified))
              else s;
    if s1.desk.position.None? then s1
    else if !Fresh(cfg, s.now, s.feed) then
      s1.(guard := s1.guard.(incomplete := true), desk := RequestExit(cfg, s.now, s1.desk, StaleBook))
    else s1.(desk := Protect(cfg, s.now, s1.desk, s.feed))
  }

  predicate StopBreached(p: Position, book: BookView) {
    Sign(p.side, Touch(book, p.side) - p.stop) <= 0.0
  }

  predicate TargetReached(p: Position, book: BookView) {
    !p.family.SpotTrend? && Sign(p.side, Touch(book, p.side) - p.target) >= 0.0
  }

  predicate OverExposed(cfg: Config, d: Desk, book: BookView)
    requires d.position.Some?
  {
    var p := d.position.value;
    var mark := Touch(book, p.side);
    p.qty * mark > Max(0.0, d.cash + OpenValue(cfg, p, mark)) * cfg.exposure
  }

  function Protect(cfg: Config, now: int, d: Desk, f: Feed): Desk
    requires d.position.Some? && Fresh(cfg, now, f)
  {
    var p := d.position.value;
    var d1 :=
      if StopBreached(p, f.book.value) then RequestExit(cfg, now, d, StopHit)
      else if TargetReached(p, f.book.value) then RequestExit(cfg, now, d, TargetHit)
      else if now >= p.expires then RequestExit(cfg, now, d, TimeUp)
      else d;
    if OverExposed(cfg, d, f.book.value) then RequestExit(cfg, now, d1, ExposureCap) else d1
  }

  function Deadline(cfg: Config, now: int, o: Order): Option<int> {
    if now < o.expires then o.cancelAt
    else if o.cancelAt.None? || o.cancelAt.value > o.expires + cfg.latency then Some(o.expires + cfg.latency)
    else o.cancelAt
  }

  /** Expiry starts the cancel latency; an acknowledged cancel removes the order. */
  function ExpirePending(cfg: Config, now: int, d: Desk): Desk {
    if d.pending.None? then d
    else
      var cancelAt := Deadline(cfg, now, d.pending.value);
      if cancelAt.Some? && now >= cancelAt.value then Record(now, d.(pending := None), CancelAck)
      else d.(pending := Some(d.pending.value.(cancelAt := cancelAt)))
  }

  function Refreshed(available: map<DepthKey, real>, prior: map<DepthKey, Size>, sizes: map<DepthKey, Size>)
    : map<DepthKey, real>
  {
    available + (map k | k in prior.Keys + sizes.Keys :: Max(0.0, At(available, k) + At(sizes, k) - At(prior, k)))
  }

  function ShownMore(shown: map<DepthKey, real>, prior: map<DepthKey, Size>, sizes: map<DepthKey, Size>)
    : map<DepthKey, real>
  {
    shown + (map k | k in prior.Keys + sizes.Keys :: At(shown, k) + Max(0.0, At(sizes, k) - At(prior, k)))
  }

  function AcceptBook(now: int, f: Feed, book: BookView): Feed {
    var sizes := Sizes(book);
    f.(available := Refreshed(f.available, f.size, sizes), shown := ShownMore(f.shown, f.size, sizes),
       size := sizes, book := Some(book), time := now, serial := f.serial + 1)
  }

  predicate Eligible(cfg: Config, now: int, o: Order, f: Feed, occurred: int, side: Side, price: real) {
    && o.activated && occurred >= o.active && now >= o.active && now - occurred <= 5000
    && occurred <= now + 500 && side == o.proposal.side.Opposite()
    && Sign(o.proposal.side, price - o.limit) <= 0.0 && Fresh(cfg, now, f)
  }

  function MakerPrint(cfg: Config, now: int, d: Desk, step: Positive, qty: Positive): Desk
    requires d.pending.Some?
  {
    var o := d.pending.value;
    var fill := MakerQueue.Fill(MakerQueue.Resting(o.queue, o.remaining), qty, cfg.participation, step);
    var d1 := d.(pending := Some(o.(queue := Max(0.0, o.queue - qty))));
    if fill > 0.0 then EntryFill(now, d1, step, fill, o.limit, cfg.makerFee) else d1
  }

  /** The part of on_event that looks at the venue's own data. */
  function Dispatch(cfg: Config, s: State, e: Event): (State, Outcome)
    requires Sane(s)
  {
    match e.data
    case ContractData(i) => (s.(feed := s.feed.(instrument := Some(i))), Done)
    case Context(next) => (if next.Some? then s.(feed := s.feed.(nextFunding := next)) else s, Done)
    case Settlement(rate, mark) => ApplyFunding(s, e.occurred, rate, mark)
    case Gap => (LoseBook(cfg, s), Done)
    case Book(book) =>
      if s.now - e.occurred > 5000 || e.occurred > s.now + 500 then (s.(feed := s.feed.(book := None)), Done)
      else
        var (d, f) := ExecuteBook(cfg, s.now, s.desk, AcceptBook(s.now, s.feed, book));
        (s.(desk := d, feed := f), Done)
    case Print(side, price, qty) =>
      if s.desk.pending.Some? && s.desk.pending.value.proposal.passive
         && Eligible(cfg, s.now, s.desk.pending.value, s.feed, e.occurred, side, price)
      then (s.(desk := MakerPrint(cfg, s.now, s.desk, s.feed.instrument.value.step, qty)), Done)
      else (s, Done)
    case Health => (s, Done)
  }

  function LoseBook(cfg: Config, s: State): State {
    var d := Cancel(cfg, s.now, s.desk, DataGap);
    var s1 := s.(feed := s.feed.(book := None), desk := d);
    if d.position.Some? then
      s1.(guard := s.guard.(incomplete := true), desk := RequestExit(cfg, s.now, d, DataGap))
    else s1
  }

  /** The clock advances: obligations are captured before expired orders go. */
  function Arrive(cfg: Config, s: State, received: int): State {
    s.(now := received, desk := ExpirePending(cfg, received, s.desk),
       funding := CaptureFunding(received, s.desk.history, s.feed.nextFunding, s.funding))
  }

  function OnEvent(cfg: Config, s: State, e: Event): (State, Outcome)
    requires Sane(s)
  {
    if e.received < s.now then (s, ClockReversed)
    else
      var s1 := Arrive(cfg, s, e.received);
      if e.source != cfg.venue then (Circuit(cfg, Maintenance(cfg, s1)), Done)
      else
        var (s2, outcome) := Dispatch(cfg, s1, e);
        if outcome.Done? then (Circuit(cfg, Maintenance(cfg, s2)), Done) else (s2, outcome)
  }

  predicate Invalidated(p: Position, f: Frame) {
    Sign(p.side, if p.family.SpotTrend? then f.spotBias else f.perpFlow) < -0.1
  }

  function ManageFrame(cfg: Config, now: int, d: Desk, f: Frame): Desk {
    if d.position.None? then d
    else
      var d1 :=
        if !Invalidated(d.position.value, f) then d.(lastBadFlow := None)
        else if d.lastBadFlow.None? then d.(lastBadFlow := Some(f.time))
        else if f.time - d.lastBadFlow.value >= 10000 then RequestExit(cfg, now, d, FlowInvalidated)
        else d;
      if d.position.value.family.SpotTrend? && f.time / MINUTE != d.lastTrailing then Trail(d1, f) else d1
  }

  function Trail(d: Desk, f: Frame): Desk {
    if d.position.None? then d
    else
      var p := d.position.value;
      var stop := f.price - Sign(p.side, 2.0 * f.atr);
      d.(position := Some(p.(stop := Tightened(p.side, p.stop, stop))), lastTrailing := f.time / MINUTE)
  }

  /** Everything the replay loops do to a broker; Fault is their reaction to a parse error. */
  datatype Input =
    | Arrival(event: Event)
    | Signal(proposal: Proposal, allowed: bool)
    | Managed(frame: Frame)
    | CancelEntry(reason: Reason)
    | ExitNow(reason: Reason)
    | Fault

  function Step(cfg: Config, s: State, input: Input): State
    requires Sane(s)
  {
    match input
    case Arrival(e) => OnEvent(cfg, s, e).0
    case Signal(p, allowed) => Propose(cfg, s, p, allowed).0
    case Managed(f) => s.(desk := ManageFrame(cfg, s.now, s.desk, f))
    case CancelEntry(reason) => s.(desk := Cancel(cfg, s.now, s.desk, reason))
    case ExitNow(reason) => s.(desk := RequestExit(cfg, s.now, s.desk, reason))
    case Fault => s.(guard := s.guard.(halted := true, incomplete := true))
  }
}
