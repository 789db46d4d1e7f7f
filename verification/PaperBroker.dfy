/** The paper broker as the object it is: fields updated event by event, each method proved against its model. */
module PaperBroker {
  import opened Basics
  import opened Market
  import opened Ledger
  import opened M = BrokerModel
  import MakerQueue
  import BrokerFacts
  import BrokerSteps
  import BrokerOnward
  import BrokerRuns
  import BrokerTheorems

  class Broker {
    const cfg: Config
    var cash: real
    var peak: Positive
    var dayStart: real
    var day: Option<int>
    var position: Option<Position>
    var pending: Option<Order>
    var exitOrder: Option<ExitOrder>
    var book: Option<BookView>
    var bookTime: int
    var instrument: Option<Instrument>
    var nextFunding: Option<int>
    var halted: bool
    var dayHalted: bool
    var incomplete: bool
    var maxDrawdown: real
    var trades: seq<Trade>
    var events: seq<LogEntry>
    var lastExit: int
    var now: int
    var bookSerial: int
    var proposals: int
    var fundingSeen: set<int>
    var unresolvedFunding: set<int>
    var lastBadFlow: Option<int>
    var lastTrailing: int
    var depthSize: map<DepthKey, Size>
    var depthAvailable: map<DepthKey, real>
    var positionSerial: int
    var exposureHistory: seq<Mark>
    var obligations: map<int, Exposure>
    var fundingValues: map<int, (real, real)>
    var revised: bool
    ghost var taken: map<DepthKey, real>
    ghost var shown: map<DepthKey, real>

    ghost function DeskNow(): Desk
      reads `cash, `position, `pending, `exitOrder, `trades, `events, `exposureHistory, `positionSerial, `lastExit,
            `lastBadFlow, `lastTrailing
    {
      Desk(cash, position, pending, exitOrder, trades, events, exposureHistory, positionSerial, lastExit, lastBadFlow,
           lastTrailing)
    }

    ghost function GuardNow(): Guard
      reads `peak, `dayStart, `day, `maxDrawdown, `halted, `dayHalted, `incomplete
    {
      Guard(peak, dayStart, day, maxDrawdown, halted, dayHalted, incomplete)
    }

    ghost function FeedNow(): Feed
      reads `book, `bookTime, `bookSerial, `instrument, `nextFunding, `depthSize, `depthAvailable, `taken, `shown
    {
      Feed(book, bookTime, bookSerial, instrument, nextFunding, depthSize, depthAvailable, taken, shown)
    }

    ghost function FundingNow(): Funding
      reads `fundingSeen, `unresolvedFunding, `obligations, `fundingValues, `revised
    {
      Funding(fundingSeen, unresolvedFunding, obligations, fundingValues, revised)
    }

    ghost function Snap(): State
      reads this
    {
      State(now, DeskNow(), GuardNow(), FeedNow(), FundingNow(), proposals)
    }

    /** The account is in a state some run could have left it in. */
    ghost predicate Valid()
      reads this
    {
      BrokerFacts.Inv(cfg, Snap())
    }

    constructor (settings: Config)
      ensures cfg == settings && Snap() == M.Init(settings) && Valid()
      ensures cash == peak == dayStart == settings.capital && maxDrawdown == 0.0 && day.None?
      ensures position.None? && pending.None? && exitOrder.None? && lastBadFlow.None?
      ensures !halted && !dayHalted && !incomplete && !revised
      ensures trades == [] && events == [] && exposureHistory == [] && fundingSeen == unresolvedFunding == {}
    {
      cfg := settings;
      cash, peak, dayStart, day := settings.capital, settings.capital, settings.capital, None;
      position, pending, exitOrder := None, None, None;
      book, bookTime, instrument, nextFunding := None, -1, None, None;
      halted, dayHalted, incomplete, maxDrawdown := false, false, false, 0.0;
      trades, events, lastExit, now := [], [], LONG_AGO, -1;
      bookSerial, proposals, fundingSeen, unresolvedFunding := 0, 0, {}, {};
      lastBadFlow, lastTrailing := None, -1;
      depthSize, depthAvailable, positionSerial := map[], map[], 0;
      exposureHistory, obligations, fundingValues, revised := [], map[], map[], false;
      taken, shown := map[], map[];
      new;
      BrokerFacts.InitInv(settings);
    }

    method Log(note: Note)
      modifies `events
      ensures DeskNow() == M.Record(now, old(DeskNow()), note)
    {
      events := events + [Noted(now, note)];
    }

    function IsFresh(): (recent: bool)
      reads `book, `bookTime, `now, `bookSerial, `instrument, `nextFunding, `depthSize, `depthAvailable, `taken, `shown
      ensures recent == M.Fresh(cfg, now, FeedNow())
    {
      book.Some? && 0 <= now - bookTime <= cfg.bookAge
    }

    function MarkedEquity(): (eq: Option<real>)
      reads this
      ensures eq == M.Equity(cfg, now, DeskNow(), FeedNow())
    {
      if position.None? then Some(cash)
      else if !IsFresh() then None
      else
        var p := position.value;
        var mark := Touch(book.value, p.side);
        Some(cash + M.OpenValue(cfg, p, mark))
    }

    method Cancel(reason: Reason)
      modifies `pending, `events
      ensures DeskNow() == M.Cancel(cfg, now, old(DeskNow()), reason)
    {
      if pending.Some? && pending.value.cancelAt.None? {
        pending := Some(pending.value.(cancelAt := Some(now + cfg.latency)));
        Log(CancelRequested(reason));
      }
    }

    method RequestExit(reason: Reason)
      modifies `pending, `events, `exitOrder
      ensures DeskNow() == M.RequestExit(cfg, now, old(DeskNow()), reason)
    {
      if position.Some? && exitOrder.None? {
        Cancel(ReduceOnlyExit);
        exitOrder := Some(ExitOrder(now + cfg.latency, reason, -1));
        Log(ExitRequested(reason));
      }
    }

    /** Day roll, equity peak, drawdown and the two halt latches. */
    method MarkGuard(eq: real)
      modifies `day, `dayStart, `dayHalted, `peak, `maxDrawdown, `halted
      ensures GuardNow() == M.Marked(old(GuardNow()), now, eq)
    {
      hide M.Drawdown;
      var today := now / DAY;
      if day != Some(today) {
        day, dayStart, dayHalted := Some(today), eq, false;
      }
      peak := Max(peak, eq);
      var drawdown := M.Drawdown(eq, peak);
      maxDrawdown := Max(maxDrawdown, drawdown);
      halted := halted || drawdown >= 0.07;
      dayHalted := dayHalted || eq <= dayStart * 0.99;
    }

    method Circuit()
      modifies `day, `dayStart, `dayHalted, `peak, `maxDrawdown, `halted, `pending, `events, `exitOrder
      ensures Snap() == M.Circuit(cfg, old(Snap()))
    {
      var eq := MarkedEquity();
      hide M.Equity, M.Marked, M.Cancel, M.RequestExit, FeedNow, FundingNow;
      if eq.None? {
        return;
      }
      MarkGuard(eq.value);
      if halted || dayHalted {
        Cancel(RiskHalt);
        RequestExit(RiskHalt);
      }
    }

    method Propose(p: Proposal, allowed: bool) returns (reply: Reply)
      requires Valid()
      modifies this
      ensures Valid()
      ensures (Snap(), reply) == M.Propose(cfg, old(Snap()), p, allowed)
    {
      hide BrokerFacts.Inv, BrokerFacts.Onward, M.Redirect, M.Enter, DeskNow, GuardNow, FeedNow, FundingNow;
      BrokerRuns.StayInv(cfg, Snap());
      BrokerRuns.ProposeKeeps(cfg, Snap(), p, allowed);
      if p.time != now {
        return Rejected;
      }
      proposals := proposals + 1;
      Log(ProposalSeen(p.family, p.side));
      if HasPosition() {
        Redirect(p, allowed);
        return Declined;
      }
      reply := Enter(p, allowed);
    }

    /** Mode, calibration, halts, cooldown and missing context all block an entry. */
    method Enter(p: Proposal, allowed: bool) returns (reply: Reply)
      modifies `pending, `events
      ensures (Snap(), reply) == M.Enter(cfg, old(Snap()), p, allowed)
    {
      hide M.Submit, FundingNow, GuardNow, DeskNow, FeedNow;
      if cfg.mode.Observe? {
        Log(ObserveOnly);
        return Declined;
      }
      if cfg.mode.Calibrated? && !allowed {
        Log(NotCalibrated);
        return Declined;
      }
      if NotAccepting() {
        return Declined;
      }
      if LacksContext() {
        Log(MissingContext);
        return Declined;
      }
      reply := Submit(p);
    }

    /** An order already out, a halt, an evidence gap or the minute after an exit. */
    function NotAccepting(): (closed: bool)
      reads this
      ensures var (d, g) := (DeskNow(), GuardNow());
              closed == (d.pending.Some? || g.halted || g.dayHalted || g.incomplete || now - d.lastExit < MINUTE)
    {
      pending.Some? || halted || dayHalted || incomplete || now - lastExit < MINUTE
    }

    /** No fresh book, no contract data, or a settlement within five seconds. */
    function LacksContext(): (lacking: bool)
      reads this
      ensures var f := FeedNow();
              lacking == (!M.Fresh(cfg, now, f) || f.instrument.None? || f.nextFunding.None?
                          || f.nextFunding.value <= now + 5000)
    {
      !IsFresh() || instrument.None? || nextFunding.None? || nextFunding.value <= now + 5000
    }

    /** A proposal meeting an open position exits it, promotes it or does nothing. */
    method Redirect(p: Proposal, allowed: bool)
      requires HasPosition()
      modifies `position, `pending, `events, `exitOrder
      ensures DeskNow() == M.Redirect(cfg, now, old(DeskNow()), p, allowed)
    {
      hide M.RequestExit;
      if p.side != position.value.side {
        RequestExit(OppositeSignal);
      } else if p.family.SpotTrend? && !position.value.family.SpotTrend? {
        if cfg.mode.Calibrated? && !allowed {
          Log(PromotionBlocked);
        } else {
          var pos := position.value;
          position := Some(pos.(family := SpotTrend, expires := now + p.hold,
                                stop := Tightened(p.side, pos.stop, p.stop)));
          Log(Promoted);
        }
      }
    }

    method Submit(p: Proposal) returns (reply: Reply)
      requires FeedNow().book.Some? && FeedNow().instrument.Some?
      modifies `pending, `events
      ensures (Snap(), reply) == M.Submit(cfg, old(Snap()), p)
    {
      hide M.LimitPrice, M.PassesCostGate, M.OrderSize, M.RiskFraction, M.Equity;
      var i := instrument.value;
      var price := M.LimitPrice(cfg, book.value, i.tick, p);
      if !M.PassesCostGate(cfg, p, price) {
        Log(CostOrStopGate);
        return Declined;
      }
      BrokerRuns.PassedPositive(cfg, p, price);
      var budget := cash * M.RiskFraction(cfg, MarkedEquity(), peak);
      assert budget == M.RiskBudget(cfg, Snap());
      hide M.RiskBudget;
      var qty := M.OrderSize(cfg, cash, budget, p, price, i.step);
      if M.TooSmall(i, qty, price) {
        return Declined;
      }
      M.BudgetPositive(cfg, cash, budget, p, price, i.step);
      pending := Some(Order(p, qty, price, now + cfg.latency, now + cfg.ttl, None, false, 0.0, budget));
      events := events + [EntrySubmitted(now, qty, price, p.passive)];
      return Accepted;
    }

    method EntryFill(qty: Positive, price: real, feeRate: real)
      requires pending.Some? && instrument.Some?
      modifies `cash, `position, `pending, `events, `exposureHistory, `positionSerial, `lastBadFlow, `lastTrailing
      ensures DeskNow() == M.EntryFill(now, old(DeskNow()), instrument.value.step, qty, price, feeRate)
    {
      hide FeeOf, Averaged;
      var order := pending.value;
      var p := order.proposal;
      var fee := FeeOf(qty, price, feeRate);
      var pos: Position;
      if position.None? {
        lastBadFlow, lastTrailing, positionSerial := None, -1, positionSerial + 1;
        pos := Position(positionSerial, p.side, qty, Averaged(0.0, 0.0, price, qty), p.stop, p.stop, p.target,
                        p.family, p.family, now, now + p.hold, 0.0, fee, 0.0, qty, order.riskBudget);
      } else {
        pos := position.value;
        pos := pos.(entry := Averaged(pos.entry, pos.qty, price, qty), qty := pos.qty + qty,
                    totalQty := pos.totalQty + qty, fees := pos.fees + fee);
      }
      assert pos == M.Grown(now, old(DeskNow()), order, qty, price, fee);
      hide M.Grown;
      var remaining := Max(0.0, order.remaining - qty);
      position, cash := Some(pos), cash - fee;
      exposureHistory := exposureHistory + [Mark(now, pos.id, pos.side, pos.qty)];
      events := events + [EntryFilled(now, qty, price, fee)];
      pending := if remaining < instrument.value.step / 2.0 then None else Some(order.(remaining := remaining));
    }

    method ExitFill(offered: Positive, price: real)
      requires position.Some? && exitOrder.Some?
      modifies `cash, `position, `pending, `exitOrder, `events, `exposureHistory, `trades, `lastExit
      ensures DeskNow() == M.ExitFill(cfg, now, old(DeskNow()), offered, price)
    {
      hide FeeOf, Gain;
      var pos := position.value;
      var reason := exitOrder.value.reason;
      var qty := Min(offered, pos.qty);
      var fee := FeeOf(qty, price, cfg.takerFee);
      var gain := Gain(pos.side, qty, pos.entry, price);
      cash := cash + (gain - fee);
      exposureHistory := exposureHistory + [Mark(now, pos.id, pos.side, pos.qty - qty)];
      events := events + [ExitFilled(now, qty, price, fee, reason)];
      if qty == pos.qty {
        trades := trades + [M.ClosedTrade(now, pos, pos.gross + gain, pos.fees + fee, reason)];
        position, exitOrder, lastExit := None, None, now;
        if pending.Some? {
          pending := None;
          Log(RemainderReduced);
        }
      } else {
        position := Some(pos.(gross := pos.gross + gain, fees := pos.fees + fee, qty := pos.qty - qty));
      }
    }

    method TakeDepth(key: DepthKey, qty: real)
      modifies `depthAvailable, `taken
      ensures FeedNow() == M.TakeDepth(old(FeedNow()), key, qty)
    {
      depthAvailable := depthAvailable[key := At(depthAvailable, key) - qty];
      taken := taken[key := At(taken, key) + qty];
    }

    /** One level of an exit: takes what is displayed and needed, at the slipped price. */
    method ExitAt(level: Level)
      requires position.Some? && exitOrder.Some?
      modifies `cash, `position, `pending, `exitOrder, `events, `exposureHistory, `trades, `lastExit, `depthAvailable,
               `taken
      ensures (DeskNow(), FeedNow()) == M.ExitLevel(cfg, now, old(DeskNow()), old(FeedNow()), level)
    {
      hide Slipped, M.ExitFill, M.TakeDepth;
      var side := position.value.side;
      var key := DepthKey(side.Long?, level.price);
      var qty := Min(At(depthAvailable, key), position.value.qty);
      if qty > 0.0 {
        TakeDepth(key, qty);
        ExitFill(qty, Slipped(cfg, side.Opposite(), level.price));
      }
    }

    /** Sells or buys back into displayed depth, level by level, until flat. */
    method SweepExit(levels: seq<Level>)
      requires position.Some? && exitOrder.Some?
      modifies `cash, `position, `pending, `exitOrder, `events, `exposureHistory, `trades, `lastExit, `depthAvailable,
               `taken
      ensures (DeskNow(), FeedNow()) == M.ExitLevels(cfg, now, old(DeskNow()), old(FeedNow()), levels)
    {
      hide M.ExitLevel;
      var i := 0;
      while i < |levels| && position.Some? && exitOrder.Some?
        invariant 0 <= i <= |levels|
        invariant M.ExitLevels(cfg, now, DeskNow(), FeedNow(), levels[i..])
               == M.ExitLevels(cfg, now, old(DeskNow()), old(FeedNow()), levels)
      {
        assert levels[i..][1..] == levels[i + 1..];
        ExitAt(levels[i]);
        i := i + 1;
      }
    }

    /** One level of an immediate-or-cancel entry: whole steps of what is displayed and still wanted. */
    method EnterAt(level: Level)
      requires pending.Some? && instrument.Some?
      modifies `cash, `position, `pending, `events, `exposureHistory, `positionSerial, `lastBadFlow, `lastTrailing,
               `depthAvailable, `taken
      ensures (DeskNow(), FeedNow())
           == M.EntryLevel(cfg, now, old(DeskNow()), old(FeedNow()), instrument.value.step, level)
    {
      hide Slipped, M.EntryFill, M.TakeDepth, RoundDown;
      var side := pending.value.proposal.side;
      var key := DepthKey(side.Short?, level.price);
      var qty := RoundDown(Min(At(depthAvailable, key), pending.value.remaining), instrument.value.step);
      if qty > 0.0 {
        TakeDepth(key, qty);
        EntryFill(qty, Slipped(cfg, side, level.price), cfg.takerFee);
      }
    }

    /** Takes displayed depth up to the limit, as an immediate-or-cancel order. */
    method SweepEntry(levels: seq<Level>)
      requires pending.Some? && instrument.Some?
      modifies `cash, `position, `pending, `events, `exposureHistory, `positionSerial, `lastBadFlow, `lastTrailing,
               `depthAvailable, `taken
      ensures (DeskNow(), FeedNow())
           == M.EntryLevels(cfg, now, old(DeskNow()), old(FeedNow()), instrument.value.step, levels)
    {
      hide M.EntryLevel, M.BeyondLimit;
      var i := 0;
      while i < |levels| && pending.Some?
        invariant 0 <= i <= |levels|
        invariant M.EntryLevels(cfg, now, DeskNow(), FeedNow(), instrument.value.step, levels[i..])
               == M.EntryLevels(cfg, now, old(DeskNow()), old(FeedNow()), instrument.value.step, levels)
      {
        assert levels[i..][1..] == levels[i + 1..];
        if M.BeyondLimit(cfg, pending.value, levels[i]) {
          break;
        }
        EnterAt(levels[i]);
        i := i + 1;
      }
    }

    method ExecuteBook()
      requires M.Sane(Snap())
      modifies `cash, `position, `pending, `exitOrder, `events, `exposureHistory, `trades, `lastExit, `depthAvailable,
               `taken, `positionSerial, `lastBadFlow, `lastTrailing
      ensures (DeskNow(), FeedNow()) == M.ExecuteBook(cfg, now, old(DeskNow()), old(FeedNow()))
    {
      hide M.ExitLevels, M.EntryLevels, M.Activate;
      if !IsFresh() {
        return;
      }
      if exitOrder.Some? && now >= exitOrder.value.active && bookTime >= exitOrder.value.active {
        if exitOrder.value.lastBook == bookSerial {
          return;
        }
        exitOrder := Some(exitOrder.value.(lastBook := bookSerial));
        SweepExit(Facing(book.value, position.value.side));
        return;
      }
      if pending.None? || now < pending.value.active || bookTime < pending.value.active {
        return;
      }
      var p := pending.value.proposal;
      if p.passive {
        if !pending.value.activated {
          Activate();
        }
      } else {
        SweepEntry(Facing(book.value, p.side.Opposite()));
        pending := None;
      }
    }

    method Activate()
      requires pending.Some? && book.Some?
      modifies `pending, `events
      ensures DeskNow() == M.Activate(now, old(DeskNow()), book.value)
    {
      var order := pending.value;
      var side := order.proposal.side;
      if Sign(side, order.limit - Touch(book.value, side.Opposite())) >= 0.0 {
        pending := None;
        Log(PostOnlyRejected);
        return;
      }
      var visible := M.Visible(Facing(book.value, side), order.limit);
      if visible.None? {
        pending := None;
        Log(UnknownQueueRejected);
        return;
      }
      pending := Some(order.(queue := visible.value, activated := true));
    }

    /** Adds newly displayed size and drops withdrawn size, level by level. */
    method RefreshDepth(sizes: map<DepthKey, Size>)
      modifies `depthAvailable
      ensures depthAvailable == M.Refreshed(old(depthAvailable), depthSize, sizes)
    {
      hide RefreshedOn, M.Refreshed;
      ghost var was, done := depthAvailable, {};
      RefreshEnds(was, depthSize, sizes);
      var waiting := depthSize.Keys + sizes.Keys;
      while waiting != {}
        invariant done !! waiting && done + waiting == depthSize.Keys + sizes.Keys
        invariant depthAvailable == RefreshedOn(was, depthSize, sizes, done)
        decreases |waiting|
      {
        var key :| key in waiting;
        RefreshOne(was, depthSize, sizes, done, key);
        done := done + {key};
        depthAvailable := depthAvailable[key := Max(0.0, At(depthAvailable, key) + At(sizes, key) - At(depthSize, key))];
        waiting := waiting - {key};
      }
    }

    method AcceptBook(view: BookView)
      modifies `depthAvailable, `depthSize, `book, `bookTime, `bookSerial, `shown
      ensures FeedNow() == M.AcceptBook(now, old(FeedNow()), view)
    {
      hide M.Refreshed, M.ShownMore, Sizes;
      var sizes := Sizes(view);
      RefreshDepth(sizes);
      shown := M.ShownMore(shown, depthSize, sizes);
      depthSize := sizes;
      book, bookTime, bookSerial := Some(view), now, bookSerial + 1;
    }

    method ExposureAt(time: int) returns (x: Option<Exposure>)
      ensures x == M.ExposureAt(exposureHistory, time)
    {
      var i := |exposureHistory|;
      assert exposureHistory[..i] == exposureHistory;
      while i > 0
        invariant 0 <= i <= |exposureHistory|
        invariant M.Snapshot(exposureHistory[..i], time) == M.Snapshot(exposureHistory, time)
      {
        var last := exposureHistory[i - 1];
        assert exposureHistory[..i][..i - 1] == exposureHistory[..i - 1];
        if last.time < time {
          return if last.qty > 0.0 then Some(Exposure(last.id, last.side, last.qty)) else None;
        }
        i := i - 1;
      }
      return None;
    }

    method CaptureFundingObligation()
      modifies `obligations, `unresolvedFunding
      ensures FundingNow() == M.CaptureFunding(now, DeskNow().history, FeedNow().nextFunding, old(FundingNow()))
    {
      if nextFunding.None? || nextFunding.value > now || nextFunding.value in fundingSeen
         || nextFunding.value in obligations {
        return;
      }
      var exposure := ExposureAt(nextFunding.value);
      if exposure.Some? {
        obligations := obligations[nextFunding.value := exposure.value];
        unresolvedFunding := unresolvedFunding + {nextFunding.value};
      }
    }

    method ApplyFunding(time: int, rate: real, mark: real) returns (outcome: Outcome)
      modifies `cash, `position, `trades, `events, `halted, `incomplete, `fundingSeen, `unresolvedFunding,
               `fundingValues, `revised
      ensures (Snap(), outcome) == M.ApplyFunding(old(Snap()), time, rate, mark)
    {
      hide M.Settle, DeskNow, GuardNow, FeedNow, FundingNow;
      if mark <= 0.0 || time > now {
        return BadFunding;
      }
      var known := Applied(time);
      if known.Some? {
        if known.value != (rate, mark) {
          FailClosed();
          Log(ConflictingFunding);
        }
        return Done;
      }
      outcome := Settle(time, rate, mark);
    }

    /** The first application of a settlement. */
    method Settle(time: int, rate: real, mark: real) returns (outcome: Outcome)
      modifies `cash, `position, `trades, `events, `halted, `incomplete, `fundingSeen, `unresolvedFunding,
               `fundingValues, `revised
      ensures (Snap(), outcome) == M.Settle(old(Snap()), time, rate, mark)
    {
      hide M.ExposureAt, M.Discharge, M.Tied, DeskNow, GuardNow, FeedNow, FundingNow;
      var exposure := ExposureFor(time);
      if TiedFill(time) {
        MarkIncomplete();
        Log(FundingTie);
      }
      RecordSettlement(time, rate, mark);
      outcome := Discharge(time, exposure, rate, mark);
    }

    method Discharge(time: int, exposure: Option<Exposure>, rate: real, mark: real) returns (outcome: Outcome)
      modifies `cash, `position, `trades, `events, `halted, `incomplete, `revised
      ensures (Snap(), outcome) == M.Discharge(old(Snap()), time, exposure, rate, mark)
    {
      hide M.FundingCost, M.ChargeFunding, DeskNow, GuardNow, FeedNow, FundingNow;
      outcome := Done;
      if exposure.Some? {
        outcome := ChargeFunding(time, exposure.value, M.FundingCost(exposure.value, rate, mark));
        if outcome.OrphanFunding? {
          FailClosed();
        } else {
          NoteRevision(time);
        }
      }
    }

    /** The values a settlement was applied with, if it was. */
    function Applied(time: int): (known: Option<(real, real)>)
      reads `fundingSeen, `unresolvedFunding, `obligations, `fundingValues, `revised
      ensures known == if time in FundingNow().values then Some(FundingNow().values[time]) else None
    {
      if time in fundingValues then Some(fundingValues[time]) else None
    }

    function TiedFill(time: int): (tied: bool)
      reads `cash, `position, `pending, `exitOrder, `trades, `events, `exposureHistory, `positionSerial, `lastExit,
            `lastBadFlow, `lastTrailing
      ensures tied == M.Tied(DeskNow().history, time)
    {
      exists i | 0 <= i < |exposureHistory| :: exposureHistory[i].time == time
    }

    method RecordSettlement(time: int, rate: real, mark: real)
      modifies `fundingSeen, `unresolvedFunding, `fundingValues
      ensures var u := old(FundingNow());
              FundingNow() == u.(values := u.values[time := (rate, mark)], seen := u.seen + {time},
                                 unresolved := u.unresolved - {time})
    {
      fundingValues := fundingValues[time := (rate, mark)];
      fundingSeen := fundingSeen + {time};
      unresolvedFunding := unresolvedFunding - {time};
    }

    method NoteRevision(time: int)
      modifies `revised
      ensures FundingNow() == old(FundingNow()).(revised := old(FundingNow()).revised || time < now)
    {
      revised := revised || time < now;
    }

    /** The cached obligation, or the exposure read from history. */
    method ExposureFor(time: int) returns (x: Option<Exposure>)
      ensures x == if time in FundingNow().obligations then Some(FundingNow().obligations[time])
                   else M.ExposureAt(DeskNow().history, time)
    {
      if time in obligations {
        x := Some(obligations[time]);
      } else {
        x := ExposureAt(time);
      }
    }

    method ChargeFunding(time: int, x: Exposure, cost: real) returns (outcome: Outcome)
      modifies `cash, `position, `trades, `events
      ensures (DeskNow(), outcome) == M.ChargeFunding(now, old(DeskNow()), time, x, cost)
    {
      hide M.Charged;
      cash := cash - cost;
      if position.Some? && position.value.id == x.id {
        position := Some(position.value.(funding := position.value.funding + cost));
      } else {
        var i := FindTrade(x.id);
        if i == |trades| {
          return OrphanFunding;
        }
        trades := trades[i := M.Charged(trades[i], cost)];
      }
      events := events + [FundingPaid(now, cost, x.id, time)];
      return Done;
    }

    /** next(...) over the closed trades: the first with this id, or their number. */
    method FindTrade(id: int) returns (i: nat)
      ensures i == M.OwnerIndex(trades, id)
    {
      i := 0;
      while i < |trades| && trades[i].id != id
        invariant i <= |trades|
        invariant M.OwnerIndex(trades, id) == i + M.OwnerIndex(trades[i..], id)
      {
        assert trades[i..][1..] == trades[i + 1..];
        i := i + 1;
      }
    }

    function IsOverdue(): (overdue: bool)
      reads `now, `fundingSeen, `unresolvedFunding, `obligations, `fundingValues, `revised
      ensures overdue == M.Overdue(now, FundingNow())
    {
      exists t | t in unresolvedFunding :: t + 5000 < now
    }

    method Maintenance()
      modifies `incomplete, `pending, `events, `exitOrder
      ensures Snap() == M.Maintenance(cfg, old(Snap()))
    {
      hide M.RequestExit, M.Protect, DeskNow, GuardNow, FeedNow, FundingNow, M.Overdue, M.Fresh;
      RequestKeepsPosition(cfg, now, DeskNow(), FundingNotVerified);
      if IsOverdue() {
        MarkIncomplete();
        RequestExit(FundingNotVerified);
      }
      if !HasPosition() {
        return;
      }
      if !IsFresh() {
        MarkIncomplete();
        RequestExit(StaleBook);
      } else {
        Protect();
      }
    }

    /** Stop, target, holding time and exposure cap, on a fresh book. */
    method Protect()
      requires HasPosition() && IsFresh()
      modifies `pending, `events, `exitOrder
      ensures DeskNow() == M.Protect(cfg, now, old(DeskNow()), FeedNow())
    {
      hide M.RequestExit, M.OpenValue;
      var p := position.value;
      var price := Touch(book.value, p.side);
      var eq := cash + M.OpenValue(cfg, p, price);
      if Sign(p.side, price - p.stop) <= 0.0 {
        RequestExit(StopHit);
      } else if !p.family.SpotTrend? && Sign(p.side, price - p.target) >= 0.0 {
        RequestExit(TargetHit);
      } else if now >= p.expires {
        RequestExit(TimeUp);
      }
      if p.qty * price > Max(0.0, eq) * cfg.exposure {
        RequestExit(ExposureCap);
      }
    }

    /** The clock part of on_event: capture what is owed, then start or acknowledge cancellation. */
    method Arrive(received: int)
      modifies `now, `obligations, `unresolvedFunding, `pending, `events
      ensures Snap() == M.Arrive(cfg, old(Snap()), received)
    {
      hide M.CaptureFunding, M.ExpirePending, DeskNow, GuardNow, FeedNow, FundingNow;
      now := received;
      CaptureFundingObligation();
      ExpirePending();
    }

    method ExpirePending()
      modifies `pending, `events
      ensures DeskNow() == M.ExpirePending(cfg, now, old(DeskNow()))
    {
      if pending.None? {
        return;
      }
      var order := pending.value;
      if now >= order.expires {
        var deadline := order.expires + cfg.latency;
        var previous := order.cancelAt;
        order := order.(cancelAt := if previous.None? || deadline < previous.value then Some(deadline) else previous);
        pending := Some(order);
      }
      if order.cancelAt.Some? && now >= order.cancelAt.value {
        pending := None;
        Log(CancelAck);
      }
    }

    /** Every event, from any source, processed or refused exactly as the model says. */
    method OnEvent(e: Event) returns (outcome: Outcome)
      requires Valid()
      modifies this
      ensures Valid()
      ensures (Snap(), outcome) == M.OnEvent(cfg, old(Snap()), e)
      ensures !outcome.OrphanFunding?
      ensures outcome.ClockReversed? <==> e.received < old(now)
      ensures outcome.Done? && position.Some? && BrokerTheorems.MustLeave(cfg, Snap()) ==> exitOrder.Some?
    {
      BrokerRuns.StayInv(cfg, Snap());
      BrokerRuns.OnEventKeeps(cfg, Snap(), e);
      BrokerTheorems.ProtectedAfterEvent(cfg, Snap(), e);
      if e.received >= now {
        BrokerRuns.ArriveKeeps(cfg, Snap(), e.received);
        BrokerRuns.StayInv(cfg, M.Arrive(cfg, Snap(), e.received));
      }
      hide BrokerFacts.Inv, BrokerFacts.Onward, BrokerTheorems.MustLeave, M.Arrive, M.Maintenance, M.Circuit, M.Dispatch,
           M.Equity;
      if e.received < now {
        return ClockReversed;
      }
      Arrive(e.received);
      if e.source == cfg.venue {
        outcome := Dispatch(e);
        if !outcome.Done? {
          return;
        }
      }
      Maintenance();
      Circuit();
      outcome := Done;
    }

    method Dispatch(e: Event) returns (outcome: Outcome)
      requires M.Sane(Snap())
      modifies this
      ensures (Snap(), outcome) == M.Dispatch(cfg, old(Snap()), e)
      ensures !outcome.ClockReversed?
    {
      hide M.ApplyFunding, M.ExecuteBook, M.AcceptBook, M.Eligible, M.LoseBook, M.MakerPrint, DeskNow, GuardNow, FeedNow,
           FundingNow;
      outcome := Done;
      match e.data
      case ContractData(i) =>
        SetInstrument(i);
      case Context(next) =>
        SetNextFunding(next);
      case Settlement(rate, mark) =>
        outcome := ApplyFunding(e.occurred, rate, mark);
        BrokerRuns.FundingNeverReverses(old(Snap()), e.occurred, rate, mark);
      case Gap =>
        LoseBook();
      case Book(view) =>
        if now - e.occurred > 5000 || e.occurred > now + 500 {
          DropBook();
        } else {
          AcceptBook(view);
          AcceptKeepsContract(now, old(FeedNow()), view);
          ExecuteBook();
        }
      case Print(side, price, qty) =>
        if CountsAsFill(e.occurred, side, price) {
          MakerPrint(qty);
        }
      case Health =>
    }

    method SetInstrument(i: Instrument)
      modifies `instrument
      ensures FeedNow() == old(FeedNow()).(instrument := Some(i))
    {
      instrument := Some(i);
    }

    method SetNextFunding(next: Option<int>)
      modifies `nextFunding
      ensures FeedNow() == if next.Some? then old(FeedNow()).(nextFunding := next) else old(FeedNow())
    {
      if next.Some? {
        nextFunding := next;
      }
    }

    /** A print that can fill the resting maker order. */
    function CountsAsFill(occurred: int, side: Side, price: real): (counts: bool)
      reads this
      ensures var (d, f) := (DeskNow(), FeedNow());
              counts == (d.pending.Some? && d.pending.value.proposal.passive
                         && M.Eligible(cfg, now, d.pending.value, f, occurred, side, price))
    {
      pending.Some? && pending.value.proposal.passive
      && var o := pending.value;
         && o.activated && occurred >= o.active && now >= o.active && now - occurred <= 5000
         && occurred <= now + 500 && side == o.proposal.side.Opposite()
         && Sign(o.proposal.side, price - o.limit) <= 0.0 && IsFresh()
    }

    method LoseBook()
      modifies `book, `pending, `events, `exitOrder, `incomplete
      ensures Snap() == M.LoseBook(cfg, old(Snap()))
    {
      hide M.Cancel, M.RequestExit, DeskNow, GuardNow, FeedNow, FundingNow;
      DropBook();
      Cancel(DataGap);
      if HasPosition() {
        MarkIncomplete();
        RequestExit(DataGap);
      }
    }

    method DropBook()
      modifies `book
      ensures FeedNow() == old(FeedNow()).(book := None)
    {
      book := None;
    }

    method MarkIncomplete()
      modifies `incomplete
      ensures GuardNow() == old(GuardNow()).(incomplete := true)
    {
      incomplete := true;
    }

    /** A contradiction in the evidence stops the account for good. */
    method FailClosed()
      modifies `incomplete, `halted
      ensures GuardNow() == old(GuardNow()).(incomplete := true, halted := true)
    {
      incomplete, halted := true, true;
    }

    function HasPosition(): (held: bool)
      reads `cash, `position, `pending, `exitOrder, `trades, `events, `exposureHistory, `positionSerial, `lastExit,
            `lastBadFlow, `lastTrailing
      ensures held == DeskNow().position.Some?
    {
      position.Some?
    }

    method MakerPrint(qty: Positive)
      requires DeskNow().pending.Some? && FeedNow().instrument.Some?
      modifies `cash, `position, `pending, `events, `exposureHistory, `positionSerial, `lastBadFlow, `lastTrailing
      ensures DeskNow() == M.MakerPrint(cfg, now, old(DeskNow()), FeedNow().instrument.value.step, qty)
    {
      hide MakerQueue.Fill, M.EntryFill;
      var order := pending.value;
      var fill := MakerQueue.Fill(MakerQueue.Resting(order.queue, order.remaining), qty, cfg.participation,
                                  instrument.value.step);
      pending := Some(order.(queue := Max(0.0, order.queue - qty)));
      if fill > 0.0 {
        EntryFill(fill, order.limit, cfg.makerFee);
      }
    }

    method ManageFrame(f: Frame)
      requires Valid()
      modifies `lastBadFlow, `lastTrailing, `position, `pending, `events, `exitOrder
      ensures Valid()
      ensures Snap() == old(Snap()).(desk := M.ManageFrame(cfg, now, old(DeskNow()), f))
    {
      hide M.ManageFrame, DeskNow, GuardNow, FeedNow, FundingNow, BrokerFacts.Inv;
      BrokerRuns.ManageKeeps(cfg, Snap(), f);
      Manage(f);
    }

    /** Exits on ten seconds of adverse flow; trails the stop of a trend once a minute. */
    method Manage(f: Frame)
      modifies `lastBadFlow, `lastTrailing, `position, `pending, `events, `exitOrder
      ensures DeskNow() == M.ManageFrame(cfg, now, old(DeskNow()), f)
    {
      hide M.RequestExit, M.Invalidated;
      if position.None? {
        return;
      }
      var p := position.value;
      RequestKeepsPosition(cfg, now, DeskNow(), FlowInvalidated);
      if M.Invalidated(p, f) {
        if lastBadFlow.None? {
          lastBadFlow := Some(f.time);
        } else if f.time - lastBadFlow.value >= 10000 {
          RequestExit(FlowInvalidated);
        }
      } else {
        lastBadFlow := None;
      }
      if p.family.SpotTrend? && f.time / MINUTE != lastTrailing {
        Trail(f);
      }
    }

    method Trail(f: Frame)
      requires position.Some?
      modifies `position, `lastTrailing
      ensures DeskNow() == M.Trail(old(DeskNow()), f)
    {
      var p := position.value;
      var stop := f.price - Sign(p.side, 2.0 * f.atr);
      position := Some(p.(stop := Tightened(p.side, p.stop, stop)));
      lastTrailing := f.time / MINUTE;
    }

    /** The balance report recomputes always equals cash, so its assertion never fires. */
    method Reconcile() returns (balance: real)
      requires Valid()
      ensures balance == cash
    {
      hide SumNet;
      var realized := SumNet(trades);
      var open := if position.Some? then position.value.gross - position.value.fees - position.value.funding else 0.0;
      balance := cfg.capital + realized + open;
    }
  }

  lemma RequestKeepsPosition(cfg: Config, now: int, d: Desk, reason: Reason)
    ensures M.RequestExit(cfg, now, d, reason).position == d.position
  {
  }

  /** The refresh, done only at some levels. */
  ghost function RefreshedOn(available: map<DepthKey, real>, prior: map<DepthKey, Size>, sizes: map<DepthKey, Size>,
                             done: set<DepthKey>): map<DepthKey, real>
  {
    available + (map k | k in done :: Max(0.0, At(available, k) + At(sizes, k) - At(prior, k)))
  }

  lemma RefreshEnds(available: map<DepthKey, real>, prior: map<DepthKey, Size>, sizes: map<DepthKey, Size>)
    ensures RefreshedOn(available, prior, sizes, {}) == available
    ensures RefreshedOn(available, prior, sizes, prior.Keys + sizes.Keys) == M.Refreshed(available, prior, sizes)
  {
  }

  lemma RefreshOne(available: map<DepthKey, real>, prior: map<DepthKey, Size>, sizes: map<DepthKey, Size>,
                   done: set<DepthKey>, key: DepthKey)
    requires key !in done
    ensures var part := RefreshedOn(available, prior, sizes, done);
            RefreshedOn(available, prior, sizes, done + {key})
            == part[key := Max(0.0, At(part, key) + At(sizes, key) - At(prior, key))]
  {
  }

  lemma AcceptKeepsContract(now: int, f: Feed, book: BookView)
    ensures M.AcceptBook(now, f, book).instrument == f.instrument
  {
  }
}
