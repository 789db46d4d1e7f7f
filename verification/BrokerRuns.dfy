/** Every input keeps the invariant of the paper account and moves it only onward. */
module BrokerRuns {
  import opened Basics
  import opened Market
  import opened Ledger
  import opened BrokerModel
  import opened BrokerFacts
  import opened BrokerQuiet
  import opened BrokerRisk
  import opened BrokerFunding
  import opened BrokerSteps
  import opened BrokerSettlement
  import opened BrokerOnward

  // ---------------------------------------------------------------- submission

  lemma SizeFitsBudget(cfg: Config, cash: real, budget: real, p: Proposal, price: Positive, step: Positive)
    requires PassesCostGate(cfg, p, price) && OrderSize(cfg, cash, budget, p, price, step) > 0.0
    ensures Mul(OrderSize(cfg, cash, budget, p, price, step), UnitRisk(cfg, p, price)) <= budget
    ensures 0.0 < StopDistance(p, price) <= 0.05 * price
  {
    hide UnitCosts, UnitRisk, StopDistance, Mul;
    UnitRiskPositive(cfg, p, price);
    QuotientFits(OrderSize(cfg, cash, budget, p, price, step), budget, UnitRisk(cfg, p, price));
    GateFits(StopDistance(p, price), price);
  }

  /** A freshly submitted order is a promise within its budget and nothing else. */
  lemma SubmittedKeeps(cfg: Config, now: int, d: Desk, u: Funding, o: Order, e: LogEntry)
    requires DeskInv(cfg, now, d) && Funded(now, d, u) && d.pending.None? && d.position.None?
    requires OrderGated(o) && o.cancelAt.None? && e.EntrySubmitted?
    requires Mul(o.remaining, UnitRisk(cfg, o.proposal, o.limit)) <= o.riskBudget
    ensures var d1 := d.(pending := Some(o), events := d.events + [e]);
            DeskInv(cfg, now, d1) && Funded(now, d1, u) && Onward(now, d, d1)
  {
    hide Split, UnitRisk, StopDistance, Waves, SumNet, ClosedMatch, SumDue, ExposureAt, Mul, StopLoss;
    SplitIgnores(d.events, e);
    var d1 := d.(pending := Some(o), events := d.events + [e]);
    assert forall id | 1 <= id <= d.serial :: FundingOf(d1, id) == FundingOf(d, id);
  }

  lemma PassedPositive(cfg: Config, p: Proposal, price: real)
    requires PassesCostGate(cfg, p, price)
    ensures price > 0.0 && StopDistance(p, price) > 0.0
  {
  }

  lemma SubmitKeeps(cfg: Config, s: State, p: Proposal)
    requires Inv(cfg, s) && s.desk.pending.None? && s.desk.position.None?
    requires s.feed.book.Some? && s.feed.instrument.Some?
    ensures var t := Submit(cfg, s, p).0;
            Inv(cfg, t) && Onward(s.now, s.desk, t.desk) && t == s.(desk := t.desk)
  {
    hide DepthExact, LimitPrice, PassesCostGate, OrderSize, RiskBudget, UnitRisk, StopDistance, Mul, Onward, DeskInv,
         Funded;
    var i := s.feed.instrument.value;
    var price := LimitPrice(cfg, s.feed.book.value, i.tick, p);
    NoteKeeps(cfg, s, CostOrStopGate);
    StayInv(cfg, s);
    if PassesCostGate(cfg, p, price) {
      PassedPositive(cfg, p, price);
      var budget := RiskBudget(cfg, s);
      var qty := OrderSize(cfg, s.desk.cash, budget, p, price, i.step);
      if !TooSmall(i, qty, price) {
        SizeFitsBudget(cfg, s.desk.cash, budget, p, price, i.step);
        BudgetPositive(cfg, s.desk.cash, budget, p, price, i.step);
        var o := Order(p, qty, price, s.now + cfg.latency, s.now + cfg.ttl, None, false, 0.0, budget);
        SubmittedKeeps(cfg, s.now, s.desk, s.funding, o, EntrySubmitted(s.now, qty, price, p.passive));
      }
    }
  }

  lemma StayInv(cfg: Config, s: State)
    requires Inv(cfg, s)
    ensures Sane(s) && Onward(s.now, s.desk, s.desk)
  {
    StayOnward(s.now, s.desk);
    hide Tracked, CashExact, Booked, RiskBounded, Funded, DepthExact;
  }

  lemma NoteKeeps(cfg: Config, s: State, note: Note)
    requires Inv(cfg, s)
    ensures var t := s.(desk := Record(s.now, s.desk, note)); Inv(cfg, t) && Onward(s.now, s.desk, t.desk)
  {
    hide Tracked, CashExact, Booked, RiskBounded, Funded, DepthExact, Onward;
    QuietRecord(s.now, s.desk, note);
    QuietDeskKeeps(cfg, s, Record(s.now, s.desk, note));
  }

  /** A quiet step of the desk inside an otherwise unchanged state. */
  lemma QuietDeskKeeps(cfg: Config, s: State, e: Desk)
    requires Inv(cfg, s) && Quiet(s.desk, e) && Ordered(cfg, s.now, e)
    ensures Inv(cfg, s.(desk := e)) && Onward(s.now, s.desk, e)
  {
    hide Tracked, CashExact, Booked, RiskBounded, Funded, DepthExact;
    QuietKeeps(cfg, s.now, s.desk, e, s.funding);
    QuietOnward(s.now, s.desk, e);
    hide Onward, Numbered;
  }

  lemma ProposeKeeps(cfg: Config, s: State, p: Proposal, allowed: bool)
    requires Inv(cfg, s)
    ensures var t := Propose(cfg, s, p, allowed).0;
            Inv(cfg, t) && Onward(s.now, s.desk, t.desk) && t.now == s.now
  {
    hide Submit, Redirect, DeskInv, Funded, DepthExact, Onward;
    StayInv(cfg, s);
    if p.time == s.now {
      NoteKeeps(cfg, s, ProposalSeen(p.family, p.side));
      var s1 := s.(proposals := s.proposals + 1, desk := Record(s.now, s.desk, ProposalSeen(p.family, p.side)));
      ReplyKeeps(cfg, s1, p, allowed);
      OnwardChain(s.now, s.now, s.desk, s1.desk, Propose(cfg, s, p, allowed).0.desk);
    }
  }

  /** Each way propose can end, from the state after the proposal was logged. */
  lemma ReplyKeeps(cfg: Config, s: State, p: Proposal, allowed: bool)
    requires Inv(cfg, s)
    ensures Onward(s.now, s.desk, s.desk)
    ensures s.desk.position.Some? ==>
              var e := Redirect(cfg, s.now, s.desk, p, allowed);
              Inv(cfg, s.(desk := e)) && Onward(s.now, s.desk, e)
    ensures forall why: Note :: Inv(cfg, Blocked(s, why).0) && Onward(s.now, s.desk, Blocked(s, why).0.desk)
    ensures s.desk.pending.None? && s.desk.position.None? && s.feed.book.Some? && s.feed.instrument.Some? ==>
              var t := Submit(cfg, s, p).0;
              Inv(cfg, t) && Onward(s.now, s.desk, t.desk) && t == s.(desk := t.desk)
  {
    hide DeskInv, Funded, DepthExact, Onward, Redirect, Submit, Quiet, Ordered;
    StayInv(cfg, s);
    forall why: Note
      ensures Inv(cfg, Blocked(s, why).0) && Onward(s.now, s.desk, Blocked(s, why).0.desk)
    {
      NoteKeeps(cfg, s, why);
    }
    if s.desk.position.Some? {
      InvOrdered(cfg, s);
      RedirectQuiet(cfg, s.now, s.desk, p, allowed);
      QuietDeskKeeps(cfg, s, Redirect(cfg, s.now, s.desk, p, allowed));
    }
    if s.desk.pending.None? && s.desk.position.None? && s.feed.book.Some? && s.feed.instrument.Some? {
      SubmitKeeps(cfg, s, p);
    }
  }

  lemma InvOrdered(cfg: Config, s: State)
    requires Inv(cfg, s)
    ensures Ordered(cfg, s.now, s.desk)
  {
  }

  // ---------------------------------------------------------------- events

  lemma ArriveKeeps(cfg: Config, s: State, received: int)
    requires Inv(cfg, s) && s.now <= received
    ensures var t := Arrive(cfg, s, received);
            Inv(cfg, t) && Onward(s.now, s.desk, t.desk) && t.now == received && t.desk.position == s.desk.position
  {
    hide Tracked, Numbered, CashExact, Booked, RiskBounded, Funded, DepthExact, Onward, CaptureFunding;
    ExpireQuiet(cfg, s.now, received, s.desk);
    var e := ExpirePending(cfg, received, s.desk);
    QuietKeeps(cfg, s.now, s.desk, e, s.funding);
    QuietOnward(s.now, s.desk, e);
    CaptureKeeps(s.now, received, e, s.feed.nextFunding, s.funding);
  }

  /** A settlement is never refused as a reversed clock. */
  lemma FundingNeverReverses(s: State, time: int, rate: real, mark: real)
    ensures !ApplyFunding(s, time, rate, mark).1.ClockReversed?
  {
    hide FundingCost, ExposureAt, OwnerIndex, Charged;
  }

  lemma LoseBookKeeps(cfg: Config, s: State)
    requires Inv(cfg, s)
    ensures Inv(cfg, LoseBook(cfg, s)) && Onward(s.now, s.desk, LoseBook(cfg, s).desk) && LoseBook(cfg, s).now == s.now
  {
    hide Tracked, Numbered, CashExact, Booked, RiskBounded, Funded, Onward, Split;
    CancelQuiet(cfg, s.now, s.desk, DataGap);
    var d := Cancel(cfg, s.now, s.desk, DataGap);
    RequestExitQuiet(cfg, s.now, d, DataGap);
    QuietChain(s.desk, d, RequestExit(cfg, s.now, d, DataGap));
    QuietDeskKeeps(cfg, s, d);
    QuietDeskKeeps(cfg, s, RequestExit(cfg, s.now, d, DataGap));
    hide Cancel, RequestExit;
  }

  lemma DispatchKeeps(cfg: Config, s: State, e: Event)
    requires Inv(cfg, s)
    ensures Sane(s)
    ensures var (t, outcome) := Dispatch(cfg, s, e);
            Inv(cfg, t) && Onward(s.now, s.desk, t.desk) && t.now == s.now && !outcome.OrphanFunding?
  {
    hide Tracked, CashExact, Booked, RiskBounded, Funded, Onward, Eligible, ApplyFunding, LoseBook, ExecuteBook,
         MakerPrint;
    StayInv(cfg, s);
    match e.data
    case Settlement(rate, mark) =>
      ApplyFundingKeeps(cfg, s, e.occurred, rate, mark);
      ApplyFundingOnward(s, e.occurred, rate, mark);
    case Gap =>
      LoseBookKeeps(cfg, s);
    case Book(book) =>
      BookKeeps(cfg, s, book);
    case Print(side, price, qty) =>
      if s.desk.pending.Some? && s.desk.pending.value.proposal.passive {
        MakerPrintKeeps(cfg, s.now, s.desk, s.funding, s.feed.instrument.value.step, qty);
        MakerPrintOnward(cfg, s.now, s.desk, s.feed.instrument.value.step, qty);
      }
    case _ =>
  }

  lemma BookKeeps(cfg: Config, s: State, book: BookView)
    requires Inv(cfg, s)
    ensures Sane(s)
    ensures var (d, f) := ExecuteBook(cfg, s.now, s.desk, AcceptBook(s.now, s.feed, book));
            Inv(cfg, s.(desk := d, feed := f)) && Onward(s.now, s.desk, d)
  {
    hide Tracked, CashExact, Booked, RiskBounded, Funded, DepthExact, Onward, ExecuteBook, Refreshed, ShownMore, Sizes;
    var f := AcceptBook(s.now, s.feed, book);
    AcceptBookExact(s.now, s.feed, book);
    ExecuteBookKeeps(cfg, s.now, s.desk, f, s.funding);
    ExecuteBookOnward(cfg, s.now, s.desk, f);
    PendingOutlives(cfg, s.now, s.desk, f);
  }

  /** A book cannot create an order. */
  lemma PendingOutlives(cfg: Config, now: int, d: Desk, f: Feed)
    requires d.pending.Some? ==> f.instrument.Some?
    requires d.exitOrder.Some? ==> d.position.Some?
    ensures ExecuteBook(cfg, now, d, f).0.pending.Some? ==> d.pending.Some?
  {
    hide ExitLevels, EntryLevels, Activate;
    if d.pending.None? && Fresh(cfg, now, f) && ExitDue(now, d, f.time) {
      ExitsLeaveNoOrder(cfg, now, d.(exitOrder := Some(d.exitOrder.value.(lastBook := f.serial))), f,
                        Facing(f.book.value, d.position.value.side));
    }
  }

  lemma {:induction false} ExitsLeaveNoOrder(cfg: Config, now: int, d: Desk, f: Feed, levels: seq<Level>)
    requires d.pending.None?
    ensures ExitLevels(cfg, now, d, f, levels).0.pending.None?
    decreases |levels|
  {
    hide FeeOf, Gain, Slipped;
    if levels != [] && d.position.Some? && d.exitOrder.Some? {
      var (d1, f1) := ExitLevel(cfg, now, d, f, levels[0]);
      ExitsLeaveNoOrder(cfg, now, d1, f1, levels[1..]);
    }
  }

  lemma ClosingChecksKeep(cfg: Config, s: State)
    requires Inv(cfg, s)
    ensures var t := Circuit(cfg, Maintenance(cfg, s));
            Inv(cfg, t) && Onward(s.now, s.desk, t.desk) && t.now == s.now
  {
    hide Tracked, Numbered, CashExact, Booked, RiskBounded, Funded, DepthExact, Onward, Maintenance, Circuit, Quiet;
    MaintenanceQuiet(cfg, s);
    var s1 := Maintenance(cfg, s);
    QuietDeskKeeps(cfg, s, s1.desk);
    CircuitQuiet(cfg, s1);
    var t := Circuit(cfg, s1);
    QuietDeskKeeps(cfg, s1, t.desk);
    OnwardChain(s.now, s.now, s.desk, s1.desk, t.desk);
  }

  lemma OnEventKeeps(cfg: Config, s: State, e: Event)
    requires Inv(cfg, s)
    ensures Sane(s)
    ensures var (t, outcome) := OnEvent(cfg, s, e);
            && Inv(cfg, t) && Onward(s.now, s.desk, t.desk) && s.now <= t.now && !outcome.OrphanFunding?
            && t.now == if e.received < s.now then s.now else e.received
  {
    hide DeskInv, Funded, DepthExact, Onward, Dispatch, Arrive, Maintenance, Circuit;
    StayInv(cfg, s);
    if e.received >= s.now {
      var s1 := Arrive(cfg, s, e.received);
      ArriveKeeps(cfg, s, e.received);
      ClosingChecksKeep(cfg, s1);
      OnwardChain(s.now, s1.now, s.desk, s1.desk, Circuit(cfg, Maintenance(cfg, s1)).desk);
      DispatchKeeps(cfg, s1, e);
      var s2 := Dispatch(cfg, s1, e).0;
      OnwardChain(s.now, s1.now, s.desk, s1.desk, s2.desk);
      ClosingChecksKeep(cfg, s2);
      OnwardChain(s.now, s2.now, s.desk, s2.desk, Circuit(cfg, Maintenance(cfg, s2)).desk);
    }
  }

  lemma ManageKeeps(cfg: Config, s: State, f: Frame)
    requires Inv(cfg, s)
    ensures var d := ManageFrame(cfg, s.now, s.desk, f); Inv(cfg, s.(desk := d)) && Onward(s.now, s.desk, d)
  {
    hide ManageFrame, DeskInv, Funded, DepthExact, Onward, Quiet, Ordered;
    InvOrdered(cfg, s);
    ManageQuiet(cfg, s.now, s.desk, f);
    QuietDeskKeeps(cfg, s, ManageFrame(cfg, s.now, s.desk, f));
  }

  /** One input, whatever it is, keeps the invariant and only moves the account onward. */
  lemma StepKeeps(cfg: Config, s: State, input: Input)
    requires Inv(cfg, s)
    ensures Sane(s)
    ensures var t := Step(cfg, s, input);
            Inv(cfg, t) && Onward(s.now, s.desk, t.desk) && s.now <= t.now
  {
    hide OnEvent, Propose, ManageFrame, Cancel, RequestExit, DeskInv, Funded, DepthExact, Onward, Quiet, Ordered;
    StayInv(cfg, s);
    InvOrdered(cfg, s);
    match input
    case Arrival(e) => OnEventKeeps(cfg, s, e);
    case Signal(p, allowed) => ProposeKeeps(cfg, s, p, allowed);
    case Managed(f) => ManageKeeps(cfg, s, f);
    case CancelEntry(reason) =>
      CancelQuiet(cfg, s.now, s.desk, reason);
      QuietDeskKeeps(cfg, s, Cancel(cfg, s.now, s.desk, reason));
    case ExitNow(reason) =>
      RequestExitQuiet(cfg, s.now, s.desk, reason);
      QuietDeskKeeps(cfg, s, RequestExit(cfg, s.now, s.desk, reason));
    case Fault =>
  }
}
