/** The life of one resting maker order: how it is activated, and what a whole run can give it. */
module BrokerMaker {
  import opened Basics
  import opened Market
  import opened Ledger
  import opened BrokerModel
  import opened BrokerFacts
  import opened BrokerQuiet
  import opened BrokerSettlement
  import opened BrokerSteps
  import opened BrokerRuns
  import MakerQueue

  /** An order is activated only without crossing, behind a size displayed at its own price. */
  lemma ActivatedBehindDisplay(now: int, d: Desk, book: BookView)
    requires d.pending.Some? && !d.pending.value.activated
    ensures var o := d.pending.value;
            var t := Activate(now, d, book);
            t.pending.Some? ==>
              && t.pending.value == o.(queue := t.pending.value.queue, activated := true)
              && Sign(o.proposal.side, Touch(book, o.proposal.side.Opposite()) - o.limit) > 0.0
              && exists l :: l in Facing(book, o.proposal.side) && Abs(l.price - o.limit) < 0.000000001
                            && l.qty == t.pending.value.queue
  {
    VisibleIsDisplayed(Facing(book, d.pending.value.proposal.side), d.pending.value.limit);
  }

  lemma {:induction false} VisibleIsDisplayed(levels: seq<Level>, price: real)
    ensures var v := Visible(levels, price);
            v.Some? ==> exists l :: l in levels && Abs(l.price - price) < 0.000000001 && l.qty == v.value
    decreases |levels|
  {
    if levels != [] && Abs(levels[0].price - price) >= 0.000000001 {
      VisibleIsDisplayed(levels[1..], price);
      var v := Visible(levels[1..], price);
      if v.Some? {
        var l :| l in levels[1..] && Abs(l.price - price) < 0.000000001 && l.qty == v.value;
        assert l in levels;
      }
    } else if levels != [] {
      assert levels[0] in levels;
    }
  }

  // ---------------------------------------------------------------- what the log has entered

  /** Quantity of all entry fills of a log. */
  function Entered(log: seq<LogEntry>): real {
    if log == [] then 0.0
    else Entered(log[..|log| - 1]) + if log[|log| - 1].EntryFilled? then log[|log| - 1].qty else 0.0
  }

  lemma EnteredAppend(log: seq<LogEntry>, e: LogEntry)
    ensures Entered(log + [e]) == Entered(log) + if e.EntryFilled? then e.qty else 0.0
  {
    assert (log + [e])[..|log|] == log;
  }

  function EntriesOf(closed: seq<Segment>): real {
    if closed == [] then 0.0 else EntriesOf(closed[..|closed| - 1]) + Quantity(closed[|closed| - 1].entries)
  }

  /** The segmentation fixes what was entered. */
  lemma {:induction false} EnteredIsSplit(log: seq<LogEntry>)
    ensures Entered(log) == EntriesOf(Split(log).closed) + Quantity(Split(log).open.entries)
  {
    hide Balanced;
    if log != [] {
      var n := |log| - 1;
      EnteredIsSplit(log[..n]);
      var sp := Split(log[..n]);
      match log[n]
      case EntryFilled(_, qty, price, fee) => FillsAppend(sp.open.entries, Fill(qty, price, fee));
      case ExitFilled(_, qty, price, fee, _) =>
        var open := sp.open.(exits := sp.open.exits + [Fill(qty, price, fee)]);
        assert (sp.closed + [open])[..|sp.closed|] == sp.closed;
      case _ =>
    }
  }

  // ---------------------------------------------------------------- one step

  function Standing(o: Order): MakerQueue.Resting {
    MakerQueue.Resting(o.queue, o.remaining)
  }

  /** The account has entered this much more on the order, which is gone or rests as r. */
  ghost predicate Gains(d: Desk, e: Desk, r: MakerQueue.Resting, fill: real) {
    && Entered(e.events) == Entered(d.events) + fill
    && (e.pending.Some? ==>
          && d.pending.Some?
          && e.pending.value == d.pending.value.(cancelAt := e.pending.value.cancelAt, queue := r.queue,
                                                 remaining := r.remaining))
  }

  /** Nothing entered, and the order is gone or stands. */
  ghost predicate Idle(d: Desk, e: Desk) {
    Entered(e.events) == Entered(d.events) && OrderStands(d, e)
  }

  ghost predicate Resting(d: Desk) {
    d.pending.Some? ==> d.pending.value.proposal.passive && d.pending.value.activated && d.pending.value.queue >= 0.0
  }

  lemma QuietIdle(d: Desk, e: Desk)
    requires Quiet(d, e) && OrderStands(d, e)
    ensures Idle(d, e)
  {
    hide Split, Entered, OrderStands;
    EnteredIsSplit(d.events);
    EnteredIsSplit(e.events);
  }

  lemma IdleAround(a: Desk, d: Desk, e: Desk, z: Desk, r: MakerQueue.Resting, fill: real)
    requires Idle(a, d) && Gains(d, e, r, fill) && Idle(e, z)
    ensures Gains(a, z, r, fill)
  {
    hide Entered;
  }

  lemma ClosingIdle(cfg: Config, s: State)
    requires Inv(cfg, s)
    ensures Idle(s.desk, Circuit(cfg, Maintenance(cfg, s)).desk)
  {
    hide Maintenance, Circuit, Quiet, OrderStands, DeskInv, Entered;
    InvOrdered(cfg, s);
    MaintenanceQuiet(cfg, s);
    var s1 := Maintenance(cfg, s);
    CircuitQuiet(cfg, s1);
    QuietIdle(s.desk, s1.desk);
    QuietIdle(s1.desk, Circuit(cfg, s1).desk);
    IdleChain(s.desk, s1.desk, Circuit(cfg, s1).desk);
  }

  lemma IdleChain(d: Desk, e: Desk, f: Desk)
    requires Idle(d, e) && Idle(e, f)
    ensures Idle(d, f)
  {
    hide Entered;
  }

  lemma SettlementIdle(s: State, time: int, rate: real, mark: real)
    ensures Idle(s.desk, ApplyFunding(s, time, rate, mark).0.desk)
  {
    hide Charged, FundingCost, ExposureAt, OwnerIndex, Entered, Tied;
    EnteredAppend(s.desk.events, Noted(s.now, ConflictingFunding));
    EnteredAppend(s.desk.events, Noted(s.now, FundingTie));
    var exposure := if time in s.funding.obligations then Some(s.funding.obligations[time])
                    else ExposureAt(s.desk.history, time);
    if exposure.Some? {
      var receipt := FundingPaid(s.now, FundingCost(exposure.value, rate, mark), exposure.value.id, time);
      EnteredAppend(s.desk.events, receipt);
      EnteredAppend(s.desk.events + [Noted(s.now, FundingTie)], receipt);
    }
  }

  lemma GapIdle(cfg: Config, s: State)
    requires Inv(cfg, s)
    ensures Idle(s.desk, LoseBook(cfg, s).desk)
  {
    hide Cancel, RequestExit, Quiet, DeskInv, Entered;
    InvOrdered(cfg, s);
    CancelQuiet(cfg, s.now, s.desk, DataGap);
    var d := Cancel(cfg, s.now, s.desk, DataGap);
    RequestExitQuiet(cfg, s.now, d, DataGap);
    QuietIdle(s.desk, d);
    QuietIdle(d, RequestExit(cfg, s.now, d, DataGap));
  }

  lemma {:induction false} ExitsEnterNothing(cfg: Config, now: int, d: Desk, f: Feed, levels: seq<Level>)
    requires d.pending.None?
    ensures var e := ExitLevels(cfg, now, d, f, levels).0; e.pending.None? && Entered(e.events) == Entered(d.events)
    decreases |levels|
  {
    hide FeeOf, Gain, Slipped, Entered;
    if levels != [] && d.position.Some? && d.exitOrder.Some? {
      var (d1, f1) := ExitLevel(cfg, now, d, f, levels[0]);
      if d1.events != d.events {
        EnteredAppend(d.events, d1.events[|d.events|]);
      }
      ExitsEnterNothing(cfg, now, d1, f1, levels[1..]);
    }
  }

  /** A resting order is left alone by books: it is executed only by prints. */
  lemma BookIdle(cfg: Config, now: int, d: Desk, f: Feed)
    requires Ordered(cfg, now, d) && Resting(d) && (d.pending.Some? ==> f.instrument.Some?)
    ensures Idle(d, ExecuteBook(cfg, now, d, f).0)
  {
    hide ExitLevels, EntryLevels, Activate, Entered;
    if Fresh(cfg, now, f) && ExitDue(now, d, f.time) {
      ExitsEnterNothing(cfg, now, d.(exitOrder := Some(d.exitOrder.value.(lastBook := f.serial))), f,
                        Facing(f.book.value, d.position.value.side));
    }
  }

  /** A print gives the order its fill and moves the queue. */
  lemma PrintGains(cfg: Config, now: int, d: Desk, step: Positive, qty: Positive)
    requires d.pending.Some? && d.pending.value.remaining >= 0.0 && d.pending.value.queue >= 0.0
    ensures var r := Standing(d.pending.value);
            Gains(d, MakerPrint(cfg, now, d, step, qty), MakerQueue.Next(r, qty, cfg.participation, step),
                  MakerQueue.Fill(r, qty, cfg.participation, step))
  {
    hide FeeOf, Averaged, Entered, RoundDown;
    var o := d.pending.value;
    var r := Standing(o);
    MakerQueue.FillStep(r, qty, cfg.participation, step);
    var fill := MakerQueue.Fill(r, qty, cfg.participation, step);
    hide MakerQueue.Fill;
    EnteredAppend(d.events, EntryFilled(now, fill, o.limit, FeeOf(fill, o.limit, cfg.makerFee)));
  }

  lemma StandsGains(d: Desk, e: Desk)
    requires d.pending.Some? && Idle(d, e)
    ensures Gains(d, e, Standing(d.pending.value), 0.0)
  {
    hide Entered;
  }

  /** An eligible print of the venue, once the clock and the order's deadline are up to date. */
  predicate Reaches(cfg: Config, s: State, e: Event) {
    && s.desk.pending.Some? && e.data.Print?
    && Eligible(cfg, s.now, s.desk.pending.value, s.feed, e.occurred, e.data.side, e.data.price)
  }

  /** What reaches no resting order enters nothing. */
  lemma DispatchIdle(cfg: Config, s: State, e: Event)
    requires Inv(cfg, s) && Resting(s.desk) && !Reaches(cfg, s, e)
    ensures Sane(s) && Idle(s.desk, Dispatch(cfg, s, e).0.desk)
  {
    hide DeskInv, Funded, DepthExact, Eligible, ApplyFunding, LoseBook, ExecuteBook, MakerPrint, Idle, Resting;
    StayInv(cfg, s);
    InvOrdered(cfg, s);
    StaysIdle(s.desk);
    match e.data
    case Settlement(rate, mark) => SettlementIdle(s, e.occurred, rate, mark);
    case Gap => GapIdle(cfg, s);
    case Book(book) => BookIdle(cfg, s.now, s.desk, AcceptBook(s.now, s.feed, book));
    case _ =>
  }

  /** What reaches it gives it the print's fill. */
  lemma ReachingGains(cfg: Config, s: State, e: Event)
    requires Inv(cfg, s) && Resting(s.desk) && Reaches(cfg, s, e)
    ensures Sane(s) && s.feed.instrument.Some?
    ensures var r, step := Standing(s.desk.pending.value), s.feed.instrument.value.step;
            Gains(s.desk, Dispatch(cfg, s, e).0.desk, MakerQueue.Next(r, e.data.qty, cfg.participation, step),
                  MakerQueue.Fill(r, e.data.qty, cfg.participation, step))
  {
    hide DeskInv, Funded, DepthExact, Eligible, MakerPrint, Gains, MakerQueue.Next, MakerQueue.Fill;
    StayInv(cfg, s);
    RemainingSound(cfg, s);
    PrintGains(cfg, s.now, s.desk, s.feed.instrument.value.step, e.data.qty);
  }

  lemma StaysIdle(d: Desk)
    ensures Idle(d, d)
  {
  }

  lemma RemainingSound(cfg: Config, s: State)
    requires Inv(cfg, s)
    ensures s.desk.pending.Some? ==> s.desk.pending.value.remaining >= 0.0
  {
  }

  // ---------------------------------------------------------------- one input

  /** Volume of the print that this input brings to the resting order; zero for anything else. */
  function Reached(cfg: Config, s: State, input: Input): (qty: real)
    ensures qty >= 0.0
  {
    if !input.Arrival? || input.event.received < s.now || input.event.source != cfg.venue then 0.0
    else if Reaches(cfg, Arrive(cfg, s, input.event.received), input.event) then input.event.data.qty
    else 0.0
  }

  /** How the order rests after volume reaches it, and what that volume gives it; no volume, no change. */
  function NextOf(cfg: Config, r: MakerQueue.Resting, qty: real, step: Positive): MakerQueue.Resting {
    if qty > 0.0 then MakerQueue.Next(r, qty, cfg.participation, step) else r
  }

  function FillOf(cfg: Config, r: MakerQueue.Resting, qty: real, step: Positive): real {
    if qty > 0.0 then MakerQueue.Fill(r, qty, cfg.participation, step) else 0.0
  }

  lemma ArriveIdle(cfg: Config, s: State, received: int)
    requires Inv(cfg, s) && s.now <= received
    ensures Idle(s.desk, Arrive(cfg, s, received).desk)
  {
    hide ExpirePending, Quiet, OrderStands, DeskInv, Entered;
    InvOrdered(cfg, s);
    ExpireQuiet(cfg, s.now, received, s.desk);
    QuietIdle(s.desk, ExpirePending(cfg, received, s.desk));
  }

  lemma StillResting(d: Desk, e: Desk)
    requires Resting(d) && Idle(d, e)
    ensures Resting(e)
  {
    hide Entered;
  }

  lemma StillStanding(d: Desk, e: Desk)
    requires d.pending.Some? && e.pending.Some? && Idle(d, e)
    ensures Standing(e.pending.value) == Standing(d.pending.value)
  {
    hide Entered;
  }

  lemma EventGains(cfg: Config, s: State, e: Event)
    requires Inv(cfg, s) && s.desk.pending.Some? && Resting(s.desk)
    ensures Sane(s) && s.feed.instrument.Some?
    ensures var r, step := Standing(s.desk.pending.value), s.feed.instrument.value.step;
            var qty := Reached(cfg, s, Arrival(e));
            Gains(s.desk, OnEvent(cfg, s, e).0.desk, NextOf(cfg, r, qty, step), FillOf(cfg, r, qty, step))
  {
    hide Inv, Eligible, Dispatch, Maintenance, Circuit, MakerQueue.Next, MakerQueue.Fill, Gains, Idle, Onward, Resting,
         ExpirePending, CaptureFunding;
    StayInv(cfg, s);
    StaysIdle(s.desk);
    RemainingSound(cfg, s);
    var t := OnEvent(cfg, s, e).0;
    if e.received < s.now {
      StandsGains(s.desk, t.desk);
    } else {
      var s1 := Arrive(cfg, s, e.received);
      ArriveKeeps(cfg, s, e.received);
      ArriveIdle(cfg, s, e.received);
      StayInv(cfg, s1);
      StillResting(s.desk, s1.desk);
      var s2 := if e.source != cfg.venue then s1 else Dispatch(cfg, s1, e).0;
      DispatchKeeps(cfg, s1, e);
      ClosingIdle(cfg, s2);
      StaysIdle(s2.desk);
      if e.source == cfg.venue && Reaches(cfg, s1, e) {
        ReachingGains(cfg, s1, e);
        StillStanding(s.desk, s1.desk);
        var r := Standing(s.desk.pending.value);
        var step := s.feed.instrument.value.step;
        IdleAround(s.desk, s1.desk, s2.desk, t.desk, NextOf(cfg, r, e.data.qty, step), FillOf(cfg, r, e.data.qty, step));
      } else {
        if e.source == cfg.venue {
          DispatchIdle(cfg, s1, e);
          IdleChain(s.desk, s1.desk, s2.desk);
        }
        IdleChain(s.desk, s2.desk, t.desk);
        StandsGains(s.desk, t.desk);
      }
    }
  }

  /** While an order is pending a proposal only steers the position, if it does anything. */
  lemma ProposalIdle(cfg: Config, s: State, p: Proposal, allowed: bool)
    requires Inv(cfg, s) && s.desk.pending.Some?
    ensures Sane(s) && Idle(s.desk, Propose(cfg, s, p, allowed).0.desk)
  {
    hide Redirect, Submit, DeskInv, Funded, DepthExact, Onward, Ordered, Entered, Quiet, Fresh;
    StayInv(cfg, s);
    StaysIdle(s.desk);
    var d := Record(s.now, s.desk, ProposalSeen(p.family, p.side));
    NoteKeeps(cfg, s, ProposalSeen(p.family, p.side));
    InvOrdered(cfg, s.(desk := d));
    NotedIdle(s.now, s.desk, ProposalSeen(p.family, p.side));
    if d.position.Some? {
      RedirectQuiet(cfg, s.now, d, p, allowed);
      QuietIdle(d, Redirect(cfg, s.now, d, p, allowed));
    } else {
      NotedIdle(s.now, d, ObserveOnly);
      NotedIdle(s.now, d, NotCalibrated);
    }
  }

  lemma NotedIdle(now: int, d: Desk, note: Note)
    ensures Idle(d, Record(now, d, note))
  {
    EnteredAppend(d.events, Noted(now, note));
    hide Entered;
  }

  /** One input, whatever it is: the order gets the fill of a print that reaches it, and otherwise nothing. */
  lemma StepGains(cfg: Config, s: State, input: Input)
    requires Inv(cfg, s) && s.desk.pending.Some? && Resting(s.desk)
    ensures Sane(s) && s.feed.instrument.Some?
    ensures var r, step := Standing(s.desk.pending.value), s.feed.instrument.value.step;
            var qty := Reached(cfg, s, input);
            Gains(s.desk, Step(cfg, s, input).desk, NextOf(cfg, r, qty, step), FillOf(cfg, r, qty, step))
  {
    hide OnEvent, Propose, ManageFrame, Cancel, RequestExit, DeskInv, Funded, DepthExact, Idle, Gains, Resting, Quiet,
         OrderStands, Ordered, Reaches, MakerQueue.Next, MakerQueue.Fill;
    StayInv(cfg, s);
    InvOrdered(cfg, s);
    StaysIdle(s.desk);
    var t := Step(cfg, s, input);
    match input
    case Arrival(e) => EventGains(cfg, s, e);
    case Signal(p, allowed) =>
      ProposalIdle(cfg, s, p, allowed);
      StandsGains(s.desk, t.desk);
    case Managed(f) =>
      ManageQuiet(cfg, s.now, s.desk, f);
      QuietIdle(s.desk, t.desk);
      StandsGains(s.desk, t.desk);
    case CancelEntry(reason) =>
      CancelQuiet(cfg, s.now, s.desk, reason);
      QuietIdle(s.desk, t.desk);
      StandsGains(s.desk, t.desk);
    case ExitNow(reason) =>
      RequestExitQuiet(cfg, s.now, s.desk, reason);
      QuietIdle(s.desk, t.desk);
      StandsGains(s.desk, t.desk);
    case Fault => StandsGains(s.desk, t.desk);
  }

  /** Only contract data of the venue changes the quantity step. */
  lemma StepContract(cfg: Config, s: State, input: Input)
    requires Inv(cfg, s)
    ensures Sane(s)
    ensures !(input.Arrival? && input.event.data.ContractData?) ==>
              Step(cfg, s, input).feed.instrument == s.feed.instrument
  {
    hide OnEvent, Propose, DeskInv, Funded, DepthExact;
    StayInv(cfg, s);
    match input
    case Arrival(e) =>
      if !e.data.ContractData? {
        EventContract(cfg, s, e);
      }
    case Signal(p, allowed) => ProposalContract(cfg, s, p, allowed);
    case _ =>
  }

  lemma ProposalContract(cfg: Config, s: State, p: Proposal, allowed: bool)
    requires Sane(s)
    ensures Propose(cfg, s, p, allowed).0.feed == s.feed
  {
    hide Redirect, PassesCostGate, OrderSize, RiskBudget, TooSmall, LimitPrice, Fresh;
  }

  lemma EventContract(cfg: Config, s: State, e: Event)
    requires Inv(cfg, s) && !e.data.ContractData?
    ensures Sane(s) && OnEvent(cfg, s, e).0.feed.instrument == s.feed.instrument
  {
    hide DeskInv, Funded, DepthExact, Onward, Dispatch, Maintenance, Circuit, ExpirePending, CaptureFunding, Quiet,
         OrderStands, Ordered;
    StayInv(cfg, s);
    if e.received >= s.now {
      var s1 := Arrive(cfg, s, e.received);
      ArriveKeeps(cfg, s, e.received);
      DispatchKeeps(cfg, s1, e);
      DispatchContract(cfg, s1, e);
      var s2 := if e.source == cfg.venue then Dispatch(cfg, s1, e).0 else s1;
      InvOrdered(cfg, s2);
      MaintenanceQuiet(cfg, s2);
      CircuitQuiet(cfg, Maintenance(cfg, s2));
    }
  }

  lemma DispatchContract(cfg: Config, s: State, e: Event)
    requires Inv(cfg, s) && !e.data.ContractData?
    ensures Sane(s) && Dispatch(cfg, s, e).0.feed.instrument == s.feed.instrument
  {
    hide DeskInv, Funded, DepthExact, Onward, Eligible, ApplyFunding, ExecuteBook, MakerPrint, Cancel, RequestExit,
         Refreshed, ShownMore, Sizes;
    StayInv(cfg, s);
    match e.data
    case Settlement(rate, mark) => ApplyFundingKeeps(cfg, s, e.occurred, rate, mark);
    case Book(book) =>
      AcceptBookExact(s.now, s.feed, book);
      ExecuteBookKeeps(cfg, s.now, s.desk, AcceptBook(s.now, s.feed, book), s.funding);
    case _ =>
  }

  // ---------------------------------------------------------------- every run

  /** What the account enters while the order is pending. */
  ghost function OrderGets(cfg: Config, s: State, inputs: seq<Input>): real
    requires Inv(cfg, s)
    decreases |inputs|
  {
    if inputs == [] || s.desk.pending.None? then 0.0
    else
      StepKeeps(cfg, s, inputs[0]);
      var t := Step(cfg, s, inputs[0]);
      Entered(t.desk.events) - Entered(s.desk.events) + OrderGets(cfg, t, inputs[1..])
  }

  /** Volume of the prints that reach it meanwhile. */
  ghost function VolumeReaching(cfg: Config, s: State, inputs: seq<Input>): (volume: real)
    requires Inv(cfg, s)
    ensures volume >= 0.0
    decreases |inputs|
  {
    if inputs == [] || s.desk.pending.None? then 0.0
    else
      StepKeeps(cfg, s, inputs[0]);
      Reached(cfg, s, inputs[0]) + VolumeReaching(cfg, Step(cfg, s, inputs[0]), inputs[1..])
  }

  /** No new contract data. */
  predicate SameContract(inputs: seq<Input>) {
    forall i | 0 <= i < |inputs| :: !(inputs[i].Arrival? && inputs[i].event.data.ContractData?)
  }

  /** A first fill beyond the queue, and more behind what is left of it. */
  lemma QueueFirst(first: real, qty: real, rest: real, volume: real, queue: real)
    requires qty >= 0.0 && volume >= 0.0 && queue >= 0.0
    requires first <= Max(0.0, qty - queue) && rest <= Max(0.0, volume - Max(0.0, queue - qty))
    ensures first + rest <= Max(0.0, qty + volume - queue)
  {
  }

  /** One fill: within the remainder, the share and the volume past the queue. */
  lemma FirstFill(cfg: Config, r: MakerQueue.Resting, qty: Size, step: Positive)
    requires r.queue >= 0.0 && r.remaining >= 0.0
    ensures var fill, next := FillOf(cfg, r, qty, step), NextOf(cfg, r, qty, step);
            && 0.0 <= fill <= r.remaining && fill <= MakerQueue.Share(qty, cfg.participation)
            && fill <= Max(0.0, qty - r.queue) && Whole(fill, step)
            && next.remaining == r.remaining - fill && next.queue == Max(0.0, r.queue - qty)
  {
    hide MakerQueue.Fill, MakerQueue.Share, Whole;
    MakerQueue.NothingFilled(cfg.participation, step);
    if qty > 0.0 {
      MakerQueue.FillStep(r, qty, cfg.participation, step);
    }
  }

  /**
   From any reachable state with an activated passive order behind Q, whatever inputs come, the order gets at most
   its remainder, its share of the eligible volume V, and V less Q; in whole steps while the contract stands.
   */
  lemma {:induction false} MakerOrderBounded(cfg: Config, s: State, inputs: seq<Input>)
    requires Inv(cfg, s) && Resting(s.desk)
    ensures s.desk.pending.Some? ==>
              var o := s.desk.pending.value;
              var got, volume := OrderGets(cfg, s, inputs), VolumeReaching(cfg, s, inputs);
              && s.feed.instrument.Some?
              && 0.0 <= got <= o.remaining && got <= MakerQueue.Share(volume, cfg.participation)
              && got <= Max(0.0, volume - o.queue)
              && (SameContract(inputs) ==> Whole(got, s.feed.instrument.value.step))
    decreases |inputs|
  {
    hide DeskInv, Funded, DepthExact, Step, Reached, Entered, MakerQueue.Share, Whole, NextOf, FillOf;
    if s.desk.pending.Some? {
      RemainingSound(cfg, s);
      var step := s.feed.instrument.value.step;
      MakerQueue.NothingFilled(cfg.participation, step);
      if inputs != [] {
        StepKeeps(cfg, s, inputs[0]);
        StepGains(cfg, s, inputs[0]);
        StepContract(cfg, s, inputs[0]);
        var t := Step(cfg, s, inputs[0]);
        var r, qty := Standing(s.desk.pending.value), Reached(cfg, s, inputs[0]);
        FirstFill(cfg, r, qty, step);
        MakerOrderBounded(cfg, t, inputs[1..]);
        var got, volume := OrderGets(cfg, t, inputs[1..]), VolumeReaching(cfg, t, inputs[1..]);
        MakerQueue.ShareAdds(qty, volume, cfg.participation);
        QueueFirst(FillOf(cfg, r, qty, step), qty, got, volume, r.queue);
        if SameContract(inputs) {
          MakerQueue.WholeSum(FillOf(cfg, r, qty, step), got, step);
        }
      }
    }
  }
}
