/** What holds of every run of the paper account, from any inputs in any order. */
module BrokerTheorems {
  import opened Basics
  import opened Market
  import opened Ledger
  import opened BrokerModel
  import opened BrokerFacts
  import opened BrokerQuiet
  import opened BrokerFunding
  import opened BrokerSettlement
  import opened BrokerOnward
  import opened BrokerRuns

  /** The state after a list of inputs. */
  ghost function RunFrom(cfg: Config, s: State, inputs: seq<Input>): State
    requires Inv(cfg, s)
    decreases |inputs|
  {
    if inputs == [] then s
    else
      StepKeeps(cfg, s, inputs[0]);
      RunFrom(cfg, Step(cfg, s, inputs[0]), inputs[1..])
  }

  ghost function Run(cfg: Config, inputs: seq<Input>): State {
    InitInv(cfg);
    RunFrom(cfg, Init(cfg), inputs)
  }

  /** The invariant holds at the end of every run, and the account has only moved onward. */
  lemma {:induction false} RunFromKeeps(cfg: Config, s: State, inputs: seq<Input>)
    requires Inv(cfg, s)
    ensures var t := RunFrom(cfg, s, inputs); Inv(cfg, t) && Onward(s.now, s.desk, t.desk) && s.now <= t.now
    decreases |inputs|
  {
    hide Step, DeskInv, Funded, DepthExact, Onward, Sane;
    StayInv(cfg, s);
    if inputs != [] {
      StepKeeps(cfg, s, inputs[0]);
      var s1 := Step(cfg, s, inputs[0]);
      RunFromKeeps(cfg, s1, inputs[1..]);
      OnwardChain(s.now, s1.now, s.desk, s1.desk, RunFrom(cfg, s1, inputs[1..]).desk);
    }
  }

  lemma EveryRunKeeps(cfg: Config, inputs: seq<Input>)
    ensures Inv(cfg, Run(cfg, inputs))
  {
    InitInv(cfg);
    RunFromKeeps(cfg, Init(cfg), inputs);
    hide Inv, Onward;
  }

  // ---------------------------------------------------------------- order of fills

  /** All entries of a position precede all its exits; a closed position never trades again. */
  lemma ExposureRisesThenFalls(cfg: Config, inputs: seq<Input>)
    ensures Waves(Run(cfg, inputs).desk.history)
    ensures var d := Run(cfg, inputs).desk;
            d.history != [] ==>
              d.history[|d.history| - 1].qty == if d.position.Some? then d.position.value.qty else 0.0
  {
    EveryRunKeeps(cfg, inputs);
    hide Waves, Funded, DepthExact;
  }

  /** When an exit can fill, no entry order is left that could fill after it. */
  lemma LiveExitMeetsNoEntry(cfg: Config, inputs: seq<Input>, received: int)
    requires received >= Run(cfg, inputs).now
    ensures var s := Arrive(cfg, Run(cfg, inputs), received);
            s.desk.exitOrder.Some? && received >= s.desk.exitOrder.value.active ==> s.desk.pending.None?
  {
    EveryRunKeeps(cfg, inputs);
    ArriveKeeps(cfg, Run(cfg, inputs), received);
    hide Arrive, Tracked, CashExact, Booked, RiskBounded, Funded, DepthExact;
  }

  // ---------------------------------------------------------------- books

  function ReportOf(cfg: Config, s: State, complete: bool): Report {
    Report(s.desk.events, s.desk.trades, cfg.capital, s.desk.cash, |s.desk.trades|, complete)
  }

  /** report never finds an unreconciled ledger. */
  lemma CashReconciles(cfg: Config, inputs: seq<Input>)
    ensures var s := Run(cfg, inputs); s.desk.cash == cfg.capital + SumNet(s.desk.trades) + OpenNet(s.desk)
    ensures forall t | t in Run(cfg, inputs).desk.trades :: t.net == t.gross - t.fees - t.funding
  {
    EveryRunKeeps(cfg, inputs);
    hide Run, Waves, Funded, DepthExact;
    var d := Run(cfg, inputs).desk;
    forall i | 0 <= i < |d.trades|
      ensures d.trades[i].net == d.trades[i].gross - d.trades[i].fees - d.trades[i].funding
    {
      assert Matches(Split(d.events).closed[i], d.trades[i]);
    }
  }

  /** The independent audit accepts every run, and finds loose entry fills exactly when a position is open. */
  lemma AuditAcceptsEveryRun(cfg: Config, inputs: seq<Input>, complete: bool)
    requires complete ==> Run(cfg, inputs).desk.position.None?
    ensures var s := Run(cfg, inputs);
            && Reconciles(ReportOf(cfg, s, complete))
            && (Split(s.desk.events).open.entries != [] <==> s.desk.position.Some?)
  {
    EveryRunKeeps(cfg, inputs);
    hide Run, Waves, Funded, DepthExact;
    var d := Run(cfg, inputs).desk;
    var closed := Split(d.events).closed;
    forall i | 0 <= i < |closed|
      ensures Agrees(closed[i], d.trades[i])
    {
      assert Matches(closed[i], d.trades[i]);
    }
    assert d.trades[..|closed|] == d.trades;
  }

  /** Each closed trade's gross is the signed difference of its own cashflows. */
  lemma GrossIsCashflow(cfg: Config, inputs: seq<Input>, i: nat)
    requires i < |Run(cfg, inputs).desk.trades|
    ensures var d := Run(cfg, inputs).desk;
            i < |Split(d.events).closed| &&
            var g, t := Split(d.events).closed[i], d.trades[i];
            && t.gross == Sign(t.side, Notional(g.exits) - Notional(g.entries))
            && Quantity(g.entries) == Quantity(g.exits) == t.quantity
            && t.fees == Fees(g.entries) + Fees(g.exits)
  {
    EveryRunKeeps(cfg, inputs);
    hide Run, Waves, Funded, DepthExact;
    var d := Run(cfg, inputs).desk;
    assert Matches(Split(d.events).closed[i], d.trades[i]);
  }

  // ---------------------------------------------------------------- funding

  /** Each position has paid exactly its settlements, and what is unresolved is what was owed and not seen. */
  lemma FundingExact(cfg: Config, inputs: seq<Input>, id: int)
    ensures var s := Run(cfg, inputs);
            && s.funding.seen == s.funding.values.Keys
            && s.funding.unresolved == s.funding.obligations.Keys - s.funding.seen
            && (1 <= id <= s.desk.serial ==>
                  FundingOf(s.desk, id) == SumDue(s.funding.seen, s.funding.values, s.desk.history, id))
            && (forall t | t in s.funding.obligations ::
                  ExposureAt(s.desk.history, t) == Some(s.funding.obligations[t]))
  {
    EveryRunKeeps(cfg, inputs);
    hide Run, DeskInv, DepthExact, SumDue, FundingOf, ExposureAt;
    var s := Run(cfg, inputs);
    if 1 <= id <= s.desk.serial {
      assert FundingOf(s.desk, id) == SumDue(s.funding.seen, s.funding.values, s.desk.history, id);
    }
  }

  /** Once the clock has reached a settlement nothing that follows changes the exposure charged for it. */
  lemma ExposureFixed(cfg: Config, s: State, inputs: seq<Input>, time: int)
    requires Inv(cfg, s) && time <= s.now
    ensures ExposureAt(RunFrom(cfg, s, inputs).desk.history, time) == ExposureAt(s.desk.history, time)
  {
    RunFromKeeps(cfg, s, inputs);
    hide RunFrom, DeskInv, Funded, DepthExact, ExposureAt;
    ExtensionFixes(s.desk.history, RunFrom(cfg, s, inputs).desk.history, s.now, time);
  }

  lemma {:induction false} ExtensionFixes(h: seq<Mark>, g: seq<Mark>, now: int, time: int)
    requires Extends(h, g, now) && time <= now
    ensures ExposureAt(g, time) == ExposureAt(h, time)
    decreases |g|
  {
    hide ExposureAt;
    if |g| > |h| {
      var n := |g| - 1;
      assert g[..n][..|h|] == g[..|h|];
      ExtensionFixes(h, g[..n], now, time);
      ExposureStable(g[..n], g[n], time);
      assert g[..n] + [g[n]] == g;
    } else {
      assert g[..|h|] == g;
    }
  }

  /** Two runs with the same fills and the same settlements charge the same, however late each arrived. */
  lemma FundingIgnoresArrival(cfg: Config, a: seq<Input>, b: seq<Input>, id: int)
    requires Run(cfg, a).desk.history == Run(cfg, b).desk.history
    requires Run(cfg, a).funding.values == Run(cfg, b).funding.values
    requires 1 <= id <= Run(cfg, a).desk.serial && 1 <= id <= Run(cfg, b).desk.serial
    ensures FundingOf(Run(cfg, a).desk, id) == FundingOf(Run(cfg, b).desk, id)
  {
    FundingExact(cfg, a, id);
    FundingExact(cfg, b, id);
    hide Run, FundingOf, SumDue;
  }

  /** A settlement already applied moves no cash again, and none is ever charged to nobody. */
  lemma FundingChargedOnce(cfg: Config, inputs: seq<Input>, time: int, rate: real, mark: real)
    ensures var s := Run(cfg, inputs);
            && (time in s.funding.values ==> ApplyFunding(s, time, rate, mark).0.desk.cash == s.desk.cash)
            && !ApplyFunding(s, time, rate, mark).1.OrphanFunding?
  {
    EveryRunKeeps(cfg, inputs);
    var s := Run(cfg, inputs);
    ApplyFundingKeeps(cfg, s, time, rate, mark);
    hide Run, DeskInv, Funded, DepthExact, ChargeFunding, FundingCost, ExposureAt;
  }

  // ---------------------------------------------------------------- risk

  /**
   If all that was filled left at the stop it was sized for, and so also at the current one, the loss and what the
   order may still add fit the budget.
   */
  lemma LossWithinBudget(cfg: Config, inputs: seq<Input>)
    ensures var d := Run(cfg, inputs).desk;
            && (d.position.Some? && RiskSafe(cfg, d.position.value.side) ==>
                  var entries, planned := Split(d.events).open.entries, d.position.value.planned;
                  && StopLoss(cfg, d.position.value.side, entries, planned) + Committed(cfg, d)
                     <= d.position.value.riskBudget
                  && StopLoss(cfg, d.position.value.side, entries, d.position.value.stop) + Committed(cfg, d)
                     <= d.position.value.riskBudget)
            && (d.position.Some? && d.pending.Some? ==>
                  d.position.value.planned == d.pending.value.proposal.stop)
            && (d.position.None? && d.pending.Some? ==> Committed(cfg, d) <= d.pending.value.riskBudget)
  {
    hide Run, Tracked, CashExact, Booked, Funded, DepthExact, StopLoss, Committed, Split;
    EveryRunKeeps(cfg, inputs);
    var d := Run(cfg, inputs).desk;
    if d.position.Some? {
      var entries := Split(d.events).open.entries;
      OpenEntriesPositive(cfg, Run(cfg, inputs));
      TighterLosesLess(cfg, d.position.value.side, entries, d.position.value.planned, d.position.value.stop);
    }
  }

  lemma OpenEntriesPositive(cfg: Config, s: State)
    requires Inv(cfg, s) && s.desk.position.Some?
    ensures Quantity(Split(s.desk.events).open.entries) >= 0.0
  {
    hide Split, Quantity, Notional, Fees, Tracked, CashExact, RiskBounded, Funded, DepthExact;
  }

  /** While a position lives its stop only tightens, and an exit once requested is never withdrawn. */
  lemma ProtectionOnlyGrows(cfg: Config, s: State, inputs: seq<Input>)
    requires Inv(cfg, s) && s.desk.position.Some?
    ensures var t := RunFrom(cfg, s, inputs);
            t.desk.position.Some? && t.desk.position.value.id == s.desk.position.value.id ==>
              && Sign(s.desk.position.value.side, t.desk.position.value.stop - s.desk.position.value.stop) >= 0.0
              && t.desk.position.value.side == s.desk.position.value.side
              && t.desk.position.value.planned == s.desk.position.value.planned
              && SameExit(s.desk, t.desk)
  {
    hide RunFrom, Inv, Extends;
    RunFromKeeps(cfg, s, inputs);
  }

  // ---------------------------------------------------------------- depth

  /** No displayed size is used twice, whatever repeats, and nothing is available that is not displayed. */
  lemma LiquidityTakenOnce(cfg: Config, inputs: seq<Input>, k: DepthKey)
    ensures var f := Run(cfg, inputs).feed;
            && 0.0 <= At(f.available, k) <= At(f.size, k)
            && At(f.taken, k) + At(f.available, k) <= At(f.shown, k)
  {
    EveryRunKeeps(cfg, inputs);
    hide Run, DeskInv, Funded;
  }

  // ---------------------------------------------------------------- protection

  /** A position the account may not simply keep. */
  ghost predicate MustLeave(cfg: Config, s: State)
    requires s.desk.position.Some?
  {
    || s.guard.halted || s.guard.dayHalted
    || !Fresh(cfg, s.now, s.feed)
    || StopBreached(s.desk.position.value, s.feed.book.value)
    || TargetReached(s.desk.position.value, s.feed.book.value)
    || s.now >= s.desk.position.value.expires
    || OverExposed(cfg, s.desk, s.feed.book.value)
    || Overdue(s.now, s.funding)
  }

  lemma MaintenanceProtects(cfg: Config, s: State)
    ensures var t := Maintenance(cfg, s);
            t.desk.position.Some? && t.desk.exitOrder.None? ==>
              && Fresh(cfg, t.now, t.feed)
              && !StopBreached(t.desk.position.value, t.feed.book.value)
              && !TargetReached(t.desk.position.value, t.feed.book.value)
              && t.now < t.desk.position.value.expires
              && !OverExposed(cfg, t.desk, t.feed.book.value) && !Overdue(t.now, t.funding)
  {
    hide OpenValue, Touch;
  }

  lemma CircuitProtects(cfg: Config, s: State)
    requires s.desk.position.Some? && !Fresh(cfg, s.now, s.feed) ==> s.desk.exitOrder.Some?
    requires s.desk.exitOrder.Some? && s.desk.pending.Some? ==> s.desk.pending.value.cancelAt.Some?
    ensures var t := Circuit(cfg, s);
            && (t.desk.exitOrder.None? ==> s.desk.exitOrder.None?)
            && (t.guard.halted || t.guard.dayHalted ==>
                  && (t.desk.position.Some? ==> t.desk.exitOrder.Some?)
                  && (t.desk.pending.Some? ==> t.desk.pending.value.cancelAt.Some?))
  {
    hide OpenValue, Drawdown;
  }

  /** After every processed event a position that must leave has an exit order, and a halt cancels entries. */
  lemma ProtectedAfterEvent(cfg: Config, s: State, e: Event)
    requires Inv(cfg, s)
    ensures Sane(s)
    ensures var (t, outcome) := OnEvent(cfg, s, e);
            outcome.Done? ==>
              && (t.desk.position.Some? && MustLeave(cfg, t) ==> t.desk.exitOrder.Some?)
              && (t.desk.pending.Some? && (t.guard.halted || t.guard.dayHalted) ==>
                    t.desk.pending.value.cancelAt.Some?)
  {
    hide DeskInv, Funded, DepthExact, Onward, Dispatch, Arrive;
    StayInv(cfg, s);
    if e.received >= s.now {
      ArriveKeeps(cfg, s, e.received);
      var s1 := Arrive(cfg, s, e.received);
      ChecksProtect(cfg, s1);
      DispatchKeeps(cfg, s1, e);
      ChecksProtect(cfg, Dispatch(cfg, s1, e).0);
    }
    hide Maintenance, Circuit, Fresh, StopBreached, TargetReached, OverExposed;
  }

  lemma ChecksProtect(cfg: Config, s: State)
    requires Inv(cfg, s)
    ensures var t := Circuit(cfg, Maintenance(cfg, s));
            && (t.desk.position.Some? && MustLeave(cfg, t) ==> t.desk.exitOrder.Some?)
            && (t.desk.pending.Some? && (t.guard.halted || t.guard.dayHalted) ==>
                  t.desk.pending.value.cancelAt.Some?)
  {
    hide Tracked, CashExact, Booked, RiskBounded, Funded, DepthExact, Maintenance, Circuit, Fresh, StopBreached,
         TargetReached, Split;
    MaintenanceQuiet(cfg, s);
    MaintenanceProtects(cfg, s);
    var m := Maintenance(cfg, s);
    CircuitProtects(cfg, m);
    CircuitQuiet(cfg, m);
  }

  // ---------------------------------------------------------------- halt

  lemma LevelsMakeNoOrder(cfg: Config, now: int, d: Desk, f: Feed)
    requires d.pending.None? && (d.exitOrder.Some? ==> d.position.Some?)
    ensures ExecuteBook(cfg, now, d, f).0.pending.None?
  {
    PendingOutlives(cfg, now, d, f);
  }

  /** The drawdown halt is for good: without an order already out, no entry is ever placed again. */
  lemma HaltedStepStaysOut(cfg: Config, s: State, input: Input)
    requires Inv(cfg, s) && s.guard.halted && s.desk.pending.None?
    ensures Sane(s) && Step(cfg, s, input).guard.halted && Step(cfg, s, input).desk.pending.None?
  {
    hide DeskInv, Funded, DepthExact, Onward, OnEvent, Propose, ManageFrame, Cancel, RequestExit, Quiet;
    StayInv(cfg, s);
    InvOrdered(cfg, s);
    match input
    case Arrival(e) => HaltedEventStaysOut(cfg, s, e);
    case Signal(p, allowed) => HaltedProposalStaysOut(cfg, s, p, allowed);
    case Managed(f) =>
      ManageQuiet(cfg, s.now, s.desk, f);
      QuietMakesNoOrder(s.desk, ManageFrame(cfg, s.now, s.desk, f));
    case CancelEntry(reason) =>
      CancelQuiet(cfg, s.now, s.desk, reason);
      QuietMakesNoOrder(s.desk, Cancel(cfg, s.now, s.desk, reason));
    case ExitNow(reason) =>
      RequestExitQuiet(cfg, s.now, s.desk, reason);
      QuietMakesNoOrder(s.desk, RequestExit(cfg, s.now, s.desk, reason));
    case Fault =>
  }

  lemma QuietMakesNoOrder(d: Desk, e: Desk)
    requires Quiet(d, e) && d.pending.None?
    ensures e.pending.None?
  {
  }

  lemma HaltedProposalStaysOut(cfg: Config, s: State, p: Proposal, allowed: bool)
    requires Sane(s) && Ordered(cfg, s.now, s.desk) && s.guard.halted && s.desk.pending.None?
    ensures var (t, reply) := Propose(cfg, s, p, allowed);
            t.guard.halted && t.desk.pending.None? && !reply.Accepted?
  {
    hide Submit, Promote;
    if s.desk.position.Some? {
      var d := Record(s.now, s.desk, ProposalSeen(p.family, p.side));
      RedirectQuiet(cfg, s.now, d, p, allowed);
      QuietMakesNoOrder(d, Redirect(cfg, s.now, d, p, allowed));
    }
    hide Redirect;
  }

  lemma HaltedEventStaysOut(cfg: Config, s: State, e: Event)
    requires Inv(cfg, s) && s.guard.halted && s.desk.pending.None?
    ensures Sane(s)
    ensures var t := OnEvent(cfg, s, e).0; t.guard.halted && t.desk.pending.None?
  {
    hide DeskInv, Funded, DepthExact, Onward, Dispatch, Maintenance, Circuit;
    StayInv(cfg, s);
    if e.received >= s.now {
      var s1 := Arrive(cfg, s, e.received);
      ArriveKeeps(cfg, s, e.received);
      ChecksStayOut(cfg, s1);
      HaltedDispatchStaysOut(cfg, s1, e);
      DispatchKeeps(cfg, s1, e);
      ChecksStayOut(cfg, Dispatch(cfg, s1, e).0);
    }
  }

  lemma ChecksStayOut(cfg: Config, s: State)
    requires Inv(cfg, s)
    ensures var t := Circuit(cfg, Maintenance(cfg, s));
            (s.guard.halted ==> t.guard.halted) && (s.desk.pending.None? ==> t.desk.pending.None?)
  {
    hide Tracked, CashExact, Booked, RiskBounded, Funded, DepthExact, Maintenance, Circuit;
    MaintenanceQuiet(cfg, s);
    CircuitQuiet(cfg, Maintenance(cfg, s));
  }

  lemma HaltedDispatchStaysOut(cfg: Config, s: State, e: Event)
    requires Inv(cfg, s) && s.guard.halted && s.desk.pending.None?
    ensures Sane(s)
    ensures var t := Dispatch(cfg, s, e).0; t.guard.halted && t.desk.pending.None?
  {
    hide DeskInv, Funded, DepthExact, Onward, ExecuteBook, ApplyFunding, RequestExit, Refreshed, ShownMore, Sizes;
    StayInv(cfg, s);
    InvOrdered(cfg, s);
    match e.data
    case Settlement(rate, mark) =>
      HaltSurvivesFunding(cfg, s, e.occurred, rate, mark);
    case Gap =>
      RequestExitQuiet(cfg, s.now, s.desk, DataGap);
      QuietMakesNoOrder(s.desk, RequestExit(cfg, s.now, s.desk, DataGap));
    case Book(book) =>
      LevelsMakeNoOrder(cfg, s.now, s.desk, AcceptBook(s.now, s.feed, book));
    case _ =>
  }

  lemma HaltSurvivesFunding(cfg: Config, s: State, time: int, rate: real, mark: real)
    requires Inv(cfg, s)
    ensures var t := ApplyFunding(s, time, rate, mark).0;
            (s.guard.halted ==> t.guard.halted) && t.desk.pending == s.desk.pending
  {
    hide DeskInv, Funded, DepthExact, OwnerIndex, FundingCost, ExposureAt, Charged;
  }

  lemma {:induction false} HaltIsFinal(cfg: Config, s: State, inputs: seq<Input>)
    requires Inv(cfg, s) && s.guard.halted && s.desk.pending.None?
    ensures RunFrom(cfg, s, inputs).guard.halted && RunFrom(cfg, s, inputs).desk.pending.None?
    decreases |inputs|
  {
    hide Step, DeskInv, Funded, DepthExact, Onward, Sane;
    if inputs != [] {
      HaltedStepStaysOut(cfg, s, inputs[0]);
      StepKeeps(cfg, s, inputs[0]);
      HaltIsFinal(cfg, Step(cfg, s, inputs[0]), inputs[1..]);
    }
  }
}
