/** Steps of the paper account that record, cancel or steer but move no money, and what they keep. */
module BrokerQuiet {
  import opened Basics
  import opened Market
  import opened Ledger
  import opened BrokerModel
  import opened BrokerFacts

  /** The same holding, steered at most by a tighter stop, a new family or expiry. */
  ghost predicate Steered(p: Position, q: Position) {
    && q == p.(stop := q.stop, family := q.family, expires := q.expires)
    && Sign(p.side, q.stop - p.stop) >= 0.0
  }

  ghost predicate SameOrder(o: Order, n: Order) {
    n == o.(cancelAt := n.cancelAt, activated := n.activated, queue := n.queue)
  }

  /** The order is gone, or stands where it stood but for its deadline. */
  ghost predicate OrderStands(d: Desk, e: Desk) {
    e.pending.Some? ==>
      d.pending.Some? && e.pending.value == d.pending.value.(cancelAt := e.pending.value.cancelAt)
  }

  /** A step that records, cancels or steers, but moves no money, quantity or exposure. */
  ghost predicate Quiet(d: Desk, e: Desk) {
    && e.cash == d.cash && e.trades == d.trades && e.history == d.history && e.serial == d.serial
    && Split(e.events) == Split(d.events)
    && (d.position.Some? <==> e.position.Some?)
    && (d.position.Some? ==> Steered(d.position.value, e.position.value))
    && (e.pending.Some? ==> d.pending.Some? && SameOrder(d.pending.value, e.pending.value))
    && SameExit(d, e)
  }

  lemma QuietRecord(now: int, d: Desk, note: Note)
    ensures Quiet(d, Record(now, d, note))
  {
    hide Split, Advance;
    SplitIgnores(d.events, Noted(now, note));
  }

  lemma QuietChain(d: Desk, e: Desk, f: Desk)
    requires Quiet(d, e) && Quiet(e, f)
    ensures Quiet(d, f)
  {
  }

  /** Tightening the stop can only reduce the modelled loss. */
  lemma TighterLosesLess(cfg: Config, side: Side, entries: seq<Fill>, stop: real, tighter: real)
    requires Sign(side, tighter - stop) >= 0.0 && Quantity(entries) >= 0.0
    ensures StopLoss(cfg, side, entries, tighter) <= StopLoss(cfg, side, entries, stop)
  {
    ProceedsGrow(cfg, side, stop, tighter);
    MulMono(StopProceeds(cfg, side, stop), StopProceeds(cfg, side, tighter), Quantity(entries));
  }

  lemma ProceedsGrow(cfg: Config, side: Side, stop: real, tighter: real)
    requires Sign(side, tighter - stop) >= 0.0
    ensures StopProceeds(cfg, side, tighter) >= StopProceeds(cfg, side, stop)
  {
    if side.Long? {
      MulMono(stop, tighter, 1.0 - cfg.slip);
      MulMono(Slipped(cfg, Short, stop), Slipped(cfg, Short, tighter), 1.0 - cfg.takerFee);
    } else {
      MulMono(tighter, stop, 1.0 + cfg.slip);
      MulMono(Slipped(cfg, Long, tighter), Slipped(cfg, Long, stop), 1.0 + cfg.takerFee);
    }
  }

  lemma QuietKeepsRisk(cfg: Config, d: Desk, e: Desk)
    requires RiskBounded(cfg, d) && Booked(d) && Quiet(d, e)
    requires d.pending.Some? && d.position.Some? ==> FromOrder(d.pending.value, d.position.value)
    ensures RiskBounded(cfg, e)
  {
    hide Split, Advance, StopLoss, UnitRisk, StopDistance;
    if d.pending.Some? {
      var o := d.pending.value;
      UnitRiskPositive(cfg, o.proposal, o.limit);
      MulMono(0.0, UnitRisk(cfg, o.proposal, o.limit), o.remaining);
    }
    if e.position.Some? {
      var p, q := d.position.value, e.position.value;
      assert q.planned == p.planned;
    }
  }

  /** A quiet step keeps every fact except the order deadlines, which each step accounts for. */
  lemma QuietKeeps(cfg: Config, now: int, d: Desk, e: Desk, u: Funding)
    requires DeskInv(cfg, now, d) && Funded(now, d, u) && Quiet(d, e)
    ensures Tracked(e) && Numbered(e) && CashExact(cfg, e) && Booked(e) && RiskBounded(cfg, e) && Funded(now, e, u)
  {
    hide RiskBounded, Funded, SumNet, Waves, ClosedMatch, Split;
    QuietKeepsRisk(cfg, d, e);
    QuietKeepsFunding(now, d, e, u);
  }

  lemma QuietKeepsFunding(now: int, d: Desk, e: Desk, u: Funding)
    requires Numbered(d) && Funded(now, d, u) && Quiet(d, e)
    ensures Funded(now, e, u)
  {
    hide SumDue, ExposureAt, Split;
    forall id | 1 <= id <= e.serial
      ensures FundingOf(e, id) == SumDue(u.seen, u.values, e.history, id)
    {
      assert FundingOf(e, id) == FundingOf(d, id);
    }
  }

  lemma CancelQuiet(cfg: Config, now: int, d: Desk, reason: Reason)
    requires Ordered(cfg, now, d)
    ensures Quiet(d, Cancel(cfg, now, d, reason)) && Ordered(cfg, now, Cancel(cfg, now, d, reason))
    ensures OrderStands(d, Cancel(cfg, now, d, reason))
    ensures Cancel(cfg, now, d, reason).position == d.position && Cancel(cfg, now, d, reason).exitOrder == d.exitOrder
  {
    hide Split, Advance;
    SplitIgnores(d.events, Noted(now, CancelRequested(reason)));
  }

  lemma RequestExitQuiet(cfg: Config, now: int, d: Desk, reason: Reason)
    requires Ordered(cfg, now, d)
    ensures Quiet(d, RequestExit(cfg, now, d, reason)) && Ordered(cfg, now, RequestExit(cfg, now, d, reason))
    ensures OrderStands(d, RequestExit(cfg, now, d, reason))
    ensures RequestExit(cfg, now, d, reason).position == d.position
  {
    hide Split, Advance;
    CancelQuiet(cfg, now, d, ReduceOnlyExit);
    SplitIgnores(Cancel(cfg, now, d, ReduceOnlyExit).events, Noted(now, ExitRequested(reason)));
  }

  lemma ExpireQuiet(cfg: Config, before: int, now: int, d: Desk)
    requires Ordered(cfg, before, d) && before <= now
    ensures Quiet(d, ExpirePending(cfg, now, d)) && Ordered(cfg, now, ExpirePending(cfg, now, d))
    ensures OrderStands(d, ExpirePending(cfg, now, d))
    ensures ExpirePending(cfg, now, d).position == d.position
  {
    hide Split, Advance;
    SplitIgnores(d.events, Noted(now, CancelAck));
  }

  lemma ActivateQuiet(cfg: Config, now: int, d: Desk, book: BookView)
    requires Ordered(cfg, now, d) && d.pending.Some?
    ensures Quiet(d, Activate(now, d, book)) && Ordered(cfg, now, Activate(now, d, book))
  {
    hide Split, Advance, Visible;
    SplitIgnores(d.events, Noted(now, PostOnlyRejected));
    SplitIgnores(d.events, Noted(now, UnknownQueueRejected));
  }

  lemma PromoteQuiet(cfg: Config, now: int, d: Desk, p: Proposal)
    requires Ordered(cfg, now, d) && d.position.Some? && d.position.value.side == p.side
    ensures Quiet(d, Promote(now, d, p)) && Ordered(cfg, now, Promote(now, d, p))
    ensures OrderStands(d, Promote(now, d, p))
  {
    hide Split, Advance;
    SplitIgnores(d.events, Noted(now, Promoted));
  }

  lemma RedirectQuiet(cfg: Config, now: int, d: Desk, p: Proposal, allowed: bool)
    requires Ordered(cfg, now, d) && d.position.Some?
    ensures Quiet(d, Redirect(cfg, now, d, p, allowed)) && Ordered(cfg, now, Redirect(cfg, now, d, p, allowed))
    ensures OrderStands(d, Redirect(cfg, now, d, p, allowed))
  {
    hide Split, Advance;
    RequestExitQuiet(cfg, now, d, OppositeSignal);
    SplitIgnores(d.events, Noted(now, PromotionBlocked));
    if d.position.value.side == p.side {
      PromoteQuiet(cfg, now, d, p);
    }
    hide RequestExit, Promote;
  }

  lemma ManageQuiet(cfg: Config, now: int, d: Desk, f: Frame)
    requires Ordered(cfg, now, d)
    ensures Quiet(d, ManageFrame(cfg, now, d, f)) && Ordered(cfg, now, ManageFrame(cfg, now, d, f))
    ensures OrderStands(d, ManageFrame(cfg, now, d, f))
  {
    hide Split, Advance;
    RequestExitQuiet(cfg, now, d, FlowInvalidated);
    hide RequestExit, Invalidated;
  }

  lemma ProtectQuiet(cfg: Config, now: int, d: Desk, f: Feed)
    requires Ordered(cfg, now, d) && d.position.Some? && Fresh(cfg, now, f)
    ensures Quiet(d, Protect(cfg, now, d, f)) && Ordered(cfg, now, Protect(cfg, now, d, f))
    ensures OrderStands(d, Protect(cfg, now, d, f))
    ensures Protect(cfg, now, d, f).position == d.position
  {
    hide Split, Advance, StopBreached, TargetReached, OverExposed;
    RequestExitQuiet(cfg, now, d, StopHit);
    RequestExitQuiet(cfg, now, d, TargetHit);
    RequestExitQuiet(cfg, now, d, TimeUp);
    var d1 :=
      if StopBreached(d.position.value, f.book.value) then RequestExit(cfg, now, d, StopHit)
      else if TargetReached(d.position.value, f.book.value) then RequestExit(cfg, now, d, TargetHit)
      else if now >= d.position.value.expires then RequestExit(cfg, now, d, TimeUp)
      else d;
    RequestExitQuiet(cfg, now, d1, ExposureCap);
    hide RequestExit;
  }

  /** Maintenance and the circuit breaker touch only flags, deadlines and exit requests. */
  lemma MaintenanceQuiet(cfg: Config, s: State)
    requires Ordered(cfg, s.now, s.desk)
    ensures var t := Maintenance(cfg, s);
            && Quiet(s.desk, t.desk) && Ordered(cfg, t.now, t.desk) && t.desk.position == s.desk.position
            && t == s.(desk := t.desk, guard := s.guard.(incomplete := t.guard.incomplete))
            && OrderStands(s.desk, t.desk)
  {
    hide Split, Advance, Protect;
    RequestExitQuiet(cfg, s.now, s.desk, FundingNotVerified);
    var d := if Overdue(s.now, s.funding) then RequestExit(cfg, s.now, s.desk, FundingNotVerified) else s.desk;
    RequestExitQuiet(cfg, s.now, d, StaleBook);
    if d.position.Some? && Fresh(cfg, s.now, s.feed) {
      ProtectQuiet(cfg, s.now, d, s.feed);
    }
    hide RequestExit, Overdue;
  }

  lemma CircuitQuiet(cfg: Config, s: State)
    requires Ordered(cfg, s.now, s.desk)
    ensures var t := Circuit(cfg, s);
            && Quiet(s.desk, t.desk) && Ordered(cfg, t.now, t.desk) && t.desk.position == s.desk.position
            && t == s.(desk := t.desk, guard := t.guard)
            && t.guard.peak >= s.guard.peak && t.guard.incomplete == s.guard.incomplete
            && (s.guard.halted ==> t.guard.halted) && OrderStands(s.desk, t.desk)
  {
    hide Split, Advance, Equity, Drawdown;
    CancelQuiet(cfg, s.now, s.desk, RiskHalt);
    RequestExitQuiet(cfg, s.now, Cancel(cfg, s.now, s.desk, RiskHalt), RiskHalt);
    hide RequestExit, Cancel;
  }
}
