/** Every operation of the paper account keeps the invariant. */
module BrokerSteps {
  import opened Basics
  import opened Market
  import opened Ledger
  import opened BrokerModel
  import opened BrokerFacts
  import opened BrokerQuiet
  import opened BrokerRisk
  import opened BrokerFunding
  import opened BrokerFills
  import MakerQueue

  ghost predicate Kept(cfg: Config, now: int, d: Desk, f: Feed, u: Funding) {
    DeskInv(cfg, now, d) && Funded(now, d, u) && DepthExact(f)
  }

  // ---------------------------------------------------------------- depth

  lemma TakeDepthExact(f: Feed, key: DepthKey, qty: real)
    requires DepthExact(f) && 0.0 <= qty <= At(f.available, key)
    ensures DepthExact(TakeDepth(f, key, qty))
  {
  }

  lemma RefreshedAt(f: Feed, sizes: map<DepthKey, Size>, k: DepthKey)
    requires At(f.available, k) >= 0.0
    ensures At(Refreshed(f.available, f.size, sizes), k)
            == Max(0.0, At(f.available, k) + At(sizes, k) - At(f.size, k))
    ensures At(ShownMore(f.shown, f.size, sizes), k) == At(f.shown, k) + Max(0.0, At(sizes, k) - At(f.size, k))
  {
  }

  lemma AcceptBookExact(now: int, f: Feed, book: BookView)
    requires DepthExact(f)
    ensures DepthExact(AcceptBook(now, f, book))
  {
    var t := AcceptBook(now, f, book);
    forall k
      ensures 0.0 <= At(t.available, k) <= At(t.size, k) && At(t.taken, k) + At(t.available, k) <= At(t.shown, k)
    {
      assert 0.0 <= At(f.available, k) <= At(f.size, k);
      RefreshedAt(f, Sizes(book), k);
      assert At(Sizes(book), k) >= 0.0;
      hide Refreshed, ShownMore, Sizes, At;
    }
  }

  // ---------------------------------------------------------------- fills

  lemma EntryFillKeeps(cfg: Config, now: int, d: Desk, u: Funding, step: Positive, qty: Positive, price: Positive,
                       feeRate: real)
    requires DeskInv(cfg, now, d) && Funded(now, d, u) && d.pending.Some?
    requires WithinOrder(cfg, d.pending.value, qty, price, feeRate)
    ensures var e := EntryFill(now, d, step, qty, price, feeRate);
            && DeskInv(cfg, now, e) && Funded(now, e, u)
            && (e.pending.Some? ==> e.pending.value.proposal == d.pending.value.proposal)
  {
    var e := EntryFill(now, d, step, qty, price, feeRate);
    var p := e.position.value;
    EntryFillTracked(cfg, now, d, step, qty, price, feeRate);
    EntryFillBooked(cfg, now, d, step, qty, price, feeRate);
    EntryFillRisk(cfg, now, d, step, qty, price, feeRate);
    FillsKeepCash(cfg, now, d, step, qty, price, feeRate);
    FundedGrow(now, d, e, u, Mark(now, p.id, p.side, p.qty));
    hide Tracked, Booked, RiskBounded, Funded, CashExact, FeeOf, Averaged, WithinOrder;
  }

  lemma ExitFillKeeps(cfg: Config, now: int, d: Desk, u: Funding, offered: Positive, price: Positive)
    requires DeskInv(cfg, now, d) && Funded(now, d, u)
    requires d.pending.None? && d.position.Some? && d.exitOrder.Some?
    ensures var e := ExitFill(cfg, now, d, offered, price);
            && DeskInv(cfg, now, e) && Funded(now, e, u)
            && e.pending.None? && (e.position.Some? <==> e.exitOrder.Some?)
  {
    var e := ExitFill(cfg, now, d, offered, price);
    var p := d.position.value;
    ExitFillTracked(cfg, now, d, offered, price);
    ExitFillBooked(cfg, now, d, offered, price);
    ExitFillRisk(cfg, now, d, offered, price);
    FillsKeepCash(cfg, now, d, 1.0, offered, price, 0.0);
    ExitFundingKept(cfg, now, d, offered, price);
    FundedGrow(now, d, e, u, Mark(now, p.id, p.side, p.qty - Min(offered, p.qty)));
    hide Tracked, Booked, RiskBounded, Funded, CashExact, FeeOf, Gain;
  }

  lemma ExitFundingKept(cfg: Config, now: int, d: Desk, offered: Positive, price: real)
    requires Numbered(d) && d.position.Some? && d.exitOrder.Some?
    ensures forall id | 1 <= id <= d.serial :: FundingOf(ExitFill(cfg, now, d, offered, price), id) == FundingOf(d, id)
  {
    hide FeeOf, Gain;
  }

  // ---------------------------------------------------------------- sweeping the book

  lemma ExitLevelKeeps(cfg: Config, now: int, d: Desk, f: Feed, u: Funding, level: Level)
    requires Kept(cfg, now, d, f, u) && d.pending.None? && d.position.Some? && d.exitOrder.Some?
    ensures var (e, g) := ExitLevel(cfg, now, d, f, level);
            && Kept(cfg, now, e, g, u) && e.pending.None? && (e.position.Some? <==> e.exitOrder.Some?)
            && g == f.(available := g.available, taken := g.taken)
  {
    var side := d.position.value.side;
    var key := DepthKey(side.Long?, level.price);
    var qty := Min(At(f.available, key), d.position.value.qty);
    if qty > 0.0 {
      SlippedPositive(cfg, side.Opposite(), level.price);
      ExitFillKeeps(cfg, now, d, u, qty, Slipped(cfg, side.Opposite(), level.price));
      TakeDepthExact(f, key, qty);
    }
    hide DeskInv, Funded, DepthExact, ExitFill, Slipped;
  }

  lemma SlippedPositive(cfg: Config, buyer: Side, price: Positive)
    ensures Slipped(cfg, buyer, price) > 0.0
  {
    MulStrict(0.0, 1.0 + Sign(buyer, cfg.slip), price);
  }

  lemma {:induction false} ExitLevelsKeep(cfg: Config, now: int, d: Desk, f: Feed, u: Funding, levels: seq<Level>)
    requires Kept(cfg, now, d, f, u) && d.pending.None?
    ensures var (e, g) := ExitLevels(cfg, now, d, f, levels);
            && Kept(cfg, now, e, g, u) && e.pending.None?
            && g == f.(available := g.available, taken := g.taken)
    decreases |levels|
  {
    hide Kept, ExitLevel;
    if levels != [] && d.position.Some? && d.exitOrder.Some? {
      var (d1, f1) := ExitLevel(cfg, now, d, f, levels[0]);
      ExitLevelKeeps(cfg, now, d, f, u, levels[0]);
      ExitLevelsKeep(cfg, now, d1, f1, u, levels[1..]);
    }
  }

  lemma EntryLevelKeeps(cfg: Config, now: int, d: Desk, f: Feed, u: Funding, step: Positive, level: Level)
    requires Kept(cfg, now, d, f, u) && d.pending.Some? && !d.pending.value.proposal.passive
    requires !BeyondLimit(cfg, d.pending.value, level)
    ensures var (e, g) := EntryLevel(cfg, now, d, f, step, level);
            && Kept(cfg, now, e, g, u) && (e.pending.Some? ==> !e.pending.value.proposal.passive)
            && g == f.(available := g.available, taken := g.taken)
  {
    var side := d.pending.value.proposal.side;
    var key := DepthKey(side.Short?, level.price);
    var qty := RoundDown(Min(At(f.available, key), d.pending.value.remaining), step);
    if qty > 0.0 {
      SlippedPositive(cfg, side, level.price);
      EntryFillKeeps(cfg, now, d, u, step, qty, Slipped(cfg, side, level.price), cfg.takerFee);
      TakeDepthExact(f, key, qty);
    }
    hide DeskInv, Funded, DepthExact, EntryFill, RoundDown, Slipped;
  }

  lemma {:induction false} EntryLevelsKeep(cfg: Config, now: int, d: Desk, f: Feed, u: Funding, step: Positive,
                                           levels: seq<Level>)
    requires Kept(cfg, now, d, f, u) && (d.pending.Some? ==> !d.pending.value.proposal.passive)
    ensures var (e, g) := EntryLevels(cfg, now, d, f, step, levels);
            && Kept(cfg, now, e, g, u) && g == f.(available := g.available, taken := g.taken)
    decreases |levels|
  {
    hide Kept, EntryLevel, BeyondLimit;
    if levels != [] && d.pending.Some? && !BeyondLimit(cfg, d.pending.value, levels[0]) {
      var (d1, f1) := EntryLevel(cfg, now, d, f, step, levels[0]);
      EntryLevelKeeps(cfg, now, d, f, u, step, levels[0]);
      EntryLevelsKeep(cfg, now, d1, f1, u, step, levels[1..]);
    }
  }

  /** Dropping the pending order, or stamping the exit order with the book it used, moves nothing. */
  lemma AdjustKeeps(cfg: Config, now: int, d: Desk, f: Feed, u: Funding, lastBook: int)
    requires Kept(cfg, now, d, f, u)
    ensures Kept(cfg, now, d.(pending := None), f, u)
    ensures d.exitOrder.Some? ==>
              Kept(cfg, now, d.(exitOrder := Some(d.exitOrder.value.(lastBook := lastBook))), f, u)
  {
    hide Tracked, Booked, RiskBounded, Funded, DepthExact, Split;
    QuietKeeps(cfg, now, d, d.(pending := None), u);
    if d.exitOrder.Some? {
      QuietKeeps(cfg, now, d, d.(exitOrder := Some(d.exitOrder.value.(lastBook := lastBook))), u);
    }
  }

  /** When an exit executes no entry order is left: its cancel was acknowledged before the exit went live. */
  lemma ExitDueLeavesNoEntry(cfg: Config, now: int, d: Desk, bookTime: int)
    requires Ordered(cfg, now, d) && ExitDue(now, d, bookTime)
    ensures d.pending.None?
  {
  }

  lemma ExecuteBookKeeps(cfg: Config, now: int, d: Desk, f: Feed, u: Funding)
    requires Kept(cfg, now, d, f, u) && (d.pending.Some? ==> f.instrument.Some?)
    ensures var (e, g) := ExecuteBook(cfg, now, d, f);
            && Kept(cfg, now, e, g, u) && g == f.(available := g.available, taken := g.taken)
  {
    if Fresh(cfg, now, f) {
      if ExitDue(now, d, f.time) {
        ExitDueLeavesNoEntry(cfg, now, d, f.time);
        AdjustKeeps(cfg, now, d, f, u, f.serial);
        ExitLevelsKeep(cfg, now, d.(exitOrder := Some(d.exitOrder.value.(lastBook := f.serial))), f, u,
                       Facing(f.book.value, d.position.value.side));
      } else if EntryDue(now, d, f.time) {
        if d.pending.value.proposal.passive {
          ActivateQuiet(cfg, now, d, f.book.value);
          QuietKeeps(cfg, now, d, Activate(now, d, f.book.value), u);
        } else {
          var levels := Facing(f.book.value, d.pending.value.proposal.side.Opposite());
          EntryLevelsKeep(cfg, now, d, f, u, f.instrument.value.step, levels);
          var (d1, f1) := EntryLevels(cfg, now, d, f, f.instrument.value.step, levels);
          AdjustKeeps(cfg, now, d1, f1, u, 0);
        }
      }
    }
    hide Tracked, Booked, RiskBounded, Funded, DepthExact, Activate, ExitLevels, EntryLevels, Numbered, CashExact;
  }

  lemma MakerPrintKeeps(cfg: Config, now: int, d: Desk, u: Funding, step: Positive, qty: Positive)
    requires DeskInv(cfg, now, d) && Funded(now, d, u) && d.pending.Some? && d.pending.value.proposal.passive
    ensures DeskInv(cfg, now, MakerPrint(cfg, now, d, step, qty)) && Funded(now, MakerPrint(cfg, now, d, step, qty), u)
  {
    hide MakerQueue.Fill, Tracked, Booked, RiskBounded, Funded, EntryFill, Numbered, CashExact;
    var o := d.pending.value;
    var fill := MakerQueue.Fill(MakerQueue.Resting(o.queue, o.remaining), qty, cfg.participation, step);
    var d1 := d.(pending := Some(o.(queue := Max(0.0, o.queue - qty))));
    QuietKeeps(cfg, now, d, d1, u);
    if fill > 0.0 {
      EntryFillKeeps(cfg, now, d1, u, step, fill, o.limit, cfg.makerFee);
    }
  }
}
