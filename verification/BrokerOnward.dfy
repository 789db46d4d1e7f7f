/** No operation rewrites exposure history, loosens a stop, withdraws an exit or reopens a position. */
module BrokerOnward {
  import opened Basics
  import opened Market
  import opened Ledger
  import opened BrokerModel
  import opened BrokerFacts
  import opened BrokerQuiet
  import opened BrokerSettlement
  import MakerQueue

  lemma OnwardChain(a: int, b: int, d: Desk, e: Desk, f: Desk)
    requires Onward(a, d, e) && Onward(b, e, f) && a <= b
    ensures Onward(a, d, f)
  {
    assert f.history[..|d.history|] == f.history[..|e.history|][..|d.history|];
    forall i | |d.history| <= i < |f.history|
      ensures f.history[i].time >= a
    {
      if i < |e.history| {
        assert f.history[i] == f.history[..|e.history|][i];
      }
    }
  }

  lemma QuietOnward(time: int, d: Desk, e: Desk)
    requires Quiet(d, e) && Numbered(d)
    ensures Onward(time, d, e)
  {
    hide Split;
  }

  lemma EntryFillOnward(now: int, d: Desk, step: Positive, qty: Positive, price: real, feeRate: real)
    requires d.pending.Some? && Numbered(d)
    ensures Onward(now, d, EntryFill(now, d, step, qty, price, feeRate))
    ensures Numbered(EntryFill(now, d, step, qty, price, feeRate))
  {
    hide FeeOf, Averaged;
  }

  lemma ExitFillOnward(cfg: Config, now: int, d: Desk, offered: Positive, price: real)
    requires d.position.Some? && d.exitOrder.Some? && Numbered(d)
    ensures Onward(now, d, ExitFill(cfg, now, d, offered, price))
    ensures Numbered(ExitFill(cfg, now, d, offered, price))
  {
    hide FeeOf, Gain;
  }

  lemma {:induction false} ExitLevelsOnward(cfg: Config, now: int, d: Desk, f: Feed, levels: seq<Level>)
    requires Numbered(d)
    ensures Onward(now, d, ExitLevels(cfg, now, d, f, levels).0) && Numbered(ExitLevels(cfg, now, d, f, levels).0)
    decreases |levels|
  {
    hide Numbered, ExitFill, Slipped;
    if levels != [] && d.position.Some? && d.exitOrder.Some? {
      var side := d.position.value.side;
      var qty := Min(At(f.available, DepthKey(side.Long?, levels[0].price)), d.position.value.qty);
      var (d1, f1) := ExitLevel(cfg, now, d, f, levels[0]);
      if qty > 0.0 {
        ExitFillOnward(cfg, now, d, qty, Slipped(cfg, side.Opposite(), levels[0].price));
      }
      ExitLevelsOnward(cfg, now, d1, f1, levels[1..]);
      StayOnward(now, d);
      OnwardChain(now, now, d, d1, ExitLevels(cfg, now, d1, f1, levels[1..]).0);
    } else {
      StayOnward(now, d);
    }
  }

  lemma StayOnward(now: int, d: Desk)
    requires Numbered(d)
    ensures Onward(now, d, d)
  {
  }

  lemma {:induction false} EntryLevelsOnward(cfg: Config, now: int, d: Desk, f: Feed, step: Positive,
                                             levels: seq<Level>)
    requires Numbered(d)
    ensures Onward(now, d, EntryLevels(cfg, now, d, f, step, levels).0)
    ensures Numbered(EntryLevels(cfg, now, d, f, step, levels).0)
    decreases |levels|
  {
    hide Numbered, EntryFill, Slipped, BeyondLimit, RoundDown;
    StayOnward(now, d);
    if levels != [] && d.pending.Some? && !BeyondLimit(cfg, d.pending.value, levels[0]) {
      var side := d.pending.value.proposal.side;
      var qty := RoundDown(Min(At(f.available, DepthKey(side.Short?, levels[0].price)), d.pending.value.remaining), step);
      var (d1, f1) := EntryLevel(cfg, now, d, f, step, levels[0]);
      if qty > 0.0 {
        EntryFillOnward(now, d, step, qty, Slipped(cfg, side, levels[0].price), cfg.takerFee);
      }
      EntryLevelsOnward(cfg, now, d1, f1, step, levels[1..]);
      OnwardChain(now, now, d, d1, EntryLevels(cfg, now, d1, f1, step, levels[1..]).0);
    }
  }

  lemma ExecuteBookOnward(cfg: Config, now: int, d: Desk, f: Feed)
    requires Numbered(d) && Ordered(cfg, now, d) && (d.pending.Some? ==> f.instrument.Some?)
    ensures Onward(now, d, ExecuteBook(cfg, now, d, f).0)
  {
    hide Split, ExitLevels, EntryLevels, Activate;
    StayOnward(now, d);
    if Fresh(cfg, now, f) {
      if ExitDue(now, d, f.time) {
        var d1 := d.(exitOrder := Some(d.exitOrder.value.(lastBook := f.serial)));
        var levels := Facing(f.book.value, d.position.value.side);
        QuietOnward(now, d, d1);
        ExitLevelsOnward(cfg, now, d1, f, levels);
        OnwardChain(now, now, d, d1, ExitLevels(cfg, now, d1, f, levels).0);
      } else if EntryDue(now, d, f.time) {
        if d.pending.value.proposal.passive {
          ActivateQuiet(cfg, now, d, f.book.value);
          QuietOnward(now, d, Activate(now, d, f.book.value));
        } else {
          var levels := Facing(f.book.value, d.pending.value.proposal.side.Opposite());
          var (d1, f1) := EntryLevels(cfg, now, d, f, f.instrument.value.step, levels);
          EntryLevelsOnward(cfg, now, d, f, f.instrument.value.step, levels);
          QuietOnward(now, d1, d1.(pending := None));
          OnwardChain(now, now, d, d1, d1.(pending := None));
        }
      }
    }
  }

  lemma MakerPrintOnward(cfg: Config, now: int, d: Desk, step: Positive, qty: Positive)
    requires d.pending.Some? && Numbered(d)
    ensures Onward(now, d, MakerPrint(cfg, now, d, step, qty))
  {
    hide MakerQueue.Fill, EntryFill;
    var o := d.pending.value;
    var fill := MakerQueue.Fill(MakerQueue.Resting(o.queue, o.remaining), qty, cfg.participation, step);
    var d1 := d.(pending := Some(o.(queue := Max(0.0, o.queue - qty))));
    if fill > 0.0 {
      EntryFillOnward(now, d1, step, fill, o.limit, cfg.makerFee);
    }
  }

  lemma ApplyFundingOnward(s: State, time: int, rate: real, mark: real)
    requires Numbered(s.desk)
    ensures Onward(s.now, s.desk, ApplyFunding(s, time, rate, mark).0.desk)
  {
    hide Charged, FundingCost, ExposureAt, OwnerIndex;
  }
}
