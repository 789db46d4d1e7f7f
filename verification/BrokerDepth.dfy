/** The records of displayed size are what they claim: what the log filled, and what the books added. */
module BrokerDepth {
  import opened Basics
  import opened Market
  import opened Ledger
  import opened BrokerModel
  import opened BrokerFacts
  import opened BrokerPrices
  import opened BrokerWatch

  /** Total size of the fills logged at a price. */
  function FilledAt(events: seq<LogEntry>, price: real): real {
    if events == [] then 0.0
    else
      var n := |events| - 1;
      var e := events[n];
      FilledAt(events[..n], price) + if (e.EntryFilled? || e.ExitFilled?) && e.price == price then e.qty else 0.0
  }

  lemma FilledNext(events: seq<LogEntry>, e: LogEntry, price: real)
    ensures FilledAt(events + [e], price)
         == FilledAt(events, price) + if (e.EntryFilled? || e.ExitFilled?) && e.price == price then e.qty else 0.0
  {
    assert (events + [e])[..|events|] == events;
  }

  /** What is paid for size displayed under a key: bids are sold into for less, asks bought from for more. */
  function PaidAt(cfg: Config, key: DepthKey): real {
    key.price * (if key.bid then 1.0 - cfg.slip else 1.0 + cfg.slip)
  }

  lemma Cancels(x: real, y: real, factor: Positive)
    ensures Mul(x, factor) == Mul(y, factor) <==> x == y
  {
    if x < y {
      MulStrict(x, y, factor);
    } else if x > y {
      MulStrict(y, x, factor);
    }
  }

  lemma Offsets(cfg: Config, sells: bool, price: real)
    ensures Slipped(cfg, if sells then Short else Long, price)
         == Mul(price, if sells then 1.0 - cfg.slip else 1.0 + cfg.slip)
  {
    if sells {
      assert 1.0 + Sign(Short, cfg.slip) == 1.0 - cfg.slip;
    }
  }

  lemma PaidAtTells(cfg: Config, sells: bool, price: real, key: DepthKey)
    requires key.bid == sells
    ensures Slipped(cfg, if sells then Short else Long, price) == PaidAt(cfg, key) <==> price == key.price
  {
    var factor := if sells then 1.0 - cfg.slip else 1.0 + cfg.slip;
    Offsets(cfg, sells, price);
    assert PaidAt(cfg, key) == Mul(key.price, factor);
    hide Slipped, PaidAt;
    Cancels(price, key.price, factor);
  }

  /** Between two states as much was taken under the key, and is no longer available, as the log filled at its price. */
  predicate TookLogged(cfg: Config, d: Desk, f: Feed, e: Desk, g: Feed, sells: bool, key: DepthKey) {
    var filled := if key.bid == sells then FilledAt(e.events, PaidAt(cfg, key)) - FilledAt(d.events, PaidAt(cfg, key))
                  else 0.0;
    At(g.taken, key) - At(f.taken, key) == filled && At(f.available, key) - At(g.available, key) == filled
  }

  // ---------------------------------------------------------------- sweeps

  lemma ExitLevelTook(cfg: Config, now: int, d: Desk, f: Feed, level: Level, key: DepthKey)
    requires d.position.Some? && d.exitOrder.Some?
    ensures var (e, g) := ExitLevel(cfg, now, d, f, level);
            && TookLogged(cfg, d, f, e, g, d.position.value.side.Long?, key)
            && (e.position.Some? ==> e.position.value.side == d.position.value.side)
  {
    hide FilledAt, PaidAt, Slipped, Gain;
    var side := d.position.value.side;
    var e := ExitLevel(cfg, now, d, f, level).0;
    if key.bid == side.Long? {
      PaidAtTells(cfg, side.Long?, level.price, key);
    }
    if |e.events| > |d.events| {
      var fill := e.events[|d.events|];
      FilledNext(d.events, fill, PaidAt(cfg, key));
      if |e.events| > |d.events| + 1 {
        FilledNext(d.events + [fill], e.events[|d.events| + 1], PaidAt(cfg, key));
        assert e.events == d.events + [fill] + [e.events[|d.events| + 1]];
      } else {
        assert e.events == d.events + [fill];
      }
    }
  }

  lemma {:induction false} ExitLevelsTook(cfg: Config, now: int, d: Desk, f: Feed, levels: seq<Level>, key: DepthKey)
    requires d.position.Some? && d.exitOrder.Some?
    ensures var (e, g) := ExitLevels(cfg, now, d, f, levels);
            TookLogged(cfg, d, f, e, g, d.position.value.side.Long?, key)
    decreases |levels|
  {
    hide ExitLevel, FilledAt, PaidAt, At;
    if levels != [] {
      ExitLevelTook(cfg, now, d, f, levels[0], key);
      var (d1, f1) := ExitLevel(cfg, now, d, f, levels[0]);
      if d1.position.Some? && d1.exitOrder.Some? {
        ExitLevelsTook(cfg, now, d1, f1, levels[1..], key);
      }
    }
  }

  lemma EntryLevelTook(cfg: Config, now: int, d: Desk, f: Feed, step: Positive, level: Level, key: DepthKey)
    requires d.pending.Some?
    ensures var (e, g) := EntryLevel(cfg, now, d, f, step, level);
            && TookLogged(cfg, d, f, e, g, d.pending.value.proposal.side.Short?, key)
            && (e.pending.Some? ==> e.pending.value.proposal == d.pending.value.proposal)
  {
    hide FilledAt, PaidAt, Slipped, Averaged, RoundDown;
    var side := d.pending.value.proposal.side;
    var e := EntryLevel(cfg, now, d, f, step, level).0;
    if key.bid == side.Short? {
      PaidAtTells(cfg, side.Short?, level.price, key);
    }
    if |e.events| > |d.events| {
      FilledNext(d.events, e.events[|d.events|], PaidAt(cfg, key));
      assert e.events == d.events + [e.events[|d.events|]];
    }
  }

  lemma {:induction false} EntryLevelsTook(cfg: Config, now: int, d: Desk, f: Feed, step: Positive, levels: seq<Level>,
                                           key: DepthKey)
    requires d.pending.Some?
    ensures var (e, g) := EntryLevels(cfg, now, d, f, step, levels);
            TookLogged(cfg, d, f, e, g, d.pending.value.proposal.side.Short?, key)
    decreases |levels|
  {
    hide EntryLevel, BeyondLimit, FilledAt, PaidAt, At;
    if levels != [] && !BeyondLimit(cfg, d.pending.value, levels[0]) {
      EntryLevelTook(cfg, now, d, f, step, levels[0], key);
      var (d1, f1) := EntryLevel(cfg, now, d, f, step, levels[0]);
      if d1.pending.Some? {
        EntryLevelsTook(cfg, now, d1, f1, step, levels[1..], key);
      }
    }
  }

  // ---------------------------------------------------------------- a whole book

  /**
   What a book takes under each key, on the side it trades with, is what it logs as filled at that key's price less the
   slippage, and is no longer available; nothing else is taken.
   */
  lemma TakesWhatItLogs(cfg: Config, now: int, d: Desk, f: Feed, key: DepthKey)
    requires d.pending.Some? ==> f.instrument.Some?
    requires d.exitOrder.Some? ==> d.position.Some?
    ensures var (e, g) := ExecuteBook(cfg, now, d, f);
            var sells := if d.exitOrder.Some? && Live(d.exitOrder.value.active, now, f.time)
                         then d.position.value.side.Long?
                         else d.pending.Some? && d.pending.value.proposal.side.Short?;
            TookLogged(cfg, d, f, e, g, sells, key)
  {
    hide ExitLevels, EntryLevels, FilledAt, PaidAt, Visible, At;
    if Fresh(cfg, now, f) {
      if ExitDue(now, d, f.time) {
        var d1 := d.(exitOrder := Some(d.exitOrder.value.(lastBook := f.serial)));
        ExitLevelsTook(cfg, now, d1, f, Facing(f.book.value, d.position.value.side), key);
      } else if EntryDue(now, d, f.time) {
        var side := d.pending.value.proposal.side;
        EntryLevelsTook(cfg, now, d, f, f.instrument.value.step, Facing(f.book.value, side.Opposite()), key);
        ActivateFillsNothing(now, d, f.book.value, PaidAt(cfg, key));
      }
    }
  }

  lemma ActivateFillsNothing(now: int, d: Desk, b: BookView, price: real)
    requires d.pending.Some?
    ensures FilledAt(Activate(now, d, b).events, price) == FilledAt(d.events, price)
  {
    hide FilledAt, Visible;
    var e := Activate(now, d, b);
    if e.events != d.events {
      FilledNext(d.events, e.events[|d.events|], price);
      assert e.events == d.events + [e.events[|d.events|]];
    }
  }

  /** What a book adds to the size ever shown under a key is what it shows there beyond the last one, taking nothing. */
  lemma ShowsWhatItAdds(now: int, f: Feed, b: BookView, key: DepthKey)
    ensures var g := AcceptBook(now, f, b);
            var size := LastShown(if key.bid then b.bids else b.asks, key.price);
            && At(g.size, key) == size && g.taken == f.taken
            && At(g.shown, key)
            == At(f.shown, key) + if size > At(f.size, key) then size - At(f.size, key) else 0.0
  {
    SizesExactly(b, key);
    hide Sizes, LastShown;
  }
}
