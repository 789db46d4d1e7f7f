/** The price and fee of every fill, read off the book or the order, and how far a sweep goes. */
module BrokerPrices {
  import opened Basics
  import opened Market
  import opened Ledger
  import opened BrokerModel
  import opened BrokerFacts
  import MakerQueue

  /** A displayed price made worse by the slippage: a sale is below it, a purchase above it. */
  predicate Worsened(cfg: Config, sale: bool, shown: real, price: real) {
    price == if sale then shown * (1.0 - cfg.slip) else shown * (1.0 + cfg.slip)
  }

  /** An exit of this position: at some level it faces, worsened, with the taker fee. */
  ghost predicate ExitPriced(cfg: Config, side: Side, levels: seq<Level>, e: LogEntry) {
    && !e.EntryFilled?
    && (e.ExitFilled? ==>
          && e.qty > 0.0 && e.fee == e.qty * e.price * cfg.takerFee
          && exists l :: l in levels && Worsened(cfg, side.Long?, l.price, e.price))
  }

  /** An immediate entry of this order: at some opposite level, worsened, within limit and before the stop. */
  ghost predicate EntryPriced(cfg: Config, o: Order, levels: seq<Level>, e: LogEntry) {
    && !e.ExitFilled?
    && (e.EntryFilled? ==>
          && e.qty > 0.0 && e.fee == e.qty * e.price * cfg.takerFee
          && (if o.proposal.side.Long? then o.proposal.stop < e.price <= o.limit
              else o.limit <= e.price < o.proposal.stop)
          && exists l :: l in levels && Worsened(cfg, o.proposal.side.Short?, l.price, e.price))
  }

  lemma SlippedIsWorse(cfg: Config, buyer: Side, price: real)
    ensures Worsened(cfg, buyer.Short?, price, Slipped(cfg, buyer, price))
  {
  }

  // ---------------------------------------------------------------- exits

  lemma ExitLevelPriced(cfg: Config, now: int, d: Desk, f: Feed, level: Level, levels: seq<Level>)
    requires d.position.Some? && d.exitOrder.Some? && level in levels
    ensures var e := ExitLevel(cfg, now, d, f, level).0;
            && d.events <= e.events
            && (e.position.Some? ==> e.position.value.side == d.position.value.side)
            && forall i | |d.events| <= i < |e.events| :: ExitPriced(cfg, d.position.value.side, levels, e.events[i])
  {
    hide Slipped, Gain, Worsened;
    SlippedIsWorse(cfg, d.position.value.side.Opposite(), level.price);
  }

  lemma {:induction false} ExitLevelsPriced(cfg: Config, now: int, d: Desk, f: Feed, side: Side, levels: seq<Level>,
                                            all: seq<Level>)
    requires d.position.Some? ==> d.position.value.side == side
    requires forall l | l in levels :: l in all
    ensures var e := ExitLevels(cfg, now, d, f, levels).0;
            && d.events <= e.events
            && forall i | |d.events| <= i < |e.events| :: ExitPriced(cfg, side, all, e.events[i])
    decreases |levels|
  {
    hide ExitLevel, ExitPriced;
    if levels != [] && d.position.Some? && d.exitOrder.Some? {
      assert levels[0] in levels;
      ExitLevelPriced(cfg, now, d, f, levels[0], all);
      var (d1, f1) := ExitLevel(cfg, now, d, f, levels[0]);
      ExitLevelsPriced(cfg, now, d1, f1, side, levels[1..], all);
      var e := ExitLevels(cfg, now, d1, f1, levels[1..]).0;
      forall i | |d.events| <= i < |e.events|
        ensures ExitPriced(cfg, side, all, e.events[i])
      {
        if i < |d1.events| {
          assert e.events[i] == d1.events[i];
        }
      }
    }
  }

  // ---------------------------------------------------------------- immediate entries

  /** The order is the same but for what is left of it. */
  predicate Reduced(o: Order, n: Order) {
    n == o.(remaining := n.remaining)
  }

  lemma EntryLevelPriced(cfg: Config, now: int, d: Desk, f: Feed, step: Positive, level: Level, levels: seq<Level>)
    requires d.pending.Some? && level in levels && !BeyondLimit(cfg, d.pending.value, level)
    ensures var e := EntryLevel(cfg, now, d, f, step, level).0;
            && d.events <= e.events
            && (e.pending.Some? ==> Reduced(d.pending.value, e.pending.value))
            && forall i | |d.events| <= i < |e.events| :: EntryPriced(cfg, d.pending.value, levels, e.events[i])
  {
    hide Slipped, Averaged, RoundDown, Worsened;
    SlippedIsWorse(cfg, d.pending.value.proposal.side, level.price);
  }

  lemma {:induction false} EntryLevelsPriced(cfg: Config, now: int, d: Desk, f: Feed, step: Positive, o: Order,
                                             levels: seq<Level>, all: seq<Level>)
    requires d.pending.Some? ==> Reduced(o, d.pending.value)
    requires forall l | l in levels :: l in all
    ensures var e := EntryLevels(cfg, now, d, f, step, levels).0;
            && d.events <= e.events
            && forall i | |d.events| <= i < |e.events| :: EntryPriced(cfg, o, all, e.events[i])
    decreases |levels|
  {
    hide EntryLevel, BeyondLimit;
    if levels != [] && d.pending.Some? && !BeyondLimit(cfg, d.pending.value, levels[0]) {
      assert levels[0] in levels;
      EntryLevelPriced(cfg, now, d, f, step, levels[0], all);
      var (d1, f1) := EntryLevel(cfg, now, d, f, step, levels[0]);
      EntryLevelsPriced(cfg, now, d1, f1, step, o, levels[1..], all);
      var e := EntryLevels(cfg, now, d1, f1, step, levels[1..]).0;
      forall i | |d.events| <= i < |e.events|
        ensures EntryPriced(cfg, o, all, e.events[i])
      {
        if i < |d1.events| {
          assert e.events[i] == d1.events[i];
        }
      }
    }
  }

  // ---------------------------------------------------------------- a whole book

  /**
   What one book adds to the log: exits of the position at the bids if it is long and at the asks if it is short,
   or purchases of an immediate order at the asks and sales at the bids, every price worsened by the slippage.
   */
  lemma BookFillsPriced(cfg: Config, now: int, d: Desk, f: Feed)
    requires d.pending.Some? ==> f.instrument.Some?
    requires d.exitOrder.Some? ==> d.position.Some?
    ensures var e := ExecuteBook(cfg, now, d, f).0;
            && d.events <= e.events
            && forall i | |d.events| <= i < |e.events| ::
                 && (e.events[i].ExitFilled? ==>
                       && d.exitOrder.Some? && f.book.Some?
                       && var side := d.position.value.side;
                          ExitPriced(cfg, side, if side.Long? then f.book.value.bids else f.book.value.asks, e.events[i]))
                 && (e.events[i].EntryFilled? ==>
                       && d.pending.Some? && !d.pending.value.proposal.passive && f.book.Some?
                       && var o := d.pending.value;
                          EntryPriced(cfg, o, if o.proposal.side.Long? then f.book.value.asks else f.book.value.bids,
                                      e.events[i]))
  {
    hide ExitLevels, EntryLevels, Visible, BeyondLimit;
    if Fresh(cfg, now, f) {
      var b := f.book.value;
      if ExitDue(now, d, f.time) {
        var side := d.position.value.side;
        ExitLevelsPriced(cfg, now, d.(exitOrder := Some(d.exitOrder.value.(lastBook := f.serial))), f, side,
                         Facing(b, side), if side.Long? then b.bids else b.asks);
      } else if EntryDue(now, d, f.time) && !d.pending.value.proposal.passive {
        var side := d.pending.value.proposal.side;
        EntryLevelsPriced(cfg, now, d, f, f.instrument.value.step, d.pending.value,
                          Facing(b, side.Opposite()), if side.Long? then b.asks else b.bids);
      }
    }
  }

  /** A print that fills a resting order is booked at the order's own limit, with the maker fee. */
  lemma MakerFillPriced(cfg: Config, now: int, d: Desk, step: Positive, qty: Positive)
    requires d.pending.Some?
    ensures var o, e := d.pending.value, MakerPrint(cfg, now, d, step, qty);
            e.events == d.events
            || (&& |e.events| == |d.events| + 1 && e.events[..|d.events|] == d.events
                && var fill := e.events[|d.events|];
                   && fill.EntryFilled? && 0.0 < fill.qty <= o.remaining && fill.price == o.limit
                   && fill.fee == fill.qty * fill.price * cfg.makerFee)
  {
    hide Averaged, Grown, RoundDown;
  }

  /** Best price first on both sides, as the normalizer's view is. */
  ghost predicate BestFirst(b: BookView) {
    && (forall l | l in b.bids :: l.price <= b.bids[0].price)
    && (forall l | l in b.asks :: l.price >= b.asks[0].price)
  }

  lemma WorsenedIs(cfg: Config, sale: bool, shown: Positive, best: Positive, price: real)
    requires Worsened(cfg, sale, shown, price) && if sale then shown <= best else shown >= best
    ensures if sale then price <= best * (1.0 - cfg.slip) <= best else price >= best * (1.0 + cfg.slip) >= best
  {
    Slips(shown, best, cfg.slip);
  }

  lemma Slips(shown: real, best: real, slip: real)
    requires 0.0 < shown && 0.0 <= slip < 1.0
    ensures shown <= best ==> shown * (1.0 - slip) <= best * (1.0 - slip) <= best
    ensures 0.0 < best <= shown ==> shown * (1.0 + slip) >= best * (1.0 + slip) >= best
  {
    var keep, add := 1.0 - slip, 1.0 + slip;
    if shown <= best {
      MulMono(shown, best, keep);
      MulMono(keep, 1.0, best);
    }
    if 0.0 < best <= shown {
      MulMono(best, shown, add);
      MulMono(1.0, add, best);
    }
  }

  /** No exit is ever better than the best price shown, less the slippage. */
  lemma ExitsNeverBeatTouch(cfg: Config, now: int, d: Desk, f: Feed, i: nat)
    requires d.pending.Some? ==> f.instrument.Some?
    requires d.exitOrder.Some? ==> d.position.Some?
    requires f.book.Some? && BestFirst(f.book.value)
    requires |d.events| <= i < |ExecuteBook(cfg, now, d, f).0.events|
    requires ExecuteBook(cfg, now, d, f).0.events[i].ExitFilled?
    ensures d.position.Some?
    ensures var price, b := ExecuteBook(cfg, now, d, f).0.events[i].price, f.book.value;
            if d.position.value.side.Long? then price <= b.bids[0].price * (1.0 - cfg.slip) <= b.bids[0].price
            else price >= b.asks[0].price * (1.0 + cfg.slip) >= b.asks[0].price
  {
    hide ExecuteBook, Worsened;
    BookFillsPriced(cfg, now, d, f);
    var b, e := f.book.value, ExecuteBook(cfg, now, d, f).0.events[i];
    var sale := d.position.value.side.Long?;
    var l :| l in (if sale then b.bids else b.asks) && Worsened(cfg, sale, l.price, e.price);
    WorsenedIs(cfg, sale, l.price, if sale then b.bids[0].price else b.asks[0].price, e.price);
  }

  // ---------------------------------------------------------------- how far a sweep goes

  lemma TakeOnlyLowers(f: Feed, key: DepthKey, qty: real, k: DepthKey)
    requires qty > 0.0
    ensures At(TakeDepth(f, key, qty).available, k) <= At(f.available, k)
  {
  }

  /** One level: flat, or the level has nothing left, and no other has more than before. */
  lemma ExitLevelDrains(cfg: Config, now: int, d: Desk, f: Feed, level: Level, k: DepthKey)
    requires d.position.Some? && d.exitOrder.Some?
    ensures var (e, g) := ExitLevel(cfg, now, d, f, level);
            && At(g.available, k) <= At(f.available, k)
            && (e.position.Some? ==>
                  && e.exitOrder == d.exitOrder && e.position.value.side == d.position.value.side
                  && At(g.available, DepthKey(d.position.value.side.Long?, level.price)) <= 0.0)
  {
    hide Slipped, FeeOf, Gain;
  }

  lemma {:induction false} ExitLevelsDrain(cfg: Config, now: int, d: Desk, f: Feed, levels: seq<Level>, l: Level)
    requires d.position.Some? && d.exitOrder.Some?
    ensures var (e, g) := ExitLevels(cfg, now, d, f, levels);
            var k := DepthKey(d.position.value.side.Long?, l.price);
            && At(g.available, k) <= At(f.available, k)
            && (e.position.Some? && l in levels ==> At(g.available, k) <= 0.0)
    decreases |levels|
  {
    hide ExitLevel, At;
    if levels != [] {
      var k := DepthKey(d.position.value.side.Long?, l.price);
      ExitLevelDrains(cfg, now, d, f, levels[0], k);
      var (d1, f1) := ExitLevel(cfg, now, d, f, levels[0]);
      if d1.position.Some? {
        ExitLevelsDrain(cfg, now, d1, f1, levels[1..], l);
        assert l in levels ==> l == levels[0] || l in levels[1..];
      }
    }
  }

  /** A live exit not yet tried on this book ends flat, or with nothing left at any price it faces. */
  lemma ExitSweepsBook(cfg: Config, now: int, d: Desk, f: Feed)
    requires d.pending.Some? ==> f.instrument.Some?
    requires d.exitOrder.Some? ==> d.position.Some?
    requires Fresh(cfg, now, f) && d.exitOrder.Some? && d.exitOrder.value.lastBook != f.serial
    requires now >= d.exitOrder.value.active && f.time >= d.exitOrder.value.active
    ensures var (e, g) := ExecuteBook(cfg, now, d, f);
            var long := d.position.value.side.Long?;
            e.position.None?
            || forall l | l in (if long then f.book.value.bids else f.book.value.asks) ::
                 At(g.available, DepthKey(long, l.price)) <= 0.0
  {
    hide ExitLevels;
    var long := d.position.value.side.Long?;
    var levels := if long then f.book.value.bids else f.book.value.asks;
    assert levels == Facing(f.book.value, d.position.value.side);
    var d1 := d.(exitOrder := Some(d.exitOrder.value.(lastBook := f.serial)));
    var (e, g) := ExitLevels(cfg, now, d1, f, levels);
    forall l | l in levels
      ensures e.position.None? || At(g.available, DepthKey(long, l.price)) <= 0.0
    {
      ExitLevelsDrain(cfg, now, d1, f, levels, l);
    }
  }

  /** Live on this book: its latency has passed, for the clock and for the book. */
  predicate Live(active: int, now: int, bookTime: int) {
    active <= now && active <= bookTime
  }

  /**
   What a book executes: nothing without a current book; a live exit, once per book, before anything else; else a
   live entry, which is activated if it rests and swept and then cancelled if it does not.
   */
  lemma ExecutesInOrder(cfg: Config, now: int, d: Desk, f: Feed)
    requires d.pending.Some? ==> f.instrument.Some?
    requires d.exitOrder.Some? ==> d.position.Some?
    ensures var (e, g) := ExecuteBook(cfg, now, d, f);
            var exits := d.exitOrder.Some? && Live(d.exitOrder.value.active, now, f.time);
            var enters := !exits && d.pending.Some? && Live(d.pending.value.active, now, f.time);
            && (!Fresh(cfg, now, f) || (!exits && !enters) ==> (e, g) == (d, f))
            && (Fresh(cfg, now, f) && exits && d.exitOrder.value.lastBook == f.serial ==> (e, g) == (d, f))
            && (Fresh(cfg, now, f) && enters ==>
                  && g.taken == (if d.pending.value.proposal.passive then f.taken else g.taken)
                  && (d.pending.value.proposal.passive ==>
                        e.position == d.position && (d.pending.value.activated ==> e == d))
                  && (!d.pending.value.proposal.passive ==> e.pending.None? && e.exitOrder == d.exitOrder))
            && (e.exitOrder.Some? && exits && Fresh(cfg, now, f) && d.exitOrder.value.lastBook != f.serial ==>
                  e.exitOrder.value == d.exitOrder.value.(lastBook := f.serial))
  {
    hide ExitLevels, EntryLevels, Visible;
    if d.exitOrder.Some? && Fresh(cfg, now, f) {
      var d1 := d.(exitOrder := Some(d.exitOrder.value.(lastBook := f.serial)));
      ExitKeepsOrder(cfg, now, d1, f, Facing(f.book.value, d.position.value.side));
    }
    if d.pending.Some? && Fresh(cfg, now, f) && !d.pending.value.proposal.passive {
      EntryKeepsExit(cfg, now, d, f, f.instrument.value.step,
                     Facing(f.book.value, d.pending.value.proposal.side.Opposite()));
    }
  }

  lemma {:induction false} ExitKeepsOrder(cfg: Config, now: int, d: Desk, f: Feed, levels: seq<Level>)
    requires d.position.Some? && d.exitOrder.Some?
    ensures var e := ExitLevels(cfg, now, d, f, levels).0; e.exitOrder.Some? ==> e.exitOrder == d.exitOrder
    decreases |levels|
  {
    hide ExitLevel;
    if levels != [] {
      ExitLevelDrains(cfg, now, d, f, levels[0], DepthKey(true, 0.0));
      var (d1, f1) := ExitLevel(cfg, now, d, f, levels[0]);
      if d1.position.Some? {
        ExitKeepsOrder(cfg, now, d1, f1, levels[1..]);
      } else {
        FlatHasNoExit(cfg, now, d, f, levels[0]);
      }
    }
  }

  lemma FlatHasNoExit(cfg: Config, now: int, d: Desk, f: Feed, level: Level)
    requires d.position.Some? && d.exitOrder.Some?
    ensures var e := ExitLevel(cfg, now, d, f, level).0; e.position.None? ==> e.exitOrder.None?
  {
    hide Slipped, FeeOf, Gain;
  }

  lemma {:induction false} EntryKeepsExit(cfg: Config, now: int, d: Desk, f: Feed, step: Positive, levels: seq<Level>)
    ensures EntryLevels(cfg, now, d, f, step, levels).0.exitOrder == d.exitOrder
    decreases |levels|
  {
    hide BeyondLimit, Slipped, Averaged, FeeOf, RoundDown;
    if levels != [] && d.pending.Some? && !BeyondLimit(cfg, d.pending.value, levels[0]) {
      var (d1, f1) := EntryLevel(cfg, now, d, f, step, levels[0]);
      EntryKeepsExit(cfg, now, d1, f1, step, levels[1..]);
    }
  }

  /** A level an immediate order may take: within its limit after slippage, and not yet at its stop. */
  predicate Takeable(cfg: Config, p: Proposal, limit: real, price: real) {
    var fill := if p.side.Long? then price * (1.0 + cfg.slip) else price * (1.0 - cfg.slip);
    if p.side.Long? then p.stop < fill <= limit else limit <= fill < p.stop
  }

  lemma TakeableIs(cfg: Config, o: Order, level: Level)
    ensures BeyondLimit(cfg, o, level) <==> !Takeable(cfg, o.proposal, o.limit, level.price)
  {
    SlippedIsWorse(cfg, o.proposal.side, level.price);
    hide Slipped;
  }

  /** How many levels, best first, an order may take before the first it may not. */
  function Reach(cfg: Config, p: Proposal, limit: real, levels: seq<Level>): (n: nat)
    ensures n <= |levels|
    decreases |levels|
  {
    if levels == [] || !Takeable(cfg, p, limit, levels[0].price) then 0
    else 1 + Reach(cfg, p, limit, levels[1..])
  }

  /** One level: the order is done, or less than a step of it or of the order is left, and nothing else has grown. */
  lemma EntryLevelDrains(cfg: Config, now: int, d: Desk, f: Feed, step: Positive, level: Level, k: DepthKey)
    requires d.pending.Some? && d.pending.value.remaining >= 0.0
    ensures var (e, g) := EntryLevel(cfg, now, d, f, step, level);
            && At(g.available, k) <= At(f.available, k)
            && (e.pending.Some? ==>
                  && Reduced(d.pending.value, e.pending.value)
                  && 0.0 <= e.pending.value.remaining <= d.pending.value.remaining
                  && Min(At(g.available, DepthKey(d.pending.value.proposal.side.Short?, level.price)),
                         e.pending.value.remaining) < step)
  {
    hide Slipped, Averaged, FeeOf, Whole;
  }

  /**
   An immediate order sweeps every level within its reach: in the end it is done, or at each of them less than a step
   is left of the level or of the order.
   */
  lemma {:induction false} EntrySweepsReach(cfg: Config, now: int, d: Desk, f: Feed, step: Positive, levels: seq<Level>,
                                            j: nat)
    requires d.pending.Some? && d.pending.value.remaining >= 0.0
    requires j < Reach(cfg, d.pending.value.proposal, d.pending.value.limit, levels)
    ensures var (e, g) := EntryLevels(cfg, now, d, f, step, levels);
            e.pending.Some? ==>
              Min(At(g.available, DepthKey(d.pending.value.proposal.side.Short?, levels[j].price)),
                  e.pending.value.remaining) < step
    decreases |levels|
  {
    hide EntryLevel, At, BeyondLimit, Takeable;
    TakeableIs(cfg, d.pending.value, levels[0]);
    var k := DepthKey(d.pending.value.proposal.side.Short?, levels[j].price);
    EntryLevelDrains(cfg, now, d, f, step, levels[0], k);
    var (d1, f1) := EntryLevel(cfg, now, d, f, step, levels[0]);
    if d1.pending.Some? {
      if j == 0 {
        EntryOnlyLowers(cfg, now, d1, f1, step, levels[1..], k);
      } else {
        EntrySweepsReach(cfg, now, d1, f1, step, levels[1..], j - 1);
      }
    }
  }

  lemma {:induction false} EntryOnlyLowers(cfg: Config, now: int, d: Desk, f: Feed, step: Positive, levels: seq<Level>,
                                           k: DepthKey)
    requires d.pending.Some? && d.pending.value.remaining >= 0.0
    ensures var (e, g) := EntryLevels(cfg, now, d, f, step, levels);
            && At(g.available, k) <= At(f.available, k)
            && (e.pending.Some? ==> e.pending.value.remaining <= d.pending.value.remaining)
    decreases |levels|
  {
    hide EntryLevel, At, BeyondLimit;
    if levels != [] && !BeyondLimit(cfg, d.pending.value, levels[0]) {
      EntryLevelDrains(cfg, now, d, f, step, levels[0], k);
      var (d1, f1) := EntryLevel(cfg, now, d, f, step, levels[0]);
      if d1.pending.Some? {
        EntryOnlyLowers(cfg, now, d1, f1, step, levels[1..], k);
      }
    }
  }
}
