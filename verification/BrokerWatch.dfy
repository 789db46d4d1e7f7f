/** How the paper broker watches orders and positions: deadlines, activation, dangers, frames, fills and exposure. */
module BrokerWatch {
  import opened Basics
  import opened Market
  import opened Ledger
  import opened BrokerModel
  import opened BrokerFacts
  import opened BrokerRules
  import BrokerQuiet
  import BrokerRuns
  import BrokerSettlement
  import MakerQueue

  // ---------------------------------------------------------------- orders

  /** The cancel time of an order once a cancel is asked for: set after the latency, never moved. */
  function CancelTime(cfg: Config, now: int, o: Order): Option<int> {
    if o.cancelAt.None? then Some(now + cfg.latency) else o.cancelAt
  }

  lemma CancelsExactly(cfg: Config, now: int, d: Desk, reason: Reason)
    ensures var e := Cancel(cfg, now, d, reason);
            && e == d.(pending := e.pending, events := e.events)
            && (d.pending.None? ==> e.pending.None?)
            && e.events == d.events + (if d.pending.Some? && d.pending.value.cancelAt.None?
                                       then [Noted(now, CancelRequested(reason))] else [])
            && (d.pending.Some? ==>
                  e.pending == Some(d.pending.value.(cancelAt := CancelTime(cfg, now, d.pending.value))))
  {
  }

  /** An exit is asked for once: live after the latency, for its first reason, with the pending entry cancelled. */
  lemma RequestsExactly(cfg: Config, now: int, d: Desk, reason: Reason)
    ensures var e := RequestExit(cfg, now, d, reason);
            && e == d.(pending := e.pending, exitOrder := e.exitOrder, events := e.events)
            && if d.position.Some? && d.exitOrder.None? then
                 && e.exitOrder == Some(ExitOrder(now + cfg.latency, reason, -1))
                 && |d.events| < |e.events| && e.events[|e.events| - 1] == Noted(now, ExitRequested(reason))
                 && d.events <= e.events
                 && (d.pending.None? ==> e.pending.None?)
                 && (d.pending.Some? ==>
                       e.pending == Some(d.pending.value.(cancelAt := CancelTime(cfg, now, d.pending.value))))
               else e == d
  {
  }

  /** An order goes at its cancel time, which is at most the latency after its time to live. */
  lemma ExpiresExactly(cfg: Config, now: int, d: Desk)
    requires d.pending.Some?
    ensures var o, e := d.pending.value, ExpirePending(cfg, now, d);
            var late := o.expires + cfg.latency;
            var gone := (o.cancelAt.Some? && now >= o.cancelAt.value) || now >= late;
            && (e.pending.None? <==> gone)
            && e == d.(pending := e.pending, events := e.events)
            && (!gone ==>
                  e.pending == Some(o.(cancelAt := if now < o.expires then o.cancelAt
                                                   else if o.cancelAt.Some? && o.cancelAt.value <= late then o.cancelAt
                                                   else Some(late))))
  {
  }

  /** A due passive order is dropped if it would trade at once, or if nothing is shown at its price. */
  lemma ActivatesExactly(now: int, d: Desk, b: BookView)
    requires d.pending.Some?
    ensures var o, e := d.pending.value, Activate(now, d, b);
            var levels := if o.proposal.side.Long? then b.bids else b.asks;
            var crosses := if o.proposal.side.Long? then o.limit >= b.asks[0].price else o.limit <= b.bids[0].price;
            && (e.pending.Some? <==> !crosses && exists l :: l in levels && Near(l.price, o.limit))
            && (e.pending.Some? ==>
                  e.pending.value.activated && e.pending.value == o.(activated := true, queue := e.pending.value.queue))
  {
    var o := d.pending.value;
    VisibleExactly(Facing(b, o.proposal.side), o.limit);
    hide Visible, Near;
  }

  /** Within a billionth of a price. */
  predicate Near(x: real, y: real) {
    y - 0.000000001 < x < y + 0.000000001
  }

  lemma {:induction false} VisibleExactly(levels: seq<Level>, price: real)
    ensures Visible(levels, price).Some? <==> exists l :: l in levels && Near(l.price, price)
    decreases |levels|
  {
    if levels != [] {
      VisibleExactly(levels[1..], price);
      assert levels[0] in levels;
      assert forall l :: l in levels <==> l == levels[0] || l in levels[1..];
    }
  }

  /** A print counts for a live resting order from the other side at its limit or through it, while both are recent. */
  lemma CountsExactly(cfg: Config, now: int, o: Order, f: Feed, occurred: int, side: Side, price: real)
    ensures Eligible(cfg, now, o, f, occurred, side, price)
       <==> o.activated && o.active <= occurred && o.active <= now && now <= occurred + 5_000 && occurred <= now + 500
            && Current(cfg, now, f)
            && if o.proposal.side.Long? then side.Short? && price <= o.limit else side.Long? && price >= o.limit
  {
  }

  // ---------------------------------------------------------------- books

  /** The size shown at a price: that of the last level with it. */
  function LastShown(levels: seq<Level>, price: real): Size {
    if levels == [] then 0.0
    else
      var n := |levels| - 1;
      if levels[n].price == price then levels[n].qty else LastShown(levels[..n], price)
  }

  lemma {:induction false} SideSizesExactly(bid: bool, levels: seq<Level>, key: DepthKey)
    ensures key.bid == bid ==> At(SideSizes(bid, levels), key) == LastShown(levels, key.price)
    ensures key.bid != bid ==> key !in SideSizes(bid, levels)
    ensures key in SideSizes(bid, levels) ==> key.bid == bid
  {
    if levels != [] {
      SideSizesExactly(bid, levels[..|levels| - 1], key);
    }
  }

  lemma SizesExactly(b: BookView, key: DepthKey)
    ensures At(Sizes(b), key) == LastShown(if key.bid then b.bids else b.asks, key.price)
  {
    SideSizesExactly(true, b.bids, key);
    SideSizesExactly(false, b.asks, key);
    hide SideSizes, LastShown;
  }

  /**
   A book late by five seconds, or early by half of one, leaves none; any other is shown, stamped, and what is
   available at each price moves by what is shown now less what was shown before, never below nothing.
   */
  lemma BooksExactly(cfg: Config, s: State, e: Event, key: DepthKey)
    requires Sane(s) && e.data.Book?
    ensures var t := Dispatch(cfg, s, e).0;
            var f := AcceptBook(s.now, s.feed, e.data.book);
            if s.now > e.occurred + 5_000 || e.occurred > s.now + 500 then t == s.(feed := s.feed.(book := None))
            else
              && f.book == Some(e.data.book) && f.time == s.now && f.serial == s.feed.serial + 1
              && (key in s.feed.size || At(Sizes(e.data.book), key) > 0.0 ==>
                    At(f.available, key)
                    == Max(0.0, At(s.feed.available, key) - At(s.feed.size, key)
                                + LastShown(if key.bid then e.data.book.bids else e.data.book.asks, key.price)))
              && t == s.(desk := ExecuteBook(cfg, s.now, s.desk, f).0, feed := ExecuteBook(cfg, s.now, s.desk, f).1)
  {
    hide ExecuteBook, LastShown, Sizes;
    SizesExactly(e.data.book, key);
  }

  // ---------------------------------------------------------------- dangers

  /** A settlement more than five seconds past whose rate has not come. */
  ghost predicate RateMissing(now: int, u: Funding) {
    exists t | t in u.unresolved :: now > t + 5_000
  }

  /** What asks for an exit: no rate, no current book, stop or target at the touch, time, or too much exposure. */
  ghost predicate Endangered(cfg: Config, s: State)
    requires s.desk.position.Some?
  {
    var p := s.desk.position.value;
    || RateMissing(s.now, s.funding) || !Current(cfg, s.now, s.feed) || s.now >= p.expires
    || (var b := s.feed.book.value;
        var touch := ExitTouch(b, p.side);
        || (if p.side.Long? then touch <= p.stop else touch >= p.stop)
        || (!p.family.SpotTrend? && if p.side.Long? then touch >= p.target else touch <= p.target)
        || p.qty * touch > (if WorthNow(cfg, s.desk, b) > 0.0 then WorthNow(cfg, s.desk, b) else 0.0) * cfg.exposure)
  }

  lemma ExposedIs(cfg: Config, d: Desk, b: BookView)
    requires d.position.Some?
    ensures var p := d.position.value;
            OverExposed(cfg, d, b)
            <==> p.qty * ExitTouch(b, p.side)
                 > (if WorthNow(cfg, d, b) > 0.0 then WorthNow(cfg, d, b) else 0.0) * cfg.exposure
  {
    var p := d.position.value;
    GainIs(p, ExitTouch(b, p.side));
    assert d.cash + OpenValue(cfg, p, Touch(b, p.side)) == WorthNow(cfg, d, b) by {
      hide Gain, Gained;
    }
    hide OpenValue, WorthNow;
  }

  /** Maintenance asks for an exit exactly when the position is endangered and none is out. */
  lemma MaintainsExactly(cfg: Config, s: State)
    ensures var t := Maintenance(cfg, s);
            && t.desk.position == s.desk.position
            && t == s.(desk := t.desk, guard := s.guard.(incomplete := t.guard.incomplete))
            && (t.guard.incomplete <==>
                  s.guard.incomplete || RateMissing(s.now, s.funding)
                  || (s.desk.position.Some? && !Current(cfg, s.now, s.feed)))
            && (s.desk.position.None? ==> t.desk == s.desk)
            && (s.desk.position.Some? ==>
                  && (s.desk.exitOrder.Some? ==> t.desk == s.desk)
                  && (s.desk.exitOrder.None? ==>
                        && (t.desk.exitOrder.Some? <==> Endangered(cfg, s))
                        && (t.desk.exitOrder.Some? ==> t.desk.exitOrder.value.active == s.now + cfg.latency)
                        && (t.desk.exitOrder.None? ==> t.desk == s.desk)))
  {
    hide OverExposed, Endangered, RequestExit, RateMissing, Fresh, Current, WorthNow, Overdue, StopBreached, TargetReached;
    OverdueIs(s.now, s.funding);
    FreshIs(cfg, s.now, s.feed);
    CurrentSees(cfg, s.now, s.feed);
    if s.desk.position.Some? {
      DangerIs(cfg, s);
      RequestsAll(cfg, s.now, s.desk);
    } else {
      RequestsExactly(cfg, s.now, s.desk, FundingNotVerified);
    }
  }

  lemma OverdueIs(now: int, u: Funding)
    ensures Overdue(now, u) <==> RateMissing(now, u)
  {
    if t :| t in u.unresolved && t + 5000 < now {
      assert now > t + 5_000;
    }
    if t :| t in u.unresolved && now > t + 5_000 {
      assert t + 5000 < now;
    }
  }

  lemma DangerIs(cfg: Config, s: State)
    requires s.desk.position.Some?
    ensures Endangered(cfg, s)
       <==> Overdue(s.now, s.funding) || !Fresh(cfg, s.now, s.feed)
            || StopBreached(s.desk.position.value, s.feed.book.value)
            || TargetReached(s.desk.position.value, s.feed.book.value)
            || s.now >= s.desk.position.value.expires || OverExposed(cfg, s.desk, s.feed.book.value)
  {
    hide OverExposed, RateMissing, Overdue, WorthNow;
    OverdueIs(s.now, s.funding);
    FreshIs(cfg, s.now, s.feed);
    if Current(cfg, s.now, s.feed) {
      ExposedIs(cfg, s.desk, s.feed.book.value);
    }
    hide Fresh;
  }

  /** Any request: nothing changes with an exit out; otherwise one is out, live after the latency. */
  lemma RequestsAll(cfg: Config, now: int, d: Desk)
    requires d.position.Some?
    ensures forall reason :: var e := RequestExit(cfg, now, d, reason);
                             && e.position == d.position && e.exitOrder.Some?
                             && (d.exitOrder.Some? ==> e == d)
                             && (d.exitOrder.None? ==> e.exitOrder.value.active == now + cfg.latency)
                             && forall other :: RequestExit(cfg, now, e, other) == e
  {
    forall reason
      ensures var e := RequestExit(cfg, now, d, reason);
              && e.position == d.position && e.exitOrder.Some?
              && (d.exitOrder.Some? ==> e == d)
              && (d.exitOrder.None? ==> e.exitOrder.value.active == now + cfg.latency)
              && forall other :: RequestExit(cfg, now, e, other) == e
    {
      RequestsExactly(cfg, now, d, reason);
    }
  }

  /** After the checks that end an event a position has an exit out exactly if it had, is endangered, or is latched. */
  lemma ChecksExactly(cfg: Config, s: State)
    requires s.desk.position.Some?
    ensures var t := Circuit(cfg, Maintenance(cfg, s));
            t.desk.exitOrder.Some? <==>
              s.desk.exitOrder.Some? || Endangered(cfg, s) || t.guard.halted || t.guard.dayHalted
  {
    hide Maintenance, Circuit, Endangered, Equity, Marked;
    MaintainsExactly(cfg, s);
    var m := Maintenance(cfg, s);
    CircuitExactly(cfg, m);
    EquityExactly(cfg, m.now, m.desk, m.feed);
    StaleIsDanger(cfg, s);
    hide WorthNow, Current;
  }

  lemma StaleIsDanger(cfg: Config, s: State)
    requires s.desk.position.Some?
    ensures !Current(cfg, s.now, s.feed) ==> Endangered(cfg, s)
  {
  }

  // ---------------------------------------------------------------- frames

  /** Flow against the position by more than a tenth: of the spot for a trend, of the perpetual otherwise. */
  predicate Adverse(p: Position, f: Frame) {
    var flow := if p.family.SpotTrend? then f.spotBias else f.perpFlow;
    if p.side.Long? then flow < -0.1 else flow > 0.1
  }

  lemma AdverseIs(p: Position, f: Frame)
    ensures Invalidated(p, f) <==> Adverse(p, f)
  {
  }

  /** The stop a trend position trails to: two average ranges behind the price, if that is closer. */
  function TrailTo(p: Position, f: Frame): real {
    var level := if p.side.Long? then f.price - 2.0 * f.atr else f.price + 2.0 * f.atr;
    if p.side.Long? then (if level > p.stop then level else p.stop) else if level < p.stop then level else p.stop
  }

  /**
   A frame remembers when adverse flow began and forgets it when it ends, asks for an exit once it has lasted ten
   seconds, and, once a minute, tightens a trend position's stop.
   */
  lemma ManagesExactly(cfg: Config, now: int, d: Desk, f: Frame)
    requires d.position.Some?
    ensures var p, e := d.position.value, ManageFrame(cfg, now, d, f);
            && e.lastBadFlow == (if !Adverse(p, f) then None
                                 else if d.lastBadFlow.None? then Some(f.time) else d.lastBadFlow)
            && (e.exitOrder != d.exitOrder <==>
                  d.exitOrder.None? && Adverse(p, f) && d.lastBadFlow.Some? && f.time >= d.lastBadFlow.value + 10_000)
            && (e.exitOrder != d.exitOrder ==> e.exitOrder == Some(ExitOrder(now + cfg.latency, FlowInvalidated, -1)))
            && (var trails := p.family.SpotTrend? && f.time / 60_000 != d.lastTrailing;
                && e.position == Some(if trails then p.(stop := TrailTo(p, f)) else p)
                && e.lastTrailing == if trails then f.time / 60_000 else d.lastTrailing)
            && e == d.(position := e.position, exitOrder := e.exitOrder, pending := e.pending, events := e.events,
                       lastBadFlow := e.lastBadFlow, lastTrailing := e.lastTrailing)
  {
    hide Invalidated, RequestExit, Adverse;
    AdverseIs(d.position.value, f);
    RequestsExactly(cfg, now, d, FlowInvalidated);
  }

  /** The account after frames, each at the clock it meets. */
  function ManagedAll(cfg: Config, d: Desk, frames: seq<(int, Frame)>): Desk {
    if frames == [] then d
    else
      var last := frames[|frames| - 1];
      ManageFrame(cfg, last.0, ManagedAll(cfg, d, frames[..|frames| - 1]), last.1)
  }

  /** Frames i and on are all adverse to the position. */
  ghost predicate AdverseFrom(p: Position, frames: seq<(int, Frame)>, i: nat) {
    i < |frames| && forall k | i <= k < |frames| :: Adverse(p, frames[k].1)
  }

  lemma AdverseIgnoresStop(p: Position, q: Position, f: Frame)
    requires q == p.(stop := q.stop)
    ensures Adverse(q, f) == Adverse(p, f)
  {
  }

  /** The beginning remembered is that of the unbroken adverse stretch the frames end with. */
  lemma {:induction false} StretchExactly(cfg: Config, d: Desk, frames: seq<(int, Frame)>)
    requires d.position.Some? && d.lastBadFlow.None?
    ensures var e := ManagedAll(cfg, d, frames);
            && e.position.Some? && e.position.value == d.position.value.(stop := e.position.value.stop)
            && (e.lastBadFlow.None? <==> frames == [] || !Adverse(d.position.value, frames[|frames| - 1].1))
            && (e.lastBadFlow.Some? ==>
                  exists i: nat ::
                    && i < |frames| && AdverseFrom(d.position.value, frames, i)
                    && e.lastBadFlow == Some(frames[i].1.time)
                    && (i > 0 ==> !Adverse(d.position.value, frames[i - 1].1)))
  {
    hide ManageFrame, Adverse, AdverseFrom;
    if frames != [] {
      var n := |frames| - 1;
      var p := d.position.value;
      StretchExactly(cfg, d, frames[..n]);
      var before := ManagedAll(cfg, d, frames[..n]);
      ManagesExactly(cfg, frames[n].0, before, frames[n].1);
      AdverseIgnoresStop(p, before.position.value, frames[n].1);
      if Adverse(p, frames[n].1) {
        if before.lastBadFlow.Some? {
          var i: nat :| i < n && AdverseFrom(p, frames[..n], i) && before.lastBadFlow == Some(frames[..n][i].1.time)
                   && (i > 0 ==> !Adverse(p, frames[..n][i - 1].1));
          StretchGrows(p, frames, i);
        } else {
          StretchBegins(p, frames);
          assert n > 0 ==> frames[..n][n - 1] == frames[n - 1];
        }
      }
    }
  }

  lemma StretchGrows(p: Position, frames: seq<(int, Frame)>, i: nat)
    requires frames != [] && i < |frames| - 1
    requires AdverseFrom(p, frames[..|frames| - 1], i) && Adverse(p, frames[|frames| - 1].1)
    ensures AdverseFrom(p, frames, i) && frames[..|frames| - 1][i] == frames[i]
    ensures i > 0 ==> frames[..|frames| - 1][i - 1] == frames[i - 1]
  {
    hide Adverse;
    forall k | i <= k < |frames|
      ensures Adverse(p, frames[k].1)
    {
      if k < |frames| - 1 {
        assert frames[..|frames| - 1][k] == frames[k];
      }
    }
  }

  lemma StretchBegins(p: Position, frames: seq<(int, Frame)>)
    requires frames != [] && Adverse(p, frames[|frames| - 1].1)
    ensures AdverseFrom(p, frames, |frames| - 1)
  {
    hide Adverse;
  }

  // ---------------------------------------------------------------- proposals at an open position

  /**
   A present proposal that meets a position never enters: an opposite one asks for an exit, a spot trend on the same
   side, if allowed, takes the position over, and any other changes nothing but the count and the log.
   */
  lemma RedirectsExactly(cfg: Config, s: State, p: Proposal, allowed: bool)
    requires Sane(s) && s.desk.position.Some? && p.time == s.now
    ensures var (t, reply) := Propose(cfg, s, p, allowed);
            var pos := s.desk.position.value;
            && reply.Declined? && t == s.(proposals := s.proposals + 1, desk := t.desk)
            && t.desk.cash == s.desk.cash && t.desk.trades == s.desk.trades && s.desk.events < t.desk.events
            && if p.side != pos.side then
                 && t.desk.position == s.desk.position
                 && t.desk.exitOrder == (if s.desk.exitOrder.Some? then s.desk.exitOrder
                                         else Some(ExitOrder(s.now + cfg.latency, OppositeSignal, -1)))
               else
                 && t.desk.exitOrder == s.desk.exitOrder && t.desk.pending == s.desk.pending
                 && t.desk.position ==
                      Some(if p.family.SpotTrend? && !pos.family.SpotTrend? && (cfg.mode.Calibrated? ==> allowed) then
                             pos.(family := SpotTrend, expires := s.now + p.hold,
                                  stop := if p.side.Long? then (if p.stop > pos.stop then p.stop else pos.stop)
                                          else if p.stop < pos.stop then p.stop else pos.stop)
                           else pos)
  {
    hide Enter;
    if p.side != s.desk.position.value.side {
      RequestsExactly(cfg, s.now, Record(s.now, s.desk, ProposalSeen(p.family, p.side)), OppositeSignal);
    }
  }

  // ---------------------------------------------------------------- positions and trades

  /** A first fill opens the next position on its order's terms; the order goes when less than half a step is left. */
  lemma OpensExactly(now: int, d: Desk, step: Positive, qty: Positive, price: real, feeRate: real)
    requires d.pending.Some? && d.position.None?
    ensures var o, e := d.pending.value, EntryFill(now, d, step, qty, price, feeRate);
            && e.position.Some?
            && (var p := e.position.value;
                && p.id == d.serial + 1 == e.serial && p.side == o.proposal.side && p.qty == p.totalQty == qty
                && p.entry == price && p.stop == p.planned == o.proposal.stop && p.target == o.proposal.target
                && p.family == p.initialFamily == o.proposal.family && p.openedAt == now
                && p.expires == now + o.proposal.hold && p.gross == p.funding == 0.0 && p.riskBudget == o.riskBudget
                && p.fees == qty * price * feeRate && e.cash == d.cash - p.fees)
            && (e.pending.None? <==> o.remaining - qty < step / 2.0)
            && (e.pending.Some? ==> e.pending.value == o.(remaining := o.remaining - qty))
  {
    FirstAverage(price, qty);
    hide Averaged;
  }

  lemma FirstAverage(price: real, qty: Positive)
    ensures Averaged(0.0, 0.0, price, qty) == price
  {
    assert (price * qty) / qty == price;
  }

  /** Selling the last of a position files its trade, forgets it and its orders, and starts the cooldown. */
  lemma ClosesExactly(cfg: Config, now: int, d: Desk, offered: Positive, price: real)
    requires d.position.Some? && d.exitOrder.Some? && offered >= d.position.value.qty
    ensures var p, e := d.position.value, ExitFill(cfg, now, d, offered, price);
            var fee := p.qty * price * cfg.takerFee;
            && e.position.None? && e.exitOrder.None? && e.pending.None? && e.lastExit == now
            && e.cash == d.cash + Gained(p, price) - fee
            && |e.trades| == |d.trades| + 1 && e.trades[..|d.trades|] == d.trades
            && var t := e.trades[|d.trades|];
               && t.id == p.id && t.riskBudget == p.riskBudget && t.entryTime == p.openedAt && t.exitTime == now
               && t.side == p.side && t.family == p.initialFamily && t.finalFamily == p.family
               && t.quantity == p.totalQty && t.gross == p.gross + Gained(p, price) && t.fees == p.fees + fee
               && t.funding == p.funding && t.net == t.gross - t.fees - t.funding
               && t.netR == t.net / p.riskBudget && t.reason == d.exitOrder.value.reason
  {
    GainIs(d.position.value, price);
    hide Gain, Gained;
  }

  // ---------------------------------------------------------------- exposure

  /** The last mark stamped before a time; later ones are all at it or after. */
  ghost predicate LastBefore(h: seq<Mark>, time: int, i: nat) {
    i < |h| && h[i].time < time && forall k | i < k < |h| :: h[k].time >= time
  }

  lemma {:induction false} SnapshotExactly(h: seq<Mark>, time: int)
    ensures Snapshot(h, time).None? <==> forall k | 0 <= k < |h| :: h[k].time >= time
    ensures Snapshot(h, time).Some? ==>
              exists i: nat :: LastBefore(h, time, i) && Snapshot(h, time) == Some(Exposure(h[i].id, h[i].side, h[i].qty))
  {
    if h != [] {
      var n := |h| - 1;
      SnapshotExactly(h[..n], time);
      if h[n].time < time {
        assert LastBefore(h, time, n);
      } else if Snapshot(h[..n], time).Some? {
        var i: nat :| LastBefore(h[..n], time, i)
                      && Snapshot(h[..n], time) == Some(Exposure(h[..n][i].id, h[..n][i].side, h[..n][i].qty));
        assert h[..n][i] == h[i];
        assert LastBefore(h, time, i) by {
          forall k | i < k < |h|
            ensures h[k].time >= time
          {
            if k < n {
              assert h[..n][k] == h[k];
            }
          }
        }
      } else {
        forall k | 0 <= k < |h|
          ensures h[k].time >= time
        {
          if k < n {
            assert h[..n][k] == h[k];
          }
        }
      }
    }
  }

  /** A settlement is charged to the exposure of the last fill strictly before it, if that left any. */
  lemma ExposesExactly(h: seq<Mark>, time: int, i: nat)
    requires LastBefore(h, time, i)
    ensures ExposureAt(h, time) == if h[i].qty > 0.0 then Some(Exposure(h[i].id, h[i].side, h[i].qty)) else None
  {
    SnapshotExactly(h, time);
    if Snapshot(h, time).Some? {
      var j: nat :| LastBefore(h, time, j) && Snapshot(h, time) == Some(Exposure(h[j].id, h[j].side, h[j].qty));
      LastIsUnique(h, time, i, j);
    }
    hide Snapshot;
  }

  lemma LastIsUnique(h: seq<Mark>, time: int, i: nat, j: nat)
    requires LastBefore(h, time, i) && LastBefore(h, time, j)
    ensures i == j
  {
  }

  /** The clock captures a due settlement's exposure once, unless it was already seen or captured. */
  lemma CapturesExactly(now: int, h: seq<Mark>, next: Option<int>, u: Funding)
    ensures var v := CaptureFunding(now, h, next, u);
            if next.Some? && next.value <= now && next.value !in u.seen && next.value !in u.obligations
               && ExposureAt(h, next.value).Some?
            then v == u.(obligations := u.obligations[next.value := ExposureAt(h, next.value).value],
                         unresolved := u.unresolved + {next.value})
            else v == u
  {
    hide ExposureAt;
  }

  // ---------------------------------------------------------------- settlements

  /** The trade or the open position with this id. */
  predicate HasOwner(d: Desk, id: int) {
    (d.position.Some? && d.position.value.id == id) || exists i | 0 <= i < |d.trades| :: d.trades[i].id == id
  }

  /** What a settlement is charged to: the exposure captured for it, or else what the fills before it leave. */
  function ExposureOf(s: State, time: int): Option<Exposure> {
    if time in s.funding.obligations then Some(s.funding.obligations[time]) else ExposureAt(s.desk.history, time)
  }

  /**
   A settlement of the future or without a price is refused, and one already known changes nothing. One that differs
   from what is known leaves the account incomplete and halted. A first one is recorded; a fill of its own millisecond
   leaves the account incomplete, and an exposure nobody owns also halted; a charge that comes late is a revision.
   */
  lemma SettlesExactly(s: State, time: int, rate: real, mark: real)
    ensures var (t, outcome) := ApplyFunding(s, time, rate, mark);
            var u, x := s.funding, ExposureOf(s, time);
            var tie := exists i: nat :: i < |s.desk.history| && s.desk.history[i].time == time;
            && (outcome.BadFunding? <==> mark <= 0.0 || time > s.now)
            && (outcome.BadFunding? ==> t == s)
            && (!outcome.BadFunding? && time in u.values ==>
                  && outcome.Done? && t.funding == u
                  && (u.values[time] == (rate, mark) ==> t == s)
                  && (u.values[time] != (rate, mark) ==>
                        && t.guard == s.guard.(incomplete := true, halted := true)
                        && t.desk == Record(s.now, s.desk, ConflictingFunding)))
            && (!outcome.BadFunding? && time !in u.values ==>
                  && (outcome.OrphanFunding? <==> x.Some? && !HasOwner(s.desk, x.value.id))
                  && t.guard == s.guard.(incomplete := s.guard.incomplete || tie || outcome.OrphanFunding?,
                                         halted := s.guard.halted || outcome.OrphanFunding?)
                  && t.funding == u.(values := u.values[time := (rate, mark)], seen := u.seen + {time},
                                     unresolved := u.unresolved - {time},
                                     revised := u.revised || (x.Some? && outcome.Done? && time < s.now))
                  && (x.Some? && outcome.Done? ==>
                        var cost := if x.value.side.Long? then x.value.qty * mark * rate
                                    else -(x.value.qty * mark * rate);
                        t.desk.events == s.desk.events + (if tie then [Noted(s.now, FundingTie)] else [])
                                         + [FundingPaid(s.now, cost, x.value.id, time)]))
  {
    if ExposureOf(s, time).Some? {
      BrokerSettlement.CostIsOwed(ExposureOf(s, time).value, rate, mark);
    }
    hide ExposureAt, FundingCost, Charged, OwnerIndex;
    TiedIs(s.desk.history, time);
    hide Tied;
    var x := ExposureOf(s, time);
    if x.Some? {
      OwnerIs(s.desk, x.value.id);
    }
    hide HasOwner;
  }

  lemma TiedIs(h: seq<Mark>, time: int)
    ensures Tied(h, time) <==> exists i: nat :: i < |h| && h[i].time == time
  {
  }

  lemma OwnerIs(d: Desk, id: int)
    ensures HasOwner(d, id)
       <==> (d.position.Some? && d.position.value.id == id) || OwnerIndex(d.trades, id) < |d.trades|
  {
  }

  /** A gap drops the book and asks for a cancel; with a position also for an exit, and the account is incomplete. */
  lemma GapExactly(cfg: Config, s: State)
    ensures var t := LoseBook(cfg, s);
            && t.feed == s.feed.(book := None) && t.funding == s.funding && t.desk.position == s.desk.position
            && t.guard == s.guard.(incomplete := s.guard.incomplete || s.desk.position.Some?)
            && (t.desk.pending.Some? <==> s.desk.pending.Some?)
            && (t.desk.pending.Some? ==> t.desk.pending.value.cancelAt == CancelTime(cfg, s.now, s.desk.pending.value))
            && (s.desk.position.Some? ==> t.desk.exitOrder.Some?)
            && (s.desk.position.None? ==> t.desk.exitOrder == s.desk.exitOrder)
  {
  }

  // ---------------------------------------------------------------- events

  /** Other venues are not heard: they move the clock and the deadlines, and have dangers checked, nothing more. */
  lemma OthersUnheard(cfg: Config, s: State, e: Event)
    requires Inv(cfg, s) && e.received >= s.now && e.source != cfg.venue
    ensures Sane(s)
    ensures var t := OnEvent(cfg, s, e).0;
            && t.feed == s.feed && t.funding.values == s.funding.values && t.desk.history == s.desk.history
            && t.desk.cash == s.desk.cash && t.desk.trades == s.desk.trades
  {
    hide DeskInv, Funded, DepthExact, Maintenance, Circuit, BrokerFacts.Onward, ExpirePending, CaptureFunding, Split;
    BrokerRuns.StayInv(cfg, s);
    BrokerRuns.ArriveKeeps(cfg, s, e.received);
    var s1 := Arrive(cfg, s, e.received);
    BrokerRuns.InvOrdered(cfg, s);
    BrokerRuns.InvOrdered(cfg, s1);
    BrokerQuiet.ExpireQuiet(cfg, s.now, e.received, s.desk);
    BrokerQuiet.MaintenanceQuiet(cfg, s1);
    BrokerQuiet.CircuitQuiet(cfg, Maintenance(cfg, s1));
    CaptureSameValues(e.received, s.desk.history, s.feed.nextFunding, s.funding);
    hide Ordered;
  }

  lemma CaptureSameValues(now: int, h: seq<Mark>, next: Option<int>, u: Funding)
    ensures CaptureFunding(now, h, next, u).values == u.values && CaptureFunding(now, h, next, u).seen == u.seen
  {
    hide ExposureAt;
  }

  /** Its own venue is heard: contract and funding time are taken over, a settlement is recorded, a gap drops the book. */
  lemma VenueHeard(cfg: Config, s: State, e: Event)
    requires Inv(cfg, s) && e.received >= s.now && e.source == cfg.venue
    ensures Sane(s)
    ensures var (t, outcome) := OnEvent(cfg, s, e);
            match e.data
            case ContractData(i) => t.feed == s.feed.(instrument := Some(i))
            case Context(next) => t.feed == s.feed.(nextFunding := if next.Some? then next else s.feed.nextFunding)
            case Settlement(rate, mark) =>
              && t.feed == s.feed
              && (outcome.BadFunding? <==> mark <= 0.0 || e.occurred > e.received)
              && (!outcome.BadFunding? && e.occurred !in s.funding.values ==>
                    t.funding.values == s.funding.values[e.occurred := (rate, mark)])
              && (outcome.BadFunding? || e.occurred in s.funding.values ==> t.funding.values == s.funding.values)
            case Gap => t.feed == s.feed.(book := None)
            case Health => t.feed == s.feed
            case _ => true
  {
    hide DeskInv, Funded, DepthExact, Maintenance, Circuit, BrokerFacts.Onward, ExpirePending, CaptureFunding, Split,
         ExecuteBook, MakerPrint, Eligible, Cancel, RequestExit;
    BrokerRuns.StayInv(cfg, s);
    BrokerRuns.ArriveKeeps(cfg, s, e.received);
    var s1 := Arrive(cfg, s, e.received);
    BrokerRuns.DispatchKeeps(cfg, s1, e);
    var s2 := Dispatch(cfg, s1, e).0;
    BrokerRuns.InvOrdered(cfg, s2);
    BrokerQuiet.MaintenanceQuiet(cfg, s2);
    BrokerQuiet.CircuitQuiet(cfg, Maintenance(cfg, s2));
    CaptureSameValues(e.received, s.desk.history, s.feed.nextFunding, s.funding);
    if e.data.Settlement? {
      SettlementRecords(cfg, s1, e.occurred, e.data.rate, e.data.mark);
    }
    hide Ordered;
  }

  lemma SettlementRecords(cfg: Config, s: State, time: int, rate: real, mark: real)
    requires Inv(cfg, s)
    ensures var (t, outcome) := ApplyFunding(s, time, rate, mark);
            && t.feed == s.feed && (outcome.BadFunding? <==> mark <= 0.0 || time > s.now)
            && (!outcome.BadFunding? ==> outcome.Done?)
            && t.funding.values == (if outcome.BadFunding? || time in s.funding.values then s.funding.values
                                    else s.funding.values[time := (rate, mark)])
  {
    BrokerSettlement.ApplyFundingKeeps(cfg, s, time, rate, mark);
    hide DeskInv, Funded, FundingCost, ExposureAt, OwnerIndex, Charged, DepthExact, Tied;
  }
}
