/** Each fill keeps every fact about the account: order, exposure history, books and risk. */
module BrokerFills {
  import opened Basics
  import opened Market
  import opened Ledger
  import opened BrokerModel
  import opened BrokerFacts
  import opened BrokerQuiet
  import opened BrokerRisk
  import opened BrokerFunding

  // ---------------------------------------------------------------- exposure history

  /** A mark that opens the next position once flat, or moves the current one: upward only if it never fell. */
  ghost predicate NextMark(h: seq<Mark>, m: Mark) {
    && m.qty >= 0.0
    && (h == [] ==> m.id == 1)
    && (h != [] ==>
          var last := h[|h| - 1];
          if m.id != last.id then m.id == last.id + 1 && last.qty == 0.0
          else
            && m.side == last.side && m.qty != last.qty && last.qty > 0.0
            && (m.qty > last.qty ==> forall i | Falls(h, i) :: h[i].id < m.id))
  }

  lemma FallsGrow(h: seq<Mark>, m: Mark)
    ensures forall i | 0 <= i < |h| :: SameLife(h + [m], i) == SameLife(h, i) && Falls(h + [m], i) == Falls(h, i)
    ensures Falls(h + [m], |h|) == (h != [] && m.id == h[|h| - 1].id && m.qty < h[|h| - 1].qty)
    ensures forall i | Falls(h + [m], i) :: 0 < i <= |h|
  {
  }

  lemma WavesGrow(h: seq<Mark>, m: Mark)
    requires Waves(h) && NextMark(h, m)
    ensures Waves(h + [m])
  {
    SuccessiveGrow(h, m);
    MovingGrow(h, m);
    forall i, j | Falls(h + [m], i) && i < j < |h| + 1 && (h + [m])[j].id == (h + [m])[i].id
      ensures Falls(h + [m], j)
    {
      StillFalling(h, m, i, j);
    }
  }

  lemma SuccessiveGrow(h: seq<Mark>, m: Mark)
    requires Successive(h) && NextMark(h, m)
    ensures Successive(h + [m])
  {
    hide Falls;
    var g := h + [m];
    forall i, j | 0 <= i < j < |g|
      ensures g[i].id <= g[j].id
    {
      if j == |h| {
        assert h[i].id <= h[|h| - 1].id <= m.id;
      }
    }
    forall i | 0 < i < |g| && !SameLife(g, i)
      ensures g[i].id == g[i - 1].id + 1 && g[i - 1].qty == 0.0
    {
      if i < |h| {
        assert !SameLife(h, i);
      }
    }
  }

  lemma MovingGrow(h: seq<Mark>, m: Mark)
    requires Moving(h) && NextMark(h, m)
    ensures Moving(h + [m])
  {
    hide Falls;
    var g := h + [m];
    forall i | SameLife(g, i)
      ensures g[i].side == g[i - 1].side && g[i].qty != g[i - 1].qty && g[i - 1].qty > 0.0
    {
      if i < |h| {
        assert SameLife(h, i);
      }
    }
  }

  lemma StillFalling(h: seq<Mark>, m: Mark, i: int, j: int)
    requires Waves(h) && NextMark(h, m)
    requires Falls(h + [m], i) && i < j <= |h| && (h + [m])[j].id == (h + [m])[i].id
    ensures Falls(h + [m], j)
  {
    FallsGrow(h, m);
    assert Falls(h, i);
    if j < |h| {
      assert Falls(h, j);
    } else {
      var last := h[|h| - 1];
      assert h[i].id <= last.id <= last.id + 1;
      assert last.id == m.id;
      assert m.qty <= last.qty;
    }
  }

  /** The desk e is d with one more mark m, which is its exposure. */
  ghost predicate Marks(d: Desk, e: Desk, m: Mark) {
    && e.history == d.history + [m] && e.serial == m.id
    && (if e.position.Some? then e.position.value.qty == m.qty && e.position.value.side == m.side else m.qty == 0.0)
    && (e.position.Some? && e.position.value.qty == e.position.value.totalQty ==>
          d.position.None? || d.position.value.qty == d.position.value.totalQty < m.qty)
  }

  lemma TrackedGrow(d: Desk, e: Desk, m: Mark)
    requires Tracked(d) && Marks(d, e, m) && NextMark(d.history, m)
    requires d.serial <= m.id
    requires d.position.None? ==> d.serial < m.id
    ensures Tracked(e)
  {
    FallsGrow(d.history, m);
    WavesGrow(d.history, m);
    hide Waves;
  }

  lemma EntryFillTracked(cfg: Config, now: int, d: Desk, step: Positive, qty: Positive, price: real, feeRate: real)
    requires d.pending.Some? && Ordered(cfg, now, d) && Tracked(d) && Numbered(d)
    ensures Tracked(EntryFill(now, d, step, qty, price, feeRate))
  {
    hide FeeOf, Averaged, Waves;
    var e := EntryFill(now, d, step, qty, price, feeRate);
    var p := e.position.value;
    TrackedGrow(d, e, Mark(now, p.id, p.side, p.qty));
  }

  lemma ExitFillTracked(cfg: Config, now: int, d: Desk, offered: Positive, price: real)
    requires d.pending.None? && d.position.Some? && d.exitOrder.Some? && Tracked(d) && Numbered(d)
    requires d.position.value.qty <= d.position.value.totalQty
    ensures Tracked(ExitFill(cfg, now, d, offered, price))
  {
    hide FeeOf, Gain, Waves;
    var p := d.position.value;
    TrackedGrow(d, ExitFill(cfg, now, d, offered, price), Mark(now, p.id, p.side, p.qty - Min(offered, p.qty)));
  }

  // ---------------------------------------------------------------- books

  lemma AveragedExact(entry: real, held: Size, price: real, qty: Positive)
    ensures Averaged(entry, held, price, qty) * (held + qty) == entry * held + qty * price
  {
  }

  lemma EntryFillBooked(cfg: Config, now: int, d: Desk, step: Positive, qty: Positive, price: real, feeRate: real)
    requires d.pending.Some? && Ordered(cfg, now, d) && Booked(d)
    ensures Booked(EntryFill(now, d, step, qty, price, feeRate))
  {
    hide FeeOf, Averaged, ClosedMatch, Split;
    var fee := FeeOf(qty, price, feeRate);
    var open := Split(d.events).open;
    SplitAppend(d.events, EntryFilled(now, qty, price, fee));
    FillsAppend(open.entries, Fill(qty, price, fee));
    if d.position.None? {
      AveragedExact(0.0, 0.0, price, qty);
    } else {
      AveragedExact(d.position.value.entry, d.position.value.qty, price, qty);
    }
  }

  lemma GainAdds(side: Side, entry: real, notional: real, sold: real, qty: real, price: real)
    ensures Sign(side, notional - entry * sold) + Gain(side, qty, entry, price)
            == Sign(side, (notional + qty * price) - entry * (sold + qty))
  {
    Distribute(price, entry, qty);
    Distribute(sold, qty, entry);
  }

  /** A closing fill extends the open segment, and completes it exactly when nothing is left. */
  lemma ExitSegment(now: int, g: Segment, p: Position, qty: Positive, price: real, fee: real, reason: Reason)
    requires OpenMatches(g, p) && qty <= p.qty
    ensures var h := Segment(g.entries, g.exits + [Fill(qty, price, fee)]);
            var gross := p.gross + Gain(p.side, qty, p.entry, price);
            && (Balanced(h) <==> qty == p.qty)
            && (qty < p.qty ==> OpenMatches(h, p.(gross := gross, fees := p.fees + fee, qty := p.qty - qty)))
            && (qty == p.qty ==> Matches(h, ClosedTrade(now, p, gross, p.fees + fee, reason)))
  {
    FillsAppend(g.exits, Fill(qty, price, fee));
    GainAdds(p.side, p.entry, Notional(g.exits), Quantity(g.exits), qty, price);
    hide Gain, Quantity, Notional, Fees;
  }

  lemma ExitFillBooked(cfg: Config, now: int, d: Desk, offered: Positive, price: real)
    requires d.pending.None? && d.position.Some? && d.exitOrder.Some? && Booked(d)
    ensures Booked(ExitFill(cfg, now, d, offered, price))
  {
    hide FeeOf, Gain, Split, Balanced, OpenMatches, Matches, ClosedTrade;
    var p := d.position.value;
    var qty := Min(offered, p.qty);
    var fee := FeeOf(qty, price, cfg.takerFee);
    var reason := d.exitOrder.value.reason;
    SplitAppend(d.events, ExitFilled(now, qty, price, fee, reason));
    ExitSegment(now, Split(d.events).open, p, qty, price, fee, reason);
  }

  lemma FillsKeepCash(cfg: Config, now: int, d: Desk, step: Positive, qty: Positive, price: real, feeRate: real)
    requires CashExact(cfg, d) && Numbered(d)
    ensures d.pending.Some? ==>
              var e := EntryFill(now, d, step, qty, price, feeRate);
              CashExact(cfg, e) && Numbered(e)
    ensures d.position.Some? && d.exitOrder.Some? ==>
              var e := ExitFill(cfg, now, d, qty, price);
              CashExact(cfg, e) && Numbered(e)
  {
    hide FeeOf, Averaged, Gain;
    if d.position.Some? && d.exitOrder.Some? {
      var p := d.position.value;
      var sold := Min(qty, p.qty);
      var fee := FeeOf(sold, price, cfg.takerFee);
      var t := ClosedTrade(now, p, p.gross + Gain(p.side, sold, p.entry, price), p.fees + fee,
                           d.exitOrder.value.reason);
      SumNetAppend(d.trades, t);
      hide SumNet;
    }
  }

  // ---------------------------------------------------------------- risk

  /** After a fill the order commits no more than its unfilled part, on the same terms. */
  lemma EntryCommitted(cfg: Config, now: int, d: Desk, step: Positive, qty: Positive, price: real, feeRate: real)
    requires d.pending.Some? && OrderGated(d.pending.value) && qty <= d.pending.value.remaining
    requires 0.0 <= Mul(d.pending.value.remaining - qty, UnitRisk(cfg, d.pending.value.proposal, d.pending.value.limit))
    ensures var o, e := d.pending.value, EntryFill(now, d, step, qty, price, feeRate);
            && Committed(cfg, e) <= Mul(o.remaining - qty, UnitRisk(cfg, o.proposal, o.limit))
            && (e.pending.Some? ==> OrderGated(e.pending.value))
  {
    hide FeeOf, Averaged, UnitRisk, StopDistance, Mul;
  }

  /** The loss a fill adds at the order's own stop comes out of what the order had committed. */
  lemma EntryLoss(cfg: Config, now: int, d: Desk, step: Positive, qty: Positive, price: real, feeRate: real)
    requires d.pending.Some? && OrderGated(d.pending.value) && WithinOrder(cfg, d.pending.value, qty, price, feeRate)
    ensures var o, e := d.pending.value, EntryFill(now, d, step, qty, price, feeRate);
            var entries := Split(d.events).open.entries;
            && (e.pending.Some? ==> OrderGated(e.pending.value))
            && (RiskSafe(cfg, o.proposal.side) ==>
                  StopLoss(cfg, o.proposal.side, Split(e.events).open.entries, o.proposal.stop) + Committed(cfg, e)
                  <= StopLoss(cfg, o.proposal.side, entries, o.proposal.stop) + Committed(cfg, d))
  {
    hide FeeOf, Averaged, UnitRisk, StopDistance, StopLoss, Split, OrderGated, Mul, RiskSafe;
    var o := d.pending.value;
    SplitAppend(d.events, EntryFilled(now, qty, price, FeeOf(qty, price, feeRate)));
    OrderFillLoss(cfg, o, Split(d.events).open.entries, o.proposal.stop, qty, price, feeRate);
    EntryCommitted(cfg, now, d, step, qty, price, feeRate);
  }

  lemma EntryFillRisk(cfg: Config, now: int, d: Desk, step: Positive, qty: Positive, price: Positive, feeRate: real)
    requires d.pending.Some? && Ordered(cfg, now, d) && Booked(d) && RiskBounded(cfg, d)
    requires WithinOrder(cfg, d.pending.value, qty, price, feeRate)
    ensures RiskBounded(cfg, EntryFill(now, d, step, qty, price, feeRate))
  {
    hide FeeOf, Averaged, StopLoss, Split, Committed, OrderGated, RiskSafe, OpenMatches, ClosedMatch, WithinOrder;
    EntryLoss(cfg, now, d, step, qty, price, feeRate);
    NoEntriesNoLoss(cfg, d.pending.value.proposal.side, d.pending.value.proposal.stop);
  }

  lemma NoEntriesNoLoss(cfg: Config, side: Side, stop: real)
    ensures StopLoss(cfg, side, [], stop) == 0.0
  {
    MulZero(StopProceeds(cfg, side, stop));
  }

  lemma ExitFillRisk(cfg: Config, now: int, d: Desk, offered: Positive, price: real)
    requires d.pending.None? && d.position.Some? && d.exitOrder.Some? && Booked(d) && RiskBounded(cfg, d)
    ensures RiskBounded(cfg, ExitFill(cfg, now, d, offered, price))
  {
    hide FeeOf, Gain, Split, Balanced, OpenMatches, Matches, ClosedTrade, StopLoss;
    var p := d.position.value;
    var qty := Min(offered, p.qty);
    var fee := FeeOf(qty, price, cfg.takerFee);
    var reason := d.exitOrder.value.reason;
    SplitAppend(d.events, ExitFilled(now, qty, price, fee, reason));
    ExitSegment(now, Split(d.events).open, p, qty, price, fee, reason);
  }
}
