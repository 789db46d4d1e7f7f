/** What every run of the tick broker keeps: one target for the whole position, sizes, cash and latches. */
module TickTheorems {
  import opened Basics
  import opened TickMarket
  import opened TickModel
  import MakerQueue
  import F = FlowModel

  function Total(position: Option<Held>): real {
    if position.Some? then position.value.total else 0.0
  }

  /** The open part of a position: whole lots, covered in full by its target, at the signal's side and limit. */
  ghost predicate Covered(p: Parameters, o: Orders, h: Held) {
    && o.signal.Some? && h.side == o.signal.value.side && h.entry == o.signal.value.limit
    && Whole(h.qty, p.lot) && h.qty <= h.total
    && o.target.Some? && o.target.value.remaining == h.qty && o.target.value.side == h.side.Opposite()
    && o.target.value.activated && o.target.value.queue >= 0.0
  }

  /** A resting entry: the signal's side and limit, whole lots left, and exactly what was submitted in all. */
  ghost predicate Resting(p: Parameters, o: Orders, total: real) {
    && o.pending.Some? && o.signal.Some?
    && o.pending.value.side == o.signal.value.side && o.pending.value.limit == o.signal.value.limit
    && o.pending.value.remaining > 0.0 && Whole(o.pending.value.remaining, p.lot) && o.pending.value.queue >= 0.0
    && total + o.pending.value.remaining == o.submitted
  }

  ghost predicate Placed(p: Parameters, o: Orders, position: Option<Held>) {
    && (position.Some? ==> Covered(p, o, position.value))
    && (position.None? ==> o.target.None?)
    && (o.pending.Some? ==> Resting(p, o, Total(position)))
    && Total(position) <= o.submitted
  }

  function SumNet(trades: seq<Closed>): real {
    if trades == [] then 0.0 else SumNet(trades[..|trades| - 1]) + trades[|trades| - 1].net
  }

  function Carried(position: Option<Held>): real {
    if position.None? then 0.0 else position.value.gross - position.value.fees - position.value.funding
  }

  /** Cash is the capital, every closed net, and what the open position has brought so far. */
  predicate Balanced(capital: real, a: Account) {
    a.cash == capital + SumNet(a.trades) + Carried(a.position)
  }

  /** Gross is what the exited lots sold for, less what they were bought for. */
  predicate GrossExact(side: Side, gross: real, proceeds: real, sold: real, entry: real) {
    gross == Sign(side, proceeds - Mul(sold, entry))
  }

  ghost predicate TradesExact(trades: seq<Closed>) {
    forall t | t in trades ::
      t.net == t.gross - t.fees - t.funding && GrossExact(t.side, t.gross, t.proceeds, t.quantity, t.entry)
  }

  predicate HeldExact(position: Option<Held>) {
    position.Some? ==>
      var h := position.value; GrossExact(h.side, h.gross, h.proceeds, h.total - h.qty, h.entry)
  }

  /** No entry rests while a latch is set. */
  predicate Quiet(s: State) {
    s.orders.pending.Some? ==> !s.limits.halted && !s.limits.dayHalted && !s.limits.incomplete
  }

  ghost predicate Books(p: Parameters, capital: real, s: State) {
    && Placed(p, s.orders, s.account.position)
    && Balanced(capital, s.account) && TradesExact(s.account.trades) && HeldExact(s.account.position)
  }

  ghost predicate Inv(p: Parameters, capital: real, s: State) {
    Books(p, capital, s) && Quiet(s)
  }

  lemma InvSane(p: Parameters, capital: real, s: State)
    requires Books(p, capital, s)
    ensures Sane(s)
  {
    hide Whole;
  }

  lemma InitInv(p: Parameters, capital: Positive)
    ensures Inv(p, capital, Init(capital))
  {
  }

  // ---------------------------------------------------------------- whole lots

  lemma WholeDifference(a: real, b: real, step: Positive)
    requires Whole(a, step) && Whole(b, step)
    ensures Whole(a - b, step)
  {
    var m: int :| a == Times(m, step);
    var n: int :| b == Times(n, step);
    Distribute(m as real, n as real, step);
    assert a - b == Times(m - n, step);
  }

  /** One print: whole lots within what is left, its share and what passed the queue, taken exactly from the order. */
  lemma FillExact(p: Parameters, o: Passive, t: Print)
    requires o.remaining >= 0.0 && Whole(o.remaining, p.lot) && o.queue >= 0.0
    ensures var q := FillOf(p, o, t);
            && 0.0 <= q <= o.remaining && Whole(q, p.lot) && Whole(o.remaining - q, p.lot)
            && (!Reached(o, t) ==> q == 0.0 && Filled(p, o, t) == o)
            && (Reached(o, t) ==>
                  && q <= MakerQueue.Share(t.qty, p.participation) && q <= Max(0.0, t.qty - o.queue)
                  && Filled(p, o, t) == o.(queue := Max(0.0, o.queue - t.qty), remaining := o.remaining - q))
  {
    hide Reached, MakerQueue.Fill, Whole;
    MakerQueue.FillStep(MakerQueue.Resting(o.queue, o.remaining), t.qty, p.participation, p.lot);
    MakerQueue.NothingFilled(p.participation, p.lot);
    WholeDifference(o.remaining, FillOf(p, o, t), p.lot);
  }

  /** The order after prints, in order. */
  function AfterPrints(p: Parameters, o: Passive, ts: seq<Print>): Passive {
    if ts == [] then o else Filled(p, AfterPrints(p, o, ts[..|ts| - 1]), ts[|ts| - 1])
  }

  /** What the order gets from prints. */
  function GotFrom(p: Parameters, o: Passive, ts: seq<Print>): real {
    if ts == [] then 0.0
    else
      var before := ts[..|ts| - 1];
      GotFrom(p, o, before) + FillOf(p, AfterPrints(p, o, before), ts[|ts| - 1])
  }

  /** Volume of the prints that reach the order. */
  function Reaching(o: Passive, ts: seq<Print>): real {
    if ts == [] then 0.0
    else Reaching(o, ts[..|ts| - 1]) + if Reached(o, ts[|ts| - 1]) then ts[|ts| - 1].qty else 0.0
  }

  lemma ReachedAlike(a: Passive, b: Passive, t: Print)
    requires a == b.(queue := a.queue, remaining := a.remaining)
    ensures Reached(a, t) == Reached(b, t)
  {
  }

  /**
   Whatever prints come, those of total volume V that reach an order behind Q give it whole lots: at most the order,
   participation * V, and the volume beyond Q; the queue and the remainder are exact.
   */
  lemma {:induction false} PrintsBounded(p: Parameters, o: Passive, ts: seq<Print>)
    requires o.remaining > 0.0 && Whole(o.remaining, p.lot) && o.queue >= 0.0
    ensures var v, got, after := Reaching(o, ts), GotFrom(p, o, ts), AfterPrints(p, o, ts);
            && v >= 0.0 && 0.0 <= got <= o.remaining && Whole(got, p.lot)
            && got <= MakerQueue.Share(v, p.participation) && got <= Max(0.0, v - o.queue)
            && after == o.(queue := Max(0.0, o.queue - v), remaining := o.remaining - got)
  {
    hide Reached, FillOf, Filled, Whole, MakerQueue.Share;
    if ts == [] {
      MakerQueue.NothingFilled(p.participation, p.lot);
    } else {
      var n := |ts| - 1;
      var t := ts[n];
      PrintsBounded(p, o, ts[..n]);
      var before, got, v := AfterPrints(p, o, ts[..n]), GotFrom(p, o, ts[..n]), Reaching(o, ts[..n]);
      ReachedAlike(before, o, t);
      WholeDifference(o.remaining, got, p.lot);
      FillExact(p, before, t);
      MakerQueue.WholeSum(got, FillOf(p, before, t), p.lot);
      if Reached(o, t) {
        MakerQueue.ShareAdds(v, t.qty, p.participation);
        MakerQueue.PastQueue(got, v, o.queue, FillOf(p, before, t), t.qty);
      }
    }
  }

  lemma WholeSumLots(a: real, b: real, step: Positive)
    requires Whole(a, step) && Whole(b, step)
    ensures Whole(a + b, step)
  {
    MakerQueue.WholeSum(a, b, step);
  }

  // ---------------------------------------------------------------- operations keep the books

  lemma SubmitKeeps(p: Parameters, capital: real, s: State, signal: Signal, quote: Option<Quote>)
    requires Inv(p, capital, s)
    ensures Inv(p, capital, Submit(p, s, signal, quote).0)
  {
    hide Whole, Refused, Timely, Balanced, TradesExact;
    if 0.001 <= signal.stopFraction {
      SizeWhole(p, s.account.cash, signal);
    }
    hide OrderSize;
  }

  lemma SizeWhole(p: Parameters, cash: real, signal: Signal)
    requires signal.stopFraction >= 0.001
    ensures Whole(OrderSize(p, cash, signal), p.lot)
  {
  }

  lemma FundingKeeps(p: Parameters, capital: real, s: State, rate: real, mark: Positive)
    requires Inv(p, capital, s)
    ensures Inv(p, capital, OnFunding(s, rate, mark))
  {
    hide Whole, TradesExact, GrossExact, SumNet, Mul;
  }

  /** A quote, alone or before a print, keeps the books and creates no order. */
  lemma QuoteKeeps(p: Parameters, capital: real, s: State, now: int, quote: Option<Quote>)
    requires Books(p, capital, s)
    ensures var t := OnQuote(p, s, now, quote);
            && Books(p, capital, t) && t.limits == s.limits && (t.orders.pending.Some? ==> s.orders.pending.Some?)
            && (Inv(p, capital, s) ==> Inv(p, capital, t))
  {
    hide Whole, TradesExact, Balanced, HeldExact, Timely, Crosses;
  }

  lemma EntryFillKeeps(p: Parameters, capital: real, s: State, t: Print)
    requires Books(p, capital, s)
    ensures Sane(s) && Books(p, capital, EntryFill(p, s, t).0)
    ensures EntryFill(p, s, t).0.limits == s.limits
    ensures EntryFill(p, s, t).0.orders.pending.Some? ==> s.orders.pending.Some?
    ensures s.account.position.Some? ==> EntryFill(p, s, t).0.account.position.Some?
  {
    hide Whole, TradesExact, FillOf, Filled, Placed, Balanced, HeldExact, Entered, TargetFor, Mul;
    InvSane(p, capital, s);
    EntryPlaced(p, s, t);
    if s.orders.pending.Some? {
      if s.account.position.Some? {
        PendingMatches(p, s);
      }
      EntryBalanced(p, capital, s, t);
    }
  }

  lemma PendingMatches(p: Parameters, s: State)
    requires Placed(p, s.orders, s.account.position) && s.orders.pending.Some? && s.account.position.Some?
    ensures s.account.position.value.side == s.orders.pending.value.side
    ensures s.account.position.value.entry == s.orders.pending.value.limit
  {
    hide Whole;
  }

  lemma EntryPlaced(p: Parameters, s: State, t: Print)
    requires Sane(s) && Placed(p, s.orders, s.account.position)
    ensures Placed(p, EntryFill(p, s, t).0.orders, EntryFill(p, s, t).0.account.position)
  {
    hide Whole, FillOf, Filled, Mul, FloorTo, CeilTo;
    if s.orders.pending.Some? && s.orders.pending.value.activated {
      var o := s.orders.pending.value;
      FillExact(p, o, t);
      var q := FillOf(p, o, t);
      if q > 0.0 && s.account.position.Some? {
        WholeSumLots(s.account.position.value.qty, q, p.lot);
      }
      if q > 0.0 && Filled(p, o, t).remaining < p.lot / 2.0 {
        MakerQueue.WholeBelowStep(Filled(p, o, t).remaining, p.lot);
      }
    }
  }

  lemma EntryBalanced(p: Parameters, capital: real, s: State, t: Print)
    requires Sane(s) && s.orders.pending.Some?
    requires s.account.position.Some? ==>
               s.account.position.value.side == s.orders.pending.value.side
               && s.account.position.value.entry == s.orders.pending.value.limit
    requires Balanced(capital, s.account) && HeldExact(s.account.position)
    ensures var a := EntryFill(p, s, t).0.account;
            Balanced(capital, a) && HeldExact(a.position) && a.trades == s.account.trades
  {
    hide FillOf, Filled, SumNet, Mul, TargetFor;
    MulZero(s.orders.pending.value.limit);
  }

  lemma SumNetAppend(trades: seq<Closed>, t: Closed)
    ensures SumNet(trades + [t]) == SumNet(trades) + t.net
  {
    assert (trades + [t])[..|trades|] == trades;
  }

  /** One exit adds exactly its price difference to gross and its sale to proceeds. */
  lemma ExitExact(p: Parameters, h: Held, q: Positive, price: real, maker: bool)
    requires HeldExact(Some(h))
    ensures var sold := ExitOf(p, h, q, price, maker);
            GrossExact(h.side, sold.gross, sold.proceeds, h.total - (h.qty - q), h.entry)
  {
    Spread(q, price, h.entry);
    Grow(h.total - h.qty, q, h.entry);
    hide Mul;
    assert h.total - (h.qty - q) == (h.total - h.qty) + q;
  }

  lemma Spread(q: real, price: real, entry: real)
    ensures Mul(q, price - entry) == Mul(q, price) - Mul(q, entry)
  {
    Distribute(price, entry, q);
  }

  lemma Grow(a: real, q: real, entry: real)
    ensures Mul(a + q, entry) == Mul(a, entry) + Mul(q, entry)
  {
    Distribute(a, q, entry);
  }

  /** Books but for the target, which an exit may already have reduced. */
  ghost predicate Exiting(p: Parameters, capital: real, s: State, left: real) {
    && s.account.position.Some?
    && var h := s.account.position.value;
       && s.orders.signal.Some? && h.side == s.orders.signal.value.side && h.entry == s.orders.signal.value.limit
       && Whole(h.qty, p.lot) && h.qty <= h.total && Whole(left, p.lot) && left >= 0.0
       && s.orders.target.Some? && s.orders.target.value.side == h.side.Opposite()
       && s.orders.target.value.activated && s.orders.target.value.queue >= 0.0
       && (left > 0.0 ==> s.orders.target.value.remaining == left)
       && (s.orders.pending.Some? ==> Resting(p, s.orders, h.total)) && h.total <= s.orders.submitted
       && Balanced(capital, s.account) && TradesExact(s.account.trades) && HeldExact(s.account.position)
  }

  /** Selling part of a position leaves it covered; selling the last of it leaves nothing. */
  lemma CloseKeeps(p: Parameters, capital: real, s: State, now: int, q: Positive, price: real, maker: bool, reason: Reason)
    requires s.account.position.Some? && q <= s.account.position.value.qty
    requires Exiting(p, capital, s, s.account.position.value.qty - q)
    ensures var t := CloseQty(p, s, now, q, price, maker, reason);
            && Books(p, capital, t) && t.limits == s.limits
            && (t.orders.pending.Some? ==> s.orders.pending.Some?)
            && (q == s.account.position.value.qty ==> t.account.position.None?)
  {
    hide Whole, SumNet, Mul, GrossExact, Balanced, TradesExact;
    var h := s.account.position.value;
    var left := h.qty - q;
    ExitExact(p, h, q, price, maker);
    var sold := ExitOf(p, h, q, price, maker);
    if left < p.lot / 2.0 {
      MakerQueue.WholeBelowStep(left, p.lot);
      SumNetAppend(s.account.trades, CloseRow(sold, now, reason));
      RowExact(s.account.trades, sold, now, reason);
    }
    CloseBalanced(p, capital, s, now, q, price, maker, reason);
    hide CloseRow;
  }

  lemma RowExact(trades: seq<Closed>, sold: Held, now: int, reason: Reason)
    requires TradesExact(trades) && GrossExact(sold.side, sold.gross, sold.proceeds, sold.total, sold.entry)
    ensures TradesExact(trades + [CloseRow(sold, now, reason)])
  {
    hide GrossExact;
  }

  lemma CloseBalanced(p: Parameters, capital: real, s: State, now: int, q: Positive, price: real, maker: bool,
                      reason: Reason)
    requires s.account.position.Some? && q <= s.account.position.value.qty && Balanced(capital, s.account)
    ensures Balanced(capital, CloseQty(p, s, now, q, price, maker, reason).account)
  {
    hide Mul, SumNet;
    SumNetAppend(s.account.trades, CloseRow(ExitOf(p, s.account.position.value, q, price, maker), now, reason));
  }

  lemma TargetExitKeeps(p: Parameters, capital: real, s: State, t: Print)
    requires Books(p, capital, s) && s.account.position.Some?
    ensures Sane(s) && Books(p, capital, TargetExit(p, s, t)) && TargetExit(p, s, t).limits == s.limits
    ensures TargetExit(p, s, t).orders.pending.Some? ==> s.orders.pending.Some?
  {
    hide Whole, FillOf, Filled, TradesExact, Balanced, HeldExact, CloseQty;
    InvSane(p, capital, s);
    var h, o := s.account.position.value, s.orders.target.value;
    FillExact(p, o, t);
    var q := FillOf(p, o, t);
    var s1 := s.(orders := s.orders.(target := Some(Filled(p, o, t))));
    if q > 0.0 {
      assert Exiting(p, capital, s1, h.qty - q);
      CloseKeeps(p, capital, s1, t.ts, q, o.limit, true, Target);
    }
  }

  lemma ProtectedKeeps(p: Parameters, capital: real, s: State, filled: bool, breaks: bool, t: Print, quote: Option<Quote>)
    requires Books(p, capital, s) && Sane(s)
    ensures var (r, failed) := Protected(p, s, filled, breaks, t, quote);
            && Books(p, capital, r) && (failed ==> r.orders.pending.None?) && (!failed ==> r.limits == s.limits)
            && (r.orders.pending.Some? ==> s.orders.pending.Some?)
  {
    hide Whole, Balanced, TradesExact, HeldExact, CloseQty, TargetExit, StopHit, TimedOut, ProtectivePrice;
    if s.account.position.Some? {
      var h := s.account.position.value;
      TargetExitKeeps(p, capital, s, t);
      ZeroWhole(p.lot);
      if Timely(p, t.ts, quote) {
        var reason := if breaks then Risk else if StopHit(h, s.orders.signal.value, t.price) then Stop else Time;
        assert Exiting(p, capital, s, h.qty - h.qty);
        CloseKeeps(p, capital, s, t.ts, h.qty, ProtectivePrice(p, h.side, t, quote.value), false, reason);
      }
    }
  }

  lemma ZeroWhole(step: Positive)
    ensures Whole(0.0, step)
  {
    assert 0.0 == Times(0, step);
  }

  lemma SettledKeeps(p: Parameters, capital: real, s: State, price: real)
    requires Books(p, capital, s) && (s.orders.pending.Some? ==> !s.limits.incomplete)
    ensures Inv(p, capital, Settled(p, s, price))
  {
    hide Whole, Balanced, TradesExact, HeldExact, Equity;
  }

  /** One print keeps the books, and leaves no resting entry under a latch. */
  lemma OnTradeKeeps(p: Parameters, capital: real, s: State, t: Print, quote: Option<Quote>)
    requires Inv(p, capital, s)
    ensures Sane(s) && Inv(p, capital, OnTrade(p, s, t, quote))
  {
    hide Books, EntryFill, Protected, Settled, Equity, Activate;
    InvSane(p, capital, s);
    var today := s.(limits := NewDay(s.account, s.limits, t));
    BooksIgnoreLimits(p, capital, s, today);
    QuoteKeeps(p, capital, today, t.ts, quote);
    var s1 := OnQuote(p, today, t.ts, quote);
    EntryFillKeeps(p, capital, s1, t);
    var (s2, filled) := EntryFill(p, s1, t);
    var eq := Equity(s2.account, t.price);
    var s3 := s2.(limits := Measured(p, s2.limits, eq));
    BooksIgnoreLimits(p, capital, s2, s3);
    InvSane(p, capital, s3);
    ProtectedKeeps(p, capital, s3, filled, Breaks(p, s3.limits, eq), t, quote);
    var (s4, failed) := Protected(p, s3, filled, Breaks(p, s3.limits, eq), t, quote);
    if !failed {
      SettledKeeps(p, capital, s4, t.price);
    }
  }

  lemma BooksIgnoreLimits(p: Parameters, capital: real, a: State, b: State)
    requires Books(p, capital, a) && a.account == b.account && a.orders == b.orders
    ensures Books(p, capital, b)
  {
  }

  // ---------------------------------------------------------------- runs

  /** Everything the replay loop does to the broker. */
  datatype Action = Submission(signal: Signal, quote: Option<Quote>) | Settlement(rate: real, mark: Positive)
    | Quoted(now: int, quote: Option<Quote>) | Printed(trade: Print, quote: Option<Quote>)

  function Step(p: Parameters, s: State, a: Action): State
    requires Sane(s)
  {
    match a
    case Submission(signal, quote) => Submit(p, s, signal, quote).0
    case Settlement(rate, mark) => OnFunding(s, rate, mark)
    case Quoted(now, quote) => OnQuote(p, s, now, quote)
    case Printed(t, quote) => OnTrade(p, s, t, quote)
  }

  lemma StepKeeps(p: Parameters, capital: real, s: State, a: Action)
    requires Inv(p, capital, s)
    ensures Sane(s) && Inv(p, capital, Step(p, s, a))
  {
    hide Inv, Submit, OnFunding, OnQuote, OnTrade, Books;
    assert Books(p, capital, s) by { InvBooks(p, capital, s); }
    InvSane(p, capital, s);
    match a
    case Submission(signal, quote) => SubmitKeeps(p, capital, s, signal, quote);
    case Settlement(rate, mark) => FundingKeeps(p, capital, s, rate, mark);
    case Quoted(now, quote) => QuoteKeeps(p, capital, s, now, quote);
    case Printed(t, quote) => OnTradeKeeps(p, capital, s, t, quote);
  }

  lemma InvBooks(p: Parameters, capital: real, s: State)
    requires Inv(p, capital, s)
    ensures Books(p, capital, s)
  {
  }

  ghost function Run(p: Parameters, capital: Positive, actions: seq<Action>): (s: State)
    ensures Inv(p, capital, s)
  {
    if actions == [] then
      InitInv(p, capital);
      Init(capital)
    else
      var s := Run(p, capital, actions[..|actions| - 1]);
      StepKeeps(p, capital, s, actions[|actions| - 1]);
      Step(p, s, actions[|actions| - 1])
  }

  /** In every run the target's remaining size is the open quantity, sides agree, and fills stay within the order. */
  lemma TargetCoversPosition(p: Parameters, capital: Positive, actions: seq<Action>)
    ensures var s := Run(p, capital, actions);
            && (s.account.position.Some? ==>
                  var h := s.account.position.value;
                  && s.orders.target.Some? && s.orders.target.value.remaining == h.qty
                  && s.orders.target.value.side == h.side.Opposite()
                  && 0.0 < h.qty <= h.total <= s.orders.submitted
                  && (s.orders.pending.Some? ==>
                        s.orders.pending.value.side == h.side
                        && h.total + s.orders.pending.value.remaining == s.orders.submitted))
            && (s.account.position.None? ==> s.orders.target.None?)
  {
    var s := Run(p, capital, actions);
    assert Inv(p, capital, s);
    hide Run, Whole;
  }

  /** In every run cash is the capital, the closed nets and the open position's result, and every gross is its cash flow. */
  lemma CashAndGrossExact(p: Parameters, capital: Positive, actions: seq<Action>)
    ensures var a := Run(p, capital, actions).account;
            && a.cash == capital + SumNet(a.trades) + Carried(a.position)
            && forall t | t in a.trades ::
                 t.net == t.gross - t.fees - t.funding
                 && t.gross == Sign(t.side, t.proceeds - Mul(t.quantity, t.entry))
  {
    var s := Run(p, capital, actions);
    assert Inv(p, capital, s);
    hide Run, Placed, SumNet;
  }

  // ---------------------------------------------------------------- latches

  lemma CloseSameLimits(p: Parameters, s: State, now: int, q: Positive, price: real, maker: bool, reason: Reason)
    requires s.account.position.Some?
    ensures CloseQty(p, s, now, q, price, maker, reason).limits == s.limits
  {
    hide ExitOf, CloseRow;
  }

  /** The drawdown latch is final: it stays set, and with it no order is accepted. */
  lemma HaltIsFinal(p: Parameters, s: State, a: Action)
    requires Sane(s) && s.limits.halted
    ensures Step(p, s, a).limits.halted
    ensures a.Submission? ==> Submit(p, s, a.signal, a.quote) == (s, Declined)
  {
    hide FillOf, Filled, CloseQty, Activate, Equity, StopHit, Timely, ProtectivePrice, Entered, TargetFor;
    if a.Printed? {
      var (s2, filled) := Arrived(p, s, a.trade, a.quote);
      assert s2.limits.halted;
      var eq := Equity(s2.account, a.trade.price);
      var s3 := s2.(limits := Measured(p, s2.limits, eq));
      ProtectedStaysHalted(p, s3, filled, Breaks(p, s3.limits, eq), a.trade, a.quote);
    }
    hide Arrived, Protected;
  }

  lemma ProtectedStaysHalted(p: Parameters, s: State, filled: bool, breaks: bool, t: Print, quote: Option<Quote>)
    requires Sane(s) && s.limits.halted
    ensures Protected(p, s, filled, breaks, t, quote).0.limits.halted
  {
    hide FillOf, Filled, CloseQty, StopHit, TimedOut, ProtectivePrice;
    if s.account.position.Some? {
      var h, o := s.account.position.value, s.orders.target.value;
      var q := FillOf(p, o, t);
      if q > 0.0 {
        CloseSameLimits(p, s.(orders := s.orders.(target := Some(Filled(p, o, t)))), t.ts, q, o.limit, true, Target);
      }
      if Timely(p, t.ts, quote) {
        var reason := if breaks then Risk else if StopHit(h, s.orders.signal.value, t.price) then Stop else Time;
        CloseSameLimits(p, s, t.ts, h.qty, ProtectivePrice(p, h.side, t, quote.value), false, reason);
      }
    }
  }

  /** Once set, the drawdown latch is set at every later point of the run. */
  lemma {:induction false} HaltLasts(p: Parameters, capital: Positive, actions: seq<Action>, k: nat)
    requires k <= |actions| && Run(p, capital, actions[..k]).limits.halted
    ensures Run(p, capital, actions).limits.halted
  {
    hide Step, Inv;
    var n := |actions|;
    if k == n {
      assert actions[..k] == actions;
    } else {
      assert actions[..n - 1][..k] == actions[..k];
      HaltLasts(p, capital, actions[..n - 1], k);
      var s := Run(p, capital, actions[..n - 1]);
      StepKeeps(p, capital, s, actions[n - 1]);
      HaltIsFinal(p, s, actions[n - 1]);
    }
  }

  // ---------------------------------------------------------------- size

  lemma Rounded(x: real, step: Positive)
    ensures RoundDown(x, step) > 0.0 ==> RoundDown(x, step) <= x
  {
  }

  lemma Capped(cap: real, budget: real, unit: Positive, limit: Positive, qty: real)
    requires 0.0 < qty <= Min(cap, budget / unit) / limit
    ensures qty * limit <= cap && qty * limit * unit <= budget
  {
    QuotientFits(qty, Min(cap, budget / unit), limit);
    PositiveProduct(qty, limit);
    QuotientFits(qty * limit, budget, unit);
  }

  /** An accepted order is within the exposure cap, and its planned loss and costs are within the risk budget. */
  lemma SizeWithinLimits(p: Parameters, cash: real, signal: Signal)
    requires signal.stopFraction >= 0.001 && OrderSize(p, cash, signal) > 0.0
    ensures var notional := OrderSize(p, cash, signal) * signal.limit;
            && notional <= cash * p.maxExposure
            && notional * (signal.stopFraction + p.Costs()) <= cash * p.riskFraction
  {
    hide RoundDown;
    var unit := signal.stopFraction + p.Costs();
    var qty := OrderSize(p, cash, signal);
    Rounded(Min(cash * p.maxExposure, cash * p.riskFraction / unit) / signal.limit, p.lot);
    hide OrderSize;
    Capped(cash * p.maxExposure, cash * p.riskFraction, unit, signal.limit, qty);
  }

  /** The slipped stop price as a fraction of the entry. */
  function KeptPrice(side: Side, sf: real, slip: real): real {
    if side.Long? then Mul(1.0 - sf, 1.0 - slip) else Mul(1.0 + sf, 1.0 + slip)
  }

  /** What a unit of entry notional loses by leaving at the stop with slippage, both fees included. */
  function UnitLoss(p: Parameters, side: Side, sf: real): real {
    var left := KeptPrice(side, sf, p.slippage);
    Sign(side, 1.0 - left) + p.maker + Mul(p.taker, left)
  }

  /** Leaving a position at its stop price, slipped, loses exactly the unit loss on its notional. */
  lemma StopLossExact(p: Parameters, side: Side, qty: real, entry: real, sf: real)
    ensures var exit := entry * (1.0 - Sign(side, sf)) * (1.0 - Sign(side, p.slippage));
            -Sign(side, Mul(qty, exit - entry)) + Mul(qty, entry) * p.maker + Mul(qty, exit) * p.taker
            == Mul(Mul(qty, entry), UnitLoss(p, side, sf))
  {
    var left := KeptPrice(side, sf, p.slippage);
    StopLossArithmetic(side, qty, entry, left, p.maker, p.taker);
    Associate(entry, 1.0 - Sign(side, sf), 1.0 - Sign(side, p.slippage));
  }

  lemma Associate(a: real, b: real, c: real)
    ensures a * b * c == Mul(a, Mul(b, c))
  {
  }

  lemma StopLossArithmetic(side: Side, qty: real, entry: real, left: real, maker: real, taker: real)
    ensures -Sign(side, Mul(qty, Mul(entry, left) - entry)) + Mul(qty, entry) * maker + Mul(qty, Mul(entry, left)) * taker
            == Mul(Mul(qty, entry), Sign(side, 1.0 - left) + maker + Mul(taker, left))
  {
    var n := qty * entry;
    assert Mul(qty, Mul(entry, left) - entry) == n * left - n;
    assert Mul(qty, Mul(entry, left)) * taker == n * (taker * left);
    assert n * (maker + taker * left) == n * maker + n * (taker * left);
  }

  /** The short side's stop costs more than the sizing assumes unless slippage absorbs the cross terms. */
  predicate ShortAbsorbs(p: Parameters, sf: real) {
    Mul(sf, p.slippage) + Mul(p.taker, sf + p.slippage + Mul(sf, p.slippage)) <= p.slippage
  }

  /** The sizing covers the loss at the stop: always for longs, and for shorts exactly when slippage absorbs it. */
  lemma SizingCoversStop(p: Parameters, side: Side, sf: real)
    requires 0.0 <= sf <= 1.0
    ensures UnitLoss(p, side, sf) <= sf + p.Costs() <==> side.Long? || ShortAbsorbs(p, sf)
  {
    hide Mul;
    Fraction(p.slippage, sf);
    var m := Mul(sf, p.slippage);
    if side.Long? {
      KeptLong(sf, p.slippage);
      AtMost(p.taker, 1.0 - sf - p.slippage + m);
    } else {
      KeptShort(sf, p.slippage);
      OnePlus(p.taker, sf + p.slippage + m);
      assert 1.0 + sf + p.slippage + m == 1.0 + (sf + p.slippage + m);
    }
  }

  lemma KeptLong(sf: real, slip: real)
    ensures Mul(1.0 - sf, 1.0 - slip) == 1.0 - sf - slip + Mul(sf, slip)
  {
  }

  lemma KeptShort(sf: real, slip: real)
    ensures Mul(1.0 + sf, 1.0 + slip) == 1.0 + sf + slip + Mul(sf, slip)
  {
  }

  lemma AtMost(taker: real, left: real)
    requires taker >= 0.0 && left <= 1.0
    ensures Mul(taker, left) <= taker
  {
    MulMono(left, 1.0, taker);
    assert taker * left <= taker * 1.0;
  }

  lemma OnePlus(taker: real, x: real)
    ensures Mul(taker, 1.0 + x) == taker + Mul(taker, x)
  {
  }

  const NO_SLIP: Parameters :=
    Settings(0.0002, 0.0005, 0.0, 0.001, 1.0, 0.01, 0.04, 2000, 250, 15000, 480000, 60000, 0.1, 0.001, 0.01)
  const WIDE_SHORT: Signal := Signal(600_000, Short, 100.0, 90.0, 0.002)
  const NEAR_QUOTE: Quote := Touches(600_000, 99.0, 100.0, 0.0, 0.0)

  /** Without slippage a short the broker accepts loses more at its stop than its sizing assumed. */
  lemma UncoveredShort()
    ensures Submit(NO_SLIP, Init(10000.0), WIDE_SHORT, Some(NEAR_QUOTE)).1 == Accepted
    ensures !ShortAbsorbs(NO_SLIP, WIDE_SHORT.stopFraction)
    ensures UnitLoss(NO_SLIP, Short, WIDE_SHORT.stopFraction) > WIDE_SHORT.stopFraction + NO_SLIP.Costs()
  {
    SizingCoversStop(NO_SLIP, Short, 0.002);
    hide RoundDown;
    WideShortSize();
  }

  lemma WideShortSize()
    ensures OrderSize(NO_SLIP, 10000.0, WIDE_SHORT) > 0.0
  {
    hide RoundDown;
    assert WIDE_SHORT.stopFraction + NO_SLIP.Costs() == 0.0027;
    QuotientAbove(10.0, 0.0027, 3700.0);
    QuotientAbove(Min(10000.0, 10.0 / 0.0027), 100.0, 36.0);
    RoundedAbove(Min(10000.0, 10.0 / 0.0027) / 100.0, 0.001);
  }

  lemma QuotientAbove(x: real, y: Positive, z: real)
    requires z * y < x
    ensures x / y > z
  {
    assert (x / y) * y == x;
    if x / y <= z {
      MulMono(x / y, z, y);
    }
  }

  lemma RoundedAbove(x: real, step: Positive)
    ensures x > step ==> RoundDown(x, step) > 0.0
  {
  }

  /** An accepted order, filled in full and stopped out with slippage, loses at most the risk budget. */
  lemma PlannedLossWithinBudget(p: Parameters, cash: real, signal: Signal)
    requires 0.001 <= signal.stopFraction <= 0.002 && OrderSize(p, cash, signal) > 0.0
    requires signal.side.Long? || ShortAbsorbs(p, signal.stopFraction)
    ensures Mul(Mul(OrderSize(p, cash, signal), signal.limit), UnitLoss(p, signal.side, signal.stopFraction))
            <= cash * p.riskFraction
  {
    hide OrderSize, UnitLoss;
    SizeWithinLimits(p, cash, signal);
    SizingCoversStop(p, signal.side, signal.stopFraction);
    var notional := OrderSize(p, cash, signal) * signal.limit;
    PositiveProduct(OrderSize(p, cash, signal), signal.limit);
    MulMono(UnitLoss(p, signal.side, signal.stopFraction), signal.stopFraction + p.Costs(), notional);
  }

  /** A signal the flow engine issues has a valid stop, cannot cross its quote, and meets the broker's reward test. */
  lemma SignalsAreSubmittable(p: Parameters, t: Print, quote: Quote, c: F.Context, side: Side)
    ensures var signal := F.Proposed(p, t, quote, c, side);
            signal.Some? ==>
              && signal.value.side == side && 0.001 <= signal.value.stopFraction <= 0.002
              && !Crosses(side, signal.value.limit, quote)
              && (Refused(p, signal.value, quote) <==> NearSettlement(signal.value.ts))
  {
    hide RoundDown, RoundUp;
  }
}
