/** The tick broker as an object: its fields change in place, and each method is its model operation. */
module TickBroker {
  import opened Basics
  import opened TickMarket
  import opened TickModel
  import opened TickTheorems
  import M = TickModel

  class Broker {
    const p: Parameters
    const initial: Positive
    var cash: real
    var position: Option<Held>
    var lastExit: int
    var trades: seq<Closed>
    var signal: Option<Signal>
    var pending: Option<Passive>
    var target: Option<Passive>
    var submitted: real
    var peak: real
    var dayStart: real
    var day: int
    var halted: bool
    var dayHalted: bool
    var incomplete: bool

    function AccountNow(): Account
      reads `cash, `position, `lastExit, `trades
    {
      Account(cash, position, lastExit, trades)
    }

    function OrdersNow(): Orders
      reads `signal, `pending, `target, `submitted
    {
      Orders(signal, pending, target, submitted)
    }

    function LimitsNow(): Limits
      reads `peak, `dayStart, `day, `halted, `dayHalted, `incomplete
    {
      Limits(peak, dayStart, day, halted, dayHalted, incomplete)
    }

    function Snap(): State
      reads this
    {
      State(AccountNow(), OrdersNow(), LimitsNow())
    }

    ghost predicate Valid()
      reads this
    {
      Inv(p, initial, Snap())
    }

    constructor (parameters: Parameters, capital: Positive)
      ensures Valid() && Snap() == Init(capital) && p == parameters && initial == capital
      ensures cash == peak == dayStart == capital && position.None? && pending.None? && target.None? && trades == []
      ensures !halted && !dayHalted && !incomplete
    {
      p, initial := parameters, capital;
      cash, position, lastExit, trades := capital, None, LONG_AGO, [];
      signal, pending, target, submitted := None, None, None, 0.0;
      peak, dayStart, day, halted, dayHalted, incomplete := capital, capital, -1, false, false, false;
      new;
      InitInv(p, capital);
    }

    /** Places a post-only order, unless blocked, refused or too small; an impossible stop raises. */
    method Submit(sig: Signal, quote: Option<Quote>) returns (reply: Reply)
      requires Valid()
      modifies `signal, `pending, `submitted
      ensures Valid() && (Snap(), reply) == M.Submit(p, old(Snap()), sig, quote)
    {
      SubmitKeeps(p, initial, Snap(), sig, quote);
      hide Inv, M.OrderSize, Refused;
      if Blocked(p, Snap(), sig, quote) { return Declined; }
      if !(0.001 <= sig.stopFraction <= 0.002) { return Raised; }
      if Refused(p, sig, quote.value) { return Declined; }
      var qty := M.OrderSize(p, cash, sig);
      if qty <= 0.0 { return Declined; }
      signal := Some(sig);
      pending := Some(Passive(sig.side, sig.limit, qty, QueueAt(sig.side, quote.value), sig.ts + p.latency,
                              sig.ts + p.ttl + p.latency, false));
      submitted := qty;
      return Accepted;
    }

    /** Acknowledges a due cancel, and activates a due order at the larger queue unless it would cross. */
    method Activate(now: int, quote: Option<Quote>)
      modifies `pending
      ensures pending == M.Activate(p, old(pending), now, quote) && Snap() == OnQuote(p, old(Snap()), now, quote)
      ensures old(Valid()) ==> Valid()
    {
      if Books(p, initial, Snap()) {
        QuoteKeeps(p, initial, Snap(), now, quote);
      }
      hide Inv, Books;
      if pending.None? { return; }
      var o := pending.value;
      if now >= o.cancelAt {
        pending := None;
        return;
      }
      if !o.activated && now >= o.activeAt {
        if !Timely(p, now, quote) || Crosses(o.side, o.limit, quote.value) {
          pending := None;
          return;
        }
        pending := Some(o.(queue := Max(o.queue, QueueAt(o.side, quote.value)), activated := true));
      }
    }

    /** A print may fill the active entry, which replaces the target by one for the whole position. */
    method FillEntry(t: Print) returns (filled: bool)
      requires Sane(Snap())
      modifies `cash, `position, `pending, `target
      ensures (Snap(), filled) == EntryFill(p, old(Snap()), t)
    {
      hide FillOf, Filled, Entered, TargetFor, Mul;
      if pending.None? || !pending.value.activated { return false; }
      var o := pending.value;
      var q := FillOf(p, o, t);
      pending := Some(M.Filled(p, o, t));
      if q <= 0.0 { return false; }
      var h := Entered(p, position, o, q, t.ts);
      position := Some(h);
      cash := cash - Mul(q, o.limit) * p.maker;
      target := Some(TargetFor(p, h, signal.value.target, t.ts));
      if pending.value.remaining < p.lot / 2.0 {
        pending := None;
      }
      ghost var e := EntryFill(p, old(Snap()), t).0;
      assert e.account == AccountNow();
      assert e.orders == OrdersNow();
      return true;
    }

    /** Sells at most the open quantity; the last of it closes the trade and drops every order. */
    method CloseQty(now: int, offered: Positive, price: real, maker: bool, reason: Reason)
      requires position.Some?
      modifies `cash, `position, `lastExit, `trades, `pending, `target
      ensures Snap() == M.CloseQty(p, old(Snap()), now, offered, price, maker, reason)
    {
      hide ExitCash, CloseRow, ExitOf;
      var h := position.value;
      var q := Min(offered, h.qty);
      var sold := ExitOf(p, h, q, price, maker);
      cash := cash + ExitCash(p, h, q, price, maker);
      var left := Max(0.0, h.qty - q);
      if left < p.lot / 2.0 {
        trades := trades + [CloseRow(sold, now, reason)];
        position, pending, target := None, None, None;
        lastExit := now;
      } else {
        position := Some(sold.(qty := left));
      }
      ghost var c := M.CloseQty(p, old(Snap()), now, offered, price, maker, reason);
      assert c.account == AccountNow();
      assert c.orders == OrdersNow();
    }

    method OnFunding(rate: real, mark: Positive)
      requires Valid()
      modifies `cash, `position
      ensures Valid() && Snap() == M.OnFunding(old(Snap()), rate, mark)
    {
      FundingKeeps(p, initial, Snap(), rate, mark);
      hide Inv, Mul;
      if position.Some? {
        var h := position.value;
        var cost := Sign(h.side, Mul(h.qty, mark * rate));
        cash := cash - cost;
        position := Some(h.(funding := h.funding + cost));
      }
    }

    method StartDay(t: Print)
      modifies `day, `dayStart, `dayHalted
      ensures LimitsNow() == NewDay(AccountNow(), old(LimitsNow()), t)
    {
      hide Equity;
      if day != t.ts / DAY {
        day := t.ts / DAY;
        dayStart := Equity(AccountNow(), t.price);
        dayHalted := false;
      }
    }

    /** Raises the peak and sets the latches; returns whether a limit is broken now. */
    method Measure(eq: real) returns (breaks: bool)
      modifies `peak, `halted, `dayHalted
      ensures LimitsNow() == Measured(p, old(LimitsNow()), eq) && breaks == Breaks(p, LimitsNow(), eq)
    {
      peak := Max(peak, eq);
      var drawn := eq <= peak * (1.0 - p.maxDrawdown);
      var lost := eq <= dayStart * (1.0 - p.dailyLoss);
      halted := halted || drawn;
      dayHalted := dayHalted || lost;
      breaks := drawn || lost;
    }

    method TakeTarget(t: Print)
      requires position.Some? && target.Some?
      modifies `cash, `position, `lastExit, `trades, `pending, `target
      ensures Snap() == TargetExit(p, old(Snap()), t)
    {
      hide FillOf, Filled, M.CloseQty;
      var h, o := position.value, target.value;
      if Sign(h.side, t.price - o.limit) > 0.0 {
        var q := FillOf(p, o, t);
        target := Some(M.Filled(p, o, t));
        if q > 0.0 {
          CloseQty(t.ts, q, o.limit, true, Target);
        }
      }
    }

    /** Stop, time and limits close the position at once; without a timely quote the run is marked unpriceable. */
    method Protect(filled: bool, breaks: bool, t: Print, quote: Option<Quote>) returns (failed: bool)
      requires Sane(Snap())
      modifies `cash, `position, `lastExit, `trades, `pending, `target, `halted, `incomplete
      ensures (Snap(), failed) == Protected(p, old(Snap()), filled, breaks, t, quote)
    {
      hide M.CloseQty, TargetExit, StopHit, TimedOut, ProtectivePrice;
      if position.None? { return false; }
      var h := position.value;
      var stop := StopHit(h, signal.value, t.price);
      if stop || TimedOut(p, h, t.ts) || breaks {
        if !Timely(p, t.ts, quote) {
          incomplete, halted := true, true;
          pending := None;
          return true;
        }
        CloseQty(t.ts, h.qty, ProtectivePrice(p, h.side, t, quote.value), false,
                 if breaks then Risk else if stop then Stop else Time);
      } else if !filled {
        TakeTarget(t);
      }
      return false;
    }

    method Settle(price: real)
      modifies `peak, `halted, `dayHalted, `pending
      ensures Snap() == Settled(p, old(Snap()), price)
    {
      hide Equity, Measured;
      var _ := Measure(Equity(AccountNow(), price));
      if halted || dayHalted {
        pending := None;
      }
    }

    method Arrive(t: Print, quote: Option<Quote>) returns (filled: bool)
      requires Sane(Snap())
      modifies `day, `dayStart, `dayHalted, `cash, `position, `pending, `target
      ensures (Snap(), filled) == Arrived(p, old(Snap()), t, quote) && Sane(Snap())
    {
      hide NewDay, Timely, Crosses, QueueAt, EntryFill;
      StartDay(t);
      Activate(t.ts, quote);
      filled := FillEntry(t);
    }

    /** One print, from the new day to the closing measurement. */
    method OnTrade(t: Print, quote: Option<Quote>)
      requires Valid()
      modifies this
      ensures Valid() && Snap() == M.OnTrade(p, old(Snap()), t, quote)
      ensures position.Some? ==> target.Some? && target.value.remaining == position.value.qty
      ensures pending.Some? ==> !halted && !dayHalted && !incomplete
    {
      OnTradeKeeps(p, initial, Snap(), t, quote);
      InvShape(p, initial, M.OnTrade(p, Snap(), t, quote));
      hide Inv, Arrived, Protected, Settled, Equity, Measured, Breaks;
      var filled := Arrive(t, quote);
      var breaks := Measure(Equity(AccountNow(), t.price));
      var failed := Protect(filled, breaks, t, quote);
      if !failed {
        Settle(t.price);
      }
    }
  }

  lemma InvShape(p: Parameters, capital: real, s: State)
    requires Inv(p, capital, s)
    ensures s.account.position.Some? ==>
              s.orders.target.Some? && s.orders.target.value.remaining == s.account.position.value.qty
    ensures s.orders.pending.Some? ==> !s.limits.halted && !s.limits.dayHalted && !s.limits.incomplete
  {
    hide Whole, Balanced, TradesExact, HeldExact;
  }
}
