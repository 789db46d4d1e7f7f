/** A run whose last bar opens beyond its barrier: it ends below the threshold, so the safe-bar condition can fail. */
module MinuteGap {
  import opened Basics
  import opened MinuteModel
  import opened MinuteTheorems

  const FREE: Costs := Charges(0.0, 0.0, 0)
  const ONCE: Plan := Plan([1, 0, 0], [0.001, 0.001, 0.001], 3.0, 1000, false)

  function At(i: int, price: Positive): Bar {
    Candle(i * MINUTE, price, price, price, price, 100000.0, 0.0, false, None, None, None)
  }

  /** Two minutes at 100, then an opening at 50. */
  const FALL: seq<Bar> := [At(0, 100.0), At(1, 100.0), At(2, 50.0)]

  const TWENTY: Holding := Holding(Long, 20.0, 100.0, 99.9, Some(100.3), 1, 0.0, 0.0, 0.0, 2.5)

  const QUIET_DAY: Loop := Loop(1000.0, 1000.0, 1000.0, 0, None, -100, false, false, 0, 0, [])

  lemma TwentyLots()
    ensures EntrySize(FREE, 1000.0, 2.5, 0.001, 100.0, 100000.0) == 20.0
  {
    assert 2.5 / (0.001 + 2.0 * FREE.fee + 2.0 * FREE.slip) / 100.0 == 25.0;
    ExactLots();
    hide RoundDown;
  }

  lemma ExactLots()
    ensures RoundDown(20.0, LOT) == 20.0
  {
    assert 20.0 / LOT == 20000.0;
    assert Times(20000, LOT) == 20.0;
    assert Steps(20.0, LOT) == 20000;
  }

  lemma AtHundred()
    ensures EntryPrice(FREE, Long, 100.0) == 100.0
  {
  }

  /** The target and the stop of an entry at 100. */
  lemma Brackets(price: Positive, sf: real, rr: real)
    requires price == 100.0 && sf == 0.001 && rr == 3.0
    ensures price * (1.0 + Sign(Long, sf * rr)) == 100.3 && price * (1.0 - Sign(Long, sf)) == 99.9
  {
  }

  lemma Notional(cash: real, qty: real, price: real, fee: real)
    requires cash == 1000.0 && qty == 20.0 && price == 100.0 && fee == 0.0
    ensures cash * 0.0025 == 2.5 && qty * price == 2000.0 && qty * price * fee == 0.0
  {
  }

  /** The signal of the first bar buys twenty at the second. */
  lemma BuysTwenty()
    ensures Position(FREE, ONCE, 1000.0, FALL[1], 1, 100000.0) == Some(TWENTY)
  {
    BuysLots(FREE, ONCE, FALL[1], 100.0, 20.0);
  }

  lemma BuysLots(costs: Costs, plan: Plan, b: Bar, price: real, qty: real)
    requires costs == FREE && plan == ONCE && b == FALL[1] && price == 100.0 && qty == 20.0
    ensures Position(costs, plan, 1000.0, b, 1, 100000.0) == Some(TWENTY)
  {
    hide EntrySize, EntryPrice, Sign, RoundDown;
    assert SignalIndex(costs, 1) == 0 && plan.signal[0] == 1 && plan.stopFraction[0] == 0.001;
    assert b.open == 100.0 by { assert FALL[1] == At(1, 100.0); }
    assert plan.rr == 3.0 && costs.fee == 0.0;
    TwentyLots();
    AtHundred();
    Brackets(price, 0.001, 3.0);
    Notional(1000.0, qty, price, costs.fee);
  }

  lemma FirstMinute()
    ensures Run(FREE, ONCE, FALL, 1) == QUIET_DAY
  {
    hide Position;
    assert Run(FREE, ONCE, FALL, 0) == Start();
    assert FALL[0] == At(0, 100.0);
    var o := Opened(FREE, ONCE, FALL, Start(), 0);
    assert o == QUIET_DAY;
    hide Opened;
  }

  lemma SecondMayEnter(costs: Costs, plan: Plan, b: Bar)
    requires costs == FREE && plan == ONCE && b == FALL[1]
    ensures MayEnter(costs, plan, true, -100, b, 1, 3)
  {
    assert SignalIndex(costs, 1) == 0 && plan.signal[0] == 1 && plan.stopFraction[0] == 0.001;
    assert !b.event by { assert FALL[1] == At(1, 100.0); }
  }

  lemma SecondDay(b: Bar)
    requires b == FALL[1]
    ensures Fund(NewDay(QUIET_DAY, b), b) == QUIET_DAY
  {
    assert FALL[1] == At(1, 100.0);
  }

  lemma SecondOpens()
    ensures Opened(FREE, ONCE, FALL, QUIET_DAY, 1) == QUIET_DAY.(holding := Some(TWENTY))
  {
    hide Position, MayEnter, Fund, NewDay;
    BuysTwenty();
    SecondMayEnter(FREE, ONCE, FALL[1]);
    SecondDay(FALL[1]);
    assert PriorVolume(FALL, 1) == 100000.0 by { assert FALL[0] == At(0, 100.0); }
  }

  /** Barrier and effective stop of the position on its first day. */
  lemma TwentyStops()
    ensures Threshold(1000.0, 1000.0) == 990.0
    ensures BarrierPrice(FREE, 990.0, 1000.0, TWENTY) == 99.5 && Effective(FREE, 990.0, 1000.0, TWENTY) == 99.9
  {
    assert Net(FREE, Long) == 1.0;
    hide Net;
  }

  lemma SecondMinute()
    ensures Run(FREE, ONCE, FALL, 2) == QUIET_DAY.(holding := Some(TWENTY))
  {
    FirstMinute();
    SecondOpens();
    TwentyStops();
    hide Opened, Effective, BarrierPrice, Threshold;
    var s := QUIET_DAY.(holding := Some(TWENTY));
    assert FALL[1] == At(1, 100.0);
    assert LeaveAt(FREE, ONCE, s, TWENTY, FALL[1], 1, 3) == None;
    assert Protect(FREE, ONCE, FALL, s, 1) == s;
    hide Protect, Run;
    SecondStep();
  }

  lemma SecondStep()
    requires Run(FREE, ONCE, FALL, 1) == QUIET_DAY
    ensures Run(FREE, ONCE, FALL, 2) == BarStep(FREE, ONCE, FALL, QUIET_DAY, 1)
  {
    hide BarStep;
  }

  lemma ThirdOpens()
    ensures var s := QUIET_DAY.(holding := Some(TWENTY)); Opened(FREE, ONCE, FALL, s, 2) == s
  {
    assert FALL[2] == At(2, 50.0);
    hide Position;
  }

  /** The bar that opens at 50 is not safe, and the run ends at nothing, below the 990 it must keep. */
  lemma UnsafeRun()
    ensures !SafeAt(FREE, ONCE, FALL, 2)
    ensures EquityAt(FREE, ONCE, FALL, 2) == 0.0 && FloorAt(FREE, ONCE, FALL, 2) == 990.0
  {
    SecondMinute();
    ThirdOpens();
    TwentyStops();
    hide Opened, Effective, BarrierPrice, Threshold, Run;
    var s := QUIET_DAY.(holding := Some(TWENTY));
    assert FALL[2] == At(2, 50.0);
    assert LeaveAt(FREE, ONCE, s, TWENTY, FALL[2], 2, 3) == Some((50.0, Stop));
    assert Proceeds(FREE, TWENTY, 50.0) == -1000.0;
    var t := CloseAt(FREE, FALL, s, TWENTY, 2, 50.0, Stop);
    assert t.cash == 0.0 && Protect(FREE, ONCE, FALL, s, 2) == t;
    hide Leave;
    LastStep();
  }

  lemma LastStep()
    ensures Run(FREE, ONCE, FALL, 3) == BarStep(FREE, ONCE, FALL, Run(FREE, ONCE, FALL, 2), 2)
  {
    hide BarStep;
  }
}
