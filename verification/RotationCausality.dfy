/** No look-ahead: what the executor holds at an open depends only on the opens, volumes and targets before it. */
module RotationCausality {
  import opened Basics
  import opened RotationModel

  datatype History = History(days: seq<Day>, targets: seq<seq<real>>)

  /** The histories agree on opens (and the calendar) through day i and volumes through day i - 1. */
  ghost predicate SameMarket(x: History, y: History, i: nat)
    requires i < |x.days| && i < |y.days|
  {
    && (forall j | 0 <= j <= i :: x.days[j].open == y.days[j].open && x.days[j].calendar == y.days[j].calendar)
    && (forall j | 0 <= j < i :: x.days[j].volume == y.days[j].volume)
  }

  /** They agree on targets through day i - 2 - delay. */
  ghost predicate SameTargets(c: Costs, x: History, y: History, i: nat)
    requires i < |x.targets| && i < |y.targets|
  {
    forall j | 0 <= j <= i - 2 - c.extraDelay :: x.targets[j] == y.targets[j]
  }

  ghost predicate Comparable(c: Costs, plan: Plan, x: History, y: History, n: nat, i: nat) {
    && Ready(plan, x.days, x.targets, n) && Ready(plan, y.days, y.targets, n) && i < plan.last
    && SameMarket(x, y, i) && SameTargets(c, x, y, i)
  }

  /** Lots asked of asset k, bought or sold. */
  function Asked(desired: int, held: int): int {
    if desired > held then desired - held else held - desired
  }

  /** The rebalance fills or refuses a trade in this asset, judged on the account as it stands. */
  predicate Acts(c: Costs, s: Account, open: seq<Option<real>>, desired: seq<int>, cap: seq<Option<real>>, k: nat)
    requires k < |s.lots| == |open| == |desired| == |cap|
  {
    desired[k] != s.lots[k]
    && !Tried(c, s.cash, s.lots[k], desired[k] > s.lots[k], Asked(desired[k], s.lots[k]), open[k], cap[k]).Skipped?
  }

  function Activity(s: Account): int {
    |s.fills| + s.rejections
  }

  /** A trade leaves the account as it is exactly when it is skipped; otherwise it leaves a trace for good. */
  lemma TradeActs(c: Costs, s: Account, day: nat, k: nat, buy: bool, lots: int, reference: Option<real>,
                  capacity: Option<real>)
    requires k < |s.lots|
    ensures var t := Trade(c, s, day, k, buy, lots, reference, capacity, Rebalance);
            if Tried(c, s.cash, s.lots[k], buy, lots, reference, capacity).Skipped? then t == s
            else Activity(t) == Activity(s) + 1
  {
    hide Tried, Cost, Price, Amount;
  }

  lemma {:induction false} SellsAct(c: Costs, s: Account, day: nat, open: seq<Option<real>>, desired: seq<int>,
                                    cap: seq<Option<real>>, k: nat)
    requires k <= |s.lots| == |open| == |desired| == |cap|
    ensures var t := Sells(c, s, day, open, desired, cap, k);
            && Activity(t) >= Activity(s) && (t == s <==> Activity(t) == Activity(s))
            && (t == s <==> forall j | 0 <= j < k :: desired[j] >= s.lots[j] || !Acts(c, s, open, desired, cap, j))
  {
    hide Trade, Tried, Activity;
    if k > 0 {
      SellsAct(c, s, day, open, desired, cap, k - 1);
      var t := Sells(c, s, day, open, desired, cap, k - 1);
      if desired[k - 1] < t.lots[k - 1] {
        TradeActs(c, t, day, k - 1, false, t.lots[k - 1] - desired[k - 1], open[k - 1], cap[k - 1]);
      }
    }
  }

  lemma {:induction false} BuysAct(c: Costs, s: Account, day: nat, open: seq<Option<real>>, desired: seq<int>,
                                   cap: seq<Option<real>>, k: nat)
    requires k <= |s.lots| == |open| == |desired| == |cap|
    ensures var t := Buys(c, s, day, open, desired, cap, k);
            && Activity(t) >= Activity(s) && (t == s <==> Activity(t) == Activity(s))
            && (t == s <==> forall j | 0 <= j < k :: desired[j] <= s.lots[j] || !Acts(c, s, open, desired, cap, j))
  {
    hide Trade, Tried, Activity;
    if k > 0 {
      BuysAct(c, s, day, open, desired, cap, k - 1);
      var t := Buys(c, s, day, open, desired, cap, k - 1);
      if desired[k - 1] > t.lots[k - 1] {
        TradeActs(c, t, day, k - 1, true, desired[k - 1] - t.lots[k - 1], open[k - 1], cap[k - 1]);
      }
    }
  }

  /** A rebalance changes the account exactly when some asset acts on it as it stands. */
  lemma RebalanceActs(c: Costs, s: Account, day: nat, open: seq<Option<real>>, desired: seq<int>, cap: seq<Option<real>>)
    requires |s.lots| == |open| == |desired| == |cap|
    ensures Rebalanced(c, s, day, open, desired, cap) != s
       <==> exists k | 0 <= k < |open| :: Acts(c, s, open, desired, cap, k)
  {
    hide Sells, Buys, Tried, Activity;
    var n := |open|;
    SellsAct(c, s, day, open, desired, cap, n);
    BuysAct(c, Sells(c, s, day, open, desired, cap, n), day, open, desired, cap, n);
    BuysAct(c, s, day, open, desired, cap, n);
  }

  /** The rebalance of day i, were nothing missing, is due and some asset acts on the account as it stands. */
  predicate WouldTrade(c: Costs, plan: Plan, x: History, n: nat, s: Account, i: nat)
    requires Ready(plan, x.days, x.targets, n) && i < plan.last && |s.lots| == n
  {
    var j := i - 2 - c.extraDelay;
    var open := x.days[i].open;
    var wealth := Wealth(c, s, open);
    && Scheduled(plan, x.days, i) && j >= 0 && wealth.Some? && i < plan.last - 1
    && exists k | 0 <= k < n ::
         Acts(c, s, open, Desired(c, wealth.value, x.targets[j], open), Capacities(c, x.days, i, n), k)
  }

  /** Day i cannot tell the histories apart: nothing would trade, or both or neither miss a quote of a held asset. */
  predicate Blind(c: Costs, plan: Plan, x: History, y: History, n: nat, s: Account, i: nat)
    requires Ready(plan, x.days, x.targets, n) && Ready(plan, y.days, y.targets, n) && i < plan.last && |s.lots| == n
  {
    WouldTrade(c, plan, x, n, s, i) ==> Missing(s, x.days[i]) == Missing(s, y.days[i])
  }

  /** From one account two comparable mornings agree exactly when the day is blind to what it must not see. */
  lemma MorningsAgreeExactly(c: Costs, plan: Plan, x: History, y: History, n: nat, s: Account, i: nat)
    requires Comparable(c, plan, x, y, n, i) && |s.lots| == n
    ensures Morning(c, plan, x.days, x.targets, n, s, i) == Morning(c, plan, y.days, y.targets, n, s, i)
       <==> Blind(c, plan, x, y, n, s, i)
  {
    hide Rebalanced, Desired, Wealth, Missing, Capacity, Acts;
    assert Capacities(c, x.days, i, n) == Capacities(c, y.days, i, n);
    var j := i - 2 - c.extraDelay;
    var open := x.days[i].open;
    var wealth := Wealth(c, s, open);
    if j >= 0 && wealth.Some? && i < plan.last - 1 {
      RebalanceActs(c, s, i, open, Desired(c, wealth.value, x.targets[j], open), Capacities(c, x.days, i, n));
    }
  }

  /** The account after the open of day i. */
  function AtOpen(c: Costs, plan: Plan, x: History, n: nat, i: nat): (s: Account)
    requires Ready(plan, x.days, x.targets, n) && plan.first <= i < plan.last
    ensures |s.lots| == n
  {
    Morning(c, plan, x.days, x.targets, n, Through(c, plan, x.days, x.targets, n, i), i)
  }

  ghost predicate AgreeThrough(c: Costs, plan: Plan, x: History, y: History, n: nat, i: nat)
    requires Ready(plan, x.days, x.targets, n) && Ready(plan, y.days, y.targets, n) && plan.first <= i < plan.last
  {
    forall j | plan.first <= j <= i :: AtOpen(c, plan, x, n, j) == AtOpen(c, plan, y, n, j)
  }

  ghost predicate BlindThrough(c: Costs, plan: Plan, x: History, y: History, n: nat, i: nat)
    requires Ready(plan, x.days, x.targets, n) && Ready(plan, y.days, y.targets, n) && plan.first <= i < plan.last
  {
    forall j | plan.first <= j <= i :: Blind(c, plan, x, y, n, Through(c, plan, x.days, x.targets, n, j), j)
  }

  lemma ComparableBefore(c: Costs, plan: Plan, x: History, y: History, n: nat, i: nat, j: nat)
    requires Comparable(c, plan, x, y, n, i) && j <= i
    ensures Comparable(c, plan, x, y, n, j)
  {
  }

  /** Before the last day an account is carried overnight unchanged. */
  lemma CarriedOver(c: Costs, plan: Plan, x: History, n: nat, i: nat)
    requires Ready(plan, x.days, x.targets, n) && plan.first < i < plan.last
    ensures Through(c, plan, x.days, x.targets, n, i) == AtOpen(c, plan, x, n, i - 1)
  {
    hide Morning, Finals, FinalCapacities;
  }

  /**
   Causality, exactly: two histories that agree on opens through day i, volumes through day i - 1 and targets
   through day i - 2 - delay give the same cash, coins and fills at every open through day i if and only if each
   of those days either would not trade or misses a quote of a held asset in both or in neither.
   */
  lemma {:induction false} CausalExact(c: Costs, plan: Plan, x: History, y: History, n: nat, i: nat)
    requires Comparable(c, plan, x, y, n, i) && plan.first <= i
    ensures AgreeThrough(c, plan, x, y, n, i) <==> BlindThrough(c, plan, x, y, n, i)
    ensures AgreeThrough(c, plan, x, y, n, i) ==>
              Through(c, plan, x.days, x.targets, n, i) == Through(c, plan, y.days, y.targets, n, i)
    decreases i
  {
    hide Morning, Through, Blind, SameMarket, SameTargets;
    if i == plan.first {
      FirstThrough(c, plan, x, y, n);
      var s := Through(c, plan, x.days, x.targets, n, i);
      MorningsAgreeExactly(c, plan, x, y, n, s, i);
      assert AgreeThrough(c, plan, x, y, n, i) <==> AtOpen(c, plan, x, n, i) == AtOpen(c, plan, y, n, i);
      assert BlindThrough(c, plan, x, y, n, i) <==> Blind(c, plan, x, y, n, s, i);
    } else {
      ComparableBefore(c, plan, x, y, n, i, i - 1);
      CausalExact(c, plan, x, y, n, i - 1);
      CarriedOver(c, plan, x, n, i);
      CarriedOver(c, plan, y, n, i);
      var s := Through(c, plan, x.days, x.targets, n, i);
      MorningsAgreeExactly(c, plan, x, y, n, s, i);
      assert AgreeThrough(c, plan, x, y, n, i)
        <==> AgreeThrough(c, plan, x, y, n, i - 1) && AtOpen(c, plan, x, n, i) == AtOpen(c, plan, y, n, i);
      assert BlindThrough(c, plan, x, y, n, i)
        <==> BlindThrough(c, plan, x, y, n, i - 1) && Blind(c, plan, x, y, n, s, i);
      assert AgreeThrough(c, plan, x, y, n, i - 1) ==> AtOpen(c, plan, x, n, i - 1) == AtOpen(c, plan, y, n, i - 1);
    }
  }

  lemma FirstThrough(c: Costs, plan: Plan, x: History, y: History, n: nat)
    requires Ready(plan, x.days, x.targets, n) && Ready(plan, y.days, y.targets, n)
    ensures Through(c, plan, x.days, x.targets, n, plan.first) == Through(c, plan, y.days, y.targets, n, plan.first)
  {
  }

  // ---------------------------------------------------------------- fully observed histories

  /** The same quotes are present, whatever they are. */
  ghost predicate SameQuoted(a: seq<Option<real>>, b: seq<Option<real>>) {
    |a| == |b| && forall k | 0 <= k < |a| :: a[k].None? <==> b[k].None?
  }

  ghost predicate SamePresence(x: History, y: History, i: nat)
    requires i < |x.days| && i < |y.days|
  {
    forall j | 0 <= j <= i ::
      SameQuoted(x.days[j].close, y.days[j].close) && SameQuoted(x.days[j].low, y.days[j].low)
  }

  lemma SameMissing(s: Account, a: Day, b: Day)
    requires |s.lots| == |a.open| == |a.low| == |a.close|
    requires a.open == b.open && SameQuoted(a.close, b.close) && SameQuoted(a.low, b.low)
    ensures Missing(s, a) == Missing(s, b)
  {
    if Missing(s, a) {
      var k :| 0 <= k < |s.lots| && s.lots[k] > 0 && (a.open[k].None? || a.close[k].None? || a.low[k].None?);
      assert b.open[k].None? || b.close[k].None? || b.low[k].None?;
    }
    if Missing(s, b) {
      var k :| 0 <= k < |s.lots| && s.lots[k] > 0 && (b.open[k].None? || b.close[k].None? || b.low[k].None?);
      assert a.open[k].None? || a.close[k].None? || a.low[k].None?;
    }
  }

  /** Histories that also have the same same-day quotes present, as fully observed ones do, are never told apart. */
  lemma Causal(c: Costs, plan: Plan, x: History, y: History, n: nat, i: nat)
    requires Comparable(c, plan, x, y, n, i) && plan.first <= i && SamePresence(x, y, i)
    ensures AgreeThrough(c, plan, x, y, n, i)
    ensures Through(c, plan, x.days, x.targets, n, i) == Through(c, plan, y.days, y.targets, n, i)
  {
    hide Through, WouldTrade, Missing, Morning;
    forall j | plan.first <= j <= i
      ensures Blind(c, plan, x, y, n, Through(c, plan, x.days, x.targets, n, j), j)
    {
      SameMissing(Through(c, plan, x.days, x.targets, n, j), x.days[j], y.days[j]);
    }
    CausalExact(c, plan, x, y, n, i);
  }

  // ---------------------------------------------------------------- a pair that is told apart

  const FREE: Costs := Settings(0.0, 0.0, 1.0, 0, 1000.0, 1.0, 0.0, 1.0)
  const SHORT_PLAN := Plan(2, 5, 1, false)
  const ENTER_THEN_LEAVE: seq<seq<real>> := [[1.0], [0.0], [0.0], [0.0], [0.0]]

  function Flat(calendar: int, close: Option<real>): Day {
    Day(calendar, [Some(1.0)], [Some(1.0)], [close], [Some(10000.0)])
  }

  /** Five days of one asset at price one; only the close of the fourth may be missing. */
  function Week(close: Option<real>): History {
    History([Flat(0, Some(1.0)), Flat(1, Some(1.0)), Flat(2, Some(1.0)), Flat(3, close), Flat(4, Some(1.0))],
            ENTER_THEN_LEAVE)
  }

  lemma WeekReady(close: Option<real>)
    ensures Ready(SHORT_PLAN, Week(close).days, Week(close).targets, 1)
  {
    var t := Week(close).targets;
    assert t[0] == [1.0] && t[1] == [0.0] && t[2] == [0.0] && t[3] == [0.0] && t[4] == [0.0];
  }

  /** A free purchase or sale at price one of fewer lots than the cash or the holding allows. */
  lemma FreeTrade(s: Account, day: nat, buy: bool, lots: nat)
    requires |s.lots| == 1 && lots > 0 && s.lots[0] >= 0 && lots <= 10000
    requires if buy then lots as real <= s.cash else lots <= s.lots[0]
    ensures var t := Trade(FREE, s, day, 0, buy, lots, Some(1.0), Some(10000.0), Rebalance);
            && t.lots == [if buy then s.lots[0] + lots else s.lots[0] - lots]
            && t.cash == if buy then s.cash - lots as real else s.cash + lots as real
  {
    assert Price(FREE, buy, 1.0) == 1.0 && Amount(FREE, lots) == lots as real;
    assert Cost(FREE, buy, lots, 1.0) == lots as real;
    assert buy ==> Affordable(FREE, s.cash, 1.0) == s.cash.Floor;
  }

  lemma FreeDesired(wealth: real, weight: real)
    ensures Desired(FREE, wealth, [weight], [Some(1.0)]) == [Mul(wealth * 0.996, weight).Floor]
  {
    hide Mul, LotCost;
    FreeLot();
    assert Budget(FREE, wealth) == wealth * 0.996;
    var budget := Mul(wealth * 0.996, weight);
    assert budget / 1.0 == budget;
    hide Budget;
  }

  lemma FreeLot()
    ensures LotCost(FREE, 1.0) == 1.0
  {
  }

  /** On the third day both histories enter with 996 of 1000. */
  lemma Entered(close: Option<real>)
    ensures Ready(SHORT_PLAN, Week(close).days, Week(close).targets, 1)
    ensures var s := Through(FREE, SHORT_PLAN, Week(close).days, Week(close).targets, 1, 3);
            s.lots == [996] && s.cash == 4.0
  {
    hide Trade, Desired, Affordable;
    WeekReady(close);
    var x := Week(close);
    var s := Opening(FREE, 1);
    assert s.lots == [0];
    assert Worth(FREE, s.lots, x.days[2].open, 1) == Some(0.0);
    FreeDesired(1000.0, 1.0);
    FreeTrade(s, 2, true, 996);
    assert Capacities(FREE, x.days, 2, 1) == [Some(10000.0)];
    var open, d, cap := [Some(1.0)], [996], [Some(10000.0)];
    assert Sells(FREE, s, 2, open, d, cap, 0) == s;
    assert Sells(FREE, s, 2, open, d, cap, 1) == s;
    assert Buys(FREE, s, 2, open, d, cap, 0) == s;
    hide Sells, Buys;
    assert Through(FREE, SHORT_PLAN, x.days, x.targets, 1, 2) == s;
    CarriedOver(FREE, SHORT_PLAN, x, 1, 3);
  }

  /**
   The executor does look at the day: two comparable histories that differ only in whether the fourth day's close
   is there for the held asset leave that day's open with different coins.
   */
  lemma ClosePresenceShows()
    ensures var x, y := Week(Some(1.0)), Week(None);
            && Comparable(FREE, SHORT_PLAN, x, y, 1, 3)
            && Through(FREE, SHORT_PLAN, x.days, x.targets, 1, 3).lots == [996]
            && AtOpen(FREE, SHORT_PLAN, x, 1, 3).lots == [0] && AtOpen(FREE, SHORT_PLAN, y, 1, 3).lots == [996]
  {
    hide Trade, Desired, Affordable;
    var x, y := Week(Some(1.0)), Week(None);
    Entered(Some(1.0));
    Entered(None);
    hide Through;
    var s := Through(FREE, SHORT_PLAN, x.days, x.targets, 1, 3);
    assert Worth(FREE, s.lots, x.days[3].open, 0) == Some(0.0);
    assert Amount(FREE, 996) == 996.0;
    FreeDesired(1000.0, 0.0);
    FreeTrade(s, 3, false, 996);
    assert Capacities(FREE, x.days, 3, 1) == [Some(10000.0)];
    var open, d, cap := [Some(1.0)], [0], [Some(10000.0)];
    assert Sells(FREE, s, 3, open, d, cap, 0) == s;
    var sold := Sells(FREE, s, 3, open, d, cap, 1);
    assert sold.lots == [0];
    assert Buys(FREE, sold, 3, open, d, cap, 0) == sold;
    assert Buys(FREE, sold, 3, open, d, cap, 1) == sold;
    assert Wealth(FREE, s, open) == Some(1000.0);
    assert Mul(1000.0 * 0.996, 0.0) == 0.0;
    assert !Missing(s, x.days[3]);
    var t := Through(FREE, SHORT_PLAN, y.days, y.targets, 1, 3);
    assert y.days[3].close[0].None? && t.lots[0] > 0;
    assert Missing(t, y.days[3]);
    hide Amount, Sells, Buys, Wealth, Missing;
  }
}
