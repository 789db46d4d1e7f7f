/** What a flow signal means, in terms of the prints themselves: the excursion, the turn of the flow, the order. */
module FlowRules {
  import opened Basics
  import opened TickMarket
  import opened FlowModel
  import T = FlowTheorems
  import R = TickRules

  // ---------------------------------------------------------------- windows

  predicate Within(t: Print, after: int, upTo: int) {
    after < t.ts <= upTo
  }

  /** Volume traded in a window, counted from the first print on. */
  function Volume(ticks: seq<Print>, after: int, upTo: int): (v: real)
    ensures v >= 0.0
  {
    if ticks == [] then 0.0
    else (if Within(ticks[0], after, upTo) then ticks[0].qty else 0.0) + Volume(ticks[1..], after, upTo)
  }

  /** The part of it that buyers took. */
  function BuyerVolume(ticks: seq<Print>, after: int, upTo: int): (v: real)
    ensures v >= 0.0
  {
    if ticks == [] then 0.0
    else (if Within(ticks[0], after, upTo) && ticks[0].buyer then ticks[0].qty else 0.0)
         + BuyerVolume(ticks[1..], after, upTo)
  }

  ghost predicate Any(ticks: seq<Print>, after: int, upTo: int) {
    exists t :: t in ticks && Within(t, after, upTo)
  }

  lemma {:induction false} VolumeAppend(ticks: seq<Print>, t: Print, after: int, upTo: int)
    ensures Volume(ticks + [t], after, upTo)
         == Volume(ticks, after, upTo) + if Within(t, after, upTo) then t.qty else 0.0
    ensures BuyerVolume(ticks + [t], after, upTo)
         == BuyerVolume(ticks, after, upTo) + if Within(t, after, upTo) && t.buyer then t.qty else 0.0
  {
    if ticks == [] {
      assert [] + [t] == [t];
    } else {
      assert (ticks + [t])[1..] == ticks[1..] + [t];
      VolumeAppend(ticks[1..], t, after, upTo);
    }
  }

  lemma Grows(ticks: seq<Print>, t: Print)
    ensures Traded(ticks + [t]) == Traded(ticks) + t.qty
    ensures Bought(ticks + [t]) == Bought(ticks) + if t.buyer then t.qty else 0.0
  {
    assert (ticks + [t])[..|ticks|] == ticks;
  }

  /** The window holds exactly the prints within it, and its sums are the volumes. */
  lemma {:induction false} WindowSums(ticks: seq<Print>, after: int, upTo: int)
    ensures Traded(Between(ticks, after, upTo)) == Volume(ticks, after, upTo)
    ensures Bought(Between(ticks, after, upTo)) == BuyerVolume(ticks, after, upTo)
    ensures forall t :: t in Between(ticks, after, upTo) <==> t in ticks && Within(t, after, upTo)
  {
    hide Traded, Bought, Volume, BuyerVolume;
    if ticks == [] {
      Nothing(after, upTo);
    } else {
      var n := |ticks| - 1;
      WindowSums(ticks[..n], after, upTo);
      assert ticks == ticks[..n] + [ticks[n]];
      VolumeAppend(ticks[..n], ticks[n], after, upTo);
      Grows(Between(ticks[..n], after, upTo), ticks[n]);
    }
  }

  lemma Nothing(after: int, upTo: int)
    ensures Traded([]) == Volume([], after, upTo) && Bought([]) == BuyerVolume([], after, upTo)
  {
  }

  lemma {:induction false} Extremes(ticks: seq<Print>) returns (low: nat, high: nat)
    requires ticks != []
    ensures low < |ticks| && ticks[low].price == Lowest(ticks)
    ensures high < |ticks| && ticks[high].price == Highest(ticks)
    ensures forall i | 0 <= i < |ticks| :: Lowest(ticks) <= ticks[i].price <= Highest(ticks)
  {
    var n := |ticks| - 1;
    low, high := n, n;
    if n > 0 {
      var l, h := Extremes(ticks[..n]);
      if ticks[l].price <= ticks[n].price { low := l; }
      if ticks[h].price >= ticks[n].price { high := h; }
      forall i | 0 <= i < n
        ensures Lowest(ticks[..n]) <= ticks[i].price <= Highest(ticks[..n])
      {
        assert ticks[..n][i] == ticks[i];
      }
    }
  }

  /** Nothing in the last five seconds trades beyond, on the excursion's side, all of the ten seconds before. */
  ghost predicate NoNewExtreme(ticks: seq<Print>, now: int, side: Side) {
    forall t | t in ticks && Within(t, now - 5_000, now) ::
      exists u :: u in ticks && Within(u, now - 15_000, now - 5_000)
                  && if side.Long? then u.price <= t.price else u.price >= t.price
  }

  /**
   The flow has turned: buyers took more than six tenths of the last ten seconds and less than half of the ten before
   (or, for a short, less than four tenths and more than half), and the excursion has made no new extreme.
   */
  ghost predicate Turned(ticks: seq<Print>, now: int, side: Side) {
    var v, b := Volume(ticks, now - 10_000, now), BuyerVolume(ticks, now - 10_000, now);
    var w, c := Volume(ticks, now - 20_000, now - 10_000), BuyerVolume(ticks, now - 20_000, now - 10_000);
    && Any(ticks, now - 10_000, now) && Any(ticks, now - 20_000, now - 10_000)
    && Any(ticks, now - 5_000, now) && Any(ticks, now - 15_000, now - 5_000)
    && (if side.Long? then b > 0.6 * v && c < 0.5 * w else b < 0.4 * v && c > 0.5 * w)
    && NoNewExtreme(ticks, now, side)
  }

  lemma AnyIs(ticks: seq<Print>, after: int, upTo: int)
    ensures Between(ticks, after, upTo) != [] <==> Any(ticks, after, upTo)
  {
    WindowSums(ticks, after, upTo);
    var r := Between(ticks, after, upTo);
    if r != [] {
      assert r[0] in r;
    }
  }

  lemma ShareIs(r: seq<Print>, x: real)
    requires r != []
    ensures BuyShare(r) > x <==> Bought(r) > x * Traded(r)
    ensures BuyShare(r) < x <==> Bought(r) < x * Traded(r)
  {
    hide Bought, Traded;
    QuotientOrder(x, Bought(r), Traded(r));
  }

  lemma ExtremeIs(ticks: seq<Print>, now: int, side: Side)
    requires Any(ticks, now - 5_000, now) && Any(ticks, now - 15_000, now - 5_000)
    ensures var recent, preceding := Between(ticks, now - 5000, now), Between(ticks, now - 15000, now - 5000);
            && recent != [] && preceding != []
            && (NoNewExtreme(ticks, now, side)
                <==> if side.Long? then Lowest(recent) >= Lowest(preceding) else Highest(recent) <= Highest(preceding))
  {
    hide Lowest, Highest, Between;
    AnyIs(ticks, now - 5000, now);
    AnyIs(ticks, now - 15000, now - 5000);
    WindowSums(ticks, now - 5000, now);
    WindowSums(ticks, now - 15000, now - 5000);
    var recent, preceding := Between(ticks, now - 5000, now), Between(ticks, now - 15000, now - 5000);
    var l, h := Extremes(recent);
    var pl, ph := Extremes(preceding);
    assert recent[l] in recent && recent[h] in recent && preceding[pl] in preceding && preceding[ph] in preceding;
    if NoNewExtreme(ticks, now, side) {
      var t := recent[if side.Long? then l else h];
      var u :| u in ticks && Within(u, now - 15_000, now - 5_000)
               && if side.Long? then u.price <= t.price else u.price >= t.price;
      assert u in preceding;
    } else {
      var t :| t in ticks && Within(t, now - 5_000, now)
               && !exists u :: u in ticks && Within(u, now - 15_000, now - 5_000)
                               && if side.Long? then u.price <= t.price else u.price >= t.price;
      assert t in recent;
      var u := preceding[if side.Long? then pl else ph];
      assert u in ticks && Within(u, now - 15_000, now - 5_000);
    }
  }

  lemma ConfirmedExactly(ticks: seq<Print>, now: int, side: Side)
    ensures Confirmed(ticks, now, side) <==> Turned(ticks, now, side)
  {
    hide Lowest, Highest, Between, BuyShare, Bought, Traded, NoNewExtreme, Any, Volume, BuyerVolume;
    AnyIs(ticks, now - 10000, now);
    AnyIs(ticks, now - WINDOW, now - 10000);
    AnyIs(ticks, now - 5000, now);
    AnyIs(ticks, now - 15000, now - 5000);
    WindowSums(ticks, now - 10000, now);
    WindowSums(ticks, now - WINDOW, now - 10000);
    var current, previous := Between(ticks, now - 10000, now), Between(ticks, now - WINDOW, now - 10000);
    if current != [] && previous != [] && Any(ticks, now - 5000, now) && Any(ticks, now - 15000, now - 5000) {
      ExtremeIs(ticks, now, side);
      ShareIs(current, 0.6);
      ShareIs(current, 0.4);
      ShareIs(previous, 0.5);
    }
  }

  // ---------------------------------------------------------------- signals

  /** A full average range beyond the average: a fall for a long, a rise for a short. */
  predicate BeyondRange(price: real, c: Context, side: Side) {
    if side.Long? then price <= c.vwap - c.atr else price >= c.vwap + c.atr
  }

  /** The touch rounded away from the market to a whole tick. */
  ghost predicate JoinsTouch(limit: real, side: Side, quote: Quote, tick: Positive) {
    && Whole(limit, tick)
    && if side.Long? then quote.bid - tick < limit <= quote.bid else quote.ask <= limit < quote.ask + tick
  }

  /** The signal's own numbers: stop the larger of a thousandth and the range, target the average, worth its costs. */
  ghost predicate WellFormed(p: Parameters, t: Print, quote: Quote, c: Context, g: Signal) {
    && g.ts == t.ts && JoinsTouch(g.limit, g.side, quote, p.tick) && g.target == c.vwap
    && g.stopFraction >= 0.001 && g.stopFraction >= c.atr / t.price
    && (g.stopFraction == 0.001 || g.stopFraction == c.atr / t.price) && g.stopFraction <= 0.002
    && R.GainFraction(g) >= 2.0 * g.stopFraction
    && R.GainFraction(g) >= 3.0 * (p.maker + p.taker + 2.0 * p.slippage)
  }

  lemma JoinedOnce(a: real, b: real, side: Side, quote: Quote, tick: Positive)
    requires JoinsTouch(a, side, quote, tick) && JoinsTouch(b, side, quote, tick)
    ensures a == b
  {
    var m: int :| a == Times(m, tick);
    var n: int :| b == Times(n, tick);
    hide Times;
    NextStep(m, tick);
    NextStep(n, tick);
    FewerSteps(m, n + 1, tick);
    FewerSteps(n, m + 1, tick);
  }

  lemma LimitJoins(p: Parameters, side: Side, quote: Quote)
    ensures JoinsTouch(PassiveLimit(p, side, quote), side, quote, p.tick)
  {
    hide Whole;
  }

  /** A side is proposed exactly when some well-formed signal exists for it, and then it is that one. */
  lemma ProposesExactly(p: Parameters, t: Print, quote: Quote, c: Context, side: Side)
    ensures var g := Proposed(p, t, quote, c, side);
            && (g.Some? ==> g.value.side == side && WellFormed(p, t, quote, c, g.value))
            && (g.None? ==> forall w: Signal | w.side == side :: !WellFormed(p, t, quote, c, w))
  {
    LimitJoins(p, side, quote);
    forall w: Signal | w.side == side && WellFormed(p, t, quote, c, w)
      ensures Proposed(p, t, quote, c, side) == Some(w)
    {
      JoinedOnce(w.limit, PassiveLimit(p, side, quote), side, quote, p.tick);
      hide PassiveLimit, JoinsTouch;
    }
    hide PassiveLimit, JoinsTouch;
  }

  /** What a print needs to signal a side, but for the re-arming rule. */
  ghost predicate Signals(p: Parameters, o: Flow, i: Input, nextEvaluation: int, side: Side, g: Signal) {
    && R.Current(p, i.trade.ts, i.quote) && i.context.Some?
    && o.start.Some? && i.trade.ts >= o.start.value + 20_000 && i.trade.ts >= nextEvaluation
    && BeyondRange(i.trade.price, i.context.value, side) && i.context.value.trend == Some(side)
    && Turned(o.ticks, i.trade.ts, side)
    && g.side == side && WellFormed(p, i.trade, i.quote.value, i.context.value, g)
  }

  lemma ReadyIs(p: Parameters, o: Flow, i: Input)
    requires o.start.Some?
    ensures Ready(p, o, i)
       <==> R.Current(p, i.trade.ts, i.quote) && i.context.Some? && i.trade.ts >= o.start.value + 20_000
  {
  }

  /** The excursion is of this side: the average range is positive, so never of both. */
  lemma ExcursionIs(price: real, c: Context, side: Side)
    ensures Excursion(price, c) == Some(side) <==> BeyondRange(price, c, side)
  {
  }

  /**
   Input j is worthy of a side exactly when its own prints say so: a timely quote, twenty seconds of history, a tenth
   of a second since the last judgement, a full range beyond the average with the trend, a turned flow, and a
   well-formed order; and then that order is what is issued.
   */
  lemma WorthyExactly(p: Parameters, h: seq<Input>, side: Side, j: nat)
    requires T.Ordered(h) && j < |h|
    ensures T.Worthy(p, h, side, j)
       <==> exists g :: Signals(p, T.At(p, h, j), h[j], T.Before(p, h, j).nextEvaluation, side, g)
    ensures T.IssuedFor(p, h, side, j) ==>
              Signals(p, T.At(p, h, j), h[j], T.Before(p, h, j).nextEvaluation, side, T.Issued(p, h, j).value)
  {
    hide T.At, T.Before, Proposed, WellFormed, Excursion, BeyondRange, Confirmed, Turned, Timely, Ready;
    var o, i := T.At(p, h, j), h[j];
    ReadyIs(p, o, i);
    if Ready(p, o, i) {
      ReadySees(p, o, i);
      ProposesExactly(p, i.trade, i.quote.value, i.context.value, side);
      var e := Excursion(i.trade.price, i.context.value);
      if e.Some? {
        ProposesExactly(p, i.trade, i.quote.value, i.context.value, e.value);
      }
      ConfirmedExactly(o.ticks, i.trade.ts, side);
      ExcursionIs(i.trade.price, i.context.value, side);
    }
    var next := T.Before(p, h, j).nextEvaluation;
    if T.Worthy(p, h, side, j) {
      assert Signals(p, o, i, next, side, Candidate(p, o, i).value);
    }
    if g :| Signals(p, o, i, next, side, g) {
      assert Proposed(p, i.trade, i.quote.value, i.context.value, side).Some?;
    }
    IssuedIsCandidate(p, h, side, j);
  }

  lemma ReadySees(p: Parameters, o: Flow, i: Input)
    requires o.start.Some? && Ready(p, o, i)
    ensures i.quote.Some? && i.context.Some?
  {
  }

  lemma IssuedIsCandidate(p: Parameters, h: seq<Input>, side: Side, j: nat)
    requires T.Ordered(h) && j < |h|
    ensures T.IssuedFor(p, h, side, j) ==>
              T.Worthy(p, h, side, j) && T.Issued(p, h, j) == Candidate(p, T.At(p, h, j), h[j])
  {
    T.RunStep(p, h, j);
    hide T.Run, T.Before, Drop, Candidate, Timely, Returns;
  }

  /** A print answers a side's signal at or across the average: not below it for a long, not above it for a short. */
  lemma ResetsExactly(p: Parameters, h: seq<Input>, side: Side, m: nat)
    requires T.Ordered(h) && m < |h|
    ensures T.Resets(p, h, side, m)
       <==> R.Current(p, h[m].trade.ts, h[m].quote) && h[m].context.Some?
            && h[m].trade.ts >= T.At(p, h, m).start.value + 20_000
            && if side.Long? then h[m].trade.price >= h[m].context.value.vwap
               else h[m].trade.price <= h[m].context.value.vwap
  {
    hide T.At;
    ReadyIs(p, T.At(p, h, m), h[m]);
  }

  /**
   A print more than two seconds after the last one starts the window over; any other joins what is left of it, the
   prints of the twenty seconds before.
   */
  lemma ObservesExactly(s: Flow, t: Print)
    requires T.Ascending(s.ticks) && forall u | u in s.ticks :: u.ts <= t.ts
    ensures var o := Observed(s, t);
            if s.lastTs >= 0 && t.ts > s.lastTs + 2_000 then o.ticks == [t] && o.start == Some(t.ts as int)
            else
              && o.ticks == T.Recent(s.ticks, t.ts - 20_000) + [t]
              && o.start == if s.start.None? then Some(t.ts as int) else s.start
  {
    hide Drop, T.Recent;
    T.DropIsRecent(s.ticks + [t], t.ts - WINDOW);
    T.DropIsRecent([t], t.ts - WINDOW);
    T.RecentAppend(s.ticks, t, t.ts - WINDOW);
    T.RecentAppend([], t, t.ts - WINDOW);
    RecentNothing(t.ts - WINDOW);
    assert [] + [t] == [t];
  }

  lemma RecentNothing(cutoff: int)
    ensures T.Recent([], cutoff) == []
  {
  }

  lemma CountAppend(s: seq<Print>, x: Print, t: Print)
    ensures multiset(s + [x])[t] == multiset(s)[t] + if x == t then 1 else 0
  {
  }

  /** The recent prints of a window are those after the cutoff, each as often as in the window, and no others. */
  lemma {:induction false} RecentExactly(ticks: seq<Print>, cutoff: int, t: Print)
    ensures multiset(T.Recent(ticks, cutoff))[t] == if t.ts > cutoff then multiset(ticks)[t] else 0
  {
    if ticks != [] {
      var n := |ticks| - 1;
      var before, x := ticks[..n], ticks[n];
      RecentExactly(before, cutoff, t);
      T.RecentAppend(before, x, cutoff);
      assert ticks == before + [x];
      hide T.Recent;
      CountAppend(before, x, t);
      if x.ts > cutoff {
        CountAppend(T.Recent(before, cutoff), x, t);
      } else {
        assert T.Recent(before, cutoff) + [] == T.Recent(before, cutoff);
      }
    }
  }
}
