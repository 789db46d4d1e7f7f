/** One signal per excursion, and a window that is exactly the recent prints. */
module FlowTheorems {
  import opened Basics
  import opened TickMarket
  import opened FlowModel

  ghost predicate Ordered(h: seq<Input>) {
    forall i, j | 0 <= i < j < |h| :: h[i].trade.ts <= h[j].trade.ts
  }

  function Run(p: Parameters, h: seq<Input>): Flow
    requires Ordered(h)
  {
    if h == [] then Start()
    else
      var before := h[..|h| - 1];
      var o := OnTrade(p, Run(p, before), h[|h| - 1]);
      if o.Next? then o.state else Run(p, before)
  }

  /** Prints since the last gap of the feed. */
  function SinceGap(h: seq<Input>): seq<Print> {
    if h == [] then []
    else
      var n := |h| - 1;
      if n > 0 && h[n].trade.ts - h[n - 1].trade.ts > GAP then [h[n].trade]
      else SinceGap(h[..n]) + [h[n].trade]
  }

  function Recent(ticks: seq<Print>, cutoff: int): (r: seq<Print>)
    ensures forall t | t in r :: t.ts > cutoff
  {
    if ticks == [] then []
    else
      var n := |ticks| - 1;
      Recent(ticks[..n], cutoff) + if ticks[n].ts > cutoff then [ticks[n]] else []
  }

  ghost predicate Ascending(ticks: seq<Print>) {
    forall i, j | 0 <= i < j < |ticks| :: ticks[i].ts <= ticks[j].ts
  }

  lemma {:induction false} RecentAll(ticks: seq<Print>, cutoff: int)
    requires forall t | t in ticks :: t.ts > cutoff
    ensures Recent(ticks, cutoff) == ticks
  {
    if ticks != [] {
      RecentAll(ticks[..|ticks| - 1], cutoff);
    }
  }

  lemma {:induction false} RecentTail(ticks: seq<Print>, cutoff: int)
    requires ticks != [] && ticks[0].ts <= cutoff
    ensures Recent(ticks, cutoff) == Recent(ticks[1..], cutoff)
  {
    var n := |ticks| - 1;
    if n == 0 {
      assert ticks[..0] == [] && ticks[1..] == [];
    } else {
      RecentTail(ticks[..n], cutoff);
      assert ticks[..n][1..] == ticks[1..][..n - 1];
    }
  }

  /** Dropping from the front of an ordered window is filtering it. */
  lemma {:induction false} DropIsRecent(ticks: seq<Print>, cutoff: int)
    requires Ascending(ticks)
    ensures Drop(ticks, cutoff) == Recent(ticks, cutoff)
  {
    if ticks == [] {
    } else if ticks[0].ts <= cutoff {
      RecentTail(ticks, cutoff);
      DropIsRecent(ticks[1..], cutoff);
    } else {
      RecentAll(ticks, cutoff);
    }
  }

  lemma {:induction false} RecentTwice(ticks: seq<Print>, early: int, late: int)
    requires early <= late
    ensures Recent(Recent(ticks, early), late) == Recent(ticks, late)
  {
    if ticks != [] {
      var n := |ticks| - 1;
      RecentTwice(ticks[..n], early, late);
      var t := ticks[n];
      assert ticks == ticks[..n] + [t];
      RecentAppend(ticks[..n], t, early);
      RecentAppend(ticks[..n], t, late);
      RecentAppend(Recent(ticks[..n], early), t, late);
      hide Recent;
      assert t.ts <= early ==> Recent(ticks, early) == Recent(ticks[..n], early);
    }
  }

  lemma {:induction false} RecentInside(ticks: seq<Print>, cutoff: int)
    ensures forall t | t in Recent(ticks, cutoff) :: t in ticks
    ensures Ascending(ticks) ==> Ascending(Recent(ticks, cutoff))
  {
    if ticks != [] {
      var n := |ticks| - 1;
      RecentInside(ticks[..n], cutoff);
      assert Ascending(ticks) ==> forall t | t in ticks[..n] :: t.ts <= ticks[n].ts;
      AscendingAppend(Recent(ticks[..n], cutoff), ticks[n]);
      assert Recent(ticks[..n], cutoff) + [] == Recent(ticks[..n], cutoff);
    }
  }

  lemma AscendingAppend(ticks: seq<Print>, t: Print)
    ensures Ascending(ticks) && (forall x | x in ticks :: x.ts <= t.ts) ==> Ascending(ticks + [t])
  {
  }

  lemma {:induction false} SinceGapOrdered(h: seq<Input>)
    requires Ordered(h)
    ensures Ascending(SinceGap(h))
    ensures h != [] ==> SinceGap(h) != []
    ensures forall t | t in SinceGap(h) :: h != [] && t.ts <= h[|h| - 1].trade.ts
  {
    if h != [] {
      SinceGapOrdered(h[..|h| - 1]);
    }
  }

  /** What one accepted print does to the window, the clock and the evaluation time. */
  lemma PrintStep(p: Parameters, s: Flow, i: Input)
    requires i.trade.ts >= s.lastTs
    ensures var o := OnTrade(p, s, i);
            && o.Next? && o.state.lastTs == i.trade.ts
            && o.state.ticks == Observed(s, i.trade).ticks && o.state.start == Observed(s, i.trade).start
            && o.state.nextEvaluation >= s.nextEvaluation
            && (o.signal.Some? ==> i.trade.ts >= s.nextEvaluation && o.state.nextEvaluation == i.trade.ts + 100)
  {
    hide Candidate, Drop, Timely, Returns;
  }

  /** No print of an ordered history is refused, and the clock is the last print's. */
  lemma {:induction false} NeverReversed(p: Parameters, h: seq<Input>)
    requires Ordered(h)
    ensures Run(p, h).lastTs == if h == [] then -1 else h[|h| - 1].trade.ts
    ensures h != [] ==> OnTrade(p, Run(p, h[..|h| - 1]), h[|h| - 1]).Next?
  {
    hide OnTrade;
    if h != [] {
      NeverReversed(p, h[..|h| - 1]);
      PrintStep(p, Run(p, h[..|h| - 1]), h[|h| - 1]);
    }
  }

  lemma RecentAppend(ticks: seq<Print>, t: Print, cutoff: int)
    ensures Recent(ticks + [t], cutoff) == Recent(ticks, cutoff) + if t.ts > cutoff then [t] else []
  {
    assert (ticks + [t])[..|ticks|] == ticks;
  }

  lemma ObservedWindow(s: Flow, t: Print, all: seq<Print>)
    requires s.lastTs <= t.ts && !FeedGap(s.lastTs, t.ts) && s.start.Some?
    requires s.ticks == Recent(all, s.lastTs - WINDOW) && Ascending(all) && forall x | x in all :: x.ts <= t.ts
    ensures Observed(s, t).ticks == Recent(all + [t], t.ts - WINDOW) && Observed(s, t).start == s.start
  {
    hide Recent, Drop;
    var cutoff := t.ts - WINDOW;
    RecentInside(all, s.lastTs - WINDOW);
    DropIsRecent(s.ticks + [t], cutoff);
    RecentAppend(s.ticks, t, cutoff);
    RecentAppend(all, t, cutoff);
    RecentTwice(all, s.lastTs - WINDOW, cutoff);
  }

  /** The pruned window is the whole print history since the last gap, filtered to the last twenty seconds. */
  lemma {:induction false} WindowExact(p: Parameters, h: seq<Input>)
    requires Ordered(h) && h != []
    ensures Run(p, h).ticks == Recent(SinceGap(h), h[|h| - 1].trade.ts - WINDOW)
    ensures Run(p, h).start == Some(SinceGap(h)[0].ts as int)
  {
    hide OnTrade, Recent, Observed, Ascending;
    var n := |h| - 1;
    var t := h[n].trade;
    var s := Run(p, h[..n]);
    NeverReversed(p, h[..n]);
    NeverReversed(p, h);
    SinceGapOrdered(h[..n]);
    SinceGapOrdered(h);
    PrintStep(p, s, h[n]);
    if n == 0 {
      FirstWindow(s, t);
      assert SinceGap(h) == [t];
    } else {
      WindowExact(p, h[..n]);
      if FeedGap(s.lastTs, t.ts) {
        FirstWindow(s, t);
        assert SinceGap(h) == [t];
      } else {
        ObservedWindow(s, t, SinceGap(h[..n]));
        assert SinceGap(h) == SinceGap(h[..n]) + [t];
      }
    }
  }

  lemma FirstWindow(s: Flow, t: Print)
    requires FeedGap(s.lastTs, t.ts) || (s.ticks == [] && s.start.None?)
    ensures Observed(s, t).ticks == Recent([t], t.ts - WINDOW) && Observed(s, t).start == Some(t.ts as int)
  {
    assert [] + [t] == [t];
    RecentAll([t], t.ts - WINDOW);
  }

  // ---------------------------------------------------------------- one signal per excursion

  /** The state when input j arrives. */
  function Before(p: Parameters, h: seq<Input>, j: nat): Flow
    requires Ordered(h) && j <= |h|
  {
    Run(p, h[..j])
  }

  /** The window state at input j, before the print is judged. */
  function At(p: Parameters, h: seq<Input>, j: nat): (o: Flow)
    requires Ordered(h) && j < |h|
    ensures o.start.Some?
  {
    Observed(Before(p, h, j), h[j].trade)
  }

  function Issued(p: Parameters, h: seq<Input>, j: nat): Option<Signal>
    requires Ordered(h) && j < |h|
  {
    var o := OnTrade(p, Before(p, h, j), h[j]);
    if o.Next? then o.signal else None
  }

  predicate IssuedFor(p: Parameters, h: seq<Input>, side: Side, j: nat)
    requires Ordered(h) && j < |h|
  {
    Issued(p, h, j).Some? && Issued(p, h, j).value.side == side
  }

  /** Input m re-arms the side: it is judged, and it prints at or across the average. */
  predicate Resets(p: Parameters, h: seq<Input>, side: Side, m: nat)
    requires Ordered(h) && m < |h|
  {
    Ready(p, At(p, h, m), h[m]) && Returns(side, h[m].trade.price, h[m].context.value.vwap)
  }

  ghost predicate ResetIn(p: Parameters, h: seq<Input>, side: Side, i: nat, j: nat)
    requires Ordered(h) && j < |h|
  {
    exists m | i < m <= j :: Resets(p, h, side, m)
  }

  /** Input j would signal this side but for the re-arming rule. */
  predicate Worthy(p: Parameters, h: seq<Input>, side: Side, j: nat)
    requires Ordered(h) && j < |h|
  {
    && Ready(p, At(p, h, j), h[j]) && h[j].trade.ts >= Before(p, h, j).nextEvaluation
    && var c := Candidate(p, At(p, h, j), h[j]); c.Some? && c.value.side == side
  }

  /** The side's flag at input j: a signal not yet answered by a return to the average, j included. */
  ghost predicate Pending(p: Parameters, h: seq<Input>, side: Side, j: nat)
    requires Ordered(h) && j < |h|
  {
    exists i | 0 <= i < j :: IssuedFor(p, h, side, i) && !ResetIn(p, h, side, i, j)
  }

  lemma RunStep(p: Parameters, h: seq<Input>, j: nat)
    requires Ordered(h) && j < |h|
    ensures OnTrade(p, Before(p, h, j), h[j]).Next?
    ensures Before(p, h, j + 1) == OnTrade(p, Before(p, h, j), h[j]).state
  {
    assert h[..j + 1][..j] == h[..j];
    NeverReversed(p, h[..j + 1]);
    hide OnTrade;
  }

  /** What one input does to a side's flag, and when it signals. */
  lemma FlagStep(p: Parameters, h: seq<Input>, side: Side, j: nat)
    requires Ordered(h) && j < |h|
    ensures var kept := Before(p, h, j).Used(side) && !Resets(p, h, side, j);
            && (IssuedFor(p, h, side, j) <==> Worthy(p, h, side, j) && !kept)
            && (Before(p, h, j + 1).Used(side) <==> kept || IssuedFor(p, h, side, j))
  {
    RunStep(p, h, j);
    hide Run, Before, Timely, Drop, Candidate, Returns;
  }

  lemma PendingStep(p: Parameters, h: seq<Input>, side: Side, j: nat)
    requires Ordered(h) && j < |h|
    ensures Pending(p, h, side, j)
       <==> j > 0 && (Pending(p, h, side, j - 1) || IssuedFor(p, h, side, j - 1)) && !Resets(p, h, side, j)
  {
    hide IssuedFor, Resets;
    if Pending(p, h, side, j) {
      var i :| 0 <= i < j && IssuedFor(p, h, side, i) && !ResetIn(p, h, side, i, j);
      assert !Resets(p, h, side, j);
      if i < j - 1 {
        assert !ResetIn(p, h, side, i, j - 1);
      }
    }
    if j > 0 && !Resets(p, h, side, j) {
      if IssuedFor(p, h, side, j - 1) {
        assert !ResetIn(p, h, side, j - 1, j);
      } else if Pending(p, h, side, j - 1) {
        var i :| 0 <= i < j - 1 && IssuedFor(p, h, side, i) && !ResetIn(p, h, side, i, j - 1);
        assert !ResetIn(p, h, side, i, j);
      }
    }
  }

  lemma NothingUsed(p: Parameters, side: Side)
    ensures Ordered([]) && !Run(p, []).Used(side)
  {
  }

  lemma {:induction false} FlagIsPending(p: Parameters, h: seq<Input>, side: Side, j: nat)
    requires Ordered(h) && j < |h|
    ensures Pending(p, h, side, j) <==> Before(p, h, j).Used(side) && !Resets(p, h, side, j)
    decreases j
  {
    hide Pending, IssuedFor, Resets, Worthy, Start, OnTrade;
    PendingStep(p, h, side, j);
    if j > 0 {
      hide Run, Before;
      FlagIsPending(p, h, side, j - 1);
      FlagStep(p, h, side, j - 1);
    } else {
      NothingUsed(p, side);
    }
  }

  /**
   A print signals a side exactly when it is worthy of it and every earlier signal of that side was followed by
   a print at or across the average.
   */
  lemma SignalsOncePerExcursion(p: Parameters, h: seq<Input>, side: Side, j: nat)
    requires Ordered(h) && j < |h|
    ensures IssuedFor(p, h, side, j)
       <==> Worthy(p, h, side, j) && forall i | 0 <= i < j && IssuedFor(p, h, side, i) :: ResetIn(p, h, side, i, j)
  {
    hide IssuedFor, Worthy, ResetIn, Resets, Run, Before;
    FlagIsPending(p, h, side, j);
    FlagStep(p, h, side, j);
  }

  lemma {:induction false} NextEvaluationHeld(p: Parameters, h: seq<Input>, i: nat, j: nat)
    requires Ordered(h) && i < j <= |h| && Issued(p, h, i).Some?
    ensures Before(p, h, j).nextEvaluation >= h[i].trade.ts + 100
    decreases j
  {
    hide Run, OnTrade;
    RunStep(p, h, j - 1);
    NeverReversed(p, h[..j - 1]);
    assert h[..j - 1] == [] || h[..j - 1][j - 2] == h[j - 2];
    PrintStep(p, Before(p, h, j - 1), h[j - 1]);
    if j - 1 > i {
      NextEvaluationHeld(p, h, i, j - 1);
    }
  }

  /** Signals of either side are at least a tenth of a second apart. */
  lemma SignalsSpaced(p: Parameters, h: seq<Input>, i: nat, j: nat)
    requires Ordered(h) && i < j < |h| && Issued(p, h, i).Some? && Issued(p, h, j).Some?
    ensures h[j].trade.ts >= h[i].trade.ts + 100
  {
    hide Run, OnTrade;
    NextEvaluationHeld(p, h, i, j);
    NeverReversed(p, h[..j]);
    assert h[..j][j - 1] == h[j - 1];
    PrintStep(p, Before(p, h, j), h[j]);
  }
}
