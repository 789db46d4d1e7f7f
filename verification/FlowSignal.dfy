/** The signal engine as an object: a window pruned in place, two flags and an evaluation clock. */
module FlowSignal {
  import opened Basics
  import opened TickMarket
  import opened FlowModel
  import opened FlowTheorems

  class Engine {
    const p: Parameters
    var ticks: seq<Print>
    var start: Option<int>
    var lastTs: int
    var usedLong: bool
    var usedShort: bool
    var nextEvaluation: int
    ghost var history: seq<Input>

    function Now(): Flow
      reads `ticks, `start, `lastTs, `usedLong, `usedShort, `nextEvaluation
    {
      Flow(ticks, start, lastTs, usedLong, usedShort, nextEvaluation)
    }

    /** The object is the run of the prints it has accepted. */
    ghost predicate Valid()
      reads this
    {
      Ordered(history) && Now() == Run(p, history)
    }

    constructor (parameters: Parameters)
      ensures Valid() && p == parameters && history == []
      ensures ticks == [] && start.None? && !usedLong && !usedShort && nextEvaluation == 0
    {
      p := parameters;
      ticks, start, lastTs, usedLong, usedShort, nextEvaluation := [], None, -1, false, false, 0;
      history := [];
    }

    /** Extends and prunes the window, clearing it first after a gap of the feed. */
    method Observe(t: Print)
      modifies `ticks, `start, `lastTs
      ensures Now() == Observed(old(Now()), t)
    {
      if FeedGap(lastTs, t.ts) {
        ticks := [];
        start := Some(t.ts);
      }
      lastTs := t.ts;
      if start.None? {
        start := Some(t.ts);
      }
      ticks := ticks + [t];
      ghost var full := Now();
      while ticks != [] && ticks[0].ts <= t.ts - WINDOW
        invariant Now() == full.(ticks := ticks) && Drop(ticks, t.ts - WINDOW) == Drop(full.ticks, t.ts - WINDOW)
        decreases |ticks|
      {
        ticks := ticks[1..];
      }
    }

    /** One print: refused if time went back, else observed and, when ready and due, judged. */
    method OnTrade(i: Input) returns (raised: bool, signal: Option<Signal>)
      requires Valid()
      modifies this
      ensures Valid()
      ensures raised <==> i.trade.ts < old(lastTs)
      ensures raised ==> Now() == old(Now()) && history == old(history)
      ensures !raised ==> FlowModel.OnTrade(p, old(Now()), i) == Next(Now(), signal) && history == old(history) + [i]
      ensures !raised ==> ticks == Recent(SinceGap(history), i.trade.ts - WINDOW)
    {
      if i.trade.ts < lastTs {
        return true, None;
      }
      raised := false;
      Accept(history, i);
      signal := Judge(i);
      history := history + [i];
      WindowExact(p, history);
      hide FlowModel.OnTrade, Recent, SinceGap;
    }

    method Judge(i: Input) returns (signal: Option<Signal>)
      requires i.trade.ts >= lastTs
      modifies `ticks, `start, `lastTs, `usedLong, `usedShort, `nextEvaluation
      ensures FlowModel.OnTrade(p, old(Now()), i) == Next(Now(), signal)
    {
      hide Observed, Candidate, Timely, Returns;
      Observe(i.trade);
      if !Ready(p, Now(), i) {
        return None;
      }
      ghost var o := Now();
      var vwap := i.context.value.vwap;
      if Returns(Long, i.trade.price, vwap) { usedLong := false; }
      if Returns(Short, i.trade.price, vwap) { usedShort := false; }
      if i.trade.ts < nextEvaluation {
        return None;
      }
      nextEvaluation := i.trade.ts + 100;
      CandidateReads(p, o, Now(), i);
      signal := Candidate(p, Now(), i);
      if signal.None? || (if signal.value.side.Long? then usedLong else usedShort) {
        return None;
      }
      if signal.value.side.Long? { usedLong := true; } else { usedShort := true; }
    }

    /** A print no earlier than the last extends the history. */
    lemma Accept(h: seq<Input>, i: Input)
      requires Ordered(h) && Run(p, h).lastTs <= i.trade.ts
      ensures Ordered(h + [i])
      ensures FlowModel.OnTrade(p, Run(p, h), i).Next? ==>
                Run(p, h + [i]) == FlowModel.OnTrade(p, Run(p, h), i).state
    {
      NeverReversed(p, h);
      assert (h + [i])[..|h|] == h;
      hide FlowModel.OnTrade;
    }
  }

  /** Judging a print reads only its window and start. */
  lemma CandidateReads(p: Parameters, a: Flow, b: Flow, i: Input)
    requires a.start.Some? && a.ticks == b.ticks && a.start == b.start && Ready(p, a, i)
    ensures Ready(p, b, i) && Candidate(p, a, i) == Candidate(p, b, i)
  {
    hide Confirmed, Proposed, Timely, Excursion;
  }
}
