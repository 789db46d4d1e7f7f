/** The sliding-window flow signal, one print at a time. */
module FlowModel {
  import opened Basics
  import opened TickMarket

  const WINDOW := 20000
  const GAP := 2000

  datatype Flow = Flow(ticks: seq<Print>, start: Option<int>, lastTs: int, usedLong: bool, usedShort: bool,
                       nextEvaluation: int)
  {
    predicate Used(side: Side) {
      if side.Long? then usedLong else usedShort
    }
  }

  /** Average price, range and trend of the closed minute bars, when they are complete and current. */
  datatype Context = Context(vwap: real, atr: Positive, trend: Option<Side>)

  datatype Input = Input(trade: Print, quote: Option<Quote>, context: Option<Context>)

  datatype Outcome = TimeReversed | Next(state: Flow, signal: Option<Signal>)

  function Start(): Flow {
    Flow([], None, -1, false, false, 0)
  }

  predicate FeedGap(lastTs: int, ts: int) {
    lastTs >= 0 && ts - lastTs > GAP
  }

  function Drop(ticks: seq<Print>, cutoff: int): seq<Print> {
    if ticks != [] && ticks[0].ts <= cutoff then Drop(ticks[1..], cutoff) else ticks
  }

  /** The window after a print: cleared by a feed gap, extended, and pruned from the front. */
  function Observed(s: Flow, t: Print): (o: Flow)
    ensures o.start.Some?
  {
    var gap := FeedGap(s.lastTs, t.ts);
    var kept := if gap then [] else s.ticks;
    s.(ticks := Drop(kept + [t], t.ts - WINDOW), lastTs := t.ts,
       start := if gap || s.start.None? then Some(t.ts) else s.start)
  }

  /** The average re-arms a side when a print reaches it from that side's excursion. */
  predicate Returns(side: Side, price: real, vwap: real) {
    if side.Long? then price >= vwap else price <= vwap
  }

  function Rearmed(o: Flow, price: real, vwap: real): Flow {
    o.(usedLong := o.usedLong && !Returns(Long, price, vwap), usedShort := o.usedShort && !Returns(Short, price, vwap))
  }

  /** One average true range beyond the average. */
  function Excursion(price: real, c: Context): Option<Side> {
    if price <= c.vwap - c.atr then Some(Long)
    else if price >= c.vwap + c.atr then Some(Short)
    else None
  }

  function Between(ticks: seq<Print>, after: int, upTo: int): (r: seq<Print>)
    ensures forall t | t in r :: t in ticks && after < t.ts <= upTo
  {
    if ticks == [] then []
    else
      var before := Between(ticks[..|ticks| - 1], after, upTo);
      var t := ticks[|ticks| - 1];
      if after < t.ts <= upTo then before + [t] else before
  }

  function Traded(ticks: seq<Print>): (v: real)
    ensures v >= 0.0 && (ticks != [] ==> v > 0.0)
  {
    if ticks == [] then 0.0 else Traded(ticks[..|ticks| - 1]) + ticks[|ticks| - 1].qty
  }

  function Bought(ticks: seq<Print>): real {
    if ticks == [] then 0.0
    else Bought(ticks[..|ticks| - 1]) + if ticks[|ticks| - 1].buyer then ticks[|ticks| - 1].qty else 0.0
  }

  function BuyShare(ticks: seq<Print>): real
    requires ticks != []
  {
    Bought(ticks) / Traded(ticks)
  }

  function Lowest(ticks: seq<Print>): real
    requires ticks != []
  {
    var n := |ticks| - 1;
    if n == 0 then ticks[0].price else Min(Lowest(ticks[..n]), ticks[n].price)
  }

  function Highest(ticks: seq<Print>): real
    requires ticks != []
  {
    var n := |ticks| - 1;
    if n == 0 then ticks[0].price else Max(Highest(ticks[..n]), ticks[n].price)
  }

  /** The flow has turned to the side while the last five seconds made no new extreme. */
  predicate Confirmed(ticks: seq<Print>, now: int, side: Side) {
    var current, previous := Between(ticks, now - 10000, now), Between(ticks, now - WINDOW, now - 10000);
    var recent, preceding := Between(ticks, now - 5000, now), Between(ticks, now - 15000, now - 5000);
    && current != [] && previous != [] && recent != [] && preceding != []
    && if side.Long? then
         BuyShare(current) > 0.6 && BuyShare(previous) < 0.5 && Lowest(recent) >= Lowest(preceding)
       else
         BuyShare(current) < 0.4 && BuyShare(previous) > 0.5 && Highest(recent) <= Highest(preceding)
  }

  /** The touch of the order's own side, rounded away from the market to a tick. */
  function PassiveLimit(p: Parameters, side: Side, quote: Quote): (limit: real)
    ensures side.Long? ==> 0.0 <= limit <= quote.bid
    ensures side.Short? ==> limit >= quote.ask
  {
    if side.Long? then RoundDown(quote.bid, p.tick) else RoundUp(quote.ask, p.tick)
  }

  /** Relative gain from the limit to the average. */
  function Reward(side: Side, limit: Positive, target: real): real {
    Sign(side, target / limit - 1.0)
  }

  function Proposed(p: Parameters, t: Print, quote: Quote, c: Context, side: Side): Option<Signal> {
    var limit := PassiveLimit(p, side, quote);
    var sf := Max(0.001, c.atr / t.price);
    if limit <= 0.0 || sf > 0.002 || Reward(side, limit, c.vwap) < 2.0 * sf || Reward(side, limit, c.vwap) < 3.0 * p.Costs()
    then None
    else Some(Signal(t.ts, side, limit, c.vwap, sf))
  }

  /** Enough history since the last gap, a timely quote and a current context. */
  predicate Ready(p: Parameters, o: Flow, i: Input)
    requires o.start.Some?
  {
    Timely(p, i.trade.ts, i.quote) && i.context.Some? && i.trade.ts - o.start.value >= WINDOW
  }

  /** What the print would signal if its side were armed. */
  function Candidate(p: Parameters, o: Flow, i: Input): Option<Signal>
    requires o.start.Some? && Ready(p, o, i)
  {
    var side := Excursion(i.trade.price, i.context.value);
    if side.None? || side != i.context.value.trend || !Confirmed(o.ticks, i.trade.ts, side.value) then None
    else Proposed(p, i.trade, i.quote.value, i.context.value, side.value)
  }

  function Consume(e: Flow, side: Side): Flow {
    if side.Long? then e.(usedLong := true) else e.(usedShort := true)
  }

  function OnTrade(p: Parameters, s: Flow, i: Input): Outcome {
    if i.trade.ts < s.lastTs then TimeReversed
    else
      var o := Observed(s, i.trade);
      if !Ready(p, o, i) then Next(o, None)
      else
        var r := Rearmed(o, i.trade.price, i.context.value.vwap);
        if i.trade.ts < r.nextEvaluation then Next(r, None)
        else
          var e := r.(nextEvaluation := i.trade.ts + 100);
          var candidate := Candidate(p, o, i);
          if candidate.None? || e.Used(candidate.value.side) then Next(e, None)
          else Next(Consume(e, candidate.value.side), candidate)
  }
}
