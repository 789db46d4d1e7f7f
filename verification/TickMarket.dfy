/** What the tick engine reads: parameters, quotes, prints and signals. */
module TickMarket {
  import opened Basics

  datatype Settings = Settings(maker: real, taker: real, slippage: real, riskFraction: real, maxExposure: real,
                               dailyLoss: real, maxDrawdown: real, quoteMaxAge: int, latency: int, ttl: int, hold: int,
                               cooldown: int, tick: Positive, lot: Positive, participation: real)
  {
    predicate Valid() {
      && 0.0 <= maker < 0.1 && 0.0 <= taker < 0.1 && 0.0 <= slippage < 0.1
      && 0.0 < riskFraction <= 0.01 && 0.0 < maxExposure <= 3.0
      && 0.0 < dailyLoss < 1.0 && 0.0 < maxDrawdown < 1.0 && 0.0 < participation <= 1.0
      && quoteMaxAge >= 1 && latency >= 1 && ttl >= 1 && hold >= 1 && cooldown >= 1
    }

    /** Fees and slippage of a maker entry and a taker exit. */
    function Costs(): real {
      maker + taker + 2.0 * slippage
    }
  }

  type Parameters = p: Settings | p.Valid()
    witness Settings(0.0002, 0.0005, 0.0001, 0.001, 1.0, 0.01, 0.04, 2000, 250, 15000, 480000, 60000, 0.1, 0.001, 0.01)

  datatype Touches = Touches(ts: nat, bid: Positive, ask: Positive, bidQty: Size, askQty: Size)

  type Quote = q: Touches | q.bid < q.ask witness Touches(0, 1.0, 2.0, 0.0, 0.0)

  datatype Print = Print(ts: nat, price: Positive, qty: Positive, buyer: bool)

  datatype Signal = Signal(ts: nat, side: Side, limit: Positive, target: real, stopFraction: real)

  predicate Timely(p: Parameters, now: int, quote: Option<Quote>) {
    quote.Some? && 0 <= now - quote.value.ts <= p.quoteMaxAge
  }

  /** A resting order of this side at this price would trade at once. */
  predicate Crosses(side: Side, limit: real, quote: Quote) {
    if side.Long? then limit >= quote.ask else limit <= quote.bid
  }

  /** floor(x / step) * step and ceil(x / step) * step, for any sign. */
  function FloorTo(x: real, step: Positive): real {
    Times((x / step).Floor, step)
  }

  function CeilTo(x: real, step: Positive): real {
    -FloorTo(-x, step)
  }
}
