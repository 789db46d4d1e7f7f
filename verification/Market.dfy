/** What reaches the paper broker: books, prints, contract data, proposals and frames. */
module Market {
  import opened Basics

  /** Prices are positive and sizes nonnegative: the normalizer raises on anything else. */
  datatype Level = Level(price: Positive, qty: Size)

  datatype Sides = Sides(bids: seq<Level>, asks: seq<Level>)

  type BookView = b: Sides | |b.bids| > 0 && |b.asks| > 0
    witness Sides([Level(1.0, 1.0)], [Level(2.0, 1.0)])

  /** The levels at which a position of this side is closed: bids for a long. */
  function Facing(book: BookView, side: Side): (levels: seq<Level>)
    ensures |levels| > 0
  {
    if side.Long? then book.bids else book.asks
  }

  function Touch(book: BookView, side: Side): Positive {
    Facing(book, side)[0].price
  }

  datatype DepthKey = DepthKey(bid: bool, price: real)

  /** Displayed size by side and price; a repeated price keeps its last size. */
  function Sizes(book: BookView): map<DepthKey, Size> {
    SideSizes(true, book.bids) + SideSizes(false, book.asks)
  }

  function SideSizes(bid: bool, levels: seq<Level>): map<DepthKey, Size> {
    if levels == [] then map[]
    else
      var n := |levels| - 1;
      SideSizes(bid, levels[..n])[DepthKey(bid, levels[n].price) := levels[n].qty]
  }

  datatype Instrument = Instrument(tick: Positive, step: Positive, minQty: Positive, minNotional: Positive)

  datatype Family = SpotTrend | Cascade | Absorption

  datatype Idea = Idea(time: int, family: Family, side: Side, passive: bool,
                       entry: Positive, stop: Positive, target: Positive, hold: int)

  /** Proposal rejects a stop or target on the wrong side and a nonpositive holding time. */
  type Proposal = p: Idea |
    Sign(p.side, p.entry - p.stop) > 0.0 && Sign(p.side, p.target - p.entry) > 0.0 && p.hold > 0
    witness Idea(0, Cascade, Long, false, 2.0, 1.0, 3.0, 1)

  datatype Frame = Frame(time: int, price: real, atr: real, spotBias: real, perpFlow: real)

  datatype Source = BybitPerp | BinancePerp | Elsewhere

  datatype Payload =
    | ContractData(instrument: Instrument)
    | Context(nextFunding: Option<int>)
    | Settlement(rate: real, mark: real)
    | Gap
    | Book(book: BookView)
    | Print(side: Side, price: Positive, qty: Positive)
    | Health

  datatype Event = Event(received: int, occurred: int, source: Source, data: Payload)
}
