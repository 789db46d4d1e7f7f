/** The normalizer: receipts in order, keys accepted once, and clocks the broker can rely on. */
module Receipts {
  import opened Basics
  import opened Market
  import opened OrderBook
  import BrokerModel
  import BrokerFacts
  import BrokerRuns
  import BrokerTheorems

  datatype Key = TradeKey(source: Source, id: string) | FundingKey(source: Source, time: int)

  /** A message already translated: emitted as it is, or only the first time its key is seen. */
  datatype Item = Plain(occurred: int, source: Source, data: Payload)
    | Once(key: Key, occurred: int, source: Source, data: Payload)

  datatype Content = Lost(source: Source) | Depth(source: Source, update: Update, occurred: int) | Items(items: seq<Item>)

  datatype Receipt = Receipt(number: int, received: int, content: Content)

  datatype Norm = Norm(lastSeq: int, lastReceived: int, books: map<Source, BookState>, seen: seq<Key>)

  const LIMIT := 100000

  function Init(): Norm {
    Norm(0, -1, map[], [])
  }

  /** The last n keys accepted. */
  function Last(keys: seq<Key>, n: nat): seq<Key> {
    if |keys| <= n then keys else keys[|keys| - n..]
  }

  /** Appends a key and forgets the oldest beyond the limit. */
  function Remember(seen: seq<Key>, key: Key): seq<Key> {
    if |seen| + 1 > LIMIT then (seen + [key])[1..] else seen + [key]
  }

  function Emit(seen: seq<Key>, received: int, items: seq<Item>): (seq<Key>, seq<Event>) {
    if items == [] then (seen, [])
    else
      var (s, out) := Emit(seen, received, items[..|items| - 1]);
      match items[|items| - 1]
      case Plain(occurred, source, data) => (s, out + [Event(received, occurred, source, data)])
      case Once(key, occurred, source, data) =>
        if key in s then (s, out) else (Remember(s, key), out + [Event(received, occurred, source, data)])
  }

  predicate InOrder(s: Norm, r: Receipt) {
    r.number == s.lastSeq + 1 && r.received >= s.lastReceived
  }

  /** An item is emitted unless its key is remembered. */
  predicate Unseen(seen: seq<Key>, item: Item) {
    item.Plain? || item.key !in seen
  }

  /** Nothing is emitted exactly when every item carries a remembered key. */
  lemma {:induction false} SilentExactly(seen: seq<Key>, received: int, items: seq<Item>)
    ensures Emit(seen, received, items).1 == [] <==> forall i | 0 <= i < |items| :: !Unseen(seen, items[i])
    ensures Emit(seen, received, items).1 == [] ==> Emit(seen, received, items).0 == seen
  {
    hide Remember;
    if items != [] {
      var n := |items| - 1;
      SilentExactly(seen, received, items[..n]);
      assert forall i | 0 <= i < n :: items[..n][i] == items[i];
    }
  }

  function BookOf(s: Norm, source: Source): BookState {
    if source in s.books then s.books[source] else Empty()
  }

  ghost predicate SoundBooks(s: Norm) {
    forall v | v in s.books :: Sound(s.books[v])
  }

  /** An applied update shows the new book; a duplicate shows nothing; any other verdict raises. */
  function DepthEvents(b: BookState, v: Source, u: Update, received: int, occurred: int): Option<seq<Event>>
    requires Sound(b)
  {
    ApplySound(b, u);
    var (after, verdict) := Apply(b, u);
    var health := Event(received, received, v, Health);
    match verdict
    case Duplicate => Some([health])
    case Applied =>
      AppliedIsValid(b, u);
      Some([health, Event(received, occurred, v, Payload.Book(View(after)))])
    case _ => None
  }

  lemma AppliedIsValid(b: BookState, u: Update)
    ensures Apply(b, u).1 == Applied ==> Apply(b, u).0.valid
  {
    hide Fold, Meets, AnyNegative;
  }

  /** What a receipt does, and the events it emits; None when it is refused. */
  ghost function Feed(s: Norm, r: Receipt): (Norm, Option<seq<Event>>)
    requires SoundBooks(s)
  {
    if !InOrder(s, r) then (s, None)
    else
      var s1 := s.(lastSeq := r.number, lastReceived := r.received);
      match r.content
      case Lost(v) =>
        (if v in s.books then s1.(books := s.books[v := Invalidated(s.books[v])]) else s1,
         Some([Event(r.received, r.received, v, Gap)]))
      case Depth(v, u, occurred) =>
        EmptySound();
        ApplySound(BookOf(s, v), u);
        (s1.(books := s.books[v := Apply(BookOf(s, v), u).0]), DepthEvents(BookOf(s, v), v, u, r.received, occurred))
      case Items(items) =>
        var (seen, out) := Emit(s.seen, r.received, items);
        (s1.(seen := seen), Some(out))
  }

  // ---------------------------------------------------------------- keys

  /** Equal keys are accepted only when more than the limit apart. */
  ghost predicate Apart(accepted: seq<Key>) {
    forall i, j | 0 <= i < j < |accepted| && accepted[i] == accepted[j] :: j - i > LIMIT
  }

  lemma LastHas(keys: seq<Key>, n: nat, i: nat)
    requires i < |keys|
    ensures i + n >= |keys| ==> keys[i] in Last(keys, n)
  {
    if i + n >= |keys| && |keys| > n {
      assert Last(keys, n)[i - (|keys| - n)] == keys[i];
    }
  }

  /** Remembering keeps exactly the last accepted keys, and a key not among them is far from its last acceptance. */
  lemma RememberLast(accepted: seq<Key>, key: Key)
    requires Apart(accepted) && key !in Last(accepted, 100_000)
    ensures Remember(Last(accepted, 100_000), key) == Last(accepted + [key], 100_000)
    ensures Apart(accepted + [key])
  {
    var all := accepted + [key];
    forall i, j | 0 <= i < j < |all| && all[i] == all[j]
      ensures j - i > LIMIT
    {
      if j == |accepted| {
        LastHas(accepted, LIMIT, i);
      }
    }
  }

  // ---------------------------------------------------------------- clocks

  ghost predicate Nondecreasing(events: seq<Event>) {
    forall i, j | 0 <= i < j < |events| :: events[i].received <= events[j].received
  }

  lemma {:induction false} EmitStamps(seen: seq<Key>, received: int, items: seq<Item>)
    ensures forall e | e in Emit(seen, received, items).1 :: e.received == received
  {
    if items != [] {
      EmitStamps(seen, received, items[..|items| - 1]);
    }
  }

  lemma FeedSound(s: Norm, r: Receipt)
    requires SoundBooks(s)
    ensures SoundBooks(Feed(s, r).0)
    ensures Feed(s, r).0.lastReceived >= s.lastReceived
    ensures Feed(s, r).1.Some? ==>
              s.lastReceived <= r.received == Feed(s, r).0.lastReceived
              && forall e | e in Feed(s, r).1.value :: e.received == r.received
  {
    hide Sound, Apply, Emit, View;
    EmptySound();
    match r.content
    case Depth(v, u, _) => ApplySound(BookOf(s, v), u);
    case Items(items) => EmitStamps(s.seen, r.received, items);
    case Lost(v) => EmptyInvalid(BookOf(s, v));
  }

  lemma EmptyInvalid(s: BookState)
    ensures Sound(Invalidated(s))
  {
  }

  ghost function Run(rs: seq<Receipt>): (s: Norm)
    ensures SoundBooks(s)
  {
    if rs == [] then Init()
    else
      FeedSound(Run(rs[..|rs| - 1]), rs[|rs| - 1]);
      Feed(Run(rs[..|rs| - 1]), rs[|rs| - 1]).0
  }

  /** All events emitted, in order; a refused receipt emits none. */
  ghost function Emitted(rs: seq<Receipt>): seq<Event> {
    if rs == [] then []
    else
      var out := Feed(Run(rs[..|rs| - 1]), rs[|rs| - 1]).1;
      Emitted(rs[..|rs| - 1]) + if out.Some? then out.value else []
  }

  /** Emitted receive clocks never decrease. */
  lemma {:induction false} ClocksNeverReverse(rs: seq<Receipt>)
    ensures Nondecreasing(Emitted(rs))
    ensures forall e | e in Emitted(rs) :: -1 <= e.received <= Run(rs).lastReceived
    ensures Run(rs).lastReceived >= -1
  {
    hide Feed, SoundBooks;
    if rs != [] {
      ClocksNeverReverse(rs[..|rs| - 1]);
      FeedSound(Run(rs[..|rs| - 1]), rs[|rs| - 1]);
    }
  }

  // ---------------------------------------------------------------- the broker behind the normalizer

  function ArrivalsOf(inputs: seq<BrokerModel.Input>): seq<Event> {
    if inputs == [] then []
    else if inputs[0].Arrival? then [inputs[0].event] + ArrivalsOf(inputs[1..])
    else ArrivalsOf(inputs[1..])
  }

  /** Only an arrival moves the broker's clock, and then to its receive time. */
  lemma StepClock(cfg: BrokerModel.Config, s: BrokerModel.State, input: BrokerModel.Input)
    requires BrokerFacts.Inv(cfg, s)
    ensures BrokerModel.Sane(s)
    ensures BrokerModel.Step(cfg, s, input).now
         == if input.Arrival? && input.event.received >= s.now then input.event.received else s.now
  {
    hide BrokerModel.OnEvent, BrokerFacts.Inv, BrokerModel.Cancel, BrokerModel.RequestExit, BrokerModel.ManageFrame,
         BrokerModel.Equity, BrokerModel.Redirect, BrokerModel.OrderSize, BrokerModel.LimitPrice;
    BrokerRuns.StayInv(cfg, s);
    if input.Arrival? {
      BrokerRuns.OnEventKeeps(cfg, s, input.event);
    }
  }

  lemma OnlyTimeReverses(cfg: BrokerModel.Config, s: BrokerModel.State, e: Event)
    requires BrokerFacts.Inv(cfg, s) && e.received >= s.now
    ensures BrokerModel.Sane(s) && !BrokerModel.OnEvent(cfg, s, e).1.ClockReversed?
  {
    hide BrokerFacts.Inv, BrokerModel.Arrive, BrokerModel.Maintenance, BrokerModel.Circuit, BrokerModel.LoseBook,
         BrokerModel.ExecuteBook, BrokerModel.AcceptBook, BrokerModel.MakerPrint, BrokerModel.Eligible,
         BrokerModel.ApplyFunding;
    BrokerRuns.StayInv(cfg, s);
    BrokerRuns.ArriveKeeps(cfg, s, e.received);
    var s1 := BrokerModel.Arrive(cfg, s, e.received);
    BrokerRuns.StayInv(cfg, s1);
    if e.data.Settlement? {
      BrokerRuns.FundingNeverReverses(s1, e.occurred, e.data.rate, e.data.mark);
    }
  }

  ghost predicate NotBefore(now: int, events: seq<Event>) {
    Nondecreasing(events) && forall e | e in events :: e.received >= now
  }

  lemma {:induction false} OrderedArrivalsAccepted(cfg: BrokerModel.Config, s: BrokerModel.State,
                                                   inputs: seq<BrokerModel.Input>, i: nat)
    requires BrokerFacts.Inv(cfg, s) && i < |inputs| && inputs[i].Arrival? && NotBefore(s.now, ArrivalsOf(inputs))
    ensures var t := BrokerTheorems.RunFrom(cfg, s, inputs[..i]);
            BrokerModel.Sane(t) && !BrokerModel.OnEvent(cfg, t, inputs[i].event).1.ClockReversed?
    decreases i
  {
    hide BrokerFacts.Inv, BrokerModel.OnEvent, BrokerModel.Step, BrokerModel.Sane;
    if i == 0 {
      assert ArrivalsOf(inputs)[0] == inputs[0].event;
      assert inputs[0].event in ArrivalsOf(inputs);
      OnlyTimeReverses(cfg, s, inputs[0].event);
    } else {
      StepClock(cfg, s, inputs[0]);
      BrokerRuns.StepKeeps(cfg, s, inputs[0]);
      LaterArrivals(s.now, inputs);
      assert inputs[1..][..i - 1] == inputs[..i][1..];
      OrderedArrivalsAccepted(cfg, BrokerModel.Step(cfg, s, inputs[0]), inputs[1..], i - 1);
    }
  }

  lemma LaterArrivals(now: int, inputs: seq<BrokerModel.Input>)
    requires inputs != [] && NotBefore(now, ArrivalsOf(inputs))
    ensures NotBefore(if inputs[0].Arrival? then inputs[0].event.received else now, ArrivalsOf(inputs[1..]))
    ensures inputs[0].Arrival? ==> inputs[0].event.received >= now
  {
    var all, rest := ArrivalsOf(inputs), ArrivalsOf(inputs[1..]);
    if inputs[0].Arrival? {
      assert all[0] == inputs[0].event && all[0] in all;
      forall e | e in rest
        ensures e.received >= inputs[0].event.received
      {
        var i :| 0 <= i < |rest| && rest[i] == e;
        assert all[i + 1] == e;
      }
      forall i, j | 0 <= i < j < |rest|
        ensures rest[i].received <= rest[j].received
      {
        assert rest[i] == all[i + 1] && rest[j] == all[j + 1];
      }
    }
  }

  /**
   A broker fed what the normalizer emits, with proposals and frames interleaved anywhere, never finds its clock
   reversed.
   */
  lemma FeedNeverReversesBroker(cfg: BrokerModel.Config, rs: seq<Receipt>, inputs: seq<BrokerModel.Input>, i: nat)
    requires ArrivalsOf(inputs) <= Emitted(rs) && i < |inputs| && inputs[i].Arrival?
    ensures var t := BrokerTheorems.Run(cfg, inputs[..i]);
            BrokerModel.Sane(t) && !BrokerModel.OnEvent(cfg, t, inputs[i].event).1.ClockReversed?
  {
    hide BrokerModel.OnEvent, BrokerFacts.Inv, Emitted, BrokerModel.Sane, ArrivalsOf;
    BrokerFacts.InitInv(cfg);
    ClocksNeverReverse(rs);
    forall e | e in ArrivalsOf(inputs)
      ensures e in Emitted(rs)
    {
    }
    OrderedArrivalsAccepted(cfg, BrokerModel.Init(cfg), inputs, i);
  }

  // ---------------------------------------------------------------- the object

  class Normalizer {
    var lastSeq: int
    var lastReceived: int
    var books: map<Source, BookState>
    var seen: seq<Key>
    ghost var accepted: seq<Key>

    function Now(): Norm
      reads `lastSeq, `lastReceived, `books, `seen
    {
      Norm(lastSeq, lastReceived, books, seen)
    }

    /** The remembered keys are exactly the last accepted ones. */
    ghost predicate Valid()
      reads this
    {
      SoundBooks(Now()) && seen == Last(accepted, LIMIT) && Apart(accepted)
    }

    constructor ()
      ensures Valid() && Now() == Init() && accepted == []
      ensures lastSeq == 0 && books == map[] && seen == []
    {
      lastSeq, lastReceived, books, seen, accepted := 0, -1, map[], [], [];
    }

    /** Accepts a key exactly when it is not among the last hundred thousand accepted. */
    method Unique(key: Key) returns (accept: bool)
      requires Valid()
      modifies `seen, `accepted
      ensures Valid()
      ensures accept <==> key !in Last(old(accepted), LIMIT)
      ensures accepted == if accept then old(accepted) + [key] else old(accepted)
      ensures seen == if accept then Remember(old(seen), key) else old(seen)
    {
      if key in seen {
        return false;
      }
      RememberLast(accepted, key);
      hide Apart, Last, SoundBooks;
      accepted := accepted + [key];
      seen := seen + [key];
      if |seen| > LIMIT {
        seen := seen[1..];
      }
      return true;
    }

    method EmitItems(received: int, items: seq<Item>) returns (out: seq<Event>)
      requires Valid()
      modifies `seen, `accepted
      ensures Valid() && (seen, out) == Emit(old(seen), received, items)
    {
      hide Apart, Last, SoundBooks, Remember;
      out := [];
      for i := 0 to |items|
        invariant Valid() && (seen, out) == Emit(old(seen), received, items[..i])
      {
        assert items[..i + 1][..i] == items[..i];
        match items[i]
        case Plain(occurred, source, data) => out := out + [Event(received, occurred, source, data)];
        case Once(key, occurred, source, data) =>
          ghost var before := seen;
          assert key in seen <==> key in Last(accepted, LIMIT);
          var accept := Unique(key);
          if accept {
            out := out + [Event(received, occurred, source, data)];
          }
      }
      assert items[..|items|] == items;
    }

    /** One receipt: refused out of order, else its events with its own receive clock. */
    method FeedOne(r: Receipt) returns (out: Option<seq<Event>>)
      requires Valid()
      modifies this
      ensures Valid() && (Now(), out) == Feed(old(Now()), r)
    {
      FeedSound(Now(), r);
      hide Apart, Last, Sound, Fold, Meets, AnyNegative, View, Emit;
      if r.number != lastSeq + 1 || r.received < lastReceived {
        return None;
      }
      lastSeq, lastReceived := r.number, r.received;
      match r.content
      case Lost(v) =>
        if v in books {
          books := books[v := Invalidated(books[v])];
        }
        out := Some([Event(r.received, r.received, v, Gap)]);
      case Depth(v, u, occurred) =>
        out := ApplyDepth(v, u, occurred);
      case Items(items) =>
        var events := EmitItems(r.received, items);
        out := Some(events);
    }

    method ApplyDepth(v: Source, u: Update, occurred: int) returns (out: Option<seq<Event>>)
      requires SoundBooks(Now())
      modifies `books
      ensures SoundBooks(Now()) && Sound(BookOf(old(Now()), v))
      ensures books == old(books)[v := Apply(BookOf(old(Now()), v), u).0]
      ensures out == DepthEvents(BookOf(old(Now()), v), v, u, lastReceived, occurred)
    {
      hide Sound, Apply, DepthEvents;
      EmptySound();
      ApplySound(BookOf(Now(), v), u);
      out := DepthEvents(BookOf(Now(), v), v, u, lastReceived, occurred);
      books := books[v := Apply(BookOf(Now(), v), u).0];
    }
  }
}
