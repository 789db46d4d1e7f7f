/** The replay loop's own error handling: when the gap it injects after a refusal makes it fail. */
module Replay {
  import opened Basics
  import opened Market
  import OrderBook
  import opened Receipts
  import B = BrokerModel
  import BrokerFacts
  import BrokerRules
  import BrokerRuns
  import BrokerWatch

  /** The emitted events in turn, until one raises. */
  ghost function Deliver(cfg: B.Config, s: B.State, events: seq<Event>): (r: (B.State, bool))
    requires BrokerFacts.Inv(cfg, s)
    ensures BrokerFacts.Inv(cfg, r.0)
    decreases |events|
  {
    if events == [] then (s, false)
    else
      BrokerRuns.OnEventKeeps(cfg, s, events[0]);
      var (t, outcome) := B.OnEvent(cfg, s, events[0]);
      if outcome.Done? then Deliver(cfg, t, events[1..]) else (t, true)
  }

  /** What one receipt does to the broker before any error handling, and whether something raised. */
  ghost function Handed(cfg: B.Config, n: Norm, s: B.State, r: Receipt): (h: (B.State, bool))
    requires BrokerFacts.Inv(cfg, s) && SoundBooks(n)
    ensures BrokerFacts.Inv(cfg, h.0)
  {
    var out := Feed(n, r).1;
    if out.Some? then Deliver(cfg, s, out.value) else (s, true)
  }

  function InjectedGap(cfg: B.Config, r: Receipt): Event {
    Event(r.received, r.received, cfg.venue, Gap)
  }

  ghost function Faulted(cfg: B.Config, s: B.State): (t: B.State)
    requires BrokerFacts.Inv(cfg, s)
    ensures BrokerFacts.Inv(cfg, t) && t.now == s.now && B.Sane(t)
  {
    FaultKeeps(cfg, s);
    s.(guard := s.guard.(halted := true, incomplete := true))
  }

  lemma FaultKeeps(cfg: B.Config, s: B.State)
    requires BrokerFacts.Inv(cfg, s)
    ensures var t := s.(guard := s.guard.(halted := true, incomplete := true));
            B.Sane(s) && t == B.Step(cfg, s, B.Fault) && BrokerFacts.Inv(cfg, t) && B.Sane(t)
  {
    hide BrokerFacts.DeskInv, BrokerFacts.Funded, BrokerFacts.DepthExact;
    BrokerRuns.StayInv(cfg, s);
  }

  /** The handler's own event raises: the loop fails. */
  ghost predicate Crashes(cfg: B.Config, n: Norm, s: B.State, r: Receipt)
    requires BrokerFacts.Inv(cfg, s) && SoundBooks(n)
  {
    var (t, raised) := Handed(cfg, n, s, r);
    raised && !B.OnEvent(cfg, Faulted(cfg, t), InjectedGap(cfg, r)).1.Done?
  }

  /** The broker after a receipt, the injected gap included. */
  ghost function Next(cfg: B.Config, n: Norm, s: B.State, r: Receipt): (t: B.State)
    requires BrokerFacts.Inv(cfg, s) && SoundBooks(n)
    ensures BrokerFacts.Inv(cfg, t)
  {
    var (t, raised) := Handed(cfg, n, s, r);
    if !raised then t
    else
      BrokerRuns.OnEventKeeps(cfg, Faulted(cfg, t), InjectedGap(cfg, r));
      B.OnEvent(cfg, Faulted(cfg, t), InjectedGap(cfg, r)).0
  }

  lemma {:induction false} DeliverClock(cfg: B.Config, s: B.State, events: seq<Event>, received: int)
    requires BrokerFacts.Inv(cfg, s) && forall e | e in events :: e.received == received
    ensures var (t, raised) := Deliver(cfg, s, events);
            && t.now == (if events != [] && received >= s.now then received else s.now)
            && (events != [] && received < s.now ==> raised) && (events == [] ==> !raised)
    decreases |events|
  {
    hide BrokerFacts.Inv, B.OnEvent;
    if events != [] {
      assert events[0] in events;
      BrokerRuns.OnEventKeeps(cfg, s, events[0]);
      var (t, outcome) := B.OnEvent(cfg, s, events[0]);
      if received < s.now {
        EarlierIsRefused(cfg, s, events[0]);
      } else if outcome.Done? {
        DeliverClock(cfg, t, events[1..], received);
      }
    }
  }

  lemma EarlierIsRefused(cfg: B.Config, s: B.State, e: Event)
    requires B.Sane(s) && e.received < s.now
    ensures B.OnEvent(cfg, s, e) == (s, B.ClockReversed)
  {
    hide B.Arrive, B.Dispatch, B.Maintenance, B.Circuit;
  }

  /** A gap of the present or later is always processed. */
  lemma GapIsDone(cfg: B.Config, s: B.State, r: Receipt)
    requires BrokerFacts.Inv(cfg, s) && B.Sane(s) && r.received >= s.now
    ensures B.OnEvent(cfg, s, InjectedGap(cfg, r)).1.Done?
  {
    hide B.Arrive, B.LoseBook, B.Maintenance, B.Circuit, BrokerFacts.Inv;
    BrokerRuns.ArriveKeeps(cfg, s, r.received);
    BrokerRuns.StayInv(cfg, B.Arrive(cfg, s, r.received));
  }

  /** A refusal that does not fail the loop halts the broker and leaves it incomplete, without a book, on its way out. */
  lemma RefusalLatches(cfg: B.Config, n: Norm, s: B.State, r: Receipt)
    requires BrokerFacts.Inv(cfg, s) && SoundBooks(n) && Handed(cfg, n, s, r).1 && !Crashes(cfg, n, s, r)
    ensures var t := Next(cfg, n, s, r);
            && t.guard.halted && t.guard.incomplete && t.feed.book.None?
            && (t.desk.position.Some? ==> t.desk.exitOrder.Some?)
            && (t.desk.pending.Some? ==> t.desk.pending.value.cancelAt.Some?)
  {
    hide BrokerFacts.Inv, Handed, SoundBooks;
    var f := Faulted(cfg, Handed(cfg, n, s, r).0);
    assert f.guard.halted;
    GapStops(cfg, f, r);
  }

  lemma GapStops(cfg: B.Config, s: B.State, r: Receipt)
    requires BrokerFacts.Inv(cfg, s) && B.Sane(s) && B.OnEvent(cfg, s, InjectedGap(cfg, r)).1.Done? && s.guard.halted
    ensures var t := B.OnEvent(cfg, s, InjectedGap(cfg, r)).0;
            && t.guard.halted && t.feed.book.None?
            && (s.guard.incomplete ==> t.guard.incomplete)
            && (t.desk.position.Some? ==> t.desk.exitOrder.Some?)
            && (t.desk.pending.Some? ==> t.desk.pending.value.cancelAt.Some?)
  {
    hide BrokerFacts.Inv, B.LoseBook, B.Maintenance, B.Circuit, B.Equity, B.Marked, B.ExpirePending, B.CaptureFunding;
    BrokerRuns.ArriveKeeps(cfg, s, r.received);
    var s1 := B.Arrive(cfg, s, r.received);
    var s2 := B.LoseBook(cfg, s1);
    var s3 := B.Maintenance(cfg, s2);
    BrokerWatch.GapExactly(cfg, s1);
    BrokerWatch.MaintainsExactly(cfg, s2);
    BrokerRules.CircuitExactly(cfg, s3);
    BrokerRules.EquityExactly(cfg, s3.now, s3.desk, s3.feed);
    if s3.desk.position.None? {
      BrokerRules.LatchesExactly(s3.guard, s3.now, s3.desk.cash);
    }
  }

  /** A receipt in order is silent only when all its items carry remembered keys: a depth update is refused or heard. */
  predicate Silent(n: Norm, r: Receipt) {
    InOrder(n, r) && r.content.Items? && forall i | 0 <= i < |r.content.items| :: !Unseen(n.seen, r.content.items[i])
  }

  lemma SilentEmitsNothing(n: Norm, r: Receipt)
    requires SoundBooks(n)
    ensures Silent(n, r) <==> Feed(n, r).1 == Some([])
  {
    hide Emit, Unseen, OrderBook.Apply, OrderBook.View, OrderBook.Sound;
    if r.content.Items? {
      SilentExactly(n.seen, r.received, r.content.items);
    }
  }

  /**
   The loop fails at a receipt exactly when its time is before the broker's clock and it is not silent: refused or
   heard, it comes too early, and so does the gap injected for the error.
   */
  lemma CrashExact(cfg: B.Config, n: Norm, s: B.State, r: Receipt)
    requires BrokerFacts.Inv(cfg, s) && SoundBooks(n)
    ensures Crashes(cfg, n, s, r) <==> r.received < s.now && !Silent(n, r)
  {
    hide BrokerFacts.Inv, B.OnEvent, Feed, SoundBooks, B.Sane, Deliver, Silent;
    FeedSound(n, r);
    SilentEmitsNothing(n, r);
    var out := Feed(n, r).1;
    if out.Some? {
      DeliverClock(cfg, s, out.value, r.received);
    }
    var (t, raised) := Handed(cfg, n, s, r);
    var f := Faulted(cfg, t);
    if r.received < f.now {
      EarlierIsRefused(cfg, f, InjectedGap(cfg, r));
    } else {
      GapIsDone(cfg, f, r);
    }
  }

  // ---------------------------------------------------------------- captures in order

  /** A refused receipt that did not take its own number has ended the loop. */
  ghost predicate Ended(rs: seq<Receipt>) {
    exists k | 0 <= k < |rs| :: Run(rs[..k + 1]).lastSeq != rs[k].number
  }

  /** The broker after these receipts; frames and proposals in between do not move its clock and are left out. */
  ghost function Loop(cfg: B.Config, rs: seq<Receipt>): (s: B.State)
    ensures BrokerFacts.Inv(cfg, s)
  {
    BrokerFacts.InitInv(cfg);
    if rs == [] then B.Init(cfg)
    else if Ended(rs[..|rs| - 1]) then Loop(cfg, rs[..|rs| - 1])
    else Next(cfg, Run(rs[..|rs| - 1]), Loop(cfg, rs[..|rs| - 1]), rs[|rs| - 1])
  }

  /** A lost connection at 10, then a receipt stamped 5. */
  const BACKWARD: seq<Receipt> := [Receipt(1, 10, Lost(BybitPerp)), Receipt(2, 5, Items([]))]

  /** A receipt takes the clock at least to its own time when it emits, and leaves it otherwise. */
  lemma EmissionMovesClock(cfg: B.Config, n: Norm, s: B.State, r: Receipt)
    requires BrokerFacts.Inv(cfg, s) && SoundBooks(n) && s.now <= r.received
    requires Feed(n, r).1.Some? && Feed(n, r).1 != Some([])
    ensures Next(cfg, n, s, r).now == r.received
  {
    hide BrokerFacts.Inv, B.OnEvent, Feed, SoundBooks, B.Sane, Deliver;
    FeedSound(n, r);
    DeliverClock(cfg, s, Feed(n, r).1.value, r.received);
    var (t, raised) := Handed(cfg, n, s, r);
    BrokerRuns.OnEventKeeps(cfg, Faulted(cfg, t), InjectedGap(cfg, r));
  }

  lemma OneReceipt(cfg: B.Config, r: Receipt)
    ensures Run([r]) == Feed(Init(), r).0
    ensures BrokerFacts.Inv(cfg, B.Init(cfg)) && SoundBooks(Init()) && Loop(cfg, [r]) == Next(cfg, Init(), B.Init(cfg), r)
  {
    hide BrokerFacts.Inv, Next, Feed, SoundBooks;
    BrokerFacts.InitInv(cfg);
    var rs := [r];
    assert rs[..0] == [];
    assert Run([]) == Init();
    assert Loop(cfg, []) == B.Init(cfg);
  }

  lemma LossIsHeard(r: Receipt)
    requires r.number == 1 && r.received >= -1 && r.content.Lost?
    ensures Feed(Init(), r).0.lastSeq == 1 && Feed(Init(), r).0.lastReceived == r.received
    ensures Feed(Init(), r).1.Some? && Feed(Init(), r).1 != Some([])
  {
  }

  /** The replay of that capture fails at its second receipt. */
  lemma BackwardCrashes(cfg: B.Config)
    ensures !Ended(BACKWARD[..1]) && Crashes(cfg, Run(BACKWARD[..1]), Loop(cfg, BACKWARD[..1]), BACKWARD[1])
  {
    hide BrokerFacts.Inv, Crashes, Next, Loop, Run, Feed, SoundBooks;
    var first := Receipt(1, 10, Lost(BybitPerp));
    assert BACKWARD[..1] == [first] && [first][..1] == [first];
    OneReceipt(cfg, first);
    LossIsHeard(first);
    EmissionMovesClock(cfg, Init(), B.Init(cfg), first);
    CrashExact(cfg, Run([first]), Loop(cfg, [first]), BACKWARD[1]);
  }

  /** Receipts numbered from one, in order of receipt. */
  ghost predicate Captured(rs: seq<Receipt>) {
    && (forall i | 0 <= i < |rs| :: rs[i].number == i + 1 && rs[i].received >= -1)
    && forall i, j | 0 <= i < j < |rs| :: rs[i].received <= rs[j].received
  }

  lemma NextClock(cfg: B.Config, n: Norm, s: B.State, r: Receipt)
    requires BrokerFacts.Inv(cfg, s) && SoundBooks(n) && s.now <= r.received
    ensures Next(cfg, n, s, r).now <= r.received
  {
    hide BrokerFacts.Inv, B.OnEvent, Feed, SoundBooks, B.Sane, Deliver;
    FeedSound(n, r);
    var out := Feed(n, r).1;
    if out.Some? {
      DeliverClock(cfg, s, out.value, r.received);
    }
    var (t, raised) := Handed(cfg, n, s, r);
    BrokerRuns.OnEventKeeps(cfg, Faulted(cfg, t), InjectedGap(cfg, r));
  }

  lemma {:induction false} CaptureCounts(rs: seq<Receipt>, i: nat)
    requires Captured(rs) && i <= |rs|
    ensures Run(rs[..i]).lastSeq == i && Run(rs[..i]).lastReceived == (if i == 0 then -1 else rs[i - 1].received)
  {
    hide SoundBooks, Feed;
    if i > 0 {
      CaptureCounts(rs, i - 1);
      assert rs[..i][..i - 1] == rs[..i - 1];
      FeedCounts(Run(rs[..i - 1]), rs[i - 1]);
    }
  }

  lemma CaptureGoesOn(rs: seq<Receipt>, i: nat)
    requires Captured(rs) && i <= |rs|
    ensures !Ended(rs[..i])
  {
    hide Run;
    forall k | 0 <= k < i
      ensures Run(rs[..i][..k + 1]).lastSeq == rs[..i][k].number
    {
      assert rs[..i][..k + 1] == rs[..k + 1];
      CaptureCounts(rs, k + 1);
    }
  }

  /** A capture in order never makes the loop fail or end early, whatever its messages and however many are refused. */
  lemma {:induction false} OrderedCaptureNeverCrashes(cfg: B.Config, rs: seq<Receipt>, i: nat)
    requires Captured(rs) && i < |rs|
    ensures Run(rs[..i]).lastSeq == i && Run(rs[..i]).lastReceived == (if i == 0 then -1 else rs[i - 1].received)
    ensures Loop(cfg, rs[..i]).now <= rs[i].received
    ensures !Ended(rs[..i]) && !Crashes(cfg, Run(rs[..i]), Loop(cfg, rs[..i]), rs[i])
  {
    hide BrokerFacts.Inv, Crashes, Next, SoundBooks, Ended, Run, Feed;
    CaptureCounts(rs, i);
    CaptureGoesOn(rs, i);
    if i > 0 {
      OrderedCaptureNeverCrashes(cfg, rs, i - 1);
      assert rs[..i][..i - 1] == rs[..i - 1];
      NextClock(cfg, Run(rs[..i - 1]), Loop(cfg, rs[..i - 1]), rs[i - 1]);
    }
    CrashExact(cfg, Run(rs[..i]), Loop(cfg, rs[..i]), rs[i]);
  }

  lemma FeedCounts(n: Norm, r: Receipt)
    requires SoundBooks(n) && InOrder(n, r)
    ensures Feed(n, r).0.lastSeq == r.number && Feed(n, r).0.lastReceived == r.received
  {
    hide Emit, OrderBook.Apply, OrderBook.View, OrderBook.Sound;
  }
}
