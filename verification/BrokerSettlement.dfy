/** Applying a realized settlement: it is charged once, to the trade that held the exposure. */
module BrokerSettlement {
  import opened Basics
  import opened Ledger
  import opened BrokerModel
  import opened BrokerFacts
  import opened BrokerQuiet
  import opened BrokerFunding

  function Settled(u: Funding, time: int, rate: real, mark: real): Funding {
    u.(values := u.values[time := (rate, mark)], seen := u.seen + {time}, unresolved := u.unresolved - {time})
  }

  /** One more settlement adds exactly its own due amount to every position's total. */
  lemma SumDueSettled(now: int, d: Desk, u: Funding, time: int, rate: real, mark: real, id: int)
    requires Funded(now, d, u) && time !in u.values
    ensures var v := Settled(u, time, rate, mark);
            SumDue(v.seen, v.values, d.history, id)
            == SumDue(u.seen, u.values, d.history, id) + Due(v.values, d.history, time, id)
  {
    var v := Settled(u, time, rate, mark);
    SumDueInsert(v.seen, time, v.values, d.history, id);
    assert v.seen - {time} == u.seen;
    SumDueSame(u.seen, v.values, d.history, u.values, d.history, id);
  }

  lemma OwnerInRange(d: Desk, time: int)
    requires Tracked(d)
    ensures ExposureAt(d.history, time).Some? ==> 1 <= ExposureAt(d.history, time).value.id <= d.serial
  {
    ExposureHasOwner(d.history, time);
    hide ExposureAt;
  }

  /** The desk after a charge differs only in cash, one funding figure and one log line. */
  ghost predicate ChargedDesk(d: Desk, e: Desk, id: int, cost: real) {
    && e == d.(cash := d.cash - cost, position := e.position, trades := e.trades, events := e.events)
    && Split(e.events) == Split(d.events)
    && (if d.position.Some? && d.position.value.id == id then
          && e.trades == d.trades
          && e.position == Some(d.position.value.(funding := d.position.value.funding + cost))
        else
          && 1 <= id <= |d.trades| && e.position == d.position
          && e.trades == d.trades[id - 1 := Charged(d.trades[id - 1], cost)])
  }

  lemma ChargeFindsOwner(now: int, d: Desk, time: int, x: Exposure, cost: real)
    requires Numbered(d) && 1 <= x.id <= d.serial
    ensures var (e, outcome) := ChargeFunding(now, d, time, x, cost);
            outcome.Done? && ChargedDesk(d, e, x.id, cost)
  {
    SplitIgnores(d.events, FundingPaid(now, cost, x.id, time));
    hide Split, Charged;
    var i := OwnerIndex(d.trades, x.id);
    if d.position.None? || d.position.value.id != x.id {
      assert d.trades[x.id - 1].id == x.id;
    }
  }

  lemma ChargedKeepsBooks(cfg: Config, now: int, d: Desk, e: Desk, id: int, cost: real)
    requires DeskInv(cfg, now, d) && ChargedDesk(d, e, id, cost)
    ensures DeskInv(cfg, now, e)
  {
    hide Waves, StopLoss, UnitRisk, Split, Balanced, Quantity, Notional, Fees, StopDistance;
    if d.position.None? || d.position.value.id != id {
      SumNetUpdate(d.trades, id - 1, Charged(d.trades[id - 1], cost));
      assert Matches(Split(d.events).closed[id - 1], d.trades[id - 1]);
    }
    hide SumNet;
  }

  lemma CostIsOwed(x: Exposure, rate: real, mark: real)
    ensures FundingCost(x, rate, mark) == Owed(x, rate, mark)
  {
  }

  lemma ChargedKeepsFunding(now: int, d: Desk, e: Desk, u: Funding, time: int, x: Exposure, rate: real, mark: real)
    requires Numbered(d) && Funded(now, d, u) && time !in u.values && time <= now
    requires ExposureAt(d.history, time) == Some(x) && 1 <= x.id <= d.serial
    requires ChargedDesk(d, e, x.id, FundingCost(x, rate, mark))
    ensures Funded(now, e, Settled(u, time, rate, mark))
  {
    CostIsOwed(x, rate, mark);
    hide Split, SumDue, ExposureAt, FundingCost, Owed;
    var v := Settled(u, time, rate, mark);
    forall id | 1 <= id <= e.serial
      ensures FundingOf(e, id) == SumDue(v.seen, v.values, e.history, id)
    {
      SumDueSettled(now, d, u, time, rate, mark, id);
      assert FundingOf(d, id) == SumDue(u.seen, u.values, d.history, id);
    }
  }

  lemma UnexposedKeepsFunding(now: int, d: Desk, u: Funding, time: int, rate: real, mark: real)
    requires Funded(now, d, u) && time !in u.values && time <= now && ExposureAt(d.history, time).None?
    ensures Funded(now, d, Settled(u, time, rate, mark))
  {
    hide SumDue, ExposureAt, FundingOf;
    var v := Settled(u, time, rate, mark);
    forall id | 1 <= id <= d.serial
      ensures FundingOf(d, id) == SumDue(v.seen, v.values, d.history, id)
    {
      SumDueSettled(now, d, u, time, rate, mark, id);
      assert FundingOf(d, id) == SumDue(u.seen, u.values, d.history, id);
    }
  }

  /** apply_funding keeps the account exact and never meets an exposure without an owner. */
  lemma ApplyFundingKeeps(cfg: Config, s: State, time: int, rate: real, mark: real)
    requires DeskInv(cfg, s.now, s.desk) && Funded(s.now, s.desk, s.funding)
    ensures var (t, outcome) := ApplyFunding(s, time, rate, mark);
            && !outcome.OrphanFunding?
            && DeskInv(cfg, s.now, t.desk) && Funded(s.now, t.desk, t.funding)
            && t == s.(desk := t.desk, guard := t.guard, funding := t.funding) && t.guard.peak == s.guard.peak
            && t.desk.history == s.desk.history
            && (t.desk.pending == s.desk.pending && t.desk.exitOrder == s.desk.exitOrder)
  {
    hide Ordered, Tracked, Numbered, CashExact, Booked, RiskBounded, SumDue;
    ConflictKeeps(cfg, s.now, s.desk, s.funding);
    if mark > 0.0 && time <= s.now && time !in s.funding.values {
      SettleKeeps(cfg, s, time, rate, mark);
    }
    hide Funded;
  }

  /**
   The first settlement of an exposed time takes quantity * mark * rate from a long and gives it to a short, in cash
   and in the owner's funding alike; one without exposure, repeated or refused moves neither.
   */
  lemma SettlementMoves(cfg: Config, s: State, time: int, rate: real, mark: real, id: int)
    requires DeskInv(cfg, s.now, s.desk) && Funded(s.now, s.desk, s.funding) && 1 <= id <= s.desk.serial
    ensures var d, e := s.desk, ApplyFunding(s, time, rate, mark).0.desk;
            var x := ExposureAt(d.history, time);
            if mark <= 0.0 || time > s.now || time in s.funding.values || x.None? then
              e.cash == d.cash && FundingOf(e, id) == FundingOf(d, id)
            else
              var cost := if x.value.side.Long? then x.value.qty * mark * rate else -(x.value.qty * mark * rate);
              && e.cash == d.cash - cost
              && FundingOf(e, id) == FundingOf(d, id) + (if x.value.id == id then cost else 0.0)
  {
    hide Ordered, Tracked, CashExact, Booked, RiskBounded, SumDue, Split, Tied, ExposureAt, ChargeFunding, FundingOf,
         FundingCost, Funded;
    FundingIgnoresLog(s.now, s.desk, ConflictingFunding, id);
    FundingIgnoresLog(s.now, s.desk, FundingTie, id);
    SettledTimes(s.now, s.desk, s.funding);
    var x := ExposureAt(s.desk.history, time);
    if time <= s.now && x.Some? {
      CostIsOwed(x.value, rate, mark);
      OwnerInRange(s.desk, time);
      ChargeMoves(s.now, s.desk, time, x.value, FundingCost(x.value, rate, mark), id);
      ChargeMoves(s.now, Record(s.now, s.desk, FundingTie), time, x.value, FundingCost(x.value, rate, mark), id);
    }
  }

  lemma FundingIgnoresLog(now: int, d: Desk, note: Note, id: int)
    ensures FundingOf(Record(now, d, note), id) == FundingOf(d, id) && Record(now, d, note).cash == d.cash
    ensures Numbered(d) ==> Numbered(Record(now, d, note))
  {
  }

  /** An obligation stored is the exposure history gives. */
  lemma SettledTimes(now: int, d: Desk, u: Funding)
    requires Funded(now, d, u)
    ensures forall t | t in u.obligations :: ExposureAt(d.history, t) == Some(u.obligations[t])
  {
  }

  lemma ChargeMoves(now: int, d: Desk, time: int, x: Exposure, cost: real, id: int)
    requires Numbered(d) && 1 <= x.id <= d.serial && 1 <= id <= d.serial
    ensures var e := ChargeFunding(now, d, time, x, cost).0;
            e.cash == d.cash - cost && FundingOf(e, id) == FundingOf(d, id) + (if x.id == id then cost else 0.0)
  {
    hide Split, Charged;
    ChargeFindsOwner(now, d, time, x, cost);
    ChargedFunding(d, ChargeFunding(now, d, time, x, cost).0, x.id, cost, id);
    hide ChargeFunding;
  }

  lemma ChargedFunding(d: Desk, e: Desk, owner: int, cost: real, id: int)
    requires Numbered(d) && ChargedDesk(d, e, owner, cost) && 1 <= id <= d.serial
    ensures FundingOf(e, id) == FundingOf(d, id) + (if owner == id then cost else 0.0)
  {
    hide Split;
  }

  lemma ConflictKeeps(cfg: Config, now: int, d: Desk, u: Funding)
    requires DeskInv(cfg, now, d) && Funded(now, d, u)
    ensures DeskInv(cfg, now, Record(now, d, ConflictingFunding)) && Funded(now, Record(now, d, ConflictingFunding), u)
    ensures DeskInv(cfg, now, Record(now, d, FundingTie)) && Funded(now, Record(now, d, FundingTie), u)
  {
    QuietRecord(now, d, ConflictingFunding);
    QuietKeeps(cfg, now, d, Record(now, d, ConflictingFunding), u);
    QuietRecord(now, d, FundingTie);
    QuietKeeps(cfg, now, d, Record(now, d, FundingTie), u);
    hide Tracked, Numbered, CashExact, Booked, RiskBounded, Funded, Quiet;
  }

  lemma SettleKeeps(cfg: Config, s: State, time: int, rate: real, mark: real)
    requires DeskInv(cfg, s.now, s.desk) && Funded(s.now, s.desk, s.funding)
    requires mark > 0.0 && time <= s.now && time !in s.funding.values
    ensures var (t, outcome) := ApplyFunding(s, time, rate, mark);
            && outcome.Done?
            && DeskInv(cfg, s.now, t.desk) && Funded(s.now, t.desk, t.funding)
            && t == s.(desk := t.desk, guard := t.guard, funding := t.funding) && t.guard.peak == s.guard.peak
            && t.desk.history == s.desk.history
            && (t.desk.pending == s.desk.pending && t.desk.exitOrder == s.desk.exitOrder)
  {
    hide Ordered, CashExact, Booked, RiskBounded, SumDue, Waves, Split, Due, Tied;
    ConflictKeeps(cfg, s.now, s.desk, s.funding);
    var d := if Tied(s.desk.history, time) then Record(s.now, s.desk, FundingTie) else s.desk;
    var exposure := ExposureAt(s.desk.history, time);
    OwnerInRange(d, time);
    hide Tracked;
    if exposure.None? {
      UnexposedKeepsFunding(s.now, d, s.funding, time, rate, mark);
    } else {
      var x := exposure.value;
      var cost := FundingCost(x, rate, mark);
      ChargeFindsOwner(s.now, d, time, x, cost);
      var (e, _) := ChargeFunding(s.now, d, time, x, cost);
      ChargedKeepsBooks(cfg, s.now, d, e, x.id, cost);
      ChargedKeepsFunding(s.now, d, e, s.funding, time, x, rate, mark);
    }
    hide FundingCost, Charged, Numbered;
  }

  /** Capturing an obligation stores the exposure that will still hold when its rate arrives. */
  lemma CaptureKeeps(before: int, now: int, d: Desk, next: Option<int>, u: Funding)
    requires Funded(before, d, u) && before <= now
    ensures Funded(now, d, CaptureFunding(now, d.history, next, u))
  {
    hide SumDue, ExposureAt, FundingOf;
  }
}
