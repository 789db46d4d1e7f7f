/** The broker's event log and closed trades, and the independent audit that re-segments the log. */
module Ledger {
  import opened Basics
  import opened Market

  datatype Reason =
    | RiskHalt | ReduceOnlyExit | OppositeSignal | DataGap | FundingNotVerified | StaleBook
    | StopHit | TargetHit | TimeUp | ExposureCap | FlowInvalidated | FeatureQualityLost | SampleBoundary

  datatype Note =
    | CancelRequested(reason: Reason) | ExitRequested(reason: Reason) | ProposalSeen(family: Family, side: Side)
    | PromotionBlocked | Promoted | ObserveOnly | NotCalibrated | MissingContext | CostOrStopGate
    | CancelAck | PostOnlyRejected | UnknownQueueRejected | RemainderReduced
    | ConflictingFunding | FundingTie

  datatype LogEntry =
    | EntryFilled(time: int, qty: real, price: real, fee: real)
    | ExitFilled(time: int, qty: real, price: real, fee: real, reason: Reason)
    | EntrySubmitted(time: int, qty: real, price: real, passive: bool)
    | FundingPaid(time: int, cost: real, id: int, settlement: int)
    | Noted(time: int, note: Note)

  datatype Trade = Trade(id: int, riskBudget: Positive, entryTime: int, exitTime: int, side: Side,
                         family: Family, finalFamily: Family, quantity: real, gross: real, fees: real,
                         funding: real, net: real, netR: real, reason: Reason)

  datatype Fill = Fill(qty: real, price: real, fee: real)

  function Quantity(fills: seq<Fill>): real {
    if fills == [] then 0.0 else Quantity(fills[..|fills| - 1]) + fills[|fills| - 1].qty
  }

  function Notional(fills: seq<Fill>): real {
    if fills == [] then 0.0
    else Notional(fills[..|fills| - 1]) + fills[|fills| - 1].qty * fills[|fills| - 1].price
  }

  function Fees(fills: seq<Fill>): real {
    if fills == [] then 0.0 else Fees(fills[..|fills| - 1]) + fills[|fills| - 1].fee
  }

  /** Fills since the account was last flat, and the completed round trips before them. */
  datatype Segment = Segment(entries: seq<Fill>, exits: seq<Fill>)
  datatype Segmented = Segmented(closed: seq<Segment>, open: Segment)

  predicate Balanced(g: Segment) {
    Quantity(g.entries) == Quantity(g.exits) && Quantity(g.entries) > 0.0
  }

  function Advance(sp: Segmented, e: LogEntry): Segmented {
    match e
    case EntryFilled(_, qty, price, fee) =>
      sp.(open := sp.open.(entries := sp.open.entries + [Fill(qty, price, fee)]))
    case ExitFilled(_, qty, price, fee, _) =>
      var open := sp.open.(exits := sp.open.exits + [Fill(qty, price, fee)]);
      if Balanced(open) then Segmented(sp.closed + [open], Segment([], []))
      else sp.(open := open)
    case _ => sp
  }

  function Split(log: seq<LogEntry>): Segmented {
    if log == [] then Segmented([], Segment([], []))
    else Advance(Split(log[..|log| - 1]), log[|log| - 1])
  }

  lemma SplitAppend(log: seq<LogEntry>, e: LogEntry)
    ensures Split(log + [e]) == Advance(Split(log), e)
  {
    assert (log + [e])[..|log|] == log;
  }

  /** Only fills move the segmentation. */
  lemma SplitIgnores(log: seq<LogEntry>, e: LogEntry)
    requires !e.EntryFilled? && !e.ExitFilled?
    ensures Split(log + [e]) == Split(log)
  {
    SplitAppend(log, e);
  }

  lemma FillsAppend(fills: seq<Fill>, f: Fill)
    ensures Quantity(fills + [f]) == Quantity(fills) + f.qty
    ensures Notional(fills + [f]) == Notional(fills) + f.qty * f.price
    ensures Fees(fills + [f]) == Fees(fills) + f.fee
  {
    assert (fills + [f])[..|fills|] == fills;
  }

  /** What the audit asserts of one reported trade, from its cashflows alone. */
  predicate Agrees(g: Segment, t: Trade) {
    && Sign(t.side, Notional(g.exits) - Notional(g.entries)) == t.gross
    && Fees(g.entries) + Fees(g.exits) == t.fees
    && t.gross - t.fees - t.funding == t.net
  }

  function SumNet(trades: seq<Trade>): real {
    if trades == [] then 0.0 else SumNet(trades[..|trades| - 1]) + trades[|trades| - 1].net
  }

  lemma SumNetAppend(trades: seq<Trade>, t: Trade)
    ensures SumNet(trades + [t]) == SumNet(trades) + t.net
  {
    assert (trades + [t])[..|trades|] == trades;
  }

  lemma {:induction false} SumNetUpdate(trades: seq<Trade>, i: nat, t: Trade)
    requires i < |trades|
    ensures SumNet(trades[i := t]) == SumNet(trades) - trades[i].net + t.net
  {
    var n := |trades| - 1;
    if i == n {
      assert trades[i := t][..n] == trades[..n];
    } else {
      SumNetUpdate(trades[..n], i, t);
      assert trades[i := t][..n] == trades[..n][i := t];
    }
  }

  /** The report the audit receives; complete is the study's accounting_complete flag. */
  datatype Report = Report(events: seq<LogEntry>, trades: seq<Trade>, capital: real, cash: real,
                           completed: int, complete: bool)

  datatype Verdict = Passed(checked: int, residual: bool) | MissingTrade | Disagreement

  ghost predicate AllAgree(closed: seq<Segment>, trades: seq<Trade>) {
    |closed| <= |trades| && forall i | 0 <= i < |closed| :: Agrees(closed[i], trades[i])
  }

  lemma AgreeAppend(closed: seq<Segment>, g: Segment, trades: seq<Trade>)
    requires AllAgree(closed, trades) && |closed| < |trades| && Agrees(g, trades[|closed|])
    ensures AllAgree(closed + [g], trades)
  {
  }

  /** Exactly when the audit passes: the log's round trips are the reported trades, one for one. */
  ghost predicate Reconciles(r: Report) {
    var closed := Split(r.events).closed;
    && AllAgree(closed, r.trades)
    && |closed| == r.completed
    && (r.complete ==> SumNet(r.trades[..|closed|]) == r.cash - r.capital)
  }

  function Sum(xs: seq<real>): real {
    if xs == [] then 0.0 else Sum(xs[..|xs| - 1]) + xs[|xs| - 1]
  }

  lemma SumAppend(xs: seq<real>, x: real)
    ensures Sum(xs + [x]) == Sum(xs) + x
  {
    assert (xs + [x])[..|xs|] == xs;
  }

  /** One trade's result from its cashflows, and whether the reported fields agree with it. */
  method Recompute(entries: seq<Fill>, exits: seq<Fill>, t: Trade) returns (net: real, agrees: bool)
    ensures agrees <==> Agrees(Segment(entries, exits), t)
    ensures agrees ==> net == t.net
  {
    var gross := Sign(t.side, Notional(exits) - Notional(entries));
    var fee := Fees(entries) + Fees(exits);
    net := gross - fee - t.funding;
    agrees := gross == t.gross && fee == t.fees && net == t.net;
  }

  /** audit_ledger, with exact comparisons in place of the floating-point tolerances. */
  method AuditLedger(r: Report) returns (v: Verdict)
    ensures v.Passed? <==> Reconciles(r)
    ensures v.Passed? ==> v.checked == |Split(r.events).closed|
                          && v.residual == (Split(r.events).open.entries != [])
    ensures v.MissingTrade? ==> |Split(r.events).closed| > |r.trades|
  {
    hide Quantity, Agrees;
    var completed: seq<real>, entries: seq<Fill>, exits: seq<Fill> := [], [], [];
    ghost var sp := Split([]);
    var i := 0;
    while i < |r.events|
      invariant 0 <= i <= |r.events|
      invariant sp == Split(r.events[..i]) && sp.open == Segment(entries, exits)
      invariant |sp.closed| == |completed| && AllAgree(sp.closed, r.trades)
      invariant Sum(completed) == SumNet(r.trades[..|completed|])
    {
      var e := r.events[i];
      SplitAppend(r.events[..i], e);
      assert r.events[..i + 1] == r.events[..i] + [e];
      ghost var before := sp;
      sp := Advance(sp, e);
      ClosedGrows(r.events, i + 1);
      if e.EntryFilled? {
        entries := entries + [Fill(e.qty, e.price, e.fee)];
      } else if e.ExitFilled? {
        exits := exits + [Fill(e.qty, e.price, e.fee)];
        var a, z := Quantity(entries), Quantity(exits);
        if a == z && a > 0.0 {
          var n := |completed|;
          assert sp.closed == before.closed + [Segment(entries, exits)];
          if n >= |r.trades| {
            return MissingTrade;
          }
          var t := r.trades[n];
          var net, agrees := Recompute(entries, exits, t);
          if !agrees {
            assert !Agrees(Split(r.events).closed[n], t);
            return Disagreement;
          }
          AgreeAppend(before.closed, Segment(entries, exits), r.trades);
          SumNetAppend(r.trades[..n], t);
          SumAppend(completed, net);
          assert r.trades[..n + 1] == r.trades[..n] + [t];
          completed, entries, exits := completed + [net], [], [];
        }
      }
      i := i + 1;
    }
    assert r.events[..i] == r.events;
    if |completed| != r.completed || (r.complete && Sum(completed) != r.cash - r.capital) {
      return Disagreement;
    }
    return Passed(|completed|, entries != []);
  }

  /** Completed segments are never revised by later events. */
  lemma {:induction false} ClosedGrows(log: seq<LogEntry>, i: nat)
    requires i <= |log|
    ensures Split(log[..i]).closed <= Split(log).closed
    decreases |log| - i
  {
    if i < |log| {
      ClosedGrows(log, i + 1);
      assert log[..i + 1][..i] == log[..i];
    } else {
      assert log[..i] == log;
    }
  }
}
