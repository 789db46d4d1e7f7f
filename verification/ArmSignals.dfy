/** Re-arming of minute signals: at most one per pullback. */
module ArmSignals {
  import opened Basics

  /** The columns the loop reads; an absent price compares false, as NaN does. */
  datatype Columns = Columns(direction: seq<int>, eligible: seq<bool>, close: seq<Option<real>>, vwap: seq<Option<real>>)
  {
    predicate Shaped() {
      |direction| == |eligible| == |close| == |vwap|
    }
  }

  predicate AtLeast(x: Option<real>, y: Option<real>) {
    x.Some? && y.Some? && x.value >= y.value
  }

  /** Bar i offers a signal of this side. */
  predicate Offers(c: Columns, side: Side, i: nat)
    requires c.Shaped() && i < |c.close|
  {
    c.eligible[i] && c.direction[i] == if side.Long? then 1 else -1
  }

  /** Bar i has come back to its average, which re-arms this side. */
  predicate Rearms(c: Columns, side: Side, i: nat)
    requires c.Shaped() && i < |c.close|
  {
    if side.Long? then AtLeast(c.close[i], c.vwap[i]) else AtLeast(c.vwap[i], c.close[i])
  }

  ghost predicate RearmedIn(c: Columns, side: Side, j: nat, i: nat)
    requires c.Shaped() && i < |c.close|
  {
    exists m | j < m <= i :: Rearms(c, side, m)
  }

  /** Bar i is the first offer of its side since the last return to the average. */
  ghost predicate Fresh(c: Columns, side: Side, i: nat)
    requires c.Shaped() && i < |c.close|
  {
    Offers(c, side, i) && forall j | 0 <= j < i && Offers(c, side, j) :: RearmedIn(c, side, j, i)
  }

  /** An earlier offer is still waiting for a return to the average, bar i included. */
  ghost predicate Consumed(c: Columns, side: Side, i: nat)
    requires c.Shaped() && i < |c.close|
  {
    exists j | 0 <= j < i :: Offers(c, side, j) && !RearmedIn(c, side, j, i)
  }

  /** Whether the side is still consumed when the next bar begins. */
  ghost predicate ConsumedAfter(c: Columns, side: Side, n: nat)
    requires c.Shaped() && n <= |c.close|
  {
    n > 0 && (Offers(c, side, n - 1) || Consumed(c, side, n - 1))
  }

  lemma ConsumedStep(c: Columns, side: Side, i: nat)
    requires c.Shaped() && i < |c.close|
    ensures Consumed(c, side, i) <==> ConsumedAfter(c, side, i) && !Rearms(c, side, i)
  {
    if Consumed(c, side, i) {
      var j :| 0 <= j < i && Offers(c, side, j) && !RearmedIn(c, side, j, i);
      if j < i - 1 {
        forall m | j < m <= i - 1
          ensures !Rearms(c, side, m)
        {
          assert m <= i;
        }
        assert !RearmedIn(c, side, j, i - 1);
      }
    }
    if ConsumedAfter(c, side, i) && !Rearms(c, side, i) {
      if Offers(c, side, i - 1) {
        assert !RearmedIn(c, side, i - 1, i);
      } else {
        var j :| 0 <= j < i - 1 && Offers(c, side, j) && !RearmedIn(c, side, j, i - 1);
        forall m | j < m <= i
          ensures !Rearms(c, side, m)
        {
          if m < i {
            assert m <= i - 1;
          }
        }
        assert !RearmedIn(c, side, j, i);
      }
    }
  }

  /** The loop emits a side at a bar exactly when that offer is fresh. */
  method Arm(c: Columns) returns (out: array<int>)
    requires c.Shaped()
    ensures out.Length == |c.close|
    ensures forall i | 0 <= i < out.Length :: out[i] == 1 <==> Fresh(c, Long, i)
    ensures forall i | 0 <= i < out.Length :: out[i] == -1 <==> Fresh(c, Short, i)
    ensures forall i | 0 <= i < out.Length :: -1 <= out[i] <= 1
  {
    hide Consumed, Rearms, RearmedIn;
    out := new int[|c.close|](_ => 0);
    var consumedLong, consumedShort := false, false;
    for i := 0 to |c.close|
      invariant consumedLong <==> ConsumedAfter(c, Long, i)
      invariant consumedShort <==> ConsumedAfter(c, Short, i)
      invariant forall k | i <= k < out.Length :: out[k] == 0
      invariant forall k | 0 <= k < i :: out[k] == if Fresh(c, Long, k) then 1 else if Fresh(c, Short, k) then -1 else 0
    {
      ConsumedStep(c, Long, i);
      ConsumedStep(c, Short, i);
      FreshIs(c, Long, i);
      FreshIs(c, Short, i);
      if Rearms(c, Long, i) { consumedLong := false; }
      if Rearms(c, Short, i) { consumedShort := false; }
      if c.eligible[i] && c.direction[i] == 1 && !consumedLong {
        out[i] := 1;
        consumedLong := true;
      } else if c.eligible[i] && c.direction[i] == -1 && !consumedShort {
        out[i] := -1;
        consumedShort := true;
      }
    }
  }

  lemma FreshIs(c: Columns, side: Side, i: nat)
    requires c.Shaped() && i < |c.close|
    ensures Fresh(c, side, i) <==> Offers(c, side, i) && !Consumed(c, side, i)
  {
  }

  /** Two emitted signals have a close at or across the average between them: back up for a long, back down for a short. */
  lemma OnePerPullback(c: Columns, side: Side, i: nat, j: nat)
    requires c.Shaped() && i < j < |c.close| && Fresh(c, side, i) && Fresh(c, side, j)
    ensures exists m | i < m <= j ::
              c.close[m].Some? && c.vwap[m].Some?
              && if side.Long? then c.close[m].value >= c.vwap[m].value else c.close[m].value <= c.vwap[m].value
  {
    assert RearmedIn(c, side, i, j);
    var m :| i < m <= j && Rearms(c, side, m);
  }

  /** Nothing but such a close re-arms a side, and every such close does. */
  lemma RearmsExactly(c: Columns, side: Side, m: nat)
    requires c.Shaped() && m < |c.close|
    ensures Rearms(c, side, m)
       <==> c.close[m].Some? && c.vwap[m].Some?
            && if side.Long? then c.close[m].value >= c.vwap[m].value else c.close[m].value <= c.vwap[m].value
  {
  }
}
