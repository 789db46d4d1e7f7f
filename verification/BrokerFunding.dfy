/** Funding: exposure at a settlement is fixed once the clock reaches it, and charges add up in any order. */
module BrokerFunding {
  import opened Basics
  import opened Ledger
  import opened BrokerModel
  import opened BrokerFacts

  /** A fill stamped at or after a settlement never changes the exposure charged for it. */
  lemma ExposureStable(h: seq<Mark>, m: Mark, time: int)
    requires m.time >= time
    ensures ExposureAt(h + [m], time) == ExposureAt(h, time)
  {
    assert (h + [m])[..|h|] == h;
  }

  lemma {:induction false} ExposureHasOwner(h: seq<Mark>, time: int)
    ensures ExposureAt(h, time).Some? ==>
              exists i :: 0 <= i < |h| && h[i].id == ExposureAt(h, time).value.id && h[i].time < time
  {
    if h != [] && h[|h| - 1].time >= time {
      var g := h[..|h| - 1];
      ExposureHasOwner(g, time);
      if ExposureAt(g, time).Some? {
        var i :| 0 <= i < |g| && g[i].id == ExposureAt(g, time).value.id && g[i].time < time;
        assert h[i] == g[i];
      }
    } else if h != [] {
      var last := h[|h| - 1];
      assert last.time < time;
    }
  }

  lemma {:induction false} SumDueInsert(times: set<int>, t: int, values: map<int, (real, real)>, h: seq<Mark>, id: int)
    requires t in times && times <= values.Keys
    ensures SumDue(times, values, h, id) == Due(values, h, t, id) + SumDue(times - {t}, values, h, id)
    decreases times
  {
    hide Due;
    var p := Pick(times);
    if p != t {
      SumDueInsert(times - {p}, t, values, h, id);
      SumDueInsert(times - {t}, p, values, h, id);
      assert times - {p} - {t} == times - {t} - {p};
    }
  }

  /** The sum depends on the due amounts alone. */
  lemma {:induction false} SumDueSame(times: set<int>, v: map<int, (real, real)>, h: seq<Mark>,
                                      w: map<int, (real, real)>, g: seq<Mark>, id: int)
    requires times <= v.Keys && times <= w.Keys
    requires forall t | t in times :: Due(v, h, t, id) == Due(w, g, t, id)
    ensures SumDue(times, v, h, id) == SumDue(times, w, g, id)
    decreases times
  {
    hide Due;
    if times != {} {
      SumDueSame(times - {Pick(times)}, v, h, w, g, id);
    }
  }

  lemma {:induction false} SumDueNothing(times: set<int>, v: map<int, (real, real)>, h: seq<Mark>, id: int)
    requires times <= v.Keys
    requires forall t | t in times :: Due(v, h, t, id) == 0.0
    ensures SumDue(times, v, h, id) == 0.0
    decreases times
  {
    hide Due;
    if times != {} {
      SumDueNothing(times - {Pick(times)}, v, h, id);
    }
  }

  /** Marks never change a position's settled funding; a position not yet in the history owes nothing. */
  lemma SumDueStable(now: int, d: Desk, u: Funding, m: Mark, id: int)
    requires Funded(now, d, u) && m.time >= now
    ensures SumDue(u.seen, u.values, d.history + [m], id) == SumDue(u.seen, u.values, d.history, id)
  {
    forall t | t in u.seen
      ensures Due(u.values, d.history + [m], t, id) == Due(u.values, d.history, t, id)
    {
      ExposureStable(d.history, m, t);
    }
    SumDueSame(u.seen, u.values, d.history + [m], u.values, d.history, id);
  }

  lemma NewPositionOwesNothing(now: int, d: Desk, u: Funding, id: int)
    requires Funded(now, d, u) && Tracked(d) && id > d.serial
    ensures SumDue(u.seen, u.values, d.history, id) == 0.0
  {
    forall t | t in u.seen
      ensures Due(u.values, d.history, t, id) == 0.0
    {
      ExposureHasOwner(d.history, t);
    }
    SumDueNothing(u.seen, u.values, d.history, id);
  }

  /** A fill keeps every funding fact, whatever it does to the books. */
  lemma FundedGrow(now: int, d: Desk, e: Desk, u: Funding, m: Mark)
    requires Funded(now, d, u) && Tracked(d)
    requires e.history == d.history + [m] && m.time == now
    requires d.serial <= e.serial <= d.serial + 1
    requires forall id | 1 <= id <= d.serial :: FundingOf(e, id) == FundingOf(d, id)
    requires e.serial > d.serial ==> FundingOf(e, e.serial) == 0.0
    ensures Funded(now, e, u)
  {
    forall t | t in u.obligations
      ensures ExposureAt(e.history, t) == Some(u.obligations[t])
    {
      ExposureStable(d.history, m, t);
    }
    forall id | 1 <= id <= e.serial
      ensures FundingOf(e, id) == SumDue(u.seen, u.values, e.history, id)
    {
      SumDueStable(now, d, u, m, id);
      if id > d.serial {
        NewPositionOwesNothing(now, d, u, id);
      } else {
        assert FundingOf(d, id) == SumDue(u.seen, u.values, d.history, id);
      }
    }
  }
}
