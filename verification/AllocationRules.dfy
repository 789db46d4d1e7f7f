/** Targets, costs and the day's cash movements, in terms of the signals, holdings and quotes themselves. */
module AllocationRules {
  import opened Basics
  import opened Allocation
  import opened Treasury

  // ---------------------------------------------------------------- base targets

  /** Size of the spot signals that count: present, not short, and available. */
  function SpotSignalled(s: seq<Option<real>>, available: seq<bool>, locked: real): real
    requires |s| == |available|
  {
    if s == [] then 0.0
    else
      var n := |s| - 1;
      SpotSignalled(s[..n], available[..n], locked)
      + if available[n] && s[n].Some? && s[n].value >= 0.0 then Mul(s[n].value, locked) else 0.0
  }

  /** Size of the perpetual signals, of either sign. */
  function PerpSignalled(p: seq<Option<real>>, locked: real): real {
    if p == [] then 0.0
    else
      var n := |p| - 1;
      PerpSignalled(p[..n], locked)
      + if p[n].None? then 0.0
        else if p[n].value >= 0.0 then Mul(p[n].value, locked) else Mul(-p[n].value, locked)
  }

  lemma {:induction false} SpotSignalledSum(s: seq<Option<real>>, available: seq<bool>, locked: real)
    requires |s| == |available|
    ensures Sum(RawSpot(s, available, locked)) == SpotSignalled(s, available, locked)
  {
    MulZero(locked);
    if s != [] {
      var n := |s| - 1;
      SpotSignalledSum(s[..n], available[..n], locked);
      assert RawSpot(s, available, locked)[..n] == RawSpot(s[..n], available[..n], locked);
    }
    hide Mul;
  }

  lemma {:induction false} PerpSignalledSum(p: seq<Option<real>>, locked: real)
    requires locked >= 0.0
    ensures Sum(Magnitudes(RawPerp(p, locked))) == PerpSignalled(p, locked)
  {
    MulZero(locked);
    if p != [] {
      var n := |p| - 1;
      PerpSignalledSum(p[..n], locked);
      AbsScaled(Present(p[n]), locked);
      assert Magnitudes(RawPerp(p, locked))[..n] == Magnitudes(RawPerp(p[..n], locked));
    }
    hide Mul;
  }

  lemma CapScaleExact(gross: real, cap: real)
    requires gross >= 0.0 && cap >= 0.0
    ensures var m := CapScale(gross, cap);
            && 0.0 <= m <= 1.0 && (cap > 0.0 ==> m > 0.0)
            && (gross <= cap ==> m == 1.0) && (gross > cap ==> Mul(gross, m) == cap)
  {
    CapScaleBounds(gross, cap);
    MulZero(gross);
  }

  /**
   One factor for every target: one when the signals fit the cap, and otherwise what brings their gross to the cap.
   Each perpetual target is its own signal at the locked risk, sign and all, times the factor; each spot target is
   too, when available and not short; an absent signal is zero.
   */
  lemma TargetsFollowSignals(s: seq<Option<real>>, p: seq<Option<real>>, locked: real, cap: real, available: seq<bool>)
    returns (m: real)
    requires |s| == |available| && locked >= 0.0 && cap >= 0.0
    ensures var gross := SpotSignalled(s, available, locked) + PerpSignalled(p, locked);
            && 0.0 <= m <= 1.0 && (cap > 0.0 ==> m > 0.0)
            && (gross <= cap ==> m == 1.0) && (gross > cap ==> Mul(gross, m) == cap)
    ensures var (spot, perp) := BaseTargets(s, p, locked, cap, available);
            && (forall i | 0 <= i < |p| :: perp[i] == if p[i].Some? then Mul(Mul(p[i].value, locked), m) else 0.0)
            && (forall i | 0 <= i < |s| ::
                  spot[i] == if available[i] && s[i].Some? && s[i].value >= 0.0 then Mul(Mul(s[i].value, locked), m)
                             else 0.0)
    ensures var (spot, perp) := BaseTargets(s, p, locked, cap, available);
            Sum(spot) + Sum(Magnitudes(perp)) == Min(SpotSignalled(s, available, locked) + PerpSignalled(p, locked), cap)
  {
    var spot, perp := RawSpot(s, available, locked), RawPerp(p, locked);
    var gross := Exposure(spot, perp);
    m := CapScale(gross, cap);
    SpotSignalledSum(s, available, locked);
    PerpSignalledSum(p, locked);
    RawNonnegative(s, available, locked);
    SumNonnegative(spot);
    SumNonnegative(Magnitudes(perp));
    CapScaleExact(gross, cap);
    BaseWithinCap(s, p, locked, cap, available);
    MulZero(locked);
    MulZero(m);
    hide Mul, Sum, Magnitudes, CapScale;
  }

  // ---------------------------------------------------------------- carry

  /** What the carries that share spot j ask of it at a scale; a short carry asks nothing. */
  function SharedLeg(c: seq<Option<real>>, pairTo: seq<nat>, a: real, j: nat): real
    requires |c| == |pairTo|
  {
    if c == [] then 0.0
    else
      var n := |c| - 1;
      SharedLeg(c[..n], pairTo[..n], a, j)
      + if pairTo[n] == j && c[n].Some? && c[n].value > 0.0 then Mul(a, c[n].value) else 0.0
  }

  lemma {:induction false} SharedLegIs(c: seq<Option<real>>, pairTo: seq<nat>, a: real, n: nat, k: nat, j: nat)
    requires k <= |c| == |pairTo| && Pairs(pairTo, n) && j < n
    ensures SpotLegs(Cleaned(c), pairTo, a, n, k)[j] == SharedLeg(c[..k], pairTo[..k], a, j)
  {
    hide Mul;
    if k > 0 {
      SharedLegIs(c, pairTo, a, n, k - 1, j);
      assert c[..k][..k - 1] == c[..k - 1] && pairTo[..k][..k - 1] == pairTo[..k - 1];
      MulZero(a);
    }
  }

  /** The carry sells each pair's perpetual and buys its spot by the same size, the scale times a positive signal. */
  lemma CarryFollowsSignals(bs: seq<real>, bp: seq<real>, c: seq<Option<real>>, pairTo: seq<nat>, a: real)
    requires |bp| == |c| == |pairTo| && Pairs(pairTo, |bs|)
    ensures var t := Combine(bs, bp, Cleaned(c), pairTo, a);
            && (forall k | 0 <= k < |c| ::
                  var leg := if c[k].Some? && c[k].value > 0.0 then Mul(a, c[k].value) else 0.0;
                  t.perpLegs[k] == -leg && t.perp[k] == bp[k] - leg)
            && (forall j | 0 <= j < |bs| ::
                  t.spotLegs[j] == SharedLeg(c, pairTo, a, j) && t.spot[j] == bs[j] + SharedLeg(c, pairTo, a, j))
  {
    MulZero(a);
    assert c[..|c|] == c && pairTo[..|c|] == pairTo;
    forall j | 0 <= j < |bs|
      ensures SpotLegs(Cleaned(c), pairTo, a, |bs|, |c|)[j] == SharedLeg(c, pairTo, a, j)
    {
      SharedLegIs(c, pairTo, a, |bs|, |c|, j);
    }
    hide SpotLegs, SharedLeg, Mul, Exposure;
  }

  // ---------------------------------------------------------------- the constraint

  /** Distance from holdings to scaled targets, either way. */
  function Distance(target: seq<real>, held: seq<real>, a: real): real
    requires |target| == |held|
  {
    if target == [] then 0.0
    else
      var n := |target| - 1;
      var move := Mul(target[n], a) - held[n];
      Distance(target[..n], held[..n], a) + if move >= 0.0 then move else -move
  }

  lemma {:induction false} DistanceIs(target: seq<real>, held: seq<real>, a: real)
    requires |target| == |held|
    ensures Sum(Magnitudes(Minus(Scaled(target, a), held))) == Distance(target, held, a)
  {
    if target != [] {
      var n := |target| - 1;
      DistanceIs(target[..n], held[..n], a);
      assert Magnitudes(Minus(Scaled(target, a), held))[..n] == Magnitudes(Minus(Scaled(target[..n], a), held[..n]));
    }
    hide Mul;
  }

  /** Gross of a vector of either sign. */
  function Absolute(v: seq<real>): real {
    if v == [] then 0.0
    else Absolute(v[..|v| - 1]) + if v[|v| - 1] >= 0.0 then v[|v| - 1] else -v[|v| - 1]
  }

  lemma {:induction false} AbsoluteIs(v: seq<real>)
    ensures Sum(Magnitudes(v)) == Absolute(v)
  {
    if v != [] {
      AbsoluteIs(v[..|v| - 1]);
      assert Magnitudes(v)[..|v| - 1] == Magnitudes(v[..|v| - 1]);
    }
  }

  /** The cost of reaching a scale is the rate on the equity moved, and what is left never falls below nothing. */
  lemma CostExactly(o: Order, a: real)
    requires o.Shaped()
    ensures TradeCost(o, a) == o.equity * (Distance(o.spot, o.heldSpot, a) + Distance(o.perp, o.heldPerp, a)) * o.cost
    ensures After(o, a) == if TradeCost(o, a) <= o.equity then o.equity - TradeCost(o, a) else 0.0
  {
    hide Turnover, Distance;
    TurnoverIs(o, a);
    Replaced(o.equity, Turnover(o, a), Distance(o.spot, o.heldSpot, a) + Distance(o.perp, o.heldPerp, a), o.cost);
  }

  lemma TurnoverIs(o: Order, a: real)
    requires o.Shaped()
    ensures Turnover(o, a) == Distance(o.spot, o.heldSpot, a) + Distance(o.perp, o.heldPerp, a)
  {
    hide Sum, Distance, Magnitudes, Minus;
    DistanceIs(o.spot, o.heldSpot, a);
    DistanceIs(o.perp, o.heldPerp, a);
  }

  lemma Replaced(x: real, y: real, z: real, w: real)
    requires y == z
    ensures x * y * w == x * z * w
  {
  }

  /**
   A scale fits exactly when the cash locked, with what its spot, the margin of its perpetuals and the reserve tie up
   of the equity left, is within that equity and a billionth.
   */
  lemma FitsExactly(o: Order, a: Size)
    requires o.Shaped()
    ensures var after := After(o, a);
            Fits(o, a)
            <==> o.locked + Mul(after, Mul(Sum(o.spot), a) + o.margin * Mul(Absolute(o.perp), a) + o.reserve)
                 <= after + 0.000000001
  {
    hide After, Tied, Absolute, Mul, Sum;
    TiedIs(o, a);
  }

  lemma TiedIs(o: Order, a: Size)
    ensures Tied(o, a) == Mul(Sum(o.spot), a) + o.margin * Mul(Absolute(o.perp), a) + o.reserve
  {
    hide Sum, Magnitudes, Scaled, Absolute, Mul;
    SumScaled(o.spot, a);
    ScaledMagnitudes(o.perp, a);
    SumScaled(Magnitudes(o.perp), a);
    AbsoluteIs(o.perp);
    Replaced(o.margin, Sum(Magnitudes(Scaled(o.perp, a))), Mul(Absolute(o.perp), a), 1.0);
  }

  // ---------------------------------------------------------------- the day's cash

  /** Overnight a holding gains its quote's change, or loses the penalty, at least a hundredth, when it must be sold. */
  lemma OvernightExactly(value: real, close: Option<Positive>, open: Option<Positive>, cost: real)
    ensures OvernightGain(value, close, open, cost)
         == if value <= 0.0 then 0.0
            else if close.Some? && open.Some? then Mul(value, open.value / close.value) - value
            else
              var penalty := Mul(value, if cost >= 0.01 then cost else 0.01);
              if penalty <= value then -penalty else -value
  {
    hide Mul;
  }

  /** What all pairs would pay without an audit: each position of either kind, short ones receiving. */
  function NetPaid(bp: seq<real>, cp: seq<real>, rates: seq<real>, k: nat): real
    requires k <= |bp| == |cp| == |rates|
  {
    if k == 0 then 0.0 else NetPaid(bp, cp, rates, k - 1) + Mul(bp[k - 1] + cp[k - 1], rates[k - 1])
  }

  /** Unaudited, funding costs exactly the net positions times their rates. */
  lemma {:induction false} FundingIsNet(bp: seq<real>, cp: seq<real>, rates: seq<real>, k: nat)
    requires k <= |bp| == |cp| == |rates|
    ensures FundingSum(bp, cp, rates, 1.0, false, k) == -NetPaid(bp, cp, rates, k)
  {
    if k > 0 {
      FundingIsNet(bp, cp, rates, k - 1);
      Distribute(bp[k - 1], cp[k - 1], rates[k - 1]);
      PairExactly(bp[k - 1], cp[k - 1], rates[k - 1], 1.0, false);
      assert Mul(-Mul(cp[k - 1], rates[k - 1]), 1.0) == -Mul(cp[k - 1], rates[k - 1]);
    }
  }

  /** The audit leaves what a pair pays as it is and cuts only its carry's income, to nothing when it is suppressed. */
  lemma PairExactly(b: real, c: real, rate: real, haircut: real, suppress: bool)
    ensures var income := -Mul(c, rate);
            PairFunding(b, c, rate, haircut, suppress) + Mul(b, rate)
            == if income <= 0.0 then income else if suppress then 0.0 else Mul(income, haircut)
  {
    hide Mul;
  }

  /** A perpetual gains its signed value times the change of its quote; an absent quote changes nothing. */
  lemma {:induction false} PerpGainsExactly(bp: seq<real>, cp: seq<real>, from: seq<Option<Positive>>,
                                            to: seq<Option<Positive>>, k: nat)
    requires k < |bp| == |cp| == |from| == |to|
    ensures PerpGains(bp, cp, from, to, k + 1) - PerpGains(bp, cp, from, to, k)
         == if from[k].Some? && to[k].Some? then Mul(bp[k] + cp[k], to[k].value / from[k].value) - (bp[k] + cp[k]) else 0.0
    ensures PerpGains(bp, cp, from, to, 0) == 0.0
  {
    var x := bp[k] + cp[k];
    if from[k].Some? && to[k].Some? {
      OneLess(x, to[k].value / from[k].value);
    } else {
      MulZero(x);
    }
    hide Mul;
  }

  lemma OneLess(x: real, r: real)
    ensures Mul(x, r - 1.0) == Mul(x, r) - x
  {
  }

  /** The sweep takes what liquid has beyond the needs, within the room, if that reaches its minimum share of equity. */
  lemma SweptExactly(policy: CashPolicy, liquid: real, required: real, room: Size, equity: real)
    ensures var spare := if liquid > required then liquid - required else 0.0;
            var most := if spare <= room then spare else room;
            Swept(policy, liquid, required, room, equity)
            == if liquid > 0.0 && most >= policy.minFraction * equity then most else 0.0
    ensures forall amount :: TransferCost(policy, amount) == Mul(amount, policy.transferBps / 10_000.0)
  {
    hide Mul;
  }

  /** The redemptions not yet settled, in order, from the first on. */
  function Unsettled(p: seq<Transit>, day: int): seq<Transit> {
    if p == [] then [] else (if p[0].day > day then [p[0]] else []) + Unsettled(p[1..], day)
  }

  lemma {:induction false} UnsettledAppend(p: seq<Transit>, t: Transit, day: int)
    ensures Unsettled(p + [t], day) == Unsettled(p, day) + if t.day > day then [t] else []
  {
    if p == [] {
      assert [] + [t] == [t];
    } else {
      assert (p + [t])[1..] == p[1..] + [t];
      UnsettledAppend(p[1..], t, day);
    }
  }

  /** What stays pending on a day is exactly what settles later. */
  lemma {:induction false} LaterIsUnsettled(p: seq<Transit>, day: int)
    ensures Later(p, day) == Unsettled(p, day)
  {
    hide Unsettled;
    if p == [] {
      NothingUnsettled(day);
    } else {
      var n := |p| - 1;
      LaterIsUnsettled(p[..n], day);
      UnsettledAppend(p[..n], p[n], day);
      assert p == p[..n] + [p[n]];
    }
  }

  lemma NothingUnsettled(day: int)
    ensures Unsettled([], day) == []
  {
  }

  /** The treasury may keep what full targets would leave, less the reserve, the spot and the margin of perpetuals. */
  lemma LimitExactly(f: Fund, o: Order)
    requires o.Shaped()
    ensures var left := if TradeCost(o, 1.0) <= o.equity then o.equity - TradeCost(o, 1.0) else 0.0;
            var spare := Mul(left, 1.0 - o.reserve - Sum(o.spot) - o.margin * Absolute(o.perp));
            f.TreasuryLimit(o) == if spare >= 0.0 then spare else 0.0
  {
    AbsoluteIs(o.perp);
    hide Mul, Sum, Magnitudes, Absolute, TradeCost;
  }

  /** The constraint sees the targets as they are, holdings as fractions of equity, and treasury and transit as locked. */
  lemma OrderExactly(f: Fund, t: Combination, policy: CashPolicy, cost: real, margin: real, i: nat)
    requires f.Valid() && f.Total() > 0.0 && |t.spot| == |f.bsv| && |t.perp| == |f.bpn|
    ensures var o := f.OrderNow(t, policy, cost, margin);
            && o.spot == t.spot && o.perp == t.perp && o.equity == f.Total() && o.cost == cost && o.margin == margin
            && o.reserve == policy.reserve && o.locked == f.treasury + TransitSum(f.pending)
            && (i < |f.bsv| ==> o.heldSpot[i] * f.Total() == f.bsv[i] + f.csv[i])
            && (i < |f.bpn| ==> o.heldPerp[i] * f.Total() == f.bpn[i] + f.cpn[i])
  {
    hide Sum, TransitSum;
    var eq := f.Total();
    if i < |f.bsv| {
      Share(f.bsv[i] + f.csv[i], eq);
    }
    if i < |f.bpn| {
      Share(f.bpn[i] + f.cpn[i], eq);
    }
    hide Mul;
  }

  lemma Share(x: real, eq: Positive)
    ensures Mul(x, 1.0 / eq) * eq == x
  {
    var r := 1.0 / eq;
    assert r * eq == 1.0;
    assert x * r * eq == x * (r * eq);
  }
}
