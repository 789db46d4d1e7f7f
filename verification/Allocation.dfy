/** Target combination: the gross cap, the carry scale found by bisection, and the locked-cash constraint. */
module Allocation {
  import opened Basics

  // ---------------------------------------------------------------- vectors

  function Sum(v: seq<real>): real {
    if v == [] then 0.0 else Sum(v[..|v| - 1]) + v[|v| - 1]
  }

  function Magnitudes(v: seq<real>): (r: seq<real>)
    ensures |r| == |v|
  {
    seq(|v|, i requires 0 <= i < |v| => Abs(v[i]))
  }

  function Scaled(v: seq<real>, m: real): (r: seq<real>)
    ensures |r| == |v|
  {
    seq(|v|, i requires 0 <= i < |v| => Mul(v[i], m))
  }

  function Plus(u: seq<real>, v: seq<real>): (r: seq<real>)
    requires |u| == |v|
    ensures |r| == |u|
  {
    seq(|u|, i requires 0 <= i < |u| => u[i] + v[i])
  }

  function Minus(u: seq<real>, v: seq<real>): (r: seq<real>)
    requires |u| == |v|
    ensures |r| == |u|
  {
    seq(|u|, i requires 0 <= i < |u| => u[i] - v[i])
  }

  /** Spot weights plus perpetual weights of either sign. */
  function Exposure(spot: seq<real>, perp: seq<real>): real {
    Sum(spot) + Sum(Magnitudes(perp))
  }

  lemma {:induction false} SumScaled(v: seq<real>, m: real)
    ensures Sum(Scaled(v, m)) == Mul(Sum(v), m)
  {
    if v != [] {
      var n := |v| - 1;
      SumScaled(v[..n], m);
      assert Scaled(v, m)[..n] == Scaled(v[..n], m);
      Distribute(Sum(v[..n]), v[n], m);
    }
  }

  lemma ScaledMagnitudes(v: seq<real>, m: real)
    requires m >= 0.0
    ensures Magnitudes(Scaled(v, m)) == Scaled(Magnitudes(v), m)
  {
    forall i | 0 <= i < |v|
      ensures Abs(Mul(v[i], m)) == Mul(Abs(v[i]), m)
    {
      AbsScaled(v[i], m);
    }
  }

  lemma AbsScaled(x: real, m: real)
    requires m >= 0.0
    ensures Abs(Mul(x, m)) == Mul(Abs(x), m)
  {
    if x >= 0.0 {
      MulMono(0.0, x, m);
    } else {
      MulMono(x, 0.0, m);
    }
  }

  lemma {:induction false} SumPlus(u: seq<real>, v: seq<real>)
    requires |u| == |v|
    ensures Sum(Plus(u, v)) == Sum(u) + Sum(v)
  {
    if u != [] {
      var n := |u| - 1;
      SumPlus(u[..n], v[..n]);
      assert Plus(u, v)[..n] == Plus(u[..n], v[..n]);
    }
  }

  lemma {:induction false} SumNonnegative(v: seq<real>)
    requires forall i | 0 <= i < |v| :: v[i] >= 0.0
    ensures Sum(v) >= 0.0
  {
    if v != [] {
      SumNonnegative(v[..|v| - 1]);
    }
  }

  lemma {:induction false} SumUpdate(v: seq<real>, j: nat, x: real)
    requires j < |v|
    ensures Sum(v[j := x]) == Sum(v) - v[j] + x
  {
    var n := |v| - 1;
    if j == n {
      assert v[j := x][..n] == v[..n];
    } else {
      SumUpdate(v[..n], j, x);
      assert v[j := x][..n] == v[..n][j := x];
    }
  }

  // ---------------------------------------------------------------- base targets

  /** An absent signal counts as zero. */
  function Present(x: Option<real>): real {
    if x.Some? then x.value else 0.0
  }

  function RawSpot(s: seq<Option<real>>, available: seq<bool>, locked: real): (r: seq<real>)
    requires |s| == |available|
    ensures |r| == |s|
  {
    seq(|s|, i requires 0 <= i < |s| => if !available[i] || Present(s[i]) < 0.0 then 0.0 else Mul(Present(s[i]), locked))
  }

  function RawPerp(p: seq<Option<real>>, locked: real): (r: seq<real>)
    ensures |r| == |p|
  {
    seq(|p|, i requires 0 <= i < |p| => Mul(Present(p[i]), locked))
  }

  function CapScale(gross: real, cap: real): real {
    if gross > cap && gross > 0.0 then cap / gross else 1.0
  }

  /** Cleaned signals at the locked risk, scaled down together when their gross exceeds the cap. */
  function BaseTargets(s: seq<Option<real>>, p: seq<Option<real>>, locked: real, cap: real, available: seq<bool>)
    : (t: (seq<real>, seq<real>))
    requires |s| == |available|
    ensures |t.0| == |s| && |t.1| == |p|
  {
    var spot, perp := RawSpot(s, available, locked), RawPerp(p, locked);
    var m := CapScale(Exposure(spot, perp), cap);
    (Scaled(spot, m), Scaled(perp, m))
  }

  lemma ExposureScaled(spot: seq<real>, perp: seq<real>, m: real)
    requires m >= 0.0
    ensures Exposure(Scaled(spot, m), Scaled(perp, m)) == Mul(Exposure(spot, perp), m)
  {
    hide Mul, Sum, Scaled, Magnitudes;
    SumScaled(spot, m);
    ScaledMagnitudes(perp, m);
    SumScaled(Magnitudes(perp), m);
    MulAdds(m, Sum(spot), Sum(Magnitudes(perp)));
    Commute(Sum(spot), m);
    Commute(Sum(Magnitudes(perp)), m);
    Commute(Exposure(spot, perp), m);
  }

  lemma CapScaleBounds(gross: real, cap: real)
    requires cap >= 0.0 && gross >= 0.0
    ensures 0.0 <= CapScale(gross, cap) <= 1.0 && Mul(gross, CapScale(gross, cap)) == Min(gross, cap)
  {
    if gross > cap {
      var m := cap / gross;
      assert m * gross == cap;
      if m < 0.0 { MulStrict(m, 0.0, gross); }
      if m > 1.0 { MulStrict(1.0, m, gross); }
    }
  }

  /** The gross of the base targets is the smaller of the signals' gross and the cap, and no spot weight is short. */
  lemma BaseWithinCap(s: seq<Option<real>>, p: seq<Option<real>>, locked: real, cap: real, available: seq<bool>)
    requires |s| == |available| && locked >= 0.0 && cap >= 0.0
    ensures var (spot, perp) := BaseTargets(s, p, locked, cap, available);
            && Exposure(spot, perp) == Min(Exposure(RawSpot(s, available, locked), RawPerp(p, locked)), cap)
            && forall i | 0 <= i < |spot| :: spot[i] >= 0.0 && (!available[i] ==> spot[i] == 0.0)
  {
    var raw, perp := RawSpot(s, available, locked), RawPerp(p, locked);
    var m := CapScale(Exposure(raw, perp), cap);
    RawNonnegative(s, available, locked);
    SumNonnegative(raw);
    SumNonnegative(Magnitudes(perp));
    CapScaleBounds(Exposure(raw, perp), cap);
    ExposureScaled(raw, perp, m);
    forall i | 0 <= i < |raw|
      ensures Mul(raw[i], m) >= 0.0 && (!available[i] ==> Mul(raw[i], m) == 0.0)
    {
      MulMono(0.0, raw[i], m);
    }
  }

  lemma RawNonnegative(s: seq<Option<real>>, available: seq<bool>, locked: real)
    requires |s| == |available| && locked >= 0.0
    ensures forall i | 0 <= i < |s| :: RawSpot(s, available, locked)[i] >= 0.0
  {
    forall i | 0 <= i < |s|
      ensures RawSpot(s, available, locked)[i] >= 0.0
    {
      if Present(s[i]) >= 0.0 {
        MulMono(0.0, Present(s[i]), locked);
      }
    }
  }

  // ---------------------------------------------------------------- carry

  function Cleaned(c: seq<Option<real>>): (r: seq<real>)
    ensures |r| == |c| && forall i | 0 <= i < |r| :: r[i] >= 0.0
  {
    seq(|c|, i requires 0 <= i < |c| => Max(Present(c[i]), 0.0))
  }

  ghost predicate Pairs(pairTo: seq<nat>, n: nat) {
    forall k | 0 <= k < |pairTo| :: pairTo[k] < n
  }

  /** Spot legs of the first k carries at a scale; several carries may share a spot. */
  function SpotLegs(c: seq<real>, pairTo: seq<nat>, a: real, n: nat, k: nat): (r: seq<real>)
    requires k <= |c| == |pairTo| && Pairs(pairTo, n)
    ensures |r| == n
  {
    if k == 0 then seq(n, _ => 0.0)
    else
      var before := SpotLegs(c, pairTo, a, n, k - 1);
      var j := pairTo[k - 1];
      before[j := before[j] + Mul(a, c[k - 1])]
  }

  /** Perpetual legs: the same sizes, short. */
  function PerpLegs(c: seq<real>, a: real): (r: seq<real>)
    ensures |r| == |c|
  {
    seq(|c|, k requires 0 <= k < |c| => -Mul(a, c[k]))
  }

  datatype Combination = Combination(spot: seq<real>, perp: seq<real>, spotLegs: seq<real>, perpLegs: seq<real>,
                                     gross: real)

  function Combine(bs: seq<real>, bp: seq<real>, c: seq<real>, pairTo: seq<nat>, a: real): Combination
    requires |bp| == |c| == |pairTo| && Pairs(pairTo, |bs|)
  {
    var cs, cp := SpotLegs(c, pairTo, a, |bs|, |c|), PerpLegs(c, a);
    var ts, tp := Plus(bs, cs), Plus(bp, cp);
    Combination(ts, tp, cs, cp, Exposure(ts, tp))
  }

  function Gross(bs: seq<real>, bp: seq<real>, c: seq<real>, pairTo: seq<nat>, a: real): real
    requires |bp| == |c| == |pairTo| && Pairs(pairTo, |bs|)
  {
    Combine(bs, bp, c, pairTo, a).gross
  }

  lemma {:induction false} LegsSum(c: seq<real>, pairTo: seq<nat>, a: real, n: nat, k: nat)
    requires k <= |c| == |pairTo| && Pairs(pairTo, n)
    ensures Sum(SpotLegs(c, pairTo, a, n, k)) == Mul(a, Sum(c[..k]))
  {
    hide Mul;
    if k == 0 {
      ZeroSum(n);
      assert Mul(a, 0.0) == 0.0 by { MulAdds(a, 0.0, 0.0); }
    } else {
      LegsSum(c, pairTo, a, n, k - 1);
      var before := SpotLegs(c, pairTo, a, n, k - 1);
      SumUpdate(before, pairTo[k - 1], before[pairTo[k - 1]] + Mul(a, c[k - 1]));
      assert c[..k][..k - 1] == c[..k - 1];
      MulAdds(a, Sum(c[..k - 1]), c[k - 1]);
    }
  }

  lemma {:induction false} ZeroSum(n: nat)
    ensures Sum(seq(n, _ => 0.0)) == 0.0
  {
    if n > 0 {
      ZeroSum(n - 1);
      assert (seq(n, _ => 0.0))[..n - 1] == seq(n - 1, _ => 0.0);
    }
  }

  lemma {:induction false} PerpLegsSum(c: seq<real>, a: real)
    ensures Sum(PerpLegs(c, a)) == -Mul(a, Sum(c))
  {
    if c != [] {
      var n := |c| - 1;
      PerpLegsSum(c[..n], a);
      assert PerpLegs(c, a)[..n] == PerpLegs(c[..n], a);
      Distribute(Sum(c[..n]), c[n], a);
    }
  }

  /** The carry adds no direction: what it buys in spot it sells in perpetuals. */
  lemma CarryNeutral(bs: seq<real>, bp: seq<real>, c: seq<real>, pairTo: seq<nat>, a: real)
    requires |bp| == |c| == |pairTo| && Pairs(pairTo, |bs|)
    ensures var t := Combine(bs, bp, c, pairTo, a);
            Sum(t.spot) + Sum(t.perp) == Sum(bs) + Sum(bp)
  {
    assert c[..|c|] == c;
    LegsSum(c, pairTo, a, |bs|, |c|);
    PerpLegsSum(c, a);
    SumPlus(bs, SpotLegs(c, pairTo, a, |bs|, |c|));
    SumPlus(bp, PerpLegs(c, a));
  }

  /** Gross of the perpetual side after the carry. */
  function PerpGross(bp: seq<real>, c: seq<real>, a: real): real
    requires |bp| == |c|
  {
    if bp == [] then 0.0
    else
      var n := |bp| - 1;
      PerpGross(bp[..n], c[..n], a) + Abs(bp[n] - Mul(a, c[n]))
  }

  lemma {:induction false} PerpGrossSum(bp: seq<real>, c: seq<real>, a: real)
    requires |bp| == |c|
    ensures Sum(Magnitudes(Plus(bp, PerpLegs(c, a)))) == PerpGross(bp, c, a)
  {
    if bp != [] {
      var n := |bp| - 1;
      PerpGrossSum(bp[..n], c[..n], a);
      assert Magnitudes(Plus(bp, PerpLegs(c, a)))[..n] == Magnitudes(Plus(bp[..n], PerpLegs(c[..n], a)));
    }
  }

  lemma GrossForm(bs: seq<real>, bp: seq<real>, c: seq<real>, pairTo: seq<nat>, a: real)
    requires |bp| == |c| == |pairTo| && Pairs(pairTo, |bs|)
    ensures Gross(bs, bp, c, pairTo, a) == Sum(bs) + Mul(a, Sum(c)) + PerpGross(bp, c, a)
  {
    assert c[..|c|] == c;
    LegsSum(c, pairTo, a, |bs|, |c|);
    SumPlus(bs, SpotLegs(c, pairTo, a, |bs|, |c|));
    PerpGrossSum(bp, c, a);
  }

  /** The point a fraction t of the way from x to y. */
  function Between(x: real, y: real, t: real): real {
    Mul(1.0 - t, x) + Mul(t, y)
  }

  lemma AbsConvex(p: real, q: real, x: real, y: real, t: real)
    requires 0.0 <= t <= 1.0
    ensures Abs(p - Mul(Between(x, y, t), q)) <= Between(Abs(p - Mul(x, q)), Abs(p - Mul(y, q)), t)
  {
    hide Between, Mul, Abs;
    Affine(p, q, x, y, t);
    AbsBetween(p - Mul(x, q), p - Mul(y, q), t);
  }

  lemma AbsBetween(u: real, v: real, t: real)
    requires 0.0 <= t <= 1.0
    ensures Abs(Between(u, v, t)) <= Between(Abs(u), Abs(v), t)
  {
    hide Mul, Abs;
    AbsScaled(u, 1.0 - t);
    AbsScaled(v, t);
    Commute(u, 1.0 - t);
    Commute(v, t);
    Commute(Abs(u), 1.0 - t);
    Commute(Abs(v), t);
    Triangle(Mul(u, 1.0 - t), Mul(v, t));
  }

  lemma Commute(x: real, y: real)
    ensures Mul(x, y) == Mul(y, x)
  {
  }

  lemma Triangle(x: real, y: real)
    ensures Abs(x + y) <= Abs(x) + Abs(y)
  {
  }

  lemma Affine(p: real, q: real, x: real, y: real, t: real)
    ensures p - Mul(Between(x, y, t), q) == Between(p - Mul(x, q), p - Mul(y, q), t)
  {
  }

  lemma BetweenAdds(a: real, b: real, x: real, y: real, t: real)
    ensures Between(a + x, b + y, t) == Between(a, b, t) + Between(x, y, t)
    ensures Between(a, a, t) == a
    ensures Between(Mul(x, a), Mul(y, a), t) == Mul(Between(x, y, t), a)
  {
  }

  lemma {:induction false} PerpConvex(bp: seq<real>, c: seq<real>, x: real, y: real, t: real)
    requires |bp| == |c| && 0.0 <= t <= 1.0
    ensures PerpGross(bp, c, Between(x, y, t)) <= Between(PerpGross(bp, c, x), PerpGross(bp, c, y), t)
  {
    hide Between, Abs, Mul;
    if bp == [] {
      BetweenAdds(0.0, 0.0, 0.0, 0.0, t);
    } else {
      var n := |bp| - 1;
      PerpConvex(bp[..n], c[..n], x, y, t);
      AbsConvex(bp[n], c[n], x, y, t);
      BetweenAdds(PerpGross(bp[..n], c[..n], x), PerpGross(bp[..n], c[..n], y),
                  Abs(bp[n] - Mul(x, c[n])), Abs(bp[n] - Mul(y, c[n])), t);
    }
  }

  /** The combined gross is a convex function of the carry scale. */
  lemma GrossConvex(bs: seq<real>, bp: seq<real>, c: seq<real>, pairTo: seq<nat>, x: real, y: real, t: real)
    requires |bp| == |c| == |pairTo| && Pairs(pairTo, |bs|) && 0.0 <= t <= 1.0
    ensures Gross(bs, bp, c, pairTo, Between(x, y, t))
            <= Between(Gross(bs, bp, c, pairTo, x), Gross(bs, bp, c, pairTo, y), t)
  {
    hide Between, Mul, Gross, Sum, PerpGross;
    GrossForm(bs, bp, c, pairTo, x);
    GrossForm(bs, bp, c, pairTo, y);
    GrossForm(bs, bp, c, pairTo, Between(x, y, t));
    PerpConvex(bp, c, x, y, t);
    BetweenAdds(Sum(bs), Sum(bs), Mul(x, Sum(c)), Mul(y, Sum(c)), t);
    BetweenAdds(Sum(c), Sum(c), x, y, t);
    BetweenAdds(Sum(bs) + Mul(x, Sum(c)), Sum(bs) + Mul(y, Sum(c)), PerpGross(bp, c, x), PerpGross(bp, c, y), t);
  }

  lemma BetweenBelow(g: real, h: real, cap: real, t: real)
    requires g <= cap && h <= cap && 0.0 <= t <= 1.0
    ensures Between(g, h, t) <= cap
  {
    var u := 1.0 - t;
    MulMono(g, cap, u);
    MulMono(h, cap, t);
    Distribute(u, t, cap);
    assert Mul(u, g) <= u * cap && Mul(t, h) <= t * cap;
    assert u * cap + t * cap == (u + t) * cap;
    assert u + t == 1.0;
  }

  lemma FractionOf(b: real, a: real) returns (t: real)
    requires 0.0 <= b <= a && a > 0.0
    ensures 0.0 <= t <= 1.0 && Between(0.0, a, t) == b
  {
    t := b / a;
    assert t * a == b;
    if t < 0.0 { MulStrict(t, 0.0, a); }
    if t > 1.0 { MulStrict(1.0, t, a); }
  }

  /** Within the cap at zero and at a scale, the gross is within it at every scale between. */
  lemma WithinCapBelow(bs: seq<real>, bp: seq<real>, c: seq<real>, pairTo: seq<nat>, cap: real, a: real, b: real)
    requires |bp| == |c| == |pairTo| && Pairs(pairTo, |bs|) && 0.0 <= b <= a
    requires Gross(bs, bp, c, pairTo, 0.0) <= cap && Gross(bs, bp, c, pairTo, a) <= cap
    ensures Gross(bs, bp, c, pairTo, b) <= cap
  {
    hide Gross, Between;
    if a > 0.0 {
      var t := FractionOf(b, a);
      GrossConvex(bs, bp, c, pairTo, 0.0, a, t);
      BetweenBelow(Gross(bs, bp, c, pairTo, 0.0), Gross(bs, bp, c, pairTo, a), cap, t);
    }
  }

  lemma GrossAtZero(bs: seq<real>, bp: seq<real>, c: seq<real>, pairTo: seq<nat>)
    requires |bp| == |c| == |pairTo| && Pairs(pairTo, |bs|)
    ensures Gross(bs, bp, c, pairTo, 0.0) == Exposure(bs, bp)
  {
    assert c[..|c|] == c;
    LegsSum(c, pairTo, 0.0, |bs|, |c|);
    SumPlus(bs, SpotLegs(c, pairTo, 0.0, |bs|, |c|));
    assert Plus(bp, PerpLegs(c, 0.0)) == bp;
  }

  /** Two to the power of minus n. */
  function HalfPower(n: nat): real {
    if n == 0 then 1.0 else HalfPower(n - 1) / 2.0
  }

  /** The legs at a scale, filled in one pair at a time. */
  method Combo(bs: seq<real>, bp: seq<real>, c: seq<real>, pairTo: seq<nat>, a: real) returns (t: Combination)
    requires |bp| == |c| == |pairTo| && Pairs(pairTo, |bs|)
    ensures t == Combine(bs, bp, c, pairTo, a)
  {
    var cs := new real[|bs|](_ => 0.0);
    assert cs[..] == seq(|bs|, _ => 0.0);
    for k := 0 to |pairTo|
      invariant cs[..] == SpotLegs(c, pairTo, a, |bs|, k)
    {
      var j := pairTo[k];
      cs[j] := cs[j] + Mul(a, c[k]);
    }
    var cp := PerpLegs(c, a);
    var ts, tp := Plus(bs, cs[..]), Plus(bp, cp);
    t := Combination(ts, tp, cs[..], cp, Exposure(ts, tp));
  }

  /** Adds the carry at the full scale if the cap allows it, else at a scale found in 45 halvings. */
  method AddCarry(bs: seq<real>, bp: seq<real>, signal: seq<Option<real>>, pairTo: seq<nat>, cap: real)
    returns (t: Combination, scale: real)
    requires |bp| == |signal| == |pairTo| && Pairs(pairTo, |bs|)
    ensures 0.0 <= scale <= 1.0 && t == Combine(bs, bp, Cleaned(signal), pairTo, scale)
    ensures Gross(bs, bp, Cleaned(signal), pairTo, 1.0) <= cap ==> scale == 1.0
    ensures t.gross <= cap <==> scale > 0.0 || Exposure(bs, bp) <= cap
    ensures Exposure(bs, bp) <= cap ==>
              forall b | 0.0 <= b <= 1.0 && Gross(bs, bp, Cleaned(signal), pairTo, b) <= cap :: b < scale + HalfPower(45)
  {
    var c := Cleaned(signal);
    hide Cleaned, Combine, Exposure;
    t := Combo(bs, bp, c, pairTo, 1.0);
    assert t.gross == Gross(bs, bp, c, pairTo, 1.0);
    HalfPowerPositive(45);
    if t.gross <= cap {
      return t, 1.0;
    }
    GrossAtZero(bs, bp, c, pairTo);
    var lo, hi := 0.0, 1.0;
    for i := 0 to 45
      invariant 0.0 <= lo < hi <= 1.0 && hi - lo == HalfPower(i)
      invariant Gross(bs, bp, c, pairTo, hi) > cap
      invariant lo > 0.0 ==> Gross(bs, bp, c, pairTo, lo) <= cap
    {
      var mid := (lo + hi) / 2.0;
      t := Combo(bs, bp, c, pairTo, mid);
      assert t.gross == Gross(bs, bp, c, pairTo, mid);
      if t.gross <= cap { lo := mid; } else { hi := mid; }
    }
    t := Combo(bs, bp, c, pairTo, lo);
    assert t.gross == Gross(bs, bp, c, pairTo, lo);
    scale := lo;
    if Exposure(bs, bp) <= cap {
      forall b | 0.0 <= b <= 1.0 && Gross(bs, bp, c, pairTo, b) <= cap
        ensures b < hi
      {
        if b >= hi {
          WithinCapBelow(bs, bp, c, pairTo, cap, b, hi);
        }
      }
    }
  }

  lemma {:induction false} HalfPowerPositive(n: nat)
    ensures HalfPower(n) > 0.0
  {
    if n > 0 {
      HalfPowerPositive(n - 1);
    }
  }

  /** The day's targets: cleaned, capped, and with as much carry as the cap leaves room for. */
  method CombinedTargets(s: seq<Option<real>>, p: seq<Option<real>>, carry: seq<Option<real>>, pairTo: seq<nat>,
                         locked: real, cap: real, available: seq<bool>) returns (t: Combination, scale: real)
    requires |s| == |available| && |p| == |carry| == |pairTo| && Pairs(pairTo, |s|) && locked >= 0.0 && cap >= 0.0
    ensures t.gross == Exposure(t.spot, t.perp) <= cap && 0.0 <= scale <= 1.0
    ensures var (bs, bp) := BaseTargets(s, p, locked, cap, available);
            && t == Combine(bs, bp, Cleaned(carry), pairTo, scale)
            && forall b | 0.0 <= b <= 1.0 && Gross(bs, bp, Cleaned(carry), pairTo, b) <= cap :: b < scale + HalfPower(45)
  {
    BaseWithinCap(s, p, locked, cap, available);
    var (bs, bp) := BaseTargets(s, p, locked, cap, available);
    hide BaseTargets, Exposure;
    t, scale := AddCarry(bs, bp, carry, pairTo, cap);
  }

  // ---------------------------------------------------------------- the locked-cash constraint

  /** What the constraint reads: targets and holdings as fractions of equity, costs and reserves. */
  datatype Order = Order(spot: seq<real>, perp: seq<real>, heldSpot: seq<real>, heldPerp: seq<real>, equity: real,
                         locked: real, cost: real, reserve: real, margin: real)
  {
    predicate Shaped() {
      |spot| == |heldSpot| && |perp| == |heldPerp|
    }
  }

  function Turnover(o: Order, a: real): real
    requires o.Shaped()
  {
    Sum(Magnitudes(Minus(Scaled(o.spot, a), o.heldSpot))) + Sum(Magnitudes(Minus(Scaled(o.perp, a), o.heldPerp)))
  }

  function TradeCost(o: Order, a: real): real
    requires o.Shaped()
  {
    o.equity * Turnover(o, a) * o.cost
  }

  function After(o: Order, a: real): real
    requires o.Shaped()
  {
    Max(0.0, o.equity - TradeCost(o, a))
  }

  /** Cash the scaled targets tie up, per unit of equity. */
  function Tied(o: Order, a: real): real {
    Sum(Scaled(o.spot, a)) + o.margin * Sum(Magnitudes(Scaled(o.perp, a))) + o.reserve
  }

  const SLACK := 0.000000001

  predicate Fits(o: Order, a: real)
    requires o.Shaped()
  {
    o.locked + Mul(After(o, a), Tied(o, a)) <= After(o, a) + SLACK
  }

  /** Neither the full scale nor any of its first n halvings fits. */
  ghost predicate NoHalvingFits(o: Order, n: nat)
    requires o.Shaped()
  {
    forall i | 0 <= i <= n :: !Fits(o, HalfPower(i))
  }

  /**
   The full scale if it fits, else the last fitting midpoint of 45 halvings. The cost and equity returned are
   those of the scale returned; it fits exactly when it is positive or scale zero fits; it is zero exactly when
   neither one nor any of its halvings fits; and just above it lies a scale that does not fit.
   */
  method Feasible(o: Order) returns (a: real, cost: real, after: real)
    requires o.Shaped()
    ensures 0.0 <= a <= 1.0 && cost == TradeCost(o, a) && after == After(o, a)
    ensures Fits(o, 1.0) ==> a == 1.0
    ensures Fits(o, a) <==> a > 0.0 || Fits(o, 0.0)
    ensures a == 0.0 <==> NoHalvingFits(o, 45)
    ensures a < 1.0 ==> exists b :: a < b <= a + HalfPower(45) && b <= 1.0 && !Fits(o, b)
  {
    hide TradeCost, Tied;
    if Fits(o, 1.0) {
      assert Fits(o, HalfPower(0));
      return 1.0, TradeCost(o, 1.0), After(o, 1.0);
    }
    var lo, hi := 0.0, 1.0;
    cost, after := TradeCost(o, 0.0), After(o, 0.0);
    for i := 0 to 45
      invariant 0.0 <= lo < hi <= 1.0 && hi - lo == HalfPower(i)
      invariant !Fits(o, hi) && (lo > 0.0 ==> Fits(o, lo)) && (lo == 0.0 <==> NoHalvingFits(o, i))
      invariant cost == TradeCost(o, lo) && after == After(o, lo)
    {
      var mid := (lo + hi) / 2.0;
      if Fits(o, mid) {
        lo := mid;
        cost, after := TradeCost(o, mid), After(o, mid);
      } else {
        hi := mid;
      }
    }
    a := lo;
  }
}
