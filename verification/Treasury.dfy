/** The day's cash: releases, forced sales, the rebalance under locked cash, redemptions and sweeps. */
module Treasury {
  import opened Basics
  import opened Allocation

  /** A redemption still on its way, credited on its settlement day. */
  datatype Transit = Transit(day: int, amount: real)

  function TransitSum(p: seq<Transit>): real {
    if p == [] then 0.0 else TransitSum(p[..|p| - 1]) + p[|p| - 1].amount
  }

  /** Those not yet settled on a day, in order. */
  function Later(p: seq<Transit>, day: int): (r: seq<Transit>)
    ensures forall t | t in r :: t in p && t.day > day
  {
    if p == [] then []
    else
      var before := Later(p[..|p| - 1], day);
      if p[|p| - 1].day <= day then before else before + [p[|p| - 1]]
  }

  datatype CashPolicy = CashPolicy(reserve: Size, transferBps: Size, maxFraction: real, minFraction: real)

  /** Cost of moving an amount into or out of the treasury. */
  function TransferCost(policy: CashPolicy, amount: real): real {
    Mul(amount, policy.transferBps / 10000.0)
  }

  /** What a redemption down to a limit takes out. */
  function Redeemed(treasury: real, limit: real): real {
    Min(Max(0.0, treasury - limit), treasury)
  }

  /** One asset overnight: its value moves with the quotes, or is sold at a penalty when one is missing. */
  function OvernightGain(value: real, close: Option<Positive>, open: Option<Positive>, cost: real): real {
    if value <= 0.0 then 0.0
    else if close.Some? && open.Some? then Mul(value, open.value / close.value) - value
    else Max(0.0, value - Mul(value, Max(cost, 0.01))) - value
  }

  function OvernightGains(bs: seq<real>, cs: seq<real>, close: seq<Option<Positive>>, open: seq<Option<Positive>>,
                          cost: real, k: nat): real
    requires k <= |bs| == |cs| == |close| == |open|
  {
    if k == 0 then 0.0
    else
      OvernightGains(bs, cs, close, open, cost, k - 1)
      + OvernightGain(bs[k - 1] + cs[k - 1], close[k - 1], open[k - 1], cost)
  }

  /** Price change between two quotes; none when either is missing. */
  function Ratio(from: Option<Positive>, to: Option<Positive>): real {
    if from.Some? && to.Some? then to.value / from.value else 1.0
  }

  /** Profit of the first k perpetuals between two rows of quotes. */
  function PerpGains(bp: seq<real>, cp: seq<real>, from: seq<Option<Positive>>, to: seq<Option<Positive>>, k: nat): real
    requires k <= |bp| == |cp| == |from| == |to|
  {
    if k == 0 then 0.0
    else PerpGains(bp, cp, from, to, k - 1) + Mul(bp[k - 1] + cp[k - 1], Ratio(from[k - 1], to[k - 1]) - 1.0)
  }

  /** Funding of one pair: carry income is cut by the audit's haircut, or suppressed on entry; costs never are. */
  function PairFunding(b: real, c: real, rate: real, haircut: real, suppress: bool): real {
    var carry := -Mul(c, rate);
    -Mul(b, rate) + if suppress then Min(carry, 0.0) else if carry > 0.0 then Mul(carry, haircut) else carry
  }

  function FundingSum(bp: seq<real>, cp: seq<real>, rates: seq<real>, haircut: real, suppress: bool, k: nat): real
    requires k <= |bp| == |cp| == |rates|
  {
    if k == 0 then 0.0
    else
      FundingSum(bp, cp, rates, haircut, suppress, k - 1)
      + PairFunding(bp[k - 1], cp[k - 1], rates[k - 1], haircut, suppress)
  }

  /** No audit setting ever pays more funding than the positions really earn. */
  lemma {:induction false} AuditNeverFlatters(bp: seq<real>, cp: seq<real>, rates: seq<real>, haircut: real,
                                              suppress: bool, k: nat)
    requires k <= |bp| == |cp| == |rates| && 0.0 <= haircut <= 1.0
    ensures FundingSum(bp, cp, rates, haircut, suppress, k) <= FundingSum(bp, cp, rates, 1.0, false, k)
  {
    if k > 0 {
      AuditNeverFlatters(bp, cp, rates, haircut, suppress, k - 1);
      var carry := -Mul(cp[k - 1], rates[k - 1]);
      if carry > 0.0 {
        Fraction(carry, haircut);
        Magnified(carry, 1.0);
      }
    }
  }

  /** What the sweep into the treasury may take: liquid beyond the needs, up to the treasury's room. */
  function SweepSize(liquid: real, required: real, room: real): real {
    Min(Max(0.0, liquid - required), room)
  }

  /** The sweep happens only from positive liquid and only when it reaches the minimum. */
  function Swept(policy: CashPolicy, liquid: real, required: real, room: real, equity: real): real {
    var sweep := SweepSize(liquid, required, room);
    if liquid > 0.0 && sweep >= policy.minFraction * equity then sweep else 0.0
  }

  lemma {:induction false} TransitAppend(p: seq<Transit>, t: Transit)
    ensures TransitSum(p + [t]) == TransitSum(p) + t.amount
  {
    assert (p + [t])[..|p|] == p;
  }

  lemma NothingYet(day: int)
    ensures TransitSum([]) == 0.0 && Later([], day) == []
  {
  }

  lemma LaterStep(p: seq<Transit>, i: nat, day: int)
    requires i < |p|
    ensures TransitSum(p[..i + 1]) == TransitSum(p[..i]) + p[i].amount
    ensures Later(p[..i + 1], day) == Later(p[..i], day) + if p[i].day <= day then [] else [p[i]]
  {
    assert p[..i + 1][..i] == p[..i];
  }

  /** The cash constraint keeps the clamp on liquid from making money: at most the constraint's slack. */
  lemma NoMoneyMade(o: Order, a: real)
    requires o.Shaped() && Fits(o, a) && o.margin >= 0.0 && o.reserve >= 0.0
    ensures o.locked + Mul(After(o, a), Sum(Scaled(o.spot, a))) <= After(o, a) + SLACK
  {
    hide After;
    SumNonnegative(Magnitudes(Scaled(o.perp, a)));
    MulMono(0.0, Sum(Magnitudes(Scaled(o.perp, a))), o.margin);
    assert Sum(Scaled(o.spot, a)) <= Tied(o, a);
    assert After(o, a) >= 0.0 by { AfterSign(o, a); }
    hide Tied, Sum;
    MulMono(Sum(Scaled(o.spot, a)), Tied(o, a), After(o, a));
  }

  lemma AfterSign(o: Order, a: real)
    requires o.Shaped()
    ensures After(o, a) >= 0.0
  {
  }

  /** What the clamp on liquid adds: locked cash and spot beyond the equity left. */
  function Excess(o: Order, a: real): real
    requires o.Shaped()
  {
    Max(0.0, o.locked + Mul(After(o, a), Sum(Scaled(o.spot, a))) - After(o, a))
  }

  lemma NothingScaled(o: Order)
    requires o.Shaped()
    ensures Sum(Scaled(o.spot, 0.0)) == 0.0 && Sum(Magnitudes(Scaled(o.perp, 0.0))) == 0.0
  {
    hide Sum;
    SumScaled(o.spot, 0.0);
    ScaledMagnitudes(o.perp, 0.0);
    SumScaled(Magnitudes(o.perp), 0.0);
    MulZero(Sum(o.spot));
    MulZero(Sum(Magnitudes(o.perp)));
  }

  /**
   At the scale the halving returns, the clamp makes more than the tolerance exactly when neither one nor any of its
   halvings fits and locked cash exceeds what closing everything leaves; then not even scale zero fits, whatever the
   reserve.
   */
  lemma MoneyMadeExact(o: Order, a: Size)
    requires o.Shaped() && o.margin >= 0.0 && o.reserve >= 0.0
    requires (Fits(o, a) <==> a > 0.0 || Fits(o, 0.0)) && (a == 0.0 <==> NoHalvingFits(o, 45))
    ensures Excess(o, a) > SLACK <==> NoHalvingFits(o, 45) && o.locked > After(o, 0.0) + SLACK
    ensures o.locked > After(o, 0.0) + SLACK ==> !Fits(o, 0.0)
  {
    hide After, Sum, Magnitudes, Fits, NoHalvingFits;
    if Fits(o, a) {
      NoMoneyMade(o, a);
    }
    if Fits(o, 0.0) {
      NoMoneyMade(o, 0.0);
    }
    NothingScaled(o);
    MulZero(After(o, 0.0));
    AfterSign(o, 0.0);
  }

  lemma CostSign(o: Order, a: real)
    requires o.Shaped() && o.equity >= 0.0 && o.cost >= 0.0
    ensures TradeCost(o, a) >= 0.0
  {
    SumNonnegative(Magnitudes(Minus(Scaled(o.spot, a), o.heldSpot)));
    SumNonnegative(Magnitudes(Minus(Scaled(o.perp, a), o.heldPerp)));
    hide Turnover;
    assert Turnover(o, a) >= 0.0 by { TurnoverSign(o, a); }
    MulMono(0.0, Turnover(o, a), o.equity);
    MulMono(0.0, o.equity * Turnover(o, a), o.cost);
  }

  lemma TurnoverSign(o: Order, a: real)
    requires o.Shaped()
    ensures Turnover(o, a) >= 0.0
  {
    SumNonnegative(Magnitudes(Minus(Scaled(o.spot, a), o.heldSpot)));
    SumNonnegative(Magnitudes(Minus(Scaled(o.perp, a), o.heldPerp)));
  }

  /** With more locked than there is equity no scale fits, whatever the targets. */
  lemma LockedBeyondEquity(o: Order, a: Size)
    requires o.Shaped() && o.equity >= 0.0 && o.cost >= 0.0 && o.margin >= 0.0 && o.reserve >= 0.0
    requires o.locked > o.equity + SLACK && forall i | 0 <= i < |o.spot| :: o.spot[i] >= 0.0
    ensures !Fits(o, a) && After(o, a) <= o.equity
  {
    hide TradeCost, Fits, Sum, Magnitudes;
    CostSign(o, a);
    SpotSign(o, a);
    MulMono(0.0, Sum(Scaled(o.spot, a)), After(o, a));
    if Fits(o, a) {
      NoMoneyMade(o, a);
    }
  }

  lemma SpotSign(o: Order, a: Size)
    requires forall i | 0 <= i < |o.spot| :: o.spot[i] >= 0.0
    ensures Sum(Scaled(o.spot, a)) >= 0.0
  {
    SumNonnegative(o.spot);
    SumScaled(o.spot, a);
    MulMono(0.0, Sum(o.spot), a);
  }

  /** Without a treasury the cap alone keeps the clamp idle: capped targets never cost more than equity. */
  lemma CappedNeedsNoClamp(t: Combination, after: Size)
    requires t.gross == Exposure(t.spot, t.perp) <= 1.0
    ensures Mul(after, Sum(Scaled(t.spot, 1.0))) <= after
  {
    assert Scaled(t.spot, 1.0) == t.spot;
    SumNonnegative(Magnitudes(t.perp));
    MulMono(Sum(t.spot), 1.0, after);
    hide Sum;
  }

  class Fund {
    var bsv: seq<real>
    var csv: seq<real>
    var bpn: seq<real>
    var cpn: seq<real>
    var liquid: real
    var treasury: real
    var pending: seq<Transit>

    /** Spot holdings are long, nothing negative is in the treasury or on its way. */
    ghost predicate Valid()
      reads this
    {
      && |bsv| == |csv| && |bpn| == |cpn| && treasury >= 0.0
      && (forall i | 0 <= i < |bsv| :: bsv[i] >= 0.0 && csv[i] >= 0.0)
      && (forall t | t in pending :: t.amount >= 0.0)
    }

    function Spot(): real
      reads `bsv, `csv
      requires |bsv| == |csv|
    {
      Sum(Plus(bsv, csv))
    }

    /** Equity: liquid, treasury, money on its way and spot holdings. */
    function Total(): real
      reads this
      requires |bsv| == |csv|
    {
      liquid + treasury + TransitSum(pending) + Spot()
    }

    constructor (spots: nat, pairs: nat)
      ensures Valid() && Total() == 10000.0 && liquid == 10000.0 && treasury == 0.0 && pending == []
      ensures bsv == csv == seq(spots, _ => 0.0) && bpn == cpn == seq(pairs, _ => 0.0)
    {
      bsv, csv := seq(spots, _ => 0.0), seq(spots, _ => 0.0);
      bpn, cpn := seq(pairs, _ => 0.0), seq(pairs, _ => 0.0);
      liquid, treasury, pending := 10000.0, 0.0, [];
      new;
      SumPlus(bsv, csv);
      ZeroSum(spots);
    }

    /** Settled redemptions reach the liquid cash; equity does not move. */
    method Release(day: int)
      requires Valid()
      modifies `liquid, `pending
      ensures Valid() && Total() == old(Total())
      ensures pending == Later(old(pending), day)
    {
      hide Sum, TransitSum, Later;
      var keep: seq<Transit> := [];
      NothingYet(day);
      for i := 0 to |pending|
        invariant pending == old(pending)
        invariant keep == Later(pending[..i], day)
        invariant liquid + TransitSum(keep) == old(liquid) + TransitSum(pending[..i])
      {
        LaterStep(pending, i, day);
        if pending[i].day <= day {
          liquid := liquid + pending[i].amount;
        } else {
          TransitAppend(keep, pending[i]);
          keep := keep + [pending[i]];
        }
      }
      assert pending[..|pending|] == pending;
      pending := keep;
    }

    /** Spot holdings move to the new opens; an unquoted one is sold at a penalty. */
    method Overnight(close: seq<Option<Positive>>, open: seq<Option<Positive>>, cost: real)
      requires Valid() && |bsv| == |close| == |open|
      modifies `bsv, `csv, `liquid
      ensures Valid() && |bsv| == |open|
      ensures Total() == old(Total()) + OvernightGains(old(bsv), old(csv), close, open, cost, |open|)
      ensures forall j | 0 <= j < |open| && (close[j].None? || open[j].None?) :: bsv[j] == csv[j] == 0.0
    {
      hide Sum, Mul, TransitSum;
      var n := |open|;
      for j := 0 to n
        invariant Valid() && |bsv| == n
        invariant forall i | j <= i < n :: bsv[i] == old(bsv)[i] && csv[i] == old(csv)[i]
        invariant Total() == old(Total()) + OvernightGains(old(bsv), old(csv), close, open, cost, j)
        invariant forall i | 0 <= i < j && (close[i].None? || open[i].None?) :: bsv[i] == csv[i] == 0.0
      {
        Step(j, close[j], open[j], cost);
      }
    }

    method Step(j: nat, close: Option<Positive>, open: Option<Positive>, cost: real)
      requires Valid() && j < |bsv|
      modifies `bsv, `csv, `liquid
      ensures Valid() && |bsv| == old(|bsv|)
      ensures forall i | 0 <= i < |bsv| && i != j :: bsv[i] == old(bsv)[i] && csv[i] == old(csv)[i]
      ensures close.None? || open.None? ==> bsv[j] == csv[j] == 0.0
      ensures Total() == old(Total()) + OvernightGain(old(bsv)[j] + old(csv)[j], close, open, cost)
    {
      hide Sum, Plus, Mul, TransitSum;
      var value := bsv[j] + csv[j];
      if value > 0.0 {
        var b, s := 0.0, 0.0;
        if close.Some? && open.Some? {
          var r := open.value / close.value;
          Grown(bsv[j], csv[j], open.value, close.value);
          b, s := Mul(bsv[j], r), Mul(csv[j], r);
        } else {
          liquid := liquid + Max(0.0, value - Mul(value, Max(cost, 0.01)));
        }
        SumPlus(bsv, csv);
        SumUpdate(bsv, j, b);
        SumUpdate(csv, j, s);
        bsv, csv := bsv[j := b], csv[j := s];
        SumPlus(bsv, csv);
      }
    }

    /** Perpetuals move with the quotes and settle their profit into liquid. */
    method MarkPerps(from: seq<Option<Positive>>, to: seq<Option<Positive>>)
      requires Valid() && |bpn| == |from| == |to|
      modifies `bpn, `cpn, `liquid
      ensures Valid() && |bpn| == |to|
      ensures Total() == old(Total()) + PerpGains(old(bpn), old(cpn), from, to, |to|)
      ensures liquid == old(liquid) + PerpGains(old(bpn), old(cpn), from, to, |to|)
      ensures forall k | 0 <= k < |to| ::
                bpn[k] == Mul(old(bpn)[k], Ratio(from[k], to[k])) && cpn[k] == Mul(old(cpn)[k], Ratio(from[k], to[k]))
    {
      hide Sum, Mul, TransitSum, Ratio;
      var n := |to|;
      for k := 0 to n
        invariant |bpn| == |cpn| == n && liquid == old(liquid) + PerpGains(old(bpn), old(cpn), from, to, k)
        invariant forall i | k <= i < n :: bpn[i] == old(bpn)[i] && cpn[i] == old(cpn)[i]
        invariant forall i | 0 <= i < k ::
                    bpn[i] == Mul(old(bpn)[i], Ratio(from[i], to[i])) && cpn[i] == Mul(old(cpn)[i], Ratio(from[i], to[i]))
      {
        var r := Ratio(from[k], to[k]);
        liquid := liquid + Mul(bpn[k] + cpn[k], r - 1.0);
        bpn, cpn := bpn[k := Mul(bpn[k], r)], cpn[k := Mul(cpn[k], r)];
      }
    }

    /** One funding settlement of every pair, with the audit's treatment of carry income. */
    method PayFunding(rates: seq<real>, haircut: real, suppress: bool) returns (paid: real)
      requires Valid() && |bpn| == |rates|
      modifies `liquid
      ensures Valid() && Total() == old(Total()) + paid
      ensures paid == FundingSum(bpn, cpn, rates, haircut, suppress, |rates|)
    {
      hide Sum, TransitSum, PairFunding;
      paid := 0.0;
      for k := 0 to |rates|
        invariant paid == FundingSum(bpn, cpn, rates, haircut, suppress, k)
      {
        paid := paid + PairFunding(bpn[k], cpn[k], rates[k], haircut, suppress);
      }
      liquid := liquid + paid;
    }

    /** Takes the treasury down to a limit; what is left after the cost arrives on the settlement day. */
    method Redeem(policy: CashPolicy, limit: Size, settle: int) returns (paid: real)
      requires Valid() && policy.transferBps <= 10000.0
      modifies `treasury, `pending
      ensures Valid() && treasury == Min(old(treasury), limit)
      ensures paid == TransferCost(policy, Redeemed(old(treasury), limit)) && Total() == old(Total()) - paid
      ensures old(treasury) > limit ==>
                pending == old(pending) + [Transit(settle, Redeemed(old(treasury), limit) - paid)]
      ensures old(treasury) <= limit ==> pending == old(pending) && paid == 0.0
    {
      hide Sum, TransferCost;
      var req := Redeemed(treasury, limit);
      paid := TransferCost(policy, req);
      TransferCostBounds(policy, req);
      if req > 0.0 {
        TransitAppend(pending, Transit(settle, req - paid));
        pending := pending + [Transit(settle, req - paid)];
        treasury := treasury - req;
      }
    }

    /** Sets the holdings to the scaled targets; liquid is what is left, or nothing. */
    method Rebalance(bs: seq<real>, cs: seq<real>, bp: seq<real>, cp: seq<real>, scale: Size, after: Size)
      requires Valid() && |bs| == |cs| == |bsv| && |bp| == |cp| == |bpn|
      requires forall i | 0 <= i < |bs| :: bs[i] >= 0.0 && cs[i] >= 0.0
      modifies `bsv, `csv, `bpn, `cpn, `liquid
      ensures Valid() && |bsv| == |bs| && |bpn| == |bp|
      ensures bsv == Scaled(Scaled(bs, scale), after) && csv == Scaled(Scaled(cs, scale), after)
      ensures bpn == Scaled(Scaled(bp, scale), after) && cpn == Scaled(Scaled(cp, scale), after)
      ensures Spot() == Mul(after, Sum(Scaled(Plus(bs, cs), scale)))
      ensures liquid >= 0.0 && Total() == Max(after, treasury + TransitSum(pending) + Spot())
    {
      hide Sum;
      ScaledSigns(bs, scale, after);
      ScaledSigns(cs, scale, after);
      bsv, csv := Scaled(Scaled(bs, scale), after), Scaled(Scaled(cs, scale), after);
      bpn, cpn := Scaled(Scaled(bp, scale), after), Scaled(Scaled(cp, scale), after);
      SpotValue(bs, cs, scale, after);
      liquid := Max(0.0, after - treasury - TransitSum(pending) - Sum(Plus(bsv, csv)));
    }

    /** Moves idle liquid into the treasury, never below the needs nor beyond the treasury's share. */
    method Sweep(policy: CashPolicy, equity: real, required: real) returns (paid: real)
      requires Valid() && policy.transferBps <= 10000.0
      requires equity >= 0.0 && policy.minFraction >= 0.0
      modifies `liquid, `treasury
      ensures Valid() && Total() == old(Total()) - paid && paid >= 0.0
      ensures liquid >= Min(old(liquid), required)
      ensures treasury <= Max(old(treasury), policy.maxFraction * equity)
      ensures liquid != old(liquid) ==> old(liquid) - liquid >= policy.minFraction * equity
      ensures paid == TransferCost(policy, old(liquid) - liquid) && treasury == old(treasury) + old(liquid) - liquid - paid
      ensures old(liquid) - liquid
           == Swept(policy, old(liquid), required, Max(0.0, policy.maxFraction * equity - old(treasury)), equity)
    {
      hide Sum, TransitSum, TransferCost;
      var room := Max(0.0, policy.maxFraction * equity - treasury);
      var sweep := SweepSize(liquid, required, room);
      paid := 0.0;
      MulMono(0.0, policy.minFraction, equity);
      TransferCostBounds(policy, Max(0.0, sweep));
      if liquid > 0.0 && sweep >= policy.minFraction * equity {
        paid := TransferCost(policy, sweep);
        liquid := liquid - sweep;
        treasury := treasury + (sweep - paid);
      }
    }

    /** The constraint as it stands now: targets against holdings as fractions of equity. */
    function OrderNow(t: Combination, policy: CashPolicy, cost: real, margin: real): (o: Order)
      requires Valid() && Total() > 0.0 && |t.spot| == |bsv| && |t.perp| == |bpn|
      reads this
      ensures o.Shaped()
    {
      var eq := Total();
      Order(t.spot, t.perp, Scaled(Plus(bsv, csv), 1.0 / eq), Scaled(Plus(bpn, cpn), 1.0 / eq), eq,
            treasury + TransitSum(pending), cost, policy.reserve, margin)
    }

    /** What the treasury may keep if the targets were bought in full. */
    function TreasuryLimit(o: Order): Size
      requires o.Shaped()
    {
      Max(0.0, Mul(Max(0.0, o.equity - TradeCost(o, 1.0)),
                   1.0 - o.reserve - Sum(o.spot) - o.margin * Sum(Magnitudes(o.perp))))
    }

    /**
     One allocation: the largest scale the halving finds, a redemption first if the treasury is in the way, then
     the rebalance. Equity falls by exactly the trading and transfer costs, but for what the two clamps add; the one
     on liquid adds more than the tolerance exactly when no halving fits and locked cash exceeds what is left.
     */
    method Allocate(bs: seq<real>, bp: seq<real>, t: Combination, policy: CashPolicy, cost: real, margin: Size,
                    settle: int) returns (o: Order, scale: Size, paid: real)
      requires Valid() && Total() > 0.0 && policy.transferBps <= 10000.0
      requires |bs| == |t.spotLegs| == |bsv| && |bp| == |t.perpLegs| == |bpn|
      requires t.spot == Plus(bs, t.spotLegs) && t.perp == Plus(bp, t.perpLegs)
      requires forall i | 0 <= i < |bs| :: bs[i] >= 0.0 && t.spotLegs[i] >= 0.0
      modifies this
      ensures Valid() && o.Shaped() && |bsv| == |bs| && |bpn| == |bp|
      ensures o == old(OrderNow(t, policy, cost, margin)).(equity := old(Total()) - paid,
                                                           locked := treasury + TransitSum(pending))
      ensures treasury <= old(treasury) && paid == TransferCost(policy, old(treasury) - treasury)
      ensures o.locked == old(treasury + TransitSum(pending)) - paid
      ensures treasury == old(treasury) ==> pending == old(pending)
      ensures scale <= 1.0 && (Fits(o, scale) <==> scale > 0.0 || Fits(o, 0.0))
      ensures bsv == Scaled(Scaled(bs, scale), After(o, scale)) && csv == Scaled(Scaled(t.spotLegs, scale), After(o, scale))
      ensures bpn == Scaled(Scaled(bp, scale), After(o, scale)) && cpn == Scaled(Scaled(t.perpLegs, scale), After(o, scale))
      ensures Fits(old(OrderNow(t, policy, cost, margin)), 1.0) ==> scale == 1.0 && treasury == old(treasury)
      ensures treasury == old(treasury) || treasury == TreasuryLimit(old(OrderNow(t, policy, cost, margin)))
      ensures Spot() == Mul(After(o, scale), Sum(Scaled(t.spot, scale)))
      ensures Total() == Max(After(o, scale), o.locked + Spot())
      ensures Total() == old(Total()) - paid - TradeCost(o, scale) + Max(0.0, TradeCost(o, scale) - o.equity)
                         + Excess(o, scale)
      ensures scale == 0.0 <==> NoHalvingFits(o, 45)
      ensures Excess(o, scale) > SLACK <==> NoHalvingFits(o, 45) && o.locked > After(o, 0.0) + SLACK
      ensures Fits(o, 0.0) ==> After(o, scale) <= Total() <= After(o, scale) + SLACK
      ensures Fits(o, 0.0) && TradeCost(o, scale) <= o.equity ==>
                0.0 <= Total() - (old(Total()) - paid - TradeCost(o, scale)) <= SLACK
      ensures cost >= 0.0 && o.equity >= 0.0 && o.locked > o.equity + SLACK ==> scale == 0.0 && Total() == o.locked
    {
      hide Sum, TradeCost, Tied, Fits, TransitSum, TreasuryLimit, Redeemed, Mul, Plus, Scaled, TransferCost,
           After, Excess, NoHalvingFits;
      o := OrderNow(t, policy, cost, margin);
      var tc, after;
      scale, tc, after := Feasible(o);
      paid := 0.0;
      TransferCostBounds(policy, 0.0);
      if scale < 0.999999 && treasury > 0.0 {
        var before := treasury;
        paid := Redeem(policy, TreasuryLimit(o), settle);
        RedeemedIs(before, treasury, TreasuryLimit(o));
        if treasury < before {
          o := o.(equity := o.equity - paid, locked := treasury + TransitSum(pending));
          scale, tc, after := Feasible(o);
        }
      }
      AfterSign(o, scale);
      Rebalance(bs, t.spotLegs, bp, t.perpLegs, scale, after);
      MoneyMadeExact(o, scale);
      SettledTotal(o, scale, paid, Spot(), Total());
      if cost >= 0.0 && o.equity >= 0.0 && o.locked > o.equity + SLACK {
        assert forall i | 0 <= i < |o.spot| :: o.spot[i] >= 0.0 by { PlusSigns(bs, t.spotLegs); }
        LockedBeyondEquity(o, scale);
        NothingScaled(o);
        MulZero(After(o, 0.0));
        assert scale == 0.0;
        assert Spot() == 0.0;
      }
    }
  }

  lemma PlusSigns(u: seq<real>, v: seq<real>)
    requires |u| == |v| && forall i | 0 <= i < |u| :: u[i] >= 0.0 && v[i] >= 0.0
    ensures forall i | 0 <= i < |u| :: Plus(u, v)[i] >= 0.0
  {
  }

  /** The settled equity, from the equity before by every term that moved it. */
  lemma SettledTotal(o: Order, a: Size, paid: real, spot: real, total: real)
    requires o.Shaped() && o.margin >= 0.0 && o.reserve >= 0.0
    requires spot == Mul(After(o, a), Sum(Scaled(o.spot, a))) && total == Max(After(o, a), o.locked + spot)
    requires Fits(o, a) <==> a > 0.0 || Fits(o, 0.0)
    ensures total == o.equity - TradeCost(o, a) + Max(0.0, TradeCost(o, a) - o.equity) + Excess(o, a)
    ensures Fits(o, 0.0) ==> After(o, a) <= total <= After(o, a) + SLACK
    ensures Fits(o, 0.0) && TradeCost(o, a) <= o.equity ==> 0.0 <= total - (o.equity - TradeCost(o, a)) <= SLACK
  {
    hide TradeCost, Sum, Fits, Tied;
    if Fits(o, a) {
      NoMoneyMade(o, a);
    }
  }

  lemma Grown(b: Size, s: Size, open: Positive, close: Positive)
    ensures var r := open / close;
            Mul(b, r) >= 0.0 && Mul(s, r) >= 0.0 && Mul(b, r) + Mul(s, r) == Mul(b + s, r)
  {
    var r := open / close;
    RatioPositive(open, close);
    MulMono(0.0, b, r);
    MulMono(0.0, s, r);
    Distribute(b, s, r);
  }

  lemma RatioPositive(x: real, y: real)
    requires x > 0.0 && y > 0.0
    ensures x / y > 0.0
  {
    var r := x / y;
    assert r * y == x;
    if r <= 0.0 { MulMono(r, 0.0, y); }
  }

  lemma TransferCostBounds(policy: CashPolicy, amount: real)
    requires amount >= 0.0 && policy.transferBps <= 10000.0
    ensures 0.0 <= TransferCost(policy, amount) <= amount && TransferCost(policy, 0.0) == 0.0
  {
    Fraction(amount, policy.transferBps / 10000.0);
    Fraction(0.0, policy.transferBps / 10000.0);
  }

  lemma RedeemedIs(before: real, now: real, limit: real)
    requires before >= 0.0 && limit >= 0.0 && now == Min(before, limit)
    ensures Redeemed(before, limit) == before - now
  {
  }

  lemma ScaledSigns(v: seq<real>, m: real, k: real)
    requires m >= 0.0 && k >= 0.0 && forall i | 0 <= i < |v| :: v[i] >= 0.0
    ensures forall i | 0 <= i < |v| :: Scaled(Scaled(v, m), k)[i] >= 0.0
  {
    forall i | 0 <= i < |v|
      ensures Scaled(Scaled(v, m), k)[i] >= 0.0
    {
      MulMono(0.0, v[i], m);
      MulMono(0.0, Mul(v[i], m), k);
    }
  }

  lemma SpotValue(bs: seq<real>, cs: seq<real>, m: real, k: real)
    requires |bs| == |cs|
    ensures Sum(Plus(Scaled(Scaled(bs, m), k), Scaled(Scaled(cs, m), k))) == Mul(k, Sum(Scaled(Plus(bs, cs), m)))
  {
    SumPlus(Scaled(Scaled(bs, m), k), Scaled(Scaled(cs, m), k));
    SumScaled(Scaled(bs, m), k);
    SumScaled(Scaled(cs, m), k);
    SumScaled(bs, m);
    SumScaled(cs, m);
    SumScaled(Plus(bs, cs), m);
    SumPlus(bs, cs);
    hide Sum, Scaled, Plus;
    Factor(Sum(bs), Sum(cs), m, k);
  }

  lemma Factor(x: real, y: real, m: real, k: real)
    ensures Mul(Mul(x, m), k) + Mul(Mul(y, m), k) == Mul(k, Mul(x + y, m))
  {
  }

  // ---------------------------------------------------------------- a run in which the clamp makes money

  const FROZEN: CashPolicy := CashPolicy(0.12, 5.0, 0.6, 0.04)
  const HALF_SHORT: Combination := Combination([], [-0.5], [], [0.0], 0.5)

  lemma One(x: real)
    ensures Sum([x]) == x && Magnitudes([x]) == [Abs(x)] && Sum([]) == 0.0 && Magnitudes([]) == []
  {
    assert Sum([x]) == Sum([x][..0]) + x;
  }

  lemma HalfShortFits(o: Order)
    requires o.spot == [] && o.perp == [-0.5] && o.heldSpot == [] && o.heldPerp == [0.0]
    requires o.equity == 10000.0 && o.locked == 0.0 && o.cost == 0.004 && o.reserve == 0.12 && o.margin == 1.0
    ensures Fits(o, 1.0) && After(o, 1.0) == 9980.0
  {
    assert Scaled([-0.5], 1.0) == [-0.5] && Scaled([], 1.0) == [];
    assert Minus([-0.5], [0.0]) == [-0.5] && Minus([], []) == [];
    One(-0.5);
    One(0.5);
    assert Turnover(o, 1.0) == 0.5 && TradeCost(o, 1.0) == 20.0 && Tied(o, 1.0) == 0.62;
    hide Sum, Scaled;
  }

  lemma HalfShortHolds()
    ensures Scaled(Scaled([-0.5], 1.0), 9980.0) == [-4990.0] && Scaled(Scaled([0.0], 1.0), 9980.0) == [0.0]
    ensures Plus([], []) == [] && Scaled(Plus([0.0], [0.0]), 1.0 / 10000.0) == [0.0] && Scaled([], 1.0 / 10000.0) == []
    ensures Plus([-0.5], [0.0]) == [-0.5]
  {
  }

  /** A fund that has not traded yet, with one pair and no spot. */
  method Untouched() returns (f: Fund)
    ensures fresh(f) && f.Valid() && f.bsv == f.csv == [] && f.bpn == f.cpn == [0.0]
    ensures f.treasury == 0.0 && f.pending == [] && f.Total() == 10000.0
    ensures var o := f.OrderNow(HALF_SHORT, FROZEN, 0.004, 1.0); Fits(o, 1.0) && After(o, 1.0) == 9980.0
  {
    f := new Fund(0, 1);
    assert f.bsv == [] && f.bpn == [0.0];
    HalfShortHolds();
    hide Sum, Scaled, Plus, Magnitudes, After, Fits;
    assert TransitSum([]) == 0.0 by { NothingYet(0); }
    HalfShortFits(f.OrderNow(HALF_SHORT, FROZEN, 0.004, 1.0));
  }

  /** The first day under the frozen policy: half short. */
  method HalfShort() returns (f: Fund)
    ensures fresh(f) && f.Valid() && f.bsv == f.csv == [] && f.bpn == [-4990.0] && f.cpn == [0.0]
    ensures f.liquid == 9980.0 && f.treasury == 0.0 && f.Total() == 9980.0 && f.pending == []
  {
    f := Untouched();
    HalfShortHolds();
    One(0.0);
    hide Sum, Scaled, Plus, Magnitudes, After, Fits, Excess, TradeCost, Mul, TransitSum, TransferCost;
    var o, scale, paid := f.Allocate([], [-0.5], HALF_SHORT, FROZEN, 0.004, 1.0, 2);
    AllLiquid(f);
  }

  lemma AllLiquid(f: Fund)
    requires f.Valid() && f.bsv == f.csv == [] && f.treasury == 0.0 && f.pending == []
    ensures f.liquid == f.Total()
  {
  }

  /** Then the idle cash beyond reserve, margin and targets is swept, and the price rises by 130 percent. */
  method SweptAndLost() returns (f: Fund)
    ensures fresh(f) && f.Valid() && |f.bsv| == 0 && |f.bpn| == 1
    ensures f.treasury == 3770.55378 && f.pending == [] && f.Total() == 3491.11378
  {
    f := HalfShort();
    hide Sum, Scaled, Plus;
    var paid := f.Sweep(FROZEN, 9980.0, 6207.56);
    CostOfSweep();
    f.MarkPerps([Some(1.0)], [Some(2.3)]);
    SixtyFiveHundredLost();
  }

  lemma CostOfSweep()
    ensures Swept(FROZEN, 9980.0, 6207.56, 5988.0, 9980.0) == 3772.44 && TransferCost(FROZEN, 3772.44) == 1.88622
  {
  }

  lemma SixtyFiveHundredLost()
    ensures PerpGains([-4990.0], [0.0], [Some(1.0)], [Some(2.3)], 1) == -6487.0
  {
    assert Ratio(Some(1.0), Some(2.3)) == 2.3;
    assert Mul(-4990.0 + 0.0, 2.3 - 1.0) == -6487.0;
    assert PerpGains([-4990.0], [0.0], [Some(1.0)], [Some(2.3)], 0) == 0.0;
  }

  /**
   Money from nothing: the short has lost more than the liquid cash, so what is in the treasury exceeds equity, and
   the next allocation, after paying its costs, leaves the account worth more than before it.
   */
  method LossForgiven() returns (f: Fund, before: real)
    ensures fresh(f) && f.Valid() && f.Total() > before + 270.0
  {
    f := SweptAndLost();
    before := f.Total();
    hide Sum, Scaled, Plus, Magnitudes, After, Fits, Excess, TradeCost, Tied, Mul, TransitSum, TransferCost;
    HalfShortHolds();
    assert TransitSum([]) == 0.0 by { NothingYet(0); }
    var o, scale, paid := f.Allocate([], [-0.5], HALF_SHORT, FROZEN, 0.004, 1.0, 3);
    CostAtMost(f.treasury);
  }

  lemma CostAtMost(left: real)
    requires 0.0 <= left <= 3770.55378
    ensures 0.0 <= TransferCost(FROZEN, 3770.55378 - left) <= 2.0
  {
  }
}
