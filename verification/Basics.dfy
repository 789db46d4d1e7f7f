/** Vocabulary shared by every component: options, trade sides and exact rounding to a step. */
module Basics {

  datatype Option<+T> = None | Some(value: T)

  /** The source writes a side as +1 or -1 and multiplies by it; Sign is that product. */
  datatype Side = Long | Short {
    function Opposite(): Side {
      if Long? then Short else Long
    }
  }

  type Positive = x: real | x > 0.0 witness 1.0
  type Size = x: real | x >= 0.0

  function Sign(side: Side, x: real): real {
    if side.Long? then x else -x
  }

  function Min(a: real, b: real): real {
    if a <= b then a else b
  }

  function Max(a: real, b: real): real {
    if a >= b then a else b
  }

  function Abs(a: real): real {
    if a >= 0.0 then a else -a
  }

  function Times(n: int, step: real): real {
    n as real * step
  }

  /** A product kept as one term, so that proofs that only add and compare it need not expand it. */
  function Mul(a: real, b: real): real {
    a * b
  }

  lemma MulPositive(a: real, b: real)
    requires a > 0.0 && b > 0.0
    ensures Mul(a, b) > 0.0
  {
  }

  ghost predicate Whole(q: real, step: real) {
    exists n: int :: q == Times(n, step)
  }

  /** Whole steps in a nonnegative quantity. */
  function Steps(q: real, step: Positive): (n: nat)
    requires q >= 0.0
    ensures Times(n, step) <= q < Times(n + 1, step)
  {
    StepBounds(q, step);
    (q / step).Floor
  }

  lemma StepBounds(q: real, step: real)
    requires q >= 0.0 && step > 0.0
    ensures (q / step).Floor >= 0
    ensures Times((q / step).Floor, step) <= q < Times((q / step).Floor + 1, step)
  {
    var x := q / step;
    assert x * step == q;
    assert x >= 0.0;
    ScaleBetween(x, x.Floor, step);
  }

  lemma ScaleBetween(x: real, n: int, step: real)
    requires n as real <= x < (n + 1) as real && step > 0.0
    ensures Times(n, step) <= x * step < Times(n + 1, step)
  {
    MulMono(n as real, x, step);
    MulStrict(x, (n + 1) as real, step);
  }

  lemma MulMono(a: real, b: real, c: real)
    requires a <= b && c >= 0.0
    ensures a * c <= b * c && c * a <= c * b
  {
  }

  lemma MulStrict(a: real, b: real, c: real)
    requires a < b && c > 0.0
    ensures a * c < b * c
  {
  }

  lemma PositiveProduct(a: real, b: real)
    requires a > 0.0 && b > 0.0
    ensures a * b > 0.0
  {
  }

  lemma Distribute(a: real, b: real, c: real)
    ensures (a + b) * c == a * c + b * c && c * (a + b) == c * a + c * b
    ensures (a - b) * c == a * c - b * c && c * (a - b) == c * a - c * b
  {
  }

  lemma MulAdds(a: real, x: real, y: real)
    ensures Mul(a, x + y) == Mul(a, x) + Mul(a, y)
  {
    Distribute(x, y, a);
  }

  lemma MulZero(x: real)
    ensures Mul(0.0, x) == 0.0 && Mul(x, 0.0) == 0.0
  {
  }

  lemma Fraction(x: Size, r: real)
    requires 0.0 <= r <= 1.0
    ensures 0.0 <= Mul(x, r) <= x && Mul(r, x) == Mul(x, r)
  {
    MulMono(0.0, r, x);
    MulMono(r, 1.0, x);
    assert x * r <= x * 1.0;
  }

  lemma Magnified(x: Size, r: real)
    requires r >= 1.0
    ensures Mul(x, r) >= x && Mul(r, x) == Mul(x, r)
  {
    MulMono(1.0, r, x);
    assert x * r >= x * 1.0;
  }

  lemma QuotientFits(qty: real, budget: real, unit: Positive)
    requires qty <= budget / unit
    ensures Mul(qty, unit) <= budget
  {
    MulMono(qty, budget / unit, unit);
    assert (budget / unit) * unit == budget;
  }

  lemma QuotientOrder(x: real, a: real, unit: Positive)
    ensures x >= a / unit <==> x * unit >= a
    ensures x <= a / unit <==> x * unit <= a
  {
    var q := a / unit;
    assert q * unit == a;
    if x >= q { MulMono(q, x, unit); } else { MulStrict(x, q, unit); }
    if x <= q { MulMono(x, q, unit); } else { MulStrict(q, x, unit); }
  }

  /** A fraction on the favourable side of a price, and on the other. */
  lemma Offset(side: Side, price: real, x: real)
    ensures price * (1.0 + Sign(side, x)) == if side.Long? then price * (1.0 + x) else price * (1.0 - x)
    ensures price * (1.0 - Sign(side, x)) == if side.Long? then price * (1.0 - x) else price * (1.0 + x)
  {
  }

  lemma FitsQuotient(qty: real, budget: real, unit: Positive)
    requires qty * unit <= budget
    ensures qty <= budget / unit
  {
    var most := budget / unit;
    assert most * unit == budget;
    if qty > most {
      MulStrict(most, qty, unit);
    }
  }

  /** round_step with ROUND_DOWN: toward zero, to a whole number of steps. */
  function RoundDown(q: real, step: Positive): (r: real)
    ensures q >= 0.0 ==> 0.0 <= r <= q < r + step
    ensures q < 0.0 ==> r <= 0.0
    ensures Whole(r, step)
  {
    if q >= 0.0 then
      var n := Steps(q, step);
      Distribute(n as real, 1.0, step);
      Times(n, step)
    else
      var n: int := Steps(-q, step);
      assert -Times(n, step) == Times(-n, step);
      -Times(n, step)
  }

  /** Nothing in whole steps lies between a nonnegative value and its rounding. */
  lemma RoundDownLargest(q: real, x: real, step: Positive)
    requires Whole(q, step) && q <= x && x >= 0.0
    ensures q <= RoundDown(x, step)
  {
    hide Times, Steps, RoundDown;
    var n: int :| q == Times(n, step);
    var m := Steps(x, step);
    FewerSteps(n, m + 1, step);
    MoreSteps(n, m, step);
    RoundDownIs(x, step);
  }

  lemma RoundDownIs(x: real, step: Positive)
    requires x >= 0.0
    ensures RoundDown(x, step) == Times(Steps(x, step), step)
  {
    hide Steps, Times;
  }

  lemma MoreSteps(m: int, n: int, step: Positive)
    requires m <= n
    ensures Times(m, step) <= Times(n, step)
  {
    MulMono(m as real, n as real, step);
  }

  lemma NextStep(n: int, step: Positive)
    ensures Times(n + 1, step) == Times(n, step) + step
  {
    Distribute(n as real, 1.0, step);
  }

  lemma FewerSteps(n: int, m: int, step: Positive)
    requires Times(n, step) < Times(m, step)
    ensures n < m
  {
    if n >= m {
      MulMono(m as real, n as real, step);
    }
  }

  /** round_step with ROUND_UP, for the positive prices it is used on. */
  function RoundUp(q: Positive, step: Positive): (r: Positive)
    ensures r - step < q <= r
    ensures Whole(r, step)
  {
    var n := Steps(q, step);
    Distribute(n as real, 1.0, step);
    if Times(n, step) == q then Times(n, step) else Times(n + 1, step)
  }

  /** dict.get(key, 0.) */
  function At<K>(m: map<K, real>, k: K): real {
    if k in m then m[k] else 0.0
  }
}
