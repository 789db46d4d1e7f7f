/** The conservative queue of a resting maker order, shared by both brokers. */
module MakerQueue {
  import opened Basics

  datatype Resting = Resting(queue: real, remaining: real)

  /** The part of a traded volume one order may claim. */
  function Share(volume: real, participation: real): real {
    volume * participation
  }

  /** Quantity one eligible print of size qty gives to the order. */
  function Fill(r: Resting, qty: real, participation: real, step: Positive): (fill: real)
    ensures fill > 0.0 ==> fill <= r.remaining
  {
    RoundDown(Min(Min(Max(0.0, qty - r.queue), Share(qty, participation)), r.remaining), step)
  }

  function Next(r: Resting, qty: real, participation: real, step: Positive): Resting
  {
    Resting(Max(0.0, r.queue - qty), Max(0.0, r.remaining - Fill(r, qty, participation, step)))
  }

  function After(r: Resting, prints: seq<real>, participation: real, step: Positive): Resting
  {
    if prints == [] then r
    else Next(After(r, prints[..|prints| - 1], participation, step), prints[|prints| - 1], participation, step)
  }

  function Filled(r: Resting, prints: seq<real>, participation: real, step: Positive): real
  {
    if prints == [] then 0.0
    else
      var before := prints[..|prints| - 1];
      Filled(r, before, participation, step)
      + Fill(After(r, before, participation, step), prints[|prints| - 1], participation, step)
  }

  function Volume(prints: seq<real>): real {
    if prints == [] then 0.0 else Volume(prints[..|prints| - 1]) + prints[|prints| - 1]
  }

  lemma WholeSum(a: real, b: real, step: Positive)
    requires Whole(a, step) && Whole(b, step)
    ensures Whole(a + b, step)
  {
    var m: int :| a == Times(m, step);
    var n: int :| b == Times(n, step);
    Distribute(m as real, n as real, step);
    assert a + b == Times(m + n, step);
  }

  lemma WholeBelowStep(x: real, step: Positive)
    requires Whole(x, step) && 0.0 <= x < step
    ensures x == 0.0
  {
    var n: int :| x == Times(n, step);
    if n >= 1 {
      MulMono(1.0, n as real, step);
    } else if n <= -1 {
      MulMono(n as real, -1.0, step);
    }
  }

  lemma FillStep(r: Resting, qty: real, participation: real, step: Positive)
    requires 0.0 < participation <= 1.0
    requires r.queue >= 0.0 && r.remaining >= 0.0 && qty > 0.0
    ensures 0.0 <= Fill(r, qty, participation, step) <= r.remaining
    ensures Fill(r, qty, participation, step) <= Share(qty, participation)
    ensures Fill(r, qty, participation, step) <= Max(0.0, qty - r.queue)
    ensures Whole(Fill(r, qty, participation, step), step)
  {
    assert Share(qty, participation) > 0.0;
  }

  lemma ShareAdds(a: real, b: real, participation: real)
    ensures Share(a + b, participation) == Share(a, participation) + Share(b, participation)
  {
    Distribute(a, b, participation);
  }

  lemma NothingFilled(participation: real, step: Positive)
    ensures Whole(0.0, step) && Share(0.0, participation) == 0.0
  {
    assert 0.0 == Times(0, step);
  }

  lemma PastQueue(filled: real, volume: real, queue: real, fill: real, qty: real)
    requires volume >= 0.0 && queue >= 0.0 && qty > 0.0
    requires filled <= Max(0.0, volume - queue)
    requires fill <= Max(0.0, qty - Max(0.0, queue - volume))
    ensures filled + fill <= Max(0.0, volume + qty - queue)
    ensures Max(0.0, Max(0.0, queue - volume) - qty) == Max(0.0, queue - (volume + qty))
  {
  }

  /**
   Whatever prints arrive, the order never gets more than its size, than its share of the
   traded volume, or than the volume that traded beyond the queue seen at activation; what it
   gets is a whole number of steps, and the unfilled remainder and queue are exact.
   */
  lemma {:induction false} MakerFillBound(r: Resting, prints: seq<real>, participation: real, step: Positive)
    requires 0.0 < participation <= 1.0
    requires r.queue >= 0.0 && r.remaining >= 0.0
    requires forall i | 0 <= i < |prints| :: prints[i] > 0.0
    ensures Volume(prints) >= 0.0
    ensures 0.0 <= Filled(r, prints, participation, step) <= r.remaining
    ensures Filled(r, prints, participation, step) <= Share(Volume(prints), participation)
    ensures Filled(r, prints, participation, step) <= Max(0.0, Volume(prints) - r.queue)
    ensures Whole(Filled(r, prints, participation, step), step)
    ensures After(r, prints, participation, step).remaining == r.remaining - Filled(r, prints, participation, step)
    ensures After(r, prints, participation, step).queue == Max(0.0, r.queue - Volume(prints))
  {
    hide Fill, Whole, Share;
    if prints == [] {
      NothingFilled(participation, step);
    } else {
      var n := |prints| - 1;
      MakerFillBound(r, prints[..n], participation, step);
      ShareAdds(Volume(prints[..n]), prints[n], participation);
      var before := After(r, prints[..n], participation, step);
      FillStep(before, prints[n], participation, step);
      WholeSum(Filled(r, prints[..n], participation, step), Fill(before, prints[n], participation, step), step);
      PastQueue(Filled(r, prints[..n], participation, step), Volume(prints[..n]), r.queue,
                Fill(before, prints[n], participation, step), prints[n]);
    }
  }
}
