/** The venue's book: absolute quantities folded since the last snapshot, as a state and as an object. */
module OrderBook {
  import opened Basics
  import opened Market

  datatype Change = Change(price: Positive, qty: real)

  datatype Update = Update(sequence: int, update: int, snapshot: bool, bids: seq<Change>, asks: seq<Change>)

  datatype BookState = BookState(bids: map<Positive, real>, asks: map<Positive, real>, sequence: int, update: int,
                                 valid: bool)

  datatype Verdict = Applied | Duplicate | NoSnapshot | Reversed | Negative | Crossed

  function Empty(): BookState {
    BookState(map[], map[], -1, -1, false)
  }

  /** A zero quantity removes the price; any other replaces what was there. */
  function Set(side: map<Positive, real>, c: Change): map<Positive, real> {
    if c.qty != 0.0 then side[c.price := c.qty] else side - {c.price}
  }

  function Fold(side: map<Positive, real>, changes: seq<Change>): map<Positive, real> {
    if changes == [] then side else Set(Fold(side, changes[..|changes| - 1]), changes[|changes| - 1])
  }

  predicate AnyNegative(changes: seq<Change>) {
    exists c | c in changes :: c.qty < 0.0
  }

  /** Some bid is at or above some ask. */
  predicate Meets(bids: map<Positive, real>, asks: map<Positive, real>) {
    exists b | b in bids :: exists a | a in asks :: b >= a
  }

  function Invalidated(s: BookState): BookState {
    s.(valid := false, bids := map[], asks := map[])
  }

  function Apply(s: BookState, u: Update): (BookState, Verdict) {
    if !u.snapshot && !s.valid then (s, NoSnapshot)
    else if !u.snapshot && (u.sequence < s.sequence || u.update < s.update) then (Invalidated(s), Reversed)
    else if !u.snapshot && u.sequence == s.sequence && u.update == s.update then (s, Duplicate)
    else if AnyNegative(u.bids) || AnyNegative(u.asks) then (Invalidated(s), Negative)
    else
      var bids := Fold(if u.snapshot then map[] else s.bids, u.bids);
      var asks := Fold(if u.snapshot then map[] else s.asks, u.asks);
      if |bids| == 0 || |asks| == 0 || Meets(bids, asks) then (Invalidated(s), Crossed)
      else (BookState(bids, asks, u.sequence, u.update, true), Applied)
  }

  /** A delta that neither counter puts behind the book, and that is not the same update again. */
  predicate Follows(s: BookState, u: Update) {
    s.valid && u.sequence >= s.sequence && u.update >= s.update && (u.sequence > s.sequence || u.update > s.update)
  }

  /** Both sides are there and every bid is below every ask. */
  ghost predicate Uncrossed(bids: map<Positive, real>, asks: map<Positive, real>) {
    && (exists p :: p in bids) && (exists p :: p in asks)
    && forall b, a | b in bids && a in asks :: b < a
  }

  /**
   An update is applied exactly when it is a snapshot or follows the book, holds no negative quantity, and leaves the
   sides uncrossed; a repeated one and any delta to an invalid book change nothing; every other one invalidates.
   */
  lemma AppliesExactly(s: BookState, u: Update)
    ensures var (t, verdict) := Apply(s, u);
            var bids := Fold(if u.snapshot then map[] else s.bids, u.bids);
            var asks := Fold(if u.snapshot then map[] else s.asks, u.asks);
            && (verdict.Applied? <==>
                  && (u.snapshot || Follows(s, u)) && (forall c | c in u.bids + u.asks :: c.qty >= 0.0)
                  && Uncrossed(bids, asks))
            && (verdict.Applied? ==> t == BookState(bids, asks, u.sequence, u.update, true))
            && (verdict.NoSnapshot? <==> !u.snapshot && !s.valid)
            && (verdict.Duplicate? <==> !u.snapshot && s.valid && u.sequence == s.sequence && u.update == s.update)
            && (verdict.NoSnapshot? || verdict.Duplicate? ==> t == s)
            && (verdict.Reversed? || verdict.Negative? || verdict.Crossed? ==>
                  t == s.(valid := false, bids := map[], asks := map[]))
  {
    hide Fold;
    var bids := Fold(if u.snapshot then map[] else s.bids, u.bids);
    var asks := Fold(if u.snapshot then map[] else s.asks, u.asks);
    Sizes(bids);
    Sizes(asks);
    assert AnyNegative(u.bids) || AnyNegative(u.asks) <==> !forall c | c in u.bids + u.asks :: c.qty >= 0.0;
    assert Meets(bids, asks) <==> !forall b, a | b in bids && a in asks :: b < a;
    hide AnyNegative, Meets;
  }

  lemma Sizes(side: map<Positive, real>)
    ensures |side| == 0 <==> !exists p :: p in side
  {
    if p :| p in side {
      assert p in side.Keys;
    } else {
      assert side.Keys == {};
    }
  }

  // ---------------------------------------------------------------- the last update wins

  /** The quantity last written at a price, if any update mentions it. */
  function LastAt(changes: seq<Change>, price: real): Option<real> {
    if changes == [] then None
    else
      var c := changes[|changes| - 1];
      if c.price == price then Some(c.qty) else LastAt(changes[..|changes| - 1], price)
  }

  /** A folded side holds, at every price, what was last written there, and nothing where that is zero. */
  lemma {:induction false} LastUpdateWins(side: map<Positive, real>, changes: seq<Change>, price: Positive)
    ensures var last := LastAt(changes, price);
            && (last.None? ==> (price in Fold(side, changes) <==> price in side)
                               && (price in side ==> Fold(side, changes)[price] == side[price]))
            && (last.Some? ==> (price in Fold(side, changes) <==> last.value != 0.0)
                               && (last.value != 0.0 ==> Fold(side, changes)[price] == last.value))
  {
    if changes != [] {
      LastUpdateWins(side, changes[..|changes| - 1], price);
    }
  }

  lemma {:induction false} FoldAppends(side: map<Positive, real>, a: seq<Change>, b: seq<Change>)
    ensures Fold(side, a + b) == Fold(Fold(side, a), b)
  {
    if b == [] {
      assert a + b == a;
    } else {
      FoldAppends(side, a, b[..|b| - 1]);
      assert (a + b)[..|a + b| - 1] == a + b[..|b| - 1];
    }
  }

  ghost predicate AllPositive(side: map<Positive, real>) {
    forall p | p in side :: side[p] > 0.0
  }

  lemma {:induction false} FoldPositive(side: map<Positive, real>, changes: seq<Change>)
    requires AllPositive(side) && !AnyNegative(changes)
    ensures AllPositive(Fold(side, changes))
  {
    if changes != [] {
      forall c | c in changes[..|changes| - 1]
        ensures c.qty >= 0.0
      {
        assert c in changes;
      }
      assert changes[|changes| - 1] in changes;
      FoldPositive(side, changes[..|changes| - 1]);
    }
  }

  // ---------------------------------------------------------------- runs

  function Run(us: seq<Update>): BookState {
    if us == [] then Empty() else Apply(Run(us[..|us| - 1]), us[|us| - 1]).0
  }

  function VerdictOf(us: seq<Update>): Verdict
    requires us != []
  {
    Apply(Run(us[..|us| - 1]), us[|us| - 1]).1
  }

  /** Updates applied since the last snapshot, the snapshot first; none while the book is invalid. */
  function Since(us: seq<Update>): seq<Update> {
    if us == [] then []
    else
      var before := Since(us[..|us| - 1]);
      match VerdictOf(us)
      case Applied => if us[|us| - 1].snapshot then [us[|us| - 1]] else before + [us[|us| - 1]]
      case Duplicate => before
      case _ => []
  }

  function Bids(us: seq<Update>): seq<Change> {
    if us == [] then [] else Bids(us[..|us| - 1]) + us[|us| - 1].bids
  }

  function Asks(us: seq<Update>): seq<Change> {
    if us == [] then [] else Asks(us[..|us| - 1]) + us[|us| - 1].asks
  }

  /** What holds of every reachable book. */
  ghost predicate Sound(s: BookState) {
    && AllPositive(s.bids) && AllPositive(s.asks)
    && (s.valid ==> |s.bids| > 0 && |s.asks| > 0 && !Meets(s.bids, s.asks))
    && (!s.valid ==> s.bids == map[] && s.asks == map[])
  }

  lemma ApplySound(s: BookState, u: Update)
    requires Sound(s)
    ensures Sound(Apply(s, u).0)
  {
    hide Fold, Meets;
    if !AnyNegative(u.bids) && !AnyNegative(u.asks) {
      FoldPositive(if u.snapshot then map[] else s.bids, u.bids);
      FoldPositive(if u.snapshot then map[] else s.asks, u.asks);
    }
    hide AnyNegative, AllPositive;
    assert AllPositive(map[]) by { NothingNegative(); }
  }

  lemma NothingNegative()
    ensures AllPositive(map[])
  {
  }

  /** Sizes are positive and, while the book is valid, every bid is below every ask. */
  lemma {:induction false} RunSound(us: seq<Update>)
    ensures Sound(Run(us))
  {
    hide Apply, Sound;
    if us != [] {
      RunSound(us[..|us| - 1]);
      ApplySound(Run(us[..|us| - 1]), us[|us| - 1]);
    } else {
      EmptySound();
    }
  }

  lemma EmptySound()
    ensures Sound(Empty())
  {
  }

  lemma AppendedFold(prior: seq<Update>, u: Update)
    ensures Bids(prior + [u]) == Bids(prior) + u.bids && Asks(prior + [u]) == Asks(prior) + u.asks
  {
    assert (prior + [u])[..|prior|] == prior;
  }

  lemma SnapshotFold(u: Update)
    ensures Bids([u]) == u.bids && Asks([u]) == u.asks
  {
    assert Bids([u][..0]) == [] && Asks([u][..0]) == [];
  }

  /** A valid book is exactly the fold of the updates since its last snapshot, and starts with that snapshot. */
  lemma {:induction false} BookIsFold(us: seq<Update>)
    ensures Run(us).valid <==> Since(us) != []
    ensures Since(us) != [] ==> Since(us)[0].snapshot && forall i | 0 < i < |Since(us)| :: !Since(us)[i].snapshot
    ensures Run(us).valid ==>
              Run(us).bids == Fold(map[], Bids(Since(us))) && Run(us).asks == Fold(map[], Asks(Since(us)))
  {
    hide Fold, AnyNegative, Meets, Bids, Asks;
    if us != [] {
      var prior, u := us[..|us| - 1], us[|us| - 1];
      BookIsFold(prior);
      if VerdictOf(us) == Applied {
        SnapshotFold(u);
        AppendedFold(Since(prior), u);
        FoldAppends(map[], Bids(Since(prior)), u.bids);
        FoldAppends(map[], Asks(Since(prior)), u.asks);
      }
    }
  }

  ghost predicate AllDeltas(us: seq<Update>) {
    forall i | 0 <= i < |us| :: !us[i].snapshot
  }

  /** A book that a run left invalid comes through any further list of deltas unchanged, and none of them applies. */
  lemma {:induction false} InvalidUntilSnapshot(us: seq<Update>, deltas: seq<Update>)
    requires !Run(us).valid && AllDeltas(deltas)
    ensures Run(us + deltas) == Run(us) && Since(us + deltas) == []
  {
    hide Apply;
    if deltas == [] {
      assert us + deltas == us;
      BookIsFold(us);
    } else {
      var n := |deltas| - 1;
      InvalidUntilSnapshot(us, deltas[..n]);
      assert (us + deltas)[..|us| + n] == us + deltas[..n];
      RefusesDelta(Run(us), deltas[n]);
    }
  }

  lemma RefusesDelta(s: BookState, u: Update)
    requires !s.valid && !u.snapshot
    ensures Apply(s, u) == (s, NoSnapshot)
  {
    hide Fold, AnyNegative, Meets;
  }

  /** Neither counter goes back, and not both stay. */
  predicate Later(a: Update, b: Update) {
    a.sequence <= b.sequence && a.update <= b.update && (a.sequence, a.update) != (b.sequence, b.update)
  }

  /** The updates that make up a valid book are strictly in counter order, and the book carries the last one's. */
  lemma {:induction false} CountersAdvance(us: seq<Update>)
    ensures forall i, j | 0 <= i < j < |Since(us)| :: Later(Since(us)[i], Since(us)[j])
    ensures Since(us) != [] ==>
              var last := Since(us)[|Since(us)| - 1];
              Run(us).sequence == last.sequence && Run(us).update == last.update
  {
    hide Fold, AnyNegative, Meets;
    if us != [] {
      var prior, u := us[..|us| - 1], us[|us| - 1];
      CountersAdvance(prior);
      BookIsFold(prior);
      if VerdictOf(us) == Applied && !u.snapshot {
        AppendLater(Since(prior), u);
      }
    }
  }

  lemma AppendLater(since: seq<Update>, u: Update)
    requires forall i, j | 0 <= i < j < |since| :: Later(since[i], since[j])
    requires since != [] ==> Later(since[|since| - 1], u)
    ensures forall i, j | 0 <= i < j < |since| + 1 :: Later((since + [u])[i], (since + [u])[j])
  {
  }

  // ---------------------------------------------------------------- the view

  lemma HasBest(keys: set<Positive>, descending: bool)
    requires keys != {}
    ensures exists p :: IsBest(keys, descending, p)
  {
    var p :| p in keys;
    var rest := keys - {p};
    assert keys == rest + {p};
    if rest != {} {
      HasBest(rest, descending);
      var q :| IsBest(rest, descending, q);
      assert IsBest(keys, descending, if NotBehind(descending, p, q) then p else q);
    } else {
      assert IsBest(keys, descending, p);
    }
  }

  predicate NotBehind(descending: bool, p: real, q: real) {
    if descending then p >= q else p <= q
  }

  predicate IsBest(keys: set<Positive>, descending: bool, p: Positive) {
    p in keys && forall q | q in keys :: NotBehind(descending, p, q)
  }

  function Best(keys: set<Positive>, descending: bool): (p: Positive)
    requires keys != {}
    ensures IsBest(keys, descending, p)
  {
    HasBest(keys, descending);
    var p :| IsBest(keys, descending, p);
    p
  }

  /** The levels of a side, best price first. */
  function Sorted(side: map<Positive, real>, descending: bool, keys: set<Positive>): (r: seq<Level>)
    requires keys <= side.Keys && forall p | p in side :: side[p] >= 0.0
    ensures |r| == |keys|
    decreases |keys|
  {
    if keys == {} then []
    else
      var p := Best(keys, descending);
      [Level(p, side[p])] + Sorted(side, descending, keys - {p})
  }

  const DEPTH := 50

  function Top(side: map<Positive, real>, descending: bool): seq<Level>
    requires forall p | p in side :: side[p] >= 0.0
  {
    var all := Sorted(side, descending, side.Keys);
    if |all| <= DEPTH then all else all[..DEPTH]
  }

  predicate Better(descending: bool, p: real, q: real) {
    if descending then p > q else p < q
  }

  /** Strictly from best to worst. */
  ghost predicate InOrder(levels: seq<Level>, descending: bool) {
    forall i, j | 0 <= i < j < |levels| :: Better(descending, levels[i].price, levels[j].price)
  }

  /** Exactly the levels of these prices. */
  ghost predicate Lists(levels: seq<Level>, side: map<Positive, real>, keys: set<Positive>)
    requires keys <= side.Keys
  {
    && (forall l | l in levels :: l.price in keys && l.qty == side[l.price])
    && (forall p | p in keys :: exists l :: l in levels && l.price == p)
  }

  lemma PrependLists(side: map<Positive, real>, keys: set<Positive>, p: Positive, rest: seq<Level>, descending: bool)
    requires keys <= side.Keys && IsBest(keys, descending, p) && side[p] >= 0.0
    requires Lists(rest, side, keys - {p}) && InOrder(rest, descending)
    ensures Lists([Level(p, side[p])] + rest, side, keys) && InOrder([Level(p, side[p])] + rest, descending)
  {
    var r := [Level(p, side[p])] + rest;
    forall q | q in keys
      ensures exists l :: l in r && l.price == q
    {
      if q == p {
        assert r[0] in r;
      } else {
        assert q in keys - {p};
        var l :| l in rest && l.price == q;
        assert l in r;
      }
    }
    forall i, j | 0 <= i < j < |r|
      ensures Better(descending, r[i].price, r[j].price)
    {
      assert r[j] == rest[j - 1] && rest[j - 1] in rest;
      if i > 0 {
        assert r[i] == rest[i - 1];
      }
    }
  }

  lemma {:induction false} SortedExact(side: map<Positive, real>, descending: bool, keys: set<Positive>)
    requires keys <= side.Keys && forall p | p in side :: side[p] >= 0.0
    ensures Lists(Sorted(side, descending, keys), side, keys) && InOrder(Sorted(side, descending, keys), descending)
    decreases |keys|
  {
    hide Lists, InOrder, IsBest;
    if keys != {} {
      var p := Best(keys, descending);
      BestInside(keys, descending);
      SortedExact(side, descending, keys - {p});
      PrependLists(side, keys, p, Sorted(side, descending, keys - {p}), descending);
    } else {
      NothingListed(side, descending);
    }
  }

  lemma BestInside(keys: set<Positive>, descending: bool)
    requires keys != {}
    ensures Best(keys, descending) in keys
  {
  }

  lemma NothingListed(side: map<Positive, real>, descending: bool)
    ensures Lists([], side, {}) && InOrder([], descending)
  {
  }

  /** A level of the side that the view leaves out is no better than any it shows. */
  ghost predicate LeavesOutWorse(top: seq<Level>, side: map<Positive, real>, descending: bool) {
    forall p, l | p in side && l in top && (forall t | t in top :: t.price != p) :: Better(descending, l.price, p)
  }

  lemma PrefixLeavesOutWorse(all: seq<Level>, side: map<Positive, real>, descending: bool, n: nat)
    requires n <= |all| && Lists(all, side, side.Keys) && InOrder(all, descending)
    ensures LeavesOutWorse(all[..n], side, descending)
  {
    forall p, l | p in side && l in all[..n] && (forall t | t in all[..n] :: t.price != p)
      ensures Better(descending, l.price, p)
    {
      var o :| o in all && o.price == p;
      var j :| 0 <= j < |all| && all[j] == o;
      var i :| 0 <= i < n && all[i] == l;
      PrefixHas(all, n, j);
    }
  }

  lemma PrefixHas(all: seq<Level>, n: nat, j: nat)
    requires n <= |all| && j < |all|
    ensures j < n ==> all[j] in all[..n]
  {
    assert j < n ==> all[..n][j] == all[j];
  }

  /** The view shows the best fifty levels of a side with their sizes, in order, and leaves out only worse ones. */
  lemma TopExact(side: map<Positive, real>, descending: bool)
    requires forall p | p in side :: side[p] >= 0.0
    ensures var top := Top(side, descending);
            && |top| == (if |side| <= DEPTH then |side| else DEPTH) && InOrder(top, descending)
            && (forall l | l in top :: l.price in side && l.qty == side[l.price])
            && LeavesOutWorse(top, side, descending)
  {
    var all := Sorted(side, descending, side.Keys);
    SortedExact(side, descending, side.Keys);
    hide Sorted;
    var n := if |all| <= DEPTH then |all| else DEPTH;
    assert all[..|all|] == all;
    PrefixLeavesOutWorse(all, side, descending, n);
    PrefixLists(all, side, descending, n);
    hide LeavesOutWorse, InOrder, Lists;
  }

  lemma PrefixLists(all: seq<Level>, side: map<Positive, real>, descending: bool, n: nat)
    requires n <= |all| && Lists(all, side, side.Keys) && InOrder(all, descending)
    ensures InOrder(all[..n], descending) && forall l | l in all[..n] :: l.price in side && l.qty == side[l.price]
  {
    forall l | l in all[..n]
      ensures l in all
    {
    }
  }

  /** A reachable valid book shows the broker a two-sided view whose best bid is below its best ask. */
  lemma ViewSound(s: BookState)
    requires Sound(s) && s.valid
    ensures |Top(s.bids, true)| > 0 && |Top(s.asks, false)| > 0
    ensures Top(s.bids, true)[0].price < Top(s.asks, false)[0].price
    ensures forall l | l in Top(s.bids, true) + Top(s.asks, false) :: l.qty > 0.0
  {
    hide Top, LeavesOutWorse, InOrder;
    TopExact(s.bids, true);
    TopExact(s.asks, false);
    var b, a := Top(s.bids, true)[0], Top(s.asks, false)[0];
    assert b in Top(s.bids, true) && a in Top(s.asks, false);
  }

  function View(s: BookState): BookView
    requires Sound(s) && s.valid
  {
    ViewSound(s);
    Sides(Top(s.bids, true), Top(s.asks, false))
  }

  /** The bids shown run strictly down and the asks strictly up, each its side's own sizes, up to fifty of the best. */
  lemma ViewExactly(s: BookState)
    requires Sound(s) && s.valid
    ensures var v := View(s);
            && |v.bids| == (if |s.bids| <= 50 then |s.bids| else 50)
            && |v.asks| == (if |s.asks| <= 50 then |s.asks| else 50)
            && (forall i, j | 0 <= i < j < |v.bids| :: v.bids[i].price > v.bids[j].price)
            && (forall i, j | 0 <= i < j < |v.asks| :: v.asks[i].price < v.asks[j].price)
            && (forall l | l in v.bids :: l.price in s.bids && l.qty == s.bids[l.price])
            && (forall l | l in v.asks :: l.price in s.asks && l.qty == s.asks[l.price])
            && (forall p, l | p in s.bids && l in v.bids && (forall t | t in v.bids :: t.price != p) :: l.price > p)
            && (forall p, l | p in s.asks && l in v.asks && (forall t | t in v.asks :: t.price != p) :: l.price < p)
  {
    hide Top;
    TopExact(s.bids, true);
    TopExact(s.asks, false);
  }

  // ---------------------------------------------------------------- the object

  class Book {
    var bids: map<Positive, real>
    var asks: map<Positive, real>
    var sequence: int
    var update: int
    var valid: bool

    function Now(): BookState
      reads `bids, `asks, `sequence, `update, `valid
    {
      BookState(bids, asks, sequence, update, valid)
    }

    ghost predicate Valid()
      reads this
    {
      Sound(Now())
    }

    constructor ()
      ensures Valid() && Now() == Empty()
      ensures !valid && bids == asks == map[]
    {
      bids, asks, sequence, update, valid := map[], map[], -1, -1, false;
    }

    method Invalidate()
      modifies `bids, `asks, `valid
      ensures Now() == Invalidated(old(Now())) && (old(Valid()) ==> Valid())
    {
      valid := false;
      bids := map[];
      asks := map[];
    }

    /** Writes one side's changes in order, stopping at a negative quantity. */
    method Write(side: map<Positive, real>, changes: seq<Change>) returns (written: map<Positive, real>, negative: bool)
      ensures negative <==> AnyNegative(changes)
      ensures !negative ==> written == Fold(side, changes)
    {
      written, negative := side, false;
      for i := 0 to |changes|
        invariant written == Fold(side, changes[..i])
        invariant forall c | c in changes[..i] :: c.qty >= 0.0
      {
        if changes[i].qty < 0.0 {
          assert changes[i] in changes;
          negative := true;
          return;
        }
        assert changes[..i + 1][..i] == changes[..i];
        if changes[i].qty != 0.0 {
          written := written[changes[i].price := changes[i].qty];
        } else {
          written := written - {changes[i].price};
        }
      }
      assert changes[..|changes|] == changes;
    }

    /** Applies an update; every refusal but a missing snapshot or a duplicate leaves the book invalid and empty. */
    method ApplyUpdate(u: Update) returns (verdict: Verdict)
      requires Valid()
      modifies `bids, `asks, `sequence, `update, `valid
      ensures Valid() && (Now(), verdict) == Apply(old(Now()), u)
    {
      ApplySound(Now(), u);
      hide Fold, AnyNegative, Sound;
      if !u.snapshot && !valid { return NoSnapshot; }
      if !u.snapshot && (u.sequence < sequence || u.update < update) {
        Invalidate();
        return Reversed;
      }
      if !u.snapshot && u.sequence == sequence && u.update == update { return Duplicate; }
      if u.snapshot {
        bids, asks := map[], map[];
      }
      var negative;
      bids, negative := Write(bids, u.bids);
      if negative {
        Invalidate();
        return Negative;
      }
      asks, negative := Write(asks, u.asks);
      if negative {
        Invalidate();
        return Negative;
      }
      if |bids| == 0 || |asks| == 0 || Meets(bids, asks) {
        Invalidate();
        return Crossed;
      }
      sequence, update, valid := u.sequence, u.update, true;
      return Applied;
    }
  }
}
