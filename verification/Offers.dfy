/**
 * Offers, their price-then-earlier-time order, and the sorted vectors of
 * offers that make up one side of the book. An ask carries a negative price,
 * so the best offer is the greatest one on either side.
 */
module Offers {
  import opened Values

  datatype Offer = Offer(id: nat, player: nat, price: int, time: nat)

  /** `a <= b` in the order of Offer::tie, which ignores ids and owners. */
  predicate AtMost(a: Offer, b: Offer) {
    a.price < b.price || (a.price == b.price && a.time >= b.time)
  }

  ghost predicate Sorted(q: seq<Offer>) {
    forall i, j | 0 <= i < j < |q| :: AtMost(q[i], q[j])
  }

  /** `r` is what push_back of `o` on `q` may leave: some sorted permutation, as the sort is not stable. */
  ghost predicate Inserted(q: seq<Offer>, o: Offer, r: seq<Offer>) {
    Sorted(r) && multiset(r) == multiset(q) + multiset{o}
  }

  /** The offers whose id is not `id`, in order. */
  function Without(q: seq<Offer>, id: nat): seq<Offer> {
    if q == [] then []
    else
      var front, last := q[..|q| - 1], q[|q| - 1];
      if last.id == id then Without(front, id) else Without(front, id) + [last]
  }

  /** The offers of one player, in order. */
  function OffersOf(q: seq<Offer>, player: nat): seq<Offer> {
    if q == [] then []
    else
      var front, last := q[..|q| - 1], q[|q| - 1];
      if last.player == player then OffersOf(front, player) + [last] else OffersOf(front, player)
  }

  function Standing(q: seq<Offer>): Option<Offer> {
    if q == [] then None else Some(q[|q| - 1])
  }

  /** The first offer with the given id. */
  function Find(q: seq<Offer>, id: nat): (r: Option<Offer>)
    ensures r.Some? ==> r.value in q && r.value.id == id
    ensures r.None? ==> forall o | o in q :: o.id != id
  {
    if q == [] then None
    else if q[0].id == id then Some(q[0])
    else
      var r := Find(q[1..], id);
      assert forall o :: o in q <==> o == q[0] || o in q[1..];
      r
  }

  function SumPrices(q: seq<Offer>): int {
    if q == [] then 0 else SumPrices(q[..|q| - 1]) + q[|q| - 1].price
  }

  // ---- Additive measures of a queue -----------------------------------

  /** What one offer contributes to a total over a queue. */
  datatype Measure =
    | Each                   // one per offer
    | HasId(id: nat)         // one per offer with that id
    | CountOf(player: nat)   // one per offer of that player
    | PriceOf(player: nat)   // the price of each offer of that player

  function Weigh(m: Measure, o: Offer): int {
    match m
    case Each => 1
    case HasId(id) => if o.id == id then 1 else 0
    case CountOf(p) => if o.player == p then 1 else 0
    case PriceOf(p) => if o.player == p then o.price else 0
  }

  function Total(q: seq<Offer>, m: Measure): int {
    if q == [] then 0 else Total(q[..|q| - 1], m) + Weigh(m, q[|q| - 1])
  }

  lemma TotalSnoc(q: seq<Offer>, o: Offer, m: Measure)
    ensures Total(q + [o], m) == Total(q, m) + Weigh(m, o)
    ensures SumPrices(q + [o]) == SumPrices(q) + o.price
  {
    assert (q + [o])[..|q + [o]| - 1] == q;
  }

  function RemoveAt(q: seq<Offer>, k: nat): seq<Offer>
    requires k < |q|
  {
    q[..k] + q[k + 1..]
  }

  lemma RemoveAtMultiset(q: seq<Offer>, k: nat)
    requires k < |q|
    ensures multiset(RemoveAt(q, k)) == multiset(q) - multiset{q[k]}
  {
    assert q == q[..k] + ([q[k]] + q[k + 1..]);
    assert multiset([q[k]] + q[k + 1..]) == multiset{q[k]} + multiset(q[k + 1..]);
  }

  lemma RemoveAtTotal(q: seq<Offer>, k: nat, m: Measure)
    requires k < |q|
    ensures Total(RemoveAt(q, k), m) == Total(q, m) - Weigh(m, q[k])
  {
    assert q == (q[..k] + [q[k]]) + q[k + 1..];
    TotalConcat(q[..k] + [q[k]], q[k + 1..], m);
    TotalConcat(q[..k], q[k + 1..], m);
    TotalSnoc(q[..k], q[k], m);
  }

  lemma {:induction false} TotalConcat(a: seq<Offer>, b: seq<Offer>, m: Measure)
    ensures Total(a + b, m) == Total(a, m) + Total(b, m)
  {
    if b == [] {
      assert a + b == a;
    } else {
      var n := |b| - 1;
      assert (a + b)[..|a + b| - 1] == a + b[..n];
      TotalConcat(a, b[..n], m);
    }
  }

  /** A total does not depend on the order the sort chose. */
  lemma {:induction false} TotalPermutation(q: seq<Offer>, r: seq<Offer>, m: Measure)
    requires multiset(q) == multiset(r)
    ensures Total(q, m) == Total(r, m)
  {
    if q == [] {
      assert |multiset(r)| == 0;
    } else {
      hide Weigh, RemoveAt;
      var k := LastAmong(q, r);
      TotalPermutation(q[..|q| - 1], RemoveAt(r, k), m);
      RemoveAtTotal(r, k, m);
    }
  }

  /** The last offer of a queue has a place in any permutation of it. */
  lemma LastAmong(q: seq<Offer>, r: seq<Offer>) returns (k: nat)
    requires q != [] && multiset(q) == multiset(r)
    ensures k < |r| && r[k] == q[|q| - 1] && multiset(q[..|q| - 1]) == multiset(RemoveAt(r, k))
  {
    var n := |q| - 1;
    assert q[n] in multiset(r);
    k :| 0 <= k < |r| && r[k] == q[n];
    RemoveAtMultiset(q, n);
    RemoveAtMultiset(r, k);
    assert RemoveAt(q, n) == q[..n];
  }

  lemma InsertedTotal(q: seq<Offer>, o: Offer, r: seq<Offer>, m: Measure)
    requires Inserted(q, o, r)
    ensures Total(r, m) == Total(q, m) + Weigh(m, o)
  {
    assert multiset(q + [o]) == multiset(q) + multiset{o};
    TotalPermutation(r, q + [o], m);
    assert (q + [o])[..|q|] == q;
  }

  lemma InsertedMembers(q: seq<Offer>, o: Offer, r: seq<Offer>)
    requires Inserted(q, o, r)
    ensures forall x :: x in r <==> x in q || x == o
    ensures |r| == |q| + 1
  {
    forall x
      ensures x in r <==> x in q || x == o
    {
      assert x in r <==> x in multiset(r);
      assert x in q <==> x in multiset(q);
    }
    assert |multiset(r)| == |multiset(q)| + 1;
  }

  lemma {:induction false} TotalNonNegative(q: seq<Offer>, m: Measure)
    requires m.PriceOf? ==> forall o | o in q :: o.price >= 0
    ensures Total(q, m) >= 0
  {
    if q != [] {
      TotalNonNegative(q[..|q| - 1], m);
    }
  }

  /** A member's weight is part of the total. */
  lemma {:induction false} TotalAtLeastMember(q: seq<Offer>, m: Measure, o: Offer)
    requires m.PriceOf? ==> forall x | x in q :: x.price >= 0
    requires o in q
    ensures Total(q, m) >= Weigh(m, o)
  {
    var n := |q| - 1;
    if q[n] == o {
      TotalNonNegative(q[..n], m);
    } else {
      assert q == q[..n] + [q[n]];
      TotalAtLeastMember(q[..n], m, o);
      assert q[n] in q;
    }
  }

  lemma {:induction false} EachIsLength(q: seq<Offer>)
    ensures Total(q, Each) == |q|
  {
    if q != [] {
      EachIsLength(q[..|q| - 1]);
    }
  }

  // ---- Retraction -------------------------------------------------------

  lemma {:induction false} WithoutMembers(q: seq<Offer>, id: nat)
    ensures forall x :: x in Without(q, id) <==> x in q && x.id != id
    ensures forall x :: multiset(Without(q, id))[x] == if x.id == id then 0 else multiset(q)[x]
  {
    if q != [] {
      var n := |q| - 1;
      assert q == q[..n] + [q[n]];
      WithoutMembers(q[..n], id);
    }
  }

  lemma {:induction false} WithoutSorted(q: seq<Offer>, id: nat)
    requires Sorted(q)
    ensures Sorted(Without(q, id))
  {
    if q != [] {
      var n := |q| - 1;
      var front := Without(q[..n], id);
      WithoutSorted(q[..n], id);
      WithoutMembers(q[..n], id);
      forall i | 0 <= i < |front|
        ensures AtMost(front[i], q[n])
      {
        assert front[i] in q[..n];
      }
    }
  }

  lemma {:induction false} WithoutAbsent(q: seq<Offer>, id: nat)
    requires Total(q, HasId(id)) == 0
    ensures Without(q, id) == q
  {
    if q != [] {
      var n := |q| - 1;
      TotalNonNegative(q[..n], HasId(id));
      WithoutAbsent(q[..n], id);
    }
  }

  /** Erasing by id takes away exactly the one offer that carries it. */
  lemma {:induction false} WithoutTotal(q: seq<Offer>, o: Offer, m: Measure)
    requires o in q && Total(q, HasId(o.id)) <= 1
    ensures Total(Without(q, o.id), m) == Total(q, m) - Weigh(m, o)
  {
    var n := |q| - 1;
    var front, last := q[..n], q[n];
    assert q == front + [last];
    TotalNonNegative(front, HasId(o.id));
    if last.id == o.id {
      assert Total(front, HasId(o.id)) == 0;
      WithoutAbsent(front, o.id);
      if o in front {
        TotalAtLeastMember(front, HasId(o.id), o);
      }
    } else {
      assert o in front;
      WithoutTotal(front, o, m);
      TotalSnoc(Without(front, o.id), last, m);
    }
  }

  lemma {:induction false} WithoutTotalAtMost(q: seq<Offer>, id: nat, m: Measure)
    requires !m.PriceOf?
    ensures Total(Without(q, id), m) <= Total(q, m)
  {
    if q != [] {
      var front, last := q[..|q| - 1], q[|q| - 1];
      WithoutTotalAtMost(front, id, m);
      TotalSnoc(Without(front, id), last, m);
    }
  }

  /** Pushing a fresh offer and erasing it again leaves the same bag. */
  lemma InsertedThenWithout(q: seq<Offer>, o: Offer, r: seq<Offer>)
    requires Inserted(q, o, r) && Total(q, HasId(o.id)) == 0
    ensures multiset(Without(r, o.id)) == multiset(q)
  {
    WithoutMembers(r, o.id);
    forall x
      ensures multiset(Without(r, o.id))[x] == multiset(q)[x]
    {
      assert multiset(r)[x] == multiset(q)[x] + multiset{o}[x];
      if x.id == o.id && x in q {
        TotalAtLeastMember(q, HasId(o.id), x);
      }
    }
  }

  // ---- One player's offers ----------------------------------------------

  lemma {:induction false} OffersOfMembers(q: seq<Offer>, player: nat)
    ensures forall x :: x in OffersOf(q, player) <==> x in q && x.player == player
    ensures |OffersOf(q, player)| == Total(q, CountOf(player))
    ensures SumPrices(OffersOf(q, player)) == Total(q, PriceOf(player))
  {
    if q != [] {
      var front, last := q[..|q| - 1], q[|q| - 1];
      assert q == front + [last];
      OffersOfMembers(front, player);
      TotalSnoc(OffersOf(front, player), last, Each);
    }
  }

  // ---- The order --------------------------------------------------------

  /** The standing offer is a greatest offer: no better price, and none earlier at its price. */
  lemma StandingIsBest(q: seq<Offer>, o: Offer)
    requires Sorted(q) && o in q
    ensures Standing(q).Some? && Standing(q).value in q && AtMost(o, Standing(q).value)
  {
    var i :| 0 <= i < |q| && q[i] == o;
    assert i == |q| - 1 || AtMost(q[i], q[|q| - 1]);
  }

  ghost predicate SameKeys(q: seq<Offer>, r: seq<Offer>) {
    |q| == |r| && forall i | 0 <= i < |q| :: q[i].price == r[i].price && q[i].time == r[i].time
  }

  /** A sorted bag has one price/time sequence, whatever order the sort gives to ties. */
  lemma {:induction false} SortedBagKeys(q: seq<Offer>, r: seq<Offer>)
    requires Sorted(q) && Sorted(r) && multiset(q) == multiset(r)
    ensures SameKeys(q, r)
  {
    assert |multiset(q)| == |multiset(r)|;
    if q != [] {
      var n := |q| - 1;
      var k := GreatestTie(q, r);
      RemoveAtMultiset(q, n);
      assert RemoveAt(q, n) == q[..n];
      SwapOutMultiset(r, k);
      SwapOutSorted(r, k);
      SortedBagKeys(q[..n], SwapOut(r, k));
      SameKeysSnoc(q, r, SwapOut(r, k));
    }
  }

  lemma GreatestTie(q: seq<Offer>, r: seq<Offer>) returns (k: nat)
    requires q != [] && Sorted(q) && Sorted(r) && multiset(q) == multiset(r)
    ensures |r| == |q| && k < |r| && r[k] == q[|q| - 1]
    ensures AtMost(q[|q| - 1], r[|r| - 1]) && AtMost(r[|r| - 1], q[|q| - 1])
  {
    assert |multiset(q)| == |multiset(r)|;
    var x := q[|q| - 1];
    assert x in multiset(r) && r[|r| - 1] in multiset(q);
    StandingIsBest(r, x);
    StandingIsBest(q, r[|r| - 1]);
    k :| 0 <= k < |r| && r[k] == x;
  }

  lemma SameKeysSnoc(q: seq<Offer>, r: seq<Offer>, s: seq<Offer>)
    requires |q| == |r| > 0
    requires SameKeys(q[..|q| - 1], s) && SameKeys(s, r[..|r| - 1])
    requires AtMost(q[|q| - 1], r[|r| - 1]) && AtMost(r[|r| - 1], q[|q| - 1])
    ensures SameKeys(q, r)
  {
    var n := |q| - 1;
    forall i | 0 <= i <= n
      ensures q[i].price == r[i].price && q[i].time == r[i].time
    {
      if i < n {
        assert q[..n][i].price == s[i].price && s[i].price == r[..n][i].price;
      }
    }
  }

  /** The last offer moved to place `k`. */
  function SwapOut(r: seq<Offer>, k: nat): seq<Offer>
    requires k < |r|
  {
    r[k := r[|r| - 1]][..|r| - 1]
  }

  lemma SwapOutSorted(r: seq<Offer>, k: nat)
    requires k < |r| && Sorted(r) && AtMost(r[|r| - 1], r[k])
    ensures Sorted(SwapOut(r, k)) && SameKeys(SwapOut(r, k), r[..|r| - 1])
  {
    var n, s := |r| - 1, SwapOut(r, k);
    assert k == n || AtMost(r[k], r[n]);
    forall i | 0 <= i < n
      ensures s[i].price == r[i].price && s[i].time == r[i].time
    {
    }
    forall i, j | 0 <= i < j < n
      ensures AtMost(s[i], s[j])
    {
      assert AtMost(r[i], r[j]);
    }
  }

  lemma SwapOutMultiset(r: seq<Offer>, k: nat)
    requires k < |r|
    ensures multiset(SwapOut(r, k)) == multiset(r) - multiset{r[k]}
  {
    var n := |r| - 1;
    if k == n {
      assert SwapOut(r, k) == RemoveAt(r, n);
      RemoveAtMultiset(r, n);
    } else {
      assert SwapOut(r, k) == (r[..k] + [r[n]]) + r[k + 1..n];
      assert RemoveAt(r, k) == r[..k] + (r[k + 1..n] + [r[n]]);
      RemoveAtMultiset(r, k);
    }
  }
}
