/**
 * Portfolios as values: the source copies them and keeps them by value in a
 * map from subject to portfolio.
 */
module Portfolios {

  datatype Item = Cash | Shares | Derivatives | Margin

  type Folio = map<Item, int>

  type Folios = map<nat, Folio>

  /** A missing item counts as zero. */
  function ItemCount<I>(port: map<I, int>, item: I): int {
    if item in port then port[item] else 0
  }

  function Transact<I>(port: map<I, int>, item: I, change: int): map<I, int> {
    port[item := ItemCount(port, item) + change]
  }

  /** One subject's count of one item, zero without a portfolio. */
  function Held(folios: Folios, id: nat, item: Item): int {
    if id in folios then ItemCount(folios[id], item) else 0
  }

  /** The one way a market action touches a portfolio. */
  function Change(folios: Folios, id: nat, item: Item, change: int): (r: Folios)
    requires id in folios
    ensures r.Keys == folios.Keys
    ensures forall j, i :: Held(r, j, i) == Held(folios, j, i) + if j == id && i == item then change else 0
  {
    folios[id := Transact(folios[id], item, change)]
  }

  /** How much of an item the subjects with ids below `n` hold together. */
  function Holdings(folios: Folios, item: Item, n: nat): int {
    if n == 0 then 0 else Holdings(folios, item, n - 1) + Held(folios, n - 1, item)
  }

  /** If every subject's count moves by its own amount, the total moves by the sum of the amounts. */
  lemma {:induction false} HoldingsOneChange(before: Folios, after: Folios, item: Item, id: nat, d: int, n: nat)
    requires forall j | 0 <= j < n :: Held(after, j, item) == Held(before, j, item) + if j == id then d else 0
    ensures Holdings(after, item, n) == Holdings(before, item, n) + if id < n then d else 0
  {
    if n > 0 {
      HoldingsOneChange(before, after, item, id, d, n - 1);
    }
  }

  lemma {:induction false} HoldingsTwoChanges(
      before: Folios, after: Folios, item: Item, id: nat, d: int, id': nat, d': int, n: nat)
    requires id != id'
    requires forall j | 0 <= j < n ::
               Held(after, j, item) == Held(before, j, item) + if j == id then d else if j == id' then d' else 0
    ensures Holdings(after, item, n)
         == Holdings(before, item, n) + (if id < n then d else 0) + (if id' < n then d' else 0)
  {
    if n > 0 {
      HoldingsTwoChanges(before, after, item, id, d, id', d', n - 1);
    }
  }

  lemma {:induction false} HoldingsEqual(before: Folios, after: Folios, item: Item, n: nat)
    requires forall j | 0 <= j < n :: Held(after, j, item) == Held(before, j, item)
    ensures Holdings(after, item, n) == Holdings(before, item, n)
  {
    if n > 0 {
      HoldingsEqual(before, after, item, n - 1);
    }
  }

  /** Subjects without a portfolio add nothing to a total. */
  lemma {:induction false} HoldingsBeyond(folios: Folios, item: Item, n: nat, m: nat)
    requires n <= m
    requires forall id | id in folios :: id < n
    ensures Holdings(folios, item, m) == Holdings(folios, item, n)
  {
    if n < m {
      HoldingsBeyond(folios, item, n, m - 1);
    }
  }
}
