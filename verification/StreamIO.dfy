/** The stream operators as they run: loops that write and read one element after the other. */
module StreamIO {
  import opened Offers
  import opened Portfolios
  import opened Markets
  import opened OfferProcessing
  import opened Text
  import opened Codec
  import opened PortfolioCodec

  method WriteResult(res: MarketSubmissionResult) returns (os: string)
    ensures os == PrintResult(res)
  {
    os := PrintInt(CodeOfOffer(res.validity)) + " ";
    os := os + PrintOffer(res.offer) + " " + PrintOptionalTrade(res.trade);
    os := os + " " + PrintInt(|res.retracts|);
    ghost var head := os;
    for i := 0 to |res.retracts|
      invariant os == head + PrintEach(res.retracts[..i], PrintRetract)
    {
      var retract := res.retracts[i];
      EachSnoc(res.retracts, i, PrintRetract);
      Concat(head, PrintEach(res.retracts[..i], PrintRetract), " " + PrintRetract(retract));
      os := os + (" " + PrintRetract(retract));
    }
    assert res.retracts[..|res.retracts|] == res.retracts;
  }

  lemma EachSnoc<T>(xs: seq<T>, i: nat, show: T -> string)
    requires i < |xs|
    ensures PrintEach(xs[..i + 1], show) == PrintEach(xs[..i], show) + (" " + show(xs[i]))
  {
    assert xs[..i + 1][..i] == xs[..i];
  }

  method ParseResult(input: string) returns (res: Read<MarketSubmissionResult>)
    ensures res == ReadResult(input)
  {
    var code := ReadInt(input);
    if code.Bad? { return Bad; }
    var offer := ReadOffer(code.rest);
    if offer.Bad? { return Bad; }
    var trade := ReadOptionalTrade(offer.rest);
    if trade.Bad? { return Bad; }
    var count := ReadUnsigned(trade.rest, TWO_64);
    if count.Bad? { return Bad; }
    var retracts, rest := [], count.rest;
    for i := 0 to count.value
      invariant ReadMany(count.rest, i, ReadRetract) == Got(retracts, rest)
    {
      var retract := ReadRetract(rest);
      if retract.Bad? {
        ReadFailsOnward(count.rest, i + 1, count.value, ReadRetract);
        return Bad;
      }
      retracts, rest := retracts + [retract.value], retract.rest;
    }
    var validity := OfferOfCode(code.value);
    if validity.None? { return Bad; }
    return Got(MarketSubmissionResult(validity.value, offer.value, trade.value, retracts), rest);
  }

  /** Once an element cannot be read, the whole list cannot. */
  lemma {:induction false} ReadFailsOnward<T>(s: string, i: nat, n: nat, parse: string -> Read<T>)
    requires i <= n && ReadMany(s, i, parse).Bad?
    ensures ReadMany(s, n, parse).Bad?
  {
    if i < n {
      ReadFailsOnward(s, i, n - 1, parse);
    }
  }

  method WriteQueue(q: OfferQueue) returns (os: string)
    ensures os == PrintQueue(q.offers)
  {
    os := PrintInt(|q.offers|);
    ghost var head := os;
    for i := 0 to |q.offers|
      invariant os == head + PrintEach(q.offers[..i], PrintOffer)
    {
      EachSnoc(q.offers, i, PrintOffer);
      Concat(head, PrintEach(q.offers[..i], PrintOffer), " " + PrintOffer(q.offers[i]));
      os := os + (" " + PrintOffer(q.offers[i]));
    }
    assert q.offers[..|q.offers|] == q.offers;
  }

  /** Every offer read is pushed, and every push sorts: into an empty queue, a sorted permutation of the text. */
  method ParseQueue(input: string, q: OfferQueue) returns (rest: Read<()>)
    modifies q
    ensures rest.Bad? <==> ReadCounted(input, ReadOffer).Bad?
    ensures rest.Got? ==> rest.rest == ReadCounted(input, ReadOffer).rest
    ensures rest.Got? ==> multiset(q.offers) == old(multiset(q.offers)) + multiset(ReadCounted(input, ReadOffer).value)
    ensures old(Sorted(q.offers)) ==> Sorted(q.offers)
  {
    hide ReadOffer, ReadInt, Sorted;
    var size := ReadInt(input);
    if size.Bad? { return Bad; }
    var n := if size.value < 0 then 0 else size.value;
    ghost var offers := [];
    var left := size.rest;
    for i := 0 to n
      invariant ReadMany(size.rest, i, ReadOffer) == Got(offers, left)
      invariant multiset(q.offers) == old(multiset(q.offers)) + multiset(offers)
      invariant old(Sorted(q.offers)) ==> Sorted(q.offers)
    {
      var o := ReadOffer(left);
      if o.Bad? {
        ReadFailsOnward(size.rest, i + 1, n, ReadOffer);
        return Bad;
      }
      q.PushBack(o.value);
      offers, left := offers + [o.value], o.rest;
    }
    return Got((), left);
  }

  /** A queue written to text and read into an empty queue shows the same prices and times in the same order. */
  method QueueTrip(q: OfferQueue, into: OfferQueue) returns (back: Read<()>)
    requires q != into && Sorted(q.offers) && into.offers == []
    requires |q.offers| < TWO_31 && forall o | o in q.offers :: FitsOffer(o)
    modifies into
    ensures back.Got? && SameKeys(into.offers, q.offers) && multiset(into.offers) == multiset(q.offers)
  {
    var text := WriteQueue(q);
    forall o | o in q.offers
      ensures Inverse(o, PrintOffer, ReadOffer)
    {
      OfferInverse(o);
    }
    ReadPrintedCounted(q.offers, PrintOffer, ReadOffer, "");
    assert PrintInt(|q.offers|) + PrintEach(q.offers, PrintOffer) + "" == text;
    back := ParseQueue(text, into);
    ResortedQueue(q.offers, into.offers);
  }

  /** `items` is the order in which the map happens to iterate. */
  method WritePortfolio(items: seq<(string, int)>) returns (os: string)
    ensures os == PrintPortfolio(items)
  {
    os := PrintInt(|items|) + " ";
    ghost var head := PrintInt(|items|);
    var n := 0;
    for i := 0 to |items|
      invariant n == i
      invariant i < |items| ==> os == head + PrintEach(items[..i], ShowItem) + " "
      invariant i == |items| > 0 ==> os == head + PrintEach(items, ShowItem)
      invariant items == [] ==> os == head + " "
    {
      n := n + 1;
      os := os + (items[i].0 + " " + PrintInt(items[i].1));
      EachSnoc(items, i, ShowItem);
      Rejoin(head, PrintEach(items[..i], ShowItem), ShowItem(items[i]));
      assert i + 1 == |items| ==> items[..i + 1] == items;
      if n < |items| {
        os := os + " ";
      }
    }
  }

  lemma Rejoin(head: string, front: string, last: string)
    ensures head + front + " " + last == head + (front + (" " + last))
  {
  }

  lemma AddAllSnoc(items: seq<(string, int)>, x: (string, int))
    ensures AddAll(map[], items + [x]) == Transact(AddAll(map[], items), x.0, x.1)
  {
    assert (items + [x])[..|items|] == items;
  }

  method ParsePortfolio(input: string) returns (res: Read<Counts>)
    ensures res == ReadPortfolio(input)
  {
    var count := ReadUnsigned(input, TWO_32);
    if count.Bad? { return Bad; }
    var port: Counts := map[];
    var rest := count.rest;
    ghost var items := [];
    for i := 0 to count.value
      invariant ReadMany(count.rest, i, ReadItem) == Got(items, rest)
      invariant port == AddAll(map[], items)
    {
      var item := ReadItem(rest);
      if item.Bad? {
        ReadFailsOnward(count.rest, i + 1, count.value, ReadItem);
        return Bad;
      }
      AddAllSnoc(items, item.value);
      port := Transact(port, item.value.0, item.value.1);
      items, rest := items + [item.value], item.rest;
    }
    return Got(port, rest);
  }
}
