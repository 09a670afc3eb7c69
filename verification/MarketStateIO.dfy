/** The market state a client holds, and its stream operators. */
module MarketStateIO {
  import opened Offers
  import opened OrderBooks
  import opened Markets
  import opened Text
  import opened Codec
  import opened StreamIO

  class MarketState {
    const bids: OfferQueue
    const asks: OfferQueue
    var transactions: seq<Trade>

    constructor ()
      ensures Valid() && fresh(bids) && fresh(asks) && Contents() == StateText([], [], [])
    {
      bids := new OfferQueue();
      asks := new OfferQueue();
      transactions := [];
    }

    ghost predicate Valid() {
      bids != asks
    }

    function Contents(): StateText
      reads this, bids, asks
    {
      StateText(asks.offers, bids.offers, transactions)
    }
  }

  method WriteState(ms: MarketState) returns (os: string)
    ensures os == PrintState(ms.Contents())
  {
    var asks := WriteQueue(ms.asks);
    var bids := WriteQueue(ms.bids);
    os := asks + " " + bids + " ";
    os := os + PrintInt(|ms.transactions|);
    ghost var head := os;
    for i := 0 to |ms.transactions|
      invariant os == head + PrintEach(ms.transactions[..i], PrintTrade)
    {
      EachSnoc(ms.transactions, i, PrintTrade);
      Concat(head, PrintEach(ms.transactions[..i], PrintTrade), " " + PrintTrade(ms.transactions[i]));
      os := os + (" " + PrintTrade(ms.transactions[i]));
    }
    assert ms.transactions[..|ms.transactions|] == ms.transactions;
  }

  /** The trades are appended in turn. */
  method ParseTrades(input: string, ms: MarketState) returns (rest: Read<()>)
    modifies ms
    ensures rest.Bad? <==> ReadCounted(input, ReadTrade).Bad?
    ensures rest.Got? ==>
              && rest.rest == ReadCounted(input, ReadTrade).rest
              && ms.transactions == old(ms.transactions) + ReadCounted(input, ReadTrade).value
  {
    var size := ReadInt(input);
    if size.Bad? { return Bad; }
    var n := if size.value < 0 then 0 else size.value;
    ghost var trades := [];
    var left := size.rest;
    for i := 0 to n
      invariant ReadMany(size.rest, i, ReadTrade) == Got(trades, left)
      invariant ms.transactions == old(ms.transactions) + trades
    {
      var t := ReadTrade(left);
      if t.Bad? {
        ReadFailsOnward(size.rest, i + 1, n, ReadTrade);
        return Bad;
      }
      ms.transactions := ms.transactions + [t.value];
      trades, left := trades + [t.value], t.rest;
    }
    return Got((), left);
  }

  /** Asks, bids, trades: what is read is added to what was there. */
  method ParseState(input: string, ms: MarketState) returns (rest: Read<()>)
    requires ms.Valid()
    modifies ms, ms.bids, ms.asks
    ensures rest.Bad? <==> ReadState(input).Bad?
    ensures rest.Got? ==>
              var read := ReadState(input);
              && rest.rest == read.rest
              && multiset(ms.asks.offers) == old(multiset(ms.asks.offers)) + multiset(read.value.asks)
              && multiset(ms.bids.offers) == old(multiset(ms.bids.offers)) + multiset(read.value.bids)
              && ms.transactions == old(ms.transactions) + read.value.transactions
    ensures old(Sorted(ms.asks.offers)) ==> Sorted(ms.asks.offers)
    ensures old(Sorted(ms.bids.offers)) ==> Sorted(ms.bids.offers)
  {
    rest := ParseQueue(input, ms.asks);
    if rest.Bad? { return; }
    rest := ParseQueue(rest.rest, ms.bids);
    if rest.Bad? { return; }
    rest := ParseTrades(rest.rest, ms);
  }

  /** A market state written to text and read into an empty one: the same trades, the same queues up to ties. */
  method StateTrip(ms: MarketState, into: MarketState) returns (back: Read<()>)
    requires Sorted(ms.bids.offers) && Sorted(ms.asks.offers) && FitsState(ms.Contents())
    requires into.Valid() && into.Contents() == StateText([], [], [])
    requires {ms, ms.bids, ms.asks} !! {into, into.bids, into.asks}
    modifies into, into.bids, into.asks
    ensures back.Got? && into.transactions == ms.transactions
    ensures multiset(into.bids.offers) == multiset(ms.bids.offers) && SameKeys(into.bids.offers, ms.bids.offers)
    ensures multiset(into.asks.offers) == multiset(ms.asks.offers) && SameKeys(into.asks.offers, ms.asks.offers)
  {
    var text := WriteState(ms);
    StateRoundTrip(ms.Contents(), "");
    assert text + "" == text;
    back := ParseState(text, into);
    ResortedQueue(ms.bids.offers, into.bids.offers);
    ResortedQueue(ms.asks.offers, into.asks.offers);
  }
}
