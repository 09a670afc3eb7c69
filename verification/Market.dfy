/** The market objects, updated in place, against the order book as a value. */
module Markets {
  import opened Values
  import opened Offers
  import opened OrderBooks

  /** One place of the library sort: put `o` into a sorted queue. */
  function InsertSorted(q: seq<Offer>, o: Offer): (r: seq<Offer>)
    requires Sorted(q)
    ensures Inserted(q, o, r)
  {
    if q == [] then [o]
    else
      var front, last := q[..|q| - 1], q[|q| - 1];
      assert q == front + [last];
      if AtMost(last, o) then
        q + [o]
      else
        var r := InsertSorted(front, o);
        InsertedMembers(front, o, r);
        assert forall x :: x in r ==> AtMost(x, last);
        assert multiset(r + [last]) == multiset(front) + multiset{o} + multiset{last};
        r + [last]
  }

  /** The library sort; callers may use only that the result is some sorted permutation. */
  method SortOffers(q: seq<Offer>) returns (r: seq<Offer>)
    ensures Sorted(r) && multiset(r) == multiset(q)
  {
    r := [];
    for i := 0 to |q|
      invariant Sorted(r) && multiset(r) == multiset(q[..i])
    {
      r := InsertSorted(r, q[i]);
      assert q[..i + 1] == q[..i] + [q[i]];
    }
    assert q[..|q|] == q;
  }

  class OfferQueue {
    var offers: seq<Offer>

    constructor ()
      ensures offers == []
    {
      offers := [];
    }

    method PushBack(offer: Offer)
      modifies this
      ensures Inserted(old(offers), offer, offers)
    {
      offers := offers + [offer];
      offers := SortOffers(offers);
    }

    method Retract(id: nat)
      modifies this
      ensures offers == Without(old(offers), id)
    {
      offers := Without(offers, id);
    }

    method Clear()
      modifies this
      ensures offers == []
    {
      offers := [];
    }

    function StandingOffer(): Option<Offer>
      reads this
    {
      Standing(offers)
    }

    function OffersBy(player: nat): seq<Offer>
      reads this
    {
      OffersOf(offers, player)
    }
  }

  class Market {
    const bids: OfferQueue
    const asks: OfferQueue

    constructor ()
      ensures Valid() && fresh(bids) && fresh(asks) && Contents() == EMPTY_BOOK
    {
      bids := new OfferQueue();
      asks := new OfferQueue();
    }

    ghost predicate Valid() {
      bids != asks
    }

    function Contents(): Book
      reads bids, asks
    {
      Book(bids.offers, asks.offers)
    }

    method AddOffer(offer: Offer)
      requires Valid()
      modifies bids, asks
      ensures Contents() == WithSide(old(Contents()), offer, Side(Contents(), offer))
      ensures Inserted(Side(old(Contents()), offer), offer, Side(Contents(), offer))
    {
      if offer.price < 0 {
        asks.PushBack(offer);
      } else {
        bids.PushBack(offer);
      }
    }

    method PopTrade() returns (trade: Option<Trade>)
      requires Valid()
      modifies bids, asks
      ensures trade == Peek(old(Contents()))
      ensures trade.Some? ==>
                var b := old(Contents());
                && b.bids != [] && b.asks != []
                && Records(trade.value, b.bids[|b.bids| - 1], b.asks[|b.asks| - 1])
      ensures Contents() == Popped(old(Contents()))
    {
      PeekRecords(Contents());
      trade := Peek(Contents());
      if trade.Some? {
        bids.Retract(trade.value.bidId);
        asks.Retract(trade.value.askId);
      }
    }

    /**
     * One pop after each push. On an uncrossed book with a fresh id the pop
     * trades exactly when the offer crosses the best opposite one, the offer
     * itself is the other party, and the book is uncrossed again.
     */
    method ProcessOffer(offer: Offer) returns (trade: Option<Trade>, ghost sorted: seq<Offer>)
      requires Valid()
      modifies bids, asks
      ensures Inserted(Side(old(Contents()), offer), offer, sorted)
      ensures trade == Peek(WithSide(old(Contents()), offer, sorted))
      ensures Contents() == Popped(WithSide(old(Contents()), offer, sorted))
      ensures BookOk(old(Contents())) && Fresh(old(Contents()), offer) ==>
                && BookOk(Contents())
                && var best := Standing(Opposite(old(Contents()), offer));
                trade == if best.Some? && Crosses(offer, best.value) then Some(TradeWith(offer, best.value)) else None
    {
      ghost var before := Contents();
      AddOffer(offer);
      sorted := Side(Contents(), offer);
      trade := PopTrade();
      if BookOk(before) && Fresh(before, offer) {
        var best := Standing(Opposite(before, offer));
        if best.Some? && Crosses(offer, best.value) {
          MatchSome(before, offer, sorted);
        } else {
          MatchNone(before, offer, sorted);
        }
      }
    }

    method Retract(id: nat)
      requires Valid()
      modifies bids, asks
      ensures Contents() == Retracted(old(Contents()), id)
    {
      bids.Retract(id);
      asks.Retract(id);
    }

    method Clear()
      requires Valid()
      modifies bids, asks
      ensures Contents() == EMPTY_BOOK
    {
      bids.Clear();
      asks.Clear();
    }
  }
}
