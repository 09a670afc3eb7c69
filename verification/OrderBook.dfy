/** The order book as a value: what retraction and matching do to it, and what every reachable book satisfies. */
module OrderBooks {
  import opened Values
  import opened Offers

  /** A trade pays `price` to the seller, at the time of the later offer. */
  datatype Trade = Trade(buyer: nat, seller: nat, price: int, timestamp: nat, bidId: nat, askId: nat)

  /** The two queues as values. */
  datatype Book = Book(bids: seq<Offer>, asks: seq<Offer>)

  const EMPTY_BOOK := Book([], [])

  predicate IsAsk(o: Offer) {
    o.price < 0
  }

  /** The queue an offer belongs in. */
  function Side(b: Book, o: Offer): seq<Offer> {
    if IsAsk(o) then b.asks else b.bids
  }

  /** The queue an offer is matched against. */
  function Opposite(b: Book, o: Offer): seq<Offer> {
    if IsAsk(o) then b.bids else b.asks
  }

  function WithSide(b: Book, o: Offer, q: seq<Offer>): Book {
    if IsAsk(o) then b.(asks := q) else b.(bids := q)
  }

  predicate CanTrade(bid: Offer, ask: Offer) {
    bid.price + ask.price >= 0
  }

  /** Whether two offers, in either order, are a bid and an ask that can trade. */
  predicate Crosses(o: Offer, resting: Offer) {
    if IsAsk(o) then CanTrade(resting, o) else CanTrade(o, resting)
  }

  function TradeOf(bid: Offer, ask: Offer): Trade {
    Trade(bid.player, ask.player,
          if bid.time > ask.time then -ask.price else bid.price,
          if bid.time > ask.time then bid.time else ask.time,
          bid.id, ask.id)
  }

  /**
   * `t` records a trade of these two: their parties and ids, the time of the
   * later of them, and the limit of the earlier of them as the price.
   */
  ghost predicate Records(t: Trade, bid: Offer, ask: Offer) {
    && t.buyer == bid.player && t.seller == ask.player && t.bidId == bid.id && t.askId == ask.id
    && t.timestamp >= bid.time && t.timestamp >= ask.time
    && (t.timestamp == bid.time || t.timestamp == ask.time)
    && (ask.time < bid.time ==> t.price == -ask.price)
    && (bid.time <= ask.time ==> t.price == bid.price)
  }

  /** The trade between the standing offers, if they cross. */
  function Peek(b: Book): Option<Trade> {
    if b.bids == [] || b.asks == [] then None
    else
      var bid, ask := b.bids[|b.bids| - 1], b.asks[|b.asks| - 1];
      if CanTrade(bid, ask) then Some(TradeOf(bid, ask)) else None
  }

  /** The book after PopTrade. */
  function Popped(b: Book): Book {
    match Peek(b)
    case None => b
    case Some(t) => Book(Without(b.bids, t.bidId), Without(b.asks, t.askId))
  }

  function Retracted(b: Book, id: nat): Book {
    Book(Without(b.bids, id), Without(b.asks, id))
  }

  /** Retraction of a list of offers, one id after the other. */
  function RetractAll(b: Book, gone: seq<Offer>): Book {
    if gone == [] then b
    else Retracted(RetractAll(b, gone[..|gone| - 1]), gone[|gone| - 1].id)
  }

  function GetOffer(b: Book, id: nat): Option<Offer> {
    var bid := Find(b.bids, id);
    if bid.Some? then bid else Find(b.asks, id)
  }

  function BookTotal(b: Book, m: Measure): int {
    Total(b.bids, m) + Total(b.asks, m)
  }

  ghost predicate Resting(b: Book, o: Offer) {
    o in b.bids || o in b.asks
  }

  // ---- What every reachable book satisfies -----------------------------

  ghost predicate Uncrossed(b: Book) {
    forall bid, ask | bid in b.bids && ask in b.asks :: !CanTrade(bid, ask)
  }

  /** Sorted queues, prices on their own side, no id twice, nothing left to trade. */
  ghost predicate BookOk(b: Book) {
    && Sorted(b.bids) && Sorted(b.asks)
    && (forall o | o in b.bids :: o.price >= 0)
    && (forall o | o in b.asks :: o.price < 0)
    && (forall id :: BookTotal(b, HasId(id)) <= 1)
    && Uncrossed(b)
  }

  lemma IdUniqueInQueues(b: Book, id: nat)
    requires BookOk(b)
    ensures 0 <= Total(b.bids, HasId(id)) && 0 <= Total(b.asks, HasId(id))
    ensures Total(b.bids, HasId(id)) + Total(b.asks, HasId(id)) <= 1
  {
    TotalNonNegative(b.bids, HasId(id));
    TotalNonNegative(b.asks, HasId(id));
    assert BookTotal(b, HasId(id)) <= 1;
  }

  /** Two resting offers with one id are the same offer, on the same side. */
  lemma RestingUnique(b: Book, x: Offer, y: Offer)
    requires BookOk(b) && Resting(b, x) && Resting(b, y) && x.id == y.id
    ensures x == y && (x in b.bids <==> y in b.bids)
  {
    IdUniqueInQueues(b, x.id);
    forall z | z == x || z == y
      ensures z in b.bids ==> Total(b.bids, HasId(x.id)) >= 1
      ensures z in b.asks ==> Total(b.asks, HasId(x.id)) >= 1
    {
      if z in b.bids { TotalAtLeastMember(b.bids, HasId(x.id), z); }
      if z in b.asks { TotalAtLeastMember(b.asks, HasId(x.id), z); }
    }
    UniqueInQueue(if x in b.bids then b.bids else b.asks, x, y);
  }

  lemma {:induction false} UniqueInQueue(q: seq<Offer>, x: Offer, y: Offer)
    requires x in q && y in q && x.id == y.id && Total(q, HasId(x.id)) <= 1
    ensures x == y
  {
    var front, last := q[..|q| - 1], q[|q| - 1];
    assert q == front + [last];
    TotalNonNegative(front, HasId(x.id));
    if last.id == x.id {
      if x in front { TotalAtLeastMember(front, HasId(x.id), x); }
      if y in front { TotalAtLeastMember(front, HasId(x.id), y); }
    } else {
      UniqueInQueue(front, x, y);
    }
  }

  // ---- Retraction ------------------------------------------------------

  ghost predicate IdAmong(gone: seq<Offer>, id: nat) {
    exists g :: g in gone && g.id == id
  }

  lemma RetractedMembers(b: Book, id: nat)
    ensures forall x :: x in Retracted(b, id).bids <==> x in b.bids && x.id != id
    ensures forall x :: x in Retracted(b, id).asks <==> x in b.asks && x.id != id
  {
    WithoutMembers(b.bids, id);
    WithoutMembers(b.asks, id);
  }

  /** Taking offers out never breaks the book. */
  lemma RetractedOk(b: Book, id: nat)
    requires BookOk(b)
    ensures BookOk(Retracted(b, id))
  {
    var r := Retracted(b, id);
    RetractedMembers(b, id);
    WithoutSorted(b.bids, id);
    WithoutSorted(b.asks, id);
    forall i
      ensures BookTotal(r, HasId(i)) <= 1
    {
      assert BookTotal(b, HasId(i)) <= 1;
      WithoutTotalAtMost(b.bids, id, HasId(i));
      WithoutTotalAtMost(b.asks, id, HasId(i));
    }
  }

  /** Retraction by id removes the one offer with that id from its side and touches nothing else. */
  lemma RetractedTotals(b: Book, o: Offer, m: Measure)
    requires BookOk(b) && Resting(b, o)
    ensures Total(Side(Retracted(b, o.id), o), m) == Total(Side(b, o), m) - Weigh(m, o)
    ensures Opposite(Retracted(b, o.id), o) == Opposite(b, o)
  {
    IdUniqueInQueues(b, o.id);
    TotalAtLeastMember(Side(b, o), HasId(o.id), o);
    WithoutTotal(Side(b, o), o, m);
    WithoutAbsent(Opposite(b, o), o.id);
  }

  lemma {:induction false} NoneHasId(q: seq<Offer>, id: nat)
    requires forall o | o in q :: o.id != id
    ensures Total(q, HasId(id)) == 0
  {
    if q != [] {
      NoneHasId(q[..|q| - 1], id);
    }
  }

  /** Retracting a list leaves exactly the offers whose ids it does not name. */
  lemma {:induction false} RetractAllMembers(b: Book, gone: seq<Offer>)
    requires BookOk(b)
    ensures BookOk(RetractAll(b, gone))
    ensures forall x :: x in RetractAll(b, gone).bids <==> x in b.bids && !IdAmong(gone, x.id)
    ensures forall x :: x in RetractAll(b, gone).asks <==> x in b.asks && !IdAmong(gone, x.id)
  {
    if gone != [] {
      var front, last := gone[..|gone| - 1], gone[|gone| - 1];
      assert gone == front + [last];
      RetractAllMembers(b, front);
      RetractedOk(RetractAll(b, front), last.id);
      RetractedMembers(RetractAll(b, front), last.id);
      forall id
        ensures IdAmong(gone, id) <==> IdAmong(front, id) || last.id == id
      {
        assert last in gone;
        if IdAmong(front, id) {
          var g :| g in front && g.id == id;
          assert g in gone;
        }
      }
    }
  }

  /** What a list of retractions takes from its side is exactly the list. */
  lemma {:induction false} RetractAllTotals(b: Book, o: Offer, gone: seq<Offer>, m: Measure)
    requires BookOk(b)
    requires forall g | g in gone :: g in Side(b, o)
    requires forall id :: Total(gone, HasId(id)) <= 1
    ensures Total(Side(RetractAll(b, gone), o), m) == Total(Side(b, o), m) - Total(gone, m)
    ensures Opposite(RetractAll(b, gone), o) == Opposite(b, o)
  {
    if gone != [] {
      var front, last := gone[..|gone| - 1], gone[|gone| - 1];
      assert gone == front + [last];
      forall id
        ensures Total(front, HasId(id)) <= 1
      {
        assert Total(gone, HasId(id)) <= 1;
      }
      RetractAllTotals(b, o, front, m);
      RetractAllMembers(b, front);
      assert Total(gone, HasId(last.id)) <= 1;
      assert !IdAmong(front, last.id) by {
        if g :| g in front && g.id == last.id {
          TotalAtLeastMember(front, HasId(last.id), g);
        }
      }
      assert last in Side(RetractAll(b, front), o);
      assert IsAsk(last) <==> IsAsk(o);
      RetractedTotals(RetractAll(b, front), last, m);
    }
  }

  /** A player's own offers can be retracted as such a list. */
  lemma {:induction false} OffersOfOnce(q: seq<Offer>, player: nat, id: nat)
    ensures Total(OffersOf(q, player), HasId(id)) <= Total(q, HasId(id))
  {
    if q != [] {
      var front, last := q[..|q| - 1], q[|q| - 1];
      OffersOfOnce(front, player, id);
      TotalSnoc(OffersOf(front, player), last, HasId(id));
    }
  }

  // ---- One incoming offer ----------------------------------------------

  /** The trade between an incoming offer and a resting one. */
  function TradeWith(o: Offer, resting: Offer): Trade {
    if IsAsk(o) then TradeOf(resting, o) else TradeOf(o, resting)
  }

  ghost predicate Fresh(b: Book, o: Offer) {
    BookTotal(b, HasId(o.id)) == 0
  }

  /**
   * The book an offer meets is uncrossed, so the one PopTrade after it clears
   * every possible trade: it trades with the best opposite offer if and only
   * if it crosses some opposite offer at all.
   */
  lemma MatchNone(b: Book, o: Offer, sorted: seq<Offer>)
    requires BookOk(b) && Fresh(b, o) && Inserted(Side(b, o), o, sorted)
    requires Standing(Opposite(b, o)).Some? ==> !Crosses(o, Standing(Opposite(b, o)).value)
    ensures Peek(WithSide(b, o, sorted)) == None
    ensures BookOk(WithSide(b, o, sorted))
  {
    var placed := WithSide(b, o, sorted);
    InsertedMembers(Side(b, o), o, sorted);
    forall id
      ensures BookTotal(placed, HasId(id)) <= 1
    {
      InsertedTotal(Side(b, o), o, sorted, HasId(id));
      assert BookTotal(b, HasId(id)) <= 1;
    }
    forall bid, ask | bid in placed.bids && ask in placed.asks
      ensures !CanTrade(bid, ask)
    {
      var x := if IsAsk(o) then bid else ask;
      if bid == o || ask == o {
        assert x in Opposite(b, o);
        StandingIsBest(Opposite(b, o), x);
      }
    }
  }

  lemma MatchSome(b: Book, o: Offer, sorted: seq<Offer>)
    requires BookOk(b) && Fresh(b, o) && Inserted(Side(b, o), o, sorted)
    requires Standing(Opposite(b, o)).Some? && Crosses(o, Standing(Opposite(b, o)).value)
    ensures var placed, best := WithSide(b, o, sorted), Standing(Opposite(b, o)).value;
            && best in Opposite(b, o)
            && Peek(placed) == Some(TradeWith(o, best))
            && Side(Popped(placed), o) == Without(sorted, o.id)
            && multiset(Without(sorted, o.id)) == multiset(Side(b, o))
            && Opposite(Popped(placed), o) == Without(Opposite(b, o), best.id)
            && BookOk(Popped(placed))
            && Peek(Popped(placed)) == None
  {
    var best := Standing(Opposite(b, o)).value;
    StandsFirst(b, o, sorted);
    IdUniqueInQueues(b, o.id);
    InsertedThenWithout(Side(b, o), o, sorted);
    WithoutSorted(Opposite(b, o), best.id);
    WithoutSorted(sorted, o.id);
    var after := Popped(WithSide(b, o, sorted));
    SameBagOk(b, best.id, o, after);
  }

  /** An offer that crosses stands first on its own side: no resting offer there crosses. */
  lemma StandsFirst(b: Book, o: Offer, sorted: seq<Offer>)
    requires BookOk(b) && Inserted(Side(b, o), o, sorted)
    requires Standing(Opposite(b, o)).Some? && Crosses(o, Standing(Opposite(b, o)).value)
    ensures Standing(sorted) == Some(o)
    ensures Peek(WithSide(b, o, sorted)) == Some(TradeWith(o, Standing(Opposite(b, o)).value))
  {
    InsertedMembers(Side(b, o), o, sorted);
    StandingIsBest(sorted, o);
    var top, best := Standing(sorted).value, Standing(Opposite(b, o)).value;
    assert best in Opposite(b, o) && (top in Side(b, o) || top == o);
    assert top.price + best.price >= 0;
  }

  /**
   * Soundness of the book depends on its queues only as bags: the popped book is
   * the book less the best opposite offer.
   */
  lemma SameBagOk(b: Book, id: nat, o: Offer, after: Book)
    requires BookOk(b) && Sorted(after.bids) && Sorted(after.asks)
    requires Opposite(after, o) == Without(Opposite(b, o), id)
    requires multiset(Side(after, o)) == multiset(Side(b, o))
    ensures BookOk(after) && Peek(after) == None
  {
    WithoutMembers(Opposite(b, o), id);
    forall x
      ensures x in Side(after, o) <==> x in Side(b, o)
    {
      assert x in Side(after, o) <==> x in multiset(Side(after, o));
      assert x in Side(b, o) <==> x in multiset(Side(b, o));
    }
    forall i
      ensures BookTotal(after, HasId(i)) <= 1
    {
      TotalPermutation(Side(after, o), Side(b, o), HasId(i));
      assert BookTotal(b, HasId(i)) <= 1;
      WithoutTotalAtMost(Opposite(b, o), id, HasId(i));
    }
    UncrossedHasNoTrade(after);
  }

  /** On an uncrossed book there is nothing to pop. */
  lemma UncrossedHasNoTrade(b: Book)
    requires Uncrossed(b)
    ensures Peek(b) == None
  {
  }

  /** A potential trade records the two standing offers, and is there exactly if the bid offers what the ask asks. */
  lemma PeekRecords(b: Book)
    ensures Peek(b).Some?
       <==> && b.bids != [] && b.asks != []
            && b.bids[|b.bids| - 1].price >= -b.asks[|b.asks| - 1].price
    ensures Peek(b).Some? ==> Records(Peek(b).value, b.bids[|b.bids| - 1], b.asks[|b.asks| - 1])
  {
  }

  /** A trade price lies between the two limits; a bidder never pays more than it bid. */
  lemma TradePriceWithinLimits(bid: Offer, ask: Offer)
    requires bid.price >= 0 && ask.price < 0 && CanTrade(bid, ask)
    ensures 0 < -ask.price <= TradeOf(bid, ask).price <= bid.price
  {
  }
}
