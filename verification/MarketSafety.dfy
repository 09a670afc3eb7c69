/** What market activity keeps: the book stays sound, nobody sells short, cash covers resting bids. */
module MarketSafety {
  import opened Values
  import opened Offers
  import opened OrderBooks
  import opened Portfolios
  import opened OfferProcessing

  /** A sound desk: `nextId` is the id the controller gives to the next offer. */
  ghost predicate DeskOk(d: Desk, nextId: nat) {
    && BookOk(d.book)
    && forall o | Resting(d.book, o) :: o.player in d.folios && o.id < nextId && -MAX_PRICE <= o.price <= MAX_PRICE
  }

  /** Nobody has more asks resting than units to deliver. */
  ghost predicate UnitsCovered(d: Desk) {
    forall p: nat :: Total(d.book.asks, CountOf(p)) > 0 ==> Held(d.folios, p, Shares) >= Total(d.book.asks, CountOf(p))
  }

  ghost predicate UnitsNonNegative(d: Desk) {
    forall p: nat :: Held(d.folios, p, Shares) >= 0
  }

  /** Each subject's cash covers all of its resting bids together. */
  ghost predicate CashCovers(d: Desk) {
    forall p: nat :: Held(d.folios, p, Cash) >= Total(d.book.bids, PriceOf(p))
  }

  /** The resting offer that an incoming offer trades with, if any. */
  function Counterpart(d: Desk, o: Offer): Option<Offer> {
    var best := Standing(Opposite(d.book, o));
    if best.Some? && Crosses(o, best.value) then best else None
  }

  ghost predicate WillAccept(d: Desk, nextId: nat, o: Offer, sorted: seq<Offer>) {
    && DeskOk(d, nextId)
    && o.id == nextId
    && Judge(d, o) == Did(OfferValidity.Accepted)
    && PossibleSort(d, o, sorted)
  }

  // ---- The effect of an accepted offer ----------------------------------

  lemma {:induction false} ReplacedFacts(d: Desk, o: Offer)
    requires BookOk(d.book)
    ensures forall g | g in Replaced(d, o) :: g in Side(d.book, o) && g.player == o.player
    ensures forall id :: Total(Replaced(d, o), HasId(id)) <= 1
  {
    OffersOfMembers(Side(d.book, o), o.player);
    forall id
      ensures Total(Replaced(d, o), HasId(id)) <= 1
    {
      OffersOfOnce(Side(d.book, o), o.player, id);
      IdUniqueInQueues(d.book, id);
    }
  }

  /** Replacement removes from the incoming side what it reports, and nothing from the other side. */
  lemma BookForFacts(d: Desk, nextId: nat, o: Offer)
    requires DeskOk(d, nextId) && o.id == nextId
    ensures BookOk(BookFor(d, o)) && Fresh(BookFor(d, o), o)
    ensures Opposite(BookFor(d, o), o) == Opposite(d.book, o)
    ensures forall x :: x in Side(BookFor(d, o), o) ==> x in Side(d.book, o)
  {
    ReplacedFacts(d, o);
    RetractAllMembers(d.book, Replaced(d, o));
    RetractAllTotals(d.book, o, Replaced(d, o), Each);
    NoneHasId(BookFor(d, o).bids, o.id);
    NoneHasId(BookFor(d, o).asks, o.id);
  }

  /**
   * An accepted offer replaces, is pushed, and trades with the best opposite
   * offer exactly when it crosses it; the owner of that offer is another
   * subject. The book it leaves is sound and uncrossed.
   */
  lemma MatchResult(d: Desk, nextId: nat, o: Offer, sorted: seq<Offer>)
    requires WillAccept(d, nextId, o, sorted)
    ensures var c, placed := Counterpart(d, o), WithSide(BookFor(d, o), o, sorted);
            && BookOk(Popped(placed))
            && Peek(Popped(placed)) == None
            && Peek(placed) == (if c.Some? then Some(TradeWith(o, c.value)) else None)
            && (c.Some? ==> c.value in Opposite(d.book, o) && c.value.player != o.player)
            && (forall x | Resting(Popped(placed), x) :: Resting(d.book, x) || x == o)
  {
    BookForFacts(d, nextId, o);
    var b, c := BookFor(d, o), Counterpart(d, o);
    InsertedMembers(Side(b, o), o, sorted);
    if c.Some? {
      MatchSome(b, o, sorted);
      WithoutMembers(sorted, o.id);
      WithoutMembers(Opposite(b, o), c.value.id);
    } else {
      MatchNone(b, o, sorted);
    }
  }

  /** How an accepted offer moves any total over either side of the book. */
  lemma OfferTotals(d: Desk, nextId: nat, o: Offer, sorted: seq<Offer>, m: Measure)
    requires WillAccept(d, nextId, o, sorted)
    ensures var c, after := Counterpart(d, o), Popped(WithSide(BookFor(d, o), o, sorted));
            && Total(Side(after, o), m)
               == Total(Side(d.book, o), m) - Total(Replaced(d, o), m) + (if c.Some? then 0 else Weigh(m, o))
            && Total(Opposite(after, o), m)
               == Total(Opposite(d.book, o), m) - (if c.Some? then Weigh(m, c.value) else 0)
  {
    BookForFacts(d, nextId, o);
    ReplacedFacts(d, o);
    var b, c := BookFor(d, o), Counterpart(d, o);
    RetractAllTotals(d.book, o, Replaced(d, o), m);
    if c.Some? {
      MatchSome(b, o, sorted);
      TotalPermutation(Without(sorted, o.id), Side(b, o), m);
      IdUniqueInQueues(b, c.value.id);
      WithoutTotal(Opposite(b, o), c.value, m);
    } else {
      MatchNone(b, o, sorted);
      InsertedTotal(Side(b, o), o, sorted, m);
    }
  }

  /** How a trade moves the count of one item of one subject. */
  function TradeShift(t: Trade, id: nat, item: Item): int {
    if item == Shares then (if id == t.buyer then 1 else if id == t.seller then -1 else 0)
    else if item == Cash then (if id == t.buyer then -t.price else if id == t.seller then t.price else 0)
    else 0
  }

  lemma SettleShifts(folios: Folios, t: Trade)
    requires t.buyer in folios && t.seller in folios && t.buyer != t.seller
    ensures Settle(folios, Some(t)).Did? && Settle(folios, Some(t)).value.Keys == folios.Keys
    ensures forall j, i :: Held(Settle(folios, Some(t)).value, j, i) == Held(folios, j, i) + TradeShift(t, j, i)
  {
  }

  /** Settlement finds both portfolios, and moves one unit one way and the price the other. */
  lemma OfferHoldings(d: Desk, nextId: nat, o: Offer, sorted: seq<Offer>)
    requires WillAccept(d, nextId, o, sorted)
    ensures ProcessOffer(d, o, sorted).Did?
    ensures var c, after := Counterpart(d, o), ProcessOffer(d, o, sorted).value.desk;
            && after.folios.Keys == d.folios.Keys
            && (c.None? ==> after.folios == d.folios)
            && (c.Some? ==>
                  forall j, i :: Held(after.folios, j, i)
                      == Held(d.folios, j, i) + TradeShift(TradeWith(o, c.value), j, i))
  {
    MatchResult(d, nextId, o, sorted);
    var c := Counterpart(d, o);
    if c.Some? {
      SettleShifts(d.folios, TradeWith(o, c.value));
    }
  }

  /** The whole effect of an accepted offer, in terms of totals and holdings. */
  ghost predicate OfferEffect(d: Desk, o: Offer, after: Desk, c: Option<Offer>, gone: seq<Offer>) {
    && after.exp == d.exp && after.config == d.config && after.folios.Keys == d.folios.Keys
    // The guards passed.
    && (IsAsk(o) ==> Held(d.folios, o.player, Shares) > Total(d.book.asks, CountOf(o.player)))
    && (!IsAsk(o) ==> Held(d.folios, o.player, Cash) >= o.price + Total(d.book.bids, PriceOf(o.player)))
    // It trades with the counterpart, and replaces offers of its own.
    && (c.Some? ==> c.value in Opposite(d.book, o) && c.value.player != o.player && Crosses(o, c.value))
    && (forall g | g in gone :: g in Side(d.book, o) && g.player == o.player)
    // Both sides of the book, and every portfolio.
    && (forall m :: Total(Side(after.book, o), m)
                    == Total(Side(d.book, o), m) - Total(gone, m) + if c.Some? then 0 else Weigh(m, o))
    && (forall m :: Total(Opposite(after.book, o), m)
                    == Total(Opposite(d.book, o), m) - if c.Some? then Weigh(m, c.value) else 0)
    && (forall j, i :: Held(after.folios, j, i)
                       == Held(d.folios, j, i) + if c.Some? then TradeShift(TradeWith(o, c.value), j, i) else 0)
  }

  lemma OfferHasEffect(d: Desk, nextId: nat, o: Offer, sorted: seq<Offer>)
    requires WillAccept(d, nextId, o, sorted)
    ensures ProcessOffer(d, o, sorted).Did?
    ensures OfferEffect(d, o, ProcessOffer(d, o, sorted).value.desk, Counterpart(d, o), Replaced(d, o))
  {
    OfferHoldings(d, nextId, o, sorted);
    MatchResult(d, nextId, o, sorted);
    ReplacedFacts(d, o);
    OffersOfMembers(d.book.asks, o.player);
    OffersOfMembers(d.book.bids, o.player);
    forall m
      ensures var c, after := Counterpart(d, o), Popped(WithSide(BookFor(d, o), o, sorted));
              && Total(Side(after, o), m)
                 == Total(Side(d.book, o), m) - Total(Replaced(d, o), m) + (if c.Some? then 0 else Weigh(m, o))
              && Total(Opposite(after, o), m)
                 == Total(Opposite(d.book, o), m) - (if c.Some? then Weigh(m, c.value) else 0)
    {
      OfferTotals(d, nextId, o, sorted, m);
    }
  }

  // ---- Every market step keeps the desk sound ----------------------------

  lemma OfferKeepsDesk(d: Desk, nextId: nat, o: Offer, sorted: seq<Offer>)
    requires DeskOk(d, nextId) && o.id == nextId && PossibleSort(d, o, sorted)
    ensures ProcessOffer(d, o, sorted).Threw? <==> Judge(d, o).Threw?
    ensures ProcessOffer(d, o, sorted).Did? ==>
              var after := ProcessOffer(d, o, sorted).value.desk;
              DeskOk(after, nextId + 1) && after.folios.Keys == d.folios.Keys
  {
    if Judge(d, o) == Did(OfferValidity.Accepted) {
      MatchResult(d, nextId, o, sorted);
      OfferHoldings(d, nextId, o, sorted);
    }
  }

  lemma RetractKeepsDesk(d: Desk, nextId: nat, rr: RetractRequest)
    requires DeskOk(d, nextId)
    ensures DeskOk(ProcessRetract(d, rr).desk, nextId)
  {
    RetractedOk(d.book, rr.offerId);
    RetractedMembers(d.book, rr.offerId);
  }

  /** Retraction takes away exactly the named offer, from its owner's own totals. */
  lemma RetractTotals(d: Desk, nextId: nat, rr: RetractRequest, m: Measure)
    requires DeskOk(d, nextId) && JudgeRetract(d, rr).Accepted?
    ensures var o, after := GetOffer(d.book, rr.offerId).value, ProcessRetract(d, rr).desk;
            && Resting(d.book, o) && o.id == rr.offerId && o.player == rr.id
            && Total(Side(after.book, o), m) == Total(Side(d.book, o), m) - Weigh(m, o)
            && Opposite(after.book, o) == Opposite(d.book, o)
  {
    RetractedTotals(d.book, GetOffer(d.book, rr.offerId).value, m);
  }

  // ---- Nobody sells short ------------------------------------------------

  lemma OfferKeepsUnits(d: Desk, o: Offer, after: Desk, c: Option<Offer>, gone: seq<Offer>)
    requires OfferEffect(d, o, after, c, gone) && UnitsCovered(d)
    ensures UnitsCovered(after)
    ensures UnitsNonNegative(d) ==> UnitsNonNegative(after)
  {
    forall p: nat
      ensures Total(after.book.asks, CountOf(p)) > 0
              ==> Held(after.folios, p, Shares) >= Total(after.book.asks, CountOf(p))
      ensures UnitsNonNegative(d) ==> Held(after.folios, p, Shares) >= 0
    {
      OfferKeepsUnitsOf(d, o, after, c, gone, p);
    }
  }

  lemma OfferKeepsUnitsOf(d: Desk, o: Offer, after: Desk, c: Option<Offer>, gone: seq<Offer>, p: nat)
    requires OfferEffect(d, o, after, c, gone) && UnitsCovered(d)
    ensures Total(after.book.asks, CountOf(p)) > 0
            ==> Held(after.folios, p, Shares) >= Total(after.book.asks, CountOf(p))
    ensures Held(d.folios, p, Shares) >= 0 ==> Held(after.folios, p, Shares) >= 0
  {
    var m := CountOf(p);
    TotalNonNegative(gone, m);
    TotalNonNegative(d.book.asks, m);
    if c.Some? && !IsAsk(o) {
      TotalAtLeastMember(d.book.asks, CountOf(c.value.player), c.value);
    }
    if IsAsk(o) {
      assert Total(Side(after.book, o), m) == Total(after.book.asks, m);
    } else {
      assert Total(Opposite(after.book, o), m) == Total(after.book.asks, m);
    }
    assert Held(after.folios, p, Shares)
        == Held(d.folios, p, Shares) + if c.Some? then TradeShift(TradeWith(o, c.value), p, Shares) else 0;
  }

  lemma RetractKeepsUnits(d: Desk, nextId: nat, rr: RetractRequest)
    requires DeskOk(d, nextId) && UnitsCovered(d)
    ensures UnitsCovered(ProcessRetract(d, rr).desk)
  {
    if JudgeRetract(d, rr).Accepted? {
      forall p: nat
        ensures Total(ProcessRetract(d, rr).desk.book.asks, CountOf(p)) <= Total(d.book.asks, CountOf(p))
      {
        WithoutTotalAtMost(d.book.asks, rr.offerId, CountOf(p));
      }
    }
  }

  // ---- Cash covers resting bids ---------------------------------------

  lemma OfferKeepsCash(d: Desk, o: Offer, after: Desk, c: Option<Offer>, gone: seq<Offer>)
    requires OfferEffect(d, o, after, c, gone) && BookOk(d.book) && CashCovers(d)
    ensures CashCovers(after)
  {
    forall p: nat
      ensures Held(after.folios, p, Cash) >= Total(after.book.bids, PriceOf(p))
    {
      OfferKeepsCashOf(d, o, after, c, gone, p);
    }
  }

  lemma OfferKeepsCashOf(d: Desk, o: Offer, after: Desk, c: Option<Offer>, gone: seq<Offer>, p: nat)
    requires OfferEffect(d, o, after, c, gone) && BookOk(d.book) && CashCovers(d)
    ensures Held(after.folios, p, Cash) >= Total(after.book.bids, PriceOf(p))
  {
    var m := PriceOf(p);
    if IsAsk(o) {
      assert Total(Opposite(after.book, o), m) == Total(after.book.bids, m);
    } else {
      TotalNonNegative(gone, m);
      assert Total(Side(after.book, o), m) == Total(after.book.bids, m);
    }
    if c.Some? {
      TradePriceWithinLimits(if IsAsk(o) then c.value else o, if IsAsk(o) then o else c.value);
    }
    assert Held(after.folios, p, Cash)
        == Held(d.folios, p, Cash) + if c.Some? then TradeShift(TradeWith(o, c.value), p, Cash) else 0;
  }

  lemma RetractKeepsCash(d: Desk, nextId: nat, rr: RetractRequest)
    requires DeskOk(d, nextId) && CashCovers(d)
    ensures CashCovers(ProcessRetract(d, rr).desk)
  {
    if JudgeRetract(d, rr).Accepted? {
      forall p: nat
        ensures Total(ProcessRetract(d, rr).desk.book.bids, PriceOf(p)) <= Total(d.book.bids, PriceOf(p))
      {
        RetractTotals(d, nextId, rr, PriceOf(p));
      }
    }
  }

  /** A creation keeps cash cover exactly when cash less margin still covers the creator's bids. */
  lemma CreateKeepsCashIff(d: Desk, id: nat)
    requires CashCovers(d) && ProcessCreate(d, id).Did? && ProcessCreate(d, id).value.result.validity.Accepted?
    ensures CashCovers(ProcessCreate(d, id).value.desk)
       <==> Held(d.folios, id, Cash) - d.config.GetRoundConfiguration(d.exp.round).value.marginReq
            >= SumPrices(OffersOf(d.book.bids, id))
  {
    var after := ProcessCreate(d, id).value.desk;
    var margin := d.config.GetRoundConfiguration(d.exp.round).value.marginReq;
    OffersOfMembers(d.book.bids, id);
    assert Held(after.folios, id, Cash) == Held(d.folios, id, Cash) - margin;
    forall p: nat | p != id
      ensures Held(after.folios, p, Cash) >= Total(after.book.bids, PriceOf(p))
    {
      assert Held(after.folios, p, Cash) == Held(d.folios, p, Cash);
    }
  }
}
