/**
 * The offer processor as functions: every guard on an offer, a creation or a
 * retraction, and every portfolio effect of market activity. The one choice
 * the source leaves open, the order the sort gives to tied offers, is the
 * argument `sorted`.
 */
module OfferProcessing {
  import opened Values
  import opened Offers
  import opened OrderBooks
  import opened Portfolios
  import opened Experiments

  datatype OfferValidity =
    | Accepted
    | RejectedNoTradeoff
    | RejectedInsufficientUnits
    | RejectedInsufficientCash
    | RejectedNonImproving
    | RejectedTradeWithSelf
    | RejectedPriceOutOfRange
    | RejectedMarketClosed

  datatype RetractValidity =
    | Accepted
    | RejectedNonExistent
    | RejectedOwnerMismatch
    | RejectedMarketClosed

  datatype RetractRequest = RetractRequest(id: nat, offerId: nat)

  datatype RetractResult = RetractResult(validity: RetractValidity, request: RetractRequest)

  datatype MarketSubmissionResult = MarketSubmissionResult(
    validity: OfferValidity,
    offer: Offer,
    trade: Option<Trade>,
    retracts: seq<RetractResult>)

  datatype CreationValidity =
    | Accepted
    | RejectedMarketClosed
    | RejectedCannotCreate
    | RejectedInsufficientCash

  datatype CreationResult = CreationResult(validity: CreationValidity, id: nat)

  const MAX_PRICE := 999

  /** What the offer processor sees of the server. */
  datatype Desk = Desk(exp: ExperimentState, config: Configuration, book: Book, folios: Folios)

  datatype Handled<+R> = Handled(desk: Desk, result: R)

  // ---- Offers -------------------------------------------------------------

  /** The verdict on an offer; the checks come in the order of the source. */
  function Judge(d: Desk, o: Offer): Attempt<OfferValidity> {
    var side, best := Standing(Side(d.book, o)), Standing(Opposite(d.book, o));
    if !d.exp.IsMarketOpen() then
      Did(OfferValidity.RejectedMarketClosed)
    else if o.player !in d.folios then
      Threw
    else if IsAsk(o) && ItemCount(d.folios[o.player], Shares) <= |OffersOf(d.book.asks, o.player)| then
      Did(RejectedInsufficientUnits)
    else if !IsAsk(o)
            && ItemCount(d.folios[o.player], Cash) < o.price + SumPrices(OffersOf(d.book.bids, o.player)) then
      Did(OfferValidity.RejectedInsufficientCash)
    else if d.config.improvementRule && side.Some? && AtMost(o, side.value) then
      Did(RejectedNonImproving)
    else if best.Some? && best.value.player == o.player && Crosses(o, best.value) then
      Did(RejectedTradeWithSelf)
    else if o.price < -MAX_PRICE || o.price > MAX_PRICE then
      Did(RejectedPriceOutOfRange)
    else
      Did(OfferValidity.Accepted)
  }

  /** The offers that the replacement rule makes an accepted offer replace. */
  function Replaced(d: Desk, o: Offer): seq<Offer> {
    if d.config.replaceRule then OffersOf(Side(d.book, o), o.player) else []
  }

  function RetractsFor(player: nat, gone: seq<Offer>): seq<RetractResult> {
    if gone == [] then []
    else
      RetractsFor(player, gone[..|gone| - 1])
      + [RetractResult(RetractValidity.Accepted, RetractRequest(player, gone[|gone| - 1].id))]
  }

  /** The book an accepted offer is pushed on. */
  function BookFor(d: Desk, o: Offer): Book {
    RetractAll(d.book, Replaced(d, o))
  }

  /** Share one way, price the other; `at` throws for an unknown party. */
  function Settle(folios: Folios, trade: Option<Trade>): Attempt<Folios> {
    match trade
    case None => Did(folios)
    case Some(t) =>
      if t.buyer !in folios || t.seller !in folios then Threw
      else
        var f1 := Change(folios, t.buyer, Shares, 1);
        var f2 := Change(f1, t.seller, Shares, -1);
        var f3 := Change(f2, t.buyer, Cash, -t.price);
        Did(Change(f3, t.seller, Cash, t.price))
  }

  function ProcessOffer(d: Desk, o: Offer, sorted: seq<Offer>): Attempt<Handled<MarketSubmissionResult>> {
    var validity :- Judge(d, o);
    if !validity.Accepted? then
      Did(Handled(d, MarketSubmissionResult(validity, o, None, [])))
    else
      var placed := WithSide(BookFor(d, o), o, sorted);
      var folios :- Settle(d.folios, Peek(placed));
      Did(Handled(
            d.(book := Popped(placed), folios := folios),
            MarketSubmissionResult(validity, o, Peek(placed), RetractsFor(o.player, Replaced(d, o)))))
  }

  /** `sorted` is a possible outcome of the sort, should the offer get that far. */
  ghost predicate PossibleSort(d: Desk, o: Offer, sorted: seq<Offer>) {
    Judge(d, o) == Did(OfferValidity.Accepted) ==> Inserted(Side(BookFor(d, o), o), o, sorted)
  }

  // ---- Creations ----------------------------------------------------------

  function JudgeCreate(d: Desk, id: nat): Attempt<CreationValidity> {
    if !d.exp.IsMarketOpen() then
      Did(CreationValidity.RejectedMarketClosed)
    else if d.exp.round < d.config.firstCreateRound then
      Did(RejectedCannotCreate)
    else
      var subject :- d.config.GetSubjectConfiguration(id);
      if !subject.isCreator then
        Did(RejectedCannotCreate)
      else
        var conf :- d.config.GetRoundConfiguration(d.exp.round);
        if id !in d.folios then Threw
        else if ItemCount(d.folios[id], Cash) < conf.marginReq then
          Did(CreationValidity.RejectedInsufficientCash)
        else
          Did(CreationValidity.Accepted)
  }

  /** A unit and its obligation appear together; the margin moves out of cash. */
  function Issue(folios: Folios, id: nat, margin: nat): Folios
    requires id in folios
  {
    Change(Change(Change(Change(folios, id, Derivatives, 1), id, Shares, 1), id, Margin, margin), id, Cash,
        -(margin as int))
  }

  function ProcessCreate(d: Desk, id: nat): Attempt<Handled<CreationResult>> {
    var validity :- JudgeCreate(d, id);
    if !validity.Accepted? then
      Did(Handled(d, CreationResult(validity, id)))
    else
      var conf :- d.config.GetRoundConfiguration(d.exp.round);
      Did(Handled(d.(folios := Issue(d.folios, id, conf.marginReq)), CreationResult(validity, id)))
  }

  // ---- Retractions --------------------------------------------------------

  function JudgeRetract(d: Desk, rr: RetractRequest): RetractValidity {
    var offer := GetOffer(d.book, rr.offerId);
    if !d.exp.IsMarketOpen() then RetractValidity.RejectedMarketClosed
    else if offer.None? then RejectedNonExistent
    else if offer.value.player != rr.id then RejectedOwnerMismatch
    else RetractValidity.Accepted
  }

  function ProcessRetract(d: Desk, rr: RetractRequest): Handled<RetractResult> {
    var validity := JudgeRetract(d, rr);
    Handled(
      if validity.Accepted? then d.(book := Retracted(d.book, rr.offerId)) else d,
      RetractResult(validity, rr))
  }
}
