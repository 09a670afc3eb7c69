/** Trades over whole runs: who trades with whom, when, and at what price. */
module Trading {
  import opened Values
  import opened Offers
  import opened OrderBooks
  import opened OfferProcessing
  import opened MarketSafety
  import opened Servers
  import opened Ledgers
  import opened Reachable

  /** The step answers an offer with this accepted result. */
  ghost predicate Announces(w: World, e: Event, res: MarketSubmissionResult) {
    && e.Submit? && Handle(w, e).Did?
    && Handle(w, e).value.out != []
    && Handle(w, e).value.out[0] == Envelope(All, AcceptedOffer(res))
  }

  /** The limit an offer sets, as a price to pay or to be paid. */
  function Limit(o: Offer): int {
    if IsAsk(o) then -o.price else o.price
  }

  /** No resting offer is later than the incoming one, as with a clock that does not go back. */
  ghost predicate Timely(w: World, e: Event) {
    e.Submit? ==> forall x | Resting(w.state.desk.book, x) :: x.time <= e.time
  }

  lemma AnnouncedResult(w: World, e: Event, res: MarketSubmissionResult)
    requires Sound(w) && Possible(w, e) && Announces(w, e, res)
    ensures WillAccept(w.state.desk, w.nextId, OfferOf(w, e), e.sorted)
    ensures var d, o := w.state.desk, OfferOf(w, e);
            var c := Counterpart(d, o);
            && res.offer == o
            && res.trade == (if c.Some? then Some(TradeWith(o, c.value)) else None)
            && res.retracts == RetractsFor(o.player, Replaced(d, o))
  {
    var res' := SubmitMessage(w, e);
  }

  /** The buyer's limit is at least the seller's. */
  predicate Meets(o: Offer, x: Offer) {
    if IsAsk(o) then Limit(o) <= Limit(x) else Limit(x) <= Limit(o)
  }

  /** The better price comes first, and the earlier of two offers at one price. */
  ghost predicate BestOf(q: seq<Offer>, best: Offer) {
    best in q && forall x | x in q :: x.price < best.price || (x.price == best.price && best.time <= x.time)
  }

  /**
   * The trade is with the best opposite offer, of another subject. It records
   * both, with the time of the later, at a price between the two limits.
   */
  ghost predicate BestTrade(b: Book, o: Offer, t: Trade) {
    exists best ::
      && BestOf(Opposite(b, o), best) && best.player != o.player
      && (if IsAsk(o) then Records(t, best, o) else Records(t, o, best))
      && (if IsAsk(o) then Limit(o) <= t.price <= Limit(best) else Limit(best) <= t.price <= Limit(o))
  }

  /**
   * In every run, an accepted offer trades exactly when it meets the limit of
   * some opposite offer. Its partner is then the best opposite offer, by price and
   * then by time, of another subject; the price lies between the two limits;
   * and nothing is left to trade afterwards, so one pop was enough.
   */
  lemma TradesWithBest(ws: seq<World>, es: seq<Event>, i: nat, res: MarketSubmissionResult)
    requires IsRun(ws, es) && i < |es| && Announces(ws[i], es[i], res)
    ensures var b, o := ws[i].state.desk.book, res.offer;
            && (res.trade.Some? <==> exists x :: x in Opposite(b, o) && Meets(o, x))
            && (res.trade.Some? ==> BestTrade(b, o, res.trade.value))
    ensures Peek(ws[i + 1].state.desk.book) == None && Uncrossed(ws[i + 1].state.desk.book)
  {
    hide Next, Handle, Judge, Peek, Popped;
    RunStep(ws, es, i);
    RunIsSound(ws, es, i + 1);
    UncrossedHasNoTrade(ws[i + 1].state.desk.book);
    var d, o := ws[i].state.desk, res.offer;
    AnnouncedResult(ws[i], es[i], res);
    MatchResult(d, ws[i].nextId, o, es[i].sorted);
    PartnerIsBest(d, o);
    var c := Counterpart(d, o);
    if c.Some? {
      TradePriceWithinLimits(if IsAsk(o) then c.value else o, if IsAsk(o) then o else c.value);
    }
  }

  lemma PartnerIsBest(d: Desk, o: Offer)
    requires BookOk(d.book)
    ensures Counterpart(d, o).Some? <==> exists x :: x in Opposite(d.book, o) && Meets(o, x)
    ensures Counterpart(d, o).Some? ==> BestOf(Opposite(d.book, o), Counterpart(d, o).value)
  {
    var q := Opposite(d.book, o);
    forall x | x in q
      ensures Crosses(o, x) <==> Meets(o, x)
      ensures AtMost(x, q[|q| - 1]) && q[|q| - 1] in q
    {
      StandingIsBest(q, x);
    }
  }

  /**
   * The trade is of the incoming offer's time, at the resting limit, unless a
   * bid tied in time with the resting ask pays its own.
   */
  ghost predicate RestingPrice(o: Offer, resting: Offer, t: Trade) {
    && (if IsAsk(o) then Records(t, resting, o) else Records(t, o, resting))
    && t.timestamp == o.time
    && (t.price == Limit(resting) <==> IsAsk(o) || resting.time < o.time || Limit(o) == Limit(resting))
    && (t.price != Limit(resting) ==> t.price == Limit(o))
  }

  lemma LaterOfferTakesPrice(o: Offer, resting: Offer)
    requires IsAsk(o) != IsAsk(resting) && resting.time <= o.time
    ensures RestingPrice(o, resting, TradeWith(o, resting))
  {
  }

  /**
   * With a clock that does not go back, a trade carries the time of the
   * incoming offer and executes at the resting offer's limit exactly when the incoming offer is an ask, or came later
   * than the resting one, or has the same limit; otherwise - a bid tied in
   * time with the resting ask - the bid pays its own price.
   */
  lemma TradesAtRestingPrice(ws: seq<World>, es: seq<Event>, i: nat, res: MarketSubmissionResult)
    requires IsRun(ws, es) && i < |es| && Announces(ws[i], es[i], res) && res.trade.Some?
    requires Timely(ws[i], es[i])
    ensures exists resting ::
              resting in Opposite(ws[i].state.desk.book, res.offer) && RestingPrice(res.offer, resting, res.trade.value)
  {
    hide Next;
    hide Handle, Judge, Peek, Popped;
    RunStep(ws, es, i);
    AnnouncedResult(ws[i], es[i], res);
    MatchResult(ws[i].state.desk, ws[i].nextId, res.offer, es[i].sorted);
    var resting := Counterpart(ws[i].state.desk, res.offer).value;
    assert Resting(ws[i].state.desk.book, resting);
    LaterOfferTakesPrice(res.offer, resting);
  }

  /** A trade the server may announce: two different parties, one of them the incoming offer, at a listed price. */
  predicate FairTrade(res: MarketSubmissionResult) {
    res.trade.Some? ==>
      var t, o := res.trade.value, res.offer;
      && t.buyer != t.seller
      && (if IsAsk(o) then t.seller == o.player && t.askId == o.id else t.buyer == o.player && t.bidId == o.id)
      && t.bidId != t.askId
      && 0 < t.price <= MAX_PRICE
  }

  ghost predicate FairLog(log: seq<Envelope>) {
    forall x | x in log :: x.msg.AcceptedOffer? ==> FairTrade(x.msg.res)
  }

  lemma AcceptedInRange(d: Desk, o: Offer)
    requires Judge(d, o) == Did(OfferValidity.Accepted)
    ensures -MAX_PRICE <= o.price <= MAX_PRICE
  {
  }

  lemma SubmitIsFair(w: World, e: Event)
    requires Sound(w) && Possible(w, e) && Handle(w, e).Did? && e.Submit?
    ensures FairLog(Handle(w, e).value.out)
  {
    hide Handle, Judge;
    var d, o, out := w.state.desk, OfferOf(w, e), Handle(w, e).value.out;
    var res := SubmitMessage(w, e);
    if Judge(d, o).value.Accepted? {
      AcceptedInRange(d, o);
      MatchResult(d, w.nextId, o, e.sorted);
      assert FairTrade(res);
    }
    assert out == [out[0]] + out[1..];
  }

  /** Replies other than those to offers announce no offer as accepted. */
  lemma OthersAnnounceNoOffer(w: World, e: Event)
    requires Sound(w) && Possible(w, e) && Handle(w, e).Did? && !e.Submit?
    ensures forall x | x in Handle(w, e).value.out :: !x.msg.AcceptedOffer?
  {
    hide Handle, StartVerdict;
    ReplyFits(w, e);
  }

  /** No trade that any run announces has the same buyer and seller. */
  lemma {:induction false} EveryTradeIsFair(ws: seq<World>, es: seq<Event>, i: nat)
    requires IsRun(ws, es) && i < |ws|
    ensures FairLog(ws[i].log)
  {
    hide Next;
    if i > 0 {
      EveryTradeIsFair(ws, es, i - 1);
      RunStep(ws, es, i - 1);
      NextGives(ws[i - 1], es[i - 1], ws[i]);
      if es[i - 1].Submit? {
        SubmitIsFair(ws[i - 1], es[i - 1]);
      } else {
        OthersAnnounceNoOffer(ws[i - 1], es[i - 1]);
      }
    }
  }
}
