/** The objects the processors share, and the offer processor that works on them in place. */
module OfferProcessorMarkets {
  import opened Values
  import opened Offers
  import opened OrderBooks
  import opened Portfolios
  import opened Experiments
  import opened Markets
  import opened OfferProcessing

  class PortfolioSet {
    var folios: Folios

    constructor ()
      ensures folios == map[]
    {
      folios := map[];
    }

    method Update(id: nat, item: Item, change: int)
      requires id in folios
      modifies this
      ensures folios == Change(old(folios), id, item, change)
    {
      folios := folios[id := Transact(folios[id], item, change)];
    }
  }

  class SharedExperimentState {
    var value: ExperimentState

    constructor ()
      ensures value == ExperimentState(0, NotStarted, PreExperiment)
    {
      value := ExperimentState(0, NotStarted, PreExperiment);
    }
  }

  class SharedConfiguration {
    var value: Configuration

    constructor (config: Configuration)
      ensures value == config
    {
      value := config;
    }
  }

  class OfferProcessorMarket {
    const market: Market
    const folio: PortfolioSet
    const expState: SharedExperimentState
    const config: SharedConfiguration

    constructor (market: Market, folio: PortfolioSet, expState: SharedExperimentState, config: SharedConfiguration)
      requires market.Valid()
      ensures Valid()
      ensures this.market == market && this.folio == folio && this.expState == expState && this.config == config
    {
      this.market, this.folio, this.expState, this.config := market, folio, expState, config;
    }

    ghost predicate Valid() {
      market.Valid()
    }

    function View(): Desk
      reads market.bids, market.asks, folio, expState, config
    {
      Desk(expState.value, config.value, market.Contents(), folio.folios)
    }

    /** What the resting bids of a player already promise. */
    method CommittedCash(player: nat) returns (sum: int)
      ensures sum == Total(market.bids.offers, PriceOf(player))
    {
      var bids := market.bids.OffersBy(player);
      sum := 0;
      for i := 0 to |bids|
        invariant sum == SumPrices(bids[..i])
      {
        sum := sum + bids[i].price;
        assert bids[..i + 1][..i] == bids[..i];
      }
      assert bids[..|bids|] == bids;
      OffersOfMembers(market.bids.offers, player);
    }

    /** The guards, in order; nothing changes. */
    method CheckOffer(offer: Offer) returns (verdict: Attempt<OfferValidity>)
      requires Valid()
      ensures verdict == Judge(View(), offer)
    {
      OffersOfMembers(market.bids.offers, offer.player);
      if !expState.value.IsMarketOpen() {
        return Did(OfferValidity.RejectedMarketClosed);
      }
      if offer.player !in folio.folios {
        return Threw;
      }
      var port := folio.folios[offer.player];
      if offer.price < 0 {
        if ItemCount(port, Shares) <= |market.asks.OffersBy(offer.player)| {
          return Did(RejectedInsufficientUnits);
        }
      } else {
        var sum := CommittedCash(offer.player);
        if ItemCount(port, Cash) < offer.price + sum {
          return Did(OfferValidity.RejectedInsufficientCash);
        }
      }
      var bestBid, bestAsk := market.bids.StandingOffer(), market.asks.StandingOffer();
      if config.value.improvementRule {
        var side := if offer.price < 0 then bestAsk else bestBid;
        if side.Some? && AtMost(offer, side.value) {
          return Did(RejectedNonImproving);
        }
      }
      if offer.price < 0 {
        if bestBid.Some? && bestBid.value.player == offer.player && CanTrade(bestBid.value, offer) {
          return Did(RejectedTradeWithSelf);
        }
      } else {
        if bestAsk.Some? && bestAsk.value.player == offer.player && CanTrade(offer, bestAsk.value) {
          return Did(RejectedTradeWithSelf);
        }
      }
      if offer.price < -MAX_PRICE || offer.price > MAX_PRICE {
        return Did(RejectedPriceOutOfRange);
      }
      return Did(OfferValidity.Accepted);
    }

    /** Retract the offers a new one replaces and report each of them. */
    method RetractOwn(offer: Offer, gone: seq<Offer>) returns (retracts: seq<RetractResult>)
      requires Valid()
      modifies market.bids, market.asks
      ensures market.Contents() == RetractAll(old(market.Contents()), gone)
      ensures retracts == RetractsFor(offer.player, gone)
    {
      retracts := [];
      for i := 0 to |gone|
        invariant market.Contents() == RetractAll(old(market.Contents()), gone[..i])
        invariant retracts == RetractsFor(offer.player, gone[..i])
      {
        market.Retract(gone[i].id);
        retracts := retracts + [RetractResult(RetractValidity.Accepted, RetractRequest(offer.player, gone[i].id))];
        assert gone[..i + 1][..i] == gone[..i];
      }
      assert gone[..|gone|] == gone;
    }

    method ProcessTrade(trade: Option<Trade>) returns (done: Attempt<()>)
      modifies folio
      ensures done.Threw? <==> Settle(old(folio.folios), trade).Threw?
      ensures done.Did? ==> folio.folios == Settle(old(folio.folios), trade).value
    {
      if trade.Some? {
        var t := trade.value;
        if t.buyer !in folio.folios || t.seller !in folio.folios {
          return Threw;
        }
        folio.Update(t.buyer, Shares, 1);
        folio.Update(t.seller, Shares, -1);
        folio.Update(t.buyer, Cash, -t.price);
        folio.Update(t.seller, Cash, t.price);
      }
      return Did(());
    }

    method ProcessOffer(offer: Offer) returns (res: Attempt<MarketSubmissionResult>, ghost sorted: seq<Offer>)
      requires Valid()
      modifies market.bids, market.asks, folio
      ensures PossibleSort(old(View()), offer, sorted)
      ensures var spec := OfferProcessing.ProcessOffer(old(View()), offer, sorted);
              && (res.Threw? <==> spec.Threw?)
              && (res.Did? ==> View() == spec.value.desk && res.value == spec.value.result)
      ensures res.Did? ==> res.value.offer == offer
    {
      sorted := [];
      var verdict := CheckOffer(offer);
      if verdict.Threw? {
        return Threw, sorted;
      }
      if verdict != Did(OfferValidity.Accepted) {
        return Did(MarketSubmissionResult(verdict.value, offer, None, [])), sorted;
      }
      var retracts: seq<RetractResult> := [];
      if config.value.replaceRule {
        var gone := if offer.price < 0 then market.asks.OffersBy(offer.player) else market.bids.OffersBy(offer.player);
        retracts := RetractOwn(offer, gone);
      }
      assert market.Contents() == BookFor(old(View()), offer);
      var trade;
      trade, sorted := market.ProcessOffer(offer);
      var done := ProcessTrade(trade);
      if done.Threw? {
        return Threw, sorted;
      }
      return Did(MarketSubmissionResult(OfferValidity.Accepted, offer, trade, retracts)), sorted;
    }

    method IssueUnit(id: nat, margin: nat)
      requires id in folio.folios
      modifies folio
      ensures folio.folios == Issue(old(folio.folios), id, margin)
    {
      folio.Update(id, Derivatives, 1);
      folio.Update(id, Shares, 1);
      folio.Update(id, Margin, margin);
      folio.Update(id, Cash, -(margin as int));
    }

    method ProcessCreate(id: nat) returns (res: Attempt<CreationResult>)
      modifies folio
      ensures var spec := OfferProcessing.ProcessCreate(old(View()), id);
              && (res.Threw? <==> spec.Threw?)
              && (res.Did? ==> View() == spec.value.desk && res.value == spec.value.result)
    {
      if !expState.value.IsMarketOpen() {
        return Did(CreationResult(CreationValidity.RejectedMarketClosed, id));
      }
      if expState.value.round < config.value.firstCreateRound {
        return Did(CreationResult(RejectedCannotCreate, id));
      }
      var subject :- config.value.GetSubjectConfiguration(id);
      if !subject.isCreator {
        return Did(CreationResult(RejectedCannotCreate, id));
      }
      var conf :- config.value.GetRoundConfiguration(expState.value.round);
      var margin := conf.marginReq;
      if id !in folio.folios {
        return Threw;
      }
      if ItemCount(folio.folios[id], Cash) < margin {
        return Did(CreationResult(CreationValidity.RejectedInsufficientCash, id));
      }
      IssueUnit(id, margin);
      return Did(CreationResult(CreationValidity.Accepted, id));
    }

    method ProcessRetract(rr: RetractRequest) returns (res: RetractResult)
      requires Valid()
      modifies market.bids, market.asks
      ensures Handled(View(), res) == OfferProcessing.ProcessRetract(old(View()), rr)
    {
      if !expState.value.IsMarketOpen() {
        return RetractResult(RetractValidity.RejectedMarketClosed, rr);
      }
      var offer := GetOffer(market.Contents(), rr.offerId);
      if offer.None? {
        return RetractResult(RejectedNonExistent, rr);
      }
      if offer.value.player != rr.id {
        return RetractResult(RejectedOwnerMismatch, rr);
      }
      market.Retract(rr.offerId);
      return RetractResult(RetractValidity.Accepted, rr);
    }
  }
}
