/** The controller of the traders' messages. */
module ClientControllers {
  import opened Values
  import opened Offers
  import opened OrderBooks
  import opened OfferProcessing
  import opened OfferProcessorMarkets
  import opened PausableTimers
  import opened Servers
  import opened Clocks
  import opened Controllers
  import opened Text

  class ClientController {
    const proc: OfferProcessorMarket
    const server: Outbox
    const clock: PausableTimer
    var id: nat

    constructor (proc: OfferProcessorMarket, server: Outbox, clock: PausableTimer)
      requires proc.Valid()
      ensures Valid() && this.proc == proc && this.server == server && this.clock == clock && id == 0
    {
      this.proc, this.server, this.clock, id := proc, server, clock, 0;
    }

    ghost predicate Valid() {
      proc.Valid()
    }

    ghost function Footprint(): set<object> {
      {proc.market.bids, proc.market.asks, proc.folio, server, this}
    }

    /** The method has thrown just when the step from `s` does; otherwise it has left and sent what the step does. */
    twostate predicate Took(s: State, step: Attempt<Reply>, new done: Attempt<()>)
      reads Footprint(), proc.expState, proc.config
    {
      && (done.Threw? <==> step.Threw?)
      && (done.Did? ==>
            && step.value.state == s.(desk := proc.View())
            && server.sent == old(server.sent) + step.value.out)
    }

    /** The time update that follows an accepted offer or retraction. */
    function TimesAfter(step: Attempt<Reply>, now: int): seq<int>
      reads clock
    {
      if step.Did? && SendsTime(step.value.out) then [clock.works.Remaining(now)] else []
    }

    method MakeOffer(player: nat, price: int, now: int) returns (offer: Offer)
      modifies this
      ensures offer == Offer(old(id), player, price, AsUnsigned(clock.works.Elapsed(now)))
      ensures id == old(id) + 1
    {
      offer := Offer(id, player, price, AsUnsigned(clock.works.Elapsed(now)));
      id := id + 1;
    }

    /** Buyer, then seller. */
    method SendTraders(trade: Option<Trade>) returns (done: Attempt<()>)
      requires Valid()
      modifies server`sent
      ensures var notices := TradeNotices(proc.folio.folios, trade);
              && (done.Threw? <==> notices.Threw?)
              && (done.Did? ==> server.sent == old(server.sent) + notices.value)
    {
      if trade.Some? {
        var t := trade.value;
        if t.buyer !in proc.folio.folios || t.seller !in proc.folio.folios {
          return Threw;
        }
        server.Send(t.buyer, PortfolioUpdate(t.buyer, proc.folio.folios[t.buyer]));
        server.Send(t.seller, PortfolioUpdate(t.seller, proc.folio.folios[t.seller]));
      }
      return Did(());
    }

    /** Everybody hears of an accepted offer, and of the time; of any other only its sender. */
    method AnswerOffer(res: MarketSubmissionResult, now: int)
      requires Valid()
      modifies server
      ensures server.sent == old(server.sent)
                             + [if res.validity.Accepted? then Envelope(All, AcceptedOffer(res))
                                else Envelope(Only(res.offer.player), RejectedOffer(res))]
      ensures server.times == old(server.times)
                              + if res.validity.Accepted? then [clock.works.Remaining(now)] else []
    {
      if res.validity == OfferValidity.Accepted {
        server.SendAll(AcceptedOffer(res));
        server.SendTime(clock.works.Remaining(now));
      } else {
        server.Send(res.offer.player, RejectedOffer(res));
      }
    }

    /** Announce an accepted offer to everyone, and send each party of a trade its portfolio. */
    method TakeOffer(offer: Offer, now: int, ghost s: State) returns (done: Attempt<()>, ghost sorted: seq<Offer>)
      requires Valid() && s.desk == proc.View()
      modifies proc.market.bids, proc.market.asks, proc.folio, server
      ensures PossibleSort(s.desk, offer, sorted)
      ensures Took(s, Servers.TakeOffer(s, offer, sorted), done)
      ensures done.Did? ==> server.times == old(server.times) + TimesAfter(Servers.TakeOffer(s, offer, sorted), now)
    {
      var res;
      hide PossibleSort, OfferProcessing.ProcessOffer, TradeNotices;
      res, sorted := proc.ProcessOffer(offer);
      if res.Threw? {
        return Threw, sorted;
      }
      AnswerOffer(res.value, now);
      done := SendTraders(res.value.trade);
    }

    method TakeBid(player: nat, price: int, now: int, ghost s: State)
        returns (done: Attempt<()>, ghost sorted: seq<Offer>)
      requires Valid() && s.desk == proc.View()
      modifies Footprint()
      ensures var offer := Offer(old(id), player, price, AsUnsigned(clock.works.Elapsed(now)));
              && PossibleSort(s.desk, offer, sorted) && Took(s, Servers.TakeOffer(s, offer, sorted), done)
              && (done.Did? ==>
                    server.times == old(server.times) + TimesAfter(Servers.TakeOffer(s, offer, sorted), now))
      ensures id == old(id) + 1
    {
      var offer := MakeOffer(player, price, now);
      done, sorted := TakeOffer(offer, now, s);
    }

    /** An ask is an offer at the negated price. */
    method TakeAsk(player: nat, price: int, now: int, ghost s: State)
        returns (done: Attempt<()>, ghost sorted: seq<Offer>)
      requires Valid() && s.desk == proc.View()
      modifies Footprint()
      ensures var offer := Offer(old(id), player, -price, AsUnsigned(clock.works.Elapsed(now)));
              && PossibleSort(s.desk, offer, sorted) && Took(s, Servers.TakeOffer(s, offer, sorted), done)
              && (done.Did? ==>
                    server.times == old(server.times) + TimesAfter(Servers.TakeOffer(s, offer, sorted), now))
      ensures id == old(id) + 1
    {
      var offer := MakeOffer(player, -price, now);
      done, sorted := TakeOffer(offer, now, s);
    }

    method RetractOffer(rr: RetractRequest, now: int, ghost s: State)
      requires Valid() && s.desk == proc.View()
      modifies proc.market.bids, proc.market.asks, server
      ensures Took(s, Did(Servers.RetractOffer(s, rr)), Did(()))
      ensures server.times == old(server.times) + TimesAfter(Did(Servers.RetractOffer(s, rr)), now)
    {
      var result := proc.ProcessRetract(rr);
      if result.validity == RetractValidity.Accepted {
        server.SendAll(AcceptedRetraction(result));
        server.SendTime(clock.works.Remaining(now));
      } else {
        server.Send(rr.id, RejectedRetraction(result));
      }
    }

    method CreateAsset(player: nat, ghost s: State) returns (done: Attempt<()>)
      requires Valid() && s.desk == proc.View()
      modifies proc.folio, server
      ensures Took(s, Servers.CreateAsset(s, player), done)
      ensures server.times == old(server.times)
    {
      hide JudgeCreate, Issue;
      var res :- proc.ProcessCreate(player);
      server.Send(player, CreationProcessed(res));
      if res.validity == CreationValidity.Accepted {
        if player !in proc.folio.folios {
          return Threw;
        }
        server.Send(player, PortfolioUpdate(player, proc.folio.folios[player]));
      }
      return Did(());
    }
  }
}
