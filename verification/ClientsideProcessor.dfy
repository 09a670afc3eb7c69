/** The client's handlers, working in place on its own queues. */
module ClientsideProcessors {
  import opened Offers
  import opened OrderBooks
  import opened Portfolios
  import opened Experiments
  import opened Markets
  import opened OfferProcessing
  import opened PausableTimers
  import opened Servers
  import opened Replica

  /** What a client holds before its first round; any other value would do. */
  const NO_ROUND := RoundConfiguration(false, 0, 0, 0, 0)

  class ClientsideProcessor {
    const bids: OfferQueue
    const asks: OfferQueue
    const timer: PausableTimer
    var transactions: seq<Trade>
    var port: Folio
    var startRoundPort: Folio
    var endRoundPort: Folio
    var postDividendPort: Folio
    var lastDividend: nat
    var roundConf: RoundConfiguration
    var round: nat

    constructor (timer: PausableTimer)
      ensures Valid() && View() == Client(EMPTY_BOOK, [], map[], map[], map[], map[], 0, NO_ROUND, 0)
      ensures this.timer == timer
      ensures fresh(bids) && fresh(asks)
    {
      bids := new OfferQueue();
      asks := new OfferQueue();
      this.timer := timer;
      transactions, lastDividend, roundConf, round := [], 0, NO_ROUND, 0;
      port, startRoundPort, endRoundPort, postDividendPort := map[], map[], map[], map[];
    }

    ghost predicate Valid() {
      bids != asks
    }

    function View(): Client
      reads this, bids, asks
    {
      Client(Book(bids.offers, asks.offers), transactions,
             port, startRoundPort, endRoundPort, postDividendPort, lastDividend, roundConf, round)
    }

    /** Add, trade, then retract what was replaced. */
    method ProcessAcceptedOffer(res: MarketSubmissionResult) returns (ghost sorted: seq<Offer>)
      requires Valid()
      modifies this`transactions, bids, asks
      ensures PossibleApply(old(View()), AcceptedOffer(res), sorted)
      ensures View() == Apply(old(View()), AcceptedOffer(res), sorted)
    {
      if res.offer.price < 0 {
        asks.PushBack(res.offer);
      } else {
        bids.PushBack(res.offer);
      }
      sorted := Side(Book(bids.offers, asks.offers), res.offer);
      if res.trade.Some? {
        transactions := transactions + [res.trade.value];
        asks.Retract(res.trade.value.askId);
        bids.Retract(res.trade.value.bidId);
      }
      RetractEach(res.retracts);
    }

    method RetractEach(retracts: seq<RetractResult>)
      requires Valid()
      modifies bids, asks
      ensures View().book == RetractNamed(old(View()).book, retracts)
    {
      ghost var before := View().book;
      for i := 0 to |retracts|
        invariant View().book == RetractNamed(before, retracts[..i])
      {
        asks.Retract(retracts[i].request.offerId);
        bids.Retract(retracts[i].request.offerId);
        assert retracts[..i + 1][..i] == retracts[..i];
      }
      assert retracts[..|retracts|] == retracts;
    }

    method ProcessAcceptedRetraction(rr: RetractResult)
      requires Valid()
      modifies bids, asks
      ensures View() == Apply(old(View()), AcceptedRetraction(rr), [])
    {
      asks.Retract(rr.request.offerId);
      bids.Retract(rr.request.offerId);
    }

    method ProcessPortfolio(port: Folio)
      modifies this`port
      ensures forall id :: View() == Apply(old(View()), PortfolioUpdate(id, port), [])
    {
      this.port := port;
    }

    /** The pause comes first, so the update finds the timer stopped. */
    method ProcessTimeUpdate(remaining: int, now: int)
      modifies timer
      ensures timer.works == old(timer.works).Pause(now).UpdateTime(remaining, now)
      ensures timer.callbacks == old(timer.callbacks)
      ensures old(timer.works.Idle())
              ==> timer.works.Idle() && forall later :: timer.works.Remaining(later) == remaining
    {
      timer.Pause(now);
      timer.UpdateTime(remaining, now);
    }

    method ProcessRoundStarted(conf: RoundConfiguration)
      requires Valid()
      modifies this`transactions, this`roundConf, this`round, this`startRoundPort, bids, asks
      ensures View() == Apply(old(View()), RoundStarted(conf), [])
    {
      asks.Clear();
      bids.Clear();
      transactions := [];
      roundConf := conf;
      round := conf.round;
      startRoundPort := port;
    }

    method ProcessDividendStarted(dividend: nat)
      modifies this`lastDividend
      ensures View() == Apply(old(View()), DividendStarted(dividend), [])
    {
      lastDividend := dividend;
    }

    method ProcessRoundEnded()
      modifies this`endRoundPort
      ensures View() == Apply(old(View()), RoundEnded, [])
    {
      endRoundPort := port;
    }

    method ProcessReviewStarted()
      modifies this`postDividendPort
      ensures View() == Apply(old(View()), ReviewStarted, [])
    {
      postDividendPort := port;
    }

    /** Any message: the client moves as the replica does. */
    method ProcessMessage(m: Message)
      requires Valid()
      modifies this, bids, asks
      ensures ClientNext(old(View()), m, View())
    {
      ghost var sorted: seq<Offer> := [];
      match m {
        case AcceptedOffer(res) => sorted := ProcessAcceptedOffer(res);
        case AcceptedRetraction(rr) => ProcessAcceptedRetraction(rr);
        case PortfolioUpdate(_, p) => ProcessPortfolio(p);
        case RoundStarted(conf) => ProcessRoundStarted(conf);
        case RoundEnded => ProcessRoundEnded();
        case DividendStarted(dividend) => ProcessDividendStarted(dividend);
        case ReviewStarted => ProcessReviewStarted();
        case _ =>
      }
      assert PossibleApply(old(View()), m, sorted) && View() == Apply(old(View()), m, sorted);
    }
  }
}
