/** When an offer is accepted and what each rejection means, in terms of the book and of what the sender holds. */
module OfferVerdicts {
  import opened Values
  import opened Offers
  import opened OrderBooks
  import opened Portfolios
  import opened Experiments
  import opened OfferProcessing
  import opened Servers
  import opened Ledgers
  import opened Reachable

  /** A round is in progress, and the experiment is neither paused nor ended. */
  predicate Open(d: Desk) {
    d.exp.stage == Round && d.exp.status == Status.Running
  }

  /** A unit more than the sender already asks to sell, or the cash for this bid and all of its resting ones. */
  predicate Affordable(d: Desk, o: Offer) {
    if o.price < 0 then Held(d.folios, o.player, Shares) > Total(d.book.asks, CountOf(o.player))
    else Held(d.folios, o.player, Cash) >= Total(d.book.bids, PriceOf(o.player)) + o.price
  }

  /** No resting offer of its kind has a better price, or the same price and no later time. */
  ghost predicate Improves(d: Desk, o: Offer) {
    forall x | x in (if o.price < 0 then d.book.asks else d.book.bids) ::
      x.price < o.price || (x.price == o.price && o.time < x.time)
  }

  /** The offer that stands first on the other side is the sender's own, at a price that would trade. */
  predicate MeetsOwn(d: Desk, o: Offer) {
    if o.price < 0 then
      d.book.bids != [] && var bid := d.book.bids[|d.book.bids| - 1]; bid.player == o.player && -o.price <= bid.price
    else
      d.book.asks != [] && var ask := d.book.asks[|d.book.asks| - 1]; ask.player == o.player && -ask.price <= o.price
  }

  /** What a verdict says of the offer; the source never gives the first of the rejections. */
  ghost predicate Means(v: OfferValidity, d: Desk, o: Offer) {
    var improves := d.config.improvementRule ==> Improves(d, o);
    match v
    case RejectedNoTradeoff => false
    case RejectedMarketClosed => !Open(d)
    case RejectedInsufficientUnits => Open(d) && o.price < 0 && !Affordable(d, o)
    case RejectedInsufficientCash => Open(d) && o.price >= 0 && !Affordable(d, o)
    case RejectedNonImproving => Open(d) && Affordable(d, o) && !improves
    case RejectedTradeWithSelf => Open(d) && Affordable(d, o) && improves && MeetsOwn(d, o)
    case RejectedPriceOutOfRange =>
      Open(d) && Affordable(d, o) && improves && !MeetsOwn(d, o) && !(-999 <= o.price <= 999)
    case Accepted =>
      Open(d) && Affordable(d, o) && improves && !MeetsOwn(d, o) && -999 <= o.price <= 999
  }

  lemma ImprovesOnStanding(d: Desk, o: Offer)
    requires BookOk(d.book)
    ensures Improves(d, o) <==> Side(d.book, o) == [] || !AtMost(o, Side(d.book, o)[|Side(d.book, o)| - 1])
  {
    var q := Side(d.book, o);
    forall x | x in q
      ensures AtMost(x, q[|q| - 1]) && q[|q| - 1] in q
    {
      StandingIsBest(q, x);
    }
  }

  /** The guards on units and cash, and on trades with oneself. */
  lemma GuardsMean(d: Desk, o: Offer)
    ensures o.player in d.folios ==>
              (Affordable(d, o)
               <==> if IsAsk(o) then ItemCount(d.folios[o.player], Shares) > |OffersOf(d.book.asks, o.player)|
                    else ItemCount(d.folios[o.player], Cash) >= o.price + SumPrices(OffersOf(d.book.bids, o.player)))
    ensures var best := Standing(Opposite(d.book, o));
            MeetsOwn(d, o) <==> best.Some? && best.value.player == o.player && Crosses(o, best.value)
  {
    OffersOfMembers(d.book.asks, o.player);
    OffersOfMembers(d.book.bids, o.player);
  }

  /** The verdict on an offer is the one that is true of it; there is none exactly if the sender lacks a portfolio. */
  lemma VerdictIff(d: Desk, o: Offer, v: OfferValidity)
    requires BookOk(d.book)
    ensures Judge(d, o).Threw? <==> Open(d) && o.player !in d.folios
    ensures Judge(d, o).Did? ==> (Judge(d, o).value == v <==> Means(v, d, o))
  {
    hide Affordable, Improves, MeetsOwn, AtMost, Crosses, ItemCount, OffersOf, SumPrices;
    GuardsMean(d, o);
    ImprovesOnStanding(d, o);
  }

  /** The reply to a rejected offer: told to the sender alone, and nothing else happens. */
  ghost predicate OnlyRejected(w: World, e: Event, w': World, v: OfferValidity)
    requires e.Submit?
  {
    && w'.state == w.state
    && w'.log == w.log + [Envelope(Only(e.player), RejectedOffer(
                            MarketSubmissionResult(v, Offer(w.nextId, e.player, e.price, e.time), None, [])))]
  }

  /** The reply to an accepted offer is for all. */
  ghost predicate ToldAll(w: World, w': World, o: Offer) {
    && |w.log| < |w'.log| && w'.log[..|w.log|] == w.log
    && var x := w'.log[|w.log|];
    x.to == All && x.msg.AcceptedOffer? && x.msg.res.validity.Accepted? && x.msg.res.offer == o
  }

  lemma RejectionReply(w: World, e: Event, w': World)
    requires Next(w, e, w') && e.Submit?
    ensures Judge(w.state.desk, OfferOf(w, e)).Did?
    ensures var v := Judge(w.state.desk, OfferOf(w, e)).value;
            !v.Accepted? ==> OnlyRejected(w, e, w', v)
  {
  }

  lemma AcceptanceReply(w: World, e: Event, w': World)
    requires Sound(w) && Next(w, e, w') && e.Submit?
    requires Judge(w.state.desk, OfferOf(w, e)) == Did(OfferValidity.Accepted)
    ensures ToldAll(w, w', Offer(w.nextId, e.player, e.price, e.time))
  {
    hide Next, Handle, Judge, Sound;
    NextGives(w, e, w');
    var res := SubmitMessage(w, e);
  }

  /**
   * In every run, an offer is announced as accepted exactly when the market is
   * open, the sender can afford it beside everything it has resting, it
   * improves on its side if the rule is on, it does not meet the sender's own
   * standing offer, and its price is listed. Any other is answered to its
   * sender alone, with the verdict that is true of it, and changes nothing.
   */
  lemma OfferAnswered(ws: seq<World>, es: seq<Event>, i: nat, v: OfferValidity)
    requires IsRun(ws, es) && i < |es| && es[i].Submit?
    ensures var d, o := ws[i].state.desk, Offer(ws[i].nextId, es[i].player, es[i].price, es[i].time);
            && (v.Accepted? ==> (Means(v, d, o) <==> ToldAll(ws[i], ws[i + 1], o)))
            && (!v.Accepted? ==> (Means(v, d, o) <==> OnlyRejected(ws[i], es[i], ws[i + 1], v)))
  {
    hide Next, Handle, Judge, Sound, Means;
    var w, e, w' := ws[i], es[i], ws[i + 1];
    var d, o := w.state.desk, OfferOf(w, e);
    RunStep(ws, es, i);
    SoundBook(w);
    VerdictIff(d, o, v);
    RejectionReply(w, e, w');
    if Judge(d, o).value.Accepted? {
      AcceptanceReply(w, e, w');
    }
  }

  // ---- The improvement rule ------------------------------------------------

  ghost predicate SaysNonImproving(log: seq<Envelope>) {
    exists x :: x in log && x.msg.RejectedOffer? && x.msg.res.validity.RejectedNonImproving?
  }

  lemma SaysNonImprovingOnce(w: World, e: Event, w': World)
    requires Sound(w) && Next(w, e, w') && SaysNonImproving(Handle(w, e).value.out)
    ensures e.Submit? && w.state.desk.config.improvementRule && !Improves(w.state.desk, OfferOf(w, e))
  {
    hide Next, Handle, Judge, Improves;
    NextGives(w, e, w');
    SoundCallbacks(w);
    ReplyFits(w, e);
    var d, o, out := w.state.desk, OfferOf(w, e), Handle(w, e).value.out;
    SoundBook(w);
    VerdictIff(d, o, OfferValidity.RejectedNonImproving);
    VerdictIff(d, o, OfferValidity.Accepted);
    RejectionReply(w, e, w');
    if Judge(d, o).value.Accepted? {
      var res := SubmitMessage(w, e);
    } else {
      assert w.log + out == w.log + w'.log[|w.log|..];
    }
  }

  /** As long as the improvement rule is off, nobody is told that an offer does not improve. */
  lemma {:induction false} NonImprovingNeedsRule(ws: seq<World>, es: seq<Event>, i: nat, j: nat)
    requires IsRun(ws, es) && i <= j < |ws|
    requires forall k | i <= k < j :: !ws[k].state.desk.config.improvementRule
    ensures !SaysNonImproving(Since(ws[i], ws[j]))
  {
    hide Next, Handle;
    if i < j {
      NonImprovingNeedsRule(ws, es, i, j - 1);
      RunStep(ws, es, j - 1);
      LogsExtend(ws, es, i, j - 1);
      SinceGrows(ws[i], ws[j - 1], es[j - 1], ws[j]);
      if SaysNonImproving(Handle(ws[j - 1], es[j - 1]).value.out) {
        SaysNonImprovingOnce(ws[j - 1], es[j - 1], ws[j]);
      }
    }
  }
}
