/** What holds of the server in every state of every run, whatever the clients and the administrator send. */
module Reachable {
  import opened Values
  import opened Offers
  import opened OrderBooks
  import opened Portfolios
  import opened Experiments
  import opened OfferProcessing
  import opened MarketSafety
  import opened Servers
  import opened Ledgers

  /** How stage, status, timer, book and portfolios go together. */
  ghost predicate StageOk(s: State) {
    && (s.timer.callbacks == [] || s.timer.callbacks == [EndsRound] || s.timer.callbacks == [EndsReview])
    && (s.desk.exp.stage.Round? ==> s.timer.callbacks == [EndsRound])
    && (s.timer.callbacks != [EndsRound] ==> s.desk.book == EMPTY_BOOK)
    && (s.timer.callbacks == [] ==> s.desk.folios == map[])
    && (s.desk.exp.status.NotStarted? ==> s.timer.callbacks == [] && s.desk.exp.round == 0)
  }

  /** Subject ids are dense, and only subjects have portfolios. */
  ghost predicate SubjectsOk(s: State) {
    && (forall i: nat | i < |s.subjects| :: s.subjects[i].id == i)
    && (forall id | id in s.desk.folios :: id < |s.subjects|)
  }

  ghost predicate Sound(w: World) {
    && DeskOk(w.state.desk, w.nextId)
    && UnitsCovered(w.state.desk)
    && StageOk(w.state)
    && SubjectsOk(w.state)
  }

  lemma SoundCallbacks(w: World)
    requires Sound(w)
    ensures AtMostOneCallback(w.state)
  {
  }

  lemma SoundBook(w: World)
    requires Sound(w)
    ensures Sorted(w.state.desk.book.bids) && Sorted(w.state.desk.book.asks) && BookOk(w.state.desk.book)
  {
  }

  lemma {:induction false} AllocateFacts(config: Configuration, folios: Folios, n: nat)
    ensures Allocate(config, folios, n).Did? <==> forall id: nat | id < n :: id in config.subConfigs
    ensures Allocate(config, folios, n).Did? ==>
              var r := Allocate(config, folios, n).value;
              && (forall id: nat | id < n :: id in r && r[id] == config.subConfigs[id].initAlloc)
              && (forall id: nat | id >= n :: (id in r <==> id in folios) && (id in r ==> r[id] == folios[id]))
  {
    if n > 0 {
      AllocateFacts(config, folios, n - 1);
    }
  }

  lemma EmptyDesk(d: Desk, nextId: nat)
    requires d.book == EMPTY_BOOK
    ensures DeskOk(d, nextId) && UnitsCovered(d)
  {
  }

  lemma SubmitKeepsSound(w: World, e: Event, w': World)
    requires Sound(w) && Next(w, e, w') && e.Submit?
    ensures Sound(w')
  {
    hide Next, Handle, ProcessOffer, Judge, TradeNotices, OfferEffect, DeskOk, UnitsCovered;
    var d, o := w.state.desk, OfferOf(w, e);
    SubmitShape(w, e, w');
    SubmitFrame(d, o, e.sorted);
    OfferKeepsDesk(d, w.nextId, o, e.sorted);
    if Judge(d, o) == Did(OfferValidity.Accepted) {
      WillBeAccepted(w, e, w');
      OfferHasEffect(d, w.nextId, o, e.sorted);
      OfferKeepsUnits(d, o, w'.state.desk, Counterpart(d, o), Replaced(d, o));
    } else {
      RejectedKeepsState(w, e, w');
    }
  }

  lemma SubmitFrame(d: Desk, o: Offer, sorted: seq<Offer>)
    requires ProcessOffer(d, o, sorted).Did?
    ensures var d' := ProcessOffer(d, o, sorted).value.desk;
            && d'.exp == d.exp && d'.config == d.config && d'.folios.Keys == d.folios.Keys
            && (!d.exp.IsMarketOpen() ==> d' == d)
  {
  }

  /** A submission as the offer processor's outcome and the messages it calls for. */
  lemma SubmitShape(w: World, e: Event, w': World)
    requires Next(w, e, w') && e.Submit?
    ensures Possible(w, e)
    ensures var o := OfferOf(w, e);
            var h := ProcessOffer(w.state.desk, o, e.sorted);
            && h.Did? && w'.state == w.state.(desk := h.value.desk)
            && PossibleSort(w.state.desk, o, e.sorted) && w'.nextId == w.nextId + 1
            && TradeNotices(h.value.desk.folios, h.value.result.trade).Did?
            && Handle(w, e).Did?
            && Handle(w, e).value.out
               == [if h.value.result.validity.Accepted? then Envelope(All, AcceptedOffer(h.value.result))
                   else Envelope(Only(o.player), RejectedOffer(h.value.result))]
                  + TradeNotices(h.value.desk.folios, h.value.result.trade).value
            && w'.log == w.log + Handle(w, e).value.out
  {
    hide ProcessOffer, TradeNotices;
  }

  lemma WillBeAccepted(w: World, e: Event, w': World)
    requires Sound(w) && Next(w, e, w') && e.Submit?
    requires Judge(w.state.desk, OfferOf(w, e)) == Did(OfferValidity.Accepted)
    ensures WillAccept(w.state.desk, w.nextId, OfferOf(w, e), e.sorted)
  {
    hide Judge, Handle;
  }

  lemma RejectedKeepsState(w: World, e: Event, w': World)
    requires Next(w, e, w') && e.Submit? && Judge(w.state.desk, OfferOf(w, e)) != Did(OfferValidity.Accepted)
    ensures w'.state == w.state
  {
    hide Judge, TradeNotices;
    SubmitShape(w, e, w');
  }

  /** What the first message of the reply to an offer says. */
  lemma SubmitMessage(w: World, e: Event) returns (res: MarketSubmissionResult)
    requires Sound(w) && Possible(w, e) && Handle(w, e).Did? && e.Submit?
    ensures var d, o, out := w.state.desk, OfferOf(w, e), Handle(w, e).value.out;
            && out != [] && (forall x | x in out[1..] :: x.msg.PortfolioUpdate?)
            && Judge(d, o).Did?
            && if Judge(d, o).value.Accepted? then
                 var c := Counterpart(d, o);
                 && out[0] == Envelope(All, AcceptedOffer(res))
                 && res == MarketSubmissionResult(
                             OfferValidity.Accepted, o,
                             if c.Some? then Some(TradeWith(o, c.value)) else None,
                             RetractsFor(o.player, Replaced(d, o)))
               else
                 out[0].msg.RejectedOffer?
  {
    hide Judge, TradeNotices, Peek, Popped;
    var d, o := w.state.desk, OfferOf(w, e);
    res := ProcessOffer(d, o, e.sorted).value.result;
    NoticesOnly(ProcessOffer(d, o, e.sorted).value.desk.folios, res.trade);
    if Judge(d, o) == Did(OfferValidity.Accepted) {
      MatchResult(d, w.nextId, o, e.sorted);
    }
  }

  lemma NoticesOnly(folios: Folios, trade: Option<Trade>)
    ensures TradeNotices(folios, trade).Did? ==>
              forall x | x in TradeNotices(folios, trade).value :: x.msg.PortfolioUpdate?
  {
  }

  lemma RetractKeepsSound(w: World, e: Event, w': World)
    requires Sound(w) && Next(w, e, w') && e.Retract?
    ensures Sound(w')
  {
    var rr := RetractRequest(e.player, e.offerId);
    RetractKeepsDesk(w.state.desk, w.nextId, rr);
    RetractKeepsUnits(w.state.desk, w.nextId, rr);
  }

  lemma CreateOutcome(d: Desk, p: nat)
    requires ProcessCreate(d, p).Did?
    ensures var d' := ProcessCreate(d, p).value.desk;
            && d' == d.(folios := d'.folios) && d'.folios.Keys == d.folios.Keys
            && forall q: nat :: Held(d'.folios, q, Shares) >= Held(d.folios, q, Shares)
  {
  }

  lemma CreateKeepsSound(w: World, e: Event, w': World)
    requires Sound(w) && Next(w, e, w') && e.Create?
    ensures Sound(w')
  {
    hide Next, Handle, ProcessCreate;
    NextGives(w, e, w');
    CreateShape(w, e);
    CreateOutcome(w.state.desk, e.player);
  }

  lemma ExpiryKeepsStage(s: State)
    requires StageOk(s) && SubjectsOk(s) && Expire(s).Did?
    ensures StageOk(Expire(s).value.state) && SubjectsOk(Expire(s).value.state)
    ensures Expire(s).value.state.desk.book == EMPTY_BOOK
  {
    if s.timer.callbacks == [EndsRound] {
      hide EndRound, PayDividend, SendPortfolios;
      ExpireCalls(s, EndsRound);
      EndRoundReply(s.(timer := s.timer.(state := TimerState.Ended)));
      PaidKeys(s.desk.folios, s.desk.config.GetRoundConfiguration(s.desk.exp.round).value.dividend);
    } else if s.timer.callbacks == [EndsReview] {
      ExpireCalls(s, EndsReview);
    }
  }

  lemma PaidKeys(folios: Folios, dividend: nat)
    ensures PayDividend(folios, dividend).Keys == folios.Keys
  {
  }

  lemma ExpireKeepsSound(w: World, e: Event, w': World)
    requires Sound(w) && Next(w, e, w') && e.TimerExpires?
    ensures Sound(w')
  {
    hide Next, Handle, DeskOk, UnitsCovered, Expire;
    NextGives(w, e, w');
    HandlesExpiry(w, e);
    ExpiryKeepsStage(w.state);
    EmptyDesk(w'.state.desk, w'.nextId);
  }

  lemma StartKeepsSound(w: World, e: Event, w': World)
    requires Sound(w) && Next(w, e, w') && e.RequestStart?
    ensures Sound(w')
  {
    AllocateFacts(w.state.desk.config, w.state.desk.folios, |w.state.subjects|);
    if StartVerdict(w.state).Accepted? {
      EmptyDesk(w'.state.desk, w'.nextId);
    }
  }

  lemma NextKeepsSound(w: World, e: Event, w': World)
    requires Sound(w) && Next(w, e, w')
    ensures Sound(w')
  {
    match e
    case Submit(_, _, _, _) => SubmitKeepsSound(w, e, w');
    case Retract(_, _) => RetractKeepsSound(w, e, w');
    case Create(_) => CreateKeepsSound(w, e, w');
    case TimerExpires => ExpireKeepsSound(w, e, w');
    case RequestStart => StartKeepsSound(w, e, w');
    case _ => assert w'.state.desk.book == w.state.desk.book && w'.state.desk.folios == w.state.desk.folios;
  }

  /**
   * In every state of every run the book is sorted and uncrossed with no id
   * twice, every resting offer has a portfolio behind it, and nobody has more
   * asks resting than units held.
   */
  lemma {:induction false} RunIsSound(ws: seq<World>, es: seq<Event>, i: nat)
    requires IsRun(ws, es) && i < |ws|
    ensures Sound(ws[i])
  {
    hide Next;
    if i == 0 {
      EmptyDesk(ws[0].state.desk, ws[0].nextId);
    } else {
      RunIsSound(ws, es, i - 1);
      assert StepAt(ws, es, i - 1);
      NextKeepsSound(ws[i - 1], es[i - 1], ws[i]);
    }
  }

  lemma RunStep(ws: seq<World>, es: seq<Event>, i: nat)
    requires IsRun(ws, es) && i < |es|
    ensures Sound(ws[i]) && Next(ws[i], es[i], ws[i + 1])
    ensures Possible(ws[i], es[i]) && Handle(ws[i], es[i]).Did?
  {
    RunIsSound(ws, es, i);
    assert StepAt(ws, es, i);
  }

  /** What was sent on the way from one world to a later one. */
  function Since(from: World, to: World): seq<Envelope> {
    if |from.log| <= |to.log| then to.log[|from.log|..] else []
  }

  lemma SinceGrows(from: World, w: World, e: Event, w': World)
    requires Next(w, e, w') && |from.log| <= |w.log|
    ensures |w.log| <= |w'.log| && w'.log[..|w.log|] == w.log
    ensures Since(from, w') == Since(from, w) + Handle(w, e).value.out
  {
  }

  lemma SinceIsReply(w: World, e: Event, w': World)
    requires Next(w, e, w')
    ensures Since(w, w') == Handle(w, e).value.out
  {
    SinceGrows(w, w, e, w');
  }

  lemma {:induction false} LogsExtend(ws: seq<World>, es: seq<Event>, k: nat, j: nat)
    requires IsRun(ws, es) && k <= j < |ws|
    ensures |ws[k].log| <= |ws[j].log| && ws[j].log[..|ws[k].log|] == ws[k].log
    ensures ws[j].log == ws[k].log + ws[j].log[|ws[k].log|..]
  {
    if k < j {
      hide Next;
      LogsExtend(ws, es, k, j - 1);
      assert StepAt(ws, es, j - 1);
      NextGives(ws[j - 1], es[j - 1], ws[j]);
    }
  }

  lemma SinceSplits(ws: seq<World>, es: seq<Event>, i: nat, m: nat, j: nat)
    requires IsRun(ws, es) && i <= m <= j < |ws|
    ensures Since(ws[i], ws[j]) == Since(ws[i], ws[m]) + Since(ws[m], ws[j])
  {
    LogsExtend(ws, es, i, m);
    LogsExtend(ws, es, m, j);
    LogsExtend(ws, es, i, j);
    hide IsRun;
    assert ws[j].log == ws[m].log + Since(ws[m], ws[j]);
    assert ws[m].log == ws[i].log + Since(ws[i], ws[m]);
  }

  lemma RunGrows(ws: seq<World>, es: seq<Event>, e: Event, w': World)
    requires IsRun(ws, es) && Next(ws[|es|], e, w')
    ensures |ws| == |es| + 1 && IsRun(ws + [w'], es + [e])
  {
    hide Next;
    var ws', es' := ws + [w'], es + [e];
    forall i | 0 <= i < |es'|
      ensures StepAt(ws', es', i)
    {
      if i < |es| {
        assert StepAt(ws, es, i);
      }
    }
  }
}
