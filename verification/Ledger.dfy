/** What the messages sent so far add up to. */
module Ledgers {
  import opened Values
  import opened Offers
  import opened OrderBooks
  import opened Portfolios
  import opened Experiments
  import opened OfferProcessing
  import opened Servers

  /** One offer id, or all of them. */
  datatype Ids = Any | Just(id: nat)

  function Matches(ids: Ids, id: nat): int {
    if ids.Any? || ids.id == id then 1 else 0
  }

  function MeasureOf(ids: Ids): Measure {
    if ids.Any? then Each else HasId(ids.id)
  }

  datatype Tally =
    | DividendsPaid        // the dividends announced, added up
    | Acceptances(ids: Ids)   // offers announced as accepted
    | Traded(ids: Ids)     // offers consumed by a trade, two for each trade
    | Retracts(ids: Ids)   // offers announced as retracted, by request or by replacement

  function RetractsAmong(retracts: seq<RetractResult>, ids: Ids): int {
    if retracts == [] then 0
    else RetractsAmong(retracts[..|retracts| - 1], ids) + Matches(ids, retracts[|retracts| - 1].request.offerId)
  }

  function Entry(t: Tally, m: Message): int {
    match t
    case DividendsPaid => if m.DividendStarted? then m.dividend else 0
    case Acceptances(ids) => if m.AcceptedOffer? then Matches(ids, m.res.offer.id) else 0
    case Traded(ids) =>
      if m.AcceptedOffer? && m.res.trade.Some? then
        Matches(ids, m.res.trade.value.bidId) + Matches(ids, m.res.trade.value.askId)
      else 0
    case Retracts(ids) =>
      if m.AcceptedOffer? then RetractsAmong(m.res.retracts, ids)
      else if m.AcceptedRetraction? then Matches(ids, m.rr.request.offerId)
      else 0
  }

  function Sum(log: seq<Envelope>, t: Tally): int {
    if log == [] then 0 else Sum(log[..|log| - 1], t) + Entry(t, log[|log| - 1].msg)
  }

  lemma {:induction false} SumConcat(a: seq<Envelope>, b: seq<Envelope>, t: Tally)
    ensures Sum(a + b, t) == Sum(a, t) + Sum(b, t)
  {
    if b == [] {
      assert a + b == a;
    } else {
      var front := b[..|b| - 1];
      assert (a + b)[..|a + b| - 1] == a + front;
      SumConcat(a, front, t);
    }
  }

  lemma {:induction false} SumZero(log: seq<Envelope>, t: Tally)
    requires forall e | e in log :: Entry(t, e.msg) == 0
    ensures Sum(log, t) == 0
  {
    if log != [] {
      SumZero(log[..|log| - 1], t);
    }
  }

  lemma {:induction false} SumNonNegative(log: seq<Envelope>, t: Tally)
    ensures Sum(log, t) >= 0
  {
    if log != [] {
      SumNonNegative(log[..|log| - 1], t);
      var m := log[|log| - 1].msg;
      if m.AcceptedOffer? && t.Retracts? {
        RetractsNonNegative(m.res.retracts, t.ids);
      }
    }
  }

  lemma {:induction false} RetractsNonNegative(retracts: seq<RetractResult>, ids: Ids)
    ensures RetractsAmong(retracts, ids) >= 0
  {
    if retracts != [] {
      RetractsNonNegative(retracts[..|retracts| - 1], ids);
    }
  }

  /** A retract list names exactly the offers it was made for. */
  lemma {:induction false} RetractsForCount(player: nat, gone: seq<Offer>, ids: Ids)
    ensures RetractsAmong(RetractsFor(player, gone), ids) == Total(gone, MeasureOf(ids))
  {
    if gone != [] {
      var front := gone[..|gone| - 1];
      RetractsForCount(player, front, ids);
      var rs := RetractsFor(player, gone);
      assert rs[..|rs| - 1] == RetractsFor(player, front);
    }
  }

  // ---- Messages that change no sum -------------------------------------

  ghost predicate Personal(log: seq<Envelope>) {
    forall e | e in log :: e.to.Only? && (e.msg.PortfolioUpdate? || e.msg.SubjectSettings?)
  }

  lemma PersonalSum(log: seq<Envelope>, t: Tally)
    requires Personal(log)
    ensures Sum(log, t) == 0
  {
    SumZero(log, t);
  }

  lemma {:induction false} PortfoliosArePersonal(folios: Folios, n: nat)
    ensures SendPortfolios(folios, n).Did? ==> Personal(SendPortfolios(folios, n).value)
    ensures SendPortfolios(folios, n).Did? <==> forall id: nat | id < n :: id in folios
  {
    if n > 0 {
      PortfoliosArePersonal(folios, n - 1);
    }
  }

  lemma {:induction false} SettingsArePersonal(config: Configuration, n: nat)
    ensures SendSettings(config, n).Did? ==> Personal(SendSettings(config, n).value)
    ensures SendSettings(config, n).Did? <==> forall id: nat | id < n :: id in config.subConfigs
  {
    if n > 0 {
      SettingsArePersonal(config, n - 1);
    }
  }

  lemma {:induction false} OpeningIsPersonal(config: Configuration, folios: Folios, n: nat)
    ensures SendOpening(config, folios, n).Did? ==> Personal(SendOpening(config, folios, n).value)
    ensures SendOpening(config, folios, n).Did? <==>
            forall id: nat | id < n :: id in config.subConfigs && id in folios
  {
    if n > 0 {
      OpeningIsPersonal(config, folios, n - 1);
    }
  }

  // ---- The replies of the period machine ---------------------------------

  /** An expiring timer with one callback makes that call. */
  lemma ExpireCalls(s: State, c: Callback)
    requires s.timer.callbacks == [c]
    ensures Expire(s) == Call(s.(timer := s.timer.(state := TimerState.Ended)), c)
  {
    var stopped := s.(timer := s.timer.(state := TimerState.Ended));
    assert [c][1..] == [];
    var first := Call(stopped, c);
    if first.Did? {
      assert first.value.out + [] == first.value.out;
      assert CallEach(first.value.state, []) == Did(Reply(first.value.state, []));
    }
  }

  /** What the end of a round does, and what it announces. */
  lemma EndRoundReply(s: State)
    requires EndRound(s).Did?
    ensures s.desk.config.GetRoundConfiguration(s.desk.exp.round).Did?
    ensures var dividend := s.desk.config.GetRoundConfiguration(s.desk.exp.round).value.dividend;
            var r := EndRound(s).value;
            && r.state == State(
                            Desk(s.desk.exp.(stage := Review), s.desk.config, EMPTY_BOOK,
                                 PayDividend(s.desk.folios, dividend)),
                            s.subjects, s.counter, Rearm(EndsReview))
            && SendPortfolios(r.state.desk.folios, |s.subjects|).Did?
            && r.out == [Envelope(All, RoundEnded), Envelope(All, DividendStarted(dividend))]
                        + SendPortfolios(r.state.desk.folios, |s.subjects|).value
                        + [Envelope(All, ReviewStarted)]
  {
  }

  lemma EndRoundSums(s: State, t: Tally)
    requires EndRound(s).Did?
    ensures Sum(EndRound(s).value.out, t)
         == if t.DividendsPaid? then s.desk.config.GetRoundConfiguration(s.desk.exp.round).value.dividend else 0
  {
    EndRoundReply(s);
    var r := EndRound(s).value;
    var dividend := s.desk.config.GetRoundConfiguration(s.desk.exp.round).value.dividend;
    var sent := SendPortfolios(r.state.desk.folios, |s.subjects|).value;
    var head := [Envelope(All, RoundEnded), Envelope(All, DividendStarted(dividend))];
    PortfoliosArePersonal(r.state.desk.folios, |s.subjects|);
    PersonalSum(sent, t);
    SumConcat(head + sent, [Envelope(All, ReviewStarted)], t);
    SumConcat(head, sent, t);
    assert head[..1][..0] == [];
  }

  // ---- What a reply may say ----------------------------------------------

  ghost predicate AtMostOneCallback(s: State) {
    s.timer.callbacks == [] || s.timer.callbacks == [EndsRound] || s.timer.callbacks == [EndsReview]
  }

  /** The messages that may answer an event. */
  predicate Fitting(s: State, e: Event, m: Message) {
    match e
    case Submit(_, _, _, _) => m.AcceptedOffer? || m.RejectedOffer? || m.PortfolioUpdate?
    case Retract(_, _) => m.AcceptedRetraction? || m.RejectedRetraction?
    case Create(_) => m.CreationProcessed? || m.PortfolioUpdate?
    case Name(_, _) => m.SubjectData? || m.ExperimentEnded?
    case GetReady(_) => m.SubjectReady? || m.InstructionsEnded?
    case Join => false
    case RequestInstructions => m.InstructionsRequested? || m.SubjectSettings? || m.InstructionsStarted?
    case RequestStart =>
      || m.ExperimentStarted?
      || (StartVerdict(s).Accepted? && (m.SubjectSettings? || m.PortfolioUpdate? || m.RoundStarted?))
    case EndEarly => m.PayoutsStarted?
    case Load(_) => m.ConfigurationLoaded?
    case RequestPause => m.ExperimentPaused?
    case RequestResume => m.ExperimentResumed?
    case TimerExpires =>
      if s.timer.callbacks == [EndsRound] then
        m.RoundEnded? || m.DividendStarted? || m.PortfolioUpdate? || m.ReviewStarted?
      else if s.timer.callbacks == [EndsReview] then
        m.ReviewEnded? || m.RoundStarted? || m.PayoutsStarted?
      else
        false
  }

  lemma StartReplyFits(s: State)
    requires StartExperiment(s).Did?
    ensures forall x | x in StartExperiment(s).value.out :: Fitting(s, RequestStart, x.msg)
  {
    if StartVerdict(s).Accepted? {
      OpeningIsPersonal(s.desk.config, Allocate(s.desk.config, s.desk.folios, |s.subjects|).value, |s.subjects|);
    }
  }

  lemma InstructionsReplyFits(s: State)
    requires StartInstructions(s).Did?
    ensures forall x | x in StartInstructions(s).value.out :: Fitting(s, RequestInstructions, x.msg)
  {
    SettingsOnly(s.desk.config, |s.subjects|);
  }

  lemma {:induction false} SettingsOnly(config: Configuration, n: nat)
    ensures SendSettings(config, n).Did? ==> forall x | x in SendSettings(config, n).value :: x.msg.SubjectSettings?
  {
    if n > 0 {
      SettingsOnly(config, n - 1);
    }
  }

  lemma {:induction false} PortfoliosOnly(folios: Folios, n: nat)
    ensures SendPortfolios(folios, n).Did? ==> forall x | x in SendPortfolios(folios, n).value :: x.msg.PortfolioUpdate?
  {
    if n > 0 {
      PortfoliosOnly(folios, n - 1);
    }
  }

  lemma ExpiryReplyFits(s: State)
    requires Expire(s).Did? && AtMostOneCallback(s)
    ensures forall x | x in Expire(s).value.out :: Fitting(s, TimerExpires, x.msg)
  {
    var stopped := s.(timer := s.timer.(state := TimerState.Ended));
    if s.timer.callbacks == [EndsRound] {
      hide Expire, EndRound;
      ExpireCalls(s, EndsRound);
      RoundEndFits(stopped);
    } else if s.timer.callbacks == [EndsReview] {
      hide Expire, EndReview;
      ExpireCalls(s, EndsReview);
      ReviewEndFits(stopped);
    }
  }

  lemma RoundEndFits(s: State)
    requires EndRound(s).Did?
    ensures forall x | x in EndRound(s).value.out ::
              x.msg.RoundEnded? || x.msg.DividendStarted? || x.msg.PortfolioUpdate? || x.msg.ReviewStarted?
  {
    hide EndRound;
    EndRoundReply(s);
    PortfoliosOnly(EndRound(s).value.state.desk.folios, |s.subjects|);
  }

  lemma ReviewEndFits(s: State)
    requires EndReview(s).Did?
    ensures forall x | x in EndReview(s).value.out :: x.msg.ReviewEnded? || x.msg.RoundStarted? || x.msg.PayoutsStarted?
  {
  }

  lemma OfferReplyFits(s: State, o: Offer, sorted: seq<Offer>)
    requires TakeOffer(s, o, sorted).Did?
    ensures forall x | x in TakeOffer(s, o, sorted).value.out ::
              x.msg.AcceptedOffer? || x.msg.RejectedOffer? || x.msg.PortfolioUpdate?
  {
    hide ProcessOffer;
  }

  lemma CreationReplyFits(s: State, id: nat)
    requires CreateAsset(s, id).Did?
    ensures forall x | x in CreateAsset(s, id).value.out :: x.msg.CreationProcessed? || x.msg.PortfolioUpdate?
  {
    hide ProcessCreate;
  }

  /** Every message of a reply fits the event. */
  lemma ReplyFits(w: World, e: Event)
    requires Possible(w, e) && Handle(w, e).Did? && AtMostOneCallback(w.state)
    ensures forall x | x in Handle(w, e).value.out :: Fitting(w.state, e, x.msg)
  {
    hide StartExperiment, StartInstructions, Expire, CreateAsset, TakeOffer, ProcessRetract, PossibleSort;
    match e {
      case Submit(_, _, _, sorted) => OfferReplyFits(w.state, OfferOf(w, e), sorted);
      case Create(p) => CreationReplyFits(w.state, p);
      case RequestInstructions => InstructionsReplyFits(w.state);
      case RequestStart => StartReplyFits(w.state);
      case TimerExpires => ExpiryReplyFits(w.state);
      case _ =>
    }
  }

  /** The world after an event that is handled without throwing. */
  function WorldAfter(w: World, e: Event): World
    requires (e.Name? ==> w.state.Knows(e.player)) && Handle(w, e).Did?
  {
    World(Handle(w, e).value.state, if e.Submit? then w.nextId + 1 else w.nextId, w.log + Handle(w, e).value.out)
  }

  /** An event that can occur and is handled is a step. */
  lemma WorldAfterIsNext(w: World, e: Event)
    requires Possible(w, e) && Handle(w, e).Did?
    ensures Next(w, e, WorldAfter(w, e))
  {
    hide Handle;
  }

  /** A step in terms of the handling of its event. */
  lemma NextGives(w: World, e: Event, w': World)
    requires Next(w, e, w')
    ensures Possible(w, e) && Handle(w, e).Did? && w'.state == Handle(w, e).value.state
    ensures w'.log == w.log + Handle(w, e).value.out
    ensures w'.nextId == if e.Submit? then w.nextId + 1 else w.nextId
  {
    hide Handle;
  }

  lemma HandlesExpiry(w: World, e: Event)
    requires e.TimerExpires?
    ensures Handle(w, e) == Expire(w.state)
  {
    hide Expire;
  }

  lemma HandlesStart(w: World, e: Event)
    requires e.RequestStart?
    ensures Handle(w, e) == StartExperiment(w.state)
  {
    hide StartExperiment;
  }

  lemma RetractFrame(w: World, e: Event)
    requires Possible(w, e) && e.Retract?
    ensures Handle(w, e).Did?
    ensures var s, s' := w.state, Handle(w, e).value.state;
            s' == s.(desk := s.desk.(book := s'.desk.book))
  {
  }

  lemma CreateFrame(w: World, e: Event)
    requires Possible(w, e) && Handle(w, e).Did? && e.Create?
    ensures var s, s' := w.state, Handle(w, e).value.state;
            s' == s.(desk := s.desk.(folios := s'.desk.folios)) && s'.desk.folios.Keys == s.desk.folios.Keys
  {
  }

  /** A retraction as the offer processor's outcome and the message it calls for. */
  lemma RetractShape(w: World, e: Event)
    requires Possible(w, e) && e.Retract?
    ensures Handle(w, e).Did?
    ensures var d, rr, r := w.state.desk, RetractRequest(e.player, e.offerId), Handle(w, e).value;
            var validity := JudgeRetract(d, rr);
            && r.state == w.state.(desk := if validity.Accepted? then d.(book := Retracted(d.book, rr.offerId)) else d)
            && r.out == [if validity.Accepted? then Envelope(All, AcceptedRetraction(RetractResult(validity, rr)))
                         else Envelope(Only(rr.id), RejectedRetraction(RetractResult(validity, rr)))]
  {
    hide JudgeRetract;
  }

  /** A creation as the offer processor's outcome and the messages it calls for. */
  lemma CreateShape(w: World, e: Event)
    requires Possible(w, e) && Handle(w, e).Did? && e.Create?
    ensures var h, r := ProcessCreate(w.state.desk, e.player), Handle(w, e).value;
            && h.Did? && r.state == w.state.(desk := h.value.desk)
            && (h.value.result.validity.Accepted? ==> e.player in h.value.desk.folios)
            && r.out == [Envelope(Only(e.player), CreationProcessed(h.value.result))]
                        + if h.value.result.validity.Accepted? then
                            [Envelope(Only(e.player), PortfolioUpdate(e.player, h.value.desk.folios[e.player]))]
                          else []
  {
    hide ProcessCreate;
  }

  lemma ReviewEndFrame(s: State)
    requires Expire(s).Did? && (s.timer.callbacks == [] || s.timer.callbacks == [EndsReview])
    ensures Expire(s).value.state.desk.folios == s.desk.folios && Expire(s).value.state.subjects == s.subjects
  {
    if s.timer.callbacks != [] {
      ExpireCalls(s, EndsReview);
    }
  }

  /** Neither of the market nor of the timer, nor an accepted start. */
  predicate Clerical(s: State, e: Event) {
    && !e.Submit? && !e.Retract? && !e.Create? && !e.TimerExpires?
    && (e.RequestStart? ==> !StartVerdict(s).Accepted?)
  }

  /** Such an event leaves the market, the portfolios and what the timer will call as they are. */
  lemma ClericalEffect(w: World, e: Event)
    requires Possible(w, e) && Handle(w, e).Did? && Clerical(w.state, e)
    ensures var s, s' := w.state, Handle(w, e).value.state;
            && s'.desk.book == s.desk.book && s'.desk.folios == s.desk.folios
            && s'.timer.callbacks == s.timer.callbacks && s'.desk.exp.round == s.desk.exp.round
            && |s'.subjects| == |s.subjects| + (if e.Join? then 1 else 0)
            && (!e.Load? ==> s'.desk.config == s.desk.config)
            && (e.RequestPause? || e.RequestResume? || s'.timer == s.timer)
  {
    hide SendSettings;
  }

  /** Every other reply of the period machine and of the administration leaves all sums alone. */
  lemma QuietReply(w: World, e: Event, t: Tally)
    requires Possible(w, e) && Handle(w, e).Did?
    requires !e.Submit? && !e.Retract?
    requires e.TimerExpires? ==> w.state.timer.callbacks == [] || w.state.timer.callbacks == [EndsReview]
    requires AtMostOneCallback(w.state)
    ensures Sum(Handle(w, e).value.out, t) == 0
  {
    hide Handle, StartVerdict;
    ReplyFits(w, e);
    SumZero(Handle(w, e).value.out, t);
  }
}
