/** When cash keeps covering resting bids over a run, and the creation that breaks it. */
module CashCover {
  import opened Values
  import opened Offers
  import opened OrderBooks
  import opened Portfolios
  import opened Experiments
  import opened OfferProcessing
  import opened MarketSafety
  import opened Servers
  import opened Ledgers
  import opened Reachable
  import opened Conservation

  /** None of the first `n` subjects is configured to start with a debt of cash or of units. */
  ghost predicate Funded(config: Configuration, n: nat) {
    forall id: nat | id < n && id in config.subConfigs ::
      var alloc := config.subConfigs[id].initAlloc;
      ItemCount(alloc, Cash) >= 0 && ItemCount(alloc, Shares) >= 0
  }

  ghost predicate FundedStart(w: World, e: Event) {
    AcceptedStart(w, e) ==> Funded(w.state.desk.config, |w.state.subjects|)
  }

  /** If the step creates a unit, cash after the margin still covers the creator's resting bids. */
  ghost predicate CoveredCreate(w: World, e: Event) {
    var d := w.state.desk;
    e.Create? && JudgeCreate(d, e.player) == Did(CreationValidity.Accepted) ==>
      Held(d.folios, e.player, Cash) - d.config.GetRoundConfiguration(d.exp.round).value.marginReq
      >= SumPrices(OffersOf(d.book.bids, e.player))
  }

  ghost predicate Solvent(d: Desk) {
    UnitsNonNegative(d) && CashCovers(d)
  }

  lemma DividendKeepsSolvent(d: Desk, dividend: nat)
    requires UnitsNonNegative(d)
    requires forall p: nat :: Held(d.folios, p, Cash) >= 0
    ensures Solvent(d.(book := EMPTY_BOOK, folios := PayDividend(d.folios, dividend)))
  {
    var d' := d.(book := EMPTY_BOOK, folios := PayDividend(d.folios, dividend));
    forall p: nat
      ensures Held(d'.folios, p, Shares) >= 0 && Held(d'.folios, p, Cash) >= 0
    {
      if p in d.folios {
        assert Held(d.folios, p, Shares) * dividend >= 0;
        assert Held(d'.folios, p, Cash) == Held(d.folios, p, Cash) + Held(d.folios, p, Shares) * dividend;
      }
    }
  }

  lemma CashNonNegative(d: Desk)
    requires BookOk(d.book) && CashCovers(d)
    ensures forall p: nat :: Held(d.folios, p, Cash) >= 0
  {
    forall p: nat
      ensures Held(d.folios, p, Cash) >= 0
    {
      TotalNonNegative(d.book.bids, PriceOf(p));
    }
  }

  lemma SubmitKeepsSolvent(w: World, e: Event, w': World)
    requires Sound(w) && Next(w, e, w') && Solvent(w.state.desk) && e.Submit?
    ensures Solvent(w'.state.desk)
  {
    var d, o := w.state.desk, OfferOf(w, e);
    if Judge(d, o) == Did(OfferValidity.Accepted) {
      OfferHasEffect(d, w.nextId, o, e.sorted);
      OfferKeepsUnits(d, o, w'.state.desk, Counterpart(d, o), Replaced(d, o));
      OfferKeepsCash(d, o, w'.state.desk, Counterpart(d, o), Replaced(d, o));
    } else {
      assert w'.state == w.state;
    }
  }

  lemma CreateKeepsSolventIff(w: World, e: Event, w': World)
    requires Sound(w) && Next(w, e, w') && Solvent(w.state.desk) && e.Create?
    ensures Solvent(w'.state.desk) <==> CoveredCreate(w, e)
  {
    var d, d' := w.state.desk, w'.state.desk;
    if JudgeCreate(d, e.player) == Did(CreationValidity.Accepted) {
      CreateKeepsCashIff(d, e.player);
      assert d'.folios == Issue(d.folios, e.player, d.config.GetRoundConfiguration(d.exp.round).value.marginReq);
    } else {
      assert d' == d;
    }
  }

  lemma FreshDeskSolventIff(d: Desk, config: Configuration, n: nat)
    requires d.book == EMPTY_BOOK
    requires forall id: nat | id < n ::
            id in config.subConfigs && id in d.folios && d.folios[id] == config.subConfigs[id].initAlloc
    requires forall id | id in d.folios :: id < n
    ensures Solvent(d) <==> Funded(config, n)
  {
    if Solvent(d) {
      forall id: nat | id < n
        ensures ItemCount(d.folios[id], Cash) >= 0 && ItemCount(d.folios[id], Shares) >= 0
      {
        assert Held(d.folios, id, Cash) >= Total(d.book.bids, PriceOf(id)) && Held(d.folios, id, Shares) >= 0;
      }
    }
    if Funded(config, n) {
      forall p: nat
        ensures Held(d.folios, p, Cash) >= 0 && Held(d.folios, p, Shares) >= 0
      {
      }
    }
  }

  /** An accepted start leaves everybody solvent exactly when it is funded. */
  lemma StartIsSolventIff(w: World, e: Event, w': World)
    requires Sound(w) && Next(w, e, w') && Solvent(w.state.desk) && e.RequestStart?
    ensures Solvent(w'.state.desk) <==> FundedStart(w, e)
  {
    var config, n := w.state.desk.config, |w.state.subjects|;
    if StartVerdict(w.state).Accepted? {
      AllocateFacts(config, w.state.desk.folios, n);
      FreshDeskSolventIff(w'.state.desk, config, n);
    } else {
      assert w'.state == w.state;
    }
  }

  lemma ExpireKeepsSolvent(w: World, e: Event, w': World)
    requires Sound(w) && Next(w, e, w') && Solvent(w.state.desk) && e.TimerExpires?
    ensures Solvent(w'.state.desk)
  {
    var s := w.state;
    if s.timer.callbacks == [EndsRound] {
      ExpireCalls(s, EndsRound);
      EndRoundReply(s.(timer := s.timer.(state := TimerState.Ended)));
      CashNonNegative(s.desk);
      DividendKeepsSolvent(s.desk, s.desk.config.GetRoundConfiguration(s.desk.exp.round).value.dividend);
    } else if s.timer.callbacks == [EndsReview] {
      ExpireCalls(s, EndsReview);
    }
  }

  /** Every step keeps every subject solvent, apart from an uncovered creation. */
  lemma NextKeepsSolvent(w: World, e: Event, w': World)
    requires Sound(w) && Next(w, e, w') && Solvent(w.state.desk) && FundedStart(w, e) && CoveredCreate(w, e)
    ensures Solvent(w'.state.desk)
  {
    match e
    case Submit(_, _, _, _) => SubmitKeepsSolvent(w, e, w');
    case Create(_) => CreateKeepsSolventIff(w, e, w');
    case RequestStart => StartIsSolventIff(w, e, w');
    case TimerExpires => ExpireKeepsSolvent(w, e, w');
    case Retract(p, offerId) => RetractKeepsCash(w.state.desk, w.nextId, RetractRequest(p, offerId));
    case _ => assert w'.state.desk.folios == w.state.desk.folios && w'.state.desk.book == w.state.desk.book;
  }

  ghost predicate Prudent(w: World, e: Event) {
    FundedStart(w, e) && CoveredCreate(w, e)
  }

  /**
   * In every run whose start is funded and whose creations stay covered,
   * every subject's cash covers all of its resting bids in every state, and
   * units never go negative.
   */
  lemma {:induction false} PrudentRunIsSolvent(ws: seq<World>, es: seq<Event>, j: nat)
    requires IsRun(ws, es) && j < |ws|
    requires forall i | 0 <= i < j :: Prudent(ws[i], es[i])
    ensures Solvent(ws[j].state.desk)
  {
    hide Next, Handle, Sound, FundedStart, CoveredCreate, UnitsFunded;
    if j > 0 {
      PrudentRunIsSolvent(ws, es, j - 1);
      RunStep(ws, es, j - 1);
      NextKeepsSolvent(ws[j - 1], es[j - 1], ws[j]);
    }
  }

  /** A creation by a solvent server keeps it solvent exactly when it is covered. */
  lemma SolventAfterCreateIff(ws: seq<World>, es: seq<Event>, i: nat)
    requires IsRun(ws, es) && i < |es| && es[i].Create? && Solvent(ws[i].state.desk)
    ensures Solvent(ws[i + 1].state.desk) <==> CoveredCreate(ws[i], es[i])
  {
    hide Next;
    RunStep(ws, es, i);
    CreateKeepsSolventIff(ws[i], es[i], ws[i + 1]);
  }

  lemma ImprudentStep(ws: seq<World>, es: seq<Event>, i: nat)
    requires IsRun(ws, es) && i < |es| && Solvent(ws[i].state.desk) && Solvent(ws[i + 1].state.desk)
    ensures Prudent(ws[i], es[i])
  {
    hide Next;
    RunStep(ws, es, i);
    if es[i].Create? {
      CreateKeepsSolventIff(ws[i], es[i], ws[i + 1]);
    } else if es[i].RequestStart? {
      StartIsSolventIff(ws[i], es[i], ws[i + 1]);
    }
  }

  /** A run is solvent throughout exactly when its start is funded and every creation in it is covered. */
  lemma SolventThroughoutIff(ws: seq<World>, es: seq<Event>)
    requires IsRun(ws, es)
    ensures (forall j | 0 <= j < |ws| :: Solvent(ws[j].state.desk))
            <==> forall i | 0 <= i < |es| :: Prudent(ws[i], es[i])
  {
    hide Next, Prudent, Solvent;
    if forall i | 0 <= i < |es| :: Prudent(ws[i], es[i]) {
      forall j | 0 <= j < |ws|
        ensures Solvent(ws[j].state.desk)
      {
        PrudentRunIsSolvent(ws, es, j);
      }
    }
    if forall j | 0 <= j < |ws| :: Solvent(ws[j].state.desk) {
      forall i | 0 <= i < |es|
        ensures Prudent(ws[i], es[i])
      {
        assert Solvent(ws[i].state.desk) && Solvent(ws[i + 1].state.desk);
        ImprudentStep(ws, es, i);
      }
    }
  }

  // ---- Nobody sells short ------------------------------------------------

  /** If the step starts the experiment, nobody starts with a debt of units. */
  ghost predicate UnitsFunded(w: World, e: Event) {
    AcceptedStart(w, e) ==>
      forall id: nat | id < |w.state.subjects| && id in w.state.desk.config.subConfigs ::
        ItemCount(w.state.desk.config.subConfigs[id].initAlloc, Shares) >= 0
  }

  lemma SubmitKeepsUnits(w: World, e: Event, w': World)
    requires Sound(w) && Next(w, e, w') && UnitsNonNegative(w.state.desk) && e.Submit?
    ensures UnitsNonNegative(w'.state.desk)
  {
    var d, o := w.state.desk, OfferOf(w, e);
    if Judge(d, o) == Did(OfferValidity.Accepted) {
      OfferHasEffect(d, w.nextId, o, e.sorted);
      OfferKeepsUnits(d, o, w'.state.desk, Counterpart(d, o), Replaced(d, o));
    } else {
      assert w'.state == w.state;
    }
  }

  lemma ExpireKeepsUnits(w: World, e: Event, w': World)
    requires Sound(w) && Next(w, e, w') && e.TimerExpires?
    ensures forall p: nat :: Held(w'.state.desk.folios, p, Shares) == Held(w.state.desk.folios, p, Shares)
  {
    if w.state.timer.callbacks != [] {
      ExpireCalls(w.state, w.state.timer.callbacks[0]);
    }
  }

  lemma CreateKeepsUnits(w: World, e: Event, w': World)
    requires Sound(w) && Next(w, e, w') && e.Create?
    ensures forall p: nat :: Held(w'.state.desk.folios, p, Shares) >= Held(w.state.desk.folios, p, Shares)
  {
  }

  lemma StartKeepsUnitsIff(w: World, e: Event, w': World)
    requires Sound(w) && Next(w, e, w') && e.RequestStart? && UnitsNonNegative(w.state.desk)
    ensures UnitsNonNegative(w'.state.desk) <==> UnitsFunded(w, e)
  {
    var config, n, folios := w.state.desk.config, |w.state.subjects|, w'.state.desk.folios;
    AllocateFacts(config, w.state.desk.folios, n);
    if StartVerdict(w.state).Accepted? {
      hide Sound, Next;
      forall id: nat | id < n
        ensures Held(folios, id, Shares) == ItemCount(config.subConfigs[id].initAlloc, Shares)
      {
      }
    }
  }

  lemma UnitsNext(w: World, e: Event, w': World)
    requires Sound(w) && Next(w, e, w') && UnitsFunded(w, e) && UnitsNonNegative(w.state.desk)
    ensures UnitsNonNegative(w'.state.desk)
  {
    match e
    case Submit(_, _, _, _) => SubmitKeepsUnits(w, e, w');
    case Create(_) => CreateKeepsUnits(w, e, w');
    case RequestStart => StartKeepsUnitsIff(w, e, w');
    case TimerExpires => ExpireKeepsUnits(w, e, w');
    case _ => assert w'.state.desk.folios == w.state.desk.folios;
  }

  lemma {:induction false} UnitsStayNonNegative(ws: seq<World>, es: seq<Event>, j: nat)
    requires IsRun(ws, es) && j < |ws|
    requires forall i | 0 <= i < j :: UnitsFunded(ws[i], es[i])
    ensures UnitsNonNegative(ws[j].state.desk)
  {
    hide Next, Handle, Sound, FundedStart, CoveredCreate, UnitsFunded;
    if j > 0 {
      UnitsStayNonNegative(ws, es, j - 1);
      RunStep(ws, es, j - 1);
      UnitsNext(ws[j - 1], es[j - 1], ws[j]);
    }
  }

  /** Each subject holds at least as many units as it has asks resting. */
  ghost predicate NobodyShort(d: Desk) {
    forall p: nat :: Held(d.folios, p, Shares) >= |OffersOf(d.book.asks, p)|
  }

  lemma NobodyShortIff(w: World)
    requires Sound(w)
    ensures NobodyShort(w.state.desk) <==> UnitsNonNegative(w.state.desk)
  {
    var d := w.state.desk;
    forall p: nat
      ensures |OffersOf(d.book.asks, p)| == Total(d.book.asks, CountOf(p))
    {
      OffersOfMembers(d.book.asks, p);
    }
  }

  /** In every run from a start without debts of units, nobody sells short. */
  lemma NobodySellsShort(ws: seq<World>, es: seq<Event>, j: nat)
    requires IsRun(ws, es) && j < |ws|
    requires forall i | 0 <= i < j :: UnitsFunded(ws[i], es[i])
    ensures NobodyShort(ws[j].state.desk)
  {
    hide Next, Sound, UnitsFunded, NobodyShort, UnitsNonNegative;
    UnitsStayNonNegative(ws, es, j);
    RunIsSound(ws, es, j);
    NobodyShortIff(ws[j]);
  }

  lemma ShortFromStart(ws: seq<World>, es: seq<Event>, i: nat)
    requires IsRun(ws, es) && i < |es| && NobodyShort(ws[i].state.desk) && NobodyShort(ws[i + 1].state.desk)
    ensures UnitsFunded(ws[i], es[i])
  {
    hide Next, Sound, NobodyShort, UnitsNonNegative, StartVerdict;
    RunStep(ws, es, i);
    RunIsSound(ws, es, i + 1);
    NobodyShortIff(ws[i]);
    NobodyShortIff(ws[i + 1]);
    if es[i].RequestStart? {
      StartKeepsUnitsIff(ws[i], es[i], ws[i + 1]);
    }
  }

  /** Nobody ever sells short in a run exactly when nobody starts with a debt of units. */
  lemma NobodyEverShortIff(ws: seq<World>, es: seq<Event>)
    requires IsRun(ws, es)
    ensures (forall j | 0 <= j < |ws| :: NobodyShort(ws[j].state.desk))
       <==> forall i | 0 <= i < |es| :: UnitsFunded(ws[i], es[i])
  {
    hide Next, UnitsFunded, NobodyShort;
    if forall i | 0 <= i < |es| :: UnitsFunded(ws[i], es[i]) {
      forall j | 0 <= j < |ws|
        ensures NobodyShort(ws[j].state.desk)
      {
        NobodySellsShort(ws, es, j);
      }
    }
    if forall j | 0 <= j < |ws| :: NobodyShort(ws[j].state.desk) {
      forall i | 0 <= i < |es|
        ensures UnitsFunded(ws[i], es[i])
      {
        assert NobodyShort(ws[i].state.desk) && NobodyShort(ws[i + 1].state.desk);
        ShortFromStart(ws, es, i);
      }
    }
  }
}
