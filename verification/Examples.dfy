/** Concrete runs of a server that starts without a configuration: what the conditions elsewhere let happen. */
module Examples {
  import opened Values
  import opened Offers
  import opened OrderBooks
  import opened Portfolios
  import opened Experiments
  import opened OfferProcessing
  import opened Servers
  import opened Ledgers
  import opened Reachable
  import opened CashCover
  import opened Trading
  import opened Replica
  import opened ReplicaRuns
  import opened Protocol
  import opened Disorder
  import opened Starts

  const CREATOR_START: Folio := map[Cash := 10]
  const SELLER_START: Folio := map[Shares := 1]

  const ONE_ROUND := Configuration(
    2, 1, false, 60, 10,
    map[0 := SubjectConfiguration(true, None, 1.0, CREATOR_START),
        1 := SubjectConfiguration(false, None, 1.0, SELLER_START)],
    [RoundConfiguration(true, 1, 0, 10, 10)], 1, [0], false, false)

  /** What the program starts with. */
  const NO_CONFIGURATION := Configuration(0, 10, false, 60, 10, map[], [], 0, [], false, false)

  const FRESH := World(
    State(Desk(ExperimentState(0, Status.NotStarted, PreExperiment), NO_CONFIGURATION, EMPTY_BOOK, map[]),
          [], 0, Timer(TimerState.NotStarted, [])),
    0, [])

  const LOADING: Event := Load(Loaded(ONE_ROUND, []))

  /** The configuration is loaded, two subjects join, the experiment starts. */
  const OPENING := [LOADING, Join, Join, RequestStart]

  const BID := Offer(0, 0, 10, 0)
  const ASK := Offer(1, 1, -10, 1)

  const BIDDING := Submit(0, 10, 0, [BID])
  const ASKING := Submit(1, -10, 1, [ASK])

  const OPEN := ExperimentState(1, Status.Running, Round)

  ghost predicate BeforeBid(w: World) {
    && w.state.desk == Desk(OPEN, ONE_ROUND, EMPTY_BOOK, map[0 := CREATOR_START, 1 := SELLER_START])
    && |w.state.subjects| == 2 && w.nextId == 0 && w.state.timer == Rearm(EndsRound)
  }

  ghost predicate BeforeCreate(w: World) {
    && w.state.desk == Desk(OPEN, ONE_ROUND, Book([BID], []), map[0 := CREATOR_START, 1 := SELLER_START])
    && |w.state.subjects| == 2 && w.nextId == 1 && w.state.timer == Rearm(EndsRound)
  }

  ghost predicate BeforeAsk(w: World) {
    var d := w.state.desk;
    && d.exp == OPEN && d.config == ONE_ROUND && d.book == Book([BID], []) && d.folios.Keys == {0, 1}
    && Held(d.folios, 0, Cash) == 0 && Held(d.folios, 1, Shares) == 1
    && |w.state.subjects| == 2 && w.nextId == 1
  }

  ghost predicate BeforeStart(w: World) {
    && w.state == FRESH.state.(
                    desk := FRESH.state.desk.(config := ONE_ROUND),
                    subjects := [Subject(0, ""), Subject(1, "")])
    && w.nextId == 0
  }

  lemma BothJoin() returns (w0: World, w1: World, w2: World, w3: World)
    ensures Initial(w0) && w0.state.desk.config == NO_CONFIGURATION
    ensures Next(w0, LOADING, w1) && Next(w1, Join, w2) && Next(w2, Join, w3) && BeforeStart(w3)
  {
    w0 := FRESH;
    w1 := WorldAfter(w0, LOADING);
    w2 := WorldAfter(w1, Join);
    w3 := WorldAfter(w2, Join);
  }

  lemma Allocations()
    ensures Allocate(ONE_ROUND, map[], 2) == Did(map[0 := CREATOR_START, 1 := SELLER_START])
  {
    AllocateFacts(ONE_ROUND, map[], 2);
    assert Allocate(ONE_ROUND, map[], 2).value == map[0 := CREATOR_START, 1 := SELLER_START];
  }

  lemma StartingStep(w: World) returns (w': World)
    requires BeforeStart(w)
    ensures Next(w, RequestStart, w') && BeforeBid(w')
    ensures FundedStart(w, RequestStart)
  {
    hide Allocate, SendOpening;
    Allocations();
    OpeningIsPersonal(ONE_ROUND, Allocate(ONE_ROUND, map[], 2).value, 2);
    w' := WorldAfter(w, RequestStart);
  }

  lemma BidAccepted(d: Desk)
    requires d == Desk(OPEN, ONE_ROUND, EMPTY_BOOK, map[0 := CREATOR_START, 1 := SELLER_START])
    ensures Judge(d, BID) == Did(OfferValidity.Accepted) && PossibleSort(d, BID, [BID])
    ensures ProcessOffer(d, BID, [BID]).Did?
    ensures ProcessOffer(d, BID, [BID]).value.desk == d.(book := Book([BID], []))
    ensures ProcessOffer(d, BID, [BID]).value.result.trade == None
  {
    assert OffersOf([], 0) == [];
    assert multiset([BID]) == multiset([]) + multiset{BID};
  }

  lemma CreationAccepted(d: Desk)
    requires d == Desk(OPEN, ONE_ROUND, Book([BID], []), map[0 := CREATOR_START, 1 := SELLER_START])
    ensures ProcessCreate(d, 0).Did? && ProcessCreate(d, 0).value.result.validity.Accepted?
    ensures var d' := ProcessCreate(d, 0).value.desk;
            && d' == d.(folios := d'.folios) && d'.folios.Keys == {0, 1}
            && Held(d'.folios, 0, Cash) == 0 && Held(d'.folios, 1, Shares) == 1
  {
  }

  lemma AskFillsBid(d: Desk)
    requires d.exp == OPEN && d.config == ONE_ROUND && d.book == Book([BID], []) && d.folios.Keys == {0, 1}
    requires Held(d.folios, 0, Cash) == 0 && Held(d.folios, 1, Shares) == 1
    ensures Judge(d, ASK) == Did(OfferValidity.Accepted) && PossibleSort(d, ASK, [ASK])
    ensures ProcessOffer(d, ASK, [ASK]).Did?
    ensures ProcessOffer(d, ASK, [ASK]).value.desk.folios.Keys == {0, 1}
    ensures Held(ProcessOffer(d, ASK, [ASK]).value.desk.folios, 0, Cash) == -10
  {
    assert OffersOf([], 1) == [];
    assert multiset([ASK]) == multiset([]) + multiset{ASK};
    assert Peek(Book([BID], [ASK])) == Some(TradeOf(BID, ASK));
  }

  lemma BidStep(w: World) returns (w': World)
    requires BeforeBid(w)
    ensures Next(w, BIDDING, w') && BeforeCreate(w')
  {
    assert OfferOf(w, BIDDING) == BID;
    BidAccepted(w.state.desk);
    w' := WorldAfter(w, BIDDING);
  }

  lemma CreatingStep(w: World) returns (w': World)
    requires BeforeCreate(w)
    ensures Next(w, Create(0), w') && BeforeAsk(w')
    ensures !CoveredCreate(w, Create(0))
  {
    CreationAccepted(w.state.desk);
    assert OffersOf([BID], 0) == [BID] && SumPrices([BID]) == 10;
    w' := WorldAfter(w, Create(0));
  }

  lemma AskStep(w: World) returns (w': World)
    requires BeforeAsk(w)
    ensures Next(w, ASKING, w')
    ensures Held(w'.state.desk.folios, 0, Cash) == -10
  {
    assert OfferOf(w, ASKING) == ASK;
    AskFillsBid(w.state.desk);
    w' := WorldAfter(w, ASKING);
  }

  // ---- Runs ------------------------------------------------------------------

  lemma FreshRun(w: World)
    requires Initial(w)
    ensures IsRun([w], [])
  {
  }

  /** An open market: loaded, joined, started. */
  lemma OpeningRun() returns (ws: seq<World>, es: seq<Event>)
    ensures es == OPENING && IsRun(ws, es) && |ws| == 5
    ensures ws[0].state.desk.config == NO_CONFIGURATION
    ensures BeforeStart(ws[3]) && OrderlyStart(ws[3], es[3]) && FundedStart(ws[3], es[3]) && BeforeBid(ws[4])
  {
    hide IsRun, Next, BeforeBid, FundedStart;
    var w0, w1, w2, w3 := BothJoin();
    var w4 := StartingStep(w3);
    FreshRun(w0);
    RunGrows([w0], [], LOADING, w1);
    RunGrows([w0] + [w1], [] + [LOADING], Join, w2);
    RunGrows([w0] + [w1] + [w2], [] + [LOADING] + [Join], Join, w3);
    RunGrows([w0] + [w1] + [w2] + [w3], [] + [LOADING] + [Join] + [Join], RequestStart, w4);
    ws, es := [w0] + [w1] + [w2] + [w3] + [w4], [] + [LOADING] + [Join] + [Join] + [RequestStart];
  }

  /**
   * 0 bids all its cash, creates a unit, and 1 sells to it: the run is orderly
   * throughout and its start is funded, but the creation is not covered, and
   * the account is overdrawn at the end.
   */
  lemma CreationCanOverdraw() returns (ws: seq<World>, es: seq<Event>)
    ensures es == OPENING + [BIDDING] + [Create(0)] + [ASKING] && IsRun(ws, es) && |ws| == 8
    ensures OrderlyStart(ws[3], es[3]) && OrderlyBetween(ws, es, 3, 7)
    ensures FundedStart(ws[3], es[3]) && !CoveredCreate(ws[5], es[5])
    ensures Held(ws[7].state.desk.folios, 0, Cash) == -10
  {
    hide IsRun, Next, FundedStart, CoveredCreate, Held, BeforeStart, BeforeBid, BeforeCreate, BeforeAsk, OrderlyStart;
    var vs, fs := OpeningRun();
    var w5 := BidStep(vs[4]);
    var w6 := CreatingStep(w5);
    var w7 := AskStep(w6);
    RunGrows(vs, fs, BIDDING, w5);
    RunGrows(vs + [w5], fs + [BIDDING], Create(0), w6);
    RunGrows(vs + [w5] + [w6], fs + [BIDDING] + [Create(0)], ASKING, w7);
    ws, es := vs + [w5] + [w6] + [w7], fs + [BIDDING] + [Create(0)] + [ASKING];
  }

  /** The same server once the instructions have begun. */
  ghost predicate AfterInstructions(w: World) {
    && w.state == FRESH.state.(
                    desk := FRESH.state.desk.(
                      config := ONE_ROUND, exp := ExperimentState(0, Status.NotStarted, Instructions)),
                    subjects := [Subject(0, ""), Subject(1, "")])
    && w.nextId == 0
  }

  lemma InstructingStep(w: World) returns (w': World)
    requires BeforeStart(w)
    ensures Next(w, RequestInstructions, w') && AfterInstructions(w')
  {
    hide SendSettings;
    SettingsArePersonal(ONE_ROUND, 2);
    w' := WorldAfter(w, RequestInstructions);
  }

  lemma StartingAfterInstructions(w: World) returns (w': World)
    requires AfterInstructions(w)
    ensures Next(w, RequestStart, w') && w'.state.desk.exp.IsMarketOpen()
    ensures ToldVerdict(w, RequestStart, w', StartValidity.Accepted)
  {
    hide Allocate, SendOpening;
    Allocations();
    OpeningIsPersonal(ONE_ROUND, Allocate(ONE_ROUND, map[], 2).value, 2);
    w' := WorldAfter(w, RequestStart);
    VerdictTold(w, RequestStart, w');
  }

  /** Loaded, joined, instructed, started: the instructions do not stand in the way of the start. */
  lemma InstructionsThenStart() returns (ws: seq<World>, es: seq<Event>)
    ensures es == [LOADING] + [Join] + [Join] + [RequestInstructions] + [RequestStart] && IsRun(ws, es) && |ws| == 6
    ensures ws[4].state.desk.exp.stage.Instructions? && ToldVerdict(ws[4], es[4], ws[5], StartValidity.Accepted)
    ensures ws[5].state.desk.exp.IsMarketOpen()
  {
    hide IsRun, Next, BeforeStart, ToldVerdict;
    var w0, w1, w2, w3 := BothJoin();
    var w4 := InstructingStep(w3);
    var w5 := StartingAfterInstructions(w4);
    FreshRun(w0);
    RunGrows([w0], [], LOADING, w1);
    RunGrows([w0] + [w1], [] + [LOADING], Join, w2);
    RunGrows([w0] + [w1] + [w2], [] + [LOADING] + [Join], Join, w3);
    RunGrows([w0] + [w1] + [w2] + [w3], [] + [LOADING] + [Join] + [Join], RequestInstructions, w4);
    var vs, fs := [w0] + [w1] + [w2] + [w3] + [w4], [] + [LOADING] + [Join] + [Join] + [RequestInstructions];
    RunGrows(vs, fs, RequestStart, w5);
    ws, es := vs + [w5], fs + [RequestStart];
  }

  lemma RoundEndingStep(w: World) returns (w': World)
    requires BeforeCreate(w)
    ensures Next(w, TimerExpires, w') && w'.state.timer.callbacks == [EndsReview]
  {
    hide SendPortfolios, PayDividend;
    ExpireCalls(w.state, EndsRound);
    var stopped := w.state.(timer := w.state.timer.(state := TimerState.Ended));
    PaidKeys(w.state.desk.folios, 0);
    PortfoliosArePersonal(PayDividend(w.state.desk.folios, 0), 2);
    EndRoundReply(stopped);
    w' := WorldAfter(w, TimerExpires);
  }

  /** The bid rests when the round ends: no client that had the book agrees with the server any more. */
  lemma BookGoesStale() returns (ws: seq<World>, es: seq<Event>)
    ensures es == OPENING + [BIDDING] + [TimerExpires] && IsRun(ws, es) && |ws| == 7
    ensures ws[5].state.desk.book == Book([BID], []) && ws[6].state.desk.book == EMPTY_BOOK
    ensures forall cs: seq<Client>, id | Follows(cs, Since(ws[5], ws[6]), id) && MarketAgrees(cs[0], ws[5]) ::
              !SameBook(cs[|cs| - 1].book, ws[6].state.desk.book)
  {
    hide IsRun, Next, FundedStart, BeforeStart, BeforeBid, OrderlyStart, SameBook, MarketAgrees, Since;
    var vs, fs := OpeningRun();
    var w5 := BidStep(vs[4]);
    var w6 := RoundEndingStep(w5);
    RunGrows(vs, fs, BIDDING, w5);
    RunGrows(vs + [w5], fs + [BIDDING], TimerExpires, w6);
    ws, es := vs + [w5] + [w6], fs + [BIDDING] + [TimerExpires];
    RunIsSound(ws, es, 6);
    ReviewNotStarting(ws[6]);
    forall cs: seq<Client>, id | Follows(cs, Since(ws[5], ws[6]), id) && MarketAgrees(cs[0], ws[5])
      ensures !SameBook(cs[|cs| - 1].book, ws[6].state.desk.book)
    {
      StaleUntilNextRound(ws, es, 5, 6, cs, id);
    }
  }

  // ---- A tie -------------------------------------------------------------------

  const CHEAP := Offer(0, 1, -5, 0)
  const TIED := Offer(1, 0, 10, 0)

  const OFFERING := Submit(1, -5, 0, [CHEAP])
  const TAKING := Submit(0, 10, 0, [TIED])

  ghost predicate BeforeTie(w: World) {
    && w.state.desk == Desk(OPEN, ONE_ROUND, Book([], [CHEAP]), map[0 := CREATOR_START, 1 := SELLER_START])
    && |w.state.subjects| == 2 && w.nextId == 1
  }

  lemma OfferingStep(w: World) returns (w': World)
    requires BeforeBid(w)
    ensures Next(w, OFFERING, w') && BeforeTie(w')
  {
    assert OfferOf(w, OFFERING) == CHEAP;
    CheapAccepted(w.state.desk);
    w' := WorldAfter(w, OFFERING);
  }

  lemma CheapAccepted(d: Desk)
    requires d == Desk(OPEN, ONE_ROUND, EMPTY_BOOK, map[0 := CREATOR_START, 1 := SELLER_START])
    ensures Judge(d, CHEAP) == Did(OfferValidity.Accepted) && PossibleSort(d, CHEAP, [CHEAP])
    ensures ProcessOffer(d, CHEAP, [CHEAP]).Did?
    ensures ProcessOffer(d, CHEAP, [CHEAP]).value.desk == d.(book := Book([], [CHEAP]))
    ensures ProcessOffer(d, CHEAP, [CHEAP]).value.result.trade == None
  {
    assert OffersOf([], 1) == [];
    assert multiset([CHEAP]) == multiset([]) + multiset{CHEAP};
  }

  lemma TiedAccepted(d: Desk)
    requires d == Desk(OPEN, ONE_ROUND, Book([], [CHEAP]), map[0 := CREATOR_START, 1 := SELLER_START])
    ensures Judge(d, TIED) == Did(OfferValidity.Accepted) && PossibleSort(d, TIED, [TIED])
    ensures ProcessOffer(d, TIED, [TIED]).Did?
    ensures ProcessOffer(d, TIED, [TIED]).value.result
         == MarketSubmissionResult(OfferValidity.Accepted, TIED, Some(TradeOf(TIED, CHEAP)), [])
  {
    assert OffersOf([], 0) == [];
    assert multiset([TIED]) == multiset([]) + multiset{TIED};
    assert Peek(Book([TIED], [CHEAP])) == Some(TradeOf(TIED, CHEAP));
  }

  lemma TakingStep(w: World) returns (w': World)
    requires BeforeTie(w)
    ensures Next(w, TAKING, w') && Timely(w, TAKING)
    ensures Announces(w, TAKING, MarketSubmissionResult(
                                   OfferValidity.Accepted, TIED, Some(TradeOf(TIED, CHEAP)), []))
  {
    assert OfferOf(w, TAKING) == TIED;
    TiedAccepted(w.state.desk);
    w' := WorldAfter(w, TAKING);
  }

  /** A bid of 10 meets an ask of 5 made in the same millisecond, and pays 10. */
  lemma TiedBidPaysItsOwn() returns (ws: seq<World>, es: seq<Event>, res: MarketSubmissionResult)
    ensures es == OPENING + [OFFERING] + [TAKING] && IsRun(ws, es) && |ws| == 7
    ensures Announces(ws[5], es[5], res) && Timely(ws[5], es[5])
    ensures ws[5].state.desk.book.asks == [CHEAP] && Limit(CHEAP) == 5
    ensures res.trade.Some? && res.trade.value.askId == CHEAP.id && res.trade.value.price == 10
  {
    hide IsRun, Next, FundedStart, BeforeStart, BeforeBid, OrderlyStart, Announces, Timely;
    var vs, fs := OpeningRun();
    var w5 := OfferingStep(vs[4]);
    var w6 := TakingStep(w5);
    RunGrows(vs, fs, OFFERING, w5);
    RunGrows(vs + [w5], fs + [OFFERING], TAKING, w6);
    ws, es := vs + [w5] + [w6], fs + [OFFERING] + [TAKING];
    res := MarketSubmissionResult(OfferValidity.Accepted, TIED, Some(TradeOf(TIED, CHEAP)), []);
  }

  // ---- A market that reopens ---------------------------------------------------

  const TWO_ROUNDS := Configuration(
    1, 2, false, 60, 10,
    map[0 := SubjectConfiguration(false, None, 1.0, map[Cash := 10])],
    [RoundConfiguration(false, 1, 5, 0, 0), RoundConfiguration(false, 2, 5, 0, 0)], 3, [5], false, false)

  const LOADING_TWO: Event := Load(Loaded(TWO_ROUNDS, []))

  lemma TwoRoundsAllocate()
    ensures Allocate(TWO_ROUNDS, map[], 1) == Did(map[0 := map[Cash := 10]])
  {
    AllocateFacts(TWO_ROUNDS, map[], 1);
    assert Allocate(TWO_ROUNDS, map[], 1).value == map[0 := map[Cash := 10]];
  }

  ghost predicate BeforeTwoRounds(w: World) {
    && w.state == FRESH.state.(
                    desk := FRESH.state.desk.(config := TWO_ROUNDS), subjects := [Subject(0, "")])
    && w.nextId == 0
  }

  lemma TwoRoundsStart(w: World) returns (w': World)
    requires BeforeTwoRounds(w)
    ensures Next(w, RequestStart, w') && OrderlyStart(w, RequestStart)
    ensures w'.state.desk.exp == OPEN
  {
    hide Allocate, SendOpening;
    TwoRoundsAllocate();
    OpeningIsPersonal(TWO_ROUNDS, map[0 := map[Cash := 10]], 1);
    w' := WorldAfter(w, RequestStart);
  }

  lemma TwoRoundsReady() returns (w0: World, w1: World, w2: World)
    ensures Initial(w0) && w0.state.desk.config == NO_CONFIGURATION
    ensures Next(w0, LOADING_TWO, w1) && Next(w1, Join, w2) && BeforeTwoRounds(w2)
  {
    w0 := FRESH;
    w1 := WorldAfter(w0, LOADING_TWO);
    w2 := WorldAfter(w1, Join);
  }

  lemma TwoRoundsOpen() returns (ws: seq<World>, es: seq<Event>)
    ensures es == [LOADING_TWO] + [Join] + [RequestStart] && IsRun(ws, es) && |ws| == 4
    ensures ws[0].state.desk.config == NO_CONFIGURATION && ws[2].state.desk.config == TWO_ROUNDS
    ensures OrderlyStart(ws[2], es[2]) && ws[3].state.desk.exp == OPEN
  {
    hide IsRun, Next, OrderlyStart;
    var w0, w1, w2 := TwoRoundsReady();
    var w3 := TwoRoundsStart(w2);
    FreshRun(w0);
    RunGrows([w0], [], LOADING_TWO, w1);
    RunGrows([w0] + [w1], [] + [LOADING_TWO], Join, w2);
    RunGrows([w0] + [w1] + [w2], [] + [LOADING_TWO] + [Join], RequestStart, w3);
    ws, es := [w0] + [w1] + [w2] + [w3], [] + [LOADING_TWO] + [Join] + [RequestStart];
  }

  /**
   * One subject, two rounds, ended early in the first: the payouts are
   * announced, the dividend of the round is paid after them, and the market
   * reopens.
   */
  lemma MarketReopens() returns (ws: seq<World>, es: seq<Event>)
    ensures es == [LOADING_TWO] + [Join] + [RequestStart] + [EndEarly, TimerExpires, TimerExpires]
    ensures IsRun(ws, es) && |ws| == 7 && ws[4].state.desk.exp.stage.Payouts?
    ensures Envelope(All, DividendStarted(5)) in Since(ws[4], ws[5])
    ensures ws[6].state.desk.exp.IsMarketOpen()
  {
    hide IsRun, OrderlyStart, Since;
    var vs, fs := TwoRoundsOpen();
    var us := EarlyEndCanReopen(vs, fs, 2);
    ws, es := vs + us, fs + [EndEarly, TimerExpires, TimerExpires];
  }
}
