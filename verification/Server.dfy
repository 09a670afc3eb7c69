/**
 * The whole server as one state machine. Every message and every timer expiry
 * runs to completion on one thread, so each is one step; a step gives the next
 * state and the messages it sends. Runs are sequences of steps.
 */
module Servers {
  import opened Values
  import opened Offers
  import opened OrderBooks
  import opened Portfolios
  import opened Experiments
  import opened OfferProcessing

  // ---- Messages the server sends --------------------------------------

  datatype StartValidity = Accepted | RejectedNoConfig | RejectedIncorrectPlayersCount | RejectedAlreadyStarted

  datatype Message =
    | AcceptedOffer(res: MarketSubmissionResult)
    | RejectedOffer(res: MarketSubmissionResult)
    | AcceptedRetraction(rr: RetractResult)
    | RejectedRetraction(rr: RetractResult)
    | CreationProcessed(creation: CreationResult)
    | PortfolioUpdate(id: nat, port: Folio)
    | SubjectSettings(conf: SubjectConfiguration)
    | SubjectData(subject: Subject)
    | SubjectReady(id: nat)
    | ConfigurationLoaded(result: ConfigResult)
    | ExperimentStarted(validity: StartValidity)
    | InstructionsRequested(validity: StartValidity)
    | InstructionsStarted
    | InstructionsEnded
    | ExperimentEnded
    | ExperimentPaused
    | ExperimentResumed
    | RoundStarted(round: RoundConfiguration)
    | RoundEnded
    | DividendStarted(dividend: nat)
    | ReviewStarted
    | ReviewEnded
    | PayoutsStarted

  datatype Address = All | Admins | Only(id: nat)

  datatype Envelope = Envelope(to: Address, msg: Message)

  // ---- State -----------------------------------------------------------

  datatype TimerState = NotStarted | Running | Paused | Ended

  datatype Callback = EndsRound | EndsReview

  /** What the rest of the server can tell of the timer: whether it may expire, and what it then calls. */
  datatype Timer = Timer(state: TimerState, callbacks: seq<Callback>)

  datatype State = State(desk: Desk, subjects: seq<Subject>, counter: nat, timer: Timer) {
    predicate Knows(id: nat) {
      id < |subjects|
    }
  }

  datatype Reply = Reply(state: State, out: seq<Envelope>)

  function Start(t: Timer): Timer {
    if t.state.Running? || t.state.Ended? then t else t.(state := TimerState.Running)
  }

  function Pause(t: Timer): Timer {
    t.(state := TimerState.Paused)
  }

  /** Clear, SetDuration, Start and Register, as each timed stage does them. */
  function Rearm(c: Callback): Timer {
    Timer(TimerState.Running, [c])
  }

  // ---- The period machine -----------------------------------------------

  function WithExp(s: State, exp: ExperimentState): State {
    s.(desk := s.desk.(exp := exp))
  }

  function StartRound(s: State): Attempt<Reply> {
    var exp := s.desk.exp;
    var round := if exp.stage.PreExperiment? then 1 else exp.round + 1;
    var conf :- s.desk.config.GetRoundConfiguration(round);
    Did(Reply(
          WithExp(s, ExperimentState(round, Status.Running, Round)).(timer := Rearm(EndsRound)),
          [Envelope(All, RoundStarted(conf))]))
  }

  function PayDividend(folios: Folios, dividend: nat): Folios {
    map id | id in folios :: Paid(folios[id], dividend)
  }

  /** A dividend per unit held; each unit owed takes it out of the margin. */
  function Paid(port: Folio, dividend: nat): Folio {
    Transact(
      Transact(port, Cash, ItemCount(port, Shares) * dividend),
      Margin, -(ItemCount(port, Derivatives) * dividend))
  }

  /** Each of the first `n` subjects is sent its own portfolio; `at` throws where there is none. */
  function SendPortfolios(folios: Folios, n: nat): Attempt<seq<Envelope>> {
    if n == 0 then Did([])
    else
      var sent :- SendPortfolios(folios, n - 1);
      if n - 1 !in folios then Threw
      else Did(sent + [Envelope(Only(n - 1), PortfolioUpdate(n - 1, folios[n - 1]))])
  }

  function StartReview(s: State): Reply {
    Reply(
      WithExp(s, s.desk.exp.(stage := Review)).(timer := Rearm(EndsReview)),
      [Envelope(All, ReviewStarted)])
  }

  function StartDividends(s: State): Attempt<Reply> {
    var conf :- s.desk.config.GetRoundConfiguration(s.desk.exp.round);
    var paid := s.(desk := s.desk.(folios := PayDividend(s.desk.folios, conf.dividend)));
    var sent :- SendPortfolios(paid.desk.folios, |s.subjects|);
    var review := StartReview(paid);
    Did(Reply(review.state, [Envelope(All, DividendStarted(conf.dividend))] + sent + review.out))
  }

  function EndRound(s: State): Attempt<Reply> {
    var r :- StartDividends(s.(desk := s.desk.(book := EMPTY_BOOK)));
    Did(Reply(r.state, [Envelope(All, RoundEnded)] + r.out))
  }

  /** Payoffs are looked up for every subject before the stage changes. */
  function StartPayouts(s: State): Attempt<Reply> {
    if exists id: nat | id < |s.subjects| :: id !in s.desk.folios || id !in s.desk.config.subConfigs then Threw
    else
      Did(Reply(
            WithExp(s, s.desk.exp.(stage := Payouts)).(counter := 0),
            [Envelope(All, PayoutsStarted)]))
  }

  function EndReview(s: State): Attempt<Reply> {
    var r :- if s.desk.exp.round < s.desk.config.nRounds then StartRound(s) else StartPayouts(s);
    Did(Reply(r.state, [Envelope(All, ReviewEnded)] + r.out))
  }

  function Call(s: State, c: Callback): Attempt<Reply> {
    match c
    case EndsRound => EndRound(s)
    case EndsReview => EndReview(s)
  }

  function CallEach(s: State, callbacks: seq<Callback>): Attempt<Reply>
    decreases |callbacks|
  {
    if callbacks == [] then Did(Reply(s, []))
    else
      var first :- Call(s, callbacks[0]);
      var rest :- CallEach(first.state, callbacks[1..]);
      Did(Reply(rest.state, first.out + rest.out))
  }

  /** The timer has run out: the callbacks registered at that moment run. */
  function Expire(s: State): Attempt<Reply> {
    CallEach(s.(timer := s.timer.(state := TimerState.Ended)), s.timer.callbacks)
  }

  // ---- Administration ---------------------------------------------------

  function StartVerdict(s: State): StartValidity {
    if s.desk.exp.status != Status.NotStarted then RejectedAlreadyStarted
    else if s.desk.config.nPlayers == 0 then RejectedNoConfig
    else if s.desk.config.nPlayers != |s.subjects| then RejectedIncorrectPlayersCount
    else StartValidity.Accepted
  }

  /** The configured allocation for each of the first `n` subjects. */
  function Allocate(config: Configuration, folios: Folios, n: nat): Attempt<Folios> {
    if n == 0 then Did(folios)
    else
      var earlier :- Allocate(config, folios, n - 1);
      var conf :- config.GetSubjectConfiguration(n - 1);
      Did(earlier[n - 1 := conf.initAlloc])
  }

  function SendSettings(config: Configuration, n: nat): Attempt<seq<Envelope>> {
    if n == 0 then Did([])
    else
      var sent :- SendSettings(config, n - 1);
      var conf :- config.GetSubjectConfiguration(n - 1);
      Did(sent + [Envelope(Only(n - 1), SubjectSettings(conf))])
  }

  /** Settings and portfolio for each of the first `n` subjects, in turn. */
  function SendOpening(config: Configuration, folios: Folios, n: nat): Attempt<seq<Envelope>> {
    if n == 0 then Did([])
    else
      var sent :- SendOpening(config, folios, n - 1);
      var conf :- config.GetSubjectConfiguration(n - 1);
      if n - 1 !in folios then Threw
      else
        Did(sent + [Envelope(Only(n - 1), SubjectSettings(conf)),
                    Envelope(Only(n - 1), PortfolioUpdate(n - 1, folios[n - 1]))])
  }

  function StartExperiment(s: State): Attempt<Reply> {
    var verdict := StartVerdict(s);
    var told := [Envelope(Admins, ExperimentStarted(verdict))];
    if verdict != StartValidity.Accepted then Did(Reply(s, told))
    else
      var n := |s.subjects|;
      var folios :- Allocate(s.desk.config, s.desk.folios, n);
      var started := WithExp(s, s.desk.exp.(status := Status.Running));
      var funded := started.(desk := started.desk.(folios := folios));
      var sent :- SendOpening(s.desk.config, folios, n);
      var round :- StartRound(funded);
      Did(Reply(round.state, told + sent + round.out))
  }

  function StartInstructions(s: State): Attempt<Reply> {
    var verdict := StartVerdict(s);
    var told := [Envelope(Admins, InstructionsRequested(verdict))];
    if verdict != StartValidity.Accepted then Did(Reply(s, told))
    else
      var sent :- SendSettings(s.desk.config, |s.subjects|);
      Did(Reply(
            WithExp(s, s.desk.exp.(stage := Instructions)).(counter := 0),
            told + sent + [Envelope(All, InstructionsStarted)]))
  }

  function Ready(s: State, id: nat): Reply {
    var counted := s.(counter := s.counter + 1);
    Reply(counted,
          [Envelope(Admins, SubjectReady(id))]
          + if counted.counter == |s.subjects| then [Envelope(All, InstructionsEnded)] else [])
  }

  function TakeName(s: State, id: nat, name: string): Reply
    requires s.Knows(id)
  {
    var named := s.subjects[id].(name := name);
    var counted := s.(counter := s.counter + 1, subjects := s.subjects[id := named]);
    var told := [Envelope(Only(id), SubjectData(named))];
    if counted.counter == |s.subjects| then
      Reply(WithExp(counted, s.desk.exp.(status := Status.Ended)), told + [Envelope(All, ExperimentEnded)])
    else
      Reply(counted, told)
  }

  function AddSubject(s: State): State {
    s.(subjects := s.subjects + [Subject(|s.subjects|, "")])
  }

  // ---- Market activity ---------------------------------------------------

  function TradeNotices(folios: Folios, trade: Option<Trade>): Attempt<seq<Envelope>> {
    match trade
    case None => Did([])
    case Some(t) =>
      if t.buyer !in folios || t.seller !in folios then Threw
      else
        Did([Envelope(Only(t.buyer), PortfolioUpdate(t.buyer, folios[t.buyer])),
             Envelope(Only(t.seller), PortfolioUpdate(t.seller, folios[t.seller]))])
  }

  function TakeOffer(s: State, o: Offer, sorted: seq<Offer>): Attempt<Reply> {
    var h :- ProcessOffer(s.desk, o, sorted);
    var notices :- TradeNotices(h.desk.folios, h.result.trade);
    var told :=
      if h.result.validity.Accepted? then Envelope(All, AcceptedOffer(h.result))
      else Envelope(Only(o.player), RejectedOffer(h.result));
    Did(Reply(s.(desk := h.desk), [told] + notices))
  }

  function RetractOffer(s: State, rr: RetractRequest): Reply {
    var h := ProcessRetract(s.desk, rr);
    Reply(
      s.(desk := h.desk),
      [if h.result.validity.Accepted? then Envelope(All, AcceptedRetraction(h.result))
       else Envelope(Only(rr.id), RejectedRetraction(h.result))])
  }

  function CreateAsset(s: State, id: nat): Attempt<Reply> {
    var h :- ProcessCreate(s.desk, id);
    var told := [Envelope(Only(id), CreationProcessed(h.result))];
    if !h.result.validity.Accepted? then Did(Reply(s.(desk := h.desk), told))
    else if id !in h.desk.folios then Threw
    else Did(Reply(s.(desk := h.desk), told + [Envelope(Only(id), PortfolioUpdate(id, h.desk.folios[id]))]))
  }

  // ---- Steps --------------------------------------------------------------

  /**
   * What can happen to the server. An offer carries the reading of the clock
   * and the order the sort chooses; a bid has its price, an ask its negation.
   */
  datatype Event =
    | Submit(player: nat, price: int, time: nat, sorted: seq<Offer>)
    | Retract(player: nat, offerId: nat)
    | Create(player: nat)
    | Name(player: nat, name: string)
    | GetReady(player: nat)
    | Join
    | RequestInstructions
    | RequestStart
    | EndEarly
    | Load(read: Reading)
    | RequestPause
    | RequestResume
    | TimerExpires

  /** The server and everything it has sent; `nextId` is the next offer id. */
  datatype World = World(state: State, nextId: nat, log: seq<Envelope>)

  function OfferOf(w: World, e: Event): Offer
    requires e.Submit?
  {
    Offer(w.nextId, e.player, e.price, e.time)
  }

  /** Events that can occur: known senders, a running timer, a possible sort. */
  ghost predicate Possible(w: World, e: Event) {
    match e
    case Submit(p, _, _, sorted) => w.state.Knows(p) && PossibleSort(w.state.desk, OfferOf(w, e), sorted)
    case Retract(p, _) => w.state.Knows(p)
    case Create(p) => w.state.Knows(p)
    case Name(p, _) => w.state.Knows(p)
    case GetReady(p) => w.state.Knows(p)
    case TimerExpires => w.state.timer.state.Running?
    case _ => true
  }

  function Handle(w: World, e: Event): Attempt<Reply>
    requires e.Name? ==> w.state.Knows(e.player)
  {
    var s := w.state;
    match e
    case Submit(_, _, _, sorted) => TakeOffer(s, OfferOf(w, e), sorted)
    case Retract(p, offerId) => Did(RetractOffer(s, RetractRequest(p, offerId)))
    case Create(p) => CreateAsset(s, p)
    case Name(p, name) => Did(TakeName(s, p, name))
    case GetReady(p) => Did(Ready(s, p))
    case Join => Did(Reply(AddSubject(s), []))
    case RequestInstructions => StartInstructions(s)
    case RequestStart => StartExperiment(s)
    case EndEarly => StartPayouts(s)
    case Load(read) =>
      Did(Reply(
            if read.Loaded? then s.(desk := s.desk.(config := read.config)) else s,
            [Envelope(Admins, ConfigurationLoaded(ResultOfReading(read)))]))
    case RequestPause =>
      Did(Reply(
            WithExp(s, s.desk.exp.(status := Status.Paused)).(timer := Pause(s.timer)),
            [Envelope(All, ExperimentPaused)]))
    case RequestResume =>
      Did(Reply(
            WithExp(s, s.desk.exp.(status := Status.Running)).(timer := Start(s.timer)),
            [Envelope(All, ExperimentResumed)]))
    case TimerExpires => Expire(s)
  }

  ghost predicate Initial(w: World) {
    && w.state.desk.exp == ExperimentState(0, Status.NotStarted, PreExperiment)
    && w.state.desk.book == EMPTY_BOOK && w.state.desk.folios == map[]
    && w.state.subjects == [] && w.state.counter == 0
    && w.state.timer == Timer(TimerState.NotStarted, [])
    && w.nextId == 0 && w.log == []
  }

  /** One step that does not throw. */
  ghost predicate Next(w: World, e: Event, w': World) {
    && Possible(w, e)
    && Handle(w, e).Did?
    && w' == World(
               Handle(w, e).value.state,
               if e.Submit? then w.nextId + 1 else w.nextId,
               w.log + Handle(w, e).value.out)
  }

  /** Event number `i` leads from world number `i` to the next. */
  ghost predicate StepAt(ws: seq<World>, es: seq<Event>, i: nat)
    requires i < |es| && |ws| == |es| + 1
  {
    Next(ws[i], es[i], ws[i + 1])
  }

  /** A run: `ws[0]` is a fresh server and each event leads from one world to the next. */
  ghost predicate IsRun(ws: seq<World>, es: seq<Event>) {
    && |ws| == |es| + 1
    && Initial(ws[0])
    && forall i {:trigger StepAt(ws, es, i)} | 0 <= i < |es| :: StepAt(ws, es, i)
  }
}
