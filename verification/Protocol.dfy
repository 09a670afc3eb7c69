/** The round, dividend, review and payout cycle of an orderly experiment. */
module Protocol {
  import opened Values
  import opened OrderBooks
  import opened Experiments
  import opened OfferProcessing
  import opened MarketSafety
  import opened Servers
  import opened Ledgers
  import opened Reachable

  // ---- Timelines -----------------------------------------------------------

  datatype Mark =
    | RoundBegan(round: nat)
    | RoundFinished
    | DividendPaid(dividend: nat)
    | ReviewBegan
    | ReviewFinished
    | PayoutsBegan

  function MarksOf(m: Message): seq<Mark> {
    match m
    case RoundStarted(conf) => [RoundBegan(conf.round)]
    case RoundEnded => [RoundFinished]
    case DividendStarted(dividend) => [DividendPaid(dividend)]
    case ReviewStarted => [ReviewBegan]
    case ReviewEnded => [ReviewFinished]
    case PayoutsStarted => [PayoutsBegan]
    case _ => []
  }

  /** The course of the experiment as the broadcasts tell it. */
  function Timeline(log: seq<Envelope>): seq<Mark> {
    if log == [] then [] else Timeline(log[..|log| - 1]) + MarksOf(log[|log| - 1].msg)
  }

  lemma {:induction false} TimelineConcat(a: seq<Envelope>, b: seq<Envelope>)
    ensures Timeline(a + b) == Timeline(a) + Timeline(b)
  {
    if b == [] {
      assert a + b == a;
    } else {
      var front := b[..|b| - 1];
      assert (a + b)[..|a + b| - 1] == a + front;
      TimelineConcat(a, front);
      Associative(Timeline(a), Timeline(front), MarksOf(b[|b| - 1].msg));
    }
  }

  lemma Associative(a: seq<Mark>, b: seq<Mark>, c: seq<Mark>)
    ensures (a + b) + c == a + (b + c)
  {
  }

  lemma {:induction false} TimelineQuiet(log: seq<Envelope>)
    requires forall x | x in log :: MarksOf(x.msg) == []
    ensures Timeline(log) == []
  {
    if log != [] {
      TimelineQuiet(log[..|log| - 1]);
    }
  }

  lemma TimelineOne(x: Envelope)
    ensures Timeline([x]) == MarksOf(x.msg)
  {
    assert [x][..0] == [];
  }

  // ---- Orderly events --------------------------------------------------

  /** A configuration with an entry for every round and every player. */
  ghost predicate WellConfigured(config: Configuration) {
    && config.nRounds >= 1
    && |config.perConfigs| == config.nRounds
    && (forall i | 0 <= i < |config.perConfigs| :: config.perConfigs[i].round == i + 1)
    && (forall id: nat | id < config.nPlayers :: id in config.subConfigs)
  }

  /** No early end; loading and joining only before the start; names and readiness only in their stages. */
  predicate Orderly(s: State, e: Event) {
    match e
    case EndEarly => false
    case Load(_) => s.desk.exp.status.NotStarted?
    case Join => s.desk.exp.status.NotStarted?
    case Name(_, _) => s.desk.exp.stage.Payouts?
    case GetReady(_) => s.desk.exp.stage.Instructions?
    case _ => true
  }

  // ---- Phases --------------------------------------------------------------

  /** Where `expiries` timer expiries after the start leave the period machine. */
  ghost predicate PhaseOk(s: State, config: Configuration, expiries: nat) {
    var exp, n := s.desk.exp, config.nRounds;
    if expiries < 2 * n then
      && exp.round == expiries / 2 + 1
      && (s.timer.state.Running? || s.timer.state.Paused?)
      && if expiries % 2 == 0 then exp.stage.Round? && s.timer.callbacks == [EndsRound]
         else exp.stage.Review? && s.timer.callbacks == [EndsReview]
    else
      exp.round == n && exp.stage.Payouts? && s.timer.callbacks == [EndsReview] && !s.timer.state.NotStarted?
  }

  ghost predicate Staffed(s: State, config: Configuration) {
    && s.desk.config == config
    && |s.subjects| == config.nPlayers
    && !s.desk.exp.status.NotStarted?
    && forall id: nat | id < |s.subjects| :: id in s.desk.folios
  }

  /** The marks of one expiry: number `expiries + 1` after the start. */
  function MarksOfExpiry(config: Configuration, expiries: nat): seq<Mark>
    requires |config.perConfigs| == config.nRounds
  {
    if expiries < 2 * config.nRounds && expiries % 2 == 0 then
      [RoundFinished, DividendPaid(config.perConfigs[expiries / 2].dividend), ReviewBegan]
    else if expiries + 1 < 2 * config.nRounds then [ReviewFinished, RoundBegan(expiries / 2 + 2)]
    else [ReviewFinished, PayoutsBegan]
  }

  /** The whole course of an experiment up to a number of expiries. */
  function Course(config: Configuration, expiries: nat): seq<Mark>
    requires |config.perConfigs| == config.nRounds
  {
    if expiries == 0 then [RoundBegan(1)]
    else Course(config, expiries - 1) + MarksOfExpiry(config, expiries - 1)
  }

  function Expiries(es: seq<Event>, from: nat, to: nat): nat
    requires from <= to <= |es|
  {
    if from == to then 0 else Expiries(es, from, to - 1) + if es[to - 1].TimerExpires? then 1 else 0
  }

  // ---- One step --------------------------------------------------------------

  lemma RoundEndStep(s: State, config: Configuration, expiries: nat)
    requires Staffed(s, config) && WellConfigured(config) && SubjectsOk(s)
    requires PhaseOk(s, config, expiries) && s.timer.callbacks == [EndsRound]
    ensures Expire(s).Did?
    ensures Staffed(Expire(s).value.state, config) && PhaseOk(Expire(s).value.state, config, expiries + 1)
    ensures Timeline(Expire(s).value.out) == MarksOfExpiry(config, expiries)
  {
    ExpireCalls(s, EndsRound);
    var stopped := s.(timer := s.timer.(state := TimerState.Ended));
    var conf := config.perConfigs[s.desk.exp.round - 1];
    PortfoliosArePersonal(PayDividend(s.desk.folios, conf.dividend), |s.subjects|);
    EndRoundReply(stopped);
    var sent := SendPortfolios(EndRound(stopped).value.state.desk.folios, |s.subjects|).value;
    RoundEndTimeline(Envelope(All, RoundEnded), Envelope(All, DividendStarted(conf.dividend)), sent,
                     Envelope(All, ReviewStarted));
    assert (expiries + 1) / 2 == expiries / 2;
  }

  lemma RoundEndTimeline(a: Envelope, b: Envelope, sent: seq<Envelope>, c: Envelope)
    requires a.msg.RoundEnded? && b.msg.DividendStarted? && c.msg.ReviewStarted? && Personal(sent)
    ensures Timeline([a, b] + sent + [c]) == [RoundFinished, DividendPaid(b.msg.dividend), ReviewBegan]
  {
    hide Timeline;
    TimelineQuiet(sent);
    TimelineAround([a, b], sent, [c]);
    TimelineTwo(a, b);
    TimelineOne(c);
  }

  lemma TimelineAround(head: seq<Envelope>, quiet: seq<Envelope>, tail: seq<Envelope>)
    requires Timeline(quiet) == []
    ensures Timeline(head + quiet + tail) == Timeline(head) + Timeline(tail)
  {
    TimelineConcat(head + quiet, tail);
    TimelineConcat(head, quiet);
    assert Timeline(head) + [] == Timeline(head);
  }

  lemma TimelineTwo(a: Envelope, b: Envelope)
    ensures Timeline([a, b]) == MarksOf(a.msg) + MarksOf(b.msg)
  {
    assert [a, b] == [a] + [b];
    TimelineConcat([a], [b]);
    TimelineOne(a);
    TimelineOne(b);
  }

  /** The end of a review opens the next round or the payouts. */
  lemma ReviewEndReply(s: State)
    requires EndReview(s).Did?
    ensures var next := if s.desk.exp.round < s.desk.config.nRounds then StartRound(s) else StartPayouts(s);
            && next.Did? && |next.value.out| == 1
            && EndReview(s).value.state == next.value.state
            && Timeline(EndReview(s).value.out) == [ReviewFinished] + MarksOf(next.value.out[0].msg)
  {
    var next := if s.desk.exp.round < s.desk.config.nRounds then StartRound(s) else StartPayouts(s);
    var told := Envelope(All, ReviewEnded);
    assert EndReview(s).value.out == [told, next.value.out[0]];
    TimelineTwo(told, next.value.out[0]);
  }

  lemma StaffedPayouts(s: State, config: Configuration)
    requires Staffed(s, config) && WellConfigured(config)
    ensures StartPayouts(s).Did? && StartPayouts(s).value.out == [Envelope(All, PayoutsStarted)]
    ensures StartPayouts(s).value.state == WithExp(s, s.desk.exp.(stage := Payouts)).(counter := 0)
  {
  }

  lemma ReviewEndStep(s: State, config: Configuration, expiries: nat)
    requires Staffed(s, config) && WellConfigured(config)
    requires PhaseOk(s, config, expiries) && s.timer.callbacks == [EndsReview]
    ensures Expire(s).Did?
    ensures Staffed(Expire(s).value.state, config) && PhaseOk(Expire(s).value.state, config, expiries + 1)
    ensures Timeline(Expire(s).value.out) == MarksOfExpiry(config, expiries)
  {
    hide Timeline, StartPayouts;
    ExpireCalls(s, EndsReview);
    StaffedPayouts(s.(timer := s.timer.(state := TimerState.Ended)), config);
    ReviewEndReply(s.(timer := s.timer.(state := TimerState.Ended)));
  }

  lemma ExpiryStep(s: State, config: Configuration, expiries: nat)
    requires Staffed(s, config) && WellConfigured(config) && SubjectsOk(s) && PhaseOk(s, config, expiries)
    ensures Expire(s).Did?
    ensures Staffed(Expire(s).value.state, config) && PhaseOk(Expire(s).value.state, config, expiries + 1)
    ensures Timeline(Expire(s).value.out) == MarksOfExpiry(config, expiries)
  {
    if s.timer.callbacks == [EndsRound] {
      RoundEndStep(s, config, expiries);
    } else {
      ReviewEndStep(s, config, expiries);
    }
  }

  /** The market leaves the period machine alone. */
  ghost predicate SamePeriod(s: State, s': State) {
    && s'.desk.exp == s.desk.exp && s'.desk.config == s.desk.config && s'.desk.folios.Keys == s.desk.folios.Keys
    && s'.subjects == s.subjects && s'.timer == s.timer
  }

  lemma SamePhase(s: State, s': State, config: Configuration, expiries: nat)
    requires Staffed(s, config) && PhaseOk(s, config, expiries) && SamePeriod(s, s')
    ensures Staffed(s', config) && PhaseOk(s', config, expiries)
  {
  }

  /** What neither ends a stage nor starts the experiment leaves no mark. */
  lemma OtherIsQuiet(w: World, e: Event)
    requires Possible(w, e) && Handle(w, e).Did? && AtMostOneCallback(w.state)
    requires !e.TimerExpires? && !e.EndEarly? && (e.RequestStart? ==> !StartVerdict(w.state).Accepted?)
    ensures Timeline(Handle(w, e).value.out) == []
  {
    hide Handle, StartVerdict, Timeline;
    ReplyFits(w, e);
    TimelineQuiet(Handle(w, e).value.out);
  }

  /** No lookup fails in a market step, and it leaves the period machine alone. */
  lemma MarketStep(w: World, e: Event, config: Configuration, expiries: nat)
    requires Sound(w) && Possible(w, e) && (e.Submit? || e.Create? || e.Retract?)
    requires Staffed(w.state, config) && WellConfigured(config) && PhaseOk(w.state, config, expiries)
    ensures Handle(w, e).Did?
    ensures Staffed(Handle(w, e).value.state, config) && PhaseOk(Handle(w, e).value.state, config, expiries)
    ensures Timeline(Handle(w, e).value.out) == []
  {
    if e.Submit? {
      SubmitStep(w, e);
    } else if e.Create? {
      CreateStep(w, e, config, expiries);
    } else {
      RetractStep(w, e);
    }
    SoundCallbacks(w);
    hide Handle, Sound, Staffed, PhaseOk, SamePeriod;
    SamePhase(w.state, Handle(w, e).value.state, config, expiries);
    OtherIsQuiet(w, e);
  }

  lemma CreateStep(w: World, e: Event, config: Configuration, expiries: nat)
    requires Sound(w) && Possible(w, e) && e.Create?
    requires Staffed(w.state, config) && WellConfigured(config) && PhaseOk(w.state, config, expiries)
    ensures Handle(w, e).Did? && SamePeriod(w.state, Handle(w, e).value.state)
  {
  }

  lemma RetractStep(w: World, e: Event)
    requires Possible(w, e) && e.Retract?
    ensures Handle(w, e).Did? && SamePeriod(w.state, Handle(w, e).value.state)
  {
  }

  lemma SubmitStep(w: World, e: Event)
    requires Sound(w) && Possible(w, e) && e.Submit?
    requires forall id: nat | id < |w.state.subjects| :: id in w.state.desk.folios
    ensures Handle(w, e).Did? && SamePeriod(w.state, Handle(w, e).value.state)
  {
    var d, o := w.state.desk, OfferOf(w, e);
    OfferKeepsDesk(d, w.nextId, o, e.sorted);
    if Judge(d, o) == Did(OfferValidity.Accepted) {
      OfferHoldings(d, w.nextId, o, e.sorted);
      MatchResult(d, w.nextId, o, e.sorted);
    }
  }

  lemma OtherState(w: World, e: Event, config: Configuration, expiries: nat)
    requires Possible(w, e) && Orderly(w.state, e)
    requires !e.Submit? && !e.Create? && !e.Retract? && !e.TimerExpires?
    requires Staffed(w.state, config) && PhaseOk(w.state, config, expiries)
    ensures Handle(w, e).Did? && !StartVerdict(w.state).Accepted?
    ensures Staffed(Handle(w, e).value.state, config) && PhaseOk(Handle(w, e).value.state, config, expiries)
  {
    hide Allocate, SendOpening, SendSettings;
  }

  lemma OtherStep(w: World, e: Event, config: Configuration, expiries: nat)
    requires Sound(w) && Possible(w, e) && Orderly(w.state, e)
    requires !e.Submit? && !e.Create? && !e.Retract? && !e.TimerExpires?
    requires Staffed(w.state, config) && WellConfigured(config) && PhaseOk(w.state, config, expiries)
    ensures Handle(w, e).Did?
    ensures Staffed(Handle(w, e).value.state, config) && PhaseOk(Handle(w, e).value.state, config, expiries)
    ensures Timeline(Handle(w, e).value.out) == []
  {
    hide Handle, Sound, StartVerdict, Staffed, PhaseOk, Timeline, WellConfigured;
    OtherState(w, e, config, expiries);
    SoundCallbacks(w);
    OtherIsQuiet(w, e);
  }

  /** An orderly step succeeds, and only an expiry advances the course of the experiment. */
  lemma OrderlyStep(w: World, e: Event, config: Configuration, expiries: nat)
    requires Sound(w) && Possible(w, e) && Orderly(w.state, e)
    requires Staffed(w.state, config) && WellConfigured(config) && PhaseOk(w.state, config, expiries)
    ensures Handle(w, e).Did?
    ensures var after, s' := (if e.TimerExpires? then expiries + 1 else expiries), Handle(w, e).value.state;
            && Staffed(s', config) && PhaseOk(s', config, after)
            && Timeline(Handle(w, e).value.out) == (if e.TimerExpires? then MarksOfExpiry(config, expiries) else [])
  {
    if e.TimerExpires? {
      ExpiryStep(w.state, config, expiries);
    } else if e.Submit? || e.Create? || e.Retract? {
      MarketStep(w, e, config, expiries);
    } else {
      OtherStep(w, e, config, expiries);
    }
  }

  // ---- Whole runs ----------------------------------------------------------

  ghost predicate OrderlyStart(w: World, e: Event) {
    && e.RequestStart? && StartVerdict(w.state).Accepted?
    && WellConfigured(w.state.desk.config)
  }

  lemma StartStep(w: World, e: Event, w': World)
    requires Sound(w) && Next(w, e, w') && OrderlyStart(w, e)
    ensures Staffed(w'.state, w.state.desk.config) && PhaseOk(w'.state, w.state.desk.config, 0)
  {
    AllocateFacts(w.state.desk.config, w.state.desk.folios, |w.state.subjects|);
  }

  lemma StartTimeline(s: State)
    requires StartVerdict(s).Accepted? && StartExperiment(s).Did? && WellConfigured(s.desk.config)
    requires s.desk.exp.round == 0
    ensures Timeline(StartExperiment(s).value.out) == [RoundBegan(1)]
  {
    var n := |s.subjects|;
    var folios := Allocate(s.desk.config, s.desk.folios, n).value;
    OpeningIsPersonal(s.desk.config, folios, n);
    var told, sent := Envelope(Admins, ExperimentStarted(StartValidity.Accepted)),
                      SendOpening(s.desk.config, folios, n).value;
    var last := Envelope(All, RoundStarted(s.desk.config.perConfigs[0]));
    assert StartExperiment(s).value.out == [told] + sent + [last];
    OpeningTimeline(told, sent, last);
  }

  lemma OpeningTimeline(told: Envelope, sent: seq<Envelope>, last: Envelope)
    requires told.msg.ExperimentStarted? && Personal(sent) && last.msg.RoundStarted?
    ensures Timeline([told] + sent + [last]) == [RoundBegan(last.msg.round.round)]
  {
    TimelineQuiet(sent);
    TimelineAround([told], sent, [last]);
    TimelineOne(told);
    TimelineOne(last);
  }

  /** The run has gone through the course of `expiries` expiries since the start at step `k`. */
  ghost predicate OnCourse(ws: seq<World>, k: nat, j: nat, expiries: nat)
    requires k < j < |ws|
  {
    var config := ws[k].state.desk.config;
    && WellConfigured(config)
    && Staffed(ws[j].state, config) && PhaseOk(ws[j].state, config, expiries)
    && |ws[k].log| <= |ws[j].log|
    && Timeline(ws[j].log[|ws[k].log|..]) == Course(config, expiries)
  }

  ghost predicate OrderlyBetween(ws: seq<World>, es: seq<Event>, k: nat, j: nat)
    requires j <= |es| && |ws| == |es| + 1
  {
    forall i | k < i < j :: Orderly(ws[i].state, es[i])
  }

  lemma OnCourseStep(ws: seq<World>, es: seq<Event>, k: nat, j: nat, expiries: nat)
    requires IsRun(ws, es) && k < j < |es|
    requires OnCourse(ws, k, j, expiries) && Orderly(ws[j].state, es[j])
    ensures OnCourse(ws, k, j + 1, if es[j].TimerExpires? then expiries + 1 else expiries)
  {
    RunStep(ws, es, j);
    OrderlyStep(ws[j], es[j], ws[k].state.desk.config, expiries);
    TimelineGrows(ws[j], es[j], ws[j + 1], |ws[k].log|);
    CourseStep(ws[k].state.desk.config, expiries, es[j]);
  }

  lemma CourseStep(config: Configuration, expiries: nat, e: Event)
    requires |config.perConfigs| == config.nRounds
    ensures Course(config, if e.TimerExpires? then expiries + 1 else expiries)
         == Course(config, expiries) + if e.TimerExpires? then MarksOfExpiry(config, expiries) else []
  {
  }

  lemma TimelineGrows(w: World, e: Event, w': World, from: nat)
    requires Next(w, e, w') && from <= |w.log|
    ensures |w.log| <= |w'.log|
    ensures Timeline(w'.log[from..]) == Timeline(w.log[from..]) + Timeline(Handle(w, e).value.out)
  {
    var out := Handle(w, e).value.out;
    assert w'.log[from..] == w.log[from..] + out;
    TimelineConcat(w.log[from..], out);
  }

  lemma OnCourseStart(ws: seq<World>, es: seq<Event>, k: nat)
    requires IsRun(ws, es) && k < |es| && OrderlyStart(ws[k], es[k])
    ensures OnCourse(ws, k, k + 1, 0)
  {
    RunStep(ws, es, k);
    StartStep(ws[k], es[k], ws[k + 1]);
    StartTimeline(ws[k].state);
    assert ws[k + 1].log[|ws[k].log|..] == Handle(ws[k], es[k]).value.out;
  }

  /**
   * An accepted, well-configured experiment that runs in order follows the one
   * course its configuration sets: rounds 1, 2, ... in turn, each ended by
   * exactly one payment of its own dividend and a review, payouts after the
   * last. The number of timer expiries fixes the round, the stage and all the
   * broadcasts so far; nothing else does.
   */
  lemma {:induction false} RunsItsCourse(ws: seq<World>, es: seq<Event>, k: nat, j: nat)
    requires IsRun(ws, es) && k < j < |ws| && OrderlyStart(ws[k], es[k])
    requires OrderlyBetween(ws, es, k, j)
    ensures OnCourse(ws, k, j, Expiries(es, k + 1, j))
  {
    hide OnCourse, Orderly, OrderlyStart;
    if j == k + 1 {
      OnCourseStart(ws, es, k);
    } else {
      RunsItsCourse(ws, es, k, j - 1);
      OnCourseStep(ws, es, k, j - 1, Expiries(es, k + 1, j - 1));
    }
  }

  /** In such a run no lookup fails: every orderly event that can occur is handled. */
  lemma NoLookupFails(ws: seq<World>, es: seq<Event>, k: nat, j: nat, e: Event)
    requires IsRun(ws, es) && k < j < |ws| && OrderlyStart(ws[k], es[k])
    requires OrderlyBetween(ws, es, k, j)
    requires Possible(ws[j], e) && Orderly(ws[j].state, e)
    ensures Handle(ws[j], e).Did?
  {
    RunsItsCourse(ws, es, k, j);
    RunIsSound(ws, es, j);
    OrderlyStep(ws[j], e, ws[k].state.desk.config, Expiries(es, k + 1, j));
  }

  /** Outside the round stage the book is empty, and once payouts begin the market stays closed for good. */
  lemma MarketOnlyInRounds(ws: seq<World>, es: seq<Event>, k: nat, j: nat)
    requires IsRun(ws, es) && k < j < |ws| && OrderlyStart(ws[k], es[k])
    requires OrderlyBetween(ws, es, k, j)
    ensures !ws[j].state.desk.exp.stage.Round? ==> ws[j].state.desk.book == EMPTY_BOOK
    ensures ws[j].state.desk.exp.stage.Payouts? <==> Expiries(es, k + 1, j) >= 2 * ws[k].state.desk.config.nRounds
  {
    RunsItsCourse(ws, es, k, j);
    RunIsSound(ws, es, j);
  }
}
