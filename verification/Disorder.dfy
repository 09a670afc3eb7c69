/** The events that an orderly run leaves out, and exactly when each of them breaks the cycle. */
module Disorder {
  import opened OrderBooks
  import opened Experiments
  import opened OfferProcessing
  import opened MarketSafety
  import opened Servers
  import opened Ledgers
  import opened Reachable
  import opened Conservation
  import opened Protocol

  /** A round in progress, its timer running. */
  ghost predicate InRound(s: State, config: Configuration) {
    && Staffed(s, config) && WellConfigured(config) && SubjectsOk(s)
    && s.desk.exp.IsMarketOpen() && 1 <= s.desk.exp.round <= config.nRounds
    && s.timer == Timer(TimerState.Running, [EndsRound])
  }

  /** Status and timer run and pause together. */
  ghost predicate InStep(s: State) {
    s.desk.exp.stage.Round? || s.desk.exp.stage.Review? ==>
      || (s.desk.exp.status.Running? && s.timer.state.Running?)
      || (s.desk.exp.status.Paused? && s.timer.state.Paused?)
  }

  lemma ExpiryKeepsInStep(s: State, config: Configuration, expiries: nat)
    requires Staffed(s, config) && PhaseOk(s, config, expiries) && InStep(s) && s.timer.state.Running?
    requires Expire(s).Did?
    ensures InStep(Expire(s).value.state)
  {
    ExpireCalls(s, s.timer.callbacks[0]);
    if s.timer.callbacks == [EndsRound] {
      EndRoundReply(s.(timer := s.timer.(state := TimerState.Ended)));
    }
  }

  lemma OrderlyKeepsInStep(w: World, e: Event, w': World, config: Configuration, expiries: nat)
    requires Sound(w) && Next(w, e, w') && Orderly(w.state, e)
    requires Staffed(w.state, config) && WellConfigured(config) && PhaseOk(w.state, config, expiries) && InStep(w.state)
    ensures InStep(w'.state)
  {
    if e.TimerExpires? {
      ExpiryKeepsInStep(w.state, config, expiries);
    } else if e.Submit? || e.Create? || e.Retract? {
      if e.Submit? {
        SubmitStep(w, e);
      } else if e.Create? {
        CreateStep(w, e, config, expiries);
      } else {
        RetractStep(w, e);
      }
    }
  }

  lemma StartsInStep(w: World, e: Event, w': World)
    requires Next(w, e, w') && OrderlyStart(w, e)
    ensures InStep(w'.state)
  {
  }

  lemma {:induction false} StaysInStep(ws: seq<World>, es: seq<Event>, k: nat, j: nat)
    requires IsRun(ws, es) && k < j < |ws| && OrderlyStart(ws[k], es[k]) && OrderlyBetween(ws, es, k, j)
    ensures InStep(ws[j].state)
  {
    hide Next, InStep, OrderlyStart, Orderly;
    RunStep(ws, es, j - 1);
    if j == k + 1 {
      StartsInStep(ws[k], es[k], ws[j]);
    } else {
      StaysInStep(ws, es, k, j - 1);
      RunsItsCourse(ws, es, k, j - 1);
      OrderlyKeepsInStep(ws[j - 1], es[j - 1], ws[j], ws[k].state.desk.config, Expiries(es, k + 1, j - 1));
    }
  }

  /** In an orderly run an open market means a round in progress with its timer running. */
  lemma OpenIsInRound(ws: seq<World>, es: seq<Event>, k: nat, j: nat)
    requires IsRun(ws, es) && k < j < |ws| && OrderlyStart(ws[k], es[k]) && OrderlyBetween(ws, es, k, j)
    ensures ws[j].state.desk.exp.IsMarketOpen() ==> InRound(ws[j].state, ws[k].state.desk.config)
  {
    StaysInStep(ws, es, k, j);
    RunsItsCourse(ws, es, k, j);
    RunIsSound(ws, es, j);
  }

  // ---- Early ends ------------------------------------------------------------

  lemma EarlyEnd(s: State, config: Configuration)
    requires InRound(s, config)
    ensures StartPayouts(s).Did?
    ensures var s1 := StartPayouts(s).value.state;
            && s1.desk == s.desk.(exp := s.desk.exp.(stage := Payouts))
            && s1.subjects == s.subjects && s1.timer == s.timer
    ensures StartPayouts(s).value.out == [Envelope(All, PayoutsStarted)]
  {
  }

  /** The round the early end left running still ends, and pays its dividend after the payouts were announced. */
  lemma ExpiryAfterEarlyEnd(s1: State, config: Configuration)
    requires Staffed(s1, config) && WellConfigured(config)
    requires s1.timer.callbacks == [EndsRound] && 1 <= s1.desk.exp.round <= config.nRounds
    ensures Expire(s1).Did?
    ensures var r := Expire(s1).value;
            && Envelope(All, DividendStarted(config.perConfigs[s1.desk.exp.round - 1].dividend)) in r.out
            && r.state.desk.exp == s1.desk.exp.(stage := Review) && r.state.desk.config == config
            && r.state.timer == Rearm(EndsReview)
  {
    ExpireCalls(s1, EndsRound);
    var stopped := s1.(timer := s1.timer.(state := TimerState.Ended));
    var paid := PayDividend(s1.desk.folios, config.perConfigs[s1.desk.exp.round - 1].dividend);
    PortfoliosArePersonal(paid, |s1.subjects|);
    EndRoundReply(stopped);
    var out := Expire(s1).value.out;
    assert out[1] == Envelope(All, DividendStarted(config.perConfigs[s1.desk.exp.round - 1].dividend));
  }

  /** The review it opens ends too, into a new round if one is configured. */
  lemma ReviewAfterEarlyEnd(s2: State, config: Configuration)
    requires WellConfigured(config) && s2.desk.config == config
    requires s2.timer.callbacks == [EndsReview] && s2.desk.exp.stage.Review?
    requires 1 <= s2.desk.exp.round <= config.nRounds
    ensures s2.desk.exp.round < config.nRounds ==>
              && Expire(s2).Did?
              && Expire(s2).value.state.desk.exp == ExperimentState(s2.desk.exp.round + 1, Status.Running, Round)
    ensures s2.desk.exp.round == config.nRounds && Expire(s2).Did? ==>
              Expire(s2).value.state.desk.exp == s2.desk.exp.(stage := Payouts)
  {
    ExpireCalls(s2, EndsReview);
  }

  /**
   * Every orderly run that has come to an open market before the last round can
   * go on to an early end, a dividend after the payouts, and an open market.
   */
  lemma EarlyEndCanReopen(ws: seq<World>, es: seq<Event>, k: nat) returns (vs: seq<World>)
    requires IsRun(ws, es) && k < |es| && OrderlyStart(ws[k], es[k]) && OrderlyBetween(ws, es, k, |es|)
    requires ws[|es|].state.desk.exp.IsMarketOpen()
    requires ws[|es|].state.desk.exp.round < ws[k].state.desk.config.nRounds
    ensures IsRun(ws + vs, es + [EndEarly, TimerExpires, TimerExpires]) && |vs| == 3
    ensures vs[0].state.desk.exp.stage.Payouts? && vs[2].state.desk.exp.IsMarketOpen()
    ensures var round := ws[|es|].state.desk.exp.round;
            && 1 <= round <= |ws[k].state.desk.config.perConfigs|
            && var dividend := ws[k].state.desk.config.perConfigs[round - 1].dividend;
            && Envelope(All, PayoutsStarted) in Since(ws[|es|], vs[0])
            && Envelope(All, DividendStarted(dividend)) in Since(vs[0], vs[1])
  {
    hide Next, Handle, InRound, OrderlyStart, OrderlyBetween;
    OpenIsInRound(ws, es, k, |es|);
    var w1, w2, w3 := EarlyEndThenExpiries(ws[|es|], ws[k].state.desk.config);
    vs := [w1, w2, w3];
    RunGrows(ws, es, EndEarly, w1);
    RunGrows(ws + [w1], es + [EndEarly], TimerExpires, w2);
    RunGrows(ws + [w1] + [w2], es + [EndEarly] + [TimerExpires], TimerExpires, w3);
    assert ws + [w1] + [w2] + [w3] == ws + vs;
    assert es + [EndEarly] + [TimerExpires] + [TimerExpires] == es + [EndEarly, TimerExpires, TimerExpires];
  }

  lemma HandlesPeriod(w: World)
    ensures Handle(w, EndEarly) == StartPayouts(w.state) && Handle(w, TimerExpires) == Expire(w.state)
  {
    hide StartPayouts, Expire;
  }

  /** An early end and two expiries, one after the other: the steps of a run that reopens. */
  lemma EarlyEndThenExpiries(w: World, config: Configuration) returns (w1: World, w2: World, w3: World)
    requires InRound(w.state, config) && w.state.desk.exp.round < config.nRounds
    ensures Next(w, EndEarly, w1) && Next(w1, TimerExpires, w2) && Next(w2, TimerExpires, w3)
    ensures w1.state.desk.exp.stage.Payouts?
    ensures Envelope(All, PayoutsStarted) in Since(w, w1)
    ensures 1 <= w.state.desk.exp.round <= |config.perConfigs|
    ensures Envelope(All, DividendStarted(config.perConfigs[w.state.desk.exp.round - 1].dividend))
         in Since(w1, w2)
    ensures w3.state.desk.exp.IsMarketOpen() && w3.state.desk.exp.round == w.state.desk.exp.round + 1
  {
    hide Handle, Expire, StartPayouts;
    EarlyEnd(w.state, config);
    HandlesPeriod(w);
    var r1 := Handle(w, EndEarly).value;
    w1 := World(r1.state, w.nextId, w.log + r1.out);
    ExpiryAfterEarlyEnd(w1.state, config);
    HandlesPeriod(w1);
    var r2 := Handle(w1, TimerExpires).value;
    w2 := World(r2.state, w1.nextId, w1.log + r2.out);
    ReviewAfterEarlyEnd(w2.state, config);
    HandlesPeriod(w2);
    var r3 := Handle(w2, TimerExpires).value;
    w3 := World(r3.state, w2.nextId, w2.log + r3.out);
    assert Since(w, w1) == r1.out && Since(w1, w2) == r2.out;
  }

  // ---- Late joins ------------------------------------------------------------

  /** The end of a round fails to find a portfolio exactly when somebody joined after the start. */
  lemma RoundEndNeedsPortfolios(s: State)
    requires s.timer.callbacks == [EndsRound]
    requires s.desk.config.GetRoundConfiguration(s.desk.exp.round).Did?
    ensures Expire(s).Did? <==> forall id: nat | id < |s.subjects| :: id in s.desk.folios
  {
    ExpireCalls(s, EndsRound);
    var stopped := s.(timer := s.timer.(state := TimerState.Ended));
    var paid := PayDividend(s.desk.folios, s.desk.config.GetRoundConfiguration(s.desk.exp.round).value.dividend);
    PortfoliosArePersonal(paid, |s.subjects|);
    assert EndRound(stopped).Did? <==> SendPortfolios(paid, |s.subjects|).Did?;
    assert forall id: nat :: id in paid <==> id in s.desk.folios;
  }

  /** So a subject that joins during a round stops the server at the end of it. */
  lemma LateJoinStopsServer(w: World, config: Configuration) returns (w': World)
    requires InRound(w.state, config)
    ensures Next(w, Join, w') && Possible(w', TimerExpires) && Handle(w', TimerExpires).Threw?
  {
    w' := World(AddSubject(w.state), w.nextId, w.log + []);
    assert |w.state.subjects| !in w'.state.desk.folios;
    RoundEndNeedsPortfolios(w'.state);
  }

  /** Somebody is a subject without a portfolio. */
  ghost predicate Unfunded(s: State) {
    exists id: nat :: id < |s.subjects| && id !in s.desk.folios
  }

  /** The messages of a round's end and of the payouts. */
  ghost predicate ClosesPeriod(out: seq<Envelope>) {
    exists x :: x in out && (x.msg.RoundEnded? || x.msg.PayoutsStarted?)
  }

  lemma UnfundedCloses(s: State)
    requires Unfunded(s)
    ensures StartPayouts(s).Threw? && EndRound(s).Threw?
  {
    var id: nat :| id < |s.subjects| && id !in s.desk.folios;
    assert id !in s.desk.folios || id !in s.desk.config.subConfigs;
    var conf := s.desk.config.GetRoundConfiguration(s.desk.exp.round);
    if conf.Did? {
      var paid := PayDividend(s.desk.folios, conf.value.dividend);
      PortfoliosArePersonal(paid, |s.subjects|);
      assert id !in paid;
      assert SendPortfolios(paid, |s.subjects|).Threw?;
    }
    assert StartDividends(s.(desk := s.desk.(book := EMPTY_BOOK))).Threw?;
  }

  lemma UnfundedExpiry(s: State)
    requires Unfunded(s) && Expire(s).Did?
    requires s.timer.callbacks == [] || s.timer.callbacks == [EndsRound] || s.timer.callbacks == [EndsReview]
    ensures s.timer.callbacks != [EndsRound] && !ClosesPeriod(Expire(s).value.out)
    ensures Unfunded(Expire(s).value.state)
  {
    var stopped := s.(timer := s.timer.(state := TimerState.Ended));
    assert Unfunded(stopped);
    UnfundedCloses(stopped);
    if s.timer.callbacks != [] {
      ExpireCalls(s, s.timer.callbacks[0]);
    }
  }

  lemma UnfundedStep(w: World, e: Event, w': World)
    requires Sound(w) && Next(w, e, w') && Unfunded(w.state) && !AcceptedStart(w, e)
    ensures Unfunded(w'.state) && !ClosesPeriod(Handle(w, e).value.out)
    ensures !e.EndEarly? && (e.TimerExpires? ==> w.state.timer.callbacks != [EndsRound])
  {
    if e.TimerExpires? {
      UnfundedExpiry(w.state);
    } else if e.EndEarly? {
      UnfundedCloses(w.state);
    } else {
      var id: nat :| id < |w.state.subjects| && id !in w.state.desk.folios;
      UnfundedOther(w, e, w', id);
    }
  }

  lemma UnfundedOther(w: World, e: Event, w': World, id: nat)
    requires Sound(w) && Next(w, e, w') && !AcceptedStart(w, e) && !e.EndEarly? && !e.TimerExpires?
    requires id < |w.state.subjects| && id !in w.state.desk.folios
    ensures id < |w'.state.subjects| && id !in w'.state.desk.folios
    ensures !ClosesPeriod(Handle(w, e).value.out)
  {
    hide Next, Handle, Sound, StartVerdict;
    NextGives(w, e, w');
    SoundCallbacks(w);
    ReplyFits(w, e);
    if e.Submit? {
      UnfundedSubmit(w, e, w', id);
    } else if e.Retract? {
      RetractFrame(w, e);
    } else if e.Create? {
      CreateFrame(w, e);
    } else {
      ClericalEffect(w, e);
    }
  }

  lemma UnfundedSubmit(w: World, e: Event, w': World, id: nat)
    requires Sound(w) && Next(w, e, w') && e.Submit? && id !in w.state.desk.folios
    ensures id !in w'.state.desk.folios && w'.state.subjects == w.state.subjects
  {
    hide Next, Handle, Judge, ProcessOffer, TradeNotices;
    SubmitShape(w, e, w');
    OfferKeepsDesk(w.state.desk, w.nextId, OfferOf(w, e), e.sorted);
  }

  lemma JoinIsUnfunded(w: World, e: Event, w': World)
    requires Sound(w) && Next(w, e, w') && e.Join?
    ensures Unfunded(w'.state)
  {
    assert |w.state.subjects| < |w'.state.subjects| && |w.state.subjects| !in w'.state.desk.folios;
  }

  lemma {:induction false} StaysUnfunded(ws: seq<World>, es: seq<Event>, k: nat, i: nat, j: nat)
    requires IsRun(ws, es) && k < i < j < |ws| && AcceptedStart(ws[k], es[k]) && es[i].Join?
    ensures Unfunded(ws[j].state)
  {
    hide Next, Sound, Unfunded, AcceptedStart;
    RunStep(ws, es, j - 1);
    if j == i + 1 {
      JoinIsUnfunded(ws[i], es[i], ws[j]);
    } else {
      StaysUnfunded(ws, es, k, i, j - 1);
      LaterStep(ws, es, k, j - 1);
      UnfundedStep(ws[j - 1], es[j - 1], ws[j]);
    }
  }

  /**
   * After a subject joins late, at any time after the start, no run ever ends a
   * round or gets to payouts again: those steps would throw.
   */
  lemma LateJoinStopsRuns(ws: seq<World>, es: seq<Event>, k: nat, i: nat, j: nat)
    requires IsRun(ws, es) && k < i < j < |es| && AcceptedStart(ws[k], es[k]) && es[i].Join?
    ensures !es[j].EndEarly? && (es[j].TimerExpires? ==> ws[j].state.timer.callbacks != [EndsRound])
    ensures Possible(ws[j], es[j]) && Handle(ws[j], es[j]).Did? && !ClosesPeriod(Handle(ws[j], es[j]).value.out)
  {
    hide Next, Sound, Unfunded, AcceptedStart;
    StaysUnfunded(ws, es, k, i, j);
    LaterStep(ws, es, k, j);
    RunStep(ws, es, j);
    UnfundedStep(ws[j], es[j], ws[j + 1]);
  }

  // ---- Names -------------------------------------------------------------------

  /**
   * Names and readiness share a counter: a name sent during a round closes the
   * market exactly when it completes the count.
   */
  lemma NameClosesMarketIff(w: World, config: Configuration, id: nat, name: string) returns (w': World)
    requires InRound(w.state, config) && w.state.Knows(id)
    ensures Next(w, Name(id, name), w')
    ensures !w'.state.desk.exp.IsMarketOpen() <==> w.state.counter + 1 == |w.state.subjects|
  {
    var r := Handle(w, Name(id, name)).value;
    w' := World(r.state, w.nextId, w.log + r.out);
  }
}
