/** Loading a configuration in the middle of an experiment, and exactly when that is safe. */
module Reloads {
  import opened Experiments
  import opened Servers
  import opened Ledgers
  import opened Reachable
  import opened Protocol
  import Disorder

  /** An experiment that has begun, in one of its timed stages or its payouts, with a portfolio for everybody. */
  ghost predicate Going(s: State) {
    var stage, timer := s.desk.exp.stage, s.timer;
    && !s.desk.exp.status.NotStarted? && s.desk.exp.round >= 1
    && (forall id: nat | id < |s.subjects| :: id in s.desk.folios)
    && (stage.Round? || stage.Review? || stage.Payouts?)
    && timer.callbacks == (if stage.Round? then [EndsRound] else [EndsReview])
    && (timer.state.Running? || timer.state.Paused? || (stage.Payouts? && timer.state.Ended?))
  }

  /**
   * `c` has an entry for the round in progress and for every round still to
   * come by its own count, and one for every subject.
   */
  ghost predicate Suits(c: Configuration, s: State) {
    && (s.desk.exp.stage.Round? ==> s.desk.exp.round <= |c.perConfigs|)
    && (s.desk.exp.round < c.nRounds ==> c.nRounds <= |c.perConfigs|)
    && forall id: nat | id < |s.subjects| :: id in c.subConfigs
  }

  // ---- One step --------------------------------------------------------------

  lemma RoundEnds(s: State)
    requires Going(s) && s.desk.exp.stage.Round? && SubjectsOk(s)
    ensures Expire(s).Did? <==> s.desk.exp.round <= |s.desk.config.perConfigs|
    ensures Expire(s).Did? ==>
              var s' := Expire(s).value.state;
              && s'.desk.exp == s.desk.exp.(stage := Review) && s'.desk.config == s.desk.config
              && s'.desk.folios.Keys == s.desk.folios.Keys
              && s'.subjects == s.subjects && s'.timer == Rearm(EndsReview)
  {
    ExpireCalls(s, EndsRound);
    var stopped := s.(timer := s.timer.(state := TimerState.Ended));
    var conf := s.desk.config.GetRoundConfiguration(s.desk.exp.round);
    if conf.Did? {
      PortfoliosArePersonal(PayDividend(s.desk.folios, conf.value.dividend), |s.subjects|);
      EndRoundReply(stopped);
    }
  }

  /** What the end of a review, or a timer revived in the payouts, does and needs. */
  lemma ReviewEnds(s: State)
    requires Going(s) && !s.desk.exp.stage.Round?
    ensures s.desk.exp.round < s.desk.config.nRounds ==>
              (Expire(s).Did? <==> s.desk.exp.round + 1 <= |s.desk.config.perConfigs|)
    ensures s.desk.exp.round >= s.desk.config.nRounds ==>
              (Expire(s).Did? <==> forall id: nat | id < |s.subjects| :: id in s.desk.config.subConfigs)
    ensures Expire(s).Did? ==>
              var s' := Expire(s).value.state;
              && s'.desk.config == s.desk.config && s'.desk.folios == s.desk.folios && s'.subjects == s.subjects
              && if s.desk.exp.round < s.desk.config.nRounds then
                   s'.desk.exp == ExperimentState(s.desk.exp.round + 1, Status.Running, Round)
                   && s'.timer == Rearm(EndsRound)
                 else
                   s'.desk.exp == s.desk.exp.(stage := Payouts) && s'.timer == s.timer.(state := TimerState.Ended)
  {
    ExpireCalls(s, EndsReview);
  }

  /** From a going experiment whose configuration suits it, an orderly expiry succeeds and leaves another. */
  lemma ExpirySuits(s: State)
    requires Going(s) && SubjectsOk(s) && Suits(s.desk.config, s)
    ensures Expire(s).Did?
    ensures Going(Expire(s).value.state) && Suits(s.desk.config, Expire(s).value.state)
    ensures Expire(s).value.state.desk.config == s.desk.config
  {
    hide Expire;
    if s.desk.exp.stage.Round? {
      RoundEnds(s);
    } else {
      ReviewEnds(s);
    }
  }

  lemma CreateSuits(w: World, e: Event)
    requires Sound(w) && Possible(w, e) && e.Create? && Going(w.state) && Suits(w.state.desk.config, w.state)
    ensures Handle(w, e).Did? && SamePeriod(w.state, Handle(w, e).value.state)
  {
  }

  lemma OtherSuits(w: World, e: Event)
    requires Sound(w) && Possible(w, e) && Orderly(w.state, e) && Going(w.state)
    requires !e.Submit? && !e.Create? && !e.TimerExpires?
    ensures Handle(w, e).Did?
    ensures var s, s' := w.state, Handle(w, e).value.state;
            && Going(s') && s'.desk.config == s.desk.config && |s'.subjects| == |s.subjects|
            && s'.desk.exp.round == s.desk.exp.round && s'.desk.exp.stage == s.desk.exp.stage
  {
  }

  lemma SuitableStep(w: World, e: Event)
    requires Sound(w) && Possible(w, e) && Orderly(w.state, e)
    requires Going(w.state) && Suits(w.state.desk.config, w.state)
    ensures Handle(w, e).Did?
    ensures var s' := Handle(w, e).value.state;
            Going(s') && Suits(s'.desk.config, s') && s'.desk.config == w.state.desk.config
  {
    if e.Submit? {
      SubmitStep(w, e);
    } else if e.Create? {
      CreateSuits(w, e);
    } else if e.TimerExpires? {
      ExpirySuits(w.state);
    } else {
      OtherSuits(w, e);
    }
  }

  // ---- Continuations -------------------------------------------------------

  /** A continuation from `w` by orderly events. */
  ghost predicate OrderlyPath(w: World, ws: seq<World>, es: seq<Event>) {
    && |ws| == |es| + 1 && ws[0] == w
    && forall i {:trigger StepAt(ws, es, i)} | 0 <= i < |es| :: StepAt(ws, es, i) && Orderly(ws[i].state, es[i])
  }

  /** After the continuation an orderly event can occur whose handling fails a lookup. */
  ghost predicate FailsAfter(w: World, ws: seq<World>, es: seq<Event>, e: Event) {
    && OrderlyPath(w, ws, es)
    && Possible(ws[|es|], e) && Orderly(ws[|es|].state, e) && Handle(ws[|es|], e).Threw?
  }

  ghost predicate NeverFails(w: World) {
    forall ws, es, e :: !FailsAfter(w, ws, es, e)
  }

  lemma {:induction false} SuitsAlongPath(w: World, ws: seq<World>, es: seq<Event>, i: nat)
    requires OrderlyPath(w, ws, es) && i <= |es|
    requires Sound(w) && Going(w.state) && Suits(w.state.desk.config, w.state)
    ensures Sound(ws[i]) && Going(ws[i].state) && Suits(ws[i].state.desk.config, ws[i].state)
  {
    hide Sound, Going, Suits, Orderly, Next, Handle;
    if i > 0 {
      SuitsAlongPath(w, ws, es, i - 1);
      assert StepAt(ws, es, i - 1);
      NextKeepsSound(ws[i - 1], es[i - 1], ws[i]);
      NextGives(ws[i - 1], es[i - 1], ws[i]);
      SuitableStep(ws[i - 1], es[i - 1]);
    }
  }

  lemma SuitableNeverFails(w: World)
    requires Sound(w) && Going(w.state) && Suits(w.state.desk.config, w.state)
    ensures NeverFails(w)
  {
    hide Sound, Going, Suits, Orderly, Handle, Possible;
    forall ws, es, e
      ensures !FailsAfter(w, ws, es, e)
    {
      if FailsAfter(w, ws, es, e) {
        SuitsAlongPath(w, ws, es, |es|);
        SuitableStep(ws[|es|], e);
      }
    }
  }

  // ---- The failing continuation ----------------------------------------------

  /** Whatever does not suit a going experiment does not suit what an expiry leaves of it. */
  lemma ExpiryUnsuits(s: State)
    requires Going(s) && SubjectsOk(s) && !Suits(s.desk.config, s) && Expire(s).Did?
    ensures var s' := Expire(s).value.state;
            && Going(s') && !Suits(s'.desk.config, s') && s'.desk.config == s.desk.config
            && s'.timer.state.Running?
            && if s.desk.exp.stage.Round? then s'.desk.exp.round == s.desk.exp.round && !s'.desk.exp.stage.Round?
               else s'.desk.exp.round == s.desk.exp.round + 1 <= s.desk.config.nRounds
  {
    hide Expire;
    if s.desk.exp.stage.Round? {
      RoundEnds(s);
    } else {
      ReviewEnds(s);
    }
  }

  function ToGo(s: State): nat {
    if s.desk.exp.round < s.desk.config.nRounds then s.desk.config.nRounds - s.desk.exp.round else 0
  }

  function TimerRank(t: Timer): nat {
    if t.state.Running? then 0 else if t.state.Paused? then 1 else 2
  }

  /** A pause or a resumption brings the timer nearer to running and changes nothing that matters here. */
  lemma TowardsRunning(w: World, e: Event)
    requires Going(w.state) && !w.state.timer.state.Running?
    requires e == if w.state.timer.state.Paused? then RequestResume else RequestPause
    ensures Possible(w, e) && Orderly(w.state, e) && Handle(w, e).Did?
    ensures var s, s' := w.state, Handle(w, e).value.state;
            && Going(s') && s'.desk.config == s.desk.config && s'.subjects == s.subjects
            && s'.desk.exp.round == s.desk.exp.round && s'.desk.exp.stage == s.desk.exp.stage
            && TimerRank(s'.timer) < TimerRank(s.timer)
  {
  }

  lemma PathGrows(w: World, e: Event, w': World, ws: seq<World>, es: seq<Event>, last: Event)
    requires Next(w, e, w') && Orderly(w.state, e) && FailsAfter(w', ws, es, last)
    ensures FailsAfter(w, [w] + ws, [e] + es, last)
  {
    hide Next, Orderly, Possible, Handle;
    var ws', es' := [w] + ws, [e] + es;
    forall i | 0 <= i < |es'|
      ensures StepAt(ws', es', i) && Orderly(ws'[i].state, es'[i])
    {
      if i > 0 {
        assert StepAt(ws, es, i - 1);
        assert ws'[i] == ws[i - 1] && es'[i] == es[i - 1] && ws'[i + 1] == ws[i];
      }
    }
    assert ws'[|es'|] == ws[|es|];
  }

  lemma AfterIsNext(w: World, e: Event)
    requires !e.Name? && !e.Submit? && Possible(w, e) && Handle(w, e).Did?
    ensures Next(w, e, WorldAfter(w, e))
  {
  }

  lemma ExpiryIsOrderly(w: World)
    requires w.state.timer.state.Running?
    ensures Possible(w, TimerExpires) && Orderly(w.state, TimerExpires) && Handle(w, TimerExpires) == Expire(w.state)
  {
  }

  ghost predicate OnlyExpiries(es: seq<Event>) {
    forall f | f in es :: f.TimerExpires?
  }

  /**
   * Let the timer run out again and again: sooner or later the lookup that has
   * nothing to find comes. If the timer runs, expiries are all it takes.
   */
  lemma {:induction false} UnsuitableFails(w: World) returns (ws: seq<World>, es: seq<Event>, e: Event)
    requires Sound(w) && Going(w.state) && !Suits(w.state.desk.config, w.state)
    ensures FailsAfter(w, ws, es, e)
    ensures w.state.timer.state.Running? ==> OnlyExpiries(es + [e])
    decreases ToGo(w.state), if w.state.desk.exp.stage.Round? then 1 else 0, TimerRank(w.state.timer), 0
  {
    hide Handle, Expire, Possible, Orderly, Next;
    if w.state.timer.state.Running? {
      ExpiryIsOrderly(w);
      if Handle(w, TimerExpires).Threw? {
        return [w], [], TimerExpires;
      }
      ExpiryUnsuits(w.state);
      ws, es, e := FailsLater(w, TimerExpires);
    } else {
      var step := if w.state.timer.state.Paused? then RequestResume else RequestPause;
      TowardsRunning(w, step);
      ws, es, e := FailsLater(w, step);
    }
  }

  lemma {:induction false} FailsLater(w: World, step: Event) returns (ws: seq<World>, es: seq<Event>, e: Event)
    requires Sound(w) && !step.Name? && !step.Submit?
    requires Possible(w, step) && Orderly(w.state, step) && Handle(w, step).Did?
    requires Going(WorldAfter(w, step).state)
    requires !Suits(WorldAfter(w, step).state.desk.config, WorldAfter(w, step).state)
    ensures FailsAfter(w, ws, es, e)
    ensures WorldAfter(w, step).state.timer.state.Running? && step.TimerExpires? ==> OnlyExpiries(es + [e])
    decreases ToGo(WorldAfter(w, step).state), if WorldAfter(w, step).state.desk.exp.stage.Round? then 1 else 0,
              TimerRank(WorldAfter(w, step).state.timer), 1
  {
    hide Going, Suits, Sound, Possible, Orderly, FailsAfter, Next, Handle;
    var w' := WorldAfter(w, step);
    AfterIsNext(w, step);
    NextKeepsSound(w, step, w');
    var us, fs;
    us, fs, e := UnsuitableFails(w');
    PathGrows(w, step, w', us, fs, e);
    ws, es := [w] + us, [step] + fs;
    if w'.state.timer.state.Running? && step.TimerExpires? {
      assert es + [e] == [step] + (fs + [e]);
    }
  }

  // ---- The reload --------------------------------------------------------------

  lemma PhaseIsGoing(s: State, config: Configuration, expiries: nat)
    requires Staffed(s, config) && WellConfigured(config) && PhaseOk(s, config, expiries)
    ensures Going(s)
  {
  }

  /** `w'` is `w` after loading `c`. */
  ghost predicate LoadsAt(w: World, c: Configuration, w': World) {
    exists warnings :: Next(w, Load(Loaded(c, warnings)), w')
  }

  lemma LoadKeepsGoing(w: World, c: Configuration, w': World)
    requires Sound(w) && Going(w.state) && LoadsAt(w, c, w')
    ensures Sound(w') && Going(w'.state) && w'.state.desk.config == c
    ensures Suits(c, w'.state) <==> Suits(c, w.state)
  {
    var warnings :| Next(w, Load(Loaded(c, warnings)), w');
    NextKeepsSound(w, Load(Loaded(c, warnings)), w');
    hide Sound;
  }

  lemma StaysGoing(ws: seq<World>, es: seq<Event>, k: nat, j: nat)
    requires IsRun(ws, es) && k < j < |ws| && OrderlyStart(ws[k], es[k]) && OrderlyBetween(ws, es, k, j)
    ensures Sound(ws[j]) && Going(ws[j].state)
  {
    RunIsSound(ws, es, j);
    RunsItsCourse(ws, es, k, j);
    PhaseIsGoing(ws[j].state, ws[k].state.desk.config, Expiries(es, k + 1, j));
  }

  /**
   * Load a configuration at any point of an otherwise orderly experiment, one
   * that may be paused and resumed: every orderly continuation is free of
   * failing lookups exactly when the configuration suits the state it is loaded
   * in - it has the rounds still to come, the one in progress included, and all
   * the subjects.
   */
  lemma ReloadSafeWithPausesIff(ws: seq<World>, es: seq<Event>, k: nat, j: nat, c: Configuration, w': World)
    requires IsRun(ws, es) && k < j < |ws| && OrderlyStart(ws[k], es[k]) && OrderlyBetween(ws, es, k, j)
    requires LoadsAt(ws[j], c, w')
    ensures NeverFails(w') <==> Suits(c, ws[j].state)
  {
    StaysGoing(ws, es, k, j);
    hide LoadsAt, Sound, Going, Suits, FailsAfter, IsRun;
    LoadKeepsGoing(ws[j], c, w');
    if Suits(c, ws[j].state) {
      SuitableNeverFails(w');
    } else {
      var vs, fs, e := UnsuitableFails(w');
    }
  }

  // ---- What the messages of clients and administrators can do --------------

  /** No message causes a pause or a resumption. */
  predicate Dispatched(e: Event) {
    !e.RequestPause? && !e.RequestResume?
  }

  ghost predicate AllDispatched(es: seq<Event>) {
    forall f | f in es :: Dispatched(f)
  }

  /** No orderly continuation by messages and expiries comes to a failing lookup. */
  ghost predicate NeverFailsByMessages(w: World) {
    forall ws, es, e :: FailsAfter(w, ws, es, e) ==> !AllDispatched(es + [e])
  }

  /** Nothing can happen any more but what changes nothing of the period: no expiry, no market. */
  ghost predicate Halted(s: State) {
    Going(s) && !s.timer.state.Running? && !s.desk.exp.IsMarketOpen()
  }

  lemma ClosedMarket(w: World, e: Event)
    requires Possible(w, e) && (e.Submit? || e.Create? || e.Retract?) && !w.state.desk.exp.IsMarketOpen()
    ensures Handle(w, e).Did? && Handle(w, e).value.state == w.state
  {
  }

  lemma HaltedStep(w: World, e: Event)
    requires Sound(w) && Possible(w, e) && Orderly(w.state, e) && Dispatched(e) && Halted(w.state)
    ensures Handle(w, e).Did? && Halted(Handle(w, e).value.state)
  {
    if e.Submit? || e.Create? || e.Retract? {
      ClosedMarket(w, e);
    } else {
      OtherSuits(w, e);
      HaltedClerical(w, e);
    }
  }

  lemma HaltedClerical(w: World, e: Event)
    requires Possible(w, e) && Orderly(w.state, e) && Dispatched(e) && Halted(w.state)
    requires !e.Submit? && !e.Create? && !e.Retract? && Handle(w, e).Did?
    ensures Handle(w, e).value.state.timer == w.state.timer
    ensures !Handle(w, e).value.state.desk.exp.IsMarketOpen()
  {
  }

  lemma {:induction false} HaltedAlongPath(w: World, ws: seq<World>, es: seq<Event>, i: nat)
    requires OrderlyPath(w, ws, es) && AllDispatched(es) && i <= |es| && Sound(w) && Halted(w.state)
    ensures Sound(ws[i]) && Halted(ws[i].state)
  {
    hide Sound, Halted, Orderly, Next, Handle, Dispatched;
    if i > 0 {
      HaltedAlongPath(w, ws, es, i - 1);
      assert StepAt(ws, es, i - 1);
      NextKeepsSound(ws[i - 1], es[i - 1], ws[i]);
      NextGives(ws[i - 1], es[i - 1], ws[i]);
      assert es[i - 1] in es;
      HaltedStep(ws[i - 1], es[i - 1]);
    }
  }

  lemma HaltedNeverFails(w: World)
    requires Sound(w) && Halted(w.state)
    ensures NeverFailsByMessages(w)
  {
    hide Sound, Halted, Orderly, Handle, Possible, Dispatched;
    forall ws, es, e | FailsAfter(w, ws, es, e)
      ensures !AllDispatched(es + [e])
    {
      if AllDispatched(es + [e]) {
        assert AllDispatched(es) && e in es + [e];
        HaltedAlongPath(w, ws, es, |es|);
        HaltedStep(ws[|es|], e);
      }
    }
  }

  lemma OrderlyIsHalted(ws: seq<World>, es: seq<Event>, k: nat, j: nat)
    requires IsRun(ws, es) && k < j < |ws| && OrderlyStart(ws[k], es[k]) && OrderlyBetween(ws, es, k, j)
    ensures !ws[j].state.timer.state.Running? ==> Halted(ws[j].state)
  {
    StaysGoing(ws, es, k, j);
    Disorder.StaysInStep(ws, es, k, j);
  }

  /**
   * If only messages and expiries follow, a configuration loaded in an orderly
   * experiment is safe exactly when it suits the state, or the timer does not
   * run: then nothing looks anything up any more.
   */
  lemma ReloadSafeByMessagesIff(ws: seq<World>, es: seq<Event>, k: nat, j: nat, c: Configuration, w': World)
    requires IsRun(ws, es) && k < j < |ws| && OrderlyStart(ws[k], es[k]) && OrderlyBetween(ws, es, k, j)
    requires LoadsAt(ws[j], c, w')
    ensures NeverFailsByMessages(w') <==> !ws[j].state.timer.state.Running? || Suits(c, ws[j].state)
  {
    StaysGoing(ws, es, k, j);
    OrderlyIsHalted(ws, es, k, j);
    LoadKeepsGoing(ws[j], c, w');
    LoadKeepsHalted(ws[j], c, w');
    hide LoadsAt, Sound, Going, Suits, FailsAfter, IsRun, Halted;
    if !ws[j].state.timer.state.Running? {
      HaltedNeverFails(w');
    } else if Suits(c, ws[j].state) {
      SuitableNeverFails(w');
    } else {
      var vs, fs, e := UnsuitableFails(w');
      assert AllDispatched(fs + [e]);
    }
  }

  lemma LoadKeepsHalted(w: World, c: Configuration, w': World)
    requires LoadsAt(w, c, w')
    ensures w'.state.timer == w.state.timer
    ensures Halted(w.state) ==> Halted(w'.state)
  {
  }

  /** Without pauses the timer runs in rounds and reviews, and has ended when the payouts begin. */
  ghost predicate InCourse(s: State) {
    if s.desk.exp.stage.Payouts? then s.timer.state.Ended? else s.timer.state.Running?
  }

  lemma StepInCourse(w: World, e: Event, w': World, config: Configuration, expiries: nat)
    requires Sound(w) && Next(w, e, w') && Orderly(w.state, e) && Dispatched(e) && InCourse(w.state)
    requires Staffed(w.state, config) && WellConfigured(config) && PhaseOk(w.state, config, expiries)
    ensures InCourse(w'.state)
  {
    if e.TimerExpires? {
      ExpireCalls(w.state, w.state.timer.callbacks[0]);
    } else if e.Submit? || e.Create? || e.Retract? {
      NextGives(w, e, w');
      MarketKeepsPeriod(w, e, config, expiries);
    }
  }

  lemma MarketKeepsPeriod(w: World, e: Event, config: Configuration, expiries: nat)
    requires Sound(w) && Possible(w, e) && (e.Submit? || e.Create? || e.Retract?)
    requires Staffed(w.state, config) && WellConfigured(config) && PhaseOk(w.state, config, expiries)
    ensures Handle(w, e).Did? && SamePeriod(w.state, Handle(w, e).value.state)
  {
    if e.Submit? {
      SubmitStep(w, e);
    } else if e.Create? {
      CreateStep(w, e, config, expiries);
    } else {
      RetractStep(w, e);
    }
  }

  lemma StartInCourse(w: World, e: Event, w': World)
    requires Next(w, e, w') && OrderlyStart(w, e)
    ensures InCourse(w'.state)
  {
  }

  lemma {:induction false} StaysInCourse(ws: seq<World>, es: seq<Event>, k: nat, j: nat)
    requires IsRun(ws, es) && k < j < |ws| && OrderlyStart(ws[k], es[k]) && OrderlyBetween(ws, es, k, j)
    requires forall i | k < i < j :: Dispatched(es[i])
    ensures InCourse(ws[j].state)
  {
    hide Next, InCourse, OrderlyStart, Orderly, Handle, Dispatched;
    RunStep(ws, es, j - 1);
    if j == k + 1 {
      StartInCourse(ws[k], es[k], ws[j]);
    } else {
      StaysInCourse(ws, es, k, j - 1);
      RunsItsCourse(ws, es, k, j - 1);
      StepInCourse(ws[j - 1], es[j - 1], ws[j], ws[k].state.desk.config, Expiries(es, k + 1, j - 1));
    }
  }

  /**
   * The program as it is dispatched, without pauses: a configuration loaded in
   * an otherwise orderly experiment is safe exactly when the payouts have begun,
   * or it has the round in progress, the rounds still to come by its own count,
   * and every subject.
   */
  lemma ReloadSafeIff(ws: seq<World>, es: seq<Event>, k: nat, j: nat, c: Configuration, w': World)
    requires IsRun(ws, es) && k < j < |ws| && OrderlyStart(ws[k], es[k]) && OrderlyBetween(ws, es, k, j)
    requires forall i | k < i < j :: Dispatched(es[i])
    requires LoadsAt(ws[j], c, w')
    ensures NeverFailsByMessages(w') <==> ws[j].state.desk.exp.stage.Payouts? || Suits(c, ws[j].state)
  {
    StaysInCourse(ws, es, k, j);
    hide LoadsAt, Suits, NeverFailsByMessages, OrderlyStart;
    ReloadSafeByMessagesIff(ws, es, k, j, c, w');
  }
}
