/** Early ends over whole runs: they announce the payouts and stop nothing. */
module EarlyEnds {
  import opened Experiments
  import opened Servers
  import opened Ledgers
  import opened Reachable
  import opened Protocol

  predicate OrderlyOrEarly(s: State, e: Event) {
    Orderly(s, e) || e.EndEarly?
  }

  ghost predicate OrderlyButEarly(ws: seq<World>, es: seq<Event>, k: nat, j: nat)
    requires j <= |es| && |ws| == |es| + 1
  {
    forall i | k < i < j :: OrderlyOrEarly(ws[i].state, es[i])
  }

  function Restaged(s: State, stage: Stage): State {
    WithExp(s, s.desk.exp.(stage := stage))
  }

  /** The stage that the number of expiries since the start calls for. */
  function DueStage(config: Configuration, expiries: nat): Stage {
    if expiries >= 2 * config.nRounds then Payouts else if expiries % 2 == 0 then Round else Review
  }

  /** Where the course is after so many expiries, except that the payouts may have been announced already. */
  ghost predicate LooseOk(s: State, config: Configuration, expiries: nat) {
    && (s.desk.exp.stage == DueStage(config, expiries) || s.desk.exp.stage.Payouts?)
    && PhaseOk(Restaged(s, DueStage(config, expiries)), config, expiries)
  }

  // ---- One step --------------------------------------------------------------

  /** An expiry does what its callback says, whatever the stage. */
  lemma ExpiryIgnoresStage(s: State, stage: Stage)
    requires s.timer.callbacks == [EndsRound] || s.timer.callbacks == [EndsReview]
    requires !s.desk.exp.stage.PreExperiment? && !stage.PreExperiment?
    ensures Expire(Restaged(s, stage)) == Expire(s)
  {
    var c := s.timer.callbacks[0];
    ExpireCalls(s, c);
    ExpireCalls(Restaged(s, stage), c);
    CallIgnoresStage(s.(timer := s.timer.(state := TimerState.Ended)), c, stage);
  }

  lemma CallIgnoresStage(s: State, c: Callback, stage: Stage)
    requires !s.desk.exp.stage.PreExperiment? && !stage.PreExperiment?
    ensures Call(Restaged(s, stage), c) == Call(s, c)
  {
    var r := Restaged(s, stage);
    match c {
      case EndsRound =>
        var e1, e2 := s.desk.exp.(stage := Review), r.desk.exp.(stage := Review);
        assert e1 == e2;
      case EndsReview =>
        assert StartPayouts(r) == StartPayouts(s);
    }
  }

  lemma OpensRunning(s: State)
    requires Expire(s).Did? && s.timer.callbacks == [EndsReview] && s.desk.exp.round < s.desk.config.nRounds
    ensures Expire(s).value.state.desk.exp.IsMarketOpen()
  {
    ExpireCalls(s, EndsReview);
  }

  lemma LooseExpiry(s: State, config: Configuration, expiries: nat)
    requires Staffed(s, config) && WellConfigured(config) && SubjectsOk(s) && LooseOk(s, config, expiries)
    ensures Expire(s).Did?
    ensures Staffed(Expire(s).value.state, config) && LooseOk(Expire(s).value.state, config, expiries + 1)
    ensures Timeline(Expire(s).value.out) == MarksOfExpiry(config, expiries)
    ensures Expire(s).value.state.desk.exp.IsMarketOpen() <==> DueStage(config, expiries + 1) == Round
  {
    hide Expire;
    var due := Restaged(s, DueStage(config, expiries));
    ExpiryStep(due, config, expiries);
    ExpiryIgnoresStage(s, DueStage(config, expiries));
    var s' := Expire(s).value.state;
    assert Restaged(s', s'.desk.exp.stage) == s';
    if DueStage(config, expiries + 1) == Round {
      OpensRunning(s);
    }
  }

  lemma LooseMarket(w: World, e: Event, config: Configuration, expiries: nat)
    requires Sound(w) && Possible(w, e) && (e.Submit? || e.Create? || e.Retract?)
    requires Staffed(w.state, config) && WellConfigured(config) && LooseOk(w.state, config, expiries)
    ensures Handle(w, e).Did? && SamePeriod(w.state, Handle(w, e).value.state)
    ensures Timeline(Handle(w, e).value.out) == []
  {
    if e.Submit? {
      SubmitStep(w, e);
    } else if e.Retract? {
      RetractStep(w, e);
    } else if w.state.desk.exp.stage.Round? {
      assert Restaged(w.state, Round) == w.state;
      CreateStep(w, e, config, expiries);
    } else {
      ClosedCreate(w, e);
    }
    SoundCallbacks(w);
    hide Handle, Sound, SamePeriod;
    OtherIsQuiet(w, e);
  }

  lemma ClosedCreate(w: World, e: Event)
    requires Possible(w, e) && e.Create? && !w.state.desk.exp.stage.Round?
    ensures Handle(w, e).Did? && SamePeriod(w.state, Handle(w, e).value.state)
  {
  }

  lemma SameLoosePhase(s: State, s': State, config: Configuration, expiries: nat)
    requires Staffed(s, config) && LooseOk(s, config, expiries) && SamePeriod(s, s')
    ensures Staffed(s', config) && LooseOk(s', config, expiries)
  {
  }

  lemma LooseEnd(s: State, config: Configuration, expiries: nat)
    requires Staffed(s, config) && WellConfigured(config) && LooseOk(s, config, expiries)
    ensures StartPayouts(s).Did? && StartPayouts(s).value.out == [Envelope(All, PayoutsStarted)]
    ensures Staffed(StartPayouts(s).value.state, config) && LooseOk(StartPayouts(s).value.state, config, expiries)
  {
    var due := DueStage(config, expiries);
    assert Restaged(StartPayouts(s).value.state, due) == Restaged(s, due).(counter := 0);
  }

  lemma LooseOther(w: World, e: Event, config: Configuration, expiries: nat)
    requires Possible(w, e) && Orderly(w.state, e)
    requires !e.Submit? && !e.Create? && !e.Retract? && !e.TimerExpires?
    requires Staffed(w.state, config) && WellConfigured(config) && LooseOk(w.state, config, expiries)
    ensures Handle(w, e).Did?
    ensures Staffed(Handle(w, e).value.state, config) && LooseOk(Handle(w, e).value.state, config, expiries)
    ensures Timeline(Handle(w, e).value.out) == []
  {
    TimelineQuiet(Handle(w, e).value.out);
  }

  /** A list of marks without the announcements of the payouts. */
  function Core(marks: seq<Mark>): seq<Mark> {
    if marks == [] then []
    else Core(marks[..|marks| - 1]) + if marks[|marks| - 1].PayoutsBegan? then [] else [marks[|marks| - 1]]
  }

  lemma {:induction false} CoreConcat(a: seq<Mark>, b: seq<Mark>)
    ensures Core(a + b) == Core(a) + Core(b)
  {
    if b == [] {
      assert a + b == a;
    } else {
      var n := |b| - 1;
      assert (a + b)[..|a + b| - 1] == a + b[..n];
      CoreConcat(a, b[..n]);
      Associative(Core(a), Core(b[..n]), if b[n].PayoutsBegan? then [] else [b[n]]);
    }
  }

  lemma EndTimeline(x: Envelope)
    requires x.msg.PayoutsStarted?
    ensures Core(Timeline([x])) == []
  {
    TimelineOne(x);
    assert [PayoutsBegan][..0] == [];
  }

  lemma LooseStep(w: World, e: Event, config: Configuration, expiries: nat)
    requires Sound(w) && Possible(w, e) && OrderlyOrEarly(w.state, e)
    requires Staffed(w.state, config) && WellConfigured(config) && LooseOk(w.state, config, expiries)
    ensures Handle(w, e).Did?
    ensures var after, r := (if e.TimerExpires? then expiries + 1 else expiries), Handle(w, e).value;
            && Staffed(r.state, config) && LooseOk(r.state, config, after)
            && Core(Timeline(r.out)) == Core(if e.TimerExpires? then MarksOfExpiry(config, expiries) else [])
            && (e.TimerExpires? ==> (r.state.desk.exp.IsMarketOpen() <==> DueStage(config, after) == Round))
  {
    hide LooseOk, Expire;
    if e.TimerExpires? {
      LooseExpiry(w.state, config, expiries);
    } else if e.EndEarly? {
      LooseEnd(w.state, config, expiries);
      EndTimeline(Envelope(All, PayoutsStarted));
    } else if e.Submit? || e.Create? || e.Retract? {
      LooseMarket(w, e, config, expiries);
      SameLoosePhase(w.state, Handle(w, e).value.state, config, expiries);
    } else {
      LooseOther(w, e, config, expiries);
    }
  }

  // ---- Whole runs ----------------------------------------------------------

  ghost predicate OnLooseCourse(ws: seq<World>, k: nat, j: nat, expiries: nat)
    requires k < j < |ws|
  {
    var config := ws[k].state.desk.config;
    && WellConfigured(config)
    && Staffed(ws[j].state, config) && LooseOk(ws[j].state, config, expiries)
    && |ws[k].log| <= |ws[j].log|
    && Core(Timeline(Since(ws[k], ws[j]))) == Core(Course(config, expiries))
  }

  lemma LooseCourseStep(ws: seq<World>, es: seq<Event>, k: nat, j: nat, expiries: nat)
    requires IsRun(ws, es) && k < j < |es|
    requires OnLooseCourse(ws, k, j, expiries) && OrderlyOrEarly(ws[j].state, es[j])
    ensures OnLooseCourse(ws, k, j + 1, if es[j].TimerExpires? then expiries + 1 else expiries)
    ensures es[j].TimerExpires? ==>
              (ws[j + 1].state.desk.exp.IsMarketOpen()
               <==> DueStage(ws[k].state.desk.config, expiries + 1) == Round)
  {
    var config, w, e := ws[k].state.desk.config, ws[j], es[j];
    RunStep(ws, es, j);
    LooseStep(w, e, config, expiries);
    hide LooseOk, Staffed, Sound, Handle, OrderlyOrEarly, Core, WellConfigured;
    SinceGrows(ws[k], w, e, ws[j + 1]);
    TimelineConcat(Since(ws[k], w), Handle(w, e).value.out);
    CoreConcat(Timeline(Since(ws[k], w)), Timeline(Handle(w, e).value.out));
    CourseStep(config, expiries, e);
    CoreConcat(Course(config, expiries), if e.TimerExpires? then MarksOfExpiry(config, expiries) else []);
  }

  lemma LooseCourseStart(ws: seq<World>, es: seq<Event>, k: nat)
    requires IsRun(ws, es) && k < |es| && OrderlyStart(ws[k], es[k])
    ensures OnLooseCourse(ws, k, k + 1, 0)
  {
    OnCourseStart(ws, es, k);
    assert Restaged(ws[k + 1].state, Round) == ws[k + 1].state;
    hide Course, Timeline;
    LogsExtend(ws, es, k, k + 1);
  }

  /**
   * Early ends change nothing but the stage, until the next expiry. In a run
   * that is orderly but for any number of them, the rounds, the dividends and
   * the reviews announced are still exactly those the configuration sets for
   * the number of expiries.
   */
  lemma {:induction false} EarlyEndsStopNothing(ws: seq<World>, es: seq<Event>, k: nat, j: nat)
    requires IsRun(ws, es) && k < j < |ws| && OrderlyStart(ws[k], es[k]) && OrderlyButEarly(ws, es, k, j)
    ensures OnLooseCourse(ws, k, j, Expiries(es, k + 1, j))
  {
    hide OnLooseCourse, OrderlyOrEarly, OrderlyStart;
    if j == k + 1 {
      LooseCourseStart(ws, es, k);
    } else {
      EarlyEndsStopNothing(ws, es, k, j - 1);
      LooseCourseStep(ws, es, k, j - 1, Expiries(es, k + 1, j - 1));
    }
  }

  /** In such a run, right after an expiry, the market is open exactly when a round is due. */
  lemma OpenAfterExpiryIff(ws: seq<World>, es: seq<Event>, k: nat, j: nat)
    requires IsRun(ws, es) && k + 1 < j < |ws| && OrderlyStart(ws[k], es[k]) && OrderlyButEarly(ws, es, k, j)
    requires es[j - 1].TimerExpires?
    ensures ws[j].state.desk.exp.IsMarketOpen()
       <==> DueStage(ws[k].state.desk.config, Expiries(es, k + 1, j)) == Round
  {
    hide OnLooseCourse, OrderlyOrEarly, OrderlyStart;
    EarlyEndsStopNothing(ws, es, k, j - 1);
    LooseCourseStep(ws, es, k, j - 1, Expiries(es, k + 1, j - 1));
  }

  lemma {:induction false} ExpiriesSplit(es: seq<Event>, a: nat, b: nat, c: nat)
    requires a <= b <= c <= |es|
    ensures Expiries(es, a, c) == Expiries(es, a, b) + Expiries(es, b, c)
  {
    if b < c {
      ExpiriesSplit(es, a, b, c - 1);
    }
  }

  /** A round on course is the one the expiries call for, so another is due two expiries on if it is not the last. */
  lemma RoundByExpiries(ws: seq<World>, k: nat, i: nat, expiries: nat)
    requires k < i < |ws| && OnLooseCourse(ws, k, i, expiries) && ws[i].state.desk.exp.stage.Round?
    ensures DueStage(ws[k].state.desk.config, expiries + 2) == Round
       <==> ws[i].state.desk.exp.round < ws[k].state.desk.config.nRounds
  {
    hide Core, Timeline, Course, Staffed, WellConfigured;
  }

  /**
   * End the experiment early in a round, in a run orderly but for early ends.
   * Whatever comes in between, the second expiry after it finds the market
   * open again exactly when the round was not the last.
   */
  lemma EarlyEndReopensIff(ws: seq<World>, es: seq<Event>, k: nat, i: nat, j: nat)
    requires IsRun(ws, es) && k < i < j < |ws| && OrderlyStart(ws[k], es[k]) && OrderlyButEarly(ws, es, k, j)
    requires es[i].EndEarly? && ws[i].state.desk.exp.stage.Round?
    requires es[j - 1].TimerExpires? && Expiries(es, i, j) == 2
    ensures ws[j].state.desk.exp.IsMarketOpen() <==> ws[i].state.desk.exp.round < ws[k].state.desk.config.nRounds
  {
    hide OnLooseCourse, OrderlyOrEarly, OrderlyStart;
    EarlyEndsStopNothing(ws, es, k, i);
    RoundByExpiries(ws, k, i, Expiries(es, k + 1, i));
    ExpiriesSplit(es, k + 1, i, j);
    OpenAfterExpiryIff(ws, es, k, j);
  }
}
