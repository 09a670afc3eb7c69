/** When an experiment or its instructions can start, in terms of what was sent before, and what a start hands out. */
module Starts {
  import opened Portfolios
  import opened Experiments
  import opened OfferProcessing
  import opened Servers
  import opened Ledgers
  import opened Reachable
  import opened Conservation
  import opened CreationVerdicts

  // ---- The history behind a verdict ------------------------------------------

  /** Announcements after which an experiment counts as started. */
  predicate Begins(m: Message) {
    m.RoundStarted? || m.ExperimentPaused? || m.ExperimentResumed? || m.ExperimentEnded?
  }

  ghost predicate Begun(log: seq<Envelope>) {
    exists x :: x in log && Begins(x.msg)
  }

  /** The configuration after the first `j` events: the last one loaded, or the one the server came with. */
  function ConfigAfter(first: Configuration, es: seq<Event>, j: nat): Configuration
    requires j <= |es|
  {
    if j == 0 then first
    else if es[j - 1].Load? && es[j - 1].read.Loaded? then es[j - 1].read.config
    else ConfigAfter(first, es, j - 1)
  }

  function JoinsIn(es: seq<Event>, j: nat): nat
    requires j <= |es|
  {
    if j == 0 then 0 else JoinsIn(es, j - 1) + if es[j - 1].Join? then 1 else 0
  }

  lemma {:induction false} ConfigIsLastLoaded(ws: seq<World>, es: seq<Event>, j: nat)
    requires IsRun(ws, es) && j < |ws|
    ensures ws[j].state.desk.config == ConfigAfter(ws[0].state.desk.config, es, j)
  {
    hide Next, Handle, Sound;
    if j > 0 {
      ConfigIsLastLoaded(ws, es, j - 1);
      RunStep(ws, es, j - 1);
      ConfigMoves(ws[j - 1], es[j - 1], ws[j]);
    }
  }

  lemma SubjectsMove(w: World, e: Event, w': World)
    requires Sound(w) && Next(w, e, w')
    ensures |w'.state.subjects| == |w.state.subjects| + if e.Join? then 1 else 0
  {
    hide PossibleSort, TradeNotices, Judge, Settle;
    if e.TimerExpires? && w.state.timer.callbacks != [] {
      hide Expire;
      ExpireCalls(w.state, w.state.timer.callbacks[0]);
    }
  }

  lemma {:induction false} SubjectsAreJoins(ws: seq<World>, es: seq<Event>, j: nat)
    requires IsRun(ws, es) && j < |ws|
    ensures |ws[j].state.subjects| == JoinsIn(es, j)
  {
    hide Next, Handle, Sound;
    if j > 0 {
      SubjectsAreJoins(ws, es, j - 1);
      RunStep(ws, es, j - 1);
      SubjectsMove(ws[j - 1], es[j - 1], ws[j]);
    } else {
      FreshServer(ws, es);
    }
  }

  lemma FreshServer(ws: seq<World>, es: seq<Event>)
    requires IsRun(ws, es)
    ensures ws[0].state.subjects == [] && ws[0].log == [] && ws[0].state.desk.exp.status.NotStarted?
  {
  }

  // ---- What begins an experiment ---------------------------------------------

  lemma StartBegins(s: State)
    requires StartExperiment(s).Did? && s.desk.exp.status.NotStarted?
    ensures StartExperiment(s).value.state.desk.exp.status.NotStarted? <==> !Begun(StartExperiment(s).value.out)
  {
    hide Allocate, SendOpening;
    var out := StartExperiment(s).value.out;
    if StartVerdict(s).Accepted? {
      assert out[|out| - 1].msg.RoundStarted?;
    }
  }

  lemma NameBegins(s: State, id: nat, name: string)
    requires s.Knows(id) && s.desk.exp.status.NotStarted?
    ensures TakeName(s, id, name).state.desk.exp.status.NotStarted? <==> !Begun(TakeName(s, id, name).out)
  {
    var r := TakeName(s, id, name);
    if r.state.counter == |s.subjects| {
      assert r.out[1].msg.ExperimentEnded?;
    }
  }

  lemma PauseBegins(w: World, e: Event)
    requires Possible(w, e) && (e.RequestPause? || e.RequestResume?)
    ensures Handle(w, e).Did? && !Handle(w, e).value.state.desk.exp.status.NotStarted?
    ensures Begun(Handle(w, e).value.out)
  {
    var x := Handle(w, e).value.out[0];
    assert x in Handle(w, e).value.out && Begins(x.msg);
  }

  /** Nothing else does: neither the instructions, nor joining, loading, an early end or a message of the market. */
  lemma OthersBegin(w: World, e: Event)
    requires Sound(w) && Possible(w, e) && Handle(w, e).Did? && w.state.desk.exp.status.NotStarted?
    requires !e.RequestStart? && !e.Name? && !e.RequestPause? && !e.RequestResume?
    ensures Handle(w, e).value.state.desk.exp.status.NotStarted?
  {
    hide PossibleSort, TradeNotices, Judge, Settle, SendSettings;
  }

  lemma OthersAnnounceNoBeginning(w: World, e: Event)
    requires Sound(w) && Possible(w, e) && Handle(w, e).Did? && w.state.desk.exp.status.NotStarted?
    requires !e.RequestStart? && !e.Name? && !e.RequestPause? && !e.RequestResume?
    ensures !Begun(Handle(w, e).value.out)
  {
    hide Handle;
    SoundCallbacks(w);
    ReplyFits(w, e);
  }

  lemma BeginsByStep(w: World, e: Event, w': World)
    requires Sound(w) && Next(w, e, w') && w.state.desk.exp.status.NotStarted?
    ensures w'.state.desk.exp.status.NotStarted? <==> !Begun(Handle(w, e).value.out)
  {
    hide Next, Sound, StartExperiment, TakeName, Begun;
    NextGives(w, e, w');
    match e {
      case RequestStart => StartBegins(w.state);
      case Name(p, name) => NameBegins(w.state, p, name);
      case RequestPause => PauseBegins(w, e);
      case RequestResume => PauseBegins(w, e);
      case _ =>
        OthersBegin(w, e);
        OthersAnnounceNoBeginning(w, e);
    }
  }

  lemma BegunGrows(a: seq<Envelope>, b: seq<Envelope>)
    ensures Begun(a + b) <==> Begun(a) || Begun(b)
  {
    forall x | x in a || x in b
      ensures x in a + b
    {
    }
  }

  /**
   * In every state of every run, the experiment counts as not started exactly
   * if no round, pause, resumption or end has been announced.
   */
  lemma {:induction false} NotStartedIff(ws: seq<World>, es: seq<Event>, j: nat)
    requires IsRun(ws, es) && j < |ws|
    ensures ws[j].state.desk.exp.status.NotStarted? <==> !Begun(ws[j].log)
  {
    hide Next, Handle, Sound, Begun;
    if j > 0 {
      NotStartedIff(ws, es, j - 1);
      RunStep(ws, es, j - 1);
      NextGives(ws[j - 1], es[j - 1], ws[j]);
      BegunGrows(ws[j - 1].log, Handle(ws[j - 1], es[j - 1]).value.out);
      if ws[j - 1].state.desk.exp.status.NotStarted? {
        BeginsByStep(ws[j - 1], es[j - 1], ws[j]);
      } else {
        StaysStarted(ws[j - 1], es[j - 1], ws[j]);
      }
    } else {
      FreshServer(ws, es);
      NothingBegun([]);
    }
  }

  lemma NothingBegun(log: seq<Envelope>)
    requires log == []
    ensures !Begun(log)
  {
  }

  // ---- Verdicts ------------------------------------------------------------------

  /** What a verdict on a start says of the messages sent, the players configured and the subjects joined before it. */
  ghost predicate StartMeans(v: StartValidity, log: seq<Envelope>, players: nat, joined: nat) {
    match v
    case RejectedAlreadyStarted => Begun(log)
    case RejectedNoConfig => !Begun(log) && players == 0
    case RejectedIncorrectPlayersCount => !Begun(log) && players > 0 && players != joined
    case Accepted => !Begun(log) && players > 0 && players == joined
  }

  /** The reply to a start, or to a request for instructions, first tells the administrators the verdict. */
  ghost predicate ToldVerdict(w: World, e: Event, w': World, v: StartValidity) {
    && |w.log| < |w'.log| && w'.log[..|w.log|] == w.log
    && w'.log[|w.log|] == Envelope(Admins, if e.RequestStart? then ExperimentStarted(v) else InstructionsRequested(v))
    && (!v.Accepted? ==> w'.state == w.state && |w'.log| == |w.log| + 1)
    && (v.Accepted? ==> w'.state.desk.exp.stage == if e.RequestStart? then Round else Instructions)
  }

  lemma VerdictTold(w: World, e: Event, w': World)
    requires Next(w, e, w') && (e.RequestStart? || e.RequestInstructions?)
    ensures ToldVerdict(w, e, w', StartVerdict(w.state))
  {
    hide Allocate, SendOpening, SendSettings, StartVerdict;
  }

  /**
   * In every run, a start or a request for instructions is accepted exactly if
   * no round, pause, resumption or end has been announced yet, and the
   * configuration last loaded is for at least one player and for as many as
   * have joined; each refusal has the first reason that applies. What came
   * before in the way of instructions, readiness or early ends does not matter.
   */
  lemma StartAnswered(ws: seq<World>, es: seq<Event>, i: nat, v: StartValidity)
    requires IsRun(ws, es) && i < |es| && (es[i].RequestStart? || es[i].RequestInstructions?)
    ensures StartMeans(v, ws[i].log, ConfigAfter(ws[0].state.desk.config, es, i).nPlayers, JoinsIn(es, i))
       <==> ToldVerdict(ws[i], es[i], ws[i + 1], v)
  {
    hide Next, Handle, Sound, Begun;
    RunStep(ws, es, i);
    VerdictTold(ws[i], es[i], ws[i + 1]);
    VerdictByHistory(ws, es, i, v);
  }

  lemma VerdictByHistory(ws: seq<World>, es: seq<Event>, i: nat, v: StartValidity)
    requires IsRun(ws, es) && i < |ws|
    ensures StartMeans(v, ws[i].log, ConfigAfter(ws[0].state.desk.config, es, i).nPlayers, JoinsIn(es, i))
       <==> StartVerdict(ws[i].state) == v
  {
    hide Begun, IsRun;
    NotStartedIff(ws, es, i);
    ConfigIsLastLoaded(ws, es, i);
    SubjectsAreJoins(ws, es, i);
  }

  // ---- What a start hands out ------------------------------------------------------

  /** The settings sent to one subject, in order. */
  function SettingsTo(log: seq<Envelope>, id: nat): seq<SubjectConfiguration> {
    if log == [] then []
    else
      var x := log[|log| - 1];
      SettingsTo(log[..|log| - 1], id) + if x.to == Only(id) && x.msg.SubjectSettings? then [x.msg.conf] else []
  }

  lemma {:induction false} SettingsConcat(a: seq<Envelope>, b: seq<Envelope>, id: nat)
    ensures SettingsTo(a + b, id) == SettingsTo(a, id) + SettingsTo(b, id)
  {
    if b == [] {
      assert a + b == a;
    } else {
      assert (a + b)[..|a + b| - 1] == a + b[..|b| - 1];
      SettingsConcat(a, b[..|b| - 1], id);
    }
  }

  lemma {:induction false} SettingsQuiet(log: seq<Envelope>, id: nat)
    requires forall x | x in log :: !x.msg.SubjectSettings?
    ensures SettingsTo(log, id) == []
  {
    if log != [] {
      SettingsQuiet(log[..|log| - 1], id);
    }
  }

  lemma SettingsSnoc(log: seq<Envelope>, x: Envelope, id: nat)
    ensures SettingsTo(log + [x], id)
         == SettingsTo(log, id) + if x.to == Only(id) && x.msg.SubjectSettings? then [x.msg.conf] else []
  {
    assert (log + [x])[..|log|] == log;
  }

  /** Settings for each of the first `n` subjects: its own, once. */
  lemma {:induction false} SettingsSent(config: Configuration, n: nat, id: nat)
    requires SendSettings(config, n).Did?
    ensures SettingsTo(SendSettings(config, n).value, id)
         == if id < n && id in config.subConfigs then [config.subConfigs[id]] else []
  {
    if n > 0 {
      SettingsSent(config, n - 1, id);
    }
  }

  lemma {:induction false} SettingsOpened(config: Configuration, folios: Folios, n: nat, id: nat)
    requires SendOpening(config, folios, n).Did?
    ensures SettingsTo(SendOpening(config, folios, n).value, id)
         == if id < n && id in config.subConfigs then [config.subConfigs[id]] else []
  {
    if n > 0 {
      SettingsOpened(config, folios, n - 1, id);
      var sent := SendOpening(config, folios, n - 1).value;
      var own := Envelope(Only(n - 1), SubjectSettings(config.subConfigs[n - 1]));
      var port := Envelope(Only(n - 1), PortfolioUpdate(n - 1, folios[n - 1]));
      assert SendOpening(config, folios, n).value == (sent + [own]) + [port];
      hide SettingsTo, SendOpening;
      SettingsSnoc(sent + [own], port, id);
      SettingsSnoc(sent, own, id);
    }
  }

  lemma StartSettings(s: State, id: nat)
    requires StartExperiment(s).Did?
    ensures StartVerdict(s).Accepted? && id < |s.subjects| ==> id in s.desk.config.subConfigs
    ensures SettingsTo(StartExperiment(s).value.out, id)
         == if StartVerdict(s).Accepted? && id < |s.subjects| then [s.desk.config.subConfigs[id]] else []
  {
    hide SendOpening, Allocate, SettingsTo, StartVerdict;
    var told := [Envelope(Admins, ExperimentStarted(StartVerdict(s)))];
    SettingsQuiet(told, id);
    if StartVerdict(s).Accepted? {
      var folios := Allocate(s.desk.config, s.desk.folios, |s.subjects|).value;
      var sent := SendOpening(s.desk.config, folios, |s.subjects|).value;
      var rest := StartExperiment(s).value.out[|told + sent|..];
      OpeningIsPersonal(s.desk.config, folios, |s.subjects|);
      SettingsOpened(s.desk.config, folios, |s.subjects|, id);
      SettingsQuiet(rest, id);
      SettingsConcat(told, sent, id);
      SettingsConcat(told + sent, rest, id);
    }
  }

  lemma InstructionSettings(s: State, id: nat)
    requires StartInstructions(s).Did?
    ensures StartVerdict(s).Accepted? && id < |s.subjects| ==> id in s.desk.config.subConfigs
    ensures SettingsTo(StartInstructions(s).value.out, id)
         == if StartVerdict(s).Accepted? && id < |s.subjects| then [s.desk.config.subConfigs[id]] else []
  {
    hide SendSettings, SettingsTo, StartVerdict;
    var told := [Envelope(Admins, InstructionsRequested(StartVerdict(s)))];
    SettingsQuiet(told, id);
    if StartVerdict(s).Accepted? {
      var sent := SendSettings(s.desk.config, |s.subjects|).value;
      var rest := [Envelope(All, InstructionsStarted)];
      SettingsArePersonal(s.desk.config, |s.subjects|);
      SettingsSent(s.desk.config, |s.subjects|, id);
      SettingsQuiet(rest, id);
      SettingsConcat(told, sent, id);
      SettingsConcat(told + sent, rest, id);
    }
  }

  /** A start or a request for instructions that reaches this subject. */
  predicate Sends(s: State, e: Event, id: nat) {
    (e.RequestStart? || e.RequestInstructions?) && StartVerdict(s).Accepted? && id < |s.subjects|
  }

  lemma StepSettings(w: World, e: Event, w': World, id: nat)
    requires Sound(w) && Next(w, e, w')
    ensures Sends(w.state, e, id) ==> id in w.state.desk.config.subConfigs
    ensures SettingsTo(Handle(w, e).value.out, id)
         == if Sends(w.state, e, id) then [w.state.desk.config.subConfigs[id]] else []
  {
    hide Next, Sound, StartExperiment, StartInstructions, SettingsTo, StartVerdict;
    NextGives(w, e, w');
    if e.RequestStart? {
      StartSettings(w.state, id);
    } else if e.RequestInstructions? {
      InstructionSettings(w.state, id);
    } else {
      OthersSendNoSettings(w, e);
      SettingsQuiet(Handle(w, e).value.out, id);
    }
  }

  lemma OthersSendNoSettings(w: World, e: Event)
    requires Sound(w) && Possible(w, e) && Handle(w, e).Did? && !e.RequestStart? && !e.RequestInstructions?
    ensures forall x | x in Handle(w, e).value.out :: !x.msg.SubjectSettings?
  {
    hide Handle;
    SoundCallbacks(w);
    ReplyFits(w, e);
  }

  /**
   * In every run, every accepted start and every accepted request for
   * instructions sends each subject its own settings, once, from the
   * configuration last loaded, and no other step sends anybody settings.
   */
  lemma EachGetsItsOwnSettings(ws: seq<World>, es: seq<Event>, i: nat, id: nat)
    requires IsRun(ws, es) && i < |es|
    ensures Possible(ws[i], es[i]) && Handle(ws[i], es[i]).Did?
    ensures var config, joined := ConfigAfter(ws[0].state.desk.config, es, i), JoinsIn(es, i);
            var sends := && (es[i].RequestStart? || es[i].RequestInstructions?)
                         && StartMeans(StartValidity.Accepted, ws[i].log, config.nPlayers, joined) && id < joined;
            && (sends ==> id in config.subConfigs)
            && SettingsTo(Handle(ws[i], es[i]).value.out, id) == if sends then [config.subConfigs[id]] else []
  {
    hide Next, Handle, Sound, Begun, SettingsTo, StartMeans, StartVerdict;
    RunStep(ws, es, i);
    StepSettings(ws[i], es[i], ws[i + 1], id);
    VerdictByHistory(ws, es, i, StartValidity.Accepted);
    ConfigIsLastLoaded(ws, es, i);
    SubjectsAreJoins(ws, es, i);
  }
}
