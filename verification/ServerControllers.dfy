/** The two controllers that take the server's events, each one atomic step that sends what the state machine sends. */
module ServerControllers {
  import opened Values
  import opened Experiments
  import opened Servers
  import opened Clocks
  import opened Ledgers
  import opened Controllers

  class ExperimentController {
    const serv: Outbox
    const proc: ExperimentCommandProcessor

    constructor (serv: Outbox, proc: ExperimentCommandProcessor)
      requires proc.Valid()
      ensures Valid() && this.serv == serv && this.proc == proc
    {
      this.serv, this.proc := serv, proc;
    }

    ghost predicate Valid() {
      proc.Valid()
    }

    ghost function Footprint(): set<object> {
      proc.Footprint() + {serv}
    }

    function Face(): Face
      reads proc.timer, serv
    {
      Clocks.Face(proc.timer.works, serv.times)
    }

    /** The method has thrown just when the step does; otherwise it has left and sent what the step does. */
    twostate predicate Took(step: Attempt<Reply>, new done: Attempt<()>)
      reads Footprint()
    {
      && (done.Threw? <==> step.Threw?)
      && (done.Did? ==> proc.View() == step.value.state && serv.sent == old(serv.sent) + step.value.out)
    }

    method StartRound(now: int) returns (done: Attempt<()>)
      requires Valid()
      modifies Footprint()
      ensures Took(Servers.StartRound(old(proc.View())), done)
      ensures done.Did? ==> Face() == old(Face()).Arm(old(proc.config.value).roundTime, now)
    {
      proc.ProcessStartRound(now);
      proc.timer.Register(EndsRound);
      var conf := proc.config.value.GetRoundConfiguration(proc.exp.expState.value.round);
      if conf.Threw? {
        return Threw;
      }
      serv.SendAll(RoundStarted(conf.value));
      serv.SendTime(proc.timer.works.Remaining(now));
      return Did(());
    }

    method StartReview(now: int)
      requires Valid()
      modifies Footprint()
      ensures proc.View() == Servers.StartReview(old(proc.View())).state
      ensures serv.sent == old(serv.sent) + Servers.StartReview(old(proc.View())).out
      ensures Face() == old(Face()).Arm(old(proc.config.value).reviewTime, now)
    {
      proc.ProcessStartReview(now);
      proc.timer.Register(EndsReview);
      serv.SendAll(ReviewStarted);
      serv.SendTime(proc.timer.works.Remaining(now));
    }

    /** Each subject is sent its own portfolio. */
    method SendEachPortfolio() returns (done: Attempt<()>)
      requires Valid()
      modifies serv`sent
      ensures var sent := SendPortfolios(proc.View().desk.folios, |proc.View().subjects|);
              && (done.Threw? <==> sent.Threw?)
              && (done.Did? ==> serv.sent == old(serv.sent) + sent.value)
    {
      var folios, n := proc.proc.portfolios.folios, |proc.exp.subjects|;
      for id := 0 to n
        invariant SendPortfolios(folios, id).Did?
        invariant serv.sent == old(serv.sent) + SendPortfolios(folios, id).value
      {
        if id !in folios {
          PortfoliosArePersonal(folios, n);
          return Threw;
        }
        serv.Send(id, PortfolioUpdate(id, folios[id]));
      }
      return Did(());
    }

    method StartDividends(now: int) returns (done: Attempt<()>)
      requires Valid()
      modifies Footprint()
      ensures Took(Servers.StartDividends(old(proc.View())), done)
      ensures done.Did? ==> Face() == old(Face()).Arm(old(proc.config.value).reviewTime, now)
    {
      hide Servers.PayDividend, SendPortfolios;
      var dividend := proc.ProcessStartDividends();
      if dividend.Threw? {
        return Threw;
      }
      serv.SendAll(DividendStarted(dividend.value));
      var sent := SendEachPortfolio();
      if sent.Threw? {
        return Threw;
      }
      StartReview(now);
      return Did(());
    }

    method EndRound(now: int) returns (done: Attempt<()>)
      requires Valid()
      modifies Footprint()
      ensures Took(Servers.EndRound(old(proc.View())), done)
      ensures done.Did? ==> Face() == AfterCall(old(proc.View()), old(Face()), EndsRound, now)
    {
      hide Servers.StartDividends;
      proc.ProcessEndRound();
      serv.SendAll(RoundEnded);
      done := StartDividends(now);
    }

    method StartPayouts() returns (done: Attempt<()>)
      requires Valid()
      modifies Footprint()
      ensures Took(Servers.StartPayouts(old(proc.View())), done)
      ensures Face() == old(Face())
    {
      done := proc.ProcessStartPayouts();
      if done.Threw? {
        return;
      }
      serv.SendAll(PayoutsStarted);
    }

    method EndReview(now: int) returns (done: Attempt<()>)
      requires Valid()
      modifies Footprint()
      ensures Took(Servers.EndReview(old(proc.View())), done)
      ensures done.Did? ==> Face() == AfterCall(old(proc.View()), old(Face()), EndsReview, now)
    {
      var another := proc.ProcessEndReview();
      serv.SendAll(ReviewEnded);
      if another {
        done := StartRound(now);
      } else {
        done := StartPayouts();
      }
    }

    /** The callbacks due, one after the other. */
    method RunCallbacks(due: seq<Callback>, now: int) returns (done: Attempt<()>)
      requires Valid()
      modifies Footprint()
      ensures Took(CallEach(old(proc.View()), due), done)
      ensures done.Did? ==> Face() == AfterCalls(old(proc.View()), old(Face()), due, now)
      decreases |due|
    {
      if due == [] {
        return Did(());
      }
      ghost var s, sent := proc.View(), serv.sent;
      match due[0] {
        case EndsRound => done := EndRound(now);
        case EndsReview => done := EndReview(now);
      }
      if done.Did? {
        ghost var first := Call(s, due[0]).value;
        assert proc.View() == first.state && serv.sent == sent + first.out;
        done := RunCallbacks(due[1..], now);
        if done.Did? {
          Regroup(sent, first.out, CallEach(first.state, due[1..]).value.out);
        }
      }
    }

    /** The timer's wait completed: it calls back whatever was registered when it did. */
    method TimerExpired(now: int) returns (done: Attempt<()>)
      requires Valid()
      modifies Footprint()
      ensures Took(Servers.Expire(old(proc.View())), done)
      ensures done.Did? ==> Face() == AfterExpiry(old(proc.View()), old(Face()), now)
    {
      var due := proc.timer.OnStop(false);
      done := RunCallbacks(due, now);
    }

    method StartExperiment(now: int) returns (done: Attempt<()>)
      requires Valid()
      modifies Footprint()
      ensures Took(Servers.StartExperiment(old(proc.View())), done)
      ensures done.Did? ==>
                Face() == if StartVerdict(old(proc.View())).Accepted? then
                            old(Face()).Arm(old(proc.config.value).roundTime, now)
                          else old(Face())
    {
      ghost var s := proc.View();
      hide Allocate, SendOpening, Servers.StartRound;
      var val := proc.ProcessStartExperiment();
      if val.Threw? {
        return Threw;
      }
      serv.SendAdmins(ExperimentStarted(val.value));
      if !val.value.Accepted? {
        return Did(());
      }
      var sent := SendEachOpening();
      if sent.Threw? {
        return Threw;
      }
      done := StartRound(now);
    }

    /** Each subject is sent its settings and its portfolio. */
    method SendEachOpening() returns (done: Attempt<()>)
      requires Valid()
      modifies serv`sent
      ensures var sent := SendOpening(proc.View().desk.config, proc.View().desk.folios, |proc.View().subjects|);
              && (done.Threw? <==> sent.Threw?)
              && (done.Did? ==> serv.sent == old(serv.sent) + sent.value)
    {
      var config, folios, n := proc.config.value, proc.proc.portfolios.folios, |proc.exp.subjects|;
      for id := 0 to n
        invariant SendOpening(config, folios, id).Did?
        invariant serv.sent == old(serv.sent) + SendOpening(config, folios, id).value
      {
        var conf := config.GetSubjectConfiguration(id);
        if conf.Threw? || id !in folios {
          OpeningIsPersonal(config, folios, n);
          return Threw;
        }
        serv.Send(id, SubjectSettings(conf.value));
        serv.Send(id, PortfolioUpdate(id, folios[id]));
      }
      return Did(());
    }

    /** Each subject is sent its settings. */
    method SendEachSettings() returns (done: Attempt<()>)
      requires Valid()
      modifies serv`sent
      ensures var sent := SendSettings(proc.View().desk.config, |proc.View().subjects|);
              && (done.Threw? <==> sent.Threw?)
              && (done.Did? ==> serv.sent == old(serv.sent) + sent.value)
    {
      var config, n := proc.config.value, |proc.exp.subjects|;
      for id := 0 to n
        invariant SendSettings(config, id).Did?
        invariant serv.sent == old(serv.sent) + SendSettings(config, id).value
      {
        var conf := config.GetSubjectConfiguration(id);
        if conf.Threw? {
          SettingsArePersonal(config, n);
          return Threw;
        }
        serv.Send(id, SubjectSettings(conf.value));
      }
      return Did(());
    }

    method StartInstructions() returns (done: Attempt<()>)
      requires Valid()
      modifies Footprint()
      ensures Took(Servers.StartInstructions(old(proc.View())), done)
      ensures Face() == old(Face())
    {
      var val := proc.ProcessStartInstructions();
      serv.SendAdmins(InstructionsRequested(val));
      if !val.Accepted? {
        return Did(());
      }
      done := SendEachSettings();
      if done.Did? {
        serv.SendAll(InstructionsStarted);
      }
    }

    method Ready(id: nat)
      requires Valid()
      modifies Footprint()
      ensures Took(Did(Servers.Ready(old(proc.View()), id)), Did(()))
      ensures Face() == old(Face())
    {
      var done := proc.ProcessReady();
      serv.SendAdmins(SubjectReady(id));
      if done {
        serv.SendAll(InstructionsEnded);
      }
    }

    method TakeName(id: nat, name: string)
      requires Valid() && proc.View().Knows(id)
      modifies Footprint()
      ensures Took(Did(Servers.TakeName(old(proc.View()), id, name)), Did(()))
      ensures Face() == old(Face())
    {
      var done := proc.ProcessTakeName(id, name);
      serv.Send(id, SubjectData(proc.exp.subjects[id]));
      if done {
        proc.exp.EndExperiment();
        serv.SendAll(ExperimentEnded);
      }
    }

    method Pause(now: int)
      requires Valid()
      modifies Footprint()
      ensures proc.View() == WithExp(old(proc.View()), old(proc.View()).desk.exp.(status := Status.Paused)).(
                               timer := Servers.Pause(old(proc.View()).timer))
      ensures serv.sent == old(serv.sent) + [Envelope(All, ExperimentPaused)]
      ensures Face() == old(Face()).(works := old(proc.timer.works).Pause(now))
    {
      proc.ProcessPause(now);
      serv.SendAll(ExperimentPaused);
    }

    method Resume(now: int)
      requires Valid()
      modifies Footprint()
      ensures proc.View() == WithExp(old(proc.View()), old(proc.View()).desk.exp.(status := Status.Running)).(
                               timer := Servers.Start(old(proc.View()).timer))
      ensures serv.sent == old(serv.sent) + [Envelope(All, ExperimentResumed)]
      ensures Face() == old(Face()).(works := old(proc.timer.works).Start(now))
    {
      proc.ProcessResume(now);
      serv.SendAll(ExperimentResumed);
    }

    method LoadConfiguration(read: Reading)
      requires Valid()
      modifies Footprint()
      ensures var s := old(proc.View());
              proc.View() == if read.Loaded? then s.(desk := s.desk.(config := read.config)) else s
      ensures serv.sent == old(serv.sent) + [Envelope(Admins, ConfigurationLoaded(ResultOfReading(read)))]
      ensures Face() == old(Face())
    {
      if read.Loaded? {
        proc.exp.SetConfiguration(read.config);
      }
      serv.SendAdmins(ConfigurationLoaded(ResultOfReading(read)));
    }
  }

  lemma Regroup(a: seq<Envelope>, b: seq<Envelope>, c: seq<Envelope>)
    ensures (a + b) + c == a + (b + c)
  {
  }
}
