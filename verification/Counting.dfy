/** The counter that names and readiness share, over whole runs. */
module Counting {
  import opened OfferProcessing
  import opened Servers
  import opened Ledgers
  import opened Reachable

  /** The instructions or the payouts begin. */
  ghost predicate Resets(out: seq<Envelope>) {
    exists x :: x in out && (x.msg.PayoutsStarted? || x.msg.InstructionsStarted?)
  }

  ghost predicate EndsExperiment(out: seq<Envelope>) {
    Envelope(All, ExperimentEnded) in out
  }

  ghost predicate EndsInstructions(out: seq<Envelope>) {
    Envelope(All, InstructionsEnded) in out
  }

  predicate Counts(e: Event) {
    e.Name? || e.GetReady?
  }

  /** The names and the readiness messages since the instructions or the payouts last began. */
  ghost function CountedSince(ws: seq<World>, es: seq<Event>, j: nat): nat
    requires IsRun(ws, es) && j < |ws|
  {
    if j == 0 then 0
    else if Counts(es[j - 1]) then CountedSince(ws, es, j - 1) + 1
    else
      assert StepAt(ws, es, j - 1);
      if Resets(Handle(ws[j - 1], es[j - 1]).value.out) then 0 else CountedSince(ws, es, j - 1)
  }

  ghost predicate Quiet(out: seq<Envelope>) {
    forall x | x in out ::
      !x.msg.PayoutsStarted? && !x.msg.InstructionsStarted? && !x.msg.ExperimentEnded? && !x.msg.InstructionsEnded?
  }

  lemma PayoutsStep(s: State)
    requires StartPayouts(s).Did?
    ensures StartPayouts(s).value.state.counter == 0 && StartPayouts(s).value.out == [Envelope(All, PayoutsStarted)]
  {
  }

  lemma ExpireStep(s: State)
    requires Expire(s).Did?
            && (s.timer.callbacks == [] || s.timer.callbacks == [EndsRound] || s.timer.callbacks == [EndsReview])
    ensures var r := Expire(s).value;
            && r.state.counter == (if Resets(r.out) then 0 else s.counter)
            && !EndsExperiment(r.out) && !EndsInstructions(r.out)
  {
    var stopped := s.(timer := s.timer.(state := TimerState.Ended));
    if s.timer.callbacks == [EndsRound] {
      hide Expire, EndRound;
      ExpireCalls(s, EndsRound);
      EndRoundReply(stopped);
      RoundEndFits(stopped);
      assert Quiet(Expire(s).value.out);
    } else if s.timer.callbacks == [EndsReview] {
      hide Expire, EndReview;
      ExpireCalls(s, EndsReview);
      ReviewStep(stopped);
    }
  }

  lemma ReviewStep(s: State)
    requires EndReview(s).Did?
    ensures var r := EndReview(s).value;
            && r.state.counter == (if Resets(r.out) then 0 else s.counter)
            && !EndsExperiment(r.out) && !EndsInstructions(r.out)
  {
    if s.desk.exp.round >= s.desk.config.nRounds {
      PayoutsStep(s);
      assert EndReview(s).value.out[1] == Envelope(All, PayoutsStarted);
    }
  }

  lemma InstructionsStep(s: State)
    requires StartInstructions(s).Did?
    ensures var r := StartInstructions(s).value;
            && r.state.counter == (if Resets(r.out) then 0 else s.counter)
            && !EndsExperiment(r.out) && !EndsInstructions(r.out)
  {
    SettingsArePersonal(s.desk.config, |s.subjects|);
    var out := StartInstructions(s).value.out;
    if StartVerdict(s).Accepted? {
      assert out[|out| - 1] == Envelope(All, InstructionsStarted);
    }
  }

  lemma StartKeepsCount(s: State)
    requires StartExperiment(s).Did?
    ensures StartExperiment(s).value.state.counter == s.counter && Quiet(StartExperiment(s).value.out)
  {
    if StartVerdict(s).Accepted? {
      OpeningIsPersonal(s.desk.config, Allocate(s.desk.config, s.desk.folios, |s.subjects|).value, |s.subjects|);
    }
  }

  lemma OthersStep(w: World, e: Event, w': World)
    requires Next(w, e, w') && AtMostOneCallback(w.state) && !Counts(e)
    requires !e.TimerExpires? && !e.RequestInstructions? && !e.RequestStart? && !e.EndEarly?
    ensures w'.state.counter == w.state.counter && Quiet(Handle(w, e).value.out)
  {
    OthersKeepCounter(w, e, w');
    hide Next, Handle;
    NextGives(w, e, w');
    ReplyFits(w, e);
  }

  lemma OthersKeepCounter(w: World, e: Event, w': World)
    requires Next(w, e, w') && !Counts(e)
    requires !e.TimerExpires? && !e.RequestInstructions? && !e.RequestStart? && !e.EndEarly?
    ensures w'.state.counter == w.state.counter
  {
    hide PossibleSort, ProcessOffer, TradeNotices, ProcessCreate, ProcessRetract;
  }

  lemma CountingStep(w: World, e: Event, w': World)
    requires Sound(w) && Next(w, e, w')
    ensures var out := Handle(w, e).value.out;
            && w'.state.counter
                == (if Counts(e) then w.state.counter + 1 else if Resets(out) then 0 else w.state.counter)
            && (EndsExperiment(out) <==> e.Name? && w'.state.counter == |w'.state.subjects|)
            && (EndsInstructions(out) <==> e.GetReady? && w'.state.counter == |w'.state.subjects|)
  {
    hide StartExperiment, StartInstructions, StartPayouts, Expire;
    match e {
      case TimerExpires => ExpireStep(w.state);
      case RequestInstructions => InstructionsStep(w.state);
      case RequestStart => StartKeepsCount(w.state);
      case EndEarly =>
        PayoutsStep(w.state);
        assert Handle(w, e).value.out[0].msg.PayoutsStarted?;
      case Name(_, _) =>
        var out := Handle(w, e).value.out;
        assert w'.state.counter == |w'.state.subjects| ==> out[1] == Envelope(All, ExperimentEnded);
      case GetReady(_) =>
        var out := Handle(w, e).value.out;
        assert w'.state.counter == |w'.state.subjects| ==> out[1] == Envelope(All, InstructionsEnded);
      case _ => OthersStep(w, e, w');
    }
  }

  lemma {:induction false} CounterCounts(ws: seq<World>, es: seq<Event>, j: nat)
    requires IsRun(ws, es) && j < |ws|
    ensures ws[j].state.counter == CountedSince(ws, es, j)
  {
    hide Next, Resets, Handle, Sound, Counts;
    if j > 0 {
      CounterCounts(ws, es, j - 1);
      RunStep(ws, es, j - 1);
      CountingStep(ws[j - 1], es[j - 1], ws[j]);
    }
  }

  /**
   * In every run the experiment is announced as ended exactly by the name, and
   * the instructions exactly by the readiness message, that brings the names
   * and readiness messages since the last start of instructions or payouts to
   * the number of subjects: each kind counts for the other.
   */
  lemma EndsByTheCount(ws: seq<World>, es: seq<Event>, i: nat)
    requires IsRun(ws, es) && i < |es|
    ensures Possible(ws[i], es[i]) && Handle(ws[i], es[i]).Did?
    ensures var out := Handle(ws[i], es[i]).value.out;
            var complete := CountedSince(ws, es, i + 1) == |ws[i + 1].state.subjects|;
            && (EndsExperiment(out) <==> es[i].Name? && complete)
            && (EndsInstructions(out) <==> es[i].GetReady? && complete)
  {
    hide Next, EndsExperiment, EndsInstructions;
    RunStep(ws, es, i);
    CounterCounts(ws, es, i + 1);
    CountingStep(ws[i], es[i], ws[i + 1]);
  }
}
