/** Time updates from the server's timer to the client's, over their text. */
module TimeUpdates {
  import opened OfferProcessing
  import opened PausableTimers
  import opened Servers
  import opened Clocks
  import opened Ledgers
  import opened Reachable
  import opened Protocol
  import opened TimedRuns
  import opened Text
  import Disorder

  // ---- Text ------------------------------------------------------------------

  /** Signed milliseconds are written, an `unsigned int` is read. */
  function PrintTime(ms: int): string {
    PrintInt(ms)
  }

  function ReadTime(s: string): Read<nat> {
    ReadUnsigned(s, TWO_32)
  }

  /** What a time becomes: a negative one wraps around, one out of range fails the read. */
  lemma TimeTrip(ms: int, rest: string)
    requires Stops(rest)
    ensures ReadTime(PrintTime(ms) + rest) == if -TWO_32 < ms < TWO_32 then Got(ms % TWO_32, rest) else Bad
  {
    ReadPrinted(ms, rest);
  }

  /** A time comes back from its text exactly when it is not negative and fits an `unsigned int`. */
  lemma TimeRoundTripIff(ms: int)
    ensures ReadTime(PrintTime(ms)).Got? && ReadTime(PrintTime(ms)).value == ms <==> 0 <= ms < TWO_32
  {
    assert PrintTime(ms) + "" == PrintTime(ms);
    TimeTrip(ms, "");
  }

  /** What the client takes from a printed number: a read out of range leaves the greatest unsigned. */
  function TakenTime(body: string): nat {
    var r := ReadTime(body);
    if r.Got? then r.value else TWO_32 - 1
  }

  lemma TakenTimeIs(ms: int)
    ensures TakenTime(PrintTime(ms)) == if -TWO_32 < ms < TWO_32 then ms % TWO_32 else TWO_32 - 1
  {
    assert PrintTime(ms) + "" == PrintTime(ms);
    TimeTrip(ms, "");
  }

  // ---- The client ------------------------------------------------------------

  /** The updates a client makes of the times sent, reading each from its body at its own clock's `nows`. */
  function Received(sent: seq<int>, nows: seq<int>): seq<Update>
    requires |sent| == |nows|
  {
    seq(|sent|, i requires 0 <= i < |sent| => Update(TakenTime(PrintTime(sent[i])), nows[i]))
  }

  /** Whenever a client looks, it shows the last time sent exactly when that survived the text. */
  lemma ClientShowsSentIff(works: Clockwork, sent: seq<int>, nows: seq<int>, later: int)
    requires works.Idle() && |sent| == |nows| > 0
    ensures var last := sent[|sent| - 1];
            ClientTimer(works, Received(sent, nows)).Remaining(later) == last <==> 0 <= last < TWO_32
  {
    ClientShowsLastTime(works, Received(sent, nows), later);
    TakenTimeIs(sent[|sent| - 1]);
  }

  // ---- The server ------------------------------------------------------------

  ghost predicate SendsTimeAt(fs: seq<Face>, i: nat) {
    i + 1 < |fs| && |fs[i].shown| < |fs[i + 1].shown|
  }

  function LastShown(f: Face): int {
    if f.shown == [] then 0 else f.shown[|f.shown| - 1]
  }

  lemma ExpiryShows(s: State, f: Face, now: int)
    requires Expire(s).Did? && AtMostOneCallback(s)
    ensures var f' := AfterExpiry(s, f, now);
            && (f'.shown == f.shown || f'.shown == f.shown + [f'.works.Remaining(now)])
            && (f'.shown != f.shown ==> f'.works.state.Running?)
  {
    ExpiryFace(s, f, now);
  }

  /** A step sends at most one time update: what is left on the timer as the step leaves it. */
  lemma StepShows(w: World, e: Event, f: Face, now: int)
    requires Possible(w, e) && Handle(w, e).Did? && AtMostOneCallback(w.state)
    ensures var f' := AfterStep(w, f, e, now);
            && (f'.shown == f.shown || f'.shown == f.shown + [f'.works.Remaining(now)])
            && (f'.shown != f.shown ==>
                  || f'.works.state.Running?
                  || ((e.Submit? || e.Retract?) && SendsTime(Handle(w, e).value.out) && f'.works == f.works))
  {
    if e.TimerExpires? {
      HandlesExpiry(w, e);
      hide Handle, AfterExpiry, Expire;
      ExpiryShows(w.state, f, now);
    } else {
      hide Handle, AfterExpiry;
    }
  }

  // ---- When a time is sent -----------------------------------------------------

  /** The messages that the remaining time is broadcast with. */
  predicate WithTime(m: Message) {
    m.AcceptedOffer? || m.AcceptedRetraction? || m.RoundStarted? || m.ReviewStarted?
  }

  ghost predicate Tells(out: seq<Envelope>) {
    exists x :: x in out && WithTime(x.msg)
  }

  lemma MarketTells(w: World, e: Event)
    requires Possible(w, e) && Handle(w, e).Did? && (e.Submit? || e.Retract?)
    ensures Tells(Handle(w, e).value.out) <==> SendsTime(Handle(w, e).value.out)
  {
    hide ProcessOffer, PossibleSort, JudgeRetract;
    var out := Handle(w, e).value.out;
    assert out != [] && forall x | x in out[1..] :: !WithTime(x.msg);
    assert out == [out[0]] + out[1..];
  }

  lemma StartTells(s: State)
    requires StartExperiment(s).Did?
    ensures Tells(StartExperiment(s).value.out) <==> StartVerdict(s).Accepted?
  {
    hide Allocate, SendOpening, StartVerdict;
    var out := StartExperiment(s).value.out;
    if StartVerdict(s).Accepted? {
      assert out[|out| - 1].msg.RoundStarted?;
    }
  }

  lemma ExpiryTells(s: State, f: Face, now: int)
    requires Expire(s).Did? && AtMostOneCallback(s)
    ensures AfterExpiry(s, f, now).shown != f.shown <==> Tells(Expire(s).value.out)
  {
    ExpiryFace(s, f, now);
    if s.timer.callbacks != [] {
      ExpireCalls(s, s.timer.callbacks[0]);
      var out := Expire(s).value.out;
      if s.timer.callbacks == [EndsRound] {
        EndRoundReply(s.(timer := s.timer.(state := TimerState.Ended)));
        assert out[|out| - 1].msg.ReviewStarted?;
      } else if s.desk.exp.round < s.desk.config.nRounds {
        assert out[|out| - 1].msg.RoundStarted?;
      }
    }
  }

  lemma OthersTellNothing(w: World, e: Event)
    requires Possible(w, e) && Handle(w, e).Did? && AtMostOneCallback(w.state)
    requires !e.Submit? && !e.Retract? && !e.RequestStart? && !e.TimerExpires?
    ensures !Tells(Handle(w, e).value.out)
  {
    hide Handle;
    ReplyFits(w, e);
  }

  lemma StepTells(w: World, e: Event, f: Face, now: int)
    requires Possible(w, e) && Handle(w, e).Did? && AtMostOneCallback(w.state)
    ensures AfterStep(w, f, e, now).shown != f.shown <==> Tells(Handle(w, e).value.out)
  {
    hide Tells, Expire, StartExperiment, AfterExpiry;
    if e.Submit? || e.Retract? {
      MarketTells(w, e);
    } else if e.RequestStart? {
      StartTells(w.state);
    } else if e.TimerExpires? {
      ExpiryTells(w.state, f, now);
    } else {
      OthersTellNothing(w, e);
    }
  }

  /**
   * In every run by a clock, a step broadcasts the time that is left on the
   * timer exactly if it announces an accepted offer or retraction, a round or a
   * review, and then once.
   */
  lemma TimeSentIff(ws: seq<World>, es: seq<Event>, fs: seq<Face>, ts: seq<int>, i: nat)
    requires IsTimedRun(ws, es, fs, ts) && i < |es|
    ensures fs[i + 1].shown
         == fs[i].shown + if Tells(Since(ws[i], ws[i + 1])) then [fs[i + 1].works.Remaining(ts[i])] else []
  {
    hide Next, Handle, Sound, AfterStep, Tells, Since;
    RunStep(ws, es, i);
    SoundCallbacks(ws[i]);
    assert TickAt(ws, es, fs, ts, i);
    StepShows(ws[i], es[i], fs[i], ts[i]);
    StepTells(ws[i], es[i], fs[i], ts[i]);
    SinceIsReply(ws[i], es[i], ws[i + 1]);
  }

  lemma SentIsRemaining(ws: seq<World>, es: seq<Event>, fs: seq<Face>, ts: seq<int>, i: nat)
    requires IsTimedRun(ws, es, fs, ts) && SendsTimeAt(fs, i)
    ensures i < |ts| && LastShown(fs[i + 1]) == fs[i + 1].works.Remaining(ts[i])
  {
    hide Next, Handle, Sound, AfterStep;
    RunStep(ws, es, i);
    SoundCallbacks(ws[i]);
    assert TickAt(ws, es, fs, ts, i);
    StepShows(ws[i], es[i], fs[i], ts[i]);
  }

  /**
   * While the timer runs, the time sent is not negative exactly when the step
   * comes no later than the pending wait completes. An offer that is accepted
   * before an expiry that is already due sends a negative time.
   */
  lemma SentNonNegativeIff(ws: seq<World>, es: seq<Event>, fs: seq<Face>, ts: seq<int>, i: nat)
    requires IsTimedRun(ws, es, fs, ts) && Steady(ts) && SendsTimeAt(fs, i) && fs[i + 1].works.state.Running?
    ensures i < |ts| && fs[i + 1].works.deadline.Some?
    ensures LastShown(fs[i + 1]) >= 0 <==> ts[i] <= fs[i + 1].works.deadline.value
  {
    SentIsRemaining(ws, es, fs, ts, i);
    RunIsInTime(ws, es, fs, ts, i + 1);
  }

  /** Offers and retractions are accepted in an open market only. */
  lemma AnnouncedWhenOpen(w: World, e: Event)
    requires Possible(w, e) && Handle(w, e).Did? && (e.Submit? || e.Retract?)
    requires SendsTime(Handle(w, e).value.out)
    ensures w.state.desk.exp.IsMarketOpen()
  {
  }

  /** In an orderly run every time update is sent by a running timer. */
  lemma OrderlySendsRunning(ws: seq<World>, es: seq<Event>, fs: seq<Face>, ts: seq<int>, k: nat, i: nat)
    requires IsTimedRun(ws, es, fs, ts) && Steady(ts) && SendsTimeAt(fs, i) && k <= i
    requires i < |es| && OrderlyStart(ws[k], es[k]) && OrderlyBetween(ws, es, k, i)
    ensures fs[i + 1].works.state.Running?
  {
    hide Next, Handle, AfterStep, OrderlyBetween;
    RunStep(ws, es, i);
    SoundCallbacks(ws[i]);
    assert TickAt(ws, es, fs, ts, i);
    StepShows(ws[i], es[i], fs[i], ts[i]);
    if !fs[i + 1].works.state.Running? {
      AnnouncedWhenOpen(ws[i], es[i]);
      Disorder.OpenIsInRound(ws, es, k, i);
      RunIsInTime(ws, es, fs, ts, i);
    }
  }

  /**
   * End to end. In an orderly run by a steady clock, a client with a fresh timer
   * that has received time updates up to the one of step `i` shows the time the
   * server's timer had left then exactly when that step came no later than the
   * pending wait completes (and the time fits an unsigned int). A later one
   * makes the client show about 49 days.
   */
  lemma ClientShowsServerTimeIff(
      ws: seq<World>, es: seq<Event>, fs: seq<Face>, ts: seq<int>, k: nat, i: nat,
      works: Clockwork, sent: seq<int>, nows: seq<int>, later: int)
    requires IsTimedRun(ws, es, fs, ts) && Steady(ts) && SendsTimeAt(fs, i) && k <= i
    requires i < |es| && OrderlyStart(ws[k], es[k]) && OrderlyBetween(ws, es, k, i)
    requires works.Idle() && |sent| == |nows| > 0 && sent[|sent| - 1] == LastShown(fs[i + 1])
    ensures fs[i + 1].works.deadline.Some?
    ensures var left := fs[i + 1].works.Remaining(ts[i]);
            ClientTimer(works, Received(sent, nows)).Remaining(later) == left
            <==> ts[i] <= fs[i + 1].works.deadline.value && left < TWO_32
  {
    hide OrderlyStart, OrderlyBetween, IsTimedRun;
    OrderlySendsRunning(ws, es, fs, ts, k, i);
    SentIsRemaining(ws, es, fs, ts, i);
    SentNonNegativeIff(ws, es, fs, ts, i);
    ClientShowsSentIff(works, sent, nows, later);
  }
}
