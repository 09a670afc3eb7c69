/** Runs with a clock: what the offers' times and the timed stages owe to a clock that does not go back. */
module TimedRuns {
  import opened Values
  import opened Offers
  import opened OrderBooks
  import opened OfferProcessing
  import opened MarketSafety
  import opened PausableTimers
  import opened Servers
  import opened Clocks
  import opened Ledgers
  import opened Reachable
  import opened Conservation
  import opened Trading
  import opened MarketRules
  import opened Text

  /** The clock reads `ts[i]` at step `i`; an offer carries the time elapsed then, as the source casts it. */
  ghost predicate TickAt(ws: seq<World>, es: seq<Event>, fs: seq<Face>, ts: seq<int>, i: nat)
    requires i < |es| == |ts| && |ws| == |fs| == |es| + 1
  {
    && Possible(ws[i], es[i]) && Handle(ws[i], es[i]).Did?
    && fs[i + 1] == AfterStep(ws[i], fs[i], es[i], ts[i])
    && (es[i].Submit? ==> es[i].time == AsUnsigned(fs[i].works.Elapsed(ts[i])))
  }

  ghost predicate FreshFace(f: Face) {
    f.works == Clockwork(TimerState.NotStarted, 0, 0, 0, None) && f.shown == []
  }

  ghost predicate IsTimedRun(ws: seq<World>, es: seq<Event>, fs: seq<Face>, ts: seq<int>) {
    && IsRun(ws, es) && |fs| == |ws| && |ts| == |es| && FreshFace(fs[0])
    && forall i {:trigger TickAt(ws, es, fs, ts, i)} | 0 <= i < |es| :: TickAt(ws, es, fs, ts, i)
  }

  /** The clock does not go back. */
  ghost predicate Steady(ts: seq<int>) {
    forall a, b | 0 <= a < b < |ts| :: ts[a] <= ts[b]
  }

  lemma FreshTimedRun(w: World, f: Face)
    requires Initial(w) && FreshFace(f)
    ensures IsTimedRun([w], [], [f], [])
  {
  }

  lemma TimedRunGrows(
      ws: seq<World>, es: seq<Event>, fs: seq<Face>, ts: seq<int>, e: Event, now: int, w': World, f': Face)
    requires IsTimedRun(ws, es, fs, ts) && Next(ws[|es|], e, w') && f' == AfterStep(ws[|es|], fs[|es|], e, now)
    requires e.Submit? ==> e.time == AsUnsigned(fs[|es|].works.Elapsed(now))
    ensures |ws| == |fs| == |es| + 1 && |ts| == |es|
    ensures IsTimedRun(ws + [w'], es + [e], fs + [f'], ts + [now])
  {
    hide Handle, AfterStep;
    RunGrows(ws, es, e, w');
    var ws', es', fs', ts' := ws + [w'], es + [e], fs + [f'], ts + [now];
    forall i | 0 <= i < |es'|
      ensures TickAt(ws', es', fs', ts', i)
    {
      if i < |es| {
        assert TickAt(ws, es, fs, ts, i);
      }
    }
  }

  // ---- The timer over a run --------------------------------------------------

  /** At clock reading `t` the timer is in order, and the rest of the server sees its state. */
  ghost predicate TimerOk(timer: Timer, works: Clockwork, t: int) {
    && works.state == timer.state && works.Ok()
    && (timer.callbacks == [EndsRound] ==> works.accum >= 0)
    && (works.state.Running? ==> works.lastStart <= t)
  }

  /** No resting offer is from the future of the timer. */
  ghost predicate InTime(w: World, f: Face, t: int) {
    && TimerOk(w.state.timer, f.works, t)
    && forall x | Resting(w.state.desk.book, x) :: x.time <= f.works.Elapsed(t)
  }

  lemma LaterStillInTime(w: World, f: Face, t: int, now: int)
    requires InTime(w, f, t) && t <= now
    ensures InTime(w, f, now) && (w.state.timer.callbacks == [EndsRound] ==> f.works.Elapsed(now) >= 0)
  {
  }

  lemma RestingInRound(w: World, x: Offer)
    requires Sound(w) && Resting(w.state.desk.book, x)
    ensures w.state.timer.callbacks == [EndsRound]
  {
  }

  /** What rests after a step rested before, unless it is the offer of the step. */
  lemma StepRests(w: World, e: Event, w': World, x: Offer)
    requires Sound(w) && Next(w, e, w') && Resting(w'.state.desk.book, x)
    ensures Resting(w.state.desk.book, x) || (e.Submit? && x == OfferOf(w, e))
  {
    hide Next, Handle, Sound;
    if e.Submit? {
      SubmitRests(w, e, w', x);
    } else {
      OtherBooks(w, e, w');
      RetractedMembers(w.state.desk.book, if e.Retract? then e.offerId else 0);
    }
  }

  lemma SubmitRests(w: World, e: Event, w': World, x: Offer)
    requires Sound(w) && Next(w, e, w') && e.Submit? && Resting(w'.state.desk.book, x)
    ensures Resting(w.state.desk.book, x) || x == OfferOf(w, e)
  {
    if Judge(w.state.desk, OfferOf(w, e)) == Did(OfferValidity.Accepted) {
      MatchResult(w.state.desk, w.nextId, OfferOf(w, e), e.sorted);
    } else {
      assert w'.state == w.state;
    }
  }

  /** One callback at most is due, so an expiry leaves the timer re-armed or stopped. */
  lemma ExpiryFace(s: State, f: Face, now: int)
    requires Expire(s).Did?
    requires s.timer.callbacks == [] || s.timer.callbacks == [EndsRound] || s.timer.callbacks == [EndsReview]
    ensures var stopped := f.(works := f.works.Stopped());
            AfterExpiry(s, f, now)
            == if s.timer.callbacks == [] then stopped else AfterCall(s, stopped, s.timer.callbacks[0], now)
  {
    var halted, stopped := s.(timer := s.timer.(state := TimerState.Ended)), f.(works := f.works.Stopped());
    if s.timer.callbacks != [] {
      var c := s.timer.callbacks[0];
      assert s.timer.callbacks[1..] == [];
      assert AfterCall(halted, stopped, c, now) == AfterCall(s, stopped, c, now);
      var next := Call(halted, c).value.state;
      assert CallEach(next, []).Did?;
      assert AfterCalls(next, AfterCall(s, stopped, c, now), [], now) == AfterCall(s, stopped, c, now);
    }
  }

  lemma ExpiryTimer(s: State, f: Face, now: int)
    requires Expire(s).Did? && TimerOk(s.timer, f.works, now)
    requires s.timer.callbacks == [] || s.timer.callbacks == [EndsRound] || s.timer.callbacks == [EndsReview]
    ensures TimerOk(Expire(s).value.state.timer, AfterExpiry(s, f, now).works, now)
  {
    ExpiryFace(s, f, now);
    if s.timer.callbacks != [] {
      ExpireCalls(s, s.timer.callbacks[0]);
      if s.timer.callbacks == [EndsRound] {
        EndRoundReply(s.(timer := s.timer.(state := TimerState.Ended)));
      }
    }
  }

  lemma StartTimer(w: World, e: Event, w': World, f: Face, now: int)
    requires Sound(w) && Next(w, e, w') && e.RequestStart? && TimerOk(w.state.timer, f.works, now)
    ensures TimerOk(w'.state.timer, AfterStep(w, f, e, now).works, now)
    ensures StartVerdict(w.state).Accepted? ==> w'.state.desk.book == EMPTY_BOOK
  {
  }

  /** Every other step keeps the elapsed time, at the moment it happens. */
  lemma OtherTimer(w: World, e: Event, w': World, f: Face, now: int)
    requires Next(w, e, w') && !e.RequestStart? && !e.TimerExpires? && TimerOk(w.state.timer, f.works, now)
    ensures TimerOk(w'.state.timer, AfterStep(w, f, e, now).works, now)
    ensures AfterStep(w, f, e, now).works.Elapsed(now) == f.works.Elapsed(now)
  {
  }

  lemma StepTimer(w: World, e: Event, w': World, f: Face, now: int)
    requires Sound(w) && Next(w, e, w') && TimerOk(w.state.timer, f.works, now)
    ensures TimerOk(w'.state.timer, AfterStep(w, f, e, now).works, now)
    ensures AfterStep(w, f, e, now).works.Elapsed(now) == f.works.Elapsed(now) || w'.state.desk.book == EMPTY_BOOK
  {
    hide TimerOk, Expire;
    if e.TimerExpires? {
      ExpiryTimer(w.state, f, now);
      NextGives(w, e, w');
      HandlesExpiry(w, e);
      ExpiryKeepsStage(w.state);
    } else if e.RequestStart? {
      StartTimer(w, e, w', f, now);
    } else {
      OtherTimer(w, e, w', f, now);
    }
  }

  lemma StepInTime(w: World, e: Event, w': World, f: Face, t: int, now: int)
    requires Sound(w) && Next(w, e, w') && InTime(w, f, t) && t <= now
    requires e.Submit? ==> e.time == AsUnsigned(f.works.Elapsed(now))
    ensures InTime(w', AfterStep(w, f, e, now), now)
  {
    LaterStillInTime(w, f, t, now);
    StepTimer(w, e, w', f, now);
    var f' := AfterStep(w, f, e, now);
    hide Sound, Next, TimerOk, AfterStep, Handle;
    NextKeepsSound(w, e, w');
    forall x | Resting(w'.state.desk.book, x)
      ensures x.time <= f'.works.Elapsed(now)
    {
      StepRests(w, e, w', x);
      RestingInRound(w', x);
      if e.Submit? {
        SubmitShape(w, e, w');
      }
    }
  }

  /** The clock reading by which a state of the run has been reached. */
  function ReadingAt(ts: seq<int>, i: nat): int
    requires i <= |ts|
  {
    if i == 0 then (if ts == [] then 0 else ts[0]) else ts[i - 1]
  }

  lemma {:induction false} RunIsInTime(ws: seq<World>, es: seq<Event>, fs: seq<Face>, ts: seq<int>, i: nat)
    requires IsTimedRun(ws, es, fs, ts) && Steady(ts) && i < |ws|
    ensures InTime(ws[i], fs[i], ReadingAt(ts, i))
  {
    hide Next, Handle;
    if i > 0 {
      RunIsInTime(ws, es, fs, ts, i - 1);
      RunStep(ws, es, i - 1);
      assert TickAt(ws, es, fs, ts, i - 1);
      StepInTime(ws[i - 1], es[i - 1], ws[i], fs[i - 1], ReadingAt(ts, i - 1), ts[i - 1]);
    }
  }

  // ---- How long the stages last ------------------------------------------------

  /** How long the stage that the timer will end lasts while it runs, in milliseconds. */
  function StageLength(s: State): int {
    1000 * if s.timer.callbacks == [EndsRound] then s.desk.config.roundTime else s.desk.config.reviewTime
  }

  lemma ExpiryLength(s: State, f: Face, now: int)
    requires Expire(s).Did? && f.works.duration == StageLength(s)
    requires s.timer.callbacks == [EndsRound] || s.timer.callbacks == [EndsReview]
    ensures AfterExpiry(s, f, now).works.duration == StageLength(Expire(s).value.state)
  {
    ExpiryFace(s, f, now);
    ExpireCalls(s, s.timer.callbacks[0]);
    if s.timer.callbacks == [EndsRound] {
      EndRoundReply(s.(timer := s.timer.(state := TimerState.Ended)));
    }
  }

  lemma StepLength(w: World, e: Event, w': World, f: Face, now: int)
    requires Sound(w) && Next(w, e, w') && !e.Load?
    requires AcceptedStart(w, e) || (w.state.timer.callbacks != [] && f.works.duration == StageLength(w.state))
    ensures w'.state.timer.callbacks != []
    ensures AfterStep(w, f, e, now).works.duration == StageLength(w'.state)
  {
    hide Expire, StartExperiment;
    if e.TimerExpires? {
      ExpiryLength(w.state, f, now);
      ExpiryCallbacks(w.state);
    } else if AcceptedStart(w, e) {
      StartLength(w, e, w', f, now);
    } else {
      OtherLength(w, e, w', f, now);
    }
  }

  lemma ExpiryCallbacks(s: State)
    requires Expire(s).Did? && (s.timer.callbacks == [EndsRound] || s.timer.callbacks == [EndsReview])
    ensures Expire(s).value.state.timer.callbacks != []
  {
    ExpireCalls(s, s.timer.callbacks[0]);
  }

  lemma StartLength(w: World, e: Event, w': World, f: Face, now: int)
    requires Next(w, e, w') && AcceptedStart(w, e)
    ensures w'.state.timer.callbacks == [EndsRound]
    ensures AfterStep(w, f, e, now).works.duration == StageLength(w'.state)
  {
  }

  lemma OtherLength(w: World, e: Event, w': World, f: Face, now: int)
    requires Sound(w) && Next(w, e, w') && !e.Load? && !e.TimerExpires? && !AcceptedStart(w, e)
    ensures w'.state.timer.callbacks == w.state.timer.callbacks && w'.state.desk.config == w.state.desk.config
    ensures AfterStep(w, f, e, now).works.duration == f.works.duration
  {
  }

  lemma {:induction false} LengthsKept(ws: seq<World>, es: seq<Event>, fs: seq<Face>, ts: seq<int>, k: nat, j: nat)
    requires IsTimedRun(ws, es, fs, ts) && k < j < |ws| && AcceptedStart(ws[k], es[k])
    requires forall m | k < m < j :: !es[m].Load?
    ensures ws[j].state.timer.callbacks != [] && fs[j].works.duration == StageLength(ws[j].state)
  {
    hide Next, Handle, Sound, AcceptedStart;
    RunStep(ws, es, j - 1);
    assert TickAt(ws, es, fs, ts, j - 1);
    if j > k + 1 {
      LengthsKept(ws, es, fs, ts, k, j - 1);
    } else {
      StartIsNoLoad(ws[k], es[k]);
    }
    StepLength(ws[j - 1], es[j - 1], ws[j], fs[j - 1], ts[j - 1]);
  }

  lemma StartIsNoLoad(w: World, e: Event)
    requires AcceptedStart(w, e)
    ensures !e.Load?
  {
  }

  /**
   * Unless a configuration is loaded on the way, every round has round_time and
   * every review review_time of running time: whenever the timer runs, its wait
   * completes when the rest of that has passed.
   */
  lemma StagesLast(ws: seq<World>, es: seq<Event>, fs: seq<Face>, ts: seq<int>, k: nat, j: nat)
    requires IsTimedRun(ws, es, fs, ts) && Steady(ts) && k < j < |ws| && AcceptedStart(ws[k], es[k])
    requires forall m | k < m < j :: !es[m].Load?
    ensures var works, t := fs[j].works, ts[j - 1];
            works.state.Running? ==> works.deadline == Some(t + StageLength(ws[j].state) - works.Elapsed(t))
  {
    LengthsKept(ws, es, fs, ts, k, j);
    RunIsInTime(ws, es, fs, ts, j);
  }

  // ---- Offers' times -----------------------------------------------------------

  /**
   * With a clock that does not go back and elapsed times that fit an unsigned,
   * no offer comes in with an earlier time than a resting one: pauses keep the
   * elapsed time, and only an empty book sees it start again.
   */
  lemma SteadyClockIsTimely(ws: seq<World>, es: seq<Event>, fs: seq<Face>, ts: seq<int>, i: nat)
    requires IsTimedRun(ws, es, fs, ts) && Steady(ts) && i < |es|
    requires es[i].Submit? ==> fs[i].works.Elapsed(ts[i]) < TWO_32
    ensures Timely(ws[i], es[i])
  {
    RunIsInTime(ws, es, fs, ts, i);
    LaterStillInTime(ws[i], fs[i], ReadingAt(ts, i), ts[i]);
    assert TickAt(ws, es, fs, ts, i);
    RunIsSound(ws, es, i);
    if x :| Resting(ws[i].state.desk.book, x) {
      RestingInRound(ws[i], x);
    }
  }

  /** So trades are at the resting limit, ties apart, in every such run. */
  lemma SteadyClockPrices(
      ws: seq<World>, es: seq<Event>, fs: seq<Face>, ts: seq<int>, i: nat, res: MarketSubmissionResult)
    requires IsTimedRun(ws, es, fs, ts) && Steady(ts) && i < |es| && fs[i].works.Elapsed(ts[i]) < TWO_32
    requires Possible(ws[i], es[i]) && Announces(ws[i], es[i], res) && res.trade.Some?
    ensures exists resting ::
              resting in Opposite(ws[i].state.desk.book, res.offer) && RestingPrice(res.offer, resting, res.trade.value)
  {
    SteadyClockIsTimely(ws, es, fs, ts, i);
    TradesAtRestingPrice(ws, es, i, res);
  }

  /** And with the improvement rule on, each side rises strictly in price and in order of arrival. */
  lemma SteadyClockRises(ws: seq<World>, es: seq<Event>, fs: seq<Face>, ts: seq<int>, i: nat, j: nat)
    requires IsTimedRun(ws, es, fs, ts) && Steady(ts) && i <= j < |ws| && ws[i].state.desk.book == EMPTY_BOOK
    requires forall k | i <= k < j :: ws[k].state.desk.config.improvementRule
    requires forall k | i <= k < j && es[k].Submit? :: fs[k].works.Elapsed(ts[k]) < TWO_32
    ensures RisingBook(ws[j].state.desk.book)
  {
    hide Timely;
    forall k | i <= k < j
      ensures ImprovementStep(ws[k], es[k])
    {
      SteadyClockIsTimely(ws, es, fs, ts, k);
    }
    ImprovementMakesRising(ws, es, i, j);
  }
}
