/** The clock side of the server: its timer, and the remaining times it broadcasts. */
module Clocks {
  import opened PausableTimers
  import opened Servers

  /** `shown` lists the time updates broadcast so far. */
  datatype Face = Face(works: Clockwork, shown: seq<int>) {
    /** A timed stage begins. */
    function Arm(seconds: int, now: int): Face {
      Face(Armed(seconds * 1000, now), shown + [seconds * 1000])
    }

    function Show(now: int): Face {
      this.(shown := shown + [works.Remaining(now)])
    }
  }

  function AfterCall(s: State, f: Face, c: Callback, now: int): Face {
    match c
    case EndsRound => f.Arm(s.desk.config.reviewTime, now)
    case EndsReview => if s.desk.exp.round < s.desk.config.nRounds then f.Arm(s.desk.config.roundTime, now) else f
  }

  function AfterCalls(s: State, f: Face, callbacks: seq<Callback>, now: int): Face
    requires CallEach(s, callbacks).Did?
    decreases |callbacks|
  {
    if callbacks == [] then f
    else AfterCalls(Call(s, callbacks[0]).value.state, AfterCall(s, f, callbacks[0], now), callbacks[1..], now)
  }

  function AfterExpiry(s: State, f: Face, now: int): Face
    requires Expire(s).Did?
  {
    AfterCalls(s.(timer := s.timer.(state := TimerState.Ended)), f.(works := f.works.Stopped()), s.timer.callbacks, now)
  }

  /** The reply announces an accepted offer or retraction. */
  predicate SendsTime(out: seq<Envelope>) {
    out != [] && (out[0].msg.AcceptedOffer? || out[0].msg.AcceptedRetraction?)
  }

  /** What a step does to the clock side when the clock reads `now`. */
  function AfterStep(w: World, f: Face, e: Event, now: int): Face
    requires (e.Name? ==> w.state.Knows(e.player)) && Handle(w, e).Did?
  {
    match e
    case Submit(_, _, _, _) => if SendsTime(Handle(w, e).value.out) then f.Show(now) else f
    case Retract(_, _) => if SendsTime(Handle(w, e).value.out) then f.Show(now) else f
    case RequestStart => if StartVerdict(w.state).Accepted? then f.Arm(w.state.desk.config.roundTime, now) else f
    case RequestPause => f.(works := f.works.Pause(now))
    case RequestResume => f.(works := f.works.Start(now))
    case TimerExpires => AfterExpiry(w.state, f, now)
    case _ => f
  }
}
