/**
 * The pausable timer, in whole milliseconds. The clock reading is an argument
 * of every operation that looks at the clock, and `deadline` is the pending
 * wait: when it will complete, if it is not cancelled first.
 */
module PausableTimers {
  import opened Values
  import Servers

  type Callback = Servers.Callback
  type TimerState = Servers.TimerState

  datatype Clockwork = Clockwork(state: TimerState, duration: int, accum: int, lastStart: int, deadline: Option<int>) {
    function Elapsed(now: int): int {
      accum + if state.Running? then now - lastStart else 0
    }

    function Remaining(now: int): int {
      duration - Elapsed(now)
    }

    function Reset(): Clockwork {
      this.(accum := 0, state := TimerState.NotStarted, deadline := None)
    }

    function Pause(now: int): Clockwork {
      if state.Paused? then this else this.(accum := Elapsed(now), state := TimerState.Paused, deadline := None)
    }

    function Start(now: int): Clockwork {
      if state.Running? || state.Ended? then this
      else this.(deadline := Some(now + Remaining(now)), lastStart := now, state := TimerState.Running)
    }

    function SetDuration(d: int, now: int): Clockwork {
      var longer := this.(duration := d);
      if state.Running? then longer.Pause(now).Start(now) else longer
    }

    function UpdateTime(d: int, now: int): Clockwork {
      if state.Running? then Pause(now).(accum := duration - d).Start(now) else this.(duration := d)
    }

    /** The wait completed. */
    function Stopped(): Clockwork {
      this.(state := TimerState.Ended, accum := duration, deadline := None)
    }

    /** Neither running nor with any time on it, as a fresh timer is. */
    predicate Idle() {
      !state.Running? && accum == 0
    }

    /** A running timer waits for exactly the time it has left. */
    ghost predicate Ok() {
      if state.Running? then deadline == Some(lastStart + duration - accum) else deadline.None?
    }
  }

  /** A timer just cleared, set and started. */
  function Armed(duration: int, now: int): Clockwork {
    Clockwork(TimerState.Running, duration, 0, now, Some(now + duration))
  }

  class PausableTimer {
    var works: Clockwork
    var callbacks: seq<Callback>

    constructor (duration: int, now: int)
      ensures works == Clockwork(TimerState.NotStarted, duration, 0, now, None) && callbacks == []
    {
      works := Clockwork(TimerState.NotStarted, duration, 0, now, None);
      callbacks := [];
    }

    /** What the rest of the server can tell. */
    function View(): Servers.Timer
      reads this
    {
      Servers.Timer(works.state, callbacks)
    }

    method Register(callback: Callback)
      modifies this
      ensures works == old(works) && callbacks == old(callbacks) + [callback]
    {
      callbacks := callbacks + [callback];
    }

    method Reset()
      modifies this
      ensures works == old(works).Reset() && callbacks == old(callbacks)
    {
      works := works.(accum := 0);
      works := works.(state := TimerState.NotStarted);
      works := works.(deadline := None);
    }

    method Clear()
      modifies this
      ensures works == old(works).Reset() && callbacks == []
    {
      callbacks := [];
      Reset();
    }

    method Pause(now: int)
      modifies this
      ensures works == old(works).Pause(now) && callbacks == old(callbacks)
      ensures View() == Servers.Pause(old(View()))
    {
      if works.state.Paused? {
        return;
      }
      works := works.(accum := works.Elapsed(now));
      works := works.(state := TimerState.Paused);
      works := works.(deadline := None);
    }

    method Start(now: int)
      modifies this
      ensures works == old(works).Start(now) && callbacks == old(callbacks)
      ensures View() == Servers.Start(old(View()))
    {
      if works.state.Running? || works.state.Ended? {
        return;
      }
      works := works.(deadline := Some(now + works.Remaining(now)));
      works := works.(lastStart := now);
      works := works.(state := TimerState.Running);
    }

    method SetDuration(duration: int, now: int)
      modifies this
      ensures works == old(works).SetDuration(duration, now) && callbacks == old(callbacks)
    {
      works := works.(duration := duration);
      if works.state.Running? {
        Pause(now);
        Start(now);
      }
    }

    method UpdateTime(duration: int, now: int)
      modifies this
      ensures works == old(works).UpdateTime(duration, now) && callbacks == old(callbacks)
    {
      if works.state.Running? {
        Pause(now);
        works := works.(accum := works.duration - duration);
        Start(now);
      } else {
        works := works.(duration := duration);
      }
    }

    /** The wait ended: nothing if it was cancelled, otherwise the callbacks as they stand are due. */
    method OnStop(aborted: bool) returns (due: seq<Callback>)
      modifies this
      ensures callbacks == old(callbacks)
      ensures aborted ==> works == old(works) && due == []
      ensures !aborted ==> works == old(works).Stopped() && due == old(callbacks)
    {
      if aborted {
        return [];
      }
      works := works.(state := TimerState.Ended, deadline := None);
      works := works.(accum := works.duration);
      return callbacks;
    }
  }

  // ---- Elapsed time ----------------------------------------------------

  datatype Act = DoStart | DoPause | Wait(ms: nat)

  datatype Clock = Clock(works: Clockwork, now: int)

  function Do(c: Clock, a: Act): Clock {
    match a
    case DoStart => c.(works := c.works.Start(c.now))
    case DoPause => c.(works := c.works.Pause(c.now))
    case Wait(ms) => c.(now := c.now + ms)
  }

  function DoAll(c: Clock, acts: seq<Act>): Clock {
    if acts == [] then c else Do(DoAll(c, acts[..|acts| - 1]), acts[|acts| - 1])
  }

  /** The time that passes while the timer is running. */
  function TimeRun(c: Clock, acts: seq<Act>): nat {
    if acts == [] then 0
    else
      var front, last := acts[..|acts| - 1], acts[|acts| - 1];
      TimeRun(c, front) + if last.Wait? && DoAll(c, front).works.state.Running? then last.ms else 0
  }

  /**
   * Whatever the pauses, a timer has elapsed by exactly the time it was
   * running, and a running timer's pending wait completes when that reaches
   * its duration.
   */
  lemma {:induction false} ElapsedIsTimeRun(c: Clock, acts: seq<Act>)
    requires c.works.Ok() && !c.works.state.Ended?
    ensures var after := DoAll(c, acts);
            && after.works.Ok() && !after.works.state.Ended? && after.works.duration == c.works.duration
            && after.works.Elapsed(after.now) == c.works.Elapsed(c.now) + TimeRun(c, acts)
            && (after.works.state.Running? ==>
                  after.works.deadline == Some(after.now + c.works.Remaining(c.now) - TimeRun(c, acts)))
  {
    if acts != [] {
      ElapsedIsTimeRun(c, acts[..|acts| - 1]);
    }
  }

  /** A new duration keeps the time elapsed and moves the pending wait along. */
  lemma SetDurationKeepsElapsed(works: Clockwork, d: int, now: int)
    requires works.Ok()
    ensures works.SetDuration(d, now).Ok()
    ensures works.SetDuration(d, now).Elapsed(now) == works.Elapsed(now)
    ensures works.SetDuration(d, now).Remaining(now) == d - works.Elapsed(now)
  {
  }

  /** Setting the time left works on a running timer; on any other, exactly when no time has elapsed. */
  lemma UpdateTimeIff(works: Clockwork, d: int, now: int)
    requires works.Ok()
    ensures works.UpdateTime(d, now).Ok()
    ensures works.UpdateTime(d, now).Remaining(now) == d <==> works.state.Running? || works.accum == 0
  {
  }

  /** What a client does with a time update: pause, then set the time left. */
  datatype Update = Update(remaining: int, now: int)

  function ClientTimer(works: Clockwork, updates: seq<Update>): Clockwork {
    if updates == [] then works
    else
      var last := updates[|updates| - 1];
      ClientTimer(works, updates[..|updates| - 1]).Pause(last.now).UpdateTime(last.remaining, last.now)
  }

  /**
   * Nothing at a client starts its timer, so from a fresh one on, after any
   * updates, the client shows exactly the last time the server sent, whenever
   * it looks: it never counts down.
   */
  lemma {:induction false} ClientShowsLastTime(works: Clockwork, updates: seq<Update>, later: int)
    requires works.Idle()
    ensures ClientTimer(works, updates).Idle()
    ensures ClientTimer(works, updates).Remaining(later)
         == if updates == [] then works.Remaining(later) else updates[|updates| - 1].remaining
  {
    if updates != [] {
      ClientShowsLastTime(works, updates[..|updates| - 1], later);
    }
  }

  /** An ended timer ignores a start, but not a pause: paused and started again it is due at once. */
  lemma PauseRevivesEndedTimer(works: Clockwork, now: int)
    requires works.Ok()
    ensures works.Stopped().Start(now) == works.Stopped()
    ensures var again := works.Stopped().Pause(now).Start(now);
            again.Ok() && again.state.Running? && again.deadline == Some(now)
  {
  }
}
