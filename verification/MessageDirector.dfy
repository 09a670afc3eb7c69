/**
 * The server as one object graph. Every message, and every expiry of the
 * timer, goes through `Process`, which takes exactly one step of the state
 * machine; so what holds of every run holds of the objects.
 */
module MessageDirectors {
  import opened Values
  import opened Offers
  import opened Portfolios
  import opened Experiments
  import opened Markets
  import opened OfferProcessing
  import opened OfferProcessorMarkets
  import opened PausableTimers
  import opened Servers
  import opened Controllers
  import opened Text
  import opened Clocks
  import opened ServerControllers
  import opened ClientControllers
  import opened Reachable
  import opened Conservation
  import opened Trading
  import opened TimedRuns

  datatype Request =
    | Bid(player: nat, price: int)
    | Ask(player: nat, price: int)
    | Retract(player: nat, offerId: nat)
    | Create(player: nat)
    | Name(player: nat, name: string)
    | Ready(player: nat)
    | AcceptSubject
    | StartInstructions
    | StartExperiment
    | EndEarly
    | LoadConfiguration(read: Reading)
    | Pause
    | Resume
    | TimerExpired

  /** The step a request is; the clock and the sort fill in what the request leaves open. */
  function EventOf(r: Request, time: nat, sorted: seq<Offer>): Event {
    match r
    case Bid(player, price) => Event.Submit(player, price, time, sorted)
    case Ask(player, price) => Event.Submit(player, -price, time, sorted)
    case Retract(player, offerId) => Event.Retract(player, offerId)
    case Create(player) => Event.Create(player)
    case Name(player, name) => Event.Name(player, name)
    case Ready(player) => Event.GetReady(player)
    case AcceptSubject => Event.Join
    case StartInstructions => Event.RequestInstructions
    case StartExperiment => Event.RequestStart
    case EndEarly => Event.EndEarly
    case LoadConfiguration(read) => Event.Load(read)
    case Pause => Event.RequestPause
    case Resume => Event.RequestResume
    case TimerExpired => Event.TimerExpires
  }

  /** Both controllers work on the same market, portfolios, state, configuration, timer and outbox. */
  ghost predicate Together(subj: ClientController, exp: ExperimentController) {
    && exp.Valid() && subj.Valid()
    && subj.server == exp.serv && subj.clock == exp.proc.timer
    && subj.proc.market == exp.proc.proc.market && subj.proc.folio == exp.proc.proc.portfolios
    && subj.proc.expState == exp.proc.exp.expState && subj.proc.config == exp.proc.config
  }

  ghost function WorldOf(subj: ClientController, exp: ExperimentController): World
    reads exp.Footprint(), subj
  {
    World(exp.proc.View(), subj.id, exp.serv.sent)
  }

  /** The controllers of a fresh server, around the objects they share. */
  method NewControllers(config: Configuration) returns (subj: ClientController, exp: ExperimentController)
    ensures Together(subj, exp) && Initial(WorldOf(subj, exp)) && FreshFace(exp.Face())
    ensures exp.proc.config.value == config
  {
    var market := new Market();
    var folios := new PortfolioSet();
    var expState := new SharedExperimentState();
    var shared := new SharedConfiguration(config);
    var timer := new PausableTimer(0, 0);
    var outbox := new Outbox();
    var experiment := new Experiment(shared, expState);
    var periods := new PeriodAssetProcessor(market, folios);
    var commands := new ExperimentCommandProcessor(shared, experiment, timer, periods);
    var offers := new OfferProcessorMarket(market, folios, expState, shared);
    subj := new ClientController(offers, outbox, timer);
    exp := new ExperimentController(outbox, commands);
  }

  class MessageDirector {
    const subj: ClientController
    const exp: ExperimentController
    // Everything that has happened, for the proof alone.
    ghost var worlds: seq<World>
    ghost var events: seq<Event>
    ghost var faces: seq<Face>
    ghost var readings: seq<int>

    constructor (subj: ClientController, exp: ExperimentController)
      requires Together(subj, exp) && Initial(WorldOf(subj, exp)) && FreshFace(exp.Face())
      ensures Valid() && this.subj == subj && this.exp == exp
    {
      this.subj, this.exp := subj, exp;
      worlds, events, faces, readings := [WorldOf(subj, exp)], [], [exp.Face()], [];
      new;
      FreshTimedRun(View(), exp.Face());
    }

    ghost predicate Wired() {
      Together(subj, exp)
    }

    ghost predicate Valid()
      reads this, exp.Footprint(), subj
    {
      && Wired() && IsTimedRun(worlds, events, faces, readings)
      && worlds[|events|] == View() && faces[|events|] == exp.Face()
    }

    ghost function Footprint(): set<object> {
      exp.Footprint() + {subj, this}
    }

    ghost function View(): World
      reads exp.Footprint(), subj
    {
      WorldOf(subj, exp)
    }

    /** Either the step throws, and so does the method, or the method has gone where the step goes. */
    twostate predicate Stepped(w: World, f: Face, e: Event, now: int, new done: Attempt<()>)
      reads exp.Footprint(), subj
    {
      && Possible(w, e)
      && (done.Threw? <==> Handle(w, e).Threw?)
      && (done.Did? ==> Next(w, e, View()) && exp.Face() == AfterStep(w, f, e, now))
    }

    /** A bid. */
    method ProcessBid(player: nat, price: int, now: int) returns (done: Attempt<()>, ghost e: Event)
      requires Wired() && exp.proc.View().Knows(player)
      modifies exp.Footprint(), subj
      ensures e.Submit? && e == EventOf(Bid(player, price), AsUnsigned(old(subj.clock.works).Elapsed(now)), e.sorted)
      ensures Stepped(old(View()), old(exp.Face()), e, now, done)
    {
      hide Servers.TakeOffer, PossibleSort;
      ghost var s, time, sorted := exp.proc.View(), AsUnsigned(subj.clock.works.Elapsed(now)), [];
      done, sorted := subj.TakeBid(player, price, now, s);
      e := Event.Submit(player, price, time, sorted);
    }

    /** An ask. */
    method ProcessAsk(player: nat, price: int, now: int) returns (done: Attempt<()>, ghost e: Event)
      requires Wired() && exp.proc.View().Knows(player)
      modifies exp.Footprint(), subj
      ensures e.Submit? && e == EventOf(Ask(player, price), AsUnsigned(old(subj.clock.works).Elapsed(now)), e.sorted)
      ensures Stepped(old(View()), old(exp.Face()), e, now, done)
    {
      hide Servers.TakeOffer, PossibleSort;
      ghost var s, time, sorted := exp.proc.View(), AsUnsigned(subj.clock.works.Elapsed(now)), [];
      done, sorted := subj.TakeAsk(player, price, now, s);
      e := Event.Submit(player, -price, time, sorted);
    }

    /** A request to retract an offer. */
    method ProcessRetract(player: nat, offerId: nat, now: int) returns (done: Attempt<()>)
      requires Wired() && exp.proc.View().Knows(player)
      modifies exp.Footprint()
      ensures Stepped(old(View()), old(exp.Face()), Event.Retract(player, offerId), now, done)
    {
      hide Servers.RetractOffer;
      subj.RetractOffer(RetractRequest(player, offerId), now, exp.proc.View());
      done := Did(());
    }

    /** A request to create a unit. */
    method ProcessCreate(player: nat, now: int) returns (done: Attempt<()>)
      requires Wired() && exp.proc.View().Knows(player)
      modifies exp.Footprint()
      ensures Stepped(old(View()), old(exp.Face()), Event.Create(player), now, done)
    {
      hide Servers.CreateAsset;
      done := subj.CreateAsset(player, exp.proc.View());
    }

    /** A subject's name. */
    method ProcessName(player: nat, name: string, now: int) returns (done: Attempt<()>)
      requires Wired() && exp.proc.View().Knows(player)
      modifies exp.Footprint()
      ensures Stepped(old(View()), old(exp.Face()), Event.Name(player, name), now, done)
    {
      hide Servers.TakeName;
      exp.TakeName(player, name);
      done := Did(());
    }

    /** A subject is ready. */
    method ProcessReady(player: nat, now: int) returns (done: Attempt<()>)
      requires Wired() && exp.proc.View().Knows(player)
      modifies exp.Footprint()
      ensures Stepped(old(View()), old(exp.Face()), Event.GetReady(player), now, done)
    {
      hide Servers.Ready;
      exp.Ready(player);
      done := Did(());
    }

    /** A new connection is accepted as a subject. */
    method ProcessClientType(now: int) returns (done: Attempt<()>)
      requires Wired()
      modifies exp.Footprint()
      ensures Stepped(old(View()), old(exp.Face()), Event.Join, now, done)
    {
      var _ := exp.proc.exp.AddSubject();
      done := Did(());
    }

    /** The administrator asks for the instructions. */
    method ProcessStartInstructions(now: int) returns (done: Attempt<()>)
      requires Wired()
      modifies exp.Footprint()
      ensures Stepped(old(View()), old(exp.Face()), Event.RequestInstructions, now, done)
    {
      hide Servers.StartInstructions;
      done := exp.StartInstructions();
    }

    /** The administrator starts the experiment. */
    method ProcessStartExperiment(now: int) returns (done: Attempt<()>)
      requires Wired()
      modifies exp.Footprint()
      ensures Stepped(old(View()), old(exp.Face()), Event.RequestStart, now, done)
    {
      hide Servers.StartExperiment;
      done := exp.StartExperiment(now);
    }

    /** The administrator ends the experiment early. */
    method ProcessEndEarly(now: int) returns (done: Attempt<()>)
      requires Wired()
      modifies exp.Footprint()
      ensures Stepped(old(View()), old(exp.Face()), Event.EndEarly, now, done)
    {
      hide Servers.StartPayouts;
      done := exp.StartPayouts();
    }

    /** The administrator loads a configuration. */
    method ProcessLoadConfiguration(read: Reading, now: int) returns (done: Attempt<()>)
      requires Wired()
      modifies exp.Footprint()
      ensures Stepped(old(View()), old(exp.Face()), Event.Load(read), now, done)
    {
      exp.LoadConfiguration(read);
      done := Did(());
    }

    /** The timer is paused. */
    method ProcessPause(now: int) returns (done: Attempt<()>)
      requires Wired()
      modifies exp.Footprint()
      ensures Stepped(old(View()), old(exp.Face()), Event.RequestPause, now, done)
    {
      exp.Pause(now);
      done := Did(());
    }

    /** The timer runs on. */
    method ProcessResume(now: int) returns (done: Attempt<()>)
      requires Wired()
      modifies exp.Footprint()
      ensures Stepped(old(View()), old(exp.Face()), Event.RequestResume, now, done)
    {
      exp.Resume(now);
      done := Did(());
    }

    /** The timer has run out. */
    method ProcessExpiry(now: int) returns (done: Attempt<()>)
      requires Wired() && exp.proc.timer.works.state.Running?
      modifies exp.Footprint()
      ensures Stepped(old(View()), old(exp.Face()), Event.TimerExpires, now, done)
    {
      hide Servers.Expire;
      done := exp.TimerExpired(now);
    }

    /**
     * One message or one expiry. The objects take the step the state machine
     * takes, and throw just when it does; a subject's messages come from
     * accepted subjects, and only a running timer expires.
     */
    method Process(r: Request, now: int) returns (done: Attempt<()>, ghost e: Event)
      requires Valid()
      requires (r.Bid? || r.Ask? || r.Retract? || r.Create? || r.Name? || r.Ready?) ==> View().state.Knows(r.player)
      requires r.TimerExpired? ==> View().state.timer.state.Running?
      modifies Footprint()
      ensures e == EventOf(r, AsUnsigned(old(subj.clock.works).Elapsed(now)), if e.Submit? then e.sorted else [])
      ensures done.Threw? <==> Handle(old(View()), e).Threw?
      ensures done.Did? ==> Valid() && Next(old(View()), e, View())
      ensures done.Did? ==> worlds == old(worlds) + [View()] && events == old(events) + [e]
      ensures done.Did? ==> faces == old(faces) + [exp.Face()] && readings == old(readings) + [now]
    {
      hide Next, Handle, Possible, IsRun, IsTimedRun, AfterStep;
      e := EventOf(r, 0, []);
      match r {
        case Bid(player, price) => done, e := ProcessBid(player, price, now);
        case Ask(player, price) => done, e := ProcessAsk(player, price, now);
        case Retract(player, offerId) => done := ProcessRetract(player, offerId, now);
        case Create(player) => done := ProcessCreate(player, now);
        case Name(player, name) => done := ProcessName(player, name, now);
        case Ready(player) => done := ProcessReady(player, now);
        case AcceptSubject => done := ProcessClientType(now);
        case StartInstructions => done := ProcessStartInstructions(now);
        case StartExperiment => done := ProcessStartExperiment(now);
        case EndEarly => done := ProcessEndEarly(now);
        case LoadConfiguration(read) => done := ProcessLoadConfiguration(read, now);
        case Pause => done := ProcessPause(now);
        case Resume => done := ProcessResume(now);
        case TimerExpired => done := ProcessExpiry(now);
      }
      if done.Did? {
        Record(e, now);
      }
    }

    ghost method Record(e: Event, now: int)
      requires Wired() && IsTimedRun(worlds, events, faces, readings)
      requires Next(worlds[|events|], e, View())
      requires exp.Face() == AfterStep(worlds[|events|], faces[|events|], e, now)
      requires e.Submit? ==> e.time == AsUnsigned(faces[|events|].works.Elapsed(now))
      modifies this`worlds, this`events, this`faces, this`readings
      ensures Valid() && worlds == old(worlds) + [View()] && events == old(events) + [e]
      ensures faces == old(faces) + [exp.Face()] && readings == old(readings) + [now]
    {
      hide IsRun, IsTimedRun;
      TimedRunGrows(worlds, events, faces, readings, e, now, View(), exp.Face());
      worlds, events := worlds + [View()], events + [e];
      faces, readings := faces + [exp.Face()], readings + [now];
    }

    /** The objects are sound whatever they have processed. */
    lemma ObjectsAreSound()
      requires Valid()
      ensures Sound(View())
    {
      RunIsSound(worlds, events, |events|);
    }

    /** The portfolios held by the objects conserve wealth from the start of the experiment on. */
    lemma ObjectsConserveWealth(k: nat)
      requires Valid() && k < |events| && AcceptedStart(worlds[k], events[k])
      ensures var config, n := worlds[k].state.desk.config, |worlds[k].state.subjects|;
              var units := Configured(config, Shares, n) - Configured(config, Derivatives, n);
              Wealth(View().state)
              == Configured(config, Cash, n) + Configured(config, Margin, n) + units * PaidOut(View())
    {
      WealthConserved(worlds, events, k, |events|);
    }

    /** If the clock has not gone back, no offer the objects have taken came in from before a resting one. */
    lemma ObjectsAreTimely(i: nat)
      requires Valid() && Steady(readings) && i < |events|
      requires events[i].Submit? ==> faces[i].works.Elapsed(readings[i]) < TWO_32
      ensures Timely(worlds[i], events[i])
    {
      SteadyClockIsTimely(worlds, events, faces, readings, i);
    }
  }
}
