/**
 * The controllers and processors of the server as objects. Each method is one
 * of the source's, and what it leaves and sends is what the state machine says.
 */
module Controllers {
  import opened Values
  import opened OrderBooks
  import opened Portfolios
  import opened Experiments
  import opened Markets
  import opened OfferProcessing
  import opened OfferProcessorMarkets
  import opened PausableTimers
  import opened Servers

  /** The sending side of the server. */
  class Outbox {
    var sent: seq<Envelope>
    // The remaining times broadcast as time updates, which are kept apart from the other messages.
    var times: seq<int>

    constructor ()
      ensures sent == [] && times == []
    {
      sent, times := [], [];
    }

    method SendTime(remaining: int)
      modifies this`times
      ensures times == old(times) + [remaining]
    {
      times := times + [remaining];
    }

    method Send(id: nat, msg: Message)
      modifies this`sent
      ensures sent == old(sent) + [Envelope(Only(id), msg)]
    {
      sent := sent + [Envelope(Only(id), msg)];
    }

    method SendAll(msg: Message)
      modifies this`sent
      ensures sent == old(sent) + [Envelope(All, msg)]
    {
      sent := sent + [Envelope(All, msg)];
    }

    method SendAdmins(msg: Message)
      modifies this`sent
      ensures sent == old(sent) + [Envelope(Admins, msg)]
    {
      sent := sent + [Envelope(Admins, msg)];
    }
  }

  // ---- Experiment ----------------------------------------------------------

  class Experiment {
    const config: SharedConfiguration
    const expState: SharedExperimentState
    // Ids are handed out as the size of the map, so the map is kept as the list of its values.
    var subjects: seq<Subject>
    var payoffs: map<nat, int>

    constructor (config: SharedConfiguration, expState: SharedExperimentState)
      ensures this.config == config && this.expState == expState && subjects == []
    {
      this.config, this.expState, subjects, payoffs := config, expState, [], map[];
    }

    method AddSubject() returns (id: nat)
      modifies this
      ensures id == |old(subjects)| && subjects == old(subjects) + [Subject(id, "")]
    {
      id := |subjects|;
      subjects := subjects + [Subject(id, "")];
    }

    method StartExperiment()
      modifies expState
      ensures expState.value == old(expState.value).(status := Status.Running)
    {
      expState.value := expState.value.(status := Status.Running);
    }

    method EndExperiment()
      modifies expState
      ensures expState.value == old(expState.value).(status := Status.Ended)
    {
      expState.value := expState.value.(status := Status.Ended);
    }

    method StartInstructions()
      modifies expState
      ensures expState.value == old(expState.value).(stage := Instructions)
    {
      expState.value := expState.value.(stage := Instructions);
    }

    method StartRound()
      modifies expState
      ensures expState.value == ExperimentState(
                                  if old(expState.value).stage.PreExperiment? then 1 else old(expState.value).round + 1,
                                  Status.Running, Round)
    {
      if expState.value.stage.PreExperiment? {
        expState.value := expState.value.(round := 1);
      } else {
        expState.value := expState.value.(round := expState.value.round + 1);
      }
      expState.value := expState.value.(status := Status.Running);
      expState.value := expState.value.(stage := Round);
    }

    method StartReview()
      modifies expState
      ensures expState.value == old(expState.value).(stage := Review)
    {
      expState.value := expState.value.(stage := Review);
    }

    method Pause()
      modifies expState
      ensures expState.value == old(expState.value).(status := Status.Paused)
    {
      expState.value := expState.value.(status := Status.Paused);
    }

    method Resume()
      modifies expState
      ensures expState.value == old(expState.value).(status := Status.Running)
    {
      expState.value := expState.value.(status := Status.Running);
    }

    method StartPayouts()
      modifies expState
      ensures expState.value == old(expState.value).(stage := Payouts)
    {
      expState.value := expState.value.(stage := Payouts);
    }

    method TakeName(id: nat, name: string)
      requires id < |subjects|
      modifies this
      ensures subjects == old(subjects)[id := old(subjects)[id].(name := name)]
    {
      subjects := subjects[id := subjects[id].(name := name)];
    }

    method SetPayoff(id: nat, cents: int)
      modifies this`payoffs
      ensures payoffs == old(payoffs)[id := cents]
    {
      payoffs := payoffs[id := cents];
    }

    method SetConfiguration(config: Configuration)
      modifies this.config
      ensures this.config.value == config
    {
      this.config.value := config;
    }
  }

  // ---- Payoffs -------------------------------------------------------------

  /** The cast of a real number to `int`: towards zero. */
  function Truncated(x: real): int {
    if x >= 0.0 then x.Floor else -((-x).Floor)
  }

  /** Cash and margin in cents, at so much experiment money a dollar. */
  function PayoffCents(port: Folio, ePerDollar: real): int
    requires ePerDollar != 0.0
  {
    Truncated((ItemCount(port, Cash) + ItemCount(port, Margin)) as real * 100.0 / ePerDollar)
  }

  /** So many cents are worth no more than `worth`, in debts as in gains, and less than a cent less. */
  predicate Fair(worth: real, cents: real, e: real) {
    if worth >= 0.0 then cents * e <= worth < cents * e + e else cents * e - e < worth <= cents * e
  }

  lemma TruncatedIsFair(x: real, e: real)
    requires e > 0.0
    ensures Fair(x * e, Truncated(x) as real, e)
  {
    TruncatedBounds(x);
    SameSign(x, e);
    hide Truncated;
    var n := Truncated(x) as real;
    if x >= 0.0 {
      WholeParts(x, n, e);
    } else {
      WholePartsBelow(x, n, e);
    }
  }

  lemma PayoffIsFair(port: Folio, ePerDollar: real)
    requires ePerDollar > 0.0
    ensures Fair((ItemCount(port, Cash) + ItemCount(port, Margin)) as real * 100.0,
                 PayoffCents(port, ePerDollar) as real, ePerDollar)
  {
    hide Fair, Truncated;
    var worth := (ItemCount(port, Cash) + ItemCount(port, Margin)) as real * 100.0;
    var exact := worth / ePerDollar;
    TruncatedIsFair(exact, ePerDollar);
    assert exact * ePerDollar == worth;
    assert PayoffCents(port, ePerDollar) == Truncated(exact);
  }

  lemma SameSign(x: real, e: real)
    requires e > 0.0
    ensures x >= 0.0 <==> x * e >= 0.0
  {
  }

  lemma WholeParts(x: real, n: real, e: real)
    requires e > 0.0 && n <= x < n + 1.0
    ensures n * e <= x * e < n * e + e
  {
    var left := x - n;
    assert left * e == x * e - n * e;
    assert left * e >= 0.0;
    ScaleLess(left, 1.0, e);
  }

  lemma WholePartsBelow(x: real, n: real, e: real)
    requires e > 0.0 && n - 1.0 < x <= n
    ensures n * e - e < x * e <= n * e
  {
    var over := n - x;
    assert over * e == n * e - x * e;
    assert over * e >= 0.0;
    ScaleLess(over, 1.0, e);
  }

  lemma TruncatedBounds(x: real)
    ensures var n := Truncated(x) as real;
            if x >= 0.0 then n <= x < n + 1.0 else n - 1.0 < x <= n
  {
  }

  lemma ScaleLess(x: real, y: real, e: real)
    requires e > 0.0 && x < y
    ensures x * e < y * e
  {
    assert (y - x) * e > 0.0;
  }

  // ---- Portfolios at period ends -----------------------------------------

  class PeriodAssetProcessor {
    const market: Market
    const portfolios: PortfolioSet

    constructor (market: Market, portfolios: PortfolioSet)
      ensures this.market == market && this.portfolios == portfolios
    {
      this.market, this.portfolios := market, portfolios;
    }

    method SetPortfolio(id: nat, port: Folio)
      modifies portfolios
      ensures portfolios.folios == old(portfolios.folios)[id := port]
    {
      portfolios.folios := portfolios.folios[id := port];
    }

    /** Every portfolio in turn, in the order the map iterates. */
    method PayDividend(dividend: nat)
      modifies portfolios
      ensures portfolios.folios == Servers.PayDividend(old(portfolios.folios), dividend)
    {
      var left := portfolios.folios.Keys;
      while left != {}
        invariant left <= portfolios.folios.Keys == old(portfolios.folios).Keys
        invariant forall id | id in portfolios.folios ::
                    portfolios.folios[id] == if id in left then old(portfolios.folios)[id]
                                             else Paid(old(portfolios.folios)[id], dividend)
        decreases left
      {
        var id :| id in left;
        var port := portfolios.folios[id];
        var nShares, nDerivs := ItemCount(port, Shares), ItemCount(port, Derivatives);
        port := Transact(port, Cash, nShares * dividend);
        port := Transact(port, Margin, -(nDerivs * dividend));
        portfolios.folios := portfolios.folios[id := port];
        left := left - {id};
      }
    }

    method ClearMarket()
      requires market.Valid()
      modifies market.bids, market.asks
      ensures market.Contents() == EMPTY_BOOK
    {
      market.Clear();
    }
  }

  // ---- Commands --------------------------------------------------------

  class ExperimentCommandProcessor {
    const config: SharedConfiguration
    const exp: Experiment
    const timer: PausableTimer
    const proc: PeriodAssetProcessor
    var counter: nat
    var prevPortfolios: Folios

    constructor (config: SharedConfiguration, exp: Experiment, timer: PausableTimer, proc: PeriodAssetProcessor)
      requires exp.config == config && proc.market.Valid()
      ensures Valid()
      ensures this.config == config && this.exp == exp && this.timer == timer && this.proc == proc
      ensures counter == 0
    {
      this.config, this.exp, this.timer, this.proc := config, exp, timer, proc;
      counter, prevPortfolios := 0, map[];
    }

    ghost predicate Valid() {
      exp.config == config && proc.market.Valid()
    }

    ghost function Footprint(): set<object> {
      {config, exp, exp.expState, timer, proc.market.bids, proc.market.asks, proc.portfolios, this}
    }

    function View(): State
      reads this, config, exp, exp.expState, timer, proc.market.bids, proc.market.asks, proc.portfolios
    {
      State(
        Desk(exp.expState.value, config.value, proc.market.Contents(), proc.portfolios.folios),
        exp.subjects, counter, timer.View())
    }

    method StartValidity() returns (val: StartValidity)
      ensures val == StartVerdict(View())
    {
      if exp.expState.value.status != Status.NotStarted {
        return RejectedAlreadyStarted;
      }
      if config.value.nPlayers == 0 {
        return RejectedNoConfig;
      }
      if config.value.nPlayers != |exp.subjects| {
        return RejectedIncorrectPlayersCount;
      }
      return Servers.StartValidity.Accepted;
    }

    method ProcessStartExperiment() returns (val: Attempt<StartValidity>)
      requires Valid()
      modifies proc.portfolios, exp.expState
      ensures var s := old(View());
              && (val.Threw?
                  <==> StartVerdict(s).Accepted? && Allocate(s.desk.config, s.desk.folios, |s.subjects|).Threw?)
              && (val.Did? ==> val.value == StartVerdict(s))
              && (val.Did? && !val.value.Accepted? ==> View() == s)
              && (val.Did? && val.value.Accepted? ==>
                    var started := WithExp(s, s.desk.exp.(status := Status.Running));
                    View() == started.(desk := started.desk.(
                                         folios := Allocate(s.desk.config, s.desk.folios, |s.subjects|).value)))
    {
      var verdict := StartValidity();
      if verdict.Accepted? {
        for id := 0 to |exp.subjects|
          invariant View() == old(View()).(desk := old(View()).desk.(folios := proc.portfolios.folios))
          invariant Allocate(config.value, old(proc.portfolios.folios), id) == Did(proc.portfolios.folios)
        {
          var conf := config.value.GetSubjectConfiguration(id);
          if conf.Threw? {
            AllocationFails(config.value, old(proc.portfolios.folios), id + 1, |exp.subjects|);
            return Threw;
          }
          proc.SetPortfolio(id, conf.value.initAlloc);
        }
        exp.StartExperiment();
      }
      return Did(verdict);
    }

    method ProcessStartRound(now: int)
      requires Valid()
      modifies exp.expState, timer, this
      ensures var s := old(View());
              View() == WithExp(s, ExperimentState(
                                     if s.desk.exp.stage.PreExperiment? then 1 else s.desk.exp.round + 1,
                                     Status.Running, Round)).(timer := Timer(TimerState.Running, []))
      ensures timer.works == Armed(config.value.roundTime * 1000, now)
      ensures prevPortfolios == proc.portfolios.folios
    {
      exp.StartRound();
      timer.Clear();
      timer.SetDuration(config.value.roundTime * 1000, now);
      timer.Start(now);
      prevPortfolios := proc.portfolios.folios;
    }

    method ProcessEndRound()
      requires Valid()
      modifies proc.market.bids, proc.market.asks
      ensures View() == old(View()).(desk := old(View()).desk.(book := EMPTY_BOOK))
    {
      proc.ClearMarket();
    }

    method ProcessStartDividends() returns (dividend: Attempt<nat>)
      requires Valid()
      modifies proc.portfolios
      ensures var s := old(View());
              var conf := s.desk.config.GetRoundConfiguration(s.desk.exp.round);
              && (dividend.Threw? <==> conf.Threw?)
              && (dividend.Did? ==>
                    && dividend.value == conf.value.dividend
                    && View() == s.(desk := s.desk.(folios := Servers.PayDividend(s.desk.folios, dividend.value))))
    {
      var conf := config.value.GetRoundConfiguration(exp.expState.value.round);
      if conf.Threw? {
        return Threw;
      }
      proc.PayDividend(conf.value.dividend);
      return Did(conf.value.dividend);
    }

    method ProcessStartReview(now: int)
      requires Valid()
      modifies exp.expState, timer
      ensures var s := old(View());
              View() == WithExp(s, s.desk.exp.(stage := Review)).(timer := Timer(TimerState.Running, []))
      ensures timer.works == Armed(config.value.reviewTime * 1000, now)
    {
      exp.StartReview();
      timer.Clear();
      timer.SetDuration(config.value.reviewTime * 1000, now);
      timer.Start(now);
    }

    method ProcessEndReview() returns (another: bool)
      ensures another <==> View().desk.exp.round < View().desk.config.nRounds
    {
      return exp.expState.value.round < config.value.nRounds;
    }

    method ProcessPause(now: int)
      requires Valid()
      modifies exp.expState, timer
      ensures var s := old(View());
              View() == WithExp(s, s.desk.exp.(status := Status.Paused)).(timer := Servers.Pause(s.timer))
      ensures timer.works == old(timer.works).Pause(now)
    {
      exp.Pause();
      timer.Pause(now);
    }

    method ProcessResume(now: int)
      requires Valid()
      modifies exp.expState, timer
      ensures var s := old(View());
              View() == WithExp(s, s.desk.exp.(status := Status.Running)).(timer := Servers.Start(s.timer))
      ensures timer.works == old(timer.works).Start(now)
    {
      exp.Resume();
      timer.Start(now);
    }

    /** Everybody's payoff, unless the exchange rate is zero; the lookups come first to fail. */
    method ProcessStartPayouts() returns (done: Attempt<()>)
      requires Valid()
      modifies exp.expState, exp`payoffs, this
      ensures done.Threw? <==> Servers.StartPayouts(old(View())).Threw?
      ensures done.Did? ==> View() == Servers.StartPayouts(old(View())).value.state
      ensures done.Did? ==>
                forall id: nat | id < |exp.subjects| && config.value.subConfigs[id].ePerDollar != 0.0 ::
                  && id in exp.payoffs
                  && exp.payoffs[id] == PayoffCents(proc.portfolios.folios[id], config.value.subConfigs[id].ePerDollar)
    {
      counter := 0;
      for id := 0 to |exp.subjects|
        invariant forall k: nat | k < id :: k in proc.portfolios.folios && k in config.value.subConfigs
        invariant View() == old(View()).(counter := 0)
        invariant forall k: nat | k < id && config.value.subConfigs[k].ePerDollar != 0.0 ::
                    && k in exp.payoffs
                    && exp.payoffs[k] == PayoffCents(proc.portfolios.folios[k], config.value.subConfigs[k].ePerDollar)
      {
        if id !in proc.portfolios.folios || id !in config.value.subConfigs {
          return Threw;
        }
        var ePerDollar := config.value.subConfigs[id].ePerDollar;
        if ePerDollar != 0.0 {
          exp.SetPayoff(id, PayoffCents(proc.portfolios.folios[id], ePerDollar));
        }
      }
      exp.StartPayouts();
      return Did(());
    }

    method ProcessStartInstructions() returns (val: StartValidity)
      requires Valid()
      modifies exp.expState, this
      ensures val == StartVerdict(old(View()))
      ensures !val.Accepted? ==> View() == old(View())
      ensures val.Accepted? ==>
                View() == WithExp(old(View()), old(View()).desk.exp.(stage := Instructions)).(counter := 0)
    {
      val := StartValidity();
      if val.Accepted? {
        counter := 0;
        exp.StartInstructions();
      }
    }

    method ProcessReady() returns (done: bool)
      requires Valid()
      modifies this
      ensures View() == old(View()).(counter := old(counter) + 1)
      ensures done <==> counter == |exp.subjects|
    {
      counter := counter + 1;
      return counter == |exp.subjects|;
    }

    method ProcessTakeName(id: nat, name: string) returns (done: bool)
      requires Valid() && id < |exp.subjects|
      modifies this, exp
      ensures View() == old(View()).(
                          counter := old(counter) + 1,
                          subjects := old(exp.subjects)[id := old(exp.subjects)[id].(name := name)])
      ensures done <==> counter == |exp.subjects|
    {
      counter := counter + 1;
      exp.TakeName(id, name);
      done := counter == |exp.subjects|;
    }
  }

  lemma {:induction false} AllocationFails(config: Configuration, folios: Folios, i: nat, n: nat)
    requires i <= n && Allocate(config, folios, i).Threw?
    ensures Allocate(config, folios, n).Threw?
  {
    if i < n {
      AllocationFails(config, folios, i, n - 1);
    }
  }
}
