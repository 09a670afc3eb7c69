/** What a subject's margin account stands for. */
module Margins {
  import opened Values
  import opened Portfolios
  import opened Experiments
  import opened OfferProcessing
  import opened MarketSafety
  import opened Servers
  import opened Ledgers
  import opened Reachable
  import opened Conservation
  import opened Protocol

  /** The step creates a unit for the subject. */
  predicate Creates(w: World, e: Event, p: nat) {
    e == Create(p) && JudgeCreate(w.state.desk, p) == Did(CreationValidity.Accepted)
  }

  function MarginReq(w: World): nat {
    var conf := w.state.desk.config.GetRoundConfiguration(w.state.desk.exp.round);
    if conf.Did? then conf.value.marginReq else 0
  }

  function MarginOf(w: World, p: nat): int {
    Held(w.state.desk.folios, p, Margin)
  }

  function OwedBy(w: World, p: nat): int {
    Held(w.state.desk.folios, p, Derivatives)
  }

  /** How one step moves a subject's margin and units owed. */
  ghost predicate MarginStep(w: World, w': World, p: nat, created: bool) {
    && PaidOut(w') >= PaidOut(w)
    && (created ==> PaidOut(w') == PaidOut(w))
    && OwedBy(w', p) == OwedBy(w, p) + (if created then 1 else 0)
    && MarginOf(w', p)
        == MarginOf(w, p) - Due(OwedBy(w, p), PaidOut(w') - PaidOut(w)) + (if created then MarginReq(w) else 0)
  }

  lemma SubmitMargin(w: World, e: Event, w': World, p: nat)
    requires Sound(w) && Next(w, e, w') && e.Submit?
    ensures OwedBy(w', p) == OwedBy(w, p) && MarginOf(w', p) == MarginOf(w, p)
  {
    hide Next, Handle, TradeNotices, ProcessOffer, Judge;
    var d, o := w.state.desk, OfferOf(w, e);
    SubmitShape(w, e, w');
    if Judge(d, o) == Did(OfferValidity.Accepted) {
      OfferHoldings(d, w.nextId, o, e.sorted);
    } else {
      RejectedKeepsState(w, e, w');
    }
  }

  lemma CreateMargin(w: World, e: Event, w': World, p: nat)
    requires Sound(w) && Next(w, e, w') && e.Create?
    ensures OwedBy(w', p) == OwedBy(w, p) + (if Creates(w, e, p) then 1 else 0)
    ensures MarginOf(w', p) == MarginOf(w, p) + (if Creates(w, e, p) then MarginReq(w) else 0)
  {
    if JudgeCreate(w.state.desk, e.player) != Did(CreationValidity.Accepted) {
      assert w'.state == w.state;
    }
  }

  lemma RoundEndMargin(w: World, e: Event, w': World, p: nat)
    requires Sound(w) && Next(w, e, w') && e.TimerExpires? && w.state.timer.callbacks == [EndsRound]
    ensures OwedBy(w', p) == OwedBy(w, p)
    ensures Sum(Handle(w, e).value.out, DividendsPaid) >= 0
    ensures MarginOf(w', p) == MarginOf(w, p) - Due(OwedBy(w, p), Sum(Handle(w, e).value.out, DividendsPaid))
  {
    ExpireCalls(w.state, EndsRound);
    var s := w.state.(timer := w.state.timer.(state := TimerState.Ended));
    EndRoundReply(s);
    EndRoundSums(s, DividendsPaid);
    DueIsProduct(OwedBy(w, p), s.desk.config.GetRoundConfiguration(s.desk.exp.round).value.dividend);
  }

  lemma OtherMargin(w: World, e: Event, w': World)
    requires Sound(w) && Next(w, e, w') && !AcceptedStart(w, e)
    requires !e.Submit? && !e.Create? && !e.Retract?
    requires e.TimerExpires? ==> w.state.timer.callbacks != [EndsRound]
    ensures w'.state.desk.folios == w.state.desk.folios
    ensures Sum(Handle(w, e).value.out, DividendsPaid) == 0
  {
    QuietReply(w, e, DividendsPaid);
    if e.TimerExpires? && w.state.timer.callbacks == [EndsReview] {
      ExpireCalls(w.state, EndsReview);
    }
  }

  lemma MarketMovesMargin(w: World, e: Event, w': World, p: nat)
    requires Sound(w) && Next(w, e, w') && (e.Submit? || e.Create? || e.Retract?)
    ensures OwedBy(w', p) == OwedBy(w, p) + (if Creates(w, e, p) then 1 else 0)
    ensures MarginOf(w', p) == MarginOf(w, p) + (if Creates(w, e, p) then MarginReq(w) else 0)
  {
    if e.Submit? {
      SubmitMargin(w, e, w', p);
    } else if e.Create? {
      CreateMargin(w, e, w', p);
    }
  }

  lemma MarketMarginStep(w: World, e: Event, w': World, p: nat)
    requires Sound(w) && Next(w, e, w') && (e.Submit? || e.Create? || e.Retract?)
    ensures MarginStep(w, w', p, Creates(w, e, p))
  {
    hide Next;
    PaidIn(w, e, w');
    MarketStepConserves(w, e, w');
    MarketMovesMargin(w, e, w', p);
  }

  lemma NextMovesMargin(w: World, e: Event, w': World, p: nat)
    requires Sound(w) && Next(w, e, w') && !AcceptedStart(w, e)
    ensures MarginStep(w, w', p, Creates(w, e, p))
  {
    hide Next;
    if e.Submit? || e.Create? || e.Retract? {
      MarketMarginStep(w, e, w', p);
    } else {
      PaidIn(w, e, w');
      if e.TimerExpires? && w.state.timer.callbacks == [EndsRound] {
        RoundEndMargin(w, e, w', p);
      } else {
        OtherMargin(w, e, w');
      }
    }
  }

  lemma PaidIn(w: World, e: Event, w': World)
    requires Next(w, e, w')
    ensures PaidOut(w') == PaidOut(w) + Sum(Handle(w, e).value.out, DividendsPaid)
  {
    SumConcat(w.log, Handle(w, e).value.out, DividendsPaid);
  }

  // ---- Obligations -------------------------------------------------------

  /** One creation of the steps before `t`: its margin less every dividend paid between it and step `j`. */
  function Obligation(ws: seq<World>, es: seq<Event>, t: nat, j: nat, p: nat): int
    requires t < |es| && |ws| == |es| + 1 && j < |ws|
  {
    if Creates(ws[t], es[t], p) then MarginReq(ws[t]) - (PaidOut(ws[j]) - PaidOut(ws[t])) else 0
  }

  function Obligations(ws: seq<World>, es: seq<Event>, i: nat, t: nat, j: nat, p: nat): int
    requires i <= t <= |es| && |ws| == |es| + 1 && j < |ws|
  {
    if t == i then 0 else Obligations(ws, es, i, t - 1, j, p) + Obligation(ws, es, t - 1, j, p)
  }

  function Creations(ws: seq<World>, es: seq<Event>, i: nat, t: nat, p: nat): nat
    requires i <= t <= |es| && |ws| == |es| + 1
  {
    if t == i then 0 else Creations(ws, es, i, t - 1, p) + if Creates(ws[t - 1], es[t - 1], p) then 1 else 0
  }

  lemma {:induction false} DueOneMore(units: int, amount: nat)
    ensures Due(units + 1, amount) == Due(units, amount) + amount
  {
    if amount > 0 {
      DueOneMore(units, amount - 1);
    }
  }

  lemma {:induction false} DueSum(a: int, b: int, amount: nat)
    ensures Due(a + b, amount) == Due(a, amount) + Due(b, amount)
  {
    if amount > 0 {
      DueSum(a, b, amount - 1);
    }
  }

  /** A later dividend comes out of every obligation. */
  lemma {:induction false} ObligationsLater(ws: seq<World>, es: seq<Event>, i: nat, t: nat, j: nat, p: nat)
    requires i <= t <= |es| && |ws| == |es| + 1 && j + 1 < |ws| && PaidOut(ws[j + 1]) >= PaidOut(ws[j])
    ensures Obligations(ws, es, i, t, j + 1, p)
         == Obligations(ws, es, i, t, j, p) - Due(Creations(ws, es, i, t, p), PaidOut(ws[j + 1]) - PaidOut(ws[j]))
  {
    var paid := PaidOut(ws[j + 1]) - PaidOut(ws[j]);
    if t > i {
      ObligationsLater(ws, es, i, t - 1, j, p);
      DueOneMore(Creations(ws, es, i, t - 1, p), paid);
    } else {
      DueIsProduct(0, paid);
    }
  }

  /** The margin account at step `j`, from its value at step `i`. */
  ghost predicate MarginExplained(ws: seq<World>, es: seq<Event>, i: nat, j: nat, p: nat)
    requires i <= j < |ws| && |ws| == |es| + 1
  {
    && PaidOut(ws[j]) >= PaidOut(ws[i])
    && OwedBy(ws[j], p) == OwedBy(ws[i], p) + Creations(ws, es, i, j, p)
    && MarginOf(ws[j], p) == MarginOf(ws[i], p) - Due(OwedBy(ws[i], p), PaidOut(ws[j]) - PaidOut(ws[i]))
                             + Obligations(ws, es, i, j, j, p)
  }

  lemma ExplainedStep(ws: seq<World>, es: seq<Event>, i: nat, j: nat, p: nat)
    requires i <= j < |es| && |ws| == |es| + 1 && MarginExplained(ws, es, i, j, p)
    requires MarginStep(ws[j], ws[j + 1], p, Creates(ws[j], es[j], p))
    ensures MarginExplained(ws, es, i, j + 1, p)
  {
    var paid := PaidOut(ws[j + 1]) - PaidOut(ws[j]);
    ObligationsLater(ws, es, i, j, j, p);
    DueSum(OwedBy(ws[i], p), Creations(ws, es, i, j, p), paid);
    DueAdds(OwedBy(ws[i], p), PaidOut(ws[j]) - PaidOut(ws[i]), paid);
  }

  /**
   * From an accepted start on, in every run: a subject owes one unit more for
   * each of its creations, and its margin is what it started with, less the
   * dividends on the units it owed then, plus for each creation the margin
   * required in its round less every dividend paid since.
   */
  lemma {:induction false} MarginIsObligations(ws: seq<World>, es: seq<Event>, k: nat, j: nat, p: nat)
    requires IsRun(ws, es) && k < j < |ws| && AcceptedStart(ws[k], es[k])
    ensures MarginExplained(ws, es, k + 1, j, p)
  {
    hide Next;
    if j > k + 1 {
      MarginIsObligations(ws, es, k, j - 1, p);
      LaterStep(ws, es, k, j - 1);
      NextMovesMargin(ws[j - 1], es[j - 1], ws[j], p);
      ExplainedStep(ws, es, k + 1, j - 1, p);
    }
  }

  // ---- When margin stays covered ------------------------------------------

  /** The dividends of rounds `from` to `to - 1`, counting rounds from 0. */
  function DividendsOf(config: Configuration, from: nat, to: nat): nat
    requires from <= to <= |config.perConfigs|
  {
    if from == to then 0 else DividendsOf(config, from, to - 1) + config.perConfigs[to - 1].dividend
  }

  /** Each round's margin covers all the dividends from that round on. */
  ghost predicate MarginsCover(config: Configuration) {
    forall r: nat | r < |config.perConfigs| ::
      config.perConfigs[r].marginReq >= DividendsOf(config, r, |config.perConfigs|)
  }

  function MarkValue(m: Mark): int {
    if m.DividendPaid? then m.dividend else 0
  }

  function MarkSum(marks: seq<Mark>): int {
    if marks == [] then 0 else MarkSum(marks[..|marks| - 1]) + MarkValue(marks[|marks| - 1])
  }

  lemma MarkSumOne(a: Mark)
    ensures MarkSum([a]) == MarkValue(a)
  {
    assert [a][..0] == [];
  }

  lemma MarkSumTwo(a: Mark, b: Mark)
    ensures MarkSum([a, b]) == MarkValue(a) + MarkValue(b)
  {
    assert [a, b] == [a] + [b];
    MarkSumConcat([a], [b]);
    MarkSumOne(a);
    MarkSumOne(b);
  }

  lemma MarkSumThree(a: Mark, b: Mark, c: Mark)
    ensures MarkSum([a, b, c]) == MarkValue(a) + MarkValue(b) + MarkValue(c)
  {
    assert [a, b, c] == ([a] + [b]) + [c];
    MarkSumConcat([a] + [b], [c]);
    MarkSumConcat([a], [b]);
    MarkSumOne(a);
    MarkSumOne(b);
    MarkSumOne(c);
  }

  lemma {:induction false} MarkSumConcat(a: seq<Mark>, b: seq<Mark>)
    ensures MarkSum(a + b) == MarkSum(a) + MarkSum(b)
  {
    if b == [] {
      assert a + b == a;
    } else {
      assert (a + b)[..|a + b| - 1] == a + b[..|b| - 1];
      MarkSumConcat(a, b[..|b| - 1]);
    }
  }

  /** The dividends in a log are those in its timeline. */
  lemma {:induction false} SumOfTimeline(log: seq<Envelope>)
    ensures Sum(log, DividendsPaid) == MarkSum(Timeline(log))
  {
    if log != [] {
      var front, m := log[..|log| - 1], log[|log| - 1].msg;
      SumOfTimeline(front);
      MarkSumConcat(Timeline(front), MarksOf(m));
      MarkSumOfMessage(m);
    }
  }

  lemma MarkSumOfMessage(m: Message)
    ensures MarkSum(MarksOf(m)) == Entry(DividendsPaid, m)
  {
    if MarksOf(m) != [] {
      assert MarksOf(m) == [MarksOf(m)[0]];
      MarkSumOne(MarksOf(m)[0]);
    }
  }

  /** Rounds whose dividend is paid after that many expiries. */
  function RoundsPaid(config: Configuration, expiries: nat): nat {
    if expiries < 2 * config.nRounds then (expiries + 1) / 2 else config.nRounds
  }

  lemma {:induction false} CourseDividends(config: Configuration, expiries: nat)
    requires |config.perConfigs| == config.nRounds && config.nRounds >= 1
    ensures MarkSum(Course(config, expiries)) == DividendsOf(config, 0, RoundsPaid(config, expiries))
  {
    if expiries == 0 {
      var first := Course(config, 0)[0];
      MarkSumOne(first);
      assert Course(config, 0) == [first];
    } else {
      var n := expiries - 1;
      CourseDividends(config, n);
      CourseGrows(config, n);
      ExpiryDividend(config, n);
    }
  }

  lemma CourseGrows(config: Configuration, n: nat)
    requires |config.perConfigs| == config.nRounds
    ensures MarkSum(Course(config, n + 1)) == MarkSum(Course(config, n)) + MarkSum(MarksOfExpiry(config, n))
  {
    MarkSumConcat(Course(config, n), MarksOfExpiry(config, n));
  }

  lemma ExpiryDividend(config: Configuration, expiries: nat)
    requires |config.perConfigs| == config.nRounds && config.nRounds >= 1
    ensures DividendsOf(config, 0, RoundsPaid(config, expiries + 1))
         == DividendsOf(config, 0, RoundsPaid(config, expiries)) + MarkSum(MarksOfExpiry(config, expiries))
  {
    var marks := MarksOfExpiry(config, expiries);
    if expiries < 2 * config.nRounds && expiries % 2 == 0 {
      MarkSumThree(marks[0], marks[1], marks[2]);
      assert marks == [marks[0], marks[1], marks[2]];
      assert (expiries + 1) / 2 == expiries / 2 && (expiries + 2) / 2 == expiries / 2 + 1;
    } else {
      MarkSumTwo(marks[0], marks[1]);
      assert marks == [marks[0], marks[1]];
    }
  }

  /** In an orderly run the dividends paid since the start are those of the rounds gone by. */
  lemma PaidByRounds(ws: seq<World>, es: seq<Event>, k: nat, j: nat)
    requires IsRun(ws, es) && k < j < |ws| && OrderlyStart(ws[k], es[k]) && OrderlyBetween(ws, es, k, j)
    ensures |ws[k].state.desk.config.perConfigs| == ws[k].state.desk.config.nRounds
    ensures PaidOut(ws[j])
         == DividendsOf(ws[k].state.desk.config, 0, RoundsPaid(ws[k].state.desk.config, Expiries(es, k + 1, j)))
  {
    hide Next;
    RunsItsCourse(ws, es, k, j);
    var config := ws[k].state.desk.config;
    SumOfTimeline(ws[j].log[|ws[k].log|..]);
    CourseDividends(config, Expiries(es, k + 1, j));
    SumConcat(ws[k].log, ws[j].log[|ws[k].log|..], DividendsPaid);
    LogsExtend(ws, es, k, j);
    RunIsSound(ws, es, k);
    NothingPaidBeforeStart(ws, es, k);
  }

  lemma {:induction false} DividendsSplit(config: Configuration, a: nat, b: nat, c: nat)
    requires a <= b <= c <= |config.perConfigs|
    ensures DividendsOf(config, a, c) == DividendsOf(config, a, b) + DividendsOf(config, b, c)
  {
    if b < c {
      DividendsSplit(config, a, b, c - 1);
    }
  }

  lemma {:induction false} ExpiriesGrow(es: seq<Event>, from: nat, a: nat, b: nat)
    requires from <= a <= b <= |es|
    ensures Expiries(es, from, a) <= Expiries(es, from, b)
  {
    if a < b {
      ExpiriesGrow(es, from, a, b - 1);
    }
  }

  /** Each obligation of an orderly run is covered, if the configured margins cover the dividends. */
  lemma ObligationCovered(ws: seq<World>, es: seq<Event>, k: nat, t: nat, j: nat, p: nat)
    requires IsRun(ws, es) && k < t < j < |ws| && OrderlyStart(ws[k], es[k]) && OrderlyBetween(ws, es, k, j)
    requires MarginsCover(ws[k].state.desk.config)
    ensures Obligation(ws, es, t, j, p) >= 0
  {
    hide Next;
    hide Handle;
    var config := ws[k].state.desk.config;
    RunsItsCourse(ws, es, k, t);
    PaidByRounds(ws, es, k, t);
    PaidByRounds(ws, es, k, j);
    ExpiriesGrow(es, k + 1, t, j);
    if Creates(ws[t], es[t], p) {
      var r := Expiries(es, k + 1, t) / 2;
      assert ws[t].state.desk.exp.stage.Round?;
      assert RoundsPaid(config, Expiries(es, k + 1, t)) == r;
      var r' := RoundsPaid(config, Expiries(es, k + 1, j));
      DividendsSplit(config, 0, r, r');
      DividendsSplit(config, r, r', config.nRounds);
    }
  }

  lemma {:induction false} ObligationsCovered(ws: seq<World>, es: seq<Event>, k: nat, t: nat, j: nat, p: nat)
    requires IsRun(ws, es) && k < t <= j < |ws| && OrderlyStart(ws[k], es[k]) && OrderlyBetween(ws, es, k, j)
    requires MarginsCover(ws[k].state.desk.config)
    ensures Obligations(ws, es, k + 1, t, j, p) >= 0
  {
    hide Next;
    if t > k + 1 {
      ObligationsCovered(ws, es, k, t - 1, j, p);
      ObligationCovered(ws, es, k, t - 1, j, p);
    }
  }

  /**
   * With margins that cover the remaining dividends and no margin or debt to
   * start with, no margin ever goes negative.
   */
  lemma MarginNeverNegative(ws: seq<World>, es: seq<Event>, k: nat, j: nat, p: nat)
    requires IsRun(ws, es) && k < j < |ws| && OrderlyStart(ws[k], es[k]) && OrderlyBetween(ws, es, k, j)
    requires MarginsCover(ws[k].state.desk.config)
    requires MarginOf(ws[k + 1], p) == OwedBy(ws[k + 1], p) == 0
    ensures MarginOf(ws[j], p) >= 0
  {
    hide Next;
    MarginIsObligations(ws, es, k, j, p);
    ObligationsCovered(ws, es, k, j, j, p);
    DueIsProduct(0, PaidOut(ws[j]) - PaidOut(ws[k + 1]));
  }
}
