/** From the configuration file to the run: what the file lists is what is handed out, paid, and asked of creators. */
module FileRuns {
  import opened Values
  import opened OrderBooks
  import opened Portfolios
  import opened Experiments
  import opened OfferProcessing
  import opened Servers
  import opened Clocks
  import opened Reachable
  import opened Trading
  import opened MarketRules
  import opened Conservation
  import opened Protocol
  import opened Margins
  import opened TimedRuns
  import opened OfferVerdicts
  import opened CreationVerdicts
  import opened ConfigurationReader

  /** The experiment starts at step `k` from what the file describes, and has run in order up to step `j`. */
  ghost predicate RunsFile(raw: Raw, ws: seq<World>, es: seq<Event>, k: nat, j: nat) {
    && IsRun(ws, es) && k < j < |ws|
    && es[k].RequestStart? && StartVerdict(ws[k].state).Accepted?
    && Describes(raw, ws[k].state.desk.config)
    && OrderlyBetween(ws, es, k, j)
  }

  lemma RunsOnCourse(raw: Raw, ws: seq<World>, es: seq<Event>, k: nat, j: nat)
    requires RunsFile(raw, ws, es, k, j)
    ensures OrderlyStart(ws[k], es[k]) && OnCourse(ws, k, j, Expiries(es, k + 1, j))
  {
    hide Next, Describes;
    AtLeastOneRound(raw, ws, es, k, j);
    RunsItsCourse(ws, es, k, j);
  }

  lemma AtLeastOneRound(raw: Raw, ws: seq<World>, es: seq<Event>, k: nat, j: nat)
    requires RunsFile(raw, ws, es, k, j)
    ensures OrderlyStart(ws[k], es[k])
  {
    RunStep(ws, es, k);
    StartThrowsIff(raw, ws[k]);
    LoadedIsWellConfigured(raw, ws[k].state.desk.config);
  }

  // ---- Allocations -------------------------------------------------------------

  /** The start gives each subject the portfolio that the file gives its role. */
  lemma FileAllocates(raw: Raw, ws: seq<World>, es: seq<Event>, k: nat, p: nat)
    requires RunsFile(raw, ws, es, k, k + 1) && p < |ws[k].state.subjects|
    ensures p < |raw.roles| && raw.roles[p] in raw.archetypes && p in ws[k + 1].state.desk.folios
    ensures ws[k + 1].state.desk.folios[p] == raw.archetypes[raw.roles[p]].initAlloc
  {
    RunStep(ws, es, k);
    hide Next, Handle, Sound, OrderlyBetween;
    StartHandsOut(ws[k], es[k], ws[k + 1], p);
    DescribedSettings(raw, ws[k].state.desk.config, p);
  }

  lemma DescribedSettings(raw: Raw, config: Configuration, p: nat)
    requires Describes(raw, config) && p in config.subConfigs
    ensures p < |raw.roles| && raw.roles[p] in raw.archetypes && config.subConfigs[p] == raw.archetypes[raw.roles[p]]
  {
  }

  // ---- Dividends -----------------------------------------------------------------

  /** What the first `n` realizations of the file add up to, each looked up in its list of dividends. */
  function Realized(raw: Raw, n: nat): nat
    requires n <= |raw.realizations|
    requires forall i | 0 <= i < n :: raw.realizations[i] < |raw.dividends|
  {
    if n == 0 then 0 else Realized(raw, n - 1) + raw.dividends[raw.realizations[n - 1]]
  }

  lemma {:induction false} DescribedDividends(raw: Raw, config: Configuration, n: nat)
    requires Describes(raw, config) && n <= config.nRounds
    ensures n <= |raw.realizations| && forall i | 0 <= i < n :: raw.realizations[i] < |raw.dividends|
    ensures DividendsOf(config, 0, n) == Realized(raw, n)
  {
    forall i | 0 <= i < n
      ensures raw.realizations[i] < |raw.dividends|
    {
      assert RoundEntry(raw, i, config.perConfigs[i]);
    }
    if n > 0 {
      DescribedDividends(raw, config, n - 1);
      assert RoundEntry(raw, n - 1, config.perConfigs[n - 1]);
    }
  }

  /** The dividends paid are the first realizations of the file, one for each round that has ended. */
  lemma FileSetsDividends(raw: Raw, ws: seq<World>, es: seq<Event>, k: nat, j: nat)
    requires RunsFile(raw, ws, es, k, j)
    ensures var ended := RoundsPaid(ws[k].state.desk.config, Expiries(es, k + 1, j));
            && ended <= raw.nRounds <= |raw.realizations|
            && (forall i | 0 <= i < ended :: raw.realizations[i] < |raw.dividends|)
            && PaidOut(ws[j]) == Realized(raw, ended)
  {
    hide Next, Handle, Sound, OnCourse;
    RunsOnCourse(raw, ws, es, k, j);
    PaidByRounds(ws, es, k, j);
    DescribedDividends(raw, ws[k].state.desk.config, RoundsPaid(ws[k].state.desk.config, Expiries(es, k + 1, j)));
  }

  // ---- Creations -----------------------------------------------------------------

  /** The round in progress on course is one of the file's. */
  lemma CourseRound(raw: Raw, ws: seq<World>, es: seq<Event>, k: nat, j: nat)
    requires RunsFile(raw, ws, es, k, j)
    ensures 1 <= ws[j].state.desk.exp.round <= raw.nRounds
    ensures ws[j].state.desk.config == ws[k].state.desk.config
    ensures forall p: nat | p < |ws[j].state.subjects| :: p in ws[j].state.desk.folios && p < raw.nPlayers
  {
    hide Next, Handle, Sound, Timeline, Course;
    RunsOnCourse(raw, ws, es, k, j);
  }

  /** What the file, the round and the cash decide of a creation. */
  ghost predicate FileAllows(raw: Raw, s: State, p: nat)
    requires p < |raw.roles| && raw.roles[p] in raw.archetypes && 1 <= s.desk.exp.round <= |raw.marginReqs|
  {
    && s.desk.exp.stage == Round && s.desk.exp.status == Status.Running
    && s.desk.exp.round >= raw.firstCreateRound && raw.archetypes[raw.roles[p]].isCreator
    && Held(s.desk.folios, p, Cash) >= raw.marginReqs[s.desk.exp.round - 1]
  }

  lemma FileMeansCreation(raw: Raw, s: State, p: nat)
    requires Describes(raw, s.desk.config) && 1 <= s.desk.exp.round <= raw.nRounds && p < raw.nPlayers
    ensures p < |raw.roles| && raw.roles[p] in raw.archetypes && s.desk.exp.round <= |raw.marginReqs|
    ensures CreationMeans(CreationValidity.Accepted, s.desk, p) <==> FileAllows(raw, s, p)
    ensures HasRound(s.desk) && s.desk.config.perConfigs[s.desk.exp.round - 1].marginReq
                                == raw.marginReqs[s.desk.exp.round - 1]
  {
    assert RoundEntry(raw, s.desk.exp.round - 1, s.desk.config.perConfigs[s.desk.exp.round - 1]);
    DescribedSettings(raw, s.desk.config, p);
  }

  /**
   * A creation is accepted exactly when the file lets the sender's role create
   * and creation begin no later than the round in progress, the market is open,
   * and the sender has the margin that the file lists for that round, which is
   * then set aside.
   */
  lemma FileDecidesCreation(raw: Raw, ws: seq<World>, es: seq<Event>, k: nat, j: nat)
    requires RunsFile(raw, ws, es, k, j) && j < |es| && es[j].Create?
    ensures var p, s := es[j].player, ws[j].state;
            && p < |raw.roles| && raw.roles[p] in raw.archetypes && 1 <= s.desk.exp.round <= |raw.marginReqs|
            && (FileAllows(raw, s, p) <==> CreationReply(ws[j], es[j], ws[j + 1], CreationValidity.Accepted))
            && (FileAllows(raw, s, p) ==>
                  Held(ws[j + 1].state.desk.folios, p, Margin)
                  == Held(s.desk.folios, p, Margin) + raw.marginReqs[s.desk.exp.round - 1])
  {
    hide Next, Handle, Sound, OrderlyBetween, CreationMeans, FileAllows, Describes;
    CourseRound(raw, ws, es, k, j);
    RunStep(ws, es, j);
    assert es[j].player in ws[j].state.desk.folios;
    CreationAnswered(ws, es, j, CreationValidity.Accepted);
    FileMeansCreation(raw, ws[j].state, es[j].player);
  }

  // ---- Rules and times -------------------------------------------------------------

  lemma FileConfigKept(raw: Raw, ws: seq<World>, es: seq<Event>, k: nat, j: nat, m: nat)
    requires RunsFile(raw, ws, es, k, j) && k <= m < j
    ensures Describes(raw, ws[m].state.desk.config)
  {
    hide Next, Handle, Sound, OrderlyBetween, Describes, OnCourse;
    if k < m {
      InOrderBefore(ws, es, k, m, j);
      CourseRound(raw, ws, es, k, m);
    }
  }

  lemma InOrderBefore(ws: seq<World>, es: seq<Event>, k: nat, m: nat, j: nat)
    requires m <= j <= |es| && |ws| == |es| + 1 && OrderlyBetween(ws, es, k, j)
    ensures OrderlyBetween(ws, es, k, m)
  {
  }

  lemma NothingRestsBefore(w: World)
    requires Sound(w) && StartVerdict(w.state).Accepted?
    ensures w.state.desk.book == EMPTY_BOOK
  {
  }

  /**
   * The rules of the market are those of the file: without its improvement rule
   * nobody is told that an offer does not improve, with its replacement rule
   * nobody ever rests two offers on a side, and without it no accepted offer
   * takes another one out.
   */
  lemma FileSetsRules(raw: Raw, ws: seq<World>, es: seq<Event>, k: nat, j: nat)
    requires RunsFile(raw, ws, es, k, j)
    ensures !raw.improvementRule ==> !SaysNonImproving(Since(ws[k], ws[j]))
    ensures raw.replaceRule ==> OnePerSide(ws[j].state.desk.book)
    ensures !raw.replaceRule ==>
              forall m, res | k < m < j && Announces(ws[m], es[m], res) :: res.retracts == []
  {
    hide Next, Handle, Sound, OrderlyBetween, SaysNonImproving, OnePerSide, Announces, Since;
    forall m | k <= m < j
      ensures ws[m].state.desk.config.improvementRule == raw.improvementRule
      ensures ws[m].state.desk.config.replaceRule == raw.replaceRule
    {
      FileConfigKept(raw, ws, es, k, j, m);
    }
    if !raw.improvementRule {
      NonImprovingNeedsRule(ws, es, k, j);
    }
    if raw.replaceRule {
      RunStep(ws, es, k);
      NothingRestsBefore(ws[k]);
      ReplacementLeavesOne(ws, es, k, j);
    } else {
      forall m, res | k < m < j && Announces(ws[m], es[m], res)
        ensures res.retracts == []
      {
        RunStep(ws, es, m);
        AnnouncedResult(ws[m], es[m], res);
      }
    }
  }

  /** Rounds and reviews have the running time that the file gives them. */
  lemma FileSetsTimes(raw: Raw, ws: seq<World>, es: seq<Event>, fs: seq<Face>, ts: seq<int>, k: nat, j: nat)
    requires RunsFile(raw, ws, es, k, j) && IsTimedRun(ws, es, fs, ts) && Steady(ts)
    requires fs[j].works.state.Running?
    ensures var length := if ws[j].state.timer.callbacks == [EndsRound] then raw.roundSeconds else raw.reviewSeconds;
            fs[j].works.deadline == Some(ts[j - 1] + 1000 * length - fs[j].works.Elapsed(ts[j - 1]))
  {
    hide Next, Handle, Sound;
    CourseRound(raw, ws, es, k, j);
    forall m | k < m < j
      ensures !es[m].Load?
    {
      StartedForGood(raw, ws, es, k, m, j);
      assert Orderly(ws[m].state, es[m]);
    }
    StagesLast(ws, es, fs, ts, k, j);
  }

  lemma StartedForGood(raw: Raw, ws: seq<World>, es: seq<Event>, k: nat, m: nat, j: nat)
    requires RunsFile(raw, ws, es, k, j) && k < m < j
    ensures !ws[m].state.desk.exp.status.NotStarted?
  {
    hide Next, Handle, Sound, OrderlyBetween, OnCourse, Describes;
    RunStep(ws, es, k);
    StartsOnce(ws, es, k, m);
  }
}
