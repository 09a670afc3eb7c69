/** What a client remembers of the rounds: its portfolio when a round began, when it ended and after the dividend. */
module ClientRecords {
  import opened Portfolios
  import opened Servers
  import opened Ledgers
  import opened Reachable
  import opened Replica
  import opened ReplicaRuns

  // ---- The end of a round ----------------------------------------------------

  /** Messages that leave a client's records of the end of a round alone. */
  ghost predicate KeepsEnd(out: seq<Envelope>) {
    forall x | x in out :: !x.msg.RoundEnded? && !x.msg.DividendStarted? && !x.msg.ReviewStarted?
  }

  ghost predicate SameEnd(c: Client, c': Client) {
    && c'.endRoundPort == c.endRoundPort && c'.postDividendPort == c.postDividendPort
    && c'.lastDividend == c.lastDividend
  }

  lemma OneKeepsEnd(c: Client, m: Message, c': Client)
    requires ClientNext(c, m, c') && !m.RoundEnded? && !m.DividendStarted? && !m.ReviewStarted?
    ensures SameEnd(c, c')
  {
  }

  lemma {:induction false} EndFollows(cs: seq<Client>, out: seq<Envelope>, id: nat)
    requires Follows(cs, out, id) && KeepsEnd(out)
    ensures SameEnd(cs[0], cs[|out|])
  {
    hide ClientNext, Follows;
    if out != [] {
      var n := |out| - 1;
      FollowsPrefix(cs, out, id, n);
      EndFollows(cs[..n + 1], out[..n], id);
      LastStep(cs, out, id);
      assert out[n] in out;
      if Reaches(out[n].to, id) {
        OneKeepsEnd(cs[n], out[n].msg, cs[n + 1]);
      }
    }
  }

  lemma OneRecordsEnd(c: Client, m: Message, c': Client)
    requires ClientNext(c, m, c') && (m.RoundEnded? || m.DividendStarted? || m.ReviewStarted?)
    ensures c'.endRoundPort == if m.RoundEnded? then c.port else c.endRoundPort
    ensures c'.lastDividend == if m.DividendStarted? then m.dividend else c.lastDividend
    ensures c'.postDividendPort == if m.ReviewStarted? then c.port else c.postDividendPort
    ensures c'.port == c.port
  {
  }

  /** The messages of the end of a round, as a client takes them. */
  lemma TakesRoundEnd(
      cs: seq<Client>, ended: Envelope, paid: Envelope, folios: Folios, n: nat, review: Envelope, id: nat)
    requires ended == Envelope(All, RoundEnded) && paid.to.All? && paid.msg.DividendStarted?
    requires review == Envelope(All, ReviewStarted) && SendPortfolios(folios, n).Did? && id < n
    requires Follows(cs, [ended, paid] + SendPortfolios(folios, n).value + [review], id)
    ensures id in folios
    ensures var c := cs[|cs| - 1];
            c.endRoundPort == cs[0].port && c.lastDividend == paid.msg.dividend && c.postDividendPort == folios[id]
  {
    hide ClientNext, SendPortfolios, PortAfter;
    var sent := SendPortfolios(folios, n).value;
    var head := [ended, paid];
    FollowsParts(cs, head + sent, [review], id);
    FollowsParts(cs[..|head + sent| + 1], head, sent, id);
    assert head == [ended] + [paid];
    var early, late := cs[..3], cs[2..|head + sent| + 1];
    assert cs[..|head + sent| + 1][..3] == early && cs[..|head + sent| + 1][2..] == late;
    FirstStep(early, head, id);
    LastStep(early, head, id);
    OneRecordsEnd(cs[0], RoundEnded, cs[1]);
    OneRecordsEnd(cs[1], paid.msg, cs[2]);
    PortfoliosOnly(folios, n);
    EndFollows(late, sent, id);
    PortFollows(late, sent, id);
    PortAfterSend(cs[2].port, folios, n, id);
    LastStep(cs[|head + sent|..], [review], id);
    OneRecordsEnd(cs[|head + sent|], ReviewStarted, cs[|head + sent| + 1]);
  }

  /** The step ends a round. */
  predicate EndsARound(w: World, e: Event) {
    e.TimerExpires? && w.state.timer.callbacks == [EndsRound]
  }

  /** The client recorded its portfolio at the end of a round, the dividend of that round, and what came of it. */
  ghost predicate RecordsRoundEnd(c: Client, w: World, w': World, id: nat) {
    && id in w.state.desk.folios && id in w'.state.desk.folios
    && 1 <= w.state.desk.exp.round <= |w.state.desk.config.perConfigs|
    && c.lastDividend == w.state.desk.config.perConfigs[w.state.desk.exp.round - 1].dividend
    && c.endRoundPort == w.state.desk.folios[id] && c.postDividendPort == w'.state.desk.folios[id]
    && (forall item :: ItemCount(c.postDividendPort, item)
                       == ItemCount(c.endRoundPort, item)
                          + match item
                            case Cash => ItemCount(c.endRoundPort, Shares) * c.lastDividend
                            case Margin => -(ItemCount(c.endRoundPort, Derivatives) * c.lastDividend)
                            case Shares => 0
                            case Derivatives => 0)
  }

  lemma StepRecordsEnd(w: World, e: Event, w': World, cs: seq<Client>, id: nat)
    requires Sound(w) && Next(w, e, w') && EndsARound(w, e) && |cs| > 0 && Follows(cs, Handle(w, e).value.out, id)
    requires id in w.state.desk.folios && cs[0].port == w.state.desk.folios[id]
    ensures RecordsRoundEnd(cs[|cs| - 1], w, w', id)
  {
    hide Next, Handle, Expire, EndRound, SendPortfolios, Follows, StageOk;
    NextGives(w, e, w');
    HandlesExpiry(w, e);
    ExpireCalls(w.state, EndsRound);
    var stopped := w.state.(timer := w.state.timer.(state := TimerState.Ended));
    EndRoundReply(stopped);
    var dividend := w.state.desk.config.perConfigs[w.state.desk.exp.round - 1].dividend;
    TakesRoundEnd(cs, Envelope(All, RoundEnded), Envelope(All, DividendStarted(dividend)),
                  w'.state.desk.folios, |w.state.subjects|, Envelope(All, ReviewStarted), id);
  }

  lemma OtherStepKeepsEnd(w: World, e: Event, w': World)
    requires Sound(w) && Next(w, e, w') && !EndsARound(w, e)
    ensures KeepsEnd(Handle(w, e).value.out)
  {
    hide Next, Handle, StartVerdict;
    NextGives(w, e, w');
    SoundCallbacks(w);
    ReplyFits(w, e);
  }

  lemma {:induction false} EndKept(ws: seq<World>, es: seq<Event>, i: nat, j: nat, cs: seq<Client>, id: nat)
    requires IsRun(ws, es) && i <= j < |ws| && Follows(cs, Since(ws[i], ws[j]), id)
    requires forall m | i <= m < j :: !EndsARound(ws[m], es[m])
    ensures |cs| > 0 && SameEnd(cs[0], cs[|cs| - 1])
  {
    hide Next, Sound, KeepsEnd, Handle;
    if i < j {
      RunStep(ws, es, j - 1);
      LogsExtend(ws, es, i, j - 1);
      FollowsStep(ws[i], ws[j - 1], es[j - 1], ws[j], cs, id);
      var n := |Since(ws[i], ws[j - 1])|;
      EndKept(ws, es, i, j - 1, cs[..n + 1], id);
      OtherStepKeepsEnd(ws[j - 1], es[j - 1], ws[j]);
      EndFollows(cs[n..], Handle(ws[j - 1], es[j - 1]).value.out, id);
    }
  }

  /** A client's messages from step `i` on, those of step `i` apart from the later ones. */
  lemma StepThenRest(ws: seq<World>, es: seq<Event>, i: nat, j: nat, cs: seq<Client>, id: nat) returns (n: nat)
    requires IsRun(ws, es) && i < j < |ws| && Follows(cs, Since(ws[i], ws[j]), id)
    ensures n < |cs| && Possible(ws[i], es[i]) && Handle(ws[i], es[i]).Did?
    ensures Follows(cs[..n + 1], Handle(ws[i], es[i]).value.out, id)
    ensures Follows(cs[n..], Since(ws[i + 1], ws[j]), id)
  {
    hide Next, Sound, Handle, Follows, Since, Possible;
    RunStep(ws, es, i);
    SinceSplits(ws, es, i, i + 1, j);
    SinceIsReply(ws[i], es[i], ws[i + 1]);
    n := |Since(ws[i], ws[i + 1])|;
    FollowsParts(cs, Since(ws[i], ws[i + 1]), Since(ws[i + 1], ws[j]), id);
  }

  /**
   * A client that has its own portfolio in one state of a run and takes the
   * messages sent since: from the end of a round until the next round ends it
   * holds the portfolio it had on the server when that round ended, the
   * dividend of that round, and its portfolio after it was paid.
   */
  lemma ClientRecordsDividend(
      ws: seq<World>, es: seq<Event>, a: nat, i: nat, j: nat, cs: seq<Client>, id: nat)
    requires IsRun(ws, es) && a <= i < j < |ws| && Follows(cs, Since(ws[a], ws[j]), id)
    requires HasPort(cs[0].port, ws[a].state.desk.folios, id)
    requires EndsARound(ws[i], es[i]) && id in ws[i].state.desk.folios
    requires forall m | i < m < j :: !EndsARound(ws[m], es[m])
    ensures RecordsRoundEnd(cs[|cs| - 1], ws[i], ws[i + 1], id)
  {
    hide Next, Sound, Handle, Follows, Since, RecordsRoundEnd;
    SinceSplits(ws, es, a, i, j);
    var m := |Since(ws[a], ws[i])|;
    FollowsParts(cs, Since(ws[a], ws[i]), Since(ws[i], ws[j]), id);
    PortAgreesFrom(ws, es, a, i, cs[..m + 1], id);
    var n := StepThenRest(ws, es, i, j, cs[m..], id);
    RunStep(ws, es, i);
    StepRecordsEnd(ws[i], es[i], ws[i + 1], cs[m..][..n + 1], id);
    EndKept(ws, es, i + 1, j, cs[m..][n..], id);
    RecordsCarryOver(cs[m..][n], cs[|cs| - 1], ws[i], ws[i + 1], id);
  }

  lemma RecordsCarryOver(c: Client, c': Client, w: World, w': World, id: nat)
    requires RecordsRoundEnd(c, w, w', id) && SameEnd(c, c')
    ensures RecordsRoundEnd(c', w, w', id)
  {
  }

  // ---- The beginning of a round ------------------------------------------------

  ghost predicate SameBeginning(c: Client, c': Client) {
    c'.roundConf == c.roundConf && c'.round == c.round && c'.startRoundPort == c.startRoundPort
  }

  lemma OneKeepsBeginning(c: Client, m: Message, c': Client)
    requires ClientNext(c, m, c') && !m.RoundStarted?
    ensures SameBeginning(c, c')
  {
  }

  lemma {:induction false} BeginningFollows(cs: seq<Client>, out: seq<Envelope>, id: nat)
    requires Follows(cs, out, id) && !BeginsRound(out)
    ensures SameBeginning(cs[0], cs[|out|])
  {
    hide ClientNext, Follows;
    if out != [] {
      var n := |out| - 1;
      FollowsPrefix(cs, out, id, n);
      BeginningFollows(cs[..n + 1], out[..n], id);
      LastStep(cs, out, id);
      assert out[n] in out;
      if Reaches(out[n].to, id) {
        OneKeepsBeginning(cs[n], out[n].msg, cs[n + 1]);
      }
    }
  }

  /** The client recorded the round that begins with this state, and its portfolio at that moment. */
  ghost predicate RecordsRoundBegin(c: Client, w: World, id: nat) {
    && 1 <= w.state.desk.exp.round <= |w.state.desk.config.perConfigs|
    && c.roundConf == w.state.desk.config.perConfigs[w.state.desk.exp.round - 1]
    && c.round == c.roundConf.round
    && (id in w.state.desk.folios ==> c.startRoundPort == w.state.desk.folios[id])
  }

  lemma TakesRoundBegin(cs: seq<Client>, out: seq<Envelope>, id: nat)
    requires Follows(cs, out, id) && out != [] && out[|out| - 1].to.All? && out[|out| - 1].msg.RoundStarted?
    ensures var c, conf := cs[|out|], out[|out| - 1].msg.round;
            c.roundConf == conf && c.round == conf.round && c.startRoundPort == c.port
  {
    LastStep(cs, out, id);
  }

  /** The last message announces the round in progress. */
  ghost predicate EndsWithRound(r: Reply) {
    var exp, config := r.state.desk.exp, r.state.desk.config;
    && 1 <= exp.round <= |config.perConfigs|
    && r.out != []
    && r.out[|r.out| - 1] == Envelope(All, RoundStarted(config.perConfigs[exp.round - 1]))
  }

  /** A step that announces a round announces the one that is then in progress, last of all. */
  lemma BeginningIsLast(w: World, e: Event, w': World)
    requires Sound(w) && Next(w, e, w') && BeginsRound(Handle(w, e).value.out)
    ensures EndsWithRound(Handle(w, e).value) && Handle(w, e).value.state == w'.state
  {
    hide Next, Handle, Expire, StartExperiment, EndsWithRound, Sound, StartVerdict;
    NextGives(w, e, w');
    SoundCallbacks(w);
    ReplyFits(w, e);
    var x :| x in Handle(w, e).value.out && x.msg.RoundStarted?;
    assert Fitting(w.state, e, x.msg);
    if e.RequestStart? {
      HandlesStart(w, e);
      StartEndsWithRound(w.state);
    } else {
      HandlesExpiry(w, e);
      ReviewEndsWithRound(w.state);
    }
  }

  lemma StartEndsWithRound(s: State)
    requires StartExperiment(s).Did? && StartVerdict(s).Accepted?
    ensures EndsWithRound(StartExperiment(s).value)
  {
    hide Allocate, SendOpening;
  }

  lemma ReviewEndsWithRound(s: State)
    requires Expire(s).Did? && s.timer.callbacks == [EndsReview] && BeginsRound(Expire(s).value.out)
    ensures EndsWithRound(Expire(s).value)
  {
    ExpireCalls(s, EndsReview);
  }

  lemma {:induction false} BeginningKept(ws: seq<World>, es: seq<Event>, i: nat, j: nat, cs: seq<Client>, id: nat)
    requires IsRun(ws, es) && i <= j < |ws| && Follows(cs, Since(ws[i], ws[j]), id)
    requires forall m | i <= m < j :: !BeginsRoundAt(ws, es, m)
    ensures |cs| > 0 && SameBeginning(cs[0], cs[|cs| - 1])
  {
    hide Next, Sound, BeginsRound, Handle;
    if i < j {
      RunStep(ws, es, j - 1);
      LogsExtend(ws, es, i, j - 1);
      FollowsStep(ws[i], ws[j - 1], es[j - 1], ws[j], cs, id);
      var n := |Since(ws[i], ws[j - 1])|;
      BeginningKept(ws, es, i, j - 1, cs[..n + 1], id);
      assert !BeginsRoundAt(ws, es, j - 1);
      BeginningFollows(cs[n..], Handle(ws[j - 1], es[j - 1]).value.out, id);
    }
  }

  /**
   * Likewise from the beginning of a round until the next begins: the client
   * holds the entry of that round, and the portfolio it began with.
   */
  lemma ClientRecordsRound(
      ws: seq<World>, es: seq<Event>, a: nat, i: nat, j: nat, cs: seq<Client>, id: nat)
    requires IsRun(ws, es) && a <= i < j < |ws| && Follows(cs, Since(ws[a], ws[j]), id)
    requires HasPort(cs[0].port, ws[a].state.desk.folios, id)
    requires BeginsRoundAt(ws, es, i) && forall m | i < m < j :: !BeginsRoundAt(ws, es, m)
    ensures RecordsRoundBegin(cs[|cs| - 1], ws[i + 1], id)
  {
    hide Next, Sound, Handle, Follows, Since, BeginsRound;
    SinceSplits(ws, es, a, i + 1, j);
    SinceSplits(ws, es, a, i, j);
    var m := |Since(ws[a], ws[i])|;
    FollowsParts(cs, Since(ws[a], ws[i + 1]), Since(ws[i + 1], ws[j]), id);
    PortAgreesFrom(ws, es, a, i + 1, cs[..|Since(ws[a], ws[i + 1])| + 1], id);
    SinceSplits(ws, es, a, i, i + 1);
    FollowsParts(cs[..|Since(ws[a], ws[i + 1])| + 1], Since(ws[a], ws[i]), Since(ws[i], ws[i + 1]), id);
    RunStep(ws, es, i);
    NextGives(ws[i], es[i], ws[i + 1]);
    BeginningIsLast(ws[i], es[i], ws[i + 1]);
    SinceIsReply(ws[i], es[i], ws[i + 1]);
    TakesRoundBegin(cs[..|Since(ws[a], ws[i + 1])| + 1][m..], Handle(ws[i], es[i]).value.out, id);
    BeginningKept(ws, es, i + 1, j, cs[|Since(ws[a], ws[i + 1])|..], id);
  }
}
