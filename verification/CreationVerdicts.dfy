/** Who may create units, and when: the verdict on a creation, its effect, and what that means for debts over runs. */
module CreationVerdicts {
  import opened Portfolios
  import opened OfferProcessing
  import opened Servers
  import opened Ledgers
  import opened Reachable
  import opened Conservation
  import opened Margins
  import opened OfferVerdicts

  /** The configuration makes this subject a creator, and creation has begun. */
  predicate MayCreate(d: Desk, id: nat) {
    d.exp.round >= d.config.firstCreateRound && id in d.config.subConfigs && d.config.subConfigs[id].isCreator
  }

  predicate HasRound(d: Desk) {
    1 <= d.exp.round <= |d.config.perConfigs|
  }

  /** The creator has the cash that the round in progress asks for as margin. */
  predicate CanDeposit(d: Desk, id: nat)
    requires HasRound(d)
  {
    Held(d.folios, id, Cash) >= d.config.perConfigs[d.exp.round - 1].marginReq
  }

  /** Something a creation looks up is missing: settings, or for a creator the round's entry or the portfolio. */
  predicate LacksEntry(d: Desk, id: nat) {
    && Open(d) && d.exp.round >= d.config.firstCreateRound
    && (id in d.config.subConfigs ==> d.config.subConfigs[id].isCreator && (!HasRound(d) || id !in d.folios))
  }

  /** What a verdict says of a creation by `id`. */
  predicate CreationMeans(v: CreationValidity, d: Desk, id: nat) {
    match v
    case RejectedMarketClosed => !Open(d)
    case RejectedCannotCreate => Open(d) && !MayCreate(d, id)
    case RejectedInsufficientCash => Open(d) && MayCreate(d, id) && HasRound(d) && !CanDeposit(d, id)
    case Accepted => Open(d) && MayCreate(d, id) && HasRound(d) && CanDeposit(d, id)
  }

  /** The verdict on a creation is the one verdict that is true of it; there is none exactly if an entry is missing. */
  lemma CreationVerdictIff(d: Desk, id: nat, v: CreationValidity)
    ensures JudgeCreate(d, id).Threw? <==> LacksEntry(d, id)
    ensures JudgeCreate(d, id).Did? ==> (JudgeCreate(d, id).value == v <==> CreationMeans(v, d, id))
  {
  }

  /** What a unit made for `id` with this margin changes: one unit more held and owed, and cash set aside. */
  function UnitMade(id: nat, margin: nat, p: nat, item: Item): int {
    if p != id then 0
    else
      match item
      case Shares => 1
      case Derivatives => 1
      case Margin => margin
      case Cash => -(margin as int)
  }

  /** An accepted creation makes one unit at the round's margin and touches nothing else; any other touches nothing. */
  lemma CreationMakesUnit(d: Desk, id: nat)
    requires ProcessCreate(d, id).Did?
    ensures JudgeCreate(d, id).Did?
    ensures var d', v := ProcessCreate(d, id).value.desk, JudgeCreate(d, id).value;
            && ProcessCreate(d, id).value.result == CreationResult(v, id)
            && (!v.Accepted? ==> d' == d)
            && (v.Accepted? ==>
                  && HasRound(d) && d' == d.(folios := d'.folios) && d'.folios.Keys == d.folios.Keys
                  && forall p: nat, item ::
                       Held(d'.folios, p, item)
                       == Held(d.folios, p, item)
                          + UnitMade(id, d.config.perConfigs[d.exp.round - 1].marginReq, p, item))
  {
  }

  /** The effect and the reply of a creation with this verdict. */
  ghost predicate CreationReply(w: World, e: Event, w': World, v: CreationValidity)
    requires e.Create?
  {
    var d, p := w.state.desk, e.player;
    var told := Envelope(Only(p), CreationProcessed(CreationResult(v, p)));
    if v.Accepted? then
      && HasRound(d) && w'.state == w.state.(desk := d.(folios := w'.state.desk.folios))
      && (forall q: nat, item ::
            Held(w'.state.desk.folios, q, item)
            == Held(d.folios, q, item) + UnitMade(p, d.config.perConfigs[d.exp.round - 1].marginReq, q, item))
      && p in w'.state.desk.folios
      && w'.log == w.log + [told, Envelope(Only(p), PortfolioUpdate(p, w'.state.desk.folios[p]))]
    else
      w'.state == w.state && w'.log == w.log + [told]
  }

  lemma CreatesAsJudged(w: World, e: Event, w': World)
    requires Next(w, e, w') && e.Create?
    ensures JudgeCreate(w.state.desk, e.player).Did?
    ensures CreationReply(w, e, w', JudgeCreate(w.state.desk, e.player).value)
  {
    hide Next, Handle, JudgeCreate, ProcessCreate;
    NextGives(w, e, w');
    CreateShape(w, e);
    CreationMakesUnit(w.state.desk, e.player);
  }

  lemma OneCreationReply(w: World, e: Event, w': World, v: CreationValidity, v': CreationValidity)
    requires e.Create? && CreationReply(w, e, w', v) && CreationReply(w, e, w', v')
    ensures v == v'
  {
    assert w'.log[|w.log|].msg.creation.validity == v;
  }

  /**
   * In every run, a creation is accepted exactly when the market is open, the
   * configuration makes the sender a creator and has creation begin no later
   * than the round in progress, and the sender has the round's margin in cash;
   * each rejection has the first reason that fails. Only an accepted one
   * changes anything, and that is one unit.
   */
  lemma CreationAnswered(ws: seq<World>, es: seq<Event>, i: nat, v: CreationValidity)
    requires IsRun(ws, es) && i < |es| && es[i].Create?
    ensures CreationMeans(v, ws[i].state.desk, es[i].player) <==> CreationReply(ws[i], es[i], ws[i + 1], v)
  {
    hide Next, Handle, JudgeCreate, Sound, CreationMeans, CreationReply;
    RunStep(ws, es, i);
    CreatesAsJudged(ws[i], es[i], ws[i + 1]);
    CreationVerdictIff(ws[i].state.desk, es[i].player, v);
    if CreationReply(ws[i], es[i], ws[i + 1], v) {
      OneCreationReply(ws[i], es[i], ws[i + 1], v, JudgeCreate(ws[i].state.desk, es[i].player).value);
    }
  }

  // ---- Debts over runs -------------------------------------------------------

  /** Only the loading of a file that could be read changes the configuration. */
  lemma ConfigMoves(w: World, e: Event, w': World)
    requires Sound(w) && Next(w, e, w')
    ensures w'.state.desk.config == if e.Load? && e.read.Loaded? then e.read.config else w.state.desk.config
  {
    hide PossibleSort, TradeNotices, Judge, Settle;
    if e.TimerExpires? && w.state.timer.callbacks != [] {
      hide Expire;
      ExpireCalls(w.state, w.state.timer.callbacks[0]);
    }
  }

  ghost predicate NoReload(es: seq<Event>, i: nat, j: nat)
    requires i <= j <= |es|
  {
    forall m | i <= m < j :: !(es[m].Load? && es[m].read.Loaded?)
  }

  lemma {:induction false} ConfigKept(ws: seq<World>, es: seq<Event>, i: nat, j: nat)
    requires IsRun(ws, es) && i <= j < |ws| && NoReload(es, i, j)
    ensures ws[j].state.desk.config == ws[i].state.desk.config
  {
    hide Next, Handle, Sound;
    if i < j {
      ConfigKept(ws, es, i, j - 1);
      RunStep(ws, es, j - 1);
      ConfigMoves(ws[j - 1], es[j - 1], ws[j]);
    }
  }

  /** Every creation counted is one by a creator, in a round that allows it. */
  lemma {:induction false} CreationsAreAllowed(ws: seq<World>, es: seq<Event>, i: nat, t: nat, p: nat)
    requires IsRun(ws, es) && i <= t <= |es|
    requires Creations(ws, es, i, t, p) > 0
    ensures exists m | i <= m < t :: MayCreate(ws[m].state.desk, p)
  {
    hide Next, Handle;
    if Creates(ws[t - 1], es[t - 1], p) {
      CreationVerdictIff(ws[t - 1].state.desk, p, CreationValidity.Accepted);
    } else {
      CreationsAreAllowed(ws, es, i, t - 1, p);
    }
  }

  /** A start hands every subject its configured allocation. */
  lemma StartHandsOut(w: World, e: Event, w': World, p: nat)
    requires Next(w, e, w') && AcceptedStart(w, e) && p < |w.state.subjects|
    ensures p in w.state.desk.config.subConfigs && p in w'.state.desk.folios
    ensures w'.state.desk.folios[p] == w.state.desk.config.subConfigs[p].initAlloc
    ensures w'.state.desk.config == w.state.desk.config
  {
    hide SendOpening;
    AllocateFacts(w.state.desk.config, w.state.desk.folios, |w.state.subjects|);
  }

  /**
   * Unless a configuration is loaded on the way, a subject never owes more
   * units than its allocation had it owe, unless the configuration makes it a
   * creator and creation has begun in some round gone by.
   */
  lemma OnlyCreatorsOwe(ws: seq<World>, es: seq<Event>, k: nat, j: nat, p: nat)
    requires IsRun(ws, es) && k < j < |ws| && AcceptedStart(ws[k], es[k]) && NoReload(es, k, j)
    requires p < |ws[k].state.subjects|
    ensures p in ws[k].state.desk.config.subConfigs
    ensures var conf, config := ws[k].state.desk.config.subConfigs[p], ws[k].state.desk.config;
            && Held(ws[j].state.desk.folios, p, Derivatives) >= ItemCount(conf.initAlloc, Derivatives)
            && (Held(ws[j].state.desk.folios, p, Derivatives) > ItemCount(conf.initAlloc, Derivatives) ==>
                  && conf.isCreator
                  && exists m | k < m < j :: ws[m].state.desk.exp.round >= config.firstCreateRound)
  {
    hide Next, Handle, Sound, AcceptedStart, MarginExplained;
    RunStep(ws, es, k);
    StartHandsOut(ws[k], es[k], ws[k + 1], p);
    OwesItsCreations(ws, es, k, j, p);
    if Creations(ws, es, k + 1, j, p) > 0 {
      CreationsAreAllowed(ws, es, k + 1, j, p);
      var m :| k + 1 <= m < j && MayCreate(ws[m].state.desk, p);
      ConfigKept(ws, es, k, m);
    }
  }

  lemma OwesItsCreations(ws: seq<World>, es: seq<Event>, k: nat, j: nat, p: nat)
    requires IsRun(ws, es) && k < j < |ws| && AcceptedStart(ws[k], es[k])
    ensures OwedBy(ws[j], p) == OwedBy(ws[k + 1], p) + Creations(ws, es, k + 1, j, p)
  {
    MarginIsObligations(ws, es, k, j, p);
  }
}
