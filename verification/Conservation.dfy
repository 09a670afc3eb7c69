/** Conservation over whole experiments: money only enters as dividends, units only with their obligations. */
module Conservation {
  import opened Values
  import opened Offers
  import opened OrderBooks
  import opened Portfolios
  import opened Experiments
  import opened OfferProcessing
  import opened MarketSafety
  import opened Servers
  import opened Ledgers
  import opened Reachable

  /** All cash and all margin of all subjects. */
  function Wealth(s: State): int {
    Holdings(s.desk.folios, Cash, |s.subjects|) + Holdings(s.desk.folios, Margin, |s.subjects|)
  }

  /** All units held less all units owed. */
  function NetUnits(s: State): int {
    Holdings(s.desk.folios, Shares, |s.subjects|) - Holdings(s.desk.folios, Derivatives, |s.subjects|)
  }

  /** The dividends announced so far, added up. */
  function PaidOut(w: World): int {
    Sum(w.log, DividendsPaid)
  }

  /** What the first `n` subjects are configured to start with. */
  function Configured(config: Configuration, item: Item, n: nat): int {
    if n == 0 then 0
    else
      Configured(config, item, n - 1)
      + if n - 1 in config.subConfigs then ItemCount(config.subConfigs[n - 1].initAlloc, item) else 0
  }

  /** `units` dividends of `amount` each, as a sum rather than a product. */
  function Due(units: int, amount: int): int {
    if amount <= 0 then 0 else Due(units, amount - 1) + units
  }

  lemma {:induction false} DueIsProduct(units: int, amount: nat)
    ensures Due(units, amount) == units * amount
  {
    if amount > 0 {
      DueIsProduct(units, amount - 1);
    }
  }

  lemma {:induction false} DueAdds(units: int, a: nat, b: nat)
    ensures Due(units, a + b) == Due(units, a) + Due(units, b)
  {
    if b > 0 {
      DueAdds(units, a, b - 1);
    }
  }

  ghost predicate AcceptedStart(w: World, e: Event) {
    e.RequestStart? && StartVerdict(w.state).Accepted?
  }

  lemma {:induction false} DividendHoldings(folios: Folios, dividend: nat, n: nat)
    ensures var paid := PayDividend(folios, dividend);
            && Holdings(paid, Cash, n) == Holdings(folios, Cash, n) + Holdings(folios, Shares, n) * dividend
            && Holdings(paid, Margin, n) == Holdings(folios, Margin, n) - Holdings(folios, Derivatives, n) * dividend
            && Holdings(paid, Shares, n) == Holdings(folios, Shares, n)
            && Holdings(paid, Derivatives, n) == Holdings(folios, Derivatives, n)
  {
    if n > 0 {
      hide PayDividend, Held;
      DividendHoldings(folios, dividend, n - 1);
      DividendHeld(folios, dividend, n - 1);
      Distribute(Holdings(folios, Shares, n - 1), Held(folios, n - 1, Shares), dividend);
      Distribute(Holdings(folios, Derivatives, n - 1), Held(folios, n - 1, Derivatives), dividend);
    }
  }

  lemma Distribute(a: int, b: int, c: int)
    ensures (a + b) * c == a * c + b * c
  {
  }

  lemma DividendHeld(folios: Folios, dividend: nat, id: nat)
    ensures var paid := PayDividend(folios, dividend);
            && Held(paid, id, Cash) == Held(folios, id, Cash) + Held(folios, id, Shares) * dividend
            && Held(paid, id, Margin) == Held(folios, id, Margin) - Held(folios, id, Derivatives) * dividend
            && Held(paid, id, Shares) == Held(folios, id, Shares)
            && Held(paid, id, Derivatives) == Held(folios, id, Derivatives)
  {
  }

  lemma {:induction false} AllocatedHoldings(config: Configuration, folios: Folios, item: Item, n: nat)
    requires forall id: nat | id < n ::
            id in config.subConfigs && id in folios && folios[id] == config.subConfigs[id].initAlloc
    ensures Holdings(folios, item, n) == Configured(config, item, n)
  {
    if n > 0 {
      AllocatedHoldings(config, folios, item, n - 1);
    }
  }

  lemma TradeConserves(d: Desk, nextId: nat, o: Offer, sorted: seq<Offer>, n: nat)
    requires WillAccept(d, nextId, o, sorted)
    requires forall id | id in d.folios :: id < n
    ensures ProcessOffer(d, o, sorted).Did?
    ensures var after := ProcessOffer(d, o, sorted).value.desk.folios;
            forall item :: Holdings(after, item, n) == Holdings(d.folios, item, n)
  {
    hide ProcessOffer, Judge, Holdings;
    OfferHoldings(d, nextId, o, sorted);
    MatchResult(d, nextId, o, sorted);
    var after, c := ProcessOffer(d, o, sorted).value.desk.folios, Counterpart(d, o);
    if c.Some? {
      var t := TradeWith(o, c.value);
      forall item
        ensures Holdings(after, item, n) == Holdings(d.folios, item, n)
      {
        HoldingsTwoChanges(d.folios, after, item,
                           t.buyer, TradeShift(t, t.buyer, item), t.seller, TradeShift(t, t.seller, item), n);
      }
    }
  }

  lemma IssueConserves(folios: Folios, id: nat, margin: nat, n: nat)
    requires id in folios && id < n
    ensures var after := Issue(folios, id, margin);
            && Holdings(after, Cash, n) == Holdings(folios, Cash, n) - margin
            && Holdings(after, Margin, n) == Holdings(folios, Margin, n) + margin
            && Holdings(after, Shares, n) == Holdings(folios, Shares, n) + 1
            && Holdings(after, Derivatives, n) == Holdings(folios, Derivatives, n) + 1
  {
    var after := Issue(folios, id, margin);
    HoldingsOneChange(folios, after, Cash, id, -(margin as int), n);
    HoldingsOneChange(folios, after, Margin, id, margin, n);
    HoldingsOneChange(folios, after, Shares, id, 1, n);
    HoldingsOneChange(folios, after, Derivatives, id, 1, n);
  }

  lemma SubmitConserves(w: World, e: Event, w': World)
    requires Sound(w) && Next(w, e, w') && e.Submit?
    ensures Wealth(w'.state) == Wealth(w.state) && NetUnits(w'.state) == NetUnits(w.state)
  {
    var d, o := w.state.desk, OfferOf(w, e);
    if Judge(d, o) == Did(OfferValidity.Accepted) {
      TradeConserves(d, w.nextId, o, e.sorted, |w.state.subjects|);
    } else {
      assert w'.state == w.state;
    }
  }

  lemma CreateConserves(w: World, e: Event, w': World)
    requires Sound(w) && Next(w, e, w') && e.Create?
    ensures Wealth(w'.state) == Wealth(w.state) && NetUnits(w'.state) == NetUnits(w.state)
  {
    var d := w.state.desk;
    if JudgeCreate(d, e.player) == Did(CreationValidity.Accepted) {
      var margin := d.config.GetRoundConfiguration(d.exp.round).value.marginReq;
      IssueConserves(d.folios, e.player, margin, |w.state.subjects|);
    } else {
      assert w'.state == w.state;
    }
  }

  lemma RetractConserves(w: World, e: Event, w': World)
    requires Next(w, e, w') && e.Retract?
    ensures Wealth(w'.state) == Wealth(w.state) && NetUnits(w'.state) == NetUnits(w.state)
  {
    assert w'.state.desk.folios == w.state.desk.folios && w'.state.subjects == w.state.subjects;
    hide Next, Handle;
  }

  /** A market step moves no wealth and no net units, and pays no dividend. */
  lemma MarketStepConserves(w: World, e: Event, w': World)
    requires Sound(w) && Next(w, e, w') && (e.Submit? || e.Create? || e.Retract?)
    ensures Wealth(w'.state) == Wealth(w.state) && NetUnits(w'.state) == NetUnits(w.state)
    ensures Sum(Handle(w, e).value.out, DividendsPaid) == 0
  {
    hide Next, Handle, Wealth, NetUnits;
    NextGives(w, e, w');
    ReplyFits(w, e);
    SumZero(Handle(w, e).value.out, DividendsPaid);
    if e.Submit? {
      SubmitConserves(w, e, w');
    } else if e.Create? {
      CreateConserves(w, e, w');
    } else {
      RetractConserves(w, e, w');
    }
  }

  lemma EndRoundConserves(s: State)
    requires EndRound(s).Did?
    ensures s.desk.config.GetRoundConfiguration(s.desk.exp.round).Did?
    ensures NetUnits(EndRound(s).value.state) == NetUnits(s)
    ensures Wealth(EndRound(s).value.state)
         == Wealth(s) + Due(NetUnits(s), s.desk.config.GetRoundConfiguration(s.desk.exp.round).value.dividend)
  {
    hide EndRound, PayDividend, Holdings;
    EndRoundReply(s);
    var dividend, n := s.desk.config.GetRoundConfiguration(s.desk.exp.round).value.dividend, |s.subjects|;
    DividendHoldings(s.desk.folios, dividend, n);
    var units, owed := Holdings(s.desk.folios, Shares, n), Holdings(s.desk.folios, Derivatives, n);
    assert (units - owed) * dividend == units * dividend - owed * dividend;
    DueIsProduct(NetUnits(s), dividend);
  }

  /** The end of a round pays the net units, each its dividend, and nothing else. */
  lemma RoundEndConserves(w: World, e: Event, w': World)
    requires Sound(w) && Next(w, e, w') && e.TimerExpires? && w.state.timer.callbacks == [EndsRound]
    ensures NetUnits(w'.state) == NetUnits(w.state)
    ensures Wealth(w'.state) == Wealth(w.state) + Due(NetUnits(w.state), Sum(Handle(w, e).value.out, DividendsPaid))
  {
    ExpireCalls(w.state, EndsRound);
    var s := w.state.(timer := w.state.timer.(state := TimerState.Ended));
    assert NetUnits(s) == NetUnits(w.state) && Wealth(s) == Wealth(w.state);
    EndRoundConserves(s);
    EndRoundSums(s, DividendsPaid);
  }

  lemma OtherStepConserves(w: World, e: Event, w': World)
    requires Sound(w) && Next(w, e, w') && !AcceptedStart(w, e)
    requires !e.Submit? && !e.Create? && !e.Retract?
    requires e.TimerExpires? ==> w.state.timer.callbacks != [EndsRound]
    ensures Wealth(w'.state) == Wealth(w.state) && NetUnits(w'.state) == NetUnits(w.state)
    ensures Sum(Handle(w, e).value.out, DividendsPaid) == 0
  {
    hide Next, Handle, StartVerdict;
    NextGives(w, e, w');
    SoundCallbacks(w);
    QuietReply(w, e, DividendsPaid);
    if e.TimerExpires? {
      HandlesExpiry(w, e);
      ReviewEndFrame(w.state);
    } else {
      ClericalEffect(w, e);
    }
    if e.Join? {
      var folios, n := w.state.desk.folios, |w.state.subjects|;
      HoldingsBeyond(folios, Cash, n, n + 1);
      HoldingsBeyond(folios, Margin, n, n + 1);
      HoldingsBeyond(folios, Shares, n, n + 1);
      HoldingsBeyond(folios, Derivatives, n, n + 1);
    } else {
      assert |w'.state.subjects| == |w.state.subjects|;
    }
  }

  /** From `w` to `w'` net units stay, and wealth grows by the dividends paid on them. */
  ghost predicate Conserves(w: World, w': World) {
    && NetUnits(w'.state) == NetUnits(w.state)
    && PaidOut(w') >= PaidOut(w)
    && Wealth(w'.state) == Wealth(w.state) + Due(NetUnits(w.state), PaidOut(w') - PaidOut(w))
  }

  lemma ConservesTransitive(w: World, w': World, w'': World)
    requires Conserves(w, w') && Conserves(w', w'')
    ensures Conserves(w, w'')
  {
    DueAdds(NetUnits(w.state), PaidOut(w') - PaidOut(w), PaidOut(w'') - PaidOut(w'));
  }

  lemma StepConserves(w: World, e: Event, w': World)
    requires Sound(w) && Next(w, e, w') && !AcceptedStart(w, e)
    ensures Conserves(w, w')
  {
    hide Next, Handle, Sound, StartVerdict, Sum;
    NextGives(w, e, w');
    SumNonNegative(Handle(w, e).value.out, DividendsPaid);
    SumConcat(w.log, Handle(w, e).value.out, DividendsPaid);
    if e.Submit? || e.Create? || e.Retract? {
      MarketStepConserves(w, e, w');
      assert Due(NetUnits(w.state), 0) == 0;
    } else if e.TimerExpires? && w.state.timer.callbacks == [EndsRound] {
      RoundEndConserves(w, e, w');
    } else {
      OtherStepConserves(w, e, w');
      assert Due(NetUnits(w.state), 0) == 0;
    }
  }

  /** An accepted start hands out the configured allocations and pays nothing. */
  lemma StartAllocates(w: World, e: Event, w': World)
    requires Sound(w) && Next(w, e, w') && AcceptedStart(w, e)
    ensures forall item :: Holdings(w'.state.desk.folios, item, |w'.state.subjects|)
                           == Configured(w.state.desk.config, item, |w.state.subjects|)
    ensures PaidOut(w') == PaidOut(w)
  {
    var config, n := w.state.desk.config, |w.state.subjects|;
    SumConcat(w.log, Handle(w, e).value.out, DividendsPaid);
    QuietReply(w, e, DividendsPaid);
    AllocateFacts(config, w.state.desk.folios, n);
    forall item
      ensures Holdings(w'.state.desk.folios, item, n) == Configured(config, item, n)
    {
      AllocatedHoldings(config, w'.state.desk.folios, item, n);
    }
  }

  /** Once registered, a callback is only ever replaced by another. */
  lemma CallbacksStay(w: World, e: Event, w': World)
    requires Sound(w) && Next(w, e, w') && w'.state.timer.callbacks == []
    ensures w.state.timer.callbacks == []
  {
    if e.TimerExpires? && w.state.timer.callbacks != [] {
      ExpireCalls(w.state, w.state.timer.callbacks[0]);
    }
  }

  /** Before the start nothing has been paid. */
  lemma {:induction false} NothingPaidBeforeStart(ws: seq<World>, es: seq<Event>, i: nat)
    requires IsRun(ws, es) && i < |ws| && ws[i].state.timer.callbacks == []
    ensures PaidOut(ws[i]) == 0
  {
    if i > 0 {
      hide Next, Handle, Sound;
      var w, e := ws[i - 1], es[i - 1];
      RunStep(ws, es, i - 1);
      CallbacksStay(w, e, ws[i]);
      NothingPaidBeforeStart(ws, es, i - 1);
      NextGives(w, e, ws[i]);
      SumConcat(w.log, Handle(w, e).value.out, DividendsPaid);
      if e.Submit? || e.Create? || e.Retract? {
        MarketStepConserves(w, e, ws[i]);
      } else {
        QuietReply(w, e, DividendsPaid);
      }
    }
  }

  lemma StartStarts(w: World, e: Event, w': World)
    requires Next(w, e, w') && AcceptedStart(w, e)
    ensures !w'.state.desk.exp.status.NotStarted?
  {
  }

  lemma StaysStarted(w: World, e: Event, w': World)
    requires Sound(w) && Next(w, e, w') && !w.state.desk.exp.status.NotStarted?
    ensures !w'.state.desk.exp.status.NotStarted?
  {
    if e.TimerExpires? && w.state.timer.callbacks != [] {
      ExpireCalls(w.state, w.state.timer.callbacks[0]);
    }
  }

  /** Once started, an experiment is not started again. */
  lemma {:induction false} StartsOnce(ws: seq<World>, es: seq<Event>, k: nat, j: nat)
    requires IsRun(ws, es) && k < j < |ws| && AcceptedStart(ws[k], es[k])
    ensures !ws[j].state.desk.exp.status.NotStarted?
  {
    hide Next, Handle, Sound, AcceptedStart;
    RunStep(ws, es, j - 1);
    if k < j - 1 {
      StartsOnce(ws, es, k, j - 1);
      StaysStarted(ws[j - 1], es[j - 1], ws[j]);
    } else {
      StartStarts(ws[k], es[k], ws[j]);
    }
  }

  lemma LaterStep(ws: seq<World>, es: seq<Event>, k: nat, j: nat)
    requires IsRun(ws, es) && k < j < |es| && AcceptedStart(ws[k], es[k])
    ensures Sound(ws[j]) && Next(ws[j], es[j], ws[j + 1]) && !AcceptedStart(ws[j], es[j])
  {
    hide Next;
    assert StepAt(ws, es, j);
    RunIsSound(ws, es, j);
    StartsOnce(ws, es, k, j);
  }

  /** Between any two states after the start, wealth moves only by dividends on the net units. */
  lemma {:induction false} ConservedBetween(ws: seq<World>, es: seq<Event>, k: nat, i: nat, j: nat)
    requires IsRun(ws, es) && k < i <= j < |ws| && AcceptedStart(ws[k], es[k])
    ensures Conserves(ws[i], ws[j])
  {
    hide Next;
    if i < j {
      ConservedBetween(ws, es, k, i, j - 1);
      LaterStep(ws, es, k, j - 1);
      StepConserves(ws[j - 1], es[j - 1], ws[j]);
      ConservesTransitive(ws[i], ws[j - 1], ws[j]);
    }
  }

  /**
   * Conservation. From an accepted start on, in every state of every run -
   * whatever is traded, created, replaced, retracted, reloaded, ended early or
   * joined late - all cash and margin together are the configured cash and
   * margin plus one payment of every dividend paid so far for each configured
   * net unit; and the net units never change.
   */
  lemma WealthConserved(ws: seq<World>, es: seq<Event>, k: nat, j: nat)
    requires IsRun(ws, es) && k < j < |ws| && AcceptedStart(ws[k], es[k])
    ensures var config, n := ws[k].state.desk.config, |ws[k].state.subjects|;
            var units := Configured(config, Shares, n) - Configured(config, Derivatives, n);
            && NetUnits(ws[j].state) == units
            && Wealth(ws[j].state)
               == Configured(config, Cash, n) + Configured(config, Margin, n) + units * PaidOut(ws[j])
  {
    hide Next;
    RunIsSound(ws, es, k);
    assert StepAt(ws, es, k);
    StartAllocates(ws[k], es[k], ws[k + 1]);
    NothingPaidBeforeStart(ws, es, k);
    ConservedBetween(ws, es, k, k + 1, j);
    DueIsProduct(NetUnits(ws[k + 1].state), PaidOut(ws[j]));
  }
}
