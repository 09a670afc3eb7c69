/** What becomes of every accepted offer. */
module Fates {
  import opened Values
  import opened Offers
  import opened OrderBooks
  import opened OfferProcessing
  import opened MarketSafety
  import opened Servers
  import opened Ledgers
  import opened Reachable

  /** The offers that a step drops with the end of a round. */
  function ClearedBy(w: World, e: Event, ids: Ids): int {
    if e.TimerExpires? && w.state.timer.callbacks == [EndsRound] then BookTotal(w.state.desk.book, MeasureOf(ids))
    else 0
  }

  function Cleared(ws: seq<World>, es: seq<Event>, n: nat, ids: Ids): int
    requires n <= |es| && |ws| == |es| + 1
  {
    if n == 0 then 0 else Cleared(ws, es, n - 1, ids) + ClearedBy(ws[n - 1], es[n - 1], ids)
  }

  /** Accepted offers that the log and the book account for, `cleared` aside. */
  function Accounted(w: World, ids: Ids): int {
    BookTotal(w.state.desk.book, MeasureOf(ids)) + Sum(w.log, Traded(ids)) + Sum(w.log, Retracts(ids))
  }

  ghost predicate Balanced(w: World, cleared: int, ids: Ids) {
    Sum(w.log, Acceptances(ids)) == Accounted(w, ids) + cleared
  }

  /** What one reply adds to the accepted offers less what it announces as gone. */
  function NetEntry(out: seq<Envelope>, ids: Ids): int {
    Sum(out, Acceptances(ids)) - Sum(out, Traded(ids)) - Sum(out, Retracts(ids))
  }

  /** Only the first message of the reply to an offer counts. */
  lemma FirstMessageCounts(out: seq<Envelope>, t: Tally)
    requires out != [] && forall e | e in out[1..] :: e.msg.PortfolioUpdate?
    ensures Sum(out, t) == Entry(t, out[0].msg)
  {
    SumZero(out[1..], t);
    SumConcat([out[0]], out[1..], t);
    assert out == [out[0]] + out[1..];
    assert [out[0]][..0] == [];
  }

  lemma SubmitReply(w: World, e: Event, ids: Ids)
    requires Sound(w) && Possible(w, e) && Handle(w, e).Did? && e.Submit?
    ensures var d, o, out := w.state.desk, OfferOf(w, e), Handle(w, e).value.out;
            if Judge(d, o) == Did(OfferValidity.Accepted) then
              && Sum(out, Acceptances(ids)) == Matches(ids, o.id)
              && Sum(out, Retracts(ids)) == Total(Replaced(d, o), MeasureOf(ids))
              && Sum(out, Traded(ids))
                 == (if Counterpart(d, o).Some? then Matches(ids, o.id) + Matches(ids, Counterpart(d, o).value.id)
                     else 0)
            else
              Sum(out, Acceptances(ids)) == Sum(out, Traded(ids)) == Sum(out, Retracts(ids)) == 0
  {
    var o, out := OfferOf(w, e), Handle(w, e).value.out;
    var res := SubmitMessage(w, e);
    FirstMessageCounts(out, Acceptances(ids));
    FirstMessageCounts(out, Retracts(ids));
    FirstMessageCounts(out, Traded(ids));
    RetractsForCount(o.player, Replaced(w.state.desk, o), ids);
  }

  lemma SubmitBalances(w: World, e: Event, w': World, ids: Ids)
    requires Sound(w) && Next(w, e, w') && e.Submit?
    ensures BookTotal(w'.state.desk.book, MeasureOf(ids)) - BookTotal(w.state.desk.book, MeasureOf(ids))
         == NetEntry(Handle(w, e).value.out, ids)
  {
    hide Next, Handle, TradeNotices, ProcessOffer, Judge, Sum, OfferEffect, PossibleSort, Counterpart, Possible;
    var d, o, d' := w.state.desk, OfferOf(w, e), w'.state.desk;
    SubmitShape(w, e, w');
    SubmitReply(w, e, ids);
    if Judge(d, o) == Did(OfferValidity.Accepted) {
      WillBeAccepted(w, e, w');
      OfferHasEffect(d, w.nextId, o, e.sorted);
      EffectOnBook(d, o, d', Counterpart(d, o), Replaced(d, o), MeasureOf(ids));
    } else {
      RejectedKeepsState(w, e, w');
    }
  }

  lemma EffectOnBook(d: Desk, o: Offer, after: Desk, c: Option<Offer>, gone: seq<Offer>, m: Measure)
    requires OfferEffect(d, o, after, c, gone)
    ensures BookTotal(after.book, m) == BookTotal(d.book, m) - Total(gone, m)
            + if c.Some? then -Weigh(m, c.value) else Weigh(m, o)
  {
    assert Total(Side(after.book, o), m) + Total(Opposite(after.book, o), m) == BookTotal(after.book, m);
  }

  lemma RetractBalances(w: World, e: Event, w': World, ids: Ids)
    requires Sound(w) && Next(w, e, w') && e.Retract?
    ensures BookTotal(w'.state.desk.book, MeasureOf(ids)) - BookTotal(w.state.desk.book, MeasureOf(ids))
         == NetEntry(Handle(w, e).value.out, ids)
  {
    var rr, out := RetractRequest(e.player, e.offerId), Handle(w, e).value.out;
    forall t: Tally
      ensures Sum(out, t) == Entry(t, out[0].msg)
    {
      assert out[..0] == [];
    }
    if JudgeRetract(w.state.desk, rr).Accepted? {
      RetractTotals(w.state.desk, w.nextId, rr, MeasureOf(ids));
    }
  }

  lemma ExpireBalances(w: World, e: Event, w': World, ids: Ids)
    requires Sound(w) && Next(w, e, w') && e.TimerExpires?
    ensures BookTotal(w'.state.desk.book, MeasureOf(ids)) - BookTotal(w.state.desk.book, MeasureOf(ids))
         == NetEntry(Handle(w, e).value.out, ids) - ClearedBy(w, e, ids)
  {
    var s := w.state.(timer := w.state.timer.(state := TimerState.Ended));
    forall t: Tally | !t.DividendsPaid?
      ensures Sum(Handle(w, e).value.out, t) == 0
    {
      if w.state.timer.callbacks == [EndsRound] {
        ExpireCalls(w.state, EndsRound);
        EndRoundSums(s, t);
      } else {
        QuietReply(w, e, t);
      }
    }
    if w.state.timer.callbacks != [] {
      ExpireCalls(w.state, w.state.timer.callbacks[0]);
    }
  }

  lemma QuietBalances(w: World, e: Event, w': World, ids: Ids)
    requires Sound(w) && Next(w, e, w') && !e.Submit? && !e.Retract? && !e.TimerExpires?
    ensures BookTotal(w'.state.desk.book, MeasureOf(ids)) == BookTotal(w.state.desk.book, MeasureOf(ids))
    ensures NetEntry(Handle(w, e).value.out, ids) == 0
  {
    QuietReply(w, e, Acceptances(ids));
    QuietReply(w, e, Traded(ids));
    QuietReply(w, e, Retracts(ids));
  }

  lemma StepBalances(w: World, e: Event, w': World, cleared: int, ids: Ids)
    requires Sound(w) && Next(w, e, w') && Balanced(w, cleared, ids)
    ensures Balanced(w', cleared + ClearedBy(w, e, ids), ids)
  {
    var out := Handle(w, e).value.out;
    SumConcat(w.log, out, Acceptances(ids));
    SumConcat(w.log, out, Traded(ids));
    SumConcat(w.log, out, Retracts(ids));
    if e.Submit? {
      SubmitBalances(w, e, w', ids);
    } else if e.Retract? {
      RetractBalances(w, e, w', ids);
    } else if e.TimerExpires? {
      ExpireBalances(w, e, w', ids);
    } else {
      QuietBalances(w, e, w', ids);
    }
  }

  /**
   * In every state of every run the accepted offers - one id, or all of them
   * together - are exactly the resting ones, the traded ones (two a trade),
   * the retracted or replaced ones and those cleared with their round.
   */
  lemma {:induction false} EveryOfferAccounted(ws: seq<World>, es: seq<Event>, j: nat, ids: Ids)
    requires IsRun(ws, es) && j < |ws|
    ensures Sum(ws[j].log, Acceptances(ids))
         == BookTotal(ws[j].state.desk.book, MeasureOf(ids))
            + Sum(ws[j].log, Traded(ids)) + Sum(ws[j].log, Retracts(ids)) + Cleared(ws, es, j, ids)
  {
    hide Next, Handle, Sound;
    if j > 0 {
      EveryOfferAccounted(ws, es, j - 1, ids);
      RunStep(ws, es, j - 1);
      StepBalances(ws[j - 1], es[j - 1], ws[j], Cleared(ws, es, j - 1, ids), ids);
    }
  }

  /** Each id is accepted at most once, and only ids below `nextId` are. */
  ghost predicate AcceptedOnce(w: World, id: nat) {
    && 0 <= Sum(w.log, Acceptances(Just(id))) <= 1
    && (id >= w.nextId ==> Sum(w.log, Acceptances(Just(id))) == 0)
  }

  lemma StepAccepts(w: World, e: Event, w': World, id: nat)
    requires Sound(w) && Next(w, e, w') && AcceptedOnce(w, id)
    ensures AcceptedOnce(w', id)
  {
    var ids := Just(id);
    SumConcat(w.log, Handle(w, e).value.out, Acceptances(ids));
    if e.Submit? {
      SubmitReply(w, e, ids);
    } else if e.TimerExpires? && w.state.timer.callbacks == [EndsRound] {
      ExpireCalls(w.state, EndsRound);
      EndRoundSums(w.state.(timer := w.state.timer.(state := TimerState.Ended)), Acceptances(ids));
    } else if e.Retract? {
      SumZero(Handle(w, e).value.out, Acceptances(ids));
    } else {
      QuietReply(w, e, Acceptances(ids));
    }
  }

  /** Ids are handed out once, so each is accepted at most once. */
  lemma {:induction false} AcceptedAtMostOnce(ws: seq<World>, es: seq<Event>, j: nat, id: nat)
    requires IsRun(ws, es) && j < |ws|
    ensures AcceptedOnce(ws[j], id)
  {
    hide Next, Handle, Sound;
    if j > 0 {
      AcceptedAtMostOnce(ws, es, j - 1, id);
      RunStep(ws, es, j - 1);
      StepAccepts(ws[j - 1], es[j - 1], ws[j], id);
    }
  }

  lemma {:induction false} ClearedNonNegative(ws: seq<World>, es: seq<Event>, n: nat, ids: Ids)
    requires n <= |es| && |ws| == |es| + 1
    ensures Cleared(ws, es, n, ids) >= 0
  {
    if n > 0 {
      ClearedNonNegative(ws, es, n - 1, ids);
      TotalNonNegative(ws[n - 1].state.desk.book.bids, MeasureOf(ids));
      TotalNonNegative(ws[n - 1].state.desk.book.asks, MeasureOf(ids));
    }
  }

  datatype Fate = NeverAccepted | IsResting | IsTraded | IsRetracted | IsCleared

  /** The fate of an id, read off the log, the book and the round ends of a run. */
  function FateOf(ws: seq<World>, es: seq<Event>, j: nat, id: nat): Fate
    requires j <= |es| && |ws| == |es| + 1
  {
    if Sum(ws[j].log, Acceptances(Just(id))) == 0 then NeverAccepted
    else if BookTotal(ws[j].state.desk.book, HasId(id)) > 0 then IsResting
    else if Sum(ws[j].log, Traded(Just(id))) > 0 then IsTraded
    else if Sum(ws[j].log, Retracts(Just(id))) > 0 then IsRetracted
    else IsCleared
  }

  /** Every id has exactly one fate: whatever it is not counted under, it never was. */
  lemma OneFate(ws: seq<World>, es: seq<Event>, j: nat, id: nat)
    requires IsRun(ws, es) && j < |ws|
    ensures var fate := FateOf(ws, es, j, id);
            && Sum(ws[j].log, Acceptances(Just(id))) == (if fate.NeverAccepted? then 0 else 1)
            && BookTotal(ws[j].state.desk.book, HasId(id)) == (if fate.IsResting? then 1 else 0)
            && Sum(ws[j].log, Traded(Just(id))) == (if fate.IsTraded? then 1 else 0)
            && Sum(ws[j].log, Retracts(Just(id))) == (if fate.IsRetracted? then 1 else 0)
            && Cleared(ws, es, j, Just(id)) == (if fate.IsCleared? then 1 else 0)
  {
    EveryOfferAccounted(ws, es, j, Just(id));
    AcceptedAtMostOnce(ws, es, j, id);
    SumNonNegative(ws[j].log, Traded(Just(id)));
    SumNonNegative(ws[j].log, Retracts(Just(id)));
    ClearedNonNegative(ws, es, j, Just(id));
    TotalNonNegative(ws[j].state.desk.book.bids, HasId(id));
    TotalNonNegative(ws[j].state.desk.book.asks, HasId(id));
  }
}
