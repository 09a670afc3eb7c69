/** The replica agrees with the server over whole runs. */
module ReplicaRuns {
  import opened Values
  import opened Offers
  import opened OrderBooks
  import opened Portfolios
  import opened Experiments
  import opened OfferProcessing
  import opened MarketSafety
  import opened Servers
  import opened Ledgers
  import opened Reachable
  import opened Replica

  // ---- Portfolios ----------------------------------------------------------


  lemma {:induction false} PortAfterConcat(port: Folio, a: seq<Envelope>, b: seq<Envelope>, id: nat)
    ensures PortAfter(port, a + b, id) == PortAfter(PortAfter(port, a, id), b, id)
  {
    if b == [] {
      assert a + b == a;
    } else {
      assert (a + b)[..|a + b| - 1] == a + b[..|b| - 1];
      PortAfterConcat(port, a, b[..|b| - 1], id);
    }
  }

  lemma {:induction false} PortAfterQuiet(port: Folio, out: seq<Envelope>, id: nat)
    requires forall x | x in out :: !x.msg.PortfolioUpdate? || !Reaches(x.to, id)
    ensures PortAfter(port, out, id) == port
  {
    if out != [] {
      assert out[|out| - 1] in out;
      PortAfterQuiet(port, out[..|out| - 1], id);
    }
  }

  lemma {:induction false} PortAfterSend(port: Folio, folios: Folios, n: nat, id: nat)
    requires SendPortfolios(folios, n).Did?
    ensures id < n ==> id in folios && PortAfter(port, SendPortfolios(folios, n).value, id) == folios[id]
  {
    if n > 0 {
      PortAfterSend(port, folios, n - 1, id);
    }
  }

  lemma {:induction false} PortAfterOpening(port: Folio, config: Configuration, folios: Folios, n: nat, id: nat)
    requires SendOpening(config, folios, n).Did?
    ensures id < n ==> id in folios && PortAfter(port, SendOpening(config, folios, n).value, id) == folios[id]
  {
    if n > 0 {
      PortAfterOpening(port, config, folios, n - 1, id);
      var earlier := SendOpening(config, folios, n - 1).value;
      var a := Envelope(Only(n - 1), SubjectSettings(config.subConfigs[n - 1]));
      var b := Envelope(Only(n - 1), PortfolioUpdate(n - 1, folios[n - 1]));
      assert earlier + [a, b] == (earlier + [a]) + [b];
      PortAfterTwo(port, earlier, a, b, id);
    }
  }

  lemma PortAfterTwo(port: Folio, earlier: seq<Envelope>, a: Envelope, b: Envelope, id: nat)
    requires !a.msg.PortfolioUpdate? && b.msg.PortfolioUpdate?
    ensures PortAfter(port, (earlier + [a]) + [b], id)
         == if Reaches(b.to, id) then b.msg.port else PortAfter(port, earlier, id)
  {
    assert ((earlier + [a]) + [b])[..|earlier| + 1] == earlier + [a];
    assert (earlier + [a])[..|earlier|] == earlier;
  }

  lemma NoTradePort(w: World, e: Event, w': World)
    requires Sound(w) && Next(w, e, w') && e.Submit?
    requires !(Judge(w.state.desk, OfferOf(w, e)) == Did(OfferValidity.Accepted)
            && Counterpart(w.state.desk, OfferOf(w, e)).Some?)
    ensures w'.state.desk.folios == w.state.desk.folios
    ensures forall x | x in Handle(w, e).value.out :: !x.msg.PortfolioUpdate?
  {
    if Judge(w.state.desk, OfferOf(w, e)) == Did(OfferValidity.Accepted) {
      MatchResult(w.state.desk, w.nextId, OfferOf(w, e), e.sorted);
    }
  }

  lemma TradeOutcome(d: Desk, nextId: nat, o: Offer, sorted: seq<Offer>)
    requires WillAccept(d, nextId, o, sorted) && Counterpart(d, o).Some?
    ensures var t, h := TradeWith(o, Counterpart(d, o).value), ProcessOffer(d, o, sorted);
            && h.Did? && h.value.result.trade == Some(t) && h.value.result.validity.Accepted?
            && t.buyer in d.folios && t.seller in d.folios
            && h.value.desk.folios == Settle(d.folios, Some(t)).value
  {
    hide Settle;
    OfferHoldings(d, nextId, o, sorted);
    MatchResult(d, nextId, o, sorted);
  }

  /** The port of a client after the answer to an offer that traded. */
  lemma NoticesPort(folios: Folios, t: Trade, told: Envelope, port: Folio, id: nat)
    requires TradeNotices(folios, Some(t)).Did? && !told.msg.PortfolioUpdate?
    ensures t.buyer in folios && t.seller in folios
    ensures PortAfter(port, [told] + TradeNotices(folios, Some(t)).value, id)
         == if id == t.seller then folios[t.seller] else if id == t.buyer then folios[t.buyer] else port
  {
    hide PortAfter;
    var a := Envelope(Only(t.buyer), PortfolioUpdate(t.buyer, folios[t.buyer]));
    var b := Envelope(Only(t.seller), PortfolioUpdate(t.seller, folios[t.seller]));
    assert [told] + TradeNotices(folios, Some(t)).value == [told, a, b];
    TwoNotices(port, told, a, b, id);
  }

  lemma TradePort(w: World, e: Event, w': World, port: Folio, id: nat)
    requires Sound(w) && Next(w, e, w') && e.Submit? && HasPort(port, w.state.desk.folios, id)
    requires Judge(w.state.desk, OfferOf(w, e)) == Did(OfferValidity.Accepted)
    requires Counterpart(w.state.desk, OfferOf(w, e)).Some?
    ensures HasPort(PortAfter(port, Handle(w, e).value.out, id), w'.state.desk.folios, id)
  {
    hide Next, Handle, Settle, Judge, TradeNotices, PortAfter, ProcessOffer, WillAccept, Sound, Counterpart;
    var d, o := w.state.desk, OfferOf(w, e);
    var t := TradeWith(o, Counterpart(d, o).value);
    SubmitShape(w, e, w');
    WillBeAccepted(w, e, w');
    TradeOutcome(d, w.nextId, o, e.sorted);
    SettlesOnlyParties(d.folios, t, id);
    var told := Envelope(All, AcceptedOffer(ProcessOffer(d, o, e.sorted).value.result));
    NoticesPort(w'.state.desk.folios, t, told, port, id);
  }

  lemma SettlesOnlyParties(folios: Folios, t: Trade, id: nat)
    requires t.buyer in folios && t.seller in folios
    ensures Settle(folios, Some(t)).Did? && Settle(folios, Some(t)).value.Keys == folios.Keys
    ensures id in folios && id != t.buyer && id != t.seller ==> Settle(folios, Some(t)).value[id] == folios[id]
  {
  }

  lemma TwoNotices(port: Folio, x: Envelope, a: Envelope, b: Envelope, id: nat)
    requires !x.msg.PortfolioUpdate? && a.msg.PortfolioUpdate? && b.msg.PortfolioUpdate?
    ensures PortAfter(port, [x, a, b], id)
         == if Reaches(b.to, id) then b.msg.port else if Reaches(a.to, id) then a.msg.port else port
  {
    assert [x, a, b][..2] == [x, a] && [x, a][..1] == [x] && [x][..0] == [];
    assert PortAfter(port, [x], id) == port;
    assert PortAfter(port, [x, a], id) == if Reaches(a.to, id) then a.msg.port else port;
  }

  /** The port of a client after the answer to a creation. */
  lemma CreationPort(told: Envelope, notice: Envelope, port: Folio, id: nat)
    requires !told.msg.PortfolioUpdate? && notice.msg.PortfolioUpdate?
    ensures PortAfter(port, [told] + [notice], id) == if Reaches(notice.to, id) then notice.msg.port else port
    ensures PortAfter(port, [told] + [], id) == port
  {
    assert ([told] + [notice])[..1] == [told] && [told][..0] == [] && [told] + [] == [told];
    assert PortAfter(port, [told], id) == port;
  }

  lemma CreationPortfolios(d: Desk, p: nat, id: nat)
    requires ProcessCreate(d, p).Did?
    ensures var h := ProcessCreate(d, p).value;
            && h.desk.folios.Keys == d.folios.Keys
            && (id in d.folios && (id != p || !h.result.validity.Accepted?) ==> h.desk.folios[id] == d.folios[id])
  {
  }

  lemma CreatePort(w: World, e: Event, w': World, port: Folio, id: nat)
    requires Next(w, e, w') && e.Create? && HasPort(port, w.state.desk.folios, id)
    ensures HasPort(PortAfter(port, Handle(w, e).value.out, id), w'.state.desk.folios, id)
  {
    hide Next, Handle, ProcessCreate, PortAfter;
    NextGives(w, e, w');
    CreateShape(w, e);
    CreationPortfolios(w.state.desk, e.player, id);
    var h := ProcessCreate(w.state.desk, e.player).value;
    var told := Envelope(Only(e.player), CreationProcessed(h.result));
    var after := if e.player in h.desk.folios then h.desk.folios[e.player] else port;
    CreationPort(told, Envelope(Only(e.player), PortfolioUpdate(e.player, after)), port, id);
  }

  /** The port of a client after some messages, its portfolio among them, and a last one. */
  lemma RoundEndMessages(
      head: seq<Envelope>, folios: Folios, n: nat, last: Envelope, port: Folio, id: nat)
    requires SendPortfolios(folios, n).Did? && !last.msg.PortfolioUpdate?
    requires forall id | id in folios :: id < n
    ensures HasPort(PortAfter(port, head + SendPortfolios(folios, n).value + [last], id), folios, id)
  {
    hide SendPortfolios;
    var sent := SendPortfolios(folios, n).value;
    PortAfterConcat(port, head + sent, [last], id);
    PortAfterConcat(port, head, sent, id);
    PortAfterSend(PortAfter(port, head, id), folios, n, id);
    PortAfterQuiet(PortAfter(port, head + sent, id), [last], id);
  }

  lemma RoundEndPort(w: World, e: Event, w': World, port: Folio, id: nat)
    requires Sound(w) && Next(w, e, w') && e.TimerExpires? && w.state.timer.callbacks == [EndsRound]
    ensures HasPort(PortAfter(port, Handle(w, e).value.out, id), w'.state.desk.folios, id)
  {
    hide Next, Handle, EndRound, Expire, SendPortfolios, PortAfter, HasPort;
    NextGives(w, e, w');
    HandlesExpiry(w, e);
    ExpireCalls(w.state, EndsRound);
    var stopped := w.state.(timer := w.state.timer.(state := TimerState.Ended));
    EndRoundReply(stopped);
    var folios, out := w'.state.desk.folios, Handle(w, e).value.out;
    RoundEndMessages([out[0], out[1]], folios, |w.state.subjects|, Envelope(All, ReviewStarted), port, id);
  }

  lemma StartPort(w: World, e: Event, w': World, port: Folio, id: nat)
    requires Sound(w) && Next(w, e, w') && e.RequestStart? && StartVerdict(w.state).Accepted?
    ensures HasPort(PortAfter(port, Handle(w, e).value.out, id), w'.state.desk.folios, id)
  {
    hide Allocate, SendOpening, PortAfter, Next, StartVerdict;
    NextGives(w, e, w');
    var s, n := w.state, |w.state.subjects|;
    AllocateFacts(s.desk.config, s.desk.folios, n);
    var folios := Allocate(s.desk.config, s.desk.folios, n).value;
    var sent := SendOpening(s.desk.config, folios, n).value;
    var out := Handle(w, e).value.out;
    var head, tail := out[..1], out[1 + |sent|..];
    assert out == head + sent + tail && |tail| == 1;
    OpeningPort(port, head, s.desk.config, folios, n, tail, id);
  }

  lemma OpeningPort(
      port: Folio, head: seq<Envelope>, config: Configuration, folios: Folios, n: nat, tail: seq<Envelope>, id: nat)
    requires SendOpening(config, folios, n).Did? && forall x | x in tail :: !x.msg.PortfolioUpdate?
    ensures id < n ==>
              id in folios && PortAfter(port, head + SendOpening(config, folios, n).value + tail, id) == folios[id]
  {
    hide PortAfter, SendOpening;
    var sent := SendOpening(config, folios, n).value;
    PortAfterConcat(port, head + sent, tail, id);
    PortAfterConcat(port, head, sent, id);
    PortAfterOpening(PortAfter(port, head, id), config, folios, n, id);
    PortAfterQuiet(PortAfter(port, head + sent, id), tail, id);
  }

  lemma QuietReplyPort(w: World, e: Event, w': World)
    requires Sound(w) && Next(w, e, w') && !e.Submit? && !e.Create?
    requires e.TimerExpires? ==> w.state.timer.callbacks != [EndsRound]
    requires e.RequestStart? ==> !StartVerdict(w.state).Accepted?
    ensures w'.state.desk.folios == w.state.desk.folios
    ensures forall x | x in Handle(w, e).value.out :: !x.msg.PortfolioUpdate?
  {
    hide Next, Handle, Sound, StartVerdict;
    NextGives(w, e, w');
    SoundCallbacks(w);
    ReplyFits(w, e);
    if e.TimerExpires? {
      HandlesExpiry(w, e);
      ReviewEndFrame(w.state);
    } else if e.Retract? {
      RetractFrame(w, e);
    } else {
      ClericalEffect(w, e);
    }
  }

  lemma StepPort(w: World, e: Event, w': World, port: Folio, id: nat)
    requires Sound(w) && Next(w, e, w') && HasPort(port, w.state.desk.folios, id)
    ensures HasPort(PortAfter(port, Handle(w, e).value.out, id), w'.state.desk.folios, id)
  {
    hide Next, Handle, Sound, PortAfter, HasPort, StartVerdict;
    NextGives(w, e, w');
    if e.Submit? {
      var d, o := w.state.desk, OfferOf(w, e);
      if Judge(d, o) == Did(OfferValidity.Accepted) && Counterpart(d, o).Some? {
        TradePort(w, e, w', port, id);
      } else {
        NoTradePort(w, e, w');
        PortAfterQuiet(port, Handle(w, e).value.out, id);
      }
    } else if e.Create? {
      CreatePort(w, e, w', port, id);
    } else if e.TimerExpires? && w.state.timer.callbacks == [EndsRound] {
      RoundEndPort(w, e, w', port, id);
    } else if e.RequestStart? && StartVerdict(w.state).Accepted? {
      StartPort(w, e, w', port, id);
    } else {
      QuietReplyPort(w, e, w');
      PortAfterQuiet(port, Handle(w, e).value.out, id);
    }
  }

  // ---- Book and trades -------------------------------------------------------

  lemma RejectedMarket(w: World, e: Event, w': World, cs: seq<Client>, id: nat)
    requires Sound(w) && Next(w, e, w') && e.Submit? && |cs| > 0 && MarketAgrees(cs[0], w)
    requires Judge(w.state.desk, OfferOf(w, e)) != Did(OfferValidity.Accepted)
    requires Follows(cs, Handle(w, e).value.out, id)
    ensures MarketAgrees(cs[|cs| - 1], w')
  {
    var out := Handle(w, e).value.out;
    BookFollows(cs, out, id);
    TradesQuiet(w.log, out);
  }

  lemma AcceptedMarket(w: World, e: Event, w': World, cs: seq<Client>, id: nat)
    requires Sound(w) && Next(w, e, w') && e.Submit? && |cs| > 0 && MarketAgrees(cs[0], w)
    requires Judge(w.state.desk, OfferOf(w, e)) == Did(OfferValidity.Accepted)
    requires Follows(cs, Handle(w, e).value.out, id)
    ensures MarketAgrees(cs[|cs| - 1], w')
  {
    hide Next, Handle, Judge, Sound, ClientNext;
    NextGives(w, e, w');
    MarketKeepsTimer(w, e);
    var out := Handle(w, e).value.out;
    var res := SubmitMessage(w, e);
    FollowsSuffix(cs, out, id, 1);
    BookFollows(cs[1..], out[1..], id);
    FirstStep(cs, out, id);
    AcceptedMessage(w, e, w', cs[0], cs[1], res);
    TradesAfterFirst(w.log, out, res);
    assert w'.log == w.log + out && w'.state.timer == w.state.timer;
  }

  lemma FirstStep(cs: seq<Client>, out: seq<Envelope>, id: nat)
    requires Follows(cs, out, id) && out != [] && out[0].to.All?
    ensures ClientNext(cs[0], out[0].msg, cs[1])
  {
    assert out[0] == out[0];
  }

  lemma TradesAfterFirst(log: seq<Envelope>, out: seq<Envelope>, res: MarketSubmissionResult)
    requires out != [] && out[0].msg == AcceptedOffer(res) && LeavesBook(out[1..])
    ensures TradesThisRound(log + out) == TradesThisRound(log) + if res.trade.Some? then [res.trade.value] else []
  {
    TradesQuiet(log + [out[0]], out[1..]);
    assert log + out == (log + [out[0]]) + out[1..];
    assert (log + [out[0]])[..|log|] == log;
  }

  lemma AcceptedMessage(w: World, e: Event, w': World, c: Client, c': Client, res: MarketSubmissionResult)
    requires Sound(w) && Next(w, e, w') && e.Submit?
    requires Judge(w.state.desk, OfferOf(w, e)) == Did(OfferValidity.Accepted)
    requires res == ResultOf(w.state.desk, OfferOf(w, e))
    requires MarketAgrees(c, w) && ClientNext(c, AcceptedOffer(res), c')
    ensures w.state.timer.callbacks == [EndsRound] ==>
              SameBook(c'.book, w'.state.desk.book)
              && c'.transactions == TradesThisRound(w.log) + if res.trade.Some? then [res.trade.value] else []
  {
    hide Next, Handle, Judge, TradeNotices, Peek, Popped, RetractsFor, BookFor, Counterpart, SameBook, WillAccept;
    var d, o := w.state.desk, OfferOf(w, e);
    SubmitShape(w, e, w');
    WillBeAccepted(w, e, w');
    var sorted :| PossibleApply(c, AcceptedOffer(res), sorted) && c' == Apply(c, AcceptedOffer(res), sorted);
    if w.state.timer.callbacks == [EndsRound] {
      AcceptedOfferAgrees(d, w.nextId, o, e.sorted, c.book, sorted);
    }
  }

  lemma RetractionApplied(c: Client, rr: RetractRequest, c': Client)
    requires ClientNext(c, AcceptedRetraction(RetractResult(RetractValidity.Accepted, rr)), c')
    ensures c'.book == Retracted(c.book, rr.offerId) && c'.transactions == c.transactions
  {
  }

  lemma RetractTrades(log: seq<Envelope>, x: Envelope)
    requires !x.msg.RoundStarted? && !x.msg.AcceptedOffer?
    ensures TradesThisRound(log + [x]) == TradesThisRound(log)
  {
    assert (log + [x])[..|log|] == log;
    assert TradesThisRound(log) + [] == TradesThisRound(log);
  }

  lemma RetractMarket(w: World, e: Event, w': World, cs: seq<Client>, id: nat)
    requires Sound(w) && Next(w, e, w') && e.Retract? && |cs| > 0 && MarketAgrees(cs[0], w)
    requires Follows(cs, Handle(w, e).value.out, id)
    ensures MarketAgrees(cs[|cs| - 1], w')
  {
    hide Next, Handle, Sound, JudgeRetract, ClientNext, SameBook;
    NextGives(w, e, w');
    RetractShape(w, e);
    var d, rr, out := w.state.desk, RetractRequest(e.player, e.offerId), Handle(w, e).value.out;
    if JudgeRetract(d, rr).Accepted? {
      SoundBook(w);
      FirstStep(cs, out, id);
      RetractionApplied(cs[0], rr, cs[1]);
      if w.state.timer.callbacks == [EndsRound] {
        RetractionAgrees(cs[0].book, d.book, e.offerId);
      }
    } else {
      BookFollows(cs, out, id);
    }
    RetractTrades(w.log, out[0]);
  }

  /** Whatever came before, a client that hears a round begin has an empty book and no trades. */
  lemma RoundBeginsEmpty(cs: seq<Client>, log: seq<Envelope>, out: seq<Envelope>, id: nat)
    requires Follows(cs, out, id) && out != []
    requires out[|out| - 1].to.All? && out[|out| - 1].msg.RoundStarted?
    ensures cs[|out|].book == EMPTY_BOOK && cs[|out|].transactions == []
    ensures TradesThisRound(log + out) == []
  {
    LastStep(cs, out, id);
    assert (log + out)[|log + out| - 1] == out[|out| - 1];
  }

  lemma StartMarket(w: World, e: Event, w': World, cs: seq<Client>, id: nat)
    requires Sound(w) && Next(w, e, w') && e.RequestStart? && StartVerdict(w.state).Accepted?
    requires |cs| > 0 && Follows(cs, Handle(w, e).value.out, id)
    ensures MarketAgrees(cs[|cs| - 1], w')
  {
    var out := Handle(w, e).value.out;
    assert out[|out| - 1].msg.RoundStarted?;
    RoundBeginsEmpty(cs, w.log, out, id);
  }

  lemma ExpireMarket(w: World, e: Event, w': World, cs: seq<Client>, id: nat)
    requires Sound(w) && Next(w, e, w') && e.TimerExpires?
    requires |cs| > 0 && Follows(cs, Handle(w, e).value.out, id)
    ensures MarketAgrees(cs[|cs| - 1], w')
  {
    var out := Handle(w, e).value.out;
    if w.state.timer.callbacks == [EndsRound] {
      ExpireCalls(w.state, EndsRound);
      EndRoundReply(w.state.(timer := w.state.timer.(state := TimerState.Ended)));
    } else if w.state.timer.callbacks == [EndsReview] {
      ExpireCalls(w.state, EndsReview);
      if w.state.desk.exp.round < w.state.desk.config.nRounds {
        assert out[|out| - 1].msg.RoundStarted?;
        RoundBeginsEmpty(cs, w.log, out, id);
      }
    }
  }

  lemma QuietReplyBook(w: World, e: Event, w': World)
    requires Next(w, e, w') && !e.Submit? && !e.Retract? && !e.TimerExpires?
    requires AtMostOneCallback(w.state) && (e.RequestStart? ==> !StartVerdict(w.state).Accepted?)
    ensures w'.state.desk.book == w.state.desk.book && w'.state.timer.callbacks == w.state.timer.callbacks
    ensures LeavesBook(Handle(w, e).value.out) && w'.log == w.log + Handle(w, e).value.out
  {
    hide Next, Handle, StartVerdict;
    NextGives(w, e, w');
    ReplyFits(w, e);
    if e.Create? {
      CreateFrame(w, e);
    } else {
      ClericalEffect(w, e);
    }
  }

  lemma QuietMarket(w: World, e: Event, w': World, cs: seq<Client>, id: nat)
    requires Sound(w) && Next(w, e, w') && |cs| > 0 && MarketAgrees(cs[0], w)
    requires !e.Submit? && !e.Retract? && !e.TimerExpires?
    requires e.RequestStart? ==> !StartVerdict(w.state).Accepted?
    requires Follows(cs, Handle(w, e).value.out, id)
    ensures MarketAgrees(cs[|cs| - 1], w')
  {
    hide Sound, Handle, StartVerdict;
    var out := Handle(w, e).value.out;
    SoundCallbacks(w);
    QuietReplyBook(w, e, w');
    BookFollows(cs, out, id);
    TradesQuiet(w.log, out);
  }

  lemma StepMarket(w: World, e: Event, w': World, cs: seq<Client>, id: nat)
    requires Sound(w) && Next(w, e, w') && |cs| > 0 && MarketAgrees(cs[0], w)
    requires Follows(cs, Handle(w, e).value.out, id)
    ensures MarketAgrees(cs[|cs| - 1], w')
  {
    hide Next;
    if e.Submit? {
      if Judge(w.state.desk, OfferOf(w, e)) == Did(OfferValidity.Accepted) {
        AcceptedMarket(w, e, w', cs, id);
      } else {
        RejectedMarket(w, e, w', cs, id);
      }
    } else if e.Retract? {
      RetractMarket(w, e, w', cs, id);
    } else if e.TimerExpires? {
      ExpireMarket(w, e, w', cs, id);
    } else if e.RequestStart? && StartVerdict(w.state).Accepted? {
      StartMarket(w, e, w', cs, id);
    } else {
      QuietMarket(w, e, w', cs, id);
    }
  }

  // ---- Whole runs ----------------------------------------------------------

  /** A client that followed up to `w'` had followed up to `w`, and then took the reply to `e`. */
  lemma FollowsStep(from: World, w: World, e: Event, w': World, cs: seq<Client>, id: nat)
    requires Next(w, e, w') && |from.log| <= |w.log| && Follows(cs, Since(from, w'), id)
    ensures |cs| == |Since(from, w')| + 1
    ensures var n := |Since(from, w)|;
            n < |cs| && Follows(cs[..n + 1], Since(from, w), id) && Follows(cs[n..], Handle(w, e).value.out, id)
  {
    hide Handle, Follows;
    SinceGrows(from, w, e, w');
    FollowsParts(cs, Since(from, w), Handle(w, e).value.out, id);
  }

  /** Once a client has the book and the trades, it keeps them: the messages sent after that are enough. */
  lemma {:induction false} MarketAgreesFrom(ws: seq<World>, es: seq<Event>, i: nat, j: nat, cs: seq<Client>, id: nat)
    requires IsRun(ws, es) && i <= j < |ws| && Follows(cs, Since(ws[i], ws[j]), id) && MarketAgrees(cs[0], ws[i])
    ensures MarketAgrees(cs[|cs| - 1], ws[j])
  {
    hide Next, MarketAgrees, Sound;
    if i < j {
      RunStep(ws, es, j - 1);
      LogsExtend(ws, es, i, j - 1);
      FollowsStep(ws[i], ws[j - 1], es[j - 1], ws[j], cs, id);
      var n := |Since(ws[i], ws[j - 1])|;
      MarketAgreesFrom(ws, es, i, j - 1, cs[..n + 1], id);
      StepMarket(ws[j - 1], es[j - 1], ws[j], cs[n..], id);
    }
  }

  lemma {:induction false} PortAgreesFrom(ws: seq<World>, es: seq<Event>, i: nat, j: nat, cs: seq<Client>, id: nat)
    requires IsRun(ws, es) && i <= j < |ws| && Follows(cs, Since(ws[i], ws[j]), id)
    requires HasPort(cs[0].port, ws[i].state.desk.folios, id)
    ensures HasPort(cs[|cs| - 1].port, ws[j].state.desk.folios, id)
  {
    hide Next, HasPort, Sound, Handle;
    if i < j {
      RunStep(ws, es, j - 1);
      LogsExtend(ws, es, i, j - 1);
      FollowsStep(ws[i], ws[j - 1], es[j - 1], ws[j], cs, id);
      var n := |Since(ws[i], ws[j - 1])|;
      PortAgreesFrom(ws, es, i, j - 1, cs[..n + 1], id);
      StepPort(ws[j - 1], es[j - 1], ws[j], cs[n].port, id);
      PortFollows(cs[n..], Handle(ws[j - 1], es[j - 1]).value.out, id);
    }
  }

  /**
   * A client that agrees with the server in one state of a run, and takes the
   * messages sent to it since, agrees with it in every later state: during a
   * round it holds the same bids and asks and the trades of the round, and from
   * the start of the experiment on its own current portfolio.
   */
  lemma ReplicaAgrees(ws: seq<World>, es: seq<Event>, i: nat, j: nat, cs: seq<Client>, id: nat)
    requires IsRun(ws, es) && i <= j < |ws| && Follows(cs, Since(ws[i], ws[j]), id) && Agrees(cs[0], ws[i], id)
    ensures Agrees(cs[|cs| - 1], ws[j], id)
  {
    MarketAgreesFrom(ws, es, i, j, cs, id);
    PortAgreesFrom(ws, es, i, j, cs, id);
  }

  // ---- Clients that come later -----------------------------------------------

  ghost predicate BeginsRound(out: seq<Envelope>) {
    exists x :: x in out && x.msg.RoundStarted?
  }

  /** Step `m` announces a round. */
  ghost predicate BeginsRoundAt(ws: seq<World>, es: seq<Event>, m: nat)
    requires m < |es| && |ws| == |es| + 1
  {
    Possible(ws[m], es[m]) && Handle(ws[m], es[m]).Did? && BeginsRound(Handle(ws[m], es[m]).value.out)
  }

  /** A round begins only while none is in progress. */
  lemma NoRoundBefore(w: World, e: Event, w': World)
    requires Sound(w) && Next(w, e, w') && BeginsRound(Handle(w, e).value.out)
    ensures w.state.timer.callbacks != [EndsRound]
  {
    hide Next, Handle;
    NextGives(w, e, w');
    SoundCallbacks(w);
    ReplyFits(w, e);
    if e.RequestStart? {
      NotStartedIdle(w);
    }
  }

  lemma NotStartedIdle(w: World)
    requires Sound(w) && StartVerdict(w.state).Accepted?
    ensures w.state.timer.callbacks == []
  {
  }

  /**
   * A client that starts with nothing right at all, but hears a round begin,
   * has the server's book and trades from then on.
   */
  lemma RoundClientAgrees(ws: seq<World>, es: seq<Event>, i: nat, m: nat, j: nat, cs: seq<Client>, id: nat)
    requires IsRun(ws, es) && i <= m < j < |ws| && Follows(cs, Since(ws[i], ws[j]), id)
    requires BeginsRoundAt(ws, es, m)
    ensures MarketAgrees(cs[|cs| - 1], ws[j])
  {
    hide Next, Sound, BeginsRound, Handle, Possible;
    RunStep(ws, es, m);
    NoRoundBefore(ws[m], es[m], ws[m + 1]);
    SinceSplits(ws, es, i, m, j);
    FollowsParts(cs, Since(ws[i], ws[m]), Since(ws[m], ws[j]), id);
    MarketAgreesFrom(ws, es, m, j, cs[|Since(ws[i], ws[m])|..], id);
  }

  /**
   * The server sends to the clients it has admitted. A client admitted at step
   * `i`, whatever it held, agrees with the server in every later state in full,
   * if it was not admitted in the middle of a round or has heard one begin.
   */
  lemma AdmittedClientAgrees(ws: seq<World>, es: seq<Event>, i: nat, m: nat, j: nat, cs: seq<Client>, id: nat)
    requires IsRun(ws, es) && i < j < |ws| && es[i].Join? && id == |ws[i].state.subjects|
    requires Follows(cs, Since(ws[i + 1], ws[j]), id)
    requires ws[i].state.timer.callbacks != [EndsRound] || (i < m < j && BeginsRoundAt(ws, es, m))
    ensures Agrees(cs[|cs| - 1], ws[j], id)
  {
    RunStep(ws, es, i);
    hide Next, BeginsRoundAt;
    PortAgreesFrom(ws, es, i + 1, j, cs, id);
    if ws[i].state.timer.callbacks != [EndsRound] {
      MarketAgreesFrom(ws, es, i + 1, j, cs, id);
    } else {
      RoundClientAgrees(ws, es, i + 1, m, j, cs, id);
    }
  }

  /** In particular, during a round, the prices and times a client shows are the server's, in the server's order. */
  lemma ReplicaShowsSameQueues(ws: seq<World>, es: seq<Event>, i: nat, j: nat, cs: seq<Client>, id: nat)
    requires IsRun(ws, es) && i <= j < |ws| && Follows(cs, Since(ws[i], ws[j]), id) && MarketAgrees(cs[0], ws[i])
    requires ws[j].state.timer.callbacks == [EndsRound]
    ensures SameKeys(cs[|cs| - 1].book.bids, ws[j].state.desk.book.bids)
    ensures SameKeys(cs[|cs| - 1].book.asks, ws[j].state.desk.book.asks)
  {
    MarketAgreesFrom(ws, es, i, j, cs, id);
    RunIsSound(ws, es, j);
    SortedBagKeys(cs[|cs| - 1].book.bids, ws[j].state.desk.book.bids);
    SortedBagKeys(cs[|cs| - 1].book.asks, ws[j].state.desk.book.asks);
  }

  lemma ReviewNotStarting(w: World)
    requires Sound(w) && w.state.timer.callbacks == [EndsReview]
    ensures !StartVerdict(w.state).Accepted? && !w.state.desk.exp.IsMarketOpen() && w.state.desk.book == EMPTY_BOOK
  {
  }

  lemma ClosedLeavesBook(w: World, e: Event)
    requires Possible(w, e) && Handle(w, e).Did? && (e.Submit? || e.Retract?) && !w.state.desk.exp.IsMarketOpen()
    ensures LeavesBook(Handle(w, e).value.out)
  {
  }

  lemma MarketKeepsTimer(w: World, e: Event)
    requires Possible(w, e) && Handle(w, e).Did? && (e.Submit? || e.Retract? || e.Create?)
    ensures Handle(w, e).value.state.timer == w.state.timer
  {
    hide ProcessOffer, ProcessCreate, ProcessRetract, TradeNotices, PossibleSort;
  }

  lemma StartBeginsRound(w: World, e: Event)
    requires Possible(w, e) && Handle(w, e).Did? && e.RequestStart? && StartVerdict(w.state).Accepted?
    ensures Handle(w, e).value.state.timer.callbacks == [EndsRound]
  {
    hide Allocate, SendOpening;
  }

  lemma PayoutsLeaveBook(s: State)
    requires Expire(s).Did? && s.timer.callbacks == [EndsReview]
    requires Expire(s).value.state.timer.callbacks == [EndsReview]
    ensures LeavesBook(Expire(s).value.out)
  {
    ExpireCalls(s, EndsReview);
  }

  /** No step that ends in a review or the payouts touches a client's book. */
  lemma ReviewLeavesBook(w: World, e: Event, w': World)
    requires Sound(w) && Next(w, e, w') && w'.state.timer.callbacks == [EndsReview]
    ensures LeavesBook(Handle(w, e).value.out)
  {
    hide Next, Handle, Sound, StartVerdict, LeavesBook;
    NextGives(w, e, w');
    SoundCallbacks(w);
    if e.Submit? || e.Retract? {
      MarketKeepsTimer(w, e);
      ReviewNotStarting(w);
      ClosedLeavesBook(w, e);
    } else if e.TimerExpires? && w.state.timer.callbacks == [EndsReview] {
      HandlesExpiry(w, e);
      PayoutsLeaveBook(w.state);
    } else {
      if e.RequestStart? && StartVerdict(w.state).Accepted? {
        StartBeginsRound(w, e);
      }
      OthersLeaveBook(w, e);
    }
  }

  lemma OthersLeaveBook(w: World, e: Event)
    requires Possible(w, e) && Handle(w, e).Did? && AtMostOneCallback(w.state) && !e.Submit? && !e.Retract?
    requires e.TimerExpires? ==> w.state.timer.callbacks != [EndsReview]
    requires e.RequestStart? ==> !StartVerdict(w.state).Accepted?
    ensures LeavesBook(Handle(w, e).value.out)
  {
    hide Handle, StartVerdict;
    ReplyFits(w, e);
  }

  lemma {:induction false} BookKeptInReview(
      ws: seq<World>, es: seq<Event>, i: nat, j: nat, cs: seq<Client>, id: nat)
    requires IsRun(ws, es) && i <= j < |ws| && Follows(cs, Since(ws[i], ws[j]), id)
    requires forall m | i < m <= j :: ws[m].state.timer.callbacks == [EndsReview]
    ensures |cs| > 0 && cs[|cs| - 1].book == cs[0].book
  {
    hide Next, Sound, LeavesBook, Handle;
    if i < j {
      RunStep(ws, es, j - 1);
      LogsExtend(ws, es, i, j - 1);
      FollowsStep(ws[i], ws[j - 1], es[j - 1], ws[j], cs, id);
      var n := |Since(ws[i], ws[j - 1])|;
      BookKeptInReview(ws, es, i, j - 1, cs[..n + 1], id);
      ReviewLeavesBook(ws[j - 1], es[j - 1], ws[j]);
      BookFollows(cs[n..], Handle(ws[j - 1], es[j - 1]).value.out, id);
    }
  }

  /**
   * The end of a round clears the server's book but not the client's: until
   * the next round begins the client keeps what was resting, so all that time
   * it agrees with the server exactly when nothing was.
   */
  lemma StaleUntilNextRound(ws: seq<World>, es: seq<Event>, i: nat, j: nat, cs: seq<Client>, id: nat)
    requires IsRun(ws, es) && i < j < |ws| && Follows(cs, Since(ws[i], ws[j]), id) && MarketAgrees(cs[0], ws[i])
    requires ws[i].state.timer.callbacks == [EndsRound]
    requires forall m | i < m <= j :: ws[m].state.timer.callbacks == [EndsReview]
    ensures ws[j].state.desk.book == EMPTY_BOOK
    ensures SameBook(cs[|cs| - 1].book, ws[i].state.desk.book)
    ensures SameBook(cs[|cs| - 1].book, ws[j].state.desk.book) <==> ws[i].state.desk.book == EMPTY_BOOK
  {
    hide Next, Sound, SameBook, Follows, Since;
    RunIsSound(ws, es, j);
    ReviewNotStarting(ws[j]);
    BookKeptInReview(ws, es, i, j, cs, id);
    SameAsEmpty(cs[|cs| - 1].book, ws[i].state.desk.book);
  }

  lemma SameAsEmpty(mine: Book, was: Book)
    requires SameBook(mine, was)
    ensures SameBook(mine, EMPTY_BOOK) <==> was == EMPTY_BOOK
  {
    assert |multiset(mine.bids)| == |multiset(was.bids)| && |multiset(mine.asks)| == |multiset(was.asks)|;
    if SameBook(mine, EMPTY_BOOK) {
      assert |multiset(mine.bids)| == 0 && |multiset(mine.asks)| == 0;
    }
  }
}
