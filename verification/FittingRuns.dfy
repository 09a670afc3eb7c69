/** What the server announces fits its C++ types, as long as the offers and the subjects can be counted. */
module FittingRuns {
  import opened Offers
  import opened OrderBooks
  import opened OfferProcessing
  import opened MarketSafety
  import opened Servers
  import opened Clocks
  import opened Ledgers
  import opened Reachable
  import opened Trading
  import opened TimedRuns
  import opened Text
  import opened Codec
  import opened Replica
  import opened Wire

  /** So many offers have been taken, and so many subjects admitted, as their ids can count. */
  predicate Countable(w: World) {
    w.nextId <= TWO_32 && |w.state.subjects| <= TWO_64
  }

  ghost predicate SmallTimes(b: Book) {
    forall x | Resting(b, x) :: x.time < TWO_32
  }

  predicate IsMarketMessage(m: Message) {
    m.AcceptedOffer? || m.AcceptedRetraction?
  }

  ghost predicate MarketFits(out: seq<Envelope>) {
    forall x | x in out && IsMarketMessage(x.msg) :: Fits(x.msg)
  }

  // ---- One answer ------------------------------------------------------------

  /** Offers with different ids below `n` are at most `n`. */
  lemma {:induction false} FewIds(q: seq<Offer>, n: nat)
    requires forall o | o in q :: o.id < n
    requires forall id :: Total(q, HasId(id)) <= 1
    ensures |q| <= n
    decreases n
  {
    assert q != [] ==> q[0] in q;
    if n > 0 {
      if o :| o in q && o.id == n - 1 {
        WithoutOne(q, o);
        FewIds(Without(q, n - 1), n - 1);
      } else {
        FewIds(q, n - 1);
      }
    }
  }

  lemma WithoutOne(q: seq<Offer>, o: Offer)
    requires o in q && forall id :: Total(q, HasId(id)) <= 1
    ensures |Without(q, o.id)| == |q| - 1
    ensures forall x | x in Without(q, o.id) :: x in q && x.id != o.id
    ensures forall id :: Total(Without(q, o.id), HasId(id)) <= 1
  {
    WithoutTotal(q, o, Each);
    EachIsLength(q);
    EachIsLength(Without(q, o.id));
    WithoutMembers(q, o.id);
    forall id
      ensures Total(Without(q, o.id), HasId(id)) <= 1
    {
      WithoutTotalAtMost(q, o.id, HasId(id));
    }
  }

  lemma {:induction false} RetractsFit(player: nat, gone: seq<Offer>)
    requires player < TWO_64 && forall g | g in gone :: g.id < TWO_32
    ensures |RetractsFor(player, gone)| == |gone|
    ensures forall r | r in RetractsFor(player, gone) :: FitsRetract(r)
  {
    if gone != [] {
      RetractsFit(player, gone[..|gone| - 1]);
    }
  }

  lemma ReplacedFit(d: Desk, nextId: nat, o: Offer)
    requires DeskOk(d, nextId) && nextId <= TWO_32 && o.player < TWO_64
    ensures |RetractsFor(o.player, Replaced(d, o))| < TWO_64
    ensures forall r | r in RetractsFor(o.player, Replaced(d, o)) :: FitsRetract(r)
  {
    ReplacedFacts(d, o);
    assert forall g | g in Replaced(d, o) :: Resting(d.book, g);
    FewIds(Replaced(d, o), nextId);
    RetractsFit(o.player, Replaced(d, o));
  }

  lemma TradeFits(o: Offer, c: Offer)
    requires FitsOffer(o) && FitsOffer(c) && 0 <= TradeWith(o, c).price < TWO_32
    ensures FitsTrade(TradeWith(o, c))
  {
  }

  lemma RestingFits(w: World, x: Offer)
    requires Sound(w) && Countable(w) && SmallTimes(w.state.desk.book) && Resting(w.state.desk.book, x)
    ensures FitsOffer(x)
  {
  }

  lemma OfferFits(w: World, e: Event)
    requires Possible(w, e) && e.Submit? && w.nextId < TWO_32 && Countable(w) && e.time < TWO_32
    requires -MAX_PRICE <= e.price <= MAX_PRICE
    ensures FitsOffer(OfferOf(w, e))
  {
  }

  lemma SubmitFits(w: World, e: Event)
    requires Sound(w) && Possible(w, e) && Handle(w, e).Did? && e.Submit? && e.time < TWO_32
    requires Countable(w) && w.nextId < TWO_32 && SmallTimes(w.state.desk.book)
    ensures MarketFits(Handle(w, e).value.out)
  {
    hide Handle, Judge, Sound, FitsOffer, FitsTrade, FitsRetract, SmallTimes;
    var d, o, out := w.state.desk, OfferOf(w, e), Handle(w, e).value.out;
    var res := SubmitMessage(w, e);
    assert out == [out[0]] + out[1..];
    if Judge(d, o).value.Accepted? {
      AcceptedInRange(d, o);
      OfferFits(w, e);
      SoundDesk(w);
      ReplacedFit(d, w.nextId, o);
      var c := Counterpart(d, o);
      if c.Some? {
        SubmitIsFair(w, e);
        PartnerRests(d, o);
        RestingFits(w, c.value);
        TradeFits(o, c.value);
      }
    }
  }

  lemma SoundDesk(w: World)
    requires Sound(w)
    ensures DeskOk(w.state.desk, w.nextId)
  {
  }

  lemma PartnerRests(d: Desk, o: Offer)
    requires Counterpart(d, o).Some?
    ensures Resting(d.book, Counterpart(d, o).value)
  {
  }

  lemma RetractionFits(w: World, e: Event)
    requires Sound(w) && Possible(w, e) && e.Retract? && Countable(w)
    ensures Handle(w, e).Did? && MarketFits(Handle(w, e).value.out)
  {
    hide Handle, Sound;
    RetractShape(w, e);
    SoundDesk(w);
  }

  lemma StepFits(w: World, e: Event, w': World)
    requires Sound(w) && Next(w, e, w') && (e.Submit? ==> e.time < TWO_32)
    requires Countable(w') && SmallTimes(w.state.desk.book)
    ensures Countable(w) && MarketFits(Handle(w, e).value.out) && SmallTimes(w'.state.desk.book)
  {
    hide Next, Handle, Sound, Fits, StartVerdict;
    NextGives(w, e, w');
    SubjectsGrow(w, e, w');
    SoundCallbacks(w);
    if e.Submit? {
      SubmitFits(w, e);
    } else if e.Retract? {
      RetractionFits(w, e);
    } else {
      ReplyFits(w, e);
    }
    forall x | Resting(w'.state.desk.book, x)
      ensures x.time < TWO_32
    {
      StepRests(w, e, w', x);
    }
  }

  lemma SubjectsGrow(w: World, e: Event, w': World)
    requires Next(w, e, w')
    ensures |w.state.subjects| <= |w'.state.subjects|
  {
    if e.TimerExpires? {
      hide Handle, Expire;
      NextGives(w, e, w');
      HandlesExpiry(w, e);
      CallsKeepSubjects(w.state.(timer := w.state.timer.(state := TimerState.Ended)), w.state.timer.callbacks);
    }
  }

  lemma {:induction false} CallsKeepSubjects(s: State, callbacks: seq<Callback>)
    requires CallEach(s, callbacks).Did?
    ensures CallEach(s, callbacks).value.state.subjects == s.subjects
    decreases |callbacks|
  {
    if callbacks != [] {
      CallsKeepSubjects(Call(s, callbacks[0]).value.state, callbacks[1..]);
    }
  }

  // ---- Whole runs ------------------------------------------------------------

  lemma MarketFitsConcat(a: seq<Envelope>, b: seq<Envelope>)
    requires MarketFits(a) && MarketFits(b)
    ensures MarketFits(a + b)
  {
  }

  /**
   * In every run by a clock, as long as its offers and subjects can be counted,
   * every accepted offer and retraction announced fits its C++ types: the price
   * by the guard, the times by their cast, the ids by the count.
   */
  lemma {:induction false} AnnouncementsFit(ws: seq<World>, es: seq<Event>, fs: seq<Face>, ts: seq<int>, j: nat)
    requires IsTimedRun(ws, es, fs, ts) && j < |ws| && Countable(ws[j])
    ensures MarketFits(ws[j].log) && SmallTimes(ws[j].state.desk.book)
  {
    hide Next, Handle, Sound, MarketFits, SmallTimes, Countable;
    if j == 0 {
      NothingAnnounced(ws[0]);
    } else {
      RunStep(ws, es, j - 1);
      assert TickAt(ws, es, fs, ts, j - 1);
      var w, e, w' := ws[j - 1], es[j - 1], ws[j];
      CountableBefore(w, e, w');
      AnnouncementsFit(ws, es, fs, ts, j - 1);
      StepFits(w, e, w');
      NextGives(w, e, w');
      MarketFitsConcat(w.log, Handle(w, e).value.out);
    }
  }

  lemma NothingAnnounced(w: World)
    requires Initial(w)
    ensures MarketFits(w.log) && SmallTimes(w.state.desk.book)
  {
  }

  lemma CountableBefore(w: World, e: Event, w': World)
    requires Next(w, e, w') && Countable(w')
    ensures Countable(w)
  {
    hide Next, Handle;
    NextGives(w, e, w');
    SubjectsGrow(w, e, w');
  }

  /**
   * End to end over text, with little left to assume: a client that agrees with
   * the server in one state and then sees only texts agrees with it in every
   * later state that a run with countable offers and subjects comes to, if the
   * round entries, the dividends and the portfolios sent to it fit.
   */
  lemma CountableTextAgrees(
      ws: seq<World>, es: seq<Event>, fs: seq<Face>, ts: seq<int>, i: nat, j: nat,
      cs: seq<Client>, bodies: seq<string>, id: nat)
    requires IsTimedRun(ws, es, fs, ts) && i <= j < |ws| && Countable(ws[j])
    requires FollowsText(cs, Since(ws[i], ws[j]), bodies, id) && Agrees(cs[0], ws[i], id)
    requires forall x | x in Since(ws[i], ws[j]) && Reaches(x.to, id) && !IsMarketMessage(x.msg) :: Fits(x.msg)
    ensures Agrees(cs[|cs| - 1], ws[j], id)
  {
    hide FollowsText, Fits, Agrees, Follows, Countable;
    AnnouncementsFit(ws, es, fs, ts, j);
    assert forall x | x in Since(ws[i], ws[j]) :: x in ws[j].log;
    TextReplicaAgrees(ws, es, i, j, cs, bodies, id);
  }
}
