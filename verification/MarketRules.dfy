/** What the improvement rule and the replacement rule make of the book, over stretches of a run. */
module MarketRules {
  import opened Values
  import opened Offers
  import opened OrderBooks
  import opened OfferProcessing
  import opened MarketSafety
  import opened Servers
  import opened Ledgers
  import opened Reachable
  import opened Trading

  // ---- Improvement -------------------------------------------------------

  /** Strictly increasing in price and in order of arrival. */
  ghost predicate Rising(q: seq<Offer>) {
    forall i, j | 0 <= i < j < |q| :: q[i].price < q[j].price && q[i].id < q[j].id && q[i].time <= q[j].time
  }

  ghost predicate RisingBook(b: Book) {
    Rising(b.bids) && Rising(b.asks)
  }

  /** `x` would stand in front of all of `q`. */
  ghost predicate Above(q: seq<Offer>, x: Offer) {
    forall y | y in q :: y.price < x.price && y.id < x.id && y.time <= x.time
  }

  lemma RisingSnoc(q: seq<Offer>, o: Offer)
    requires Rising(q) && Above(q, o)
    ensures Rising(q + [o])
  {
  }

  lemma LastIsAbove(q: seq<Offer>)
    requires Rising(q) && q != []
    ensures Rising(q[..|q| - 1]) && Above(q[..|q| - 1], q[|q| - 1])
  {
    var front, last := q[..|q| - 1], q[|q| - 1];
    forall y | y in front
      ensures y.price < last.price && y.id < last.id && y.time <= last.time
    {
      var k :| 0 <= k < |front| && front[k] == y;
      assert q[k] == y;
    }
  }

  lemma {:induction false} WithoutRising(q: seq<Offer>, id: nat)
    requires Rising(q)
    ensures Rising(Without(q, id))
  {
    if q != [] {
      var front, last := q[..|q| - 1], q[|q| - 1];
      LastIsAbove(q);
      WithoutRising(front, id);
      WithoutMembers(front, id);
      RisingSnoc(Without(front, id), last);
    }
  }

  lemma {:induction false} RetractAllRising(b: Book, gone: seq<Offer>)
    requires RisingBook(b)
    ensures RisingBook(RetractAll(b, gone))
  {
    if gone != [] {
      var front, last := gone[..|gone| - 1], gone[|gone| - 1];
      RetractAllRising(b, front);
      WithoutRising(RetractAll(b, front).bids, last.id);
      WithoutRising(RetractAll(b, front).asks, last.id);
    }
  }

  /** A rising queue with an offer above it has one sorted order: pushing back is all the sort does. */
  lemma SortIsIdentity(q: seq<Offer>, o: Offer, sorted: seq<Offer>)
    requires Rising(q) && Above(q, o) && Inserted(q, o, sorted)
    ensures sorted == q + [o] && Rising(sorted)
  {
    var r := q + [o];
    assert Rising(r);
    assert multiset(r) == multiset(q) + multiset{o};
    SortedBagKeys(r, sorted);
    hide Inserted, Above;
    forall i | 0 <= i < |r|
      ensures sorted[i] == r[i]
    {
      assert sorted[i] in multiset(r);
      var j :| 0 <= j < |r| && r[j] == sorted[i];
    }
  }

  /** An offer that improves on the standing one is above the whole queue. */
  lemma ImproverIsAbove(q: seq<Offer>, o: Offer)
    requires Rising(q)
    requires q != [] ==> !AtMost(o, q[|q| - 1]) && o.id > q[|q| - 1].id && o.time >= q[|q| - 1].time
    ensures Above(q, o)
  {
    if q != [] {
      LastIsAbove(q);
      assert q == q[..|q| - 1] + [q[|q| - 1]];
    }
  }

  lemma ImproverIsAboveSide(d: Desk, nextId: nat, o: Offer)
    requires DeskOk(d, nextId) && o.id == nextId && RisingBook(d.book)
    requires d.config.improvementRule && Judge(d, o) == Did(OfferValidity.Accepted)
    requires forall x | Resting(d.book, x) :: x.time <= o.time
    ensures Above(Side(d.book, o), o)
  {
    var q := Side(d.book, o);
    if q != [] {
      assert q[|q| - 1] in q && Resting(d.book, q[|q| - 1]);
    }
    ImproverIsAbove(q, o);
  }

  /** With the rule on and a clock that does not go back, an accepted offer is above its side, replaced or not. */
  lemma AcceptedIsAbove(d: Desk, nextId: nat, o: Offer, sorted: seq<Offer>)
    requires WillAccept(d, nextId, o, sorted) && d.config.improvementRule && RisingBook(d.book)
    requires forall x | Resting(d.book, x) :: x.time <= o.time
    ensures Above(Side(BookFor(d, o), o), o)
  {
    BookForFacts(d, nextId, o);
    ImproverIsAboveSide(d, nextId, o);
  }

  lemma PoppedRising(b: Book)
    requires RisingBook(b)
    ensures RisingBook(Popped(b))
  {
    var t := Peek(b);
    if t.Some? {
      WithoutRising(b.bids, t.value.bidId);
      WithoutRising(b.asks, t.value.askId);
    }
  }

  lemma ImprovingOffer(d: Desk, nextId: nat, o: Offer, sorted: seq<Offer>)
    requires WillAccept(d, nextId, o, sorted) && d.config.improvementRule && RisingBook(d.book)
    requires forall x | Resting(d.book, x) :: x.time <= o.time
    ensures sorted == Side(BookFor(d, o), o) + [o]
    ensures RisingBook(Popped(WithSide(BookFor(d, o), o, sorted)))
  {
    AcceptedIsAbove(d, nextId, o, sorted);
    RetractAllRising(d.book, Replaced(d, o));
    SortIsIdentity(Side(BookFor(d, o), o), o, sorted);
    PoppedRising(WithSide(BookFor(d, o), o, sorted));
  }

  ghost predicate ImprovementStep(w: World, e: Event) {
    w.state.desk.config.improvementRule && Timely(w, e)
  }

  lemma ImprovementKeptBySubmit(w: World, e: Event, w': World)
    requires Sound(w) && Next(w, e, w') && ImprovementStep(w, e) && RisingBook(w.state.desk.book) && e.Submit?
    ensures RisingBook(w'.state.desk.book)
  {
    var d, o := w.state.desk, OfferOf(w, e);
    if Judge(d, o) == Did(OfferValidity.Accepted) {
      ImprovingOffer(d, w.nextId, o, e.sorted);
    } else {
      assert w'.state == w.state;
    }
  }

  lemma RetractedRising(b: Book, id: nat)
    requires RisingBook(b)
    ensures RisingBook(Retracted(b, id)) && RisingBook(EMPTY_BOOK)
  {
    WithoutRising(b.bids, id);
    WithoutRising(b.asks, id);
  }

  lemma ImprovementKept(w: World, e: Event, w': World)
    requires Sound(w) && Next(w, e, w') && ImprovementStep(w, e) && RisingBook(w.state.desk.book)
    ensures RisingBook(w'.state.desk.book)
  {
    hide Next, Handle, Sound, RisingBook, ImprovementStep;
    if e.Submit? {
      ImprovementKeptBySubmit(w, e, w');
    } else {
      OtherBooks(w, e, w');
      RetractedRising(w.state.desk.book, if e.Retract? then e.offerId else 0);
    }
  }

  /**
   * From an empty book, as long as the improvement rule is on and the clock
   * does not go back, each side rises strictly in price and in arrival: ties
   * never arise and the standing offer is the latest survivor.
   */
  lemma {:induction false} ImprovementMakesRising(ws: seq<World>, es: seq<Event>, i: nat, j: nat)
    requires IsRun(ws, es) && i <= j < |ws|
    requires ws[i].state.desk.book == EMPTY_BOOK
    requires forall k | i <= k < j :: ImprovementStep(ws[k], es[k])
    ensures RisingBook(ws[j].state.desk.book)
  {
    hide Next;
    if i < j {
      ImprovementMakesRising(ws, es, i, j - 1);
      RunStep(ws, es, j - 1);
      ImprovementKept(ws[j - 1], es[j - 1], ws[j]);
    }
  }

  /** In such a stretch the sort has no choice: it leaves every accepted offer where push_back put it. */
  lemma ImprovementFixesSort(ws: seq<World>, es: seq<Event>, i: nat, j: nat, res: MarketSubmissionResult)
    requires IsRun(ws, es) && i <= j < |es|
    requires ws[i].state.desk.book == EMPTY_BOOK
    requires forall k | i <= k <= j :: ImprovementStep(ws[k], es[k])
    requires Announces(ws[j], es[j], res)
    ensures es[j].sorted == Side(BookFor(ws[j].state.desk, res.offer), res.offer) + [res.offer]
  {
    hide Next;
    RunStep(ws, es, j);
    ImprovementMakesRising(ws, es, i, j);
    AnnouncedResult(ws[j], es[j], res);
    ImprovingOffer(ws[j].state.desk, ws[j].nextId, res.offer, es[j].sorted);
  }

  // ---- Replacement ---------------------------------------------------------

  /** At most one resting bid and one resting ask for each subject. */
  ghost predicate OnePerSide(b: Book) {
    forall p: nat :: Total(b.bids, CountOf(p)) <= 1 && Total(b.asks, CountOf(p)) <= 1
  }

  lemma {:induction false} OwnOffersTotal(q: seq<Offer>, player: nat, p: nat)
    ensures Total(OffersOf(q, player), CountOf(p)) == if p == player then Total(q, CountOf(p)) else 0
  {
    if q != [] {
      var front, last := q[..|q| - 1], q[|q| - 1];
      OwnOffersTotal(front, player, p);
      TotalSnoc(OffersOf(front, player), last, CountOf(p));
    }
  }

  lemma ReplacementKeepsOne(d: Desk, o: Offer, after: Desk, c: Option<Offer>)
    requires OfferEffect(d, o, after, c, Replaced(d, o)) && d.config.replaceRule && OnePerSide(d.book)
    ensures OnePerSide(after.book)
  {
    forall p: nat
      ensures Total(Side(after.book, o), CountOf(p)) <= 1 && Total(Opposite(after.book, o), CountOf(p)) <= 1
    {
      OwnOffersTotal(Side(d.book, o), o.player, p);
    }
    assert forall p: nat :: Total(after.book.bids, CountOf(p)) <= 1 && Total(after.book.asks, CountOf(p)) <= 1 by {
      if IsAsk(o) {
        assert Side(after.book, o) == after.book.asks && Opposite(after.book, o) == after.book.bids;
      } else {
        assert Side(after.book, o) == after.book.bids && Opposite(after.book, o) == after.book.asks;
      }
    }
  }

  lemma ReplacementKeptBySubmit(w: World, e: Event, w': World)
    requires Sound(w) && Next(w, e, w') && w.state.desk.config.replaceRule && OnePerSide(w.state.desk.book) && e.Submit?
    ensures OnePerSide(w'.state.desk.book)
  {
    hide Next, Handle, ProcessOffer, Judge, TradeNotices, OfferEffect;
    var d, o := w.state.desk, OfferOf(w, e);
    SubmitShape(w, e, w');
    if Judge(d, o) == Did(OfferValidity.Accepted) {
      WillBeAccepted(w, e, w');
      OfferHasEffect(d, w.nextId, o, e.sorted);
      ReplacementKeepsOne(d, o, w'.state.desk, Counterpart(d, o));
    } else {
      RejectedKeepsState(w, e, w');
    }
  }

  lemma RetractedKeepsOne(b: Book, id: nat)
    requires OnePerSide(b)
    ensures OnePerSide(Retracted(b, id))
  {
    forall p: nat
      ensures Total(Retracted(b, id).bids, CountOf(p)) <= 1
      ensures Total(Retracted(b, id).asks, CountOf(p)) <= 1
    {
      WithoutTotalAtMost(b.bids, id, CountOf(p));
      WithoutTotalAtMost(b.asks, id, CountOf(p));
    }
  }

  /** Every other step leaves the book alone, takes an offer out of it, or empties it. */
  lemma OtherBooks(w: World, e: Event, w': World)
    requires Sound(w) && Next(w, e, w') && !e.Submit?
    ensures var b, b' := w.state.desk.book, w'.state.desk.book;
            b' == b || b' == EMPTY_BOOK || (e.Retract? && b' == Retracted(b, e.offerId))
  {
    if e.Retract? {
      hide Next, Handle;
      NextGives(w, e, w');
      RetractShape(w, e);
    } else if e.TimerExpires? {
      if w.state.timer.callbacks != [] {
        ExpireCalls(w.state, w.state.timer.callbacks[0]);
      }
    } else if e.Create? {
      hide Next, Handle;
      NextGives(w, e, w');
      CreateFrame(w, e);
    } else if Clerical(w.state, e) {
      hide Next, Handle;
      NextGives(w, e, w');
      ClericalEffect(w, e);
    } else {
      assert e.RequestStart? && w'.state.desk.book == w.state.desk.book;
    }
  }

  lemma ReplacementKept(w: World, e: Event, w': World)
    requires Sound(w) && Next(w, e, w') && w.state.desk.config.replaceRule && OnePerSide(w.state.desk.book)
    ensures OnePerSide(w'.state.desk.book)
  {
    hide Next, Handle, Sound, OnePerSide;
    if e.Submit? {
      ReplacementKeptBySubmit(w, e, w');
    } else {
      OtherBooks(w, e, w');
      EmptyHasOnePerSide(EMPTY_BOOK);
      if e.Retract? {
        RetractedKeepsOne(w.state.desk.book, e.offerId);
      }
    }
  }

  lemma EmptyHasOnePerSide(b: Book)
    requires b == EMPTY_BOOK
    ensures OnePerSide(b)
  {
  }

  ghost predicate ReplacementStep(w: World, e: Event) {
    w.state.desk.config.replaceRule
  }

  /** From an empty book, as long as the replacement rule is on, each subject rests at most one offer a side. */
  lemma {:induction false} ReplacementLeavesOne(ws: seq<World>, es: seq<Event>, i: nat, j: nat)
    requires IsRun(ws, es) && i <= j < |ws|
    requires ws[i].state.desk.book == EMPTY_BOOK
    requires forall k | i <= k < j :: ReplacementStep(ws[k], es[k])
    ensures OnePerSide(ws[j].state.desk.book)
  {
    hide Next;
    if i == j {
      EmptyHasOnePerSide(ws[j].state.desk.book);
    } else {
      ReplacementLeavesOne(ws, es, i, j - 1);
      RunStep(ws, es, j - 1);
      ReplacementKept(ws[j - 1], es[j - 1], ws[j]);
    }
  }

  /** A resting offer of this id is gone once the offer has replaced what it replaces. */
  ghost predicate RemovedBefore(d: Desk, o: Offer, id: nat) {
    exists x :: Resting(d.book, x) && x.id == id && !Resting(BookFor(d, o), x)
  }

  /**
   * The retracts announced with an accepted offer name, once each, exactly the
   * resting offers that are gone before it is matched; with the rule on these
   * are all of the player's offers on that side, with it off there are none.
   * Each is announced as an accepted retraction by that player.
   */
  lemma RetractsNameReplaced(ws: seq<World>, es: seq<Event>, i: nat, res: MarketSubmissionResult, id: nat)
    requires IsRun(ws, es) && i < |es| && Announces(ws[i], es[i], res)
    ensures RetractsAmong(res.retracts, Just(id)) == if RemovedBefore(ws[i].state.desk, res.offer, id) then 1 else 0
    ensures forall r | r in res.retracts :: r.validity.Accepted? && r.request.id == es[i].player
    ensures var d := ws[i].state.desk;
            forall x | Resting(d.book, x) ::
              !Resting(BookFor(d, res.offer), x)
              <==> d.config.replaceRule && x in Side(d.book, res.offer) && x.player == res.offer.player
  {
    hide Next, Handle, Judge;
    RunStep(ws, es, i);
    AnnouncedResult(ws[i], es[i], res);
    var d, o := ws[i].state.desk, res.offer;
    forall x | Resting(d.book, x)
      ensures !Resting(BookFor(d, o), x) <==> d.config.replaceRule && x in Side(d.book, o) && x.player == o.player
    {
      NamedIffReplaced(d, o, x);
    }
    NamedIffRemoved(d, o, id);
    RetractsForOwn(o.player, Replaced(d, o));
  }

  lemma {:induction false} RetractsForOwn(player: nat, gone: seq<Offer>)
    ensures forall r | r in RetractsFor(player, gone) :: r.validity.Accepted? && r.request.id == player
  {
    if gone != [] {
      RetractsForOwn(player, gone[..|gone| - 1]);
    }
  }

  lemma NamedIffRemoved(d: Desk, o: Offer, id: nat)
    requires BookOk(d.book)
    ensures RetractsAmong(RetractsFor(o.player, Replaced(d, o)), Just(id)) == if RemovedBefore(d, o, id) then 1 else 0
  {
    if x :| Resting(d.book, x) && x.id == id {
      NamedIffReplaced(d, o, x);
      forall y | Resting(d.book, y) && y.id == id
        ensures y == x
      {
        RestingUnique(d.book, x, y);
      }
    } else {
      ReplacedFacts(d, o);
      RetractsForCount(o.player, Replaced(d, o), Just(id));
      assert forall g | g in Replaced(d, o) :: Resting(d.book, g);
      NoneHasId(Replaced(d, o), id);
    }
  }

  lemma NamedIffReplaced(d: Desk, o: Offer, x: Offer)
    requires BookOk(d.book) && Resting(d.book, x)
    ensures var named := RetractsAmong(RetractsFor(o.player, Replaced(d, o)), Just(x.id));
            && (named == 1 <==> !Resting(BookFor(d, o), x))
            && (named == 0 <==> Resting(BookFor(d, o), x))
            && (!Resting(BookFor(d, o), x) <==> d.config.replaceRule && x in Side(d.book, o) && x.player == o.player)
  {
    var gone := Replaced(d, o);
    ReplacedFacts(d, o);
    RetractAllMembers(d.book, gone);
    RetractsForCount(o.player, gone, Just(x.id));
    OffersOfMembers(Side(d.book, o), o.player);
    TotalNonNegative(gone, HasId(x.id));
    if IdAmong(gone, x.id) {
      var g :| g in gone && g.id == x.id;
      RestingUnique(d.book, x, g);
      TotalAtLeastMember(gone, HasId(x.id), g);
    } else {
      NoneHasId(gone, x.id);
    }
  }
}
