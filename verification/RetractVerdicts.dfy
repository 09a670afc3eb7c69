/** When a retraction is accepted and what each rejection means: an owner can always take back what rests. */
module RetractVerdicts {
  import opened Offers
  import opened OrderBooks
  import opened OfferProcessing
  import opened Servers
  import opened Ledgers
  import opened Reachable
  import opened OfferVerdicts

  /** Some resting offer, on either side, has this id. */
  ghost predicate Rests(b: Book, id: nat) {
    exists x :: (x in b.bids || x in b.asks) && x.id == id
  }

  /** Some resting offer, on either side, has this id and belongs to this subject. */
  ghost predicate RestsOwn(b: Book, id: nat, player: nat) {
    exists x :: (x in b.bids || x in b.asks) && x.id == id && x.player == player
  }

  /** What a verdict says of a request by `player` to take back the offer `id`. */
  ghost predicate RetractMeans(v: RetractValidity, d: Desk, player: nat, id: nat) {
    match v
    case RejectedMarketClosed => !Open(d)
    case RejectedNonExistent => Open(d) && !Rests(d.book, id)
    case RejectedOwnerMismatch => Open(d) && exists owner: nat :: owner != player && RestsOwn(d.book, id, owner)
    case Accepted => Open(d) && RestsOwn(d.book, id, player)
  }

  lemma FoundIff(b: Book, id: nat)
    requires BookOk(b)
    ensures Rests(b, id) <==> GetOffer(b, id).Some?
    ensures GetOffer(b, id).Some? ==> Resting(b, GetOffer(b, id).value) && GetOffer(b, id).value.id == id
    ensures GetOffer(b, id).Some? ==>
              forall player: nat :: RestsOwn(b, id, player) <==> player == GetOffer(b, id).value.player
  {
    if GetOffer(b, id).Some? {
      var found := GetOffer(b, id).value;
      forall x | Resting(b, x) && x.id == id
        ensures x == found
      {
        RestingUnique(b, x, found);
      }
    }
  }

  lemma OwnRests(b: Book, id: nat, player: nat)
    requires RestsOwn(b, id, player)
    ensures Rests(b, id)
  {
  }

  /** The verdict on a retraction is the one verdict that is true of it. */
  lemma RetractVerdictIff(d: Desk, rr: RetractRequest, v: RetractValidity)
    requires BookOk(d.book)
    ensures JudgeRetract(d, rr) == v <==> RetractMeans(v, d, rr.id, rr.offerId)
  {
    hide Rests, RestsOwn, GetOffer;
    FoundIff(d.book, rr.offerId);
    forall player: nat | RestsOwn(d.book, rr.offerId, player)
      ensures Rests(d.book, rr.offerId)
    {
      OwnRests(d.book, rr.offerId, player);
    }
    if GetOffer(d.book, rr.offerId).Some? {
      assert RestsOwn(d.book, rr.offerId, GetOffer(d.book, rr.offerId).value.player);
    }
  }

  /** Exactly the offers of this id are gone from the book, and nothing else has changed. */
  ghost predicate TakenOut(s: State, s': State, id: nat) {
    && s' == s.(desk := s.desk.(book := s'.desk.book))
    && (forall x :: x in s'.desk.book.bids <==> x in s.desk.book.bids && x.id != id)
    && (forall x :: x in s'.desk.book.asks <==> x in s.desk.book.asks && x.id != id)
  }

  /** The effect and the reply of a retraction with this verdict. */
  ghost predicate RetractReply(w: World, e: Event, w': World, v: RetractValidity)
    requires e.Retract?
  {
    var rr := RetractResult(v, RetractRequest(e.player, e.offerId));
    if v.Accepted? then
      TakenOut(w.state, w'.state, e.offerId) && w'.log == w.log + [Envelope(All, AcceptedRetraction(rr))]
    else
      w'.state == w.state && w'.log == w.log + [Envelope(Only(e.player), RejectedRetraction(rr))]
  }

  lemma RepliesAsJudged(w: World, e: Event, w': World)
    requires Sound(w) && Next(w, e, w') && e.Retract?
    ensures RetractReply(w, e, w', JudgeRetract(w.state.desk, RetractRequest(e.player, e.offerId)))
  {
    hide Next, Handle, JudgeRetract;
    NextGives(w, e, w');
    RetractShape(w, e);
    RetractedMembers(w.state.desk.book, e.offerId);
  }

  lemma OneReply(w: World, e: Event, w': World, v: RetractValidity, v': RetractValidity)
    requires e.Retract? && RetractReply(w, e, w', v) && RetractReply(w, e, w', v')
    ensures v == v'
  {
    assert w'.log[|w.log|] == w'.log[|w'.log| - 1];
  }

  /**
   * In every run, a retraction is accepted exactly when the market is open and
   * the sender owns a resting offer of that id, on either side; it is answered
   * as naming no offer exactly when none of that id rests in an open market,
   * and as another's exactly when one rests that is. Only an accepted one
   * changes anything: it takes that offer out.
   */
  lemma RetractionAnswered(ws: seq<World>, es: seq<Event>, i: nat, v: RetractValidity)
    requires IsRun(ws, es) && i < |es| && es[i].Retract?
    ensures RetractMeans(v, ws[i].state.desk, es[i].player, es[i].offerId)
       <==> RetractReply(ws[i], es[i], ws[i + 1], v)
  {
    hide Next, Handle, JudgeRetract, Sound, RetractMeans, RetractReply;
    var rr := RetractRequest(es[i].player, es[i].offerId);
    RunStep(ws, es, i);
    SoundBook(ws[i]);
    RepliesAsJudged(ws[i], es[i], ws[i + 1]);
    RetractVerdictIff(ws[i].state.desk, rr, v);
    if RetractReply(ws[i], es[i], ws[i + 1], v) {
      OneReply(ws[i], es[i], ws[i + 1], v, JudgeRetract(ws[i].state.desk, rr));
    }
  }

  lemma RestingIsKnown(w: World, x: Offer)
    requires Sound(w) && Resting(w.state.desk.book, x)
    ensures w.state.Knows(x.player)
  {
  }

  /** In every state of every run, as long as the market is open, the owner of a resting offer can take it back. */
  lemma OwnerCanRetract(ws: seq<World>, es: seq<Event>, x: Offer) returns (w': World)
    requires IsRun(ws, es) && Resting(ws[|es|].state.desk.book, x) && Open(ws[|es|].state.desk)
    ensures IsRun(ws + [w'], es + [Retract(x.player, x.id)])
    ensures !Resting(w'.state.desk.book, x) && TakenOut(ws[|es|].state, w'.state, x.id)
    ensures w'.log == ws[|es|].log + [Envelope(All, AcceptedRetraction(
                                        RetractResult(RetractValidity.Accepted, RetractRequest(x.player, x.id))))]
  {
    hide Next, Handle, JudgeRetract, Sound;
    var w, e := ws[|es|], Retract(x.player, x.id);
    RunIsSound(ws, es, |es|);
    RestingIsKnown(w, x);
    RetractShape(w, e);
    w' := WorldAfter(w, e);
    WorldAfterIsNext(w, e);
    RepliesAsJudged(w, e, w');
    SoundBook(w);
    RetractVerdictIff(w.state.desk, RetractRequest(e.player, e.offerId), RetractValidity.Accepted);
    RunGrows(ws, es, e, w');
  }
}
