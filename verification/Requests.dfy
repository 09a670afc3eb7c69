/** What becomes of a request: each kind has its own answer, about its own sender and its own contents. */
module Requests {
  import opened Offers
  import opened OrderBooks
  import opened Experiments
  import opened OfferProcessing
  import opened Servers
  import opened Ledgers
  import opened Reachable
  import opened Trading
  import opened Starts
  import opened MessageDirectors

  /** The message answers this offer, to all or to its sender. */
  predicate AboutOffer(x: Envelope, o: Offer) {
    || (x.to == All && x.msg.AcceptedOffer? && x.msg.res.offer == o)
    || (x.to == Only(o.player) && x.msg.RejectedOffer? && x.msg.res.offer == o)
  }

  predicate AboutRetraction(x: Envelope, player: nat, offerId: nat) {
    || (x.to == All && x.msg.AcceptedRetraction? && x.msg.rr.request == RetractRequest(player, offerId))
    || (x.to == Only(player) && x.msg.RejectedRetraction? && x.msg.rr.request == RetractRequest(player, offerId))
  }

  /** `out` is an answer to the request, from a server in world `w` with the clock at `time`. */
  ghost predicate Answers(r: Request, w: World, time: nat, out: seq<Envelope>) {
    match r
    case AcceptSubject => out == []
    case TimerExpired => out != [] ==> out[0].to == All && (out[0].msg.RoundEnded? || out[0].msg.ReviewEnded?)
    case _ =>
      && out != []
      && var x := out[0];
      match r
      case Bid(p, price) => AboutOffer(x, Offer(w.nextId, p, price, time))
      case Ask(p, price) => AboutOffer(x, Offer(w.nextId, p, -price, time))
      case Retract(p, offerId) => AboutRetraction(x, p, offerId)
      case Create(p) => x.to == Only(p) && x.msg.CreationProcessed? && x.msg.creation.id == p
      case Name(p, name) => x == Envelope(Only(p), SubjectData(Subject(p, name)))
      case Ready(p) => x == Envelope(Admins, SubjectReady(p))
      case StartInstructions => x.to == Admins && x.msg.InstructionsRequested?
      case StartExperiment => x.to == Admins && x.msg.ExperimentStarted?
      case EndEarly => x == Envelope(All, PayoutsStarted)
      case LoadConfiguration(read) => x == Envelope(Admins, ConfigurationLoaded(ResultOfReading(read)))
      case Pause => x == Envelope(All, ExperimentPaused)
      case Resume => x == Envelope(All, ExperimentResumed)
  }

  lemma OfferIsAnswered(w: World, e: Event)
    requires Possible(w, e) && Handle(w, e).Did? && e.Submit?
    ensures Handle(w, e).value.out != [] && AboutOffer(Handle(w, e).value.out[0], OfferOf(w, e))
  {
    hide TradeNotices, PossibleSort, Judge, Settle;
  }

  lemma CreationIsAnswered(w: World, e: Event)
    requires Possible(w, e) && Handle(w, e).Did? && e.Create?
    ensures Handle(w, e).value.out != []
    ensures var x := Handle(w, e).value.out[0];
            x.to == Only(e.player) && x.msg.CreationProcessed? && x.msg.creation.id == e.player
  {
    hide JudgeCreate, Issue;
  }

  lemma ExpiryIsAnswered(s: State)
    requires Expire(s).Did? && AtMostOneCallback(s)
    ensures var out := Expire(s).value.out;
            out != [] ==> out[0].to == All && (out[0].msg.RoundEnded? || out[0].msg.ReviewEnded?)
  {
    if s.timer.callbacks != [] {
      ExpireCalls(s, s.timer.callbacks[0]);
    }
  }

  lemma ClerkAnswers(w: World, r: Request, time: nat)
    requires Possible(w, EventOf(r, time, [])) && Handle(w, EventOf(r, time, [])).Did?
    requires !r.Bid? && !r.Ask? && !r.Create? && !r.TimerExpired? && SubjectsOk(w.state)
    ensures Answers(r, w, time, Handle(w, EventOf(r, time, [])).value.out)
  {
    hide Allocate, SendOpening, SendSettings, StartVerdict;
  }

  /**
   * In every run, each request is answered first of all by the message meant
   * for it: about its own offer, at the price asked for and at the clock's
   * time; about the offer it would retract; about the creation, name or
   * readiness of its own sender; about the file it would load.
   */
  lemma RequestAnswered(ws: seq<World>, es: seq<Event>, i: nat, r: Request, time: nat, sorted: seq<Offer>)
    requires IsRun(ws, es) && i < |es| && es[i] == EventOf(r, time, sorted)
    ensures Possible(ws[i], es[i]) && Handle(ws[i], es[i]).Did?
    ensures Answers(r, ws[i], time, Handle(ws[i], es[i]).value.out)
  {
    hide Next, Handle, Expire;
    RunStep(ws, es, i);
    if r.Bid? || r.Ask? {
      OfferIsAnswered(ws[i], es[i]);
    } else if r.Create? {
      CreationIsAnswered(ws[i], es[i]);
    } else if r.TimerExpired? {
      HandlesExpiry(ws[i], es[i]);
      SoundCallbacks(ws[i]);
      ExpiryIsAnswered(ws[i].state);
    } else {
      assert es[i] == EventOf(r, time, []);
      ClerkAnswers(ws[i], r, time);
    }
  }

  /** An offer is of the kind requested and at the limit requested. */
  predicate AsRequested(r: Request, o: Offer)
    requires r.Bid? || r.Ask?
  {
    o.player == r.player && Limit(o) == r.price && (IsAsk(o) <==> r.Ask?)
  }

  /**
   * A bid is taken as a bid of that limit exactly if its price is not
   * negative, and an ask as an ask of that limit exactly if its price is
   * positive: an ask at zero is taken as a bid at zero, and a request at a
   * negative price as one of the other kind.
   */
  lemma TakenAsRequestedIff(w: World, r: Request, time: nat, sorted: seq<Offer>)
    requires r.Bid? || r.Ask?
    ensures var e := EventOf(r, time, sorted);
            && e.Submit? && OfferOf(w, e).id == w.nextId && OfferOf(w, e).time == time
            && (AsRequested(r, OfferOf(w, e)) <==> if r.Bid? then r.price >= 0 else r.price > 0)
    ensures r.Bid? && r.price < 0 ==> EventOf(r, time, sorted) == EventOf(Ask(r.player, -r.price), time, sorted)
    ensures r.Ask? && r.price <= 0 ==> EventOf(r, time, sorted) == EventOf(Bid(r.player, -r.price), time, sorted)
  {
  }

  // ---- Names -----------------------------------------------------------------------

  /** The name a subject last sent, or none. */
  function LastName(es: seq<Event>, j: nat, id: nat): string
    requires j <= |es|
  {
    if j == 0 then ""
    else if es[j - 1].Name? && es[j - 1].player == id then es[j - 1].name
    else LastName(es, j - 1, id)
  }

  lemma NamesMove(w: World, e: Event, w': World)
    requires Sound(w) && Next(w, e, w')
    ensures |w'.state.subjects| >= |w.state.subjects|
    ensures forall id: nat | id < |w.state.subjects| ::
              w'.state.subjects[id]
              == if e.Name? && e.player == id then Subject(id, e.name) else w.state.subjects[id]
    ensures forall id: nat | |w.state.subjects| <= id < |w'.state.subjects| :: w'.state.subjects[id] == Subject(id, "")
  {
    hide PossibleSort, TradeNotices, Judge, Settle;
    if e.TimerExpires? && w.state.timer.callbacks != [] {
      hide Expire;
      ExpireCalls(w.state, w.state.timer.callbacks[0]);
    }
  }

  lemma NamerIsKnown(w: World, e: Event)
    requires Possible(w, e) && e.Name?
    ensures w.state.Knows(e.player)
  {
  }

  /** Nobody is named before it has joined. */
  lemma {:induction false} NamelessBefore(ws: seq<World>, es: seq<Event>, j: nat, id: nat)
    requires IsRun(ws, es) && j < |ws| && id >= |ws[j].state.subjects|
    ensures LastName(es, j, id) == ""
  {
    hide Next, Handle, Sound, Possible;
    if j > 0 {
      RunStep(ws, es, j - 1);
      NamesMove(ws[j - 1], es[j - 1], ws[j]);
      NamelessBefore(ws, es, j - 1, id);
      if es[j - 1].Name? {
        NamerIsKnown(ws[j - 1], es[j - 1]);
      }
    }
  }

  /** In every state of every run, each subject bears its own id and the name it last sent. */
  lemma {:induction false} SubjectsBearLastNames(ws: seq<World>, es: seq<Event>, j: nat, id: nat)
    requires IsRun(ws, es) && j < |ws| && id < |ws[j].state.subjects|
    ensures ws[j].state.subjects[id] == Subject(id, LastName(es, j, id))
  {
    hide Next, Handle, Sound, Possible;
    if j == 0 {
      FreshServer(ws, es);
    } else {
      RunStep(ws, es, j - 1);
      NamesMove(ws[j - 1], es[j - 1], ws[j]);
      if id < |ws[j - 1].state.subjects| {
        SubjectsBearLastNames(ws, es, j - 1, id);
      } else {
        NamelessBefore(ws, es, j - 1, id);
        if es[j - 1].Name? {
          NamerIsKnown(ws[j - 1], es[j - 1]);
        }
      }
    }
  }
}
