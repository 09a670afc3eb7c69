/** A client's copy of the market, kept up to date by the server's messages alone. */
module Replica {
  import opened Values
  import opened Offers
  import opened OrderBooks
  import opened Portfolios
  import opened Experiments
  import opened OfferProcessing
  import opened MarketSafety
  import opened Servers

  datatype Client = Client(
    book: Book,
    transactions: seq<Trade>,
    port: Folio,
    startRoundPort: Folio,
    endRoundPort: Folio,
    postDividendPort: Folio,
    lastDividend: nat,
    roundConf: RoundConfiguration,
    round: nat)

  /** The ids named by a list of retracts, taken out of both queues one after the other. */
  function RetractNamed(b: Book, retracts: seq<RetractResult>): Book {
    if retracts == [] then b
    else Retracted(RetractNamed(b, retracts[..|retracts| - 1]), retracts[|retracts| - 1].request.offerId)
  }

  /** Add, then trade, then retract: the client's order, the reverse of the server's. */
  function BookAfter(b: Book, res: MarketSubmissionResult, sorted: seq<Offer>): Book {
    var added := WithSide(b, res.offer, sorted);
    var traded :=
      if res.trade.Some? then
        Book(Without(added.bids, res.trade.value.bidId), Without(added.asks, res.trade.value.askId))
      else added;
    RetractNamed(traded, res.retracts)
  }

  /** The client after a message; `sorted` is what its own sort makes of an added offer. */
  function Apply(c: Client, m: Message, sorted: seq<Offer>): Client {
    match m
    case AcceptedOffer(res) =>
      c.(book := BookAfter(c.book, res, sorted),
         transactions := c.transactions + if res.trade.Some? then [res.trade.value] else [])
    case AcceptedRetraction(rr) => c.(book := Retracted(c.book, rr.request.offerId))
    case PortfolioUpdate(_, port) => c.(port := port)
    case RoundStarted(conf) =>
      c.(book := EMPTY_BOOK, transactions := [], roundConf := conf, round := conf.round, startRoundPort := c.port)
    case RoundEnded => c.(endRoundPort := c.port)
    case DividendStarted(dividend) => c.(lastDividend := dividend)
    case ReviewStarted => c.(postDividendPort := c.port)
    case _ => c
  }

  ghost predicate PossibleApply(c: Client, m: Message, sorted: seq<Offer>) {
    m.AcceptedOffer? ==> Inserted(Side(c.book, m.res.offer), m.res.offer, sorted)
  }

  ghost predicate ClientNext(c: Client, m: Message, c': Client) {
    exists sorted :: PossibleApply(c, m, sorted) && c' == Apply(c, m, sorted)
  }

  predicate Reaches(to: Address, id: nat) {
    to.All? || to == Only(id)
  }

  /** The client of subject `id` takes the messages addressed to it, in order, and no others. */
  ghost predicate Follows(cs: seq<Client>, log: seq<Envelope>, id: nat) {
    && |cs| == |log| + 1
    && forall i {:trigger log[i]} | 0 <= i < |log| ::
         if Reaches(log[i].to, id) then ClientNext(cs[i], log[i].msg, cs[i + 1]) else cs[i + 1] == cs[i]
  }

  // ---- Agreement -------------------------------------------------------

  /** The same bag of offers on either side, both in order. */
  ghost predicate SameBook(mine: Book, theirs: Book) {
    && Sorted(mine.bids) && Sorted(mine.asks)
    && multiset(mine.bids) == multiset(theirs.bids)
    && multiset(mine.asks) == multiset(theirs.asks)
  }

  /** The trades announced since the last round began. */
  function TradesThisRound(log: seq<Envelope>): seq<Trade> {
    if log == [] then []
    else
      var m := log[|log| - 1].msg;
      if m.RoundStarted? then []
      else
        TradesThisRound(log[..|log| - 1])
        + if m.AcceptedOffer? && m.res.trade.Some? then [m.res.trade.value] else []
  }

  /** During a round the client has the book and the trades. */
  ghost predicate MarketAgrees(c: Client, w: World) {
    w.state.timer.callbacks == [EndsRound] ==>
      SameBook(c.book, w.state.desk.book) && c.transactions == TradesThisRound(w.log)
  }

  /** From the start of the experiment on, the client has its own portfolio. */
  ghost predicate HasPort(port: Folio, folios: Folios, id: nat) {
    id in folios ==> port == folios[id]
  }

  ghost predicate Agrees(c: Client, w: World, id: nat) {
    MarketAgrees(c, w) && HasPort(c.port, w.state.desk.folios, id)
  }

  // ---- What the pieces of a client do over a list of messages -------------

  function PortAfter(port: Folio, out: seq<Envelope>, id: nat): Folio {
    if out == [] then port
    else
      var x := out[|out| - 1];
      if Reaches(x.to, id) && x.msg.PortfolioUpdate? then x.msg.port else PortAfter(port, out[..|out| - 1], id)
  }

  lemma {:induction false} PortFollows(cs: seq<Client>, out: seq<Envelope>, id: nat)
    requires Follows(cs, out, id)
    ensures cs[|out|].port == PortAfter(cs[0].port, out, id)
  {
    hide ClientNext, Follows;
    if out != [] {
      var n := |out| - 1;
      FollowsPrefix(cs, out, id, n);
      PortFollows(cs[..n + 1], out[..n], id);
      LastStep(cs, out, id);
      if Reaches(out[n].to, id) {
        OneMovesPort(cs[n], out[n].msg, cs[n + 1]);
      }
    }
  }

  lemma FollowsPrefix(cs: seq<Client>, out: seq<Envelope>, id: nat, n: nat)
    requires Follows(cs, out, id) && n <= |out|
    ensures |cs| == |out| + 1 && Follows(cs[..n + 1], out[..n], id)
  {
  }

  lemma FollowsSuffix(cs: seq<Client>, out: seq<Envelope>, id: nat, n: nat)
    requires Follows(cs, out, id) && n <= |out|
    ensures Follows(cs[n..], out[n..], id)
  {
    forall i | 0 <= i < |out[n..]|
      ensures if Reaches(out[n..][i].to, id) then ClientNext(cs[n..][i], out[n..][i].msg, cs[n..][i + 1])
              else cs[n..][i + 1] == cs[n..][i]
    {
      assert out[n..][i] == out[n + i];
    }
  }

  lemma FollowsParts(cs: seq<Client>, a: seq<Envelope>, b: seq<Envelope>, id: nat)
    requires Follows(cs, a + b, id)
    ensures |cs| == |a| + |b| + 1
    ensures Follows(cs[..|a| + 1], a, id) && Follows(cs[|a|..], b, id)
  {
    FollowsPrefix(cs, a + b, id, |a|);
    FollowsSuffix(cs, a + b, id, |a|);
    assert (a + b)[..|a|] == a && (a + b)[|a|..] == b;
  }

  lemma LastStep(cs: seq<Client>, out: seq<Envelope>, id: nat)
    requires Follows(cs, out, id) && out != []
    ensures var n := |out| - 1;
            if Reaches(out[n].to, id) then ClientNext(cs[n], out[n].msg, cs[n + 1]) else cs[n + 1] == cs[n]
  {
    assert out[|out| - 1] == out[|out| - 1];
  }

  /** Messages that leave a client's book and trades alone. */
  ghost predicate LeavesBook(out: seq<Envelope>) {
    forall x | x in out :: !x.msg.AcceptedOffer? && !x.msg.AcceptedRetraction? && !x.msg.RoundStarted?
  }

  lemma OneLeavesBook(c: Client, m: Message, c': Client)
    requires ClientNext(c, m, c') && !m.AcceptedOffer? && !m.AcceptedRetraction? && !m.RoundStarted?
    ensures c'.book == c.book && c'.transactions == c.transactions
  {
  }

  lemma OneMovesPort(c: Client, m: Message, c': Client)
    requires ClientNext(c, m, c')
    ensures c'.port == if m.PortfolioUpdate? then m.port else c.port
  {
  }

  lemma {:induction false} BookFollows(cs: seq<Client>, out: seq<Envelope>, id: nat)
    requires Follows(cs, out, id) && LeavesBook(out)
    ensures cs[|out|].book == cs[0].book && cs[|out|].transactions == cs[0].transactions
  {
    hide ClientNext, Follows;
    if out != [] {
      var n := |out| - 1;
      FollowsPrefix(cs, out, id, n);
      BookFollows(cs[..n + 1], out[..n], id);
      LastStep(cs, out, id);
      assert out[n] in out;
      if Reaches(out[n].to, id) {
        OneLeavesBook(cs[n], out[n].msg, cs[n + 1]);
      }
    }
  }

  lemma {:induction false} TradesQuiet(log: seq<Envelope>, out: seq<Envelope>)
    requires LeavesBook(out)
    ensures TradesThisRound(log + out) == TradesThisRound(log)
  {
    if out == [] {
      assert log + out == log;
    } else {
      var n := |out| - 1;
      assert out[n] in out;
      assert (log + out)[..|log + out| - 1] == log + out[..n];
      TradesQuiet(log, out[..n]);
      assert TradesThisRound(log) + [] == TradesThisRound(log);
    }
  }

  // ---- Accepted offers -----------------------------------------------------

  lemma {:induction false} NamedAreGone(b: Book, player: nat, gone: seq<Offer>)
    ensures RetractNamed(b, RetractsFor(player, gone)) == RetractAll(b, gone)
  {
    if gone != [] {
      var front := gone[..|gone| - 1];
      NamedAreGone(b, player, front);
      var rs := RetractsFor(player, gone);
      assert rs[..|rs| - 1] == RetractsFor(player, front);
    }
  }

  lemma {:induction false} RetractAllBag(b: Book, gone: seq<Offer>, x: Offer)
    ensures multiset(RetractAll(b, gone).bids)[x] == if IdAmong(gone, x.id) then 0 else multiset(b.bids)[x]
    ensures multiset(RetractAll(b, gone).asks)[x] == if IdAmong(gone, x.id) then 0 else multiset(b.asks)[x]
  {
    if gone != [] {
      var front, last := gone[..|gone| - 1], gone[|gone| - 1];
      assert gone == front + [last];
      RetractAllBag(b, front, x);
      WithoutMembers(RetractAll(b, front).bids, last.id);
      WithoutMembers(RetractAll(b, front).asks, last.id);
      IdAmongSnoc(front, last, x.id);
    }
  }

  lemma IdAmongSnoc(front: seq<Offer>, last: Offer, id: nat)
    ensures IdAmong(front + [last], id) <==> IdAmong(front, id) || last.id == id
  {
    assert last in front + [last];
    if IdAmong(front, id) {
      var g :| g in front && g.id == id;
      assert g in front + [last];
    }
  }

  lemma {:induction false} RetractAllSorted(b: Book, gone: seq<Offer>)
    requires Sorted(b.bids) && Sorted(b.asks)
    ensures Sorted(RetractAll(b, gone).bids) && Sorted(RetractAll(b, gone).asks)
  {
    if gone != [] {
      var front, last := gone[..|gone| - 1], gone[|gone| - 1];
      RetractAllSorted(b, front);
      WithoutSorted(RetractAll(b, front).bids, last.id);
      WithoutSorted(RetractAll(b, front).asks, last.id);
    }
  }

  /** The number of copies of `x` the server ends up with on either side. */
  lemma ServerCopies(d: Desk, nextId: nat, o: Offer, sorted: seq<Offer>, x: Offer)
    requires WillAccept(d, nextId, o, sorted)
    ensures var c, after, gone := Counterpart(d, o), Popped(WithSide(BookFor(d, o), o, sorted)), Replaced(d, o);
            && multiset(Side(after, o))[x]
               == (if IdAmong(gone, x.id) then 0 else multiset(Side(d.book, o))[x])
                   + (if c.None? && x == o then 1 else 0)
            && multiset(Opposite(after, o))[x]
               == (if c.Some? && x.id == c.value.id then 0 else multiset(Opposite(d.book, o))[x])
  {
    var c, b, gone := Counterpart(d, o), BookFor(d, o), Replaced(d, o);
    BookForFacts(d, nextId, o);
    RetractAllBag(d.book, gone, x);
    if c.Some? {
      MatchSome(b, o, sorted);
      WithoutMembers(Opposite(b, o), c.value.id);
    } else {
      MatchNone(b, o, sorted);
    }
  }

  /** The number of copies of `x` the client ends up with. */
  lemma ClientCopies(mine: Book, o: Offer, c: Option<Offer>, gone: seq<Offer>, sorted: seq<Offer>, x: Offer)
    requires Inserted(Side(mine, o), o, sorted)
    requires forall y | y in Side(mine, o) || y in Opposite(mine, o) :: y.id != o.id
    requires c.Some? ==> IsAsk(c.value) != IsAsk(o) && c.value.id != o.id
    ensures var trade := if c.Some? then Some(TradeWith(o, c.value)) else None;
            var after := BookAfter(mine,
                MarketSubmissionResult(OfferValidity.Accepted, o, trade, RetractsFor(o.player, gone)), sorted);
            && multiset(Side(after, o))[x]
               == (if IdAmong(gone, x.id) || (c.Some? && x == o) then 0
                   else multiset(Side(mine, o))[x] + (if x == o then 1 else 0))
            && multiset(Opposite(after, o))[x]
               == (if IdAmong(gone, x.id) || (c.Some? && x.id == c.value.id) then 0 else multiset(Opposite(mine, o))[x])
  {
    var added := WithSide(mine, o, sorted);
    var traded :=
      if c.None? then added
      else Book(Without(added.bids, TradeWith(o, c.value).bidId), Without(added.asks, TradeWith(o, c.value).askId));
    NamedAreGone(traded, o.player, gone);
    RetractAllBag(traded, gone, x);
    assert multiset(sorted)[x] == multiset(Side(mine, o))[x] + multiset{o}[x];
    if c.Some? {
      WithoutMembers(sorted, o.id);
      WithoutMembers(Opposite(mine, o), c.value.id);
      assert x in Side(mine, o) ==> x.id != o.id;
    }
  }

  /** The result the server announces for an accepted offer. */
  function ResultOf(d: Desk, o: Offer): MarketSubmissionResult {
    var c := Counterpart(d, o);
    MarketSubmissionResult(
      OfferValidity.Accepted, o,
      if c.Some? then Some(TradeWith(o, c.value)) else None,
      RetractsFor(o.player, Replaced(d, o)))
  }

  lemma CopiesAgree(d: Desk, nextId: nat, o: Offer, sorted: seq<Offer>, mine: Book, mySorted: seq<Offer>, x: Offer)
    requires WillAccept(d, nextId, o, sorted)
    requires SameBook(mine, d.book) && Inserted(Side(mine, o), o, mySorted)
    ensures var mineAfter, after := BookAfter(mine, ResultOf(d, o), mySorted),
            Popped(WithSide(BookFor(d, o), o, sorted));
            && multiset(Side(mineAfter, o))[x] == multiset(Side(after, o))[x]
            && multiset(Opposite(mineAfter, o))[x] == multiset(Opposite(after, o))[x]
  {
    var c := Counterpart(d, o);
    SameMembers(mine, d.book);
    MatchResult(d, nextId, o, sorted);
    assert forall y | y in Side(mine, o) || y in Opposite(mine, o) :: Resting(d.book, y);
    ServerCopies(d, nextId, o, sorted, x);
    ClientCopies(mine, o, c, Replaced(d, o), mySorted, x);
    GoneAreElsewhere(d, nextId, o, x);
    assert multiset(Opposite(d.book, o))[x] > 0 <==> x in Opposite(d.book, o);
    assert multiset(Side(d.book, o))[x] > 0 <==> x in Side(d.book, o);
  }

  /** Add, trade and retract on the client; retract, add and trade on the server: the same bags. */
  lemma AcceptedOfferAgrees(d: Desk, nextId: nat, o: Offer, sorted: seq<Offer>, mine: Book, mySorted: seq<Offer>)
    requires WillAccept(d, nextId, o, sorted)
    requires SameBook(mine, d.book) && Inserted(Side(mine, o), o, mySorted)
    ensures SameBook(BookAfter(mine, ResultOf(d, o), mySorted), Popped(WithSide(BookFor(d, o), o, sorted)))
  {
    var mineAfter, after := BookAfter(mine, ResultOf(d, o), mySorted), Popped(WithSide(BookFor(d, o), o, sorted));
    BookAfterSorted(mine, ResultOf(d, o), Replaced(d, o), mySorted);
    forall x
      ensures multiset(Side(mineAfter, o))[x] == multiset(Side(after, o))[x]
      ensures multiset(Opposite(mineAfter, o))[x] == multiset(Opposite(after, o))[x]
    {
      CopiesAgree(d, nextId, o, sorted, mine, mySorted, x);
    }
    SameSides(mineAfter, after, o);
  }

  lemma SameSides(mine: Book, theirs: Book, o: Offer)
    requires Sorted(mine.bids) && Sorted(mine.asks)
    requires forall x :: multiset(Side(mine, o))[x] == multiset(Side(theirs, o))[x]
    requires forall x :: multiset(Opposite(mine, o))[x] == multiset(Opposite(theirs, o))[x]
    ensures SameBook(mine, theirs)
  {
    assert multiset(Side(mine, o)) == multiset(Side(theirs, o));
    assert multiset(Opposite(mine, o)) == multiset(Opposite(theirs, o));
  }

  lemma SameMembers(mine: Book, theirs: Book)
    requires SameBook(mine, theirs)
    ensures forall y :: y in mine.bids <==> y in theirs.bids
    ensures forall y :: y in mine.asks <==> y in theirs.asks
  {
    forall y
      ensures (y in mine.bids <==> y in theirs.bids) && (y in mine.asks <==> y in theirs.asks)
    {
      assert y in mine.bids <==> y in multiset(mine.bids);
      assert y in mine.asks <==> y in multiset(mine.asks);
    }
  }

  /** Replaced offers are neither the incoming offer nor on the other side. */
  lemma GoneAreElsewhere(d: Desk, nextId: nat, o: Offer, x: Offer)
    requires DeskOk(d, nextId) && o.id == nextId
    ensures IdAmong(Replaced(d, o), x.id) ==> x != o && x !in Opposite(d.book, o)
    ensures o !in Side(d.book, o)
  {
    ReplacedFacts(d, o);
    assert o !in Side(d.book, o) by {
      assert o in Side(d.book, o) ==> Resting(d.book, o);
    }
    if IdAmong(Replaced(d, o), x.id) {
      var g :| g in Replaced(d, o) && g.id == x.id;
      assert Resting(d.book, g);
      if x in Opposite(d.book, o) {
        RestingUnique(d.book, g, x);
      }
    }
  }

  lemma BookAfterSorted(mine: Book, res: MarketSubmissionResult, gone: seq<Offer>, sorted: seq<Offer>)
    requires Sorted(mine.bids) && Sorted(mine.asks) && Sorted(sorted)
    requires res.retracts == RetractsFor(res.offer.player, gone)
    ensures Sorted(BookAfter(mine, res, sorted).bids) && Sorted(BookAfter(mine, res, sorted).asks)
  {
    var added := WithSide(mine, res.offer, sorted);
    if res.trade.Some? {
      WithoutSorted(added.bids, res.trade.value.bidId);
      WithoutSorted(added.asks, res.trade.value.askId);
      var traded := Book(Without(added.bids, res.trade.value.bidId), Without(added.asks, res.trade.value.askId));
      NamedAreGone(traded, res.offer.player, gone);
      RetractAllSorted(traded, gone);
    } else {
      NamedAreGone(added, res.offer.player, gone);
      RetractAllSorted(added, gone);
    }
  }

  lemma RetractionAgrees(mine: Book, theirs: Book, id: nat)
    requires SameBook(mine, theirs)
    ensures SameBook(Retracted(mine, id), Retracted(theirs, id))
  {
    WithoutSorted(mine.bids, id);
    WithoutSorted(mine.asks, id);
    WithoutMembers(mine.bids, id);
    WithoutMembers(mine.asks, id);
    WithoutMembers(theirs.bids, id);
    WithoutMembers(theirs.asks, id);
    forall x
      ensures multiset(Without(mine.bids, id))[x] == multiset(Without(theirs.bids, id))[x]
      ensures multiset(Without(mine.asks, id))[x] == multiset(Without(theirs.asks, id))[x]
    {
      assert multiset(mine.bids)[x] == multiset(theirs.bids)[x];
      assert multiset(mine.asks)[x] == multiset(theirs.asks)[x];
    }
  }
}
