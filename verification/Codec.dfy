/** The text forms that carry market results, the market state and portfolios. */
module Codec {
  import opened Values
  import opened Offers
  import opened OrderBooks
  import opened OfferProcessing
  import opened Text

  // ---- Fields --------------------------------------------------------------

  /** One more number on the line. */
  function Spaced(n: int, rest: string): string {
    " " + (PrintInt(n) + rest)
  }

  lemma FieldUnsigned(n: nat, modulus: nat, rest: string)
    requires n < modulus && Stops(rest)
    ensures ReadUnsigned(PrintInt(n) + rest, modulus) == Got(n, rest)
    ensures ReadUnsigned(Spaced(n, rest), modulus) == Got(n, rest)
    ensures Stops(Spaced(n, rest))
  {
    ReadPrinted(n, rest);
    ReadAfterSpace(PrintInt(n) + rest);
  }

  lemma FieldInt(n: int, rest: string)
    requires IsInt32(n) && Stops(rest)
    ensures ReadInt(PrintInt(n) + rest) == Got(n, rest)
    ensures ReadInt(Spaced(n, rest)) == Got(n, rest)
    ensures Stops(Spaced(n, rest))
  {
    ReadPrinted(n, rest);
    ReadAfterSpace(PrintInt(n) + rest);
  }

  // ---- Counted lists -------------------------------------------------------

  /** Each element after a blank. */
  function PrintEach<T>(xs: seq<T>, show: T -> string): string {
    if xs == [] then "" else PrintEach(xs[..|xs| - 1], show) + (" " + show(xs[|xs| - 1]))
  }

  function ReadMany<T>(s: string, n: nat, parse: string -> Read<T>): Read<seq<T>> {
    if n == 0 then Got([], s)
    else
      var (earlier, s1) :- ReadMany(s, n - 1, parse);
      var (x, s2) :- parse(s1);
      Got(earlier + [x], s2)
  }

  /** `parse` takes back what `show` wrote after a blank, whatever follows. */
  ghost predicate Inverse<T(!new)>(x: T, show: T -> string, parse: string -> Read<T>) {
    forall rest: string | Stops(rest) :: parse(" " + (show(x) + rest)) == Got(x, rest)
  }

  lemma {:induction false} ReadPrintedEach<T(!new)>(xs: seq<T>, show: T -> string, parse: string -> Read<T>,
      rest: string)
    requires (forall x | x in xs :: Inverse(x, show, parse)) && Stops(rest)
    ensures ReadMany(PrintEach(xs, show) + rest, |xs|, parse) == Got(xs, rest)
    ensures Stops(PrintEach(xs, show) + rest)
    decreases xs, 1
  {
    if xs == [] {
      assert PrintEach(xs, show) + rest == rest;
    } else {
      Appended(PrintEach(xs[..|xs| - 1], show), show(xs[|xs| - 1]), rest);
      ReadPrintedSnoc(xs, xs[..|xs| - 1], xs[|xs| - 1], show, parse, rest);
    }
  }

  lemma {:induction false} ReadPrintedSnoc<T(!new)>(
      xs: seq<T>, front: seq<T>, last: T, show: T -> string, parse: string -> Read<T>, rest: string)
    requires (forall x | x in xs :: Inverse(x, show, parse)) && Stops(rest) && xs == front + [last]
    requires PrintEach(xs, show) + rest == PrintEach(front, show) + (" " + (show(last) + rest))
    ensures ReadMany(PrintEach(xs, show) + rest, |xs|, parse) == Got(xs, rest)
    ensures Stops(PrintEach(xs, show) + rest)
    decreases xs, 0
  {
    var s, tail := PrintEach(xs, show) + rest, " " + (show(last) + rest);
    assert last in xs;
    ReadPrintedEach(front, show, parse, tail);
    ReadOneMore(s, front, last, parse, tail, rest);
  }

  lemma Concat(a: string, b: string, c: string)
    ensures (a + b) + c == a + (b + c)
  {
  }

  lemma Appended(a: string, b: string, rest: string)
    ensures (a + (" " + b)) + rest == a + (" " + (b + rest))
  {
  }

  lemma ReadOneMore<T>(s: string, front: seq<T>, last: T, parse: string -> Read<T>, tail: string, rest: string)
    requires ReadMany(s, |front|, parse) == Got(front, tail) && parse(tail) == Got(last, rest)
    ensures ReadMany(s, |front| + 1, parse) == Got(front + [last], rest)
  {
  }

  // ---- Offers ------------------------------------------------------------

  /** Values that fit the C++ types of an offer. */
  predicate FitsOffer(o: Offer) {
    o.id < TWO_32 && o.player < TWO_64 && IsInt32(o.price) && o.time < TWO_32
  }

  function PrintOffer(o: Offer): string {
    PrintInt(o.id) + " " + PrintInt(o.player) + " " + PrintInt(o.price) + " " + PrintInt(o.time)
  }

  function ReadOffer(s: string): Read<Offer> {
    var (id, s1) :- ReadUnsigned(s, TWO_32);
    var (player, s2) :- ReadUnsigned(s1, TWO_64);
    var (price, s3) :- ReadInt(s2);
    var (time, s4) :- ReadUnsigned(s3, TWO_32);
    Got(Offer(id, player, price, time), s4)
  }

  lemma OfferFields(o: Offer, rest: string)
    ensures PrintOffer(o) + rest == PrintInt(o.id) + Spaced(o.player, Spaced(o.price, Spaced(o.time, rest)))
  {
    hide PrintInt;
    FourFields(PrintInt(o.id), PrintInt(o.player), PrintInt(o.price), PrintInt(o.time), rest);
  }

  lemma ThreeFields(a: string, b: string, c: string, rest: string)
    ensures (a + " " + b + " " + c) + rest == a + (" " + (b + (" " + (c + rest))))
  {
  }

  lemma FourFields(a: string, b: string, c: string, d: string, rest: string)
    ensures (a + " " + b + " " + c + " " + d) + rest == a + (" " + (b + (" " + (c + (" " + (d + rest))))))
  {
    Appended(a + " " + b + " " + c, d, rest);
    Concat(a + " " + b + " " + c, " ", d);
    ThreeFields(a, b, c, " " + (d + rest));
  }

  lemma ReadPrintedOffer(o: Offer, rest: string)
    requires FitsOffer(o) && Stops(rest)
    ensures ReadOffer(PrintOffer(o) + rest) == Got(o, rest)
    ensures ReadOffer(" " + (PrintOffer(o) + rest)) == Got(o, rest)
  {
    var s3 := Spaced(o.time, rest);
    var s2 := Spaced(o.price, s3);
    var s1 := Spaced(o.player, s2);
    OfferFields(o, rest);
    FieldUnsigned(o.time, TWO_32, rest);
    FieldInt(o.price, s3);
    FieldUnsigned(o.player, TWO_64, s2);
    FieldUnsigned(o.id, TWO_32, s1);
  }

  // ---- Trades ------------------------------------------------------------

  predicate FitsTrade(t: Trade) {
    && t.buyer < TWO_64 && t.seller < TWO_64 && 0 <= t.price < TWO_32
    && t.timestamp < TWO_32 && t.bidId < TWO_32 && t.askId < TWO_32
  }

  function PrintTrade(t: Trade): string {
    PrintInt(t.buyer) + " " + PrintInt(t.seller) + " " + PrintInt(t.price) + " "
    + PrintInt(t.timestamp) + " " + PrintInt(t.bidId) + " " + PrintInt(t.askId)
  }

  function ReadTrade(s: string): Read<Trade> {
    var (buyer, s1) :- ReadUnsigned(s, TWO_64);
    var (seller, s2) :- ReadUnsigned(s1, TWO_64);
    var (price, s3) :- ReadUnsigned(s2, TWO_32);
    var (timestamp, s4) :- ReadUnsigned(s3, TWO_32);
    var (bidId, s5) :- ReadUnsigned(s4, TWO_32);
    var (askId, s6) :- ReadUnsigned(s5, TWO_32);
    Got(Trade(buyer, seller, price, timestamp, bidId, askId), s6)
  }

  lemma TradeFields(t: Trade, rest: string)
    ensures PrintTrade(t) + rest
         == PrintInt(t.buyer)
             + Spaced(t.seller, Spaced(t.price, Spaced(t.timestamp, Spaced(t.bidId, Spaced(t.askId, rest)))))
  {
    hide PrintInt;
    var first := PrintInt(t.buyer) + " " + PrintInt(t.seller) + " " + PrintInt(t.price);
    FourFields(first, PrintInt(t.timestamp), PrintInt(t.bidId), PrintInt(t.askId), rest);
    ThreeFields(PrintInt(t.buyer), PrintInt(t.seller), PrintInt(t.price),
                Spaced(t.timestamp, Spaced(t.bidId, Spaced(t.askId, rest))));
  }

  lemma ReadPrintedTrade(t: Trade, rest: string)
    requires FitsTrade(t) && Stops(rest)
    ensures ReadTrade(PrintTrade(t) + rest) == Got(t, rest)
    ensures ReadTrade(" " + (PrintTrade(t) + rest)) == Got(t, rest)
  {
    var s5 := Spaced(t.askId, rest);
    var s4 := Spaced(t.bidId, s5);
    var s3 := Spaced(t.timestamp, s4);
    var s2 := Spaced(t.price, s3);
    var s1 := Spaced(t.seller, s2);
    TradeFields(t, rest);
    FieldUnsigned(t.askId, TWO_32, rest);
    FieldUnsigned(t.bidId, TWO_32, s5);
    FieldUnsigned(t.timestamp, TWO_32, s4);
    FieldUnsigned(t.price, TWO_32, s3);
    FieldUnsigned(t.seller, TWO_64, s2);
    FieldUnsigned(t.buyer, TWO_64, s1);
  }

  // ---- Retracts ------------------------------------------------------------

  function CodeOfRetract(v: RetractValidity): nat {
    match v
    case Accepted => 0
    case RejectedNonExistent => 1
    case RejectedOwnerMismatch => 2
    case RejectedMarketClosed => 3
  }

  /** The enumerator with this code; codes that name none are not modelled. */
  function RetractOfCode(n: int): Option<RetractValidity> {
    if n == 0 then Some(RetractValidity.Accepted)
    else if n == 1 then Some(RejectedNonExistent)
    else if n == 2 then Some(RejectedOwnerMismatch)
    else if n == 3 then Some(RetractValidity.RejectedMarketClosed)
    else None
  }

  predicate FitsRetract(r: RetractResult) {
    r.request.id < TWO_64 && r.request.offerId < TWO_32
  }

  function PrintRetract(r: RetractResult): string {
    PrintInt(CodeOfRetract(r.validity)) + " " + (PrintInt(r.request.id) + " " + PrintInt(r.request.offerId))
  }

  function ReadRetract(s: string): Read<RetractResult> {
    var (code, s1) :- ReadInt(s);
    var validity := RetractOfCode(code);
    var (id, s2) :- ReadUnsigned(s1, TWO_64);
    var (offerId, s3) :- ReadUnsigned(s2, TWO_32);
    if validity.None? then Bad
    else Got(RetractResult(validity.value, RetractRequest(id, offerId)), s3)
  }

  lemma RetractFields(r: RetractResult, rest: string)
    ensures PrintRetract(r) + rest
         == PrintInt(CodeOfRetract(r.validity)) + Spaced(r.request.id, Spaced(r.request.offerId, rest))
  {
  }

  lemma ReadPrintedRetract(r: RetractResult, rest: string)
    requires FitsRetract(r) && Stops(rest)
    ensures ReadRetract(PrintRetract(r) + rest) == Got(r, rest)
    ensures ReadRetract(" " + (PrintRetract(r) + rest)) == Got(r, rest)
  {
    var s2 := Spaced(r.request.offerId, rest);
    var s1 := Spaced(r.request.id, s2);
    RetractFields(r, rest);
    FieldUnsigned(r.request.offerId, TWO_32, rest);
    FieldUnsigned(r.request.id, TWO_64, s2);
    RetractCodes(r.validity);
    FieldInt(CodeOfRetract(r.validity), s1);
  }

  lemma RetractInverse(r: RetractResult)
    requires FitsRetract(r)
    ensures Inverse(r, PrintRetract, ReadRetract)
  {
    forall rest: string | Stops(rest)
      ensures ReadRetract(" " + (PrintRetract(r) + rest)) == Got(r, rest)
    {
      ReadPrintedRetract(r, rest);
    }
  }

  lemma RetractCodes(v: RetractValidity)
    ensures 0 <= CodeOfRetract(v) < 4 && RetractOfCode(CodeOfRetract(v)) == Some(v)
  {
  }

  // ---- Submission results ------------------------------------------------

  function CodeOfOffer(v: OfferValidity): nat {
    match v
    case Accepted => 0
    case RejectedNoTradeoff => 1
    case RejectedInsufficientUnits => 2
    case RejectedInsufficientCash => 3
    case RejectedNonImproving => 4
    case RejectedTradeWithSelf => 5
    case RejectedPriceOutOfRange => 6
    case RejectedMarketClosed => 7
  }

  function OfferOfCode(n: int): Option<OfferValidity> {
    if n == 0 then Some(OfferValidity.Accepted)
    else if n == 1 then Some(RejectedNoTradeoff)
    else if n == 2 then Some(RejectedInsufficientUnits)
    else if n == 3 then Some(OfferValidity.RejectedInsufficientCash)
    else if n == 4 then Some(RejectedNonImproving)
    else if n == 5 then Some(RejectedTradeWithSelf)
    else if n == 6 then Some(RejectedPriceOutOfRange)
    else if n == 7 then Some(OfferValidity.RejectedMarketClosed)
    else None
  }

  predicate FitsResult(res: MarketSubmissionResult) {
    && FitsOffer(res.offer)
    && (res.trade.Some? ==> FitsTrade(res.trade.value))
    && |res.retracts| < TWO_64
    && forall r | r in res.retracts :: FitsRetract(r)
  }

  function PrintOptionalTrade(t: Option<Trade>): string {
    PrintBool(t.Some?) + if t.Some? then " " + PrintTrade(t.value) else ""
  }

  function PrintResult(res: MarketSubmissionResult): string {
    PrintInt(CodeOfOffer(res.validity)) + " "
    + PrintOffer(res.offer) + " " + PrintOptionalTrade(res.trade)
    + " " + PrintInt(|res.retracts|) + PrintEach(res.retracts, PrintRetract)
  }

  function ReadOptionalTrade(s: string): Read<Option<Trade>> {
    var (has, s1) :- ReadBool(s);
    if !has then Got(None, s1)
    else
      var (t, s2) :- ReadTrade(s1);
      Got(Some(t), s2)
  }

  function ReadResult(s: string): Read<MarketSubmissionResult> {
    var (code, s1) :- ReadInt(s);
    var validity := OfferOfCode(code);
    var (offer, s2) :- ReadOffer(s1);
    var (trade, s3) :- ReadOptionalTrade(s2);
    var (n, s4) :- ReadUnsigned(s3, TWO_64);
    var (retracts, s5) :- ReadMany(s4, n, ReadRetract);
    if validity.None? then Bad
    else Got(MarketSubmissionResult(validity.value, offer, trade, retracts), s5)
  }

  lemma ReadPrintedOptionalTrade(t: Option<Trade>, rest: string)
    requires (t.Some? ==> FitsTrade(t.value)) && Stops(rest)
    ensures ReadOptionalTrade(" " + (PrintOptionalTrade(t) + rest)) == Got(t, rest)
  {
    var tail := if t.Some? then " " + (PrintTrade(t.value) + rest) else rest;
    var bit := if t.Some? then 1 else 0;
    assert PrintBool(t.Some?) == PrintInt(bit);
    hide PrintInt, PrintTrade, PrintBool, ReadNumber, ReadTrade;
    if t.Some? {
      Appended(PrintInt(bit), PrintTrade(t.value), rest);
    } else {
      assert PrintInt(bit) + "" == PrintInt(bit);
    }
    assert PrintOptionalTrade(t) + rest == PrintInt(bit) + tail;
    ReadPrinted(bit, tail);
    ReadAfterSpace(PrintInt(bit) + tail);
    if t.Some? {
      ReadPrintedTrade(t.value, rest);
    }
  }

  lemma Reassociate(a: string, b: string, c: string, d: string, e: string, rest: string)
    ensures a + " " + b + " " + c + " " + d + e + rest == a + (" " + (b + (" " + (c + (" " + (d + (e + rest)))))))
  {
    var bc := b + (" " + (c + (" " + (d + (e + rest)))));
    assert b + " " + c + " " + d + e + rest == bc;
    assert a + " " + b + " " + c + " " + d + e + rest == a + (" " + (b + " " + c + " " + d + e + rest));
  }

  lemma OfferCodes(v: OfferValidity)
    ensures 0 <= CodeOfOffer(v) < 8 && OfferOfCode(CodeOfOffer(v)) == Some(v)
  {
  }

  /** Reading a result is reading its five parts. */
  lemma ReadParts(s: string, res: MarketSubmissionResult, s1: string, s2: string, s3: string, s4: string, rest: string)
    requires ReadInt(s) == Got(CodeOfOffer(res.validity), s1)
    requires ReadOffer(s1) == Got(res.offer, s2)
    requires ReadOptionalTrade(s2) == Got(res.trade, s3)
    requires ReadUnsigned(s3, TWO_64) == Got(|res.retracts|, s4)
    requires ReadMany(s4, |res.retracts|, ReadRetract) == Got(res.retracts, rest)
    ensures ReadResult(s) == Got(res, rest)
  {
    OfferCodes(res.validity);
  }

  /** Any submission result whose values fit their types comes back from its printed form, character by character. */
  lemma ResultRoundTrip(res: MarketSubmissionResult, rest: string)
    requires FitsResult(res) && Stops(rest)
    ensures ReadResult(PrintResult(res) + rest) == Got(res, rest)
  {
    var s4 := PrintEach(res.retracts, PrintRetract) + rest;
    var s3 := Spaced(|res.retracts|, s4);
    var s2 := " " + (PrintOptionalTrade(res.trade) + s3);
    var s1 := " " + (PrintOffer(res.offer) + s2);
    Reassociate(PrintInt(CodeOfOffer(res.validity)), PrintOffer(res.offer), PrintOptionalTrade(res.trade),
                PrintInt(|res.retracts|), PrintEach(res.retracts, PrintRetract), rest);
    forall r | r in res.retracts
      ensures Inverse(r, PrintRetract, ReadRetract)
    {
      RetractInverse(r);
    }
    ReadPrintedEach(res.retracts, PrintRetract, ReadRetract, rest);
    FieldUnsigned(|res.retracts|, TWO_64, s4);
    ReadPrintedOptionalTrade(res.trade, s3);
    ReadPrintedOffer(res.offer, s2);
    OfferCodes(res.validity);
    FieldInt(CodeOfOffer(res.validity), s1);
    ReadParts(PrintResult(res) + rest, res, s1, s2, s3, s4, rest);
  }

  // ---- Market state --------------------------------------------------------

  /** The lists that the text of a market state carries; reading pushes them into sorting queues. */
  datatype StateText = StateText(asks: seq<Offer>, bids: seq<Offer>, transactions: seq<Trade>)

  predicate FitsState(ms: StateText) {
    && |ms.asks| < TWO_31 && |ms.bids| < TWO_31 && |ms.transactions| < TWO_31
    && (forall o | o in ms.asks :: FitsOffer(o))
    && (forall o | o in ms.bids :: FitsOffer(o))
    && forall t | t in ms.transactions :: FitsTrade(t)
  }

  function PrintQueue(q: seq<Offer>): string {
    PrintInt(|q|) + PrintEach(q, PrintOffer)
  }

  function PrintState(ms: StateText): string {
    PrintQueue(ms.asks) + " " + PrintQueue(ms.bids) + " "
    + PrintInt(|ms.transactions|) + PrintEach(ms.transactions, PrintTrade)
  }

  /** A count and that many elements; a negative count reads none. */
  function ReadCounted<T>(s: string, parse: string -> Read<T>): Read<seq<T>> {
    var (n, s1) :- ReadInt(s);
    ReadMany(s1, if n < 0 then 0 else n, parse)
  }

  function ReadState(s: string): Read<StateText> {
    var (asks, s1) :- ReadCounted(s, ReadOffer);
    var (bids, s2) :- ReadCounted(s1, ReadOffer);
    var (transactions, s3) :- ReadCounted(s2, ReadTrade);
    Got(StateText(asks, bids, transactions), s3)
  }

  lemma ReadPrintedCounted<T(!new)>(xs: seq<T>, show: T -> string, parse: string -> Read<T>, rest: string)
    requires |xs| < TWO_31 && (forall x | x in xs :: Inverse(x, show, parse)) && Stops(rest)
    ensures ReadCounted(PrintInt(|xs|) + PrintEach(xs, show) + rest, parse) == Got(xs, rest)
    ensures ReadCounted(" " + (PrintInt(|xs|) + PrintEach(xs, show) + rest), parse) == Got(xs, rest)
  {
    ReadPrintedEach(xs, show, parse, rest);
    var tail := PrintEach(xs, show) + rest;
    FieldInt(|xs|, tail);
    assert PrintInt(|xs|) + PrintEach(xs, show) + rest == PrintInt(|xs|) + tail;
  }

  lemma OfferInverse(o: Offer)
    requires FitsOffer(o)
    ensures Inverse(o, PrintOffer, ReadOffer)
  {
    forall rest: string | Stops(rest)
      ensures ReadOffer(" " + (PrintOffer(o) + rest)) == Got(o, rest)
    {
      ReadPrintedOffer(o, rest);
    }
  }

  lemma TradeInverse(t: Trade)
    requires FitsTrade(t)
    ensures Inverse(t, PrintTrade, ReadTrade)
  {
    forall rest: string | Stops(rest)
      ensures ReadTrade(" " + (PrintTrade(t) + rest)) == Got(t, rest)
    {
      ReadPrintedTrade(t, rest);
    }
  }

  /** The lists of a market state come back from its text. */
  lemma StateRoundTrip(ms: StateText, rest: string)
    requires FitsState(ms) && Stops(rest)
    ensures ReadState(PrintState(ms) + rest) == Got(ms, rest)
  {
    forall o | o in ms.asks || o in ms.bids
      ensures Inverse(o, PrintOffer, ReadOffer)
    {
      OfferInverse(o);
    }
    forall t | t in ms.transactions
      ensures Inverse(t, PrintTrade, ReadTrade)
    {
      TradeInverse(t);
    }
    var third := PrintInt(|ms.transactions|) + PrintEach(ms.transactions, PrintTrade);
    var s2 := " " + (third + rest);
    var s1 := " " + (PrintQueue(ms.bids) + s2);
    StateFields(PrintQueue(ms.asks), PrintQueue(ms.bids), PrintInt(|ms.transactions|),
                PrintEach(ms.transactions, PrintTrade), rest);
    ReadPrintedCounted(ms.transactions, PrintTrade, ReadTrade, rest);
    ReadPrintedCounted(ms.bids, PrintOffer, ReadOffer, s2);
    ReadPrintedCounted(ms.asks, PrintOffer, ReadOffer, s1);
  }

  lemma StateFields(a: string, b: string, c: string, d: string, rest: string)
    ensures a + " " + b + " " + c + d + rest == a + (" " + (b + (" " + (c + d + rest))))
  {
    assert b + " " + c + d + rest == b + (" " + (c + d + rest));
    assert a + " " + b + " " + c + d + rest == a + (" " + (b + " " + c + d + rest));
  }

  /**
   * Reading re-sorts after every element, so a queue comes back as some sorted
   * permutation of its text: the same prices and times in the same order, and
   * the very same offers if no two of them tie.
   */
  lemma ResortedQueue(q: seq<Offer>, r: seq<Offer>)
    requires Sorted(q) && Sorted(r) && multiset(r) == multiset(q)
    ensures SameKeys(r, q)
    ensures (forall i, j | 0 <= i < j < |q| :: q[i].price != q[j].price || q[i].time != q[j].time) ==> r == q
  {
    SortedBagKeys(r, q);
    if forall i, j | 0 <= i < j < |q| :: q[i].price != q[j].price || q[i].time != q[j].time {
      forall i | 0 <= i < |q|
        ensures r[i] == q[i]
      {
        assert r[i] in multiset(q);
        var j :| 0 <= j < |q| && q[j] == r[i];
      }
    }
  }
}
