/** The replica over text: the server's messages travel as printed bodies, and the client reads them back. */
module Wire {
  import opened Values
  import opened Portfolios
  import opened Experiments
  import opened Servers
  import opened Text
  import opened Codec
  import opened PortfolioCodec
  import opened Reachable
  import opened Replica
  import opened ReplicaRuns

  // ---- Rounds ------------------------------------------------------------

  predicate FitsRound(conf: RoundConfiguration) {
    conf.round < TWO_32 && conf.dividend < TWO_32 && conf.marginReq < TWO_32 && conf.marginMax < TWO_32
  }

  function BoolCode(b: bool): nat {
    if b then 1 else 0
  }

  function PrintRound(conf: RoundConfiguration): string {
    PrintInt(conf.round)
    + Spaced(BoolCode(conf.canCreate), Spaced(conf.dividend, Spaced(conf.marginReq, Spaced(conf.marginMax, ""))))
  }

  function ReadRound(s: string): Read<RoundConfiguration> {
    var (round, s1) :- ReadUnsigned(s, TWO_32);
    var (canCreate, s2) :- ReadBool(s1);
    var (dividend, s3) :- ReadUnsigned(s2, TWO_32);
    var (marginReq, s4) :- ReadUnsigned(s3, TWO_32);
    var (marginMax, s5) :- ReadUnsigned(s4, TWO_32);
    Got(RoundConfiguration(canCreate, round, dividend, marginReq, marginMax), s5)
  }

  lemma FieldBool(b: bool, rest: string)
    requires Stops(rest)
    ensures ReadBool(Spaced(BoolCode(b), rest)) == Got(b, rest)
    ensures Stops(Spaced(BoolCode(b), rest))
  {
    ReadPrinted(BoolCode(b), rest);
    ReadAfterSpace(PrintInt(BoolCode(b)) + rest);
  }

  lemma RoundRoundTrip(conf: RoundConfiguration)
    requires FitsRound(conf)
    ensures ReadRound(PrintRound(conf)) == Got(conf, "")
  {
    var s4 := Spaced(conf.marginMax, "");
    var s3 := Spaced(conf.marginReq, s4);
    var s2 := Spaced(conf.dividend, s3);
    var s1 := Spaced(BoolCode(conf.canCreate), s2);
    FieldUnsigned(conf.marginMax, TWO_32, "");
    FieldUnsigned(conf.marginReq, TWO_32, s4);
    FieldUnsigned(conf.dividend, TWO_32, s3);
    FieldBool(conf.canCreate, s2);
    FieldUnsigned(conf.round, TWO_32, s1);
  }

  // ---- Portfolios by item name ---------------------------------------------

  function NameOf(item: Item): string {
    match item
    case Cash => "Cash"
    case Shares => "Shares"
    case Derivatives => "Derivatives"
    case Margin => "Margin"
  }

  function ItemNamed(name: string): Option<Item> {
    if name == "Cash" then Some(Cash)
    else if name == "Shares" then Some(Shares)
    else if name == "Derivatives" then Some(Derivatives)
    else if name == "Margin" then Some(Margin)
    else None
  }

  lemma NamesAreWords(item: Item)
    ensures IsWord(NameOf(item)) && ItemNamed(NameOf(item)) == Some(item)
  {
  }

  ghost predicate SamePortfolio(counts: Counts, port: Folio) {
    && (forall item :: NameOf(item) in counts <==> item in port)
    && (forall item | item in port :: counts[NameOf(item)] == port[item])
    && forall name | name in counts :: ItemNamed(name).Some? && NameOf(ItemNamed(name).value) == name
  }

  function ByItem(counts: Counts): Folio {
    map item: Item | item in {Cash, Shares, Derivatives, Margin} && NameOf(item) in counts :: counts[NameOf(item)]
  }

  lemma ByItemBack(counts: Counts, port: Folio)
    requires SamePortfolio(counts, port)
    ensures ByItem(counts) == port
  {
    assert forall item | item in port :: item in {Cash, Shares, Derivatives, Margin} by {
      assert forall item | item in port :: item.Cash? || item.Shares? || item.Derivatives? || item.Margin?;
    }
    assert ByItem(counts).Keys == port.Keys;
  }

  // ---- Bodies --------------------------------------------------------------

  /** The message types a replica acts on. */
  datatype Kind =
    | OfferBody | RetractionBody | PortfolioBody | RoundBody | DividendBody | RoundEndBody | ReviewBody | OtherBody

  function KindOf(m: Message): Kind {
    match m
    case AcceptedOffer(_) => OfferBody
    case AcceptedRetraction(_) => RetractionBody
    case PortfolioUpdate(_, _) => PortfolioBody
    case RoundStarted(_) => RoundBody
    case DividendStarted(_) => DividendBody
    case RoundEnded => RoundEndBody
    case ReviewStarted => ReviewBody
    case _ => OtherBody
  }

  /** The values of the message fit their C++ types. */
  predicate Fits(m: Message) {
    match m
    case AcceptedOffer(res) => FitsResult(res)
    case AcceptedRetraction(rr) => FitsRetract(rr)
    case PortfolioUpdate(id, port) => id < TWO_64 && forall item | item in port :: IsInt32(port[item])
    case RoundStarted(conf) => FitsRound(conf)
    case DividendStarted(dividend) => IsInt32(dividend)
    case _ => true
  }

  /** A portfolio's text depends on the order its map iterates in. */
  ghost predicate PortfolioText(id: nat, port: Folio, body: string) {
    exists counts: Counts, items: seq<(string, int)> ::
      SamePortfolio(counts, port) && Enumerates(items, counts) && |items| < TWO_32
      && body == PrintSubjectPortfolio(id, items)
  }

  /** `body` is a text the server may send for `m`. */
  ghost predicate IsText(m: Message, body: string) {
    match m
    case AcceptedOffer(res) => body == PrintResult(res)
    case AcceptedRetraction(rr) => body == PrintRetract(rr)
    case PortfolioUpdate(id, port) => PortfolioText(id, port, body)
    case RoundStarted(conf) => body == PrintRound(conf)
    case DividendStarted(dividend) => body == PrintInt(dividend)
    case _ => true
  }

  /** What the client makes of a body, if it can be read. */
  function ReadBody(kind: Kind, body: string): Option<Message> {
    match kind
    case OfferBody =>
      var r := ReadResult(body);
      if r.Got? then Some(AcceptedOffer(r.value)) else None
    case RetractionBody =>
      var r := ReadRetract(body);
      if r.Got? then Some(AcceptedRetraction(r.value)) else None
    case PortfolioBody =>
      var r := ReadSubjectPortfolio(body);
      if r.Got? then Some(PortfolioUpdate(r.value.0, ByItem(r.value.1))) else None
    case RoundBody =>
      var r := ReadRound(body);
      if r.Got? then Some(RoundStarted(r.value)) else None
    case DividendBody =>
      var r := ReadInt(body);
      if r.Got? && r.value >= 0 then Some(DividendStarted(r.value)) else None
    case RoundEndBody => Some(RoundEnded)
    case ReviewBody => Some(ReviewStarted)
    case OtherBody => None
  }

  lemma PortfolioBodyRead(id: nat, port: Folio, body: string)
    requires Fits(PortfolioUpdate(id, port)) && PortfolioText(id, port, body)
    ensures ReadBody(PortfolioBody, body) == Some(PortfolioUpdate(id, port))
  {
    var counts: Counts, items: seq<(string, int)> :|
      SamePortfolio(counts, port) && Enumerates(items, counts) && |items| < TWO_32
      && body == PrintSubjectPortfolio(id, items);
    hide SamePortfolio, Enumerates, PrintSubjectPortfolio, ReadSubjectPortfolio, ByItem, IsWord;
    CountsFit(counts, port);
    assert body + "" == body;
    SubjectPortfolioRoundTrip(id, counts, items, "");
    ByItemBack(counts, port);
  }

  lemma CountsFit(counts: Counts, port: Folio)
    requires SamePortfolio(counts, port) && forall item | item in port :: IsInt32(port[item])
    ensures forall name | name in counts :: IsInt32(counts[name]) && IsWord(name)
  {
    forall name | name in counts
      ensures IsInt32(counts[name]) && IsWord(name)
    {
      var item := ItemNamed(name).value;
      NamesAreWords(item);
      assert item in port && counts[NameOf(item)] == port[item];
    }
  }

  /** A client that reads a body back has the very message the server printed. */
  lemma BodyRoundTrip(m: Message, body: string)
    requires Fits(m) && IsText(m, body) && KindOf(m) != OtherBody
    ensures ReadBody(KindOf(m), body) == Some(m)
  {
    assert body + "" == body;
    match m {
      case AcceptedOffer(res) => ResultRoundTrip(res, "");
      case AcceptedRetraction(rr) => ReadPrintedRetract(rr, "");
      case PortfolioUpdate(id, port) => PortfolioBodyRead(id, port, body);
      case RoundStarted(conf) => RoundRoundTrip(conf);
      case DividendStarted(dividend) => FieldInt(dividend, "");
      case _ =>
    }
  }

  // ---- A client over text ------------------------------------------------

  ghost predicate ReadNext(c: Client, kind: Kind, body: string, c': Client) {
    var read := ReadBody(kind, body);
    if read.Some? then ClientNext(c, read.value, c') else c' == c
  }

  /** The client of subject `id` takes only the kinds and the bodies of the messages. */
  ghost predicate FollowsText(cs: seq<Client>, log: seq<Envelope>, bodies: seq<string>, id: nat) {
    && |cs| == |log| + 1 && |bodies| == |log|
    && forall i {:trigger log[i]} | 0 <= i < |log| ::
         && IsText(log[i].msg, bodies[i])
         && if Reaches(log[i].to, id) then ReadNext(cs[i], KindOf(log[i].msg), bodies[i], cs[i + 1])
            else cs[i + 1] == cs[i]
  }

  lemma OtherChangesNothing(c: Client, m: Message)
    requires KindOf(m) == OtherBody
    ensures ClientNext(c, m, c)
  {
    assert PossibleApply(c, m, []) && c == Apply(c, m, []);
  }

  lemma TextStep(c: Client, m: Message, body: string, c': Client)
    requires Fits(m) && IsText(m, body) && ReadNext(c, KindOf(m), body, c')
    ensures ClientNext(c, m, c')
  {
    if KindOf(m) == OtherBody {
      OtherChangesNothing(c, m);
    } else {
      BodyRoundTrip(m, body);
    }
  }

  lemma TextFollows(cs: seq<Client>, log: seq<Envelope>, bodies: seq<string>, id: nat)
    requires FollowsText(cs, log, bodies, id)
    requires forall x | x in log && Reaches(x.to, id) :: Fits(x.msg)
    ensures Follows(cs, log, id)
  {
    hide IsText, ReadNext, Fits, ClientNext;
    forall i | 0 <= i < |log|
      ensures if Reaches(log[i].to, id) then ClientNext(cs[i], log[i].msg, cs[i + 1]) else cs[i + 1] == cs[i]
    {
      if Reaches(log[i].to, id) {
        assert log[i] in log;
        TextStep(cs[i], log[i].msg, bodies[i], cs[i + 1]);
      }
    }
  }

  /**
   * End to end: a client that agrees with the server in one state and from
   * then on only sees texts agrees with it in every later state of the run, as
   * long as what the server sends it fits the C++ types.
   */
  lemma TextReplicaAgrees(
      ws: seq<World>, es: seq<Event>, i: nat, j: nat, cs: seq<Client>, bodies: seq<string>, id: nat)
    requires IsRun(ws, es) && i <= j < |ws|
    requires FollowsText(cs, Since(ws[i], ws[j]), bodies, id) && Agrees(cs[0], ws[i], id)
    requires forall x | x in Since(ws[i], ws[j]) && Reaches(x.to, id) :: Fits(x.msg)
    ensures Agrees(cs[|cs| - 1], ws[j], id)
  {
    hide FollowsText, Fits, Agrees, Follows;
    TextFollows(cs, Since(ws[i], ws[j]), bodies, id);
    ReplicaAgrees(ws, es, i, j, cs, id);
  }

  /** The same for a client admitted at step `i`, whatever it held, once no round or a new round is in progress. */
  lemma TextAdmittedClientAgrees(
      ws: seq<World>, es: seq<Event>, i: nat, m: nat, j: nat, cs: seq<Client>, bodies: seq<string>, id: nat)
    requires IsRun(ws, es) && i < j < |ws| && es[i].Join? && id == |ws[i].state.subjects|
    requires ws[i].state.timer.callbacks != [EndsRound] || (i < m < j && BeginsRoundAt(ws, es, m))
    requires FollowsText(cs, Since(ws[i + 1], ws[j]), bodies, id)
    requires forall x | x in Since(ws[i + 1], ws[j]) && Reaches(x.to, id) :: Fits(x.msg)
    ensures Agrees(cs[|cs| - 1], ws[j], id)
  {
    hide FollowsText, Fits, Agrees, Follows, BeginsRoundAt;
    TextFollows(cs, Since(ws[i + 1], ws[j]), bodies, id);
    AdmittedClientAgrees(ws, es, i, m, j, cs, id);
  }
}
