/** Concrete texts: the order of the fields on the wire, the blanks between them, and the codes of the verdicts. */
module TextExamples {
  import opened Values
  import opened Offers
  import opened OrderBooks
  import opened Experiments
  import opened OfferProcessing
  import opened Text
  import opened Codec
  import opened PortfolioCodec
  import opened Wire

  lemma Numbers()
    ensures PrintInt(0) == "0" && PrintInt(1) == "1" && PrintInt(2) == "2" && PrintInt(3) == "3" && PrintInt(6) == "6"
    ensures PrintInt(30) == "30" && PrintInt(-25) == "-25" && PrintInt(70) == "70" && PrintInt(-4) == "-4"
  {
    assert PrintNat(30) == PrintNat(3) + [Digit(0)];
    assert PrintNat(25) == PrintNat(2) + [Digit(5)];
    assert PrintNat(70) == PrintNat(7) + [Digit(0)];
  }

  const ASKED := Offer(3, 1, -25, 70)
  const MADE := Trade(0, 1, 30, 70, 2, 3)
  const GONE := RetractResult(RetractValidity.Accepted, RetractRequest(1, 2))

  lemma PartTexts()
    ensures PrintOffer(ASKED) == "3 1 -25 70" && PrintTrade(MADE) == "0 1 30 70 2 3" && PrintRetract(GONE) == "0 1 2"
  {
    Numbers();
  }

  /** An ask, accepted, that traded and replaced one offer: verdict, offer, trade, count of retracts, retract. */
  lemma TradedText()
    ensures PrintResult(MarketSubmissionResult(OfferValidity.Accepted, ASKED, Some(MADE), [GONE]))
         == "0 3 1 -25 70 1 0 1 30 70 2 3" + " 1 0 1 2"
  {
    hide PrintInt, PrintOffer, PrintOptionalTrade, PrintEach;
    Numbers();
    PartTexts();
    TradeAndRetractTexts();
    TradedHead();
    TradedTail("0 3 1 -25 70 1 0 1 30 70 2 3");
  }

  lemma TradedHead()
    ensures "0" + " " + "3 1 -25 70" + " " + "1 0 1 30 70 2 3" == "0 3 1 -25 70 1 0 1 30 70 2 3"
  {
  }

  lemma TradedTail(head: string)
    ensures head + " " + "1" + " 0 1 2" == head + " 1 0 1 2"
  {
  }

  lemma TradeAndRetractTexts()
    ensures PrintOptionalTrade(Some(MADE)) == "1 0 1 30 70 2 3" && PrintEach([GONE], PrintRetract) == " 0 1 2"
  {
    hide PrintInt, PrintTrade, PrintRetract;
    PartTexts();
    assert [GONE][..0] == [];
  }

  /** A rejection for its price, without a trade or retracts, and a retraction that was another's. */
  lemma RejectedText()
    ensures PrintResult(MarketSubmissionResult(RejectedPriceOutOfRange, ASKED, None, [])) == "6 3 1 -25 70 0 0"
    ensures PrintRetract(RetractResult(RejectedOwnerMismatch, RetractRequest(1, 3))) == "2 1 3"
  {
    hide PrintInt, PrintOffer;
    Numbers();
    PartTexts();
  }

  /** A round: its number, whether creation has begun, its dividend and its two margins. */
  lemma RoundText()
    ensures PrintRound(RoundConfiguration(true, 2, 3, 30, 70)) == "2 1 3 30 70"
  {
    hide PrintInt;
    Numbers();
  }

  /** A subject's portfolio: its id, the count of items, and each name with its signed count. */
  lemma HoldingsText()
    ensures PrintSubjectPortfolio(1, [("Cash", 30), ("Margin", -4)]) == "1 2 Cash 30 Margin -4"
  {
    hide PrintInt;
    Numbers();
    var items: seq<(string, int)> := [("Cash", 30), ("Margin", -4)];
    assert items[..1] == [("Cash", 30)];
    assert PrintEach(items[..1], ShowItem) == " Cash 30";
    assert PrintEach(items, ShowItem) == " Cash 30 Margin -4";
  }
}
