# A verified model of the asset-market experiment server

The repository runs a laboratory asset market: traders post bids and asks in a
continuous double auction, an administrator starts the experiment, and a timer
drives it through rounds, dividends, reviews and payouts. Everything on the
server runs on one thread, so each message and each timer expiry is one atomic
step. This project models that program and proves what its steps keep, over
every run.

The model has two layers.

* **The state machine.** `Servers` gives the whole server as a state, the events
  that can occur, and for each event the next state and the messages sent. Its
  parts are the order book (`Offers`, `OrderBooks`), the portfolios
  (`Portfolios`), and the offer processor (`OfferProcessing`). A lookup that throws
  in the source is `Threw`; an exception ends the server, so a run has no step
  after it. `std::ranges::sort` is not stable, so the order it gives to tied
  offers is part of the event (`Submit(..., sorted)`) and every theorem holds for
  every sorted permutation. `IsRun(ws, es)` is a run from a fresh server.
* **The objects.** The source's classes with their fields and methods, updated in
  place: `Markets`, `OfferProcessorMarkets`, `PausableTimers`, `Controllers`,
  `ServerControllers`, `ClientControllers`, `MessageDirectors`,
  `ClientsideProcessors`, and the stream operators (`StreamIO`, `MarketStateIO`) and configuration
  reader (`ConfigurationReader`) as loops. Each method is proved to do what the
  state machine says. `MessageDirector.Process` closes the circle: the whole
  object graph takes exactly one step of the state machine per request, so every
  theorem about runs is a theorem about the objects.

On these stand the theorems over runs: soundness of every reachable state
(`Reachable`), what every request is answered and why (`Requests`, `OfferVerdicts`,
`RetractVerdicts`, `CreationVerdicts`, `Starts`), from the configuration file to the
run (`FileRuns`), conservation of wealth and units (`Conservation`) and what it
makes of the payoffs (`PayoffTotals`), the fate of every offer (`Fates`), matching
and prices (`Trading`), the improvement and replacement rules (`MarketRules`), cash
and unit cover (`CashCover`), the round cycle (`Protocol`), the count that ends it
(`Counting`) and what disturbs it (`Disorder`, `EarlyEnds`, `Reloads`), runs with a
clock (`Clocks`, `TimedRuns`), margins (`Margins`), and the client's replica of the
market, over messages (`Replica`, `ReplicaRuns`) and over their printed text (`Text`,
`Reading`, `Codec`, `PortfolioCodec`, `Wire`, `FittingRuns`, `TimeUpdates`), with what it remembers
of the rounds (`ClientRecords`). `TextExamples` holds concrete texts and `Examples`
concrete runs.

Results where the code does not do what one would expect:

- `ProcessCreate` compares cash with the margin and ignores resting bids. A run is
  solvent throughout if and only if its start is funded and each creation leaves
  the creator's bids covered (`CashCover.SolventThroughoutIff`); `Examples.CreationCanOverdraw`
  is an orderly run that ends with an account at -10.
- `EndEarly` announces the payouts without stopping the timer. Rounds, dividends and reviews go on
  exactly as configured (`EarlyEnds.EarlyEndsStopNothing`), and whatever comes in between, the second
  expiry after it finds the market open again if and only if the round was not the last
  (`EarlyEnds.EarlyEndReopensIff`); `Examples.MarketReopens` is such a run.
- A subject may join after the start. From then on no run ends a round or comes to payouts again:
  those steps throw (`Disorder.LateJoinStopsRuns`).
- A configuration may be loaded at any time. If only messages and expiries follow, every orderly
  continuation is free of failing lookups if and only if the payouts have begun, or the configuration
  has the round in progress, all rounds still to come by its own count, and every subject
  (`Reloads.ReloadSafeIff`). If the timer could be paused and resumed, which no message causes, the
  payouts would be no exception (`Reloads.ReloadSafeWithPausesIff`).
- Names and readiness share a counter (`Counting.EndsByTheCount`); a name sent during a round closes
  the market if and only if it completes the count (`Disorder.NameClosesMarketIff`).
- At the end of a round the server clears its book and the clients do not. Until the next round
  begins a client agrees with the server if and only if nothing was resting
  (`ReplicaRuns.StaleUntilNextRound`); in `Examples.BookGoesStale` a bid was.
- A client never starts its timer, so it does not count down: it shows the last time update it has
  read (`PausableTimers.ClientShowsLastTime`). Times are printed signed and read unsigned, so that is
  the time the server sent if and only if it was neither negative nor too large
  (`TimeUpdates.ClientShowsSentIff`), which in an orderly run means that the step that sent it came no
  later than the pending wait completes (`TimeUpdates.ClientShowsServerTimeIff`). An offer accepted
  before an expiry that is already due makes every client show about 49 days.
- A bid tied in time with the ask it meets pays its own price, not the resting one
  (`Trading.TradesAtRestingPrice`); `Examples.TiedBidPaysItsOwn` is a run in which it does.
- A price decides by its sign alone which side an offer is for: an ask at zero is taken as a bid at
  zero, and a bid or an ask at a negative price as one of the other kind (`Requests.TakenAsRequestedIff`).
- The first rejection that the source lists, no tradeoff, is never given (`OfferVerdicts.VerdictIff`).
- A configuration file with no rounds is accepted, and starting from it throws
  (`ConfigurationReader.StartThrowsIff`).
- A portfolio comes back from its text if and only if its item names are words
  (`PortfolioCodec.PortfolioRoundTripIff`).

Readings of the source: the code is mid-refactor, with two namespaces and item keys that
are sometimes an enumeration and sometimes strings; it is read as one program with four
items. The stream operator at `temp_src/market/retract_request.cc:39-41` has no return
statement and is read as returning its stream. A timer that expires calls the callbacks
registered at that moment, although a callback clears and refills the list
(`temp_src/pausable_timer.cc:67-69`). Numbers are mathematical integers unless a premise
says that they fit their C++ types.

## Model

| member | source | states |
|---|---|---|
| `Offers.SortedBagKeys` | temp_src/market/offer.hh:21-27 | Two sorted queues with the same bag of offers show the same prices and times in the same order, so an unstable sort can only permute exact ties. |
| `Offers.StandingIsBest` | temp_src/market/offer_queue.cc:26-28 | The last offer of a sorted queue is at least every offer in it, by price and then by earlier time. |
| `Offers.WithoutMembers` | temp_src/market/offer_queue.cc:14-16 | Retraction by id refines removal from a bag: every copy with another id keeps its count, and none with the id is left. |
| `Offers.WithoutSorted` | temp_src/market/offer_queue.cc:14-16 | Erasing an id keeps a queue sorted. |
| `Offers.OffersOfMembers` | temp_src/market/offer_queue.cc:18-24 | Filtering by player gives exactly that player's offers; its length and its price sum are the player's totals over the queue. |
| `Offers.Find` | temp_src/market/offer_queue.cc:30-34 | A find by id gives a member with that id, and gives nothing exactly when no member has it. |
| `Markets.InsertSorted` | temp_src/market/offer_queue.cc:9-12 | Insertion into a sorted queue leaves a sorted queue with exactly that offer added to the bag. |
| `Markets.SortOffers` | temp_src/market/offer_queue.cc:11 | The library sort gives some sorted permutation of its input. |
| `Markets.OfferQueue.PushBack` | temp_src/market/offer_queue.cc:9-12 | Pushing leaves the queue sorted with exactly the pushed offer added. |
| `Markets.OfferQueue.Retract` | temp_src/market/offer_queue.cc:14-16 | Retracting leaves the old queue without the offers of that id, in order. |
| `Markets.Market.AddOffer` | temp_src/market/market.cc:67-73 | A negative price goes to the asks and any other to the bids; the other side stays as it was. |
| `Markets.Market.PopTrade` | temp_src/market/market.cc:42-65 | Takes out the two standing offers if the bid offers what the ask asks, and returns the record of their trade: both parties and ids, the time of the later, the limit of the earlier. |
| `Markets.Market.ProcessOffer` | temp_src/market/market.cc:75-78 | On an uncrossed book with a fresh id: trades if and only if the offer crosses the best opposite one, which is then the partner, and one pop leaves the book sound and uncrossed. |
| `Markets.Market.Retract` | temp_src/market/market.cc:32-35 | Takes the id out of both sides. |
| `Markets.Market.Clear` | temp_src/market/market.cc:37-40 | Leaves the empty book. |
| `OrderBooks.MatchNone` | temp_src/market/market.cc:42-78 | An offer that does not cross the best opposite one rests: no trade, and the book stays sound. |
| `OrderBooks.MatchSome` | temp_src/market/market.cc:42-78 | An offer that crosses trades with the best opposite offer; afterwards its own side has the old bag, the other side lacks only the partner, and the book is sound. |
| `OrderBooks.UncrossedHasNoTrade` | temp_src/market/market.cc:80-87 | An uncrossed book has no potential trade. |
| `OrderBooks.TradePriceWithinLimits` | temp_src/market/market.cc:46-52 | The price of a trade lies between the ask's and the bid's limits. |
| `OrderBooks.RetractedMembers` | temp_src/market/market.cc:32-35 | What rests after a retraction is exactly what rested before under another id. |
| `OrderBooks.RetractedTotals` | temp_src/market/market.cc:32-35 | Retracting a resting offer takes exactly its own weight out of any total of its side and leaves the other side alone. |
| `OrderBooks.RetractAllMembers` | temp_src/offer_processor_market.cc:75-91 | Retracting a list of offers leaves exactly the resting offers whose ids it does not name, and keeps the book sound. |
| `OrderBooks.RetractAllTotals` | temp_src/offer_processor_market.cc:75-91 | Retracting a player's listed offers lowers any total of that side by the list's total and leaves the other side alone. |
| `OfferProcessorMarkets.OfferProcessorMarket.CommittedCash` | temp_src/offer_processor_market.cc:32-37 | The loop over a player's bids adds up all the cash they promise. |
| `OfferProcessorMarkets.OfferProcessorMarket.CheckOffer` | temp_src/offer_processor_market.cc:19-72 | The verdict on an offer, guard by guard in the source's order, including the lookup that throws; nothing changes. What the verdicts mean is `OfferVerdicts.VerdictIff`. |
| `OfferProcessorMarkets.OfferProcessorMarket.RetractOwn` | temp_src/offer_processor_market.cc:75-91 | The replacement loop retracts every given offer and reports each of them, in order. |
| `OfferProcessorMarkets.OfferProcessorMarket.ProcessTrade` | temp_src/offer_processor_market.cc:97-105 | Throws exactly when a party has no portfolio; otherwise a unit goes one way and the price the other. |
| `OfferProcessorMarkets.OfferProcessorMarket.ProcessOffer` | temp_src/offer_processor_market.cc:19-95 | The objects end in the state, and return the result, that the state machine gives for some sort outcome; they throw exactly when it does. |
| `OfferProcessorMarkets.OfferProcessorMarket.ProcessCreate` | temp_src/offer_processor_market.cc:107-125 | Same state, same result, same failing lookups as the state machine's creation, whose meaning is `CreationVerdicts.CreationVerdictIff` and `CreationVerdicts.CreationMakesUnit`. |
| `OfferProcessorMarkets.OfferProcessorMarket.ProcessRetract` | temp_src/offer_processor_market.cc:127-140 | Same state and same result as the state machine's retraction, whose meaning is `RetractVerdicts.RetractVerdictIff`. |
| `OfferVerdicts.VerdictIff` | temp_src/offer_processor_market.cc:19-72 | On a sound book the verdict is the one verdict that is true of the offer: accepted if and only if the market is open, the sender can afford it beside everything it has resting, it improves on its own side if that rule is on, it does not meet the sender's own standing offer, and its price is in -999..999; each rejection has the first condition that fails; there is no verdict if and only if the market is open and the sender has no portfolio. |
| `OfferVerdicts.OfferAnswered` | temp_src/client_controller.cc:41-50 | In every run, an offer is announced to all as accepted exactly when that is true of it, and is otherwise answered to its sender alone with its verdict, and nothing changes. |
| `OfferVerdicts.NonImprovingNeedsRule` | temp_src/offer_processor_market.cc:44-56 | As long as the improvement rule is off, nobody is told that an offer does not improve. |
| `RetractVerdicts.RetractVerdictIff` | temp_src/offer_processor_market.cc:127-140 | On a sound book a retraction is accepted if and only if the market is open and some resting offer, on either side, has that id and that owner; it is non-existent if and only if, in an open market, none has the id, and another's if and only if one has it that is. |
| `RetractVerdicts.RetractionAnswered` | temp_src/client_controller.cc:28-39 | In every run a retraction has the effect and the reply of a verdict exactly when that verdict is true of it: an accepted one takes that offer out and is told to all, any other is told to the sender and changes nothing. |
| `RetractVerdicts.OwnerCanRetract` | temp_src/offer_processor_market.cc:127-140 | In every state of every run with an open market, the owner of a resting offer, bid or ask, can take it back in one step, which all are told of. |
| `CreationVerdicts.CreationVerdictIff` | temp_src/offer_processor_market.cc:107-125 | A creation is accepted if and only if the market is open, the round is at least first_create_round, the subject is a creator, and its cash is at least the round's margin; each rejection has the first condition that fails; there is no verdict if and only if an entry looked up is missing. |
| `CreationVerdicts.CreationMakesUnit` | temp_src/offer_processor_market.cc:119-123 | An accepted creation adds one unit held and one owed to the sender, and moves the round's margin out of its cash; no other holding changes, and a rejected one changes nothing. |
| `CreationVerdicts.CreationAnswered` | temp_src/client_controller.cc:65-74 | In every run a creation has the effect and the replies of a verdict exactly when that verdict is true of it, and both replies go to its sender. |
| `CreationVerdicts.OnlyCreatorsOwe` | temp_src/offer_processor_market.cc:111-114 | Unless a configuration is loaded on the way, a subject never owes fewer units than its allocation says, and owes more only if the configuration makes it a creator and some round gone by was one in which creation had begun. |
| `Requests.RequestAnswered` | temp_src/message_director.hh:24-127 | In every run each request is answered first of all by the message meant for its kind: about its own offer at the price asked for and the clock's time, the offer it would retract, the creation, name or readiness of its own sender, or the file it would load. |
| `Requests.TakenAsRequestedIff` | temp_src/client_controller.cc:18-26 | A bid is taken as a bid of that limit if and only if its price is not negative, and an ask as an ask of that limit if and only if its price is positive; any other is taken as an offer of the other kind at the negated price. |
| `Requests.SubjectsBearLastNames` | temp_src/experiment.hh:27-85 | In every state of every run each subject bears its own id and the name it last sent. |
| `Starts.NotStartedIff` | temp_src/experiment.hh:53-81 | In every state of every run the experiment counts as not started if and only if no round, pause, resumption or end has been announced. |
| `Starts.StartAnswered` | temp_src/experiment_command_processor.hh:194-206 | In every run a start or a request for instructions is accepted if and only if nothing of that kind has been announced and the configuration last loaded is for as many players as have joined, at least one; each refusal has the first reason that applies and changes nothing; instructions, readiness and early ends before it do not matter. |
| `Starts.EachGetsItsOwnSettings` | temp_src/experiment_controller.hh:22-114 | In every run every accepted start and every accepted request for instructions sends each subject its own settings, once, from the configuration last loaded, and no other step sends anybody settings. |
| `MarketSafety.MatchResult` | temp_src/offer_processor_market.cc:74-95 | After the guards, replacement and one pop: a trade if and only if the best opposite offer is crossed, with another subject, and a book with nothing left to trade. |
| `MarketSafety.OfferHasEffect` | temp_src/offer_processor_market.cc:19-105 | The whole effect of an accepted offer, as changes of every total over both sides and of every holding of every subject. |
| `MarketSafety.OfferKeepsDesk` | temp_src/offer_processor_market.cc:19-95 | An offer fails only on the missing portfolio of its owner, and keeps the book sound and every resting offer backed by a portfolio. |
| `MarketSafety.OfferKeepsUnits` | temp_src/offer_processor_market.cc:23-30 | Through replacement and settlement nobody ends with more asks resting than units held: incoming party, partner and bystanders. |
| `MarketSafety.OfferKeepsCash` | temp_src/offer_processor_market.cc:31-42 | Through replacement and settlement everybody's cash keeps covering all of their resting bids. |
| `MarketSafety.RetractTotals` | temp_src/offer_processor_market.cc:127-140 | An accepted retraction takes exactly the named offer, which its sender owned, out of every total. |
| `MarketSafety.CreateKeepsCashIff` | temp_src/offer_processor_market.cc:115-123 | A creation keeps cash cover if and only if cash less margin still covers the creator's resting bids. |
| `Reachable.RunIsSound` | temp_src/market/market.cc:75-78 | In every state of every run the book is sorted and uncrossed with no id twice, every resting offer has a portfolio, nobody has more asks than units, and stage, timer and book go together. |
| `Conservation.WealthConserved` | temp_src/experiment_command_processor.hh:31-40 | From an accepted start on, in every state of every run, all cash and margin are the configured cash and margin plus every dividend paid on each configured net unit; the net units never change. |
| `Conservation.ConservedBetween` | temp_src/offer_processor_market.cc:97-125 | Between any two states after the start, wealth moves only by the dividends announced in between, on the net units. |
| `Conservation.TradeConserves` | temp_src/offer_processor_market.cc:97-105 | Settlement leaves the total of every item unchanged. |
| `Conservation.DividendHoldings` | temp_src/experiment_command_processor.hh:31-40 | A dividend adds its amount per unit held to all cash together, takes it per unit owed out of all margins, and moves no unit. |
| `Conservation.StartsOnce` | temp_src/experiment_command_processor.hh:194-206 | Once started, an experiment never again counts as not started, so no allocation is handed out twice. |
| `DividendCast.CastProductIff` | temp_src/experiment_command_processor.hh:33-39 | The product of a count cast to unsigned and a dividend, cast back, is the true product if and only if that fits an int; negative counts included. |
| `DividendCast.PaidByCastsIff` | temp_src/experiment_command_processor.hh:31-40 | Paying through the unsigned casts is the payment of the model if and only if both products fit an int. |
| `Fates.EveryOfferAccounted` | temp_src/client_controller.cc:41-82 | In every state of every run: accepted = resting + traded (two a trade) + retracted or replaced + cleared at round ends; for all ids together and for each alone. |
| `Fates.AcceptedAtMostOnce` | temp_src/client_controller.cc:76-82 | No id is accepted twice, and no id that was not handed out is accepted. |
| `Fates.OneFate` | temp_src/client_controller.cc:41-82 | Every id has exactly one fate, and all the counts of that id say so. |
| `Trading.TradesWithBest` | temp_src/market/market.cc:42-78 | Over every run an accepted offer trades if and only if it meets the limit of some opposite offer; its partner is the best one by price then time, of another subject; the trade records both with the time of the later; the price is within both limits; nothing is left to trade. |
| `Trading.TradesAtRestingPrice` | temp_src/market/market.cc:42-56 | With non-decreasing times a trade carries the time of the incoming offer, and is at the resting limit if and only if that offer is an ask, is strictly later, or has the same limit; otherwise the tied bid pays its own price. |
| `Trading.EveryTradeIsFair` | temp_src/offer_processor_market.cc:57-69 | No trade announced in any run has the same buyer and seller; the incoming offer is a party, the ids differ and the price is in 1..999. |
| `MarketRules.ImprovementMakesRising` | temp_src/offer_processor_market.cc:44-56 | While the improvement rule is on and times do not decrease, each side stays strictly increasing in price and in order of arrival. |
| `MarketRules.ImprovementFixesSort` | temp_src/offer_processor_market.cc:44-56 | In such a stretch the sort after each accepted push has one possible outcome, the pushed queue itself. |
| `MarketRules.ReplacementLeavesOne` | temp_src/offer_processor_market.cc:75-91 | While the replacement rule is on, each subject rests at most one offer a side. |
| `MarketRules.RetractsNameReplaced` | temp_src/offer_processor_market.cc:75-94 | The returned retracts are accepted ones by the offer's player and name, once each, the ids of exactly the resting offers removed before matching and no other id; these are all the player's own on that side if the rule is on and none otherwise. |
| `CashCover.PrudentRunIsSolvent` | temp_src/offer_processor_market.cc:31-42 | In a run with a funded start and covered creations, every state has cash covering all resting bids and no negative units. |
| `CashCover.SolventThroughoutIff` | temp_src/offer_processor_market.cc:31-42 | A run is solvent in all its states if and only if its start is funded and each of its creations is covered. |
| `CashCover.SolventAfterCreateIff` | temp_src/offer_processor_market.cc:115-123 | In any run, a creation by a solvent server leaves it solvent if and only if cash less margin covers the creator's resting bids. |
| `CashCover.NobodySellsShort` | temp_src/offer_processor_market.cc:23-30 | In every state of every run that starts nobody with a debt of units, each subject holds at least as many units as it has asks resting. |
| `CashCover.NobodyEverShortIff` | temp_src/offer_processor_market.cc:23-30 | Nobody sells short in any state of a run if and only if nobody is started with a debt of units. |
| `Examples.CreationCanOverdraw` | temp_src/offer_processor_market.cc:107-125 | A concrete run from a server without a configuration, orderly and with a funded start, whose uncovered creation lets a later fill drive cash to -10. |
| `Examples.BookGoesStale` | temp_src/experiment_controller.hh:47-51 | A concrete run in which a bid rests when the round ends, so that no client that had the book agrees with the server afterwards. |
| `Examples.TiedBidPaysItsOwn` | temp_src/market/market.cc:46-52 | A concrete run in which a bid of 10 meets an ask of 5 of the same millisecond and pays 10. |
| `Examples.InstructionsThenStart` | temp_src/experiment_controller.hh:103-114 | A concrete run from a server without a configuration that goes through the instructions to an accepted start and an open market. |
| `TimedRuns.SteadyClockIsTimely` | temp_src/client_controller.cc:76-82 | In every run by a clock that does not go back, with elapsed times below 2^32 ms, no offer comes in with an earlier time than a resting one: pauses keep the elapsed time and only an empty book sees it start again. |
| `TimedRuns.SteadyClockPrices` | temp_src/market/market.cc:42-56 | So in every such run trades are of the incoming offer's time, and at the resting limit, exact ties in time apart. |
| `TimedRuns.SteadyClockRises` | temp_src/offer_processor_market.cc:44-56 | And while the improvement rule is on each side rises strictly in price and in order of arrival. |
| `TimedRuns.StagesLast` | temp_src/experiment_command_processor.hh:68-118 | Unless a configuration is loaded on the way, whenever the timer of a round or a review runs, its wait completes when the rest of round_time or review_time of running time has passed. |
| `Protocol.RunsItsCourse` | temp_src/experiment_controller.hh:38-96 | An accepted, well-configured experiment that runs in order broadcasts rounds 1, 2, ... in turn, each ended, with one payment of its own dividend and a review that begins and ends, then payouts; the number of expiries fixes round, stage and broadcasts. |
| `Protocol.NoLookupFails` | temp_src/configuration.hh:50-56 | In such a run every orderly event that can occur is handled without a failing lookup. |
| `Protocol.MarketOnlyInRounds` | temp_src/experiment_controller.hh:47-96 | Outside the round stage the book is empty, and payouts last from expiry 2 * n_rounds on for good. |
| `EarlyEnds.EarlyEndsStopNothing` | temp_src/message_director.hh:76 | In a run orderly but for any number of early ends, the rounds, dividends and reviews announced are still exactly those configured for the number of expiries. |
| `EarlyEnds.OpenAfterExpiryIff` | temp_src/experiment_controller.hh:38-96 | In such a run, right after an expiry, the market is open if and only if a round is due. |
| `EarlyEnds.EarlyEndReopensIff` | temp_src/message_director.hh:76 | After an early end in a round, whatever comes in between, the second expiry finds the market open if and only if the round was not the last. |
| `Disorder.EarlyEndCanReopen` | temp_src/message_director.hh:76 | Every orderly run with an open market before the last round goes on to an early end that announces the payouts, then the dividend of the round, and then an open market. |
| `Examples.MarketReopens` | temp_src/message_director.hh:76 | A concrete run from a server without a configuration that pays a dividend after the payouts were announced and then opens the market. |
| `Disorder.OpenIsInRound` | temp_src/experiment_controller.hh:38-96 | In an orderly run an open market means a round in progress, by a running timer, with a portfolio for everybody. |
| `Disorder.RoundEndNeedsPortfolios` | temp_src/experiment_controller.hh:53-63 | With an entry for the round, the end of a round succeeds if and only if every subject has a portfolio. |
| `Disorder.LateJoinStopsRuns` | temp_src/connection_controller.hh:18-21 | In every run, after a subject joins at any time after the start, no later step ends a round, ends early or announces payouts. |
| `Disorder.LateJoinStopsServer` | temp_src/connection_controller.hh:18-21 | From a round in progress, a join is a step after which the expiry that ends the round throws. |
| `Reloads.ReloadSafeIff` | temp_src/experiment_command_processor.hh:173-191 | In an otherwise orderly run without pauses, loading a configuration is safe against failing lookups in every orderly continuation by messages and expiries if and only if the payouts have begun, or it has the round in progress, the rounds still to come by its own count, and every subject. |
| `Reloads.ReloadSafeByMessagesIff` | temp_src/experiment_command_processor.hh:173-191 | The same in a run that may have been paused: safe if and only if the timer does not run or the configuration suits the state. |
| `Reloads.ReloadSafeWithPausesIff` | temp_src/experiment_controller.hh:83-91 | If pauses and resumptions may follow too, loading is safe if and only if the configuration suits the state, in the payouts as well. |
| `Reloads.SuitableNeverFails` | temp_src/configuration.hh:50-56 | A going experiment whose configuration suits it never fails a lookup in any orderly continuation. |
| `Reloads.UnsuitableFails` | temp_src/configuration.hh:50-56 | From a going experiment whose configuration does not suit it some orderly continuation leads to a failing lookup; if the timer runs, one of expiries alone does. |
| `Disorder.NameClosesMarketIff` | temp_src/experiment_command_processor.hh:161-171 | A name sent during a round closes the market if and only if it completes the shared count. |
| `Counting.CounterCounts` | temp_src/experiment_command_processor.hh:161-171 | In every state of every run the counter is the number of names and readiness messages since the instructions or the payouts last began. |
| `Counting.EndsByTheCount` | temp_src/experiment_controller.hh:121-136 | In every run the experiment ends exactly at the name, and the instructions exactly at the readiness message, that completes this common count. |
| `Margins.MarginIsObligations` | temp_src/offer_processor_market.cc:107-125 | In every state after the start a subject's margin is its starting margin, less the dividends paid on what it already owed, plus for each of its creations the margin of that round less all dividends paid since. |
| `Margins.PaidByRounds` | temp_src/experiment_command_processor.hh:106-110 | In an orderly run the dividends paid are exactly those configured for the rounds gone by. |
| `Margins.MarginNeverNegative` | temp_src/offer_processor_market.cc:115-124 | If each round's margin covers the dividends from that round on, no subject that starts without margin or debt ever has a negative margin in an orderly run. |
| `Replica.AcceptedOfferAgrees` | temp_src/clientside_processor.hh:34-51 | Adding, trading and then retracting on a client's copy gives the same bags as the server's retracting, adding and trading, whatever either sort does with ties. |
| `Replica.RetractionAgrees` | temp_src/clientside_processor.hh:70-80 | A retraction applied on both sides keeps the copy the same. |
| `ReplicaRuns.ReplicaAgrees` | temp_src/clientside_processor.hh:34-124 | A client that agrees with the server in one state of a run and takes the messages sent to it since agrees in every later state: the bids and asks and the round's trades during a round, its own portfolio from the start on. |
| `ReplicaRuns.MarketAgreesFrom` | temp_src/clientside_processor.hh:34-57 | The book and trades alone: once right they stay right, from the messages sent since. |
| `ReplicaRuns.RoundClientAgrees` | temp_src/clientside_processor.hh:103-112 | A client that held anything at all but hears a round begin has the server's book and trades from then on. |
| `ReplicaRuns.AdmittedClientAgrees` | temp_src/connection_controller.hh:18-21 | A client that receives messages only from its admission on agrees with the server in full, if it was not admitted in the middle of a round or has heard one begin. |
| `ReplicaRuns.ReplicaShowsSameQueues` | temp_src/clientside_processor.hh:34-57 | For a client that had the book once and took the messages since, during a round the prices and times it shows are the server's, in the server's order. |
| `ReplicaRuns.StaleUntilNextRound` | temp_src/experiment_controller.hh:47-51 | From the end of a round until the next begins the client keeps the old book, and all that time agrees with the server if and only if that was empty. |
| `ClientRecords.ClientRecordsDividend` | temp_src/clientside_processor.hh:113-124 | A client that had its own portfolio once and took the messages since holds, from the end of a round until the next round ends, the portfolio it had on the server at that end, the dividend of that round, and its portfolio after the payment: cash up by the dividend for each unit held, margin down by it for each unit owed. |
| `ClientRecords.ClientRecordsRound` | temp_src/clientside_processor.hh:103-112 | From the beginning of a round until the next begins it holds the entry of that round and the portfolio it had on the server when it began. |
| `Wire.RoundRoundTrip` | temp_src/configuration.cc:58-67 | A round configuration that fits its types comes back from its text. |
| `Wire.BodyRoundTrip` | temp_src/clientside_controller.hh:45-90 | Every message body the replica acts on, time updates apart, is read back as the very message the server printed, for any iteration order of a portfolio. |
| `Wire.TextReplicaAgrees` | temp_src/clientside_controller.hh:45-90 | End to end: a client that agrees once and from then on sees only printed bodies agrees in every later state of the run, if the values sent to it fit their types. |
| `Wire.TextAdmittedClientAgrees` | temp_src/clientside_controller.hh:45-90 | The same for a client that sees printed bodies only from its admission on. |
| `FittingRuns.AnnouncementsFit` | temp_src/client_controller.cc:41-82 | In every run by a clock, while the ids can count the offers and the subjects, every accepted offer and retraction announced fits its C++ types. |
| `FittingRuns.CountableTextAgrees` | temp_src/clientside_controller.hh:45-90 | So in such runs a client over text agrees with the server, if only the round entries, dividends and portfolios sent to it fit. |
| `TimeUpdates.TimeRoundTripIff` | temp_src/clock.cc:7-16 | A time comes back from its text if and only if it is not negative and fits an unsigned int. |
| `TimeUpdates.TimeTrip` | temp_src/clock.cc:7-16 | A negative time is read wrapped around by 2^32, and one out of range is a failed read. |
| `TimeUpdates.ClientShowsSentIff` | temp_src/clientside_controller.hh:85-89 | From a fresh timer on, a client over text shows the last time sent, whenever it looks, if and only if that time is not negative and fits an unsigned int. |
| `TimeUpdates.TimeSentIff` | temp_src/experiment_controller.hh:38-71 | In every run by a clock a step broadcasts the time left on the timer if and only if it announces an accepted offer or retraction, a round or a review, and then once. |
| `TimeUpdates.SentNonNegativeIff` | temp_src/client_controller.cc:41-50 | While the timer runs, the time a step sends is not negative if and only if the step comes no later than the pending wait completes. |
| `TimeUpdates.OrderlySendsRunning` | temp_src/client_controller.cc:28-50 | In an orderly run every time update is sent by a running timer. |
| `TimeUpdates.ClientShowsServerTimeIff` | temp_src/clientside_processor.hh:96-101 | End to end: in an orderly run by a steady clock, a client shows the time the server's timer had left if and only if the step that sent it came no later than the pending wait completes and the time fits. |
| `Text.ReadPrinted` | temp_src/string_funcs.hh:8-19 | A printed integer reads back, up to the white space after it. |
| `Reading.ReadNumberIff` | temp_src/string_funcs.hh:8-19 | From any text at all, a number is read if and only if the text begins with white space of the C locale, at most one sign, and digits; it is the value of all the digits that follow one another there, and the rest of the text is left. |
| `Reading.ReadIntIff` | temp_src/market/market_submission_result.cc:45-49 | An int is read exactly from a numeral in its range. |
| `Reading.ReadUnsignedIff` | temp_src/clock.cc:7-16 | An unsigned is read exactly from a numeral in its range, or from a negative one, which wraps around once. |
| `Reading.ReadBoolIff` | temp_src/market/market_submission_result.cc:50-51 | A bool is read exactly from a numeral of value 0 or 1. |
| `Reading.ReadWordIff` | temp_src/portfolio.cc:70-81 | A word is read from any text exactly as what stands between white space. |
| `Codec.ReadPrintedOffer` | temp_src/market/offer.cc:16-23 | An offer that fits its types comes back from its text. |
| `Codec.ReadPrintedTrade` | temp_src/market/trade.cc:16-24 | A trade that fits its types comes back from its text. |
| `Codec.ReadPrintedRetract` | temp_src/market/retract_request.cc:19-45 | A retract result that fits its types comes back from its text. |
| `Codec.ReadPrintedEach` | temp_src/market/offer_queue.cc:45-61 | A counted list comes back from its text whenever each element does. |
| `Codec.ResultRoundTrip` | temp_src/market/market_submission_result.cc:32-64 | Any submission result that fits its types, with or without a trade and with any retracts, comes back character by character, whatever text follows. |
| `Codec.StateRoundTrip` | temp_src/market/market_state.cc:4-22 | The queues' and the trades' lists come back from the text of a market state. |
| `Codec.ResortedQueue` | temp_src/market/offer_queue.cc:52-61 | Whatever sorted permutation re-sorting makes of a sorted queue, it shows the same prices and times in the same order, and is the very same queue if no two offers tie. |
| `TextExamples.TradedText` | temp_src/market/market_submission_result.cc:32-43 | A concrete accepted ask that traded and replaced an offer, and its text: the fields in the order of the stream operators. |
| `TextExamples.RejectedText` | temp_src/market/market_submission_result.hh:14-23 | A rejection and a retraction of another's offer, with the codes of their verdicts. |
| `TextExamples.RoundText` | temp_src/configuration.cc:58-67 | A round entry and its text. |
| `TextExamples.HoldingsText` | temp_src/portfolio.cc:50-65 | A subject's portfolio with a negative count, and its text. |
| `PortfolioCodec.PortfolioRoundTripIff` | temp_src/portfolio.cc:50-81 | A portfolio with 32-bit counts, negative ones included, comes back from its text for any iteration order if and only if every item name is a word. |
| `PortfolioCodec.SubjectPortfolioRoundTrip` | temp_src/portfolio.cc:63-68 | The same with the subject's id in front. |
| `PortfolioCodec.CastBack` | temp_src/portfolio.cc:70-81 | Wrapping a signed count through a 32-bit unsigned and casting it back is the identity. |
| `StreamIO.WriteResult` | temp_src/market/market_submission_result.cc:32-43 | The writing loop writes the specified text. |
| `StreamIO.ParseResult` | temp_src/market/market_submission_result.cc:45-64 | The reading loop, with its optional trade and counted retracts, reads or fails as the specification does. |
| `StreamIO.WriteQueue` | temp_src/market/offer_queue.cc:45-51 | The writing loop writes the count and every offer. |
| `StreamIO.ParseQueue` | temp_src/market/offer_queue.cc:52-61 | Reading into a queue object adds to its bag exactly the offers read and leaves it sorted. |
| `StreamIO.QueueTrip` | temp_src/market/offer_queue.cc:45-61 | Writing a sorted queue and reading it into an empty one gives the same bag and the same prices and times in order. |
| `MarketStateIO.WriteState` | temp_src/market/market_state.cc:4-11 | Writes the text of both queues and the trades. |
| `MarketStateIO.ParseTrades` | temp_src/market/market_state.cc:14-20 | Appends exactly the trades read, in order, or fails as the specification does. |
| `MarketStateIO.ParseState` | temp_src/market/market_state.cc:12-22 | Adds to the bags of both queues and to the trades exactly what the specification reads; sorted queues stay sorted. |
| `MarketStateIO.StateTrip` | temp_src/market/market_state.cc:4-22 | A market state written and read into an empty one gives the same trades, the same bags of offers, and the same prices and times in order, although every element read is sorted in. |
| `StreamIO.WritePortfolio` | temp_src/portfolio.cc:50-62 | The writing loop, with its blank after all but the last item, writes the specified text. |
| `StreamIO.ParsePortfolio` | temp_src/portfolio.cc:70-81 | The reading loop, adding item by item, reads what the specification reads. |
| `ConfigurationReader.CheckSizes` | temp_src/configuration_reader.cc:57-80 | Passes if and only if every list is long enough, refuses for the first that is not, and gives one warning for each longer one, in order. |
| `ConfigurationReader.RealizationsValid` | temp_src/configuration_reader.cc:81-85 | True if and only if every realization indexes the dividend list. |
| `ConfigurationReader.BuildRounds` | temp_src/configuration_reader.cc:86-92 | One entry for each round, numbered 1..n_rounds, with its realized dividend, its margins, and creation allowed from first_create_round on. |
| `ConfigurationReader.AssignRoles` | temp_src/configuration_reader.cc:94-110 | Succeeds if and only if every player's role is known, and then gives each id below n_players the settings of its role; one warning if some role lacks instructions. |
| `ConfigurationReader.ReadConfiguration` | temp_src/configuration_reader.cc:40-114 | A file is refused if and only if it has a problem, for the first one; otherwise it is loaded as what it describes, with exactly the list of warnings due. |
| `ConfigurationReader.RoundLookup` | temp_src/configuration.hh:54-56 | In a loaded configuration a round lookup succeeds exactly for 1..n_rounds and finds that round's entry, with a listed dividend. |
| `ConfigurationReader.CreationMonotone` | temp_src/configuration_reader.cc:86-92 | Once creation is allowed in a round it is allowed in all later ones. |
| `ConfigurationReader.LoadedIsWellConfigured` | temp_src/configuration_reader.cc:40-114 | A loaded configuration is fit to run if and only if it has a round. |
| `ConfigurationReader.StartThrowsIff` | temp_src/experiment_command_processor.hh:56-75 | An accepted start from a loaded configuration throws if and only if it has no rounds. |
| `ConfigurationReader.LoadedRunsWithoutFailure` | temp_src/configuration.hh:50-56 | After an accepted start from a loaded configuration, no lookup fails in an orderly run. |
| `FileRuns.FileAllocates` | temp_src/configuration_reader.cc:96-110 | From the file to the run: the start gives each subject the portfolio that the file gives its role. |
| `FileRuns.FileSetsDividends` | temp_src/configuration_reader.cc:82-92 | In an orderly run from a loaded file the dividends paid add up to the file's first realizations, looked up in its list of dividends, one for each round that has ended. |
| `FileRuns.FileDecidesCreation` | temp_src/configuration_reader.cc:86-110 | In such a run a creation is accepted if and only if the file lets the sender's role create, has creation begin no later than the round in progress, the market is open, and the sender has the margin that the file lists for that round, which is then set aside. |
| `FileRuns.FileSetsRules` | temp_src/configuration_reader.cc:39-47 | The rules of the market in such a run are the file's: without its improvement rule nobody is told that an offer does not improve, with its replacement rule nobody rests two offers on a side, and without it no accepted offer takes another one out. |
| `FileRuns.FileSetsTimes` | temp_src/configuration_reader.cc:39-47 | By a steady clock, whenever the timer runs in such a run, its wait completes when the rest of the file's round_time or review_time of running time has passed. |
| `PausableTimers.ElapsedIsTimeRun` | temp_src/pausable_timer.cc:31-59 | Over any sequence of starts, pauses and waits, the elapsed time is exactly the time spent running, and a running timer's wait completes when that reaches its duration. |
| `PausableTimers.SetDurationKeepsElapsed` | temp_src/pausable_timer.hh:31-37 | A new duration keeps the elapsed time and moves the pending wait along. |
| `PausableTimers.UpdateTimeIff` | temp_src/pausable_timer.hh:38-48 | Setting the remaining time works if and only if the timer is running or nothing has elapsed. |
| `PausableTimers.ClientShowsLastTime` | temp_src/clientside_processor.hh:96-101 | From a fresh timer on, after any list of time updates, a client shows exactly the last one whenever it looks. |
| `PausableTimers.PauseRevivesEndedTimer` | temp_src/pausable_timer.cc:31-47 | An ended timer ignores a start, but paused and started again it is due at once. |
| `PausableTimers.PausableTimer.Start` | temp_src/pausable_timer.cc:38-47 | A running or ended timer stays as it is; any other waits for its remaining time. |
| `PausableTimers.PausableTimer.Pause` | temp_src/pausable_timer.cc:31-36 | Unless already paused, the elapsed time is kept and the wait is cancelled. |
| `PausableTimers.PausableTimer.SetDuration` | temp_src/pausable_timer.hh:31-37 | Sets the duration and re-arms a running timer. |
| `PausableTimers.PausableTimer.UpdateTime` | temp_src/pausable_timer.hh:38-48 | Re-arms a running timer with the given remaining time; otherwise changes the duration. |
| `PausableTimers.PausableTimer.OnStop` | temp_src/pausable_timer.cc:61-70 | A cancelled wait does nothing; a completed one ends the timer and makes the registered callbacks due. |
| `Controllers.Experiment.AddSubject` | temp_src/experiment.hh:27-31 | Ids are dense: the new subject gets the number of subjects before it. |
| `Controllers.Experiment.StartRound` | temp_src/experiment.hh:63-71 | Round 1 from before the experiment, otherwise the next round; running, in the round stage. |
| `Controllers.Experiment.TakeName` | temp_src/experiment.hh:83-85 | Changes that subject's name and nothing else. |
| `Controllers.PeriodAssetProcessor.PayDividend` | temp_src/experiment_command_processor.hh:31-40 | The loop over all portfolios, in any order, pays each exactly once. |
| `Controllers.ExperimentCommandProcessor.StartValidity` | temp_src/experiment_command_processor.hh:194-206 | The verdict on a start, which `Starts.StartAnswered` explains by what happened before it. |
| `Controllers.ExperimentCommandProcessor.ProcessStartExperiment` | temp_src/experiment_command_processor.hh:56-66 | Hands each subject its configured allocation and runs, exactly on an accepted start; throws if and only if a subject has no configuration. |
| `Controllers.ExperimentCommandProcessor.ProcessStartRound` | temp_src/experiment_command_processor.hh:68-75 | Advances the round, keeps the portfolios it starts with, and leaves a timer without callbacks running for round_time from now. |
| `Controllers.ExperimentCommandProcessor.ProcessStartReview` | temp_src/experiment_command_processor.hh:112-118 | Enters the review and leaves a timer without callbacks running for review_time from now. |
| `Controllers.ExperimentCommandProcessor.ProcessStartDividends` | temp_src/experiment_command_processor.hh:106-110 | Pays the dividend configured for the round, or throws if there is no entry for it. |
| `Controllers.ExperimentCommandProcessor.ProcessStartPayouts` | temp_src/experiment_command_processor.hh:136-146 | Throws exactly when a subject lacks a portfolio or a configuration; otherwise every subject has its payoff, the stage is payouts and the counter is zero. |
| `Controllers.PayoffIsFair` | temp_src/experiment_command_processor.hh:138-144 | A payoff is worth no more than cash and margin together, in debts as in gains, and falls short by less than one cent. |
| `PayoffTotals.PayoffsNearMoney` | temp_src/experiment_command_processor.hh:136-146 | At one exchange rate the payoffs of n subjects are worth their cash and margin together, up to n cents. |
| `PayoffTotals.PayoffsAddUp` | temp_src/experiment_command_processor.hh:31-40 | From an accepted start on, whenever they are worked out, all payoffs add up to the configured money plus the dividends paid on the net units, up to a cent a subject. |
| `Controllers.ExperimentCommandProcessor.ProcessReady` | temp_src/experiment_command_processor.hh:161-164 | Counts, and says whether the count is the number of subjects. |
| `Controllers.ExperimentCommandProcessor.ProcessTakeName` | temp_src/experiment_command_processor.hh:166-171 | Names the subject and counts with the same counter. |
| `ServerControllers.ExperimentController.StartExperiment` | temp_src/experiment_controller.hh:22-36 | Leaves the state and sends the messages of the state machine's start, in order, and throws exactly when it does. |
| `ServerControllers.ExperimentController.StartRound` | temp_src/experiment_controller.hh:38-45 | Takes and broadcasts the next round as the state machine does, arms the timer for round_time and broadcasts that time. |
| `ServerControllers.ExperimentController.EndRound` | temp_src/experiment_controller.hh:47-51 | Clears the book, pays, sends each subject its portfolio and opens the review as the state machine does, with the timer armed and broadcast for review_time. |
| `ServerControllers.ExperimentController.StartDividends` | temp_src/experiment_controller.hh:53-63 | Same state, same messages, same failing lookups as the state machine's dividends. |
| `ServerControllers.ExperimentController.EndReview` | temp_src/experiment_controller.hh:73-81 | Another round if there is one, payouts otherwise, as the state machine does. |
| `ServerControllers.ExperimentController.StartPayouts` | temp_src/experiment_controller.hh:93-96 | Same state, same message, same failing lookups as the state machine's payouts. |
| `ServerControllers.ExperimentController.TimerExpired` | temp_src/pausable_timer.cc:61-70 | Runs the callbacks registered at expiry one after the other, which together do what the state machine's expiry does, and to the clock what the clock model says. |
| `ServerControllers.ExperimentController.StartInstructions` | temp_src/experiment_controller.hh:103-114 | Same state and same messages as the state machine's instructions. |
| `ServerControllers.ExperimentController.Ready` | temp_src/experiment_controller.hh:121-127 | Same state and same messages as the state machine's step. |
| `ServerControllers.ExperimentController.TakeName` | temp_src/experiment_controller.hh:129-136 | Same state and same messages as the state machine's step, including the end of the experiment. |
| `ServerControllers.ExperimentController.LoadConfiguration` | temp_src/experiment_controller.hh:138-142 | Replaces the configuration exactly when the file could be read, whatever the stage, and tells the administrators the error or the warnings. |
| `ClientControllers.ClientController.MakeOffer` | temp_src/client_controller.cc:76-82 | A fresh id, and the elapsed milliseconds cast to unsigned. |
| `ClientControllers.ClientController.TakeOffer` | temp_src/client_controller.cc:41-63 | Leaves the state and sends the messages of the state machine's offer, for some sort outcome, throws exactly when it does, and broadcasts the time left exactly after an accepted offer. |
| `ClientControllers.ClientController.TakeBid` | temp_src/client_controller.cc:18-21 | The state machine's offer at the given price, with the next id. |
| `ClientControllers.ClientController.TakeAsk` | temp_src/client_controller.cc:23-26 | The state machine's offer at the negated price, with the next id. |
| `ClientControllers.ClientController.RetractOffer` | temp_src/client_controller.cc:28-39 | Same state and same message as the state machine's retraction, and the time left broadcast exactly after an accepted one. |
| `ClientControllers.ClientController.CreateAsset` | temp_src/client_controller.cc:65-74 | Same state, same messages, same failing lookups as the state machine's creation. |
| `MessageDirectors.MessageDirector.Process` | temp_src/message_director.hh:86-127 | Any request takes the whole object graph through exactly the state machine's step, and its clock through the clock model's, and extends its recorded run by it; it throws exactly when the step does. |
| `MessageDirectors.MessageDirector.ObjectsAreSound` | temp_src/message_director.hh:86-127 | Whatever the objects have processed, their state is sound. |
| `MessageDirectors.MessageDirector.ObjectsConserveWealth` | temp_src/experiment_command_processor.hh:31-40 | The portfolios the objects hold conserve wealth from the start of the experiment on. |
| `MessageDirectors.MessageDirector.ObjectsAreTimely` | temp_src/client_controller.cc:76-82 | If the clock readings have not gone back, no offer the objects have taken came with an earlier time than one then resting. |
| `MessageDirectors.NewControllers` | temp_src/message_director.hh:17-22 | Builds the controllers of a fresh server around the objects they share. |
| `ClientsideProcessors.ClientsideProcessor.ProcessAcceptedOffer` | temp_src/clientside_processor.hh:34-51 | Adds, trades and retracts in the client's order, leaving what the replica's step leaves for some sort outcome. |
| `ClientsideProcessors.ClientsideProcessor.ProcessAcceptedRetraction` | temp_src/clientside_processor.hh:70-75 | Takes the id out of both queues. |
| `ClientsideProcessors.ClientsideProcessor.ProcessRoundStarted` | temp_src/clientside_processor.hh:103-112 | Empties queues and trades, takes the round's configuration and number, and keeps the portfolio it starts with. |
| `ClientsideProcessors.ClientsideProcessor.ProcessTimeUpdate` | temp_src/clientside_processor.hh:96-101 | Pauses the timer and then updates it; a timer never started shows the new time from then on. |
| `ClientsideProcessors.ClientsideProcessor.ProcessMessage` | temp_src/clientside_processor.hh:34-124 | Any message takes the client's objects where the replica's step goes. |

## Left out

- The place of the time updates among the other messages: the broadcast remaining times are kept in a list of their own, and the state machine's messages leave them out. The clock's reading is an argument of the operations that look at it.
- Rounding of payoffs: the exchange rate is a `double` in the source (temp_src/experiment_command_processor.hh:136-146) and a real number here; a rate of zero gives no payoff here. Payoffs are kept beside the subjects and are not part of what is sent to them.
- `Portfolio::Diff` and `GetPortfolioDifference` (temp_src/portfolio.cc:27-37): nothing calls them.
- Fractions of a millisecond: time in the source is a `duration<float>` (temp_src/clock.hh:8) that is cast to whole milliseconds where it is sent or becomes part of an offer; here it is whole milliseconds throughout.
- Pretty printing, console output, sockets, connection lists and the administrator's client: user interface and network plumbing; messages to each client are assumed to arrive complete and in order.
- Text forms of `Subject` and `SubjectConfiguration`: the replica does not act on them.
- Reading JSON, missing or ill-typed values and file errors: the configuration reader starts from the values as lists.
- 32-bit overflow in market arithmetic: prices are limited to 999 on acceptance, but sums, portfolio counts, ids and the cast of times beyond 2^31 are mathematical integers; the casts of the dividend payment are treated in `DividendCast`.
- Undefined behaviour of a round lookup outside the vector (temp_src/configuration.hh:54-56): treated as a failed lookup.
- The iteration order of the map of subjects: ids are visited in ascending order, which changes only the order in which different clients are sent their own messages.
- Portfolios as objects: the source copies them by value into and out of its map, so they are values here.
- Enumeration codes that name no enumerator: a read that meets one fails here, where the source would keep the number.
- Partial values after a failed stream read: a failed read gives no value.
- A cancelled wait that had already completed: a completed wait always belongs to a running timer.
- The `Dividends` and `End` stages: declared by the source, but no controller enters them.
- `OfferQueue` indexing and `pop_back`: not used by the server or the replica.
- MarketRules.ImprovementMakesRising: assumes times that do not decrease; `TimedRuns` derives them from a clock that does not go back, which the source's system clock may.
- Margins.MarginNeverNegative: covering margins are sufficient, not necessary, since a run may create in no round at all.
- Wire.TextReplicaAgrees: assumes that the values sent to that client fit their C++ types, which the model's integers do not by themselves.
- Pause and Resume: no message of temp_src/message_director.hh:86-127 reaches them; they are modelled as requests because the controller offers them (temp_src/experiment_controller.hh:83-91).
- `PausableTimer::Restart`: nothing calls it.
