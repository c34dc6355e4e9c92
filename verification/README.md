# A model of the spot matching engine

This project models the matching core of a spot exchange and proves what it guarantees over whole runs:

- the book (doubly linked price levels with a side index, price-keyed dictionaries, cached best prices),
- `SpotEngine` with the SINGLE, OTO and OCO strategies, its balance checks, escrow and settlement,
- the components that have to agree with it: the order-book publisher, the shadow engine and its
  snapshots, the Lua ledger scripts,
- two small stateful loops: the rate limiter and the OHLC builder.

The engine appears twice. `EngineSpec` describes book, orders, store, ledger and event log as values and
one command as a function on them; matching is the reference "as long as the taker is incomplete, meet the
front of the opposite side". `SpotEngines` is the object the program runs, with its nested loops and in-place
updates; every method is proved to compute the function, exceptions included. What holds of every run is then
proved about the functions. The same split is used for the price level, the book, the publisher, the
balance manager and the shadow.

What one command does is also told without those functions, from the keys of the book, the four balances, the
orders and the log: `Admission` when it crosses and who can pay, `Outcomes` what rests, is stored, asked and
logged, `Encounters` and `Supply` what is traded, `Departures` who leaves and why, `Arrivals` that nobody
overtakes, `Traces` what the log says of fills, `Schedule` which snapshots the shadow takes.

Prices and quantities are exact integers. Balance checks are arbitrary answers in the book proofs and real
arithmetic in the ledger proofs. A step that raises in Python returns `Raised`; claims about runs are about
runs that have not raised. `Raising` says exactly which commands raise with a logger that can encode every
order, and `Logging` what the logger that ships adds: it cannot encode an order of a group, so a New for an OTO
or OCO group of an ordinary user always raises. Results about groups are therefore about groups of the system
user, for whom nothing is logged, or assume a logger that encodes orders without their links.

Where the code departs from its documentation, or from what one would expect, the model follows the code:

- `_match` compares the taker's limit with the best price on entry only. `TradeThrough` proves exactly when a
  limit order is filled beyond its limit, with an example.
- `_release_escrow` says it acts when something was executed; it acts whenever something is unfilled.
  `Releases` says what that does to the ledger: when a cancel gives back the right amount, what it leaves
  otherwise, and that a rejection takes twice the order's value out of escrow.
- The maker check covers the traded quantity, the first fill takes escrow for the whole order.
  `Solvency.MakerOverdrawnIff` says exactly when this overdraws the maker, with an example.
- An order rejected for lack of funds is cancelled by its strategy and reported and released a second time;
  if a level exists on its own side at its own price, the first cancel raises. An OCO leg that has traded
  removes its peer again on its next fill or cancel, which raises if others rest at that level. `Failures`
  has a run for each.
- An OCO leg's callback releases the leg's own remainder on every fill, before the hold and the settlement, so
  the leg holds nothing afterwards and a later cancel takes its remainder out again (`TradeEscrow`, `Releases`).
- After a failed balance check the shadow goes its own way, because its look-ahead does not count balance
  events. `Divergence` says when it notices a failure, `Following` that for ordinary users it is in step exactly
  as long as every check passes.
- A snapshot with an open OTO or OCO order holds a linked order object and cannot be stored; the shadow raises.
- `EngineLoader` never gives a restored context its engine. `Recovery` says when such an engine raises, and
  what recovery achieves for a context that has its engine.
- The break on an unchanged best price never fires: a walked level is gone or the taker is complete.
- The repository's README sketches a script guarded by command id; the scripts are guarded by event id.

## Model

| member | source | states |
|---|---|---|
| `PriceLevels.PriceLevel.Append` | src/engine/orderbook/price_level.py:34-49 | head, tail, links and tracker keep describing one sequence of distinct ids, now with the new id last; a duplicate raises and changes nothing |
| `PriceLevels.PriceLevel.Remove` | src/engine/orderbook/price_level.py:51-67 | exactly the named element goes, the order of the rest stays, the removed node keeps its own `next`; a missing id raises and changes nothing |
| `PriceLevels.CutFacts` | src/engine/orderbook/price_level.py:51-67 | unlinking a node removes exactly its id from the FIFO sequence of ids |
| `PriceLevels.CutShape` | src/engine/orderbook/price_level.py:54-67 | the head, tail and tracker updates of a removal describe the shortened list |
| `PriceLevels.WalkAndRemove` | src/engine/orderbook/orderbook.py:149-157 | a live walk whose body removes any of the orders it has just been handed, and breaks off after any of them, yields the orders present at the start once, in FIFO order, up to the break; what stays is what was not removed, then what was not visited |
| `PriceLevels.WalkInBook` | src/engine/matching_engines/spot_engine.py:167-188 | the same inside the dictionary of one side: the level is walked live, leaves the dictionary once its last order is gone, and no other level changes |
| `OrderBooks.OrderBook.Append` | src/engine/orderbook/orderbook.py:65-91 | the order joins the end of its level and both cached best prices stay equal to the best key of their side |
| `OrderBooks.OrderBook.Remove` | src/engine/orderbook/orderbook.py:93-130 | the order leaves its level, an emptied level leaves the dictionary, cached best prices stay exact; an absent level is ignored, an absent id in a present level raises |
| `OrderBooks.OrderBook.DropLevel` | src/engine/orderbook/orderbook.py:118-130 | an emptied level is dropped and both cached best prices stay exact |
| `OrderBooks.OrderBook.GetOrders` | src/engine/orderbook/orderbook.py:135-157 | the orders of a level in arrival order, none for an absent level |
| `OrderBooks.OrderBook.BestPrice` | src/engine/orderbook/orderbook.py:57-63 | the cached price is the best key of its side |
| `OrderBooks.PeekBest` | src/engine/orderbook/orderbook.py:119-128 | the end of the sorted keys that no other key beats, None exactly for no keys |
| `OrderBooks.BestAfterDrop` | src/engine/orderbook/orderbook.py:118-130 | the runner-up rule gives the maximum or minimum of the remaining keys, None exactly when none is left |
| `OrderBooks.BestAfterAppend` | src/engine/orderbook/orderbook.py:82-91 | the comparison on append gives the best key of the enlarged side and leaves the other side alone |
| `BookModel.BestExists` | src/engine/orderbook/orderbook.py:57-63 | a side has a best price as soon as it has a level, and no level beats it |
| `BookModel.AppendEffect` | src/engine/orderbook/orderbook.py:65-91 | exactly one pair of level and id is added, levels stay non-empty and duplicate-free |
| `BookModel.RemoveEffect` | src/engine/orderbook/orderbook.py:93-130 | removal succeeds if and only if the level is absent or holds the id, and then removes exactly that pair and no empty level remains |
| `SpotEngines.SpotEngine.HandleCommand` | src/engine/matching_engines/spot_engine.py:65-118 | the object ends in the state, or raises the exception, that the specification gives for the command, and keeps the whole-state invariant |
| `SpotEngines.SpotEngine.SubmitOrder` | src/engine/strategies/single_strategy.py:12-64 | a new order that does not cross rests, one that crosses is checked, then matched and its remainder rested, or rejected |
| `SpotEngines.SpotEngine.MatchOrRest` | src/engine/strategies/single_strategy.py:30-64 | writing back the matched quantity changes nothing; a complete order is dropped, the rest of any other is placed |
| `SpotEngines.SpotEngine.PlaceOrder` | src/engine/strategies/single_strategy.py:51-64 | the order joins the end of its level, what is to be stored with it joins the store, and an ordinary owner is told that it was placed |
| `SpotEngines.SpotEngine.RejectOrder` | src/engine/strategies/single_strategy.py:34-46 | the strategy's cancel followed by a second event and a second release, or the cancel's exception |
| `SpotEngines.SpotEngine.NewOtoOrder` | src/engine/strategies/oto_strategy.py:11-75 | the parent enters like a single order, its inactive child is stored with it when it rests |
| `SpotEngines.SpotEngine.NewOcoOrder` | src/engine/strategies/oco_strategy.py:11-43 | both legs rest without being matched |
| `SpotEngines.SpotEngine.MatchTaker` | src/engine/matching_engines/spot_engine.py:157-200 | equals the reference sweep; SUCCESS if and only if the taker is complete, FAILURE if and only if nothing was filled, anything but SUCCESS leaves the opposite side empty |
| `SpotEngines.SpotEngine.MatchLevels` | src/engine/matching_engines/spot_engine.py:158-190 | the outer loop terminates with the opposite side's resting orders as measure and performs the whole sweep |
| `SpotEngines.SpotEngine.WalkLevel` | src/engine/matching_engines/spot_engine.py:167-188 | the inner loop over the level captured at its start performs part of the sweep and uses up the level or completes the taker |
| `SpotEngines.SpotEngine.MeetMaker` | src/engine/matching_engines/spot_engine.py:168-188 | one maker is checked for the traded quantity and then traded with or cancelled |
| `SpotEngines.BestIsNew` | src/engine/matching_engines/spot_engine.py:164-165 | the best price after walking a level is never that level's price again, so the guard never breaks the loop |
| `SpotEngines.SpotEngine.ProcessTrade` | src/engine/matching_engines/spot_engine.py:235-350 | events, fills, strategy callbacks, retirement, escrow and settlement happen as specified and in order, or the callback's exception comes out |
| `SpotEngines.SpotEngine.RecordFills` | src/engine/matching_engines/spot_engine.py:250-285 | two trade events, two fills and two fill events, taker first |
| `SpotEngines.SpotEngine.RetireMaker` | src/engine/matching_engines/spot_engine.py:292-294 | a completed maker leaves book and store |
| `SpotEngines.SpotEngine.SettleTrade` | src/engine/matching_engines/spot_engine.py:296-350 | first-fill escrow of maker then taker, then settlement of taker then maker |
| `SpotEngines.SpotEngine.LogFill` | src/engine/matching_engines/spot_engine.py:352-368 | an order whose executed quantity is its quantity is reported as filled, any other as partially filled, nothing for the system user |
| `SpotEngines.SpotEngine.HandleFilled` | src/engine/strategies/oco_strategy.py:45-61 | the reaction of the order's strategy to a fill, for all three strategies |
| `SpotEngines.SpotEngine.ActivateChild` | src/engine/strategies/oto_strategy.py:81-98 | the child of a completed parent is activated, logged, booked and stored |
| `SpotEngines.SpotEngine.HandleCancel` | src/engine/strategies/oto_strategy.py:100-146 | the cancel of the order's strategy, for all three strategies |
| `SpotEngines.SpotEngine.CancelOne` | src/engine/strategies/single_strategy.py:74-87 | one order leaves the book, the group leaves the store, its escrow is released |
| `SpotEngines.SpotEngine.CancelLegs` | src/engine/strategies/oco_strategy.py:63-92 | both legs leave book and store, only the cancelled leg's escrow is released |
| `SpotEngines.SpotEngine.CancelStored` | src/engine/matching_engines/spot_engine.py:101-118 | an id not in the store is ignored, any other is cancelled by its strategy |
| `SpotEngines.SpotEngine.CheckSufficientBalance` | src/engine/matching_engines/spot_engine.py:202-233 | yes for the system user; for anybody else yes if and only if the four balances cover the trade; missing balances are left seeded |
| `SpotEngines.SpotEngine.ReleaseEscrow` | src/engine/matching_engines/spot_engine.py:370-391 | releases the value of the unfilled quantity whenever there is any |
| `SpotEngines.SpotEngine.IsMatchable` | src/engine/utils.py:16-25 | from the cached best price: true if and only if some level of the other side, for a stop order every level, lets the order cross |
| `Admission.CrossesIffReaches` | src/engine/utils.py:16-25 | comparing with the best price asks about the keys of the book: a limit order crosses if and only if some price of the other side is within its limit, a stop order if and only if the other side is not empty and no price there is beyond it |
| `Admission.AnswerIffCanPay` | src/engine/matching_engines/spot_engine.py:202-233 | the system user passes; an ordinary user passes if and only if cash (10,000 if never stored) less escrowed cash covers quantity times price, or asset less escrowed asset the quantity |
| `Invariants.TradeKeeps` | src/engine/matching_engines/spot_engine.py:274-294 | a trade keeps the invariant of book, store, orders and groups; taker and maker are filled by the same amount, nobody else is, and while the taker is incomplete the maker leaves its side and nobody joins it |
| `Invariants.CancelKeeps` | src/engine/strategies/oto_strategy.py:100-146 | a cancel keeps the invariant for all strategies and changes no order |
| `Invariants.ActivateKeeps` | src/engine/strategies/oto_strategy.py:77-98 | placing the child of a completed parent keeps the invariant and cannot raise |
| `Matching.SweepKeeps` | src/engine/matching_engines/spot_engine.py:157-200 | matching keeps the invariant and ends only when the taker is complete or the opposite side is empty |
| `Runs.HandleKeeps` | src/engine/matching_engines/spot_engine.py:65-118 | every admissible command keeps the invariant whatever the balance checks answer; orders never lose fills |
| `Runs.RunKeeps` | src/engine/matching_engines/spot_engine.py:65-118 | the invariant holds after every run that has not raised |
| `Outcomes.UnreachedRests` | src/engine/strategies/single_strategy.py:22-64 | the whole state after a SINGLE order or OTO parent that does not reach the other side: nobody is asked, no order is filled, it stands last in its level, is stored with its child, and is told to an ordinary owner |
| `Outcomes.EntryAsked` | src/engine/matching_engines/spot_engine.py:139-155 | an order is asked on entry if and only if it reaches the other side, first of all and for its whole quantity at its own price, and answered by the four balances |
| `Outcomes.RemainderRests` | src/engine/strategies/single_strategy.py:30-64 | whatever an order that is not turned away trades on entry: it rests and is stored if and only if something of it is left; then it stands last in its level, what waits on it is stored, and an ordinary owner is told so last of all |
| `Outcomes.TurnedAwayLeavesNothing` | src/engine/strategies/single_strategy.py:34-46 | an order whose entry check fails, and its child, stay unfilled and in neither book nor store; nothing else changes but two events and two releases |
| `Outcomes.LegsRest` | src/engine/strategies/oco_strategy.py:11-43 | the whole state after a New for OCO: both legs stand last in their levels, are stored and told to an ordinary owner; nobody is asked |
| `Outcomes.CancelLeaves` | src/engine/matching_engines/spot_engine.py:101-118 | a Cancel of an id that is not stored does nothing; any other takes exactly the group's orders out of book and store, changes no order, and logs exactly their cancellations and one release |
| `Encounters.FirstMakerMet` | src/engine/matching_engines/spot_engine.py:167-188 | a new order that is let in meets the oldest order at the price no other is ahead of; that one is asked for what both can still trade at its own price, answered by the four balances, and gives exactly that or nothing |
| `Supply.TakesWhatIsOffered` | src/engine/matching_engines/spot_engine.py:157-200 | with no OCO leg in the book, an order all of whose checks pass trades on entry exactly the lesser of its quantity and all that rests on the other side |
| `Departures.LeavesForAReason` | src/engine/matching_engines/spot_engine.py:65-118 | an order that rested before a command and does not after it is complete, or its OCO peer was filled, or its cancellation was logged, or it is the system user's and what the command cancelled |
| `Departures.ChildComesToRest` | src/engine/strategies/oto_strategy.py:77-98 | a child activated by a command belongs to a completed parent and ends that command at rest, unfilled, stored, and told to an ordinary owner |
| `Arrivals.ArrivalOrderKept` | src/engine/orderbook/price_level.py:34-67 | over any stretch of any run, whoever stands in front of an order that was in the same level before stood in front of it then: nobody overtakes, and newcomers stand behind all who stayed |
| `Traces.FillsAreReported` | src/engine/matching_engines/spot_engine.py:352-368 | after every run from the empty engine the trade events of an ordinary user's order are its fills, quantity and price, in order; each fill has one fill event, partial but for the one that completes the order; so ORDER_FILLED was logged if and only if it is complete |
| `Traces.OthersAreNotMentioned` | src/engine/decorators.py:4-15 | no trade or fill event names an order of the system user or an id that no order has |
| `Traces.TradeIsTold` | src/engine/matching_engines/spot_engine.py:249-350 | the exact events of a trade between SINGLE orders, in order: trades, fills, first-fill escrow of maker and taker for the whole order, settlement of taker and maker |
| `Raising.HandleRaisesIff` | src/engine/matching_engines/spot_engine.py:65-118 | with a logger that encodes every order, exactly when a command raises, whatever groups are in the book: a rejected order finds a level on its own side at its own price, or matching comes to a maker that trips, or a tripping leg is cancelled; a New for OCO does not raise |
| `Logging.ShippedRaisesIff` | src/engine/loggers/engine_logger.py:115-162 | with the logger that ships, in any state in which the groups belong to the system user, a command raises if and only if it is a New for an OTO or OCO group of an ordinary user or raises anyway, and otherwise does the same |
| `Logging.ShippedRunRaisesIff` | src/engine/loggers/engine_logger.py:115-162 | over whole runs from the empty engine: such a run succeeds if and only if it holds no group of an ordinary user and succeeds with a logger that encodes everything; then the groups all belong to the system user |
| `Logging.GroupIsMentioned` | src/engine/orders/order.py:57-70 | however a group of an ordinary user fares, an event with the fields of one of its orders, which hold a linked order object, has to be logged |
| `Logging.HandleOwned` | src/engine/decorators.py:4-15 | every order event is about an order of an ordinary user |
| `Raising.CancelRaisesIff` | src/engine/strategies/oco_strategy.py:63-92 | cancelling a resting order raises if and only if it is an OCO leg that has traded and others rest at its peer's level |
| `Raising.TradeRaisesIff` | src/engine/strategies/oco_strategy.py:45-61 | a trade raises if and only if the maker is such a leg, or the child that the completed OTO taker places makes it one |
| `Raising.SingleTradeRaisesIff` | src/engine/strategies/oco_strategy.py:45-61 | for a SINGLE taker the condition is that of a cancel |
| `Raising.SweepRaisesIff` | src/engine/matching_engines/spot_engine.py:157-200 | matching raises if and only if it comes to a maker that trips in the state it has reached |
| `Raising.CancelCommandRaisesIff` | src/engine/matching_engines/spot_engine.py:101-118 | a Cancel command raises if and only if the id is stored and is a leg that trips |
| `Failures.OcoCancelRaises` | src/engine/strategies/oco_strategy.py:45-92 | a run from the empty engine, its group owned by the system user: a leg trades in part, somebody rests where its peer was, the cancel of the leg raises |
| `Failures.OtoChildRaises` | src/engine/matching_engines/spot_engine.py:144-153 | a run of SINGLE and OTO commands, its group owned by the system user: an activated child crosses the book, and a bid at an occupied price whose owner cannot pay raises |
| `Safety.HandleRaisesIffNoOco` | src/engine/matching_engines/spot_engine.py:144-153 | while no OCO leg rests, and with a logger that encodes every order, a SINGLE, OTO or Cancel command raises if and only if the new order crosses, fails its entry check and finds a level on its own side at its own price |
| `Safety.SweepNeverRaises` | src/engine/matching_engines/spot_engine.py:157-200 | while no OCO leg rests, matching never removes a missing id |
| `PlainRuns.PlainRunsAreSafe` | src/engine/strategies/single_strategy.py:12-87 | every run of New and Cancel for SINGLE LIMIT orders is free of exceptions under any balance answers, and every bid stays below every ask |
| `PlainRuns.BestBidBelowBestAsk` | src/engine/utils.py:16-19 | after every run of SINGLE LIMIT commands the best bid, if any, is below the best ask, if any |
| `Priority.SweepPriority` | src/engine/matching_engines/spot_engine.py:157-200 | for a SINGLE taker, while no OCO leg rests, under any answers: the makers met are a prefix of the opposite side by price, then arrival; each is filled up or cancelled untouched, except that the last may stay partly filled once the taker is complete; an incomplete taker has exhausted the side; nobody else is filled; the taker gets exactly what the makers give |
| `Priority.QueuePop` | src/engine/orderbook/orderbook.py:135-157 | removing the oldest order at the best price takes exactly the head off the price-time queue |
| `Priority.QueueMembers` | src/engine/orderbook/orderbook.py:135-157 | the price-time queue of a side lists exactly the orders resting there |
| `Groups.OtoGroups` | src/engine/strategies/oto_strategy.py:11-146 | in every reachable state a child rests only if active, is active exactly when its parent is fully filled, and waits in the store exactly while its parent rests |
| `Groups.StoreContents` | src/engine/strategies/oto_strategy.py:63-98 | the store holds exactly the resting orders and the inactive children of resting parents |
| `Groups.OcoExclusion` | src/engine/strategies/oco_strategy.py:11-92 | in every reachable state at most one leg has traded, and then the other is in neither book nor store |
| `Groups.OcoForever` | src/engine/strategies/oco_strategy.py:45-61 | once a leg has traded, its peer never trades, rests or is stored at any later point of the run |
| `Groups.ExecutedWithinQuantity` | src/engine/orders/order.py:84-88 | executed quantity is the sum of the fills and never exceeds the quantity |
| `TradeThrough.SweepTradesThroughIff` | src/engine/matching_engines/spot_engine.py:162-190 | while no OCO leg rests, under any answers, a SINGLE or OTO taker is filled beyond its limit if and only if the makers whose checks pass offer less than it wants within the limit and one of them lies beyond |
| `TradeThrough.LetTradeExists` | src/engine/matching_engines/spot_engine.py:162-190 | for every such sweep the makers whose checks pass form a well-defined set, because each maker is met once |
| `TradeThrough.TradesThroughIff` | src/engine/strategies/single_strategy.py:21-49 | the same for a whole New command while no OCO leg rests: exactly if the order crosses, passes its entry check and the side runs dry within its limit |
| `TradeThrough.LimitNotRespected` | src/engine/matching_engines/spot_engine.py:162-190 | a run of three commands in which a buyer at no more than 100 pays 200 |
| `Solvency.MakerOverdrawnIff` | src/engine/matching_engines/spot_engine.py:179-180 | for a passing maker of any strategy: its available balance drops by the escrow of its whole order on the first fill and by nothing later, rises by what an OCO leg frees and by the proceeds of trading with itself, and turns negative if and only if that does not cover the whole order |
| `Solvency.MakerCanBeOverdrawn` | src/engine/matching_engines/spot_engine.py:296-307 | a run of two commands that leaves a user with the default balance at minus 10,000 available |
| `Publisher.OrderBookPublisher.HandleOrderPlaced` | src/services/orderbook_publisher/service.py:189-214 | an open remainder is added to its level and listed, anything else is ignored |
| `Publisher.OrderBookPublisher.HandleOrderCancelled` | src/services/orderbook_publisher/service.py:216-230 | a listed order is dropped with its remainder, an unknown one ignored |
| `Publisher.OrderBookPublisher.HandleTrade` | src/services/orderbook_publisher/service.py:232-254 | a listed maker gives up the traded quantity and is dropped when nothing is left |
| `Publisher.OrderBookPublisher.DecrementLevel` | src/services/orderbook_publisher/service.py:256-262 | a level is lowered and dropped when nothing is left, an absent one ignored |
| `Publisher.OrderBookPublisher.Consume` | src/services/orderbook_publisher/service.py:124-135 | the consumer loop folds the whole stream |
| `PublishedDepth.PublisherAgrees` | src/services/orderbook_publisher/service.py:189-262 | after every run, folding the engine's log gives at each side and price exactly the quantity ordinary users have resting there, and no other levels |
| `PublishedDepth.ListedIffResting` | src/services/orderbook_publisher/service.py:189-254 | an order is listed with its exact remainder if and only if it rests |
| `Accounting.BalancesExplained` | src/engine/matching_engines/spot_engine.py:274-350 | after every run each of a user's four balances equals its start plus the default grant, plus what the fills of the user's orders account for (escrow: quantity times limit minus value filled, for orders with a fill), minus the logged releases |
| `Accounting.TradeBalances` | src/engine/matching_engines/spot_engine.py:296-350 | one trade, strategy callbacks included, keeps that law exactly |
| `Conservation.RunBalanced` | src/engine/matching_engines/spot_engine.py:278-279 | over all orders ever entered, cash flows and asset flows each sum to zero |
| `Conservation.TotalsConserved` | src/engine/decorators.py:4-15 | ordinary users' total cash changes only by default grants and by what the system user traded, their total asset only by the opposite quantity |
| `Escrow.MakersFilledAtLimit` | src/engine/matching_engines/spot_engine.py:163-188 | in every run each fill of an ordinary user's order that never took, and of every OCO leg, was at the order's own price |
| `Escrow.MakerHoldsRemainder` | src/engine/matching_engines/spot_engine.py:297-350 | in every run a SINGLE or OTO order filled only as maker holds exactly the value of its remainder, nothing when complete; an OCO leg holds nothing after its first fill and a negative amount after any other |
| `Escrow.HeldIs` | src/engine/matching_engines/spot_engine.py:296-350 | from its first fill on a SINGLE or OTO order holds its unfilled part and, for a bid, the sum of what each fill saved against the limit; an OCO leg holds what its fills saved, less its unfilled part before each fill but the first; before the first fill nothing is held |
| `TradeEscrow.TradeMovesEscrow` | src/engine/matching_engines/spot_engine.py:287-350 | on the ledger a trade moves the escrow of each ordinary party by exactly the change in what its order holds, for every strategy |
| `TradeEscrow.LegFillMovesEscrow` | src/engine/strategies/oco_strategy.py:45-61 | on the ledger the first fill of an OCO leg leaves its owner's escrow as it was, and every later fill takes out the leg's whole unfilled part |
| `Escrow.ImprovementStaysInEscrow` | src/engine/matching_engines/spot_engine.py:309-350 | after every run in which all orders of a user are complete, the user's cash escrow is its start plus everything the user's bids saved, minus logged releases |
| `Releases.CancelMovesEscrow` | src/engine/matching_engines/spot_engine.py:370-391 | a Cancel command lowers the owner's escrow by the unfilled part of the order and moves nothing else in the ledger, filled before or not |
| `Releases.CancelLeavesBehind` | src/engine/matching_engines/spot_engine.py:370-391 | against what the order holds: a never-filled order leaves minus its whole value, a filled one leaves what its fills saved, less what the callback of an OCO leg had already released |
| `Releases.CancelGivesBackIff` | src/engine/matching_engines/spot_engine.py:370-391 | on the ledger a Cancel command gives back exactly what the order holds if and only if it has traded and its fills saved as much as its callback released; for SINGLE and OTO within the limit that means a bid's fills were all at the limit, and an OCO leg, always filled at its limit, never gets the right amount |
| `Releases.RejectionReleasesTwice` | src/engine/strategies/single_strategy.py:34-46 | a SINGLE or OTO order rejected for lack of funds moves its owner's escrow by minus twice its value |
| `Releases.CancelUnfilledGoesNegative` | src/engine/matching_engines/spot_engine.py:370-391 | a run of two commands after which a user's cash escrow is -20,000 |
| `Releases.RejectionGoesNegative` | src/engine/matching_engines/spot_engine.py:144-151 | a run of two commands in which a rejection leaves a cash escrow of -40,000 |
| `Scripts.Idempotent` | src/engine/services/balance_manager.py:40-125 | for any deliveries with one amount per event id, every value ends as its start plus the amounts of the distinct new ids, every log as its start plus those ids |
| `Scripts.AnyOrder` | src/engine/services/balance_manager.py:40-125 | two delivery lists with the same members leave the same values and logs |
| `Scripts.RetryChangesNothing` | src/engine/services/balance_manager.py:40-49 | delivering anything again, however late, changes nothing |
| `Scripts.SettlementRetried` | src/engine/services/balance_manager.py:63-125 | a whole settlement script run again after any other traffic changes nothing |
| `BalanceManagers.BalanceManager.RunUpdate` | src/engine/services/balance_manager.py:40-49 | one guarded update and the value it returns |
| `BalanceManagers.BalanceManager.IncreaseCashEscrow` | src/engine/services/balance_manager.py:275-295 | adds to the user's cash escrow as the ledger specifies |
| `BalanceManagers.BalanceManager.DecreaseCashEscrow` | src/engine/services/balance_manager.py:297-316 | takes from the user's cash escrow as the ledger specifies |
| `BalanceManagers.BalanceManager.IncreaseAssetEscrow` | src/engine/services/balance_manager.py:360-379 | adds to the user's asset escrow as the ledger specifies |
| `BalanceManagers.BalanceManager.DecreaseAssetEscrow` | src/engine/services/balance_manager.py:381-400 | takes from the user's asset escrow as the ledger specifies |
| `BalanceManagers.BalanceManager.SettleBid` | src/engine/services/balance_manager.py:458-511 | moves escrow, cash and asset of the buyer as the ledger specifies and leaves the buyer's available cash unchanged |
| `BalanceManagers.BalanceManager.SettleAsk` | src/engine/services/balance_manager.py:402-456 | moves escrow, asset and cash of the seller as the ledger specifies and leaves the seller's available asset unchanged |
| `BalanceManagers.BalanceManager.GetAvailableCashBalance` | src/engine/services/balance_manager.py:193-214 | balance minus escrow, after storing the default of 10,000 and zero for missing keys |
| `BalanceManagers.BalanceManager.GetAvailableAssetBalance` | src/engine/services/balance_manager.py:216-231 | balance minus escrow, after storing zero for missing keys |
| `Replay.HandleMirrors` | src/engine/engine_orchestrator/engine_shadow.py:165-184 | an engine whose stub says yes repeats a command whose checks all passed, from an equal core to an equal core |
| `Determinism.RunDetermined` | src/engine/matching_engines/spot_engine.py:65-200 | core after any run depends only on starting core, commands and balance answers: if one run's answers continue the other's, the answers and the cores are the same |
| `Determinism.RunAlike` | src/engine/orders/order.py:109-119 | two cores that differ only in their orders' fills stay so through any run, under the same balance answers |
| `Shadow.CommandFollowed` | src/engine/engine_orchestrator/engine_shadow.py:116-135 | with the batch of events the main engine emitted, the look-ahead stub repeats a passing SINGLE, OTO or Cancel command exactly |
| `Shadow.ShadowFollows` | src/engine/engine_orchestrator/engine_shadow.py:107-135 | over every passing SINGLE/OTO run the shadow raises if and only if a snapshot comes due while an order of a group is open; otherwise it ends with the main engine's core, and each snapshot is the main engine's core right after the command whose offset it carries |
| `Shadow.ShadowFollowsSingles` | src/engine/engine_orchestrator/engine_shadow.py:107-135 | a passing run of SINGLE commands is followed to the end |
| `Schedule.SnapshotsOnSchedule` | src/engine/engine_orchestrator/engine_shadow.py:124-133 | after n commands of a passing run there are n / k snapshots, k the interval, and the j-th, counted from one, holds the main engine's core after j * k commands and the offset of the last of them |
| `Schedule.ShadowRaisesIff` | src/engine/engine_orchestrator/engine_shadow.py:186-201 | the shadow of a passing run raises if and only if after some multiple of k commands an order of a group is stored |
| `Schedule.MarksMustMatch` | src/engine/engine_orchestrator/engine_shadow.py:116-135 | a completion mark raises TypeError if no command is open and ValueError if another one is, a command being open if only log events have followed it |
| `Schedule.BatchIsSinceReceived` | src/engine/engine_orchestrator/engine_shadow.py:116-135 | the batch ends with exactly what was logged since the open command was received and is empty while none is open |
| `Divergence.EntryFailureMissed` | src/engine/engine_orchestrator/engine_shadow.py:177-184 | in every state the stub answers yes for an ordinary user's SINGLE order or OTO parent that fails its entry check, and the shadow's core then differs from the main engine's |
| `Divergence.FirstMakerFailureDiverges` | src/engine/engine_orchestrator/engine_shadow.py:177-184 | while no OCO leg rests the same holds, for any taker, when the first maker fails its check |
| `Divergence.FailureSeenIff` | src/engine/engine_orchestrator/engine_shadow.py:177-184 | after any number of makers that passed on both sides the shadow notices the first failure if and only if the command had logged exactly one balance event before it |
| `Divergence.FollowedIffSameAnswers` | src/engine/engine_orchestrator/engine_shadow.py:177-184 | for any taker, while no OCO leg rests: two engines with the same core handle a New command to the same core only if their balance checks answer the same |
| `Following.CommandFollowedIff` | src/engine/engine_orchestrator/engine_shadow.py:177-184 | for every SINGLE or OTO order of an ordinary user and every Cancel, while no OCO leg rests: the shadow does not raise, and reaches the main engine's core if and only if every balance check of the main engine passed |
| `Following.ShadowInStepIff` | src/engine/engine_orchestrator/engine_shadow.py:107-135 | over every run of such commands a shadow that has not raised holds the main engine's core if and only if every balance check so far passed; after the first failure the cores have parted for good |
| `Following.PlainShadowInStepIff` | src/engine/engine_orchestrator/engine_shadow.py:107-135 | over every run of SINGLE LIMIT commands of ordinary users from the empty engine the shadow never raises, and the same equivalence holds |
| `Departed.HandleKeepsGone` | src/engine/stores/order_store.py:11-19 | an active order in neither book nor store stays so through every command and is never filled again |
| `Divergence.ShadowDiverges` | src/engine/engine_orchestrator/engine_shadow.py:107-135 | after any passing run of SINGLE commands, one SINGLE order rejected on entry leaves the shadow with another core and without an exception |
| `Divergence.ShadowDivergesOnce` | src/engine/engine_orchestrator/engine_shadow.py:177-184 | one such run of two commands from the empty engine |
| `EngineShadows.EngineShadow.Run` | src/engine/engine_orchestrator/engine_shadow.py:104-135 | the event loop computes the specified consumption of the queue, raising on a mismatched or unannounced completion |
| `EngineShadows.EngineShadow.Step` | src/engine/engine_orchestrator/engine_shadow.py:113-135 | one queue event: a command is remembered, replayed when completed, other events are batched while one is pending |
| `EngineShadows.EngineShadow.Replay` | src/engine/engine_orchestrator/engine_shadow.py:124-133 | the command runs on the patched engine, the batch is reset, and a snapshot is taken whenever one is due, which `Schedule` puts in numbers |
| `EngineShadows.EngineShadow.TakeSnapshot` | src/engine/engine_orchestrator/engine_shadow.py:186-201 | the context is stored with the command's offset, or storing raises TypeError because a linked order cannot be encoded |
| `EngineShadows.PassingIsReplayable` | src/engine/engine_orchestrator/engine_shadow.py:107-135 | the queue of a passing run asks the shadow for admissible commands only |
| `EngineShadows.Follow` | src/engine/engine_orchestrator/engine_shadow.py:104-135 | the shadow object, fed the queue of a passing run of SINGLE commands, ends with the main engine's core |
| `Orchestrator.ParseMessage` | src/engine/engine_orchestrator/engine_orchestrator.py:130-152 | a message is a command for this engine if and only if its last category header says so and its last symbol header names the engine's symbol |
| `Orchestrator.LastHeadersDecide` | src/engine/engine_orchestrator/engine_orchestrator.py:130-152 | a message is for the engine if and only if the header with the greatest index among the categories says command and the one among the symbols names the engine's |
| `Orchestrator.SeekSkipsExactly` | src/engine/engine_orchestrator/engine_orchestrator.py:60-64 | reading from one past a command's offset gives exactly the commands after it |
| `Recovery.LoadedRaisesIff` | src/engine/restoration/engine_loader.py:55-64 | an engine as the loader builds it, whose context has no engine, raises on its next command if and only if that command crosses or cancels a stored order |
| `Recovery.LoadedRunRaisesIff` | src/engine/restoration/engine_loader.py:55-64 | over a whole run it survives if and only if no command does so in the ordinary run from the snapshot, and then its core is the ordinary one up to fills |
| `Recovery.LoadedCannotCancel` | src/engine/restoration/engine_loader.py:55-64 | one input: a resting bid that the loaded engine cannot cancel and the snapshotted one can |
| `Recovery.SnapshotResumes` | src/engine/engine_orchestrator/engine_orchestrator.py:53-84 | an engine loaded from a snapshot of SINGLE orders and given to its context, fed from one past the snapshot's offset, reaches the same book, store and order fields as the full log, if its checks are answered as the original ones |
| `Recovery.StaleCopyReleasesMore` | src/engine/execution_context.py:42-58 | the store's own copy of a loaded order makes a cancel release too much by exactly the value filled since the snapshot |
| `Recovery.CopiesLagBehind` | src/engine/execution_context.py:42-58 | the store's copies keep the terms of their orders and never lead them in fills |
| `Snapshots.LevelRoundTrip` | src/engine/orderbook/price_level_node.py:28-50 | reading back the nested dictionary of a level gives the same ids in the same order and every field but the fills |
| `Snapshots.NodeToDict` | src/engine/orderbook/price_level_node.py:28-36 | the recursion along `next` writes the queue from this node on |
| `Snapshots.NodeFromDict` | src/engine/orderbook/price_level_node.py:38-50 | builds new, distinct nodes whose `prev` and `next` chain the stored queue onto the given predecessor |
| `Snapshots.LevelToDict` | src/engine/orderbook/price_level.py:69-75 | following the `next` links writes exactly the level's queue |
| `Snapshots.LevelFromDict` | src/engine/orderbook/price_level.py:77-96 | rebuilds new nodes whose head, tail, back-links and tracker all describe the stored queue |
| `Snapshots.LevelThroughDict` | src/engine/orderbook/price_level.py:69-96 | a level written out and read back is a well-formed list of new nodes with the same queue |
| `Snapshots.BookToDict` | src/engine/orderbook/orderbook.py:159-173 | the dictionary shows exactly the book's levels, queues and best prices |
| `Snapshots.BookFromDict` | src/engine/orderbook/orderbook.py:175-208 | a dictionary of a well-formed book gives a valid book with those levels and orders |
| `Snapshots.BookThroughDict` | src/engine/orderbook/orderbook.py:159-208 | a book written out and read back is well-formed with the same levels, queues, best prices and order fields |
| `RateLimits.RateLimiter.Request` | src/api/middlewares/rate_limit_middleware.py:14-38 | anything but HTTP is passed on unseen; an HTTP request without a host is refused, any other is decided and recorded for its host alone; a refusal leaves the record |
| `RateLimits.SlidingBound` | src/api/middlewares/rate_limit_middleware.py:25-36 | for a clock that does not run backwards, at most k+1 times the limit is accepted in any half-open interval of k windows |
| `RateLimits.TwiceTheLimit` | src/api/middlewares/rate_limit_middleware.py:25-36 | at most twice the limit in any interval of one window, from a host's first request on |
| `RateLimits.TwiceIsReached` | src/api/middlewares/rate_limit_middleware.py:25-36 | for every limit and window length there is a sequence of requests of which twice the limit are accepted within one window |
| `RateLimits.RefusedOnlyIfBusy` | src/api/middlewares/rate_limit_middleware.py:25-36 | for a clock that starts at zero or later and does not run backwards, a request is let through whenever fewer than the limit were let through within the window's length before it |
| `Ohlc.OhlcBuilder.HandleTradeEvent` | src/services/ohlc_builder/service.py:85-130 | every timeframe's bar takes the trade; an event without price or timestamp changes nothing |
| `Ohlc.OhlcBuilder.RollBar` | src/services/ohlc_builder/service.py:158-166 | the bar starts one period later, its open, high, low and close are the last close, and no other timeframe changes |
| `Ohlc.BarSummarisesLastRun` | src/services/ohlc_builder/service.py:85-130 | without rolls a bar is first, maximum, minimum and last of the longest run of complete events at the end that falls into the last one's bucket, and there is none exactly if no event was complete |
| `Ohlc.BarsStayWellFormed` | src/services/ohlc_builder/models.py:12-17 | with rolls interleaved anywhere, low and high enclose open and close and the timestamp stays a multiple of the timeframe |
| `Ohlc.ClosesAtLastPrice` | src/services/ohlc_builder/service.py:85-166 | with rolls anywhere, there is a bar if and only if there was a complete event, and it closes at the last one's price |
| `Ohlc.RolledBarIsFlat` | src/services/ohlc_builder/service.py:158-166 | right after a roll open, high, low and close are the last complete event's price and the bar starts one period later |
| `Ohlc.TradeAfterRoll` | src/services/ohlc_builder/service.py:85-130 | the next complete event falls into the bar's period; in the period the roll opened, the bar still opens at the price before the roll, in any other it starts afresh |

## Left out

- Order modification, OTOCO groups and MARKET orders: not modelled; a command is a New for SINGLE, OTO or OCO, or a Cancel.
- The current market price (`set_price`, `cur_price`) and the average fill price: nothing modelled depends on them.
- Binary floating point: prices and quantities are exact integers, so the publisher's threshold of 1e-8 reads as zero.
- Kafka, Redis clients, HTTP, sockets, heartbeat, database handlers, JSON and UUIDs: events are records with fresh ids, the clock is a parameter.
- Delivery of the two event topics: the publisher is fed the log in the order in which the engine emitted it.
- Seeded liquidity: its orders belong to the system user, for whom nothing is logged, so published depth is that of ordinary users.
- State after an exception: the engine process ends, so a raising method promises nothing about its state.
- SpotEngines.SpotEngine.HandleCommand: asks for what the API guarantees of a command (fresh ids, positive price and quantity, an OTO child on the other side, one user per group) and for OCO legs at two different levels, which the API does not enforce; two legs at one level are not modelled.
- OrderBooks.OrderBook.Append: a level is the FIFO sequence that `PriceLevels` shows the linked list to be; node objects are not shared between the two modules.
- OrderBooks.OrderBook.GetOrders: returns the level's queue as it is at the call; the generator over live nodes is in `PriceLevels`.
- SpotEngines.SpotEngine.WalkLevel: iterates over the level as it was at entry; `PriceLevels.WalkInBook` shows that walking the live nodes of a level in the dictionary, with removals and a break, yields that same sequence.
- Publisher.OrderBookPublisher.HandleOrderPlaced: an order has one price here; the program prefers the limit price of a STOP order that carries both, while the book keys it by its stop price.
- Raising.HandleRaisesIff: assumes a logger that encodes every order; `Logging.ShippedRaisesIff` is for the one that ships.
- SpotEngines.SpotEngine.NewOtoOrder: assumes such a logger too; for an ordinary user the program raises TypeError when it logs the order.
- SpotEngines.SpotEngine.NewOcoOrder: assumes such a logger too; for an ordinary user the program raises TypeError when it logs the first leg.
- Priority.SweepPriority: a SINGLE taker; the child of an OTO taker joins the makers' side when the taker is complete.
- Shadow.ShadowFollows: the replica starts from the main engine's core; the program's replica starts from a dictionary of it, without fills.
- Following.CommandFollowedIff: orders of ordinary users; for a taker of the system user a command can log exactly one balance event, and `Divergence.FailureSeenIff` says that the shadow then notices the failure.
- Recovery.SnapshotResumes: orders that have left book and store stay in the model's map of order objects, where nothing reads them; the program's snapshot does not have them. The context that `EngineLoader` builds, without its engine, is in `Recovery.LoadedRaisesIff`.
- Recovery.StaleCopyReleasesMore: takes the store's copies to be exact when the snapshot is written; the shadow itself starts from separate copies, so the ones it writes can already be older.
- EngineShadows.EngineShadow.constructor: the program refuses an interval below one with a ValueError; here an interval of zero would work like one.
- Supply.TakesWhatIsOffered: with OCO legs in the book a fill of one leg withdraws the other, so the sum is not what is there to trade.
- Snapshots.LevelRoundTrip: covers plain orders, the only ones a stored snapshot can hold.
- Accounting.BalancesExplained: for OCO the law counts the releases as logged, including the one taken from the filled leg instead of its peer.
- Scripts.Idempotent: the amounts stored in the log hashes are not modelled, only which ids they hold.
- The top-20 sort of the published snapshot and the persistence of bars: no state or protocol behind them.
