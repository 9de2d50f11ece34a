# A limit order exchange, verified

This project models a small limit order exchange and proves what its pieces promise each other: a
price-time matching engine, the order-entry protocol between quoting clients and that engine, the
server's two threads with their queues and writer coroutines, and the 94-byte depth packet that clients
quote from. `dafny verify dfyconfig.toml` checks everything.

Code that changes state in place is modelled as classes and methods over the same fields, with the same
branches and loops (`MatchingEngine`, `BaseClient`, `ConcurrentQueue`, `MdSession`, `OeSession`,
`Server`, `PutField`, `Parse`, `BestSidePrice`, `CalcBestPrice`). Each method is proved to do what a
function on values says, and the theorems are about those functions.

## How the parts fit

1. **The engine.** `FlatBook` is the reference: each side of the book is one list in serving order, and
   `Push` is one order. `MatchingEngines.MatchingEngine` keeps two maps from price to FIFO and refines
   `Push` (`LevelMaps` is the abstraction). `PriceTime` says what `Push` means without a loop: who trades,
   for how much, at what price, what is reported, where a new order queues, what shape every book has.
   `Conservation`, `TimePriority` and `Symmetry` are laws of whole runs.
2. **Order entry.** `BaseClients` is the client. In `OrderEntry` any number of clients, FIFO channels and
   the engine take steps in any order; a run is any sequence of steps. The invariant (`SideView.Agrees`)
   says that if a client read everything under way to it, it would agree with what it has under way to the
   engine and resting there. `OrderSafety`, `Accounting` and `Targets` draw the guarantees.
3. **The server.** `Sessions` and `ServerModel` are the io thread, the engine thread, the posted work and
   the writers as atomic steps between suspension points, in any interleaving; `Servers.Server` is the
   same on objects. Everything is shown to agree with a sequential replay of the orders in the sequence
   the engine took them, and `Progress` that queues empty and writers finish.
4. **Publication.** `Codec` and `Depth` are the packet, `Strategy` the depth walk, `DepthWalk` the theorem
   that the walk on the decoded packet gives what the engine would do. `Publication` carries it through
   the server to every packet a subscriber is ever sent; `CrossedQuote` is the run in which one misleads.
5. **The whole.** `System` puts clients that join and leave, their connections and the server together,
   with every queue and buffer in between, and shows that each event is one step of the order-entry
   protocol or none. `Lives` restates the guarantees of the protocol for the threaded exchange, `Delivery`
   follows each order from its client into the engine's log and accounts for its quantity, and
   `Quiescence` shows that the exchange comes to rest, in agreement everywhere, once targets stop.

## Where the code and its comments differ

The model follows the code.

- A comment in the result reader (common/baseclient.cpp:92) says that a target set while an order is
  being registered leads to a cancel and a re-quote. The code zeroes `pending` after it has asked for the
  cancel (common/baseclient.cpp:92-95), so the target is forgotten. `Targets.RequoteIffWanted`
  gives, for every run, the exact condition under which a report makes a client order again, and
  `Targets.TargetIsDropped` is a run in which it never does.
- The ticker field is four bytes wide but three are copied (common/matchengine.cpp:154): the model's
  ticker is `680` and a blank.
- A comment above the matching loop (common/matchengine.cpp:67) gives the ask map a descending order; its
  declaration (common/matchengine.hpp:54-55) is ascending.
- The rejection report is described as an answer to cancels only (common/protocol.hpp:43); the engine also
  sends it for a malformed order (common/matchengine.cpp:39-46).

Two promises hold only under a condition, which is proved to be exact:

- A price or a level's quantity too long for its field is left blank and read as zero. Hence a decoded
  quote can be missing, wrong or crossed. `DepthWalk.PublishedDepthIsTrue` and
  `DepthWalk.QuoteIsNotCrossed` say for which books it is right, `DepthWalk.InRangeIsNotCrossed` that ask
  prices in range are enough, and `CrossedQuote.QuoteCanCross` is a run of the server from its seed that
  ends in a crossed quote (best bid 99999, best ask 100000).
- Buy and sell are mirror images except that prices must be positive, which reflection does not keep:
  `Symmetry.MirrorSymmetry`.

## Model

| member | source | states |
|---|---|---|
| `MatchingEngines.MatchingEngine.PushOrder` | common/matchengine.cpp:29-63 | on any valid pair of maps: the new book, the reports in order and `dirty` are those of the flat reference engine, for cancels, malformed orders, trades and rests alike; no level is left empty |
| `MatchingEngines.MatchingEngine.constructor` | common/matchengine.hpp:70-71 | a new engine is valid and stands for the empty book |
| `MatchingEngines.MatchingEngine.MatchAgainst` | common/matchengine.cpp:47-55 | matching changes only the opposite map, to what the flat reference leaves |
| `MatchingEngines.MatchLevels` | common/matchengine.cpp:65-103 | the outer loop over price levels: remaining levels flatten to the reference's rest, with its leftover quantity, its reports in its order, and `dirty` exactly when something traded |
| `MatchingEngines.MatchFifo` | common/matchengine.cpp:82-99 | the inner loop: serving one level to its end is a contiguous part of the flat match, whatever levels follow |
| `MatchingEngines.MatchingEngine.Rest` | common/matchengine.cpp:105-115 | resting is insertion into the flat list behind everything at the same or a better price, and one registration report |
| `MatchingEngines.MatchingEngine.Cancel` | common/matchengine.cpp:117-147 | a cancel finds an entry exactly when the client has one at that side and price, removes the oldest such entry and nothing else, and answers cancelled or rejected accordingly |
| `MatchingEngines.RemoveFrom` | common/matchengine.cpp:121-133 | find-scan-erase on a map equals removal from its flat list; a level that empties is dropped |
| `MatchingEngines.MatchingEngine.ExtractOrderBook` | common/matchengine.cpp:149-173 | the bytes written are the packet of the flat book summed by price, and that packet has the ticker and each number at its byte offset: digits without leading zeros from the left, blanks after; the book is unchanged |
| `MatchingEngines.FillBids` | common/matchengine.cpp:156-163 | iterating the bid map and writing field by field shows its best five levels, or all if there are fewer, and leaves the asks' fields alone |
| `MatchingEngines.FillAsks` | common/matchengine.cpp:164-171 | the same for the asks, leaving the bids' fields alone |
| `MatchingEngines.LevelSum` | common/matchengine.cpp:159-160 | the loop adds up a level's quantities |
| `MatchingEngines.NextLevel` | common/matchengine.cpp:157-160 | an iterator step yields the next level of the aggregated list |
| `MatchingEngines.PutBid` | common/matchengine.cpp:161-162 | writing the two fields of bid level i turns a packet that shows i bids into the one that shows i + 1 |
| `MatchingEngines.PutAsk` | common/matchengine.cpp:169-170 | the same for ask level i |
| `LevelMaps.FlattenAppend` | common/matchengine.cpp:109-112 | `push_back` on the level of a price, present or not, is priority insertion in the flat list |
| `LevelMaps.FlattenErase` | common/matchengine.cpp:121-133 | erasing a client's first position in a level is removal from the flat list |
| `LevelMaps.Best` | common/matchengine.hpp:54-55 | `begin()` of the ordered map: the key that no other key of the map beats, highest for bids and lowest for asks |
| `PriceTime.MatchIffPriceTime` | common/matchengine.cpp:65-103 | a result is what matching returns if and only if it is the closed form: the longest prefix of makers that cross and are reached, each for the smaller of its quantity and what is still wanted, at most one partial entry then the untouched rest, leftover quantity |
| `PriceTime.MatchFillsAllThatCrosses` | common/matchengine.cpp:75-102 | an order executes the smaller of its quantity and all crossing volume of the side; only the last maker may survive |
| `PriceTime.TradeIsReported` | common/matchengine.cpp:91-94 | the complete report of an order by index: taker then maker for each maker in serving order, at the maker's price and for its share, and last the registration of the remainder if there is one |
| `PriceTime.CancelIsReported` | common/matchengine.cpp:117-147 | all that a cancel does: one answer, repeating what it named, and either one entry gone or the client without one there and the book unchanged |
| `PriceTime.RefusalIsReported` | common/matchengine.cpp:39-46 | all that a malformed order does: one refusal of quantity zero, nothing changed, not dirty |
| `PriceTime.InsertPosition` | common/matchengine.cpp:105-112 | a new entry stands after every entry at its price or better and before every worse one; nothing else moves |
| `PriceTime.RemovePosition` | common/matchengine.cpp:121-133 | a cancel takes the first entry of that price and client and nothing else |
| `PriceTime.PushKeepsShape` | common/matchengine.cpp:29-63 | matching, resting and cancelling keep the book sorted, positive and uncrossed |
| `PriceTime.ReplayKeepsShape` | common/matchengine.cpp:29-63 | so does every sequence of orders from anyone, malformed ones included |
| `PriceTime.DirtyIffChanged` | common/matchengine.hpp:31 | the flag is raised by exactly those orders that change the book |
| `Conservation.PushConserves` | common/matchengine.cpp:29-147 | for any set of orders, identified by sender and serial number: what they rest plus what comes in is what rests after, what is reported filled and what the cancel removed |
| `Conservation.RunConserves` | common/matchengine.cpp:29-147 | the same over any run from any book |
| `Conservation.DroppedResidual` | common/matchengine.cpp:121-133 | what a cancel removes is all that the cancelled entry still had |
| `Conservation.OrderAccount` | common/matchengine.cpp:47-61 | over any run from any book, for an order that alone carries its sender and number (every client order does, `Delivery.EveryOrderIsItsOwn`): its quantity, plus what rested under that number before, is its reported fills, its residual in the book and its cancelled remainder |
| `Conservation.TwiceTraded` | common/matchengine.cpp:91-94 | reported fills are twice the executed volume, over any run |
| `Conservation.ExchangeConserves` | common/matchengine.cpp:85-94 | all quantity ever submitted is resting, cancelled or twice traded |
| `TimePriority.RenamePush` | common/matchengine.cpp:29-147 | the engine carries serial numbers along and never looks at them: renumbering commutes with every order |
| `TimePriority.RenameReplay` | common/matchengine.cpp:29-147 | and with every run |
| `TimePriority.StampingIsFaithful` | common/matchengine.hpp:40-44 | every run is the run numbered by arrival with the senders' numbers put back, in book and in reports |
| `TimePriority.RunKeepsArrivalOrder` | common/matchengine.hpp:42 | in every run each side stays strictly ordered by price and then arrival, under partial fills, pops, appends and mid-queue cancels |
| `TimePriority.MakersInOrder` | common/matchengine.cpp:82-99 | the k-th maker to trade is the k-th entry of the side, and all before it are used up |
| `TimePriority.NoOvertaking` | common/matchengine.cpp:82-99 | no order is executed while one with a better price, or the same price and an earlier arrival, is not used up first |
| `Symmetry.MirrorSymmetry` | common/matchengine.cpp:29-147 | swapping the sides and reflecting all prices commutes with every order on every book, if and only if the order is a cancel, has a negative quantity, or its price and mirrored price are both positive or both not |
| `Symmetry.SplitMatch` | common/matchengine.cpp:75-102 | matching a and then c on what is left is matching a + c: same rest, same leftover, same fills up to joining the one maker served twice |
| `Symmetry.SplitEquivalence` | common/matchengine.cpp:47-63 | sending a + c, or a and then c, each order with its own serial number: identical opposite book, the same fills maker by maker, the same leftover, own sides equal up to serial numbers and to two adjacent entries that stand for the one |
| `Codec.PutField` | common/matchengine.cpp:6-17 | writes exactly the field: a positive number that fits stands at its left, its first digit not zero, its digits reading as the value, and every later byte a blank; otherwise all bytes are blanks; no byte outside it changes |
| `Codec.FieldIffShows` | common/matchengine.cpp:6-17 | a text of a field's width is the one written if and only if it looks like that |
| `Codec.EncodePublishes` | common/protocol.hpp:22-30 | the packet by its byte offsets: ticker at 0, bid prices from 4, ask prices from 29, bid quantities from 54, ask quantities from 74, each number as a field shows it |
| `Codec.FieldRoundTrip` | common/matchengine.cpp:19-25 | a field reads back as its value if 0 < value < 10^width, and as zero otherwise |
| `Codec.GetFieldReads` | common/matchengine.cpp:19-25 | any text: an optional minus, digits, and then anything that does not go on with a digit reads as that number, zero without digits |
| `Codec.FieldsOfEncoded` | common/protocol.hpp:22-30 | each of the twenty fields of the 94 bytes holds its own number: no two overlap |
| `Codec.Parse` | common/matchengine.cpp:175-184 | the twenty numbers read are those of the twenty fields |
| `Codec.PacketRoundTrip` | common/matchengine.cpp:150-184 | a decoding of a packet is, and only is, the first five levels a side with every price below 100000 and every sum below 10000 kept, all else zero |
| `Depth.AggregateMap` | common/matchengine.cpp:157-171 | iterating the level map lists the levels of the flat list, price by price with summed quantity |
| `DepthWalk.AggregateSorted` | common/matchengine.cpp:156-171 | one level per price, best first |
| `Strategy.BestSidePrice` | client/strategy.hpp:13-29 | the price of a level where the shown quantities, all positive so far, first add up to q; nothing if there is no such level |
| `Strategy.CalcBestPrice` | client/strategy.hpp:31-38 | a quote exactly when both sides have their price, each moved n away from the other |
| `DepthWalk.QuoteIsUnique` | client/strategy.hpp:13-29 | the walk has one answer: two results that satisfy its contract are equal |
| `DepthWalk.BestPriceIsUnique` | client/strategy.hpp:31-38 | and so has the quote |
| `DepthWalk.MatchReaches` | client/strategy.hpp:20-25 | the level where depth adds up to q is where an unlimited order of size q gets its last fill |
| `DepthWalk.PublishedDepthIsTrue` | client/strategy.hpp:13-29 | encode, decode and walk: nothing if the five levels hold less than q; otherwise the engine's last fill price lies among the shown levels and the walk returns it if and only if that price and the quantities up to it fit their fields |
| `DepthWalk.QuoteFromEngine` | client/strategy.hpp:32-38 | a quote told from the engine: the bid is the last fill price of an unlimited seller of q less n, the ask that of an unlimited buyer plus n, where those prices fit their fields |
| `DepthWalk.QuoteForNothing` | client/strategy.hpp:17-18 | for q <= 0 the walk gives the best price, or nothing when the best level shows no quantity |
| `DepthWalk.DecodedPricesOrdered` | common/matchengine.cpp:156-171 | decoded non-blank bids strictly fall and asks strictly rise |
| `DepthWalk.DecodedSidesApart` | common/matchengine.cpp:156-171 | every decoded bid is below every decoded non-blank ask |
| `DepthWalk.QuoteIsNotCrossed` | client/strategy.hpp:32-38 | told from the book: there is a quote if and only if both walks stop among shown levels over quantities that fit; for n >= 0 it has its bid below its ask if and only if the ask level's price fits its field or the price read for the bid is below 2n |
| `DepthWalk.InRangeIsNotCrossed` | client/strategy.hpp:32-38 | when the shown ask prices fit their fields, no quote for any q and n >= 0 is crossed |
| `CrossedQuote.QuoteCanCross` | client/strategy.hpp:32-38 | a run of the server from its seed (a sweep of the asks at 99999, then an offer at 100000) after which every decoding of the published packet yields a quote of bid 99999 and ask 0 |
| `BaseClients.BaseClient.SendOrder` | common/baseclient.cpp:193-210 | one packet with the next serial number goes out; a measuring client enters it as in flight |
| `BaseClients.BaseClient.constructor` | common/baseclient.hpp:48-75 | a new client is idle on both sides, not ready, with serial number 1 and nothing in flight |
| `BaseClients.BaseClient.Assigned` | common/baseclient.cpp:50-53 | having received its number, a client may send |
| `BaseClients.BaseClient.Reconcile` | common/baseclient.cpp:159-191 | new client state and orders written, in every phase: order afresh, cancel, do nothing, or remember the target |
| `Targets.TargetWrites` | common/baseclient.cpp:162-191 | in every run, giving a client a target makes it cancel if and only if the side rests at another price, order if and only if it is idle, and write nothing otherwise; the packet names what it should; a side resting at its target, and everyone else, stays exactly as it is |
| `Targets.SteadyTarget` | common/baseclient.cpp:178-179 | a side resting at its target may be given it any number of times: the whole state of the exchange stays as it is |
| `BaseClients.NotReadyIsSilent` | common/baseclient.cpp:163 | before its number has arrived a client writes nothing and keeps no target |
| `BaseClients.BaseClient.TakeUpPending` | common/baseclient.cpp:92-95 | a remembered target is reconciled first and zeroed afterwards, also when the reconciling had just stored it |
| `BaseClients.BaseClient.OnResult` | common/baseclient.cpp:70-118 | new client state, latency log and orders written for each of the four kinds of report |
| `BaseClients.ReportTouches` | common/baseclient.cpp:86-118 | what a report leaves alone: the other side always; a fill all but quantity and, on the last unit, the phase; a refusal everything; a confirmation without a target kept all but the phase |
| `BaseClients.WaitingRemembersLast` | common/baseclient.cpp:186-189 | of any targets set while a cancel is under way, the last usable one is kept, and nothing is sent or changed otherwise |
| `BaseClients.TargetDuringRegistration` | common/baseclient.cpp:89-117 | a target set during registration causes the cancel and is forgotten; after any list of further targets and reports of that side, fills and refusals included, a report makes it order again if and only if it confirms the cancel and a usable target was kept since, and then at the last of those |
| `Targets.RequoteIffWanted` | common/baseclient.cpp:89-117 | in every run of any number of clients: the next report makes its client order if and only if it confirms a cancel and a usable target was kept since the registration, and cancel if and only if it is a registration and the last target kept since the order went out is another price; and which packet that is |
| `Targets.RunNotesWanted` | common/baseclient.cpp:167-189 | in every run a side that waits for a confirmation holds the last usable target kept since it ordered or read a confirmation, or none |
| `Targets.TargetIsDropped` | common/baseclient.cpp:89-105 | a run: order at 100, target 101 before the registration is read, everything delivered: the client has sent the order and its cancel and nothing else, is idle, and the book is as before |
| `SideView.StartOrder` | common/baseclient.cpp:167-176 | an idle side that orders afresh stays in agreement, even with the refusal of an old cancel still to come |
| `SideView.StartCancel` | common/baseclient.cpp:178-184 | a resting side that asks for a cancel stays in agreement, whatever fills are under way |
| `SideView.HeadRead` | common/baseclient.cpp:86-118 | reading the next report keeps a side in agreement with what is under way and with the book, whatever its kind |
| `SideView.CancelCommutes` | common/baseclient.cpp:178-184 | the race of a cancel with fills: reports under way read the same whether or not a cancel was just requested, and a full fill leaves exactly one refusal to come |
| `SideView.CancelProcessed` | common/matchengine.cpp:117-147 | the engine reaching a cancel keeps agreement, with the entry or without |
| `SideView.OrderProcessed` | common/matchengine.cpp:47-63 | the engine reaching a new order keeps agreement: fills that add up, then perhaps a registration |
| `SideView.MakerFilled` | common/matchengine.cpp:82-99 | a partial or full execution of a resting order by someone else keeps agreement |
| `Attribution.FillReports` | server/server.cpp:156-168 | which reports of a trade reach which client on which side: all to the taker on its own side, each maker's to that maker on the other |
| `Attribution.SoleOwner` | common/matchengine.cpp:82-99 | a trade leaves a client with one entry either untouched and unreported or filled once, reported once |
| `Attribution.RemoveOwn` | common/matchengine.cpp:121-133 | a cancel by a client with one entry on the side, naming its price, removes that entry |
| `Attribution.InsertOwn` | common/matchengine.cpp:105-112 | resting gives the sender that one entry and changes nobody else's |
| `OrderEntry.StepKeepsInv` | common/baseclient.cpp:86-191 | the invariant over all clients, both channels and the book is kept by every step: connecting, setting a target, the engine taking an order, a client reading a report |
| `OrderEntry.RunKeepsInv` | server/server.cpp:26-46 | it holds after every run, in every interleaving of any number of clients |
| `OrderSafety.AtMostOneLiveOrder` | common/baseclient.hpp:26-27 | counting undelivered orders and book entries, a side has at most one live order, at the price on record, and none when idle |
| `OrderSafety.CancelHitsOnlyItsOrder` | common/matchengine.cpp:118-147 | a cancel names only side and price; when the engine comes to one, it is refused with the book unchanged if the client has nothing there, and otherwise removes the one entry it was sent for |
| `OrderSafety.EveryReportIsExpected` | common/baseclient.cpp:86-118 | a refusal reaches a side only idle or waiting for registration, the others only in their phase; a fill never exceeds what is working, so quantity never goes negative and idle comes exactly on full execution |
| `OrderSafety.NoSideIsStuck` | common/baseclient.hpp:42-47 | a waiting side has on its way its order or cancel, the confirmation, or fills of exactly all it has working |
| `OrderSafety.QuantityAgreement` | common/baseclient.cpp:111-117 | until a cancel is confirmed, a working side's quantity is what is undelivered or rests at the engine plus all fills under way |
| `OrderSafety.QuietClientAgrees` | common/baseclient.hpp:48-53 | with nothing under way, a side is idle with no entry or resting with exactly its entry |
| `Accounting.FirstReportIsSenders` | common/matchengine.cpp:35-62 | every order is answered at once: the first report carries its sender and serial number |
| `Accounting.RunAccounted` | common/baseclient.cpp:70-84 | after every run each client's accounts and channels agree: serial numbers under way are consecutive, all that arrived is answered, read or on its way back |
| `Accounting.ExactlyOnce` | common/baseclient.cpp:70-84 | for a measuring client: in flight is exactly what was sent and not yet answered, each answered order has one line in the log however many reports carried its number, and both record the side and price of the order sent under that number |
| `Accounting.LogIsAppended` | common/baseclient.cpp:71-84 | a step of a run adds at most one line to a client's log, at its end: that of the order whose first answer is read; no other step changes the log |
| `Accounting.QuietMeansAllAnswered` | common/baseclient.cpp:193-205 | with both channels empty nothing is in flight and every order ever sent is logged |
| `ConcurrentQueues.ConcurrentQueue.Push` | common/concurrentqueue.hpp:11-17 | appends |
| `ConcurrentQueues.ConcurrentQueue.WaitPop` | common/concurrentqueue.hpp:19-27 | first in, first out; a stop is obeyed only when the queue is empty |
| `Sessions.MdSession.Offer` | server/server.cpp:74-81 | overwrites the slot and starts a writer exactly when none is active |
| `Sessions.MdSession.WriterTurn` | server/server.cpp:84-95 | the writer from one suspension to the next |
| `Sessions.MdSession.constructor` | server/server.cpp:57-65 | a new subscriber has the cached packet in its slot and a writer started |
| `Sessions.OeSession.constructor` | server/session.hpp:20-27 | a new client session has an empty queue and no writer |
| `Sessions.MdOfferedOk` | server/server.cpp:72-82 | an offer at any moment of the writer keeps one writer at most, never idle with something to send, nothing out of order and the newest packet in line |
| `Sessions.MdTurnedOk` | server/server.cpp:84-95 | so does every turn of the writer |
| `Progress.MdTurnWrites` | server/server.cpp:84-95 | each turn of a subscriber's writer appends exactly the awaited packet to what is sent, then takes the slot's packet or ends |
| `Progress.SubscriberCatchesUp` | server/server.cpp:84-95 | from any moment of any run, two turns of a subscriber's writer, or more, write all that was awaited or waiting: the writer has ended and the last packet sent is the cached one |
| `Sessions.OeSession.Queue` | server/server.cpp:162-166 | appends a result and starts a writer exactly when none is active |
| `Sessions.OeSession.WriterTurn` | server/server.cpp:170-180 | the packet leaves the queue only after it was written |
| `Sessions.OeQueuedAllOk` | server/server.cpp:156-168 | queueing any results keeps queue and writer together and only appends to what the client will have been sent |
| `Sessions.OeTurnedOk` | server/server.cpp:170-180 | a writer turn neither loses nor reorders, and writes at most the packet at the head |
| `Progress.OeTurnWrites` | server/server.cpp:170-180 | a turn on an awaited write moves exactly the head of the queue to the end of what is written |
| `Progress.ResultsGetOut` | server/server.cpp:170-180 | from any moment of any run, one turn more than the queue holds, or more, writes the whole queue in order and ends the writer |
| `Servers.Server.constructor` | server/server.cpp:5-21 | the server starts with the seed book and its packet cached |
| `Servers.Server.InitBook` | server/server.cpp:194-205 | the ten seed orders leave five bids just below and five asks just above the middle price, each of the seed quantity and in order |
| `OrderEntry.SeedIs` | server/server.cpp:194-205 | the seed book entry by entry: bids of 50 at 99 down to 95, asks of 50 at 101 up to 105, of the virtual client |
| `Servers.Server.EngineTurn` | server/server.cpp:26-46 | takes the oldest order, posts all its results together with a snapshot exactly when dirty; ends only on an empty queue |
| `Servers.Server.EngineLoopStopping` | server/server.cpp:26-28 | after a stop request the loop ends, with the queue drained |
| `Servers.Server.SendOrderResults` | server/server.cpp:156-168 | each session gets its own results in order; results of sessions that are gone are skipped; no other session changes |
| `Servers.Server.BroadcastOrderBook` | server/server.cpp:72-82 | every subscriber is offered the packet, in whatever order the map is walked |
| `Servers.Server.OfferToAll` | server/server.cpp:74-81 | the broadcast loop: each session is offered the packet once |
| `Servers.Server.IoTurn` | server/server.cpp:37-44 | runs the oldest post: results first, then the cache and the broadcast if there is a snapshot |
| `Servers.Server.MdAccept` | server/server.cpp:56-65 | a new subscriber is offered the cached packet at once |
| `Servers.Server.OeAccept` | server/server.cpp:120-132 | a new client session has a fresh number, an empty queue and no writer |
| `Servers.Server.OeReceive` | server/server.cpp:139-150 | an order read is queued with its session's number |
| `Servers.Server.OeWriterTurn` | server/server.cpp:170-180 | a turn of one client's writer touches that session only |
| `Servers.Server.MdWriterTurn` | server/server.cpp:84-95 | a turn of one subscriber's writer touches that session only |
| `Servers.Server.OeClose` | server/server.cpp:151 | a closed client session is gone, all others are as before |
| `Servers.Server.MdClose` | server/server.cpp:106 | a closed subscriber session is gone, all others are as before |
| `ServerModel.CleanPostKeepsBook` | server/server.cpp:33-34 | a post carries a snapshot exactly when its order changed the book, and then of the new book |
| `ServerModel.StepOk` | server/server.cpp:26-180 | every step of either thread or any writer keeps book, posts, cache and all sessions in agreement with a sequential replay |
| `ServerModel.LatestBookIsReplay` | server/server.cpp:33-43 | after every run the cached packet is that of a sequential replay of exactly the orders whose posts have run, though clean orders post no snapshot |
| `ServerModel.SubscriberIsFresh` | server/session.hpp:7-17 | what a subscriber was sent is a subsequence in order of what it was offered; a filled slot has its writer; once the writer has ended the last packet sent is the cached one |
| `ServerModel.ResultsRefineSequentialRun` | server/server.cpp:156-180 | what a connected client was sent is a prefix of what the sequential engine reports to it; a non-empty queue has its writer; with all posts run and the writer ended it is everything |
| `ServerModel.StopDrainsTheQueue` | server/server.cpp:26-46 | after a stop every queued order is still processed in order and its results posted |
| `Progress.SubscribersAre` | server/server.cpp:51-108 | after every run the subscribers are exactly the numbers given out, 1 onwards, and not closed since |
| `Progress.ClientsAre` | server/server.cpp:114-154 | the same of client sessions |
| `Progress.SubscriberJoins` | server/server.cpp:56-65 | a subscriber that connects is registered under a new number with the cached packet in its slot, a writer started and nothing sent; nothing else changes |
| `Progress.ClientJoins` | server/server.cpp:120-132 | a client that connects is registered under a new number with nothing queued or written; nothing else changes |
| `Progress.EveryOrderIsAnswered` | server/server.cpp:26-180 | from any moment, finitely many turns of both threads and of a client's writer leave nothing queued or posted, the cache on the present book, and the client with every report of the sequential run |
| `Publication.ServerBookIsRun` | server/server.cpp:194-205 | the server's book is always that of a run from the empty book, seed first, so the run theorems apply, and it is sorted, positive and uncrossed |
| `Publication.SubscriberSeesRealBooks` | server/server.cpp:51-95 | every packet written to a subscriber is of the sequential engine's book after some prefix of the orders, never an earlier prefix than the packet before; once all is quiet the last shows the present book |
| `Publication.QuotesAreTrue` | client/client.cpp:11-19 | engine to strategy through every cache and queue: the depth walk on any packet ever sent gives the last fill price of a book the engine had, up to the two stated exceptions |
| `System.EventRefines` | server/server.cpp:114-180 | every event of the whole exchange (a client joining or leaving, a target, bytes arriving, a client reading, each other server step) is one step of the protocol or none |
| `System.JoinRefines` | server/server.cpp:114-137 | a client that joins finds nothing queued, reported or in the book under its number |
| `System.JoinConnects` | server/server.cpp:114-137 | who joins is a new client connected under a new number, with nothing on either way; everyone else is as before |
| `System.LeaveIsSilent` | server/server.cpp:151-153 | closing a client's session changes nothing that the other clients or the engine can see |
| `System.LeaveCloses` | server/server.cpp:151-153 | who leaves has no session, keeps what was written to it, and no more of it reaches the server; everyone else is as before |
| `System.EngineRefines` | server/server.cpp:26-46 | a turn of the engine loop is the protocol's engine step for the client whose order heads the queue, connected or gone, whatever else is queued |
| `System.LifeOk` | server/server.cpp:139-180 | in every life, what was written to a client is a prefix of what the engine reported to it, and stays so after it left |
| `System.ExchangeRefinesProtocol` | server/server.cpp:26-46 | every life of the exchange, seen through all that is between clients and engine, is a run of the protocol |
| `System.DownwardIsUnderWay` | server/server.cpp:37-44 | all that is reported to a connected client and not yet read is physically there, in order: written, in its session's queue, in posts still to run |
| `Lives.EveryClientAgrees` | common/baseclient.cpp:86-191 | in every life, each client's side agrees with all under way and with the engine's book |
| `Lives.OneLiveOrderInLife` | common/baseclient.hpp:26-27 | in every life: at most one live order a side, at the price on record, none when idle |
| `Lives.CancelHitsOnlyItsOrderInLife` | common/matchengine.cpp:118-147 | in every life: a cancel at the head of the engine's queue is refused, or takes the one entry it was sent for |
| `Lives.EveryReportIsExpectedInLife` | common/baseclient.cpp:86-118 | in every life: the next report a client reads comes in its phase, and no fill exceeds what is working |
| `Lives.NoSideIsStuckInLife` | common/baseclient.hpp:42-47 | in every life: a waiting side has under way what it waits for, or fills of all it has working |
| `Lives.QuantitiesAgreeInLife` | common/baseclient.cpp:111-117 | in every life: a working side's quantity is what is undelivered or rests plus all fills under way |
| `Lives.ExactlyOnceInLife` | common/baseclient.cpp:70-84 | in every life: the accounts of a measuring client are exact |
| `Delivery.OrdersAreDelivered` | server/server.cpp:139-150 | all a client ever sent is, in order, what the engine has taken, what is queued at the server and what is on the wire: nothing lost, doubled or overtaken |
| `Delivery.NumberInLog` | common/baseclient.cpp:193-195 | the orders of one client reach the engine numbered 1, 2, 3 and so on |
| `Delivery.EveryOrderIsItsOwn` | common/baseclient.cpp:193-195 | so no two orders the engine has taken share sender and number |
| `Delivery.EveryOrderIsAccounted` | common/matchengine.cpp:47-61 | in every life, each order the engine has taken is its fills, its rest in the engine's book and its cancelled remainder, from the seed book on |
| `Quiescence.WorkIsLeft` | server/server.cpp:26-180 | while anything is under way, some step of the machinery brings a seven-part measure strictly down |
| `Quiescence.LifeComesToRest` | common/baseclient.cpp:86-118 | from every moment of every life, finitely much work (bytes arriving, threads and writers turning, clients reading) leaves nothing under way and no writer active |
| `Quiescence.ExchangeSettles` | common/baseclient.cpp:86-118 | and then every connected client is, on both sides, idle with no entry or resting with exactly its entry, has every measured order answered and logged, and every subscriber was last sent the present book |

## Left out

- Sockets, name resolution, connecting and the four-byte number handshake: a connection is a reliable FIFO channel, and a client that joins has its number. Assigning the number and entering the session are one step; between them the source sends the client nothing else and reads nothing from it.
- Coroutine and thread mechanics: a step runs from one suspension point to the next, posts run in the order they were posted, and each queue operation is atomic.
- Write errors and disconnects: a session may be closed at any time, and what was neither written nor read by then is lost to both ends. A write that fails half-way, and what the writer of a closed session may still push out, are not modelled. `Stop` closing the sockets is not modelled; the engine loop after a stop request is.
- `ConcurrentQueues.ConcurrentQueue.WaitPop`: blocking is not modelled; its precondition says that the wait is over, by an order or a stop request.
- `Servers.Server.BroadcastOrderBook`: the iteration order of the hash map is left open; the result does not depend on it.
- `LevelMaps.Best`: the ordered map is a map with its best key, not a balanced tree; costs are not modelled. Levels are sequences reassigned in the map, where the source changes deques through references into it.
- 32-bit integers: numbers are mathematical, so a serial number never wraps around and a level's sum never overflows. A side is buy or sell; other values of the wire's 32-bit field are not modelled.
- `Accounting.ExactlyOnce`: clock readings and the log file are not modelled; a log line is the serial number, side and price of an order.
- The consumer's random price, side, delay and `mid_`, and which packets a quoting client happens to act on: targets are arbitrary and come at any time; a fresh order's quantity is any of 1 to 20, which includes the quoting client's fixed 10.
- Logging, formatting of books, argument parsing, keyboard and signal handling, statistics scripts: output or input only.
