# Single-symbol limit order book, modelled in Dafny

This project models the book-keeping core of `sa-match` (`main.cc`). `OrderBook` is a price-time limit order book for one instrument. It has two indexes that must agree:

- the **order index** `bookData`, which maps an order id to its record;
- the **two sides** `buySide` and `sellSide`, each a sequence of price levels. A level holds its price, its aggregate `size`, its `orderNum` and a FIFO queue of orders.

`add` joins the level of the order's price, or opens a new level at the right rank. `remove` takes an order out of its level and deletes the level when its last order leaves. `modify` changes an order's size in place. `get_price` and `get_size` read level *n* of a side, where level 1 is the best.

## Layout

- `results.dfy`, module `Results`: the error kinds (`InvalidSide`, `DuplicateOrderId`, `OrderNotFound`, `LevelOutOfRange`), plus `Result` and `Outcome`.
- `price_level.dfy`, module `PriceLevels`:
  - the records `orderData` (`Order`) and `priceData` (`Level`);
  - the side code `'B'`/`'S'`;
  - a level's queue, which holds order ids;
  - `QueueSize`, the sum of the sizes of the queued orders.
- `side_index.dfy`, module `SideIndex`:
  - the per-side priority `Better`: a higher bid, or a lower ask;
  - `Sorted`, best first;
  - `Find`, which plays the part of `priceDataFinder` with `find_if`;
  - `InsertLevel`, which plays the part of `push_back` followed by `std::sort`;
  - a proof that inserting at the rank is the only sorted result of that push and sort.
- `book_spec.dfy`, module `BookSpec`:
  - the book as a value (`Book`);
  - its invariant `Inv`;
  - each operation as a function of the old book: `AddOrder`, `RemoveOrder`, `ModifyOrder`, `PriceAt`, `SizeAt`.
- `book_invariant.dfy`, module `BookInvariant`: proofs that `add`, `remove` and `modify` keep `Inv`.
- `book_properties.dfy`, module `BookProperties`: what each operation does to the levels and to the order index.
- `order_book.dfy`, module `OrderBooks`: the class `OrderBook`. Its fields `bookData`, `buySide`, `sellSide` and `clock` are updated in place. Each method ensures `Valid()` and ties the new state to the spec function of the old state.
- `demo_session.dfy`, module `DemoSession`: the session of the demo driver in `main`, followed by the checks a price-time book must pass.
- `as_written.dfy`, module `AsWritten`: `add` as the source writes it, with lemmas that show its defects (see Findings). Two details are not as written. The `makeTime` stamp is dropped. A new sell level's `orderNum`, which the source never sets (main.cc:176-178), is given the value 0.

`Inv` says the following:
1. Each side is strictly sorted best first, so no two levels share a price.
2. Every level is non-empty.
3. Every level's `orderNum` is its queue length.
4. Every level's `size` is the sum of its queued orders' sizes.
5. Every queued id is a live order of that side and price.
6. Each queue runs oldest first by the logical arrival stamp, so no id is queued twice.
7. Every live order is queued at the level of its own price.

Together these mean every live id sits in exactly one queue (`BookProperties.ExactlyOneQueue`).

## Reconstructions and divergences from the code

- **Dangling pointers.** The source stores pointers to a stack-local `orderData` (main.cc:136-153). Here the records live in one id-keyed map, and the queues hold ids.
- **Sell branch of `add`.** It never queues the order and never counts it (main.cc:171-180). It is modelled like the buy branch (main.cc:150-163).
- **Comparators.** `sortBuySidePrices` sorts ascending and `sortSellSidePrices` sorts descending (main.cc:89-95), which puts the worst price at level 1. The model orders each side best first.
- **Record before side check.** `add` in the source records the order before it checks the side, and it does not refuse a live id. The model refuses both cases and changes nothing.
- **`remove` does not compile.** It uses undefined `iter`, `interPrice` and `interBook`, and returns a value from a void function (main.cc:222-264). The model follows its comments (main.cc:224, 238):
  - if the order was the level's only order (`orderNum == 1`), the level is deleted;
  - otherwise the count drops by one and the size drops by the order's size (main.cc:243-246);
  - the order also leaves the level's queue, and the rest of the queue keeps its order. The source does not do this;
  - the record is then erased from the order index. The source does not do this either;
  - an unknown id leaves the book untouched (main.cc:229-230);
  - if the order's level is missing, nothing changes, as in the empty else branch at main.cc:249-251. `Inv` rules that case out.
- **`modify` is an empty stub** (main.cc:218-220). It is modelled with the usual price-time contract:
  - the record's size changes in place;
  - the level's aggregate moves by the difference;
  - the queue position is unchanged;
  - a size of zero or less acts as `remove`.
- **Queries.** `get_price` and `get_size` (main.cc:192-216) do not check the level number, and for an unknown side they fall off the end of a non-void function. The model returns `LevelOutOfRange` or `InvalidSide` instead.

## Model

| member | source | states |
|---|---|---|
| PriceLevels.ParseSide | main.cc:145-187 | 'B' selects the buy side, 'S' the sell side, and every other character is no side |
| PriceLevels.Position | main.cc:77 | the first position of an id in a level's queue, or the queue length when the id is absent |
| PriceLevels.Dequeue | main.cc:243-247 | taking an order out of its queue shortens the queue by one when it was queued, and leaves the queue alone otherwise (a reconstruction: the source leaves a null entry) |
| PriceLevels.DequeueOrder | main.cc:243-247 | taking an order out of its queue keeps the orders ahead of it in place and moves the later ones up by one, so time priority is kept |
| PriceLevels.QueueSizeAppend | main.cc:152-153 | appending an order to a queue raises the queue's total by that order's size |
| PriceLevels.QueueSizeAgree | main.cc:73-79 | a queue's total depends only on the records of the orders it holds |
| PriceLevels.QueueSizeDelete | main.cc:243-245 | deleting the entry at any position takes exactly that order's size out of the total |
| PriceLevels.QueueSizeResize | main.cc:218-220 | resizing an order queued once moves the total by new size minus old size |
| PriceLevels.QueueSize | main.cc:73-79 | the total remaining size of the orders a queue holds: the value every level's `size` must equal |
| BookSpec.LevelOk | main.cc:73-79 | a level is non-empty, its `orderNum` is its queue length, its `size` is its queue's total, its orders rest on its side at its price, and they are queued oldest first |
| BookSpec.SideOk | main.cc:111-112 | a side is sorted best first and each of its levels is consistent |
| BookSpec.Inv | main.cc:110-112 | both sides are consistent, and every live order in `bookData` carries its own id and is queued at the level of its price |
| BookSpec.AddToLevels | main.cc:149-180 | add on one side: at a price the side has, the side keeps its length; at a new price it gains exactly one level |
| BookSpec.AddOrder | main.cc:130-190 | add: fails with InvalidSide exactly for a side other than 'B' and 'S', and with DuplicateOrderId exactly for a live id on a valid side |
| BookSpec.RemoveFromLevels | main.cc:238-246 | remove on one side: the last order of a level takes the level with it; otherwise the level keeps its place and price, its size drops by the order's size and its count by one |
| BookSpec.RemoveOrder | main.cc:222-264 | remove: fails with OrderNotFound exactly for an unknown id; on success the record leaves the index (or, with its level missing, nothing changes) and the clock is kept |
| BookSpec.ResizeInLevels | main.cc:218-220 | modify on one side: the level keeps its price, queue and count, and its size moves by new size minus old size |
| BookSpec.ModifyOrder | main.cc:218-220 | modify: fails with OrderNotFound exactly for an unknown id; a size of zero or less is remove; a positive size keeps the set of live ids and the clock |
| BookSpec.PriceAt | main.cc:205-216 | get_price: InvalidSide exactly for a side other than 'B' and 'S'; a result exactly for a level number from 1 to the side's level count; LevelOutOfRange otherwise |
| BookSpec.SizeAt | main.cc:192-203 | get_size: the same errors and the same range as get_price |
| SideIndex.Better | main.cc:89-95 | a bid has priority when it is higher, an ask when it is lower: the source's comparators reversed, so level 1 is the best |
| SideIndex.Sorted | main.cc:156-179 | the order `std::sort` keeps each side in: levels in strictly decreasing priority, best first |
| SideIndex.Find | main.cc:81-87 | priceDataFinder with find_if: the first level with the given price, or the side's length when there is none |
| SideIndex.Rank | main.cc:162-163 | the number of leading levels whose price has priority over the given price; the level after them does not |
| SideIndex.InsertLevel | main.cc:162-163 | inserting a level grows the side by one |
| SideIndex.InsertLevelContents | main.cc:162-163 | inserting a level adds exactly that level to the side's contents, and nothing else |
| SideIndex.InsertLevelShape | main.cc:162-163 | the levels ahead of the new price's rank keep their places, the new level sits at the rank, and the rest move back by one |
| SideIndex.SortedPricesDistinct | main.cc:149-150 | on a sorted side, different levels carry different prices |
| SideIndex.FindAt | main.cc:149 | on a sorted side, Find locates every price exactly at the level that carries it |
| SideIndex.InsertLevelSorted | main.cc:156-163 | opening a level for a price the side lacks keeps the side sorted best first |
| SideIndex.SortedUnique | main.cc:163 | two sorted arrangements of the same levels are identical |
| SideIndex.InsertIsSortAfterPush | main.cc:162-163 | push_back then sort gives exactly the insertion at the rank of the new price |
| SideIndex.DeleteLevelSorted | main.cc:238-241 | deleting a level keeps the remaining levels sorted, with no re-sort needed |
| BookInvariant.QueuedOnce | main.cc:77 | a FIFO queue of a consistent level holds each order id at most once |
| BookInvariant.AppendLevelOk | main.cc:150-155 | appending a new, youngest order keeps a level consistent: count, aggregate, side, price and FIFO order |
| BookInvariant.SingleLevelOk | main.cc:156-161 | a level opened for one order has count 1, that order's size and a one-element queue |
| BookInvariant.ShrinkLevelOk | main.cc:243-246 | taking one of several orders out of a level keeps the level consistent |
| BookInvariant.DeleteSideOk | main.cc:238-242 | deleting a level whose only order leaves keeps the side consistent, and every other order stays queued at its price |
| BookInvariant.ResizeLevelOk | main.cc:218-220 | resizing an order in place keeps its level consistent |
| BookInvariant.LocateOrder | main.cc:229-236 | in a consistent book, a live order's level is the one found by its price, and it is queued there |
| BookInvariant.AddKeepsInv | main.cc:130-190 | add keeps the order index and both sides in agreement |
| BookInvariant.RemoveKeepsInv | main.cc:222-264 | remove keeps the order index and both sides in agreement |
| BookInvariant.ModifyKeepsInv | main.cc:218-220 | modify keeps the order index and both sides in agreement |
| BookProperties.AddAtExistingPrice | main.cc:150-155 | at a price the side already has, that level's size grows by the order's size, its count by one, and the id goes to the back of its queue; no other level and not the other side changes |
| BookProperties.AddAtNewPrice | main.cc:156-163 | at a new price, exactly one level (size = order size, count 1, queue [id]) is added, the side stays sorted, and the other side is untouched |
| BookProperties.AddResult | main.cc:130-190 | add fails exactly on an unknown side or a live id; on success the record is indexed, queued at its price on its side, and the book stays consistent |
| BookProperties.PricesUnique | main.cc:149-150 | no two levels of a side share a price |
| BookProperties.ExactlyOneQueue | main.cc:110-112 | every live id appears in exactly one queue, once: the one of its side and price |
| BookProperties.RemoveResult | main.cc:229-247 | remove succeeds exactly for live ids; the record then leaves the index, no queue holds it, and a second remove fails with OrderNotFound |
| BookProperties.RemoveLastOrder | main.cc:238-242 | removing the last order at a price deletes that level, and the remaining levels stay sorted with no level at that price |
| BookProperties.RemoveOneOfSeveral | main.cc:243-247 | removing one of several orders lowers the count by one and the size by that order's size, drops the id from the queue in place, and changes nothing else |
| BookProperties.ModifyNonPositiveIsRemove | main.cc:218-220 | modify to a size of zero or less is remove |
| BookProperties.ModifyInPlace | main.cc:218-220 | modify to a positive size replaces the record's size, moves the level's aggregate by the difference, and keeps the queue, the count and every other level |
| BookProperties.ModifyResult | main.cc:218-220 | modify succeeds exactly for live ids |
| BookProperties.RemoveThenAdd | main.cc:222-264 | once an order is removed, its id can be added again |
| BookProperties.QueriesBestFirst | main.cc:192-216 | a lower level number always has the strictly better price |
| BookProperties.LevelOneIsBest | main.cc:205-211 | level 1 holds the highest bid or the lowest ask |
| BookProperties.SizeIsQueueTotal | main.cc:192-198 | get_size reports the total remaining size of the orders queued at that level |
| OrderBooks.OrderBook.constructor | main.cc:116-121 | a new book is empty and consistent |
| OrderBooks.OrderBook.Add | main.cc:130-190 | add updates the fields in place to AddOrder of the old state, keeps them consistent, and leaves them untouched on failure |
| OrderBooks.OrderBook.Remove | main.cc:222-264 | remove updates the fields to RemoveOrder of the old state; an unknown id fails with OrderNotFound and changes nothing |
| OrderBooks.OrderBook.Modify | main.cc:218-220 | modify updates the fields to ModifyOrder of the old state; an unknown id fails with OrderNotFound and changes nothing |
| OrderBooks.OrderBook.GetPrice | main.cc:205-216 | the price of level n of side 'B' or 'S', InvalidSide for another side, LevelOutOfRange outside 1..levels; no state change |
| OrderBooks.OrderBook.GetSize | main.cc:192-203 | the aggregate size of level n of side 'B' or 'S', with the same errors; no state change |
| DemoSession.DemoQueries | main.cc:280-289 | after the demo's five bids and the cancel of order 2: level 1 is 45.9 / 110, level 2 is 45.4 / 400, there is no level 3, and side 'X' is refused |
| DemoSession.DemoFollowUps | main.cc:280-285 | after the demo, modify(1, 0) equals remove(1) and cuts level 45.4 to 300 with one order; re-adding live id 4 is refused |
| AsWritten.AddAsWritten | main.cc:130-190 | add as written always records the id, and with an unknown side it leaves both sides unchanged |
| AsWritten.BuyLevelOneIsWorstBid | main.cc:93-95 | as written, after bids at 45.4 and 45.9 level 1 of the buy side is 45.4 |
| AsWritten.SellLevelOneIsWorstAsk | main.cc:89-91 | as written, after asks at 50.0 and 50.5 level 1 of the sell side is 50.5 |
| AsWritten.SellOrderNotQueued | main.cc:171-180 | as written, sell orders are recorded but never queued, and a level's count is never set or bumped |
| AsWritten.UnknownSideStillRecorded | main.cc:141-187 | as written, an order with side 'X' enters bookData although no side holds it |
| AsWritten.DuplicateIdQueuedTwice | main.cc:141-155 | as written, re-adding live id 1 keeps the old record yet queues the id twice and counts 150 against one order of 100 |

## Findings

| source | as written | input that shows it | evidently intended | confidence | as-written member | corrected member |
|---|---|---|---|---|---|---|
| main.cc:93-95 | `sortBuySidePrices` sorts bids ascending, so `get_price('B', 1)` reads the lowest bid | bids (1, 45.4, 100) and (2, 45.9, 100) | level 1 is the highest bid | not executed | AsWritten.BuyLevelOneIsWorstBid | BookProperties.LevelOneIsBest |
| main.cc:89-91 | `sortSellSidePrices` sorts asks descending, so `get_price('S', 1)` reads the highest ask | asks (1, 50.0, 100) and (2, 50.5, 100) | level 1 is the lowest ask | not executed | AsWritten.SellLevelOneIsWorstAsk | BookProperties.LevelOneIsBest |
| main.cc:171-180 | the sell branch adds only the size: no queue entry, and `orderNum` is never set or bumped | asks (1, 50.0, 10) then (2, 50.0, 5) | the same as the buy branch: queue the id and count it | not executed | AsWritten.SellOrderNotQueued | BookProperties.AddResult |
| main.cc:141 | the record is emplaced before the side is checked, so an order refused for its side stays in `bookData` | add(1, 'X', 50.0, 10) | an unknown side is refused with nothing recorded | not executed | AsWritten.UnknownSideStillRecorded | BookProperties.AddResult |
| main.cc:141-155 | a live id is not refused: emplace keeps the old record, but the level still queues and counts the new order | add(1, 'B', 45.4, 100) then add(1, 'B', 45.4, 50) | a live id is refused and the book is unchanged | not executed | AsWritten.DuplicateIdQueuedTwice | BookProperties.AddResult |

## Left out

- `makeTime` and `clock_gettime` (main.cc:38-44) are a wall-clock read. The book's `clock` field replaces them: a logical counter that stamps each arriving order.
- Floating-point prices (`double`, main.cc:51, 74) are left out. Prices are integer ticks, because the book only compares them for equality and order.
- Raw pointers into `orderData` and their stack lifetime (main.cc:136-153) are left out. There is one owning map keyed by id, and the queues refer to it by id.
- Console output with `cout` and `printf` (main.cc:185, 200, 213, 260, 287-292) and the demo `main` (main.cc:271-294) are I/O. The demo's calls are the lemma `DemoSession.DemoQueries`.
- `symbol`, `exchange`, `MAX_SYMBOL_SIZE`, the `strncpy` of the book symbol and the destructor (main.cc:32, 55-56, 113, 116-126) carry no behaviour and are left out.
- `sortSellSideData` and `sortBuySideData` (main.cc:61-67) are never called, so they are left out.
- The cost of `std::sort` and of the linear `find_if` is not modelled. A side is a sorted sequence, and a new level is inserted at its rank. `SideIndex.InsertIsSortAfterPush` shows that this is what sorting after the push produces.
- The 32-bit `int` of sizes and ids is modelled as an unbounded integer, so overflow of a level's aggregate is not modelled.
- `remove` as it is written does not compile, so only its reconstruction is modelled.
- When a queued order's level cannot be found, `RemoveOrder` and `ModifyOrder` return success with the book unchanged. `Inv` makes that case unreachable.
- Concurrency and locking are left out: the book is used by one writer at a time.
- BookSpec.AddOrder: has no `InvalidQuantity` error, because the code never checks a size. `add` accepts a size of 0 or less, and such an order is live with a non-positive size until it is removed or modified.
- BookSpec.RemoveOrder: differs from the source, which never takes the removed order out of the level's `orders` list or out of `bookData`. It only deletes the record and leaves a null entry behind in both, which matching would have to skip (main.cc:247). The model erases the id from the order index. Without this, the invariant that every live id is queued exactly once could not hold.
- PriceLevels.Dequeue: has no counterpart in the source. It removes the order's id from the level's queue and keeps the rest in order, so `orderNum` stays equal to the queue length. The source would leave a null entry in the list (main.cc:247).
