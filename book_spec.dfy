/**
 * The order book as a value: the order index (bookData), the two sorted
 * sides (buySide, sellSide) and the logical clock that stamps arrivals.
 * Each operation of OrderBook is a function from the old book to the new
 * one; the invariant that the two indexes agree is `Inv`.
 */
module BookSpec {
  import opened Results
  import opened PriceLevels
  import opened SideIndex

  datatype Book = Book(orders: map<int, Order>, buy: seq<Level>, sell: seq<Level>, clock: nat)

  function EmptyBook(): (b: Book) {
    Book(map[], [], [], 0)
  }

  function LevelsOf(b: Book, s: Side): (levels: seq<Level>) {
    if s == Buy then b.buy else b.sell
  }

  function WithLevels(b: Book, s: Side, levels: seq<Level>): (r: Book) {
    if s == Buy then b.(buy := levels) else b.(sell := levels)
  }

  /**
   * A level of side s agrees with the order index: it is not empty, its
   * count is its queue length, its size is the sum of its orders' sizes,
   * every queued order rests on side s at the level's price, and the
   * queue runs oldest first (so no order is queued twice).
   */
  ghost predicate LevelOk(index: map<int, Order>, s: Side, l: Level) {
    && |l.orders| > 0
    && l.orderNum == |l.orders|
    && l.size == QueueSize(l.orders, index)
    && (forall j :: 0 <= j < |l.orders| ==>
          l.orders[j] in index && index[l.orders[j]].side == s && index[l.orders[j]].price == l.price)
    && (forall j, j' :: 0 <= j < j' < |l.orders| ==> index[l.orders[j]].time < index[l.orders[j']].time)
  }

  ghost predicate SideOk(index: map<int, Order>, s: Side, levels: seq<Level>) {
    && Sorted(s, levels)
    && forall i {:trigger LevelOk(index, s, levels[i])} :: 0 <= i < |levels| ==> LevelOk(index, s, levels[i])
  }

  /** Order `id` is queued at the level of `price`. */
  ghost predicate Rests(levels: seq<Level>, id: int, price: int) {
    exists i :: 0 <= i < |levels| && levels[i].price == price && id in levels[i].orders
  }

  /** Every live order carries its own id, arrived before the clock's value, and is queued at its level. */
  ghost predicate IndexOk(b: Book) {
    forall id :: id in b.orders ==>
      && b.orders[id].id == id
      && b.orders[id].time < b.clock
      && Rests(LevelsOf(b, b.orders[id].side), id, b.orders[id].price)
  }

  /** Both sides are consistent, and every live order is queued at its own level. */
  ghost predicate Inv(b: Book) {
    && SideOk(b.orders, Buy, b.buy)
    && SideOk(b.orders, Sell, b.sell)
    && IndexOk(b)
  }

  /** add, for one side: join the level of `price`, or open it at its rank. */
  function AddToLevels(s: Side, levels: seq<Level>, price: int, id: int, size: int): (r: seq<Level>)
    ensures Find(levels, price) < |levels| ==> |r| == |levels|
    ensures Find(levels, price) == |levels| ==> |r| == |levels| + 1
  {
    var k := Find(levels, price);
    if k < |levels| then
      levels[k := Level(levels[k].price, levels[k].size + size, levels[k].orderNum + 1, levels[k].orders + [id])]
    else
      InsertLevel(s, levels, Level(price, size, 1, [id]))
  }

  /** OrderBook::add: record the order, stamp it with the clock and queue it on its side. */
  function AddOrder(b: Book, id: int, side: char, price: int, size: int): (r: Result<Book>)
    ensures r == Err(InvalidSide) <==> ParseSide(side).None?
    ensures r == Err(DuplicateOrderId) <==> ParseSide(side).Some? && id in b.orders
  {
    match ParseSide(side)
    case None => Err(InvalidSide)
    case Some(s) =>
      if id in b.orders then Err(DuplicateOrderId)
      else
        var o := Order(id, s, price, size, b.clock);
        Ok(WithLevels(Book(b.orders[id := o], b.buy, b.sell, b.clock + 1), s,
                      AddToLevels(s, LevelsOf(b, s), price, id, size)))
  }

  /** remove, for one side: drop the level if o was its last order, else take o out of it. */
  function RemoveFromLevels(levels: seq<Level>, k: nat, o: Order): (r: seq<Level>)
    requires k < |levels|
    ensures levels[k].orderNum == 1 ==> |r| == |levels| - 1
    ensures levels[k].orderNum != 1 ==> |r| == |levels| && r[k].price == levels[k].price
    ensures levels[k].orderNum != 1 ==> r[k].size == levels[k].size - o.size && r[k].orderNum == levels[k].orderNum - 1
  {
    var l := levels[k];
    if l.orderNum == 1 then levels[..k] + levels[k + 1..]
    else levels[k := Level(l.price, l.size - o.size, l.orderNum - 1, Dequeue(l.orders, o.id))]
  }

  /** OrderBook::remove. When the order's level is missing nothing changes. */
  function RemoveOrder(b: Book, id: int): (r: Result<Book>)
    ensures r == Err(OrderNotFound) <==> id !in b.orders
    ensures r.Err? ==> r == Err(OrderNotFound)
    ensures r.Ok? ==> r.value.clock == b.clock && (r.value.orders == b.orders - {id} || r.value == b)
  {
    if id !in b.orders then Err(OrderNotFound)
    else
      var o := b.orders[id];
      var levels := LevelsOf(b, o.side);
      var k := Find(levels, o.price);
      if k == |levels| then Ok(b)
      else Ok(WithLevels(b.(orders := b.orders - {id}), o.side, RemoveFromLevels(levels, k, o)))
  }

  /** modify, for one side: the level's aggregate moves by new size minus old size. */
  function ResizeInLevels(levels: seq<Level>, k: nat, o: Order, newSize: int): (r: seq<Level>)
    requires k < |levels|
    ensures |r| == |levels| && r[k].price == levels[k].price && r[k].orders == levels[k].orders
    ensures r[k].size - newSize == levels[k].size - o.size && r[k].orderNum == levels[k].orderNum
  {
    var l := levels[k];
    levels[k := Level(l.price, l.size - o.size + newSize, l.orderNum, l.orders)]
  }

  /** OrderBook::modify: a non-positive size removes the order, any other size replaces it in place. */
  function ModifyOrder(b: Book, id: int, newSize: int): (r: Result<Book>)
    ensures r == Err(OrderNotFound) <==> id !in b.orders
    ensures r.Err? ==> r == Err(OrderNotFound)
    ensures newSize <= 0 ==> r == RemoveOrder(b, id)
    ensures newSize > 0 && r.Ok? ==> r.value.orders.Keys == b.orders.Keys && r.value.clock == b.clock
  {
    if id !in b.orders then Err(OrderNotFound)
    else if newSize <= 0 then RemoveOrder(b, id)
    else
      var o := b.orders[id];
      var levels := LevelsOf(b, o.side);
      var k := Find(levels, o.price);
      if k == |levels| then Ok(b)
      else Ok(WithLevels(b.(orders := b.orders[id := o.(size := newSize)]), o.side, ResizeInLevels(levels, k, o, newSize)))
  }

  /** get_price: the price of level n (1 = best) of a side. */
  function PriceAt(b: Book, side: char, n: int): (r: Result<int>)
    ensures r == Err(InvalidSide) <==> ParseSide(side).None?
    ensures r.Ok? <==> ParseSide(side).Some? && 1 <= n <= |LevelsOf(b, ParseSide(side).value)|
    ensures r.Err? ==> r.error == InvalidSide || r.error == LevelOutOfRange
  {
    match ParseSide(side)
    case None => Err(InvalidSide)
    case Some(s) =>
      var levels := LevelsOf(b, s);
      if 1 <= n <= |levels| then Ok(levels[n - 1].price) else Err(LevelOutOfRange)
  }

  /** get_size: the aggregate size of level n (1 = best) of a side. */
  function SizeAt(b: Book, side: char, n: int): (r: Result<int>)
    ensures r == Err(InvalidSide) <==> ParseSide(side).None?
    ensures r.Ok? <==> ParseSide(side).Some? && 1 <= n <= |LevelsOf(b, ParseSide(side).value)|
    ensures r.Err? ==> r.error == InvalidSide || r.error == LevelOutOfRange
  {
    match ParseSide(side)
    case None => Err(InvalidSide)
    case Some(s) =>
      var levels := LevelsOf(b, s);
      if 1 <= n <= |levels| then Ok(levels[n - 1].size) else Err(LevelOutOfRange)
  }
}
