/**
 * OrderBook (main.cc:101-264): one symbol's book. It owns the order index
 * `bookData` and the two sorted sides `buySide` and `sellSide`, and updates
 * them in place. `clock` is the logical arrival counter that stands in for
 * the wall-clock stamp the source takes in makeTime.
 */
module OrderBooks {
  import opened Results
  import opened PriceLevels
  import opened SideIndex
  import opened BookSpec
  import BookInvariant

  class OrderBook {
    var bookData: map<int, Order>
    var buySide: seq<Level>
    var sellSide: seq<Level>
    var clock: nat

    /** The book's state as a value. */
    function Model(): (b: Book)
      reads this
    {
      Book(bookData, buySide, sellSide, clock)
    }

    /** The order index and the two sides agree. */
    ghost predicate Valid()
      reads this
    {
      Inv(Model())
    }

    /** An empty book. */
    constructor ()
      ensures Valid()
      ensures Model() == EmptyBook()
    {
      bookData := map[];
      buySide := [];
      sellSide := [];
      clock := 0;
    }

    /** add: record the order and queue it at the back of its price level on its side. */
    method Add(id: int, side: char, price: int, size: int) returns (r: Outcome)
      requires Valid()
      modifies this
      ensures Valid()
      ensures r == ToOutcome(AddOrder(old(Model()), id, side, price, size))
      ensures r.Pass? ==> Model() == AddOrder(old(Model()), id, side, price, size).value
      ensures r.Fail? ==> Model() == old(Model())
    {
      var s: Side;
      match ParseSide(side) {
        case None => return Fail(InvalidSide);
        case Some(t) => s := t;
      }
      if id in bookData {
        return Fail(DuplicateOrderId);
      }
      BookInvariant.AddKeepsInv(Model(), id, side, price, size);
      bookData := bookData[id := Order(id, s, price, size, clock)];
      if s == Buy {
        buySide := AddToLevels(Buy, buySide, price, id, size);
      } else {
        sellSide := AddToLevels(Sell, sellSide, price, id, size);
      }
      clock := clock + 1;
      r := Pass;
    }

    /** remove: take the order out of its level, dropping the level with its last order, then erase the record. */
    method Remove(id: int) returns (r: Outcome)
      requires Valid()
      modifies this
      ensures Valid()
      ensures r == ToOutcome(RemoveOrder(old(Model()), id))
      ensures r == Fail(OrderNotFound) <==> id !in old(bookData)
      ensures r.Pass? ==> Model() == RemoveOrder(old(Model()), id).value
      ensures r.Fail? ==> Model() == old(Model())
    {
      if id !in bookData {
        return Fail(OrderNotFound);
      }
      BookInvariant.RemoveKeepsInv(Model(), id);
      var o := bookData[id];
      var levels := if o.side == Buy then buySide else sellSide;
      var k := Find(levels, o.price);
      if k < |levels| {
        levels := RemoveFromLevels(levels, k, o);
        if o.side == Buy { buySide := levels; } else { sellSide := levels; }
        bookData := bookData - {id};
      }
      r := Pass;
    }

    /** modify: resize the order in place (its queue position is kept); a non-positive size removes it. */
    method Modify(id: int, newSize: int) returns (r: Outcome)
      requires Valid()
      modifies this
      ensures Valid()
      ensures r == ToOutcome(ModifyOrder(old(Model()), id, newSize))
      ensures r == Fail(OrderNotFound) <==> id !in old(bookData)
      ensures r.Pass? ==> Model() == ModifyOrder(old(Model()), id, newSize).value
      ensures r.Fail? ==> Model() == old(Model())
    {
      if id !in bookData {
        return Fail(OrderNotFound);
      }
      if newSize <= 0 {
        r := Remove(id);
        return;
      }
      BookInvariant.ModifyKeepsInv(Model(), id, newSize);
      var o := bookData[id];
      var levels := if o.side == Buy then buySide else sellSide;
      var k := Find(levels, o.price);
      if k < |levels| {
        levels := ResizeInLevels(levels, k, o, newSize);
        if o.side == Buy { buySide := levels; } else { sellSide := levels; }
        bookData := bookData[id := o.(size := newSize)];
      }
      r := Pass;
    }

    /** get_price: the price of level n (1 = best) of side 'B' or 'S'. */
    method GetPrice(side: char, n: int) returns (r: Result<int>)
      ensures r == PriceAt(Model(), side, n)
      ensures ParseSide(side).None? ==> r == Err(InvalidSide)
      ensures ParseSide(side).Some? ==>
        var levels := LevelsOf(Model(), ParseSide(side).value);
        if 1 <= n <= |levels| then r == Ok(levels[n - 1].price) else r == Err(LevelOutOfRange)
    {
      var levels: seq<Level>;
      match ParseSide(side) {
        case None => return Err(InvalidSide);
        case Some(s) => levels := if s == Buy then buySide else sellSide;
      }
      if n < 1 || n > |levels| {
        return Err(LevelOutOfRange);
      }
      r := Ok(levels[n - 1].price);
    }

    /** get_size: the aggregate size of level n (1 = best) of side 'B' or 'S'. */
    method GetSize(side: char, n: int) returns (r: Result<int>)
      ensures r == SizeAt(Model(), side, n)
      ensures ParseSide(side).None? ==> r == Err(InvalidSide)
      ensures ParseSide(side).Some? ==>
        var levels := LevelsOf(Model(), ParseSide(side).value);
        if 1 <= n <= |levels| then r == Ok(levels[n - 1].size) else r == Err(LevelOutOfRange)
    {
      var levels: seq<Level>;
      match ParseSide(side) {
        case None => return Err(InvalidSide);
        case Some(s) => levels := if s == Buy then buySide else sellSide;
      }
      if n < 1 || n > |levels| {
        return Err(LevelOutOfRange);
      }
      r := Ok(levels[n - 1].size);
    }
  }
}
