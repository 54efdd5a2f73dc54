/**
 * OrderBook::add as main.cc:130-190 writes it, kept beside the
 * corrected model to exhibit where the two part ways. The record is
 * stored by id; makeTime's stamp is not modelled.
 */
module AsWritten {
  import opened PriceLevels
  import opened SideIndex

  /** orderData as the source stores it: the side is the raw character. */
  datatype RawOrder = RawOrder(id: int, side: char, price: int, size: int)

  datatype RawBook = RawBook(bookData: map<int, RawOrder>, buySide: seq<Level>, sellSide: seq<Level>)

  function EmptyRawBook(): (b: RawBook) {
    RawBook(map[], [], [])
  }

  /**
   * add as written: the record is emplaced before the side is looked at
   * (emplace keeps an existing entry under the same id); the buy branch
   * joins or opens a level and sorts ascending (sortBuySidePrices); the
   * sell branch only adds to the size of an existing level, or opens a
   * level with no queued order and sorts descending (sortSellSidePrices).
   * priceData's constructor leaves orderNum unset; 0 stands for it here.
   */
  function AddAsWritten(b: RawBook, id: int, side: char, price: int, size: int): (r: RawBook)
    ensures id in r.bookData
    ensures side != 'B' && side != 'S' ==> r.buySide == b.buySide && r.sellSide == b.sellSide
  {
    var data := if id in b.bookData then b.bookData else b.bookData[id := RawOrder(id, side, price, size)];
    if side == 'B' then
      var k := Find(b.buySide, price);
      var buy :=
        if k < |b.buySide| then
          b.buySide[k := Level(b.buySide[k].price, b.buySide[k].size + size, b.buySide[k].orderNum + 1, b.buySide[k].orders + [id])]
        else
          InsertLevel(Sell, b.buySide, Level(price, size, 1, [id]));
      RawBook(data, buy, b.sellSide)
    else if side == 'S' then
      var k := Find(b.sellSide, price);
      var sell :=
        if k < |b.sellSide| then
          b.sellSide[k := Level(b.sellSide[k].price, b.sellSide[k].size + size, b.sellSide[k].orderNum, b.sellSide[k].orders)]
        else
          InsertLevel(Buy, b.sellSide, Level(price, size, 0, []));
      RawBook(data, b.buySide, sell)
    else
      RawBook(data, b.buySide, b.sellSide)
  }

  /** The buy comparator sorts ascending: after bids at 45.4 and 45.9, level 1 is the lower bid. */
  lemma BuyLevelOneIsWorstBid()
    ensures var r := AddAsWritten(AddAsWritten(EmptyRawBook(), 1, 'B', 454, 100), 2, 'B', 459, 100);
      |r.buySide| == 2 && r.buySide[0].price == 454 && r.buySide[1].price == 459
  {
    var l := Level(454, 100, 1, [1]);
    assert InsertLevel(Sell, [], l) == [l];
    assert Find([l], 459) == 1 by { assert [l][1..] == []; }
    assert Rank(Sell, [l], 459) == 1 by { assert [l][1..] == []; }
  }

  /** The sell comparator sorts descending: after asks at 50.0 and 50.5, level 1 is the higher ask. */
  lemma SellLevelOneIsWorstAsk()
    ensures var r := AddAsWritten(AddAsWritten(EmptyRawBook(), 1, 'S', 500, 100), 2, 'S', 505, 100);
      |r.sellSide| == 2 && r.sellSide[0].price == 505 && r.sellSide[1].price == 500
  {
    var l := Level(500, 100, 0, []);
    assert InsertLevel(Buy, [], l) == [l];
    assert Find([l], 505) == 1 by { assert [l][1..] == []; }
    assert Rank(Buy, [l], 505) == 0;
  }

  /** A sell order is recorded but queued nowhere, and its level's count is not bumped when it joins. */
  lemma SellOrderNotQueued()
    ensures var r1 := AddAsWritten(EmptyRawBook(), 1, 'S', 500, 10);
      var r2 := AddAsWritten(r1, 2, 'S', 500, 5);
      && 1 in r1.bookData && r1.sellSide == [Level(500, 10, 0, [])]
      && 2 in r2.bookData && r2.sellSide == [Level(500, 15, 0, [])]
  {
    var l := Level(500, 10, 0, []);
    assert InsertLevel(Buy, [], l) == [l];
    var r1 := RawBook(map[1 := RawOrder(1, 'S', 500, 10)], [], [l]);
    assert AddAsWritten(EmptyRawBook(), 1, 'S', 500, 10) == r1;
    assert Find([l], 500) == 0;
    assert [l][0 := Level(500, 10 + 5, 0, [])] == [Level(500, 15, 0, [])];
    assert AddAsWritten(r1, 2, 'S', 500, 5).sellSide == [Level(500, 15, 0, [])];
  }

  /** An order with an unknown side is still recorded, though no side holds it. */
  lemma UnknownSideStillRecorded()
    ensures var r := AddAsWritten(EmptyRawBook(), 1, 'X', 500, 10);
      1 in r.bookData && r.buySide == [] && r.sellSide == []
  {
  }

  /** A reused live id keeps its old record but is queued a second time and its size counted again. */
  lemma DuplicateIdQueuedTwice()
    ensures var r := AddAsWritten(AddAsWritten(EmptyRawBook(), 1, 'B', 454, 100), 1, 'B', 454, 50);
      && r.bookData[1].size == 100
      && r.buySide == [Level(454, 150, 2, [1, 1])]
  {
    var l := Level(454, 100, 1, [1]);
    assert InsertLevel(Sell, [], l) == [l];
    var r1 := RawBook(map[1 := RawOrder(1, 'B', 454, 100)], [l], []);
    assert AddAsWritten(EmptyRawBook(), 1, 'B', 454, 100) == r1;
    assert Find([l], 454) == 0;
    assert [1] + [1] == [1, 1];
    assert [l][0 := Level(454, 100 + 50, 1 + 1, [1] + [1])] == [Level(454, 150, 2, [1, 1])];
  }
}
