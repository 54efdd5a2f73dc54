/**
 * The session of the source's demo driver (main.cc:280-289) and the
 * follow-up calls a price-time book must answer. Prices are in ticks of
 * 0.1, so 45.4 is 454.
 */
module DemoSession {
  import opened Results
  import opened PriceLevels
  import opened SideIndex
  import opened BookSpec

  /** Five bids at three prices, then the cancel of the only bid at 45.3. */
  function DemoBook(): (r: Result<Book>) {
    var b1 :- AddOrder(EmptyBook(), 1, 'B', 454, 100);
    var b2 :- AddOrder(b1, 2, 'B', 453, 200);
    var b3 :- AddOrder(b2, 3, 'B', 454, 300);
    var b4 :- AddOrder(b3, 4, 'B', 459, 100);
    var b5 :- AddOrder(b4, 5, 'B', 459, 10);
    RemoveOrder(b5, 2)
  }

  function Bid(id: int, price: int, size: int, time: nat): (o: Order) {
    Order(id, Buy, price, size, time)
  }

  function Book1(): (b: Book) {
    Book(map[1 := Bid(1, 454, 100, 0)], [Level(454, 100, 1, [1])], [], 1)
  }

  function Book2(): (b: Book) {
    Book(map[1 := Bid(1, 454, 100, 0), 2 := Bid(2, 453, 200, 1)],
         [Level(454, 100, 1, [1]), Level(453, 200, 1, [2])], [], 2)
  }

  function Book3(): (b: Book) {
    Book(map[1 := Bid(1, 454, 100, 0), 2 := Bid(2, 453, 200, 1), 3 := Bid(3, 454, 300, 2)],
         [Level(454, 400, 2, [1, 3]), Level(453, 200, 1, [2])], [], 3)
  }

  function Book4(): (b: Book) {
    Book(map[1 := Bid(1, 454, 100, 0), 2 := Bid(2, 453, 200, 1), 3 := Bid(3, 454, 300, 2), 4 := Bid(4, 459, 100, 3)],
         [Level(459, 100, 1, [4]), Level(454, 400, 2, [1, 3]), Level(453, 200, 1, [2])], [], 4)
  }

  function Book5(): (b: Book) {
    Book(map[1 := Bid(1, 454, 100, 0), 2 := Bid(2, 453, 200, 1), 3 := Bid(3, 454, 300, 2), 4 := Bid(4, 459, 100, 3),
             5 := Bid(5, 459, 10, 4)],
         [Level(459, 110, 2, [4, 5]), Level(454, 400, 2, [1, 3]), Level(453, 200, 1, [2])], [], 5)
  }

  function Book6(): (b: Book) {
    Book(map[1 := Bid(1, 454, 100, 0), 3 := Bid(3, 454, 300, 2), 4 := Bid(4, 459, 100, 3), 5 := Bid(5, 459, 10, 4)],
         [Level(459, 110, 2, [4, 5]), Level(454, 400, 2, [1, 3])], [], 5)
  }

  function Book7(): (b: Book) {
    Book(map[3 := Bid(3, 454, 300, 2), 4 := Bid(4, 459, 100, 3), 5 := Bid(5, 459, 10, 4)],
         [Level(459, 110, 2, [4, 5]), Level(454, 300, 1, [3])], [], 5)
  }

  lemma Step1()
    ensures AddOrder(EmptyBook(), 1, 'B', 454, 100) == Ok(Book1())
  {
    assert InsertLevel(Buy, [], Level(454, 100, 1, [1])) == [Level(454, 100, 1, [1])];
  }

  lemma Step2()
    ensures AddOrder(Book1(), 2, 'B', 453, 200) == Ok(Book2())
  {
    var l1 := Level(454, 100, 1, [1]);
    assert Find([l1], 453) == 1 by { assert [l1][1..] == []; }
    assert Rank(Buy, [l1], 453) == 1 by { assert [l1][1..] == []; }
    assert InsertLevel(Buy, [l1], Level(453, 200, 1, [2])) == Book2().buy by {
      assert [l1][..1] == [l1] && [l1][1..] == [];
    }
    assert AddToLevels(Buy, [l1], 453, 2, 200) == Book2().buy;
    assert Book1().orders[2 := Bid(2, 453, 200, 1)] == Book2().orders;
  }

  lemma Step3()
    ensures AddOrder(Book2(), 3, 'B', 454, 300) == Ok(Book3())
  {
    var levels := Book2().buy;
    assert Find(levels, 454) == 0;
    assert [1] + [3] == [1, 3];
    assert levels[0 := Level(454, 100 + 300, 1 + 1, [1] + [3])] == Book3().buy;
    assert AddToLevels(Buy, levels, 454, 3, 300) == Book3().buy;
    assert Book2().orders[3 := Bid(3, 454, 300, 2)] == Book3().orders;
  }

  lemma Step4()
    ensures AddOrder(Book3(), 4, 'B', 459, 100) == Ok(Book4())
  {
    var levels := Book3().buy;
    assert Find(levels, 459) == 2 by {
      assert levels[1..] == [levels[1]];
      assert levels[1..][1..] == [];
    }
    assert Rank(Buy, levels, 459) == 0;
    assert InsertLevel(Buy, levels, Level(459, 100, 1, [4])) == Book4().buy by {
      assert levels[..0] == [] && levels[0..] == levels;
    }
    assert AddToLevels(Buy, levels, 459, 4, 100) == Book4().buy;
    assert Book3().orders[4 := Bid(4, 459, 100, 3)] == Book4().orders;
  }

  lemma Step5()
    ensures AddOrder(Book4(), 5, 'B', 459, 10) == Ok(Book5())
  {
    var levels := Book4().buy;
    assert Find(levels, 459) == 0;
    assert [4] + [5] == [4, 5];
    assert levels[0 := Level(459, 100 + 10, 1 + 1, [4] + [5])] == Book5().buy;
    assert AddToLevels(Buy, levels, 459, 5, 10) == Book5().buy;
    assert Book4().orders[5 := Bid(5, 459, 10, 4)] == Book5().orders;
  }

  lemma Step6()
    ensures RemoveOrder(Book5(), 2) == Ok(Book6())
  {
    var levels := Book5().buy;
    assert Find(levels, 453) == 2 by {
      assert levels[1..] == [levels[1], levels[2]];
      assert levels[1..][1..] == [levels[2]];
    }
    assert levels[..2] + levels[3..] == Book6().buy;
    assert Book5().orders - {2} == Book6().orders;
  }

  /** Level 1 is 45.9 with 110, level 2 is 45.4 with 400, and there is no level 3. */
  lemma DemoQueries()
    ensures DemoBook() == Ok(Book6())
    ensures PriceAt(Book6(), 'B', 1) == Ok(459) && SizeAt(Book6(), 'B', 1) == Ok(110)
    ensures PriceAt(Book6(), 'B', 2) == Ok(454) && SizeAt(Book6(), 'B', 2) == Ok(400)
    ensures PriceAt(Book6(), 'B', 3) == Err(LevelOutOfRange)
    ensures PriceAt(Book6(), 'X', 1) == Err(InvalidSide)
  {
    Step1();
    Step2();
    Step3();
    Step4();
    Step5();
    Step6();
  }

  lemma Step7()
    ensures ModifyOrder(Book6(), 1, 0) == Ok(Book7())
  {
    var levels := Book6().buy;
    assert Find(levels, 454) == 1 by {
      assert levels[1..] == [levels[1]];
    }
    assert Position([1, 3], 1) == 0;
    assert Dequeue([1, 3], 1) == [3] by {
      assert [1, 3][..0] + [1, 3][1..] == [3];
    }
    assert levels[1 := Level(454, 400 - 100, 2 - 1, [3])] == Book7().buy;
    assert Book6().orders - {1} == Book7().orders;
  }

  /**
   * After the demo, modify(1, 0) acts as remove(1): level 45.4 drops from
   * 400 to 300 and from two orders to one; re-adding a live id is refused
   * and leaves the book as it was.
   */
  lemma DemoFollowUps()
    ensures ModifyOrder(Book6(), 1, 0) == RemoveOrder(Book6(), 1) == Ok(Book7())
    ensures SizeAt(Book7(), 'B', 2) == Ok(300) && Book7().buy[1].orderNum == 1
    ensures PriceAt(Book7(), 'B', 1) == Ok(459) && SizeAt(Book7(), 'B', 1) == Ok(110)
    ensures AddOrder(Book6(), 4, 'B', 460, 50) == Err(DuplicateOrderId)
  {
    Step7();
  }
}
