/** What each operation of OrderBook does to the levels and the order index of a consistent book. */
module BookProperties {
  import opened Results
  import opened PriceLevels
  import opened SideIndex
  import opened BookSpec
  import opened BookInvariant

  /** add at a price its side already has: that level grows by the order, nothing else moves. */
  lemma AddAtExistingPrice(b: Book, id: int, side: char, price: int, size: int, i: nat)
    requires Inv(b)
    requires ParseSide(side).Some? && id !in b.orders
    requires i < |LevelsOf(b, ParseSide(side).value)| && LevelsOf(b, ParseSide(side).value)[i].price == price
    ensures var s := ParseSide(side).value;
      var levels := LevelsOf(b, s);
      var r := AddOrder(b, id, side, price, size);
      && r.Ok?
      && r.value.orders == b.orders[id := Order(id, s, price, size, b.clock)]
      && |LevelsOf(r.value, s)| == |levels|
      && LevelsOf(r.value, s)[i] == Level(price, levels[i].size + size, levels[i].orderNum + 1, levels[i].orders + [id])
      && (forall j :: 0 <= j < |levels| && j != i ==> LevelsOf(r.value, s)[j] == levels[j])
      && LevelsOf(r.value, Opposite(s)) == LevelsOf(b, Opposite(s))
  {
    var s := ParseSide(side).value;
    assert SideOk(b.orders, s, LevelsOf(b, s));
    FindAt(s, LevelsOf(b, s), i);
  }

  /** add at a price its side lacks: exactly one new level, holding only the order, at its rank. */
  lemma AddAtNewPrice(b: Book, id: int, side: char, price: int, size: int)
    requires Inv(b)
    requires ParseSide(side).Some? && id !in b.orders
    requires forall j :: 0 <= j < |LevelsOf(b, ParseSide(side).value)| ==> LevelsOf(b, ParseSide(side).value)[j].price != price
    ensures var s := ParseSide(side).value;
      var levels := LevelsOf(b, s);
      var r := AddOrder(b, id, side, price, size);
      && r.Ok?
      && r.value.orders == b.orders[id := Order(id, s, price, size, b.clock)]
      && multiset(LevelsOf(r.value, s)) == multiset(levels) + multiset{Level(price, size, 1, [id])}
      && Sorted(s, LevelsOf(r.value, s))
      && LevelsOf(r.value, Opposite(s)) == LevelsOf(b, Opposite(s))
  {
    var s := ParseSide(side).value;
    var levels := LevelsOf(b, s);
    var newLevel := Level(price, size, 1, [id]);
    assert Find(levels, price) == |levels|;
    assert AddToLevels(s, levels, price, id, size) == InsertLevel(s, levels, newLevel);
    var after := WithLevels(Book(b.orders[id := Order(id, s, price, size, b.clock)], b.buy, b.sell, b.clock + 1), s,
                            InsertLevel(s, levels, newLevel));
    assert AddOrder(b, id, side, price, size) == Ok(after);
    assert LevelsOf(after, s) == InsertLevel(s, levels, newLevel);
    assert LevelsOf(after, Opposite(s)) == LevelsOf(b, Opposite(s));
    assert SideOk(b.orders, s, levels);
    InsertLevelSorted(s, levels, newLevel);
    InsertLevelContents(s, levels, newLevel);
  }

  /**
   * add fails only on an unknown side or a live id, and then changes
   * nothing; otherwise the new record is indexed once, queued on its own
   * side at its own price, and the book stays consistent.
   */
  lemma AddResult(b: Book, id: int, side: char, price: int, size: int)
    requires Inv(b)
    ensures AddOrder(b, id, side, price, size) == Err(InvalidSide) <==> ParseSide(side).None?
    ensures AddOrder(b, id, side, price, size) == Err(DuplicateOrderId) <==> ParseSide(side).Some? && id in b.orders
    ensures AddOrder(b, id, side, price, size).Ok? ==>
      var s := ParseSide(side).value;
      var after := AddOrder(b, id, side, price, size).value;
      && Inv(after)
      && after.orders == b.orders[id := Order(id, s, price, size, b.clock)]
      && Rests(LevelsOf(after, s), id, price)
  {
    AddKeepsInv(b, id, side, price, size);
    if AddOrder(b, id, side, price, size).Ok? {
      var after := AddOrder(b, id, side, price, size).value;
      assert id in after.orders;
    }
  }

  /** No two levels of a side share a price. */
  lemma PricesUnique(b: Book, s: Side, i: nat, j: nat)
    requires Inv(b)
    requires i < |LevelsOf(b, s)| && j < |LevelsOf(b, s)| && i != j
    ensures LevelsOf(b, s)[i].price != LevelsOf(b, s)[j].price
  {
    assert SideOk(b.orders, s, LevelsOf(b, s));
    SortedPricesDistinct(s, LevelsOf(b, s), i, j);
  }

  /** Each live order sits in exactly one queue: the one of its own side and price, once. */
  lemma ExactlyOneQueue(b: Book, id: int)
    requires Inv(b) && id in b.orders
    ensures var o := b.orders[id];
      var levels := LevelsOf(b, o.side);
      var k := Find(levels, o.price);
      && k < |levels| && id in levels[k].orders
      && forall t, i, j :: 0 <= i < |LevelsOf(b, t)| && 0 <= j < |LevelsOf(b, t)[i].orders| && LevelsOf(b, t)[i].orders[j] == id ==>
           t == o.side && i == k && j == Position(levels[k].orders, id)
  {
    var o := b.orders[id];
    var levels := LevelsOf(b, o.side);
    LocateOrder(b, id);
    var k := Find(levels, o.price);
    assert SideOk(b.orders, o.side, levels);
    OnlyAtOwnLevel(b.orders, o.side, levels, k, id);
    forall t, i, j | 0 <= i < |LevelsOf(b, t)| && 0 <= j < |LevelsOf(b, t)[i].orders| && LevelsOf(b, t)[i].orders[j] == id
      ensures t == o.side && i == k && j == Position(levels[k].orders, id)
    {
      assert SideOk(b.orders, t, LevelsOf(b, t));
      assert LevelOk(b.orders, t, LevelsOf(b, t)[i]);
      assert t == o.side;
      assert id in levels[i].orders;
      assert LevelOk(b.orders, t, levels[k]);
      QueuedOnce(b.orders, t, levels[k], j, Position(levels[k].orders, id));
    }
  }

  /** remove succeeds exactly for live ids; the record leaves the index and no queue holds it. */
  lemma RemoveResult(b: Book, id: int)
    requires Inv(b)
    ensures RemoveOrder(b, id).Ok? <==> id in b.orders
    ensures RemoveOrder(b, id).Ok? ==>
      var after := RemoveOrder(b, id).value;
      && after.orders == b.orders - {id}
      && after.clock == b.clock
      && (forall t, i :: 0 <= i < |LevelsOf(after, t)| ==> id !in LevelsOf(after, t)[i].orders)
      && RemoveOrder(after, id) == Err(OrderNotFound)
  {
    if id in b.orders {
      LocateOrder(b, id);
      RemoveKeepsInv(b, id);
      var after := RemoveOrder(b, id).value;
      forall t, i | 0 <= i < |LevelsOf(after, t)| ensures id !in LevelsOf(after, t)[i].orders {
        assert SideOk(after.orders, t, LevelsOf(after, t));
        FreshIdNotQueued(after.orders, t, LevelsOf(after, t), id);
      }
    }
  }

  /** remove of the last order at a price deletes the whole level; the others keep their order. */
  lemma RemoveLastOrder(b: Book, id: int, i: nat)
    requires Inv(b) && id in b.orders
    requires var o := b.orders[id];
      i < |LevelsOf(b, o.side)| && LevelsOf(b, o.side)[i].price == o.price && LevelsOf(b, o.side)[i].orderNum == 1
    ensures var o := b.orders[id];
      var levels := LevelsOf(b, o.side);
      var r := RemoveOrder(b, id);
      && r.Ok?
      && r.value.orders == b.orders - {id}
      && LevelsOf(r.value, o.side) == levels[..i] + levels[i + 1..]
      && Sorted(o.side, LevelsOf(r.value, o.side))
      && Find(LevelsOf(r.value, o.side), o.price) == |levels| - 1
      && LevelsOf(r.value, Opposite(o.side)) == LevelsOf(b, Opposite(o.side))
  {
    var o := b.orders[id];
    var levels := LevelsOf(b, o.side);
    assert SideOk(b.orders, o.side, levels);
    FindAt(o.side, levels, i);
    DeleteLevelSorted(o.side, levels, i);
    var after := levels[..i] + levels[i + 1..];
    forall j | 0 <= j < |after| ensures after[j].price != o.price {
      var j' := if j < i then j else j + 1;
      assert after[j] == levels[j'];
      SortedPricesDistinct(o.side, levels, i, j');
    }
  }

  /** remove of one of several orders at a price: count down by one, size down by the order's size, queue order kept. */
  lemma RemoveOneOfSeveral(b: Book, id: int, i: nat, j: nat)
    requires Inv(b) && id in b.orders
    requires var o := b.orders[id];
      i < |LevelsOf(b, o.side)| && LevelsOf(b, o.side)[i].price == o.price && LevelsOf(b, o.side)[i].orderNum > 1
    requires var q := LevelsOf(b, b.orders[id].side)[i].orders; j < |q| && q[j] == id
    ensures var o := b.orders[id];
      var levels := LevelsOf(b, o.side);
      var q := levels[i].orders;
      var r := RemoveOrder(b, id);
      && r.Ok?
      && r.value.orders == b.orders - {id}
      && |LevelsOf(r.value, o.side)| == |levels|
      && LevelsOf(r.value, o.side)[i] == Level(o.price, levels[i].size - o.size, levels[i].orderNum - 1, q[..j] + q[j + 1..])
      && id !in LevelsOf(r.value, o.side)[i].orders
      && (forall k :: 0 <= k < |levels| && k != i ==> LevelsOf(r.value, o.side)[k] == levels[k])
      && LevelsOf(r.value, Opposite(o.side)) == LevelsOf(b, Opposite(o.side))
  {
    var o := b.orders[id];
    var levels := LevelsOf(b, o.side);
    assert SideOk(b.orders, o.side, levels);
    FindAt(o.side, levels, i);
    assert LevelOk(b.orders, o.side, levels[i]);
    QueuedOnce(b.orders, o.side, levels[i], j, Position(levels[i].orders, id));
    RemoveResult(b, id);
  }

  /** modify to a non-positive size is remove. */
  lemma ModifyNonPositiveIsRemove(b: Book, id: int, newSize: int)
    requires newSize <= 0
    ensures ModifyOrder(b, id, newSize) == RemoveOrder(b, id)
  {
  }

  /** modify to a positive size: the record and the level's aggregate change, the queue does not. */
  lemma ModifyInPlace(b: Book, id: int, newSize: int, i: nat)
    requires Inv(b) && id in b.orders && newSize > 0
    requires var o := b.orders[id]; i < |LevelsOf(b, o.side)| && LevelsOf(b, o.side)[i].price == o.price
    ensures var o := b.orders[id];
      var levels := LevelsOf(b, o.side);
      var r := ModifyOrder(b, id, newSize);
      && r.Ok?
      && r.value.orders == b.orders[id := o.(size := newSize)]
      && |LevelsOf(r.value, o.side)| == |levels|
      && LevelsOf(r.value, o.side)[i].orders == levels[i].orders
      && LevelsOf(r.value, o.side)[i].orderNum == levels[i].orderNum
      && LevelsOf(r.value, o.side)[i].size == levels[i].size + (newSize - o.size)
      && LevelsOf(r.value, o.side)[i].price == o.price
      && (forall k :: 0 <= k < |levels| && k != i ==> LevelsOf(r.value, o.side)[k] == levels[k])
      && LevelsOf(r.value, Opposite(o.side)) == LevelsOf(b, Opposite(o.side))
  {
    var o := b.orders[id];
    assert SideOk(b.orders, o.side, LevelsOf(b, o.side));
    FindAt(o.side, LevelsOf(b, o.side), i);
  }

  /** modify succeeds exactly for live ids. */
  lemma ModifyResult(b: Book, id: int, newSize: int)
    requires Inv(b)
    ensures ModifyOrder(b, id, newSize).Ok? <==> id in b.orders
  {
    if id in b.orders {
      LocateOrder(b, id);
    }
  }

  /** An id is free again once its order is removed: adding it back succeeds. */
  lemma RemoveThenAdd(b: Book, id: int, side: char, price: int, size: int)
    requires Inv(b) && id in b.orders && ParseSide(side).Some?
    ensures RemoveOrder(b, id).Ok?
    ensures AddOrder(RemoveOrder(b, id).value, id, side, price, size).Ok?
  {
    RemoveResult(b, id);
  }

  /** Levels are reported best first: a lower level number never has a worse price. */
  lemma QueriesBestFirst(b: Book, side: char, n: int, n': int)
    requires Inv(b)
    requires PriceAt(b, side, n).Ok? && PriceAt(b, side, n').Ok? && n < n'
    ensures Better(ParseSide(side).value, PriceAt(b, side, n).value, PriceAt(b, side, n').value)
  {
    assert SideOk(b.orders, ParseSide(side).value, LevelsOf(b, ParseSide(side).value));
  }

  /** Level 1 holds the best price of its side: the highest bid or the lowest ask. */
  lemma LevelOneIsBest(b: Book, side: char)
    requires Inv(b) && PriceAt(b, side, 1).Ok?
    ensures var s := ParseSide(side).value;
      forall l :: l in LevelsOf(b, s) ==> l.price == PriceAt(b, side, 1).value || Better(s, PriceAt(b, side, 1).value, l.price)
  {
    var s := ParseSide(side).value;
    assert SideOk(b.orders, s, LevelsOf(b, s));
  }

  /** get_size reports the total remaining size of the orders queued at that level, and the level exists. */
  lemma SizeIsQueueTotal(b: Book, side: char, n: int)
    requires Inv(b) && SizeAt(b, side, n).Ok?
    ensures var levels := LevelsOf(b, ParseSide(side).value);
      && PriceAt(b, side, n).Ok?
      && SizeAt(b, side, n).value == QueueSize(levels[n - 1].orders, b.orders)
      && levels[n - 1].orderNum == |levels[n - 1].orders| > 0
  {
    var s := ParseSide(side).value;
    assert SideOk(b.orders, s, LevelsOf(b, s));
    assert LevelOk(b.orders, s, LevelsOf(b, s)[n - 1]);
  }
}
