/**
 * Every mutation of the book keeps the two indexes in agreement: sorted
 * sides, consistent level aggregates, and each live order queued at its
 * own level.
 */
module BookInvariant {
  import opened Results
  import opened PriceLevels
  import opened SideIndex
  import opened BookSpec

  /** A level stays consistent when no record it queues changes. */
  lemma LevelFrame(m1: map<int, Order>, m2: map<int, Order>, s: Side, l: Level, id: int)
    requires LevelOk(m1, s, l)
    requires id !in l.orders
    requires forall x :: x in m1 && x != id ==> x in m2 && m2[x] == m1[x]
    ensures LevelOk(m2, s, l)
  {
    QueueSizeAgree(l.orders, m1, m2);
  }

  /** A side stays consistent when no record it queues changes. */
  lemma SideFrame(m1: map<int, Order>, m2: map<int, Order>, s: Side, levels: seq<Level>, id: int)
    requires SideOk(m1, s, levels)
    requires forall i :: 0 <= i < |levels| ==> id !in levels[i].orders
    requires forall x :: x in m1 && x != id ==> x in m2 && m2[x] == m1[x]
    ensures SideOk(m2, s, levels)
  {
    forall i | 0 <= i < |levels| ensures LevelOk(m2, s, levels[i]) {
      LevelFrame(m1, m2, s, levels[i], id);
    }
  }

  /** A FIFO queue holds each order once. */
  lemma QueuedOnce(m: map<int, Order>, s: Side, l: Level, j: nat, j': nat)
    requires LevelOk(m, s, l)
    requires j < |l.orders| && j' < |l.orders| && l.orders[j] == l.orders[j']
    ensures j == j'
  {
  }

  /** An order is queued only at the level of its own price. */
  lemma OnlyAtOwnLevel(m: map<int, Order>, s: Side, levels: seq<Level>, k: nat, id: int)
    requires SideOk(m, s, levels)
    requires k < |levels| && id in levels[k].orders
    ensures forall i :: 0 <= i < |levels| && i != k ==> id !in levels[i].orders
  {
    forall i | 0 <= i < |levels| && i != k ensures id !in levels[i].orders {
      SortedPricesDistinct(s, levels, i, k);
      assert LevelOk(m, s, levels[k]) && LevelOk(m, s, levels[i]);
    }
  }

  /** Queue ids of a side of the book never belong to an order missing from the index. */
  lemma FreshIdNotQueued(m: map<int, Order>, s: Side, levels: seq<Level>, id: int)
    requires SideOk(m, s, levels)
    requires id !in m
    ensures forall i :: 0 <= i < |levels| ==> id !in levels[i].orders
  {
    forall i | 0 <= i < |levels| ensures id !in levels[i].orders {
      assert LevelOk(m, s, levels[i]);
    }
  }

  /** Queue ids of one side never belong to an order of the other side. */
  lemma OtherSideNotQueued(m: map<int, Order>, s: Side, levels: seq<Level>, id: int)
    requires SideOk(m, s, levels)
    requires id in m && m[id].side != s
    ensures forall i :: 0 <= i < |levels| ==> id !in levels[i].orders
  {
    forall i | 0 <= i < |levels| ensures id !in levels[i].orders {
      assert LevelOk(m, s, levels[i]);
    }
  }

  /** Appending a new, youngest order to a level keeps the level consistent. */
  lemma AppendLevelOk(m: map<int, Order>, s: Side, l: Level, o: Order)
    requires LevelOk(m, s, l)
    requires o.id !in m && o.side == s && o.price == l.price
    requires forall x :: x in m ==> m[x].time < o.time
    ensures LevelOk(m[o.id := o], s, Level(l.price, l.size + o.size, l.orderNum + 1, l.orders + [o.id]))
  {
    var m' := m[o.id := o];
    var q' := l.orders + [o.id];
    LevelFrame(m, m', s, l, o.id);
    QueueSizeAppend(l.orders, m', o.id);
    assert forall j :: 0 <= j < |l.orders| ==> q'[j] == l.orders[j];
  }

  /** A level opened for one order is consistent. */
  lemma SingleLevelOk(m: map<int, Order>, o: Order)
    ensures LevelOk(m[o.id := o], o.side, Level(o.price, o.size, 1, [o.id]))
  {
    QueueSizeAppend([], m[o.id := o], o.id);
    assert [] + [o.id] == [o.id];
  }

  /** add at a price the side already has keeps the side consistent. */
  lemma JoinLevelOk(m: map<int, Order>, s: Side, levels: seq<Level>, o: Order, k: nat)
    requires SideOk(m, s, levels)
    requires o.id !in m && o.side == s
    requires forall x :: x in m ==> m[x].time < o.time
    requires k < |levels| && levels[k].price == o.price
    ensures var l := levels[k];
      var after := levels[k := Level(l.price, l.size + o.size, l.orderNum + 1, l.orders + [o.id])];
      && SideOk(m[o.id := o], s, after)
      && Rests(after, o.id, o.price)
      && forall x, p :: Rests(levels, x, p) ==> Rests(after, x, p)
  {
    var m' := m[o.id := o];
    var l := levels[k];
    var after := levels[k := Level(l.price, l.size + o.size, l.orderNum + 1, l.orders + [o.id])];
    FreshIdNotQueued(m, s, levels, o.id);
    forall i | 0 <= i < |after| ensures LevelOk(m', s, after[i]) {
      if i == k {
        AppendLevelOk(m, s, l, o);
      } else {
        LevelFrame(m, m', s, levels[i], o.id);
      }
    }
    assert Sorted(s, after) by {
      assert forall i :: 0 <= i < |after| ==> after[i].price == levels[i].price;
    }
    assert after[k].price == o.price && o.id in after[k].orders;
    forall x, p | Rests(levels, x, p) ensures Rests(after, x, p) {
      var i :| 0 <= i < |levels| && levels[i].price == p && x in levels[i].orders;
      assert after[i].price == p && x in after[i].orders;
    }
  }

  /** Inserting a level moves no queued order away from its price. */
  lemma RestsAfterInsert(levels: seq<Level>, r: nat, level: Level)
    requires r <= |levels|
    ensures forall x, p :: Rests(levels, x, p) ==> Rests(levels[..r] + [level] + levels[r..], x, p)
  {
    var after := levels[..r] + [level] + levels[r..];
    assert after[r] == level;
    forall x, p | Rests(levels, x, p) ensures Rests(after, x, p) {
      var i :| 0 <= i < |levels| && levels[i].price == p && x in levels[i].orders;
      if i < r { assert after[i] == levels[i]; } else { assert after[i + 1] == levels[i]; }
    }
  }

  /** Splicing the one-order level of a new order anywhere into a side keeps every level consistent. */
  lemma SpliceLevelsOk(m: map<int, Order>, s: Side, levels: seq<Level>, o: Order, r: nat)
    requires SideOk(m, s, levels)
    requires o.id !in m && o.side == s
    requires r <= |levels|
    ensures var after := levels[..r] + [Level(o.price, o.size, 1, [o.id])] + levels[r..];
      forall i :: 0 <= i < |after| ==> LevelOk(m[o.id := o], s, after[i])
  {
    var m' := m[o.id := o];
    var after := levels[..r] + [Level(o.price, o.size, 1, [o.id])] + levels[r..];
    FreshIdNotQueued(m, s, levels, o.id);
    forall i | 0 <= i < |after| ensures LevelOk(m', s, after[i]) {
      if i < r {
        assert after[i] == levels[i];
        LevelFrame(m, m', s, levels[i], o.id);
      } else if i == r {
        SingleLevelOk(m, o);
      } else {
        assert after[i] == levels[i - 1];
        LevelFrame(m, m', s, levels[i - 1], o.id);
      }
    }
  }

  /** add at a price the side lacks keeps the side consistent. */
  lemma OpenLevelOk(m: map<int, Order>, s: Side, levels: seq<Level>, o: Order)
    requires SideOk(m, s, levels)
    requires o.id !in m && o.side == s
    requires Find(levels, o.price) == |levels|
    ensures var after := InsertLevel(s, levels, Level(o.price, o.size, 1, [o.id]));
      && SideOk(m[o.id := o], s, after)
      && Rests(after, o.id, o.price)
      && forall x, p :: Rests(levels, x, p) ==> Rests(after, x, p)
  {
    var m' := m[o.id := o];
    var newLevel := Level(o.price, o.size, 1, [o.id]);
    var after := InsertLevel(s, levels, newLevel);
    var r := Rank(s, levels, o.price);
    assert after == levels[..r] + [newLevel] + levels[r..];
    assert Sorted(s, after) by {
      InsertLevelSorted(s, levels, newLevel);
    }
    SpliceLevelsOk(m, s, levels, o, r);
    assert Rests(after, o.id, o.price) by {
      assert after[r] == newLevel;
    }
    RestsAfterInsert(levels, r, newLevel);
  }

  /** Queuing a new order on its side keeps the side consistent. */
  lemma AddToLevelsOk(m: map<int, Order>, s: Side, levels: seq<Level>, o: Order)
    requires SideOk(m, s, levels)
    requires o.id !in m && o.side == s
    requires forall x :: x in m ==> m[x].time < o.time
    ensures var after := AddToLevels(s, levels, o.price, o.id, o.size);
      && SideOk(m[o.id := o], s, after)
      && Rests(after, o.id, o.price)
      && forall x, p :: Rests(levels, x, p) ==> Rests(after, x, p)
  {
    var k := Find(levels, o.price);
    if k < |levels| {
      JoinLevelOk(m, s, levels, o, k);
    } else {
      OpenLevelOk(m, s, levels, o);
    }
  }

  /** After add every live order is still queued at its own level. */
  lemma IndexAfterAdd(b: Book, s: Side, o: Order, b': Book)
    requires IndexOk(b) && o.side == s && o.id !in b.orders && o.time == b.clock
    requires b'.orders == b.orders[o.id := o] && b'.clock == b.clock + 1
    requires LevelsOf(b', Buy) == b'.buy && LevelsOf(b', Sell) == b'.sell
    requires Rests(LevelsOf(b', s), o.id, o.price)
    requires forall x, p :: Rests(LevelsOf(b, s), x, p) ==> Rests(LevelsOf(b', s), x, p)
    requires forall t :: t != s ==> LevelsOf(b', t) == LevelsOf(b, t)
    ensures IndexOk(b')
  {
    forall x | x in b'.orders
      ensures b'.orders[x].id == x && b'.orders[x].time < b'.clock
      ensures Rests(LevelsOf(b', b'.orders[x].side), x, b'.orders[x].price)
    {
      if x != o.id {
        var t := b.orders[x].side;
        assert Rests(LevelsOf(b, t), x, b.orders[x].price);
      }
    }
  }

  /** add keeps the book consistent. */
  lemma AddKeepsInv(b: Book, id: int, side: char, price: int, size: int)
    requires Inv(b)
    ensures AddOrder(b, id, side, price, size).Ok? ==> Inv(AddOrder(b, id, side, price, size).value)
  {
    if AddOrder(b, id, side, price, size).Ok? {
      var s := ParseSide(side).value;
      var o := Order(id, s, price, size, b.clock);
      var m' := b.orders[id := o];
      var b' := AddOrder(b, id, side, price, size).value;
      var levels := LevelsOf(b, s);
      AddToLevelsOk(b.orders, s, levels, o);
      assert LevelsOf(b', s) == AddToLevels(s, levels, price, id, size);
      forall t: Side | t != s ensures SideOk(m', t, LevelsOf(b', t)) {
        assert LevelsOf(b', t) == LevelsOf(b, t);
        FreshIdNotQueued(b.orders, t, LevelsOf(b, t), id);
        SideFrame(b.orders, m', t, LevelsOf(b, t), id);
      }
      assert SideOk(m', Buy, b'.buy) && SideOk(m', Sell, b'.sell) by {
        assert b'.buy == LevelsOf(b', Buy) && b'.sell == LevelsOf(b', Sell);
      }
      IndexAfterAdd(b, s, o, b');
    }
  }

  /** Dequeuing from a queue that runs oldest first leaves it oldest first. */
  lemma FifoAfterDequeue(m: map<int, Order>, q: seq<int>, id: int)
    requires id in q
    requires forall i :: 0 <= i < |q| ==> q[i] in m
    requires forall i, i' :: 0 <= i < i' < |q| ==> m[q[i]].time < m[q[i']].time
    ensures var q' := Dequeue(q, id);
      forall i, i' :: 0 <= i < i' < |q'| ==> q'[i] in m && q'[i'] in m && m[q'[i]].time < m[q'[i']].time
  {
    var q' := Dequeue(q, id);
    var j := Position(q, id);
    DequeueOrder(q, id);
    forall i, i' | 0 <= i < i' < |q'| ensures q'[i] in m && q'[i'] in m && m[q'[i]].time < m[q'[i']].time {
      var k := if i < j then i else i + 1;
      var k' := if i' < j then i' else i' + 1;
      assert q'[i] == q[k] && q'[i'] == q[k'] && k < k';
    }
  }

  /** The orders left in a level after a dequeue are still live orders of that side and price. */
  lemma DequeueMembers(m: map<int, Order>, s: Side, l: Level, id: int)
    requires LevelOk(m, s, l) && id in l.orders
    ensures var q' := Dequeue(l.orders, id);
      forall i :: 0 <= i < |q'| ==> q'[i] != id && q'[i] in m - {id} && m[q'[i]].side == s && m[q'[i]].price == l.price
  {
    var q := l.orders;
    var q' := Dequeue(q, id);
    var j := Position(q, id);
    DequeueOrder(q, id);
    forall i | 0 <= i < |q'| ensures q'[i] != id && q'[i] in m - {id} && m[q'[i]].side == s && m[q'[i]].price == l.price {
      var i' := if i < j then i else i + 1;
      assert q'[i] == q[i'] && i' != j;
    }
  }

  /** Taking one of several orders out of a level keeps the level consistent. */
  lemma ShrinkLevelOk(m: map<int, Order>, s: Side, l: Level, o: Order)
    requires LevelOk(m, s, l)
    requires o.id in l.orders && o.id in m && m[o.id] == o && l.orderNum != 1
    ensures LevelOk(m - {o.id}, s, Level(l.price, l.size - o.size, l.orderNum - 1, Dequeue(l.orders, o.id)))
  {
    var m' := m - {o.id};
    var q := l.orders;
    var q' := Dequeue(q, o.id);
    assert |q'| == l.orderNum - 1 > 0;
    DequeueMembers(m, s, l, o.id);
    FifoAfterDequeue(m, q, o.id);
    assert QueueSize(q', m') == l.size - o.size by {
      QueueSizeAgree(q', m, m');
      QueueSizeDelete(q, m, Position(q, o.id));
    }
  }

  /** remove at a level with several orders keeps the side consistent. */
  lemma ShrinkSideOk(m: map<int, Order>, s: Side, levels: seq<Level>, k: nat, o: Order)
    requires SideOk(m, s, levels)
    requires k < |levels| && o.id in levels[k].orders && o.id in m && m[o.id] == o
    requires levels[k].orderNum != 1
    ensures var l := levels[k];
      var after := levels[k := Level(l.price, l.size - o.size, l.orderNum - 1, Dequeue(l.orders, o.id))];
      && SideOk(m - {o.id}, s, after)
      && forall x, p :: x != o.id && Rests(levels, x, p) ==> Rests(after, x, p)
  {
    var m' := m - {o.id};
    var l := levels[k];
    var l' := Level(l.price, l.size - o.size, l.orderNum - 1, Dequeue(l.orders, o.id));
    var after := levels[k := l'];
    assert Sorted(s, after) by {
      assert forall i :: 0 <= i < |after| ==> after[i].price == levels[i].price;
    }
    assert forall i :: 0 <= i < |after| ==> LevelOk(m', s, after[i]) by {
      OnlyAtOwnLevel(m, s, levels, k, o.id);
      forall i | 0 <= i < |after| ensures LevelOk(m', s, after[i]) {
        if i == k {
          ShrinkLevelOk(m, s, l, o);
        } else {
          LevelFrame(m, m', s, levels[i], o.id);
        }
      }
    }
    forall x, p | x != o.id && Rests(levels, x, p) ensures Rests(after, x, p) {
      var i :| 0 <= i < |levels| && levels[i].price == p && x in levels[i].orders;
      if i == k {
        var q := l.orders;
        var j := Position(q, o.id);
        assert q == q[..j] + [q[j]] + q[j + 1..];
        assert x in Dequeue(q, o.id);
      }
      assert after[i].price == p && x in after[i].orders;
    }
  }

  /** remove of the last order of a level deletes the level and keeps the side consistent. */
  lemma DeleteSideOk(m: map<int, Order>, s: Side, levels: seq<Level>, k: nat, o: Order)
    requires SideOk(m, s, levels)
    requires k < |levels| && o.id in levels[k].orders && o.id in m && m[o.id] == o
    requires levels[k].orderNum == 1
    ensures var after := levels[..k] + levels[k + 1..];
      && SideOk(m - {o.id}, s, after)
      && forall x, p :: x != o.id && Rests(levels, x, p) ==> Rests(after, x, p)
  {
    var m' := m - {o.id};
    var after := levels[..k] + levels[k + 1..];
    assert Sorted(s, after) by {
      DeleteLevelSorted(s, levels, k);
    }
    assert forall i :: 0 <= i < |after| ==> LevelOk(m', s, after[i]) by {
      OnlyAtOwnLevel(m, s, levels, k, o.id);
      forall i | 0 <= i < |after| ensures LevelOk(m', s, after[i]) {
        var i' := if i < k then i else i + 1;
        assert after[i] == levels[i'];
        LevelFrame(m, m', s, levels[i'], o.id);
      }
    }
    assert LevelOk(m, s, levels[k]);
    assert levels[k].orders == [o.id];
    forall x, p | x != o.id && Rests(levels, x, p) ensures Rests(after, x, p) {
      var i :| 0 <= i < |levels| && levels[i].price == p && x in levels[i].orders;
      var i' := if i < k then i else i - 1;
      assert after[i'] == levels[i];
    }
  }

  /** remove, for the order's side: the side stays consistent and the other orders stay queued. */
  lemma RemoveFromLevelsOk(m: map<int, Order>, s: Side, levels: seq<Level>, k: nat, o: Order)
    requires SideOk(m, s, levels)
    requires k < |levels| && o.id in levels[k].orders && o.id in m && m[o.id] == o
    ensures SideOk(m - {o.id}, s, RemoveFromLevels(levels, k, o))
    ensures forall x, p :: x != o.id && Rests(levels, x, p) ==> Rests(RemoveFromLevels(levels, k, o), x, p)
  {
    if levels[k].orderNum == 1 {
      DeleteSideOk(m, s, levels, k, o);
    } else {
      ShrinkSideOk(m, s, levels, k, o);
    }
  }

  /** A live order's level is the one Find locates by its price. */
  lemma LocateOrder(b: Book, id: int)
    requires Inv(b) && id in b.orders
    ensures var o := b.orders[id];
      var levels := LevelsOf(b, o.side);
      Find(levels, o.price) < |levels| && id in levels[Find(levels, o.price)].orders
  {
    var o := b.orders[id];
    var levels := LevelsOf(b, o.side);
    assert Rests(levels, id, o.price);
    var i :| 0 <= i < |levels| && levels[i].price == o.price && id in levels[i].orders;
    assert SideOk(b.orders, o.side, levels);
    FindAt(o.side, levels, i);
  }

  /** After remove every remaining order is still queued at its own level. */
  lemma IndexAfterRemove(b: Book, o: Order, b': Book)
    requires IndexOk(b) && o.id in b.orders && b.orders[o.id] == o
    requires b'.orders == b.orders - {o.id} && b'.clock == b.clock
    requires forall x, p :: x != o.id && Rests(LevelsOf(b, o.side), x, p) ==> Rests(LevelsOf(b', o.side), x, p)
    requires forall t :: t != o.side ==> LevelsOf(b', t) == LevelsOf(b, t)
    ensures IndexOk(b')
  {
    forall x | x in b'.orders
      ensures b'.orders[x].id == x && b'.orders[x].time < b'.clock
      ensures Rests(LevelsOf(b', b'.orders[x].side), x, b'.orders[x].price)
    {
      var t := b.orders[x].side;
      assert Rests(LevelsOf(b, t), x, b.orders[x].price);
    }
  }

  /** remove keeps the book consistent. */
  lemma RemoveKeepsInv(b: Book, id: int)
    requires Inv(b)
    ensures RemoveOrder(b, id).Ok? ==> Inv(RemoveOrder(b, id).value)
  {
    if id in b.orders {
      var o := b.orders[id];
      var s := o.side;
      var levels := LevelsOf(b, s);
      LocateOrder(b, id);
      var k := Find(levels, o.price);
      var m' := b.orders - {id};
      var b' := RemoveOrder(b, id).value;
      assert b' == WithLevels(b.(orders := m'), s, RemoveFromLevels(levels, k, o));
      assert SideOk(b.orders, s, levels);
      RemoveFromLevelsOk(b.orders, s, levels, k, o);
      assert LevelsOf(b', s) == RemoveFromLevels(levels, k, o);
      forall t: Side | t != s ensures SideOk(m', t, LevelsOf(b', t)) {
        assert LevelsOf(b', t) == LevelsOf(b, t);
        assert SideOk(b.orders, t, LevelsOf(b, t));
        OtherSideNotQueued(b.orders, t, LevelsOf(b, t), id);
        SideFrame(b.orders, m', t, LevelsOf(b, t), id);
      }
      assert SideOk(m', Buy, b'.buy) && SideOk(m', Sell, b'.sell) by {
        assert b'.buy == LevelsOf(b', Buy) && b'.sell == LevelsOf(b', Sell);
      }
      IndexAfterRemove(b, o, b');
    }
  }

  /** Resizing an order in place keeps its level consistent. */
  lemma ResizeLevelOk(m: map<int, Order>, s: Side, l: Level, o: Order, newSize: int)
    requires LevelOk(m, s, l)
    requires o.id in l.orders && o.id in m && m[o.id] == o
    ensures LevelOk(m[o.id := o.(size := newSize)], s, Level(l.price, l.size - o.size + newSize, l.orderNum, l.orders))
  {
    var q := l.orders;
    var j := Position(q, o.id);
    forall i | 0 <= i < |q| && i != j ensures q[i] != o.id {
      if q[i] == o.id { QueuedOnce(m, s, l, i, j); }
    }
    QueueSizeResize(q, m, j, o.(size := newSize));
  }

  /** modify, for the order's side: the side stays consistent and every order stays queued. */
  lemma ResizeInLevelsOk(m: map<int, Order>, s: Side, levels: seq<Level>, k: nat, o: Order, newSize: int)
    requires SideOk(m, s, levels)
    requires k < |levels| && o.id in levels[k].orders && o.id in m && m[o.id] == o
    ensures SideOk(m[o.id := o.(size := newSize)], s, ResizeInLevels(levels, k, o, newSize))
    ensures forall x, p :: Rests(levels, x, p) ==> Rests(ResizeInLevels(levels, k, o, newSize), x, p)
  {
    var m' := m[o.id := o.(size := newSize)];
    var after := ResizeInLevels(levels, k, o, newSize);
    assert forall i :: 0 <= i < |after| ==> after[i].price == levels[i].price && after[i].orders == levels[i].orders;
    assert forall i :: 0 <= i < |after| ==> LevelOk(m', s, after[i]) by {
      OnlyAtOwnLevel(m, s, levels, k, o.id);
      forall i | 0 <= i < |after| ensures LevelOk(m', s, after[i]) {
        if i == k {
          ResizeLevelOk(m, s, levels[k], o, newSize);
        } else {
          LevelFrame(m, m', s, levels[i], o.id);
        }
      }
    }
    forall x, p | Rests(levels, x, p) ensures Rests(after, x, p) {
      var i :| 0 <= i < |levels| && levels[i].price == p && x in levels[i].orders;
      assert after[i].price == p && x in after[i].orders;
    }
  }

  /** After modify every order is still queued at its own level. */
  lemma IndexAfterResize(b: Book, o: Order, newSize: int, b': Book)
    requires IndexOk(b) && o.id in b.orders && b.orders[o.id] == o
    requires b'.orders == b.orders[o.id := o.(size := newSize)] && b'.clock == b.clock
    requires forall x, p :: Rests(LevelsOf(b, o.side), x, p) ==> Rests(LevelsOf(b', o.side), x, p)
    requires forall t :: t != o.side ==> LevelsOf(b', t) == LevelsOf(b, t)
    ensures IndexOk(b')
  {
    forall x | x in b'.orders
      ensures b'.orders[x].id == x && b'.orders[x].time < b'.clock
      ensures Rests(LevelsOf(b', b'.orders[x].side), x, b'.orders[x].price)
    {
      var t := b.orders[x].side;
      assert Rests(LevelsOf(b, t), x, b.orders[x].price);
    }
  }

  /** modify keeps the book consistent. */
  lemma ModifyKeepsInv(b: Book, id: int, newSize: int)
    requires Inv(b)
    ensures ModifyOrder(b, id, newSize).Ok? ==> Inv(ModifyOrder(b, id, newSize).value)
  {
    if id in b.orders {
      if newSize <= 0 {
        RemoveKeepsInv(b, id);
      } else {
        var o := b.orders[id];
        var s := o.side;
        var levels := LevelsOf(b, s);
        LocateOrder(b, id);
        var k := Find(levels, o.price);
        var m' := b.orders[id := o.(size := newSize)];
        var b' := ModifyOrder(b, id, newSize).value;
        assert b' == WithLevels(b.(orders := m'), s, ResizeInLevels(levels, k, o, newSize));
        assert SideOk(b.orders, s, levels);
        ResizeInLevelsOk(b.orders, s, levels, k, o, newSize);
        assert LevelsOf(b', s) == ResizeInLevels(levels, k, o, newSize);
        forall t: Side | t != s ensures SideOk(m', t, LevelsOf(b', t)) {
          assert LevelsOf(b', t) == LevelsOf(b, t);
          assert SideOk(b.orders, t, LevelsOf(b, t));
          OtherSideNotQueued(b.orders, t, LevelsOf(b, t), id);
          SideFrame(b.orders, m', t, LevelsOf(b, t), id);
        }
        assert SideOk(m', Buy, b'.buy) && SideOk(m', Sell, b'.sell) by {
          assert b'.buy == LevelsOf(b', Buy) && b'.sell == LevelsOf(b', Sell);
        }
        IndexAfterResize(b, o, newSize, b');
      }
    }
  }
}
