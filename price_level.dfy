/**
 * Order records and price levels: one order's data (orderData) and one
 * level of a side (priceData) with its aggregate size, its order count and
 * its FIFO queue. A queue holds order ids that refer into the book's
 * id-keyed order index, never a second copy of a record.
 */
module PriceLevels {
  import opened Results

  /** Which half of the book an order rests on. */
  datatype Side = Buy | Sell

  function Opposite(s: Side): (t: Side)
    ensures t != s
  {
    if s == Buy then Sell else Buy
  }

  /** The one-letter side code of the book's interface: 'B' or 'S'. */
  function ParseSide(c: char): (r: Option<Side>)
    ensures r == Some(Buy) <==> c == 'B'
    ensures r == Some(Sell) <==> c == 'S'
    ensures r == None <==> c != 'B' && c != 'S'
  {
    if c == 'B' then Some(Buy) else if c == 'S' then Some(Sell) else None
  }

  /**
   * One order. Prices are integer ticks: the book only compares them.
   * `time` is the value of the book's logical clock when the order arrived.
   */
  datatype Order = Order(id: int, side: Side, price: int, size: int, time: nat)

  /** One price level: price, aggregate size, order count and FIFO queue of ids. */
  datatype Level = Level(price: int, size: int, orderNum: int, orders: seq<int>)

  /** The remaining size of order `id`, or 0 when the index does not hold it. */
  function SizeOf(index: map<int, Order>, id: int): (size: int) {
    if id in index then index[id].size else 0
  }

  /** The total remaining size of the orders queued in `q`. */
  ghost function QueueSize(q: seq<int>, index: map<int, Order>): int
    decreases |q|
  {
    if q == [] then 0 else QueueSize(q[..|q| - 1], index) + SizeOf(index, q[|q| - 1])
  }

  /** The first position of `id` in `q`, or |q| when it is not queued. */
  function Position(q: seq<int>, id: int): (j: nat)
    ensures j <= |q|
    ensures j < |q| ==> q[j] == id
    ensures forall i :: 0 <= i < j ==> q[i] != id
  {
    if q == [] then 0 else if q[0] == id then 0 else 1 + Position(q[1..], id)
  }

  /** `q` without its first occurrence of `id`; the others keep their order. */
  function Dequeue(q: seq<int>, id: int): (r: seq<int>)
    ensures id in q ==> |r| == |q| - 1
    ensures id !in q ==> r == q
  {
    var j := Position(q, id);
    if j < |q| then q[..j] + q[j + 1..] else q
  }

  /** Dequeue keeps the entries before the removed one in place and shifts the later ones down by one. */
  lemma DequeueOrder(q: seq<int>, id: int)
    requires id in q
    ensures forall i :: 0 <= i < Position(q, id) ==> Dequeue(q, id)[i] == q[i]
    ensures forall i :: Position(q, id) <= i < |q| - 1 ==> Dequeue(q, id)[i] == q[i + 1]
  {
    var j := Position(q, id);
    var r := Dequeue(q, id);
    assert r == q[..j] + q[j + 1..];
    forall i | 0 <= i < j ensures r[i] == q[i] {
      assert r[i] == q[..j][i];
    }
    forall i | j <= i < |q| - 1 ensures r[i] == q[i + 1] {
      assert r[i] == q[j + 1..][i - j];
    }
  }

  lemma QueueSizeAppend(q: seq<int>, index: map<int, Order>, id: int)
    ensures QueueSize(q + [id], index) == QueueSize(q, index) + SizeOf(index, id)
  {
    assert (q + [id])[..|q|] == q;
  }

  /** The aggregate depends only on the records of the queued orders. */
  lemma {:induction false} QueueSizeAgree(q: seq<int>, m1: map<int, Order>, m2: map<int, Order>)
    requires forall j :: 0 <= j < |q| ==> SizeOf(m1, q[j]) == SizeOf(m2, q[j])
    ensures QueueSize(q, m1) == QueueSize(q, m2)
    decreases |q|
  {
    if q != [] {
      var p := q[..|q| - 1];
      assert forall j :: 0 <= j < |p| ==> p[j] == q[j];
      QueueSizeAgree(p, m1, m2);
    }
  }

  /** Taking the entry at position k out of a queue takes its size out of the aggregate. */
  lemma {:induction false} QueueSizeDelete(q: seq<int>, index: map<int, Order>, k: nat)
    requires k < |q|
    ensures QueueSize(q[..k] + q[k + 1..], index) == QueueSize(q, index) - SizeOf(index, q[k])
    decreases |q|
  {
    var p := q[..|q| - 1];
    if k == |q| - 1 {
      assert q[..k] + q[k + 1..] == p;
    } else {
      QueueSizeDelete(p, index, k);
      assert q[..k] + q[k + 1..] == (p[..k] + p[k + 1..]) + [q[|q| - 1]];
      QueueSizeAppend(p[..k] + p[k + 1..], index, q[|q| - 1]);
    }
  }

  /**
   * Changing the record of an order queued exactly once changes the
   * aggregate by the difference of its sizes.
   */
  lemma QueueSizeResize(q: seq<int>, index: map<int, Order>, k: nat, o: Order)
    requires k < |q| && q[k] == o.id
    requires forall j :: 0 <= j < |q| && j != k ==> q[j] != o.id
    ensures QueueSize(q, index[o.id := o]) == QueueSize(q, index) - SizeOf(index, o.id) + o.size
  {
    var rest := q[..k] + q[k + 1..];
    var m2 := index[o.id := o];
    forall j | 0 <= j < |rest| ensures SizeOf(index, rest[j]) == SizeOf(m2, rest[j]) {
      if j < k { assert rest[j] == q[j]; } else { assert rest[j] == q[j + 1]; }
    }
    QueueSizeAgree(rest, index, m2);
    QueueSizeDelete(q, index, k);
    QueueSizeDelete(q, m2, k);
  }
}
