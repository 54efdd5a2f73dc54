/**
 * One side of the book (buySide or sellSide): a sequence of price levels
 * kept best-first, found by price (priceDataFinder) and extended by
 * inserting a new level at its rank (push_back followed by std::sort).
 */
module SideIndex {
  import opened PriceLevels

  /** Price a has strictly higher priority than price b: a higher bid, or a lower ask. */
  predicate Better(s: Side, a: int, b: int) {
    if s == Buy then a > b else a < b
  }

  /** The levels of side s in strictly decreasing priority; level 0 is the best. */
  predicate Sorted(s: Side, levels: seq<Level>) {
    forall i, j :: 0 <= i < j < |levels| ==> Better(s, levels[i].price, levels[j].price)
  }

  /** The first level whose price equals `price`, or |levels| when there is none. */
  function Find(levels: seq<Level>, price: int): (k: nat)
    ensures k <= |levels|
    ensures k < |levels| ==> levels[k].price == price
    ensures forall i :: 0 <= i < k ==> levels[i].price != price
  {
    if levels == [] then 0
    else if levels[0].price == price then 0
    else 1 + Find(levels[1..], price)
  }

  /** The number of leading levels whose price has priority over `price`. */
  function Rank(s: Side, levels: seq<Level>, price: int): (k: nat)
    ensures k <= |levels|
    ensures forall i :: 0 <= i < k ==> Better(s, levels[i].price, price)
    ensures k < |levels| ==> !Better(s, levels[k].price, price)
  {
    if levels == [] || !Better(s, levels[0].price, price) then 0
    else 1 + Rank(s, levels[1..], price)
  }

  /** `levels` with `level` placed at the rank of its price. */
  function InsertLevel(s: Side, levels: seq<Level>, level: Level): (r: seq<Level>)
    ensures |r| == |levels| + 1
  {
    var k := Rank(s, levels, level.price);
    levels[..k] + [level] + levels[k..]
  }

  /** Inserting a level adds exactly that level to the side's contents. */
  lemma InsertLevelContents(s: Side, levels: seq<Level>, level: Level)
    ensures multiset(InsertLevel(s, levels, level)) == multiset(levels) + multiset{level}
  {
    var k := Rank(s, levels, level.price);
    assert levels == levels[..k] + levels[k..];
  }

  lemma SortedPricesDistinct(s: Side, levels: seq<Level>, i: nat, j: nat)
    requires Sorted(s, levels)
    requires i < |levels| && j < |levels| && i != j
    ensures levels[i].price != levels[j].price
  {
    if i < j { assert Better(s, levels[i].price, levels[j].price); }
    else { assert Better(s, levels[j].price, levels[i].price); }
  }

  /** On a sorted side a price is found exactly at the level that carries it. */
  lemma FindAt(s: Side, levels: seq<Level>, i: nat)
    requires Sorted(s, levels) && i < |levels|
    ensures Find(levels, levels[i].price) == i
  {
    var k := Find(levels, levels[i].price);
    if k != i { SortedPricesDistinct(s, levels, i, k); }
  }

  /** `r` is `a` with `x` spliced in at position k. */
  lemma Splice(a: seq<Level>, k: nat, x: Level, r: seq<Level>)
    requires k <= |a| && r == a[..k] + [x] + a[k..]
    ensures r[k] == x
    ensures forall i :: 0 <= i < k ==> r[i] == a[i]
    ensures forall i :: k < i <= |a| ==> r[i] == a[i - 1]
  {
    forall i | 0 <= i < k ensures r[i] == a[i] { assert r[i] == a[..k][i]; }
    forall i | k < i <= |a| ensures r[i] == a[i - 1] { assert r[i] == a[k..][i - k - 1]; }
  }

  /** InsertLevel keeps the levels ahead of the rank in place and shifts the rest back by one. */
  lemma InsertLevelShape(s: Side, levels: seq<Level>, level: Level)
    ensures var k := Rank(s, levels, level.price);
      && InsertLevel(s, levels, level)[k] == level
      && (forall i :: 0 <= i < k ==> InsertLevel(s, levels, level)[i] == levels[i])
      && (forall i :: k < i <= |levels| ==> InsertLevel(s, levels, level)[i] == levels[i - 1])
  {
    Splice(levels, Rank(s, levels, level.price), level, InsertLevel(s, levels, level));
  }

  /** Inserting the level of a price the side lacks keeps the side sorted. */
  lemma InsertLevelSorted(s: Side, levels: seq<Level>, level: Level)
    requires Sorted(s, levels)
    requires Find(levels, level.price) == |levels|
    ensures Sorted(s, InsertLevel(s, levels, level))
  {
    var k := Rank(s, levels, level.price);
    var r := InsertLevel(s, levels, level);
    InsertLevelShape(s, levels, level);
    // the new price is missing from the side, so the level at the rank comes after it
    assert k < |levels| ==> Better(s, level.price, levels[k].price) by {
      if k < |levels| { assert levels[k].price != level.price; }
    }
    forall i, j | 0 <= i < j < |r| ensures Better(s, r[i].price, r[j].price) {
      if j < k {
        assert r[i] == levels[i] && r[j] == levels[j];
      } else if j == k {
        assert r[i] == levels[i];
      } else if i == k {
        assert r[j] == levels[j - 1];
        if j - 1 > k { assert Better(s, levels[k].price, levels[j - 1].price); }
      } else if i < k {
        assert r[i] == levels[i] && r[j] == levels[j - 1];
      } else {
        assert r[i] == levels[i - 1] && r[j] == levels[j - 1];
      }
    }
  }

  /** The head of a sorted side has priority over every other level in it. */
  lemma HeadIsBest(s: Side, a: seq<Level>, x: Level)
    requires Sorted(s, a) && x in a
    ensures x == a[0] || Better(s, a[0].price, x.price)
  {
    var i :| 0 <= i < |a| && a[i] == x;
    if i != 0 { assert Better(s, a[0].price, a[i].price); }
  }

  /** Two sorted arrangements of the same levels are the same sequence. */
  lemma {:induction false} SortedUnique(s: Side, a: seq<Level>, b: seq<Level>)
    requires Sorted(s, a) && Sorted(s, b)
    requires multiset(a) == multiset(b)
    ensures a == b
    decreases |a|
  {
    if a == [] {
      assert |b| == |multiset(b)| == 0;
    } else {
      SameHead(s, a, b);
      TailOf(s, a);
      TailOf(s, b);
      SortedUnique(s, a[1..], b[1..]);
      assert a == [a[0]] + a[1..] && b == [b[0]] + b[1..];
    }
  }

  /** Two sorted arrangements of the same non-empty levels start with the same, best, level. */
  lemma SameHead(s: Side, a: seq<Level>, b: seq<Level>)
    requires Sorted(s, a) && Sorted(s, b)
    requires multiset(a) == multiset(b) && |a| > 0
    ensures |b| > 0 && a[0] == b[0]
  {
    assert |b| == |multiset(b)| == |a|;
    assert a[0] in multiset(b) && b[0] in multiset(a);
    HeadIsBest(s, b, a[0]);
    HeadIsBest(s, a, b[0]);
  }

  /** The tail of a sorted side is sorted and holds everything but the head. */
  lemma TailOf(s: Side, a: seq<Level>)
    requires Sorted(s, a) && |a| > 0
    ensures Sorted(s, a[1..])
    ensures multiset(a[1..]) == multiset(a) - multiset{a[0]}
  {
    assert a == [a[0]] + a[1..];
    forall i, j | 0 <= i < j < |a| - 1 ensures Better(s, a[1..][i].price, a[1..][j].price) {
      assert a[1..][i] == a[i + 1] && a[1..][j] == a[j + 1];
    }
  }

  /**
   * push_back followed by a sort: any sorted arrangement of the side and
   * the new level is exactly InsertLevel's result.
   */
  lemma InsertIsSortAfterPush(s: Side, levels: seq<Level>, level: Level, sorted: seq<Level>)
    requires Sorted(s, levels)
    requires Find(levels, level.price) == |levels|
    requires Sorted(s, sorted) && multiset(sorted) == multiset(levels + [level])
    ensures sorted == InsertLevel(s, levels, level)
  {
    InsertLevelSorted(s, levels, level);
    InsertLevelContents(s, levels, level);
    SortedUnique(s, sorted, InsertLevel(s, levels, level));
  }

  /** Deleting a level keeps the remaining levels in sorted order. */
  lemma DeleteLevelSorted(s: Side, levels: seq<Level>, k: nat)
    requires Sorted(s, levels) && k < |levels|
    ensures Sorted(s, levels[..k] + levels[k + 1..])
  {
    var r := levels[..k] + levels[k + 1..];
    forall i, j | 0 <= i < j < |r| ensures Better(s, r[i].price, r[j].price) {
      var i' := if i < k then i else i + 1;
      var j' := if j < k then j else j + 1;
      assert r[i] == levels[i'] && r[j] == levels[j'];
    }
  }
}
