/** One side of the book as the engine stores it: price levels in key order, each a
    FIFO queue (`BTreeMap<Price, VecDeque<Resting>>`, crates/matching-engine/src/book.rs).
    A side is kept best price first, so `asks` is the map in iteration order and `bids`
    the map iterated from the back. */
module Ladders {
  import opened EngineTypes
  import opened MatchSpec

  datatype Level = Level(price: I64, queue: seq<Resting>)

  type Ladder = seq<Level>

  /** Map keys: distinct and ordered. */
  ghost predicate Sorted(side: Side, l: Ladder) {
    forall i, j :: 0 <= i < j < |l| ==> Before(side, l[i].price, l[j].price)
  }

  ghost predicate NoEmptyLevel(l: Ladder) {
    forall i :: 0 <= i < |l| ==> l[i].queue != []
  }

  // -- Flattening ------------------------------------------------------------

  function Tag(price: I64, queue: seq<Resting>): (r: seq<Entry>)
    ensures |r| == |queue|
  {
    seq(|queue|, i requires 0 <= i < |queue| => Entry(price, queue[i]))
  }

  /** The side as one queue in priority order. */
  function Flat(l: Ladder): seq<Entry> {
    if l == [] then [] else Tag(l[0].price, l[0].queue) + Flat(l[1..])
  }

  lemma {:induction false} FlatAppend(a: Ladder, b: Ladder)
    ensures Flat(a + b) == Flat(a) + Flat(b)
  {
    if a == [] {
      assert a + b == b;
    } else {
      assert (a + b)[1..] == a[1..] + b;
      FlatAppend(a[1..], b);
    }
  }

  lemma FlatOne(x: Level)
    ensures Flat([x]) == Tag(x.price, x.queue)
  {
  }

  lemma FlatSplit(a: Ladder, x: Level, b: Ladder)
    ensures Flat(a + [x] + b) == Flat(a) + Tag(x.price, x.queue) + Flat(b)
  {
    FlatAppend(a + [x], b);
    FlatAppend(a, [x]);
    FlatOne(x);
  }

  lemma SplitAround<T>(s: seq<T>, k: nat)
    requires k < |s|
    ensures s == s[..k] + [s[k]] + s[k + 1..]
  {
  }

  lemma SplitAt<T>(s: seq<T>, k: nat)
    requires k <= |s|
    ensures s == s[..k] + s[k..]
  {
  }

  lemma FlatAt(l: Ladder, k: nat)
    requires k < |l|
    ensures Flat(l) == Flat(l[..k]) + Tag(l[k].price, l[k].queue) + Flat(l[k + 1..])
  {
    SplitAround(l, k);
    FlatSplit(l[..k], l[k], l[k + 1..]);
  }

  lemma FlatPrices(side: Side, l: Ladder, price: int)
    requires forall i :: 0 <= i < |l| ==> Before(side, price, l[i].price)
    ensures forall k :: 0 <= k < |Flat(l)| ==> Before(side, price, Flat(l)[k].price)
  {
  }

  /** Ordered keys flatten to a ranked queue. */
  lemma {:induction false} FlatRanked(side: Side, l: Ladder)
    requires Sorted(side, l)
    ensures Ranked(side, Flat(l))
  {
    if l != [] {
      FlatRanked(side, l[1..]);
      FlatPrices(side, l[1..], l[0].price);
    }
  }

  /** The flat queue determines the levels: two ordered ladders without empty levels
      that flatten alike are equal. */
  lemma {:induction false} FlatInjective(side: Side, a: Ladder, b: Ladder)
    requires Sorted(side, a) && NoEmptyLevel(a)
    requires Sorted(side, b) && NoEmptyLevel(b)
    requires Flat(a) == Flat(b)
    ensures a == b
  {
    if a == [] || b == [] {
      assert (a == [] <==> Flat(a) == []) && (b == [] <==> Flat(b) == []);
    } else {
      assert Flat(a)[0].price == a[0].price && Flat(b)[0].price == b[0].price;
      FlatPrices(side, a[1..], a[0].price);
      FlatPrices(side, b[1..], b[0].price);
      HeadsMatch(side, a, b);
      FlatInjective(side, a[1..], b[1..]);
      assert a == [a[0]] + a[1..] && b == [b[0]] + b[1..];
    }
  }

  lemma HeadEnds(side: Side, a: Ladder)
    requires a != []
    requires forall k :: 0 <= k < |Flat(a[1..])| ==> Before(side, a[0].price, Flat(a[1..])[k].price)
    ensures |a[0].queue| <= |Flat(a)|
    ensures forall i :: 0 <= i < |a[0].queue| ==> Flat(a)[i].price == a[0].price
    ensures |a[0].queue| < |Flat(a)| ==> Flat(a)[|a[0].queue|].price != a[0].price
  {
  }

  lemma HeadsMatch(side: Side, a: Ladder, b: Ladder)
    requires a != [] && b != [] && a[0].price == b[0].price
    requires Flat(a) == Flat(b)
    requires forall k :: 0 <= k < |Flat(a[1..])| ==> Before(side, a[0].price, Flat(a[1..])[k].price)
    requires forall k :: 0 <= k < |Flat(b[1..])| ==> Before(side, b[0].price, Flat(b[1..])[k].price)
    ensures a[0] == b[0] && Flat(a[1..]) == Flat(b[1..])
  {
    var p, q := a[0].queue, b[0].queue;
    HeadEnds(side, a);
    HeadEnds(side, b);
    assert |p| == |q|;
    forall i | 0 <= i < |p|
      ensures p[i] == q[i]
    {
      assert Flat(a)[i] == Entry(a[0].price, p[i]);
      assert Flat(b)[i] == Entry(b[0].price, q[i]);
    }
    assert p == q;
    assert Flat(a)[|p|..] == Flat(a[1..]);
    assert Flat(b)[|q|..] == Flat(b[1..]);
  }

  // -- Map entry: append at a price ------------------------------------------

  /** Number of levels strictly better than `price`. */
  function Slot(side: Side, l: Ladder, price: I64): (k: nat)
    ensures k <= |l|
    ensures forall i :: 0 <= i < k ==> Before(side, l[i].price, price)
    ensures k < |l| ==> !Before(side, l[k].price, price)
  {
    if l == [] || !Before(side, l[0].price, price) then 0
    else 1 + Slot(side, l[1..], price)
  }

  /** `entry(price).or_default().push_back(r)`. */
  function Push(side: Side, l: Ladder, price: I64, r: Resting): Ladder {
    var k := Slot(side, l, price);
    if k < |l| && l[k].price == price then
      l[..k] + [Level(price, l[k].queue + [r])] + l[k + 1..]
    else
      l[..k] + [Level(price, [r])] + l[k..]
  }

  lemma PushKeeps(side: Side, l: Ladder, price: I64, r: Resting)
    requires Sorted(side, l)
    ensures Sorted(side, Push(side, l, price, r))
    ensures NoEmptyLevel(l) ==> NoEmptyLevel(Push(side, l, price, r))
  {
    var k := Slot(side, l, price);
    var found := k < |l| && l[k].price == price;
    var worse := if found then l[k + 1..] else l[k..];
    var x := Level(price, if found then l[k].queue + [r] else [r]);
    forall i | 0 <= i < |worse|
      ensures Before(side, price, worse[i].price)
    {
      assert worse[i] == l[|l| - |worse| + i];
    }
    SortedAround(side, l[..k], x, worse);
    NoEmptyAround(l[..k], x, worse);
  }

  lemma SortedAround(side: Side, a: Ladder, x: Level, b: Ladder)
    requires Sorted(side, a) && Sorted(side, b)
    requires forall i :: 0 <= i < |a| ==> Before(side, a[i].price, x.price)
    requires forall i :: 0 <= i < |b| ==> Before(side, x.price, b[i].price)
    ensures Sorted(side, a + [x] + b)
  {
  }

  lemma NoEmptyAround(a: Ladder, x: Level, b: Ladder)
    requires x.queue != []
    ensures NoEmptyLevel(a) && NoEmptyLevel(b) ==> NoEmptyLevel(a + [x] + b)
  {
  }

  /** Pushing at a level is joining the flat queue behind everything as good. */
  lemma PushJoins(side: Side, l: Ladder, price: I64, r: Resting)
    requires Sorted(side, l)
    ensures Flat(Push(side, l, price, r)) == Join(side, Flat(l), Entry(price, r))
  {
    var k := Slot(side, l, price);
    if k < |l| && l[k].price == price {
      SplitAround(l, k);
      PushExisting(side, l[..k], l[k], l[k + 1..], r);
    } else {
      var worse := l[k..];
      forall i | 0 <= i < |worse|
        ensures Before(side, price, worse[i].price)
      {
        assert worse[i] == l[k + i];
      }
      PushNew(side, l[..k], worse, price, r);
      SplitAt(l, k);
    }
  }

  lemma PushExisting(side: Side, better: Ladder, x: Level, worse: Ladder, r: Resting)
    requires forall i :: 0 <= i < |better| ==> Before(side, better[i].price, x.price)
    requires forall i :: 0 <= i < |worse| ==> Before(side, x.price, worse[i].price)
    ensures Flat(better + [Level(x.price, x.queue + [r])] + worse)
         == Join(side, Flat(better + [x] + worse), Entry(x.price, r))
  {
    var e := Entry(x.price, r);
    var a, t, b := Flat(better), Tag(x.price, x.queue), Flat(worse);
    assert Flat(better + [x] + worse) == a + t + b by {
      FlatSplit(better, x, worse);
    }
    assert Flat(better + [Level(x.price, x.queue + [r])] + worse) == a + (t + [e]) + b by {
      FlatSplit(better, Level(x.price, x.queue + [r]), worse);
      assert Tag(x.price, x.queue + [r]) == t + [e];
    }
    assert Join(side, a + t + b, e) == a + (t + [e]) + b by {
      FlatPrices(side, worse, x.price);
      AtLeastAsGood(side, better, x.price);
      JoinAfter(side, a, t, b, e);
    }
  }

  lemma JoinAfter(side: Side, a: seq<Entry>, t: seq<Entry>, b: seq<Entry>, e: Entry)
    requires forall i :: 0 <= i < |a| ==> !Before(side, e.price, a[i].price)
    requires forall i :: 0 <= i < |t| ==> t[i].price == e.price
    requires forall i :: 0 <= i < |b| ==> Before(side, e.price, b[i].price)
    ensures Join(side, a + t + b, e) == a + (t + [e]) + b
  {
    JoinBetween(side, a + t, b, e);
    assert (a + t) + [e] + b == a + (t + [e]) + b;
  }

  lemma PushNew(side: Side, better: Ladder, worse: Ladder, price: I64, r: Resting)
    requires forall i :: 0 <= i < |better| ==> Before(side, better[i].price, price)
    requires forall i :: 0 <= i < |worse| ==> Before(side, price, worse[i].price)
    ensures Flat(better + [Level(price, [r])] + worse) == Join(side, Flat(better + worse), Entry(price, r))
  {
    assert Tag(price, [r]) == [Entry(price, r)];
    FlatSplit(better, Level(price, [r]), worse);
    FlatPrices(side, worse, price);
    AtLeastAsGood(side, better, price);
    JoinBetween(side, Flat(better), Flat(worse), Entry(price, r));
    FlatAppend(better, worse);
  }

  lemma AtLeastAsGood(side: Side, l: Ladder, price: int)
    requires forall i :: 0 <= i < |l| ==> Before(side, l[i].price, price)
    ensures forall k :: 0 <= k < |Flat(l)| ==> !Before(side, price, Flat(l)[k].price)
  {
  }

  lemma JoinBetween(side: Side, head: seq<Entry>, tail: seq<Entry>, e: Entry)
    requires forall i :: 0 <= i < |head| ==> !Before(side, e.price, head[i].price)
    requires forall i :: 0 <= i < |tail| ==> Before(side, e.price, tail[i].price)
    ensures Join(side, head + tail, e) == head + [e] + tail
  {
    var q := head + tail;
    var m := JoinAt(side, q, e.price);
    assert forall i :: 0 <= i < |head| ==> q[i] == head[i];
    assert tail != [] ==> q[|head|] == tail[0];
    assert m == |head|;
    assert q[..m] == head && q[m..] == tail;
  }

  // -- Removing one order ----------------------------------------------------

  /** Level with this key, or the length. */
  function LevelAt(l: Ladder, price: I64): (k: nat)
    ensures k <= |l|
    ensures k < |l| ==> l[k].price == price
    ensures forall i :: 0 <= i < k ==> l[i].price != price
  {
    if l == [] || l[0].price == price then 0 else 1 + LevelAt(l[1..], price)
  }

  /** `position(|r| r.client_order_id == id)`, or the length. */
  function Position(queue: seq<Resting>, id: U128): (k: nat)
    ensures k <= |queue|
    ensures k < |queue| ==> queue[k].clientOrderId == id
    ensures forall i :: 0 <= i < k ==> queue[i].clientOrderId != id
  {
    if queue == [] || queue[0].clientOrderId == id then 0 else 1 + Position(queue[1..], id)
  }

  /** Drop the `i`-th order of level `k`, and the level with it if it was the last. */
  function Pull(l: Ladder, k: nat, i: nat): Ladder
    requires k < |l| && i < |l[k].queue|
  {
    var queue := l[k].queue[..i] + l[k].queue[i + 1..];
    if queue == [] then l[..k] + l[k + 1..] else l[..k] + [Level(l[k].price, queue)] + l[k + 1..]
  }

  lemma PullKeeps(side: Side, l: Ladder, k: nat, i: nat)
    requires Sorted(side, l) && k < |l| && i < |l[k].queue|
    ensures Sorted(side, Pull(l, k, i))
    ensures NoEmptyLevel(l) ==> NoEmptyLevel(Pull(l, k, i))
  {
  }

  lemma {:induction false} PullFlat(l: Ladder, k: nat, i: nat)
    requires k < |l| && i < |l[k].queue|
    ensures var m := |Flat(l[..k])| + i;
      m < |Flat(l)| && Flat(l)[m] == Entry(l[k].price, l[k].queue[i])
      && Flat(Pull(l, k, i)) == Without(Flat(l), m)
  {
    var t := Tag(l[k].price, l[k].queue);
    assert t[i] == Entry(l[k].price, l[k].queue[i]);
    FlatAt(l, k);
    PulledFlat(l, k, i);
    WithoutMiddle(Flat(l), Flat(l[..k]), t, Flat(l[k + 1..]), i);
  }

  lemma PulledFlat(l: Ladder, k: nat, i: nat)
    requires k < |l| && i < |l[k].queue|
    ensures var t := Tag(l[k].price, l[k].queue);
      Flat(Pull(l, k, i)) == Flat(l[..k]) + (t[..i] + t[i + 1..]) + Flat(l[k + 1..])
  {
    var p, q := l[k].price, l[k].queue;
    var queue := q[..i] + q[i + 1..];
    assert Tag(p, queue) == Tag(p, q)[..i] + Tag(p, q)[i + 1..];
    if queue == [] {
      FlatAppend(l[..k], l[k + 1..]);
      assert Tag(p, queue) == [];
    } else {
      FlatSplit(l[..k], Level(p, queue), l[k + 1..]);
    }
  }

  lemma WithoutMiddle(q: seq<Entry>, a: seq<Entry>, t: seq<Entry>, b: seq<Entry>, i: nat)
    requires i < |t| && q == a + t + b
    ensures |a| + i < |q| && q[|a| + i] == t[i]
    ensures Without(q, |a| + i) == a + (t[..i] + t[i + 1..]) + b
  {
  }

  /** Looking an order up by key and id agrees with the first match in the flat queue. */
  lemma FindFlat(side: Side, l: Ladder, price: I64, id: U128)
    requires Sorted(side, l)
    ensures var k := LevelAt(l, price);
      Find(Flat(l), price, id) ==
        if k < |l| && Position(l[k].queue, id) < |l[k].queue|
        then |Flat(l[..k])| + Position(l[k].queue, id) else |Flat(l)|
  {
    var k := LevelAt(l, price);
    var f := Flat(l);
    if k < |l| {
      FlatAt(l, k);
      NotAtPrice(l[..k], price);
      var worse := l[k + 1..];
      forall i | 0 <= i < |worse|
        ensures worse[i].price != price
      {
        assert worse[i] == l[k + 1 + i];
      }
      NotAtPrice(worse, price);
      var n, pos := |Flat(l[..k])|, Position(l[k].queue, id);
      forall i | 0 <= i < |f| && (i < n + pos || pos == |l[k].queue|)
        ensures !(f[i].price == price && f[i].order.clientOrderId == id)
      {
        if i < n {
          assert f[i] == Flat(l[..k])[i];
        } else if i < n + |l[k].queue| {
          assert f[i] == Entry(price, l[k].queue[i - n]);
        } else {
          assert f[i] == Flat(l[k + 1..])[i - n - |l[k].queue|];
        }
      }
      if pos < |l[k].queue| {
        assert f[n + pos] == Entry(price, l[k].queue[pos]);
      }
    } else {
      NotAtPrice(l, price);
    }
  }

  /** Cancelling in the ladder is cancelling in the flat queue. */
  lemma PullFinds(side: Side, l: Ladder, price: I64, id: U128)
    requires Sorted(side, l)
    ensures var k := LevelAt(l, price);
      var m := Find(Flat(l), price, id);
      if k < |l| && Position(l[k].queue, id) < |l[k].queue|
      then m < |Flat(l)| && Flat(Pull(l, k, Position(l[k].queue, id))) == Without(Flat(l), m)
      else m == |Flat(l)|
  {
    FindFlat(side, l, price, id);
    var k := LevelAt(l, price);
    if k < |l| && Position(l[k].queue, id) < |l[k].queue| {
      PullFlat(l, k, Position(l[k].queue, id));
    }
  }

  lemma NotAtPrice(l: Ladder, price: int)
    requires forall i :: 0 <= i < |l| ==> l[i].price != price
    ensures forall k :: 0 <= k < |Flat(l)| ==> Flat(l)[k].price != price
  {
  }
}
