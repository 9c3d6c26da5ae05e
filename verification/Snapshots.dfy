/** Snapshot and restore (crates/matching-engine/src/snapshot.rs), up to the `Snap` value:
    its byte encoding is not part of this model. */
module Snapshots {
  import opened EngineTypes
  import opened MatchSpec
  import opened Ladders
  import opened OrderBooks
  import opened Index

  /** One resting order on disk; the u128 id is split in two halves. */
  datatype RestingSnap = RestingSnap(
    platformSeq: U64,
    platformTsNs: U64,
    idHi: U64,
    idLo: U64,
    sessionToken: Token,
    qtyRemaining: U64)

  datatype SnapLevel = SnapLevel(price: I64, orders: seq<RestingSnap>)

  datatype Snap = Snap(bids: seq<SnapLevel>, asks: seq<SnapLevel>, nextTradeId: nat)

  function SnapOne(r: Resting): RestingSnap {
    RestingSnap(r.platformSeq, r.platformTsNs, r.clientOrderId / TWO64, r.clientOrderId % TWO64,
                r.sessionToken, r.qtyRemaining)
  }

  function RestoreOne(s: RestingSnap): Resting {
    Resting(s.platformSeq, s.platformTsNs, s.idHi * TWO64 + s.idLo, s.sessionToken, s.qtyRemaining)
  }

  function SnapQueue(queue: seq<Resting>): seq<RestingSnap> {
    seq(|queue|, i requires 0 <= i < |queue| => SnapOne(queue[i]))
  }

  function RestoreQueue(orders: seq<RestingSnap>): (r: seq<Resting>)
    ensures |r| == |orders|
  {
    seq(|orders|, i requires 0 <= i < |orders| => RestoreOne(orders[i]))
  }

  lemma QueueRoundTrip(queue: seq<Resting>)
    ensures RestoreQueue(SnapQueue(queue)) == queue
  {
  }

  /** A resting order on disk, field by field: the id's upper half is the high one. */
  lemma SnapRule(r: Resting, s: RestingSnap)
    ensures var d := SnapOne(r);
      && d.platformSeq == r.platformSeq && d.platformTsNs == r.platformTsNs
      && d.idHi * 0x1_0000_0000_0000_0000 + d.idLo == r.clientOrderId
      && d.sessionToken == r.sessionToken && d.qtyRemaining == r.qtyRemaining
    ensures RestoreOne(s) == Resting(s.platformSeq, s.platformTsNs, s.idHi * 0x1_0000_0000_0000_0000 + s.idLo,
                                     s.sessionToken, s.qtyRemaining)
  {
  }

  function Reversed<T>(s: seq<T>): (r: seq<T>)
    ensures |r| == |s|
    ensures forall i :: 0 <= i < |s| ==> r[i] == s[|s| - 1 - i]
  {
    if s == [] then [] else Reversed(s[1..]) + [s[0]]
  }

  /** A map iterates in increasing price: asks as kept, bids from the worst. */
  function Iterated(side: Side, l: Ladder): Ladder {
    if side == Ask then l else Reversed(l)
  }

  function SnapLevels(l: Ladder): seq<SnapLevel> {
    seq(|l|, i requires 0 <= i < |l| => SnapLevel(l[i].price, SnapQueue(l[i].queue)))
  }

  /** The levels a snapshot describes, in the order it lists them. */
  function LevelsOf(rows: seq<SnapLevel>): (l: Ladder)
    ensures |l| == |rows|
  {
    seq(|rows|, i requires 0 <= i < |rows| => Level(rows[i].price, RestoreQueue(rows[i].orders)))
  }

  lemma LevelsRoundTrip(l: Ladder)
    ensures LevelsOf(SnapLevels(l)) == l
  {
    forall i | 0 <= i < |l|
      ensures LevelsOf(SnapLevels(l))[i] == l[i]
    {
      QueueRoundTrip(l[i].queue);
    }
  }

  function Snapshot(book: OrderBook): Snap
    reads book
  {
    Snap(SnapLevels(Iterated(Bid, book.bids)), SnapLevels(Iterated(Ask, book.asks)), book.nextTradeId)
  }

  /** A snapshot lists the levels of each side by increasing price, with the orders of each
      in queue order, and the trade-id counter. */
  lemma SnapshotRule(book: OrderBook)
    requires book.Valid()
    ensures var snap := Snapshot(book);
      && snap.nextTradeId == book.nextTradeId
      && |snap.bids| == |book.bids| && |snap.asks| == |book.asks|
      && (forall i :: 0 <= i < |snap.bids| ==> ListsLevel(snap.bids[i], book.bids[|book.bids| - 1 - i]))
      && (forall i :: 0 <= i < |snap.asks| ==> ListsLevel(snap.asks[i], book.asks[i]))
      && (forall i, j :: 0 <= i < j < |snap.bids| ==> snap.bids[i].price < snap.bids[j].price)
      && (forall i, j :: 0 <= i < j < |snap.asks| ==> snap.asks[i].price < snap.asks[j].price)
  {
  }

  ghost predicate ListsLevel(row: SnapLevel, level: Level) {
    && row.price == level.price && |row.orders| == |level.queue|
    && forall k :: 0 <= k < |row.orders| ==> row.orders[k] == SnapOne(level.queue[k])
  }

  // -- Replaying orders one by one -------------------------------------------

  function PushQueue(side: Side, l: Ladder, q: seq<Entry>): Ladder {
    if q == [] then l
    else
      var n := |q| - 1;
      Push(side, PushQueue(side, l, q[..n]), q[n].price, q[n].order)
  }

  /** Index writes of a replay; a later write of an id overwrites an earlier one. */
  function IndexQueue(side: Side, q: seq<Entry>, byId: map<U128, (Side, I64)>): map<U128, (Side, I64)> {
    if q == [] then byId
    else
      var n := |q| - 1;
      IndexQueue(side, q[..n], byId)[q[n].order.clientOrderId := (side, q[n].price)]
  }

  /** Replay the orders of one level after `done`. */
  method ReplayLevel(side: Side, price: I64, orders: seq<RestingSnap>, ladder: Ladder, byId: map<U128, (Side, I64)>,
                     ghost done: seq<Entry>, ghost index: map<U128, (Side, I64)>)
    returns (ladder': Ladder, byId': map<U128, (Side, I64)>)
    requires Sorted(side, ladder) && NoEmptyLevel(ladder)
    requires ladder == PushQueue(side, [], done) && byId == IndexQueue(side, done, index)
    ensures Sorted(side, ladder') && NoEmptyLevel(ladder')
    ensures ladder' == PushQueue(side, [], done + Tag(price, RestoreQueue(orders)))
    ensures byId' == IndexQueue(side, done + Tag(price, RestoreQueue(orders)), index)
  {
    ladder', byId' := ladder, byId;
    var j := 0;
    assert Replayed(done, price, orders, 0) == done;
    while j < |orders|
      invariant j <= |orders| && Sorted(side, ladder') && NoEmptyLevel(ladder')
      invariant ladder' == PushQueue(side, [], Replayed(done, price, orders, j))
      invariant byId' == IndexQueue(side, Replayed(done, price, orders, j), index)
    {
      var r := RestoreOne(orders[j]);
      ReplayNext(side, done, price, orders, j, index);
      PushKeeps(side, ladder', price, r);
      ladder' := Push(side, ladder', price, r);
      byId' := byId'[r.clientOrderId := (side, price)];
      j := j + 1;
    }
    assert orders[..j] == orders;
  }

  /** Rebuild one side from its snapshot rows, order by order. */
  method ReplaySide(side: Side, rows: seq<SnapLevel>, index: map<U128, (Side, I64)>)
    returns (ladder: Ladder, byId: map<U128, (Side, I64)>)
    ensures ladder == PushQueue(side, [], Flat(LevelsOf(rows)))
    ensures byId == IndexQueue(side, Flat(LevelsOf(rows)), index)
    ensures Sorted(side, ladder) && NoEmptyLevel(ladder)
  {
    ladder, byId := [], index;
    ghost var levels := LevelsOf(rows);
    var i := 0;
    while i < |rows|
      invariant i <= |rows| && Sorted(side, ladder) && NoEmptyLevel(ladder)
      invariant ladder == PushQueue(side, [], Flat(levels[..i]))
      invariant byId == IndexQueue(side, Flat(levels[..i]), index)
    {
      ladder, byId := ReplayLevel(side, rows[i].price, rows[i].orders, ladder, byId, Flat(levels[..i]), index);
      FlatNext(levels, i);
      i := i + 1;
    }
    assert levels[..i] == levels;
  }

  lemma FlatNext(l: Ladder, i: nat)
    requires i < |l|
    ensures Flat(l[..i + 1]) == Flat(l[..i]) + Tag(l[i].price, l[i].queue)
  {
    assert l[..i + 1] == l[..i] + [l[i]];
    FlatAppend(l[..i], [l[i]]);
    FlatOne(l[i]);
  }

  lemma ReplayNext(side: Side, done: seq<Entry>, price: I64, orders: seq<RestingSnap>, j: nat,
                   index: map<U128, (Side, I64)>)
    requires j < |orders|
    ensures var q, q' := Replayed(done, price, orders, j), Replayed(done, price, orders, j + 1);
      var r := RestoreOne(orders[j]);
      && PushQueue(side, [], q') == Push(side, PushQueue(side, [], q), price, r)
      && IndexQueue(side, q', index) == IndexQueue(side, q, index)[r.clientOrderId := (side, price)]
  {
    var q, e := Replayed(done, price, orders, j), Entry(price, RestoreOne(orders[j]));
    assert Tag(price, RestoreQueue(orders[..j + 1])) == Tag(price, RestoreQueue(orders[..j])) + [e];
    assert Replayed(done, price, orders, j + 1) == q + [e];
    ReplayOne(side, [], q, e, index);
  }

  lemma ReplayOne(side: Side, l: Ladder, q: seq<Entry>, e: Entry, index: map<U128, (Side, I64)>)
    ensures PushQueue(side, l, q + [e]) == Push(side, PushQueue(side, l, q), e.price, e.order)
    ensures IndexQueue(side, q + [e], index)
         == IndexQueue(side, q, index)[e.order.clientOrderId := (side, e.price)]
  {
  }

  function Replayed(done: seq<Entry>, price: I64, orders: seq<RestingSnap>, j: nat): seq<Entry>
    requires j <= |orders|
  {
    done + Tag(price, RestoreQueue(orders[..j]))
  }

  method Restore(snap: Snap) returns (book: OrderBook)
    ensures fresh(book) && book.Valid() && book.NoEmptyLevels()
    ensures book.bids == PushQueue(Bid, [], Flat(LevelsOf(snap.bids)))
    ensures book.asks == PushQueue(Ask, [], Flat(LevelsOf(snap.asks)))
    ensures book.byId
         == IndexQueue(Ask, Flat(LevelsOf(snap.asks)), IndexQueue(Bid, Flat(LevelsOf(snap.bids)), map[]))
    ensures book.nextTradeId == snap.nextTradeId
    ensures IndexSound(book.View())
  {
    RestoredIndexSound(Flat(LevelsOf(snap.bids)), Flat(LevelsOf(snap.asks)), snap.nextTradeId);
    book := new OrderBook();
    var bids, byId := ReplaySide(Bid, snap.bids, map[]);
    var asks, byId' := ReplaySide(Ask, snap.asks, byId);
    book.bids, book.asks, book.byId := bids, asks, byId';
    book.nextTradeId := snap.nextTradeId;
  }

  /** Crash recovery: the restored copy is the reload of MatchSpec, and it has the very
      same levels if and only if the original had no empty level. */
  method Recover(book: OrderBook) returns (copy: OrderBook)
    requires book.Valid()
    ensures fresh(copy) && copy.Valid() && copy.NoEmptyLevels()
    ensures copy.View() == Reload(book.View())
    ensures (copy.bids == book.bids && copy.asks == book.asks) <==> book.NoEmptyLevels()
  {
    var snap := Snapshot(book);
    copy := Restore(snap);
    SideRestored(Bid, book.bids);
    SideRestored(Ask, book.asks);
    IndexRestored(book.bids, book.asks);
  }

  // -- Levels come back ------------------------------------------------------

  lemma {:induction false} PushQueueAppend(side: Side, l: Ladder, a: seq<Entry>, b: seq<Entry>)
    ensures PushQueue(side, l, a + b) == PushQueue(side, PushQueue(side, l, a), b)
    decreases |b|
  {
    if b == [] {
      assert a + b == a;
    } else {
      var n := |b| - 1;
      PushQueueAppend(side, l, a, b[..n]);
      assert (a + b)[..|a + b| - 1] == a + b[..n];
    }
  }

  lemma SlotBetween(side: Side, a: Ladder, b: Ladder, price: I64)
    requires forall i :: 0 <= i < |a| ==> Before(side, a[i].price, price)
    requires forall i :: 0 <= i < |b| ==> !Before(side, b[i].price, price)
    ensures Slot(side, a + b, price) == |a|
  {
    var l := a + b;
    assert forall i :: 0 <= i < |a| ==> l[i] == a[i];
    assert b != [] ==> l[|a|] == b[0];
  }

  function Between(a: Ladder, price: I64, queue: seq<Resting>, b: Ladder): Ladder {
    if queue == [] then a + b else a + [Level(price, queue)] + b
  }

  /** Replaying a level between better and worse ones creates exactly that level. */
  lemma {:induction false} PushLevel(side: Side, a: Ladder, b: Ladder, price: I64, queue: seq<Resting>)
    requires forall i :: 0 <= i < |a| ==> Before(side, a[i].price, price)
    requires forall i :: 0 <= i < |b| ==> Before(side, price, b[i].price)
    ensures PushQueue(side, a + b, Tag(price, queue)) == Between(a, price, queue, b)
    decreases |queue|
  {
    if queue == [] {
      assert Tag(price, queue) == [];
    } else {
      var init, last := queue[..|queue| - 1], queue[|queue| - 1];
      assert queue == init + [last];
      PushLevel(side, a, b, price, init);
      PushLast(side, a + b, price, init, last);
      PushBetween(side, a, b, price, init, last);
    }
  }

  lemma PushLast(side: Side, l: Ladder, price: I64, queue: seq<Resting>, r: Resting)
    ensures PushQueue(side, l, Tag(price, queue + [r])) == Push(side, PushQueue(side, l, Tag(price, queue)), price, r)
  {
    assert Tag(price, queue + [r]) == Tag(price, queue) + [Entry(price, r)];
    ReplayOne(side, l, Tag(price, queue), Entry(price, r), map[]);
  }

  lemma PushBetween(side: Side, a: Ladder, b: Ladder, price: I64, queue: seq<Resting>, r: Resting)
    requires forall i :: 0 <= i < |a| ==> Before(side, a[i].price, price)
    requires forall i :: 0 <= i < |b| ==> Before(side, price, b[i].price)
    ensures Push(side, Between(a, price, queue, b), price, r) == Between(a, price, queue + [r], b)
  {
    if queue == [] {
      PushFirst(side, a, b, price, r);
      assert queue + [r] == [r];
    } else {
      PushAgain(side, a, b, price, queue, r);
    }
  }

  lemma PushFirst(side: Side, a: Ladder, b: Ladder, price: I64, r: Resting)
    requires forall i :: 0 <= i < |a| ==> Before(side, a[i].price, price)
    requires forall i :: 0 <= i < |b| ==> Before(side, price, b[i].price)
    ensures Push(side, a + b, price, r) == a + [Level(price, [r])] + b
  {
    SlotBetween(side, a, b, price);
    assert b != [] ==> (a + b)[|a|] == b[0];
    assert (a + b)[..|a|] == a && (a + b)[|a|..] == b;
  }

  lemma PushAgain(side: Side, a: Ladder, b: Ladder, price: I64, queue: seq<Resting>, r: Resting)
    requires forall i :: 0 <= i < |a| ==> Before(side, a[i].price, price)
    requires forall i :: 0 <= i < |b| ==> Before(side, price, b[i].price)
    ensures Push(side, a + [Level(price, queue)] + b, price, r) == a + [Level(price, queue + [r])] + b
  {
    var x := Level(price, queue);
    var l := a + [x] + b;
    assert l == a + ([x] + b);
    SlotBetween(side, a, [x] + b, price);
    assert l[|a|] == x && l[..|a|] == a && l[|a| + 1..] == b;
  }

  lemma {:induction false} AskLevels(l: Ladder)
    requires Sorted(Ask, l) && NoEmptyLevel(l)
    ensures PushQueue(Ask, [], Flat(l)) == l
  {
    if l != [] {
      var n := |l| - 1;
      AskLevels(l[..n]);
      assert l == l[..n] + [l[n]];
      FlatAppend(l[..n], [l[n]]);
      FlatOne(l[n]);
      PushQueueAppend(Ask, [], Flat(l[..n]), Tag(l[n].price, l[n].queue));
      PushLevel(Ask, l[..n], [], l[n].price, l[n].queue);
      assert l[..n] + [] == l[..n] && l == l[..n] + [Level(l[n].price, l[n].queue)] + [];
    }
  }

  lemma {:induction false} BidLevels(l: Ladder)
    requires Sorted(Bid, l) && NoEmptyLevel(l)
    ensures PushQueue(Bid, [], Flat(Reversed(l))) == l
  {
    if l != [] {
      BidLevels(l[1..]);
      FlatAppend(Reversed(l[1..]), [l[0]]);
      FlatOne(l[0]);
      PushQueueAppend(Bid, [], Flat(Reversed(l[1..])), Tag(l[0].price, l[0].queue));
      PushLevel(Bid, [], l[1..], l[0].price, l[0].queue);
      assert [] + l[1..] == l[1..] && l == [] + [Level(l[0].price, l[0].queue)] + l[1..];
    }
  }

  function DropEmpty(l: Ladder): (r: Ladder)
    ensures NoEmptyLevel(r) && (NoEmptyLevel(l) ==> r == l)
  {
    if l == [] then []
    else if l[0].queue == [] then DropEmpty(l[1..]) else [l[0]] + DropEmpty(l[1..])
  }

  lemma {:induction false} DropEmptyPrices(side: Side, l: Ladder, price: int)
    requires Sorted(side, l)
    requires forall i :: 0 <= i < |l| ==> Before(side, price, l[i].price)
    ensures Sorted(side, DropEmpty(l)) && Flat(DropEmpty(l)) == Flat(l)
    ensures forall i :: 0 <= i < |DropEmpty(l)| ==> Before(side, price, DropEmpty(l)[i].price)
    ensures Flat(Reversed(DropEmpty(l))) == Flat(Reversed(l))
  {
    if l != [] {
      DropEmptyPrices(side, l[1..], l[0].price);
      FlatAppend(Reversed(l[1..]), [l[0]]);
      FlatOne(l[0]);
      if l[0].queue != [] {
        var d := DropEmpty(l[1..]);
        assert ([l[0]] + d)[1..] == d;
        FlatAppend(Reversed(d), [l[0]]);
      }
    }
  }

  /** A restored side is the original without its empty levels. */
  lemma SideRestored(side: Side, l: Ladder)
    requires Sorted(side, l)
    ensures var r := PushQueue(side, [], Flat(LevelsOf(SnapLevels(Iterated(side, l)))));
      r == DropEmpty(l) && Flat(r) == Flat(l) && (r == l <==> NoEmptyLevel(l))
  {
    LevelsRoundTrip(Iterated(side, l));
    var worst := if side == Ask then -0x1_0000_0000_0000_0000 else 0x1_0000_0000_0000_0000;
    DropEmptyPrices(side, l, worst);
    if side == Ask {
      AskLevels(DropEmpty(l));
    } else {
      BidLevels(DropEmpty(l));
    }
  }

  // -- The index comes back --------------------------------------------------

  lemma {:induction false} IndexQueueAt(side: Side, q: seq<Entry>, byId: map<U128, (Side, I64)>, id: U128)
    ensures id in IndexQueue(side, q, byId) <==> id in byId || id in IdSet(q)
    ensures id in IdSet(q) ==> IndexQueue(side, q, byId)[id] == (side, q[LastWith(q, id)].price)
    ensures id in byId && id !in IdSet(q) ==> IndexQueue(side, q, byId)[id] == byId[id]
  {
    if q != [] {
      var n := |q| - 1;
      IndexQueueAt(side, q[..n], byId, id);
      IdsSplit(q[..n], [q[n]], id);
      assert q == q[..n] + [q[n]];
      assert id in IdSet([q[n]]) <==> id == [q[n]][0].order.clientOrderId;
    }
  }

  lemma IdsSplit(a: seq<Entry>, b: seq<Entry>, id: U128)
    ensures id in IdSet(a + b) <==> id in IdSet(a) || id in IdSet(b)
  {
    var q := a + b;
    assert forall i :: 0 <= i < |a| ==> q[i] == a[i];
    assert forall i :: 0 <= i < |b| ==> q[|a| + i] == b[i];
    if id in IdSet(q) {
      var k :| 0 <= k < |q| && q[k].order.clientOrderId == id;
      assert if k < |a| then a[k].order.clientOrderId == id else b[k - |a|].order.clientOrderId == id;
    }
    if id in IdSet(a) {
      var k :| 0 <= k < |a| && a[k].order.clientOrderId == id;
      assert q[k].order.clientOrderId == id;
    }
    if id in IdSet(b) {
      var k :| 0 <= k < |b| && b[k].order.clientOrderId == id;
      assert q[|a| + k].order.clientOrderId == id;
    }
  }

  /** Replaying bids from the worst level, the last write of an id is at its best price. */
  lemma {:induction false} LastReversedIsFirst(l: Ladder, id: U128)
    ensures var q, r := Flat(l), Flat(Reversed(l));
      && (id in IdSet(q) <==> id in IdSet(r))
      && (id in IdSet(q) ==> r[LastWith(r, id)].price == q[FirstWith(q, id)].price)
  {
    if l != [] {
      LastReversedIsFirst(l[1..], id);
      FlatAppend(Reversed(l[1..]), [l[0]]);
      FlatOne(l[0]);
      LastOfTwo(Tag(l[0].price, l[0].queue), Flat(l[1..]), Flat(Reversed(l[1..])), l[0].price, id);
    }
  }

  lemma LastOfTwo(t: seq<Entry>, q: seq<Entry>, r: seq<Entry>, price: I64, id: U128)
    requires forall i :: 0 <= i < |t| ==> t[i].price == price
    requires id in IdSet(q) <==> id in IdSet(r)
    requires id in IdSet(q) ==> r[LastWith(r, id)].price == q[FirstWith(q, id)].price
    ensures id in IdSet(t + q) <==> id in IdSet(r + t)
    ensures id in IdSet(t + q) ==> (r + t)[LastWith(r + t, id)].price == (t + q)[FirstWith(t + q, id)].price
  {
    IdsSplit(t, q, id);
    IdsSplit(r, t, id);
    if id in IdSet(t + q) {
      var first, last := FirstWith(t + q, id), LastWith(r + t, id);
      if id in IdSet(t) {
        var k :| 0 <= k < |t| && t[k].order.clientOrderId == id;
        assert (t + q)[k] == t[k] && (r + t)[|r| + k] == t[k];
        assert first <= k && last >= |r| + k;
      } else {
        FirstSkips(t, q, id);
        LastSkips(r, t, id);
      }
    }
  }

  lemma NotAmong(q: seq<Entry>, id: U128)
    requires id !in IdSet(q)
    ensures forall i :: 0 <= i < |q| ==> q[i].order.clientOrderId != id
  {
  }

  lemma FirstSkips(t: seq<Entry>, q: seq<Entry>, id: U128)
    requires id !in IdSet(t) && id in IdSet(q) && id in IdSet(t + q)
    ensures FirstWith(t + q, id) == |t| + FirstWith(q, id)
  {
    var f, g := FirstWith(t + q, id), FirstWith(q, id);
    assert (t + q)[|t| + g] == q[g];
    NotAmong(t, id);
    assert forall i :: 0 <= i < |t| ==> (t + q)[i] == t[i];
    assert (t + q)[f] == q[f - |t|];
  }

  lemma LastSkips(r: seq<Entry>, t: seq<Entry>, id: U128)
    requires id !in IdSet(t) && id in IdSet(r) && id in IdSet(r + t)
    ensures LastWith(r + t, id) == LastWith(r, id)
  {
    var f, g := LastWith(r + t, id), LastWith(r, id);
    assert (r + t)[g] == r[g];
    NotAmong(t, id);
    assert forall i :: |r| <= i < |r + t| ==> (r + t)[i] == t[i - |r|];
    assert (r + t)[f] == r[f];
  }

  /** Every replayed order is on the rebuilt side. */
  lemma {:induction false} ReplayedPresent(side: Side, q: seq<Entry>)
    ensures Sorted(side, PushQueue(side, [], q))
    ensures forall k :: 0 <= k < |q| ==> q[k] in Flat(PushQueue(side, [], q))
  {
    if q != [] {
      var n := |q| - 1;
      var l := PushQueue(side, [], q[..n]);
      ReplayedPresent(side, q[..n]);
      PushKeeps(side, l, q[n].price, q[n].order);
      PushJoins(side, l, q[n].price, q[n].order);
      forall k | 0 <= k < |q|
        ensures q[k] in Flat(PushQueue(side, [], q))
      {
        JoinContains(side, Flat(l), q[n]);
        assert k < n ==> q[..n][k] == q[k];
      }
    }
  }

  lemma JoinContains(side: Side, q: seq<Entry>, e: Entry)
    ensures e in Join(side, q, e)
    ensures forall x :: x in q ==> x in Join(side, q, e)
  {
  }

  lemma PresentHolds(q: seq<Entry>, e: Entry)
    requires e in q
    ensures Holds(q, e.price, e.order.clientOrderId)
  {
  }

  /** Whatever a snapshot contains, repeated ids or prices included, the index restored
      from it points to orders that are there. */
  lemma RestoredIndexSound(bids: seq<Entry>, asks: seq<Entry>, next: nat)
    ensures IndexSound(Book(Flat(PushQueue(Bid, [], bids)), Flat(PushQueue(Ask, [], asks)),
                            IndexQueue(Ask, asks, IndexQueue(Bid, bids, map[])), next))
  {
    var b := Book(Flat(PushQueue(Bid, [], bids)), Flat(PushQueue(Ask, [], asks)),
                  IndexQueue(Ask, asks, IndexQueue(Bid, bids, map[])), next);
    ReplayedPresent(Bid, bids);
    ReplayedPresent(Ask, asks);
    forall id | id in b.byId
      ensures Holds(QueueOf(b, b.byId[id].0), b.byId[id].1, id)
    {
      IndexQueueAt(Bid, bids, map[], id);
      IndexQueueAt(Ask, asks, IndexQueue(Bid, bids, map[]), id);
      if id in IdSet(asks) {
        PresentHolds(b.asks, asks[LastWith(asks, id)]);
      } else {
        PresentHolds(b.bids, bids[LastWith(bids, id)]);
      }
    }
  }

  /** Last write wins, written out: exactly the index of MatchSpec.Reload. */
  lemma IndexRestored(bids: Ladder, asks: Ladder)
    ensures IndexQueue(Ask, Flat(LevelsOf(SnapLevels(Iterated(Ask, asks)))),
                       IndexQueue(Bid, Flat(LevelsOf(SnapLevels(Iterated(Bid, bids)))), map[]))
         == Reindex(Book(Flat(bids), Flat(asks), map[], 0))
  {
    LevelsRoundTrip(Iterated(Ask, asks));
    LevelsRoundTrip(Iterated(Bid, bids));
    var fromBids := IndexQueue(Bid, Flat(Reversed(bids)), map[]);
    var all := IndexQueue(Ask, Flat(asks), fromBids);
    var want := Reindex(Book(Flat(bids), Flat(asks), map[], 0));
    forall id
      ensures id in all <==> id in want
      ensures id in want ==> all[id] == want[id]
    {
      IndexQueueAt(Bid, Flat(Reversed(bids)), map[], id);
      IndexQueueAt(Ask, Flat(asks), fromBids, id);
      LastReversedIsFirst(bids, id);
    }
    assert all == want;
  }
}
