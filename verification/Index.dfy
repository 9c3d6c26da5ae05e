/** Agreement of the id index with the queues, over every run. */
module Index {
  import opened EngineTypes
  import opened MatchSpec
  import opened Sweeps
  import opened BookRuns

  ghost predicate Holds(q: seq<Entry>, price: I64, id: U128) {
    exists k :: 0 <= k < |q| && q[k].price == price && q[k].order.clientOrderId == id
  }

  /** Every index entry points to a price where an order with that id rests. */
  ghost predicate IndexSound(b: Book) {
    forall id :: id in b.byId ==> Holds(QueueOf(b, b.byId[id].0), b.byId[id].1, id)
  }

  ghost predicate Indexed(side: Side, q: seq<Entry>, byId: map<U128, (Side, I64)>) {
    forall k :: 0 <= k < |q| ==>
      q[k].order.clientOrderId in byId && byId[q[k].order.clientOrderId] == (side, q[k].price)
  }

  ghost predicate DistinctIds(q: seq<Entry>) {
    forall i, j :: 0 <= i < j < |q| ==> q[i].order.clientOrderId != q[j].order.clientOrderId
  }

  ghost predicate Live(b: Book, id: U128) {
    id in IdSet(b.bids) || id in IdSet(b.asks)
  }

  /** The index is exactly the map from live ids to where they rest, and no id is live
      twice. */
  ghost predicate Exact(b: Book) {
    && IndexSound(b)
    && Indexed(Bid, b.bids, b.byId) && Indexed(Ask, b.asks, b.byId)
    && DistinctIds(b.bids) && DistinctIds(b.asks)
  }

  // -- Soundness, for every operation and repeated ids -----------------------

  lemma JoinHolds(side: Side, q: seq<Entry>, e: Entry)
    ensures Holds(Join(side, q, e), e.price, e.order.clientOrderId)
    ensures forall price, id :: Holds(q, price, id) ==> Holds(Join(side, q, e), price, id)
  {
    var m := JoinAt(side, q, e.price);
    var r := Join(side, q, e);
    assert r[m] == e;
    assert forall i :: 0 <= i < |q| ==> r[if i < m then i else i + 1] == q[i];
  }

  lemma RestSound(b: Book, o: Order)
    requires IndexSound(b)
    ensures IndexSound(Rest(b, o))
  {
    if o.kind.Limit? {
      JoinHolds(o.side, QueueOf(b, o.side), Entry(o.kind.price, ToResting(o)));
      var b' := Rest(b, o);
      forall id | id in b'.byId
        ensures Holds(QueueOf(b', b'.byId[id].0), b'.byId[id].1, id)
      {
        assert id == o.clientOrderId || Holds(QueueOf(b, b.byId[id].0), b.byId[id].1, id);
      }
    }
  }

  /** What is found in a queue under an id that a sweep does not forget is still found in
      what the sweep leaves. */
  lemma SweptHolds(q: seq<Entry>, o: Order, price: I64, id: U128)
    requires Holds(q, price, id) && id !in Greedy(q, o, o.qty).gone
    ensures Holds(Greedy(q, o, o.qty).rest, price, id)
  {
    var s := Greedy(q, o, o.qty);
    GreedyTradesPrefix(q, o, o.qty);
    RestIsTail(q, o, o.qty);
    var c := Consumed(q, s);
    var k :| 0 <= k < |q| && q[k].price == price && q[k].order.clientOrderId == id;
    assert forall i :: 0 <= i < c ==> s.gone[i] == q[i].order.clientOrderId;
    assert Kept(s.rest[k - c], q[k]);
  }

  /** Orders popped by a sweep are exactly those whose ids it forgets, so what the index
      still mentions is still there. */
  lemma SweepSound(b: Book, o: Order)
    requires IndexSound(b)
    ensures IndexSound(AfterSweep(b, o, Greedy(QueueOf(b, Opposite(o.side)), o, o.qty)))
  {
    var q := QueueOf(b, Opposite(o.side));
    var b' := AfterSweep(b, o, Greedy(q, o, o.qty));
    forall id | id in b'.byId
      ensures Holds(QueueOf(b', b'.byId[id].0), b'.byId[id].1, id)
    {
      assert id in b.byId && Holds(QueueOf(b, b.byId[id].0), b.byId[id].1, id);
      if b.byId[id].0 == Opposite(o.side) {
        SweptHolds(q, o, b.byId[id].1, id);
      }
    }
  }

  lemma CancelSound(b: Book, id: U128)
    requires IndexSound(b)
    ensures IndexSound(Cancel(b, id).book)
    ensures Cancel(b, id).reply == Cancelled(id in b.byId)
  {
    if id in b.byId {
      var (side, price) := b.byId[id];
      var q := QueueOf(b, side);
      var k := Find(q, price, id);
      assert k < |q|;
      var b' := Cancel(b, id).book;
      forall other | other in b'.byId
        ensures Holds(QueueOf(b', b'.byId[other].0), b'.byId[other].1, other)
      {
        if b.byId[other].0 == side {
          var i :| 0 <= i < |q| && q[i].price == b.byId[other].1 && q[i].order.clientOrderId == other;
          assert i != k;
          assert Without(q, k)[if i < k then i else i - 1] == q[i];
        }
      }
    }
  }

  /** Restoring builds a sound index whatever the book looked like. */
  lemma ReloadSound(b: Book)
    ensures IndexSound(Reload(b))
  {
  }

  lemma {:induction false} RunSound(b: Book, ops: seq<Op>)
    requires IndexSound(b)
    ensures IndexSound(Run(b, ops))
    decreases |ops|
  {
    if ops != [] {
      match ops[0] {
        case Submits(o) =>
          SweepSound(b, o);
          var s := Greedy(QueueOf(b, Opposite(o.side)), o, o.qty);
          RestSound(AfterSweep(b, o, s), Remainder(o, s.remaining));
        case Cancels(id) => CancelSound(b, id);
        case Rests(o) => RestSound(b, o);
        case Reloads => ReloadSound(b);
      }
      RunSound(Step(b, ops[0]).book, ops[1..]);
    }
  }

  /** Over every run of every operation from the empty book, repeated ids included: a
      cancel succeeds exactly for the ids in the index, and never points nowhere. */
  lemma CancelAnswersIndex(ops: seq<Op>, id: U128)
    ensures IndexSound(Run(EMPTY_BOOK, ops))
    ensures Cancel(Run(EMPTY_BOOK, ops), id).reply == Cancelled(id in Run(EMPTY_BOOK, ops).byId)
  {
    RunSound(EMPTY_BOOK, ops);
    CancelSound(Run(EMPTY_BOOK, ops), id);
  }

  // -- Exactness, while no live id is reused ------------------------------------

  lemma InIdSet(q: seq<Entry>, k: nat)
    requires k < |q|
    ensures q[k].order.clientOrderId in IdSet(q)
  {
  }

  ghost predicate Absent(q: seq<Entry>, ids: set<U128>) {
    forall k :: 0 <= k < |q| ==> q[k].order.clientOrderId !in ids
  }

  lemma AbsentUnlessIn(q: seq<Entry>, id: U128)
    requires id !in IdSet(q)
    ensures Absent(q, {id})
  {
  }

  lemma JoinAbsent(side: Side, q: seq<Entry>, e: Entry, byId: map<U128, (Side, I64)>)
    requires Indexed(side, q, byId) && DistinctIds(q) && Absent(q, {e.order.clientOrderId})
    ensures DistinctIds(Join(side, q, e))
    ensures Indexed(side, Join(side, q, e), byId[e.order.clientOrderId := (side, e.price)])
  {
  }

  lemma IndexedMinus(side: Side, q: seq<Entry>, byId: map<U128, (Side, I64)>, ids: set<U128>)
    requires Indexed(side, q, byId) && Absent(q, ids)
    ensures Indexed(side, q, byId - ids)
  {
  }

  lemma TailIndexed(side: Side, rest: seq<Entry>, q: seq<Entry>, byId: map<U128, (Side, I64)>)
    requires TailOf(rest, q) && Indexed(side, q, byId) && DistinctIds(q)
    ensures Indexed(side, rest, byId) && DistinctIds(rest)
    ensures Absent(rest, Ids(IdsOf(q[..|q| - |rest|])))
  {
  }

  lemma RestFreshExact(b: Book, o: Order)
    requires Exact(b) && o.kind.Limit? && !Live(b, o.clientOrderId)
    ensures Exact(Rest(b, o))
  {
    RestSound(b, o);
    AbsentUnlessIn(b.bids, o.clientOrderId);
    AbsentUnlessIn(b.asks, o.clientOrderId);
    JoinAbsent(o.side, QueueOf(b, o.side), Entry(o.kind.price, ToResting(o)), b.byId);
  }

  /** Resting keeps the index exact if and only if the id was not live. */
  lemma RestExact(b: Book, o: Order)
    requires Exact(b) && o.kind.Limit?
    ensures Exact(Rest(b, o)) <==> !Live(b, o.clientOrderId)
  {
    if Live(b, o.clientOrderId) {
      RestLiveInexact(b, o);
    } else {
      RestFreshExact(b, o);
    }
  }

  lemma RestLiveInexact(b: Book, o: Order)
    requires o.kind.Limit? && Live(b, o.clientOrderId)
    ensures !Exact(Rest(b, o))
  {
    if o.clientOrderId in IdSet(QueueOf(b, o.side)) {
      JoinTwice(o.side, QueueOf(b, o.side), Entry(o.kind.price, ToResting(o)));
    } else {
      var other := QueueOf(b, Opposite(o.side));
      var i :| 0 <= i < |other| && other[i].order.clientOrderId == o.clientOrderId;
      assert !Indexed(Opposite(o.side), other, Rest(b, o).byId);
    }
  }

  lemma JoinTwice(side: Side, q: seq<Entry>, e: Entry)
    requires e.order.clientOrderId in IdSet(q)
    ensures !DistinctIds(Join(side, q, e))
  {
    var m := JoinAt(side, q, e.price);
    var r := Join(side, q, e);
    var i :| 0 <= i < |q| && q[i].order.clientOrderId == e.order.clientOrderId;
    var i' := if i < m then i else i + 1;
    assert r[m] == e && r[i'] == q[i];
    assert i' != m && r[i'].order.clientOrderId == r[m].order.clientOrderId;
  }

  lemma SweepExact(b: Book, o: Order)
    requires Exact(b)
    ensures Exact(AfterSweep(b, o, Greedy(QueueOf(b, Opposite(o.side)), o, o.qty)))
  {
    var q := QueueOf(b, Opposite(o.side));
    var s := Greedy(q, o, o.qty);
    SweepSound(b, o);
    GreedyTradesPrefix(q, o, o.qty);
    RestIsTail(q, o, o.qty);
    TailIndexed(Opposite(o.side), s.rest, q, b.byId);
    IndexedMinus(Opposite(o.side), s.rest, b.byId, Ids(s.gone));
    SidesDisjoint(b, o.side, q[..Consumed(q, s)]);
    IndexedMinus(o.side, QueueOf(b, o.side), b.byId, Ids(s.gone));
  }

  /** An exact index tells the two sides apart. */
  lemma SidesDisjoint(b: Book, side: Side, part: seq<Entry>)
    requires Exact(b) && part <= QueueOf(b, Opposite(side))
    ensures Absent(QueueOf(b, side), Ids(IdsOf(part)))
  {
  }

  /** The operation makes an order rest whose id is live at that moment. */
  ghost predicate RestsLiveId(b: Book, op: Op) {
    match op
    case Submits(o) =>
      var s := Greedy(QueueOf(b, Opposite(o.side)), o, o.qty);
      s.remaining > 0 && IsGtc(o) && Live(AfterSweep(b, o, s), o.clientOrderId)
    case Rests(o) => o.kind.Limit? && Live(b, o.clientOrderId)
    case _ => false
  }

  /** Matching keeps the index exact if and only if it does not rest a remainder under an
      id that is still live after the sweep. */
  lemma SubmitExact(b: Book, o: Order)
    requires Exact(b)
    ensures Exact(Submit(b, o).book) <==> !RestsLiveId(b, Submits(o))
  {
    var s := Greedy(QueueOf(b, Opposite(o.side)), o, o.qty);
    SweepExact(b, o);
    if s.remaining > 0 && IsGtc(o) {
      RestExact(AfterSweep(b, o, s), Remainder(o, s.remaining));
    }
  }

  /** The order's id rests at a facing price that the order does not cross. */
  ghost predicate LiveBeyond(q: seq<Entry>, o: Order) {
    exists k :: 0 <= k < |q| && q[k].order.clientOrderId == o.clientOrderId && !Crosses(o.kind, o.side, q[k].price)
  }

  /** The same condition read off the book before the call: the order is good till
      cancelled, crossing liquidity does not fill it, and its id rests on its own side or
      on the facing side out of its reach. */
  lemma RestsLiveIdBefore(b: Book, o: Order)
    requires RankedBook(b)
    ensures var facing := QueueOf(b, Opposite(o.side));
      RestsLiveId(b, Submits(o)) <==>
        && IsGtc(o) && Depth(facing, o) < o.qty
        && (o.clientOrderId in IdSet(QueueOf(b, o.side)) || LiveBeyond(facing, o))
  {
    var facing := QueueOf(b, Opposite(o.side));
    var s := Greedy(facing, o, o.qty);
    GreedyVolume(facing, o, o.qty);
    GreedyRemainder(facing, o, o.qty);
    if s.remaining > 0 {
      RestBeyond(facing, o);
      assert QueueOf(AfterSweep(b, o, s), o.side) == QueueOf(b, o.side);
      assert QueueOf(AfterSweep(b, o, s), Opposite(o.side)) == s.rest;
    }
  }

  /** A sweep that leaves a remainder takes everything that crosses and leaves exactly
      what does not. */
  lemma RestBeyond(q: seq<Entry>, o: Order)
    requires Ranked(Opposite(o.side), q) && Greedy(q, o, o.qty).remaining > 0
    ensures o.clientOrderId in IdSet(Greedy(q, o, o.qty).rest) <==> LiveBeyond(q, o)
  {
    var s := Greedy(q, o, o.qty);
    var c := Consumed(q, s);
    GreedyTradesPrefix(q, o, o.qty);
    GreedyRemainder(q, o, o.qty);
    RestRanked(Opposite(o.side), q, o, o.qty);
    NoneCross(s.rest, o);
    IdsBeyond(q, c, o);
  }

  lemma IdsBeyond(q: seq<Entry>, c: nat, o: Order)
    requires c <= |q| && !AnyCrosses(q[c..], o)
    requires forall k :: 0 <= k < c ==> Crosses(o.kind, o.side, q[k].price)
    ensures o.clientOrderId in IdSet(q[c..]) <==> LiveBeyond(q, o)
  {
    var rest := q[c..];
    forall k | c <= k < |q|
      ensures rest[k - c] == q[k] && !Crosses(o.kind, o.side, q[k].price)
    {
      assert !Crosses(o.kind, o.side, rest[k - c].price);
    }
    if LiveBeyond(q, o) {
      var k :| 0 <= k < |q| && q[k].order.clientOrderId == o.clientOrderId && !Crosses(o.kind, o.side, q[k].price);
      InIdSet(rest, k - c);
    }
  }

  // -- Which ids can be live -------------------------------------------------

  lemma TailIds(rest: seq<Entry>, q: seq<Entry>)
    requires TailOf(rest, q)
    ensures IdSet(rest) <= IdSet(q)
  {
  }

  lemma SweepLive(b: Book, o: Order, id: U128)
    ensures Live(AfterSweep(b, o, Greedy(QueueOf(b, Opposite(o.side)), o, o.qty)), id) ==> Live(b, id)
  {
    var q := QueueOf(b, Opposite(o.side));
    RestIsTail(q, o, o.qty);
    TailIds(Greedy(q, o, o.qty).rest, q);
  }

  lemma RestLive(b: Book, o: Order, id: U128)
    ensures Live(Rest(b, o), id) ==> Live(b, id) || id == o.clientOrderId
  {
  }

  lemma WithoutIds(q: seq<Entry>, k: nat)
    requires k < |q|
    ensures IdSet(Without(q, k)) <= IdSet(q)
  {
  }

  lemma CancelLive(b: Book, gone: U128, id: U128)
    ensures Live(Cancel(b, gone).book, id) ==> Live(b, id)
  {
    if gone in b.byId {
      var q := QueueOf(b, b.byId[gone].0);
      var k := Find(q, b.byId[gone].1, gone);
      if k < |q| {
        WithoutIds(q, k);
      }
    }
  }

  /** Only an entering order can make an id live. */
  lemma StepLive(b: Book, op: Op, id: U128)
    ensures Live(Step(b, op).book, id) ==> Live(b, id) || (Enters(op) && id == op.order.clientOrderId)
  {
    match op
    case Submits(o) =>
      SweepLive(b, o, id);
      var s := Greedy(QueueOf(b, Opposite(o.side)), o, o.qty);
      RestLive(AfterSweep(b, o, s), Remainder(o, s.remaining), id);
    case Cancels(gone) => CancelLive(b, gone, id);
    case Rests(o) => RestLive(b, o, id);
    case Reloads =>
  }

  /** With an exact index a cancel succeeds iff the id rests, and takes away that one
      order and nothing else, keeping everybody else in place. */
  lemma CancelExact(b: Book, id: U128)
    requires Exact(b)
    ensures Exact(Cancel(b, id).book)
    ensures Cancel(b, id).reply == Cancelled(Live(b, id))
    ensures !Live(b, id) ==> Cancel(b, id).book == b
    ensures Live(b, id) ==>
      exists side: Side, k: nat :: RemovedOnly(b, Cancel(b, id).book, id, side, k)
    ensures forall other :: Live(Cancel(b, id).book, other) ==> Live(b, other) && other != id
  {
    CancelSound(b, id);
    LiveIffIndexed(b, id);
    if id in b.byId {
      var (side, price) := b.byId[id];
      var q := QueueOf(b, side);
      var k := Find(q, price, id);
      RemovedExact(b, id, side, k);
      assert RemovedOnly(b, Cancel(b, id).book, id, side, k);
    }
  }

  ghost predicate RemovedOnly(b: Book, b': Book, id: U128, side: Side, k: nat) {
    && k < |QueueOf(b, side)| && QueueOf(b, side)[k].order.clientOrderId == id
    && b' == WithQueue(b, side, Without(QueueOf(b, side), k)).(byId := b.byId - {id})
  }

  lemma RemovedExact(b: Book, id: U128, side: Side, k: nat)
    requires Exact(b) && k < |QueueOf(b, side)| && QueueOf(b, side)[k].order.clientOrderId == id
    requires IndexSound(WithQueue(b, side, Without(QueueOf(b, side), k)).(byId := b.byId - {id}))
    ensures var b' := WithQueue(b, side, Without(QueueOf(b, side), k)).(byId := b.byId - {id});
      Exact(b') && forall other :: Live(b', other) ==> Live(b, other) && other != id
  {
    var q := QueueOf(b, side);
    var mine := QueueOf(b, Opposite(side));
    WithoutIndexed(side, q, k, b.byId);
    IndexedMinus(side, Without(q, k), b.byId, {id});
    forall i | 0 <= i < |mine|
      ensures mine[i].order.clientOrderId != id
    {
      assert b.byId[mine[i].order.clientOrderId].0 == Opposite(side);
    }
    IndexedMinus(Opposite(side), mine, b.byId, {id});
  }

  lemma WithoutIndexed(side: Side, q: seq<Entry>, k: nat, byId: map<U128, (Side, I64)>)
    requires k < |q| && Indexed(side, q, byId) && DistinctIds(q)
    ensures Indexed(side, Without(q, k), byId) && DistinctIds(Without(q, k))
    ensures Absent(Without(q, k), {q[k].order.clientOrderId})
    ensures IdSet(Without(q, k)) <= IdSet(q)
  {
  }

  lemma LiveIffIndexed(b: Book, id: U128)
    requires Exact(b)
    ensures Live(b, id) <==> id in b.byId
  {
  }

  // -- Restoring -------------------------------------------------------------

  lemma ReindexAt(b: Book, id: U128)
    requires Exact(b)
    ensures id in Reindex(b) <==> id in b.byId
    ensures id in b.byId ==> Reindex(b)[id] == b.byId[id]
  {
    LiveIffIndexed(b, id);
    if id in IdSet(b.asks) {
      var k := LastWith(b.asks, id);
      assert b.byId[b.asks[k].order.clientOrderId] == (Ask, b.asks[k].price);
    } else if id in IdSet(b.bids) {
      var k := FirstWith(b.bids, id);
      assert b.byId[b.bids[k].order.clientOrderId] == (Bid, b.bids[k].price);
    }
  }

  lemma SameMap<K, V>(m: map<K, V>, n: map<K, V>)
    requires forall k :: k in m <==> k in n
    requires forall k :: k in n ==> m[k] == n[k]
    ensures m == n
  {
  }

  /** Restoring the snapshot of a book with an exact index changes nothing. */
  lemma ReloadExact(b: Book)
    requires Exact(b)
    ensures Reload(b) == b
  {
    forall id
      ensures id in Reindex(b) <==> id in b.byId
      ensures id in b.byId ==> Reindex(b)[id] == b.byId[id]
    {
      ReindexAt(b, id);
    }
    SameMap(Reindex(b), b.byId);
  }

  // -- Exactness over runs ---------------------------------------------------

  ghost predicate KeepsExact(b: Book, op: Op) {
    !RestsLiveId(b, op)
  }

  lemma StepExact(b: Book, op: Op)
    requires Exact(b)
    ensures Exact(Step(b, op).book) <==> KeepsExact(b, op)
  {
    match op
    case Submits(o) => SubmitExact(b, o);
    case Cancels(id) => CancelExact(b, id);
    case Rests(o) =>
      if o.kind.Limit? {
        RestExact(b, o);
      }
    case Reloads => ReloadExact(b);
  }

  /** Over every run of every operation the index is exact throughout if and only if no
      operation rests an order under an id that is live at that moment. */
  lemma ExactThroughout(b: Book, ops: seq<Op>)
    requires Exact(b)
    ensures Throughout(Exact, b, ops) <==> AtEveryStep(KeepsExact, b, ops)
    ensures Throughout(Exact, b, ops) ==> Exact(Run(b, ops))
  {
    forall c, op | Exact(c)
      ensures Exact(Step(c, op).book) <==> KeepsExact(c, op)
    {
      StepExact(c, op);
    }
    ThroughoutIff(Exact, KeepsExact, b, ops);
  }

  /** An order enters under an id that is not live: ids of filled, cancelled and discarded
      orders may be used again. */
  ghost predicate EntersFresh(b: Book, op: Op) {
    Enters(op) ==> !Live(b, op.order.clientOrderId)
  }

  lemma {:induction false} NoLiveReuseKeeps(b: Book, ops: seq<Op>)
    requires AtEveryStep(EntersFresh, b, ops)
    ensures AtEveryStep(KeepsExact, b, ops)
    decreases |ops|
  {
    if ops != [] {
      if ops[0].Submits? {
        SweepLive(b, ops[0].order, ops[0].order.clientOrderId);
      }
      NoLiveReuseKeeps(Step(b, ops[0]).book, ops[1..]);
    }
  }

  /** As long as no order enters under a live id, the index of every reachable book is
      exact. */
  lemma NoLiveReuseExact(ops: seq<Op>)
    requires AtEveryStep(EntersFresh, EMPTY_BOOK, ops)
    ensures Exact(Run(EMPTY_BOOK, ops))
  {
    NoLiveReuseKeeps(EMPTY_BOOK, ops);
    ExactThroughout(EMPTY_BOOK, ops);
  }

  /** No id is used twice in the whole run. */
  ghost predicate FreshIds(ops: seq<Op>) {
    forall i, j :: 0 <= i < j < |ops| && Enters(ops[i]) && Enters(ops[j]) ==>
      ops[i].order.clientOrderId != ops[j].order.clientOrderId
  }

  lemma {:induction false} FreshIdsEnterFresh(b: Book, ops: seq<Op>)
    requires FreshIds(ops)
    requires forall i :: 0 <= i < |ops| && Enters(ops[i]) ==> !Live(b, ops[i].order.clientOrderId)
    ensures AtEveryStep(EntersFresh, b, ops)
    decreases |ops|
  {
    if ops != [] {
      forall i | 0 <= i < |ops[1..]| && Enters(ops[1..][i])
        ensures !Live(Step(b, ops[0]).book, ops[1..][i].order.clientOrderId)
      {
        StepLive(b, ops[0], ops[i + 1].order.clientOrderId);
      }
      FreshIdsEnterFresh(Step(b, ops[0]).book, ops[1..]);
    }
  }

  lemma FreshIdsExact(ops: seq<Op>)
    requires FreshIds(ops)
    ensures Exact(Run(EMPTY_BOOK, ops))
  {
    FreshIdsEnterFresh(EMPTY_BOOK, ops);
    NoLiveReuseExact(ops);
  }

  // -- When a restored book behaves alike ------------------------------------

  ghost predicate SameQueues(a: Book, b: Book) {
    a.bids == b.bids && a.asks == b.asks && a.nextTradeId == b.nextTradeId
  }

  /** Matching never reads the index: even when ids repeat, so that restoring changes the
      index, every later submission returns the same fills. */
  lemma {:induction false} RestoredBookFillsAlike(a: Book, b: Book, later: seq<Op>)
    requires SameQueues(a, b)
    requires forall i :: 0 <= i < |later| ==> !later[i].Cancels?
    ensures Replies(a, later) == Replies(b, later) && SameQueues(Run(a, later), Run(b, later))
    decreases |later|
  {
    if later != [] {
      RestoredBookFillsAlike(Step(a, later[0]).book, Step(b, later[0]).book, later[1..]);
    }
  }

  /** Every later run on the one book gives the replies and queues it gives on the other. */
  ghost predicate BehaveAlike(a: Book, b: Book) {
    forall later: seq<Op> ::
      Replies(a, later) == Replies(b, later) && SameQueues(Run(a, later), Run(b, later))
  }

  lemma OneCancel(a: Book, b: Book, id: U128)
    requires BehaveAlike(a, b)
    ensures Cancel(a, id).reply == Cancel(b, id).reply
    ensures SameQueues(Cancel(a, id).book, Cancel(b, id).book)
  {
    var later := [Cancels(id)];
    assert Replies(a, later) == Replies(b, later) && SameQueues(Run(a, later), Run(b, later));
    assert later[1..] == [];
    OneStep(a, Cancels(id));
    OneStep(b, Cancels(id));
    assert Replies(a, later)[0] == Replies(b, later)[0];
  }

  lemma OneStep(b: Book, op: Op)
    ensures Run(b, [op]) == Step(b, op).book && Replies(b, [op]) == [Step(b, op).reply]
  {
    assert [op][1..] == [];
    assert Run(Step(b, op).book, []) == Step(b, op).book;
  }

  /** Taking out entries at different prices leaves different queues. */
  lemma WithoutDiffers(q: seq<Entry>, i: nat, j: nat)
    requires i < |q| && j < |q| && q[i].price != q[j].price
    ensures Without(q, i) != Without(q, j)
  {
    WithoutMultiset(q, i);
    WithoutMultiset(q, j);
    assert multiset(Without(q, i))[q[i]] != multiset(Without(q, j))[q[i]];
  }

  lemma WithoutMultiset(q: seq<Entry>, k: nat)
    requires k < |q|
    ensures multiset(Without(q, k)) == multiset(q) - multiset{q[k]}
  {
    assert q == q[..k] + [q[k]] + q[k + 1..];
  }

  /** Two sound indexes over the same queues that send an id to different places are told
      apart by cancelling it. */
  lemma CancelTellsApart(a: Book, b: Book, id: U128)
    requires SameQueues(a, b) && IndexSound(a) && IndexSound(b)
    requires id in a.byId && id in b.byId && a.byId[id] != b.byId[id]
    ensures !SameQueues(Cancel(a, id).book, Cancel(b, id).book)
  {
    CancelSound(a, id);
    CancelSound(b, id);
    var (side, price) := a.byId[id];
    var (side', price') := b.byId[id];
    var q, q' := QueueOf(a, side), QueueOf(b, side');
    var k, k' := Find(q, price, id), Find(q', price', id);
    assert k < |q| && k' < |q'|;
    if side == side' {
      WithoutDiffers(q, k, k');
      assert QueueOf(Cancel(a, id).book, side) == Without(q, k);
      assert QueueOf(Cancel(b, id).book, side) == Without(q, k');
    } else {
      assert |QueueOf(Cancel(a, id).book, side)| == |q| - 1;
      assert QueueOf(Cancel(b, id).book, side) == q;
    }
  }

  /** Books that behave alike after a restore agree on every id. */
  lemma AlikeAgree(b: Book, id: U128)
    requires IndexSound(b) && BehaveAlike(Reload(b), b)
    ensures id in Reindex(b) <==> id in b.byId
    ensures id in b.byId && id in Reindex(b) ==> Reindex(b)[id] == b.byId[id]
  {
    ReloadSound(b);
    OneCancel(Reload(b), b, id);
    CancelSound(b, id);
    CancelSound(Reload(b), id);
    if id in b.byId && id in Reindex(b) && Reindex(b)[id] != b.byId[id] {
      CancelTellsApart(Reload(b), b, id);
    }
  }

  /** Snapshot bisimulation, exactly: a restored book gives the same replies and queues in
      every later run if and only if restoring changed nothing. */
  lemma RestoredAlikeIff(b: Book)
    requires IndexSound(b)
    ensures BehaveAlike(Reload(b), b) <==> Reload(b) == b
  {
    if BehaveAlike(Reload(b), b) {
      forall id
        ensures id in Reindex(b) <==> id in b.byId
        ensures id in b.byId ==> Reindex(b)[id] == b.byId[id]
      {
        AlikeAgree(b, id);
      }
      SameMap(Reindex(b), b.byId);
    }
  }

  /** No id rests twice, on one side or on both. */
  ghost predicate LiveOnce(b: Book) {
    && DistinctIds(b.bids) && DistinctIds(b.asks)
    && IdSet(b.bids) !! IdSet(b.asks)
  }

  /** When no id rests twice, restoring changes nothing if and only if the index is exact. */
  lemma ReloadExactIff(b: Book)
    requires LiveOnce(b)
    ensures Reload(b) == b <==> Exact(b)
  {
    if Exact(b) {
      ReloadExact(b);
    }
    if Reload(b) == b {
      ReloadSound(b);
      ReindexIndexed(b);
    }
  }

  lemma ReindexIndexed(b: Book)
    requires LiveOnce(b)
    ensures Indexed(Bid, b.bids, Reindex(b)) && Indexed(Ask, b.asks, Reindex(b))
  {
    forall k | 0 <= k < |b.asks|
      ensures b.asks[k].order.clientOrderId in IdSet(b.asks)
      ensures LastWith(b.asks, b.asks[k].order.clientOrderId) == k
    {
      InIdSet(b.asks, k);
    }
    forall k | 0 <= k < |b.bids|
      ensures b.bids[k].order.clientOrderId in IdSet(b.bids)
      ensures FirstWith(b.bids, b.bids[k].order.clientOrderId) == k
    {
      InIdSet(b.bids, k);
    }
  }

  /** At every book any run of every operation reaches: restoring it goes unnoticed for ever
      if and only if it leaves the index as it was, and, when no id rests twice, if and only
      if the index is exact. */
  lemma RestoredBookBehavesAlikeIff(ops: seq<Op>)
    ensures var b := Run(EMPTY_BOOK, ops);
      && (BehaveAlike(Reload(b), b) <==> Reload(b) == b)
      && (LiveOnce(b) ==> (BehaveAlike(Reload(b), b) <==> Exact(b)))
  {
    RunSound(EMPTY_BOOK, ops);
    var b := Run(EMPTY_BOOK, ops);
    RestoredAlikeIff(b);
    if LiveOnce(b) {
      ReloadExactIff(b);
    }
  }

  /** In particular any book reached without resting a live id can be restored unnoticed. */
  lemma RestoredBookBehavesAlike(ops: seq<Op>, later: seq<Op>)
    requires AtEveryStep(KeepsExact, EMPTY_BOOK, ops)
    ensures var b := Run(EMPTY_BOOK, ops);
      && Reload(b) == b
      && Replies(Reload(b), later) == Replies(b, later)
      && Run(Reload(b), later) == Run(b, later)
  {
    ExactThroughout(EMPTY_BOOK, ops);
    ReloadExact(Run(EMPTY_BOOK, ops));
  }

  /** Resting one id twice and cancelling it leaves the first order, out of the index. */
  lemma ReusedIdRun(first: Order, second: Order, id: U128)
    requires first.clientOrderId == second.clientOrderId == id
    requires first.side == second.side == Bid && first.qty > 0 && second.qty > 0
    requires first.kind == Limit(100, Gtc) && second.kind == Limit(101, Gtc)
    ensures Run(EMPTY_BOOK, [Submits(first), Submits(second), Cancels(id)])
         == Book([Entry(100, ToResting(first))], [], map[], 0)
  {
    var ops := [Submits(first), Submits(second), Cancels(id)];
    var b1, b2, b3 := ReusedIdSteps(first, second, id);
    ThreeSteps(EMPTY_BOOK, ops, b1, b2, b3);
  }

  lemma ReusedIdSteps(first: Order, second: Order, id: U128) returns (b1: Book, b2: Book, b3: Book)
    requires first.clientOrderId == second.clientOrderId == id
    requires first.side == second.side == Bid && first.qty > 0 && second.qty > 0
    requires first.kind == Limit(100, Gtc) && second.kind == Limit(101, Gtc)
    ensures Step(EMPTY_BOOK, Submits(first)).book == b1
    ensures Step(b1, Submits(second)).book == b2
    ensures Step(b2, Cancels(id)).book == b3
    ensures b3 == Book([Entry(100, ToResting(first))], [], map[], 0)
  {
    var e1, e2 := Entry(100, ToResting(first)), Entry(101, ToResting(second));
    b1 := Book([e1] + [], [], map[][id := (Bid, 100)], 0);
    b2 := Book([e2] + b1.bids, [], b1.byId[id := (Bid, 101)], 0);
    b3 := b2.(bids := b2.bids[1..], byId := b2.byId - {id});
    RestsOnEmptySide(EMPTY_BOOK, first, b1);
    RestsOnEmptySide(b1, second, b2);
    CancelsFirst(b2, id, b3);
    assert b3.bids == [e1] && b3.byId == map[];
  }

  /** A bid that finds no asks rests at once. */
  lemma RestsOnEmptySide(b: Book, o: Order, b': Book)
    requires b.asks == [] && o.side == Bid && o.qty > 0 && IsGtc(o)
    requires b.bids == [] || (|b.bids| == 1 && b.bids[0].price < o.kind.price)
    requires b' == Book([Entry(o.kind.price, ToResting(o))] + b.bids, [],
                        b.byId[o.clientOrderId := (Bid, o.kind.price)], b.nextTradeId)
    ensures Step(b, Submits(o)).book == b'
  {
  }

  lemma CancelsFirst(b: Book, id: U128, b': Book)
    requires b.bids != [] && b.bids[0].order.clientOrderId == id
    requires id in b.byId && b.byId[id] == (Bid, b.bids[0].price)
    requires b' == b.(bids := b.bids[1..], byId := b.byId - {id})
    ensures Step(b, Cancels(id)).book == b'
  {
  }

  lemma ThreeSteps(b: Book, ops: seq<Op>, b1: Book, b2: Book, b3: Book)
    requires |ops| == 3
    requires Step(b, ops[0]).book == b1 && Step(b1, ops[1]).book == b2 && Step(b2, ops[2]).book == b3
    ensures Run(b, ops) == b3
  {
    assert ops[1..][0] == ops[1] && ops[1..][1..][0] == ops[2] && ops[1..][1..][1..] == [];
    assert Run(b2, ops[1..][1..]) == Run(b3, []);
  }

  /** Reusing a live id can break both properties: in this run an order ends up resting, its
      id live once, that cannot be cancelled until a restore makes it cancellable. */
  lemma ReusedIdLosesOrder(first: Order, second: Order, id: U128)
    requires first.clientOrderId == second.clientOrderId == id
    requires first.side == second.side == Bid && first.qty > 0 && second.qty > 0
    requires first.kind == Limit(100, Gtc) && second.kind == Limit(101, Gtc)
    ensures var b := Run(EMPTY_BOOK, [Submits(first), Submits(second), Cancels(id)]);
      && Live(b, id) && LiveOnce(b) && !BehaveAlike(Reload(b), b)
      && Cancel(b, id).reply == Cancelled(false)
      && Cancel(Reload(b), id).reply == Cancelled(true)
  {
    ReusedIdRun(first, second, id);
    var b := Book([Entry(100, ToResting(first))], [], map[], 0);
    InIdSet(b.bids, 0);
    ReloadSound(b);
    CancelSound(Reload(b), id);
    assert id in Reindex(b);
    RestoredAlikeIff(b);
  }
}
