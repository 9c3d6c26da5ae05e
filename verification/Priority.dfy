/** Price-time priority over whole runs. */
module Priority {
  import opened EngineTypes
  import opened MatchSpec
  import opened Sweeps
  import opened BookRuns

  /** Within a price, arrival order is sequence order. */
  ghost predicate Fifo(q: seq<Entry>) {
    forall i, j :: 0 <= i < j < |q| && q[i].price == q[j].price ==>
      q[i].order.platformSeq < q[j].order.platformSeq
  }

  ghost predicate InSequence(side: Side, q: seq<Entry>) {
    Ranked(side, q) && Fifo(q)
  }

  ghost predicate FifoBook(b: Book) {
    InSequence(Bid, b.bids) && InSequence(Ask, b.asks)
  }

  /** Orders arrive with increasing sequence numbers. */
  ghost predicate IncreasingSeqs(ops: seq<Op>) {
    forall i, j :: 0 <= i < j < |ops| && Enters(ops[i]) && Enters(ops[j]) ==>
      ops[i].order.platformSeq < ops[j].order.platformSeq
  }

  /** Everything already resting at `price` is earlier in sequence than `n`. */
  ghost predicate AllEarlier(q: seq<Entry>, price: I64, n: int) {
    forall i :: 0 <= i < |q| && q[i].price == price ==> q[i].order.platformSeq < n
  }

  // -- When a queue stays in sequence order ----------------------------------

  /** Joining keeps a queue in sequence order if and only if everything resting at that
      price came earlier in sequence. */
  lemma JoinFifo(side: Side, q: seq<Entry>, e: Entry)
    requires Fifo(q) && Ranked(side, q)
    ensures Fifo(Join(side, q, e)) <==> AllEarlier(q, e.price, e.order.platformSeq)
  {
    var m := JoinAt(side, q, e.price);
    var r := Join(side, q, e);
    assert forall i :: 0 <= i < |r| ==> r[i] == if i < m then q[i] else if i == m then e else q[i - 1];
    WorseBehind(side, q, e.price);
    if AllEarlier(q, e.price, e.order.platformSeq) {
    } else {
      var i :| 0 <= i < |q| && q[i].price == e.price && q[i].order.platformSeq >= e.order.platformSeq;
      assert i < m;
      assert r[i] == q[i] && r[m] == e;
    }
  }

  lemma WorseBehind(side: Side, q: seq<Entry>, price: I64)
    requires Ranked(side, q)
    ensures forall j :: JoinAt(side, q, price) <= j < |q| ==> Before(side, price, q[j].price)
  {
    var m := JoinAt(side, q, price);
    forall j | m <= j < |q|
      ensures Before(side, price, q[j].price)
    {
      if m < j {
        assert !Before(side, q[j].price, q[m].price);
      }
    }
  }

  lemma RestFifo(b: Book, o: Order)
    requires FifoBook(b)
    ensures FifoBook(Rest(b, o)) <==>
      o.kind.Market? || AllEarlier(QueueOf(b, o.side), o.kind.price, o.platformSeq)
  {
    RestsRanked(b, o);
    if o.kind.Limit? {
      JoinFifo(o.side, QueueOf(b, o.side), Entry(o.kind.price, ToResting(o)));
    }
  }

  lemma TailFifo(rest: seq<Entry>, q: seq<Entry>)
    requires TailOf(rest, q) && Fifo(q)
    ensures Fifo(rest)
  {
  }

  lemma SweptQueue(q: seq<Entry>, o: Order)
    requires InSequence(Opposite(o.side), q)
    ensures InSequence(Opposite(o.side), Greedy(q, o, o.qty).rest)
  {
    RestIsTail(q, o, o.qty);
    RestRanked(Opposite(o.side), q, o, o.qty);
    TailFifo(Greedy(q, o, o.qty).rest, q);
  }

  lemma SweptFifo(b: Book, o: Order)
    requires FifoBook(b)
    ensures FifoBook(AfterSweep(b, o, Greedy(QueueOf(b, Opposite(o.side)), o, o.qty)))
  {
    var facing := QueueOf(b, Opposite(o.side));
    SweptQueue(facing, o);
    ReplaceSide(b, Opposite(o.side), Greedy(facing, o, o.qty).rest);
  }

  lemma ReplaceSide(b: Book, side: Side, q: seq<Entry>)
    requires FifoBook(b) && InSequence(side, q)
    ensures FifoBook(WithQueue(b, side, q))
  {
  }

  /** An order that is going to rest is later in sequence than all that rests at its
      price. It is going to rest if it is good till cancelled and crossing liquidity does
      not fill it. */
  ghost predicate ArrivesInOrder(b: Book, op: Op) {
    match op
    case Submits(o) =>
      IsGtc(o) && Depth(QueueOf(b, Opposite(o.side)), o) < o.qty ==>
        AllEarlier(QueueOf(b, o.side), o.kind.price, o.platformSeq)
    case Rests(o) => o.kind.Limit? ==> AllEarlier(QueueOf(b, o.side), o.kind.price, o.platformSeq)
    case _ => true
  }

  lemma SubmitFifo(b: Book, o: Order)
    requires FifoBook(b)
    ensures FifoBook(Submit(b, o).book) <==> ArrivesInOrder(b, Submits(o))
  {
    var facing := QueueOf(b, Opposite(o.side));
    var s := Greedy(facing, o, o.qty);
    SweptFifo(b, o);
    GreedyVolume(facing, o, o.qty);
    GreedyRemainder(facing, o, o.qty);
    if s.remaining > 0 && IsGtc(o) {
      var swept := AfterSweep(b, o, s);
      assert QueueOf(swept, o.side) == QueueOf(b, o.side);
      RestFifo(swept, Remainder(o, s.remaining));
    }
  }

  lemma WithoutFifo(q: seq<Entry>, k: nat)
    requires k < |q| && Fifo(q)
    ensures Fifo(Without(q, k))
  {
  }

  lemma CancelFifo(b: Book, id: U128)
    requires FifoBook(b)
    ensures FifoBook(Cancel(b, id).book)
  {
    if id in b.byId {
      var (side, price) := b.byId[id];
      var q := QueueOf(b, side);
      var k := Find(q, price, id);
      if k < |q| {
        WithoutFifo(q, k);
        WithoutRanked(side, q, k);
        ReplaceSide(b, side, Without(q, k));
      }
    }
  }

  lemma StepFifo(b: Book, op: Op)
    requires FifoBook(b)
    ensures FifoBook(Step(b, op).book) <==> ArrivesInOrder(b, op)
  {
    match op
    case Submits(o) => SubmitFifo(b, o);
    case Cancels(id) => CancelFifo(b, id);
    case Rests(o) => RestFifo(b, o);
    case Reloads =>
  }

  /** Over every run of every operation, queues are in sequence order throughout if and
      only if every order that comes to rest arrives later in sequence than what it finds
      at its price. */
  lemma FifoThroughout(b: Book, ops: seq<Op>)
    requires FifoBook(b)
    ensures Throughout(FifoBook, b, ops) <==> AtEveryStep(ArrivesInOrder, b, ops)
    ensures Throughout(FifoBook, b, ops) ==> FifoBook(Run(b, ops))
  {
    forall c, op | FifoBook(c)
      ensures FifoBook(Step(c, op).book) <==> ArrivesInOrder(c, op)
    {
      StepFifo(c, op);
    }
    ThroughoutIff(FifoBook, ArrivesInOrder, b, ops);
  }

  // -- Increasing sequence numbers suffice -----------------------------------

  ghost predicate SeqsBelow(b: Book, n: int) {
    && (forall i :: 0 <= i < |b.bids| ==> b.bids[i].order.platformSeq < n)
    && (forall i :: 0 <= i < |b.asks| ==> b.asks[i].order.platformSeq < n)
  }

  /** Only an entering order brings in a sequence number. */
  lemma StepBelow(b: Book, op: Op, n: int)
    requires SeqsBelow(b, n)
    requires Enters(op) ==> op.order.platformSeq < n
    ensures SeqsBelow(Step(b, op).book, n)
  {
    match op
    case Submits(o) =>
      var facing := QueueOf(b, Opposite(o.side));
      var s := Greedy(facing, o, o.qty);
      RestIsTail(facing, o, o.qty);
      TailBelow(s.rest, facing, n);
      RestBelow(AfterSweep(b, o, s), Remainder(o, s.remaining), n);
    case Cancels(id) =>
    case Rests(o) => RestBelow(b, o, n);
    case Reloads =>
  }

  lemma TailBelow(rest: seq<Entry>, q: seq<Entry>, n: int)
    requires TailOf(rest, q) && forall i :: 0 <= i < |q| ==> q[i].order.platformSeq < n
    ensures forall i :: 0 <= i < |rest| ==> rest[i].order.platformSeq < n
  {
  }

  lemma RestBelow(b: Book, o: Order, n: int)
    requires SeqsBelow(b, n) && o.platformSeq < n
    ensures SeqsBelow(Rest(b, o), n)
  {
  }

  lemma {:induction false} IncreasingArrives(b: Book, ops: seq<Op>, n: int)
    requires SeqsBelow(b, n) && IncreasingSeqs(ops)
    requires forall i :: 0 <= i < |ops| && Enters(ops[i]) ==> n <= ops[i].order.platformSeq
    ensures AtEveryStep(ArrivesInOrder, b, ops)
    decreases |ops|
  {
    if ops != [] {
      var n' := if Enters(ops[0]) then ops[0].order.platformSeq + 1 else n;
      StepBelow(b, ops[0], n');
      IncreasingArrives(Step(b, ops[0]).book, ops[1..], n');
    }
  }

  lemma RunFifo(ops: seq<Op>)
    requires IncreasingSeqs(ops)
    ensures Throughout(FifoBook, EMPTY_BOOK, ops) && FifoBook(Run(EMPTY_BOOK, ops))
  {
    IncreasingArrives(EMPTY_BOOK, ops, 0);
    FifoThroughout(EMPTY_BOOK, ops);
  }

  /** A queue that is not in sequence order: two bids at one price, of which the one
      stamped second arrives first. */
  lemma OvertakenRun(first: Order, second: Order)
    requires first.side == second.side == Bid && first.qty > 0 && second.qty > 0
    requires first.kind == second.kind && IsGtc(first)
    requires first.platformSeq < second.platformSeq
    ensures var b := Run(EMPTY_BOOK, [Submits(second), Submits(first)]);
      && b.bids == [Entry(first.kind.price, ToResting(second)), Entry(first.kind.price, ToResting(first))]
      && !FifoBook(b)
  {
    var ops := [Submits(second), Submits(first)];
    var b1 := Rest(EMPTY_BOOK, second);
    var b2 := Rest(b1, first);
    BidRests(EMPTY_BOOK, second);
    BidRests(b1, first);
    assert ops[1..] == [Submits(first)] && ops[1..][1..] == [];
    assert Run(EMPTY_BOOK, ops) == Run(b1, ops[1..]) == Run(b2, []) == b2;
    assert b1.bids == [Entry(first.kind.price, ToResting(second))];
    assert b2.bids[0].order.platformSeq > b2.bids[1].order.platformSeq;
  }

  /** A bid that finds no asks rests as it is. */
  lemma BidRests(b: Book, o: Order)
    requires b.asks == [] && o.side == Bid && o.qty > 0 && IsGtc(o)
    ensures Step(b, Submits(o)).book == Rest(b, o) && Rest(b, o).asks == []
  {
    assert Greedy(b.asks, o, o.qty) == Sweep([], [], [], o.qty);
    assert b.byId - Ids([]) == b.byId;
  }

  /** Fills of one taker never improve in price, and at one price go through makers in
      sequence order. */
  ghost predicate FillsInPriority(makerSide: Side, fills: seq<Fill>) {
    forall i, j :: 0 <= i < j < |fills| ==>
      && !Before(makerSide, fills[j].price, fills[i].price)
      && (fills[i].price == fills[j].price ==> fills[i].platformSeqMaker < fills[j].platformSeqMaker)
  }

  /** Nothing still resting had priority over a maker that traded. */
  ghost predicate NoBypass(makerSide: Side, fills: seq<Fill>, rest: seq<Entry>) {
    forall i, j :: 0 <= i < |fills| && 0 <= j < |rest| ==>
      && !Before(makerSide, rest[j].price, fills[i].price)
      && (rest[j].price == fills[i].price ==> fills[i].platformSeqMaker <= rest[j].order.platformSeq)
  }

  /** What traded came before what is left: a prefix of the queue traded, and its tail is
      left. */
  lemma PrefixPriority(q: seq<Entry>, taker: Order, s: Sweep)
    requires Ranked(Opposite(taker.side), q) && Fifo(q)
    requires TailOf(s.rest, q) && PrefixTraded(q, taker, s)
    ensures NoBypass(Opposite(taker.side), s.fills, s.rest)
  {
    forall i, j | 0 <= i < |s.fills| && 0 <= j < |s.rest|
      ensures !Before(Opposite(taker.side), s.rest[j].price, s.fills[i].price)
      ensures s.rest[j].price == s.fills[i].price ==> s.fills[i].platformSeqMaker <= s.rest[j].order.platformSeq
    {
      var p := Consumed(q, s) + j;
      assert Kept(s.rest[j], q[p]);
      assert s.fills[i] == FillFor(taker, q[i], s.fills[i].qty);
      assert i <= p;
    }
  }

  lemma PrefixOrdered(q: seq<Entry>, taker: Order, s: Sweep)
    requires Ranked(Opposite(taker.side), q) && Fifo(q)
    requires |s.rest| <= |q| && PrefixTraded(q, taker, s)
    ensures FillsInPriority(Opposite(taker.side), s.fills)
  {
    assert forall i :: 0 <= i < |s.fills| ==> s.fills[i] == FillFor(taker, q[i], s.fills[i].qty);
  }

  lemma GreedyPriority(q: seq<Entry>, taker: Order, remaining: U64)
    requires Ranked(Opposite(taker.side), q) && Fifo(q)
    ensures var s := Greedy(q, taker, remaining);
      FillsInPriority(Opposite(taker.side), s.fills) && NoBypass(Opposite(taker.side), s.fills, s.rest)
  {
    GreedyTradesPrefix(q, taker, remaining);
    RestIsTail(q, taker, remaining);
    PrefixOrdered(q, taker, Greedy(q, taker, remaining));
    PrefixPriority(q, taker, Greedy(q, taker, remaining));
  }

  lemma SubmitPriority(b: Book, taker: Order)
    requires FifoBook(b)
    ensures var r := Submit(b, taker);
      && FillsInPriority(Opposite(taker.side), r.reply.fills)
      && NoBypass(Opposite(taker.side), r.reply.fills, QueueOf(r.book, Opposite(taker.side)))
  {
    GreedyPriority(QueueOf(b, Opposite(taker.side)), taker, taker.qty);
  }

  /** Price-time priority at every point of every run in which orders come to rest in
      sequence order: whatever came before, the fills of the next taker follow priority and
      bypass nobody. */
  lemma PriorityRespected(ops: seq<Op>, taker: Order)
    requires AtEveryStep(ArrivesInOrder, EMPTY_BOOK, ops)
    ensures var b := Run(EMPTY_BOOK, ops);
      var r := Submit(b, taker);
      && FifoBook(b)
      && FillsInPriority(Opposite(taker.side), r.reply.fills)
      && NoBypass(Opposite(taker.side), r.reply.fills, QueueOf(r.book, Opposite(taker.side)))
  {
    FifoThroughout(EMPTY_BOOK, ops);
    SubmitPriority(Run(EMPTY_BOOK, ops), taker);
  }

  /** On every book: a taker trades with at most every facing order once, each at its own
      price, and only its last fill can leave the maker with something. */
  lemma OnlyLastFillPartial(b: Book, taker: Order)
    ensures var q := QueueOf(b, Opposite(taker.side));
      var fills := Submit(b, taker).reply.fills;
      && |fills| <= |q|
      && (forall i :: 0 <= i < |fills| ==>
            fills[i].platformSeqMaker == q[i].order.platformSeq && fills[i].price == q[i].price)
      && (forall i :: 0 <= i < |fills| - 1 ==> fills[i].qty == q[i].order.qtyRemaining)
  {
    GreedyTradesPrefix(QueueOf(b, Opposite(taker.side)), taker, taker.qty);
  }
}
