/** Invariants of the book over whole runs: queues stay ranked, and runs that only match
    and cancel never leave a crossed book, or a resting order without quantity. */
module BookRuns {
  import opened EngineTypes
  import opened MatchSpec
  import opened Sweeps

  ghost predicate RankedBook(b: Book) {
    Ranked(Bid, b.bids) && Ranked(Ask, b.asks)
  }

  ghost predicate Positive(q: seq<Entry>) {
    forall i :: 0 <= i < |q| ==> q[i].order.qtyRemaining > 0
  }

  /** Every bid is below every ask. */
  ghost predicate Uncrossed(b: Book) {
    forall i, j :: 0 <= i < |b.bids| && 0 <= j < |b.asks| ==> b.bids[i].price < b.asks[j].price
  }

  ghost predicate WellFormed(b: Book) {
    RankedBook(b) && Positive(b.bids) && Positive(b.asks) && Uncrossed(b)
  }

  // -- What each operation does to one queue ---------------------------------

  /** The same order, possibly with less quantity but not newly exhausted. */
  ghost predicate Kept(after: Entry, before: Entry) {
    && after.price == before.price
    && after.order == before.order.(qtyRemaining := after.order.qtyRemaining)
    && after.order.qtyRemaining <= before.order.qtyRemaining
    && (before.order.qtyRemaining > 0 ==> after.order.qtyRemaining > 0)
  }

  ghost predicate TailOf(rest: seq<Entry>, q: seq<Entry>) {
    && |rest| <= |q|
    && forall j {:trigger rest[j]} :: 0 <= j < |rest| ==> Kept(rest[j], q[|q| - |rest| + j])
  }

  /** What a sweep leaves is the tail of the queue, at most its head reduced. */
  lemma {:induction false} RestIsTail(q: seq<Entry>, taker: Order, remaining: U64)
    ensures TailOf(Greedy(q, taker, remaining).rest, q)
  {
    if remaining == 0 || q == [] || !Crosses(taker.kind, taker.side, q[0].price) {
    } else {
      var traded := Min(remaining, q[0].order.qtyRemaining);
      if traded == q[0].order.qtyRemaining {
        var rest := Greedy(q[1..], taker, remaining - traded).rest;
        RestIsTail(q[1..], taker, remaining - traded);
        TailOfTail(rest, q);
      } else {
        ReducedTail(q, traded);
      }
    }
  }

  lemma TailOfTail(rest: seq<Entry>, q: seq<Entry>)
    requires q != [] && TailOf(rest, q[1..])
    ensures TailOf(rest, q)
  {
  }

  lemma ReducedTail(q: seq<Entry>, traded: U64)
    requires q != [] && traded < q[0].order.qtyRemaining
    ensures TailOf([Reduce(q[0], traded)] + q[1..], q)
  {
  }

  lemma RestRanked(side: Side, q: seq<Entry>, taker: Order, remaining: U64)
    requires Ranked(side, q)
    ensures Ranked(side, Greedy(q, taker, remaining).rest)
    ensures Positive(q) ==> Positive(Greedy(q, taker, remaining).rest)
  {
    RestIsTail(q, taker, remaining);
  }

  lemma JoinRanked(side: Side, q: seq<Entry>, e: Entry)
    requires Ranked(side, q)
    ensures Ranked(side, Join(side, q, e))
    ensures Positive(q) && e.order.qtyRemaining > 0 ==> Positive(Join(side, q, e))
  {
  }

  lemma WithoutRanked(side: Side, q: seq<Entry>, k: nat)
    requires k < |q| && Ranked(side, q)
    ensures Ranked(side, Without(q, k))
    ensures Positive(q) ==> Positive(Without(q, k))
  {
  }

  // -- Ranking, for every operation ------------------------------------------

  lemma StepRanked(b: Book, op: Op)
    requires RankedBook(b)
    ensures RankedBook(Step(b, op).book)
  {
    match op
    case Submits(o) =>
      var q := QueueOf(b, Opposite(o.side));
      var s := Greedy(q, o, o.qty);
      RestRanked(Opposite(o.side), q, o, o.qty);
      RestsRanked(AfterSweep(b, o, s), Remainder(o, s.remaining));
    case Cancels(id) =>
      if id in b.byId {
        var (side, price) := b.byId[id];
        var k := Find(QueueOf(b, side), price, id);
        if k < |QueueOf(b, side)| {
          WithoutRanked(side, QueueOf(b, side), k);
        }
      }
    case Rests(o) => RestsRanked(b, o);
    case Reloads =>
  }

  lemma RestsRanked(b: Book, o: Order)
    requires RankedBook(b)
    ensures RankedBook(Rest(b, o))
  {
    if o.kind.Limit? {
      JoinRanked(o.side, QueueOf(b, o.side), Entry(o.kind.price, ToResting(o)));
    }
  }

  lemma {:induction false} RunRanked(b: Book, ops: seq<Op>)
    requires RankedBook(b)
    ensures RankedBook(Run(b, ops))
    decreases |ops|
  {
    if ops != [] {
      StepRanked(b, ops[0]);
      RunRanked(Step(b, ops[0]).book, ops[1..]);
    }
  }

  // -- No crossed book -------------------------------------------------------

  lemma SubmitWellFormed(b: Book, o: Order)
    requires WellFormed(b)
    ensures WellFormed(Submit(b, o).book)
  {
    var q := QueueOf(b, Opposite(o.side));
    var s := Greedy(q, o, o.qty);
    RestRanked(Opposite(o.side), q, o, o.qty);
    RestIsTail(q, o, o.qty);
    var swept := AfterSweep(b, o, s);
    SweptUncrossed(b, o, s);
    if s.remaining > 0 && IsGtc(o) {
      GreedyRemainder(q, o, o.qty);
      NoneCross(s.rest, o);
      RestWellFormed(swept, Remainder(o, s.remaining));
    }
  }

  lemma SweptUncrossed(b: Book, o: Order, s: Sweep)
    requires Uncrossed(b) && s == Greedy(QueueOf(b, Opposite(o.side)), o, o.qty)
    ensures Uncrossed(AfterSweep(b, o, s))
  {
    var q := QueueOf(b, Opposite(o.side));
    RestIsTail(q, o, o.qty);
    if o.side == Bid {
      assert AfterSweep(b, o, s).asks == s.rest;
    } else {
      assert AfterSweep(b, o, s).bids == s.rest;
    }
  }

  /** Resting directly is safe: nothing rests without quantity, or against a facing order
      that would trade with it. */
  ghost predicate RestsSafely(b: Book, o: Order) {
    o.kind.Market? || (o.qty > 0 && !AnyCrosses(QueueOf(b, Opposite(o.side)), o))
  }

  /** Resting keeps the book well-formed if and only if the order has a quantity and the
      facing side does not cross it. */
  lemma RestWellFormed(b: Book, o: Order)
    requires WellFormed(b)
    ensures WellFormed(Rest(b, o)) <==> RestsSafely(b, o)
  {
    if o.kind.Limit? {
      if RestsSafely(b, o) {
        SafeRest(b, o);
      } else {
        UnsafeRest(b, o);
      }
    }
  }

  lemma SafeRest(b: Book, o: Order)
    requires WellFormed(b) && o.kind.Limit? && RestsSafely(b, o)
    ensures WellFormed(Rest(b, o))
  {
    var e := Entry(o.kind.price, ToResting(o));
    JoinRanked(o.side, QueueOf(b, o.side), e);
    var r := Join(o.side, QueueOf(b, o.side), e);
    forall i, j | 0 <= i < |r| && 0 <= j < |QueueOf(b, Opposite(o.side))|
      ensures Before(Ask, if o.side == Bid then r[i].price else QueueOf(b, Opposite(o.side))[j].price,
                     if o.side == Bid then QueueOf(b, Opposite(o.side))[j].price else r[i].price)
    {
      var m := JoinAt(o.side, QueueOf(b, o.side), e.price);
      assert !Crosses(o.kind, o.side, QueueOf(b, Opposite(o.side))[j].price);
      assert r[i] == if i < m then QueueOf(b, o.side)[i] else if i == m then e else QueueOf(b, o.side)[i - 1];
    }
  }

  lemma UnsafeRest(b: Book, o: Order)
    requires o.kind.Limit? && !RestsSafely(b, o)
    ensures !WellFormed(Rest(b, o))
  {
    var facing := QueueOf(b, Opposite(o.side));
    var e := Entry(o.kind.price, ToResting(o));
    var r := QueueOf(Rest(b, o), o.side);
    var m := JoinAt(o.side, QueueOf(b, o.side), e.price);
    assert r[m] == e;
    if o.qty > 0 {
      var j :| 0 <= j < |facing| && Crosses(o.kind, o.side, facing[j].price);
      assert QueueOf(Rest(b, o), Opposite(o.side))[j] == facing[j];
    }
  }

  lemma CancelWellFormed(b: Book, id: U128)
    requires WellFormed(b)
    ensures WellFormed(Cancel(b, id).book)
  {
    if id in b.byId {
      var (side, price) := b.byId[id];
      var q := QueueOf(b, side);
      var k := Find(q, price, id);
      if k < |q| {
        WithoutRanked(side, q, k);
        WithoutUncrossed(b, side, k);
      }
    }
  }

  lemma WithoutUncrossed(b: Book, side: Side, k: nat)
    requires Uncrossed(b) && k < |QueueOf(b, side)|
    ensures Uncrossed(WithQueue(b, side, Without(QueueOf(b, side), k)))
  {
  }

  // -- Properties of every book of a run -------------------------------------

  ghost predicate Throughout(good: Book -> bool, b: Book, ops: seq<Op>)
    decreases |ops|
  {
    good(b) && (ops == [] || Throughout(good, Step(b, ops[0]).book, ops[1..]))
  }

  ghost predicate AtEveryStep(keeps: (Book, Op) -> bool, b: Book, ops: seq<Op>)
    decreases |ops|
  {
    ops == [] || (keeps(b, ops[0]) && AtEveryStep(keeps, Step(b, ops[0]).book, ops[1..]))
  }

  /** If an operation keeps a property exactly when `keeps` says so, a run keeps it
      throughout exactly when every operation does. */
  lemma {:induction false} ThroughoutIff(good: Book -> bool, keeps: (Book, Op) -> bool, b: Book, ops: seq<Op>)
    requires good(b)
    requires forall c, op :: good(c) ==> (good(Step(c, op).book) <==> keeps(c, op))
    ensures Throughout(good, b, ops) <==> AtEveryStep(keeps, b, ops)
    ensures Throughout(good, b, ops) ==> good(Run(b, ops))
    decreases |ops|
  {
    if ops != [] {
      assert good(Step(b, ops[0]).book) <==> keeps(b, ops[0]);
      if good(Step(b, ops[0]).book) {
        ThroughoutIff(good, keeps, Step(b, ops[0]).book, ops[1..]);
      }
    }
  }

  ghost predicate KeepsWellFormed(b: Book, op: Op) {
    op.Rests? ==> RestsSafely(b, op.order)
  }

  lemma StepWellFormed(b: Book, op: Op)
    requires WellFormed(b)
    ensures WellFormed(Step(b, op).book) <==> KeepsWellFormed(b, op)
  {
    match op
    case Submits(o) => SubmitWellFormed(b, o);
    case Cancels(id) => CancelWellFormed(b, id);
    case Rests(o) => RestWellFormed(b, o);
    case Reloads =>
  }

  /** Over every run of every operation the book stays well-formed throughout if and only
      if each order rested directly has a quantity and nothing facing it crosses. */
  lemma WellFormedThroughout(b: Book, ops: seq<Op>)
    requires WellFormed(b)
    ensures Throughout(WellFormed, b, ops) <==> AtEveryStep(KeepsWellFormed, b, ops)
    ensures Throughout(WellFormed, b, ops) ==> WellFormed(Run(b, ops))
  {
    forall c, op | WellFormed(c)
      ensures WellFormed(Step(c, op).book) <==> KeepsWellFormed(c, op)
    {
      StepWellFormed(c, op);
    }
    ThroughoutIff(WellFormed, KeepsWellFormed, b, ops);
  }

  lemma {:induction false} RunWellFormed(b: Book, ops: seq<Op>)
    requires WellFormed(b) && Matched(ops)
    ensures WellFormed(Run(b, ops))
    decreases |ops|
  {
    if ops != [] {
      StepWellFormed(b, ops[0]);
      RunWellFormed(Step(b, ops[0]).book, ops[1..]);
    }
  }

  /** After every run of matches, cancels and reloads from the empty book, the best bid
      is below the best ask and nothing rests with quantity zero. */
  lemma NeverCrossed(ops: seq<Op>)
    requires Matched(ops)
    ensures var b := Run(EMPTY_BOOK, ops);
      && RankedBook(b) && Positive(b.bids) && Positive(b.asks)
      && (b.bids != [] && b.asks != [] ==> b.bids[0].price < b.asks[0].price)
  {
    RunWellFormed(EMPTY_BOOK, ops);
  }

  /** Resting directly is not checked: a run with two of them crosses the book. */
  lemma RestingDirectlyCanCross(token: Token)
    ensures var bid := Order(1, 1, 1, token, Bid, 5, Limit(101, Gtc));
      var ask := Order(2, 2, 2, token, Ask, 5, Limit(100, Gtc));
      !Uncrossed(Run(EMPTY_BOOK, [Rests(bid), Rests(ask)]))
  {
    var bid := Order(1, 1, 1, token, Bid, 5, Limit(101, Gtc));
    var ask := Order(2, 2, 2, token, Ask, 5, Limit(100, Gtc));
    var ops := [Rests(bid), Rests(ask)];
    var b1 := Rest(EMPTY_BOOK, bid);
    var b2 := Rest(b1, ask);
    assert ops[1..] == [Rests(ask)] && ops[1..][1..] == [];
    assert Run(EMPTY_BOOK, ops) == Run(b1, ops[1..]) == Run(b2, []) == b2;
    assert b2.bids == [Entry(101, ToResting(bid))] && b2.asks == [Entry(100, ToResting(ask))];
    assert b2.bids[0].price > b2.asks[0].price;
  }
}
