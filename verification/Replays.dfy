/** Whole runs on the mutable book: an operation list driven through an OrderBook, snapshots
    and restores included, ends in the book of MatchSpec.Run, with the same replies and
    without an empty level anywhere. */
module Replays {
  import opened EngineTypes
  import opened MatchSpec
  import opened BookRuns
  import opened Ladders
  import opened OrderBooks
  import opened Snapshots

  lemma {:induction false} OneMore(b: Book, ops: seq<Op>, op: Op)
    ensures Run(b, ops + [op]) == Step(Run(b, ops), op).book
    ensures Replies(b, ops + [op]) == Replies(b, ops) + [Step(Run(b, ops), op).reply]
    decreases |ops|
  {
    var more := ops + [op];
    if ops == [] {
      assert more[1..] == [];
      assert Run(Step(b, op).book, more[1..]) == Step(b, op).book;
      assert Replies(Step(b, op).book, more[1..]) == [];
    } else {
      assert more[1..] == ops[1..] + [op];
      OneMore(Step(b, ops[0]).book, ops[1..], op);
    }
  }

  /** One operation. A reload leaves `book` alone and goes on with the restored copy. */
  method Perform(book: OrderBook, op: Op) returns (next: OrderBook, reply: Reply)
    requires book.Valid() && book.NoEmptyLevels()
    modifies book
    ensures next == book || fresh(next)
    ensures next.Valid() && next.NoEmptyLevels()
    ensures Outcome(next.View(), reply) == Step(old(book.View()), op)
  {
    next := book;
    match op {
      case Submits(o) =>
        var fills := book.MatchOrder(o);
        reply := Fills(fills);
      case Cancels(id) =>
        var found := book.Cancel(id);
        reply := Cancelled(found);
      case Rests(o) =>
        book.Rest(o);
        reply := Done;
      case Reloads =>
        next := Recover(book);
        reply := Done;
    }
  }

  /** After every run of every operation the book holds what the reference says and no
      level is empty; if nothing was rested directly, its best bid level is below its best
      ask level. */
  method Replay(ops: seq<Op>) returns (book: OrderBook, replies: seq<Reply>)
    ensures fresh(book) && book.Valid() && book.NoEmptyLevels()
    ensures book.View() == Run(EMPTY_BOOK, ops) && replies == Replies(EMPTY_BOOK, ops)
    ensures Matched(ops) && book.bids != [] && book.asks != [] ==> book.bids[0].price < book.asks[0].price
  {
    book := new OrderBook();
    replies := [];
    var i := 0;
    while i < |ops|
      invariant i <= |ops|
      invariant fresh(book) && book.Valid() && book.NoEmptyLevels()
      invariant book.View() == Run(EMPTY_BOOK, ops[..i]) && replies == Replies(EMPTY_BOOK, ops[..i])
    {
      var reply: Reply;
      OneMore(EMPTY_BOOK, ops[..i], ops[i]);
      assert ops[..i + 1] == ops[..i] + [ops[i]];
      book, reply := Perform(book, ops[i]);
      replies := replies + [reply];
      i := i + 1;
    }
    assert ops[..i] == ops;
    if Matched(ops) && book.bids != [] && book.asks != [] {
      NeverCrossed(ops);
      assert Flat(book.bids)[0].price == book.bids[0].price && Flat(book.asks)[0].price == book.asks[0].price;
    }
  }

  /** Books that the same operations lead to have equal snapshots: the levels are fixed by
      the flat queues. */
  lemma SnapshotsAgree(a: OrderBook, b: OrderBook)
    requires a.Valid() && a.NoEmptyLevels() && b.Valid() && b.NoEmptyLevels()
    requires a.View() == b.View()
    ensures Snapshot(a) == Snapshot(b)
  {
    FlatInjective(Bid, a.bids, b.bids);
    FlatInjective(Ask, a.asks, b.asks);
  }

  // -- Fills -----------------------------------------------------------------

  lemma {:induction false} GreedyFillsPositive(q: seq<Entry>, taker: Order, remaining: U64)
    requires Positive(q)
    ensures forall i :: 0 <= i < |Greedy(q, taker, remaining).fills| ==> Greedy(q, taker, remaining).fills[i].qty > 0
  {
    if remaining == 0 || q == [] || !Crosses(taker.kind, taker.side, q[0].price) {
    } else {
      var traded := Min(remaining, q[0].order.qtyRemaining);
      if traded == q[0].order.qtyRemaining {
        GreedyFillsPositive(q[1..], taker, remaining - traded);
      }
    }
  }

  /** Every fill of a run that rests nothing directly is for a positive quantity. */
  lemma {:induction false} FillsPositive(b: Book, ops: seq<Op>)
    requires WellFormed(b) && Matched(ops)
    ensures forall i :: 0 <= i < |RunFills(b, ops)| ==> RunFills(b, ops)[i].qty > 0
    decreases |ops|
  {
    if ops != [] {
      var r := Step(b, ops[0]);
      if ops[0].Submits? {
        var o := ops[0].order;
        GreedyFillsPositive(QueueOf(b, Opposite(o.side)), o, o.qty);
      }
      StepWellFormed(b, ops[0]);
      FillsPositive(r.book, ops[1..]);
    }
  }
}
