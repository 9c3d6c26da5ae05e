/** Conservation over whole runs: every unit submitted under a platform sequence number
    is traded as taker, traded as maker, still resting, discarded or cancelled; trade ids
    are consecutive; every maker was submitted before it traded. */
module Conservation {
  import opened EngineTypes
  import opened MatchSpec
  import opened Sweeps
  import opened BookRuns

  // -- Quantities by platform sequence number --------------------------------

  function QtyOf(q: seq<Entry>, seqNo: U64): nat {
    if q == [] then 0
    else (if q[0].order.platformSeq == seqNo then q[0].order.qtyRemaining else 0) + QtyOf(q[1..], seqNo)
  }

  function StillResting(b: Book, seqNo: U64): nat {
    QtyOf(b.bids, seqNo) + QtyOf(b.asks, seqNo)
  }

  function FilledAsTaker(fills: seq<Fill>, seqNo: U64): nat {
    if fills == [] then 0
    else (if fills[0].platformSeqTaker == seqNo then fills[0].qty else 0) + FilledAsTaker(fills[1..], seqNo)
  }

  function FilledAsMaker(fills: seq<Fill>, seqNo: U64): nat {
    if fills == [] then 0
    else (if fills[0].platformSeqMaker == seqNo then fills[0].qty else 0) + FilledAsMaker(fills[1..], seqNo)
  }

  /** Quantity entering the engine under `seqNo`. */
  function Submitted(ops: seq<Op>, seqNo: U64): nat {
    if ops == [] then 0 else Entering(ops[0], seqNo) + Submitted(ops[1..], seqNo)
  }

  function Entering(op: Op, seqNo: U64): nat {
    match op
    case Submits(o) => if o.platformSeq == seqNo then o.qty else 0
    case Rests(o) => if o.platformSeq == seqNo then o.qty else 0
    case _ => 0
  }

  /** Quantity of a taker that neither trades nor rests: the remainder of anything but a
      good-til-cancelled limit order, and all of a market order given to `rest`. */
  ghost function Discarded(b: Book, op: Op, seqNo: U64): nat {
    match op
    case Submits(o) =>
      var traded := SumFills(FillsOf(Submit(b, o).reply));
      if o.platformSeq == seqNo && !IsGtc(o) && traded <= o.qty then o.qty - traded else 0
    case Rests(o) => if o.platformSeq == seqNo && o.kind.Market? then o.qty else 0
    case _ => 0
  }

  /** Quantity an operation cancels: what the cancelled order still had. */
  function CancelledQty(b: Book, op: Op, seqNo: U64): nat {
    match op
    case Cancels(id) =>
      if id !in b.byId then 0
      else
        var q := QueueOf(b, b.byId[id].0);
        var k := Find(q, b.byId[id].1, id);
        if k < |q| && q[k].order.platformSeq == seqNo then q[k].order.qtyRemaining else 0
    case _ => 0
  }

  ghost function RunDiscarded(b: Book, ops: seq<Op>, seqNo: U64): nat
    decreases |ops|
  {
    if ops == [] then 0
    else Discarded(b, ops[0], seqNo) + RunDiscarded(Step(b, ops[0]).book, ops[1..], seqNo)
  }

  ghost function RunCancelled(b: Book, ops: seq<Op>, seqNo: U64): nat
    decreases |ops|
  {
    if ops == [] then 0
    else CancelledQty(b, ops[0], seqNo) + RunCancelled(Step(b, ops[0]).book, ops[1..], seqNo)
  }

  // -- Additivity ------------------------------------------------------------

  lemma {:induction false} QtyOfAppend(a: seq<Entry>, b: seq<Entry>, seqNo: U64)
    ensures QtyOf(a + b, seqNo) == QtyOf(a, seqNo) + QtyOf(b, seqNo)
  {
    if a == [] {
      assert a + b == b;
    } else {
      assert (a + b)[1..] == a[1..] + b;
      QtyOfAppend(a[1..], b, seqNo);
    }
  }

  lemma {:induction false} FilledAppend(a: seq<Fill>, b: seq<Fill>, seqNo: U64)
    ensures FilledAsTaker(a + b, seqNo) == FilledAsTaker(a, seqNo) + FilledAsTaker(b, seqNo)
    ensures FilledAsMaker(a + b, seqNo) == FilledAsMaker(a, seqNo) + FilledAsMaker(b, seqNo)
  {
    if a == [] {
      assert a + b == b;
    } else {
      assert (a + b)[1..] == a[1..] + b;
      FilledAppend(a[1..], b, seqNo);
    }
  }

  lemma {:induction false} NumberingKeepsQuantities(fills: seq<Fill>, first: nat, seqNo: U64)
    ensures FilledAsTaker(Numbered(fills, first), seqNo) == FilledAsTaker(fills, seqNo)
    ensures FilledAsMaker(Numbered(fills, first), seqNo) == FilledAsMaker(fills, seqNo)
  {
    if fills != [] {
      assert Numbered(fills, first)[1..] == Numbered(fills[1..], first + 1);
      NumberingKeepsQuantities(fills[1..], first + 1, seqNo);
    }
  }

  lemma JoinQty(side: Side, q: seq<Entry>, e: Entry, seqNo: U64)
    ensures QtyOf(Join(side, q, e), seqNo)
         == QtyOf(q, seqNo) + (if e.order.platformSeq == seqNo then e.order.qtyRemaining else 0)
  {
    var m := JoinAt(side, q, e.price);
    QtyOfAppend(q[..m] + [e], q[m..], seqNo);
    QtyOfAppend(q[..m], [e], seqNo);
    QtyOfAppend(q[..m], q[m..], seqNo);
    assert q[..m] + q[m..] == q;
    assert [e][1..] == [];
  }

  lemma WithoutQty(q: seq<Entry>, k: nat, seqNo: U64)
    requires k < |q|
    ensures QtyOf(q, seqNo)
         == QtyOf(Without(q, k), seqNo) + (if q[k].order.platformSeq == seqNo then q[k].order.qtyRemaining else 0)
  {
    QtyOfAppend(q[..k], q[k + 1..], seqNo);
    QtyOfAppend(q[..k], q[k..], seqNo);
    assert q[..k] + q[k..] == q;
    assert q[k..][1..] == q[k + 1..];
  }

  /** A sweep moves quantity from makers to fills. */
  lemma {:induction false} GreedyConserves(q: seq<Entry>, taker: Order, remaining: U64, seqNo: U64)
    ensures var s := Greedy(q, taker, remaining);
      QtyOf(q, seqNo) == FilledAsMaker(s.fills, seqNo) + QtyOf(s.rest, seqNo)
  {
    if remaining == 0 || q == [] || !Crosses(taker.kind, taker.side, q[0].price) {
    } else {
      var traded := Min(remaining, q[0].order.qtyRemaining);
      if traded == q[0].order.qtyRemaining {
        GreedyConserves(q[1..], taker, remaining - traded, seqNo);
        MakerCons(FillFor(taker, q[0], traded), Greedy(q[1..], taker, remaining - traded).fills, seqNo);
      } else {
        MakerCons(FillFor(taker, q[0], traded), [], seqNo);
        QtyCons(Reduce(q[0], traded), q[1..], seqNo);
      }
    }
  }

  lemma MakerCons(f: Fill, fills: seq<Fill>, seqNo: U64)
    ensures FilledAsMaker([f] + fills, seqNo)
         == (if f.platformSeqMaker == seqNo then f.qty else 0) + FilledAsMaker(fills, seqNo)
  {
    assert ([f] + fills)[1..] == fills;
  }

  lemma QtyCons(e: Entry, q: seq<Entry>, seqNo: U64)
    ensures QtyOf([e] + q, seqNo)
         == (if e.order.platformSeq == seqNo then e.order.qtyRemaining else 0) + QtyOf(q, seqNo)
  {
    assert ([e] + q)[1..] == q;
  }

  /** The same fills are booked on the taker. */
  lemma GreedyBooksTaker(q: seq<Entry>, taker: Order, remaining: U64, seqNo: U64)
    ensures var fills := Greedy(q, taker, remaining).fills;
      FilledAsTaker(fills, seqNo) == (if taker.platformSeq == seqNo then SumFills(fills) else 0)
  {
    GreedyTradesPrefix(q, taker, remaining);
    OneTaker(Greedy(q, taker, remaining).fills, taker.platformSeq, seqNo);
  }

  lemma {:induction false} OneTaker(fills: seq<Fill>, takerSeq: U64, seqNo: U64)
    requires forall i :: 0 <= i < |fills| ==> fills[i].platformSeqTaker == takerSeq
    ensures FilledAsTaker(fills, seqNo) == (if takerSeq == seqNo then SumFills(fills) else 0)
  {
    if fills != [] {
      OneTaker(fills[1..], takerSeq, seqNo);
    }
  }

  // -- One operation ---------------------------------------------------------

  lemma RestConserves(b: Book, o: Order, seqNo: U64)
    requires o.kind.Limit?
    ensures StillResting(Rest(b, o), seqNo) == StillResting(b, seqNo) + (if o.platformSeq == seqNo then o.qty else 0)
  {
    JoinQty(o.side, QueueOf(b, o.side), Entry(o.kind.price, ToResting(o)), seqNo);
  }

  lemma SubmitConserves(b: Book, o: Order, seqNo: U64)
    ensures var r := Submit(b, o);
      var fills := r.reply.fills;
      StillResting(b, seqNo) + Entering(Submits(o), seqNo)
        == FilledAsTaker(fills, seqNo) + FilledAsMaker(fills, seqNo)
           + StillResting(r.book, seqNo) + Discarded(b, Submits(o), seqNo)
  {
    var q := QueueOf(b, Opposite(o.side));
    if IsFok(o) && !Fillable(q, o) {
    } else {
      var s := Greedy(q, o, o.qty);
      GreedyConserves(q, o, o.qty, seqNo);
      GreedyBooksTaker(q, o, o.qty, seqNo);
      GreedyRemainder(q, o, o.qty);
      NumberingKeepsQuantities(s.fills, b.nextTradeId, seqNo);
      NumberedSum(s.fills, b.nextTradeId);
      var swept := AfterSweep(b, o, s);
      if s.remaining > 0 && IsGtc(o) {
        RestConserves(swept, Remainder(o, s.remaining), seqNo);
      }
    }
  }

  lemma StepConserves(b: Book, op: Op, seqNo: U64)
    ensures var r := Step(b, op);
      var fills := FillsOf(r.reply);
      StillResting(b, seqNo) + Entering(op, seqNo)
        == FilledAsTaker(fills, seqNo) + FilledAsMaker(fills, seqNo)
           + StillResting(r.book, seqNo) + Discarded(b, op, seqNo) + CancelledQty(b, op, seqNo)
  {
    match op
    case Submits(o) => SubmitConserves(b, o, seqNo);
    case Cancels(id) =>
      if id in b.byId {
        var q := QueueOf(b, b.byId[id].0);
        var k := Find(q, b.byId[id].1, id);
        if k < |q| {
          WithoutQty(q, k, seqNo);
        }
      }
    case Rests(o) =>
      if o.kind.Limit? {
        RestConserves(b, o, seqNo);
      }
    case Reloads =>
  }

  // -- Whole runs ------------------------------------------------------------

  lemma {:induction false} RunConserves(b: Book, ops: seq<Op>, seqNo: U64)
    ensures StillResting(b, seqNo) + Submitted(ops, seqNo)
         == FilledAsTaker(RunFills(b, ops), seqNo) + FilledAsMaker(RunFills(b, ops), seqNo)
            + StillResting(Run(b, ops), seqNo) + RunDiscarded(b, ops, seqNo) + RunCancelled(b, ops, seqNo)
    decreases |ops|
  {
    if ops != [] {
      var r := Step(b, ops[0]);
      StepConserves(b, ops[0], seqNo);
      RunConserves(r.book, ops[1..], seqNo);
      FilledAppend(FillsOf(r.reply), RunFills(r.book, ops[1..]), seqNo);
    }
  }

  predicate DistinctSeqs(ops: seq<Op>) {
    forall i, j :: 0 <= i < j < |ops| && ops[i].Submits? && ops[j].Submits? ==>
      ops[i].order.platformSeq != ops[j].order.platformSeq
  }

  lemma {:induction false} SubmittedOnce(ops: seq<Op>, i: nat)
    requires i < |ops| && ops[i].Submits? && Matched(ops) && DistinctSeqs(ops)
    ensures Submitted(ops, ops[i].order.platformSeq) == ops[i].order.qty
  {
    if i == 0 {
      NeverSubmitted(ops[1..], ops[0].order.platformSeq);
    } else {
      SubmittedOnce(ops[1..], i - 1);
    }
  }

  lemma {:induction false} NeverSubmitted(ops: seq<Op>, seqNo: U64)
    requires Matched(ops)
    requires forall j :: 0 <= j < |ops| && ops[j].Submits? ==> ops[j].order.platformSeq != seqNo
    ensures Submitted(ops, seqNo) == 0
  {
    if ops != [] {
      NeverSubmitted(ops[1..], seqNo);
    }
  }

  /** From the empty book, with distinct sequence numbers, the fate of every submitted
      order adds up to its quantity; in particular no order is over-filled. */
  lemma OrderAccountedFor(ops: seq<Op>, i: nat)
    requires Matched(ops) && DistinctSeqs(ops) && i < |ops| && ops[i].Submits?
    ensures var o := ops[i].order;
      var fills := RunFills(EMPTY_BOOK, ops);
      && o.qty == FilledAsTaker(fills, o.platformSeq) + FilledAsMaker(fills, o.platformSeq)
                  + StillResting(Run(EMPTY_BOOK, ops), o.platformSeq)
                  + RunDiscarded(EMPTY_BOOK, ops, o.platformSeq) + RunCancelled(EMPTY_BOOK, ops, o.platformSeq)
  {
    SubmittedOnce(ops, i);
    RunConserves(EMPTY_BOOK, ops, ops[i].order.platformSeq);
  }

  /** The fills of a run, put end to end, carry consecutive trade ids. */
  lemma {:induction false} TradeIdsConsecutive(b: Book, ops: seq<Op>)
    ensures Run(b, ops).nextTradeId == b.nextTradeId + |RunFills(b, ops)|
    ensures forall i :: 0 <= i < |RunFills(b, ops)| ==> RunFills(b, ops)[i].tradeId == b.nextTradeId + i
    decreases |ops|
  {
    if ops != [] {
      var r := Step(b, ops[0]);
      var first := FillsOf(r.reply);
      assert r.book.nextTradeId == b.nextTradeId + |first|;
      assert forall i :: 0 <= i < |first| ==> first[i].tradeId == b.nextTradeId + i;
      TradeIdsConsecutive(r.book, ops[1..]);
    }
  }

  // -- No phantom makers -----------------------------------------------------

  ghost predicate SeqsWithin(b: Book, seen: set<U64>) {
    && (forall i :: 0 <= i < |b.bids| ==> b.bids[i].order.platformSeq in seen)
    && (forall i :: 0 <= i < |b.asks| ==> b.asks[i].order.platformSeq in seen)
  }

  function Seen(op: Op): set<U64> {
    if op.Submits? || op.Rests? then {op.order.platformSeq} else {}
  }

  function AllSeen(ops: seq<Op>): set<U64> {
    if ops == [] then {} else AllSeen(ops[..|ops| - 1]) + Seen(ops[|ops| - 1])
  }

  lemma RestSeqs(b: Book, o: Order, seen: set<U64>)
    requires SeqsWithin(b, seen) && o.platformSeq in seen
    ensures SeqsWithin(Rest(b, o), seen)
  {
  }

  lemma SweptSeqs(b: Book, o: Order, seen: set<U64>)
    requires SeqsWithin(b, seen)
    ensures SeqsWithin(AfterSweep(b, o, Greedy(QueueOf(b, Opposite(o.side)), o, o.qty)), seen)
  {
    RestIsTail(QueueOf(b, Opposite(o.side)), o, o.qty);
  }

  lemma CancelSeqs(b: Book, id: U128, seen: set<U64>)
    requires SeqsWithin(b, seen)
    ensures SeqsWithin(Cancel(b, id).book, seen)
  {
  }

  lemma SeqsMore(b: Book, seen: set<U64>, more: set<U64>)
    requires SeqsWithin(b, seen)
    ensures SeqsWithin(b, seen + more)
  {
  }

  lemma StepSeqs(b: Book, op: Op, seen: set<U64>)
    requires SeqsWithin(b, seen)
    ensures SeqsWithin(Step(b, op).book, seen + Seen(op))
  {
    SeqsMore(b, seen, Seen(op));
    match op
    case Submits(o) =>
      var s := Greedy(QueueOf(b, Opposite(o.side)), o, o.qty);
      SweptSeqs(b, o, seen + Seen(op));
      RestSeqs(AfterSweep(b, o, s), Remainder(o, s.remaining), seen + Seen(op));
    case Cancels(id) => CancelSeqs(b, id, seen + Seen(op));
    case Rests(o) => RestSeqs(b, o, seen + Seen(op));
    case Reloads =>
  }

  /** Each fill names the taker just submitted and a maker that was resting. */
  lemma SubmitNames(b: Book, o: Order, seen: set<U64>, i: nat)
    requires SeqsWithin(b, seen) && i < |Submit(b, o).reply.fills|
    ensures var f := Submit(b, o).reply.fills[i];
      f.platformSeqMaker in seen && f.platformSeqTaker == o.platformSeq
  {
    var q := QueueOf(b, Opposite(o.side));
    GreedyTradesPrefix(q, o, o.qty);
  }

  /** `f` is a fill of the taker submitted by operation `k`, against a maker already in
      `seen` or submitted by an earlier operation. */
  ghost predicate TradedBy(ops: seq<Op>, k: int, f: Fill, seen: set<U64>) {
    && 0 <= k < |ops| && ops[k].Submits?
    && f.platformSeqTaker == ops[k].order.platformSeq
    && f.platformSeqMaker in seen + AllSeen(ops[..k])
  }

  lemma {:induction false} RunSeqs(b: Book, ops: seq<Op>, seen: set<U64>, i: nat) returns (k: nat)
    requires SeqsWithin(b, seen)
    requires i < |RunFills(b, ops)|
    ensures TradedBy(ops, k, RunFills(b, ops)[i], seen)
    decreases |ops|
  {
    var r := Step(b, ops[0]);
    var first, later := FillsOf(r.reply), RunFills(r.book, ops[1..]);
    FillAt(b, ops, i);
    if i < |first| {
      k := 0;
      TradedNow(b, ops, seen, i);
    } else {
      StepSeqs(b, ops[0], seen);
      var j := RunSeqs(r.book, ops[1..], seen + Seen(ops[0]), i - |first|);
      TradedLater(ops, j, later[i - |first|], seen);
      k := j + 1;
    }
  }

  lemma {:induction false} FillAt(b: Book, ops: seq<Op>, i: nat)
    requires i < |RunFills(b, ops)|
    ensures ops != []
    ensures var r := Step(b, ops[0]);
      var first, later := FillsOf(r.reply), RunFills(r.book, ops[1..]);
      RunFills(b, ops)[i] == if i < |first| then first[i] else later[i - |first|]
  {
    var r := Step(b, ops[0]);
    assert RunFills(b, ops) == FillsOf(r.reply) + RunFills(r.book, ops[1..]);
  }

  lemma TradedNow(b: Book, ops: seq<Op>, seen: set<U64>, i: nat)
    requires SeqsWithin(b, seen) && ops != [] && i < |FillsOf(Step(b, ops[0]).reply)|
    ensures TradedBy(ops, 0, FillsOf(Step(b, ops[0]).reply)[i], seen)
  {
    SubmitNames(b, ops[0].order, seen, i);
  }

  lemma TradedLater(ops: seq<Op>, k: nat, f: Fill, seen: set<U64>)
    requires ops != [] && TradedBy(ops[1..], k, f, seen + Seen(ops[0]))
    ensures TradedBy(ops, k + 1, f, seen)
  {
    assert ops[1..][..k] == ops[1..k + 1];
    SeenFirst(ops, k);
  }

  lemma {:induction false} SeenFirst(ops: seq<Op>, k: nat)
    requires k < |ops|
    ensures AllSeen(ops[..k + 1]) == Seen(ops[0]) + AllSeen(ops[1..k + 1])
    decreases k
  {
    if k == 0 {
      assert ops[..1] == [ops[0]] && ops[1..1] == [];
      assert [ops[0]][..0] == [];
    } else {
      SeenFirst(ops, k - 1);
      assert ops[..k + 1][..k] == ops[..k];
      assert ops[1..k + 1][..k - 1] == ops[1..k];
    }
  }

  /** No phantoms: every fill of a run from the empty book belongs to some submitted
      taker, and its maker entered the engine strictly before that taker. */
  lemma NoPhantomMakers(ops: seq<Op>, i: nat)
    requires i < |RunFills(EMPTY_BOOK, ops)|
    ensures exists k :: TradedBy(ops, k, RunFills(EMPTY_BOOK, ops)[i], {})
  {
    var k := RunSeqs(EMPTY_BOOK, ops, {}, i);
  }
}
