/** What a greedy sweep does, said without its recursion: which makers trade, for how
    much, what is left on both sides, and when a fill-or-kill order is filled. */
module Sweeps {
  import opened EngineTypes
  import opened MatchSpec

  function SumFills(fills: seq<Fill>): nat {
    if fills == [] then 0 else fills[0].qty + SumFills(fills[1..])
  }

  function SumQty(q: seq<Entry>): nat {
    if q == [] then 0 else q[0].order.qtyRemaining + SumQty(q[1..])
  }

  function IdsOf(q: seq<Entry>): (r: seq<U128>)
    ensures |r| == |q|
  {
    seq(|q|, i requires 0 <= i < |q| => q[i].order.clientOrderId)
  }

  /** How many makers a sweep consumes completely. */
  function Consumed(q: seq<Entry>, s: Sweep): nat
    requires |s.rest| <= |q|
  {
    |q| - |s.rest|
  }

  /** Fill `i` trades with the `i`-th order of the queue, at its price; all of the
      queue before the last fill is consumed; at most the last fill is partial, and
      then the taker is exhausted. */
  ghost predicate PrefixTraded(q: seq<Entry>, taker: Order, s: Sweep)
    requires |s.rest| <= |q|
  {
    var k := Consumed(q, s);
    && k <= |s.fills| <= k + 1
    && |s.fills| <= |q|
    && (forall i :: 0 <= i < |s.fills| ==>
          && s.fills[i] == FillFor(taker, q[i], s.fills[i].qty)
          && Crosses(taker.kind, taker.side, q[i].price))
    && (forall i :: 0 <= i < k ==> s.fills[i].qty == q[i].order.qtyRemaining)
    && s.gone == IdsOf(q[..k])
    && (|s.fills| == k ==> s.rest == q[k..])
    && (|s.fills| == k + 1 ==>
          && 0 < s.fills[k].qty < q[k].order.qtyRemaining
          && s.rest == [Reduce(q[k], s.fills[k].qty)] + q[k + 1..]
          && s.remaining == 0)
  }

  lemma {:induction false} GreedyTradesPrefix(q: seq<Entry>, taker: Order, remaining: U64)
    ensures PrefixTraded(q, taker, Greedy(q, taker, remaining))
  {
    var s := Greedy(q, taker, remaining);
    if remaining == 0 || q == [] || !Crosses(taker.kind, taker.side, q[0].price) {
      assert q[0..] == q;
    } else {
      var traded := Min(remaining, q[0].order.qtyRemaining);
      if traded == q[0].order.qtyRemaining {
        var t := Greedy(q[1..], taker, remaining - traded);
        GreedyTradesPrefix(q[1..], taker, remaining - traded);
        ExtendPrefix(q, taker, s, t);
      } else {
        assert s.rest == [Reduce(q[0], traded)] + q[0 + 1..];
      }
    }
  }

  lemma ExtendPrefix(q: seq<Entry>, taker: Order, s: Sweep, t: Sweep)
    requires q != [] && Crosses(taker.kind, taker.side, q[0].price)
    requires |t.rest| <= |q| - 1 && PrefixTraded(q[1..], taker, t)
    requires s.fills == [FillFor(taker, q[0], q[0].order.qtyRemaining)] + t.fills
    requires s.gone == [q[0].order.clientOrderId] + t.gone
    requires s.rest == t.rest && s.remaining == t.remaining
    ensures PrefixTraded(q, taker, s)
  {
  }

  /** Nothing is lost between taker and fills, and a remainder means that the head of
      what is left no longer crosses. */
  lemma {:induction false} GreedyRemainder(q: seq<Entry>, taker: Order, remaining: U64)
    ensures var s := Greedy(q, taker, remaining);
      && s.remaining + SumFills(s.fills) == remaining
      && (s.remaining > 0 && s.rest != [] ==> !Crosses(taker.kind, taker.side, s.rest[0].price))
  {
    if remaining == 0 || q == [] || !Crosses(taker.kind, taker.side, q[0].price) {
    } else {
      var traded := Min(remaining, q[0].order.qtyRemaining);
      if traded == q[0].order.qtyRemaining {
        GreedyRemainder(q[1..], taker, remaining - traded);
      }
    }
  }

  /** In a ranked queue, once the head does not cross nothing does. */
  lemma NoneCross(q: seq<Entry>, taker: Order)
    requires Ranked(Opposite(taker.side), q)
    requires q == [] || !Crosses(taker.kind, taker.side, q[0].price)
    ensures !AnyCrosses(q, taker) && Depth(q, taker) == 0
  {
  }

  lemma {:induction false} NoDepth(q: seq<Entry>, taker: Order)
    requires !AnyCrosses(q, taker)
    ensures Depth(q, taker) == 0
  {
    if q != [] {
      assert !Crosses(taker.kind, taker.side, q[0].price);
      forall i | 0 <= i < |q[1..]|
        ensures !Crosses(taker.kind, taker.side, q[1..][i].price)
      {
        assert q[1..][i] == q[i + 1];
      }
      NoDepth(q[1..], taker);
    }
  }

  lemma RankedTail(side: Side, q: seq<Entry>)
    requires q != [] && Ranked(side, q)
    ensures Ranked(side, q[1..])
  {
  }

  /** A sweep trades the lesser of the taker's quantity and the crossing liquidity,
      counted over the whole queue and not along the walk. */
  lemma {:induction false} GreedyVolume(q: seq<Entry>, taker: Order, remaining: U64)
    requires Ranked(Opposite(taker.side), q)
    ensures SumFills(Greedy(q, taker, remaining).fills)
         == if remaining <= Depth(q, taker) then remaining else Depth(q, taker)
  {
    if remaining == 0 || q == [] {
    } else if !Crosses(taker.kind, taker.side, q[0].price) {
      NoneCross(q, taker);
    } else {
      var traded := Min(remaining, q[0].order.qtyRemaining);
      if traded == q[0].order.qtyRemaining {
        RankedTail(Opposite(taker.side), q);
        GreedyVolume(q[1..], taker, remaining - traded);
      }
    }
  }

  /** Closed form of every fill: what the taker still wants after everything with
      better priority, capped by the maker. */
  lemma {:induction false} GreedyFillQty(q: seq<Entry>, taker: Order, remaining: U64, i: nat)
    requires i < |Greedy(q, taker, remaining).fills|
    ensures i < |q| && SumQty(q[..i]) < remaining
    ensures Greedy(q, taker, remaining).fills[i].qty
         == Min(remaining - SumQty(q[..i]), q[i].order.qtyRemaining)
  {
    var traded := Min(remaining, q[0].order.qtyRemaining);
    if i > 0 {
      GreedyFillQty(q[1..], taker, remaining - traded, i - 1);
      assert q[..i][0] == q[0];
      assert q[..i][1..] == q[1..][..i - 1];
    }
  }

  /** All or nothing: a fill-or-kill order, whatever its quantity, either leaves the
      book as it was or is filled exactly. For a positive quantity it is filled exactly
      when crossing liquidity reaches the quantity. */
  lemma FillOrKill(b: Book, taker: Order)
    requires taker.kind.Limit? && taker.kind.tif == Fok
    requires Ranked(Opposite(taker.side), QueueOf(b, Opposite(taker.side)))
    ensures var r := Submit(b, taker);
      && (r == Outcome(b, Fills([])) || SumFills(r.reply.fills) == taker.qty)
      && (taker.qty > 0 ==>
            (SumFills(r.reply.fills) == taker.qty
             <==> Depth(QueueOf(b, Opposite(taker.side)), taker) >= taker.qty))
      && (taker.qty > 0 && Depth(QueueOf(b, Opposite(taker.side)), taker) < taker.qty ==>
            r == Outcome(b, Fills([])))
      && QueueOf(r.book, taker.side) == QueueOf(b, taker.side)
  {
    var q := QueueOf(b, Opposite(taker.side));
    if Fillable(q, taker) {
      GreedyVolume(q, taker, taker.qty);
      var s := Greedy(q, taker, taker.qty);
      GreedyRemainder(q, taker, taker.qty);
      NumberedSum(s.fills, b.nextTradeId);
    } else {
      if Depth(q, taker) > 0 && !AnyCrosses(q, taker) {
        NoDepth(q, taker);
      }
      assert SumFills([]) == 0;
    }
  }

  lemma {:induction false} NumberedSum(fills: seq<Fill>, first: nat)
    ensures SumFills(Numbered(fills, first)) == SumFills(fills)
  {
    if fills != [] {
      assert Numbered(fills, first)[1..] == Numbered(fills[1..], first + 1);
      NumberedSum(fills[1..], first + 1);
    }
  }

  /** The pre-flight's own description, that a sweep would fill the quantity, is true of it
      if and only if the quantity is positive or something crosses: a fill-or-kill order
      for nothing is refused when it faces nothing. */
  lemma PreflightDescribedIff(q: seq<Entry>, taker: Order)
    requires Ranked(Opposite(taker.side), q)
    ensures (Fillable(q, taker) <==> SumFills(Greedy(q, taker, taker.qty).fills) == taker.qty)
      <==> taker.qty > 0 || AnyCrosses(q, taker)
  {
    GreedyVolume(q, taker, taker.qty);
    if !AnyCrosses(q, taker) {
      NoDepth(q, taker);
    }
  }
}
