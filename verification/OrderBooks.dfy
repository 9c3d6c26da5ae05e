/** The mutable order book (crates/matching-engine/src/book.rs, match_engine.rs): sorted
    price levels, an id index and a trade-id counter, updated in place. Every operation
    is proved to do to the flattened book exactly what MatchSpec says. */
module OrderBooks {
  import opened EngineTypes
  import opened MatchSpec
  import opened Sweeps
  import opened Rules
  import opened Ladders

  class OrderBook {
    var bids: Ladder
    var asks: Ladder
    var byId: map<U128, (Side, I64)>
    var nextTradeId: nat

    /** What the map type guarantees: keys are distinct and ordered. Empty levels and
        zero quantities are allowed here. */
    ghost predicate Valid()
      reads this
    {
      Sorted(Bid, bids) && Sorted(Ask, asks)
    }

    ghost predicate NoEmptyLevels()
      reads this
    {
      NoEmptyLevel(bids) && NoEmptyLevel(asks)
    }

    ghost function View(): Book
      reads this
    {
      Book(Flat(bids), Flat(asks), byId, nextTradeId)
    }

    function Facing(takerSide: Side): Ladder
      reads this
    {
      if takerSide == Bid then asks else bids
    }

    constructor ()
      ensures Valid() && NoEmptyLevels() && View() == EMPTY_BOOK
    {
      bids, asks, byId, nextTradeId := [], [], map[], 0;
    }

    /** Highest price on the bid side. */
    method BestBid() returns (best: Option<I64>)
      requires Valid()
      ensures best.None? <==> bids == []
      ensures best.Some? ==> exists k :: 0 <= k < |bids| && bids[k].price == best.value
      ensures best.Some? ==> forall k :: 0 <= k < |Flat(bids)| ==> Flat(bids)[k].price <= best.value
      ensures NoEmptyLevels() ==>
        best == if View().bids == [] then None else Some(View().bids[0].price)
    {
      if bids == [] {
        best := None;
      } else {
        best := Some(bids[0].price);
        assert bids[0].price == best.value;
        TopOfBook(Bid, bids);
      }
    }

    /** Lowest price on the ask side. */
    method BestAsk() returns (best: Option<I64>)
      requires Valid()
      ensures best.None? <==> asks == []
      ensures best.Some? ==> exists k :: 0 <= k < |asks| && asks[k].price == best.value
      ensures best.Some? ==> forall k :: 0 <= k < |Flat(asks)| ==> best.value <= Flat(asks)[k].price
      ensures NoEmptyLevels() ==>
        best == if View().asks == [] then None else Some(View().asks[0].price)
    {
      if asks == [] {
        best := None;
      } else {
        best := Some(asks[0].price);
        assert asks[0].price == best.value;
        TopOfBook(Ask, asks);
      }
    }

    /** Number of resting orders on both sides. */
    method OrderCount() returns (n: nat)
      ensures n == |View().bids| + |View().asks|
    {
      var b := CountSide(bids);
      var a := CountSide(asks);
      n := b + a;
    }

    /** Append a limit order at the tail of its price level. */
    method Rest(o: Order)
      requires Valid()
      modifies this
      ensures Valid() && View() == MatchSpec.Rest(old(View()), o)
      ensures old(NoEmptyLevels()) ==> NoEmptyLevels()
    {
      if o.kind.Market? {
        return;
      }
      var price := o.kind.price;
      var r := ToResting(o);
      if o.side == Bid {
        PushKeeps(Bid, bids, price, r);
        PushJoins(Bid, bids, price, r);
        bids := Push(Bid, bids, price, r);
      } else {
        PushKeeps(Ask, asks, price, r);
        PushJoins(Ask, asks, price, r);
        asks := Push(Ask, asks, price, r);
      }
      byId := byId[o.clientOrderId := (o.side, price)];
    }

    /** Remove one resting order through the index. */
    method Cancel(id: U128) returns (found: bool)
      requires Valid()
      modifies this
      ensures Valid()
      ensures Outcome(View(), Cancelled(found)) == MatchSpec.Cancel(old(View()), id)
      ensures old(NoEmptyLevels()) ==> NoEmptyLevels()
    {
      if id !in byId {
        return false;
      }
      var (side, price) := byId[id];
      byId := byId - {id};
      found := Detach(side, price, id);
    }

    /** Take the first order with this id off its level, dropping the level with its
        last order. */
    method Detach(side: Side, price: I64, id: U128) returns (found: bool)
      requires Valid()
      modifies this`bids, this`asks
      ensures Valid()
      ensures var q := QueueOf(old(View()), side);
        var k := Find(q, price, id);
        && found == (k < |q|)
        && View() == if found then WithQueue(old(View()), side, Without(q, k)) else old(View())
      ensures old(NoEmptyLevels()) ==> NoEmptyLevels()
    {
      var ladder := if side == Bid then bids else asks;
      PullFinds(side, ladder, price, id);
      var k := LevelAt(ladder, price);
      if k == |ladder| {
        return false;
      }
      var idx := Position(ladder[k].queue, id);
      if idx == |ladder[k].queue| {
        return false;
      }
      PullKeeps(side, ladder, k, idx);
      if side == Bid {
        bids := Pull(bids, k, idx);
      } else {
        asks := Pull(asks, k, idx);
      }
      return true;
    }

    method NextTradeId() returns (id: nat)
      modifies this`nextTradeId
      ensures id == old(nextTradeId) && nextTradeId == old(nextTradeId) + 1
    {
      id := nextTradeId;
      nextTradeId := nextTradeId + 1;
    }

    method ForgetId(id: U128)
      modifies this`byId
      ensures byId == old(byId) - {id}
    {
      byId := byId - {id};
    }

    /** Write a drained queue back to the best facing level and drop the level if it is
        empty: the flat queue only changes by what was drained. */
    method SettleBestLevel(takerSide: Side, queue: seq<Resting>)
      requires Valid() && Facing(takerSide) != []
      modifies this`bids, this`asks
      ensures Valid() && Facing(Opposite(takerSide)) == old(Facing(Opposite(takerSide)))
      ensures Flat(Facing(takerSide)) == Tag(old(Facing(takerSide)[0].price), queue) + Flat(old(Facing(takerSide)[1..]))
      ensures |Facing(takerSide)| == |old(Facing(takerSide))| - (if queue == [] then 1 else 0)
      ensures old(NoEmptyLevels()) ==> NoEmptyLevels()
    {
      var ladder := Facing(takerSide);
      var level := Level(ladder[0].price, queue);
      var settled := if queue == [] then ladder[1..] else [level] + ladder[1..];
      if takerSide == Bid {
        asks := settled;
      } else {
        bids := settled;
      }
      assert queue != [] ==> settled[1..] == ladder[1..];
    }

    /** Fill-or-kill pre-flight: a read-only walk that decides exactly whether the
        crossing liquidity suffices. */
    method CanFillFull(taker: Order) returns (full: bool)
      requires Valid() && taker.kind.Limit?
      ensures full <==> Fillable(QueueOf(View(), Opposite(taker.side)), taker)
    {
      var levels := Facing(taker.side);
      var remaining: U64 := taker.qty;
      var i := 0;
      assert levels[0..] == levels;
      while i < |levels|
        invariant i <= |levels|
        invariant Fillable(Flat(levels), taker) <==> Suffices(Flat(levels[i..]), taker, remaining)
      {
        var p, queue := levels[i].price, levels[i].queue;
        if !CrossesPrice(taker.side, p, taker.kind.price) {
          NoLevelCrosses(levels[i..], taker);
          return false;
        }
        ghost var worse := Flat(levels[i + 1..]);
        assert levels[i..][1..] == levels[i + 1..];
        var j := 0;
        assert queue[0..] == queue;
        while j < |queue|
          invariant j <= |queue|
          invariant Fillable(Flat(levels), taker) <==> Suffices(Tag(p, queue[j..]) + worse, taker, remaining)
        {
          SufficesStep(p, queue[j..], worse, taker, remaining);
          assert queue[j..][1..] == queue[j + 1..];
          remaining := if remaining >= queue[j].qtyRemaining then remaining - queue[j].qtyRemaining else 0;
          if remaining == 0 {
            return true;
          }
          j := j + 1;
        }
        assert Tag(p, queue[j..]) + worse == worse;
        i := i + 1;
      }
      return false;
    }

    /** Match a taker order: sweep the facing levels in place, number the fills, rest a
        good-til-cancelled remainder. */
    method MatchOrder(taker: Order) returns (fills: seq<Fill>)
      requires Valid()
      modifies this
      ensures Valid()
      ensures Outcome(View(), Fills(fills)) == Submit(old(View()), taker)
      ensures FollowsRules(old(View()), View(), fills, taker)
      ensures old(NoEmptyLevels()) ==> NoEmptyLevels()
    {
      SubmitFollowsRules(View(), taker);
      if IsFok(taker) {
        var full := CanFillFull(taker);
        if !full {
          return [];
        }
      }
      var raw, remaining := SweepLevels(taker);
      fills := NumberFills(raw);
      ghost var s := Greedy(QueueOf(old(View()), Opposite(taker.side)), taker, taker.qty);
      assert View() == AfterSweep(old(View()), taker, s);
      if remaining > 0 && IsGtc(taker) {
        Rest(Remainder(taker, remaining));
      }
    }

    /** Walk the facing levels from the best one until the taker is exhausted or the
        best level no longer crosses. */
    method SweepLevels(taker: Order) returns (fills: seq<Fill>, remaining: U64)
      requires Valid()
      modifies this`bids, this`asks, this`byId
      ensures Valid()
      ensures var s := Greedy(QueueOf(old(View()), Opposite(taker.side)), taker, taker.qty);
        && fills == s.fills && remaining == s.remaining
        && View() == AfterSweep(old(View()), taker, s).(nextTradeId := old(nextTradeId))
      ensures old(NoEmptyLevels()) ==> NoEmptyLevels()
    {
      ghost var start := Flat(Facing(taker.side));
      ghost var gone: seq<U128> := [];
      fills, remaining := [], taker.qty;
      while remaining > 0
        invariant Valid()
        invariant Facing(Opposite(taker.side)) == old(Facing(Opposite(taker.side)))
        invariant Progress(start, taker, fills, gone, Flat(Facing(taker.side)), remaining)
        invariant byId == old(byId) - Ids(gone)
        invariant old(NoEmptyLevels()) ==> NoEmptyLevels()
        decreases |Facing(taker.side)|, remaining
      {
        if Facing(taker.side) == [] {
          break;
        }
        if !Crosses(taker.kind, taker.side, Facing(taker.side)[0].price) {
          NoLevelCrosses(Facing(taker.side), taker);
          break;
        }
        fills, gone, remaining := SweepBestLevel(taker, fills, remaining, start, gone, old(byId));
      }
      Finished(start, taker, fills, gone, Flat(Facing(taker.side)), remaining);
    }

    /** One round of the sweep: drain the best level, then forget the ids it emptied. */
    method SweepBestLevel(taker: Order, fills: seq<Fill>, remaining: U64, ghost start: seq<Entry>, ghost gone: seq<U128>,
                          ghost before: map<U128, (Side, I64)>)
      returns (fills': seq<Fill>, ghost gone': seq<U128>, remaining': U64)
      requires Valid() && Facing(taker.side) != [] && remaining > 0
      requires Crosses(taker.kind, taker.side, Facing(taker.side)[0].price)
      requires Progress(start, taker, fills, gone, Flat(Facing(taker.side)), remaining)
      requires byId == before - Ids(gone)
      modifies this`bids, this`asks, this`byId
      ensures Valid() && Facing(Opposite(taker.side)) == old(Facing(Opposite(taker.side)))
      ensures Progress(start, taker, fills', gone', Flat(Facing(taker.side)), remaining')
      ensures byId == before - Ids(gone')
      ensures old(NoEmptyLevels()) ==> NoEmptyLevels()
      ensures |Facing(taker.side)| < |old(Facing(taker.side))|
        || (|Facing(taker.side)| == |old(Facing(taker.side))| && remaining' == 0)
    {
      var emptied: seq<U128>;
      fills', gone', remaining', emptied := DrainBestLevel(taker, fills, remaining, start, gone);
      ForgetAll(emptied);
      ForgetMore(before, gone, emptied);
    }

    method ForgetAll(ids: seq<U128>)
      modifies this`byId
      ensures byId == old(byId) - Ids(ids)
      ensures bids == old(bids) && asks == old(asks)
    {
      var i := 0;
      while i < |ids|
        invariant i <= |ids|
        invariant byId == old(byId) - Ids(ids[..i])
      {
        ForgetId(ids[i]);
        i := i + 1;
      }
      assert ids[..i] == ids;
    }

    /** Drain the best facing level until it is empty or the taker is exhausted. */
    method DrainBestLevel(taker: Order, fills: seq<Fill>, remaining: U64, ghost start: seq<Entry>, ghost gone: seq<U128>)
      returns (fills': seq<Fill>, ghost gone': seq<U128>, remaining': U64, emptied: seq<U128>)
      requires Valid() && Facing(taker.side) != [] && remaining > 0
      requires Crosses(taker.kind, taker.side, Facing(taker.side)[0].price)
      requires Progress(start, taker, fills, gone, Flat(Facing(taker.side)), remaining)
      modifies this`bids, this`asks
      ensures Valid() && Facing(Opposite(taker.side)) == old(Facing(Opposite(taker.side)))
      ensures Progress(start, taker, fills', gone', Flat(Facing(taker.side)), remaining')
      ensures gone' == gone + emptied
      ensures old(NoEmptyLevels()) ==> NoEmptyLevels()
      ensures remaining' > 0 ==> |Facing(taker.side)| < |old(Facing(taker.side))|
      ensures |Facing(taker.side)| <= |old(Facing(taker.side))| && remaining' <= remaining
    {
      var level := Facing(taker.side)[0];
      var queue: seq<Resting>;
      fills', gone', remaining', emptied, queue :=
        DrainQueue(taker, level.price, level.queue, fills, remaining, start, gone, Flat(Facing(taker.side)[1..]));
      SettleBestLevel(taker.side, queue);
    }

    /** Patch consecutive trade ids into the fills. */
    method NumberFills(raw: seq<Fill>) returns (fills: seq<Fill>)
      modifies this`nextTradeId
      ensures fills == Numbered(raw, old(nextTradeId))
      ensures View() == old(View()).(nextTradeId := old(nextTradeId) + |raw|)
    {
      fills := raw;
      var i := 0;
      while i < |raw|
        invariant i <= |raw| == |fills|
        invariant nextTradeId == old(nextTradeId) + i
        invariant forall j :: 0 <= j < i ==> fills[j] == raw[j].(tradeId := old(nextTradeId) + j)
        invariant forall j :: i <= j < |raw| ==> fills[j] == raw[j]
      {
        var id := NextTradeId();
        fills := fills[i := fills[i].(tradeId := id)];
        i := i + 1;
      }
    }
  }

  /** Pop the queue of one crossing level while quantity remains. `worse` is the rest of
      the facing side, which is not looked at. */
  method DrainQueue(taker: Order, price: I64, queue: seq<Resting>, fills: seq<Fill>, remaining: U64,
                    ghost start: seq<Entry>, ghost gone: seq<U128>, ghost worse: seq<Entry>)
    returns (fills': seq<Fill>, ghost gone': seq<U128>, remaining': U64, emptied: seq<U128>, queue': seq<Resting>)
    requires remaining > 0 && Crosses(taker.kind, taker.side, price)
    requires Progress(start, taker, fills, gone, Tag(price, queue) + worse, remaining)
    ensures Progress(start, taker, fills', gone', Tag(price, queue') + worse, remaining')
    ensures gone' == gone + emptied
    ensures remaining' == 0 || queue' == []
    ensures remaining' <= remaining
  {
    fills', gone', remaining', emptied, queue' := fills, gone, remaining, [], queue;
    while remaining' > 0 && queue' != []
      invariant Progress(start, taker, fills', gone', Tag(price, queue') + worse, remaining')
      invariant gone' == gone + emptied
      invariant remaining' <= remaining
      decreases |queue'|, remaining'
    {
      var front := queue'[0];
      var traded := Min(remaining', front.qtyRemaining);
      ghost var q := Tag(price, queue') + worse;
      Advance(start, taker, fills', gone', q, remaining');
      fills' := fills' + [FillFor(taker, Entry(price, front), traded)];
      remaining' := remaining' - traded;
      front := front.(qtyRemaining := front.qtyRemaining - traded);
      if front.qtyRemaining == 0 {
        emptied := emptied + [front.clientOrderId];
        gone' := gone' + [front.clientOrderId];
        assert q[1..] == Tag(price, queue'[1..]) + worse;
        queue' := queue'[1..];
      } else {
        assert [Reduce(q[0], traded)] + q[1..] == Tag(price, queue'[0 := front]) + worse;
        queue' := queue'[0 := front];
      }
    }
  }

  method CountSide(l: Ladder) returns (n: nat)
    ensures n == |Flat(l)|
  {
    n := 0;
    var i := 0;
    while i < |l|
      invariant i <= |l| && n == |Flat(l[..i])|
    {
      FlatAppend(l[..i], [l[i]]);
      FlatOne(l[i]);
      assert l[..i] + [l[i]] == l[..i + 1];
      n := n + |l[i].queue|;
      i := i + 1;
    }
    assert l[..i] == l;
  }

  lemma ForgetMore<V>(m: map<U128, V>, a: seq<U128>, b: seq<U128>)
    ensures m - Ids(a) - Ids(b) == m - Ids(a + b)
  {
  }

  lemma TopOfBook(side: Side, l: Ladder)
    requires Sorted(side, l) && l != []
    ensures forall k :: 0 <= k < |Flat(l)| ==> !Before(side, Flat(l)[k].price, l[0].price)
  {
  }

  /** The whole sweep is what has been collected so far followed by a sweep of what is
      left. */
  ghost predicate Progress(start: seq<Entry>, taker: Order, fills: seq<Fill>, gone: seq<U128>, q: seq<Entry>, remaining: U64) {
    var g := Greedy(q, taker, remaining);
    Greedy(start, taker, taker.qty) == Sweep(fills + g.fills, gone + g.gone, g.rest, g.remaining)
  }

  lemma Finished(start: seq<Entry>, taker: Order, fills: seq<Fill>, gone: seq<U128>, q: seq<Entry>, remaining: U64)
    requires Progress(start, taker, fills, gone, q, remaining)
    requires remaining == 0 || q == [] || !Crosses(taker.kind, taker.side, q[0].price)
    ensures Greedy(start, taker, taker.qty) == Sweep(fills, gone, q, remaining)
  {
  }

  lemma Advance(start: seq<Entry>, taker: Order, fills: seq<Fill>, gone: seq<U128>, q: seq<Entry>, remaining: U64)
    requires Progress(start, taker, fills, gone, q, remaining)
    requires remaining > 0 && q != [] && Crosses(taker.kind, taker.side, q[0].price)
    ensures var traded := Min(remaining, q[0].order.qtyRemaining);
      var fills' := fills + [FillFor(taker, q[0], traded)];
      if traded == q[0].order.qtyRemaining then
        Progress(start, taker, fills', gone + [q[0].order.clientOrderId], q[1..], remaining - traded)
      else
        && remaining - traded == 0
        && Progress(start, taker, fills', gone, [Reduce(q[0], traded)] + q[1..], remaining - traded)
  {
  }

  ghost predicate Suffices(q: seq<Entry>, taker: Order, remaining: U64) {
    AnyCrosses(q, taker) && Depth(q, taker) >= remaining
  }

  lemma SufficesStep(p: I64, queue: seq<Resting>, worse: seq<Entry>, taker: Order, remaining: U64)
    requires queue != [] && Crosses(taker.kind, taker.side, p)
    ensures var n := queue[0].qtyRemaining;
      Suffices(Tag(p, queue) + worse, taker, remaining) <==>
        (remaining <= n || Suffices(Tag(p, queue[1..]) + worse, taker, remaining - n))
  {
    var q := Tag(p, queue) + worse;
    assert q[0] == Entry(p, queue[0]);
    assert q[1..] == Tag(p, queue[1..]) + worse;
    if !AnyCrosses(q[1..], taker) {
      NoDepth(q[1..], taker);
    }
  }

  lemma NoLevelCrosses(l: Ladder, taker: Order)
    requires Sorted(Opposite(taker.side), l) && l != []
    requires !Crosses(taker.kind, taker.side, l[0].price)
    ensures !AnyCrosses(Flat(l), taker)
    ensures Flat(l) != [] ==> !Crosses(taker.kind, taker.side, Flat(l)[0].price)
  {
  }
}
