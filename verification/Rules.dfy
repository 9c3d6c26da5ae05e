/** The trading rules of one order, in plain prices and quantities: what it may trade, what
    a fill says, and what becomes of the part that does not trade. */
module Rules {
  import opened EngineTypes
  import opened MatchSpec
  import opened Sweeps
  import opened BookRuns

  /** `after` is `before` with `e` put in behind everything priced at least as well and
      directly ahead of something priced worse, if there is any. */
  ghost predicate JoinedAt(side: Side, before: seq<Entry>, after: seq<Entry>, e: Entry, m: nat) {
    && m <= |before| && after == before[..m] + [e] + before[m..]
    && (forall i :: 0 <= i < m ==> if side == Bid then before[i].price >= e.price else before[i].price <= e.price)
    && (m < |before| ==> if side == Bid then before[m].price < e.price else before[m].price > e.price)
  }

  /** The order's own side and its index entry after `e` came to rest. */
  ghost predicate CameToRest(side: Side, b: Book, b': Book, e: Entry) {
    && (exists m :: if side == Bid then JoinedAt(Bid, b.bids, b'.bids, e, m) else JoinedAt(Ask, b.asks, b'.asks, e, m))
    && e.order.clientOrderId in b'.byId && b'.byId[e.order.clientOrderId] == (side, e.price)
  }

  function OwnSide(b: Book, side: Side): seq<Entry> {
    match side
    case Bid => b.bids
    case Ask => b.asks
  }

  function FacingSide(b: Book, side: Side): seq<Entry> {
    match side
    case Bid => b.asks
    case Ask => b.bids
  }

  /** A limit order given to `rest` joins its own side with all its fields, and the facing
      side is not looked at; a market order changes nothing. */
  lemma RestRule(b: Book, o: Order)
    ensures var b' := Rest(b, o);
      && (o.kind.Market? ==> b' == b)
      && FacingSide(b', o.side) == FacingSide(b, o.side) && b'.nextTradeId == b.nextTradeId
      && (o.kind.Limit? ==>
            CameToRest(o.side, b, b',
              Entry(o.kind.price, Resting(o.platformSeq, o.platformTsNs, o.clientOrderId, o.sessionToken, o.qty))))
  {
    if o.kind.Limit? {
      var e := Entry(o.kind.price, Resting(o.platformSeq, o.platformTsNs, o.clientOrderId, o.sessionToken, o.qty));
      var own := OwnSide(b, o.side);
      assert OwnSide(Rest(b, o), o.side) == Join(o.side, own, e);
      assert JoinedAt(o.side, own, OwnSide(Rest(b, o), o.side), e, JoinAt(o.side, own, e.price));
    }
  }

  /** What does not trade of a good-til-cancelled limit order rests on its own side at its
      own limit, exactly the untraded quantity; of any other order it is discarded. */
  lemma RemainderRule(b: Book, o: Order)
    ensures var r := Submit(b, o);
      var left := o.qty - SumFills(r.reply.fills);
      && left >= 0
      && (o.kind.Market? || o.kind.tif != Gtc || left == 0 ==>
            OwnSide(r.book, o.side) == OwnSide(b, o.side))
      && (o.kind.Limit? && o.kind.tif == Gtc && left > 0 ==>
            CameToRest(o.side, b, r.book,
              Entry(o.kind.price, Resting(o.platformSeq, o.platformTsNs, o.clientOrderId, o.sessionToken, left))))
  {
    var q := QueueOf(b, Opposite(o.side));
    if IsFok(o) && !Fillable(q, o) {
      assert SumFills([]) == 0;
    } else {
      var s := Greedy(q, o, o.qty);
      GreedyRemainder(q, o, o.qty);
      NumberedSum(s.fills, b.nextTradeId);
      if s.remaining > 0 && IsGtc(o) {
        RestRule(AfterSweep(b, o, s), Remainder(o, s.remaining));
        assert OwnSide(AfterSweep(b, o, s), o.side) == OwnSide(b, o.side);
      }
    }
  }

  /** A market order trades whatever the facing side has, up to its quantity. */
  lemma MarketRule(b: Book, o: Order)
    requires o.kind.Market?
    ensures SumFills(Submit(b, o).reply.fills)
         == if o.qty <= SumQty(FacingSide(b, o.side)) then o.qty else SumQty(FacingSide(b, o.side))
  {
    var q := FacingSide(b, o.side);
    MarketSweep(q, o, o.qty);
    NumberedSum(Greedy(q, o, o.qty).fills, b.nextTradeId);
  }

  lemma {:induction false} MarketSweep(q: seq<Entry>, o: Order, remaining: U64)
    requires o.kind.Market?
    ensures SumFills(Greedy(q, o, remaining).fills) == if remaining <= SumQty(q) then remaining else SumQty(q)
  {
    if remaining > 0 && q != [] {
      var traded := Min(remaining, q[0].order.qtyRemaining);
      if traded == q[0].order.qtyRemaining {
        MarketSweep(q[1..], o, remaining - traded);
      }
    }
  }

  /** A limit order trades within its limit only, and unless it is filled, or fill-or-kill,
      everything still facing it lies beyond the limit. */
  lemma LimitRule(b: Book, o: Order)
    requires o.kind.Limit? && RankedBook(b)
    ensures var r := Submit(b, o);
      var rest := FacingSide(r.book, o.side);
      && (forall i :: 0 <= i < |r.reply.fills| ==>
            if o.side == Bid then r.reply.fills[i].price <= o.kind.price else r.reply.fills[i].price >= o.kind.price)
      && (o.kind.tif != Fok && SumFills(r.reply.fills) < o.qty ==>
            forall j :: 0 <= j < |rest| ==>
              if o.side == Bid then rest[j].price > o.kind.price else rest[j].price < o.kind.price)
  {
    var q := QueueOf(b, Opposite(o.side));
    var s := Greedy(q, o, o.qty);
    GreedyTradesPrefix(q, o, o.qty);
    GreedyRemainder(q, o, o.qty);
    NumberedSum(s.fills, b.nextTradeId);
    RestRanked(Opposite(o.side), q, o, o.qty);
    if s.remaining > 0 {
      NoneCross(s.rest, o);
      assert FacingSide(Submit(b, o).book, o.side) == s.rest || o.kind.tif == Fok;
      assert forall j :: 0 <= j < |s.rest| ==> !Crosses(o.kind, o.side, s.rest[j].price);
    }
  }

  /** Quantity facing a limit order within its limit. */
  function WithinLimit(side: Side, q: seq<Entry>, limit: I64): nat {
    if q == [] then 0
    else
      (if (if side == Bid then q[0].price <= limit else q[0].price >= limit) then q[0].order.qtyRemaining else 0)
      + WithinLimit(side, q[1..], limit)
  }

  lemma {:induction false} DepthIsWithinLimit(q: seq<Entry>, o: Order)
    requires o.kind.Limit?
    ensures Depth(q, o) == WithinLimit(o.side, q, o.kind.price)
  {
    if q != [] {
      DepthIsWithinLimit(q[1..], o);
    }
  }

  /** A limit order that is not fill-or-kill trades the lesser of its quantity and what
      faces it within its limit. */
  lemma LimitVolume(b: Book, o: Order)
    requires o.kind.Limit? && o.kind.tif != Fok && RankedBook(b)
    ensures var within := WithinLimit(o.side, FacingSide(b, o.side), o.kind.price);
      SumFills(Submit(b, o).reply.fills) == if o.qty <= within then o.qty else within
  {
    var q := QueueOf(b, Opposite(o.side));
    GreedyVolume(q, o, o.qty);
    DepthIsWithinLimit(q, o);
    NumberedSum(Greedy(q, o, o.qty).fills, b.nextTradeId);
  }

  /** A fill-or-kill order for a positive quantity is filled exactly if what faces it within
      its limit suffices, and otherwise changes nothing. */
  lemma FokRule(b: Book, o: Order)
    requires o.kind.Limit? && o.kind.tif == Fok && o.qty > 0 && RankedBook(b)
    ensures var r := Submit(b, o);
      if WithinLimit(o.side, FacingSide(b, o.side), o.kind.price) >= o.qty
      then SumFills(r.reply.fills) == o.qty
      else r.book == b && r.reply == Fills([])
  {
    FillOrKill(b, o);
    DepthIsWithinLimit(QueueOf(b, Opposite(o.side)), o);
  }

  /** Every field of a fill: consecutive trade ids, the taker's number and time, the number
      and price of the maker next in line, and no more than either had. */
  lemma FillRule(b: Book, o: Order, i: nat)
    requires i < |Submit(b, o).reply.fills|
    ensures var f := Submit(b, o).reply.fills[i];
      var facing := FacingSide(b, o.side);
      && i < |facing|
      && f == Fill(b.nextTradeId + i, o.platformSeq, facing[i].order.platformSeq, facing[i].price, f.qty, o.platformTsNs)
      && f.qty <= facing[i].order.qtyRemaining && f.qty <= o.qty
  {
    var q := QueueOf(b, Opposite(o.side));
    GreedyTradesPrefix(q, o, o.qty);
    GreedyFillQty(q, o, o.qty, i);
  }

  /** What one matched order does to the two sides, whatever its kind. */
  ghost predicate FollowsRules(before: Book, after: Book, fills: seq<Fill>, o: Order) {
    && (o.kind.Market? ==>
          var there := SumQty(FacingSide(before, o.side));
          SumFills(fills) == if o.qty <= there then o.qty else there)
    && (o.kind.Market? || o.kind.tif != Gtc || SumFills(fills) == o.qty ==>
          OwnSide(after, o.side) == OwnSide(before, o.side))
    && (o.kind.Limit? && o.kind.tif == Gtc && SumFills(fills) < o.qty ==>
          CameToRest(o.side, before, after,
            Entry(o.kind.price, Resting(o.platformSeq, o.platformTsNs, o.clientOrderId, o.sessionToken, o.qty - SumFills(fills)))))
  }

  lemma SubmitFollowsRules(b: Book, o: Order)
    ensures FollowsRules(b, Submit(b, o).book, Submit(b, o).reply.fills, o)
  {
    RemainderRule(b, o);
    if o.kind.Market? {
      MarketRule(b, o);
    }
  }
}
