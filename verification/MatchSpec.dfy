/** Reference semantics of the order book: each side is one flat queue in priority
    order (best price first, arrival order within a price), and an order takes
    greedily from the head of the queue facing it. No price levels appear here; the
    level-structured book of module OrderBooks is proved to behave like this. */
module MatchSpec {
  import opened EngineTypes

  datatype Entry = Entry(price: I64, order: Resting)

  datatype Book = Book(
    bids: seq<Entry>,
    asks: seq<Entry>,
    byId: map<U128, (Side, I64)>,
    nextTradeId: nat)

  const EMPTY_BOOK := Book([], [], map[], 0)

  function QueueOf(b: Book, side: Side): seq<Entry> {
    if side == Bid then b.bids else b.asks
  }

  function WithQueue(b: Book, side: Side, q: seq<Entry>): Book {
    if side == Bid then b.(bids := q) else b.(asks := q)
  }

  /** Prices never improve along the queue. */
  ghost predicate Ranked(side: Side, q: seq<Entry>) {
    forall i, j :: 0 <= i < j < |q| ==> !Before(side, q[j].price, q[i].price)
  }

  // -- Taking from the facing queue ------------------------------------------

  datatype Sweep = Sweep(fills: seq<Fill>, gone: seq<U128>, rest: seq<Entry>, remaining: U64)

  function FillFor(taker: Order, e: Entry, traded: U64): Fill {
    Fill(0, taker.platformSeq, e.order.platformSeq, e.price, traded, taker.platformTsNs)
  }

  function Reduce(e: Entry, traded: U64): Entry
    requires traded <= e.order.qtyRemaining
  {
    e.(order := e.order.(qtyRemaining := e.order.qtyRemaining - traded))
  }

  /** Trade with the head of the queue while it crosses and quantity remains. `gone`
      lists the ids of the makers consumed completely. */
  function Greedy(q: seq<Entry>, taker: Order, remaining: U64): (s: Sweep)
    ensures |s.rest| <= |q|
  {
    if remaining == 0 || q == [] || !Crosses(taker.kind, taker.side, q[0].price) then
      Sweep([], [], q, remaining)
    else
      var traded := Min(remaining, q[0].order.qtyRemaining);
      var fill := FillFor(taker, q[0], traded);
      if traded == q[0].order.qtyRemaining then
        var s := Greedy(q[1..], taker, remaining - traded);
        Sweep([fill] + s.fills, [q[0].order.clientOrderId] + s.gone, s.rest, s.remaining)
      else
        Sweep([fill], [], [Reduce(q[0], traded)] + q[1..], remaining - traded)
  }

  /** Resting quantity, over unbounded integers, of every order that crosses. */
  function Depth(q: seq<Entry>, taker: Order): nat {
    if q == [] then 0
    else (if Crosses(taker.kind, taker.side, q[0].price) then q[0].order.qtyRemaining else 0)
         + Depth(q[1..], taker)
  }

  ghost predicate AnyCrosses(q: seq<Entry>, taker: Order) {
    exists i :: 0 <= i < |q| && Crosses(taker.kind, taker.side, q[i].price)
  }

  /** The fill-or-kill condition. For a positive quantity the first conjunct follows
      from the second. */
  ghost predicate Fillable(q: seq<Entry>, taker: Order) {
    AnyCrosses(q, taker) && Depth(q, taker) >= taker.qty
  }

  predicate IsFok(o: Order) {
    o.kind.Limit? && o.kind.tif == Fok
  }

  predicate IsGtc(o: Order) {
    o.kind.Limit? && o.kind.tif == Gtc
  }

  // -- Resting ---------------------------------------------------------------

  /** Where an order at `price` joins the queue: behind everything at least as good. */
  function JoinAt(side: Side, q: seq<Entry>, price: I64): (m: nat)
    ensures m <= |q|
    ensures forall i :: 0 <= i < m ==> !Before(side, price, q[i].price)
    ensures m < |q| ==> Before(side, price, q[m].price)
  {
    if q == [] || Before(side, price, q[0].price) then 0
    else 1 + JoinAt(side, q[1..], price)
  }

  function Join(side: Side, q: seq<Entry>, e: Entry): seq<Entry> {
    var m := JoinAt(side, q, e.price);
    q[..m] + [e] + q[m..]
  }

  function Rest(b: Book, o: Order): Book {
    match o.kind
    case Market => b
    case Limit(price, _) =>
      WithQueue(b, o.side, Join(o.side, QueueOf(b, o.side), Entry(price, ToResting(o))))
        .(byId := b.byId[o.clientOrderId := (o.side, price)])
  }

  // -- Operations ------------------------------------------------------------

  datatype Reply = Fills(fills: seq<Fill>) | Cancelled(found: bool) | Done

  datatype Outcome = Outcome(book: Book, reply: Reply)

  /** Consecutive trade ids from `first`. */
  function Numbered(fills: seq<Fill>, first: nat): (r: seq<Fill>)
    ensures |r| == |fills|
  {
    seq(|fills|, i requires 0 <= i < |fills| => fills[i].(tradeId := first + i))
  }

  function Ids(ids: seq<U128>): set<U128> {
    set id | id in ids
  }

  /** The book after a sweep, before the remainder is dealt with. */
  function AfterSweep(b: Book, taker: Order, s: Sweep): Book {
    WithQueue(b, Opposite(taker.side), s.rest)
      .(byId := b.byId - Ids(s.gone), nextTradeId := b.nextTradeId + |s.fills|)
  }

  ghost function Submit(b: Book, taker: Order): Outcome {
    var q := QueueOf(b, Opposite(taker.side));
    if IsFok(taker) && !Fillable(q, taker) then Outcome(b, Fills([]))
    else
      var s := Greedy(q, taker, taker.qty);
      var swept := AfterSweep(b, taker, s);
      Outcome(
        if s.remaining > 0 && IsGtc(taker) then Rest(swept, Remainder(taker, s.remaining)) else swept,
        Fills(Numbered(s.fills, b.nextTradeId)))
  }

  /** First entry at `price` with this id, or the length of the queue. */
  function Find(q: seq<Entry>, price: I64, id: U128): (k: nat)
    ensures k <= |q|
    ensures k < |q| ==> q[k].price == price && q[k].order.clientOrderId == id
    ensures forall i :: 0 <= i < k ==> !(q[i].price == price && q[i].order.clientOrderId == id)
  {
    if q == [] || (q[0].price == price && q[0].order.clientOrderId == id) then 0
    else 1 + Find(q[1..], price, id)
  }

  function Without(q: seq<Entry>, k: nat): (r: seq<Entry>)
    requires k < |q|
    ensures |r| == |q| - 1
    ensures forall i :: 0 <= i < |r| ==> r[i] == q[if i < k then i else i + 1]
  {
    q[..k] + q[k + 1..]
  }

  function Cancel(b: Book, id: U128): Outcome {
    if id !in b.byId then Outcome(b, Cancelled(false))
    else
      var (side, price) := b.byId[id];
      var unindexed := b.(byId := b.byId - {id});
      var q := QueueOf(b, side);
      var k := Find(q, price, id);
      if k == |q| then Outcome(unindexed, Cancelled(false))
      else Outcome(WithQueue(unindexed, side, Without(q, k)), Cancelled(true))
  }

  /** What restoring writes in the index: asks are replayed after bids, asks from the
      lowest level up and bids from the lowest level up, and the last write of an id
      wins. */
  ghost function Reindex(b: Book): map<U128, (Side, I64)> {
    map id | id in IdSet(b.bids) + IdSet(b.asks) ::
      if id in IdSet(b.asks) then (Ask, b.asks[LastWith(b.asks, id)].price)
      else (Bid, b.bids[FirstWith(b.bids, id)].price)
  }

  function IdSet(q: seq<Entry>): set<U128> {
    set k | 0 <= k < |q| :: q[k].order.clientOrderId
  }

  function FirstWith(q: seq<Entry>, id: U128): (k: nat)
    requires id in IdSet(q)
    ensures k < |q| && q[k].order.clientOrderId == id
    ensures forall i :: 0 <= i < k ==> q[i].order.clientOrderId != id
  {
    if q[0].order.clientOrderId == id then 0
    else
      assert id in IdSet(q[1..]) by {
        var k :| 0 <= k < |q| && q[k].order.clientOrderId == id;
        assert q[1..][k - 1].order.clientOrderId == id;
      }
      1 + FirstWith(q[1..], id)
  }

  function LastWith(q: seq<Entry>, id: U128): (k: nat)
    requires id in IdSet(q)
    ensures k < |q| && q[k].order.clientOrderId == id
    ensures forall i :: k < i < |q| ==> q[i].order.clientOrderId != id
  {
    var n := |q| - 1;
    if q[n].order.clientOrderId == id then n
    else
      assert id in IdSet(q[..n]) by {
        var k :| 0 <= k < |q| && q[k].order.clientOrderId == id;
        assert q[..n][k].order.clientOrderId == id;
      }
      LastWith(q[..n], id)
  }

  /** Snapshot then restore. */
  ghost function Reload(b: Book): Book {
    b.(byId := Reindex(b))
  }

  // -- Runs ------------------------------------------------------------------

  datatype Op = Submits(order: Order) | Cancels(id: U128) | Rests(order: Order) | Reloads

  predicate Enters(op: Op) {
    op.Submits? || op.Rests?
  }

  ghost function Step(b: Book, op: Op): Outcome {
    match op
    case Submits(o) => Submit(b, o)
    case Cancels(id) => Cancel(b, id)
    case Rests(o) => Outcome(Rest(b, o), Done)
    case Reloads => Outcome(Reload(b), Done)
  }

  ghost function Run(b: Book, ops: seq<Op>): Book
    decreases |ops|
  {
    if ops == [] then b else Run(Step(b, ops[0]).book, ops[1..])
  }

  ghost function Replies(b: Book, ops: seq<Op>): seq<Reply>
    decreases |ops|
  {
    if ops == [] then []
    else [Step(b, ops[0]).reply] + Replies(Step(b, ops[0]).book, ops[1..])
  }

  function FillsOf(r: Reply): seq<Fill> {
    if r.Fills? then r.fills else []
  }

  /** All fills of a run, in the order they are returned. */
  ghost function RunFills(b: Book, ops: seq<Op>): seq<Fill>
    decreases |ops|
  {
    if ops == [] then []
    else FillsOf(Step(b, ops[0]).reply) + RunFills(Step(b, ops[0]).book, ops[1..])
  }

  /** Only the matching entry points are used: nothing is rested directly. */
  predicate Matched(ops: seq<Op>) {
    forall i :: 0 <= i < |ops| ==> !ops[i].Rests?
  }
}
