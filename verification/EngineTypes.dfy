/** Value types of the matching engine (crates/matching-engine/src/types.rs and the
    `Resting` record of book.rs). Prices are i64 ticks, quantities and stamps u64,
    client order ids u128; every width is a subset type over `int`. */
module EngineTypes {

  type U64 = x: int | 0 <= x < 0x1_0000_0000_0000_0000
  type I64 = x: int | -0x8000_0000_0000_0000 <= x < 0x8000_0000_0000_0000
  type U128 = x: int | 0 <= x < 0x1_0000_0000_0000_0000_0000_0000_0000_0000
  type Byte = x: int | 0 <= x < 0x100

  /** The 32 opaque bytes of a session token. */
  type Token = t: seq<Byte> | |t| == 32 witness seq(32, _ => 0)

  const TWO64: int := 0x1_0000_0000_0000_0000

  datatype Option<+T> = None | Some(value: T)

  datatype Side = Bid | Ask

  datatype TimeInForce = Gtc | Ioc | Fok

  datatype OrderType = Limit(price: I64, tif: TimeInForce) | Market

  datatype Order = Order(
    platformSeq: U64,
    platformTsNs: U64,
    clientOrderId: U128,
    sessionToken: Token,
    side: Side,
    qty: U64,
    kind: OrderType)

  datatype Fill = Fill(
    tradeId: nat,
    platformSeqTaker: U64,
    platformSeqMaker: U64,
    price: I64,
    qty: U64,
    tsNs: U64)

  datatype Resting = Resting(
    platformSeq: U64,
    platformTsNs: U64,
    clientOrderId: U128,
    sessionToken: Token,
    qtyRemaining: U64)

  function Min(a: U64, b: U64): U64 {
    if a <= b then a else b
  }

  function Opposite(side: Side): Side {
    if side == Bid then Ask else Bid
  }

  /** `p` has strictly better price priority than `q` among resting orders of `side`:
      lower asks first, higher bids first. */
  predicate Before(side: Side, p: int, q: int) {
    if side == Ask then p < q else p > q
  }

  predicate CrossesPrice(takerSide: Side, level: I64, takerPrice: I64) {
    match takerSide
    case Bid => level <= takerPrice
    case Ask => level >= takerPrice
  }

  predicate Crosses(kind: OrderType, takerSide: Side, level: I64) {
    match kind
    case Limit(price, _) => CrossesPrice(takerSide, level, price)
    case Market => true
  }

  /** `Order::with_qty`, then the record the book keeps for a resting order. */
  function Remainder(o: Order, qty: U64): Order {
    o.(qty := qty)
  }

  function ToResting(o: Order): Resting {
    Resting(o.platformSeq, o.platformTsNs, o.clientOrderId, o.sessionToken, o.qty)
  }

  // -- Client order ids: (bot_id << 64) | local_seq, written arithmetically ---

  function PackId(botId: U64, localSeq: U64): U128 {
    botId * TWO64 + localSeq
  }

  function IdBot(id: U128): U64 {
    id / TWO64
  }

  function IdLocalSeq(id: U128): U64 {
    id % TWO64
  }

  /** Packing is a bijection between pairs of u64 and u128. */
  lemma PackIdRoundTrip(botId: U64, localSeq: U64, id: U128)
    ensures IdBot(PackId(botId, localSeq)) == botId
    ensures IdLocalSeq(PackId(botId, localSeq)) == localSeq
    ensures PackId(IdBot(id), IdLocalSeq(id)) == id
  {
  }
}
