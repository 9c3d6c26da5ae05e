/** From a bot's REST order to the engine's order: normalisation in the gateway (server.go,
    identity.go) and decoding in the oracle (crates/reference-oracle/src/lib.rs). Go strings
    are byte sequences; the wire codec between the two is taken to be lossless. */
module Wire {
  import opened EngineTypes
  import opened ByteCodec
  import opened MatchSpec
  import opened OrderBooks

  type Text = seq<Byte>

  // ASCII of the vocabulary.
  const BID: Text := [98, 105, 100]
  const ASK: Text := [97, 115, 107]
  const LIMIT: Text := [108, 105, 109, 105, 116]
  const MARKET: Text := [109, 97, 114, 107, 101, 116]
  const GTC: Text := [103, 116, 99]
  const IOC: Text := [105, 111, 99]
  const FOK: Text := [102, 111, 107]

  /** The bytes of an ASCII string. */
  function Ascii(s: string): Text
    requires forall i :: 0 <= i < |s| ==> s[i] < 128 as char
  {
    seq(|s|, i requires 0 <= i < |s| => s[i] as int)
  }

  lemma Spelled()
    ensures BID == Ascii("bid") && ASK == Ascii("ask")
    ensures LIMIT == Ascii("limit") && MARKET == Ascii("market")
    ensures GTC == Ascii("gtc") && IOC == Ascii("ioc") && FOK == Ascii("fok")
  {
  }

  datatype RestOrder = RestOrder(
    botId: U64,
    localSeq: U64,
    side: Text,
    qty: U64,
    price: I64,
    orderType: Text,
    tif: Text)

  /** A NormalizedOrder; enum fields are raw protobuf numbers. */
  datatype WireOrder = WireOrder(
    platformSeq: U64,
    platformTsNs: U64,
    clientOrderId: seq<Byte>,
    sessionToken: seq<Byte>,
    side: int,
    qty: U64,
    price: I64,
    orderType: int,
    tif: int)

  datatype Decoded = Accepted(order: Order) | Rejected(reason: string)

  // -- Gateway ---------------------------------------------------------------

  function SideFromString(s: Text): int {
    if s == ASK then 2 else 1
  }

  function OrderTypeFromString(s: Text): int {
    if s == MARKET then 2 else 1
  }

  function TifFromString(s: Text): int {
    if s == IOC then 2 else if s == FOK then 3 else 1
  }

  function PackedId(botId: U64, localSeq: U64): (r: seq<Byte>)
    ensures |r| == 16
  {
    BigEndian(botId, 8) + BigEndian(localSeq, 8)
  }

  /** Fill sixteen bytes in place; read as one big-endian u128 they are the engine's id. */
  method PackClientOrderId(botId: U64, localSeq: U64) returns (out: seq<Byte>)
    ensures out == PackedId(botId, localSeq)
    ensures FromBigEndian(out) == PackId(botId, localSeq)
  {
    var buf := new Byte[16];
    PutUint64BigEndian(buf, 0, botId);
    ghost var first := buf[0..8];
    PutUint64BigEndian(buf, 8, localSeq);
    assert buf[0..8] == first;
    assert buf[..] == buf[0..8] + buf[8..16];
    PackedIdValue(botId, localSeq);
    out := buf[..];
  }

  lemma PackedIdValue(botId: U64, localSeq: U64)
    ensures FromBigEndian(PackedId(botId, localSeq)) == PackId(botId, localSeq)
  {
    Pow256Values();
    BigEndianRoundTrip(botId, 8);
    BigEndianRoundTrip(localSeq, 8);
    FromBigEndianAppend(BigEndian(botId, 8), BigEndian(localSeq, 8));
  }

  function Normalize(ro: RestOrder, seqNo: U64, tsNs: U64, token: Token): WireOrder {
    WireOrder(seqNo, tsNs, PackedId(ro.botId, ro.localSeq), token, SideFromString(ro.side), ro.qty, ro.price,
              OrderTypeFromString(ro.orderType), TifFromString(ro.tif))
  }

  // -- Oracle ----------------------------------------------------------------

  /** `u128::from_be_bytes`. */
  function ReadId(bytes: seq<Byte>): U128
    requires |bytes| == 16
  {
    Pow256Values();
    FromBigEndian(bytes)
  }

  function WireToOrder(n: WireOrder): Decoded {
    if n.side !in {0, 1, 2} then Rejected("bad side")
    else if n.side == 0 then Rejected("unspecified side")
    else if n.tif !in {0, 1, 2, 3} then Rejected("bad tif")
    else if n.orderType !in {0, 1, 2} then Rejected("bad order type")
    else if n.orderType == 0 then Rejected("unspecified order type")
    else if |n.clientOrderId| != 16 then Rejected("client_order_id must be 16 bytes")
    else if |n.sessionToken| != 32 then Rejected("session_token must be 32 bytes")
    else
      var tif := if n.tif == 2 then Ioc else if n.tif == 3 then Fok else Gtc;
      Accepted(Order(
        n.platformSeq, n.platformTsNs, ReadId(n.clientOrderId), n.sessionToken,
        if n.side == 1 then Bid else Ask, n.qty,
        if n.orderType == 1 then Limit(n.price, tif) else Market))
  }

  /** The engine order a REST order stands for, said without any wire format. */
  function Meant(ro: RestOrder, seqNo: U64, tsNs: U64, token: Token): Order {
    Order(seqNo, tsNs, PackId(ro.botId, ro.localSeq), token,
          if ro.side == ASK then Ask else Bid, ro.qty,
          if ro.orderType == MARKET then Market
          else Limit(ro.price, if ro.tif == IOC then Ioc else if ro.tif == FOK then Fok else Gtc))
  }

  /** Every REST order survives the trip: the oracle accepts what the gateway builds, and
      gets the order that was meant, bot id and local sequence included. */
  lemma TranslationFaithful(ro: RestOrder, seqNo: U64, tsNs: U64, token: Token)
    ensures WireToOrder(Normalize(ro, seqNo, tsNs, token)) == Accepted(Meant(ro, seqNo, tsNs, token))
    ensures var id := Meant(ro, seqNo, tsNs, token).clientOrderId;
      IdBot(id) == ro.botId && IdLocalSeq(id) == ro.localSeq
  {
    PackedIdValue(ro.botId, ro.localSeq);
    PackIdRoundTrip(ro.botId, ro.localSeq, 0);
  }

  /** The wire order field by field: which protobuf numbers stand for which words, unknown
      words included, and the id as sixteen big-endian bytes. */
  lemma NormalizeRule(ro: RestOrder, seqNo: U64, tsNs: U64, token: Token)
    ensures var n := Normalize(ro, seqNo, tsNs, token);
      && n.platformSeq == seqNo && n.platformTsNs == tsNs && n.sessionToken == token
      && n.qty == ro.qty && n.price == ro.price
      && n.side == (if ro.side == Ascii("ask") then 2 else 1)
      && n.orderType == (if ro.orderType == Ascii("market") then 2 else 1)
      && n.tif == (if ro.tif == Ascii("ioc") then 2 else if ro.tif == Ascii("fok") then 3 else 1)
      && |n.clientOrderId| == 16
      && FromBigEndian(n.clientOrderId[..8]) == ro.botId && FromBigEndian(n.clientOrderId[8..]) == ro.localSeq
  {
    Spelled();
    Pow256Values();
    BigEndianRoundTrip(ro.botId, 8);
    BigEndianRoundTrip(ro.localSeq, 8);
    assert PackedId(ro.botId, ro.localSeq)[..8] == BigEndian(ro.botId, 8);
    assert PackedId(ro.botId, ro.localSeq)[8..] == BigEndian(ro.localSeq, 8);
  }

  /** Exactly which wire orders the oracle accepts, and what it makes of one; an order it
      refuses gets the reason of the first check it fails. */
  lemma DecodeRule(n: WireOrder)
    ensures var d := WireToOrder(n);
      && (d.Accepted? <==>
            && 1 <= n.side <= 2 && 0 <= n.tif <= 3 && 1 <= n.orderType <= 2
            && |n.clientOrderId| == 16 && |n.sessionToken| == 32)
      && (d.Accepted? ==>
            var o := d.order;
            && o.platformSeq == n.platformSeq && o.platformTsNs == n.platformTsNs && o.qty == n.qty
            && o.clientOrderId == FromBigEndian(n.clientOrderId) && o.sessionToken == n.sessionToken
            && o.side == (if n.side == 1 then Bid else Ask)
            && (n.orderType == 2 ==> o.kind == Market)
            && (n.orderType == 1 ==>
                  o.kind == Limit(n.price, if n.tif == 2 then Ioc else if n.tif == 3 then Fok else Gtc)))
      && (d.Rejected? ==>
            if !(0 <= n.side <= 2) then d.reason == "bad side"
            else if n.side == 0 then d.reason == "unspecified side"
            else if !(0 <= n.tif <= 3) then d.reason == "bad tif"
            else if !(0 <= n.orderType <= 2) then d.reason == "bad order type"
            else if n.orderType == 0 then d.reason == "unspecified order type"
            else if |n.clientOrderId| != 16 then d.reason == "client_order_id must be 16 bytes"
            else d.reason == "session_token must be 32 bytes")
  {
  }

  /** The order meant, field by field: unknown words mean a bid, a limit order, good till
      cancelled; the bot id is the upper half of the id. */
  lemma MeantRule(ro: RestOrder, seqNo: U64, tsNs: U64, token: Token)
    ensures var o := Meant(ro, seqNo, tsNs, token);
      && o.platformSeq == seqNo && o.platformTsNs == tsNs && o.sessionToken == token && o.qty == ro.qty
      && o.clientOrderId == ro.botId * 0x1_0000_0000_0000_0000 + ro.localSeq
      && o.side == (if ro.side == Ascii("ask") then Ask else Bid)
      && o.kind == if ro.orderType == Ascii("market") then Market
                   else Limit(ro.price, if ro.tif == Ascii("ioc") then Ioc else if ro.tif == Ascii("fok") then Fok else Gtc)
  {
    Spelled();
  }

  /** Orders of different (bot, local sequence) pairs get different engine ids. */
  lemma IdsInjective(a: RestOrder, b: RestOrder)
    requires PackId(a.botId, a.localSeq) == PackId(b.botId, b.localSeq)
    ensures a.botId == b.botId && a.localSeq == b.localSeq
  {
  }

  datatype OracleReply = OracleReply(platformSeq: U64, status: nat, message: string, fills: seq<Fill>)

  /** Oracle.submit: an undecodable order is acknowledged with status 1 and never reaches
      the book; any other is matched under the lock. */
  method OracleSubmit(book: OrderBook, n: WireOrder) returns (reply: OracleReply)
    requires book.Valid()
    modifies book
    ensures book.Valid()
    ensures reply.platformSeq == n.platformSeq
    ensures match WireToOrder(n)
      case Rejected(reason) =>
        book.View() == old(book.View()) && reply.status == 1 && reply.message == reason && reply.fills == []
      case Accepted(order) =>
        Outcome(book.View(), Fills(reply.fills)) == Submit(old(book.View()), order) && reply.status == 0
  {
    match WireToOrder(n) {
      case Rejected(reason) =>
        return OracleReply(n.platformSeq, 1, reason, []);
      case Accepted(order) =>
        var fills := book.MatchOrder(order);
        return OracleReply(order.platformSeq, 0, "", fills);
    }
  }
}
