/** The schedule compiler and the byte string its hash covers
    (apps/bot-coordinator/coordinator/schedule.go, dispatcher.go). PRNG draws are a
    parameter; SHA-256 itself is not part of this model. */
module Schedule {
  import opened EngineTypes
  import opened ByteCodec
  import opened Wire

  datatype OrderSpec = OrderSpec(side: Text, orderType: Text, tif: Text, qty: U64, price: I64)

  datatype Event = Event(offsetNs: U64, botId: U64, order: OrderSpec)

  type Int32 = x: int | -0x8000_0000 <= x < 0x8000_0000

  /** One slot's draws: Intn(8), Intn(2), Intn(20), Intn(20). */
  datatype Draw = Draw(bot: nat, side: nat, qty: nat, price: nat)

  predicate InRange(d: Draw) {
    d.bot < 8 && d.side < 2 && d.qty < 20 && d.price < 20
  }

  function Slots(durationSec: Int32): nat {
    if durationSec < 0 then 0 else durationSec * 1000
  }

  /** A compiled schedule: one good-til-cancelled limit order per millisecond. */
  ghost predicate Compiled(events: seq<Event>) {
    forall i :: 0 <= i < |events| ==>
      && events[i].offsetNs == i * 1_000_000
      && events[i].order.orderType == LIMIT && events[i].order.tif == GTC
  }

  /** One limit order per millisecond slot. Offsets never overflow: there are fewer than
      2^31 * 1000 slots. */
  method Compile(draws: seq<Draw>, durationSec: Int32) returns (out: seq<Event>)
    requires |draws| >= Slots(durationSec)
    requires forall i :: 0 <= i < |draws| ==> InRange(draws[i])
    ensures |out| == Slots(durationSec)
    ensures forall i :: 0 <= i < |out| ==>
      && out[i].offsetNs == i * 1_000_000
      && 1 <= out[i].botId <= 8 && out[i].botId == draws[i].bot + 1
      && out[i].order.side == (if draws[i].side == 0 then BID else ASK)
      && out[i].order.orderType == LIMIT && out[i].order.tif == GTC
      && 1 <= out[i].order.qty == draws[i].qty + 1 && out[i].order.price == 90 + draws[i].price
    ensures InVocabulary(out) && Compiled(out)
  {
    var total := durationSec * 1000;
    if total < 0 {
      total := 0;
    }
    out := [];
    var sides := [BID, ASK];
    var i := 0;
    while i < total
      invariant 0 <= i <= total && |out| == i
      invariant forall k :: 0 <= k < i ==>
        && out[k].offsetNs == k * 1_000_000
        && out[k].botId == draws[k].bot + 1
        && out[k].order.side == (if draws[k].side == 0 then BID else ASK)
        && out[k].order.orderType == LIMIT && out[k].order.tif == GTC
        && out[k].order.qty == draws[k].qty + 1 && out[k].order.price == 90 + draws[k].price
    {
      var d := draws[i];
      out := out + [Event(i * 1_000_000, d.bot + 1, OrderSpec(sides[d.side], LIMIT, GTC, d.qty + 1, 90 + d.price))];
      i := i + 1;
    }
  }

  /** The JSON body the dispatcher posts: the offset doubles as local sequence number. */
  function Posted(e: Event): RestOrder {
    RestOrder(e.botId, e.offsetNs, e.order.side, e.order.qty, e.order.price, e.order.orderType, e.order.tif)
  }

  // -- Canonical encoding ----------------------------------------------------

  predicate Speaks(o: OrderSpec) {
    && (o.side == BID || o.side == ASK)
    && (o.orderType == LIMIT || o.orderType == MARKET)
    && (o.tif == GTC || o.tif == IOC || o.tif == FOK)
  }

  ghost predicate InVocabulary(events: seq<Event>) {
    forall i :: 0 <= i < |events| ==> Speaks(events[i].order)
  }

  /** `uint64(price)`: two's complement. */
  function AsU64(price: I64): U64 {
    if price < 0 then price + TWO64 else price
  }

  function AsI64(v: U64): I64 {
    if v < 0x8000_0000_0000_0000 then v else v - TWO64
  }

  function Numbers(e: Event): (r: seq<Byte>)
    ensures |r| == 32
  {
    LittleEndian(e.offsetNs, 8) + LittleEndian(e.botId, 8)
    + LittleEndian(e.order.qty, 8) + LittleEndian(AsU64(e.order.price), 8)
  }

  function Encoded(e: Event): seq<Byte> {
    Numbers(e) + e.order.side + e.order.orderType + e.order.tif
  }

  /** The bytes of one event: four little-endian numbers, then the three words. */
  lemma EncodedRule(e: Event)
    ensures var b := Encoded(e);
      && |b| == 32 + |e.order.side| + |e.order.orderType| + |e.order.tif|
      && b[0..8] == LittleEndian(e.offsetNs, 8) && b[8..16] == LittleEndian(e.botId, 8)
      && b[16..24] == LittleEndian(e.order.qty, 8)
      && b[24..32] == LittleEndian(if e.order.price < 0 then e.order.price + 0x1_0000_0000_0000_0000 else e.order.price, 8)
      && b[32..] == e.order.side + e.order.orderType + e.order.tif
  {
    NumbersAt(e, e.order.side + e.order.orderType + e.order.tif);
    assert Encoded(e) == Numbers(e) + (e.order.side + e.order.orderType + e.order.tif);
  }

  function Parts(events: seq<Event>): (r: seq<seq<Byte>>)
    ensures |r| == |events|
  {
    seq(|events|, i requires 0 <= i < |events| => Encoded(events[i]))
  }

  function Joined(parts: seq<seq<Byte>>): seq<Byte> {
    if parts == [] then [] else parts[0] + Joined(parts[1..])
  }

  function EncodedAll(events: seq<Event>): seq<Byte> {
    Joined(Parts(events))
  }

  lemma {:induction false} JoinedSnoc(parts: seq<seq<Byte>>, last: seq<Byte>)
    ensures Joined(parts + [last]) == Joined(parts) + last
  {
    if parts == [] {
      assert [last][1..] == [];
      assert Joined([last]) == last + Joined([]);
    } else {
      assert (parts + [last])[1..] == parts[1..] + [last];
      JoinedSnoc(parts[1..], last);
    }
  }

  /** The writes of one event, through a reused eight-byte buffer. */
  method WriteEvent(e: Event, b: array<Byte>) returns (written: seq<Byte>)
    requires b.Length == 8
    modifies b
    ensures written == Encoded(e)
  {
    PutUint64LittleEndian(b, e.offsetNs);
    var w1 := b[..];
    PutUint64LittleEndian(b, e.botId);
    var w2 := b[..];
    PutUint64LittleEndian(b, e.order.qty);
    var w3 := b[..];
    PutUint64LittleEndian(b, AsU64(e.order.price));
    var w4 := b[..];
    written := w1 + w2 + w3 + w4 + e.order.side + e.order.orderType + e.order.tif;
  }

  /** Bytes written to the hash, one event after another. */
  method HashInput(events: seq<Event>) returns (h: seq<Byte>)
    ensures h == EncodedAll(events)
  {
    h := [];
    var b := new Byte[8];
    var i := 0;
    while i < |events|
      invariant 0 <= i <= |events| && h == Joined(Parts(events)[..i])
    {
      var written := WriteEvent(events[i], b);
      ghost var parts := Parts(events);
      JoinedSnoc(parts[..i], parts[i]);
      assert parts[..i + 1] == parts[..i] + [parts[i]];
      h := h + written;
      i := i + 1;
    }
    assert Parts(events)[..i] == Parts(events);
  }

  // -- Unique decoding -------------------------------------------------------

  function ReadU64(s: seq<Byte>, at: nat): U64
    requires at + 8 <= |s|
  {
    Pow256Values();
    FromLittleEndian(s[at..at + 8])
  }

  /** Read one event off the front: widths are fixed except for the order type, which its
      first letter tells apart. */
  function DecodeOne(s: seq<Byte>): (r: Option<(Event, seq<Byte>)>)
    ensures r.Some? ==> |r.value.1| < |s|
  {
    if |s| < 43 then None
    else
      var n := if s[35] == 108 then 5 else 6;
      if |s| < 38 + n then None
      else
        var spec := OrderSpec(s[32..35], s[35..35 + n], s[35 + n..38 + n], ReadU64(s, 16), AsI64(ReadU64(s, 24)));
        Some((Event(ReadU64(s, 0), ReadU64(s, 8), spec), s[38 + n..]))
  }

  function DecodeAll(s: seq<Byte>): Option<seq<Event>>
    decreases |s|
  {
    if s == [] then Some([])
    else
      var first := DecodeOne(s);
      if first.None? then None
      else
        var rest := DecodeAll(first.value.1);
        if rest.None? then None else Some([first.value.0] + rest.value)
  }

  lemma ReadNumber(s: seq<Byte>, at: nat, v: U64)
    requires at + 8 <= |s| && s[at..at + 8] == LittleEndian(v, 8)
    ensures ReadU64(s, at) == v
  {
    Pow256Values();
    LittleEndianRoundTrip(v, 8);
  }

  lemma NumbersAt(e: Event, tail: seq<Byte>)
    ensures var s := Numbers(e) + tail;
      && s[0..8] == LittleEndian(e.offsetNs, 8) && s[8..16] == LittleEndian(e.botId, 8)
      && s[16..24] == LittleEndian(e.order.qty, 8) && s[24..32] == LittleEndian(AsU64(e.order.price), 8)
      && s[32..] == tail
  {
  }

  lemma DecodeFields(s: seq<Byte>, e: Event, tail: seq<Byte>)
    requires Speaks(e.order) && |s| >= 38 + |e.order.orderType| && s[35] == e.order.orderType[0]
    requires ReadU64(s, 0) == e.offsetNs && ReadU64(s, 8) == e.botId
    requires ReadU64(s, 16) == e.order.qty && ReadU64(s, 24) == AsU64(e.order.price)
    requires var n := |e.order.orderType|;
      && s[32..35] == e.order.side && s[35..35 + n] == e.order.orderType && s[35 + n..38 + n] == e.order.tif
      && s[38 + n..] == tail
    ensures DecodeOne(s) == Some((e, tail))
  {
  }

  lemma DecodeEncoded(e: Event, tail: seq<Byte>)
    requires Speaks(e.order)
    ensures DecodeOne(Encoded(e) + tail) == Some((e, tail))
  {
    var words := e.order.side + e.order.orderType + e.order.tif;
    var s := Encoded(e) + tail;
    assert s == Numbers(e) + (words + tail);
    NumbersAt(e, words + tail);
    ReadNumber(s, 0, e.offsetNs);
    ReadNumber(s, 8, e.botId);
    ReadNumber(s, 16, e.order.qty);
    ReadNumber(s, 24, AsU64(e.order.price));
    WordsAt(s, e.order, tail);
    DecodeFields(s, e, tail);
  }

  lemma WordsAt(s: seq<Byte>, o: OrderSpec, tail: seq<Byte>)
    requires Speaks(o) && |s| >= 32 && s[32..] == o.side + o.orderType + o.tif + tail
    ensures |s| >= 43 && s[35] == o.orderType[0]
    ensures var n := |o.orderType|;
      && |s| >= 38 + n
      && s[32..35] == o.side && s[35..35 + n] == o.orderType && s[35 + n..38 + n] == o.tif && s[38 + n..] == tail
  {
    var t, n := s[32..], |o.orderType|;
    SplitWords(o.side, o.orderType, o.tif, tail);
    SliceOfRest(s, 32, 0, 3);
    SliceOfRest(s, 32, 3, 3 + n);
    SliceOfRest(s, 32, 3 + n, 6 + n);
    SliceOfRest(s, 32, 6 + n, |t|);
    assert s[35] == s[35..35 + n][0];
  }

  lemma SplitWords(a: seq<Byte>, b: seq<Byte>, c: seq<Byte>, d: seq<Byte>)
    ensures var t := a + b + c + d;
      && t[0..|a|] == a && t[|a|..|a| + |b|] == b && t[|a| + |b|..|a| + |b| + |c|] == c
      && t[|a| + |b| + |c|..|t|] == d
  {
  }

  lemma SliceOfRest(s: seq<Byte>, k: nat, i: nat, j: nat)
    requires k <= |s| && i <= j <= |s| - k
    ensures s[k..][i..j] == s[k + i..k + j]
  {
  }

  lemma DecodeStep(s: seq<Byte>, e: Event, tail: seq<Byte>, rest: seq<Event>)
    requires DecodeOne(s) == Some((e, tail)) && DecodeAll(tail) == Some(rest)
    ensures DecodeAll(s) == Some([e] + rest)
  {
  }

  lemma PartsFirst(events: seq<Event>)
    requires events != []
    ensures Parts(events)[0] == Encoded(events[0]) && Parts(events)[1..] == Parts(events[1..])
  {
  }

  /** The hashed bytes decode back to the schedule. */
  lemma {:induction false} DecodeRoundTrip(events: seq<Event>)
    requires InVocabulary(events)
    ensures DecodeAll(EncodedAll(events)) == Some(events)
  {
    if events != [] {
      var e, rest := events[0], events[1..];
      DecodeRoundTrip(rest);
      PartsFirst(events);
      DecodeEncoded(e, EncodedAll(rest));
      DecodeStep(Encoded(e) + EncodedAll(rest), e, EncodedAll(rest), rest);
      assert events == [e] + rest;
    }
  }

  /** Different schedules over the vocabulary give different hash inputs. */
  lemma HashInputsDiffer(a: seq<Event>, b: seq<Event>)
    requires InVocabulary(a) && InVocabulary(b) && a != b
    ensures EncodedAll(a) != EncodedAll(b)
  {
    DecodeRoundTrip(a);
    DecodeRoundTrip(b);
  }

  /** Outside it they need not: the three words are joined without lengths. */
  lemma WordsCanRunTogether(offset: U64, bot: U64, qty: U64, price: I64)
    ensures var a := [Event(offset, bot, OrderSpec(BID, LIMIT, GTC, qty, price))];
      var b := [Event(offset, bot, OrderSpec(BID + LIMIT, [], GTC, qty, price))];
      a != b && EncodedAll(a) == EncodedAll(b)
  {
    var x := Event(offset, bot, OrderSpec(BID, LIMIT, GTC, qty, price));
    var y := Event(offset, bot, OrderSpec(BID + LIMIT, [], GTC, qty, price));
    PartsFirst([x]);
    PartsFirst([y]);
    assert [x][1..] == [y][1..] == [];
    assert Encoded(x) == Encoded(y);
    assert |x.order.side| != |y.order.side|;
  }

  function Words(e: Event): seq<Byte> {
    e.order.side + e.order.orderType + e.order.tif
  }

  /** The same numbers, and the same letters once the words are joined. */
  predicate Collide(a: Event, b: Event) {
    && a.offsetNs == b.offsetNs && a.botId == b.botId
    && a.order.qty == b.order.qty && a.order.price == b.order.price
    && Words(a) == Words(b)
  }

  /** Two events give the same bytes, over any vocabulary, if and only if they differ at
      most in where one word ends and the next begins. */
  lemma EncodingsCollideIff(a: Event, b: Event)
    ensures Encoded(a) == Encoded(b) <==> Collide(a, b)
  {
    NumbersAt(a, Words(a));
    NumbersAt(b, Words(b));
    assert Encoded(a) == Numbers(a) + Words(a) && Encoded(b) == Numbers(b) + Words(b);
    if Encoded(a) == Encoded(b) {
      SameNumbers(a, b, Encoded(a));
    }
  }

  lemma SameNumbers(a: Event, b: Event, s: seq<Byte>)
    requires |s| >= 32
    requires s[0..8] == LittleEndian(a.offsetNs, 8) == LittleEndian(b.offsetNs, 8)
    requires s[8..16] == LittleEndian(a.botId, 8) == LittleEndian(b.botId, 8)
    requires s[16..24] == LittleEndian(a.order.qty, 8) == LittleEndian(b.order.qty, 8)
    requires s[24..32] == LittleEndian(AsU64(a.order.price), 8) == LittleEndian(AsU64(b.order.price), 8)
    ensures a.offsetNs == b.offsetNs && a.botId == b.botId
    ensures a.order.qty == b.order.qty && a.order.price == b.order.price
  {
    ReadNumber(s, 0, a.offsetNs);
    ReadNumber(s, 0, b.offsetNs);
    ReadNumber(s, 8, a.botId);
    ReadNumber(s, 8, b.botId);
    ReadNumber(s, 16, a.order.qty);
    ReadNumber(s, 16, b.order.qty);
    ReadNumber(s, 24, AsU64(a.order.price));
    ReadNumber(s, 24, AsU64(b.order.price));
  }
}
