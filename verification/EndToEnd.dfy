/** A compiled schedule, stamped by any run of the stamp protocol and reaching the engine in
    any order: it meets the hypotheses of the whole-run theorems, and every delivered unit
    is traded or resting. */
module EndToEnd {
  import opened EngineTypes
  import opened MatchSpec
  import opened Sweeps
  import opened BookRuns
  import opened Conservation
  import opened Priority
  import opened Index
  import opened Wire
  import opened Schedule
  import StampProtocol

  /** What a gateway attached to an event. Events that failed at the stamper have none. */
  datatype Stamped = Stamped(seqNo: U64, tsNs: U64, token: Token)

  /** The stamps were issued in a run of the protocol, each to one event. Which gateway
      issued them, and in which order the events got them, is left open: after a client
      timeout the next event is posted while the one before may still be waiting. */
  ghost predicate StampedBy(issued: seq<StampProtocol.Issued>, stamps: seq<Option<Stamped>>, picks: seq<nat>) {
    && |picks| == |stamps|
    && (forall i :: 0 <= i < |stamps| && stamps[i].Some? ==>
          && picks[i] < |issued|
          && issued[picks[i]].stamp.seqNo == stamps[i].value.seqNo
          && issued[picks[i]].stamp.tsNs == stamps[i].value.tsNs)
    && (forall i, j :: 0 <= i < j < |stamps| && stamps[i].Some? && stamps[j].Some? ==> picks[i] != picks[j])
  }

  /** The events that reach the engine, in order of arrival: any of the stamped ones, in
      any order. */
  ghost predicate Arrivals(order: seq<nat>, stamps: seq<Option<Stamped>>) {
    && (forall i :: 0 <= i < |order| ==> order[i] < |stamps| && stamps[order[i]].Some?)
    && (forall i, j :: 0 <= i < j < |order| ==> order[i] != order[j])
  }

  ghost predicate InStampOrder(order: seq<nat>, stamps: seq<Option<Stamped>>)
    requires Arrivals(order, stamps)
  {
    forall i, j :: 0 <= i < j < |order| ==> stamps[order[i]].value.seqNo < stamps[order[j]].value.seqNo
  }

  /** What the engine is given for one event, through the wire format. */
  function Delivery(e: Event, s: Stamped): (op: Op)
    ensures op == Submits(Meant(Posted(e), s.seqNo, s.tsNs, s.token))
  {
    TranslationFaithful(Posted(e), s.seqNo, s.tsNs, s.token);
    Submits(WireToOrder(Normalize(Posted(e), s.seqNo, s.tsNs, s.token)).order)
  }

  ghost function Arrived(events: seq<Event>, stamps: seq<Option<Stamped>>, order: seq<nat>): (ops: seq<Op>)
    requires |events| == |stamps| && Arrivals(order, stamps)
    ensures |ops| == |order|
  {
    seq(|order|, i requires 0 <= i < |order| => Delivery(events[order[i]], stamps[order[i]].value))
  }

  /** What reaches the engine is what was scheduled, field by field: bot and offset in the
      two halves of the id, side, quantity, limit price and time in force of the event, and
      number, timestamp and token of its stamp. */
  ghost predicate IsScheduled(o: Order, e: Event, s: Stamped) {
    && o.clientOrderId == e.botId * 0x1_0000_0000_0000_0000 + e.offsetNs
    && o.platformSeq == s.seqNo && o.platformTsNs == s.tsNs && o.sessionToken == s.token
    && o.qty == e.order.qty
    && (e.order.side == Ascii("bid") ==> o.side == Bid) && (e.order.side == Ascii("ask") ==> o.side == Ask)
    && (e.order.orderType == Ascii("market") ==> o.kind == Market)
    && (e.order.orderType == Ascii("limit") && e.order.tif == Ascii("gtc") ==> o.kind == Limit(e.order.price, Gtc))
    && (e.order.orderType == Ascii("limit") && e.order.tif == Ascii("ioc") ==> o.kind == Limit(e.order.price, Ioc))
    && (e.order.orderType == Ascii("limit") && e.order.tif == Ascii("fok") ==> o.kind == Limit(e.order.price, Fok))
  }

  lemma ArrivedAsScheduled(events: seq<Event>, stamps: seq<Option<Stamped>>, order: seq<nat>, i: nat)
    requires |events| == |stamps| && Arrivals(order, stamps) && i < |order|
    ensures var op := Arrived(events, stamps, order)[i];
      && op.Submits? && IsScheduled(op.order, events[order[i]], stamps[order[i]].value)
      && IdBot(op.order.clientOrderId) == events[order[i]].botId
      && IdLocalSeq(op.order.clientOrderId) == events[order[i]].offsetNs
  {
    var e, s := events[order[i]], stamps[order[i]].value;
    Spelled();
    MeantRule(Posted(e), s.seqNo, s.tsNs, s.token);
    PackIdRoundTrip(e.botId, e.offsetNs, 0);
  }

  /** Different events carry different stamps and different client order ids. */
  lemma EventsDiffer(s: StampProtocol.State, events: seq<Event>, stamps: seq<Option<Stamped>>, picks: seq<nat>, k: nat, l: nat)
    requires StampProtocol.Unique(s) && |events| == |stamps| && Compiled(events)
    requires StampedBy(s.issued, stamps, picks)
    requires k < |events| && l < |events| && k != l && stamps[k].Some? && stamps[l].Some?
    ensures stamps[k].value.seqNo != stamps[l].value.seqNo
    ensures PackId(Posted(events[k]).botId, Posted(events[k]).localSeq)
         != PackId(Posted(events[l]).botId, Posted(events[l]).localSeq)
  {
    if PackId(Posted(events[k]).botId, Posted(events[k]).localSeq)
      == PackId(Posted(events[l]).botId, Posted(events[l]).localSeq) {
      IdsInjective(Posted(events[k]), Posted(events[l]));
    }
  }

  /** Whatever the order of arrival, the engine sees only good-til-cancelled limit orders,
      with fresh ids and distinct sequence numbers. */
  lemma ArrivalsMeetHypotheses(s: StampProtocol.State, events: seq<Event>, stamps: seq<Option<Stamped>>, picks: seq<nat>,
                               order: seq<nat>)
    requires StampProtocol.Unique(s) && |events| == |stamps| && Compiled(events)
    requires StampedBy(s.issued, stamps, picks) && Arrivals(order, stamps)
    ensures var ops := Arrived(events, stamps, order);
      && Matched(ops) && FreshIds(ops) && DistinctSeqs(ops)
      && (forall i :: 0 <= i < |ops| ==> ops[i].Submits? && IsGtc(ops[i].order))
      && (InStampOrder(order, stamps) ==> IncreasingSeqs(ops))
  {
    var ops := Arrived(events, stamps, order);
    forall i, j | 0 <= i < j < |ops|
      ensures ops[i].order.platformSeq != ops[j].order.platformSeq
      ensures ops[i].order.clientOrderId != ops[j].order.clientOrderId
    {
      EventsDiffer(s, events, stamps, picks, order[i], order[j]);
    }
  }

  lemma {:induction false} NothingDropped(b: Book, ops: seq<Op>, seqNo: U64)
    requires forall i :: 0 <= i < |ops| ==> ops[i].Submits? && IsGtc(ops[i].order)
    ensures RunDiscarded(b, ops, seqNo) == 0 && RunCancelled(b, ops, seqNo) == 0
    decreases |ops|
  {
    if ops != [] {
      NothingDropped(Step(b, ops[0]).book, ops[1..], seqNo);
    }
  }

  /** End to end: a compiled schedule is stamped in any run of the stamp protocol with safe
      crashes, and any of its events reach the oracle in any order. The oracle's book is
      then uncrossed with an exact index, restores to itself from a snapshot, and every
      arrival is its event as scheduled, whose quantity is its trades plus what still rests; if the orders arrive in
      the order of their stamps, the book keeps time priority. */
  lemma CompiledRunIsSound(s: StampProtocol.State, es: seq<StampProtocol.Event>, events: seq<Event>,
                           stamps: seq<Option<Stamped>>, picks: seq<nat>, order: seq<nat>)
    requires StampProtocol.Initial(s) && StampProtocol.Feasible(s, es)
    requires StampProtocol.AtEveryEvent(StampProtocol.SafeCrash, s, es)
    requires |events| == |stamps| && Compiled(events)
    requires StampedBy(StampProtocol.Run(s, es).issued, stamps, picks) && Arrivals(order, stamps)
    ensures var ops := Arrived(events, stamps, order);
      var b := MatchSpec.Run(EMPTY_BOOK, ops);
      && WellFormed(b) && Exact(b) && Reload(b) == b
      && (forall i :: 0 <= i < |ops| ==>
            Settled(ops, i, events[order[i]], stamps[order[i]].value))
      && (InStampOrder(order, stamps) ==> Throughout(FifoBook, EMPTY_BOOK, ops))
  {
    StampProtocol.StampsUnique(s, es);
    ArrivalsMeetHypotheses(StampProtocol.Run(s, es), events, stamps, picks, order);
    var ops := Arrived(events, stamps, order);
    RunWellFormed(EMPTY_BOOK, ops);
    FreshIdsExact(ops);
    ReloadExact(MatchSpec.Run(EMPTY_BOOK, ops));
    forall i | 0 <= i < |ops|
      ensures Settled(ops, i, events[order[i]], stamps[order[i]].value)
    {
      ArrivedAsScheduled(events, stamps, order, i);
      OrderAccountedFor(ops, i);
      NothingDropped(EMPTY_BOOK, ops, ops[i].order.platformSeq);
    }
    if InStampOrder(order, stamps) {
      RunFifo(ops);
    }
  }

  /** The `i`-th arrival is event `e` as scheduled, and the scheduled quantity is what traded
      under its stamp plus what rests under it. */
  ghost predicate Settled(ops: seq<Op>, i: nat, e: Event, s: Stamped) {
    && i < |ops| && ops[i].Submits? && IsScheduled(ops[i].order, e, s)
    && e.order.qty == FilledAsTaker(RunFills(EMPTY_BOOK, ops), s.seqNo)
                      + FilledAsMaker(RunFills(EMPTY_BOOK, ops), s.seqNo)
                      + StillResting(MatchSpec.Run(EMPTY_BOOK, ops), s.seqNo)
  }

  /** Without that order it does not: of two bids at one price the one stamped second
      overtakes the other on its way, and stands before it in the queue. */
  lemma OvertakenOnTheWay(events: seq<Event>, stamps: seq<Option<Stamped>>)
    requires |events| == |stamps| == 2 && Compiled(events)
    requires events[0].order.side == events[1].order.side == BID
    requires events[0].order.price == events[1].order.price
    requires events[0].order.qty > 0 && events[1].order.qty > 0
    requires stamps[0].Some? && stamps[1].Some? && stamps[0].value.seqNo < stamps[1].value.seqNo
    ensures Arrivals([1, 0], stamps) && !FifoBook(MatchSpec.Run(EMPTY_BOOK, Arrived(events, stamps, [1, 0])))
  {
    var ops := Arrived(events, stamps, [1, 0]);
    assert ops == [Delivery(events[1], stamps[1].value), Delivery(events[0], stamps[0].value)];
    OvertakenRun(ops[1].order, ops[0].order);
    assert ops == [Submits(ops[0].order), Submits(ops[1].order)];
  }
}
