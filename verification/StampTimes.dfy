/** Timestamps of one gateway never go back, whatever the RPC delays, if at no restart the
    wall clock of the time-service is behind what the service showed before; across gateways
    they are exactly the instants of issue less the response delay of the window issued
    from. The server and the gateways read monotonic clocks of the same rate, so one global
    `now` serves for both. */
module StampTimes {
  import opened EngineTypes
  import opened Stamps
  import opened StampProtocol

  // -- Server time over restarts ---------------------------------------------

  /** What the current or last service process adds to the monotonic clock, if there was
      one, and the server time at which each call was sent, if there was any then. */
  datatype Track = Track(offset: Option<int>, sent: seq<Option<int>>)

  const NO_TRACK := Track(None, [])

  /** Server time at instant `at`, were the current or last process still up. */
  function Shown(t: Track, at: int): Option<int> {
    if t.offset.Some? then Some(at + t.offset.value) else None
  }

  function Tracked(t: Track, s: State, e: Event): Track {
    match e
    case Restart(wallNs) => t.(offset := Some(wallNs - s.now))
    case Request(_, _) => t.(sent := t.sent + [Shown(t, s.now)])
    case _ => t
  }

  predicate NotAfter(ts: int, bound: Option<int>) {
    bound.Some? && ts <= bound.value
  }

  predicate NotBefore(ts: int, bound: Option<int>) {
    bound.Some? ==> bound.value <= ts
  }

  /** A restart reads a wall clock no earlier than what the process before would show. */
  predicate Forward(t: Track, s: State, e: Event) {
    e.Restart? ==> NotBefore(e.wallNs, Shown(t, s.now))
  }

  predicate RestartsForward(t: Track, s: State, es: seq<Event>)
    requires Feasible(s, es)
    decreases |es|
  {
    es == [] || (Forward(t, s, es[0]) && RestartsForward(Tracked(t, s, es[0]), Apply(s, es[0]), es[1..]))
  }

  // -- Timestamps of one gateway ---------------------------------------------

  /** A batch was stamped between the sending of its call and now. */
  ghost predicate ReplyTimes(s: State, t: Track) {
    forall b :: b in s.replies ==>
      && b < |s.blocks| && s.blocks[b].call < |t.sent|
      && NotBefore(s.replies[b].firstTsNs, t.sent[s.blocks[b].call])
      && NotAfter(s.replies[b].firstTsNs, Shown(t, s.now))
  }

  /** A window runs behind the server; everything issued so far is not after what the
      gateway would issue now, nor after the call it is waiting for. */
  ghost predicate GatewayTimes(s: State, t: Track, g: nat) {
    var gw := GatewayOf(s, g);
    && (!Exhausted(gw.window) ==> gw.waiting.None? && NotAfter(StampAt(gw.window, s.now).tsNs, Shown(t, s.now)))
    && (gw.waiting.Some? ==> gw.waiting.value < |t.sent|)
    && (forall k :: 0 <= k < |s.issued| && s.issued[k].gateway == g ==>
          && (!Exhausted(gw.window) ==> s.issued[k].stamp.tsNs <= StampAt(gw.window, s.now).tsNs)
          && (gw.waiting.Some? ==> NotAfter(s.issued[k].stamp.tsNs, t.sent[gw.waiting.value])))
  }

  ghost predicate MonotoneTimes(issued: seq<Issued>) {
    forall k, l :: 0 <= k < l < |issued| && issued[k].gateway == issued[l].gateway ==>
      issued[k].stamp.tsNs <= issued[l].stamp.tsNs
  }

  /** The track follows the service, and no call was sent later than now. */
  ghost predicate TrackOk(s: State, t: Track) {
    && (s.service.Up? ==> t.offset == Some(s.service.boot - s.service.startedAt))
    && |t.sent| == |s.calls|
    && (forall c :: 0 <= c < |t.sent| && t.sent[c].Some? ==> NotAfter(t.sent[c].value, Shown(t, s.now)))
    && (forall b :: 0 <= b < |s.blocks| ==> s.blocks[b].call < |s.calls|)
    && (forall b :: b in s.unread ==> b < |s.blocks|)
  }

  ghost predicate Times(s: State, t: Track) {
    && TrackOk(s, t) && ReplyTimes(s, t)
    && (forall k :: 0 <= k < |s.issued| ==> NotAfter(s.issued[k].stamp.tsNs, Shown(t, s.now)))
    && (forall g :: GatewayTimes(s, t, g))
    && MonotoneTimes(s.issued)
  }

  lemma InitialTimes(s: State)
    requires Initial(s)
    ensures Times(s, NO_TRACK)
  {
    forall g
      ensures GatewayTimes(s, NO_TRACK, g)
    {
      assert GatewayOf(s, g).window == NO_WINDOW;
    }
  }

  /** Nothing is issued: windows stay or are dropped, server time does not go back, and a
      call is sent at server time. */
  lemma EachGateway(s: State, t: Track, s': State, t': Track)
    requires Times(s, t) && s'.issued == s.issued && s.now <= s'.now && t.sent <= t'.sent
    requires Shown(t, s.now).Some? ==> NotAfter(Shown(t, s'.now).value, Shown(t', s'.now))
    requires forall g :: GatewayOf(s', g).window == GatewayOf(s, g).window || Exhausted(GatewayOf(s', g).window)
    requires forall g :: GatewayOf(s', g).waiting.Some? ==>
      || GatewayOf(s', g).waiting == GatewayOf(s, g).waiting
      || (Exhausted(GatewayOf(s', g).window) && GatewayOf(s', g).waiting.value < |t'.sent|
          && t'.sent[GatewayOf(s', g).waiting.value] == Shown(t, s.now))
    ensures forall g :: GatewayTimes(s', t', g)
  {
    forall g
      ensures GatewayTimes(s', t', g)
    {
      assert GatewayTimes(s, t, g);
    }
  }

  lemma Issuing(s: State, s': State, t: Track, x: Issued, gw: Gateway)
    requires Times(s, t)
    requires s' == s.(now := s'.now, replies := s'.replies, gateways := s.gateways[x.gateway := gw], issued := s.issued + [x])
    requires s.now <= s'.now && s'.replies.Keys <= s.replies.Keys
    requires forall b :: b in s'.replies ==> s'.replies[b] == s.replies[b]
    requires gw.waiting.None? && StampAt(gw.window, s'.now).tsNs == x.stamp.tsNs
    requires NotAfter(x.stamp.tsNs, Shown(t, s'.now))
    requires forall k :: 0 <= k < |s.issued| && s.issued[k].gateway == x.gateway ==> s.issued[k].stamp.tsNs <= x.stamp.tsNs
    ensures Times(s', t)
  {
    forall g
      ensures GatewayTimes(s', t, g)
    {
      assert GatewayTimes(s, t, g);
    }
  }

  lemma DeliverTimes(s: State, t: Track, g: nat, block: nat, delay: nat)
    requires Times(s, t) && Enabled(s, Deliver(g, block, delay))
    ensures Times(Apply(s, Deliver(g, block, delay)), t)
  {
    assert GatewayTimes(s, t, g);
    var w := Refilled(s.replies[block], s.now);
    Issuing(s, Apply(s, Deliver(g, block, delay)), t, Issued(g, block, StampAt(w, s.now + delay)),
            Gateway(Advanced(w), block, None));
  }

  lemma IssueTimes(s: State, t: Track, g: nat)
    requires Times(s, t) && Enabled(s, Issue(g))
    ensures Times(Apply(s, Issue(g)), t)
  {
    assert GatewayTimes(s, t, g);
    var gw := GatewayOf(s, g);
    Issuing(s, Apply(s, Issue(g)), t, Issued(g, gw.block, StampAt(gw.window, s.now)),
            gw.(window := Advanced(gw.window)));
  }

  lemma QuietTrack(s: State, t: Track, e: Event)
    requires Times(s, t) && Enabled(s, e) && Forward(t, s, e) && !e.Deliver? && !e.Issue?
    ensures TrackOk(Apply(s, e), Tracked(t, s, e))
  {
  }

  lemma QuietReplies(s: State, t: Track, e: Event)
    requires Times(s, t) && Enabled(s, e) && Forward(t, s, e) && !e.Deliver? && !e.Issue?
    ensures ReplyTimes(Apply(s, e), Tracked(t, s, e))
  {
    assert forall b :: b in Apply(s, e).replies && !(e.ReadClock? && b == e.block) ==>
      b in s.replies && Apply(s, e).replies[b] == s.replies[b];
  }

  lemma QuietTimes(s: State, t: Track, e: Event)
    requires Times(s, t) && Enabled(s, e) && Forward(t, s, e) && !e.Deliver? && !e.Issue?
    ensures Times(Apply(s, e), Tracked(t, s, e))
  {
    QuietTrack(s, t, e);
    QuietReplies(s, t, e);
    EachGateway(s, t, Apply(s, e), Tracked(t, s, e));
  }

  lemma StepTimes(s: State, t: Track, e: Event)
    requires Times(s, t) && Enabled(s, e) && Forward(t, s, e)
    ensures Times(Apply(s, e), Tracked(t, s, e))
  {
    match e
    case Deliver(g, block, delay) => DeliverTimes(s, t, g, block, delay);
    case Issue(g) => IssueTimes(s, t, g);
    case _ => QuietTimes(s, t, e);
  }

  lemma {:induction false} RunTimes(s: State, t: Track, es: seq<Event>)
    requires Times(s, t) && Feasible(s, es) && RestartsForward(t, s, es)
    ensures MonotoneTimes(Run(s, es).issued)
    decreases |es|
  {
    if es != [] {
      StepTimes(s, t, es[0]);
      RunTimes(Apply(s, es[0]), Tracked(t, s, es[0]), es[1..]);
    }
  }

  /** Over every interleaving, crashes and restarts included, the timestamps each gateway
      issues never decrease, within a window, across refills and across restarts, provided
      every restart reads a wall clock no earlier than what the process before it would
      show at that instant. */
  lemma TimestampsMonotone(s: State, es: seq<Event>)
    requires Initial(s) && Feasible(s, es) && RestartsForward(NO_TRACK, s, es)
    ensures MonotoneTimes(Run(s, es).issued)
  {
    InitialTimes(s);
    RunTimes(s, NO_TRACK, es);
  }

  /** The proviso is needed for every such reading: a service that shows `wall + later` when
      it crashes and restarts at an earlier `back` makes a gateway go back in time. */
  lemma BackwardRestartGoesBack(s: State, wall: int, later: nat, back: int) returns (es: seq<Event>)
    requires Initial(s) && back < wall + later
    ensures Feasible(s, es) && !RestartsForward(NO_TRACK, s, es)
    ensures var x := Run(s, es).issued;
      |x| == 2 && x[0].gateway == x[1].gateway && x[0].stamp.tsNs == wall + later && x[1].stamp.tsNs == back
  {
    es := More(s, [], Restart(wall));
    es := More(s, es, Tick(later));
    es := Serve(s, es, 0, 1);
    es := More(s, es, Crash(None));
    es := More(s, es, Restart(back));
    es := Serve(s, es, 0, 1);
    var x := Run(s, es).issued;
    assert x[0].stamp.tsNs > x[1].stamp.tsNs;
    if RestartsForward(NO_TRACK, s, es) {
      TimestampsMonotone(s, es);
    }
  }

  predicate NoCrash(es: seq<Event>) {
    forall i :: 0 <= i < |es| ==> !es[i].Crash?
  }

  lemma {:induction false} NoCrashForward(t: Track, s: State, es: seq<Event>)
    requires s.service.Up? && Feasible(s, es) && NoCrash(es)
    ensures RestartsForward(t, s, es)
    decreases |es|
  {
    if es != [] {
      NoCrashForward(Tracked(t, s, es[0]), Apply(s, es[0]), es[1..]);
    }
  }

  /** One service that does not crash needs no proviso. */
  lemma StartedMonotone(s: State, wallNs: int, es: seq<Event>)
    requires Initial(s) && NoCrash(es) && Feasible(Apply(s, Restart(wallNs)), es)
    ensures MonotoneTimes(Run(Apply(s, Restart(wallNs)), es).issued)
  {
    var t := Tracked(NO_TRACK, s, Restart(wallNs));
    InitialTimes(s);
    StepTimes(s, NO_TRACK, Restart(wallNs));
    NoCrashForward(t, Apply(s, Restart(wallNs)), es);
    RunTimes(Apply(s, Restart(wallNs)), t, es);
  }

  // -- What a timestamp says -------------------------------------------------

  /** What was answered for each block and when the clock was read for it, when the response
      reached its gateway, and when each stamp was issued. */
  datatype Log = Log(answered: map<nat, Batch>, readAt: map<nat, int>, arrivedAt: map<nat, int>, issuedAt: seq<int>)

  function Logged(l: Log, s: State, e: Event): Log
    requires Enabled(s, e)
  {
    match e
    case ReadClock(block) =>
      l.(answered := l.answered[block := Apply(s, e).replies[block]], readAt := l.readAt[block := s.now])
    case Deliver(_, block, delay) => l.(arrivedAt := l.arrivedAt[block := s.now], issuedAt := l.issuedAt + [s.now + delay])
    case Issue(_) => l.(issuedAt := l.issuedAt + [s.now])
    case _ => l
  }

  function History(l: Log, s: State, es: seq<Event>): Log
    requires Feasible(s, es)
    decreases |es|
  {
    if es == [] then l else History(Logged(l, s, es[0]), Apply(s, es[0]), es[1..])
  }

  /** How long the response that carried a block was on its way after the clock was read. */
  function Lag(l: Log, block: nat): int
    requires block in l.readAt && block in l.arrivedAt
  {
    l.arrivedAt[block] - l.readAt[block]
  }

  ghost predicate DatedReply(s: State, l: Log, block: nat)
    requires s.service.Up? && block in s.replies
  {
    block in l.readAt && l.readAt[block] <= s.now
    && s.replies[block].firstTsNs == TimeAt(s.service, l.readAt[block])
  }

  ghost predicate DatedWindow(s: State, l: Log, g: nat)
    requires s.service.Up?
  {
    var gw := GatewayOf(s, g);
    Exhausted(gw.window) ||
      (&& gw.block in l.readAt && gw.block in l.arrivedAt && l.readAt[gw.block] <= l.arrivedAt[gw.block] <= s.now
       && gw.window.originTs == TimeAt(s.service, l.readAt[gw.block]) && gw.window.originAt == l.arrivedAt[gw.block])
  }

  /** A timestamp is the instant of issue less the response delay of its block. */
  ghost predicate DatedStamp(service: Service, l: Log, x: Issued, at: int)
    requires service.Up?
  {
    && x.block in l.readAt && x.block in l.arrivedAt && l.readAt[x.block] <= l.arrivedAt[x.block] <= at
    && x.stamp.tsNs == TimeAt(service, at - Lag(l, x.block))
  }

  /** Every answer is recorded with the time shown when the clock was read for it. */
  ghost predicate DatedAnswers(s: State, l: Log)
    requires s.service.Up?
  {
    && l.answered.Keys == l.readAt.Keys
    && (forall b :: b in l.answered ==>
          && b < |s.blocks| && l.answered[b].firstSeq == s.blocks[b].first
          && l.answered[b].firstTsNs == TimeAt(s.service, l.readAt[b]))
  }

  ghost predicate Dated(s: State, l: Log) {
    && s.service.Up? && |l.issuedAt| == |s.issued| && DatedAnswers(s, l)
    && (forall block :: block in s.replies ==> DatedReply(s, l, block))
    && (forall g :: DatedWindow(s, l, g))
    && (forall k :: 0 <= k < |s.issued| ==> DatedStamp(s.service, l, s.issued[k], l.issuedAt[k]))
  }

  lemma ReadWindow(s: State, l: Log, block: nat, g: nat)
    requires StampProtocol.Inv(s) && Dated(s, l) && Enabled(s, ReadClock(block))
    ensures DatedWindow(Apply(s, ReadClock(block)), Logged(l, s, ReadClock(block)), g)
  {
    assert GatewayOk(s, g) && DatedWindow(s, l, g);
  }

  lemma ReadDated(s: State, l: Log, block: nat)
    requires StampProtocol.Inv(s) && Dated(s, l) && Enabled(s, ReadClock(block))
    ensures Dated(Apply(s, ReadClock(block)), Logged(l, s, ReadClock(block)))
  {
    var s', l' := Apply(s, ReadClock(block)), Logged(l, s, ReadClock(block));
    assert Fresh(s, block);
    forall g
      ensures DatedWindow(s', l', g)
    {
      ReadWindow(s, l, block, g);
    }
    forall k | 0 <= k < |s.issued|
      ensures DatedStamp(s'.service, l', s'.issued[k], l'.issuedAt[k])
    {
      assert DatedStamp(s.service, l, s.issued[k], l.issuedAt[k]);
    }
    forall b | b in s'.replies
      ensures DatedReply(s', l', b)
    {
      assert b != block ==> DatedReply(s, l, b);
    }
  }

  lemma DeliverWindow(s: State, l: Log, g: nat, block: nat, delay: nat, h: nat)
    requires StampProtocol.Inv(s) && Dated(s, l) && Enabled(s, Deliver(g, block, delay))
    ensures DatedWindow(Apply(s, Deliver(g, block, delay)), Logged(l, s, Deliver(g, block, delay)), h)
  {
    if h == g {
      assert DatedReply(s, l, block);
    } else {
      assert GatewayOf(Apply(s, Deliver(g, block, delay)), h) == GatewayOf(s, h);
      assert GatewayOk(s, h) && DatedWindow(s, l, h);
    }
  }

  lemma DeliverDated(s: State, l: Log, g: nat, block: nat, delay: nat)
    requires StampProtocol.Inv(s) && Dated(s, l) && Enabled(s, Deliver(g, block, delay))
    ensures Dated(Apply(s, Deliver(g, block, delay)), Logged(l, s, Deliver(g, block, delay)))
  {
    var e := Deliver(g, block, delay);
    var s', l' := Apply(s, e), Logged(l, s, e);
    assert Fresh(s, block) && DatedReply(s, l, block);
    forall h
      ensures DatedWindow(s', l', h)
    {
      DeliverWindow(s, l, g, block, delay, h);
    }
    forall k | 0 <= k < |s'.issued|
      ensures DatedStamp(s'.service, l', s'.issued[k], l'.issuedAt[k])
    {
      assert k < |s.issued| ==> DatedStamp(s.service, l, s.issued[k], l.issuedAt[k]);
    }
    forall b | b in s'.replies
      ensures DatedReply(s', l', b)
    {
      assert DatedReply(s, l, b);
    }
  }

  lemma IssueDated(s: State, l: Log, g: nat)
    requires Dated(s, l) && Enabled(s, Issue(g))
    ensures Dated(Apply(s, Issue(g)), Logged(l, s, Issue(g)))
  {
    var s', l' := Apply(s, Issue(g)), Logged(l, s, Issue(g));
    forall h
      ensures DatedWindow(s', l', h)
    {
      assert DatedWindow(s, l, h);
    }
    forall k | 0 <= k < |s'.issued|
      ensures DatedStamp(s'.service, l', s'.issued[k], l'.issuedAt[k])
    {
      if k < |s.issued| {
        assert DatedStamp(s.service, l, s.issued[k], l.issuedAt[k]);
      } else {
        assert DatedWindow(s, l, g);
      }
    }
    assert forall b :: b in s'.replies ==> DatedReply(s, l, b);
  }

  lemma QuietDated(s: State, l: Log, e: Event)
    requires Dated(s, l) && Enabled(s, e) && !e.Crash? && !e.Deliver? && !e.Issue? && !e.ReadClock?
    ensures Dated(Apply(s, e), Logged(l, s, e))
  {
    var s' := Apply(s, e);
    forall g
      ensures DatedWindow(s', l, g)
    {
      assert DatedWindow(s, l, g);
    }
    forall k | 0 <= k < |s.issued|
      ensures DatedStamp(s'.service, l, s'.issued[k], l.issuedAt[k])
    {
      assert DatedStamp(s.service, l, s.issued[k], l.issuedAt[k]);
    }
    forall b | b in s'.replies
      ensures DatedReply(s', l, b)
    {
      assert DatedReply(s, l, b);
    }
  }

  lemma StepDated(s: State, l: Log, e: Event)
    requires StampProtocol.Inv(s) && Dated(s, l) && Enabled(s, e) && !e.Crash?
    ensures Dated(Apply(s, e), Logged(l, s, e))
  {
    match e
    case ReadClock(block) => ReadDated(s, l, block);
    case Deliver(g, block, delay) => DeliverDated(s, l, g, block, delay);
    case Issue(g) => IssueDated(s, l, g);
    case _ => QuietDated(s, l, e);
  }

  lemma {:induction false} RunDated(s: State, l: Log, es: seq<Event>)
    requires StampProtocol.Inv(s) && Dated(s, l)
    requires Feasible(s, es) && NoCrash(es) && AtEveryEvent(Clear, s, es)
    ensures Dated(Run(s, es), History(l, s, es)) && StampProtocol.Inv(Run(s, es))
    decreases |es|
  {
    if es != [] {
      StepDated(s, l, es[0]);
      StepInv(s, es[0]);
      RunDated(Apply(s, es[0]), Logged(l, s, es[0]), es[1..]);
    }
  }

  lemma {:induction false} NoCrashClear(s: State, es: seq<Event>)
    requires Feasible(s, es) && NoCrash(es) && LastBelow(s.blocks, Horizon(s))
    ensures AtEveryEvent(Clear, s, es)
    decreases |es|
  {
    if es != [] {
      NoCrashClear(Apply(s, es[0]), es[1..]);
    }
  }

  const NO_LOG := Log(map[], map[], map[], [])

  lemma InitialDated(s: State, wallNs: int)
    requires Initial(s)
    ensures Dated(Apply(s, Restart(wallNs)), NO_LOG)
  {
    var t := Apply(s, Restart(wallNs));
    forall g
      ensures DatedWindow(t, NO_LOG, g)
    {
      assert GatewayOf(t, g).window == NO_WINDOW;
    }
  }

  lemma StartedDated(s: State, wallNs: int, es: seq<Event>)
    requires Initial(s) && NoCrash(es) && Feasible(Apply(s, Restart(wallNs)), es)
    ensures var t := Apply(s, Restart(wallNs));
      StampProtocol.Inv(Run(t, es)) && Dated(Run(t, es), History(NO_LOG, t, es))
  {
    var t := Apply(s, Restart(wallNs));
    InitialInv(s);
    ServiceStep(s, t);
    NoCrashClear(t, es);
    InitialDated(s, wallNs);
    RunDated(t, NO_LOG, es);
  }

  /** Timestamps of dated stamps compare as their instants of issue, each less the response
      delay of its block. */
  lemma DatedCompare(u: State, l: Log)
    requires Dated(u, l)
    ensures forall k, m :: 0 <= k < |u.issued| && 0 <= m < |u.issued| ==>
      (u.issued[k].stamp.tsNs <= u.issued[m].stamp.tsNs <==> IssuedAs(u, l, k) <= IssuedAs(u, l, m))
    ensures forall i, j :: i in l.answered && j in l.answered ==>
      (l.answered[i].firstTsNs <= l.answered[j].firstTsNs <==> l.readAt[i] <= l.readAt[j])
  {
    assert forall k :: 0 <= k < |u.issued| ==> DatedStamp(u.service, l, u.issued[k], l.issuedAt[k]);
  }

  /** The instant the `k`-th stamp was issued, less the response delay of its block. */
  ghost function IssuedAs(u: State, l: Log, k: nat): int
    requires Dated(u, l) && k < |u.issued|
  {
    assert DatedStamp(u.service, l, u.issued[k], l.issuedAt[k]);
    l.issuedAt[k] - Lag(l, u.issued[k].block)
  }

  /** When sequence order and time order agree, over every run of one service without a
      crash. At one gateway, always. Across gateways, for a lower and a higher number, if and
      only if the lower one was issued no later than the higher one, each less the
      response delay of its window. And of two reservations ever answered, whatever became of
      the answers, the earlier has the lower numbers, and they carry timestamps in that order
      if and only if the clock was read for them in that order. */
  lemma SeqAndTimeAgreeIff(s: State, wallNs: int, es: seq<Event>)
    requires Initial(s) && NoCrash(es) && Feasible(Apply(s, Restart(wallNs)), es)
    ensures var t := Apply(s, Restart(wallNs));
      var u, l := Run(t, es), History(NO_LOG, t, es);
      var x := u.issued;
      && Dated(u, l)
      && (forall k, m :: 0 <= k < |x| && 0 <= m < |x| && x[k].stamp.seqNo < x[m].stamp.seqNo ==>
            && (x[k].gateway == x[m].gateway ==> x[k].stamp.tsNs <= x[m].stamp.tsNs)
            && (x[k].stamp.tsNs <= x[m].stamp.tsNs <==> IssuedAs(u, l, k) <= IssuedAs(u, l, m)))
      && (forall i, j :: i in l.answered && j in l.answered && i < j ==>
            && l.answered[i].firstSeq < l.answered[j].firstSeq
            && (l.answered[i].firstTsNs <= l.answered[j].firstTsNs <==> l.readAt[i] <= l.readAt[j]))
  {
    StartedDated(s, wallNs, es);
    StartedMonotone(s, wallNs, es);
    var t := Apply(s, Restart(wallNs));
    var u := Run(t, es);
    DatedCompare(u, History(NO_LOG, t, es));
    assert Ordered(u.blocks) && forall i :: 0 <= i < |u.blocks| ==> u.blocks[i].size > 0;
    SameGatewayAgrees(u.issued);
    assert IncreasingPerGateway(u.issued);
  }

  lemma SameGatewayAgrees(x: seq<Issued>)
    requires IncreasingPerGateway(x) && MonotoneTimes(x)
    ensures forall k, m ::
      0 <= k < |x| && 0 <= m < |x| && x[k].gateway == x[m].gateway && x[k].stamp.seqNo < x[m].stamp.seqNo ==>
        x[k].stamp.tsNs <= x[m].stamp.tsNs
  {
    forall k, m | 0 <= k < |x| && 0 <= m < |x| && x[k].gateway == x[m].gateway && x[k].stamp.seqNo < x[m].stamp.seqNo
      ensures x[k].stamp.tsNs <= x[m].stamp.tsNs
    {
      assert k < m;
    }
  }

  // -- Two ways in which they disagree ---------------------------------------

  /** Two requests handled one right after the other, the clock not read yet. */
  lemma ReserveTwo(s: State, wall: int) returns (es: seq<Event>)
    requires Initial(s) && s.now == 0 && s.disk == None
    ensures Feasible(s, es)
    ensures var t := Run(s, es);
      && t.service == Up(10002, wall, 0) && t.blocks == [Block(0, 10000, 1), Block(1, 10001, 1)]
      && t.unread == {0, 1} && t.replies == map[] && t.issued == [] && t.now == 0
      && GatewayOf(t, 0).waiting == Some(0) && GatewayOf(t, 1).waiting == Some(1)
  {
    es := More(s, [], Restart(wall));
    es := More(s, es, Request(0, 1));
    es := More(s, es, Request(1, 1));
    es := More(s, es, Reserve(0));
    es := More(s, es, Reserve(1));
  }

  /** A reservation reads the clock after it has moved the counter. Here the clock is read
      for the second block first, and five nanoseconds later for the first: the lower number
      carries the later timestamp. */
  lemma LateReadDisagrees(s: State, wall: int) returns (es: seq<Event>)
    requires Initial(s) && s.now == 0 && s.disk == None
    ensures Feasible(s, es)
    ensures var x := Run(s, es).issued;
      |x| == 2 && x[0].stamp.seqNo < x[1].stamp.seqNo && x[0].stamp.tsNs > x[1].stamp.tsNs
  {
    es := ReserveTwo(s, wall);
    es := More(s, es, ReadClock(1));
    es := More(s, es, Tick(5));
    es := More(s, es, ReadClock(0));
    var u := Run(s, es);
    assert u.replies == map[0 := Batch(10000, wall + 5, 100, 1), 1 := Batch(10001, wall, 100, 1)];
    es := More(s, es, Deliver(0, 0, 0));
    es := More(s, es, Deliver(1, 1, 0));
  }

  /** No race and no delay is needed: a gateway goes on issuing from its window after
      another gateway has drawn a higher block. Here gateway 0 holds 10000 and 10001, and
      gateway 1 draws and issues 10002 before gateway 0 issues its second number. */
  lemma LocalWindowDisagrees(s: State, wall: int) returns (es: seq<Event>)
    requires Initial(s) && s.now == 0 && s.disk == None
    ensures Feasible(s, es)
    ensures var x := Run(s, es).issued;
      |x| == 3 && x[2].stamp.seqNo < x[1].stamp.seqNo && x[2].stamp.tsNs > x[1].stamp.tsNs
  {
    es := More(s, [], Restart(wall));
    es := Serve(s, es, 0, 2);
    es := Serve(s, es, 1, 1);
    es := More(s, es, Tick(5));
    es := More(s, es, Issue(0));
  }
}
