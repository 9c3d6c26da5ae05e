/** The stamp protocol as a state machine: one time-service that may crash and restart, any
    number of gateways, requests handled late or more than once, responses lost. Reserved
    blocks are disjoint and increasing if and only if every reservation starts past the
    block reserved before it, and then no sequence number is issued twice; this holds if
    every crash leaves a watermark within the safety gap of the numbers reserved. After one
    crash and restart that is exact for collisions too: if the watermark is further behind,
    the service runs into an earlier block sooner or later. */
module StampProtocol {
  import opened EngineTypes
  import opened Stamps

  /** A NextStamps request; `after` is how many blocks had been reserved when it was sent. */
  datatype Call = Call(gateway: nat, batch: nat, after: nat, sentAt: int)

  datatype Block = Block(call: nat, first: nat, size: nat)

  datatype Gateway = Gateway(window: Window, block: nat, waiting: Option<nat>)

  datatype Issued = Issued(gateway: nat, block: nat, stamp: Stamp)

  datatype State = State(
    now: int,
    service: Service,
    disk: Option<nat>,
    calls: seq<Call>,
    blocks: seq<Block>,
    unread: set<nat>,
    replies: map<nat, Batch>,
    gateways: map<nat, Gateway>,
    issued: seq<Issued>)

  datatype Event =
    | Tick(ns: nat)
    | Request(g: nat, batch: nat)
    | Reserve(call: nat)
    | ReadClock(block: nat)
    | Deliver(g: nat, block: nat, delay: nat)
    | Lose(block: nat)
    | GiveUp(g: nat)
    | Issue(g: nat)
    | GatewayRestart(g: nat)
    | Persist
    | Crash(readsAs: Option<nat>)
    | Restart(wallNs: int)

  function GatewayOf(s: State, g: nat): Gateway {
    if g in s.gateways then s.gateways[g] else Gateway(NO_WINDOW, 0, None)
  }

  predicate Initial(s: State) {
    && s.service.Down? && s.calls == [] && s.blocks == [] && s.issued == []
    && s.unread == {} && s.replies == map[] && s.gateways == map[]
  }

  predicate Enabled(s: State, e: Event) {
    match e
    case Tick(_) => true
    case Request(g, _) => GatewayOf(s, g).waiting.None? && Exhausted(GatewayOf(s, g).window)
    case Reserve(call) => s.service.Up? && call < |s.calls|
    case ReadClock(block) => s.service.Up? && block in s.unread && block < |s.blocks|
    case Deliver(g, block, _) =>
      && block in s.replies && block < |s.blocks|
      && GatewayOf(s, g).waiting == Some(s.blocks[block].call)
    case Lose(_) => true
    case GiveUp(_) => true
    case Issue(g) => GatewayOf(s, g).waiting.None? && !Exhausted(GatewayOf(s, g).window)
    case GatewayRestart(_) => true
    case Persist => s.service.Up?
    case Crash(_) => s.service.Up?
    case Restart(_) => s.service.Down?
  }

  function Apply(s: State, e: Event): State
    requires Enabled(s, e)
  {
    match e
    case Tick(ns) => s.(now := s.now + ns)
    case Request(g, batch) =>
      s.(calls := s.calls + [Call(g, batch, |s.blocks|, s.now)],
         gateways := s.gateways[g := GatewayOf(s, g).(waiting := Some(|s.calls|))])
    case Reserve(call) =>
      var n := Clamp(s.calls[call].batch);
      s.(blocks := s.blocks + [Block(call, s.service.next, n)],
         unread := s.unread + {|s.blocks|},
         service := Granted(s.service, n))
    case ReadClock(block) =>
      var b := s.blocks[block];
      s.(unread := s.unread - {block},
         replies := s.replies[block := Answer(s.service, b.first, b.size, s.now)])
    case Deliver(g, block, delay) =>
      var w := Refilled(s.replies[block], s.now);
      s.(now := s.now + delay,
         replies := s.replies - {block},
         gateways := s.gateways[g := Gateway(Advanced(w), block, None)],
         issued := s.issued + [Issued(g, block, StampAt(w, s.now + delay))])
    case Lose(block) => s.(replies := s.replies - {block})
    case GiveUp(g) => s.(gateways := s.gateways[g := GatewayOf(s, g).(waiting := None)])
    case Issue(g) =>
      var gw := GatewayOf(s, g);
      s.(gateways := s.gateways[g := gw.(window := Advanced(gw.window))],
         issued := s.issued + [Issued(g, gw.block, StampAt(gw.window, s.now))])
    case GatewayRestart(g) => s.(gateways := s.gateways[g := Gateway(NO_WINDOW, 0, None)])
    case Persist => s.(disk := Some(Watermark(s.service)))
    case Crash(readsAs) => s.(service := Down, disk := readsAs, unread := {})
    case Restart(wallNs) => s.(service := Up(StartingSeq(s.disk), wallNs, s.now))
  }

  predicate Feasible(s: State, es: seq<Event>)
    decreases |es|
  {
    es == [] || (Enabled(s, es[0]) && Feasible(Apply(s, es[0]), es[1..]))
  }

  ghost predicate AtEveryEvent(ok: (State, Event) -> bool, s: State, es: seq<Event>)
    requires Feasible(s, es)
    decreases |es|
  {
    es == [] || (ok(s, es[0]) && AtEveryEvent(ok, Apply(s, es[0]), es[1..]))
  }

  function Run(s: State, es: seq<Event>): State
    requires Feasible(s, es)
    decreases |es|
  {
    if es == [] then s else Run(Apply(s, es[0]), es[1..])
  }

  // -- Invariant -------------------------------------------------------------

  function End(b: Block): nat {
    b.first + b.size
  }

  /** Blocks never overlap and keep increasing. */
  ghost predicate Ordered(blocks: seq<Block>) {
    forall i, j :: 0 <= i < j < |blocks| ==> End(blocks[i]) <= blocks[j].first
  }

  /** Every block reserved so far lies below `n`. As blocks keep increasing, the last one
      decides. */
  predicate LastBelow(blocks: seq<Block>, n: nat) {
    blocks == [] || End(blocks[|blocks| - 1]) <= n
  }

  /** A reservation starts past the last block reserved. */
  predicate Clear(s: State, e: Event) {
    e.Reserve? && s.service.Up? ==> LastBelow(s.blocks, s.service.next)
  }

  ghost predicate BlocksOk(s: State) {
    && Ordered(s.blocks)
    && (forall i :: 0 <= i < |s.blocks| ==>
          s.blocks[i].call < |s.calls| && s.calls[s.blocks[i].call].after <= i && s.blocks[i].size > 0)
    && (forall c :: 0 <= c < |s.calls| ==> s.calls[c].after <= |s.blocks|)
  }

  ghost predicate Fresh(s: State, block: nat) {
    block < |s.blocks| && forall k :: 0 <= k < |s.issued| ==> s.issued[k].block != block
  }

  /** A response in flight carries a block nobody has drawn from. */
  ghost predicate RepliesOk(s: State) {
    && (forall b :: b in s.unread ==> Fresh(s, b))
    && (forall b :: b in s.replies ==>
          && b !in s.unread && Fresh(s, b)
          && s.replies[b].firstSeq == s.blocks[b].first && s.replies[b].size == s.blocks[b].size)
  }

  function Owner(s: State, block: nat): nat
    requires block < |s.blocks| && s.blocks[block].call < |s.calls|
  {
    s.calls[s.blocks[block].call].gateway
  }

  /** An issued number lies in a block reserved for its issuer. */
  ghost predicate InOwnBlock(s: State, x: Issued) {
    && x.block < |s.blocks| && s.blocks[x.block].call < |s.calls|
    && Owner(s, x.block) == x.gateway
    && s.blocks[x.block].first <= x.stamp.seqNo < End(s.blocks[x.block])
  }

  /** A gateway still holding numbers holds the rest of the block it last received; a
      waiting gateway has drawn only from blocks older than its call. */
  ghost predicate GatewayOk(s: State, g: nat) {
    var gw := GatewayOf(s, g);
    && (!Exhausted(gw.window) ==>
          && gw.waiting.None?
          && gw.block < |s.blocks| && s.blocks[gw.block].call < |s.calls| && Owner(s, gw.block) == g
          && s.blocks[gw.block].first <= gw.window.nextSeq && gw.window.endSeq == End(s.blocks[gw.block])
          && gw.block !in s.unread && gw.block !in s.replies
          && (forall k :: 0 <= k < |s.issued| && s.issued[k].gateway == g ==>
                s.issued[k].block <= gw.block && (s.issued[k].block == gw.block ==> s.issued[k].stamp.seqNo < gw.window.nextSeq)))
    && (gw.waiting.Some? ==>
          && gw.waiting.value < |s.calls| && s.calls[gw.waiting.value].gateway == g
          && (forall k :: 0 <= k < |s.issued| && s.issued[k].gateway == g ==>
                s.issued[k].block < s.calls[gw.waiting.value].after))
  }

  /** Each gateway's numbers strictly increase. */
  ghost predicate IncreasingPerGateway(issued: seq<Issued>) {
    forall k, l :: 0 <= k < l < |issued| && issued[k].gateway == issued[l].gateway ==>
      issued[k].stamp.seqNo < issued[l].stamp.seqNo
  }

  ghost predicate IssuedOk(s: State) {
    forall k :: 0 <= k < |s.issued| ==> InOwnBlock(s, s.issued[k])
  }

  ghost predicate GatewaysOk(s: State) {
    forall g :: GatewayOk(s, g)
  }

  ghost predicate Inv(s: State) {
    BlocksOk(s) && RepliesOk(s) && IssuedOk(s) && GatewaysOk(s) && IncreasingPerGateway(s.issued)
  }

  // -- Steps -----------------------------------------------------------------

  lemma InitialInv(s: State)
    requires Initial(s)
    ensures Inv(s)
  {
    forall g
      ensures GatewayOk(s, g)
    {
      assert GatewayOf(s, g).window == NO_WINDOW;
    }
  }

  /** Only the clock, the disk or the service changes. */
  lemma ServiceStep(s: State, s': State)
    requires Inv(s)
    requires s' == s.(now := s'.now, service := s'.service, disk := s'.disk, unread := s'.unread)
    requires s'.unread <= s.unread
    ensures Inv(s')
  {
    forall g
      ensures GatewayOk(s', g)
    {
      assert GatewayOk(s, g);
    }
    assert forall k :: 0 <= k < |s.issued| ==> InOwnBlock(s, s.issued[k]) ==> InOwnBlock(s', s.issued[k]);
    assert forall b :: Fresh(s, b) ==> Fresh(s', b);
  }

  lemma RequestStep(s: State, g: nat, batch: nat)
    requires Inv(s) && Enabled(s, Request(g, batch))
    ensures Inv(Apply(s, Request(g, batch)))
  {
    var s' := Apply(s, Request(g, batch));
    forall h
      ensures GatewayOk(s', h)
    {
      RequestKeepsGateway(s, g, batch, h);
    }
    forall k | 0 <= k < |s.issued|
      ensures InOwnBlock(s', s'.issued[k])
    {
      assert InOwnBlock(s, s.issued[k]);
    }
    assert forall b :: Fresh(s, b) ==> Fresh(s', b);
  }

  lemma RequestKeepsGateway(s: State, g: nat, batch: nat, h: nat)
    requires Inv(s) && Enabled(s, Request(g, batch))
    ensures GatewayOk(Apply(s, Request(g, batch)), h)
  {
    assert GatewayOk(s, h);
    if h == g {
      assert forall k :: 0 <= k < |s.issued| ==> InOwnBlock(s, s.issued[k]);
    }
  }

  lemma ReserveStep(s: State, call: nat)
    requires Inv(s) && Enabled(s, Reserve(call)) && Clear(s, Reserve(call))
    ensures Inv(Apply(s, Reserve(call)))
  {
    var s' := Apply(s, Reserve(call));
    AppendOrdered(s.blocks, Block(call, s.service.next, Clamp(s.calls[call].batch)));
    ReserveKeepsReplies(s, call);
    forall k | 0 <= k < |s.issued|
      ensures InOwnBlock(s', s'.issued[k])
    {
      assert InOwnBlock(s, s.issued[k]);
    }
    forall g
      ensures GatewayOk(s', g)
    {
      ReserveKeepsGateway(s, call, g);
    }
  }

  /** Blocks stay disjoint and increasing when one is added if and only if it starts past
      the last one. */
  lemma AppendOrdered(blocks: seq<Block>, b: Block)
    requires Ordered(blocks)
    ensures Ordered(blocks + [b]) <==> LastBelow(blocks, b.first)
  {
    var all := blocks + [b];
    var n := |blocks|;
    if n > 0 {
      assert all[n - 1] == blocks[n - 1] && all[n] == b;
      assert forall i :: 0 <= i < n - 1 ==> End(blocks[i]) <= blocks[n - 1].first;
    }
  }

  lemma ReserveKeepsReplies(s: State, call: nat)
    requires Inv(s) && Enabled(s, Reserve(call))
    ensures RepliesOk(Apply(s, Reserve(call)))
  {
    var s' := Apply(s, Reserve(call));
    assert forall i :: 0 <= i < |s.blocks| ==> s'.blocks[i] == s.blocks[i];
    assert forall b :: Fresh(s, b) ==> Fresh(s', b);
    assert Fresh(s', |s.blocks|) by {
      assert forall k :: 0 <= k < |s.issued| ==> InOwnBlock(s, s.issued[k]);
    }
  }

  lemma ReserveKeepsGateway(s: State, call: nat, g: nat)
    requires Inv(s) && Enabled(s, Reserve(call))
    ensures GatewayOk(Apply(s, Reserve(call)), g)
  {
    assert GatewayOk(s, g);
  }

  lemma ReadClockStep(s: State, block: nat)
    requires Inv(s) && Enabled(s, ReadClock(block))
    ensures Inv(Apply(s, ReadClock(block)))
  {
    var s' := Apply(s, ReadClock(block));
    forall k | 0 <= k < |s.issued|
      ensures InOwnBlock(s', s'.issued[k])
    {
      assert InOwnBlock(s, s.issued[k]);
    }
    forall g
      ensures GatewayOk(s', g)
    {
      assert GatewayOk(s, g);
    }
    assert forall b :: Fresh(s, b) ==> Fresh(s', b);
  }

  lemma LoseStep(s: State, block: nat)
    requires Inv(s)
    ensures Inv(Apply(s, Lose(block)))
  {
    var s' := Apply(s, Lose(block));
    forall k | 0 <= k < |s.issued|
      ensures InOwnBlock(s', s'.issued[k])
    {
      assert InOwnBlock(s, s.issued[k]);
    }
    forall g
      ensures GatewayOk(s', g)
    {
      assert GatewayOk(s, g);
    }
    assert forall b :: Fresh(s, b) ==> Fresh(s', b);
  }

  /** A gateway that stops waiting, keeping or losing its window. */
  lemma GatewayStep(s: State, g: nat, gw: Gateway)
    requires Inv(s) && gw.waiting.None?
    requires Exhausted(gw.window) || gw == GatewayOf(s, g).(waiting := None)
    ensures Inv(s.(gateways := s.gateways[g := gw]))
  {
    var s' := s.(gateways := s.gateways[g := gw]);
    forall k | 0 <= k < |s.issued|
      ensures InOwnBlock(s', s'.issued[k])
    {
      assert InOwnBlock(s, s.issued[k]);
    }
    forall h
      ensures GatewayOk(s', h)
    {
      assert GatewayOk(s, h);
    }
    assert forall b :: Fresh(s, b) ==> Fresh(s', b);
  }

  /** `x` is issued from a block owned by its gateway that no response carries, and is
      later than everything that gateway issued before. */
  ghost predicate Issues(s: State, s': State, x: Issued, gw: Gateway) {
    && InOwnBlock(s, x)
    && s' == s.(now := s'.now, replies := s.replies - {x.block}, gateways := s.gateways[x.gateway := gw], issued := s.issued + [x])
    && x.block !in s.unread
    && gw.waiting.None? && gw.block == x.block && gw.window.nextSeq == x.stamp.seqNo + 1
    && gw.window.endSeq == End(s.blocks[x.block])
    && Latest(s, x)
  }

  ghost predicate Latest(s: State, x: Issued) {
    forall k :: 0 <= k < |s.issued| && s.issued[k].gateway == x.gateway ==>
      s.issued[k].block < x.block || (s.issued[k].block == x.block && s.issued[k].stamp.seqNo < x.stamp.seqNo)
  }

  lemma IssueStep(s: State, s': State, x: Issued, gw: Gateway)
    requires Inv(s) && Issues(s, s', x, gw)
    ensures Inv(s')
  {
    forall k | 0 <= k < |s'.issued|
      ensures InOwnBlock(s', s'.issued[k])
    {
      assert k < |s.issued| ==> InOwnBlock(s, s.issued[k]);
    }
    LatestIsLargest(s, x);
    forall g
      ensures GatewayOk(s', g)
    {
      IssueKeepsGateway(s, s', x, gw, g);
    }
    IssueKeepsReplies(s, s', x, gw);
  }

  lemma IssueKeepsReplies(s: State, s': State, x: Issued, gw: Gateway)
    requires Inv(s) && Issues(s, s', x, gw)
    ensures RepliesOk(s')
  {
    assert forall b :: Fresh(s, b) && b != x.block ==> Fresh(s', b);
  }

  lemma IssueKeepsGateway(s: State, s': State, x: Issued, gw: Gateway, g: nat)
    requires Inv(s) && Issues(s, s', x, gw)
    ensures GatewayOk(s', g)
  {
    assert GatewayOk(s, g);
    if g == x.gateway {
      assert GatewayOf(s', g) == gw;
    } else {
      assert GatewayOf(s', g) == GatewayOf(s, g);
      assert forall k :: 0 <= k < |s'.issued| && s'.issued[k].gateway == g ==> k < |s.issued|;
    }
  }

  lemma LatestIsLargest(s: State, x: Issued)
    requires Inv(s) && InOwnBlock(s, x) && Latest(s, x)
    ensures IncreasingPerGateway(s.issued + [x])
  {
  }

  lemma DeliverStep(s: State, g: nat, block: nat, delay: nat)
    requires Inv(s) && Enabled(s, Deliver(g, block, delay))
    ensures Inv(Apply(s, Deliver(g, block, delay)))
  {
    assert GatewayOk(s, g);
    var w := Refilled(s.replies[block], s.now);
    var x := Issued(g, block, StampAt(w, s.now + delay));
    IssueStep(s, Apply(s, Deliver(g, block, delay)), x, Gateway(Advanced(w), block, None));
  }

  lemma LocalIssueStep(s: State, g: nat)
    requires Inv(s) && Enabled(s, Issue(g))
    ensures Inv(Apply(s, Issue(g)))
  {
    assert GatewayOk(s, g);
    var gw := GatewayOf(s, g);
    var x := Issued(g, gw.block, StampAt(gw.window, s.now));
    assert s.replies - {gw.block} == s.replies;
    IssueStep(s, Apply(s, Issue(g)), x, gw.(window := Advanced(gw.window)));
  }

  lemma StepInv(s: State, e: Event)
    requires Inv(s) && Enabled(s, e) && Clear(s, e)
    ensures Inv(Apply(s, e))
  {
    match e
    case Request(g, batch) => RequestStep(s, g, batch);
    case Reserve(call) => ReserveStep(s, call);
    case ReadClock(block) => ReadClockStep(s, block);
    case Deliver(g, block, delay) => DeliverStep(s, g, block, delay);
    case Lose(block) => LoseStep(s, block);
    case GiveUp(g) => GatewayStep(s, g, GatewayOf(s, g).(waiting := None));
    case Issue(g) => LocalIssueStep(s, g);
    case GatewayRestart(g) => GatewayStep(s, g, Gateway(NO_WINDOW, 0, None));
    case _ => ServiceStep(s, Apply(s, e));
  }

  lemma {:induction false} RunInv(s: State, es: seq<Event>)
    requires Inv(s) && Feasible(s, es) && AtEveryEvent(Clear, s, es)
    ensures Inv(Run(s, es))
    decreases |es|
  {
    if es != [] {
      StepInv(s, es[0]);
      RunInv(Apply(s, es[0]), es[1..]);
    }
  }

  // -- Main results ----------------------------------------------------------

  /** Reserved blocks are disjoint and increasing, no sequence number is issued twice,
      each was reserved for the gateway that issued it, and each gateway's numbers
      strictly increase. */
  ghost predicate Unique(t: State) {
    && Ordered(t.blocks)
    && IssuedOk(t)
    && IncreasingPerGateway(t.issued)
    && (forall k, l :: 0 <= k < l < |t.issued| ==> t.issued[k].stamp.seqNo != t.issued[l].stamp.seqNo)
  }

  lemma InvUnique(t: State)
    requires Inv(t)
    ensures Unique(t)
  {
  }

  lemma ClearRunUnique(s: State, es: seq<Event>)
    requires Initial(s) && Feasible(s, es) && AtEveryEvent(Clear, s, es)
    ensures Unique(Run(s, es))
  {
    InitialInv(s);
    RunInv(s, es);
    InvUnique(Run(s, es));
  }

  lemma {:induction false} OverlapStays(s: State, es: seq<Event>)
    requires Feasible(s, es) && !Ordered(s.blocks)
    ensures !Ordered(Run(s, es).blocks)
    decreases |es|
  {
    if es != [] {
      assert s.blocks <= Apply(s, es[0]).blocks;
      OverlapStays(Apply(s, es[0]), es[1..]);
    }
  }

  lemma {:induction false} OverlapAppears(s: State, es: seq<Event>)
    requires Inv(s) && Feasible(s, es) && !AtEveryEvent(Clear, s, es)
    ensures !Ordered(Run(s, es).blocks)
    decreases |es|
  {
    if Clear(s, es[0]) {
      StepInv(s, es[0]);
      OverlapAppears(Apply(s, es[0]), es[1..]);
    } else {
      var call := es[0].call;
      AppendOrdered(s.blocks, Block(call, s.service.next, Clamp(s.calls[call].batch)));
      OverlapStays(Apply(s, es[0]), es[1..]);
    }
  }

  /** Over every interleaving, crashes anywhere with anything left on disk: blocks are
      disjoint and increasing if and only if every reservation starts past the block reserved
      before it, and then no number is issued twice. (A service that starts below an earlier
      block can still stop short of it, and so keep its blocks disjoint but not
      increasing.) */
  lemma UniqueIff(s: State, es: seq<Event>)
    requires Initial(s) && Feasible(s, es)
    ensures Unique(Run(s, es)) <==> AtEveryEvent(Clear, s, es)
    ensures Ordered(Run(s, es).blocks) <==> AtEveryEvent(Clear, s, es)
  {
    if AtEveryEvent(Clear, s, es) {
      ClearRunUnique(s, es);
    } else {
      InitialInv(s);
      OverlapAppears(s, es);
    }
  }

  // -- Restarts --------------------------------------------------------------

  /** At a crash, every number reserved so far is within the gap of what the file reads. */
  predicate SafeCrash(s: State, e: Event) {
    e.Crash? ==> LastBelow(s.blocks, StartingSeq(e.readsAs))
  }

  /** The next number the service will hand out, now or after a restart. */
  function Horizon(s: State): nat {
    if s.service.Up? then s.service.next else StartingSeq(s.disk)
  }

  lemma {:induction false} SafeCrashesClear(s: State, es: seq<Event>)
    requires Feasible(s, es) && AtEveryEvent(SafeCrash, s, es) && LastBelow(s.blocks, Horizon(s))
    ensures AtEveryEvent(Clear, s, es)
    decreases |es|
  {
    if es != [] {
      SafeCrashesClear(Apply(s, es[0]), es[1..]);
    }
  }

  /** Stamps are unique in every run whose crashes are safe. */
  lemma StampsUnique(s: State, es: seq<Event>)
    requires Initial(s) && Feasible(s, es) && AtEveryEvent(SafeCrash, s, es)
    ensures Unique(Run(s, es))
  {
    SafeCrashesClear(s, es);
    UniqueIff(s, es);
  }

  /** Whatever was reserved before, the first block after a crash and restart lies above all
      earlier ones if and only if the crash was safe, that is, the last number reserved was
      within the gap of what the file reads as. */
  lemma RestartSafeIff(s: State, readsAs: Option<nat>, wallNs: int, call: nat)
    requires Ordered(s.blocks) && s.service.Up? && call < |s.calls|
    ensures var t := Apply(Apply(s, Crash(readsAs)), Restart(wallNs));
      Ordered(Apply(t, Reserve(call)).blocks) <==>
        s.blocks == []
        || End(s.blocks[|s.blocks| - 1]) <= (if readsAs.Some? then readsAs.value else 0) + 10000
  {
    AppendOrdered(s.blocks, Block(call, StartingSeq(readsAs), Clamp(s.calls[call].batch)));
  }

  /** No number belongs to two blocks. */
  ghost predicate Disjoint(blocks: seq<Block>) {
    forall i, j :: 0 <= i < j < |blocks| ==>
      End(blocks[i]) <= blocks[j].first || End(blocks[j]) <= blocks[i].first
  }

  predicate Known(s: State, calls: seq<nat>) {
    forall i :: 0 <= i < |calls| ==> calls[i] < |s.calls|
  }

  /** The service handles these calls one after another, any of them any number of times. */
  function Reserves(s: State, calls: seq<nat>): (t: State)
    requires s.service.Up? && Known(s, calls)
    ensures t.service.Up? && t.calls == s.calls
  {
    if calls == [] then s
    else Apply(Reserves(s, calls[..|calls| - 1]), Reserve(calls[|calls| - 1]))
  }

  lemma {:induction false} ReservesOrdered(s: State, calls: seq<nat>)
    requires s.service.Up? && Known(s, calls)
    requires Ordered(s.blocks) && LastBelow(s.blocks, s.service.next)
    ensures var t := Reserves(s, calls);
      Ordered(t.blocks) && LastBelow(t.blocks, t.service.next)
  {
    if calls != [] {
      var t := Reserves(s, calls[..|calls| - 1]);
      ReservesOrdered(s, calls[..|calls| - 1]);
      AppendOrdered(t.blocks, Block(calls[|calls| - 1], t.service.next, Clamp(s.calls[calls[|calls| - 1]].batch)));
    }
  }

  /** A service that starts at or below a number of an earlier block reserves that number
      again, sooner or later. */
  lemma {:induction false} RunsInto(s: State, k: nat, n: nat, calls: seq<nat>) returns (more: seq<nat>)
    requires s.service.Up? && Known(s, calls) && k < |s.blocks| && s.blocks[k].call < |s.calls|
    requires s.blocks[k].first <= n < End(s.blocks[k])
    requires Reserves(s, calls).service.next <= n && s.blocks <= Reserves(s, calls).blocks
    ensures Known(s, more) && !Disjoint(Reserves(s, more).blocks)
    decreases n - Reserves(s, calls).service.next
  {
    var t := Reserves(s, calls);
    more := calls + [s.blocks[k].call];
    assert more[..|more| - 1] == calls;
    var u := Reserves(s, more);
    assert u == Apply(t, Reserve(s.blocks[k].call));
    if u.service.next <= n {
      more := RunsInto(s, k, n, more);
    } else {
      assert u.blocks[|t.blocks|].first <= n < End(u.blocks[|t.blocks|]);
      assert u.blocks[k] == s.blocks[k];
    }
  }

  /** Restarts never collide, exactly when: after a crash and restart no sequence of
      reservations ever runs into an earlier block if and only if the crash was safe. */
  lemma NeverCollidesIff(s: State, readsAs: Option<nat>, wallNs: int)
    requires Inv(s) && s.service.Up?
    ensures var t := Apply(Apply(s, Crash(readsAs)), Restart(wallNs));
      (forall calls: seq<nat> :: Known(t, calls) ==> Disjoint(Reserves(t, calls).blocks))
      <==> LastBelow(s.blocks, StartingSeq(readsAs))
  {
    var t := Apply(Apply(s, Crash(readsAs)), Restart(wallNs));
    if LastBelow(s.blocks, StartingSeq(readsAs)) {
      forall calls: seq<nat> | Known(t, calls)
        ensures Disjoint(Reserves(t, calls).blocks)
      {
        ReservesOrdered(t, calls);
      }
    } else {
      var k := |s.blocks| - 1;
      var n: nat := End(s.blocks[k]) - 1;
      var calls := RunsInto(t, k, n, []);
    }
  }

  /** The same at every state that a run with increasing blocks reaches. */
  lemma CrashCollidesIff(s: State, es: seq<Event>, readsAs: Option<nat>, wallNs: int)
    requires Initial(s) && Feasible(s, es) && AtEveryEvent(Clear, s, es) && Run(s, es).service.Up?
    ensures var u := Run(s, es);
      var t := Apply(Apply(u, Crash(readsAs)), Restart(wallNs));
      (forall calls: seq<nat> :: Known(t, calls) ==> Disjoint(Reserves(t, calls).blocks))
      <==> SafeCrash(u, Crash(readsAs))
  {
    InitialInv(s);
    RunInv(s, es);
    NeverCollidesIff(Run(s, es), readsAs, wallNs);
  }

  /** What may not happen after something was lost: a restarted gateway has to ask again, a
      lost response is never delivered, a gateway that gave up takes no late one, and a
      service that went down answers nothing it had reserved. */
  lemma LostIsLost(s: State, g: nat, block: nat, batch: nat, delay: nat, readsAs: Option<nat>, wallNs: int)
    ensures var t := Apply(s, GatewayRestart(g));
      !Enabled(t, Issue(g)) && !Enabled(t, Deliver(g, block, delay)) && Enabled(t, Request(g, batch))
    ensures !Enabled(Apply(s, Lose(block)), Deliver(g, block, delay))
    ensures !Enabled(Apply(s, GiveUp(g)), Deliver(g, block, delay))
    ensures s.service.Up? ==>
      && !Enabled(Apply(s, Crash(readsAs)), Reserve(batch)) && !Enabled(Apply(s, Crash(readsAs)), Persist)
      && !Enabled(Apply(Apply(s, Crash(readsAs)), Restart(wallNs)), ReadClock(block))
  {
  }

  // -- A run that repeats numbers --------------------------------------------

  /** A run, one event longer. */
  lemma {:induction false} More(s: State, es: seq<Event>, e: Event) returns (more: seq<Event>)
    requires Feasible(s, es) && Enabled(Run(s, es), e)
    ensures more == es + [e] && Feasible(s, more) && Run(s, more) == Apply(Run(s, es), e)
    decreases |es|
  {
    more := es + [e];
    if es == [] {
      assert more[1..] == [];
    } else {
      var tail := More(Apply(s, es[0]), es[1..], e);
      assert more[1..] == tail;
    }
  }

  /** `t` after one request of gateway `g` that is answered at once. */
  function Served(t: State, g: nat, batch: nat): State
    requires t.service.Up?
  {
    var n, b, first := Clamp(batch), |t.blocks|, t.service.next;
    var ts := TimeAt(t.service, t.now);
    t.(calls := t.calls + [Call(g, batch, b, t.now)],
       blocks := t.blocks + [Block(|t.calls|, first, n)],
       service := Granted(t.service, n),
       unread := t.unread - {b},
       replies := t.replies - {b},
       gateways := t.gateways[g := Gateway(Window(first + 1, first + n, ts, t.now), b, None)],
       issued := t.issued + [Issued(g, b, Stamp(first, ts))])
  }

  lemma ServedSteps(t: State, g: nat, batch: nat)
    requires t.service.Up? && GatewayOf(t, g).waiting.None? && Exhausted(GatewayOf(t, g).window)
    ensures var t1 := Apply(t, Request(g, batch));
      Enabled(t1, Reserve(|t.calls|)) &&
      var t2 := Apply(t1, Reserve(|t.calls|));
      Enabled(t2, ReadClock(|t.blocks|)) &&
      var t3 := Apply(t2, ReadClock(|t.blocks|));
      Enabled(t3, Deliver(g, |t.blocks|, 0)) && Apply(t3, Deliver(g, |t.blocks|, 0)) == Served(t, g, batch)
  {
    var t1 := Apply(t, Request(g, batch));
    var t2 := Apply(t1, Reserve(|t.calls|));
    var t3 := Apply(t2, ReadClock(|t.blocks|));
    var t4 := Apply(t3, Deliver(g, |t.blocks|, 0));
    assert t4.gateways == Served(t, g, batch).gateways;
    assert t4.unread == Served(t, g, batch).unread && t4.replies == Served(t, g, batch).replies;
  }

  lemma Serve(s: State, prefix: seq<Event>, g: nat, batch: nat) returns (es: seq<Event>)
    requires Feasible(s, prefix)
    requires var gw := GatewayOf(Run(s, prefix), g);
      Run(s, prefix).service.Up? && gw.waiting.None? && Exhausted(gw.window)
    ensures Feasible(s, es) && Run(s, es) == Served(Run(s, prefix), g, batch)
  {
    var t := Run(s, prefix);
    ServedSteps(t, g, batch);
    es := More(s, prefix, Request(g, batch));
    es := More(s, es, Reserve(|t.calls|));
    es := More(s, es, ReadClock(|t.blocks|));
    es := More(s, es, Deliver(g, |t.blocks|, 0));
  }

  /** On first boot, a crash before the first watermark write makes two gateways issue the
      same number: gateway 0 is served and issues 10000, the service dies, and after a
      restart gateway 1 is served the same block. */
  lemma FirstBootOverlaps(s: State, wall: int) returns (es: seq<Event>)
    requires Initial(s) && s.disk == None
    ensures Feasible(s, es) && !AtEveryEvent(SafeCrash, s, es)
    ensures var x := Run(s, es).issued;
      |x| == 2 && x[0].gateway != x[1].gateway && x[0].stamp.seqNo == x[1].stamp.seqNo == 10000
  {
    es := More(s, [], Restart(wall));
    es := Serve(s, es, 0, 100);
    es := More(s, es, Crash(None));
    es := More(s, es, Restart(wall));
    es := Serve(s, es, 1, 100);
    var x := Run(s, es).issued;
    assert !Unique(Run(s, es)) by {
      assert x[0].stamp.seqNo == x[1].stamp.seqNo;
    }
    if AtEveryEvent(SafeCrash, s, es) {
      StampsUnique(s, es);
    }
  }

  /** Disjoint is less than increasing: a service that lost a high watermark reserves far
      below its earlier block, and has not run into it yet. */
  lemma LowBlocksDisjoint(s: State, wall: int) returns (es: seq<Event>)
    requires Initial(s) && s.disk == Some(50000)
    ensures Feasible(s, es) && !AtEveryEvent(Clear, s, es)
    ensures Run(s, es).blocks == [Block(0, 60000, 100), Block(1, 10000, 100)]
    ensures Disjoint(Run(s, es).blocks) && !Ordered(Run(s, es).blocks)
  {
    es := More(s, [], Restart(wall));
    es := Serve(s, es, 0, 100);
    es := More(s, es, Crash(None));
    es := More(s, es, Restart(wall));
    es := Serve(s, es, 1, 100);
    var blocks := Run(s, es).blocks;
    assert End(blocks[0]) > blocks[1].first;
    UniqueIff(s, es);
  }
}
