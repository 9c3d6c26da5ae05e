/** Restart safety in terms of the watermark file itself: what the persister writes, what a
    crash then leaves to be read, and how much may be reserved in between. */
module Watermarks {
  import opened EngineTypes
  import opened Stamps
  import opened StampProtocol

  /** A service that has just written the file can crash at once and read it back: the file
      is past every number reserved so far. */
  lemma WrittenIsSafe(s: State)
    requires s.service.Up? && LastBelow(s.blocks, s.service.next)
    ensures var t := Apply(s, Persist);
      && t.disk.Some? && LastBelow(s.blocks, t.disk.value) && t.disk.value <= s.service.next
      && SafeCrash(t, Crash(t.disk))
  {
  }

  /** A crash leaves the file as it was written. */
  predicate ReadsFile(s: State, e: Event) {
    e.Crash? ==> e.readsAs == s.disk
  }

  /** Whether this process has written the file, and how many numbers it has reserved since
      it did, or since it started. */
  datatype Tally = Tally(written: bool, since: nat)

  function Counted(w: Tally, s: State, e: Event): Tally
    requires Enabled(s, e)
  {
    match e
    case Reserve(call) => w.(since := w.since + Clamp(s.calls[call].batch))
    case Persist => Tally(true, 0)
    case Restart(_) => Tally(false, 0)
    case _ => w
  }

  /** Nothing was reserved since the process started or wrote the file, or it has written the
      file and reserved at most 10,000 numbers since. */
  predicate InGap(w: Tally) {
    w.since == 0 || (w.written && w.since <= 10000)
  }

  predicate CrashesInGap(w: Tally, s: State, es: seq<Event>)
    requires Feasible(s, es)
    decreases |es|
  {
    es == [] || ((es[0].Crash? ==> InGap(w)) && CrashesInGap(Counted(w, s, es[0]), Apply(s, es[0]), es[1..]))
  }

  ghost predicate TallyOk(s: State, w: Tally) {
    && LastBelow(s.blocks, Horizon(s))
    && (s.service.Up? ==>
          && (if w.written then s.disk.Some? && s.disk.value + w.since == s.service.next
              else StartingSeq(s.disk) + w.since == s.service.next)
          && (w.since > 0 ==> s.blocks != [] && End(s.blocks[|s.blocks| - 1]) == s.service.next))
  }

  lemma StepTally(s: State, w: Tally, e: Event)
    requires TallyOk(s, w) && Enabled(s, e) && SafeCrash(s, e)
    ensures TallyOk(Apply(s, e), Counted(w, s, e))
  {
  }

  /** A crash that leaves the file as written is safe if and only if it happens in the gap. */
  lemma InGapIff(s: State, w: Tally)
    requires TallyOk(s, w) && s.service.Up?
    ensures SafeCrash(s, Crash(s.disk)) <==> InGap(w)
  {
  }

  lemma {:induction false} RunInGapIff(s: State, w: Tally, es: seq<Event>)
    requires TallyOk(s, w) && Feasible(s, es) && AtEveryEvent(ReadsFile, s, es)
    ensures AtEveryEvent(SafeCrash, s, es) <==> CrashesInGap(w, s, es)
    decreases |es|
  {
    if es != [] {
      if es[0].Crash? {
        InGapIff(s, w);
      }
      if SafeCrash(s, es[0]) {
        StepTally(s, w, es[0]);
        RunInGapIff(Apply(s, es[0]), Counted(w, s, es[0]), es[1..]);
      }
    }
  }

  const STARTED := Tally(false, 0)

  /** Over every run in which crashes leave the file as written: all crashes are safe if and
      only if each happens in the gap, and then stamps are unique. */
  lemma FileKeepsUnique(s: State, es: seq<Event>)
    requires Initial(s) && Feasible(s, es) && AtEveryEvent(ReadsFile, s, es)
    ensures AtEveryEvent(SafeCrash, s, es) <==> CrashesInGap(STARTED, s, es)
    ensures CrashesInGap(STARTED, s, es) ==> Unique(Run(s, es))
  {
    RunInGapIff(s, STARTED, es);
    if CrashesInGap(STARTED, s, es) {
      StampsUnique(s, es);
    }
  }

  // -- The gap is used up by the restart -------------------------------------

  lemma {:induction false} ReadMore(s: State, es: seq<Event>, e: Event) returns (more: seq<Event>)
    requires Feasible(s, es) && AtEveryEvent(ReadsFile, s, es) && Enabled(Run(s, es), e) && ReadsFile(Run(s, es), e)
    ensures Feasible(s, more) && AtEveryEvent(ReadsFile, s, more) && Run(s, more) == Apply(Run(s, es), e)
    ensures more == es + [e]
    decreases |es|
  {
    more := es + [e];
    if es == [] {
      assert more[1..] == [];
    } else {
      var tail := ReadMore(Apply(s, es[0]), es[1..], e);
      assert more[1..] == tail;
    }
  }

  lemma ServeRead(s: State, prefix: seq<Event>, g: nat, batch: nat) returns (es: seq<Event>)
    requires Feasible(s, prefix) && AtEveryEvent(ReadsFile, s, prefix)
    requires Run(s, prefix).service.Up? && GatewayOf(Run(s, prefix), g) == Gateway(NO_WINDOW, 0, None)
    ensures Feasible(s, es) && AtEveryEvent(ReadsFile, s, es) && Run(s, es) == Served(Run(s, prefix), g, batch)
    ensures prefix <= es
  {
    var t := Run(s, prefix);
    ServedSteps(t, g, batch);
    es := ReadMore(s, prefix, Request(g, batch));
    es := ReadMore(s, es, Reserve(|t.calls|));
    es := ReadMore(s, es, ReadClock(|t.blocks|));
    es := ReadMore(s, es, Deliver(g, |t.blocks|, 0));
  }

  /** The file is read back as written, one number is reserved by each process, and still two
      gateways issue the same one: a process that crashes after serving and before its
      first write leaves the file from which the next one starts at the same number. */
  lemma CrashBeforeWriteCollides(s: State, wall: int) returns (es: seq<Event>)
    requires Initial(s)
    ensures Feasible(s, es) && AtEveryEvent(ReadsFile, s, es) && !CrashesInGap(STARTED, s, es)
    ensures |es| > 2 && es[1] == Persist
    ensures var t := Run(s, es);
      && |t.blocks| == 3 && (forall i :: 0 <= i < 3 ==> t.blocks[i].size == 1)
      && |t.issued| == 3 && t.issued[1].gateway != t.issued[2].gateway
      && t.issued[1].stamp.seqNo == t.issued[2].stamp.seqNo
  {
    es := ReadMore(s, [], Restart(wall));
    es := ReadMore(s, es, Persist);
    es := ServeRead(s, es, 0, 1);
    var disk := Run(s, es).disk;
    es := ReadMore(s, es, Crash(disk));
    es := ReadMore(s, es, Restart(wall));
    es := ServeRead(s, es, 1, 1);
    es := ReadMore(s, es, Crash(disk));
    es := ReadMore(s, es, Restart(wall));
    es := ServeRead(s, es, 2, 1);
    var x := Run(s, es).issued;
    assert !Unique(Run(s, es)) by {
      assert x[1].stamp.seqNo == x[2].stamp.seqNo;
    }
    if CrashesInGap(STARTED, s, es) {
      FileKeepsUnique(s, es);
    }
  }
}
