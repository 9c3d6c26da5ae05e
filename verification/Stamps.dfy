/** Issuing stamps: the time-service clock (crates/time-service/src/lib.rs, main.rs) and the
    gateway's stamper (apps/fairness-gateway/gateway/stamper.go). Clock readings and RPC
    results are parameters; counters are taken not to reach 2^64. */
module Stamps {
  import opened EngineTypes

  const BATCH_MAX: nat := 65535
  const SAFETY_GAP: nat := 10000
  const DEFAULT_BATCH: nat := 10000

  /** A NextStamps response. */
  datatype Batch = Batch(firstSeq: nat, firstTsNs: int, stepNs: nat, size: nat)

  /** `batch_size.clamp(1, DEFAULT_BATCH_MAX)`. */
  function Clamp(n: nat): (r: nat)
    ensures 1 <= r <= 65535
    ensures 1 <= n <= 65535 ==> r == n
    ensures n > 65535 ==> r == 65535
  {
    if n < 1 then 1 else if n > BATCH_MAX then BATCH_MAX else n
  }

  /** First sequence number after a (re)start: what the watermark file reads as, plus the gap. */
  function StartingSeq(disk: Option<nat>): nat {
    (if disk.Some? then disk.value else 0) + SAFETY_GAP
  }

  /** The time-service process: its counter, and the wall-clock time and monotonic instant
      at which it started. */
  datatype Service = Down | Up(next: nat, boot: int, startedAt: int)

  predicate Among(n: nat, first: nat, size: nat) {
    first <= n < first + size
  }

  ghost function Numbers(first: nat, size: nat): iset<nat> {
    iset n: nat | Among(n, first, size)
  }

  /** The service after reserving `n` numbers. */
  function Granted(service: Service, n: nat): Service
    requires service.Up?
  {
    service.(next := service.next + n)
  }

  /** Server time at monotonic instant `at`. */
  function TimeAt(service: Service, at: int): int
    requires service.Up?
  {
    service.boot + (at - service.startedAt)
  }

  /** What the persister writes. */
  function Watermark(service: Service): nat
    requires service.Up?
  {
    service.next
  }

  /** The response for a reserved block, its clock read at `at`. */
  function Answer(service: Service, first: nat, size: nat, at: int): Batch
    requires service.Up?
  {
    Batch(first, TimeAt(service, at), 100, size)
  }

  class Clock {
    var nextSeq: nat
    const startingSeq: nat
    const bootTsNs: int
    const startedAt: int

    /** Every number reserved so far. */
    ghost var reserved: iset<nat>

    /** They fill the stretch from the start up to the counter exactly. */
    ghost predicate Valid()
      reads this
    {
      startingSeq <= nextSeq && reserved == Numbers(startingSeq, nextSeq - startingSeq)
    }

    function View(): Service
      reads this
    {
      Up(nextSeq, bootTsNs, startedAt)
    }

    constructor (startingSeq: nat, wallNs: int, now: int)
      ensures Valid() && reserved == iset{} && this.startingSeq == startingSeq
      ensures View() == Up(startingSeq, wallNs, now)
    {
      nextSeq, this.startingSeq, bootTsNs, startedAt := startingSeq, startingSeq, wallNs, now;
      reserved := iset{};
    }

    /** Reserve `n` numbers, none of which was reserved before or lies below the start; the
        clock is read at `now`, after the counter has moved. */
    method Reserve(n: nat, now: int) returns (first: nat, tsNs: int)
      requires Valid()
      modifies this
      ensures Valid() && reserved == old(reserved) + Numbers(first, n)
      ensures Numbers(first, n) !! old(reserved) && startingSeq <= first
      ensures first == old(nextSeq) && View() == Granted(old(View()), n)
      ensures tsNs == TimeAt(View(), now) && tsNs - bootTsNs == now - startedAt
    {
      first := nextSeq;
      nextSeq := nextSeq + n;
      reserved := reserved + Numbers(first, n);
      tsNs := bootTsNs + (now - startedAt);
    }

    /** One past the highest number reserved, or the start if none was. */
    method HighWatermark() returns (hwm: nat)
      requires Valid()
      ensures hwm == Watermark(View())
      ensures forall n :: n in reserved ==> n < hwm
      ensures if reserved == iset{} then hwm == startingSeq else hwm > 0 && hwm - 1 in reserved
    {
      hwm := nextSeq;
      assert nextSeq == startingSeq || nextSeq - 1 in reserved;
    }

    /** The RPC handler: a block of the clamped size, none of it reserved before on this
        clock. */
    method NextStamps(batchSize: nat, now: int) returns (b: Batch)
      requires Valid()
      modifies this
      ensures Valid() && reserved == old(reserved) + Numbers(b.firstSeq, b.size)
      ensures Numbers(b.firstSeq, b.size) !! old(reserved)
      ensures b == Answer(View(), old(nextSeq), Clamp(batchSize), now)
      ensures b.firstSeq == old(nextSeq) && b.size == Clamp(batchSize) && b.stepNs == 100
      ensures b.firstTsNs - bootTsNs == now - startedAt
      ensures View() == Granted(old(View()), Clamp(batchSize))
    {
      var n := Clamp(batchSize);
      var first, ts := Reserve(n, now);
      b := Batch(first, ts, 100, n);
    }
  }

  // -- The gateway's local window --------------------------------------------

  datatype Window = Window(nextSeq: nat, endSeq: nat, originTs: int, originAt: int)

  const NO_WINDOW := Window(0, 0, 0, 0)

  datatype Stamp = Stamp(seqNo: nat, tsNs: int)

  predicate Exhausted(w: Window) {
    w.nextSeq >= w.endSeq
  }

  function Refilled(b: Batch, arrivedAt: int): Window {
    Window(b.firstSeq, b.firstSeq + b.size, b.firstTsNs, arrivedAt)
  }

  function StampAt(w: Window, now: int): Stamp {
    Stamp(w.nextSeq, w.originTs + (now - w.originAt))
  }

  function Advanced(w: Window): Window {
    w.(nextSeq := w.nextSeq + 1)
  }

  class Stamper {
    const batchSize: nat
    var nextSeq: nat
    var endSeq: nat
    var originTs: int
    var originAt: int

    constructor (batchSize: nat)
      ensures View() == NO_WINDOW
      ensures batchSize > 0 ==> this.batchSize == batchSize
      ensures batchSize == 0 ==> this.batchSize == 10000
    {
      this.batchSize := if batchSize == 0 then DEFAULT_BATCH else batchSize;
      nextSeq, endSeq, originTs, originAt := 0, 0, 0, 0;
    }

    function View(): Window
      reads this
    {
      Window(nextSeq, endSeq, originTs, originAt)
    }

    /** One stamp. `reply` is the outcome of the refill RPC, called only when the window is
        exhausted, with the batch size `asked`; it arrives at `arrivedAt` and the stamp is
        taken at `now`. */
    method Next(reply: Option<Batch>, arrivedAt: int, now: int) returns (r: Option<Stamp>, asked: Option<nat>)
      modifies this
      ensures asked == if old(nextSeq) >= old(endSeq) then Some(batchSize) else None
      ensures old(nextSeq) >= old(endSeq) && reply.Some? ==>
        && r == Some(Stamp(reply.value.firstSeq, reply.value.firstTsNs + (now - arrivedAt)))
        && nextSeq == reply.value.firstSeq + 1 && endSeq == reply.value.firstSeq + reply.value.size
      ensures old(nextSeq) < old(endSeq) ==>
        && r == Some(Stamp(old(nextSeq), old(originTs) + (now - old(originAt))))
        && nextSeq == old(nextSeq) + 1 && endSeq == old(endSeq)
      ensures old(Exhausted(View())) && reply.None? ==> r == None && View() == old(View())
      ensures old(Exhausted(View())) && reply.Some? ==>
        var w := Refilled(reply.value, arrivedAt);
        r == Some(StampAt(w, now)) && View() == Advanced(w)
      ensures !old(Exhausted(View())) ==>
        r == Some(StampAt(old(View()), now)) && View() == Advanced(old(View()))
    {
      asked := None;
      if nextSeq >= endSeq {
        asked := Some(batchSize);
        if reply.None? {
          return None, asked;
        }
        nextSeq := reply.value.firstSeq;
        endSeq := reply.value.firstSeq + reply.value.size;
        originTs := reply.value.firstTsNs;
        originAt := arrivedAt;
      }
      var seqNo := nextSeq;
      nextSeq := nextSeq + 1;
      return Some(Stamp(seqNo, originTs + (now - originAt))), asked;
    }
  }
}
