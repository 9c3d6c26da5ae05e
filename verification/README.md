# IronBook in Dafny

A model, in Dafny 4.11, of the parts of IronBook whose correctness is not visible from one
function body, with proofs of what they promise:

- **Matching engine** (`EngineTypes`, `MatchSpec`, `Sweeps`, `Rules`, `Ladders`, `OrderBooks`,
  `BookRuns`, `Conservation`, `Priority`, `Index`, `Snapshots`, `Replays`). `MatchSpec` is the
  reference: each side is one flat queue in price-time order and a taker trades greedily
  with its head. `OrderBooks.OrderBook` is the book as the engine keeps it, sorted price
  levels of FIFO queues, an id index and a trade-id counter, updated in place by nested
  loops; every method is proved to do to the flattened book exactly what the reference
  says, on every book whose keys are ordered, empty levels and zero quantities included.
  Since ordered ladders without empty levels are determined by their flattening
  (`Ladders.FlatInjective`), that fixes the final levels too. The whole-run theorems are
  about the reference, for every sequence of submissions, cancels, direct rests and
  snapshot reloads, and `Replays.Replay` carries them over to the mutable book.
- **Stamp protocol** (`Stamps`, `StampProtocol`, `Watermarks`, `StampTimes`). The
  time-service clock and the gateway stamper as classes, and the protocol between one
  service and any number of gateways as a state machine with late and repeated request handling, lost responses,
  gateway restarts, service crashes with any watermark left on disk, and restarts.
- **BenchmarkRun reconciler** (`RunController`, `RunCluster`, `RunPhases`, `RunPods`,
  `RunPaths`). One pass over an in-memory copy of the object, and passes against a cluster:
  stale reads, stale pod lists, one API call at a time, interruption anywhere,
  version-checked writes.
- **Fan-out log** (`FanOut`). Any number of concurrent `Process` calls on one log.
- **Translation** (`ByteCodec`, `Wire`, `Schedule`, `EndToEnd`). REST order to wire order to
  engine order, the schedule compiler, the bytes its hash covers, and one theorem that
  takes a compiled schedule through the stamp protocol and any order of arrival into the
  book.

Reading the proofs: a side of a book is kept best price first, so `asks` is the price map
in iteration order and `bids` is the map iterated from the back; snapshots list both in
increasing price as the source does. `u128` shifts and masks are written as division and
remainder by 2^64. `Matched(ops)` says nothing is rested directly; `IncreasingSeqs(ops)`
that orders arrive in sequence order. `Throughout(good, b, ops)` says every book of a run is
good, `AtEveryStep(keeps, b, ops)` that every operation of it meets a condition on the book
it finds; where a property can fail, a theorem says that the first holds if and only if the
second does, and a run from the empty book shows it failing.

Where the code and its comments differ the model follows the code:

- `book.rs` says queues are in `platform_seq` order. They are in arrival order, which the
  gateway does not tie to the stamps: `Priority.FifoThroughout` says exactly when they are
  in sequence order, and `Priority.OvertakenRun` is a run in which they are not.
- `main.rs` of the time-service says restarts never collide.
  `StampProtocol.NeverCollidesIff` gives the exact condition for one restart, and
  `StampProtocol.FirstBootOverlaps` a first boot after which two gateways issue the same
  number; `Watermarks.FileKeepsUnique` says it in terms of what the persister wrote, and
  `Watermarks.CrashBeforeWriteCollides` shows that the gap does not cover a second crash.
  Over whole runs `StampProtocol.UniqueIff` says exactly when blocks are disjoint and
  increasing, which is more than disjoint (`StampProtocol.LowBlocksDisjoint`).
- `match_engine.rs` describes the pre-flight as "would a sweep fill `qty` units"; for
  quantity 0 it answers false when nothing crosses. `MatchSpec.Fillable` has that extra
  conjunct, `Sweeps.PreflightDescribedIff` says exactly when the description is right, and
  `Sweeps.FillOrKill` shows the outcome is all-or-nothing all the same.

## Model

| member | source | states |
|---|---|---|
| EngineTypes.PackIdRoundTrip | crates/matching-engine/src/types.rs:61-76 | packing a bot id and a local sequence into an id and taking it apart are inverse in both directions |
| MatchSpec.JoinAt | crates/matching-engine/src/book.rs:62-73 | an order joins behind everything at least as good as its price and directly ahead of something worse, if there is any |
| MatchSpec.Find | crates/matching-engine/src/book.rs:86-91 | the first entry with that price and id, or the length when there is none |
| Sweeps.GreedyTradesPrefix | crates/matching-engine/src/match_engine.rs:33-74 | fill i trades with the i-th facing order at its price; everything before the last fill is consumed and its id forgotten; a partial fill is last and exhausts the taker; the rest of the queue is untouched |
| Sweeps.GreedyRemainder | crates/matching-engine/src/match_engine.rs:33-39 | fills plus remainder are the taker's quantity, and a remainder means the new head does not cross |
| Sweeps.GreedyVolume | crates/matching-engine/src/match_engine.rs:33-74 | a sweep trades exactly the lesser of the taker's quantity and all crossing liquidity |
| Sweeps.GreedyFillQty | crates/matching-engine/src/match_engine.rs:47-62 | closed form of each fill: what is left after all better makers, capped by the maker |
| Sweeps.FillOrKill | crates/matching-engine/src/match_engine.rs:17-28 | for every quantity the book is unchanged or the fills sum to the quantity; for a positive quantity it fills iff crossing liquidity, over unbounded integers, suffices; nothing of it rests |
| Sweeps.PreflightDescribedIff | crates/matching-engine/src/match_engine.rs:104-125 | the pre-flight answers what its comment says, whether a sweep would fill the quantity, if and only if the quantity is positive or something crosses |
| Rules.RemainderRule | crates/matching-engine/src/match_engine.rs:81-99 | what a good-til-cancelled limit order leaves untraded joins its own side at its own limit with exactly that quantity and all its fields; of a market, IOC or FOK order nothing rests |
| Rules.MarketRule | crates/matching-engine/src/match_engine.rs:127-134 | a market order trades the lesser of its quantity and all that faces it |
| Rules.LimitRule | crates/matching-engine/src/match_engine.rs:127-141 | a limit order trades within its limit only, and if it is left unfilled everything still facing it lies beyond the limit |
| Rules.LimitVolume | crates/matching-engine/src/match_engine.rs:33-74 | it trades the lesser of its quantity and what faces it within its limit |
| Rules.FokRule | crates/matching-engine/src/match_engine.rs:17-28 | a fill-or-kill order for a positive quantity is filled if what faces it within its limit suffices, and changes nothing otherwise |
| Rules.FillRule | crates/matching-engine/src/match_engine.rs:47-55 | every field of every fill: consecutive trade id, taker number and time, number and price of the maker next in line |
| Rules.RestRule | crates/matching-engine/src/book.rs:54-75 | a rested limit order joins its own side behind everything as good and ahead of everything worse, with all its fields, and is indexed there |
| Ladders.FlatRanked | crates/matching-engine/src/book.rs:1-9 | ordered levels flatten to a queue whose prices never improve |
| Ladders.FlatInjective | crates/matching-engine/src/book.rs:27-34 | ordered levels without empty ones are determined by their flattening |
| Ladders.PushKeeps | crates/matching-engine/src/book.rs:62-73 | appending at a price keeps keys ordered and levels non-empty |
| Ladders.PushJoins | crates/matching-engine/src/book.rs:62-73 | appending at a price level is joining the flat queue behind everything at least as good and ahead of everything worse |
| Ladders.PullFinds | crates/matching-engine/src/book.rs:82-95 | looking up level and position finds the first flat entry with that price and id, and removing it removes that entry only |
| OrderBooks.OrderBook.constructor | crates/matching-engine/src/book.rs:36-40 | a new book is the empty reference book |
| OrderBooks.OrderBook.BestBid | crates/matching-engine/src/book.rs:42-46 | none iff there is no bid level, otherwise a level price that bounds every resting bid; without empty levels, the price of the first order of the flat bid queue |
| OrderBooks.OrderBook.BestAsk | crates/matching-engine/src/book.rs:48-52 | none iff there is no ask level, otherwise a level price that bounds every resting ask; without empty levels, the price of the first order of the flat ask queue |
| OrderBooks.OrderBook.OrderCount | crates/matching-engine/src/book.rs:99-105 | the number of orders resting on both sides |
| OrderBooks.OrderBook.Rest | crates/matching-engine/src/book.rs:54-75 | the order joins the tail of its level and the index; market orders change nothing; no empty level appears |
| OrderBooks.OrderBook.Cancel | crates/matching-engine/src/book.rs:77-97 | result and whole new state are those of the reference cancel, in every branch |
| OrderBooks.OrderBook.Detach | crates/matching-engine/src/book.rs:82-96 | found iff the side holds the id at that price; then exactly the first such order leaves |
| OrderBooks.OrderBook.NextTradeId | crates/matching-engine/src/book.rs:109-113 | returns the counter and advances it by one |
| OrderBooks.OrderBook.ForgetId | crates/matching-engine/src/book.rs:136-138 | the index loses that id and nothing else |
| OrderBooks.OrderBook.SettleBestLevel | crates/matching-engine/src/book.rs:115-134 | replacing the best facing level by its drained queue, dropped when empty, changes the flat queue by exactly the drained part |
| OrderBooks.OrderBook.CanFillFull | crates/matching-engine/src/match_engine.rs:104-125 | true iff something crosses and all crossing liquidity reaches the quantity; reads only |
| OrderBooks.OrderBook.MatchOrder | crates/matching-engine/src/match_engine.rs:17-102 | fills and whole new state are those of the reference submit, on every ordered book; a market order trades the lesser of its quantity and what faces it; only an untraded good-til-cancelled quantity comes to rest; terminates; no empty level appears |
| OrderBooks.OrderBook.SweepLevels | crates/matching-engine/src/match_engine.rs:30-74 | the level walk gives the fills, remainder, rest queue and forgotten ids of the greedy sweep of the flat queue |
| OrderBooks.OrderBook.SweepBestLevel | crates/matching-engine/src/match_engine.rs:37-74 | one round keeps the sweep on course and either drops a level or exhausts the taker |
| OrderBooks.OrderBook.DrainBestLevel | crates/matching-engine/src/match_engine.rs:41-73 | draining the best level and settling it advances the sweep by what it traded |
| OrderBooks.DrainQueue | crates/matching-engine/src/match_engine.rs:43-67 | the inner loop advances the sweep fill by fill until the queue is empty or the taker exhausted |
| OrderBooks.OrderBook.NumberFills | crates/matching-engine/src/match_engine.rs:76-79 | fills get consecutive ids from the counter, which moves past them |
| OrderBooks.OrderBook.ForgetAll | crates/matching-engine/src/match_engine.rs:69-72 | the index loses exactly the emptied ids |
| BookRuns.RunRanked | crates/matching-engine/src/book.rs:115-123 | every operation keeps both queues in price order |
| BookRuns.RunWellFormed | crates/matching-engine/src/match_engine.rs:33-99 | matches, cancels and reloads keep an uncrossed book with positive quantities |
| BookRuns.NeverCrossed | crates/matching-engine/src/match_engine.rs:33-99 | after every such run from empty, best bid below best ask and nothing rests with quantity zero |
| BookRuns.RestWellFormed | crates/matching-engine/src/book.rs:54-75 | resting directly keeps an uncrossed book with positive quantities if and only if the order is a market order, or has a quantity and nothing facing it crosses |
| BookRuns.WellFormedThroughout | crates/matching-engine/src/book.rs:54-75 | over every run of every operation the book stays so throughout if and only if each direct rest meets that condition at its moment |
| BookRuns.RestingDirectlyCanCross | crates/matching-engine/src/book.rs:54-75 | a run that does not meet it: two direct rests cross the book |
| Conservation.RunConserves | crates/matching-engine/src/match_engine.rs:30-99 | over every run of every operation, per sequence number: resting before plus submitted equals taker fills, maker fills, resting after, discarded and cancelled |
| Conservation.OrderAccountedFor | crates/matching-engine/src/match_engine.rs:30-99 | with distinct sequence numbers, from empty, that adds up to each order's own quantity |
| Conservation.TradeIdsConsecutive | crates/matching-engine/src/match_engine.rs:76-79 | the fills of a run put end to end carry consecutive trade ids |
| Conservation.NoPhantomMakers | crates/matching-engine/src/match_engine.rs:48-55 | every fill names a submitted taker and a maker that entered the engine before it |
| Priority.JoinFifo | crates/matching-engine/src/book.rs:7-9 | joining keeps a price queue in sequence order if and only if everything resting at that price came earlier in sequence |
| Priority.FifoThroughout | crates/matching-engine/src/book.rs:7-9 | over every run of every operation all queues are in sequence order throughout if and only if every order that comes to rest is later in sequence than what it finds at its price |
| Priority.RunFifo | crates/matching-engine/src/book.rs:7-9 | arrival with increasing sequence numbers is enough |
| Priority.OvertakenRun | crates/matching-engine/src/book.rs:7-9 | two bids at one price arriving in the opposite order of their stamps leave a queue out of sequence |
| Priority.PriorityRespected | crates/matching-engine/src/match_engine.rs:33-74 | at every point of every run meeting that condition the next taker's fills never improve in price, go through makers in sequence order at one price, and leave nobody resting that had priority over a maker that traded |
| Priority.OnlyLastFillPartial | crates/matching-engine/src/match_engine.rs:43-67 | on every book: at most one fill per facing order, each at its maker's price, only the last can leave its maker something |
| Index.RunSound | crates/matching-engine/src/book.rs:56-97 | over every run, repeated ids and direct rests included, each index entry points at a price where that id rests |
| Index.CancelAnswersIndex | crates/matching-engine/src/book.rs:77-97 | over every run a cancel succeeds iff the id is in the index: the inner not-found branches are dead |
| Index.RestExact | crates/matching-engine/src/book.rs:66-74 | resting keeps the index exact and ids distinct if and only if the id was not live |
| Index.SubmitExact | crates/matching-engine/src/match_engine.rs:69-88 | matching keeps the index exact if and only if it does not rest a remainder under an id still live after the sweep |
| Index.RestsLiveIdBefore | crates/matching-engine/src/match_engine.rs:81-99 | that condition read off the book before the call: good till cancelled, crossing liquidity below the quantity, and the id resting on the own side or on the facing side out of reach |
| Index.CancelExact | crates/matching-engine/src/book.rs:77-97 | with an exact index a cancel succeeds iff the id rests, removes that one order and its index entry, and leaves the rest in order |
| Index.ExactThroughout | crates/matching-engine/src/book.rs:56-97 | over every run of every operation the index is exactly the map of live ids throughout if and only if no operation rests an order under an id live at that moment |
| Index.NoLiveReuseExact | crates/matching-engine/src/book.rs:56-97 | so it is whenever no order enters under a live id; ids of filled, cancelled and discarded orders may be used again |
| Index.ReloadExact | crates/matching-engine/src/snapshot.rs:57-78 | restoring the snapshot of a book with an exact index changes nothing |
| Index.RestoredBookBehavesAlikeIff | crates/matching-engine/src/snapshot.rs:35-78 | for the book any run of every operation reaches: the restored copy gives the same replies and queues in every later run if and only if restoring changed nothing, and, when no id rests twice, if and only if the index was exact |
| Index.RestoredBookBehavesAlike | crates/matching-engine/src/snapshot.rs:35-78 | so it does for any book reached without resting a live id |
| Index.RestoredBookFillsAlike | crates/matching-engine/src/snapshot.rs:35-78 | even with repeated ids, every later run without cancels gives the same fills and queues |
| Index.ReusedIdLosesOrder | crates/matching-engine/src/book.rs:74-81 | a run reusing a live id leaves an order that cannot be cancelled until a restore makes it cancellable, so the restored book does not behave alike |
| Snapshots.QueueRoundTrip | crates/matching-engine/src/snapshot.rs:81-103 | splitting ids in halves and rejoining them gives every resting order back |
| Snapshots.SnapRule | crates/matching-engine/src/snapshot.rs:81-103 | a resting order on disk field by field, the high half of the id being the upper one, and back |
| Snapshots.SnapshotRule | crates/matching-engine/src/snapshot.rs:35-52 | both sides are listed by increasing price, each level with its orders in queue order, and the counter |
| Snapshots.ReplayLevel | crates/matching-engine/src/snapshot.rs:60-67 | the inner loop appends a level's orders and index writes in order |
| Snapshots.ReplaySide | crates/matching-engine/src/snapshot.rs:60-75 | the nested loops replay a side order by order into ordered, non-empty levels |
| Snapshots.Restore | crates/matching-engine/src/snapshot.rs:57-78 | levels, index and counter of the replay of any snapshot, with a sound index |
| Snapshots.SideRestored | crates/matching-engine/src/snapshot.rs:60-75 | a restored side is the original without empty levels, so equal iff there were none |
| Snapshots.IndexRestored | crates/matching-engine/src/snapshot.rs:60-75 | last write wins: an id goes to its highest ask, else to its highest bid |
| Snapshots.RestoredIndexSound | crates/matching-engine/src/snapshot.rs:60-75 | any snapshot, repeated ids or prices included, restores to an index that points at resting orders |
| Snapshots.Recover | crates/matching-engine/src/snapshot.rs:35-78 | snapshot then restore is the reference reload, with the same levels iff no level was empty |
| Replays.Replay | crates/matching-engine/tests/proptest.rs:78-90 | any operation list driven through the mutable book, snapshots and restores included, ends in the reference book with the reference replies, no level empty, and best bid level below best ask level if nothing was rested directly |
| Replays.SnapshotsAgree | crates/matching-engine/tests/snapshot.rs:62-83 | books that hold the same without empty levels have equal snapshots |
| Replays.FillsPositive | crates/matching-engine/tests/proptest.rs:86 | every fill of a run that rests nothing directly is for a positive quantity |
| Stamps.Clamp | crates/time-service/src/main.rs:33 | between 1 and 65535, unchanged inside that range |
| Stamps.Clock.constructor | crates/time-service/src/lib.rs:28-37 | nothing is reserved yet, and whatever will be reserved fills the numbers from the starting one upwards |
| Stamps.Clock.Reserve | crates/time-service/src/lib.rs:39-44 | the block was reserved by nobody before and does not lie below the start; the timestamp is boot time plus elapsed |
| Stamps.Clock.HighWatermark | crates/time-service/src/lib.rs:46-49 | above every number reserved, and one past the highest of them if there is any, else the start; it is what the protocol's persister writes |
| Stamps.Clock.NextStamps | crates/time-service/src/main.rs:29-41 | a block of the clamped size, nothing of which was reserved before; the response and the new counter are those of the protocol's service |
| Stamps.Stamper.constructor | apps/fairness-gateway/gateway/stamper.go:34-41 | empty window; batch size zero becomes 10,000, any other is kept |
| Stamps.Stamper.Next | apps/fairness-gateway/gateway/stamper.go:43-63 | asks for its batch size exactly when the window is exhausted, fails without change when that fails, otherwise hands out the window's next number with origin plus local elapsed time |
| StampProtocol.UniqueIff | apps/fairness-gateway/gateway/stamper.go:46-63 | over every interleaving, crashes anywhere with anything left on disk: blocks are disjoint and increasing, no number is issued twice, each comes from a block reserved for its issuer and each gateway's strictly increase, if and only if every reservation starts past the block reserved before it |
| StampProtocol.StampsUnique | crates/time-service/src/main.rs:50-72 | so it is in every run in which each crash finds the last number reserved within the gap of what the file reads |
| Watermarks.WrittenIsSafe | crates/time-service/src/main.rs:59-72 | once the persister has written the file, it is past every number reserved, and a crash that leaves it is safe |
| Watermarks.FileKeepsUnique | crates/time-service/src/main.rs:50-72 | over every run whose crashes leave the file as written: all crashes are safe if and only if each process, when it crashes, has reserved nothing since it started or wrote the file, or has written it and reserved at most 10,000 since; then stamps are unique |
| Watermarks.CrashBeforeWriteCollides | crates/time-service/src/main.rs:50-72 | the restart uses the gap up: a process that serves and crashes before its first write makes the next one hand out the same number, with the file intact and three numbers reserved in all |
| StampProtocol.NeverCollidesIff | crates/time-service/src/main.rs:50-72 | after a crash and restart no sequence of reservations ever runs into an earlier block if and only if nothing was ever reserved or the last block ended at most at what the file reads (0 if unreadable) plus 10,000 |
| StampProtocol.CrashCollidesIff | crates/time-service/src/main.rs:50-72 | the same at every state that a run with disjoint and increasing blocks reaches: no later reservation ever collides if and only if the crash was safe |
| StampProtocol.RestartSafeIff | crates/time-service/src/main.rs:50-69 | under the same condition, and only then, the very first block after the restart lies above all earlier ones |
| StampProtocol.LostIsLost | apps/fairness-gateway/gateway/stamper.go:46-57 | a restarted gateway has to ask again, a lost response is never delivered, a gateway that gave up takes no late one, and a service that went down answers nothing it had reserved |
| StampProtocol.FirstBootOverlaps | crates/time-service/src/main.rs:50-69 | a first boot that serves a gateway and dies before the first write makes a second gateway issue the same number |
| StampProtocol.LowBlocksDisjoint | crates/time-service/src/main.rs:50-69 | disjoint is less than increasing: a service that lost a high watermark reserves far below its earlier block without having run into it yet |
| StampTimes.TimestampsMonotone | apps/fairness-gateway/gateway/stamper.go:49-62 | over every interleaving, crashes and restarts included, each gateway's timestamps never decrease, within windows, across refills and restarts, for all RPC delays, provided each restart reads a wall clock no earlier than what the process before would show |
| StampTimes.BackwardRestartGoesBack | crates/time-service/src/lib.rs:28-37 | for every earlier reading there is a run in which a gateway goes back in time |
| StampTimes.SeqAndTimeAgreeIff | apps/fairness-gateway/gateway/stamper.go:49-62 | without a crash: at one gateway a lower number never carries a later timestamp; across gateways exactly when it was issued no later, each less the response delay of its window; any two answered reservations, delivered or not, carry timestamps in reservation order iff the clock was read in that order |
| StampTimes.LateReadDisagrees | crates/time-service/src/lib.rs:40-44 | the clock read late: the lower of two blocks reserved back to back carries the later timestamp |
| StampTimes.LocalWindowDisagrees | apps/fairness-gateway/gateway/stamper.go:49-62 | no race needed: a gateway issues from its low block after another has issued from a higher one |
| RunController.AllOwnedPodsReady | apps/benchmark-operator/internal/controller/benchmarkrun_controller.go:428-452 | true iff at least four pods, coordinators not pending and all others ready |
| RunController.CoordinatorSucceeded | apps/benchmark-operator/internal/controller/benchmarkrun_controller.go:216-230 | true iff some listed coordinator has succeeded |
| RunController.PodsToDelete | apps/benchmark-operator/internal/controller/benchmarkrun_controller.go:259-266 | a role is a target iff a listed pod of it is not yet being deleted; targets are in list order |
| RunController.RunCopy.Reconcile | apps/benchmark-operator/internal/controller/benchmarkrun_controller.go:80-107 | what each pass does in every case: deletion, finalizer, and each phase moves on exactly when the references looked up or the pods listed call for it, with StartedAt and EndedAt taken then; and it is the decision the cluster model uses |
| RunController.RunCopy.HandleDelete | apps/benchmark-operator/internal/controller/benchmarkrun_controller.go:251-271 | the finalizer is dropped only on an empty pod list |
| RunController.RunCopy.ToAllocating | apps/benchmark-operator/internal/controller/benchmarkrun_controller.go:120-147 | any missing reference leads to INVALID, an unready one to no write, all ready to ALLOCATING |
| RunPhases.PhasesSafe | apps/benchmark-operator/internal/controller/benchmarkrun_controller.go:73-249 | over every interleaving: stored phases are a prefix of the main or the refused path, StartedAt and EndedAt agree with the phase in every version, ALLOCATING and INVALID were justified by references a pass looked up, RUNNING and DRAINING by a pod list a pass took in the phase before, lists show pods the cluster had, terminal statuses never change |
| RunPaths.ReachComplete | apps/benchmark-operator/internal/controller/benchmarkrun_controller.go:73-249 | a run from the start through every phase to COMPLETE, with the times at which it began to run and completed |
| RunPaths.ReachInvalid | apps/benchmark-operator/internal/controller/benchmarkrun_controller.go:120-147 | a run from the start to INVALID |
| RunPaths.EditedWriteLost | apps/benchmark-operator/internal/controller/benchmarkrun_controller.go:73-107 | the version check: a pass whose object was edited after it read it writes nothing |
| RunPaths.ReachGone | apps/benchmark-operator/internal/controller/benchmarkrun_controller.go:251-271 | a deleted run whose pod is deleted and whose finalizer is then dropped, until object and pods are gone |
| RunPods.FourPods | apps/benchmark-operator/internal/controller/benchmarkrun_controller.go:149-194 | over every interleaving, stale reads and lists and overlapping passes included: exactly one pod per role, none being deleted, from PRIMING until deletion |
| RunPods.GuardedIff | apps/benchmark-operator/internal/controller/benchmarkrun_controller.go:251-271 | over every interleaving: while a pod is left the object is there with its finalizer, now and after any write already decided on, if and only if no pass on the latest version decides on an outdated empty list and no new pod is made after a drop of the finalizer was decided |
| RunPods.GuardedWhenFresh | apps/benchmark-operator/internal/controller/benchmarkrun_controller.go:251-271 | so it is whenever passes that saw the deletion list the current pods and new pods are made only before deletion, however stale other reads are |
| RunPods.PodsOwned | apps/benchmark-operator/internal/controller/benchmarkrun_controller.go:149-194 | both hold when passes are serialized and read current state |
| RunPods.StaleReadLeaksPod | apps/benchmark-operator/internal/controller/benchmarkrun_controller.go:369-378 | a run in which a pass on a stale ALLOCATING version makes a pod after the object is gone |
| RunPods.StaleListLeaksPod | apps/benchmark-operator/internal/controller/benchmarkrun_controller.go:251-271 | a run in which a stale empty pod list makes a pass drop the finalizer while a pod is left |
| FanOut.LogFaithful | apps/fairness-gateway/gateway/fork.go:35-67 | for every interleaving: replies follow their input row, at most one per order and source, and a finished call succeeds iff both reply rows are there, with the submission's reply |
| FanOut.AnswersDecide | apps/fairness-gateway/gateway/fork.go:35-67 | for every interleaving, by what the endpoints answered: every order taken in is in the log, a reply row is that source's answer and a failed source has none, and a finished call delivers iff both answered with a reply, and then the submission's |
| ByteCodec.PutUint64BigEndian | apps/fairness-gateway/gateway/identity.go:27-28 | eight bytes of the buffer become the big-endian encoding, the others stay |
| ByteCodec.PutUint64LittleEndian | apps/bot-coordinator/coordinator/schedule.go:61-70 | the buffer becomes the little-endian encoding |
| ByteCodec.BigEndianBytes | apps/fairness-gateway/gateway/identity.go:27-28 | eight bytes of a number, most significant first |
| ByteCodec.LittleEndianBytes | apps/bot-coordinator/coordinator/schedule.go:61-70 | eight bytes of a number, least significant first |
| ByteCodec.FromBigEndianAppend | crates/reference-oracle/src/lib.rs:133 | two concatenated fields read as one number with the first shifted up |
| Wire.PackClientOrderId | apps/fairness-gateway/gateway/identity.go:23-30 | sixteen bytes that read back as the engine's packed id |
| Wire.TranslationFaithful | apps/fairness-gateway/gateway/server.go:72-90 | for every REST order the wire order is accepted by the oracle and is the order meant, bot id and local sequence included |
| Wire.NormalizeRule | apps/fairness-gateway/gateway/server.go:72-131 | the wire order field by field: which protobuf number each word gets, unknown words included, and the two halves of the id |
| Wire.DecodeRule | crates/reference-oracle/src/lib.rs:96-139 | exactly which wire orders are accepted, every field of the engine order, and the reason of the first failed check |
| Wire.MeantRule | apps/fairness-gateway/gateway/server.go:72-131 | the order meant field by field: unknown words mean a bid, a limit order, good till cancelled; the bot id is the upper half of the id |
| Wire.OracleSubmit | crates/reference-oracle/src/lib.rs:54-93 | an undecodable order gets status 1 and its reason and leaves the book alone; any other is matched by the reference submit |
| Schedule.Compile | apps/bot-coordinator/coordinator/schedule.go:31-55 | for every int32 duration: one event per millisecond slot with distinct in-range offsets, bots 1 to 8, positive quantities, GTC limit orders of the vocabulary |
| Schedule.WriteEvent | apps/bot-coordinator/coordinator/schedule.go:62-73 | the writes of one event through the reused buffer are its canonical encoding |
| Schedule.EncodedRule | apps/bot-coordinator/coordinator/schedule.go:62-73 | offset, bot, quantity and price as little-endian numbers, price in two's complement, then side, type and time in force |
| Schedule.HashInput | apps/bot-coordinator/coordinator/schedule.go:59-74 | the bytes fed to the hash are the events' encodings end to end |
| Schedule.DecodeRoundTrip | apps/bot-coordinator/coordinator/schedule.go:59-74 | over the vocabulary the bytes decode back to the very schedule |
| Schedule.HashInputsDiffer | apps/bot-coordinator/coordinator/schedule.go:57-76 | different schedules over the vocabulary give different hash inputs |
| Schedule.EncodingsCollideIff | apps/bot-coordinator/coordinator/schedule.go:62-73 | over any vocabulary two events give the same bytes if and only if their numbers agree and their three words joined are the same letters |
| Schedule.WordsCanRunTogether | apps/bot-coordinator/coordinator/schedule.go:71-73 | outside the vocabulary two different schedules give the same bytes |
| EndToEnd.ArrivedAsScheduled | apps/bot-coordinator/coordinator/dispatcher.go:47-57 | what reaches the engine is the scheduled event field by field: bot id and offset in the halves of the id, side, quantity, limit price and time in force, and its stamp's number, timestamp and token |
| EndToEnd.ArrivalsMeetHypotheses | apps/bot-coordinator/coordinator/dispatcher.go:31-57 | a compiled schedule with stamps of the protocol, arriving in any order, gives fresh ids, distinct sequence numbers and only GTC orders |
| EndToEnd.CompiledRunIsSound | apps/bot-coordinator/coordinator/dispatcher.go:21-57 | stamped in any safe run of the protocol and arriving in any order, any part of a compiled schedule leaves the oracle's book uncrossed, exactly indexed and equal to its restored snapshot; each arrival is its event as scheduled, whose quantity is its trades plus what rests; in time priority if arrival follows the stamps |
| EndToEnd.OvertakenOnTheWay | apps/bot-coordinator/coordinator/dispatcher.go:21-57 | two scheduled bids at one price of which the later stamped one arrives first leave the queue out of sequence |

## Left out

- Counter overflow: trade ids, stamp sequence numbers and timestamps are unbounded, so wrap-around or saturation at 2^64 is not modelled; prices, quantities and ids keep their widths.
- Bincode, protobuf, JSON, gRPC, HTTP and WebSocket encodings: the codec between components is taken to be lossless.
- SHA-256: session tokens are any 32 bytes and the schedule hash is studied up to its input.
- The PRNG of the schedule compiler: its draws are any sequence in the stated ranges, so seed determinism is not stated.
- A nil or failing sink in the fan-out: every log write happens and succeeds, atomically.
- Services, endpoints, conditions and pod templates of the reconciler: configuration data that the phase and pod claims do not read.
- Liveness: failed pods leave a run waiting, and nothing is claimed about progress.
- toRESTReply and the field-by-field reply conversion of the oracle: plain copying.
- Admission policy, build runner, submission API, telemetry sidecar, bot worker, CLI, frontend, deployment files: would add only easy members.
- Garbage collection of pods through their owner reference: a pod that outlives the finalizer stays in the model.
- StampTimes.TimestampsMonotone: assumes server and gateway monotonic clocks of the same rate.
- StampTimes.SeqAndTimeAgreeIff: assumes the same clocks and no crash of the service, because over restarts the comparison is one of wall clocks.
- RunPods.FourPods: assumes nobody outside the reconciler deletes labelled pods or edits the finalizer.
