# contime, verified

`contime` keeps, for every entity, a history from which it can answer "what was the state at time T?".
Events may arrive late, twice and in any order. The crate keeps periodic checkpoints so that an answer costs
a short replay, prunes old history, accounts for every byte in one shared counter, and spreads entities over
worker threads. This project models that engine in Dafny and proves what the caches, the pruning, the
accounting and the sharding must not change.

## How it is organised

The code that works in place is imperative here too: `BTreeMaps`, `Apply` (the two algorithms of
`src/apply.rs`), the class `LocalSnapshotHistory` (`src/history.rs`), the `Worker` turn, the `Router` and the
completion `Handle`. Each of their methods is proved to compute a function of the old state. The properties are
then proved about those functions.

* Ground: `Keys`, `OrderedMaps` and `MapFacts` (an ordered map is a strictly increasing sequence of entries),
  `Multiples`, `Domains`. A `Domain` is the record of operations the engine calls on a user's snapshot and
  event types. Its one law, `Lawful`, says that the last `set_time` wins and that applying an event does not
  depend on the snapshot's time. `Fixture` shows that the crate's own test types obey it.
* Checkpoints: `Checkpoints.Rebuild` is what a replay leaves behind. `Chains.Chain` gives the whole checkpoint
  map as a function of the base, the authoritative snapshots in force, the stored events and the interval.
* The reference: `Timelines` has no checkpoints at all. It stores a base, the snapshots in force and the
  events, and a query folds from the last snapshot. `Refinement` proves that the checkpointed history
  represents this timeline over every safe run of any mix of operations.
* Consequences: `Queries`, `EventRuns`, `Identities`, `Stamps`, `Overrides`, `Commutation`, `Reconciliations`,
  `Notifications`, `Spacing`, `Pruning`, `Transparency`, `Ledger`, `AppendCost`, `Exactness`, `Openings`.
* Threads: a `Worker` holds `LocalSnapshotHistory` objects and calls their methods; `Sharding` is a step system
  (send, take, load, compare-and-exchange, reply) over what a worker's turn computes. `SequentialRefinement`,
  `Conservation`, `Charges` and `EndToEnd` prove what holds over all of its interleavings.
* Limits: `Fixture` holds the crate's own test types, `Witnesses` concrete runs of them, each from a fresh
  history, that show where a guarantee ends, and `Scenarios` runs of the crate's own tests with their values.

`Safe` (in `Refinement`) names the two situations in which the code does not keep its cache honest; a caller
can check it before the call. It fails for a new latest event that lies behind a later checkpoint, and for an
advance that would drop events past the last dropped checkpoint. `Exactness` says, query by query and in terms
of the answers alone, what each of the two does. After an advance with gap events an answer is wrong exactly
when no retained checkpoint serves it, provided that an event leaves some countable mark on a state
(`Tallied`, which the test types satisfy). After an event behind a checkpoint the answers between the two are
wrong unless the later snapshot happens to agree, time aside, with the true state just after the event; every
other one is right, or a panic at a checkpoint key.

## What the proofs turned up

* The documentation (README.md:122, src/lib.rs:16, src/history.rs:209, src/api.rs:91) promises the events with
  a time below the query time. The code's bound is (time, snapshot id), so it also lets in events at the query
  time whose id is below the snapshot id, as tests/sync.rs:18-27 expects (`SameTimeIncluded`). The model follows
  the code; `QueryBoundExact` and, for answers, `EventRunBoundExact` say exactly when the two agree.
* A query whose bound is itself a checkpoint key panics as soon as the event map owns a root node, because both
  ends of the range then exclude the same key. The first stored event allocates the root, and an advance that
  takes out the last events leaves it behind. `QueryAtSnapshotTime`: querying at exactly the time of an
  authoritative snapshot does this (`QueryPanics`, and `QueryPanicsWhenEmptied` with no event left).
  `EventRunQuery` gives the exact condition for event-only histories. A panic ends the worker thread; the step
  system models that as the phase `Dead`.
* An authoritative snapshot dated after every event makes the next new latest event behind it plant a copy of
  the snapshot at the event's key. `SnapshotAheadOfEvents` shows a history that answers 100 where the events
  say 3, and `EventExact` gives the effect on every query.
* An advance forgets events that no checkpoint holds yet (`PruningForgets`); `AdvanceExact` says which queries
  notice. At interval 1 without authoritative snapshots there are none (`UnitIntervalTransparent`).
* Snapshots and events do not commute. A late event undoes every authoritative snapshot keyed at or after it
  without a trace (`LateEventUndoes`; `LateEventUnseatsSnapshot` answers 3 in one order and 100 in the other).
  `SnapshotEventCommute` is the exact condition for one pair in any reachable state, and
  `MixedOrderIndependent` the resulting freedom: with the snapshots in the same order and every event keyed
  above them, any interleaving and any order of the events gives the same history and the same bytes.
* Snapshots do not commute with each other: an older one that arrives late erases every newer one
  (`OlderSnapshotErases`, `LastSnapshotWins`). `SnapshotsCommute` is the exact condition.
* A snapshot announces the span from its date to the latest stored event. Dated after that event, the span ends
  before it starts, and the changed answers lie outside it (`OverrideSpan`, `OverridePastSpan`, `SpanReversed`).
* A snapshot that opens a history is not applied at its date: it becomes a base stamped with time zero, and
  older events are folded on top of it. Sent after those events it would leave them out
  (`OpeningDecides`: 103 against 100). `OpeningExact` and `OpeningIsOverride` give the condition under which
  the two agree: every later event is keyed above the snapshot and the query is after its date.
* The byte ledger exceeds the bytes held by exactly the checkpoints that a new latest event overwrites
  (`LedgerExact`; `LedgerDrifts` by 28 bytes). Without authoritative snapshots that never happens
  (`NoSnapshotsNoOverwrites`).
* The base of a history is charged once, when it is opened. Promoting a checkpoint of another size to base is free
  of charge, in either direction (`AdvanceChargeExact`; `PromotionIsFree` loses 4 bytes). Without advances the
  counter is exact (`CounterIsOwned`).
* A checkpoint planted behind a later snapshot keeps the snapshot's time (`EventStampedExact`,
  `PlantedIsMisdated`); every other checkpoint carries the time of its key (`RunStamped`).
* The notification queue holds a thousand entries; what is announced beyond that is lost (`QueueKeepsFirst`).
* A worker that panics drops its histories, but nothing takes their charge off the counter
  (`StoppedWorkersStayCharged`). `DeadMeansPanic`: only a panicking query stops a worker.

## Model

| member | source | states |
|---|---|---|
| OrderedMaps.Rank | src/key.rs:3-7 | keys compare by time, then id: the position returned separates the keys below the given one from all others |
| Domains.ReplayResumes | src/history.rs:224-228 | stamping times between events, and the place where a replay is resumed, are invisible once the query time is set |
| Checkpoints.RebuildConcat | src/apply.rs:8-31 | a replay cut at a multiple of the interval and resumed from the checkpoint there leaves the same checkpoints |
| Checkpoints.ResumeRebuild | src/apply.rs:8-31 | resuming from the last checkpoint of a prefix gives the checkpoints of all events |
| Chains.LatestInChain | src/history.rs:213-219 | the last checkpoint holds the fold of exactly the events since the last snapshot in force up to it, and fewer than one interval of events follow |
| Chains.ChainBelow | src/apply.rs:98-103 | invalidating at a key leaves exactly the checkpoints of what lies below that key |
| Chains.ChainAdvance | src/history.rs:128-143 | after a gap-free prune the kept checkpoints are those of the kept events over the promoted base |
| Chains.ChainAnswers | src/history.rs:210-231 | nearest checkpoint plus short replay equals the fold from the last snapshot in force |
| Chains.EachCheckpoint | src/apply.rs:55-117 | each checkpoint is an authoritative snapshot in force or the replay, from the one before it, of exactly the events in between |
| Apply.ReplayAndCheckpoint | src/apply.rs:8-31 | the loop inserts exactly the checkpoints of the replayed events, returns their bytes, and applies each event once |
| Apply.RemoveStale | src/apply.rs:98-103 | removes one by one what lies at or after the key and returns minus its bytes |
| Apply.ReplayTail | src/apply.rs:78-88 | the fast path's loop folds the events after the last checkpoint |
| Apply.AppendInPlace | src/apply.rs:55-91 | fast path: no replay off the boundary, else one checkpoint; the delta ignores the bytes of an overwritten one |
| Apply.ReplayInPlace | src/apply.rs:92-117 | slow path: keeps what lies below the event and rebuilds the rest from there |
| Apply.ApplyEventInPlace | src/apply.rs:33-120 | duplicates are ignored, the events gain exactly the new one, and the delta is the change in stored bytes plus overwritten ones |
| LocalSnapshotHistories.LocalSnapshotHistory.Create | src/history.rs:91-116 | a fresh history, with its base at time 0, nothing stored and interval 100, and the bytes its base takes |
| LocalSnapshotHistories.LocalSnapshotHistory.Advance | src/history.rs:119-146 | prunes below the drop key and promotes the last dropped checkpoint; the delta is exactly the change in stored bytes |
| LocalSnapshotHistories.LocalSnapshotHistory.ApplyEvent | src/history.rs:149-169 | new state, byte delta, attempted notification and number of applications of one event |
| LocalSnapshotHistories.LocalSnapshotHistory.ApplySnapshot | src/history.rs:172-205 | new state, exact byte delta and notification; a snapshot of another entity changes nothing |
| LocalSnapshotHistories.LocalSnapshotHistory.SnapshotAt | src/history.rs:210-231 | the answer or the panic of a rooted event map at a checkpoint key, and the number of events replayed |
| Refinement.AppendIsReplay | src/apply.rs:52-117 | in a represented state the append branch and the invalidate-and-replay branch leave the same checkpoints |
| Refinement.EventRefines | src/apply.rs:33-120 | a safe event takes a faithful cache to a faithful cache of the timeline with the event recorded |
| Refinement.SnapshotRefines | src/history.rs:172-205 | installing a snapshot always keeps the cache faithful to the timeline overridden from there on |
| Refinement.AdvanceRefines | src/history.rs:119-146 | a gap-free advance keeps the cache faithful to the timeline with everything older folded into the base |
| Refinement.RunRefines | src/history.rs:119-205 | over every safe run of any mix of operations the checkpoint map is the chain of the naive timeline |
| Exactness.EventExact | src/apply.rs:55-91 | after an unsafe event, an answer short of the next checkpoint is right exactly when that snapshot agrees with the true state; all others are right or a panic at a checkpoint key |
| Exactness.EventFaithful | src/apply.rs:55-91 | every answer after an event is right if and only if the event is safe, no query falls between it and the next checkpoint, or that snapshot agrees with the true state |
| Exactness.AdvanceExact | src/history.rs:128-137 | after an advance an answer at or after the drop time is right exactly when a retained checkpoint serves it or there are no gap events |
| Exactness.AdvanceFaithful | src/history.rs:128-137 | every answer after an advance, the new base included, is right if and only if there are no gap events |
| Exactness.AdvanceShows | src/history.rs:128-137 | in any state, faithful or not, an advance changes exactly the answers that no retained checkpoint serves, and only with gap events |
| Commutation.InstalledByRun | src/history.rs:177 | in every run a snapshot in force was there before or was sent for the entity, and is keyed by its own time |
| Commutation.SnapshotEventCommute | src/apply.rs:33-120 | in every reachable state, exactly when a snapshot and an event may swap places, read off the state before |
| Commutation.LateEventUndoes | src/apply.rs:98-103 | a late event at or before a snapshot leaves the state as if the snapshot had never come, where the other order keeps it |
| Commutation.SnapshotPastEvents | src/apply.rs:92-117 | a snapshot may be moved past any run of events keyed above it |
| Commutation.SnapshotsFirst | src/apply.rs:92-117 | a run whose events each lie above the snapshots that follow them is the run of its snapshots, then of its events |
| Commutation.MixedOrderIndependent | README.md:25 | with events above the snapshots, any interleaving and any order of the events, duplicates included, ends in the same history and charges the same bytes |
| Commutation.OlderSnapshotErases | src/history.rs:172-205 | an older snapshot that arrives late erases a newer one |
| Commutation.SnapshotsCommute | src/history.rs:172-205 | two snapshots may swap places if and only if they are the same or the later one is what replaying from the earlier one leaves at its key |
| Queries.QueryRefines | src/history.rs:210-231 | a query answers the naive fold, and panics exactly when a checkpoint sits at the bound while the event map has a root |
| Queries.QueryBoundExact | README.md:122 | the code's cut of the stored events is the documented one exactly when no event at the query time has an id below the snapshot id |
| Exactness.EventRunBoundExact | README.md:122 | after any arrival of events, a found answer is the documented one if and only if no such event is stored |
| EventRuns.Canonical | src/apply.rs:8-120 | after any arrival of events the checkpoints are those of one full replay from the base |
| EventRuns.CheckpointEveryKth | src/apply.rs:18-28 | those are the k-th, 2k-th, ... event in key order, each with the fold up to it, and no others |
| EventRuns.FastPathIsSlowPath | src/apply.rs:52-117 | in every event-only run both branches agree on a newest event, in the checkpoints they leave and in the byte delta they return |
| EventRuns.OrderIndependent | README.md:25 | permuted and duplicated arrivals end in the same history and charge the same bytes |
| Identities.KeyIsIdentity | src/key.rs:10-12 | two events have the same key if and only if their times and their ids are equal |
| Identities.EventStoredExact | src/apply.rs:40-50 | an event is added under its time and id unless one of the same time and id is stored; nothing else changes |
| Identities.StoredAreFirstArrivals | src/apply.rs:40-50 | after any events and snapshots the stored events are exactly the first arrivals of each time and id |
| Identities.SentIsStored | src/apply.rs:40-50 | every event that was sent has one of its time and id stored |
| Stamps.RunKeyed | src/apply.rs:40-50 | in every run each event is stored under its own time and id |
| Stamps.RunStamped | src/apply.rs:18-28 | in every run whose events do not arrive behind a later checkpoint, each checkpoint carries the time of its key |
| Stamps.EventStampedExact | src/apply.rs:55-116 | an event keeps the checkpoints dated if and only if it is safe or the checkpoint it is planted from has its time |
| Stamps.NoSnapshotsNeverBehind | src/apply.rs:55-116 | without authoritative snapshots no event arrives behind a later checkpoint |
| Stamps.PromotedTime | src/history.rs:133-137 | an advance gives the base the time of the last dropped checkpoint's key, or leaves it as it was |
| Stamps.AnswerTime | src/history.rs:228 | an answer carries the time it was asked for |
| EventRuns.EventRunQuery | src/history.rs:210-231 | after any arrival of events a query is the chronological fold below its bound; exact condition for the panic |
| Reconciliations.EarlierAnswersStay | src/history.rs:149-169 | an event changes no answer before its time, except that the first root turns a checkpoint at the bound into a panic; both directions |
| Reconciliations.ChangesAreAnnounced | src/history.rs:158-166 | any change before the latest known event comes with a notification whose span covers it |
| Reconciliations.EventBehindCheckpoint | src/apply.rs:55-91 | the unsafe event plants later state at its key, which answers queries up to the next checkpoint |
| Reconciliations.LaterAnswersStay | src/apply.rs:55-91 | queries at or past that checkpoint keep their answers, with the same one exception as earlier queries; both directions |
| Notifications.EventNoticeExact | src/history.rs:149-169 | an event announces something if and only if it is dated before some stored event, and then once, from its own time to that of the latest |
| Notifications.SnapshotNoticeExact | src/history.rs:196-202 | a snapshot of the entity announces once, from its date to the latest stored event, or to its own date when none is stored |
| Notifications.InOrderIsSilent | src/history.rs:158-166 | events that arrive in order of time announce nothing and leave the queue empty |
| Notifications.QueueKeepsFirst | src/history.rs:94 | the queue of a run holds exactly the first thousand attempts, in order |
| Notifications.ChangesAreDelivered | src/history.rs:158-166 | a change before the latest known event is covered by the newest entry of the queue, unless a thousand wait already; then the queue is unchanged |
| Notifications.OverrideIsDelivered | src/history.rs:196-202 | the same for what an installed snapshot changes |
| Overrides.SnapshotRules | src/history.rs:172-205 | from any state, installing a snapshot makes everything from it on canonical with the snapshot as origin |
| Overrides.EventActsAbove | src/apply.rs:92-117 | an event above a snapshot acts on the part above it alone |
| Overrides.OverrideAnswers | src/history.rs:172-231 | from any state: after a snapshot and any arrival of later events, queries fold over the snapshot; exact panic condition |
| Overrides.OverrideKeepsEarlier | src/history.rs:172-205 | installing a snapshot leaves earlier answers alone |
| Overrides.OverrideIsAnnounced | src/history.rs:196-202 | whatever a snapshot changes lies at or after the announced start |
| Overrides.OverrideSpan | src/history.rs:196-202 | the announced span starts at the snapshot and is not empty if and only if no event is stored or one is dated at or after it |
| Overrides.OverridePastSpan | src/history.rs:196-202 | what the span misses: past its end and after the snapshot every query answers the replay over the snapshot |
| Overrides.QueryAtSnapshotTime | src/history.rs:210-231 | a query at exactly the snapshot's time returns it only while the event map has no root |
| Spacing.RunSpaced | src/apply.rs:64-116 | in every run of any mix of operations, safe or not, any k consecutive events have a checkpoint among them |
| Spacing.BoundedReplay | src/history.rs:210-231 | so a query replays fewer than one interval of events |
| Pruning.AdvanceKeepsRecent | src/history.rs:121-143 | exactly the events and checkpoints dated at or after the drop time survive |
| Pruning.AdvanceKeepsServed | src/history.rs:119-146 | a query that a retained checkpoint serves is unchanged |
| Pruning.AdvanceOmitsGap | src/history.rs:128-137 | any other query replays from the new base with exactly the gap events left out |
| Pruning.GapIsShort | src/history.rs:128-137 | in every reachable state there are fewer gap events than the interval, so none at interval 1 |
| Pruning.AdvancesCompose | src/history.rs:119-146 | two advances are one advance by the sum, in everything stored and in bytes; only the root of an emptied event map can tell them apart |
| Transparency.PruningTransparent | src/history.rs:119-146 | over every safe run, queries at or after every drop time so far answer as if nothing had been pruned; exact panic condition |
| Transparency.UnitIntervalTransparent | src/history.rs:119-146 | at interval 1, without snapshots, the same holds of every run, and a query panics exactly when an event sits at its bound |
| Ledger.LedgerExact | src/apply.rs:47-119 | over every run the deltas add up to the change in bytes held plus the bytes of overwritten checkpoints |
| Ledger.DriftMeansOverwrite | src/apply.rs:47-119 | with sizes that are never zero they are exact if and only if no checkpoint is overwritten |
| Ledger.NoSnapshotsNoOverwrites | src/apply.rs:47-119 | runs of events and advances have an exact ledger |
| AppendCost.AmortisedAppend | src/apply.rs:55-91 | n in-order events cost exactly k * floor(n / k) applications |
| AppendCost.RunCostBounded | src/apply.rs:33-120 | in every run of any mix of operations, the next event costs at most one application per stored event at or after it, plus one interval |
| Workers.Worker.Turn | src/worker.rs:87-137 | one turn of the message loop on the worker's history objects: the shard it leaves, the reply, and the amounts returned by the histories in the order they are published |
| Workers.Worker.AdvanceAll | src/worker.rs:91-94 | a broadcast visits every history once, in the map's own order |
| Routing.Router.SendEvent | src/router.rs:52-72 | refused without effect at the budget, else one message per entity in its owner's queue; cut short at a stopped worker |
| Routing.Router.SendSnapshot | src/router.rs:78-93 | refused at the budget, else exactly the owner's queue grows |
| Routing.Router.QueryAt | src/router.rs:99-108 | queries are not subject to the budget |
| Routing.Router.SendAdvance | src/router.rs:114-123 | every worker's queue gains the advance, or exactly those before the first stopped worker |
| Routing.ShareIsIndices | src/router.rs:129-133 | what the router puts into a queue is what the step system delivers to that worker |
| Sharding.HandleLocal | src/worker.rs:85-137 | a message changes only its owner's share of the histories, and its reply depends on that share alone |
| Sharding.OwnerIsRemainder | src/router.rs:129-133 | the owner of an id is the remainder of its hash by the number of workers |
| Sharding.LocalIsShare | src/router.rs:129-133 | a worker that processed its messages holds its share of the sequential map |
| SequentialRefinement.NextKeeps | src/worker.rs:87-137 | every step of sender or worker keeps queues, histories and replies in line with the send order |
| SequentialRefinement.RepliesAreSequential | src/worker.rs:85-140 | for any worker count, hash and interleaving every reply is that of one sequential map of histories |
| SequentialRefinement.AllAnswered | src/worker.rs:85-140 | at rest every worker has answered each of its messages once, in order |
| SequentialRefinement.DeadMeansPanic | src/worker.rs:85-140 | a worker stops only at a query routed to it that panics on the sequential histories at that point |
| SequentialRefinement.NoDeadlock | src/worker.rs:85-140 | while no worker has stopped, a system that cannot step has sent everything and answered every message |
| SequentialRefinement.QueueLimit | src/worker.rs:54 | a queue never holds more than a thousand messages, and a running worker with fewer accepts the next |
| Sharding.SaturatesAtEnds | src/worker.rs:69-77 | the sum a worker offers is exact within 64 bits and stops at either end |
| Conservation.MessageBalance | src/worker.rs:91-124 | the amounts published for a message add up to the change in base sizes and bytes held |
| Conservation.MessageNeverOverdraws | src/worker.rs:69-77 | no partial sum of them takes out more than is held |
| Conservation.ExchangeExact | src/worker.rs:69-77 | a successful exchange moves the counter by exactly its amount; it never saturates below, nor above while amounts fit |
| Conservation.CounterConserved | src/worker.rs:69-124 | over every interleaving the counter is the sum of what was published, and at rest the workers' accounts: bytes held plus base sizes at creation plus slack, a stopped worker's as they were when it stopped |
| Conservation.StoppedWorkersStayCharged | src/worker.rs:69-140 | at rest the counter exceeds the accounts of the running workers by exactly those of the stopped ones |
| Conservation.NoSlackWithoutSnapshots | src/worker.rs:91-124 | there is no slack without authoritative snapshots |
| Charges.OpeningChargesAll | src/worker.rs:98-125 | the message that opens a history publishes exactly what the history then takes up: its base, its event |
| Charges.MessageChargesGrowth | src/worker.rs:98-125 | any message but an advance publishes the growth of bases, events and checkpoints, plus slack |
| Charges.CounterIsOwned | src/worker.rs:69-140 | for traffic of events and queries the counter at rest is exactly the bytes of all bases, events and checkpoints of the one sequential map |
| Charges.AdvanceChargeExact | src/history.rs:128-143 | an advance publishes the change in what a history takes up if and only if the promoted base is as large as the old one |
| EndToEnd.SequentialIsRun | src/worker.rs:85-137 | each entity's history is the run of its own operations |
| EndToEnd.ReplyIsNaiveFold | src/router.rs:52-133 | a query's reply under any interleaving is not-found exactly when nothing was sent, else the answer of one history that went through what was sent before, and its naive fold when that run is safe |
| EndToEnd.EventTrafficIsNaiveFold | src/router.rs:52-133 | for traffic of events and queries alone this needs no condition on the run |
| Openings.OpeningExact | src/worker.rs:116-121 | when only events follow, a history opened by a snapshot answers what the snapshot at its date says if and only if no stored event is keyed at or before it |
| Openings.OpeningRunExact | src/worker.rs:116-121 | the same over every safe run of events, snapshots and advances: right when a snapshot from the date on is in force, and with none in force if and only if no event was sent for the time up to the date |
| Openings.OpeningIsOverride | src/worker.rs:116-121 | with later events above it, opening with a snapshot and installing it in a fresh history answer alike after its date |
| Handles.Handle.TryRecv | src/handle.rs:34-52 | whatever arrives meanwhile, each waiting receiver is polled once, each reply is consumed once, and the scan is complete exactly when all polls showed a reply |
| Handles.Wait | src/handle.rs:24-29 | waiting succeeds exactly when every worker replied, and stops at the first that is gone |
| Fixture.TestDomainLawful | src/test/events.rs:37-48 | the crate's test types obey the law the theorems need |
| Fixture.FirstEventIrrelevant | src/test/snapshots.rs:30-32 | the history an entity's first event opens does not depend on which event it is |
| Fixture.DeliveryOrderIrrelevant | src/worker.rs:98-110 | opened by whichever event comes first, any delivery order gives the same history and bytes |
| Fixture.ReplayAddsUp | src/test/events.rs:37-48 | a replay of the test events adds up what they are worth, negative ones included, and keeps one item for each |
| Witnesses.SnapshotAheadOfEvents | src/apply.rs:55-91 | a run of two operations after which a query answers 100 and the naive reading 3 |
| Witnesses.PruningForgets | src/history.rs:128-137 | an advance that loses an event: 0 after it, 3 before |
| Witnesses.LateEventUnseatsSnapshot | src/apply.rs:98-103 | the same three messages in two orders answer 3 and 100 |
| Witnesses.LastSnapshotWins | src/history.rs:172-205 | two snapshots in two orders answer 50 and 100 |
| Witnesses.SpanReversed | src/history.rs:196-202 | a snapshot that announces the span from 10 to 5 and changes the answer at 12 |
| Witnesses.OpeningDecides | src/worker.rs:98-121 | a snapshot and an older event: 103 when the snapshot opens the history, 100 when the event does |
| Witnesses.LedgerDrifts | src/apply.rs:82-90 | a run of two operations that charges 28 bytes too much |
| Witnesses.QueryPanics | src/history.rs:213-219 | a run of two operations after which a query panics |
| Witnesses.QueryPanicsWhenEmptied | src/history.rs:213-219 | the same after an advance that leaves no event |
| Witnesses.SameTimeIncluded | README.md:122 | an event at the query time that is part of the answer |
| Scenarios.OutOfOrderDeterministic | tests/edge.rs:77-99 | four events out of order, one negative, with the expected answers at five times |
| Scenarios.TimeAndIdIdentify | tests/edge.rs:16-26 | equal ids at different times, and different ids at one time, all count |
| Scenarios.ExactEventTime | tests/query.rs:61-75 | an event at the query time with a larger id counts one tick later |
| Scenarios.SecondEventIsCheckpointed | src/apply.rs:179-192 | at interval 2 either order of two events leaves the one expected checkpoint, dated by the later event |
| Scenarios.DuplicateIsIgnored | src/apply.rs:193-199 | a duplicate leaves one event and no checkpoint |
| Scenarios.SnapshotBetweenEvents | src/history.rs:377-401 | a snapshot between events is kept, and a later query answers 150 |
| Scenarios.SnapshotThenQuery | src/history.rs:403-414 | with no event ever stored, a query at a snapshot's own time answers it |
| Scenarios.AdvancePromotes | src/history.rs:437-454 | an advance makes the checkpoint at 20 with sum 15 the base |
| Scenarios.ForeignSnapshot | src/history.rs:172-175 | a snapshot of another entity changes nothing and announces nothing |
| Scenarios.LateArrivalsNotify | src/history.rs:482-510 | the history object's own queue after a late event and a late snapshot |
| Scenarios.EveryHundredth | src/history.rs:83 | in a history the worker opens exactly every hundredth event leaves a checkpoint |
| Scenarios.FirstMessagePublishes | src/worker.rs:98-110 | the first message of a test entity publishes 28 bytes for the base, then 42 for the event |
| Scenarios.AdvanceDropsBehindHorizon | src/worker.rs:91-94 | a new history's clock stands at 0: the same advance drops an event or keeps it one tick later |
| Scenarios.PromotionIsFree | src/history.rs:134-141 | an advance publishes 32 bytes less where 28 are freed |
| Scenarios.PlantedIsMisdated | src/apply.rs:55-91 | a checkpoint keyed at time 5 that carries time 10 |

## Left out

- The `contime!` macro and lane enums (src/macros.rs): code generation; `Domain` stands for what they produce.
- `Contime` in src/api.rs: thin wrappers and error conversion.
- Channels, hashing and threads: a channel is a bounded first-in first-out sequence, the hash an arbitrary fixed function; joining, `Drop` and shutdown timing, and asynchronous waits, are not modelled.
- Several senders at once: the step system has one sender, whose program order is the reference.
- The memory budget as a bound: the code checks it before sending and does not count checkpoints, so only the check itself is modelled.
- Machine integers: times, sizes and the fixture's sum are mathematical integers; the 64-bit saturation of the shared counter is modelled, and `Fits` is the condition under which it does not bite.
- EndToEnd.ReplyIsNaiveFold: asks for a safe run of the entity when snapshots or advances are in the traffic; the exact effect of each unsafe operation is stated separately. A snapshot that opens the history is read as an undated base, as the code does; `OpeningExact` compares that with the snapshot at its date.
- Exactness.AdvanceExact: asks that an event leaves some countable mark on the state; without that a gap may go unnoticed, as when events do nothing.
- The allocation of a `BTreeMap` is reduced to one bit, whether it owns a root node.
- Sending to a stopped worker: in the step system the sender stays blocked there; the code's send returns an error and the caller may go on, possibly after an advance that reached only the workers before the stopped one. `Router.SendAdvance` and the other `Router` methods do model that error and the half-made delivery.
- Liveness beyond `NoDeadlock`: a compare-and-exchange may fail spuriously for ever, so no bound on steps is claimed.
- Conservation.CounterConserved: counts a stopped worker with what it held when it stopped, because the counter does; the code has dropped those histories by then (`StoppedWorkersStayCharged`).
- A taken message changes the worker's private histories in one step before its amounts are published; other threads cannot see those histories, so only the publications interleave.
- The reconciliation channel: the bounded queue and the attempts to send are modelled, its consumers only as a queue in any state before an attempt (`ChangesAreDelivered`).
- Stamps.RunStamped: asks that no event arrives behind a later checkpoint; `EventStampedExact` says what happens when one does.
- Entities that two targets of one event share: undetermined by the code.
