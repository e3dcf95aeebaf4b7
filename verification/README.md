# Rozoro monitor: a Dafny model and its proofs

Rozoro's resident monitor is an event bus. Producers reserve numbered lifecycle
events in a spool, a daemon accepts them durably and reduces them to session
states and task projections, every actionable change takes the next generation,
and watchtower drivers consume generations through an offer, confirm, pull and
acknowledge ledger. This project models that behaviour and proves what it keeps
over every run.

| file | what it holds |
|---|---|
| `Common.dfy` | options, least and greatest elements, sorted enumerations |
| `Lifecycle.dfy`, `LifecycleOrder.dfy`, `LifecycleTruth.dfy`, `LifecycleMeaning.dfy` | the reducer; its confluence; the soundness of "quiescent"; what each availability means |
| `Handoff.dfy`, `HandoffMeaning.dfy`, `Report.dfy` | the handoff parser and its cursors; what its blocks and errors mean; report facts, reasons and the frozen tuple matrix |
| `Generations.dfy`, `Delivery.dfy`, `DeliveryFacts.dfy`, `LedgerMeaning.dfy` | generations with frozen snapshots; the driver ledger; its guarantees; what each call answers and changes |
| `Store.dfy`, `StoreRuns.dfy`, `LedgerRuns.dfy`, `SessionFold.dfy`, `LivenessFacts.dfy`, `AcceptanceFacts.dfy` | all transactions as one state machine; its invariant; what an event and an observation write and whom they wake; what drivers and sessions can rely on over whole runs; when host reports are silent |
| `EventStore.dfy` | the store as a class, each transaction updating its tables in place |
| `Coalescing.dfy`, `PendingOffers.dfy` | the notification coalescer: polls as interleaved steps, and its production path as a class |
| `Outbox.dfy`, `OutboxRuns.dfy`, `OutboxFacts.dfy`, `OutboxProgress.dfy`, `OutboxWitnesses.dfy` | producer spool, counter and import as a class; a crash-step machine; exactly-once ingestion end to end; what an undisturbed or retried pass gets done |
| `PendingSends.dfy`, `SendRuns.dfy` | the follow-up queue as a class; observers, sweeps and crashes over it |
| `Membership.dfy`, `MembershipRuns.dfy`, `MembershipFacts.dfy` | pane epochs and routes as a class; scanner and streams interleaved; what they let through |
| `Witnesses.dfy` | runs from the empty state on which a promise fails |

Tables are maps from their primary keys, and one transaction is one step. A
class method is proved equal to a function on table values, and the laws are
proved about those functions and about every run of them. Protocols that yield
in between (`poll`, subscription replacement, reservation under crashes, sends)
are step machines: one step per section that runs without yielding or per
durable effect, in any order, by any number of processes.

Where the code and its documentation disagree the model follows the code:

- `prepare_event` says that repeating an event id returns its original envelope
  (lib/rozoro_monitor/client.py:305-307). It does so exactly while the entry is
  still spooled (`RepeatReturnsIff`). Once the event is logged and unlinked the
  repeat is published anew under the next number the files know of
  (`RepeatOfLogged`), and the store refuses it for ever exactly when that number
  differs from the logged one (`RepeatRefusedIff`). `QuietRepeatIsRefused` is a
  crash-free run of that kind; after the crash of `CrashReusesNumber` the number
  is the same and the repeat is a duplicate (`CrashedRepeatIsDuplicate`).
- A producer number can be used twice: a crash between publication and counter
  save is not repaired by the retry, which returns early
  (lib/rozoro_monitor/client.py:322-328). `NumberIsNewIff` and
  `RemovalForgetsIff` give the exact condition, `CrashReusesNumber` a run.
- `record_delivery_outcome` can refuse the coalescer after a pull retired its
  redelivery; `RefusedExactlyWhenRetired` is the exact condition.
- `enqueue_pending_send` says that the older text must never also land
  (lib/rozoro_monitor/store.py:1386-1387). It still may exactly when an observer
  had claimed it and not yet submitted it (`SupersededMayLandIff`); a row that
  was pending, whose observer died, was answered, or found the pane gone, never
  lands. `SupersededLands` is a run.
- The sweep takes a row that is still delivering after an hour for abandoned by
  a dead daemon, but it reads the row's creation time, not its claim
  (lib/rozoro_monitor/store.py:1446-1461). The failed text may still land and be
  recorded delivered exactly when an observer holds it (`SweptMayLandIff`);
  `SweptLands` is a run.
- A stream that dies during the drain of its predecessor raises the rebuild flag,
  which the scan clears when the replacement returns
  (lib/rozoro_monitor/herdr.py:137); the monitor then polls levels without any
  stream until the membership changes. `DeathIsMissedIff` is the exact condition,
  `LostInDrain` a run.

## Model

| member | source | states |
|---|---|---|
| `Generations.BumpNeverCollides` | lib/rozoro_monitor/store.py:298-342 | a bump of a reachable board fails only when the changed task has no projection; none of its four inserts can meet an existing key |
| `Generations.BumpKeepsInv` | lib/rozoro_monitor/store.py:298-342 | every bump keeps: generations are exactly 1..latest, each with a pending row and a member; snapshots are complete and monotone in the task set; every stored row is inside the report matrix |
| `Generations.BumpExtends` | lib/rozoro_monitor/store.py:324-342 | a bump changes no snapshot, pending row or priority of an earlier generation |
| `Generations.UpsertKeepsInv` | lib/rozoro_monitor/store.py:281-296 | writing a task projection keeps the board invariant and its generation |
| `Generations.FullReport` | lib/rozoro_monitor/store.py:1221-1245 | the latest-row-per-task query through a generation returns exactly the rows frozen at it, in task order |
| `Generations.DeltaReport` | lib/rozoro_monitor/store.py:1221-1245 | the windowed query returns exactly the tasks bumped in (after, through], each as frozen at through, and is non-empty whenever the window is |
| `Generations.TrackedIsFrozen` | lib/rozoro_monitor/store.py:1297-1311 | the count of distinct tasks up to a generation is the number of rows frozen at it |
| `Generations.ReportsShowFrozen` | lib/rozoro_monitor/store.py:1221-1245 | each report of a reply shows every column of its task as frozen, one report per task, by ascending task |
| `Generations.RowsAtLegal` | lib/rozoro_monitor/protocol.py:302-317 | any set of frozen rows is a legal reply through its generation |
| `Generations.ReportsAreImmutable` | lib/rozoro_monitor/store.py:324-342 | on any board that extends another, a report through an already reached generation is the same |
| `Delivery.RegisterKeepsInv` | lib/rozoro_monitor/store.py:1005-1035 | registration keeps the driver invariant: cursor order, one open offer per epoch and the greatest of it, delivered cursors backed by a confirmed offer |
| `Delivery.OfferKeyIsFree` | lib/rozoro_monitor/store.py:1126-1136 | the key an offer is about to insert is never taken |
| `Delivery.OfferKeepsInv` | lib/rozoro_monitor/store.py:1093-1147 | offering keeps the driver invariant |
| `Delivery.WithdrawKeepsInv` | lib/rozoro_monitor/store.py:1149-1164 | withdrawing an unconfirmed offer keeps the driver invariant |
| `Delivery.RecordKeepsInv` | lib/rozoro_monitor/store.py:1166-1195 | recording an outcome keeps the driver invariant |
| `Delivery.ConfirmRaises` | lib/rozoro_monitor/store.py:1197-1219 | a granted confirmation that raises the cursor starts from delivered == acked and ends at its own generation; otherwise it is the redelivery of the delivered cursor |
| `Delivery.ConfirmKeepsInv` | lib/rozoro_monitor/store.py:1197-1219 | confirming keeps the driver invariant |
| `Delivery.ReconcileKeepsInv` | lib/rozoro_monitor/store.py:1259-1311 | pulling keeps the driver invariant although it retires offers |
| `Delivery.AckDeliveredKeepsInv` | lib/rozoro_monitor/store.py:1313-1337 | the exact acknowledgement keeps the driver invariant |
| `Delivery.AckGenerationKeepsInv` | lib/rozoro_monitor/store.py:1339-1365 | the bound acknowledgement keeps the driver invariant |
| `Delivery.DisableKeepsInv` | lib/rozoro_monitor/store.py:906-932 | disabling keeps the driver invariant and leaves the driver without rows |
| `Delivery.AdvanceKeepsInv` | lib/rozoro_monitor/store.py:339-342 | raising every latest cursor on a bump keeps the driver invariant |
| `DeliveryFacts.OfferNeverCollides` | lib/rozoro_monitor/store.py:1126-1136 | an offer is granted exactly to the current connection; the key conflict is unreachable |
| `DeliveryFacts.RegisterRefusals` | lib/rozoro_monitor/store.py:1005-1035 | registration is refused exactly for a disabled driver or a changed harness |
| `DeliveryFacts.DisableRetries` | lib/rozoro_monitor/store.py:906-932 | disable is granted exactly when already disabled or fully acknowledged, and repeating a granted disable changes nothing |
| `DeliveryFacts.ReconcileNeverFails` | lib/rozoro_monitor/store.py:1282-1304 | a pull is granted exactly to a registered driver: neither the missing confirmed offer nor the older open one can occur |
| `DeliveryFacts.AckAfterReconcile` | lib/rozoro_monitor/store.py:1323-1332 | acknowledging the cursor a pull just returned always succeeds and moves only acked |
| `DeliveryFacts.AckNeedsPullIff` | lib/rozoro_monitor/store.py:1323-1332 | without a pull the exact acknowledgement of the delivered cursor is refused iff an earlier connection left an offer open in (acked, delivered], or the current one has that redelivery outstanding |
| `DeliveryFacts.StaleCallsFail` | lib/rozoro_monitor/store.py:1037-1045 | each of the seven connection-bound calls is refused over a superseded connection and leaves the tables unchanged |
| `DeliveryFacts.RegisterSupersedes` | lib/rozoro_monitor/store.py:1005-1035 | a granted registration makes every earlier connection of the driver stale, takes a larger epoch, has nothing outstanding and moves no cursor |
| `DeliveryFacts.NoWakeIff` | lib/rozoro_monitor/store.py:1093-1147 | no wake is offered iff latest == acked or this epoch already confirmed the delivered but unacknowledged cursor |
| `DeliveryFacts.WakeFacts` | lib/rozoro_monitor/store.py:1093-1147 | a granted wake names a generation beyond acked, the delivered cursor unless that is acknowledged; its offer then stands unanswered and is the only row changed (`WakeMeans` says what it carries) |
| `DeliveryFacts.FreshConnectionIsOffered` | lib/rozoro_monitor/store.py:1093-1147 | a connection without offers and with anything pending is offered exactly delivered if delivered > acked, else latest |
| `DeliveryFacts.FrontierAgrees` | lib/rozoro_monitor/store.py:1047-1091 | the read-only frontier and the mutating offer agree on silence, generation and priority |
| `DeliveryFacts.WakeConfirms` | lib/rozoro_monitor/store.py:1197-1219 | confirming the wake that was just offered is always granted |
| `DeliveryFacts.RoundAdvances` | lib/rozoro_monitor/store.py:1093-1365 | one offer, confirm, pull, acknowledge round makes acked == delivered, advances whenever anything was pending, and from an idle connection reaches latest |
| `DeliveryFacts.TwoRoundsDrain` | lib/rozoro_monitor/store.py:1093-1365 | from any reachable ledger two rounds acknowledge everything bumped: no wake is lost |
| `DeliveryFacts.WithdrawUndoesOffer` | lib/rozoro_monitor/store.py:1149-1164 | withdrawing the wake just offered restores the ledger exactly, or removes just that row when it had stood before |
| `DeliveryFacts.RetryIsExact` | lib/rozoro_monitor/notify.py:204-205 | a deferral or error is always recorded for the wake just offered and consumes nothing: offering again returns the identical wake |
| `DeliveryFacts.AcksAgree` | lib/rozoro_monitor/store.py:1313-1365 | after a pull the exact and the bound acknowledgement of the delivered cursor have the same answer and leave the same ledger |
| `LedgerMeaning.WakeMeans` | lib/rozoro_monitor/store.py:1093-1147 | a granted wake names the open offer, else the unacknowledged delivery, else latest; it is urgent iff an urgent generation lies in its window and counts the distinct tasks changed in it |
| `LedgerMeaning.FrontierMeans` | lib/rozoro_monitor/store.py:1047-1091 | the frontier names the same, with the same priority, and is immediate iff it is an open offer or a redelivery |
| `LedgerMeaning.RegisterMeans` | lib/rozoro_monitor/store.py:1005-1035 | the exact grant, epoch and rows of a registration; a first one starts at the current generation with nothing delivered |
| `LedgerMeaning.WithdrawMeans` | lib/rozoro_monitor/store.py:1149-1164 | granted iff that offer of the connection is unconfirmed, and then deletes exactly it |
| `LedgerMeaning.RecordMeans` | lib/rozoro_monitor/store.py:1166-1195 | recorded for an unconfirmed offer, ignored for an acknowledged one, refused otherwise; state and shortened error change, no cursor and no offer |
| `LedgerMeaning.ConfirmMeans` | lib/rozoro_monitor/store.py:1197-1219 | granted afresh iff the generation is the newest offer and unconfirmed; then delivered becomes it and nothing is acknowledged |
| `LedgerMeaning.PullMeans` | lib/rozoro_monitor/store.py:1259-1311 | a pull moves no cursor, answers every offer of its driver when there is anything to pull, and changes nothing else |
| `LedgerMeaning.AckDeliveredMeans` | lib/rozoro_monitor/store.py:1313-1337 | granted iff it names the unacknowledged delivered cursor over answered offers; then acked is exactly it |
| `LedgerMeaning.AckGenerationMeans` | lib/rozoro_monitor/store.py:1339-1365 | granted iff acked < through <= delivered; then acked is exactly through, the offers up to it are confirmed, and nothing else changes |
| `LedgerMeaning.DisableMeans` | lib/rozoro_monitor/store.py:906-932 | granted iff disabled before or nothing is unacknowledged; the rows of that driver go and no other |
| `LedgerMeaning.AckedWasNamed` | lib/rozoro_monitor/store.py:1313-1365 | over every run the acked cursor is 0 or a generation that some acknowledgement named |
| `StoreRuns.AcceptFresh` | lib/rozoro_monitor/store.py:727-812 | a fresh envelope is rejected exactly for a bad number, changed identity or invalid identity; otherwise it takes the next durable sequence; no reason is missing and no board key collides |
| `StoreRuns.StepKeeps` | lib/rozoro_monitor/store.py:727-1365 | every transaction keeps the board, driver and unique-id invariants and extends the board |
| `StoreRuns.RunKeepsInv` | lib/rozoro_monitor/store.py:727-1365 | every run from an empty database keeps them |
| `StoreRuns.RunExtends` | lib/rozoro_monitor/store.py:324-342 | over any further run nothing frozen or recorded changes |
| `LedgerRuns.WakesPartition` | lib/rozoro_monitor/store.py:1197-1219 | over every run the windows of fresh confirmed wakes chain from 0 to the delivered cursor without gap or overlap |
| `LedgerRuns.AnnouncedExactlyOnce` | lib/rozoro_monitor/store.py:1197-1219 | a generation lies in exactly one such window iff it is between 1 and the delivered cursor |
| `LedgerRuns.CursorsGrow` | lib/rozoro_monitor/store.py:1197-1365 | acked, delivered and latest of a driver never decrease over any further run |
| `LedgerRuns.StaysDisabled` | lib/rozoro_monitor/store.py:906-932 | a driver row disappears only by disabling, and disabled is for ever |
| `LedgerRuns.OfferStands` | lib/rozoro_monitor/store.py:1104-1125 | over any further run that does not answer, withdraw, pull, acknowledge, re-register or disable the driver, offering again returns the identical generation, priority and count and changes nothing |
| `LedgerRuns.OldEpochsAreRefused` | lib/rozoro_monitor/store.py:1037-1045 | a connection once superseded or disabled is refused by every bound call, without effect, after every later run |
| `LedgerRuns.SupersedesForEver` | lib/rozoro_monitor/store.py:1005-1035 | a granted registration or disable makes the connection before it such a one, whatever follows |
| `LedgerRuns.FirstConnectionNeedsNoPull` | lib/rozoro_monitor/store.py:1323-1332 | after any run, a driver's first connection can acknowledge the delivered cursor without a pull |
| `LedgerRuns.PullIsExact` | lib/rozoro_monitor/store.py:1259-1311 | every pull from a reachable store: legal by the protocol, empty iff nothing new, exactly the window tasks (or all) frozen at delivered, and reported + unchanged == tracked |
| `LedgerRuns.ReconcileIsExact` | lib/rozoro_monitor/store.py:1247-1257 | a bound reconcile is granted iff through is reached, and then is exactly the legal rows frozen there |
| `LedgerRuns.RepliesNeverChange` | lib/rozoro_monitor/store.py:1221-1257 | generation N+1 never leaks into N: rows and counts through a reached generation are the same after every later run |
| `EventStores.EventStore.BumpActionable` | lib/rozoro_monitor/store.py:298-342 | in place: the tables become exactly the bumped tables, or stay as they were |
| `EventStores.EventStore.AcceptEvent` | lib/rozoro_monitor/store.py:727-812 | in place: equal to the specified acceptance, whose answers and rows `AcceptedMeans`, `RepeatMeans` and `RejectedMeans` spell out, and the invariant kept |
| `EventStores.EventStore.ReconcileHerdrLiveness` | lib/rozoro_monitor/store.py:838-895 | in place, one row after the other: equal to the specified liveness transaction |
| `EventStores.EventStore.RegisterDriver` | lib/rozoro_monitor/store.py:1005-1035 | in place: equal to the specified registration |
| `EventStores.EventStore.OfferNotification` | lib/rozoro_monitor/store.py:1093-1147 | in place: equal to the specified offer, which `WakeMeans` spells out |
| `EventStores.EventStore.WithdrawUnconfirmedOffer` | lib/rozoro_monitor/store.py:1149-1164 | in place: equal to the specified withdrawal |
| `EventStores.EventStore.RecordDeliveryOutcome` | lib/rozoro_monitor/store.py:1166-1195 | in place: equal to the specified outcome record |
| `EventStores.EventStore.ConfirmDelivery` | lib/rozoro_monitor/store.py:1197-1219 | in place: equal to the specified confirmation |
| `EventStores.EventStore.ReconcileDelivered` | lib/rozoro_monitor/store.py:1259-1311 | in place: equal to the specified pull, including the offers it retires |
| `EventStores.EventStore.AckDelivered` | lib/rozoro_monitor/store.py:1313-1337 | in place: equal to the specified exact acknowledgement |
| `EventStores.EventStore.AckGeneration` | lib/rozoro_monitor/store.py:1339-1365 | in place: equal to the specified bound acknowledgement, which `AckGenerationMeans` spells out |
| `EventStores.EventStore.DisableDriverAuthority` | lib/rozoro_monitor/store.py:906-932 | in place: equal to the specified disable |
| `Report.SummariesAreReportable` | lib/rozoro_monitor/store.py:345-382 | a captured handoff, readable or not, never yields a valid report without a known verdict nor a verdict on an invalid one |
| `Report.MatrixIsExact` | lib/rozoro_monitor/protocol.py:138-153 | the frozen tuple matrix is exactly what the reason function can produce from such reports |
| `Report.ReasonNeverRaises` | lib/rozoro_monitor/store.py:385-407 | the final raise of the reason function is unreachable, and its answer lies in the matrix |
| `Report.StateMeans` | lib/rozoro_monitor/store.py:345-356 | a capture is malformed iff it has a protocol error, missing iff it has no turn block and no error, unreadable ones malformed |
| `Report.VerdictMeans` | lib/rozoro_monitor/store.py:357-363 | the verdict of a valid capture is that of its earliest block waiting for an answer, read as needs-action where that word asks for nothing, else that of its last block |
| `Report.SummaryMeans` | lib/rozoro_monitor/store.py:364-382 | what the summary carries of counts, cursor, open items, errors and the last block |
| `Report.ValidateReports` | lib/rozoro_monitor/protocol.py:244-268 | the two validation loops accept exactly the replies whose rows are legal, bounded by through and of distinct tasks |
| `Lifecycle.ReduceEvent` | lib/rozoro_monitor/reducer.py:116-137 | the draining loop computes the specified reduction, whose answers `AvailabilityMeans`, `RunAvailability` and `DispositionMeans` spell out |
| `Lifecycle.DocumentRoundTrip` | lib/rozoro_monitor/store.py:217-247 | decoding an encoded session state returns it, its job list and the stored fields of its buffered events included |
| `Lifecycle.FreezeRoundTrip` | lib/rozoro_monitor/reducer.py:30-37 | an event frozen to key-sorted field pairs and read back field by field is the same event |
| `LifecycleOrder.RunSettles` | lib/rozoro_monitor/reducer.py:116-253 | after any run of arrivals and host observations the state is the in-order fold of the longest received prefix, the rest buffered in order, then the last observation |
| `LifecycleOrder.CompleteRunsConverge` | lib/rozoro_monitor/reducer.py:116-137 | all complete arrival orders, with any repetition, end in the fold of the whole history with no gap and nothing buffered |
| `LifecycleOrder.GapIffMissing` | lib/rozoro_monitor/reducer.py:116-137 | a gap is flagged iff some received number is above a missing one; the buffer is exactly what lies beyond the prefix |
| `LifecycleOrder.ObserveCommutes` | lib/rozoro_monitor/reducer.py:240-242 | observing the host before or after an event, drained ones included, gives the same state |
| `LifecycleOrder.EndedIsTerminal` | lib/rozoro_monitor/reducer.py:214-221 | once a session has ended it stays ended, gone and unavailable under every further run |
| `LifecycleTruth.QuiescentInOrder` | lib/rozoro_monitor/reducer.py:140-237 | with a truthful history, quiescent means no job runs; silent starts are allowed everywhere except between two turns of a certified session |
| `LifecycleTruth.QuiescentIsTrue` | lib/rozoro_monitor/reducer.py:116-253 | whatever part of such a history arrived in whatever order, mixed with host observations and adapter edges, a quiescent session runs no job at the producer moment it reached |
| `LifecycleTruth.AdapterFollows` | lib/rozoro_monitor/reducer.py:245-253 | an adapter edge keeps the state accounted for and voids both axes, so availability is unknown or gone until new facts arrive |
| `LifecycleTruth.ShellTurnIsTruthful` | hooks/claude-rozoro-event.py:97-131 | a turn that starts a background shell without an edge and counts it when it stops meets the hypothesis |
| `LifecycleTruth.SilentStartIsMissed` | lib/rozoro_monitor/reducer.py:140-237 | between turns the hypothesis is needed: after any truthful history that ends quiescent, a job started in silence runs behind a quiescent session |
| `LifecycleTruth.SilentStartExists` | lib/rozoro_monitor/reducer.py:140-237 | such histories exist: one certified clear stop is truthful and quiescent |
| `LifecycleMeaning.AvailabilityMeans` | lib/rozoro_monitor/reducer.py:78-99 | from its history alone, adapter edges included: a session that has not ended is unknown before a turn edge, busy within a turn, and between turns waiting iff background work is believed to run, quiescent iff a count leaves none, unknown iff nothing certifies that |
| `LifecycleMeaning.AvailabilityInOrder` | lib/rozoro_monitor/reducer.py:140-237 | the same for histories of producer events alone, in order |
| `LifecycleMeaning.SettledAvailability` | lib/rozoro_monitor/reducer.py:102-113 | for any part of a history, received in any order: gone iff the session ended or the host last said so, otherwise unknown iff behind a gap, otherwise that of the longest received prefix |
| `LifecycleMeaning.RunAvailability` | lib/rozoro_monitor/reducer.py:102-137 | the same after every run of arrivals and host observations |
| `LifecycleMeaning.ReportedIsTrue` | lib/rozoro_monitor/reducer.py:155-211 | completeness: after a true count, or a start with nothing running, followed only by reported changes, availability between turns is waiting iff a job really runs, else quiescent iff a count certifies it |
| `LifecycleMeaning.ReportedCount` | lib/rozoro_monitor/reducer.py:66-69 | in such a history the reported number of background jobs is the number really running |
| `LifecycleMeaning.CountMeans` | lib/rozoro_monitor/reducer.py:66-69 | a number is given exactly while a count certifies it, and is that of the named and the unnamed jobs |
| `LifecycleMeaning.EdgeForgets` | lib/rozoro_monitor/reducer.py:245-253 | an adapter edge, lost or regained, leaves unknown, and the next certified turn edge is believed again |
| `LifecycleMeaning.EndedIsGone` | lib/rozoro_monitor/reducer.py:214-230 | an ended session is gone, stopped, clear and counts no job |
| `LifecycleMeaning.DispositionMeans` | lib/rozoro_monitor/reducer.py:116-137 | after any run the answer to an arrival: invalid iff not positive, stale iff received before, applied iff every lower number was, gap otherwise |
| `SessionFold.AcceptFolds` | lib/rozoro_monitor/store.py:727-812 | accepting an event moves its persisted session, through its encoded form, to the fold of what is then received under the same last pane report, and no other session |
| `SessionFold.RunFolds` | lib/rozoro_monitor/store.py:250-279 | over every production run each persisted session is the fold of its first-accepted events and of exactly the last pane the host reported for it |
| `SessionFold.PersistedAvailability` | lib/rozoro_monitor/store.py:250-279 | the persisted availability after every production run: gone iff the accepted history ended or the pane was last reported gone, unknown behind a gap, otherwise that of the history in order |
| `SessionFold.EverySessionIsVisited` | lib/rozoro_monitor/store.py:848-854 | after every run an observation visits each stored session of its task exactly once and no other |
| `AcceptanceFacts.AcceptedMeans` | lib/rozoro_monitor/store.py:727-812 | an accepted crew event: its session row, its task row with the session availability and the handoff state and verdict, and a generation iff that row is news, exactly one, with its reason and priority |
| `AcceptanceFacts.OthersWriteNoRow` | lib/rozoro_monitor/store.py:410-438 | an event of an unregistered session or a watchtower writes its session row only and wakes no one |
| `AcceptanceFacts.RejectedMeans` | lib/rozoro_monitor/store.py:727-764 | a new event is rejected for its number, a changed identity or an improper one, in this order, only for these, and without a trace |
| `AcceptanceFacts.RepeatMeans` | lib/rozoro_monitor/store.py:734-741 | a known event id is a duplicate under its durable number iff the envelope is identical, and a conflict otherwise |
| `AcceptanceFacts.ReasonMeans` | lib/rozoro_monitor/store.py:385-407 | each actionable reason by its exact condition on availability, report state and verdict |
| `AcceptanceFacts.ObservedRowMeans` | lib/rozoro_monitor/store.py:848-895 | one row of a host observation: session, refreshed task row, and a generation iff it enters an actionable reason or loses a connected adapter, with its reason and priority |
| `AcceptanceFacts.ObservationMeans` | lib/rozoro_monitor/store.py:858-862 | what a pane and an adapter level change of a session, and what an unknown level leaves alone |
| `LivenessFacts.RowsCount` | lib/rozoro_monitor/store.py:848-895 | one observation over all sessions of a task leaves the last session's reason, and takes exactly one generation per edge into an actionable reason |
| `LivenessFacts.RepeatIsQuietIff` | lib/rozoro_monitor/store.py:848-895 | reporting the same pane level again takes no generation iff all sessions of the task give it the same reason |
| `LivenessFacts.SingleSessionIsIdempotent` | lib/rozoro_monitor/store.py:848-895 | for a task with at most one session row a repeated report changes no table |
| `Witnesses.RepeatIsNotSilent` | lib/rozoro_monitor/store.py:848-895 | a run from the empty database with two sessions of one task after which a repeated report takes a generation |
| `Coalescing.RunKeepsInv` | lib/rozoro_monitor/notify.py:124-213 | every interleaving of polls, bumps, acknowledgements and pulls keeps the claim, ledger and delivery-log invariant |
| `Coalescing.WakesAreExclusive` | lib/rozoro_monitor/notify.py:124-213 | at most one actuator call in flight, each for exactly the frontier its poll claimed, none reported delivered twice per connection |
| `Coalescing.PollsNeverRaise` | lib/rozoro_monitor/notify.py:124-213 | under bumps and acknowledgements no store call of any poll is refused |
| `Coalescing.RefusedExactlyWhenRetired` | lib/rozoro_monitor/notify.py:186-203 | with pulls too, the only refusable call is recording a non-delivery, refused iff its wake was retired without being acknowledged |
| `Coalescing.ReconcileRetiresRedelivery` | lib/rozoro_monitor/store.py:1293-1298 | a pull during a redelivery makes the later deferral record fail |
| `Coalescing.ReconcileRace` | lib/rozoro_monitor/notify.py:124-213 | that race is reachable on every fresh connection that owes a redelivery |
| `Witnesses.RaceFromEmpty` | lib/rozoro_monitor/notify.py:186-203 | the same race over a run from the empty database |
| `Coalescing.RunDeadline` | lib/rozoro_monitor/notify.py:132-147 | an open collection never closes later than one window from now |
| `Coalescing.SecondPollClaims` | lib/rozoro_monitor/notify.py:124-160 | while the claim is free, two polls one window apart win it for a pending frontier |
| `Coalescing.GateWinsIff` | lib/rozoro_monitor/notify.py:132-160 | a gate wins the claim iff it is free and the frontier is immediate, urgent or past its window; an open window keeps its deadline whatever joins it |
| `Coalescing.CleanMeans` | lib/rozoro_monitor/notify.py:161-176 | a settled or empty wake takes its collection along unless that already moved on |
| `Coalescing.MismatchIsUndone` | lib/rozoro_monitor/notify.py:177-185 | a poll that finds another generation than it claimed for takes that offer back: no actuator call, and the ledger as it was but for that offer |
| `Coalescing.EmptyClaimIsDropped` | lib/rozoro_monitor/notify.py:168-176 | a claim whose wake was acknowledged away delivers nothing and drops its window unless that moved on |
| `Coalescing.MatchedClaimCalls` | lib/rozoro_monitor/notify.py:177-191 | a claim that finds its own generation hands exactly that to the actuator |
| `Coalescing.RunFlight` | lib/rozoro_monitor/notify.py:155-213 | over every run a generation is marked under way exactly while a poll holds the claim for it |
| `PendingOffers.Coalescer.OfferPending` | lib/rozoro_monitor/notify.py:95-122 | in place: fields, offers and answer equal the specified poll of the socket path, which `PollNotifiesIff` spells out |
| `PendingOffers.AskFacts` | lib/rozoro_monitor/notify.py:95-122 | a poll that notifies names the newest, still open offer of its epoch, which it had not just named |
| `PendingOffers.NotificationsIncrease` | lib/rozoro_monitor/notify.py:95-122 | over one connection the notified generations strictly increase, whatever happens around it |
| `PendingOffers.PollNotifiesIff` | lib/rozoro_monitor/notify.py:95-122 | a poll notifies iff something is pending that it did not notify last and that is immediate, urgent or past its window, and then names it; an open window is never put off |
| `PendingOffers.PendingIsNotified` | lib/rozoro_monitor/notify.py:95-122 | after any run on a connection, what is pending and was not notified last is notified by one of two polls one window apart |
| `Outbox.SpoolDirectory.MaxSpooledSeq` | lib/rozoro_monitor/client.py:283-299 | the directory pass returns the greatest number spooled for the session, or 0 |
| `Outbox.SpoolDirectory.PublishLocked` | lib/rozoro_monitor/client.py:223-241 | an id that is spooled with other content is refused and kept; otherwise the envelope is spooled |
| `Outbox.SpoolDirectory.PrepareEvent` | lib/rozoro_monitor/client.py:302-359 | in place: answers and files equal the specified reservation, counter saved after publication |
| `Outbox.SpoolDirectory.RemoveReserved` | lib/rozoro_monitor/client.py:381-402 | in place: removes exactly this envelope, refuses a changed one, accepts an absent one |
| `Outbox.SpoolDirectory.ImportSpool` | lib/rozoro_monitor/server.py:285-356 | in place: the spool and the store end as if each entry in (number, name) order were committed and then unlinked iff accepted; errors counts what is kept |
| `Outbox.ListingFacts` | lib/rozoro_monitor/server.py:335 | the import order names every entry once and never a higher number before a lower one |
| `OutboxRuns.PerformKeeps` | lib/rozoro_monitor/client.py:302-419 | every step of producers, importer, store and crashes keeps the protocol invariant |
| `OutboxRuns.RunKeeps` | lib/rozoro_monitor/client.py:302-419 | every run of such steps keeps it |
| `OutboxRuns.StoreIsRun` | lib/rozoro_monitor/server.py:335-350 | the store inside the machine is the store after exactly the transactions its sends, imports and background work asked for |
| `OutboxFacts.NothingIsLost` | lib/rozoro_monitor/client.py:302-319 | whatever crashes: every reserved envelope is in the spool or the log, the log holds only reserved ones and each id once, and the published numbers of a session are exactly 1..n |
| `OutboxFacts.AcceptedOnce` | lib/rozoro_monitor/store.py:727-745 | an accepted envelope keeps its durable sequence for ever, no other row has its id, and every retry is answered as that duplicate |
| `OutboxFacts.EvidenceNeverChanges` | lib/rozoro_monitor/server.py:335-350 | the importer never finds its entry changed between commit and unlink |
| `OutboxFacts.NumberIsNewIff` | lib/rozoro_monitor/client.py:331-346 | a reservation takes an unused number iff the counter or the spool still remembers the highest published one |
| `Outbox.FrontierMeans` | lib/rozoro_monitor/client.py:329-336 | the highest known number is the greater of the saved counter and what the spool holds of the session |
| `Outbox.ReservationMeans` | lib/rozoro_monitor/client.py:310-349 | what reserving answers, from candidate, spool and highest number: its own envelope, a collision, a refusal, or the next number |
| `OutboxFacts.RemovalForgetsIff` | lib/rozoro_monitor/client.py:381-402 | removing an entry forgets that number iff the counter was not saved so far and no other spooled entry of the session carries it |
| `OutboxFacts.NumbersAreUnique` | lib/rozoro_monitor/client.py:331-349 | without a crash between publication and counter save no two events of a session share a number |
| `OutboxWitnesses.CrashReusesNumber` | lib/rozoro_monitor/client.py:322-328 | with such a crash, a retry, its acceptance and its cleanup, the next event of the session takes the same number |
| `OutboxFacts.RepeatReturnsIff` | lib/rozoro_monitor/client.py:305-307 | repeating an event id without a number returns its own envelope iff that envelope is still spooled |
| `OutboxFacts.NumberedRepeatIsSafe` | lib/rozoro_monitor/client.py:337-343 | a repeat that carries its number is never published anew unless the files forgot that number |
| `OutboxFacts.ConflictStaysSpooled` | lib/rozoro_monitor/server.py:335-352 | an entry whose id the log holds with other content is refused and kept by every later run |
| `OutboxFacts.RepeatOfLogged` | lib/rozoro_monitor/client.py:322-346 | repeating an event that is logged and no longer spooled publishes it under the next number the files know of, unless another envelope sits under its id or numbers ran out |
| `OutboxFacts.RepeatRefusedIff` | lib/rozoro_monitor/client.py:305-307 | that republished repeat is refused for ever iff its new number differs from the logged one |
| `OutboxWitnesses.QuietRepeatIsRefused` | lib/rozoro_monitor/client.py:322-349 | a crash-free run after which the repeat is published as number 2 and refused for ever |
| `OutboxWitnesses.QuietRepeatIsCrashFree` | lib/rozoro_monitor/client.py:348-349 | in that run nothing dies between publication and counter save |
| `OutboxWitnesses.CrashedRepeatIsDuplicate` | lib/rozoro_monitor/client.py:322-349 | a run with the crash after which the repeat gets its own number and is not refused |
| `OutboxFacts.AcceptedLeavesNoGap` | lib/rozoro_monitor/store.py:727-812 | whatever crashed: once all of a session is accepted its persisted state has no gap, no buffer, and stands at its highest number |
| `OutboxFacts.AcceptedIsFold` | lib/rozoro_monitor/store.py:727-812 | end to end, without that crash: once all of a session is accepted its persisted state is the fold of its events in reservation order and of exactly the last pane the host reported for it |
| `OutboxProgress.ImportSettles` | lib/rozoro_monitor/server.py:335-352 | an import leaves in the spool exactly the entries that the log does not hold |
| `OutboxProgress.MachineImports` | lib/rozoro_monitor/server.py:335-352 | step by step the undisturbed import of the machine is the whole import, and gives the lock back |
| `OutboxProgress.CrashedImportRecovers` | lib/rozoro_monitor/server.py:335-352 | whatever step an import died in, the next one settles the spool |
| `OutboxProgress.SendCompletes` | lib/rozoro_monitor/client.py:310-349 | an undisturbed producer leaves its event in the log iff the store accepts it, and in the spool iff it does not |
| `OutboxProgress.RetryCompletes` | lib/rozoro_monitor/client.py:310-320 | a producer that repeats a spooled event takes up that envelope and settles it in the same way |
| `PendingSends.SendQueue.Enqueue` | lib/rozoro_monitor/store.py:1382-1402 | in place: cancels the open rows and appends the new one; a repeated id is refused and cancels nothing |
| `PendingSends.SendQueue.Claim` | lib/rozoro_monitor/store.py:1403-1421 | in place: returns and marks exactly the pending row, if there is one |
| `PendingSends.SendQueue.Resolve` | lib/rozoro_monitor/store.py:1423-1432 | in place: retires the row whatever its state; a non-terminal outcome is refused |
| `PendingSends.SendQueue.SweepExpired` | lib/rozoro_monitor/store.py:1444-1476 | in place: the two loops fail exactly the overdue and the abandoned rows and return both as they were |
| `PendingSends.SweepIsExact` | lib/rozoro_monitor/store.py:1444-1476 | after a sweep nothing overdue or stale is open, and a row changed iff it was one of those |
| `PendingSends.EnqueueMeans` | lib/rozoro_monitor/store.py:1382-1402 | open rows of the task are cancelled as superseded, other rows stay, and the new row waits last with its deadline |
| `PendingSends.ClaimMeans` | lib/rozoro_monitor/store.py:1403-1421 | a claim finds the task's only pending row and changes nothing but its state |
| `PendingSends.ResolveMeans` | lib/rozoro_monitor/store.py:1423-1432 | an outcome goes to the row of that id, whatever its state, and to no other; its text keeps 128 characters |
| `SendRuns.OutcomeIsRecorded` | lib/rozoro_monitor/server.py:377-441 | a flight is recorded delivered iff its pane accepted the text, and failed with the error otherwise |
| `SendRuns.DeliveredWasSubmitted` | lib/rozoro_monitor/server.py:377-441 | over every run no follow-up is recorded delivered whose text was not submitted |
| `SendRuns.NeverPendingAgain` | lib/rozoro_monitor/store.py:1382-1476 | over any moves a row keeps its place, id, task and text, and never returns to pending |
| `SendRuns.SubmittedAtMostOnce` | lib/rozoro_monitor/server.py:377-441 | over every interleaving: one open row per task, no text submitted twice, only claimed ones submitted, claims of one task in queue order |
| `SendRuns.SupersededNeverSent` | lib/rozoro_monitor/server.py:377-404 | a row that left pending unclaimed is never claimed nor submitted |
| `SendRuns.EnqueueSupersedes` | lib/rozoro_monitor/server.py:612-615 | enqueueing cancels the pending row it replaces, whose text is then never submitted |
| `SendRuns.MayLandIff` | lib/rozoro_monitor/server.py:377-404 | from any sound state a text not yet submitted may still land iff its row is pending or an observer holds it, however the row has been marked |
| `SendRuns.SupersededMayLandIff` | lib/rozoro_monitor/store.py:1382-1402 | after a superseding enqueue the older text may land iff an observer held it at that moment |
| `SendRuns.SweptMayLandIff` | lib/rozoro_monitor/store.py:1444-1476 | after a sweep failed a row, overdue or abandoned, its text may land iff an observer held it at that moment |
| `SendRuns.ClaimedMayStillLand` | lib/rozoro_monitor/store.py:1423-1432 | from any sound state, a held text whose row is superseded or swept is still submitted when its observer goes on, and its row ends delivered |
| `Witnesses.SupersededLands` | lib/rozoro_monitor/store.py:1386-1395 | a run from the empty queue in which a superseded text lands and is recorded delivered |
| `Witnesses.SweptLands` | lib/rozoro_monitor/store.py:1457-1461 | a run from the empty queue in which a row swept as abandoned lands and is recorded delivered |
| `Membership.MembershipMonitor.Found` | lib/rozoro_monitor/herdr.py:132-134 | the loop keeps exactly the known entries whose files were torn |
| `Membership.MembershipMonitor.BumpRoutes` | lib/rozoro_monitor/herdr.py:146-149 | the loop gives every changed task, and no other, its next route generation |
| `Membership.MembershipMonitor.Apply` | lib/rozoro_monitor/herdr.py:175-181 | reconciles exactly when the epoch and route it was given are still current |
| `MembershipRuns.StepKeeps` | lib/rozoro_monitor/herdr.py:127-210 | every move of scanner and streams keeps the epoch, read, routing and stream invariant |
| `MembershipRuns.RunKeeps` | lib/rozoro_monitor/herdr.py:127-210 | every run keeps it |
| `MembershipFacts.StaleReadNeverLands` | lib/rozoro_monitor/herdr.py:182-193 | a reconciled level had no event of its pane consumed since its read began |
| `MembershipFacts.ReadLandsIff` | lib/rozoro_monitor/herdr.py:182-193 | a finished read is reconciled iff no such event was consumed |
| `MembershipFacts.EventLandsIff` | lib/rozoro_monitor/herdr.py:199-205 | under any replacement in progress a live stream is let through for a task iff the newest membership still gives it that pane |
| `MembershipFacts.ObservationsAreOfMembers` | lib/rozoro_monitor/herdr.py:175-205 | every reconciled observation is of the pane the newest membership gives its task |
| `MembershipFacts.RemovedIff` | lib/rozoro_monitor/herdr.py:130-134 | a task leaves the newest membership iff a scan finds its file validly absent, or a failed replacement that had added it is undone |
| `MembershipFacts.OldRoutesAreFenced` | lib/rozoro_monitor/herdr.py:143-174 | after a successful replacement whatever is reconciled for a changed task comes from the new stream or a later one |
| `MembershipFacts.DrainDeliversUnchanged` | lib/rozoro_monitor/herdr.py:167-174 | while the former stream drains its events are reconciled exactly for unchanged tasks |
| `MembershipFacts.DeathIsMissedIff` | lib/rozoro_monitor/herdr.py:136-137 | an idle monitor loses a dead subscription iff it was dead when its drain ended, or a failed replacement restored it unflagged |
| `MembershipFacts.DeathIsNoticed` | lib/rozoro_monitor/herdr.py:199-210 | without those moves, an idle monitor always has a live subscription or a rebuild pending |
| `MembershipFacts.DrainLosesDeath` | lib/rozoro_monitor/herdr.py:136-137 | a new stream that dies while the former one drains leaves no stream and no rebuild flag |
| `MembershipFacts.FailLosesDeath` | lib/rozoro_monitor/herdr.py:158-161 | a subscription that dies under a replacement that then fails is restored dead and unflagged |
| `Witnesses.LostInDrain` | lib/rozoro_monitor/herdr.py:136-137 | a run from the start in which the first stream is lost in its own drain |
| `Witnesses.LostInFailure` | lib/rozoro_monitor/herdr.py:158-161 | a run from the start in which the stream is lost by a failed replacement |
| `MembershipFacts.LostUntilChanged` | lib/rozoro_monitor/herdr.py:135-138 | and none comes back until the membership changes or a rebuild is forced |
| `MembershipFacts.ScanReplacesIff` | lib/rozoro_monitor/herdr.py:127-149 | a scan replaces the subscription iff forced, flagged or the membership differs, and otherwise goes on to read every member |
| `MembershipFacts.ReplacementLooksAtAll` | lib/rozoro_monitor/herdr.py:143-166 | a new subscription goes live only after each member was reconciled by a level read since it started, or its pane had an event meanwhile |
| `MembershipFacts.PollLooksAtAll` | lib/rozoro_monitor/herdr.py:138-142 | a quiet scan rests only after each member was read or had an event |
| `MembershipFacts.EventWaitsForAll` | lib/rozoro_monitor/herdr.py:199-210 | a consumed event is kept for every task its stream routes to the pane, and no further one is taken before each had its turn |
| `Handoff.ParseText` | lib/rozoro_monitor/handoff.py:40-122 | the parsing loops compute the specified blocks, errors, cursor and open items |
| `Handoff.LegacyIncreases` | lib/rozoro_monitor/handoff.py:40-122 | legacy indices of blocks strictly increase |
| `Handoff.AckPairAgrees` | bin/rzr-ack.sh:9-16 | the cursor pair written for block n reads back as n through either file, with the same open items and no cursor error |
| `Handoff.AppendKeepsBlocks` | lib/rozoro_monitor/handoff.py:40-122 | appending a turn block leaves every earlier block as it was, and new legacy indices lie beyond the old headings |
| `Handoff.AppendKeepsOpenItems` | lib/rozoro_monitor/handoff.py:95-122 | under valid cursors the acknowledged count stays and the earlier open items stay first |
| `Handoff.ErrorFreeTurns` | lib/rozoro_monitor/handoff.py:40-122 | without protocol errors the turns are exactly 1..n and every verdict is known |
| `Handoff.OpenItemFacts` | lib/rozoro_monitor/handoff.py:108-122 | the open items are exactly the unacknowledged blocks with an open verdict or wanted inputs |
| `HandoffMeaning.BlockMeans` | lib/rozoro_monitor/handoff.py:54-95 | a block stands for its turn heading and the lines up to the next one: each field has its first value there, and the errors are exactly the rules those lines break |
| `HandoffMeaning.ErrorFreeIff` | lib/rozoro_monitor/handoff.py:54-107 | a handoff has no protocol error iff it has no other heading, its cursor points at something that exists, and no block breaks a rule |
| `HandoffMeaning.AcknowledgedMeans` | lib/rozoro_monitor/handoff.py:96-118 | which blocks a canonical or legacy cursor acknowledges, and which blocks have an open item |

## Left out

- Sockets, framing, timeouts, descriptor budgets, permissions, symlink and ownership checks, and fsync of directories: operating-system plumbing. Publish, save, commit and unlink remain as atomic steps.
- SQL text, column checks, migrations and projection rebuilds: fixed-version checks that add easy members. Uniqueness constraints that can fail are modelled.
- JSON, regular expressions and Unicode: handoff lines and events arrive classified, field values stripped and case-folded; the session document is modelled as a record, with its sorted job list.
- Clocks: a poll reads an abstract monotone clock, collection windows are numbers of ticks, and send deadlines are plain integers compared by the sweep.
- Task and job identifiers are opaque ordered numbers, so that task order in replies is their order; other identifiers are strings.
- The custom reducer and actionable hooks of event acceptance, the legacy map of version-2 projections, and `with_report`: not on the production path.
- `spool_event`, which publishes an already numbered envelope without a reservation: no program calls it, and with it numbers are whatever its caller chose.
- Malformed or foreign files in the spool: the import retains them and the reservation refuses to go on; the model's spool holds complete envelopes only.
- Coalescing: `poll` is modelled on values, one step between two yields, because its sections interleave with other processes; the fields' update in place is captured only for `offer_pending`.
- MembershipRuns: scanner and streams are modelled on values for the same reason; `_apply` checks and reconciles as one step, as under its lock with a reconciler that does not yield, and the tasks of one event or one scan come in any order.
- SendRuns: the pane's answer to a submitted text is arbitrary, and a crash drops every delivery in flight.
- Lifecycle.DocumentRoundTrip: the report facts of a session state and the envelope fields of a buffered event, none of which the reducer reads, are not part of the document; a stored event type the reducer does not know, which it never stores, reads as a registration instead of raising.
- EventStores: each SQL query is the specification's query function; what the methods add is the order of the writes and that nothing is left half done.
- SessionFold.RunFolds: its runs report panes only and no adapter facts, as the daemon does.
- OutboxRuns: the log receives events only from the outbox, and the daemon's other transactions run in between; the network is the step that accepts and its lost answer a crash of the producer.
- Projections can change without a bump, so a delta applied to an old full report need not give the new one: that is not claimed.
- Herdr wire format, subscription sharding, launchers, presets, doctor, lineage rendering, adapters and artifact skills: input, output and user interface.
