# kiagent-core: a verified model of its scheduling, ledger and incremental logic

Each module models one piece of the application that keeps state, schedules work, or computes an
incremental or layout result, and proves what that piece is for.

| area | modules |
|---|---|
| background admission (slot scheduler) | `AdmissionSpec`, `AdmissionProofs`, `AdmissionLiveness`, `AdmissionAging`, `AdmissionIdle`, `AdmissionEffects`, `Admission` |
| attention ledger | `AttentionSpec`, `AttentionProofs`, `AttentionEffects`, `AttentionList`, `Attention` |
| app projection (live-document counts) | `ProjectionSpec`, `ProjectionProofs`, `ProjectionInit`, `ProjectionClamp`, `Projection` |
| plugin SQL rewriting | `PluginSql`, `PluginSqlText`, `PluginSqlProofs` |
| change-log pruning | `ChangesPrune`, `ChangesStore` |
| connect flows | `ConnectSpec`, `ConnectProofs`, `ConnectOutcomes`, `ConnectBroker` |
| boot queue | `BootSpec`, `BootProofs`, `BootEffects`, `BootQueue` |
| factory reset | `FactoryReset` |
| day-view lanes | `Lanes` |
| free time and wall clocks | `Slots`, `SlotZones`, `ZonedTime`, `CivilDate`, `LocalDay` |
| chat-day merge | `MergeMessages` |
| shared | `Sorting` (stable sort), `Wrappers` |

`…Spec` modules hold the state and the steps as functions, `…Proofs` modules what every run keeps,
and the module with the plain name the same operations as a class or method with loops, each proved
equal to its function on the state before the call. `…Effects`, `…Outcomes` and `PluginSqlText` say
what those functions come to in terms of the state alone, with the source's own constants.

## How it is modelled

- A step is one callback: it runs at one instant and nothing else runs during it. Between two steps
  anything may happen that the source allows: aborts, timers, appends, crashes, other flows.
- Admission time is `real`, because slow mode holds a slot for a quarter of a unit's run. The
  liveness theorem `NoStrandedWaiter` uses one ordering rule: **a due wake timer runs before a later
  abort callback** (`WakeBeforeAbort`). `AbortCanStrand` shows the rule is needed: the abort path
  only calls `armWake` (admission.ts:267-273), and `armWake` drops a due timer once the foreground is
  no longer busy (admission.ts:214-220). `ArmCoversIff` and `AbortCovers` give the exact condition.
  `WaitIsBounded` also needs each wake timer to run no later than it is due. For idle waits the rule
  is wider (`Prompt`): **a due wake timer runs before any later callback that re-arms it**, which an
  acquire, a release that frees its slot and the end of a hold do as well.
- The attention validator is a parameter (`accepts`), and a stored payload may be rewritten by
  anything at any time, the row's columns not. Two assumptions come from the callers: the ids of a
  batch are distinct, and producer names hold no colon, so an id prefix names one producer.
- Each feed row shows its document's state when the row is read. Rows are read one by one, in any
  order and at any time before they are applied; the store may change in between. The main feed
  leaves out account rows up to the last one the lead applied. Document and account ids are not
  reused, and a document is purged only when its last change row has been applied.
  `ProjectionInit` reads the lead's head, the account list, a snapshot of each account and the main
  feed's head at different times; the two feeds go on in any order.
- An OAuth profile is registered and dropped in one synchronous block with its source
  (extension-platform.ts:872-877 and 1041-1049, sources/index.ts:24-26), so a group that passes the
  guard of `startGroup` holds known sources only.
- `ChangesPrune` lets appends, cursor moves, attaches, detaches and crashes happen between any two
  store calls of a prune.
- A zone is its offset function, with at most one transition in reach of the wall time at hand and
  offsets of either sign. Instants and wall times are milliseconds.
- A factory reset's faults are chosen beforehand (`Schedule`); `trace` records every durable change,
  so a crash point is an element of it.
- A queue of the boot queue is named by a number standing for the identity of its Map object.

## Where the code and its comments differ

- `foregroundIdle` is said to resolve when the foreground is not busy. Its wake timer does that, but
  any callback that re-arms in between, a mere acquire among them, drops the due timer, and the wait
  then lasts until something else arms one or its ten seconds are over (`AcquireCanStrandIdle`;
  `StepIdleIff` is the exact condition, step by step).
- `zonedToUtc` is said to land just after a skipped wall time. It misses by exactly the size of the
  gap, and lands before the gap when the transition is later than the wall time read as UTC, as in
  zones behind UTC (`GapMisses`, `GapCanLandBefore`). So a free slot can start outside the times
  asked for (`SlotStartsOutside`; `StartFitsIff` is the exact condition), and one slot can be
  offered twice (`SlotOfferedTwice`; `TwiceOffered` is the exact condition).
- A change landing while the projection starts is said to be applied twice at worst. A document's
  change between its account's snapshot and the main feed's head is applied by neither
  (`InsertDuringInitIsLost`). An account added after the list was read is left to the lead, but
  nothing makes the lead come first, so a document of it applied before that is lost
  (`AddedDuringInitIsLost`).
  `InitIsExactIff` is the exact condition.
- The clamp of the document count at zero does fire: for rows of an account removed after the main
  feed read them and before it applies them (`ClampFires`; `ClampFiresIff` is the exact condition).
  No account that is still there is affected, and the entry goes with the row of the removal.
- Pruning is said to be safe for any consumer that attaches below the published floor. A consumer
  that attaches with an old cursor after the floor was read and before it is published is not below
  it yet, and can lose rows (`LateAttachLoses`; `AttachIsSafeIff` is the exact condition).
- A reset that rejects unannounced is judged by two account counts. They mislead when others removed
  every account of a store that was not wiped, or added one to a store that was (`VerdictIsRight`);
  in the first case an unfinished reset drops its journal (`RunFactoryReset`).
- `formatPluginSql` is idempotent whatever touches the markers (`FormatTwice`). The output's
  segments are those of the input exactly when no marker touches another or a double-quoted text.

## Model

| member | source | states |
|---|---|---|
| `AdmissionProofs.PickIsFair` | src/main/core/admission.ts:134-164 | a waiter that is passed over by a later one is younger than the aging limit and of a lower rank, and the foreground is not busy |
| `AdmissionProofs.PickIsJustified` | src/main/core/admission.ts:134-147 | a pick escapes exactly when the foreground is busy; then no other escaped unit is out and the waiter is past its starvation deadline |
| `AdmissionProofs.ReachableSafe` | src/main/core/admission.ts:166-209 | in every reachable state running is unreleased units plus holds and at most the slots, at most one escape is out, each acquire has one fate, waiters are in arrival order, and every admission ever made was fair and justified |
| `AdmissionProofs.NextSafe` | src/main/core/admission.ts:258-319 | every step keeps slot accounting, fates, arrival order and the fairness of the log |
| `AdmissionLiveness.PumpIsWorkConserving` | src/main/core/admission.ts:201-209 | while not busy the pump stops only with all slots taken or nobody waiting |
| `AdmissionLiveness.ArmCoversIff` | src/main/core/admission.ts:214-235 | re-arming covers the waiters exactly when none stands beside a free slot with the foreground no longer busy |
| `AdmissionLiveness.AbortCovers` | src/main/core/admission.ts:267-273 | an abort keeps the rest covered exactly unless it leaves a waiter beside a free slot with the foreground no longer busy |
| `AdmissionLiveness.AbortStrandsOnlyPastDueWake` | src/main/core/admission.ts:214-220 | in a covered state an abort can strand a waiter only while a due wake timer has still to run |
| `AdmissionLiveness.AbortCanStrand` | src/main/core/admission.ts:267-273 | from any idle scheduler with a free slot, a run exists that strands a waiter when an abort overtakes a due wake timer |
| `AdmissionLiveness.NoStrandedWaiter` | src/main/core/admission.ts:201-235 | over every run in which due wake timers run before later aborts, a waiter beside a free slot has a wake timer in time, an escaped unit or a hold that will pump for it |
| `AdmissionLiveness.WaitIsBounded` | src/main/core/admission.ts:214-235 | with punctual timers nobody waits beside a free slot beyond the grace, nor beyond the starvation deadline unless an escape or a hold is out |
| `AdmissionAging.AgedServedFromFront` | src/main/core/admission.ts:149-154 | once a waiter has aged, one pump serves strictly from the front up to and including it: the k-th admission is the k-th waiter |
| `AdmissionAging.AgedWaitsForPosition` | src/main/core/admission.ts:134-164 | over every run, a waiter that has aged at position p is admitted after at most p others, or aborted, or still waits with a position that fell by every admission since |
| `AdmissionLiveness.FatesSettleOnce` | src/main/core/admission.ts:176-198 | no step settles a promise twice or takes it back; release and hold timer end a unit once |
| `Admission.Scheduler.ScanAged` | src/main/core/admission.ts:139-154 | the scan finds the earliest waiter at least that old |
| `Admission.Scheduler.DoPump` | src/main/core/admission.ts:201-209 | the splicing loop makes exactly the admissions of the specification |
| `Admission.Scheduler.Rearm` | src/main/core/admission.ts:214-235 | one timer, at the earliest moment something may change, or none |
| `Admission.Scheduler.AcquireSlot` | src/main/core/admission.ts:258-279 | a refused, queued or admitted acquire leaves exactly the state of its step |
| `Admission.Scheduler.AbortSignal` | src/main/core/admission.ts:267-273 | only a still queued unit is dropped; the timer is re-armed and nothing is pumped |
| `Admission.Scheduler.ReleaseUnit` | src/main/core/admission.ts:177-198 | a release frees or holds the slot once; a second call changes nothing |
| `Admission.Scheduler.WakeTimer` | src/main/core/admission.ts:227-235 | the timer ends idle waits only when not busy, and always pumps |
| `AdmissionIdle.WakeEndsIdle` | src/main/core/admission.ts:227-235 | the wake timer ends every idle wait when the foreground is not busy and none when it is, and leaves the rest with a timer within the grace |
| `AdmissionIdle.StepIdleIff` | src/main/core/admission.ts:214-235 | a step leaves idle waits behind no call in flight without a wake timer within the grace exactly when it is an acquire, abort, release or hold's end that re-arms while not busy |
| `AdmissionIdle.NoStrandedIdleWait` | src/main/core/admission.ts:214-235 | over every run in which a due wake timer runs before any later callback that re-arms, an idle wait with nothing in flight has a wake timer within the grace |
| `AdmissionIdle.IdleWaitIsBounded` | src/main/core/admission.ts:214-235 | with the timer never late either, no idle wait outlasts the grace while nothing is in flight |
| `AdmissionIdle.AcquireCanStrandIdle` | src/main/core/admission.ts:214-220 | from any scheduler without idle waits, a run that leaves one with no timer but its cap: an acquire overtakes the due wake timer |
| `AdmissionIdle.IdleWaitStarts` | src/main/core/admission.ts:296-319 | a wait is taken up exactly when busy and not aborted, with a cap ten seconds on; otherwise nothing changes |
| `AdmissionEffects.BusyPick` | src/main/core/admission.ts:134-147 | while busy the longest waiting past ten seconds is picked, and nobody exactly if another escape is out or none has waited so long |
| `AdmissionEffects.FreePick` | src/main/core/admission.ts:148-164 | otherwise the longest waiting of those past five seconds, and without any the most urgent kind, longest waiting first; nobody only if nobody waits |
| `AdmissionEffects.AcquireTakes` | src/main/core/admission.ts:258-279 | an acquire queues its unit with its kind and time, or admits it at once |
| `AdmissionEffects.AbortDrops` | src/main/core/admission.ts:267-273 | an aborted unit leaves the queue for good and the others stay in order; one not queued is left alone |
| `AdmissionEffects.ReleaseHolds` | src/main/core/admission.ts:176-198 | a release for an active user keeps the slot for the unit's run, a quarter of it with more slots than one, never over two seconds |
| `AdmissionEffects.ReleaseFrees` | src/main/core/admission.ts:176-198 | any other release ends the unit and frees its slot for the pump |
| `AdmissionEffects.HoldFireFrees` | src/main/core/admission.ts:189-194 | a hold that ends frees its slot for the pump |
| `AdmissionEffects.LeaveIs` | src/main/core/admission.ts:281-292 | a foreground call leaves once, and the last to leave starts the grace; background work is untouched |
| `AttentionProofs.RunKeeps` | src/main/attention/attention-tx.ts:222-459 | over every run each row agrees with its ledger entry, and no ledger revision is lost, lowered or reopened |
| `AttentionProofs.ClosedStaysClosed` | src/main/attention/attention-tx.ts:341-392 | an id closed at a revision is never open again at that revision or below, pruned or repaired or not |
| `AttentionProofs.UnreportedChangesNothing` | src/main/attention/attention-tx.ts:222-459 | an operation that does not report a change left the parseable open items of available producers as they were |
| `AttentionProofs.PublishIsSnapshot` | src/main/attention/attention-tx.ts:325-418 | after a publish the producer's open ids are exactly the batch's accepted unexpired open items and its stale items still open after the sweep |
| `AttentionProofs.PublishLeavesOthers` | src/main/attention/attention-tx.ts:406-416 | another producer's rows are exactly what expiry and pruning made of them |
| `AttentionProofs.PublishItemsLocal` | src/main/attention/attention-tx.ts:341-405 | each item of a batch meets the row and ledger entry the sweep left for its own id |
| `AttentionProofs.RunOwned` | src/main/attention/attention-tx.ts:325-337 | over every run an id's row belongs to the producer its prefix names |
| `AttentionList.ListingIsOne` | src/main/attention/attention-tx.ts:461-482 | the visible items of the kinds asked for have one listing, whatever order rows are scanned in |
| `AttentionList.UnreportedKeepsListing` | src/main/attention/attention-tx.ts:461-482 | a listing before and one after an unreported operation are the same sequence |
| `AttentionList.List` | src/main/attention/attention-tx.ts:461-484 | list expires and prunes like tick, and returns every visible item of the kinds once, in order |
| `Attention.Store.Expire` | src/main/attention/attention-tx.ts:222-250 | the row loop and the prune equal the sweep, and it reports exactly the expiries of available producers |
| `Attention.Store.PublishAll` | src/main/attention/attention-tx.ts:325-419 | the publish transaction on the tables equals its specification |
| `Attention.Store.ResolveById` | src/main/attention/attention-tx.ts:421-436 | resolving by id and revision equals its specification |
| `Attention.Store.DismissById` | src/main/attention/attention-tx.ts:438-450 | dismissing equals its specification |
| `AttentionEffects.DismissCloses` | src/main/attention/attention-tx.ts:438-450 | dismissing an open item closes row and ledger at the same revision, by the user, now; it is reported exactly when the producer is available; otherwise nothing changes |
| `AttentionEffects.ResolveCloses` | src/main/attention/attention-tx.ts:421-436 | a producer resolves its own open item, at the revision it named if it named one; otherwise nothing changes |
| `AttentionEffects.TickIsExact` | src/main/attention/attention-tx.ts:222-250 | a tick makes of each entry what its times say, expired, pruned or left alone, and reports exactly the expiries of available producers |
| `AttentionEffects.NothingOverdueStays` | src/main/attention/attention-tx.ts:222-250 | no item whose time was up is open after a tick |
| `AttentionEffects.AcceptedIff` | src/main/attention/attention-tx.ts:341-392 | an item is taken exactly when its id is new, its revision higher, or it repairs a corrupt open row of the same revision |
| `AttentionEffects.PublishIsExact` | src/main/attention/attention-tx.ts:325-419 | entry by entry: an accepted item is stored, a stale one changes nothing, an open row left out is resolved, every other entry is as swept |
| `AttentionEffects.PublishReportsIff` | src/main/attention/attention-tx.ts:252-419 | what a publish reports, if and only if |
| `AttentionEffects.PublishRefuses` | src/main/attention/attention-tx.ts:325-337 | a batch with a foreign item or an id without the prefix changes nothing |
| `AttentionList.ListingOrder` | src/main/attention/attention-tx.ts:461-482 | more urgent first; then what is due before what is not, and sooner first; then older first; then by id |
| `ProjectionProofs.RunKeeps` | src/main/core/app-projection.ts:146-204 | over every interleaving of writes, of reads of rows by the two feeds and of their later application, each count is the documents seen less those held as archived, and the index is right but for rows still unread |
| `ProjectionProofs.StaysCurrent` | src/main/core/store/store.ts:559-595 | whatever the store does between a row's read and its application, what was read may still be applied: a later row says what changed |
| `ProjectionProofs.StoresAreOk` | src/main/core/store/store.ts:559-595 | every store that began empty is one these results speak of |
| `ProjectionInit.InitIsExactIff` | src/main/core/engine/engine.ts:2493-2560 | whenever both feeds are caught up the state is a recount, over every run from a start, if and only if every account at the head was listed and none's live or archived documents changed between its snapshot and the head |
| `ProjectionInit.InsertDuringInitIsLost` | src/main/core/engine/engine.ts:2494-2497 | a document inserted between its account's snapshot and the head is in neither: the caught-up account shows one too few |
| `ProjectionInit.InitCanLose` | src/main/core/app-projection.ts:105-131 | from any store there is such an init |
| `ProjectionInit.AddedDuringInitIsLost` | src/main/core/engine/engine.ts:2517-2560 | from any store: an account added after the list was read, and a run that never shows its first document, because the main feed applies it before the lead adds the account |
| `ProjectionProofs.CaughtUpIsRecount` | src/main/core/app-projection.ts:73-92 | in a state of that invariant, once both feeds are caught up every account shows exactly its live documents, and the index exactly its archived ones, with no key of an account that is gone |
| `ProjectionProofs.FeedsApply` | src/main/core/engine/engine.ts:2518-2558 | the main feed applies every row but the account rows up to the last change the lead applied, and the lead account rows only |
| `ProjectionProofs.ClampNeverFires` | src/main/core/app-projection.ts:181 | in a state of that invariant no document row of an account that is still there, however old the row when applied, needs the clamp at zero |
| `ProjectionProofs.ClampFiresIff` | src/main/core/app-projection.ts:169-181 | the clamp fires if and only if the row's account was removed since the row was read, its entry shows zero documents, and the row is not the document's first and finds it archived and not in the index |
| `ProjectionClamp.ClampFires` | src/main/core/engine/engine.ts:2510-2560 | a run from an empty store, both feeds reading their rows in order, after which it does |
| `Projection.DraftIndex.Own` | src/main/core/app-projection.ts:41-50 | the draft writes only sets it allocated, and its contents stay the same |
| `Projection.ApplyChanges` | src/main/core/app-projection.ts:146-204 | the loop equals applying the changes one by one and writes nothing that existed before the call |
| `PluginSql.IdentifiersDistinct` | src/shared/plugin-sql.ts:3-8 | distinct (plugin, name) pairs never share an identifier |
| `PluginSqlText.HexReadsBack` | src/shared/plugin-sql.ts:6 | reading the digits in pairs, most significant first, gives the id's bytes back |
| `PluginSqlText.IdentifierIs` | src/shared/plugin-sql.ts:3-8 | a quote, p_, the digits, two underscores, the name, a quote, and for well-formed names only |
| `PluginSqlText.CloseIsFirst` | src/shared/plugin-sql.ts:74 | a marker ends at the first closing braces |
| `PluginSqlText.OpensIff` | src/shared/plugin-sql.ts:36-72 | which characters open which quoted text or comment, and that nothing else does |
| `PluginSqlText.LineEnds` | src/shared/plugin-sql.ts:88-92 | a line comment ends with its newline, or not at all |
| `PluginSqlText.QuotedEnds` | src/shared/plugin-sql.ts:101-119 | quoted text ends at the first run of its quotes that makes their number odd, or not at all |
| `PluginSqlText.BlockEnds` | src/shared/plugin-sql.ts:93-98 | a block comment ends at the first closing pair after its opener, or not at all |
| `PluginSql.FormatPluginSql` | src/shared/plugin-sql.ts:12-123 | the lexing loop equals the turn-by-turn specification, errors included |
| `PluginSqlProofs.FormatIsRender` | src/shared/plugin-sql.ts:12-123 | formatting fails with the first complaint in code, and otherwise copies every segment a reference lexer finds but the markers, which become their identifiers |
| `PluginSqlProofs.OutputLexes` | src/shared/plugin-sql.ts:10-11 | with no marker touching another or a double-quoted text the output lexes to the input's segments, each marker one double-quoted identifier |
| `PluginSqlProofs.SegmentsSurvive` | src/shared/plugin-sql.ts:10-11 | and only then |
| `PluginSqlProofs.FormatTwice` | src/shared/plugin-sql.ts:12-123 | formatting what was formatted changes nothing |
| `PluginSqlProofs.LexNeverSplitsQuotes` | src/shared/plugin-sql.ts:10-11 | the reference lexer never yields two adjacent double-quoted texts |
| `ChangesPrune.RunKeeps` | src/main/core/changes-maintenance.ts:157-204 | over every interleaving with appends, consumers and crashes, what survives is the log less a prefix, and every row gone is below the published floor |
| `ChangesPrune.OnlyOldRowsGo` | src/main/core/changes-maintenance.ts:175-192 | a step deletes a row only below a floor already published and only older than the retention window |
| `ChangesPrune.HeadSurvives` | src/main/core/changes-maintenance.ts:178-181 | the head row survives every run, so the head never goes back |
| `ChangesPrune.DeletingEnds` | src/main/core/changes-maintenance.ts:190-201 | each delete window removes a row below the limit or ends the loop, and nobody else adds one |
| `ChangesPrune.WindowIsLowest` | src/main/core/store/store.ts:1304-1315 | a window deletes the lowest rows below the limit, as many as the batch allows |
| `ChangesPrune.NoUnreadRowLost` | src/main/core/changes-maintenance.ts:171-185 | over every run in which each attaching consumer has read what the prune under way may delete, no attached consumer loses a row it has not read |
| `ChangesPrune.AttachIsSafeIff` | src/main/core/engine/engine.ts:916-932 | an attach is safe over every further run if and only if the consumer has read every row below what the prune under way may delete |
| `ChangesStore.DrainedKeepsIff` | src/main/core/changes-maintenance.ts:182-201 | a finished prune loses a consumer nothing exactly when it had read every row below the limit, whatever the published floor |
| `ChangesPrune.LateAttachLoses` | src/main/core/engine/engine.ts:916-932 | a run from an unpruned log in which an attached consumer loses a row it has not read |
| `ChangesPrune.FirstSeqAtOrAfter` | src/main/core/store/store.ts:518-555 | the bisection over sequence numbers with gaps finds the row the scan finds |
| `ChangesPrune.FirstAtIsFirst` | src/main/core/store/store.ts:512-517 | that is the first row at or after the time, or one past the head, or 1 on an empty log |
| `ChangesStore.Store.PruneChangesOnce` | src/main/core/changes-maintenance.ts:159-204 | an uninterrupted prune is a legal run of the step machine; it skips exactly when the source does, and reports its limit and the rows deleted |
| `ChangesStore.DrainedIsExact` | src/main/core/changes-maintenance.ts:188-201 | what the loop leaves is exactly the rows at or above the limit |
| `ChangesStore.PruneIsExact` | src/main/core/changes-maintenance.ts:159-204 | an uninterrupted prune takes a row exactly when it is more than 48 hours old, every attached consumer is past it and it is not the last |
| `ConnectProofs.OneTerminal` | src/main/auth/connect-broker.ts:206-221 | over every run a flow sends at most one terminal event, and has sent one exactly when it is over |
| `ConnectProofs.SlotIsUnsettledFlow` | src/main/auth/connect-broker.ts:174-220 | an account's slot is held exactly by its unsettled flow, so no two unsettled flows hold one account |
| `ConnectProofs.NeverFreesAnother` | src/main/core/engine/engine.ts:1890-1900 | a slot changes hands only by its own holder settling in that step |
| `ConnectProofs.CancelGuaranteesTerminal` | src/main/auth/connect-broker.ts:222-234 | after a cancel, whatever the body does, the account flow has settled or its watchdog is armed and settles it with its one terminal |
| `ConnectProofs.CancelledNeverStarts` | src/main/auth/connect-broker.ts:351-365 | a connect flow cancelled before it settled never starts an account, however late connect returns |
| `ConnectProofs.GroupRunsInOrder` | src/main/auth/connect-broker.ts:420-462 | over every run, of any group accepted, a flow past its wait has every earlier flow of the group ended: one at a time, in array order |
| `ConnectProofs.GroupIsLaunched` | src/main/auth/connect-broker.ts:424-462 | an accepted group launches one flow for each of its sources, each waiting for the one before, and refuses none |
| `ConnectBroker.Broker.StartGroup` | src/main/auth/connect-broker.ts:428-461 | refuses a group without one shared profile before anything is launched, and otherwise launches its list in order |
| `ConnectProofs.RunKeeps` | src/main/auth/connect-broker.ts:158-381 | every run keeps the registry, slots, terminals, waits and starts consistent |
| `ConnectOutcomes.StartedIff` | src/main/auth/connect-broker.ts:349-365 | over every run a flow starts its account if and only if its connect returned ok before any cancel, and then exactly once |
| `ConnectOutcomes.DoneIff` | src/main/auth/connect-broker.ts:206-221 | the one terminal of a flow reports success if and only if its connect returned ok before any cancel, or its body before the watchdog |
| `ConnectOutcomes.ConnectEndsOver` | src/main/auth/connect-broker.ts:349-380 | a connect that returned starts or removes its account; one that failed ends its flow |
| `ConnectOutcomes.AccountFlowOver` | src/main/auth/connect-broker.ts:158-268 | a body that ends settles its flow if it is first; the watchdog settles it as failed |
| `ConnectOutcomes.AfterSettlesIs` | src/main/auth/connect-broker.ts:349-380 | when the flow before settles a cancelled flow ends and any other connects |
| `ConnectOutcomes.StartAccountIs` | src/main/auth/connect-broker.ts:174-190 | an account flow is refused exactly while another holds its account |
| `ConnectOutcomes.StartIs` | src/main/auth/connect-broker.ts:278-290 | a connect flow for an unknown source fails at once, and any other waits its turn |
| `ConnectOutcomes.CancelIs` | src/main/auth/connect-broker.ts:620-631 | a cancel flags a registered flow and takes its prompts, and no other |
| `ConnectBroker.Broker.Finish` | src/main/auth/connect-broker.ts:212-221 | the one exit: the first caller sends, sweeps and frees, the second changes nothing |
| `ConnectBroker.Broker.RunAccountFlow` | src/main/auth/connect-broker.ts:174-190 | claims the slot, or refuses with a terminal and holds nothing |
| `ConnectBroker.Broker.Cancel` | src/main/auth/connect-broker.ts:620-631 | flags, arms and sweeps a registered flow; a no-op for any other |
| `ConnectBroker.Broker.SweepFlow` | src/main/auth/connect-broker.ts:87-96 | drops exactly the flow's own prompts and pickers |
| `BootProofs.QueuedArePending` | src/main/core/boot-background.ts:60-67 | over every run queued sources are pending, and the queue listens exactly while any is |
| `BootProofs.StartsOnce` | src/main/core/boot-background.ts:70-117 | every outcome has a queue entry of its own and went out with the strongest intent it was asked with |
| `BootProofs.StartedIff` | src/main/core/boot-background.ts:83-89 | over every run an outcome starts its account if and only if its read found one that is not parked and is not resting or was asked for explicitly in that queue |
| `BootEffects.RunOrQueueIs` | src/main/core/boot-background.ts:139-145 | a start asked for runs now unless its source is pending, and then queues with its intent |
| `BootEffects.DeferIs` | src/main/core/boot-background.ts:133-137 | a resumed account queues as automatic behind a pending source, and is otherwise left to the caller |
| `BootEffects.SyncAsks` | src/main/core/boot-background.ts:147-153 | Sync now asks explicitly for exactly the accounts that are not the worker's, not parked and behind a pending source |
| `BootEffects.RegisterDispatches` | src/main/core/boot-background.ts:91-101 | a source that registers leaves the pending ones and its whole queue is dispatched |
| `BootEffects.PendingAreUnregistered` | src/main/core/boot-background.ts:60-68 | over every run no pending source is registered |
| `BootProofs.EveryRequestSettles` | src/main/core/boot-background.ts:91-117 | short of a stop, once nothing is pending or under way every request has its outcome |
| `BootProofs.NothingAfterStop` | src/main/core/boot-background.ts:169-175 | after stop nothing queued starts, dispatches under way included |
| `BootProofs.PutEntries` | src/main/core/boot-background.ts:76-77 | queueing keeps ids distinct and each entry at its strongest intent |
| `BootProofs.MarkedIsExact` | src/main/core/boot-background.ts:120-126 | arming marks exactly the unregistered sources that enabled, sound extensions declare |
| `BootProofs.SnapshotIsExact` | src/main/core/boot-background.ts:155-167 | a snapshot releases exactly the unregistered pending sources whose extension errored, was disabled or is gone |
| `BootQueue.Queues.Arm` | src/main/core/boot-background.ts:120-131 | the loops mark what the specification marks, and the queue listens if anything is pending |
| `BootQueue.Queues.Dispatch` | src/main/core/boot-background.ts:91-102 | takes a source off both maps and the listener off with the last one |
| `BootQueue.Queues.OnSnapshot` | src/main/core/boot-background.ts:155-167 | the loop over the pending sources equals its specification |
| `BootQueue.Queues.ReadArrives` | src/main/core/boot-background.ts:103-116 | an account re-read starts exactly if not stopped, not parked and, unless explicit, not resting |
| `FactoryReset.Machine.RunFactoryReset` | src/main/factory-reset.ts:73-129 | for every fault schedule: at every crash point the journal is pending or the reset finished, if and only if the counts did not mislead it into clearing the state and ending the journal of a store whose wipe was refused; the verdict, the journal and the data are as the faults imply; without faults everything is gone |
| `FactoryReset.Machine.ResetAll` | src/main/platform/extension-platform.ts:1682-1755 | the core wipe commits only after every namespace is empty and sync state is reset |
| `FactoryReset.Machine.ResetExtensions` | src/main/platform/extension-platform.ts:1694-1715 | stops at the first failure, later namespaces untouched |
| `FactoryReset.VerdictIsRight` | src/main/factory-reset.ts:105-111 | a definite verdict is right if and only if, where the counts decided, nobody added an account to a wiped store, and somebody left or added one to a store not wiped |
| `FactoryReset.FaultsIff` | src/main/platform/extension-platform.ts:1682-1755 | which faults let the wipe commit, which let it be announced and which make the reset reject |
| `FactoryReset.UnknownIff` | src/main/factory-reset.ts:105-111 | no verdict exactly when the reset rejects unannounced and a count is missing or was zero |
| `FactoryReset.SuccessIff` | src/main/factory-reset.ts:124-129 | success is told exactly of an announced wipe with nothing thrown or named before it or after it |
| `FactoryReset.FinishInterruptedReset` | src/main/factory-reset.ts:152-178 | nothing is deleted without the user's answer or before extensions are found; whatever faults the finish has, at every point it can be cut off it is pending or finished, with the same verdict, journal and accounts as the reset itself; a faultless finish completes it from any disk |
| `Lanes.LayoutLanes` | src/main/calendar-out/day-model.ts:109-136 | every item once in start order, overlapping items in different lanes, one lane count a cluster, and some instant fills all its lanes |
| `Lanes.LanesAreDepth` | src/main/calendar-out/day-model.ts:106-108 | a cluster's lane count is the largest number of its items active at one instant |
| `Lanes.NoFewerLanes` | src/main/calendar-out/day-model.ts:106-108 | no other separation of overlapping items needs fewer lanes |
| `Lanes.OverlapSameCluster` | src/main/calendar-out/day-model.ts:122-130 | overlapping items are in one cluster |
| `Lanes.SameClusterIff` | src/main/calendar-out/day-model.ts:122-130 | items are in one cluster exactly when each one past the first overlaps an earlier one |
| `Lanes.OverlapIff` | src/main/calendar-out/day-model.ts:106-121 | items overlap exactly when both are active at some instant, each lasting at least one; ending as another starts is no overlap |
| `Lanes.TiesKeepOrder` | src/main/calendar-out/day-model.ts:112 | items that start together are laid out in their given order |
| `ZonedTime.ShownIff` | src/main/calendar-out/availability.ts:205-210 | a wall time has an instant exactly when the transition does not skip it |
| `ZonedTime.ZonedShows` | src/main/calendar-out/availability.ts:212-226 | the instant returned shows the wall time whenever any does |
| `ZonedTime.GapMisses` | src/main/calendar-out/availability.ts:212-226 | in a gap it misses by exactly the gap, and on which side |
| `ZonedTime.OverlapChoice` | src/main/calendar-out/availability.ts:212-226 | which of the two instants of a repeated wall time is taken |
| `ZonedTime.CollideIff` | src/main/calendar-out/availability.ts:212-226 | two wall times get one instant exactly when one is skipped and lands on the other |
| `ZonedTime.GapCanLandBefore` | src/main/calendar-out/availability.ts:212-213 | a skipped wall time can land before the gap |
| `CivilDate.NextDayFollows` | src/main/calendar-out/availability.ts:154-157 | the rolled-over date is a real date, one day number later |
| `CivilDate.KeyOrder` | src/main/calendar-out/availability.ts:125-126 | the day keys order dates as their day numbers do |
| `CivilDate.DateOf` | src/main/calendar-out/availability.ts:191-203 | every day number is the number of one real date |
| `CivilDate.WeekdayFollows` | src/main/calendar-out/availability.ts:127 | weekdays run from Monday 1 to Sunday 7 and around, one a day, and 1970-01-01 is a Thursday |
| `CivilDate.MonthLengths` | src/main/calendar-out/availability.ts:154-157 | the lengths of the months, leap years included |
| `Slots.OfferedIff` | src/main/calendar-out/availability.ts:134-151 | a candidate is offered exactly if it lies in the window and touches no busy block; it is free exactly if it touches none; its conflicts are the blocks it touches |
| `Slots.AllIsExact` | src/main/calendar-out/availability.ts:121-158 | the slots found are exactly those offered at the half hours, as named, that lie inside the two wall-clock times of allowed days |
| `Slots.StartShowsIff` | src/main/calendar-out/availability.ts:134-141 | the start of a candidate shows the day and half hour it is named by if and only if the zone does not skip that wall time; otherwise it is off by exactly the gap |
| `Slots.StartFitsIff` | src/main/calendar-out/availability.ts:103-106 | a candidate really starts between the times asked for, on a day asked for, if and only if the zone does not skip it or the time it is moved to by the gap fits as well |
| `Slots.TwiceOffered` | src/main/calendar-out/availability.ts:134-151 | two candidates are offered as one slot exactly when one is skipped and lands on the other |
| `Slots.EachOnce` | src/main/calendar-out/availability.ts:124-158 | each of those candidates is tried exactly once, in date and minute order, and what is found is what the tries offer |
| `Slots.NoDayIsMissed` | src/main/calendar-out/availability.ts:122-126 | whatever fits the window starts, by its own clock, on a day that is walked, and that is the candidate's day unless the zone skips its wall time |
| `SlotZones.SlotStartsOutside` | src/main/calendar-out/availability.ts:103-106 | a search between 02:00 and 03:00 in a zone behind UTC that skips that hour offers one slot, at 01:00 |
| `SlotZones.SlotOfferedTwice` | src/main/calendar-out/availability.ts:159-164 | from 01:00 on that night the two best slots offered are one and the same |
| `SlotZones.NightIsCovered` | src/main/calendar-out/availability.ts:134-141 | that candidate is one of those StartShowsIff and NoDayIsMissed speak of |
| `SlotZones.UtcShowsAll` | src/main/calendar-out/availability.ts:134-141 | in UTC every slot offered starts at the time it is named by, on a day that is walked |
| `SlotZones.SundayIsSearched` | src/main/calendar-out/availability.ts:107-165 | a search for Sundays offers 09:00, 09:30 and 10:00 of that Sunday |
| `SlotZones.NeverBack` | src/main/calendar-out/availability.ts:191-203 | any zone whose one transition moves clocks forward is one whose local dates never go back |
| `Slots.OfferedIsBest` | src/main/calendar-out/availability.ts:159-164 | as many as the limit allows, free first and then earliest, none left out that comes before one offered |
| `Slots.FindSlots` | src/main/calendar-out/availability.ts:107-165 | the day and minute loops end and give exactly those |
| `LocalDay.LocalDayStart` | src/main/calendar-out/local-time.ts:62-78 | both scans end at a whole minute on or after the date whose previous minute is before it |
| `LocalDay.DayStartDivides` | src/main/calendar-out/local-time.ts:62-64 | an instant has reached the date exactly from there on |
| `LocalDay.AllDaySpan` | src/main/calendar-out/availability.ts:64-79 | an all-day span holds exactly the instants of its local dates |
| `LocalDay.SkippedDate` | src/main/calendar-out/local-time.ts:62-64 | a skipped date starts where the next one does |
| `LocalDay.ForwardZones` | src/main/calendar-out/local-time.ts:71-72 | zones within those offsets whose clocks go forward on whole minutes meet what is asked of a zone here |
| `MergeMessages.MergeIsTheDay` | sdk/connector-sdk/src/chat-day.ts:50-68 | unique ids, the incoming message of each, strictly ascending by time and id |
| `MergeMessages.MergeShows` | sdk/connector-sdk/src/chat-day.ts:50-68 | in plain terms: ascending in time and then by id, no id twice, and of each id the last incoming message, or the last existing one if none came in |
| `MergeMessages.MergeDependsOnLatest` | sdk/connector-sdk/src/chat-day.ts:56-68 | the result depends only on the last message of each id |
| `MergeMessages.MergeAgain` | sdk/connector-sdk/src/chat-day.ts:50-55 | merging the same batch again changes nothing |
| `MergeMessages.MergeGroups` | sdk/connector-sdk/src/chat-day.ts:50-55 | merging is associative |
| `MergeMessages.BatchesDoNotMatter` | sdk/connector-sdk/src/chat-day.ts:50-55 | a day built batch by batch is the day built at once |
| `MergeMessages.TiesShowArrival` | sdk/connector-sdk/src/chat-day.ts:53-60 | where a comparator ties distinct ids, the order of arrival shows |
| `MergeMessages.MergeDay` | sdk/connector-sdk/src/chat-day.ts:56-68 | the two loops over the Map and the sort compute that merge |

## Left out

- ChangesPrune.NoUnreadRowLost: excludes an attach that has not read what the prune under way may delete, where it is false.
- FactoryReset.Machine.RunFactoryReset: excludes accounts emptied by others while a wipe is refused, where an unfinished reset can lose its journal.
- AttentionProofs.PublishIsSnapshot: for batches of distinct ids, which the batch validator demands.
- ProjectionProofs.CaughtUpIsRecount: for feeds of every row, ids never reused, and purges after the document's last row was applied.
- LocalDay.DayStartDivides: for zones whose local date never goes back and changes on whole minutes.
- Admission: the counters behind `snapshot` and `enrichmentLane`, and the abort of a `foregroundIdle` wait as anything but its end.
- Admission: clock readings that go back; the clock may stand still or advance between steps.
- Attention: the list of row failures, failing SQLite writes, and the text of the JSON; ids compare by character, not by UTF-16 unit.
- Projection: recents, account order and the other slices of the state; the fresh init after a store error.
- Plugin SQL: ids are their UTF-8 bytes.
- Pruning: logging, checkpoints, the job's registration, `registerLedgerRekey` and the seeding pages of an attaching consumer.
- Connect flows: the status, prompt and picker events a body that outlived its flow may still send, folder selection, the OAuth loopback and the shared consent of a group, failure logs.
- Boot queue: the logs, and `startBackground`.
- Factory reset: the file operations of the journal, taken as one durable write each; the restart of extensions beyond how many failed.
- Lanes: the lane objects shared between cluster and output are values, closed together.
- Day view: `buildDayModel` beyond its lanes (texts, outlines, chips, the cap on blocks).
- Free time: classification of events and drafts; parsing of HH:MM and of dates; years 0 to 99, which Date.UTC takes for 1900 to 1999; a negative limit.
- Chat days: rendering to Markdown.
- The scheduler's coalescing, folder roots, HTTP retries, id encoding and corpus recovery would add easier members.
- Windows, IPC, renderer, network, file system, real timers and SQLite are steps, maps and a clock here.
