# Verified core of the workspace application

This project models the parts of the application whose correctness is about whole
runs rather than single calls, and proves what they promise.

**The job queue.** Jobs are rows of a database table. Workers claim them by a
compare-and-swap on `reserved_by`, hold them for at most 300 seconds, retry with
exponential backoff and park what keeps failing. `JobsTable` has the single SQL
statements and what holds under any interleaving of them. `QueueService` issues
those statements one at a time, with other processes' statements in between, and is
proved to perform one clean step when nobody else writes. `QueueProtocol` is the
state machine of those steps for any number of workers, dispatchers, crashes and
staff acting on old copies, with handlers of any length. `QueueWorker` is the `--once` loop and why it ends.

**Billing.** `WebhookController` is the transactional outbox in front of the ledger.
`WebhookHandler` applies one normalised event. `Reconciliation` is the sweep against
the provider and the staff re-sync. `BillingRuns`, `EntitlementRuns` and
`PaymentRuns` are the theorems about any run of deliveries, redeliveries, replays,
sweeps, syncs and visits to the customer portal, which may store a customer id.

**Quotas.** `Plans` is the catalogue and its comparisons. `Seats` interleaves
invitations, acceptances and key creations statement by statement around the lock on
the organisation row. `InvitationService` and `ApiKeyService` are the single
transactions.

**Files.** `FileService` is uploads with a fault or a crash at any point, soft
deletes, attachment replacement and privacy erasure, over a byte counter and an
object store, one call at a time. `FileRuns` interleaves any number of them step by
step.

**The rest.** `Membership` is the exactly-one-owner invariant, `MetricsService` the
chart scale, `Cursor` the base64url cursor and the page walk.

Rows of tables are maps, instants are integers (seconds in the queue and the seat
transactions, milliseconds in billing) and the clock is a parameter. Services whose
source methods change fields in place are classes; each of their methods is proved
equal to a function of the old state, and the theorems are about those functions.
`Prelude` holds options, results, ids in order and sums over a table.

Check everything with `dafny verify dfyconfig.toml` (Dafny 4.11).

## Where the code and its documentation disagree

The code is what is modelled. Each of these is a theorem, with the condition under
which the documented promise holds or a concrete run in which it does not.

- "Two workers never hold the same job" holds over a run exactly when two guards are
  never broken (`ExclusionExactlyWhenGuarded`): a queue is not polled while one of its
  handlers has run for 300 seconds, and a job is not retried from an old copy while it
  is being worked. Break either and two handlers share a job one poll later
  (`UnguardedStepSharesAJob`, `TimeoutIsTight`); the second needs no time to pass, as
  `queue:retry --all` loads every parked job before it retries the first
  (`LateRetrySharesTheJob`). At the level of statements the release after a failure
  does not check who holds the row (`LateReleaseFreesAnother`).
- The documented backoff of a job holds over a run exactly when each of its failures is
  current: reported for the attempt its row counts and not before that attempt was due,
  or parking the job (`BackoffExactlyWhenCurrent`). The two guards above are enough for
  that (`GuardsAreEnoughForBackoff`) but more than it needs; overlapping failures of one
  job break it (`OverlappingFailuresShortenTheWait`).
  A worker that dies between the swap and the stamp strands its job for good
  (`StuckBetweenSwapAndStamp`, `UnstampedJobIsStranded`).
- The watermark is the row's last write, with one second of grace. An event is
  ignored exactly when it occurred more than a second before that write
  (`StaleOrApplied`); "an older event never undoes a newer one" holds beyond that
  second (`OlderEventNeverUndoesNewer`).
- The sweep and the staff sync load a row, wait for the provider, and then entitle the
  workspace from the copy they loaded. Over any run the entitlement of a workspace with
  one subscription is the one its row gives, at every moment, exactly when each
  correction's copy still names a plan that entitles to the same, and the columns each
  sync writes fit those it leaves (`EntitlementFollowsExactlyWhenFresh`). A webhook that
  changes the plan in between leaves the row on one plan and the workspace on another
  (`LateCorrectionStrandsThePlan`, `LateSyncStrandsThePlan`).
- A dispute mark lasts only until the next payment event of its order: an order shows
  as disputed exactly when the last change that took effect on it was a dispute
  (`DisputedExactlyWhenLastChangeDisputed`).
- A duplicate delivery is recognised by the text of the error. A new event whose
  transaction fails with a look-alike text is acknowledged and lost, and that is the
  only way to lose one (`AcknowledgedMeansRecorded`, `LookAlikeIsLost`).
- "One live invitation link per address": an invite retires the old links before it
  takes the lock. Its commit leaves one link that is neither spent nor revoked, expired
  ones included, exactly when every link handed out
  for the address in between is revoked or accepted by then
  (`OneLinkExactlyWhenRivalsAreGone`); two invites at once can leave two
  (`TwoInvitesCanBothStayOpen`).
- `delete` gives back the bytes of the copy its caller loaded, whether the row is still
  live, deleted already or erased. The counter equals the live bytes over a run exactly
  when each delete finds its row live, or has nothing to give back
  (`DeleteConservesExactlyWhenLive`, `ConservedExactlyWhenSound`). Two overlapping
  deletes, or two people replacing one picture, break it (`TwoDeletesDrift`,
  `TwoReplacementsDrift`).
- `replaceAttachment` leaves exactly the new file attached precisely when that is still
  live and whatever others recorded for the target since it read the previous files is
  gone or deleted (`OneAttachmentExactlyWhenRivalsAreGone`); two at once leave both
  (`TwoReplacementsDrift`).
- `transferOwnership` checks neither that the giver owns the workspace nor that the
  target or the workspace is live (`TransferIsSafeExactlyWhen`). `remove` and `leave` compare with the
  owner the caller loaded, which a transfer may have changed since
  (`RemovalIsSafeExactlyWhenTheOwnerStays`, `StaleRemovalStrandsTheWorkspace`). Over any
  run each live workspace has one owner at every moment exactly when every step is sound
  in these senses (`OneOwnerExactlyWhenSound`).
- The chart's rules are round figures, except on totals of 1, 2, 9 and 10 cents,
  where rounding the step up to whole cents spoils it (`RulesAreRoundExactlyWhen`).

## Model

| member | source | states |
|---|---|---|
| JobsTable.SwapLinearity | app/queue/queue_service.ts:127-168 | in any interleaving of statements by anyone, between two winning swaps of one job lies a release of that job |
| JobsTable.HeldUntilReleased | app/queue/queue_service.ts:127-168 | after a winning swap the row is gone for good or still reserved at every later point before a release of it |
| JobsTable.LosingSwapChangesNothing | app/queue/queue_service.ts:128-141 | the swap changes the table if and only if it wins, so a loser leaves the holder's name in place |
| JobsTable.LateReleaseFreesAnother | app/queue/queue_service.ts:163-168 | a nine-statement run in which a worker that overran its reservation frees its successor's, and a third worker wins the same job |
| QueueService.ReserveIsFirstComeFirstServed | app/queue/queue_service.ts:87-115 | a reservation takes due jobs only, as many as the limit or all there are, and every due job left behind has a higher id than every one taken |
| QueueService.ReserveTouchesOnlyItsQueue | app/queue/queue_service.ts:87-115 | row by row what a reservation does: chosen rows name this worker, expired ones are freed, all others are unchanged; chosen ones were of the queue, open, available, and free or expired |
| QueueService.ReservedColumns | app/queue/queue_service.ts:87-199 | in columns: only an unparked, available row of the queue that is free or whose reservation is 300 seconds old is chosen, and then names this worker and this moment; the other expired ones are freed, the rest untouched |
| QueueService.FinalAttemptIsTheLast | app/queue/queue_service.ts:216-255 | in columns: a failure counts one more attempt, frees the row, keeps the first 2000 characters of the message, parks the job exactly when it is unrecoverable or the attempt was the one shown as final, and otherwise delays it 30·2^attempts seconds |
| QueueService.DispatchedJob | app/queue/queue_service.ts:64-82 | in columns: the option beats the handler and the handler the default for queue and attempts; the job is free, unparked, at zero attempts and available after the delay asked for, if any |
| QueueService.RetriedJob | app/queue/queue_service.ts:261-269 | a retried job is free, unparked, at zero attempts and due now and not before, on its own queue and terms |
| QueueService.StatusFromColumns | app/models/job.ts:13-34 | which columns make a job failed, running, due and scheduled |
| QueueService.StuckBetweenSwapAndStamp | app/queue/queue_service.ts:180-188 | a held job can ever expire if and only if its reservation was stamped |
| QueueService.UnstampedJobIsStranded | app/queue/queue_service.ts:127-188 | a job swapped but not stamped survives any sequence of polls unchanged: nobody ever claims it |
| QueueService.CountsCoverTheTable | app/queue/queue_service.ts:279-295 | pending, reserved and failed add up to the number of rows |
| QueueService.CountsAgreeWithStatus | app/models/job.ts:13-34 | pending is due plus scheduled, reserved is running and failed is failed, by the status shown for each job at any time |
| QueueService.QueueService.Dispatch | app/queue/queue_service.ts:64-82 | inserts one row under an id never used before, with the option, the handler or the default deciding queue, attempts and delay, and changes nothing else |
| QueueService.QueueService.Reserve | app/queue/queue_service.ts:87-115 | whatever others execute meanwhile: at most limit distinct jobs in id order, each won by a swap of this worker recorded in the log; a batch that falls short tried each of the first 3×limit jobs due when it read them; undisturbed, the 3×limit candidate loop is exactly the first due jobs, and the copies returned are the rows |
| QueueService.QueueService.Claim | app/queue/queue_service.ts:127-154 | wins exactly when its swap wins in the log after the interference, and then stamps; undisturbed on a free row it always wins |
| QueueService.QueueService.ReclaimExpired | app/queue/queue_service.ts:180-199 | counts the expired reservations and, undisturbed, frees exactly those |
| QueueService.QueueService.Complete | app/queue/queue_service.ts:206-208 | removes the row and nothing else |
| QueueService.QueueService.Fail | app/queue/queue_service.ts:216-248 | counts the attempt from the worker's own copy, parks or reschedules, releases last; the copy in hand ends equal to the row it was made from, settled |
| QueueService.QueueService.Retry | app/queue/queue_service.ts:261-269 | the job is unparked, free, due now and back at zero attempts |
| QueueService.QueueService.CountAll | app/queue/queue_service.ts:279-295 | the three counters are the sizes of the three disjoint sets and add up to the table |
| QueueProtocol.ExclusionExactlyWhenGuarded | app/queue/queue_service.ts:87-269 | over any run, each job's handler is the only one and its row is its copy at every moment, if and only if no queue is polled while one of its handlers has run for 300 seconds and no job is retried, from an old copy, while it is worked |
| QueueProtocol.UnguardedStepSharesAJob | app/queue/queue_service.ts:163-269 | a step that breaks either guard leaves the job one poll away from two running handlers |
| QueueProtocol.MutualExclusion | app/queue/queue_service.ts:87-199 | in every state reached with both guards kept, two running handlers of one job are the same one, and the row, unless staff discarded it, names its worker |
| QueueProtocol.RecoveryIsSafe | app/queue/queue_service.ts:87-199 | with the guards kept, the crash of a worker ends the only handler of each of its jobs, so whoever polls later has the job alone |
| QueueProtocol.FreshRetryIsGuarded | app/queue/queue_service.ts:261-269 | with the guards kept, retrying a job just loaded as parked never takes it from a handler |
| QueueProtocol.LateRetrySharesTheJob | commands/queue_retry.ts:41-61 | a legal run of eight steps in no time at all: a job parked, loaded twice, retried and claimed is freed by the second retry and claimed again |
| QueueProtocol.NoLostJobs | commands/queue_work.ts:95-120 | in every run whatsoever, every id ever dispatched is exactly one of present, completed and discarded by staff; a completed job's handler returned |
| QueueProtocol.BackoffExactlyWhenCurrent | app/queue/queue_service.ts:216-255 | over any run, overruns and late retries included, a job counts its failures and is held back for each of them throughout if and only if every failure of it is reported for the attempt its row counts, and not before that attempt was due unless the job is parked |
| QueueProtocol.PatientExactlyWhenCurrent | app/queue/queue_service.ts:216-269 | of all steps only a failure can make a job's row miscount or come due early, and it does exactly when it is not current |
| QueueProtocol.BackoffLowerBound | app/queue/queue_service.ts:235-255 | in every run in which the failures of a job are current, having failed k times since dispatch or human retry it is not chosen before 30·(2^(k+1) − 2) seconds on top of its delay, crashes, reclaims and other jobs notwithstanding |
| QueueProtocol.TheClockStarts | app/queue/queue_service.ts:64-83 | the time the backoff counts from is when a dispatched job is first due, or the moment of its retry, at no failures |
| QueueProtocol.GuardsAreEnoughForBackoff | app/queue/queue_service.ts:87-269 | a run that keeps both exclusion guards reports only current failures, of every job |
| QueueProtocol.OverlappingFailuresShortenTheWait | app/queue/queue_service.ts:216-269 | a legal run, with a failure that is not current, after which a job that failed twice is taken 60 seconds later, not 180 |
| QueueProtocol.UnparkedHasAttemptsLeft | app/queue/queue_service.ts:216-248 | in every run whatsoever an unparked job has an attempt left and a parked one is not held |
| QueueProtocol.CrashedJobBecomesClaimable | app/queue/queue_service.ts:180-199 | a held job counts as due for a poll exactly from 300 seconds after it was claimed, and is chosen when fewer than limit due jobs have a lower id |
| QueueProtocol.ChosenByRank | app/queue/queue_service.ts:94-100 | a due job is among the first n if and only if fewer than n due jobs have a lower id |
| QueueProtocol.TimeoutIsTight | app/queue/queue_service.ts:180-188 | with a handler 299 seconds old a poll keeps the guard; at 300 the poll of another worker shares its job |
| QueueWorker.SettlingLowersPotential | app/queue/queue_service.ts:206-248 | however a job ends, the failures the whole table has left strictly drop, and its row stays unless its handler returned |
| QueueWorker.ClaimingCostsNothing | app/queue/queue_service.ts:87-115 | reserving and reclaiming leave that total as it was |
| QueueWorker.EmptyMeansNothingDue | commands/queue_work.ts:80-92 | an empty reservation means no job of that queue was due, and nothing became due in the queues before it |
| QueueWorker.SettleBatch | commands/queue_work.ts:93-121 | jobs reserved together settle in any order, each when its handler ends: its row is gone if and only if it has a handler that returned, else free with one more attempt, parked if and only if it has no handler, the error is unrecoverable or it was the final attempt, and otherwise due 30·2^attempts seconds later; no other row moves |
| QueueWorker.BatchEndsEach | commands/queue_work.ts:93-121 | the same for each job of a settled batch, from its handler and its world alone |
| QueueWorker.BatchIsDetermined | commands/queue_work.ts:93-121 | the order in which a batch settles makes no difference to the table |
| QueueWorker.RunOnce | commands/queue_work.ts:75-130 | whatever the handlers do and however long they take, the loop ends; working passes and settled jobs are bounded by the failures the table had left; a job is missing at the end exactly when a handler of it returned; unless stopped, nothing in its queues was due when the last pass began |
| WebhookController.EveryRunIsOneJobPerEvent | app/controllers/billing/webhook_controller.ts:73-116 | after any deliveries in any order with any transaction aborting, event ids in the ledger are distinct, ledger rows and processing jobs are one-to-one, and the queue holds exactly those jobs |
| WebhookController.EveryEventHasAQueuedJob | app/controllers/billing/webhook_controller.ts:73-116 | behind every ledger row of any run there is a row in the jobs table: a process_webhook job, free, unparked, at zero attempts and due since the event was received |
| WebhookController.ReceivedAddsOneJob | app/controllers/billing/webhook_controller.ts:73-99 | a delivery answered as received adds exactly one such row and one ledger row, both new; any other answer changes nothing |
| WebhookController.RedeliveryAddsNothing | app/controllers/billing/webhook_controller.ts:98-116 | delivering a recorded event again changes nothing, and without a fault it is answered as a duplicate |
| WebhookController.RecordedForGood | app/controllers/billing/webhook_controller.ts:73-116 | a recorded event stays recorded, with its job in the queue, through any later run of the endpoint |
| WebhookController.AcknowledgedMeansRecorded | app/controllers/billing/webhook_controller.ts:98-132 | an acknowledged signed event is in the ledger, except exactly when it was new and its transaction failed with an error text that looks like a unique violation |
| WebhookController.IndexViolationIsADuplicate | app/controllers/billing/webhook_controller.ts:128-132 | the text either database raises for the unique index is recognised |
| WebhookController.LookAlikeIsLost | app/controllers/billing/webhook_controller.ts:98-132 | a new event whose job fails on its own table's key is answered as a duplicate and recorded nowhere |
| WebhookController.ForeignKeyFailureIsReported | app/controllers/billing/webhook_controller.ts:119-132 | a broken reference is no duplicate: the provider is told and will try again |
| WebhookController.WebhookController.Creem | app/controllers/billing/webhook_controller.ts:32-116 | each kind of delivery gets its response, and only a committed new event changes the ledger and the queue, together |
| WebhookHandler.WebhookHandler.Apply | app/billing/webhook_handler.ts:35-55 | dispatches by event type; an unattributable event is an error and changes nothing |
| WebhookHandler.WebhookHandler.ApplySubscription | app/billing/webhook_handler.ts:65-131 | watermark guard, ambiguous-cancellation re-fetch, plan choice, upsert, entitlement and notice in the source's order equal the single step the run theorems use |
| WebhookHandler.WebhookHandler.UpsertSubscription | app/billing/webhook_handler.ts:133-170 | one row per provider id, the known customer kept when the event has none, the write time moved only when a column changed |
| WebhookHandler.WebhookHandler.SyncEntitlement | app/billing/webhook_handler.ts:179-200 | plan, state and trial date of that workspace alone follow the row |
| WebhookHandler.WebhookHandler.ApplyPayment | app/billing/webhook_handler.ts:246-320 | one row per order, merged; a receipt only when a charge inserts it |
| BillingRuns.WatermarkOnlyRises | app/models/subscription.ts:60-62 | over any run with time moving forward no row disappears and no watermark falls |
| BillingRuns.StaleOrApplied | app/billing/webhook_handler.ts:92-131 | an event about a known row changes nothing at all if it occurred more than a second before the row's last write, and otherwise rewrites every column from its own content, keeping the customer and plan it does not name, and the entitlement from the result |
| BillingRuns.EventsAreAttributed | app/billing/webhook_handler.ts:370-395 | a recorded subscription belongs where it is recorded whatever its events carry; a new one belongs to the live workspace named by its metadata, and is refused if and only if there is none |
| BillingRuns.NewSubscriptionColumns | app/billing/webhook_handler.ts:106-170 | a new row holds what the event says, or what the provider answers about a cancellation without a period end, on its product's plan or free, created and stamped now; no other row moves |
| BillingRuns.PortalFillsTheCustomer | app/billing/billing_service.ts:88-104 | the portal writes the customer of its own row and stamps it; every other column and row stays |
| BillingRuns.WatermarkFromColumns | app/models/subscription.ts:60-62 | the watermark is the last write, or the creation when there was none |
| BillingRuns.LateEventIsIgnored | app/billing/webhook_handler.ts:92-104 | once anything has changed a row, no event that occurred more than a second before that moment ever changes it |
| BillingRuns.OlderEventNeverUndoesNewer | app/billing/webhook_handler.ts:92-104 | an event more than a second older than one that was applied to a row never changes it afterwards |
| BillingRuns.WatermarkNeverFalls | app/billing/webhook_handler.ts:133-170 | one change: a row is untouched or stamped with the moment of the change, never earlier than before |
| BillingRuns.MailFollowsTheTransition | app/billing/webhook_handler.ts:209-237 | a subscription event sends at most one mail: one that names the workspace, the subscription and the state its row has just entered, and none for a repeat, a trial, a pause, a recovery from past due or a workspace without an owner |
| BillingRuns.ApplyingTwiceIsApplyingOnce | app/billing/webhook_handler.ts:65-131 | any event applied again at any later time changes no row, no entitlement and sends no mail |
| BillingRuns.LedgerReplayChangesNothing | commands/billing_replay.ts:51-64 | replaying any selection of an applied dispute-free ledger, in any order and number, moves no subscription, entitlement, amount, refund or status once each subscription event is over a second older than its row |
| BillingRuns.ReplayMovesNoBooks | commands/billing_replay.ts:51-64 | events the books already reflect can be replayed at will |
| PaymentRuns.OrderFollowsItsEvents | app/billing/webhook_handler.ts:246-331 | at every point of any run without a dispute, an order has one row exactly when one of its events took effect, with the first non-zero charge, the largest refund and the status those two imply |
| PaymentRuns.OrderStatusFitsItsEvents | app/billing/webhook_handler.ts:322-331 | over every dispute-free run an order is paid if and only if no refund was reported, refunded if and only if the largest is positive and at least the first non-zero charge, and partially refunded if and only if it lies strictly between |
| PaymentRuns.FirstChargeIsTheFirst | app/billing/webhook_handler.ts:288 | the amount kept is the first charge that was not zero |
| PaymentRuns.PaymentsAreAttributed | app/billing/webhook_handler.ts:246-275 | a payment that refers to a recorded subscription belongs to its workspace and is linked to it; any other to the live workspace its event carries, and is refused if and only if there is none |
| PaymentRuns.PaymentColumns | app/billing/webhook_handler.ts:292-306 | which columns a payment event writes, and what a first one leaves; no other order moves |
| PaymentRuns.LargestRefundIsLargest | app/billing/webhook_handler.ts:262-290 | the merged refund bounds every refund reported and is one of them, or zero |
| PaymentRuns.PaymentsConverge | app/billing/webhook_handler.ts:246-331 | two runs that applied the same events with one charge, in any order and multiplicity, end with the same amount, refund and status |
| PaymentRuns.OrderOnlyLearns | app/billing/webhook_handler.ts:262-300 | over any run, disputes included, an order's row stays, its moment and non-zero charge are fixed, its refund never shrinks, and a description, receipt or subscription once known is never lost |
| PaymentRuns.DisputedExactlyWhenLastChangeDisputed | app/billing/webhook_handler.ts:246-360 | over any run an order shows as disputed if and only if a dispute took effect on it and no payment event has since |
| PaymentRuns.DisputeMarkIsOverwritten | app/billing/webhook_handler.ts:262-300 | a payment event after a dispute writes exactly the row it would have written without it |
| PaymentRuns.ReceiptForTheFirstCharge | app/billing/webhook_handler.ts:300-320 | a change sends a receipt exactly when it inserts the order from a charge to a workspace with an owner |
| PaymentRuns.AtMostOneReceipt | app/billing/webhook_handler.ts:300-320 | over any run at most one receipt goes out for an order, and none while it has no row |
| EntitlementRuns.EntitlementFollowsExactlyWhenFresh | app/billing/reconciliation.ts:66-196 | over any run of webhooks, corrections, syncs and portal visits, each worked out on copies loaded at any earlier moment, every workspace with one subscription row has that row's entitlement at every moment if and only if each correction and each sync finds its copies fresh |
| EntitlementRuns.EntitlementFollowsTheSubscription | app/billing/webhook_handler.ts:179-200 | after such a run, status by status: trialing, active and past due give the row's plan if the catalogue knows it, paused, cancelled and expired give free; overdue is exactly past due |
| EntitlementRuns.EventGives | app/billing/webhook_handler.ts:179-200 | an applied subscription event gives its workspace exactly that, and no other workspace anything |
| EntitlementRuns.CorrectionGives | app/billing/reconciliation.ts:174-196 | so does a correction, by its status and the plan of its copy |
| EntitlementRuns.SyncGives | app/controllers/admin/subscription_controller.ts:76-110 | a sync nothing has overtaken makes status, period, cancellation and plan of the row what the provider says, leaves customer and trial, and gives the workspace what that is worth |
| EntitlementRuns.CorrectionKeepsFollowingExactlyWhen | app/billing/reconciliation.ts:174-196 | a correction keeps the entitlement of a sole row's workspace if and only if its copy, should it entitle, names a plan equivalent to the row's |
| EntitlementRuns.SyncKeepsFollowingExactlyWhen | app/controllers/admin/subscription_controller.ts:51-110 | a sync keeps it if and only if the status and plan columns it writes and those it leaves, of row and workspace, fit together |
| EntitlementRuns.CurrentCopyIsFresh | app/controllers/admin/subscription_controller.ts:83-110 | a copy nothing has overtaken is always fresh: the three derivations are one |
| EntitlementRuns.LateCorrectionStrandsThePlan | app/billing/reconciliation.ts:66-196 | a sweep's own correction, applied after a webhook has moved the row to another plan, leaves the row on the new plan and the workspace on the old |
| EntitlementRuns.LateSyncStrandsThePlan | app/controllers/admin/subscription_controller.ts:51-110 | so does a sync whose provider answered after such a webhook |
| EntitlementRuns.EntitlementIsTheLastOneWritten | app/billing/webhook_handler.ts:179-200 | any workspace, with any number of rows: its plan and state are the function of the copy it was last entitled from, as long as each sync's copy of the workspace is current |
| EntitlementRuns.ChangeKeepsFollowingExactlyWhenFresh | app/controllers/admin/subscription_controller.ts:83-110 | one change of any kind keeps every sole row followed if and only if it is fresh; a webhook and a portal visit always are |
| Reconciliation.ReconciliationService.Scan | app/billing/reconciliation.ts:66-164 | writes nothing; fails exactly when a fatal refusal is met; reports every drift, every missing record and every correction in row order |
| Reconciliation.AbortsExactlyOnARefusal | app/billing/reconciliation.ts:86-103 | the sweep aborts exactly when the provider refuses one of its rows in a way not worth repeating; a failed call or a missing record does not |
| Reconciliation.ReconciliationService.Reconcile | app/billing/reconciliation.ts:47-56 | a refused sweep writes nothing; otherwise exactly the scanned corrections are applied, to whatever others have made of the tables by then, and counted |
| Reconciliation.ReconciliationService.CorrectStatus | app/billing/reconciliation.ts:174-196 | only the status column of the row is written, and the workspace is entitled from the copy the sweep loaded |
| Reconciliation.ReconciliationService.Sync | app/controllers/admin/subscription_controller.ts:51-122 | the columns in which the provider's answer differs from what was loaded are written over whatever others made of row and workspace meanwhile; no answer, no change |
| Reconciliation.SweepSettlesEachRow | app/billing/reconciliation.ts:47-56 | after the corrections every swept row has the provider's status and otherwise its own columns, and unswept rows are untouched |
| Reconciliation.DriftIsPerRow | app/billing/reconciliation.ts:66-164 | an entry is in the report if and only if its row was swept and that row alone shows it |
| Reconciliation.MissingIsPerRow | app/billing/reconciliation.ts:110-118 | a row is reported missing if and only if it was swept and the provider has no record of it |
| Reconciliation.OpenRowsAreSwept | app/billing/reconciliation.ts:66-76 | a sweep covers every row that is neither cancelled nor expired, and no other |
| Reconciliation.EntryNamesTheDifference | app/billing/reconciliation.ts:100-160 | an entry is reported if and only if the two sides differ on its field, and it carries our value as ours and the provider's as theirs |
| Reconciliation.OneCorrectionPerStatusEntry | app/billing/reconciliation.ts:47-56 | the number of corrections is the number of status entries reported |
| Reconciliation.SecondSweepFindsNoStatusDrift | app/billing/reconciliation.ts:47-56 | a second sweep against the same answers corrects nothing and reports exactly the first one's plan and period entries of rows still open |
| Plans.FullExactlyWhenNextIsRefused | app/billing/plan_service.ts:155-185 | the meter is full if and only if one more is refused, the refusal carries the meter's numbers, and what remains fits exactly |
| Plans.RetiredPlanIsFree | config/plans.ts:190-216 | an unknown plan key has the free plan's limits, overrides first |
| Plans.OverrideWins | config/plans.ts:205-216 | a staff override beats the plan for its own limit, unlimited included, and touches no other |
| Plans.ProductNamesItsPlan | app/billing/plan_service.ts:339-351 | which product names which plan, and that an absent or empty one names none |
| Plans.DearerPlansAllowMore | config/plans.ts:34-80 | no dearer plan allows less of anything, with every limit of each |
| Plans.StorageMeterIsConservative | app/billing/plan_service.ts:289-329 | a meter that is not full has room for a whole megabyte, and a refused byte means it shows full |
| Plans.StorageRefusalRoundsUp | app/billing/plan_service.ts:289-329 | refused exactly past the limit in bytes, with the limit and the fewest whole megabytes that hold what is used |
| Plans.AmberFromEightTenths | app/billing/plan_service.ts:393-401 | the meter turns amber from eight tenths of a limit that is not zero |
| Seats.CapHoldsUnderEveryInterleaving | app/billing/plan_service.ts:202-218 | any number of transactions interleaved statement by statement: a workspace within its seat or key limit, its plan unchanged, is within it ever after |
| Seats.UsageRisesOnlyWithinTheLimit | app/billing/plan_service.ts:202-218 | any one step that raises usage leaves it within the limit, even across plan changes |
| Seats.OverTheCeilingOnlyFalls | app/organizations/seats.ts:73-81 | above the ceiling usage can only fall until it fits again |
| Seats.StepKeepsInvariant | app/organizations/invitation_service.ts:51-102 | locks name their one holder, and while a lock is held its count bounds what the transaction would leave, whatever the others do |
| Seats.AcceptingConvertsTheSeat | app/organizations/invitation_service.ts:148-188 | accepting a pending invitation into a new user moves one from pending to members and leaves the total |
| Seats.MeterCountsTheHolders | app/organizations/seats.ts:25-81 | the displayed total is the number of distinct seat holders, and a seat is available, the meter not full, and one more within the limit are the same thing |
| Seats.MeterShowsWhatIsLeft | app/organizations/seats.ts:53-65 | members and pending links are shown apart and summed; what is left is exactly how many more seats fit, none when full |
| Seats.HoldersFromColumns | app/organizations/seats.ts:36-66 | who holds a seat or a slot: members not deleted, links neither accepted nor revoked whose time is not up, keys not revoked |
| Seats.ExpiredLinksHoldNoSeat | app/models/invitation.ts:31-45 | the meter shows the same with an expired link and without it |
| Seats.AnInvitationAdmitsOnePerson | app/organizations/invitation_service.ts:131-191 | under every interleaving no two users joined by the same invitation, and the one that was used is spent |
| Seats.OneLinkExactlyWhenRivalsAreGone | app/organizations/invitation_service.ts:51-102 | over any run between an invite's retirement of the old links and its commit, the commit leaves one unspent, unrevoked link for the address if and only if every link handed out for it in between is revoked or accepted |
| Seats.TwoInvitesCanBothStayOpen | app/organizations/invitation_service.ts:51-102 | wherever two more seats fit, a legal run of ten steps by two inviters leaves two unspent, unrevoked links for one address |
| InvitationService.InvitationService.Invite | app/organizations/invitation_service.ts:42-105 | refusals in the source's order leave everything as it was; otherwise old links are retired and one is added |
| InvitationService.InvitationService.Accept | app/organizations/invitation_service.ts:125-192 | unknown, spent, orphaned and seatless invitations are refused without effect; otherwise the invitation is spent and the user created or returned |
| InvitationService.RevokingFreesTheSeatExactlyWhenPending | app/organizations/invitation_service.ts:194-201 | revoking gives back one seat of its workspace if the invitation was pending and none otherwise, leaves every other workspace alone, and no later acceptance goes through |
| InvitationService.InviteFitsAndSupersedes | app/organizations/invitation_service.ts:42-105 | an accepted invite leaves exactly its own link open for the address, the workspace within its seats, and every other address untouched |
| InvitationService.ResendingNeedsNoSeat | app/organizations/invitation_service.ts:51-102 | resending to an address that already holds the last seat is never refused |
| InvitationService.AcceptedExactlyWhenWithinTheLimit | app/organizations/invitation_service.ts:131-168 | an acceptance goes through if and only if the link is neither accepted nor revoked, its time is not up and its live workspace is within its limit as it stands; it is no longer valid exactly in the first three cases |
| InvitationService.LinksLastFourteenDays | app/organizations/invitation_service.ts:82-102 | the link a successful invite leaves, for that workspace and address, holds its seat at every moment of the next 14 days and can be accepted at none from then on |
| InvitationService.AcceptingMakesTheMember | app/organizations/invitation_service.ts:172-188 | who joins by a link joins its workspace under its address, and the link is spent |
| InvitationService.InvitedExactlyWhenFreeAndFitting | app/organizations/invitation_service.ts:51-232 | an invite goes through if and only if nobody live has the address in any workspace and the members, the links pending for other addresses and this one fit; which refusal it gets says which of these stands in the way, over the limit with the seats then in use |
| ApiKeyService.ApiKeyService.Create | app/api/api_key_service.ts:47-85 | a refused key changes nothing; otherwise exactly one active key is added |
| ApiKeyService.RevokingLowersTheCountExactlyWhenActive | app/api/api_key_service.ts:114-132 | the count of active keys falls by one exactly when the key was active, and no other workspace's moves |
| ApiKeyService.KeyTakesOneSlotWithinTheLimit | app/api/api_key_service.ts:47-85 | a key that is not refused takes one slot, the total still fits, no other workspace is affected |
| ApiKeyService.CreatedExactlyWhenItFits | app/api/api_key_service.ts:47-85 | a key is created if and only if it may do something, its workspace is there, and its unrevoked keys are below the limit |
| ApiKeyService.RevokingFreesASlot | app/api/api_key_service.ts:114-132 | at the ceiling the next key is refused before a revocation and accepted after it; revoking twice is revoking once |
| ApiKeyService.FreePlanHasNoKeys | app/api/api_key_service.ts:41-45 | on free, or a retired plan, without an override the very first key is refused with a ceiling of zero |
| FileService.FileService.Upload | app/storage/file_service.ts:54-139 | for every fault and crash point: what is answered and what is left in the database and the bucket |
| FileService.FileService.Record | app/storage/file_service.ts:76-118 | the locked transaction inserts the row and moves the counter together or does neither |
| FileService.FileService.Delete | app/storage/file_service.ts:191-205 | marks the row if it is there and lowers the counter by the caller's copy, not below zero; the object stays |
| FileService.FileService.Erase | app/privacy/core_contributors.ts:155-203 | removes the user's and, for a last member, the workspace's rows, their live bytes and the objects that could be removed |
| FileService.FileService.ReplaceAttachment | app/storage/file_service.ts:215-233 | with nobody else at it, on success exactly the new file is attached and live and the earlier ones are retired; otherwise the old ones stay |
| FileService.UploadKeepsInvariant | app/storage/file_service.ts:54-139 | whatever fails and wherever a crash lands, the counter is right and every row has its object |
| FileService.UnstoredUploadLeavesNothing | app/storage/file_service.ts:54-139 | an upload that fails leaves no row, no counter change, and no object unless the clean-up failed |
| FileService.StoredExactlyWhenGoodAndFitting | app/storage/file_service.ts:256-315 | with no fault and a current counter, an upload is stored if and only if its type is allowed and recognised as what it says, its size is between one byte and 20 MB, and it is exempt or fits the quota in bytes |
| FileService.StoredIsWhatWasSent | app/storage/file_service.ts:54-118 | the row, the object and the counter of a stored upload are those of what was sent, and nothing else moves |
| FileService.TurnedAwayForTheFirstReason | app/storage/file_service.ts:256-315 | each rejection exactly when its check is the first to fail, the quota seen by the caller included, and nothing is touched; a quota refusal shows the limit and the megabytes used |
| FileService.CrashesLeaveWhatWasDone | app/storage/file_service.ts:54-138 | a process that dies leaves the object it moved, and the row exactly when the transaction was not refused |
| FileService.StoredUploadFits | app/billing/plan_service.ts:310-329 | a stored, quota-checked upload adds its bytes to the workspace's total and leaves that within the limit in bytes |
| FileService.DeletingALiveFile | app/storage/file_service.ts:191-205 | deleting a live file gives back exactly its bytes; the clamp never bites |
| FileService.DeleteConservesExactlyWhenLive | app/storage/file_service.ts:191-205 | a delete, of a row that is live, deleted or erased since it was loaded, keeps the counter right if and only if the row is live, or the copy is empty, or nothing is counted |
| FileService.ErasureKeepsInvariant | app/privacy/core_contributors.ts:155-203 | erasure keeps every workspace's counter and every remaining row's object right |
| FileService.ErasureTakesExactly | app/privacy/core_contributors.ts:155-203 | a row survives unchanged if and only if it is not the user's and not in a workspace losing its last member; an object goes if and only if its row does and its removal works |
| FileService.CountAfterErasure | app/privacy/core_contributors.ts:155-185 | the bytes subtracted are exactly the live bytes removed, all from the user's own workspace |
| FileRuns.RowsAndObjectsAgree | app/storage/file_service.ts:54-139 | over any run, with any number of uploads in flight and faults and crashes between any two steps, every row's object exists and every object is named by one row, carried by one upload or known to be left behind, exactly one of the three |
| FileRuns.ConservedExactlyWhenSound | app/storage/file_service.ts:191-250 | over any run the counter equals the recount of the live rows at every moment if and only if each delete finds its row live, or has nothing to give back |
| FileRuns.StepConservesExactlyWhenSound | app/storage/file_service.ts:76-118 | no other step, faulty or not, can move the counter away from the live rows |
| FileRuns.RecordedUploadFits | app/billing/plan_service.ts:310-329 | a row recorded under the lock leaves the workspace within its limit in bytes, whatever the upload saw when it began |
| FileRuns.OneAttachmentExactlyWhenRivalsAreGone | app/storage/file_service.ts:215-233 | over any run in which a replacement reads the previous files, records its own and deletes them, exactly its file is attached at the end if and only if that is still live and every other file recorded for the target since is gone or deleted |
| FileRuns.TwoDeletesDrift | app/storage/file_service.ts:191-205 | two deletes of one non-empty file, both loaded while it was live, leave the counter wrong in any workspace with other live bytes |
| FileRuns.TwoReplacementsDrift | app/storage/file_service.ts:215-233 | a legal run of two people replacing one non-empty picture leaves the counter wrong and both new pictures attached |
| FileRuns.TwoNewLogosDrift | app/storage/file_service.ts:215-233 | such a run, spelled out: a logo of one byte replaced twice at once |
| Membership.MembershipService.Register | app/auth/registration_service.ts:52-81 | a new workspace and its one owner, who know each other |
| Membership.MembershipService.Accept | app/organizations/invitation_service.ts:172-188 | adds one live member to a live workspace, as a member even when invited to own; an existing user is left as they are |
| Membership.JoiningAddsTheMember | app/organizations/invitation_service.ts:172-188 | that member is added to that workspace and to no other |
| Membership.MembershipService.Remove | app/organizations/membership_service.ts:30-43 | takes that member and nobody else when not refused, and keeps every workspace at one owner if and only if it is refused or the member owns none |
| Membership.MembershipService.TransferOwnership | app/organizations/membership_service.ts:52-74 | refused for a stranger and for oneself, else both roles and the reference move together |
| Membership.MembershipService.Leave | app/organizations/membership_service.ts:83-92 | takes that user and nobody else when not refused, and keeps every workspace at one owner if and only if it is refused or the user owns none |
| Membership.MembershipService.DeleteOrganization | app/organizations/membership_service.ts:102-115 | no live member remains, every other workspace keeps its one owner |
| Membership.OneOwnerExactlyWhenSound | app/organizations/membership_service.ts:22-115 | over any run, whatever owner its callers saw and whoever gives, each live workspace has exactly one live owner and names that user at every moment if and only if no owner of the day is let go and every transfer let through is sound |
| Membership.ExactlyOneOwner | app/organizations/membership_service.ts:22-115 | runs whose callers are up to date and whose transfers come from the owner to a live member are sound throughout, so each live workspace ends with exactly one live owner |
| Membership.TransferIsSafeExactlyWhen | app/organizations/membership_service.ts:52-74 | a transfer that is let through keeps every workspace at one owner if and only if the target is live and the giver owns the workspace, or the target already did and the giver owns no other; in a deleted workspace, if and only if the giver owns no other |
| Membership.RemovalIsSafeExactlyWhenTheOwnerStays | app/organizations/membership_service.ts:30-92 | a removal or departure keeps the invariant if and only if it is refused or the user is not today's owner of a live workspace |
| Membership.StaleRemovalStrandsTheWorkspace | app/organizations/membership_service.ts:30-43 | a removal decided on the owner read before a transfer goes through and leaves the workspace with no owner |
| Membership.TransferBackRestores | app/organizations/membership_service.ts:52-74 | handing a workspace over and back restores every row |
| MetricsService.AxisClearsTheHighest | app/admin/metrics_service.ts:248-258 | the ceiling is a multiple of four, at least the largest value and below twice it plus four |
| MetricsService.EmptyAxis | app/admin/metrics_service.ts:248-251 | with nothing to show the axis tops out at ten thousand cents |
| MetricsService.StepIsTheLeastRoundFigure | app/admin/metrics_service.ts:253-255 | of all round figures of every magnitude the step is the smallest that clears a quarter of the largest value, and under twice that quarter |
| MetricsService.DecadeHolds | app/admin/metrics_service.ts:254 | the power of ten chosen is the one with the value in its decade |
| MetricsService.RulesAreRoundExactlyWhen | app/admin/metrics_service.ts:243-258 | in whole cents the rules sit at the round figures if and only if the largest value is not 1, 2, 9 or 10 |
| MetricsService.HighestClears | app/admin/metrics_service.ts:271-291 | no plotted amount or count is above the scale's largest |
| MetricsService.HighestIsReached | app/admin/metrics_service.ts:271-291 | and the largest is no higher than any bound that clears them all |
| MetricsService.HigherIsNeverLower | app/admin/metrics_service.ts:278-295 | a larger value is never drawn lower; zero is on the bottom edge and the ceiling on the top one, after rounding |
| MetricsService.HeightsAreToScale | app/admin/metrics_service.ts:278-279 | a value is drawn within half a hundredth of its exact height |
| MetricsService.ColumnsPlotTheirOwnSeries | app/admin/metrics_service.ts:300-322 | of two columns, the one with more gross, refunded, net, registered or cancelled is never the lower in that series, and the later never to the left |
| MetricsService.ColumnStaysOnThePlot | app/admin/metrics_service.ts:300-322 | every y of every column lies between the top and the bottom, every x between the left and the right |
| MetricsService.ColumnsRunLeftToRight | app/admin/metrics_service.ts:280-301 | columns are in order, the first at the left edge and the last at the right |
| MetricsService.ColumnsAreEvenlySpaced | app/admin/metrics_service.ts:280-298 | in the chart columns are evenly spaced, within half a hundredth, and a single one stands in the middle |
| MetricsService.CountCeilingIsTheFirstMultiple | app/admin/metrics_service.ts:283-293 | the count axis is the first positive multiple of the rules that clears the busiest bucket |
| MetricsService.RulesAreWholeAndEven | app/admin/metrics_service.ts:327-332 | the five rules are 49 units apart, each at a whole number of cents and a whole count |
| MetricsService.NewestIsLabelledAndAtMostEight | app/admin/metrics_service.ts:297-307 | the newest column is labelled and at most eight are, however many there are |
| MetricsService.LabelsAreAsCloseAsFits | app/admin/metrics_service.ts:295 | the gap between labels is the least that keeps them to eight |
| MetricsService.ChartLabels | app/admin/metrics_service.ts:297-303 | in the chart the newest column is labelled, labels are one gap apart at least, and a column a gap before a labelled one is labelled |
| Cursor.DecodeOfEncode | app/api/cursor.ts:18-20 | any bytes survive base64url, in four characters per three bytes without padding |
| Cursor.KnownSpellings | app/api/cursor.ts:18-20 | a spelling of the standard, and that of the first id |
| Cursor.SafeLetters | app/api/cursor.ts:19 | the last two letters of the alphabet are the ones safe in an address |
| Cursor.DecodeCursorOfEncodeCursor | app/api/cursor.ts:18-45 | decoding the cursor of an id gives that id for every id from 1 to 2^53 − 1 and nothing for any other |
| Cursor.CursorsAreDistinct | app/api/cursor.ts:18-20 | two ids never share a cursor |
| Cursor.AcceptedCursorsAreOurs | app/api/cursor.ts:27-45 | a text is read as an id if and only if it carries the prefix and that id in decimal, leading zeros allowed, from 1 to 2^53 − 1 |
| Cursor.ReadingIsForgiving | app/api/cursor.ts:33 | plain base64 letters, padding and stray characters make no difference to what is read |
| Cursor.DecodeCursor | app/api/cursor.ts:27-45 | whatever text a client sends, the result is nothing or a positive safe integer |
| Cursor.PageSize | app/api/cursor.ts:54-62 | always between 1 and 100; a number in that range is rounded down, a larger one is 100 |
| Cursor.FetchAdvances | app/api/cursor.ts:76-84 | a page is ascending, within the limit and past its cursor; one with a next cursor is full and moves at least limit ids on |
| Cursor.FetchCovers | app/api/cursor.ts:76-84 | up to its last row, or to the end when there is no next cursor, a page passes over nothing |
| Cursor.WalkSeesRowsOnceInOrder | app/api/cursor.ts:64-84 | over a table that changes between pages, the chained pages are strictly ascending, so no row is seen twice |
| Cursor.WalkMissesNothing | app/api/cursor.ts:64-84 | a row present throughout is seen, whatever is inserted or deleted between pages |
| Cursor.WalkInventsNothing | app/api/cursor.ts:64-84 | a row seen was in the table when one of the pages was read |
| Cursor.WalkEnds | app/api/cursor.ts:64-84 | the walk stops with no cursor, after at most one page more than the ids divided by the limit |

## Left out

- Job instances: a model object is a value that methods return changed, not an object aliased by the caller; what two references to one instance would see is not captured.
- Each operation reads the clock once; the source reads it several times within one call.
- Job payloads, `failedJobs` and `pendingJobs` listings, and the polling mode of the worker with its sleep: listings and a loop that is not meant to end.
- Jobs of a batch settle in any order but one at a time; the source lets the statements of two settlements interleave, which touch different rows.
- Errors of the database itself inside `complete`, `fail` and `reserve`.
- QueueProtocol.MutualExclusion: for runs that keep both guards, because it fails in the others (`ExclusionExactlyWhenGuarded`); a reservation, a failure and a retry are each one step there, and what their statements allow when they interleave is in `JobsTable`.
- QueueProtocol.BackoffLowerBound: for jobs whose failures are all current, because it fails without (`BackoffExactlyWhenCurrent`, `OverlappingFailuresShortenTheWait`).
- QueueWorker.RunOnce: nobody dispatches, retries or competes during the drain, because otherwise it need not end.
- `apply` is one atomic step; the source does not wrap it in a transaction. The provider's network calls and the parsing of its payloads are an oracle, the signature check is a tag of the delivery.
- WebhookHandler.WebhookHandler.UpsertSubscription: the save that writes only changed columns is modelled as "written and stamped only when something changed".
- EntitlementRuns.EntitlementFollowsTheSubscription: for workspaces with one subscription row and runs whose copies are fresh, because it fails without (`LateCorrectionStrandsThePlan`); staff overrides and suspensions are not steps of the run, and subscription rows are never removed.
- EntitlementRuns.EntitlementIsTheLastOneWritten: a sync whose copy of the workspace is out of date is left to `SyncKeepsFollowingExactlyWhen`.
- BillingRuns.LedgerReplayChangesNothing: leaves out disputes, whose mark a replayed payment removes.
- Mail rendering, audit rows, loggers and the activity log; mails are a sequence of what was sent.
- Token hashing, e-mail normalisation and the unique index on e-mail addresses; an invitation is found by its id.
- Attaching an existing user on acceptance does nothing to that user, as in the source.
- In the interleaved transactions the row lock on an invitation is held only against other acceptances.
- Limits that are counted but not in the seat model: lists, to-dos per list, monthly API calls. `isNearLimit` is over exact numbers.
- Reading, measuring, hashing and sniffing an upload are its fields; moving an object is atomic, and a transaction reports its outcome truthfully. Display names, signed links and the purge job are left out.
- FileService.FileService.ReplaceAttachment: one caller at a time; any number at once are runs of `FileRuns`, with the exact condition of `OneAttachmentExactlyWhenRivalsAreGone`.
- FileService.ErasureKeepsInvariant: a user's attachments belong to that user's workspace, which uploads are required to respect; the erased workspace logo column is not modelled.
- Membership.ExactlyOneOwner: for callers whose copy of the workspace is current; any others are covered by `OneOwnerExactlyWhenSound`. Slugs, names and the registration gate are left out.
- The revenue buckets, the growth series, the sparkline and the hover areas of the chart; floating-point rounding of the scale.
- Cursor.DecodeCursor: how the runtime reads text that is not base64url is modelled as skipping foreign characters; the round trips do not depend on it.
- Cursor.WalkMissesNothing: the query ordered by id past the cursor is taken as the endpoints write it; other filters of theirs are part of the table's contents.
- API key scopes, expiry, authentication and the rate limiter; controllers, middleware, views, policies and validators.
- Support tickets, announcements, auth tokens, recovery codes, slugs and public ids: members that one branch settles.
