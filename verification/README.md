# Moeen

Moeen is a home-services marketplace. This project models the parts of it whose guarantees depend on
many functions together, and proves those guarantees for every run.

* **The marketplace** (`Tracking`, `EventLog`, `Marketplace*`, `Repository`, `DedupeKeys`). Requests,
  opportunities, quotes, payments, events, notices and the tracking session form one relational state;
  every transaction is one step on it. `Marketplace` specifies each transaction as a function on the
  locked rows, `Repository` is the class whose methods carry them out statement by statement and are
  proved to produce exactly those rows, `MarketplaceInvariants` says what holds of them,
  `MarketplaceProofs` proves it transaction by transaction, `MarketplaceRuns` over whole runs, and
  `MarketplaceSteps` says which moves of which rows anyone can cause and `MarketplaceNotices` whom each tells.
  `MarketplaceAnswers`, `MarketplaceWrites` and `MarketplaceCommands` state, without the functions that compute
  them, when each transaction commits, what it is refused for, and what it leaves in every row.
* **The notification outbox** (`Outbox`, `OutboxSteps`, `OutboxSafety`, `Delivery`, `DispatchWorker`). Any number of workers claim,
  renew, reclaim and finalize rows on one clock and may crash anywhere. The finalize statements check
  no owner, so exclusivity is a matter of timing; the exact bound is proved.
* **Request images** (`StorageKeys`, `ImageProtocol`, `ImageSafety`, `ImageSubmission`, `Reconciler`,
  `ReconcilerRefinement`). Two stores, uploads, commits, compensations and orphan reconciliation interleave; the exact condition
  on the grace period is proved, and the submission and the reconciler, modelled loop by loop, are proved
  to be runs of the protocol.
* **Who may stop the location service** (`ServiceAuthority`), the Kotlin state machine over every
  sequence of calls.
* **Two graph searches** (`RoleClosure`, `LocationPrivacy`).
* **Two limits** (`OtpLimiter`; `DeviceRegistry` and `DeviceRepository`).

Names such as "the specified rows" in the table mean the specification function of the same transaction;
what is proved of that function stands in the rows about demands, written values, invariants, moves and runs.

Places where the code and its comments disagree; the model follows the code:

* `apps/api/src/notification-outbox.writer.ts:60-66` says that a best-effort notification "retries once";
  lines 136-141 start it one attempt below the ceiling, so it never retries (`BestEffortIsNeverRetried`).
* `apps/api/src/fcm-dispatch.worker.ts:425-431` says that a notification counts as delivered when any
  device accepted it; lines 489-493 make it dead when any device reported a configuration error
  (`PolicyHoldsWithoutConfigError` gives the exact condition).

## Model

| member | source | states |
|---|---|---|
| MarketplaceRuns.RunKeepsInv | apps/api/src/service-request.repository.ts:873-3486 | from the empty database every sequence of transactions keeps, for every request, the quote, payment, event-log, outbox and tracking invariants |
| MarketplaceRuns.SingleWinner | apps/api/src/service-request.repository.ts:1891-1945 | in every reachable state a request has at most one approved quote, never staff and provider quotes together, the approved provider is the assigned one, and `pending_dispatch` means nobody is assigned |
| MarketplaceRuns.PaymentCorrespondence | apps/api/src/service-request.repository.ts:2825-2935 | payments and approved quotes correspond one-to-one with equal amounts, so there is at most one; collected or refunded cash implies completion; running or finished service has no staff quote or exactly one approved and none proposed |
| MarketplaceRuns.OneProviderQuoteEver | apps/api/src/service-request.repository.ts:3175-3333 | a provider quotes a request at most once in a whole run; `quoted` means its quote stands; a standing quote means the opportunity is `quoted` or `closed`; `invited` means it never quoted |
| MarketplaceRuns.LogConservation | apps/api/src/service-request.repository.ts:2894-2976 | replaying the moving events of any reachable log gives the status; the counts of invited, submitted, proposed, approved, rejected and withdrawn events equal the numbers of such rows, closed events are at least the closed opportunities |
| MarketplaceRuns.EveryNoticeStored | apps/api/src/notification-outbox.writer.ts:141-167 | in every reachable state the outbox has exactly one row per call of its writer, so the conflict clause never drops one; each kind of notice is there iff its rows are, and a lost-opportunity notice only for a closed opportunity of a provider who did not win |
| MarketplaceRuns.TrackingSafety | apps/api/src/service-request.repository.ts:2047-2101 | an active session implies a request on the way or in progress, the assigned provider, verified; a stored position implies an active session; both CHECK constraints hold and arrival is recorded iff the history shows it |
| MarketplaceRuns.RunEvolves | apps/api/src/service-request.repository.ts:1812-1836 | between any two states of a run: the assignee is written once, log and outbox only grow, quotes and payments keep provider, amount and verdicts, cash only moves due-collected-refunded, a session stops once and its reason changes at most to a terminal one |
| MarketplaceSteps.EveryMoveIsLegal | apps/api/src/service-request.repository.ts:1861-3486 | every transaction moves the request, each opportunity, quote and payment along at most one edge of its life cycle, and only on behalf of whoever may cause it: customers decide their own quotes, providers withdraw theirs, only eligible providers are invited and only while nothing stands, a provider quotes only on its open invitation, staff only outside the marketplace, only verified available providers are assigned, cash is collected after completion |
| MarketplaceSteps.EveryLogIsALifeCycle | apps/api/src/service-request.repository.ts:2103-2188 | the moving events of every reachable log form a path of the request life cycle from `pending_dispatch` to the current status |
| MarketplaceSteps.RunTravels | apps/api/src/service-request.repository.ts:2103-2292 | between any two states of a run the logs stay such paths |
| MarketplaceNotices.EveryActionTells | apps/api/src/service-request.repository.ts:1961-1981 | every transaction adds to the outbox exactly the notices about the rows it changed, none of which was there: new invitations, a new quote, an entered status, and for a settlement the winner, the customer and every other provider whose opportunity it closed |
| MarketplaceNotices.CreationTells | apps/api/src/service-request.repository.ts:988-1006 | a new request tells its customer, best-effort, and every provider it invites, and nobody else |
| MarketplaceNotices.EveryNoticeIsDue | apps/api/src/service-request.repository.ts:1961-1981 | notice by notice: a transaction adds a notice iff the tables changed in the way it is about, each for the first time and with all its attempts ahead |
| MarketplaceSteps.QuotedMeansStanding | apps/api/src/service-request.repository.ts:3197-3236 | a provider whose opportunity is quoted already has a standing quote, so the check for one always answers before a second row |
| MarketplaceAnswers.EveryActionAnswers | apps/api/src/service-request.repository.ts:1861-3486 | every transaction commits iff its demands, spelled out row by row, are met: an approval iff the quote is proposed, of this request and customer, and a provider quote of a pending request and a verified, available provider; otherwise the refusal is that of the first check that fails |
| MarketplaceWrites.EveryActionWrites | apps/api/src/service-request.repository.ts:1861-3486 | every committed transaction writes exactly the stated columns and values of every quote, opportunity, payment, event and tracking row: a rejected quote declines its quoted opportunity, a withdrawal retracts it, a settlement closes every open one, a stop has the reason of its cause |
| MarketplaceWrites.SampleCountsExactly | apps/api/src/service-request.repository.ts:2428-2463 | a committed sample is stored as qualifying, and adds one to the evidence, iff a distance is given, it is at most 100 m, and the accuracy is at most 50 m |
| MarketplaceCommands.EveryTransactionIsAnswered | apps/api/src/service-request.repository.ts:1861-3486 | in every valid database the caller is told "done" iff the request exists and the demands are met; then its row is written as stated; otherwise the refusal is the first failing check and nothing changes; no other row ever changes |
| MarketplaceCommands.CreationInvites | apps/api/src/service-request.repository.ts:1208-1244 | a new request has an invited opportunity for exactly the verified, available providers of its service |
| MarketplaceCommands.CreationStartsBlank | apps/api/src/service-request.repository.ts:873-1015 | it is pending and unassigned, without quotes, payments or tracking, with one event for itself and one per invitation |
| MarketplaceCommands.CreationNotifies | apps/api/src/service-request.repository.ts:988-1006 | it tells its customer, with one attempt left, and each invited provider, with all five, and nobody else |
| MarketplaceCommands.VerificationActs | apps/api/src/service-request.repository.ts:1761-1859 | a verification decision makes exactly this provider available iff verified; if not verified it ends, as suspended and now, exactly the active sessions of this provider and deletes their positions |
| MarketplaceCommands.AvailabilityActs | apps/api/src/service-request.repository.ts:1700-1714 | only a verified provider changes availability, to the one asked for, and nothing else changes |
| MarketplaceCommands.RetentionActs | apps/api/src/service-request.repository.ts:2596-2656 | retention removes exactly the chosen raw samples received before the cut, and a session iff it stopped before its cut and has no raw sample left |
| MarketplaceRuns.AvailableIsVerified | apps/api/src/service-request.repository.ts:1700-1859 | in every reachable state an available provider is a verified one |
| MarketplaceProofs.SettleSettles | apps/api/src/service-request.repository.ts:1918-1957 | after manual assignment or approval no opportunity is open and no provider quote proposed |
| MarketplaceProofs.ApprovalPaysOnce | apps/api/src/service-request.repository.ts:2876-2884 | an approval always appends its payment with the quoted amount; the conflict clause on the quote never applies |
| MarketplaceProofs.CreateEstablishesInv | apps/api/src/service-request.repository.ts:873-1015 | a new request with its invitations and notices satisfies every table invariant |
| MarketplaceProofs.InviteKeepsInv | apps/api/src/service-request.repository.ts:2989-3094 | inviting keeps every table invariant, whoever is invited again |
| MarketplaceProofs.AssignKeepsInv | apps/api/src/service-request.repository.ts:1861-2008 | manual assignment keeps every table invariant and leaves the marketplace settled |
| MarketplaceProofs.UpdateStatusKeepsInv | apps/api/src/service-request.repository.ts:2103-2188 | a staff status change keeps every table invariant |
| MarketplaceProofs.ProviderStatusKeepsInv | apps/api/src/service-request.repository.ts:2190-2292 | a provider status change keeps every table invariant |
| MarketplaceProofs.TrackingAlwaysStarts | apps/api/src/service-request.repository.ts:2047-2071 | a request that is still `assigned` can always start its tracking session: the insert never meets an earlier row |
| MarketplaceProofs.SuspendKeepsInv | apps/api/src/service-request.repository.ts:1812-1836 | suspending a provider keeps every table invariant of every request it touches |
| MarketplaceProofs.PruneKeepsInv | apps/api/src/service-request.repository.ts:2596-2656 | retention keeps every table invariant, arrival evidence included |
| EventLog.AppendRepeated | apps/api/src/service-request.repository.ts:1929-1952 | a bulk statement that logs n events of a kind that does not move the request adds n to that count alone and leaves the replayed status |
| DedupeKeys.KeyInjective | apps/api/src/service-request.repository.ts:1000-1006 | two dedupe keys are equal only if request and semantic event are, whatever characters a provider id holds |
| DedupeKeys.KeyText | apps/api/src/service-request.repository.ts:1961-1981 | a dedupe key is the kind, the request id and what identifies the event, with colons between |
| Tracking.FoldMeaning | apps/api/src/service-request.repository.ts:2445-2463 | the evidence columns count the qualifying samples and hold the first and last qualifying capture times |
| Tracking.ArrivalIsExact | apps/api/src/provider-tracking.ts:104-131 | the three columns decide arrival iff the accepted history has at least 3 qualifying samples, two of them at least 30 s apart |
| Tracking.ArrivalRefinesHistory | apps/api/src/database-migrations.ts:1009-1012 | in every valid state arrival is recorded iff the history shows it, and the arrival CHECK constraint holds |
| Tracking.RecordKeepsInv | apps/api/src/service-request.repository.ts:2442-2520 | an accepted sample becomes the position and the last raw and history row, is later than every earlier one, and counts once if it qualifies; the tables stay valid |
| Tracking.CountsExactlyWhenNearAndAccurate | apps/api/src/provider-tracking.ts:104-114 | an accepted sample qualifies iff its distance is known and at most 100 m and its accuracy at most 50 m |
| Tracking.AcceptedSampleIsNewest | apps/api/src/service-request.repository.ts:2346-2426 | a sample is accepted iff it comes from the followed provider, not from before the session, and is newer than every sample ever accepted in it, pruned or not |
| Tracking.ConflictMeansOtherData | apps/api/src/service-request.repository.ts:2371-2426 | a sample is a conflict iff the newest row or a surviving raw one holds other data for its capture time |
| Tracking.ResubmissionChangesNothing | apps/api/src/service-request.repository.ts:2371-2426 | sending any accepted sample again changes nothing; the answer is "duplicate" iff it is the newest or its raw row survives |
| Tracking.StartKeepsInv | apps/api/src/service-request.repository.ts:2047-2071 | a session starts iff none exists or this provider's is active |
| Tracking.StopKeepsInv | apps/api/src/service-request.repository.ts:2073-2101 | stopping keeps the tables valid and leaves no active session |
| Tracking.PruneKeepsInv | apps/api/src/service-request.repository.ts:2596-2656 | pruning raw rows and old sessions keeps the tables valid and never ends an active session |
| Repository.ServiceRequestRepository.Create | apps/api/src/service-request.repository.ts:873-1015 | the stored tables are the specified ones (request, invitations of every eligible provider, events, notices) and valid |
| Repository.ServiceRequestRepository.InviteProvidersToRequest | apps/api/src/service-request.repository.ts:2989-3094 | valid tables and the reply are those of the specified invitation; the providers newly invited are returned |
| Repository.ServiceRequestRepository.AssignProvider | apps/api/src/service-request.repository.ts:1861-2008 | valid tables and the reply are those of the specified assignment |
| Repository.ServiceRequestRepository.UpdateStatus | apps/api/src/service-request.repository.ts:2103-2188 | valid tables and the reply are those of the specified staff status change |
| Repository.ServiceRequestRepository.UpdateStatusForProvider | apps/api/src/service-request.repository.ts:2190-2292 | valid tables and the reply are those of the specified provider status change |
| Repository.ServiceRequestRepository.ProposeQuote | apps/api/src/service-request.repository.ts:2704-2781 | valid tables and the reply are those of the specified staff quote; the stored quote is returned |
| Repository.ServiceRequestRepository.SubmitProviderQuote | apps/api/src/service-request.repository.ts:3175-3281 | valid tables and the reply are those of the specified provider quote; the stored quote is returned |
| Repository.ServiceRequestRepository.WithdrawProviderQuote | apps/api/src/service-request.repository.ts:3283-3333 | valid tables and the reply are those of the specified withdrawal; the withdrawn quote is returned |
| Repository.ServiceRequestRepository.DecideQuote | apps/api/src/service-request.repository.ts:2783-2987 | valid tables and the reply are those of the specified customer decision |
| Repository.ServiceRequestRepository.CloseProviderOpportunity | apps/api/src/service-request.repository.ts:3344-3388 | valid tables and the reply are those of the specified closing |
| Repository.ServiceRequestRepository.CollectCashPayment | apps/api/src/service-request.repository.ts:3390-3441 | valid tables and the reply are those of the specified collection |
| Repository.ServiceRequestRepository.RefundCashPayment | apps/api/src/service-request.repository.ts:3443-3486 | valid tables and the reply are those of the specified refund |
| Repository.ServiceRequestRepository.SubmitProviderLocationSample | apps/api/src/service-request.repository.ts:2294-2537 | valid tables and the reply, which tells every refusal apart, are those of the specified sample; the current position is returned for a new sample and for a repeated one |
| Repository.ServiceRequestRepository.StopProviderTrackingForOperations | apps/api/src/service-request.repository.ts:2570-2594 | valid tables and the reply are those of the specified emergency stop |
| Repository.ServiceRequestRepository.UpdatePilotProviderVerification | apps/api/src/service-request.repository.ts:1761-1859 | the provider row and every followed request change as specified and stay valid; refused iff the provider is unknown or not in the expected state, and then nothing changes |
| Repository.ServiceRequestRepository.CreatePilotProvider | apps/api/src/service-request.repository.ts:1716-1759 | a new provider starts pending and unavailable; a taken id is refused and changes nothing |
| Repository.ServiceRequestRepository.UpdateProviderAvailability | apps/api/src/service-request.repository.ts:1700-1714 | accepted iff the provider is verified; then its availability is the one asked for, otherwise nothing changes |
| Repository.ServiceRequestRepository.PruneProviderTrackingData | apps/api/src/service-request.repository.ts:2596-2656 | every request's raw rows and stopped sessions change as specified and stay valid; the reply counts exactly the deleted samples and sessions; an invalid batch size changes nothing |
| Repository.AssertServiceMayStart | apps/api/src/service-request.repository.ts:2024-2045 | service may start iff there is no staff quote or one staff quote is approved |
| Repository.RejectProposedQuotes | apps/api/src/service-request.repository.ts:1918-1935 | the loop rejects exactly the proposed provider quotes and logs one event for each |
| Outbox.RunKeepsInv | apps/api/src/fcm-dispatch.worker.ts:84-162 | every run of any number of workers keeps: leased iff sending, attempts as counted, each live worker holds exactly the rows it remembers, freshly leased |
| OutboxSafety.ExclusiveExactlyWithinTheLease | apps/api/src/fcm.config.ts:28-44 | over every clock trace, batch and crash pattern no row is in two live workers' batches iff the longest stretch between lease checks plus 30 s is at most the 300 s lease |
| OutboxSafety.LeaseBound | apps/api/src/fcm-dispatch.worker.ts:278-298 | within that bound every row in a live worker's batch has a lease younger than the TTL at every instant, so no reclaim takes it |
| OutboxSafety.NextMovesRows | apps/api/src/fcm-dispatch.worker.ts:134-162 | a row only moves pending-sending, and from sending to pending by reclaim or by a retry that adds one attempt below the ceiling, to delivered or to dead |
| OutboxSafety.TerminalRowsStay | apps/api/src/fcm-dispatch.worker.ts:134-162 | a delivered or dead row never changes again |
| OutboxSafety.ClaimsBalance | apps/api/src/fcm-dispatch.worker.ts:84-162 | claims = retries + terminal finalizations + reclaims + (1 while sending), at most one terminal finalization, attempts at most 5 |
| OutboxSafety.SlowRunUndoesDelivery | apps/api/src/fcm-dispatch.worker.ts:134-162 | past the bound the unguarded finalize statements can send a delivered row back to pending |
| OutboxSafety.BestEffortIsNeverRetried | apps/api/src/notification-outbox.writer.ts:136-141 | a best-effort row, which starts one attempt below the ceiling, is never retried, within the lease bound or past it |
| OutboxSafety.RetryFollowsTheLadder | apps/api/src/fcm.config.ts:56-73 | a transient failure waits 1, 5, 15 or 60 minutes after the first to fourth attempt and is final at the fifth; the fallback delay is never used |
| OutboxSteps.ReclaimActs | apps/api/src/fcm-dispatch.worker.ts:103-111 | every row that is sending under a lease at least 300 s old becomes pending, free and due at once; no other row changes |
| OutboxSteps.ClaimActs | apps/api/src/fcm-dispatch.worker.ts:84-101 | a claim leases now, to an idle worker, at most 50 different rows that are pending and due, and the worker remembers their attempts as read |
| OutboxSteps.RenewalActs | apps/api/src/fcm-dispatch.worker.ts:333-353 | a lease check renews iff 30 s have passed since the last renewal, and then exactly the rows of the batch that are still sending and still the worker's |
| OutboxSteps.FinishRowActs | apps/api/src/fcm-dispatch.worker.ts:134-162 | a delivery keeps the attempts; a failure writes one more than the worker read and is final at the fifth or when not transient, otherwise pending after 1, 5, 15 or 60 minutes |
| OutboxSteps.BackToPending | apps/api/src/fcm-dispatch.worker.ts:103-162 | a row comes back to pending only by a reclaim of an expired lease, due at once, or by a transient failure below the ceiling, due after its delay |
| OutboxSteps.EnqueueActs | apps/api/src/notification-outbox.writer.ts:136-141 | a required row has five attempts ahead of it and a best-effort row one |
| Delivery.PolicyHoldsWithoutConfigError | apps/api/src/fcm-dispatch.worker.ts:425-519 | below the ceiling a row ends delivered, pending or dead as the documented policy says (accepted by some device, no device, only permanent failures; transient failures of devices or of the whole batch), exactly unless some device reported a configuration error |
| Delivery.LastAttemptIsFinal | apps/api/src/fcm-dispatch.worker.ts:573-591 | at the last attempt the row is delivered in the same cases and dead in all others |
| Delivery.AcceptedIsNeverResent | apps/api/src/fcm-dispatch.worker.ts:489-496 | a row some device accepted is delivered iff no device reported a configuration error, otherwise dead, and never pending |
| Delivery.RevokedExactly | apps/api/src/fcm-dispatch.worker.ts:475-488 | a device is revoked iff the payload is safe, the batch was answered per device, and its own answer is an invalid or an unregistered token |
| Delivery.ReportsMean | apps/api/src/fcm-dispatch.worker.ts:467-485 | outcomes are judged by the answers as they came; a missing answer is read as a transient failure and as nothing else |
| Delivery.Judge | apps/api/src/fcm-dispatch.worker.ts:432-519 | the loop over the devices and the tests around it reach the specified outcome and revoke exactly the devices that answered with an invalid or unregistered token |
| DispatchWorker.FcmDispatchWorker.ReclaimStale | apps/api/src/fcm-dispatch.worker.ts:103-111 | exactly the sending rows whose lease is a TTL old become pending and available now |
| DispatchWorker.FcmDispatchWorker.ClaimBatch | apps/api/src/fcm-dispatch.worker.ts:385-408 | exactly the chosen due rows are leased to this worker and remembered with the attempts read |
| DispatchWorker.FcmDispatchWorker.RenewLeasesIfDue | apps/api/src/fcm-dispatch.worker.ts:333-348 | nothing happens before the interval has passed; then the batch's still-owned leases are refreshed |
| DispatchWorker.FcmDispatchWorker.RenewOwnedLeases | apps/api/src/fcm-dispatch.worker.ts:350-353 | exactly the listed rows that are still sending and still this worker's get a new lease |
| DispatchWorker.FcmDispatchWorker.ProcessClaimedRow | apps/api/src/fcm-dispatch.worker.ts:432-532 | the first claimed row is finalized by what its devices and the send answered, and left sending when a statement failed; it leaves the batch; exactly the devices that answered with an invalid or unregistered token are to be revoked |
| DispatchWorker.FcmDispatchWorker.FinalizeRow | apps/api/src/fcm-dispatch.worker.ts:573-606 | delivered, dead, or one more attempt with the laddered delay, and dead at the fifth attempt |
| DispatchWorker.FcmDispatchWorker.TickOnce | apps/api/src/fcm-dispatch.worker.ts:273-323 | one pass over a batch of any length, with any steps of other workers before the claim and during every send, is the run reclaim, claim, and per row lease check, send, finalize; it keeps the invariant and ends with an empty batch |
| DispatchWorker.TickIsInOrder | apps/api/src/fcm-dispatch.worker.ts:273-323 | leaving out what others do, a pass is one reclaim, one claim, and for every claimed row in order a lease check and then its finalize |
| ImageSafety.SafeExactlyWithinTheGrace | apps/api/src/request-image-reconcile.ts:148-240 | in every interleaving of uploads, commits, compensations and reconciliations every committed image keeps its object, iff the longest upload-to-commit delay plus the longest reference read is below the grace period |
| ImageSafety.RunKeepsInv | apps/api/src/app.service.ts:731-789 | every step keeps: committed objects stored, keys apart, and each committed object referenced, ahead of the reader or too young, in every running reconciliation |
| ImageSafety.OneRequestPerSubmission | apps/api/src/service-request.repository.ts:893-952 | a (customer, idempotency key) pair commits at most one request in every interleaving, whatever the delays |
| ImageSafety.SecondSubmissionReplaysOrConflicts | apps/api/src/service-request.repository.ts:931-952 | a second submission under a committed key commits nothing and replays iff its content fingerprint is the same, whether or not objects were lost |
| ImageSafety.YoungIsNoOrphan | apps/api/src/request-image-reconcile.ts:184-213 | what a run may list as an orphan belongs to no committed row and to no open upload |
| ImageSubmission.RequestImageService.PutInOrder | apps/api/src/request-image.service.ts:137-147 | objects are stored in order up to the first rejected put |
| ImageSubmission.RequestImageService.Upload | apps/api/src/request-image.service.ts:137-153 | reports success iff every put succeeded, and names exactly the uploaded keys |
| ImageSubmission.RequestImageService.DeleteBestEffort | apps/api/src/request-image.service.ts:155-164 | deletes at most the attempt's own uploaded keys |
| ImageSubmission.RequestImageService.Create | apps/api/src/service-request.repository.ts:893-952 | commits iff no request has the key; otherwise replay iff the fingerprints agree, else conflict |
| ImageSubmission.RequestImageService.CreateWithImages | apps/api/src/app.service.ts:710-789 | the whole submission is a run of the protocol; it appends one commit iff it reports success, and otherwise leaves what compensation could not delete |
| ImageSubmission.CompensationLeaves | apps/api/src/app.service.ts:753-761 | compensation touches no earlier object and leaves only undeletable ones and the one whose rejected put stored it |
| Reconciler.RequestImageReconciler.ReadReferences | apps/api/src/request-image-reconcile.ts:151-181 | the read succeeds iff it reaches a last page within both bounds; the set is the union of the pages; the reason for a failure is the first that occurs |
| Reconciler.RequestImageReconciler.ListOrphans | apps/api/src/request-image-reconcile.ts:184-221 | tallies every object listed; failure and truncation are reported exactly when they happened |
| Reconciler.RequestImageReconciler.TallyPage | apps/api/src/request-image-reconcile.ts:202-214 | each object under the prefix is counted and is referenced, recent or an orphan |
| Reconciler.ListingIsPartitioned | apps/api/src/request-image-reconcile.ts:202-221 | listed = referenced objects + recent + orphans |
| Reconciler.OrphanMeaning | apps/api/src/request-image-reconcile.ts:202-214 | a key is an orphan iff some listed object has it, unreferenced and not younger than the threshold |
| Reconciler.CountsMean | apps/api/src/request-image-reconcile.ts:202-212 | the two counters of the report are the numbers of referenced objects and of unreferenced objects younger than the threshold |
| Reconciler.ItemsAreUnderPrefix | apps/api/src/request-image-reconcile.ts:202-204 | exactly the listed objects under the prefix are examined |
| Reconciler.CollectedMeans | apps/api/src/request-image-reconcile.ts:154-163 | a key is in the reference set iff it is under the prefix and on some page read |
| Reconciler.ReadableInFigures | apps/api/src/request-image-reconcile.ts:151-176 | the read succeeds iff a last page comes within 10,000 pages with at most a million keys by then |
| Reconciler.CountsAddUp | apps/api/src/request-image-reconcile.ts:226-239 | what is counted as deleted and as failed adds up over any cut of the batches |
| Reconciler.BatchesPartition | apps/api/src/request-image-reconcile.ts:224-240 | the batches concatenate to the sorted orphans, all full but the last, which is not empty |
| Reconciler.RequestImageReconciler.DeleteInBatches | apps/api/src/request-image-reconcile.ts:224-240 | exactly those batches are tried, past failures too; deleted and failures count them |
| Reconciler.RequestImageReconciler.Reconcile | apps/api/src/request-image-reconcile.ts:134-242 | without a complete reference set nothing is deleted; otherwise exactly the sorted orphans by the threshold taken after the read, none on a dry run; the report adds up |
| Reconciler.DeletionsAreOrphans | apps/api/src/request-image-reconcile.ts:202-240 | a key is tried for deletion iff a listed object has it, unreferenced and not younger than the threshold |
| Reconciler.TriedAreTheOrphans | apps/api/src/request-image-reconcile.ts:224-240 | the tried keys are the orphans, each as often as it was listed, in ascending order |
| Reconciler.OrphansAreDistinct | apps/api/src/request-image-reconcile.ts:202-240 | a listing that names each object once has each orphan tried once |
| Reconciler.ListedKeysArePage | apps/api/src/service-request.repository.ts:1185-1198 | a listed page misses no row up to its last key and is empty only at the end, whatever limit was asked for |
| Reconciler.CompleteReadCoversTheStart | apps/api/src/request-image-reconcile.ts:151-181 | a complete read contains every row committed before it began, however many are inserted meanwhile |
| Reconciler.NoCommittedRowIsDeleted | apps/api/src/request-image-reconcile.ts:151-240 | no object of a row committed before the run began is deleted by it |
| ReconcilerRefinement.ReconcileIsARun | apps/api/src/request-image-reconcile.ts:148-240 | the three loops, with any steps of others before each call and both stores answering truly at each, are a run of the two-store protocol whose deletions are exactly the batches tried |
| ReconcilerRefinement.ReconcileLosesNothing | apps/api/src/request-image-reconcile.ts:148-240 | so within the grace bound, from every reachable state, no reconciliation loses a committed image |
| ReconcilerRefinement.ReadingIsReadSteps | apps/api/src/request-image-reconcile.ts:151-181 | reading pages is the protocol's page steps, and what is collected is what it has read |
| ReconcilerRefinement.SweepIsListSteps | apps/api/src/request-image-reconcile.ts:184-221 | comparing listed objects is the protocol's listing steps, and the orphans are the same |
| StorageKeys.SortSorts | apps/api/src/request-image-reconcile.ts:225-225 | sorting orders the keys and keeps each as often as it occurs |
| ServiceAuthority.StopsAreSeparated | apps/provider-mobile/android/app/src/main/kotlin/com/moeen/moeen_provider/ProviderTrackingServiceAuthorityPlugin.kt:85-152 | between any two dispatched stops some call saw the service not running |
| ServiceAuthority.PendingMeansNoGeneration | apps/provider-mobile/android/app/src/main/kotlin/com/moeen/moeen_provider/ProviderTrackingServiceAuthorityPlugin.kt:90-112 | a pending stop leaves no current generation, so the pending branch for the current generation is never taken |
| ServiceAuthority.GenerationEndsExactly | apps/provider-mobile/android/app/src/main/kotlin/com/moeen/moeen_provider/ProviderTrackingServiceAuthorityPlugin.kt:65-144 | a generation ends iff it is released or stopped itself, replaced by a claim of the current runtime, or stopped by a not yet completed zero-authority request of the current runtime |
| ServiceAuthority.SupersededRuntimeIsPowerless | apps/provider-mobile/android/app/src/main/kotlin/com/moeen/moeen_provider/ProviderTrackingServiceAuthorityPlugin.kt:71-126 | a superseded runtime id or epoch changes only the last observation, claims nothing and stops nothing |
| ServiceAuthority.SupersededForever | apps/provider-mobile/android/app/src/main/kotlin/com/moeen/moeen_provider/ProviderTrackingServiceAuthorityPlugin.kt:48-77 | a superseded (runtime, epoch) never becomes current again |
| ServiceAuthority.BeginReplies | apps/provider-mobile/android/app/src/main/kotlin/com/moeen/moeen_provider/ProviderTrackingServiceAuthorityPlugin.kt:48-63 | a runtime is refused iff a later order, or another runtime of the same order, is known; otherwise it is current under the epoch returned |
| ServiceAuthority.EveryCallWrites | apps/provider-mobile/android/app/src/main/kotlin/com/moeen/moeen_provider/ProviderTrackingServiceAuthorityPlugin.kt:48-160 | from every valid state each call writes exactly the stated values of epoch, runtime, order, generation, pending stop and observation, and asks for a stop iff stated |
| ServiceAuthority.ClaimAnswers | apps/provider-mobile/android/app/src/main/kotlin/com/moeen/moeen_provider/ProviderTrackingServiceAuthorityPlugin.kt:65-77 | a claim is granted iff its runtime and epoch are current and not both a stop is pending and the service runs; then its generation is current and no stop pending, otherwise only the observation changes |
| ServiceAuthority.ClaimAnswersFromHistory | apps/provider-mobile/android/app/src/main/kotlin/com/moeen/moeen_provider/ProviderTrackingServiceAuthorityPlugin.kt:65-77 | over every run a claim is granted iff its runtime and epoch are current and no dispatched stop still awaits the end of a running service |
| ServiceAuthority.OwnsExactly | apps/provider-mobile/android/app/src/main/kotlin/com/moeen/moeen_provider/ProviderTrackingServiceAuthorityPlugin.kt:65-144 | over every run a generation is current iff it was granted and no call since has ended it |
| ServiceAuthority.PendingExactly | apps/provider-mobile/android/app/src/main/kotlin/com/moeen/moeen_provider/ProviderTrackingServiceAuthorityPlugin.kt:65-152 | over every run a stop is pending iff one was dispatched and since then no claim was granted and no task was destroyed with the service seen stopped |
| ServiceAuthority.RepeatingChangesNothing | apps/provider-mobile/android/app/src/main/kotlin/com/moeen/moeen_provider/ProviderTrackingServiceAuthorityPlugin.kt:48-152 | repeating any call at once changes nothing more, dispatches nothing more and repeats the answer |
| ServiceAuthority.OnlyTheAuthorityStops | apps/provider-mobile/android/app/src/main/kotlin/com/moeen/moeen_provider/ProviderTrackingServiceAuthorityPlugin.kt:85-144 | only the current generation or the current runtime dispatches a stop, with the service running and none pending |
| ServiceAuthority.RunKeepsInv | apps/provider-mobile/android/app/src/main/kotlin/com/moeen/moeen_provider/ProviderTrackingServiceAuthorityPlugin.kt:48-165 | in every reachable state both remembered sets are duplicate-free and hold at most 32 entries |
| ServiceAuthority.MemoryIsTheLastWindow | apps/provider-mobile/android/app/src/main/kotlin/com/moeen/moeen_provider/ProviderTrackingServiceAuthorityPlugin.kt:162-165 | the bounded memory is the window of the last 32 entries of the unbounded one |
| ServiceAuthority.MemoryHoldsStopsSinceStart | apps/provider-mobile/android/app/src/main/kotlin/com/moeen/moeen_provider/ProviderTrackingServiceAuthorityPlugin.kt:154-165 | the remembered generations are those their owner stopped, and the remembered requests those the current runtime made while no stop was pending, since the service was last seen to start |
| ServiceAuthority.StopAnswersFromHistory | apps/provider-mobile/android/app/src/main/kotlin/com/moeen/moeen_provider/ProviderTrackingServiceAuthorityPlugin.kt:85-113 | every stop of a generation, whatever is seen of the service: "requested" iff it is the current one of a running service, else "already stopped" iff its owner has stopped it within the window since the last seen start, else stale |
| ServiceAuthority.ZeroAuthorityAnswersFromHistory | apps/provider-mobile/android/app/src/main/kotlin/com/moeen/moeen_provider/ProviderTrackingServiceAuthorityPlugin.kt:115-144 | a zero-authority stop of the current runtime is requested iff the service runs, none is pending and the request is not in that window, else already stopped |
| ServiceAuthority.ProviderTrackingServiceAuthorityState.BeginRuntime | apps/provider-mobile/android/app/src/main/kotlin/com/moeen/moeen_provider/ProviderTrackingServiceAuthorityPlugin.kt:48-63 | the new fields and the returned epoch are the specified ones |
| ServiceAuthority.ProviderTrackingServiceAuthorityState.ClaimGeneration | apps/provider-mobile/android/app/src/main/kotlin/com/moeen/moeen_provider/ProviderTrackingServiceAuthorityPlugin.kt:65-77 | the new fields and the verdict are the specified ones |
| ServiceAuthority.ProviderTrackingServiceAuthorityState.ReleaseGeneration | apps/provider-mobile/android/app/src/main/kotlin/com/moeen/moeen_provider/ProviderTrackingServiceAuthorityPlugin.kt:81-83 | only the current generation can be released |
| ServiceAuthority.ProviderTrackingServiceAuthorityState.StopGeneration | apps/provider-mobile/android/app/src/main/kotlin/com/moeen/moeen_provider/ProviderTrackingServiceAuthorityPlugin.kt:85-113 | the new fields, the decision and whether it dispatched are the specified ones |
| ServiceAuthority.ProviderTrackingServiceAuthorityState.StopForZeroAuthority | apps/provider-mobile/android/app/src/main/kotlin/com/moeen/moeen_provider/ProviderTrackingServiceAuthorityPlugin.kt:115-144 | the new fields, the decision and whether it dispatched are the specified ones |
| ServiceAuthority.ProviderTrackingServiceAuthorityState.OnForegroundTaskDestroyed | apps/provider-mobile/android/app/src/main/kotlin/com/moeen/moeen_provider/ProviderTrackingServiceAuthorityPlugin.kt:146-152 | a pending stop is cleared iff the service is seen not running |
| ServiceAuthority.ProviderTrackingServiceAuthorityState.Add | apps/provider-mobile/android/app/src/main/kotlin/com/moeen/moeen_provider/ProviderTrackingServiceAuthorityPlugin.kt:162-165 | the loop keeps the newest 32 entries in insertion order |
| RoleClosure.ResolveReachableRoles | apps/api/src/test-db.guard.ts:780-863 | each refusal happens iff its condition is the first to hold; otherwise the result lists, without repeats, exactly the roles a path of granting memberships and database ownership reaches |
| RoleClosure.Traverse | apps/api/src/test-db.guard.ts:839-853 | the worklist ends with exactly the reachable roles, or stops iff the closure needs a role the catalog lacks |
| RoleClosure.ClosedIsLeast | apps/api/src/test-db.guard.ts:839-853 | a closed set of reachable roles holding the session is the whole closure |
| RoleClosure.IndexRoles | apps/api/src/test-db.guard.ts:793-805 | the catalog is accepted iff every role has a non-empty name and no name repeats |
| RoleClosure.IndexMemberships | apps/api/src/test-db.guard.ts:811-837 | the first malformed membership decides the refusal; the index holds exactly the granting edges |
| RoleClosure.AssertSafeRoleReachability | apps/api/src/test-db.guard.ts:882-930 | accepts iff the session role is listed and every fact of every listed role is plainly false |
| RoleClosure.MayRun | apps/api/src/test-db.guard.ts:780-930 | resolving and checking accepts iff the catalog is sound and no path from the session reaches a role that is not harmless |
| RoleClosure.EdgeMeans | apps/api/src/test-db.guard.ts:811-851 | one role leads to another iff a membership between them inherits, may be set or may be administered, or the first owns the database and the other is `pg_database_owner` |
| RoleClosure.HarmlessMeans | apps/api/src/test-db.guard.ts:865-930 | a role is harmless iff all five attributes and the predefined mark are plainly false |
| RoleClosure.FirstFaultDecides | apps/api/src/test-db.guard.ts:811-833 | the refusal is that of the first membership with an option that is not boolean or a role that is not known, the options first |
| LocationPrivacy.Search.ContainsForbiddenLocationKey | apps/api/src/location-privacy.ts:35-50 | terminates on cyclic graphs; true only if a forbidden key is reachable; false only if nothing newly visited offends |
| LocationPrivacy.BroadAuditLocationSafe | apps/api/src/location-privacy.ts:29-33 | a value is refused iff references lead from it to an object with a forbidden key |
| LocationPrivacy.ClearedMeansSafe | apps/api/src/location-privacy.ts:35-50 | a visited set without offenders and closed under references excludes every path to an offender |
| LocationPrivacy.NormalizeKeyIsIdempotent | apps/api/src/location-privacy.ts:52-54 | normal forms are fixed points |
| LocationPrivacy.SpellingDoesNotMatter | apps/api/src/location-privacy.ts:52-54 | a separator anywhere in a key never changes its normal form |
| LocationPrivacy.CaseDoesNotMatter | apps/api/src/location-privacy.ts:52-54 | swapping the case of a letter anywhere in a key never changes its normal form |
| LocationPrivacy.NormalKeysStay | apps/api/src/location-privacy.ts:52-54 | small letters and digits stay, in order |
| LocationPrivacy.ForbiddenExactly | apps/api/src/location-privacy.ts:2-23 | a key is forbidden iff its letters and digits, in small letters, spell one of the fourteen words |
| LocationPrivacy.OffendsMeans | apps/api/src/location-privacy.ts:43-49 | an object offends iff one of its own keys does; an array never does |
| LocationPrivacy.SameNormalForm | apps/api/src/location-privacy.ts:46-48 | only the normal form of a key decides whether it is forbidden |
| OtpLimiter.SameVerdictsExactlyWithinOneMillisecond | apps/api/src/service-request.repository.ts:3589-3637 | on all sequences over any number of phones in which the clock steps back by at most b ms the pruned table and the in-memory lists give the same verdicts, iff b <= 1 |
| OtpLimiter.ListsAnswerAsHistory | apps/api/src/customer-auth.service.ts:98-119 | on every sequence of requests the in-memory lists answer as the full history does |
| OtpLimiter.TableAnswersAsHistory | apps/api/src/service-request.repository.ts:3595-3632 | with steps back of at most one millisecond the pruned table answers as the full history does |
| OtpLimiter.AcceptedAreSpaced | apps/api/src/customer-auth.service.ts:98-119 | one phone's accepted requests are at least 60 s apart and at most five in any hour, whatever the clock does |
| OtpLimiter.VerdictMeaning | apps/api/src/service-request.repository.ts:3598-3632 | on every history: cooldown iff the last accepted request is less than a minute old; limit iff it is not and the fifth from the end is less than an hour old |
| OtpLimiter.PruningIsInvisible | apps/api/src/service-request.repository.ts:3621-3629 | rows before a window's start never matter to a verdict at or after it |
| OtpLimiter.SteppingBackSeparates | apps/api/src/service-request.repository.ts:3621-3629 | a step back of two milliseconds separates them: the table has pruned a row by another phone's request and accepts what the lists refuse |
| OtpLimiter.ServiceRequestRepository.ReserveOtpRequest | apps/api/src/service-request.repository.ts:3589-3637 | the verdict and the new table are the specified ones |
| OtpLimiter.CustomerAuthService.RequestOtp | apps/api/src/customer-auth.service.ts:75-120 | a malformed number is refused and changes nothing; otherwise the verdict and the new lists are the specified ones |
| DeviceRegistry.CapAndBindingHold | apps/api/src/fcm-device.repository.ts:288-378 | however transactions interleave, an owner has at most ten active devices and a token at most one active row |
| DeviceRegistry.CountOnlyFalls | apps/api/src/fcm-device.repository.ts:341-362 | while an owner's transaction is open the owner's number of active devices never rises |
| DeviceRegistry.CountedBoundsActive | apps/api/src/fcm-device.repository.ts:341-349 | from its count to its commit the number counted, below the cap, bounds the owner's active devices |
| DeviceRegistry.RowsOnlyRevoked | apps/api/src/fcm-device.repository.ts:406-419 | between any two states of a run no row changes owner or token and no revoked row becomes active again |
| DeviceRegistry.FailureLeavesBindings | apps/api/src/fcm-device.repository.ts:368-378 | a registration that ends without committing, at whatever statement and however others interleave, has changed no row since it was open, and the binding it had selected is as it was |
| DeviceRegistry.CommitBindsToken | apps/api/src/fcm-device.repository.ts:334-366 | a commit rebinds the token to the registering owner and revokes only the token's earlier row |
| DeviceRegistry.ConflictIffBoundSince | apps/api/src/fcm-device.repository.ts:304-377 | an insert that need not wait is refused for the token iff another transaction bound the token since this one began its select |
| DeviceRepository.AloneIsSequential | apps/api/src/fcm-device.repository.ts:288-378 | the interleaved transaction, alone, is the sequential registration |
| DeviceRepository.RegistrationMeans | apps/api/src/fcm-device.repository.ts:288-378 | alone, a registration refreshes iff the owner has the token already, is refused iff it has not and has ten active devices, and otherwise revokes exactly the earlier binding of the token and adds its own |
| DeviceRepository.FcmDeviceRepository.RegisterDevice | apps/api/src/fcm-device.repository.ts:288-378 | refreshes, refuses at the cap with every row as before, or revokes the earlier binding and inserts |
| DeviceRepository.FcmDeviceRepository.RevokeDevice | apps/api/src/fcm-device.repository.ts:406-419 | revokes exactly an own device; an unknown or foreign one stays |

## Left out

- PostgreSQL: a transaction on a request row is one atomic step (device registration is the exception); which due rows a claim picks and which rows retention reaches is any choice the statement allows.
- Grouping: the child rows of a request are kept with it, a quote is named by its request and its position, and generated ids are fresh; serial numbers without gaps.
- Seed data: a run starts from empty tables; the services and the verified pilot providers inserted at start-up are not modelled, nor is the unavailability of a service.
- Hashes: token hashes, content fingerprints and advisory-lock keys are modelled as the values they name, so collisions are not modelled.
- Clock: database time, worker time, the reconciler's time and the times storage stamps on objects are one clock in whole milliseconds; only the OTP limiters, which take the time of a request as it comes, are modelled for a clock that steps back.
- Distance: the haversine distance of a sample is an input; only its comparison with 100 m, and of the accuracy with 50 m, matters. Non-finite numbers and coordinate rounding are not modelled.
- Notifications: FCM is enabled and every request has its customer; the disabled writer and the skip of legacy rows without a recipient only write less.
- Repository.ServiceRequestRepository.PruneProviderTrackingData: which rows the database selects is an input; that they are at most a batch of each kind is the database's LIMIT.
- Repository.ServiceRequestRepository.CreatePilotProvider: the generated id is an input, a taken one is refused.
- Tracking configuration: whether tracking is enabled does not change during a run.
- ImageProtocol: a rejected create did not commit; a COMMIT whose answer is lost is not modelled. Keys are fresh and all lie under one prefix.
- ImageSubmission.RequestImageService.CreateWithImages: one submission without steps of others between its effects and at one instant; the interleavings of the same effects are those of ImageProtocol.
- Reconciler: the validation of the prefix and of the cursor's shape, the clamping of page sizes sent to storage and the text of error messages; a malformed cursor is one of the ways a read may fail.
- StorageKeys: the database's order of keys and the one used for sorting are the same order on characters.
- ServiceAuthority: the wrap of the epoch at 2^31 and the Flutter plugin around the class.
- LocationPrivacy: getters and exotic objects; a node is an array or a list of named entries.
- RoleClosure: non-array arguments; the rest of the guard (URLs, addresses, attribute preflight).
- DispatchWorker: coalescing of wake-ups, queue-depth logging, the device lookup and the send itself, whose answers are inputs; revoking invalid device tokens is a Revoke step of DeviceRegistry.
- DeviceRegistry: platform, last-seen time and the secret itself.
- OtpLimiter: the codes themselves, challenges, attempts and sessions.
- Everything else: controllers, guards, sessions, access codes, ratings, support tickets, audit rows, projections, migrations, the dashboards and the mobile apps, which would add single-branch members only.
