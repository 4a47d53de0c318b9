# A verified model of the campaign, workflow, channel and audit core

The CRM's back end sends marketing campaigns, runs automation workflows, caches and watches
channel credentials, and keeps an audit trail. This project models the six parts of it whose
correctness is hardest to see from reading one function, and proves what they promise.

| file | what it models |
|---|---|
| `Audience.dfy` | who of an audience gets a message, decided batch by batch, and the preview that sizes it |
| `AudienceRules.dfy` | the audience decision in the fields of contacts and identities: refusals, the address chosen, what forbids it, the preview's figures |
| `CampaignProtocol.dfy` | the send protocol: a campaign document, its recipient ledger, two job queues, any number of dispatch and send workers |
| `CampaignCounting.dfy`, `CampaignDelivery.dfy`, `CampaignSafety.dfy`, `CampaignTheorems.dfy`, `CampaignProgress.dfy` | what every run of the protocol keeps |
| `CampaignRequests.dfy` | what launch, pause, resume, cancel and retry bring about, at once and for the rest of a run |
| `CampaignEffects.dfy` | which steps change each part of the state, and that nobody is without a next step |
| `CampaignAttempts.dfy`, `CampaignRecord.dfy` | how a worker goes through its batch, and what is noted of each row, counted over the run |
| `CampaignFence.dfy` | which scheduling those results need, exactly, and what happens without it |
| `CampaignAddresses.dfy` | from the audience decision to the sends: one message per address |
| `CampaignMaterialise.dfy` | the loop that writes the audience into the ledger, with crashes |
| `CampaignSendBatch.dfy`, `CampaignQueueing.dfy` | the send worker and the queueing loop as programs, each database operation a protocol step |
| `WorkflowGraph.dfy`, `WorkflowValidation.dfy`, `WorkflowLifecycle.dfy` | cycle search, reachability, validation, and the draft, publish, activate life of a workflow |
| `WorkflowRules.dfy` | validation in the fields of nodes and edges, and which fault is reported |
| `WorkflowHistory.dfy` | which requests are accepted, and every stored field as the last write of a run |
| `WorkflowOverlap.dfy` | the same requests when they overlap, each a check and a later write |
| `TransportPool.dfy` | the credential cache: LRU, expiry, cleanup |
| `TransportCoherence.dfy` | the cache beside its database: slow lookups, token renewals, evictions and unannounced writes in any order |
| `TransportRecency.dfy` | what the cache still holds after a run of lookups |
| `AuditLog.dfy` | keyset paging over the audit trail |
| `ChannelHealth.dfy` | the health state machine and the alert cooldown |
| `Options.dfy` | the optional value |

`dafny verify dfyconfig.toml` checks all of it.

## The campaign protocol, step by step

A `State` is what the two stores, the queues and the running workers hold. A `Behaviour` is any
sequence of steps from the empty campaign, in any interleaving, with any number of workers,
replayed jobs, crashes and faults. One step is one database or provider operation:

- `Launch`, `Pause`, `Resume`, `Cancel`, `Retry`: `src/campaigns/campaigns.service.ts:296-493`. Each request
  is one step. `cancel` and `retryFailed` are several writes in the code.
- `Promote`: the scheduler's sweep, `src/campaigns/queue/campaign.scheduler.ts:56-100`.
- `StartDispatch`, `NoPredicate`, `OpenCursor`, `Upsert`, `Overflow`, `PauseRun`, `Count`, `WriteCounts`, `Recover`,
  `Enqueue`, `Finish`: `dispatch` and what it calls, `src/campaigns/campaign-runner.service.ts:150-182,314-520,669-683`.
  The frozen predicate is read, or found missing, before the first row is written.
  `Recover(freed)` may free any set of claimed rows, since staleness is a clock reading. `Enqueue` reads
  the next pending rows and queues them in one step.
- `StartBatch`, `OpenFails`, `Look`, `TryClaim`, `CallProvider`, `WriteOutcome`, `PauseCampaign`,
  `CommitOutcome`, `FinaliseIfDone`, `Fault`, `Crash`: `sendBatch` and `deliverAll`,
  `src/campaigns/campaign-runner.service.ts:191-301,522-600`. Outcome writes are keyed on the row id alone, as in
  the code. The count and the update of `finaliseIfDone` (603-620) are one step.

`Past` holds what happened to a row (claims, provider calls, put-backs); the program does not store
it. `lostSent` and `lostFailed` are the outcomes that died uncommitted with their worker.

Some results need the scheduling the design relies on. `Fence` says: while the audience is not recorded
no dispatch starts beside one that still works (one that is only pausing the campaign may finish), stale
recovery frees only claims whose worker has stopped, and a cancel meets no claim in progress and no
audience being written. Once the audience is recorded any number of dispatches may run. `FenceIsExact`
proves that this is exactly what is needed: in any run allowed so far, the next step is followed by sound
states only, whatever allowed steps come after it, if and only if `Fence` holds for it, where sound means
that no two workers hold one row, that the counters are conserved and the statuses settled, and says nothing
of scheduling. Three lemmas exhibit what happens otherwise. `DeliveryBound`, `SkipIsPermanent`, `PauseLatency`,
`NoAddressTwice`, `CountersNeverLag`, `NoRowIsStranded`, `NeverStuck` and the programs need no such hypothesis.

## Where the code and its documentation disagree

- `src/campaigns/queue/campaign.producer.ts:20-26` calls two concurrent dispatches harmless. They are once the
  audience is recorded, and by `FenceIsExact` they are not when the second starts before that beside a
  working one: `TwoDispatchesMiscount` reaches a state where it has booked a sent row as skipped.
- `src/campaigns/campaigns.service.ts:425-426` has the ledger add up after every cancel. It does not when a
  dispatch died part-way through the audience (`CancelAfterCrashedDispatchMiscounts`); `CancelReportsExactly`
  says that it does if and only if the audience was recorded or no row was left to sweep.
- `src/channels/channel-health-check.service.ts:273` says a fast check is scheduled only if none is. The code
  overwrites the schedule; by `RuntimeFailuresPostpone` the check comes due among failures if and only if
  two neighbours are at least five minutes apart.
- The health service's own description (`src/channels/channel-health-check.service.ts:30-34`) has `unhealthy` left
  only by a pass. `UnhealthyIsLeftByAPass` says when: it fails exactly for a runtime failure, which makes it
  `degraded`. Token refreshes, failed reconnects and typed statuses write the same fields;
  `OthersMayBreakTheRecord` says when each leaves the record consistent.
- `src/channels/transport-pool.service.ts:50-51` counts on an event for every change. A failed reconnect
  (`src/channels/services/email-integration.service.ts:119-126`) marks a config `error` without one;
  `SilentStatusChangeIsServed` shows the cache still answering `active`. Nor is an event enough: a lookup
  awaits its read, the decryption and a token refresh before it stores, and an eviction meanwhile is lost
  (`EvictionDuringLoadIsLost`). `CacheIsCoherentExactly` says when all answers are right.
- `src/channels/transport-pool.service.ts:153` stores the expiry that was read before the token was renewed, so the
  entry of a lookup that renewed one is never served (`RenewedTokenIsNotServed`).
- `src/channels/channel-health-check.service.ts:401-409` means to announce a status change once. The two schedules
  overlap and each check writes what follows from the config it was given: `BothSchedulesAnnounce`, and
  `AnnouncedOnceExactly` says when that cannot happen.
- `src/automation-rules/automation-workflow.service.ts:189-191` has two edits at once not overwrite each other. The
  timestamp is compared when the workflow is read, not when it is written: `OverlappingPatchesBreakTheDraft`
  and `PublishMayPublishAnOrphan` store what no check saw, and `OverlapIsSoundExactly` says when that cannot be.
- `assertNoCycle` takes the empty string for "no node". `EmptyIdHidesACycle` is a cyclic graph it
  accepts. The service never stores such a graph: Mongoose refuses an empty string on a `required`
  string path (`src/automation-rules/infrastructure/persistence/document/entities/automation-workflow.schema.ts:113-147`),
  which the lifecycle model includes.

## Model

| member | source | states |
|---|---|---|
| Audience.ResolvedIsAddressable | src/campaigns/campaign-audience.service.ts:266-330 | a contact resolves either to a skip without a destination or to a destination that is an email with an `@` or a number in E.164 form, never to `duplicate` |
| Audience.BlockedExactly | src/campaigns/campaign-audience.service.ts:345-363 | an address is blocked if and only if some undeleted identity of the channel's kind has it and bounced or refused it |
| Audience.BlockReasonExactly | src/campaigns/campaign-audience.service.ts:356-363 | the reason is that of the last such identity: withdrawn consent if it refused, else bounced |
| Audience.FindBlockedDestinations | src/campaigns/campaign-audience.service.ts:339-364 | a destination looked up is in the returned map exactly when it is blocked, with its reason |
| Audience.ResolveAll | src/campaigns/campaign-audience.service.ts:231-242 | every contact of the batch is resolved in order, and every destination found is looked up |
| Audience.DecideBatch | src/campaigns/campaign-audience.service.ts:226-256 | the imperative batch decision, updating the caller's set, is the one-pass decision from that set |
| Audience.BatchesCompose | src/campaigns/campaign-runner.service.ts:319-355 | deciding two consecutive batches with the threaded set is deciding their concatenation |
| Audience.BatchingIsIrrelevant | src/campaigns/campaign-runner.service.ts:319-355 | any split of the audience into batches gives the decisions and the set of one pass |
| Audience.PassIsVerdict | src/campaigns/campaign-audience.service.ts:244-255 | the threaded pass gives each contact the verdict defined without threading: first sendable contact with an address wins |
| Audience.PendingDestinationsDistinct | src/campaigns/campaign-audience.service.ts:217-220 | two contacts left to send to never share an address |
| Audience.DuplicateExactly | src/campaigns/campaign-audience.service.ts:250-252 | a contact is `duplicate` if and only if it is sendable and an earlier contact with the same address is left to send to |
| Audience.DecisionsAreLegal | src/campaigns/campaign-audience.service.ts:226-256 | each decision names its contact, and one without a skip reason carries a deliverable address |
| Audience.BucketAgrees | src/campaigns/campaign-audience.service.ts:140-150 | the preview's `refused` bucket is the decision's contact-level refusal, and a contact left to send to is in `reachable`, on every channel |
| Audience.PreviewBoundsTheRun | src/campaigns/campaign-audience.service.ts:116-200 | total = reachable + refused + no destination; refused is the run's number of refusals; the run sends to at most `reachable` |
| AudienceRules.RefusedExactly | src/campaigns/campaign-audience.service.ts:266-279 | a contact is refused if and only if it is not to be called, off email, or said no to that very channel; the reason says which, and the first outranks the second |
| AudienceRules.EmailGoesToTheFirst | src/campaigns/campaign-audience.service.ts:295-302 | an email goes to the first entry that is more than white space, trimmed and in lower case, and to nobody if that has no `@` |
| AudienceRules.ProviderNumberGoesFirst | src/campaigns/campaign-audience.service.ts:304-318 | on WhatsApp the number of the first WhatsApp identity goes before every typed one, with a `+` put before bare digits |
| AudienceRules.TypedNumberOtherwise | src/campaigns/campaign-audience.service.ts:320-329 | on SMS, and on WhatsApp without such an identity, the first filled phone entry is taken, and only with a country code |
| AudienceRules.NowhereToSend | src/campaigns/campaign-audience.service.ts:291-330 | with every entry blank the contact has no destination |
| AudienceRules.ZeroZeroIsPlus | src/common/identity/identity-normalizer.ts:47-60 | a number written with `00` is the one written with `+` |
| AudienceRules.PlusIsKept | src/common/identity/identity-normalizer.ts:47-55 | a number written with `+` keeps it |
| AudienceRules.TrimExactly | src/common/identity/identity-normalizer.ts:28-51 | trimming takes the white space off both ends and nothing else |
| AudienceRules.ForbiddenIsNeverPending | src/campaigns/campaign-audience.service.ts:244-256 | no contact left to send to has an address that an undeleted identity of the channel's kind bounced or refused |
| AudienceRules.ForbiddenIsSkipped | src/campaigns/campaign-audience.service.ts:244-256 | a contact with such an address is skipped with the reason of the last such identity |
| AudienceRules.PreviewCountsExactly | src/campaigns/campaign-audience.service.ts:116-200 | each figure of the preview is the number of contacts that meet its condition in their own fields, and after a timeout all are 0 and inexact |
| CampaignDelivery.DeliveryBound | src/campaigns/campaign-runner.service.ts:251-301 | in every interleaving, provider calls for a row <= attempts <= 1 + times it was put back to `pending` |
| CampaignDelivery.AtMostOnceUnlessPutBack | src/campaigns/campaign-runner.service.ts:522-531 | a row whose claim was never undone is sent at most once |
| CampaignDelivery.SkipIsPermanent | src/campaigns/campaign-runner.service.ts:427-440 | a row inserted as `skipped` is never claimed, held or sent in any run |
| CampaignDelivery.ClaimIsNeverStranded | src/campaigns/campaign-runner.service.ts:251-255 | a successful claim always goes on to a send; the `continue` only passes rows the claim did not change |
| CampaignDelivery.PauseLatency | src/campaigns/campaign-runner.service.ts:241-249 | from any moment the campaign is out of `sending`, and as long as it stays so, each batch in flight makes at most 20 more provider calls and no batch starts |
| CampaignRequests.AcceptedExactly | src/campaigns/campaigns.service.ts:296-493 | in which statuses each request is accepted; a retry needs a failed row as well |
| CampaignRequests.LaunchStarts | src/campaigns/campaigns.service.ts:296-356 | a launch for now sends and has one more dispatch due, one for later only arms, and both start the counters at 0 |
| CampaignRequests.PromoteAndResumeSend | src/campaigns/campaigns.service.ts:377-408 | a promoted or resumed campaign is sending with one more dispatch due, its ledger and counters as they were |
| CampaignRequests.PauseStops | src/campaigns/campaigns.service.ts:358-375 | after a pause the campaign is paused, no batch and no dispatch can start, and nothing else has changed |
| CampaignRequests.CancelSkipsTheUnfinished | src/campaigns/campaigns.service.ts:410-451 | a cancel skips exactly the pending and claimed rows, adds their number to the skipped counter, and leaves every other row |
| CampaignRequests.RetryPutsBackTheFailed | src/campaigns/campaigns.service.ts:453-493 | a retry puts exactly the failed rows back, takes their number off the failed counter, and is sending with a dispatch due |
| CampaignRequests.OnlyRequestsStartSending | src/campaigns/campaigns.service.ts:296-493 | no step but launch for now, promotion, resume and retry sets a campaign sending, and each of these does |
| CampaignRequests.SendingEndsOnlySo | src/campaigns/campaign-runner.service.ts:587-620 | sending ends by a pause, a cancel, a run or worker that stops the campaign, or completion with no row left to do, each with its status |
| CampaignRequests.StopsAndCompletes | src/campaigns/campaign-runner.service.ts:587-620 | a worker or run that stops a campaign pauses a sending one and no other; a batch that has ended, or a dispatch with nothing to queue, completes a sending one exactly when no row is left to do |
| CampaignRequests.PausedStaysPaused | src/campaigns/campaign-runner.service.ts:241-249 | in every interleaving, from an accepted pause or cancel until a request sets the campaign sending again, it stays out of `sending`, no batch or dispatch starts, and each worker makes at most 20 more provider calls |
| CampaignRequests.RowEndsAsAnswered | src/campaigns/campaign-runner.service.ts:251-300 | claimed, sent and recorded undisturbed, a row ends as the provider answered with one more attempt, the outcome is counted, and a fatal answer stops the campaign |
| CampaignEffects.RowsChangeOnlySo | src/campaigns/campaign-runner.service.ts:251-300 | a row is claimed, recorded as sent or failed, put back and swept exactly by the steps meant to, and a claim alone is an attempt |
| CampaignEffects.RowsComeAndGo | src/campaigns/campaign-runner.service.ts:402-449 | a row begins `pending`, or `skipped` if its decision named a reason, for a contact that had none; only an audience over the limit deletes rows |
| CampaignEffects.WorkerMovesOnlySo | src/campaigns/campaign-runner.service.ts:232-302 | a worker's phases, place and uncommitted outcome after each of its steps: it passes a row when it could not claim it or has recorded it |
| CampaignEffects.DispatchMovesOnlySo | src/campaigns/campaign-runner.service.ts:150-182 | a dispatch goes through its stages in order, counting what the ledger then holds |
| CampaignEffects.WorkedCounters | src/campaigns/campaign-runner.service.ts:567-585 | outcomes are added to the report only as a batch commits, and what a dying worker had not committed is lost |
| CampaignEffects.DispatchedCounters | src/campaigns/campaign-runner.service.ts:360-381 | a dispatch records size, queue and skips as it counted them and touches no outcome |
| CampaignEffects.DispatchGoesOn | src/campaigns/campaign-runner.service.ts:452-494 | a dispatch that is not done has a next step; one that is queueing ends or has a row to queue |
| CampaignEffects.WorkerGoesOn | src/campaigns/campaign-runner.service.ts:191-230 | and so has a worker |
| CampaignAttempts.TriedInOrder | src/campaigns/campaign-runner.service.ts:232-302 | in every interleaving a worker tries its rows in order, none twice |
| CampaignAttempts.EveryRowPassedWasTried | src/campaigns/campaign-runner.service.ts:232-302 | and every row it has got past was tried |
| CampaignRecord.NotesTellTheRun | src/campaigns/campaign-runner.service.ts:251-300 | claims, provider calls and put-backs noted on a row are how often the steps of the run so far did each to it |
| CampaignRecord.CallsAreBounded | src/campaigns/campaign-runner.service.ts:251-301 | counted on the run alone: calls to the provider for a row <= claims of it <= 1 + times it was put back, and its `attempts` are the claims |
| CampaignTheorems.ClaimsAreExclusive | src/campaigns/campaign-runner.service.ts:503-531 | under Fence a held row has one live claimant and is marked `sending` |
| CampaignTheorems.OnlyTheClaimantWrites | src/campaigns/campaign-runner.service.ts:264-300 | under Fence an outcome is written only by the one worker that holds the row |
| CampaignTheorems.SentIsFinal | src/campaigns/campaign-runner.service.ts:264-278 | under Fence a `sent` row is never changed or deleted again |
| CampaignTheorems.LedgerConservation | src/campaigns/campaign-runner.service.ts:567-585 | under Fence, counters plus uncommitted (and lost) outcomes are the ledger's counts of sent and failed; once recorded, size and skipped are the ledger's; nothing is lost unless a send worker dies |
| CampaignTheorems.CountersNeverLag | src/campaigns/campaign-runner.service.ts:567-585 | in every interleaving the rows recorded as sent are at most the sent counter plus uncommitted and lost outcomes, and likewise for failed: a row may be counted twice, but never not at all |
| CampaignTheorems.ReportAddsUp | src/campaigns/campaigns.service.ts:425-441 | with nothing uncommitted, sent + failed + skipped + rows left to do = audience size: always once the audience is recorded, and before that if no dispatch has crashed and none is writing |
| CampaignTheorems.FinishedMeansDone | src/campaigns/campaign-runner.service.ts:603-620 | a completed or cancelled campaign has only sent, failed and skipped rows |
| CampaignTheorems.FinishedReportAddsUp | src/campaigns/campaigns.service.ts:425-441 | a completed, quiescent campaign has sent + failed + skipped = audience size, and so has a cancelled one if no dispatch has crashed |
| CampaignTheorems.CancelReportsExactly | src/campaigns/campaigns.service.ts:425-441 | with dispatches that may have crashed, the report after a cancel adds up if and only if the audience was recorded or no row was left to sweep |
| CampaignFence.FenceIsExact | src/campaigns/campaign-runner.service.ts:503-520 | in a run allowed so far, a step is followed in every allowed continuation by states where no two workers hold one row, the counters are conserved and the statuses settled, if and only if Fence holds for it |
| CampaignFence.TwoDispatchesMiscount | src/campaigns/queue/campaign.producer.ts:20-26 | a reachable state, after two dispatches of one launch, whose report counts one recipient as both sent and skipped |
| CampaignFence.CancelDuringSendMiscounts | src/campaigns/campaigns.service.ts:425-441 | a reachable cancelled state that counts one recipient twice |
| CampaignFence.RecoveringALiveClaimSendsTwice | src/campaigns/campaign-runner.service.ts:503-520 | a reachable state in which the one row of an audience was sent twice and counted twice |
| CampaignFence.CancelAfterCrashedDispatchMiscounts | src/campaigns/campaigns.service.ts:425-441 | a state allowed by Fence, with nothing running, whose report counts a skip in an audience of size 0 |
| CampaignAddresses.OneRowPerAddress | src/campaigns/campaign-audience.service.ts:217-220 | in a run whose rows are decisions of one snapshot, whatever the interleaving, at most one row of the ledger with a given address was ever sent, and at most once plus its put-backs |
| CampaignAddresses.NoAddressTwice | src/campaigns/campaign-audience.service.ts:217-220 | with no row deleted, an address is sent to through one row only, and once unless that row was put back |
| CampaignProgress.NoRowIsStranded | src/campaigns/campaign-runner.service.ts:452-520 | in every interleaving, from the start and from every recovery that frees at least the claims nobody works on, whatever crashed before, every pending row of a sending campaign is queued, ahead of a running worker or dispatch, or owed by a dispatch that is due, until something crashes or gives up again |
| CampaignProgress.NeverStuck | src/campaigns/campaign-runner.service.ts:178-181 | over the same stretches, with nothing queued and nothing running the campaign is not `sending` |
| CampaignMaterialise.Recipients.BulkWrite | src/campaigns/campaign-runner.service.ts:412-448 | a complete unordered bulk upsert inserts exactly the missing rows; an interrupted one loses nothing and adds nothing foreign |
| CampaignMaterialise.CampaignRunner.WriteRecipients | src/campaigns/campaign-runner.service.ts:402-449 | after a batch the ledger and the set are those of one pass over everything decided so far |
| CampaignMaterialise.CampaignRunner.WriteCounts | src/campaigns/campaign-runner.service.ts:360-381 | the recorded size, queued and skipped counts are read back from the ledger |
| CampaignMaterialise.CampaignRunner.WriteRest | src/campaigns/campaign-runner.service.ts:353-381 | the last batch completes the one-pass ledger before its counts are recorded |
| CampaignMaterialise.CampaignRunner.Scan | src/campaigns/campaign-runner.service.ts:314-352 | the loop writes a batch at every 500th contact and no other time, stops at the first lost write, and refuses an audience over 500,000 |
| CampaignMaterialise.CampaignRunner.Materialise | src/campaigns/campaign-runner.service.ts:314-400 | a run crashes if and only if one of its writes is lost; else up to 500,000 contacts it leaves, in one write for each 500 of them or part of that and one more for the counts, the one-pass ledger over what was there and its counts, and above that an empty ledger and a campaign not `sending`; a crash leaves part of the one-pass ledger and the campaign untouched |
| CampaignMaterialise.NextBatch | src/campaigns/campaign-runner.service.ts:345-355 | a batch written whole or in part keeps the ledger between its start and the one-pass ledger |
| CampaignMaterialise.MaterialisationConverges | src/campaigns/campaign-runner.service.ts:314-358 | any number of interrupted runs leave parts of the one-pass ledger, and a completed run after them leaves exactly it |
| CampaignMaterialise.OnePassIsTheVerdicts | src/campaigns/campaign-runner.service.ts:427-440 | that ledger holds for each contact the row of its verdict |
| CampaignMaterialise.QueuedAreTheSendable | src/campaigns/campaign-runner.service.ts:360-381 | the rows counted as queued are those of exactly the contacts whose verdict names no reason to skip |
| CampaignMaterialise.UpsertIsAProtocolStep | src/campaigns/campaign-runner.service.ts:419-443 | inserting only when absent, by contact, is the protocol's `Upsert` step on its rows |
| CampaignMaterialise.OnePassHasNoOthers | src/campaigns/campaign-runner.service.ts:427-440 | and no row for anybody else |
| CampaignSendBatch.Stores.CountSending | src/campaigns/campaign-runner.service.ts:241-249 | the pause check is a protocol step, and the worker stops or goes on to claim as its index and the status say |
| CampaignSendBatch.Stores.Claim | src/campaigns/campaign-runner.service.ts:522-531 | the compare-and-set succeeds exactly on a pending row and is a protocol step |
| CampaignSendBatch.Stores.UpdateRow | src/campaigns/campaign-runner.service.ts:264-300 | the row gets the new status whatever it had, or the write fails and nothing changes, and either is the protocol step |
| CampaignSendBatch.Stores.SendAndRecord | src/campaigns/campaign-runner.service.ts:257-300 | the try block and its catch arms follow the protocol and leave the local outcome equal to the worker's uncommitted one |
| CampaignSendBatch.Stores.DeliverAll | src/campaigns/campaign-runner.service.ts:232-302 | the whole loop is a sequence of protocol steps between arbitrary steps of others, with its locals equal to the worker's state; it fails only if one of its own database calls failed, dies only if the process was killed, stops fatally only on a fatal answer, and else ends at the last row or at a pause check, every 20 rows, that found the campaign out of `sending` |
| CampaignSendBatch.Stores.Abort | src/campaigns/campaign-runner.service.ts:587-600 | pauses a sending campaign and no other, and is the protocol step |
| CampaignSendBatch.Stores.CommitOutcome | src/campaigns/campaign-runner.service.ts:567-585 | adds the batch's outcome to the counters, and is the protocol step that empties the worker's hands |
| CampaignSendBatch.Stores.FinaliseIfDone | src/campaigns/campaign-runner.service.ts:603-620 | completes exactly a sending campaign with no unfinished row, and is the protocol step |
| CampaignSendBatch.Stores.SendBatch | src/campaigns/campaign-runner.service.ts:191-230 | a job is dropped unless the campaign is sending; else its worker ends, and, unless the environment failed, killed or answered fatally, it ran through the whole job or up to a pause check that saw the campaign stopped, every row up to there tried exactly once and in order; every row still satisfies the delivery bound |
| CampaignQueueing.QueuePending | src/campaigns/campaign-runner.service.ts:452-494 | the queued jobs concatenate to the pending rows in id order, all but the last of exactly 100, the result is their number, and the dispatch may finish |
| CampaignQueueing.EachRowInOneJob | src/campaigns/campaign-runner.service.ts:465-490 | every pending row is in exactly one of the jobs |
| WorkflowGraph.ThrowsExactlyOnCycles | src/automation-rules/automation-workflow.service.ts:673-709 | the search never throws on an acyclic graph; with no edge into an empty id it throws if and only if there is a cycle, naming a node on one |
| WorkflowGraph.EmptyIdHidesACycle | src/automation-rules/automation-workflow.service.ts:685-703 | a cyclic graph with an empty id that the search accepts |
| WorkflowGraph.EachEdgeOnce | src/automation-rules/automation-workflow.service.ts:684-700 | the search follows each edge at most once, from nodes not marked before |
| WorkflowValidation.CycleDetector.constructor | src/automation-rules/automation-workflow.service.ts:677-682 | the adjacency built from the lists, without edges from unknown nodes |
| WorkflowValidation.CycleDetector.VisitFromNode | src/automation-rules/automation-workflow.service.ts:684-697 | the recursive closure over the two maps computes the functional search step |
| WorkflowValidation.CycleDetector.AssertNoCycle | src/automation-rules/automation-workflow.service.ts:699-708 | the outer loop computes the functional search |
| WorkflowValidation.BuildEdgeGraph | src/automation-rules/automation-workflow.service.ts:483-486 | the adjacency the orphan check builds has each source's targets in order |
| WorkflowValidation.Expand | src/automation-rules/automation-workflow.service.ts:492-497 | one node taken off the queue: the set seen stays reachable, and everything one step from it is seen or queued |
| WorkflowValidation.ReachableFrom | src/automation-rules/automation-workflow.service.ts:488-498 | the breadth-first set is exactly the set of nodes a walk from the trigger reaches |
| WorkflowValidation.AssertNoOrphanNodes | src/automation-rules/automation-workflow.service.ts:476-507 | the reported orphans are exactly the unreachable nodes, in list order |
| WorkflowValidation.CheckParts | src/automation-rules/automation-workflow.service.ts:378-403 | the first failing condition, endpoint or handle check decides |
| WorkflowValidation.ValidateWorkflow | src/automation-rules/automation-workflow.service.ts:364-404 | the checks in their order give the validation function's refusal |
| WorkflowValidation.AcceptedExactly | src/automation-rules/automation-workflow.service.ts:364-467 | with no edge into an empty id, a graph is accepted if and only if it has one trigger, sound conditions, known endpoints, allowed handles and no cycle |
| WorkflowRules.AcceptedInFields | src/automation-rules/automation-workflow.service.ts:364-467 | the same in the fields of nodes and edges: one trigger node, checked condition rules, endpoints that are nodes, handles that fit, and no path of edges from a node to itself |
| WorkflowRules.HandleExactly | src/automation-rules/automation-workflow.service.ts:445-467 | an edge without a handle fits; with one it must leave a condition by `matched` or `not_matched`, or an action by `success` or `failure` |
| WorkflowRules.RefusalBlamesTheFirst | src/automation-rules/automation-workflow.service.ts:364-404 | the fault reported is one there is, the checks before it passing, and names the first node or edge in list order that has it, or a node on a cycle |
| WorkflowRules.OrphanExactly | src/automation-rules/automation-workflow.service.ts:476-507 | a node is reported as orphan if and only if no path of edges leads to it from the first trigger |
| WorkflowValidation.ChecksMakeRootedDag | src/automation-rules/automation-workflow.service.ts:258-282 | validation and the orphan check together give a rooted, acyclic graph |
| WorkflowValidation.TriggerIsTheOnlyRoot | src/automation-rules/automation-workflow.service.ts:469-507 | in such a graph a node has an incoming edge if and only if it is not the trigger |
| WorkflowValidation.WalksAreShort | src/automation-rules/automation-workflow.service.ts:669-672 | in such a graph every walk has fewer edges than there are nodes |
| WorkflowLifecycle.AutomationWorkflowService.CreateWorkflow | src/automation-rules/automation-workflow.service.ts:136-183 | answers and stores as the request function says, refusals storing nothing |
| WorkflowLifecycle.AutomationWorkflowService.UpdateWorkflow | src/automation-rules/automation-workflow.service.ts:185-252 | a partial patch is validated against the merged graph before it is stored |
| WorkflowLifecycle.AutomationWorkflowService.PublishWorkflow | src/automation-rules/automation-workflow.service.ts:258-299 | publishes only after every check, else changes nothing |
| WorkflowHistory.ActivatedOnlyIfPublished | src/automation-rules/automation-workflow.service.ts:301-315 | after any run, activation is allowed if and only if the last accepted request to create or publish the workflow published it |
| WorkflowLifecycle.EveryRunKeepsWorkflowsSound | src/automation-rules/automation-workflow.service.ts:136-360 | after any run of requests handled one after the other every draft is single-trigger, edge-closed, handle-correct and acyclic, every published graph empty or a rooted DAG, and an active workflow published |
| WorkflowLifecycle.ActiveWorkflowsHalt | src/automation-rules/automation-workflow.service.ts:301-315 | after any run, what an active workflow executes has no long walk |
| WorkflowLifecycle.OnlyPublishChangesPublished | src/automation-rules/automation-workflow.service.ts:185-252 | no other request changes the published graph or its version |
| WorkflowHistory.EveryFieldIsItsLastWrite | src/automation-rules/automation-workflow.service.ts:136-360 | after any run each field of a stored workflow (draft nodes, draft edges, published graph, version, status, timestamp) is what the last accepted request that writes that field gave it: the published graph is the draft as it stood at the last publish, the draft parts those of the last patch that names them, the version one more than before it |
| WorkflowHistory.StatusIsTheLastAskedFor | src/automation-rules/automation-workflow.service.ts:301-328 | after any run a workflow is active, or paused, if and only if that is what the last accepted status request since it was created or duplicated asked for |
| WorkflowHistory.AcceptedUpdateSawTheLastWrite | src/automation-rules/automation-workflow.service.ts:189-201 | an accepted update that states a time it saw states the time of the last accepted write |
| WorkflowHistory.UpdatedExactly | src/automation-rules/automation-workflow.service.ts:185-252 | when an update is refused as missing or stale, and exactly when it is accepted |
| WorkflowHistory.CreatedExactly | src/automation-rules/automation-workflow.service.ts:136-183 | exactly when a workflow is created |
| WorkflowHistory.PublishableExactly | src/automation-rules/automation-workflow.service.ts:258-299 | exactly when a workflow is published: a trigger, an action, a valid graph, valid configurations and no orphans |
| WorkflowHistory.OthersAcceptedExactly | src/automation-rules/automation-workflow.service.ts:301-360 | exactly when a status change, a duplication and a deletion are accepted |
| WorkflowHistory.OnlyTheNamedChange | src/automation-rules/automation-workflow.service.ts:136-360 | a refused request changes nothing, an accepted one only the workflow it names |
| WorkflowHistory.PublishedCanRun | src/automation-rules/automation-workflow.service.ts:518-546 | after any run every stored node has a known kind and a checked configuration, and a published graph has an action |
| WorkflowOverlap.OverlapIsSoundExactly | src/automation-rules/automation-workflow.service.ts:185-282 | a run of overlapping requests keeps every stored workflow sound at all times if and only if at each write the request's own checks, on what the write finds, would pass again |
| WorkflowOverlap.UndisturbedRunsStaySound | src/automation-rules/automation-workflow.service.ts:185-282 | so does every run in which what a request did not itself replace is unchanged from its check to its write |
| WorkflowOverlap.RootedExactly | src/automation-rules/automation-workflow.service.ts:476-507 | of an accepted graph the orphan check passes if and only if it is a rooted DAG |
| WorkflowOverlap.OverlappingPatchesBreakTheDraft | src/automation-rules/automation-workflow.service.ts:203-238 | a run of two partial patches, each valid on the draft both read, that stores an edge to a missing node |
| WorkflowOverlap.PublishMayPublishAnOrphan | src/automation-rules/infrastructure/persistence/document/repositories/automation-workflow.repository.ts:139-162 | a run that publishes a node added between the publish's check and its second read, unconnected |
| TransportPool.TransportPoolService.Resolve | src/channels/transport-pool.service.ts:108-165 | hit, miss, missing config and failed decryption answer and change the cache as its value function says |
| TransportPool.TransportPoolService.ResolveWithTenantGuard | src/channels/transport-pool.service.ts:177-194 | a transport is handed out only to its own tenant, and is then the resolved one; nothing is handed out exactly when nothing was resolved or it is another tenant's |
| TransportPool.TransportPoolService.PutEntry | src/channels/transport-pool.service.ts:258-275 | a new key at capacity evicts first |
| TransportPool.TransportPoolService.EvictLRU | src/channels/transport-pool.service.ts:293-308 | the loop finds and removes the first key of least access time |
| TransportPool.TransportPoolService.EvictExpired | src/channels/transport-pool.service.ts:313-326 | the loop computes the sweep over the keys there were |
| TransportPool.SweepKeepsExactly | src/channels/transport-pool.service.ts:313-326 | an entry stays, unchanged, if and only if it is not both among the keys and expired |
| TransportPool.CleanupKeepsExactly | src/channels/transport-pool.service.ts:313-326 | the periodic cleanup leaves exactly the entries that have not expired |
| TransportPool.EvictionMakesRoom | src/channels/transport-pool.service.ts:293-308 | the evicted entry has the least access time of all, and the cache is one smaller |
| TransportCoherence.UnbrokenLoadIsResolve | src/channels/transport-pool.service.ts:108-165 | a read, a decryption and a store with nothing in between change the cache and answer as `resolve` |
| TransportCoherence.NeverOverfull | src/channels/transport-pool.service.ts:258-275 | whatever the database does, announced or not, and however lookups, cleanups and evictions interleave, the cache holds at most 500 entries under distinct keys |
| TransportCoherence.CacheIsCoherentExactly | src/channels/transport-pool.service.ts:108-244 | throughout a history every tenant gets a transport if and only if the database then has a loadable config of that tenant under the id, and then that one, the health fields apart, if and only if each lookup stores what a read then still gives (or what has expired), and no unannounced write contradicts a live entry |
| TransportCoherence.UncrossedLoadIsCurrent | src/channels/transport-pool.service.ts:108-165 | a lookup stores what is still true if between its read and its store nobody else wrote its config and it did not itself renew a token without a stated expiry |
| TransportCoherence.CacheIsCoherent | src/channels/transport-pool.service.ts:177-244 | if no lookup is crossed and no unannounced write contradicts a live entry, a tenant gets a transport if and only if the database has a loadable config of that tenant under the id, and then the one a read gives, the health fields apart |
| TransportCoherence.HitsAreFresh | src/channels/transport-pool.service.ts:277-288 | in every history, announced or not, a hit is what one lookup read and then stored at most 30 minutes ago, with the credentials read or just renewed, and an OAuth token that has an expiry has more than two minutes left |
| TransportCoherence.RenewedTokenIsNotServed | src/channels/services/oauth2-token-manager.service.ts:333-385 | an entry a lookup stores after it renewed a token with a stated expiry is never a hit |
| TransportCoherence.EvictionDuringLoadIsLost | src/channels/transport-pool.service.ts:118-157 | a history in which an update and its eviction fall between a lookup's read and its store, and the old config is then served for 30 minutes |
| TransportCoherence.SilentStatusChangeIsServed | src/channels/services/email-integration.service.ts:119-126 | a history after which a status written without an event is not seen through the cache for 30 minutes |
| TransportRecency.KeepsTheMostRecentlyUsed | src/channels/transport-pool.service.ts:258-308 | with increasing times, successful loads and no expiry, a config is cached if and only if fewer than 500 others were looked up since |
| AuditLog.AuditLogService.ApplyCursorFilter | src/audit-log/audit-log.service.ts:55-67 | the filter is extended in place, or left as it is for a missing, empty or unreadable cursor |
| AuditLog.NextCursorReadsBack | src/audit-log/audit-log.service.ts:70-78 | a page names a next one exactly when entries remain beyond a page that is not empty, and its cursor reads back as the last entry's position |
| AuditLog.AuditLogService.GetAuditLogs | src/audit-log/audit-log.service.ts:26-52 | a page is the page function's, and with distinct ids it has the asked entity's entries only, newest first with times that never increase, none newer than the cursor, and no wanted entry before or between them left out |
| AuditLog.PageShowsTheNewest | src/audit-log/audit-log.service.ts:34-43 | the same of the page function |
| AuditLog.OneOrder | src/audit-log/audit-log.service.ts:39 | a set of entries with distinct ids has only one newest-first order |
| AuditLog.Resume | src/audit-log/audit-log.service.ts:55-67 | querying past the k-th entry continues exactly there, in a log changed only on the side already read |
| AuditLog.PagingIsExact | src/audit-log/audit-log.service.ts:26-78 | for limit >= 1, following the cursors ends, and the pages concatenate to the sorted entries, while entries newer than the cursor or of other entities come and go between requests; all pages but the last are full |
| AuditLog.ZeroLimitStalls | src/audit-log/audit-log.service.ts:43-49 | a limit of 0 gives an empty page without a cursor that says there is more exactly when there is |
| ChannelHealth.ChannelHealthCheckService.HandleVerifyFailure | src/channels/channel-health-check.service.ts:371-412 | one more failure, its state, schedule and event |
| ChannelHealth.ChannelHealthCheckService.VerifyAndUpdateConfig | src/channels/channel-health-check.service.ts:297-366 | skipped, passed and failed checks change that one config and emit their events |
| ChannelHealth.ChannelHealthCheckService.HandleRuntimeFailure | src/channels/channel-health-check.service.ts:265-289 | degrades and reschedules one config, emits nothing |
| ChannelHealth.HealthTellsTheHistory | src/channels/channel-health-check.service.ts:265-412 | over any run of checks, runtime failures and re-verifications the record is what the history says: failures in a row, error if and only if at least two, which health state, healthy if and only if no check is scheduled, and when it is |
| ChannelHealth.UnhealthyIsLeftByAPass | src/channels/channel-health-check.service.ts:30-34 | `unhealthy` is left for `healthy` exactly by a pass or a re-verification and kept exactly by a failed check; a runtime failure, and it alone, makes it `degraded` |
| ChannelHealth.OthersMayBreakTheRecord | src/channels/services/oauth2-token-manager.service.ts:366-375 | for a token refresh, a failed reconnect and a typed status, exactly when the record stays consistent |
| ChannelHealth.FailuresSinceCleared | src/channels/services/oauth2-token-manager.service.ts:366-375 | whoever writes what, the failures on record are the failed checks and reconnects since the last pass, re-verification or token refresh |
| ChannelHealth.AnnouncedAtTheSecondFailure | src/channels/channel-health-check.service.ts:375-409 | the health service announces a failure exactly at the second failed check in a row |
| ChannelHealth.AnnouncementsAlternate | src/channels/channel-health-check.service.ts:401-409 | with checks one at a time two announced failures have a pass, a re-verification or a typed status between them, whoever else writes what |
| ChannelHealth.QuietExactly | src/channels/channel-health-check.service.ts:297-412 | with checks that overlap, no failure can be announced before the config is released if and only if neither its record nor any check under way has it as active |
| ChannelHealth.AnnouncedOnceExactly | src/channels/channel-health-check.service.ts:371-412 | after an announced failure a second one can follow without a release if and only if another check that was given the config as active is still under way |
| ChannelHealth.BothSchedulesAnnounce | src/channels/channel-health-check.service.ts:73-253 | both schedules check after a first failure and both announce |
| ChannelHealth.UnbrokenTurnIsApply | src/channels/channel-health-check.service.ts:297-366 | a check with nothing in between, and every other write, is the one step of a history without overlap |
| ChannelHealth.RuntimeFailuresPostpone | src/channels/channel-health-check.service.ts:265-289 | among runtime failures a scheduled check comes due at some moment if and only if two neighbours are at least five minutes apart, and after the last of them exactly from five minutes on |
| ChannelHealth.ChannelAlertService.ShouldAlert | src/channels/channel-alert.service.ts:240-262 | the cooldown test and the pruning loop over the map |
| ChannelHealth.ChannelAlertService.HandleHealthCheckFailed | src/channels/channel-alert.service.ts:63-80 | a push exactly for a status change outside the cooldown |
| ChannelHealth.PrunedAnswersAsFull | src/channels/channel-alert.service.ts:252-258 | on a clock that never runs back the pruned map answers as one that remembers every alert |
| ChannelHealth.KeptExactly | src/channels/channel-alert.service.ts:250-258 | an alert is remembered, and of more than a hundred remembered only those of the last hour stay |
| ChannelHealth.AlertsAreSpaced | src/channels/channel-alert.service.ts:33-34 | two alerts for one config are at least 30 minutes apart |

## Left out

- Requests as several writes: `cancel`, `retryFailed` and `finaliseIfDone` are one step each, so a crash or a step of another worker between their writes is not modelled.
- Quiet hours: a batch put back on the queue with a delay is the same job taken later; the clock that decides it is not modelled.
- Lost acknowledgements: a provider call or a database write that took effect but reported an error counts as the error.
- Editing a draft or scheduled campaign: the run reads only the predicate frozen at launch, so an edit is no step of the protocol. The size checks of `launch` and `resume`, soft deletion and duplication, and the compilation of the predicate; the audience a run sees is a parameter.
- The `scope` of a job: only the last job of a queueing loop carries it, and nothing here depends on it.
- CampaignQueueing.QueuePending: no other step happens during the loop; with other steps in between, the protocol's `Enqueue` step is the model.
- CampaignMaterialise.CampaignRunner.Materialise: contacts and identities do not change during the run; they are one snapshot. The ledger is keyed by contact as the unique index makes it.
- CampaignProgress.NoRowIsStranded: between a full recovery (or the start) and the next crash, or the next infrastructure fault that ends a batch; a failed write of a sent row does not. What a crash leaves behind until the next dispatch recovers it is for the queue's own retry, which is not modelled.
- CampaignProgress.NeverStuck: over the same stretches.
- CampaignAddresses.NoAddressTwice: the run's rows come from one snapshot of contacts and identities; two dispatches that decide on different snapshots may choose the same address.
- WorkflowLifecycle.AutomationWorkflowService.UpdateWorkflow: reads, checks and writes in one step; `WorkflowOverlap` takes them apart.
- WorkflowLifecycle.AutomationWorkflowService.PublishWorkflow: the same, its second read of the draft being its first; `WorkflowOverlap` takes them apart.
- WorkflowLifecycle.EveryRunKeepsWorkflowsSound: each request is one step; `WorkflowOverlap` takes updates, publishes and status changes apart into a check and a write.
- WorkflowGraph.ThrowsExactlyOnCycles: for a graph with an edge into the empty id only one direction is stated, since which cycles then go unnoticed depends on the order of nodes and edges.
- Checks of a single node's configuration, condition rules, run-as authorization and referential integrity with channel configs enter as given answers.
- TransportCoherence.CacheIsCoherentExactly: an announced write and its event are one step; a write apart from its event is a `Silent` step followed by a `Drop`. What decryption and the token endpoint answer enters as given values.
- TransportRecency.KeepsTheMostRecentlyUsed: lookups are one step each; access times are strictly increasing; equal times evict the earliest inserted key, as `EvictLRU` states.
- Audit entries are returned with user names added; that enrichment is not modelled. A forged cursor whose time is not a date, which makes the query fail, is not either, and cursor text is any encoding with a decoder.
- The batching, jitter, locks and tallies of the two health schedules; configs without credentials are skipped.
- ChannelHealth.HealthTellsTheHistory: each verification is one step, as in the other results on one config's history; checks that overlap are the subject of `QuietExactly`.
- Notices to workflow owners, logging, metrics, usage recording and WebSocket delivery.
- Authentication, controllers, exports, imports and configuration.
