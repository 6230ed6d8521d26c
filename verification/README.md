# Zora: a verified model of its protocols and algorithms

Zora is a Go service for AI agents. This project models the parts of it where a mistake would be hard to see
in a test: writes to a remote mailbox that survive crashes, leased job queues, batched merging of memories,
rate limiters, parsers and printers, text and history segmentation, and agreement between replicas or between
two ways to compute one result. Every module names the files it models.

- `OfficeStore`, `OfficeProtocol`, `OfficeSafety`: drafts, approvals and the durable execution of office
  operations. `OfficeStore` holds the transactions and what each keeps; `OfficeProtocol` is the state machine of
  all actors, where a crash may fall between any two steps and any reply may be lost; `OfficeSafety` proves its
  invariant and the single send in timely runs. `OfficeRuns` holds lemmas about runs.
- `OfficeAudit`, `OfficeOwnership`, `OfficeProvenance`: what holds in every run, timely or not, of the logs, of the
  messages, and of the calls that approved a draft, saved it or leased its operation.
- `OfficeTiming`, `OfficePrudence`, `OfficeExactness`, `OfficeRefutations`: what the timing is needed for. The
  first two prove the single send under a weaker rule, the third that this rule is exact, and the last that
  neither of the two simple timing rules can be dropped.
- `OfficeExecution`, `OfficeRecovery`: the service code itself, running among the other actors. Executions run
  among timely actors, recovery and preparation among any.
- `GraphReference`: the reference codec for remote objects.
- `JobQueue`, `JobWorker`, `CaptureOutbox`: leased jobs, their workers, and the outbox that feeds them. Capture
  jobs run on the same machine as background jobs.
- `MemoryCapture`: planning and writing long-term memories.
- `Calculator`: grammar, functional parser and the parser over a moving position.
- `TokenBucket`, `IpLimiter`, `RedisLimiter`: an ideal bucket and its two stand-ins.
- `Summary`: the incremental conversation summary and the window after it.
- `EventStream`: printing and reading the event stream.
- `Fusion`, `Chunker`, `Versions`: knowledge search, chunking and document versions.
- `Approval`: one human approval among replicas.

Some results deserve a remark.

The single send needs timing that the code does not enforce: fencing compares the lease owner alone, one process
uses one owner name for all its attempts, and recovery writes back the reference it listed earlier. Two rules
(`OfficeProtocol.Timely`) suffice: recovery lists an operation only when no attempt at it is still at work
(`ListedInTime`), and a listing is acted on only while the row still has the attempt number it was listed with
(`RecoveredInTime`). Neither follows from the other: `RecoveringLiveAttemptSendsTwice` keeps the second and
`StaleListingSendsTwice` keeps more than the first, and both send twice. What exactly is safe is told by
`ListingIsSafeExactly` and `RecoveringIsSafeExactly`, at every world that a prudent run reaches, which includes the
timely ones: the harmless early or late steps are those that restore a reference under which nobody would send, or
meet no attempt that could still send or write such a reference back. `RecoveryIsTimelyExactly` tells which steps
of the recovery service itself break the rules. Everything in `OfficeAudit`, `OfficeOwnership` and
`OfficeProvenance` holds without any rule.

The page reads the event stream more simply than the standard does. Where the two readings agree is told exactly
by `AgreesExactly`, for every text, and more simply by `AgreesWithStandard` for texts without carriage returns; the
frames that the server prints are among them (`StreamRoundTrip`).

The sweep of the in-process limiter is invisible, and its rate limit kept, exactly when the burst is at most
the refill of ten minutes and a nanosecond (`TenMinutesExactly`); options outside that range are accepted by the code.

The database's vector query does not filter by the sign of the score, while ranking everything counts only
positive scores. `UnrelatedChunkIsHit` gives a search whose hits differ for this, and `UnfilteredAgreesExactly` says,
for each number of hits, on which candidates it makes no difference.

Where code and specification share a definition, a further result says what it is worth without it: numerals and
operators of the calculator, weights and ranks of the search, leases and retry times, what may be stored of a memory or
a summary, who decided an approval, and line ends and cuts of chunks.

The branch of `ChunkText` for a window that makes no progress is never taken (`Chunker.WindowEnd`).

## Model

| member | source | states |
|---|---|---|
| OfficeSafety.AtMostOneSend | internal/mcpbridge/office_executor.go:90-141 | In every run of requests, claims, remote writes, checkpoints, crashes, lost replies, recoveries and retries that keeps the two timing rules named above, at most one message is sent per operation, and a completed email operation has sent exactly the message its stored reference names; which untimely listings and recoveries are harmless is told exactly by the next three rows |
| OfficeExactness.ListingIsSafeExactly | internal/office/operation_service.go:211-241 | At any point of a run that is prudent about an email operation, and so of any timely run, listing it when its lease is over leaves 'at most one message' true of every otherwise timely continuation if and only if no live attempt at it can still do harm or its row's reference lets no attempt send; and then every prudent continuation sends at most one message, too |
| OfficeExactness.ListingByPhase | internal/office/operation_service.go:211-241 | At any point of a timely run, phase by phase: exactly when every live attempt is spent, that is, its row holds an unreadable reference, or it is looking up a message already sent, or it is about to record the reference of a message already sent |
| OfficeExactness.RecoveringIsSafeExactly | internal/office/operation_service.go:215-233 | At any point of a run that is prudent about the operation, writing a listed email operation back, however old the listing, leaves 'at most one message' true of every otherwise timely continuation if and only if the write has no effect, or its reference is unreadable or names a message already sent, or nothing was sent and no live attempt at the operation can still send or write back a reference under which another would; and then of every prudent continuation, too |
| OfficePrudence.PrudentRunsSendOnce | internal/mcpbridge/office_executor.go:90-141 | The single send under a rule weaker than the timing rules: in every run whose listings and write-backs of one email operation are prudent in that sense, whatever else overlaps, at most one message is sent for it, and a completed one has sent exactly the message its reference names |
| OfficePrudence.PrudentStepKeeps | internal/office/operation_service.go:97-241 | Every prudent step, with any number of overlapping attempts, keeps at most one of them able to do harm, none after a send, and every listing that still describes its row covered |
| OfficePrudence.TimelyRunIsPrudent | internal/office/operation_service.go:211-241 | A run that keeps the two timing rules is prudent about every operation |
| OfficeExactness.SpentIsClosed | internal/mcpbridge/office_executor.go:90-141 | Phase by phase: a live email attempt is spent exactly when its row's reference lets no new attempt send |
| OfficeExactness.LoadedSendsTwice | internal/office/operation_service.go:137-182 | At any world that a run reaches, timely or not: an attempt with a message to create, save, look up, send or give back, and a row that another attempt can claim under a usable reference, have a timely continuation that sends two messages |
| OfficeExactness.ClaimableSendsAgain | internal/mcpbridge/office_executor.go:110-141 | At any world that a run reaches: a message sent, and a row that can be claimed under a usable reference, have a timely continuation that sends a second message |
| OfficeOwnership.OwnMessagesOnly | internal/mcpbridge/office_executor.go:90-141 | In every run, timely or not, an attempt sends only messages created for its own operation, and a completed email row names a message created for it and sent |
| OfficeOwnership.StepOwned | internal/mcpbridge/office_executor.go:90-141 | Every step, timely or not, keeps rows, attempts and listings naming messages of their own operation |
| OfficeSafety.StepKeeps | internal/office/operation_service.go:97-241 | Every step keeps the protocol's invariant: mailbox and send log agree, remote objects are licensed, and each operation's row, live attempt and open recovery listings fit together |
| OfficeSafety.OneMessage | internal/mcpbridge/office_executor.go:90-141 | The invariant allows one sent message per operation at most, and ties a completed email row to it |
| OfficeSafety.ClaimStepKeeps | internal/store/postgres/office_operations.go:114-174 | A claim, answered or not, keeps the invariant; the new attempt starts from the stored reference |
| OfficeSafety.CreateMailStepKeeps | internal/mcpbridge/office_executor.go:97-108 | Creating the remote draft, whatever becomes of the reply, keeps the invariant |
| OfficeSafety.SaveReferenceStepKeeps | internal/store/postgres/office_operations.go:177-205 | The checkpoint keeps the invariant, also when its reply is lost and the attempt goes on with the old reference |
| OfficeSafety.LookUpStepKeeps | internal/mcpbridge/office_executor.go:113-130 | Looking at an earlier message keeps the invariant; a message no longer a draft is not sent again |
| OfficeSafety.SendStepKeeps | internal/mcpbridge/office_executor.go:131-141 | Sending, with or without a reply, keeps the invariant, so the message counts as sent exactly once |
| OfficeSafety.CreateEventStepKeeps | internal/mcpbridge/office_executor.go:143-174 | Creating a calendar event under the operation's transaction id keeps the invariant |
| OfficeSafety.FinishStepKeeps | internal/office/operation_service.go:184-207 | Recording a result, accepted or refused, keeps the invariant |
| OfficeSafety.ListStepKeeps | internal/store/postgres/office_operations.go:300-309 | Listing an expired operation that nobody is working on keeps the invariant |
| OfficeSafety.RecoverStepKeeps | internal/office/operation_service.go:211-241 | Failing a listed operation with the reference it was listed with keeps the invariant |
| OfficeRefutations.RecoveringLiveAttemptSendsTwice | internal/office/operation_service.go:211-241 | The rule about listing is needed: a run whose every recovery acts on a listing of the current claim, in which the lease of an attempt still at work is recovered and claimed again, sends two messages |
| OfficeRefutations.StaleListingSendsTwice | internal/office/operation_service.go:215-233 | The rule about recovering is needed: a run in which nobody is at work at any listing or any recovery, but an old listing is written back after a later claim by the same worker, sends two messages |
| OfficeRefutations.ExecutionDelivers | internal/office/operation_service.go:97-182 | An undisturbed execution of an operation without a reference sends the message it creates and saves its reference |
| OfficeAudit.AuditReplays | internal/store/postgres/office_operations.go:114-272 | In every reachable state, each draft's and operation's events are a connected path of legal transitions ending at its status, and the attempt number counts the claim events |
| OfficeAudit.OperationFollowsDraft | internal/store/postgres/office_operations.go:15-63 | In every reachable state an operation is pending, executing, completed or failed exactly when its draft is approved, executing, completed or failed; a draft has one operation at most, with the key of its content |
| OfficeAudit.ApprovedBeforeWritten | internal/office/service.go:183-220 | In every reachable state, each remote message or event belongs to a draft whose log shows the step from pending confirmation to approved |
| OfficeAudit.NothingIsForgotten | internal/store/postgres/office_operations.go:207-272 | Logs only grow, operations keep draft, kind and key, and a completed operation never changes again |
| OfficeAudit.RunLicensed | internal/store/postgres/office_operations.go:114-272 | The facts behind the four results above survive every run, timely or not |
| OfficeProvenance.WrittenAfterConfirmation | internal/office/service.go:183-220 | In every run, timely or not, each remote message or event belongs to a draft that a call of that run confirmed with an approval |
| OfficeProvenance.DraftsAreAsSaved | internal/store/postgres/office_drafts.go:15-35 | In every run, a draft has the kind, run and content that the call which saved it gave; a run and content have one draft, and saving them again changes nothing |
| OfficeProvenance.LeaseIsClaimed | internal/store/postgres/office_operations.go:114-174 | In every run, an executing operation is leased to the owner of its latest effective claim, until the time that claim named |
| OfficeProvenance.ListedExactlyAfterLease | internal/store/postgres/office_operations.go:300-309 | In every run, an operation is up for recovery exactly while it executes and the time named by its latest effective claim has come |
| OfficeStore.SaveDraftKeeps | internal/store/postgres/office_drafts.go:15-35 | Saving a draft keeps audit and coupling |
| OfficeStore.DeleteErasesNothing | internal/store/postgres/office_drafts.go:86-99 | A deletable draft has neither events nor an operation, so deleting it changes the drafts alone |
| OfficeStore.TransitionKeeps | internal/store/postgres/office_drafts.go:102-137 | The compare-and-swap of a draft's status, with its event, keeps audit and coupling |
| OfficeStore.CreateOperationKeeps | internal/store/postgres/office_operations.go:15-63 | Creating the operation of an approved draft, with its event, keeps audit and coupling |
| OfficeStore.ClaimKeeps | internal/store/postgres/office_operations.go:114-174 | A claim moves operation, draft, attempt number and both logs together |
| OfficeStore.CheckpointKeeps | internal/store/postgres/office_operations.go:177-205 | A checkpoint keeps audit and coupling |
| OfficeStore.FinishKeeps | internal/store/postgres/office_operations.go:207-272 | A result is accepted exactly from the lease owner, and keeps audit and coupling |
| OfficeStore.AttemptCountsClaims | internal/store/postgres/office_operations.go:114-174 | In any log that replays, the attempt number is the number of claims |
| OfficeStore.ApprovalOnRecord | internal/office/service.go:183-220 | A draft past confirmation shows its approval in its log |
| OfficeStore.UntouchedDraft | internal/store/postgres/office_drafts.go:86-99 | A draft still in its first status has no events |
| OfficeStore.Store.Save | internal/store/postgres/office_drafts.go:15-35 | SaveDraft: a new row, or the one already stored for the run and content |
| OfficeStore.Store.Transition | internal/store/postgres/office_drafts.go:102-137 | TransitionDraft: the row and one event, or the state conflict, and nothing else |
| OfficeStore.Store.Delete | internal/store/postgres/office_drafts.go:86-99 | DeleteDraft: only a draft in its first status; everything else stays |
| OfficeStore.Store.Create | internal/store/postgres/office_operations.go:15-63 | CreateOperation: one operation per draft and key, with its first event |
| OfficeStore.Store.Claim | internal/store/postgres/office_operations.go:114-174 | ClaimOperation: from pending or failed, with attempt, lease, draft status and both events |
| OfficeStore.Store.Checkpoint | internal/store/postgres/office_operations.go:177-205 | CheckpointOperation: the reference alone, under the owner's lease |
| OfficeStore.Store.Finish | internal/store/postgres/office_operations.go:207-272 | FinishOperation: result, draft status, released lease and both events, under the owner's lease |
| OfficeExecution.Deployment.ExecuteOperation | internal/office/operation_service.go:97-182 | The code that claims, executes and finishes, among any other timely actors: reporting completion means the operation is completed and exactly the message, or the event, its reference names was delivered; reporting failure means it is failed; and undisturbed, for both kinds, it completes exactly when the operation is pending or failed and its new object gets an id, for a message one not in use, or its stored reference can be read and, for a message, still names one |
| OfficeExecution.Deployment.ExecuteEmail | internal/mcpbridge/office_executor.go:90-141 | The email executor leaves its attempt ready to record a success with its result or a failure with the last reference it knows; a success names the one message delivered for the operation, and a failure without a reference means that none was; undisturbed, it succeeds exactly under the condition just named |
| OfficeExecution.Deployment.ExecuteCalendar | internal/mcpbridge/office_executor.go:143-174 | The same for the calendar executor; a success names the event written under the operation's transaction id, and undisturbed, a reply with an event id is a success |
| OfficeExecution.CalendarExecutionCompletes | internal/mcpbridge/office_executor.go:143-174 | From any world where a calendar operation without a reference can be claimed: claiming, creating, saving and finishing, all answered and with an event id, complete it with the reference of the event that the calendar has under its transaction id, and write no other event |
| OfficeExecution.Deployment.Checkpoint | internal/office/operation_service.go:137-160 | The checkpoint closure: the attempt's reference advances only when the save is confirmed |
| OfficeRecovery.Service.PrepareOperation | internal/office/operation_service.go:32-62 | Among any other actors: an answer names the draft's only operation, whoever created it, or an error that holds when it is given; undisturbed, it succeeds exactly for an approved draft or one that has its operation, and an error changes nothing |
| OfficeRecovery.QueryExpired | internal/store/postgres/office_operations.go:300-309 | The rows whose lease has run out, in the order of lease ends, the earliest up to the limit and all when fewer, each as it stands |
| OfficeRecovery.Service.ListExpired | internal/store/postgres/office_operations.go:300-309 | The query as a step of recovery: it writes nothing, and remembers owner, attempt and reference of each row |
| OfficeRecovery.Service.WriteBack | internal/office/operation_service.go:222-233 | One write-back, after others may have acted and with any fate of the call: counted exactly when accepted, and otherwise, unless the call failed, the listed owner holds the lease no more |
| OfficeRecovery.Service.RecoverBatch | internal/office/operation_service.go:215-236 | One batch among any other actors: conflicts are passed over, any other failure ends it, and the count is that of the accepted write-backs |
| OfficeRecovery.Service.RecoverExpiredOperations | internal/office/operation_service.go:211-241 | Among any other actors, timely or not: the total counts exactly the accepted write-backs; at a regular end every row of the last query has lost its listed owner, and that query found all there were or nothing could be recovered after it; undisturbed, the end is reached, no expired operation is left, only operations whose lease ran out have changed, and their references stay |
| OfficeRecovery.RecoveryWasDue | internal/office/operation_service.go:215-233 | Each write-back counted was due: its operation had been listed with an expired lease since the call began, the listed owner still held the lease, and the row is failed under the listed reference |
| OfficeRecovery.RecoveryIsTimelyExactly | internal/office/operation_service.go:211-241 | Which steps of the service break the timing: while all others keep it, a history stays timely if and only if no listing of the call's own meets an attempt at work on the operation, and no write-back of its own comes while its listed owner still holds the lease but a later claim took effect since the listing |
| OfficeRecovery.RecoverStep | internal/office/operation_service.go:222-227 | Failing a listed operation in its owner's name is accepted exactly while that owner holds the lease, and afterwards it does not |
| OfficeRecovery.KeyIsFree | internal/store/postgres/office_operations.go:15-63 | A draft without an operation has a free idempotency key |
| GraphReference.ReferenceRoundTrip | internal/mcpbridge/office_executor.go:246-263 | Decoding an encoded reference gives the id back exactly when the kinds agree, the kind holds no colon and the id is non-empty, at most 2048 bytes and without CR and LF; otherwise it fails |
| GraphReference.EncodeInjective | internal/mcpbridge/office_executor.go:246-248 | Different ids never share a reference, and no reference is empty |
| GraphReference.Base64RoundTrip | internal/mcpbridge/office_executor.go:246-263 | Unpadded base64url (section 5 of RFC 4648) decodes to the bytes it encodes, and its alphabet holds no colon |
| GraphReference.SymbolsAreTheAlphabet | internal/mcpbridge/office_executor.go:246-248 | The symbols are the alphabet of section 5 of RFC 4648 in its order |
| GraphReference.BytesAreSextets | internal/mcpbridge/office_executor.go:246-248 | Three bytes are four symbols for the same 24 bits, most significant first |
| GraphReference.LastBytesAreSextets | internal/mcpbridge/office_executor.go:246-248 | One or two last bytes are two or three symbols, padded with zero bits and nothing else |
| GraphReference.LineBreaksAreIgnored | internal/mcpbridge/office_executor.go:250-263 | A line break anywhere in the payload makes no difference to the decoder |
| GraphReference.PackSextets | internal/mcpbridge/office_executor.go:250-263 | Packing the six-bit groups of a byte string gives the bytes back |
| GraphReference.SplitCountsSeparators | internal/mcpbridge/office_executor.go:250-255 | Splitting gives one part more than there are separators |
| JobQueue.AcceptedReportIsLatest | internal/store/postgres/background_jobs.go:82-107 | With any workers, crashes and expired leases, a report the store would accept comes from the job's latest claim, with the stored attempt number and budget |
| JobQueue.LatestEventTells | internal/store/postgres/background_jobs.go:16-118 | In every run, a job is as its latest effective event left it: as enqueued, leased to the claiming worker until the time the claim named, completed, waiting for the retry time or failed for good, or restarted; only a leased job without attempts left may have been failed since |
| JobQueue.ClaimedExactlyWhenDue | internal/store/postgres/background_jobs.go:59-65 | In every run, an idle worker can claim a job with attempts left exactly when it asks for its kind and the job's latest event is due: its lease is over, or its retry or first time has come |
| JobQueue.NextClaimWaits | internal/store/postgres/background_jobs.go:49-81 | On the labels of a run: no claim takes effect on a job before its preceding event is due, be it a claim's lease, a failure's retry time, a manual retry or the enqueueing |
| JobQueue.LeasesExclude | internal/store/postgres/background_jobs.go:49-81 | On the labels of a run: of two effective claims of a job between which nobody reports on it or restarts it, the later comes only when the earlier's lease is over, whatever claims come between, as long as leases do not end before they begin |
| JobQueue.AttemptsAreClaims | internal/store/postgres/background_jobs.go:16-81 | In every run, a job that was not restarted keeps the kind, key and maximum it was enqueued with, five when none was given, and has been claimed exactly as often as its attempt number says and no more often than the maximum |
| JobQueue.UsedUpJobsFail | internal/store/postgres/background_jobs.go:55-58 | A claim that takes effect, even without finding a job, fails every expired job of its kind without attempts left |
| JobQueue.OneJobPerKey | internal/store/postgres/background_jobs.go:16-23 | In every run a kind and key name one job at most, and enqueueing makes sure that there is one |
| JobQueue.AttemptsStayWithinBudget | internal/store/postgres/background_jobs.go:49-118 | Pending jobs have attempts left, executing ones are between one and the maximum |
| JobQueue.RunsDryUp | internal/store/postgres/background_jobs.go:49-118 | Without new jobs and manual retries, a run makes at most as many claims as attempts remain over all jobs |
| JobQueue.ClaimsAreBounded | internal/store/postgres/background_jobs.go:49-118 | Claims made and attempts remaining never add up to more than the attempts there were |
| JobQueue.StepSpends | internal/store/postgres/background_jobs.go:49-107 | No step but enqueueing and manual retry adds budget, and a claim spends some |
| JobQueue.CompletedIsFinal | internal/store/postgres/background_jobs.go:82-118 | A completed job is never changed again |
| JobQueue.StepKeeps | internal/store/postgres/background_jobs.go:49-118 | Claim, complete, fail, retry, enqueue and crash keep budget and fencing |
| JobWorker.RetryDelay | internal/background/worker.go:169-178 | The doubling loop computes the base times 2^(attempt-1), capped at one minute |
| JobWorker.SweepRows | internal/store/postgres/background_jobs.go:55-58 | Exactly the expired jobs without attempts left become failed |
| JobWorker.PickFirst | internal/store/postgres/background_jobs.go:59-65 | The chosen job is claimable and first by availability and age; none is chosen only if none is claimable |
| JobWorker.Table.Claim | internal/store/postgres/background_jobs.go:49-81 | The claim transaction row by row is the claim step of the queue, and the chosen row is leased to the worker until the time asked for |
| JobWorker.Worker.constructor | internal/background/worker.go:46-69 | Whatever the options, a lease outlives the task it covers; options in range are kept, and the others get their defaults |
| JobWorker.Worker.ProcessNext | internal/background/worker.go:117-168 | One round among any other workers: the worker asks for one job of its kind under a lease of its full length from now; a confirmed report leaves the row as the handler's result says, a failure is final exactly when the attempts are used up, and otherwise waits for the capped exponential; undisturbed, it is idle exactly when nothing can be claimed |
| JobWorker.Worker.ReportResult | internal/background/worker.go:138-168 | What the handler returned is reported, and confirmed exactly when the lease is still held and the store answers |
| JobWorker.Worker.Report | internal/background/worker.go:138-168 | A report under a held lease reaches the claim it belongs to |
| CaptureOutbox.CaptureJobs.EnqueueCaptureJob | internal/store/postgres/memory_capture_jobs.go:21-81 | Answer and job are stored together or not at all; a known run gets its stored pair back |
| CaptureOutbox.TriesGrow | internal/store/postgres/memory_capture_jobs.go:21-81 | However often callers try and whichever replies are lost, messages and jobs are added in pairs, one per run, and never changed |
| CaptureOutbox.RetryReturnsFirst | internal/store/postgres/memory_capture_jobs.go:33-46 | Once a try took effect, confirmed or not, every later try for the run is told what that one stored |
| MemoryCapture.MemoryService.Plan | internal/memory/service.go:183-242 | The batched plan, once written, equals applying each valid candidate by itself, in order; planned rows and slots are distinct and none is a user's wording; every planned row is in the words of one candidate, with its kind, key and expiry, holds nothing sensitive, keeps the limits on kind, key, content, importance and expiry, and carries this conversation as its source; a stored row is planned exactly when a valid candidate of its slot has anything new for it and the user has not reworded it; skipped are exactly the candidates that, one by one, would be invalid, meet the user's wording or bring nothing new |
| MemoryCapture.MemoryService.Capture | internal/memory/service.go:155-271 | Whatever other replicas leave in the table before each write: the writes before the end were all accepted and the table is what they and the others left; it ends complete, or stopped where the process was, or at the first write that breaks a key of what it found; left alone, no write is refused, the store holds exactly a prefix of the plan, and at the end the one-by-one result; every row to be written may be stored, as for the plan; created counts the new rows, updated the other writes, and skipped the candidates passed over |
| MemoryCapture.MemoryService.WriteAll | internal/memory/service.go:257-271 | The loop of writes on any plan: what is accepted, created and updated, and the table at each of the three endings |
| MemoryCapture.ApplyAllView | internal/memory/service.go:183-242 | One-by-one application folds each slot by itself |
| MemoryCapture.FoldIsLastAndMost | internal/memory/service.go:192-233 | A slot the user has not reworded ends with its last candidate's content and expiry and the greatest importance it held or was offered |
| MemoryCapture.AllowedIsKept | internal/memory/service.go:294-321 | A candidate that is not sensitive and within the limits ends up in its slot, with its content and expiry and at least its importance, unless the user has reworded the slot or a later candidate has it |
| MemoryCapture.PassedOverIsNothingNew | internal/memory/service.go:192-219 | A valid candidate is passed over exactly when its slot is in the user's words or already shows its content and expiry and at least its importance |
| MemoryCapture.FoldIdempotent | internal/memory/service.go:183-242 | Folding the same candidates again changes nothing |
| MemoryCapture.FoldForgets | internal/memory/service.go:183-242 | From any starting view that is important enough, the candidates lead to the same content and expiry |
| MemoryCapture.ReplayConverges | internal/memory/service.go:155-271 | A capture stopped after any number of writes and replayed leaves every slot as one clean capture, when the candidates are still as valid as before |
| MemoryCapture.UserWordingStays | internal/memory/service.go:209-215 | A slot the user reworded is never changed by a capture |
| MemoryCapture.RewordingSurvivesExactly | internal/store/postgres/memories.go:104-132 | A rewording that lands between planning and writing survives exactly when no valid candidate for its slot had anything new for the row as it was stored, or that row was the user's wording already |
| MemoryCapture.RewordingDuringWrites | internal/store/postgres/memories.go:104-132 | The same for any plan: the rewording survives exactly when its row is not in the plan, because updates write whole rows |
| MemoryCapture.PlannedSlots | internal/memory/service.go:192-209 | Looking first at the pending plan and then at the store finds what the written plan would hold in the slot |
| MemoryCapture.WritePossible | internal/memory/service.go:257-269 | No planned write breaks a key of the table that the earlier writes have left |
| MemoryCapture.WrittenWellFormed | internal/store/postgres/memories.go:15-41 | Written plans leave one row per slot |
| MemoryCapture.MemoryService.CreateMemory | internal/store/postgres/memories.go:15-41 | Inserts the row unless its id or its non-empty slot is taken |
| MemoryCapture.MemoryService.UpdateMemory | internal/store/postgres/memories.go:104-132 | Overwrites the whole row of an existing id unless another row has the slot |
| MemoryCapture.MemoryService.GetMemoryByKey | internal/store/postgres/memories.go:58-72 | Finds the row of a slot, if there is one |
| Calculator.CalculatesExactlyTheGrammar | internal/agenttools/calculator.go:16-146 | An input is calculated to a value exactly when it spells, with any spaces and redundant parentheses, an expression of that value with left-associative operators and tight signs; in particular leftover input and zero divisors fail |
| Calculator.DigitAppended | internal/agenttools/calculator.go:105-132 | What a numeral is worth: a digit appended to digits makes ten times their value and the digit |
| Calculator.PointAloneAddsNothing | internal/agenttools/calculator.go:105-132 | A numeral without digits after its point is worth its digits |
| Calculator.FractionAppended | internal/agenttools/calculator.go:105-132 | As the n-th digit after the point, a digit adds itself divided by the n-th power of ten |
| Calculator.PointMoves | internal/agenttools/calculator.go:105-132 | Moving the point behind the next digit makes ten times the value |
| Calculator.OperatorsCompute | internal/agenttools/calculator.go:33-80 | The text of two spelled operands with an operator between them is calculated to the sum, difference, product or quotient of their calculated values, and fails for a zero divisor |
| Calculator.SignsAndGroupsCompute | internal/agenttools/calculator.go:82-103 | A minus sign negates the calculated value of what follows it; a plus sign and parentheses keep it |
| Calculator.SpellingIsCalculated | internal/agenttools/calculator.go:16-31 | Every spelling of an expression is calculated to the expression's value, or fails when a divisor is zero |
| Calculator.EveryExprIsSpelled | internal/agenttools/calculator.go:33-103 | Every expression has a spelling at every level of the grammar |
| Calculator.SumIsSpelled | internal/agenttools/calculator.go:33-54 | What the sum parser consumes spells a sum of the value it returns |
| Calculator.ProductIsSpelled | internal/agenttools/calculator.go:56-80 | What the product parser consumes spells a product of the value it returns |
| Calculator.FactorIsSpelled | internal/agenttools/calculator.go:82-103 | What the factor parser consumes spells a factor of the value it returns |
| Calculator.SumParses | internal/agenttools/calculator.go:33-54 | The spelling of a sum is parsed to its value, up to what follows |
| Calculator.ProductParses | internal/agenttools/calculator.go:56-80 | The spelling of a product is parsed to its value, up to what follows |
| Calculator.FactorParses | internal/agenttools/calculator.go:82-132 | The spelling of a factor is parsed to its value, up to what follows |
| Calculator.ExpressionParser.ParseExpression | internal/agenttools/calculator.go:33-54 | The loop over a moving position leaves the value and position of the functional parser; the mutual recursion ends |
| Calculator.ExpressionParser.ParseTerm | internal/agenttools/calculator.go:56-80 | The same for products |
| Calculator.ExpressionParser.ParseOperand | internal/agenttools/calculator.go:82-103 | The same for signs, parentheses and numbers |
| Calculator.ExpressionParser.ParseDigits | internal/agenttools/calculator.go:105-132 | The same for the number scanner with its single point |
| Calculator.Calculate | internal/agenttools/calculator.go:16-31 | The tool returns a value exactly when the whole input spells an expression of that value |
| TokenBucket.WindowBound | internal/security/security.go:335-357 | With a clock that does not run backwards, a limiter that forgets nothing admits a key in any window at most the burst plus rate times window |
| TokenBucket.LevelPays | internal/security/security.go:335-357 | From a moment on, admissions of a key are paid for by its level and its refill |
| TokenBucket.AdmittedAfter | internal/security/security.go:342-354 | A refused key is admitted again exactly when the missing part of a token has been earned |
| TokenBucket.WaitEarns | internal/security/security.go:351-354 | The computed wait is exactly what earns the missing part |
| TokenBucket.SecondsEarnRate | internal/security/security.go:342-347 | Every second earns exactly the rate |
| TokenBucket.EarlierClockEarnsNothing | internal/security/security.go:342-349 | A call whose clock is not ahead of the key's last call finds what that call left: one token less if it was admitted |
| IpLimiter.SweepingIsInvisible | internal/security/security.go:335-365 | The ten-minute sweep never changes an answer, in any run, exactly when a bucket fills up before it can be swept |
| IpLimiter.RateIsLimited | internal/security/security.go:335-365 | The window bound holds for every run of the sweeping limiter under exactly the same condition |
| IpLimiter.TenMinutesExactly | internal/security/security.go:358-363 | In numbers, that condition is that the burst is at most the rate times 600 seconds and a nanosecond |
| IpLimiter.RunRefines | internal/security/security.go:335-365 | Under the condition, every run refines the limiter that forgets nothing |
| IpLimiter.BothBurstsAdmitted | internal/security/security.go:357-363 | Without the condition, a run gets two full bursts within ten minutes |
| IpLimiter.RetryIsEnough | internal/security/security.go:350-354 | The returned wait, cut off to nanoseconds, suffices exactly when nothing was cut off; one nanosecond more always does |
| IpLimiter.Limiter.Allow | internal/security/security.go:335-365 | One call: the verdict for the level found, the updated bucket, the wrapping counter and the sweep, which happens on every 1024th call alone and then drops exactly the keys idle for more than ten minutes |
| IpLimiter.Limiter.Sweep | internal/security/security.go:358-363 | Exactly the keys not seen for more than ten minutes are dropped |
| RedisLimiter.ExpiryIsInvisible | internal/security/redis_limiter.go:14-37 | Whenever expired keys are dropped, every run answers like the limiter that forgets nothing |
| RedisLimiter.TtlRefills | internal/security/redis_limiter.go:54-58 | The chosen time to live, whole seconds and at least a minute, refills the whole burst twice |
| RedisLimiter.RateIsLimited | internal/security/redis_limiter.go:14-37 | Whatever expires, admissions of a key in any window are at most the burst plus rate times window |
| RedisLimiter.RetryIsExact | internal/security/redis_limiter.go:25-37 | With no other call, waiting is rewarded exactly from the returned number of milliseconds on, whether or not the key has expired |
| RedisLimiter.Server.Allow | internal/security/redis_limiter.go:14-37 | One script run: the answer for the level found, the stored tokens and time, and the new expiry |
| RedisLimiter.Server.Expire | internal/security/redis_limiter.go:35 | Dropping a key whose expiry has passed |
| Summary.EveryRunIsFaithful | internal/summary/service.go:55-105 | In every run of messages and serialised updates, failed or unconfirmed ones included, the stored batches concatenate to exactly the messages up to the summary's number, each once and in order, the count is their number, and each summarizer call was given the text of the one before |
| Summary.UpdateKeepsFaithful | internal/summary/service.go:55-105 | One update keeps that |
| Summary.HistoryIsComplete | internal/chat/service.go:391-399 | Summary prefix and filtered window are the whole conversation, each message once, exactly when the unsummarised messages fit into the window |
| Summary.NothingIsLost | internal/chat/service.go:565-580 | When the updates of all earlier turns ran, the model is always shown the whole conversation |
| Summary.TurnCatchesUp | internal/summary/service.go:72-77 | A turn whose update ran leaves fewer unsummarised messages than the trigger |
| Summary.BatchIsNext | internal/summary/service.go:65-77 | A batch is the run of messages that directly follows the summarised ones |
| Summary.BatchExactly | internal/summary/service.go:65-77 | In places of the log: of the at most thousand next messages up to the latest, an update takes all but the ones to keep, and none when there are fewer than the trigger |
| Summary.AcceptedExactly | internal/summary/service.go:79-93 | A reply is stored exactly when it is not sensitive and is some blanks, a text within the limit, and blanks; what is stored is that text, without a blank at either end |
| Summary.WindowIs | internal/chat/service.go:1020-1028 | The window is the recent end of the unsummarised messages and the new one |
| Summary.Service.Update | internal/summary/service.go:55-105 | The outcome and the new state, for every summarizer reply and fate of the write |
| Summary.Service.RecentHistory | internal/chat/service.go:391-399 | Reads the larger of 40 and the trigger and drops what the summary covers |
| Summary.MessagesAfterSequence | internal/chat/service.go:1020-1028 | The loop keeps exactly the messages after the number, in order |
| EventStream.ConsumeSse | internal/httpapi/web/app.js:1475-1497 | However a text is cut into chunks, the reader delivers exactly the events of the whole text |
| EventStream.StreamRoundTrip | internal/httpapi/server.go:449-458 | For every list of events with one-line names and payloads and every cutting of the printed text, exactly that list is delivered, in order |
| EventStream.PrintedIsRead | internal/httpapi/server.go:449-458 | The printed frames of such events read back as those events |
| EventStream.AgreesExactly | internal/httpapi/web/app.js:1475-1497 | On every text, the reader delivers the events of the line-by-line reading of section 9.2.6 of the HTML Living Standard if and only if every complete frame is fair and what follows the last frame end is silent: each data line of a frame and its last event name are what the standard finds when carriage returns end lines too, its data stand in one block of the standard's, which finds no other with data, and in the rest no complete block holds data |
| EventStream.AgreesWithStandard | internal/httpapi/web/app.js:1475-1497 | The same in the reader's own terms for texts whose lines end in line feeds alone: if and only if every complete frame is plain, with no data line without a colon, and where there is data, trimming each data line and the last event name is the same as dropping one space |
| EventStream.FrameAgreesExactly | internal/httpapi/web/app.js:1484-1493 | A frame is delivered as the standard has it exactly when it is plain, and never when the standard has nothing |
| EventStream.StandardLineIs | internal/httpapi/web/app.js:1487-1490 | The standard's processing of a line, for the two fields that the reader knows, in the reader's terms |
| EventStream.SecondSpaceIsTrimmed | internal/httpapi/web/app.js:1487-1490 | The two readings differ: of a payload after two spaces the reader keeps none and the standard one |
| EventStream.DataFrame | internal/httpapi/web/app.js:1484-1493 | What both readings make of a frame with one data line |
| EventStream.FieldsAreTrimmed | internal/httpapi/web/app.js:1487-1490 | Of a name the reader drops the blanks on either side, and of a payload those before it, and no more |
| EventStream.CarriageReturnsAreMissed | internal/httpapi/web/app.js:1480-1483 | A line and a blank line that end in CR LF: the standard dispatches the line, and the reader sees no frame end |
| EventStream.FramesAppend | internal/httpapi/web/app.js:1480-1483 | Text that arrives later only continues the last, incomplete frame |
| EventStream.ReadFrame | internal/httpapi/web/app.js:1484-1493 | The line loop collects the last name and all data of a frame, and skips a frame without data |
| EventStream.Response.Emit | internal/httpapi/server.go:449-458 | Appends one event and its frame, so that the response stays the print of all events emitted, in order |
| EventStream.Response.IsReadBack | internal/httpapi/server.go:449-458 | However the network cuts a response, the page delivers exactly the events emitted to it, in order, when their names and payloads are clean |
| Fusion.FusionAgrees | internal/knowledge/service.go:334-458 | With candidate lists that are the positive top 50 of both rankings, ranking the merged candidates gives the same chunks and fused scores in the same order as ranking everything, for every order of the merged map and every number of hits |
| Fusion.HitsEqualExactly | internal/knowledge/service.go:388-448 | The per-signal scores of the hits agree as well exactly when no hit has a score in a signal whose list it did not make |
| Fusion.HitScore | internal/knowledge/service.go:356-372 | A hit's score is the sum of 1/(60 + r) over the lists its chunk is in, r counting places from 1 |
| Fusion.CandidateHitScore | internal/knowledge/service.go:406-418 | The same for a hit among candidates and the candidate's two ranks |
| Fusion.BetterPlacesFirst | internal/knowledge/service.go:356-404 | Of two hits, one placed no worse in both lists and better in one comes first |
| Fusion.HitsInOrder | internal/knowledge/service.go:384-404 | Hits come in the order of scores, then names, then ordinals, all positive, and at most as many as asked for; a positive chunk is left out only behind as many hits as asked for |
| Fusion.TopListIs | internal/knowledge/service.go:346-372 | The list of a signal holds at most fifty chunks, all with a positive score and best first; a positive chunk is left out only of a full list whose chunks all come before it |
| Fusion.LexIs | internal/knowledge/service.go:450-458 | Names are compared character by character, and a name precedes every longer one that begins with it |
| Fusion.UnfilteredAgreesExactly | internal/store/postgres/knowledge.go:258-277 | With the vector list as the query returns it, not filtered by sign, and for each number of hits that can be asked for: the two ways agree if and only if every candidate listed without a positive vector score has at least that many candidates ahead of it |
| Fusion.UnfilteredAgreesAlways | internal/store/postgres/knowledge.go:258-277 | They agree for every number of hits exactly when every listed chunk has a positive vector score |
| Fusion.UnrelatedChunkIsHit | internal/knowledge/service.go:186-191 | An input on which they differ: one chunk with vector score -1 and no keyword, with five hits asked for, is a hit among the candidates and none when everything is ranked |
| Fusion.RankingIsUnique | internal/knowledge/service.go:450-458 | A ranking is determined by which chunks it holds with which scores |
| Fusion.SortedRanks | internal/knowledge/service.go:450-458 | Sorting by score, name and ordinal gives a strict ranking of the same items |
| Fusion.FusedByRanks | internal/knowledge/service.go:358-372 | The accumulated score of a chunk depends only on its ranks in the two lists |
| Fusion.RankSearch | internal/knowledge/service.go:334-404 | The loops over both rankings and over the items compute the hits |
| Fusion.AddWeights | internal/knowledge/service.go:358-370 | One loop adds to every chunk the weight of its rank |
| Fusion.RankCandidates | internal/knowledge/service.go:406-448 | The loop over candidates computes the hits |
| Fusion.CollectHits | internal/knowledge/service.go:388-404 | The loop keeps the first positive items, up to the limit; no limit for zero |
| Fusion.MergeCandidates | internal/store/postgres/knowledge.go:214-256 | The merged candidates are those of either list, each chunk once, with both ranks and scores, in any order |
| Chunker.ChunksAreSound | internal/knowledge/chunker.go:24-68 | Chunks are numbered from zero, equal their stated slices, hold at most the maximum, begin and end with text, overlap by at most the overlap, do not go back, and cover every rune that is not white space |
| Chunker.ChunkText | internal/knowledge/chunker.go:24-68 | The loop ends and computes those chunks; the call fails for lack of text exactly when the input has no rune but white space, and for each bad option as the code does |
| Chunker.PiecesOverlap | internal/knowledge/chunker.go:35-68 | Consecutive chunks share at most the overlap |
| Chunker.PiecesRepeat | internal/knowledge/chunker.go:35-68 | Between two chunks lies a window's end, and the next chunk begins with the first text from the overlap before it: blanks aside, no more and no less is repeated |
| Chunker.PiecesCover | internal/knowledge/chunker.go:35-68 | No text is left out |
| Chunker.PiecesWellCut | internal/knowledge/chunker.go:35-68 | Every chunk is well cut |
| Chunker.WindowEnd | internal/knowledge/chunker.go:40-66 | A window ends after its start, within the maximum, and far enough for the next start to advance, so the branch for no progress is never taken |
| Chunker.FindBoundary | internal/knowledge/chunker.go:70-92 | The cut is the latest boundary of the first kind that occurs in the range, or the end of the range |
| Chunker.BoundaryIsUnique | internal/knowledge/chunker.go:70-92 | That description determines the cut |
| Chunker.CutPrefers | internal/knowledge/chunker.go:70-92 | What a cut falls on, best first: a heading, a blank line, a line end, just after a sentence, white space; and the end of the range only when it offers none of these |
| Chunker.WindowPrefers | internal/knowledge/chunker.go:40-47 | A window that does not reach the end of the text is cut in its second half, at the best such place there |
| Chunker.FindBoundaryRecursive | internal/knowledge/chunker.go:82-92 | The scan computes the cut from a kind on |
| Chunker.IsMarkdownHeadingBoundary | internal/knowledge/chunker.go:94-107 | True exactly before one to six number signs and a space at the start of a line |
| Chunker.TrimRuneRange | internal/knowledge/chunker.go:109-117 | The two loops compute the trimmed range |
| Chunker.TrimmedIs | internal/knowledge/chunker.go:109-117 | Trimming cuts off white space only and leaves text at both ends |
| Chunker.NormalizedKeepsText | internal/knowledge/chunker.go:35 | Normalising line endings neither adds nor removes text |
| Chunker.NormalizedIs | internal/knowledge/chunker.go:35 | Rule by rule: a carriage return with or without a line feed becomes a line feed, any other rune stays, and pieces are normalised one by one unless cut inside such a pair |
| Chunker.NoReturnsLeft | internal/knowledge/chunker.go:35 | No carriage return is left |
| Approval.OneDecision | internal/store/postgres/approvals.go:80-100 | In every interleaving of wait, decisions on any replica, polling, timeout, cancellation, lost replies and crashes, the row leaves pending at most once and every answer of Wait or Decide is its final state |
| Approval.OnlyApprovedRuns | internal/chat/service.go:521-563 | A gated run reaches the runtime only if the stored record is approved |
| Approval.DecidedByItsWriter | internal/store/postgres/approvals.go:80-100 | In every run, a decided row is what a call of that run wrote: approved or rejected by somebody's decision with that reason, expired by the run's own timeout or cancellation with that reason |
| Approval.RunningWasApproved | internal/chat/service.go:521-563 | In every run, a gated run that reaches the runtime was approved by a decision of that run |
| Approval.DecisionIsFinal | internal/store/postgres/approvals.go:80-100 | A decision is never taken back |
| Approval.LateTimeoutKeepsDecision | internal/approval/service.go:180-194 | A timeout after a decision still returns the decision when the row can be read, however the expiring write went |
| Approval.DecisionReachesWaiter | internal/approval/service.go:146-164 | A decision on the waiting run's own replica is what its Wait returns through the channel |
| Approval.DecisionReachesPoller | internal/approval/service.go:127-132 | A decision on any other replica, confirmed or not, is what the next successful poll returns |
| Approval.StepKeeps | internal/approval/service.go:85-194 | Every step keeps row, channel, actors and answers in agreement |
| Approval.Deployment.Wait | internal/approval/service.go:106-144 | The select loop: an answer is the stored, final decision, and a call of the history wrote it; otherwise the wait has failed |
| Approval.Deployment.ResolveWithoutCancel | internal/approval/service.go:180-194 | A write that reaches a pending row leaves it expired with the given reason, and no other row changes; it answers exactly when it was not cancelled and either that write is confirmed or the row is decided and can be read |
| Approval.Deployment.Decide | internal/approval/service.go:146-164 | Succeeds exactly on a pending row with a confirmed write, and then its decision is the stored one |
| Approval.Deployment.Gated | internal/chat/service.go:521-563 | Request, wait and gate together: running means that the stored record is approved and that somebody's decision of the history approved it |
| Versions.EveryStateIsCoherent | internal/store/postgres/knowledge.go:19-172 | After any serial sequence of creates and deletes, versions in a group are positive and distinct, every group has a latest document, and it is newer than all others |
| Versions.OneLatest | internal/store/postgres/knowledge.go:30-55 | In a coherent state every non-empty group has exactly one latest document, the one with the greatest version |
| Versions.CreatesCountUp | internal/store/postgres/knowledge.go:30-55 | As long as nothing is deleted, the versions of every group count up from one without a gap |
| Versions.StepMindsItsGroup | internal/store/postgres/knowledge.go:19-172 | An operation keeps the contents of an owner distinct and changes nothing in another tenant, for another owner or in another group |
| Versions.StepKeeps | internal/store/postgres/knowledge.go:19-172 | A create or delete, refused or not, keeps coherence |
| Versions.DocumentStore.CreateDocument | internal/store/postgres/knowledge.go:30-55 | The new document is the group's latest with the next version, the former latest is demoted, and a conflict changes nothing |
| Versions.DocumentStore.DeleteDocument | internal/store/postgres/knowledge.go:141-172 | Exactly the owner may delete; when the latest goes, the newest remaining document takes over |
| Versions.DocumentStore.NextVersion | internal/store/postgres/knowledge.go:33-35 | One more than the group's greatest version |
| Versions.DocumentStore.Newest | internal/store/postgres/knowledge.go:163-166 | A document of the group with the greatest version, if the group is not empty |

## Left out

- HTTP routing, sessions, OAuth, CORS, CSRF, configuration, telemetry, quotas, feedback, evaluation and the web page other than the stream reader: input and output, or only easy sums.
- The agent runtime, prompts, embeddings and model calls: their results are arbitrary parameters.
- Tenants and principals, except in `Versions`: every query is scoped the same way, and the model is one scope.
- Titles, bodies, reasons, timestamps and executor names of office rows, and the truncation of error texts: no decision depends on them.
- Content hashes, idempotency keys and transaction ids: values of a datatype, so that different inputs stay different.
- The remote side of the office protocol: a remote write happens before its call returns, a send always delivers and turns the draft into a message, and the calendar answers a known transaction id with the event it has.
- OfficeSafety.AtMostOneSend: assumes the two timing rules, because the code does not enforce them and the property is false without either of them; `OfficePrudence.PrudentRunsSendOnce` needs less, and `OfficeExactness` says exactly how much of it is needed.
- OfficeExecution.Deployment.ExecuteOperation: runs among timely actors only; what overlapping attempts do in untimely runs is stated about the protocol in `OfficePrudence` and `OfficeOwnership`.
- OfficeRecovery.Service.RecoverExpiredOperations: the rounds come from a finite schedule, and a process that stops before the loop would is reported as interrupted; the order of rows with the same lease end is arbitrary.
- Audit events are kept in the order in which their transactions commit.
- The loops that start and stop workers, wake-up signals and polling intervals: any order of rounds is covered by the queue machine.
- The capture worker's own code: it is the background worker's with another handler, and its retry delay is `JobWorker.RetryDelay`; a capture handler is an arbitrary result there and `MemoryCapture` here.
- Locked rows skipped by a concurrent claim: `JobQueue` lets a claim take any claimable job, `JobWorker.Table.Claim` takes the first of an unlocked table.
- Trimming and key normalisation of memory candidates, and the list of sensitive labels: parameters of `MemoryCapture`. The vector index is not part of this model.
- MemoryCapture.ReplayConverges: compares what a slot shows, its content, importance, expiry and the user's mark; ids, sources and times may differ after a replay, as they do in the code.
- MemoryCapture.MemoryService.Capture: planning reads one table, the one at the start of the capture; what other replicas change while it plans is left out, what they leave before each write is a parameter.
- Calculator: real numbers without rounding, overflow and not-a-number, so the check for a finite result never fails; digits are the ASCII ones, because other digits are scanned by the code and then rejected by its number reader, which fails the input either way.
- Token buckets: real tokens without rounding; the burst is a whole number; durations are not limited to 64 bits; the key digest is the key.
- Summary.EveryRunIsFaithful: takes the updates of one conversation one at a time, as `Summary.UpdateKeepsFaithful` does; two updates that overlap are left out.
- Summary: the model name and time of a summary, and the search for credentials in its text (a flag of the reply), are left out. A failed read of the summary, after which the whole window is used, is outside `HistoryIsComplete`.
- EventStream: decoded text; UTF-8 decoding across reads and parsing of the JSON payload are left out. A chunk is what one read decodes to, and the last one may be empty. Decoding removes a leading byte order mark on both sides; ids and retry times, which the reader does not know, are left out of both readings.
- Fusion: cosine, BM25 and full-text scores are given reals, and one pair of rankings is assumed for both ways; sorting is insertion, which for distinct keys every correct sort equals by `RankingIsUnique`. The vector-only and keyword-only modes are left out.
- Fusion.FusionAgrees: the top 50 of a signal is one list for both ways. The database's two candidate queries order by score alone, so among chunks with the same score at rank 50 they may list others than the model's ranking, which goes on by name and ordinal.
- Chunker: text is valid Unicode already, so the check for invalid UTF-8 is left out.
- Approval: channels, the mutex and the select statement are modelled on values, as steps of a state machine for one approval; the entry of a waiter that returns at once, which the code never removes, stays in the model too. Choosing which requests need approval is left out.
- Versions: one transaction at a time, because deletes take no lock on the group; chunks, names and times of documents are left out. A version number is given out again after its document was deleted as the latest.
