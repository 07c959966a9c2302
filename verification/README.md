# Credential revocation, session cleanup and canonical encodings

A Dafny model of three parts of the system, with proofs about every run rather than single calls.

**Credential revocation.** `Lifecycle` gives the steps a revocation record can take; `LifecycleTraces` proves what
holds over whole lives: one child, retry budgets, claim fencing, one cause for every revocation, terminal statuses.
`RepositoryModel` says what each of the sixteen repository calls decides, leaves behind and returns;
`RepositoryRuns` shows that every call moves every record along a legal piece of its life, and `RepositorySafety`
derives what every run guarantees; `ManagementRuns` says which records of a run the control plane accepts.
`MemoryRepositories` is the repository itself, a class over two maps whose methods follow the code and are proved to do
exactly what the model says, so the results about runs are results about the class. `DurableBrokers` drives that class,
with arbitrary answers from issuer, clock and context and with arbitrary calls of others in between, under any fence but
the action's own (`IssuanceSafety`). `BrokerReplies` says which replies the broker accepts and when it gets one, so that
an `Issue` with honest surroundings is proved to succeed (`DurableScripts.Honest`); `RevocationFlights` covers concurrent
revocation requests on one credential.

**Session ownership.** `CleanupBrokers`, `AttemptSessions` and `RecoverySessions` are state machines. A section under a
mutex is one step; a call outside the mutex, Destroy included, is a step that starts it and a step that ends it. In
`CleanupBrokers` runs are all interleavings of any number of callers, those that wait on a done channel included:
`CleanupSteps` proves the invariant, `CleanupResults` what callers are replied and who owns a handle, `CleanupProgress`
that nobody is stuck. The other two are machines of one cell and of whoever is at work on it; `SessionCallers` puts any
number of calling and waiting callers around either cell, and `SessionShutdowns` the authority's Destroy around all cells.

**Encodings and arithmetic.** Framing and set normalization behind query digests, the checkpoint envelope, fact
validation through joined keys, and the retry delay.

Conventions: a Go string or byte slice is a `string` with one character per byte. A `Time` counts nanoseconds from
year 1, so `Zero` is Go's zero time. SHA-256 is any function to 64 hexadecimal digits (`Hash`); the cipher, HKDF and
the signing authority are functions with the stated correctness property. Clock readings, answers of the action
source, the protector and fresh tokens are part of a call.

Two properties that the code might be expected to have it does not. First, `ValidManagementRecord` demands whole
microseconds, but `RetryRevocation` accepts any delay and the jitter sampler draws nanoseconds. A record is rejected from
an odd retry on until its wait is set anew: `OddRetryDelayIsRejected` is a run, `EveryReachableRecordExactly` the exact
condition over all runs, `SampledRetryIsManageableExactly` the one for the sampler. Second, a `destroy` call on a session
cell waits for a revocation but not for another `destroy`, and on a recovered session not even for the end of a
successful revocation, so it may return while the lease is alive; `DestroyReturnsWhen` says exactly when, and
`DestroyMayReturnEarly` gives the runs.

## Model

| member | source | states |
|---|---|---|
| `Revocations.CanonicalCredentialExpiry` | internal/credential/revocation.go:49-54 | the greatest whole microsecond not after the instant |
| `Text.DecimalInjective` | internal/credential/memory.go:1148-1150 | decimal renderings of different integers differ, signs included |
| `Text.JoinInjective` | internal/assetdiscovery/contracts.go:117-146 | NUL-joined keys of NUL-free tuples are equal only if the tuples are |
| `Lifecycle.StepKeepsWellFormed` | internal/credential/memory.go:171-815 | every step the repository takes on a record keeps its status, accessor, claim, child-budget and failure fields consistent, whatever the order of clock readings |
| `Lifecycle.StepKeepsChronological` | internal/credential/memory.go:171-815 | with a clock that is not behind the record, every step keeps all timestamps in order |
| `LifecycleTraces.VersionCountsSteps` | internal/credential/memory.go:1115-1118 | the version counts the steps taken and the fields frozen by Prepare never change |
| `LifecycleTraces.TerminalIsAbsorbing` | internal/credential/memory.go:171-815 | no step is possible on a NO_CREDENTIAL or REVOKED record |
| `LifecycleTraces.OneChildPerRecord` | internal/credential/memory.go:207-220 | a record authorizes at most one child in its life and keeps that instant and TTL |
| `LifecycleTraces.NoCredentialMeansNoLiveChild` | internal/credential/memory.go:361-414 | a life that ends in NO_CREDENTIAL holds no accessor and either authorized no child or was closed after the child's TTL, the reserve and the grace |
| `LifecycleTraces.RetryBudget` | internal/credential/memory.go:574-656 | from any well-formed record, with k requeues a life holds at most 12k claims and 12k recorded failures more than the current cycle still allows; attempts and failures on the record count them exactly |
| `LifecycleTraces.OneCycleBudget` | internal/credential/memory.go:714-728 | a life without requeue holds at most 12 claims and 12 failures |
| `LifecycleTraces.ClaimEpochsGrow` | internal/credential/memory.go:627-636 | the claim epoch grows by one per claim and by nothing else |
| `LifecycleTraces.FencedStepIsCurrent` | internal/credential/memory.go:1075-1089 | a heartbeat, completion, retry or hand-over is accepted only from the latest claim's worker, token and epoch, before it expires |
| `LifecycleTraces.SupersededFenceIsDead` | internal/credential/memory.go:1086-1089 | after a later claim no step of any life carries the earlier fence |
| `LifecycleTraces.CompletionsCounted` | internal/credential/memory.go:678-712 | completions and confirmations of a life are exactly what the record shows |
| `LifecycleTraces.RevokedOneWay` | internal/credential/memory.go:678-815 | a revoked record was completed by exactly one claim fence or confirmed by exactly two people, never both |
| `LifecycleTraces.ConfirmedManualOnlyRevokes` | internal/credential/memory.go:740-815 | with one confirmation the only possible step is the second confirmation, and it revokes |
| `LifecycleTraces.NotLiveStaysNotLive` | internal/credential/memory.go:271-335 | a record that is neither ANCHORED nor ACTIVE becomes so only through an anchor or an activation |
| `Management.ManageableExactly` | internal/credential/management.go:119-168 | a well-formed chronological record is accepted by ValidManagementRecord if and only if its identifiers are in management format and all its instants, the wait included, are whole microseconds |
| `Management.LifeSetsWait` | internal/credential/memory.go:557-728 | over a life on a microsecond clock the wait is odd if and only if the last request, requeue or retry was a retry with an odd delay |
| `Management.StepManageableExactly` | internal/credential/management.go:119-168 | any step on a chronological record, odd wait or not, leaves it accepted if and only if its clock reading is not behind creation and hand-over and it leaves no odd wait; the reading may have been taken before the lock |
| `Management.LifeDates` | internal/credential/memory.go:574-815 | over a life whose readings come in any order the record shows the last reading, the reading of the last hand-over and, if revoked, nothing after it |
| `Management.RetryManageableExactly` | internal/credential/memory.go:714-728 | after a retry the record is accepted if and only if the delay is a whole number of microseconds, whatever earlier delays were |
| `Ordering.BatchIsPrefix` | internal/credential/memory.go:389-406 | the batch is ascending, without repetition, and precedes everything it leaves out |
| `Ordering.AscendingIsBatch` | internal/credential/memory.go:594-606 | sorting all candidates and cutting at the limit gives the batch |
| `Ordering.SelectBatch` | internal/credential/memory.go:586-606 | collecting in any map order, sorting and truncating gives exactly the first limit candidates |
| `RepositoryRuns.MovesFit` | internal/credential/memory.go:82-815 | every call moves every record along a legal piece of its life, with the call's own clock readings and delay, and enlivens only through RecordAnchor and Activate |
| `RepositoryRuns.StoreAfter` | internal/credential/memory.go:122-168 | no call removes a record or an epoch, and only a creating Prepare adds one of each |
| `RepositoryRuns.CreatedExactly` | internal/credential/memory.go:122-168 | Prepare creates a record if and only if every check passes, identifier and action epoch are both new and a permit token is drawn |
| `RepositoryRuns.ConsistentAfter` | internal/credential/memory.go:82-815 | every call keeps all records well formed and records and action epochs in one-to-one correspondence |
| `RepositoryRuns.ConsistentRun` | internal/credential/memory.go:82-815 | the same over every sequence of calls |
| `RepositoryRuns.RunTrace` | internal/credential/memory.go:82-815 | whatever a run does to a record is one legal life of that record |
| `RepositorySafety.TimelyRun` | internal/credential/memory.go:82-815 | under a non-decreasing clock all timestamp orders hold in every reachable store |
| `ManagementRuns.EveryReachableRecordExactly` | internal/credential/management.go:119-168 | in every run on a non-decreasing microsecond clock a record passes ValidManagementRecord if and only if its identifiers are in management format and the last of its own effective requests, requeues and retries is not a retry with an odd delay |
| `ManagementRuns.EveryReachableRecordInAnyOrder` | internal/credential/management.go:119-168 | in every run on a microsecond clock whose readings come in any order a record passes ValidManagementRecord if and only if, besides, the last reading of its life is not behind its creation and that of its last hand-over lies between the two |
| `OddRetryRuns.OddRetryDelayIsRejected` | internal/credential/memory.go:82-728 | six successful calls from the empty repository - Prepare, AuthorizeChildCreate, RecordAnchor, RequestRevocation, ClaimRevocations, RetryRevocation with 5s + 1ns - leave a record that ValidManagementRecord rejects |
| `RepositorySafety.OnePermitPerEpoch` | internal/credential/memory.go:122-168 | in any run from any store at most one permit is returned per action and lease epoch |
| `RepositorySafety.OneRecordPerEpoch` | internal/credential/memory.go:122-149 | two records of one action epoch are the same record |
| `RepositorySafety.OneChildPerEpoch` | internal/credential/memory.go:201-219 | in any run at most one child creation is authorized per action and lease epoch |
| `RepositorySafety.MovesCountRequeues` | internal/credential/memory.go:740-766 | only RequeueManual on the record itself requeues it, once per call |
| `RepositorySafety.History` | internal/credential/memory.go:82-815 | every reachable record lived a legal life since the Prepare that created it, requeued only on request |
| `RepositorySafety.ReachableBudget` | internal/credential/memory.go:490-593 | in every run a record has at most 12 claims and 12 failures for each cycle opened by Prepare or RequeueManual, and a pending one has spent at most 11 of its cycle |
| `RepositorySafety.ReachableTerminal` | internal/credential/memory.go:361-815 | every reachable NO_CREDENTIAL record is safe to forget and every reachable REVOKED record has exactly one cause |
| `RepositorySafety.TerminalForever` | internal/credential/revocation.go:427-430 | no further calls change a terminal record |
| `RepositorySafety.SupersededFenceIsRefused` | internal/credential/memory.go:1075-1089 | once a record is claimed again, every heartbeat, completion, retry and hand-over under the earlier fence is decided as a stale claim, unless malformed, for the rest of every run |
| `RepositorySafety.CompletionReplays` | internal/credential/memory.go:692-702 | the completing fence may be replayed and finds the record unchanged; every other fence is stale |
| `RepositorySafety.SweepsAreDisjoint` | internal/credential/memory.go:499-593 | no record is in the batches of ClaimRevocations and RecoverExhausted at the same instant |
| `RepositorySafety.ClaimBatch` | internal/credential/memory.go:574-656 | a claim call changes nothing if any token or epoch fails, and otherwise exactly the first limit eligible records, each to REVOKING or MANUAL_REQUIRED under the next epoch |
| `RepositorySafety.ReplayFindsEpoch` | internal/credential/memory.go:122-149 | a replayed Prepare answers with the record of its own action epoch |
| `RepositorySafety.EpochKeyInjective` | internal/credential/memory.go:1148-1150 | different (action, epoch) pairs have different keys |
| `RepositorySafety.InspectionIsExact` | internal/credential/memory.go:833-854 | InspectCleanup never fails on a reachable store and reports exactly whether the action epoch has a record and whether that is terminal |
| `RepositorySafety.RollbackUnreachable` | internal/credential/memory.go:797-813 | the branch that would take a second confirmation back can never be entered |
| `RepositoryDecisions.Decided` | internal/credential/memory.go:171-815 | the decision on a one-record call alone fixes the store it leaves and what it returns |
| `RepositoryDecisions.ReplyShowsRecord` | internal/credential/memory.go:1136-1138 | a successful reply shows the record as the call left it |
| `RepositorySweeps.SweptIsAfter` | internal/credential/memory.go:379-656 | updating the chosen records one after the other gives the store predicted for the whole batch, since no record is chosen twice |
| `RepositorySweeps.ChosenIsDistinct` | internal/credential/memory.go:379-606 | a batch names only stored records and each at most once |
| `MemoryRepositories.ApplyRequestRevocation` | internal/credential/memory.go:557-572 | queues ANCHORED and ACTIVE records, leaves later statuses alone, rejects PREPARED and NO_CREDENTIAL |
| `MemoryRepositories.ApplyClaim` | internal/credential/memory.go:629-638 | the record a claim leaves, as the step that all results about lives speak of |
| `MemoryRepositories.ApplyCompletion` | internal/credential/memory.go:703-710 | the record a completion leaves, likewise |
| `MemoryRepositories.ApplyConfirmation` | internal/credential/memory.go:800-813 | records the confirmation; the second one, with an administrator among the two, revokes |
| `MemoryRepositories.AnchorRecord` | internal/credential/memory.go:253-299 | the anchor decision: replay, conflict, protection failure, and queueing when the fence is no longer current |
| `MemoryRepositories.ActivateRecord` | internal/credential/memory.go:326-353 | the activation decision, with the fence judged again after the change |
| `MemoryRepositories.MemoryRepository.Prepare` | internal/credential/memory.go:82-169 | exactly the model's store and reply: refusal, conflict, replay or one new record with its permit |
| `MemoryRepositories.MemoryRepository.AuthorizeChildCreate` | internal/credential/memory.go:171-232 | exactly the model's store and reply: the gate's error, a stale fence or permit, a wrong status, a second authorization, a window too short, or the granted TTL |
| `MemoryRepositories.MemoryRepository.RecordAnchor` | internal/credential/memory.go:234-305 | exactly the model's store and reply, so a commit followed by a gate error is a change with an error |
| `MemoryRepositories.MemoryRepository.Activate` | internal/credential/memory.go:307-359 | exactly the model's store and reply, including the two-step life of an activation whose fence has run out |
| `MemoryRepositories.MemoryRepository.RecordNoCredential` | internal/credential/memory.go:361-377 | exactly the model's store and reply; refused once a child was authorized |
| `MemoryRepositories.MemoryRepository.RequestRevocation` | internal/credential/memory.go:532-555 | exactly the model's store and reply, with and without a fence |
| `MemoryRepositories.MemoryRepository.Heartbeat` | internal/credential/memory.go:658-676 | exactly the model's store and reply; only the holder of the claim extends it |
| `MemoryRepositories.MemoryRepository.CompleteRevocation` | internal/credential/memory.go:678-712 | exactly the model's store and reply, replay of the completing fence included |
| `MemoryRepositories.MemoryRepository.RetryRevocation` | internal/credential/memory.go:714-728 | exactly the model's store and reply, pending or manual as the budget decides |
| `MemoryRepositories.MemoryRepository.RequireManual` | internal/credential/memory.go:730-738 | exactly the model's store and reply |
| `MemoryRepositories.MemoryRepository.RequeueManual` | internal/credential/memory.go:740-766 | exactly the model's store and reply; a new cycle, refused after a confirmation |
| `MemoryRepositories.MemoryRepository.SubmitExternalConfirmation` | internal/credential/memory.go:768-815 | exactly the model's store and reply, which has no rollback branch; the code's branch is proved dead |
| `MemoryRepositories.MemoryRepository.Choose` | internal/credential/memory.go:389-406 | selects the batch out of the live map |
| `MemoryRepositories.MemoryRepository.RecoverPrepared` | internal/credential/memory.go:379-414 | the loop over the batch leaves the store of the whole sweep and returns its records in order |
| `MemoryRepositories.MemoryRepository.RecoverExhausted` | internal/credential/memory.go:490-530 | likewise for exhausted records |
| `MemoryRepositories.MemoryRepository.ClaimRevocations` | internal/credential/memory.go:574-656 | its two loops leave the store of the whole sweep, or the old one, and return the claims in order |
| `MemoryRepositories.MemoryRepository.PrepareClaims` | internal/credential/memory.go:607-625 | first phase: every token and epoch is checked before anything changes |
| `MemoryRepositories.MemoryRepository.RecoverManaged` | internal/credential/memory.go:416-488 | single recoveries over the records managed at the start, in order, with calls of others between its locked sections, up to the limit or the first gate error, returning exactly the records that the turns before changed |
| `MemoryRepositories.MemoryRepository.RecoverOne` | internal/credential/memory.go:455-478 | one locked recovery: the model's store, the gate's error, or the changed record if there is one; a record that is gone, like one that is current, is no change and no error |
| `MemoryRepositories.MemoryRepository.Perform` | internal/credential/memory.go:82-815 | any call leaves the store that the model predicts |
| `MemoryRepositories.MemoryRepository.PerformAll` | internal/credential/memory.go:82-815 | any sequence of calls leaves the store of the corresponding run |
| `BrokerChecks.DurableCredentialExpiry` | internal/credential/durable_broker.go:758-779 | the greatest whole microsecond within profile TTL, requested TTL and policy, or nothing exactly if less than the reserve plus one second remains |
| `BrokerAgreement.DeadlineIsAdmitted` | internal/credential/memory.go:86-117 | a deadline the broker computed at an earlier reading of one clock is never refused by Prepare while the action resolves and outlives it |
| `BrokerAgreement.PreparedIsAccepted` | internal/credential/durable_broker.go:789-800 | every record Prepare creates for a matching selection passes validPreparedResult |
| `BrokerReplies.AuthorizationIsAccepted` | internal/credential/durable_broker.go:802-817 | whatever others call after Prepare on one clock, an AuthorizeChildCreate reply that is no error finds the record as Prepare left it and passes validChildCreateAuthorization |
| `BrokerReplies.AnchorIsAccepted` | internal/credential/durable_broker.go:829-839 | whatever others call after the authorization, a RecordAnchor reply that is no error finds the record untouched and passes validAnchoredResult if and only if the fence shown to the call was current at its first reading and, with margin, at its last |
| `BrokerReplies.ActivationIsAccepted` | internal/credential/durable_broker.go:841-851 | an Activate reply passes validActiveResult if and only if nobody has touched the record since the anchor and the fence shown to the call was current at both readings |
| `BrokerReplies.NoCredentialIsAccepted` | internal/credential/durable_broker.go:904-910 | as long as nobody else holds the permit, every RecordNoCredential reply that is no error passes validNoCredentialResult, whatever was called since Prepare |
| `BrokerReplies.RequestedIsAccepted` | internal/credential/durable_broker.go:912-930 | whatever was called since the record was ACTIVE, the system's RequestRevocation succeeds and passes validRequestedRevocation |
| `BrokerReplies.AuthorizationIsGranted` | internal/credential/memory.go:171-232 | on a record as Prepare left it, a call with its permit and fence, current for long enough, is granted, and the broker accepts the grant |
| `BrokerReplies.AnchorIsGranted` | internal/credential/memory.go:234-305 | on an authorized record an anchor under the current fence succeeds, and the broker accepts the reply |
| `BrokerReplies.ActivationIsGranted` | internal/credential/memory.go:307-359 | on an anchored record an activation under the current fence succeeds, and the broker accepts the reply |
| `IssuanceSafety.StrangerIsRefused` | internal/credential/memory.go:1025-1028 | an anchor or activation under any fence but the record's own moves nothing |
| `IssuanceSafety.ForeignKeepsQuiescent` | internal/credential/memory.go:234-359 | in every run of calls under whatever fences but the action's own, anchors and activations included, a record that is not live never becomes live |
| `IssuanceSafety.IntentStops` | internal/credential/durable_broker.go:718-729 | once the revocation intent is persisted the record is neither ANCHORED nor ACTIVE |
| `IssuanceSafety.ActivatedFromAnchored` | internal/credential/memory.go:326-340 | an activation that turns a record ACTIVE found it ANCHORED |
| `DurableBrokers.DurableBroker.Prepare` | internal/credential/durable_broker.go:251-303 | returns a handle only for a record this call created, in a fresh unshared state, pristine and with a deadline within all limits; refusals before the repository change nothing; and it does return one if the action resolves, fits the selection and outlives the deadline and nothing was prepared before |
| `DurableBrokers.DurableBroker.Consume` | internal/credential/durable_broker.go:314-341 | a handle is consumed at most once over all its copies, and is if it is this broker's, unaltered and unused; a refused consumption changes nothing |
| `DurableBrokers.DurableBroker.PersistIntent` | internal/credential/durable_broker.go:718-729 | leaves the record not live whenever a context can be made |
| `DurableBrokers.DurableBroker.HandOver` | internal/credential/durable_broker.go:449-475 | activates and builds the credential, or persists the intent |
| `DurableBrokers.DurableBroker.IssueDynamic` | internal/credential/durable_broker.go:432-475 | as Issue, from the inspected child on |
| `DurableBrokers.DurableBroker.AnchorChecked` | internal/credential/durable_broker.go:400-431 | anchors the child and checks reply, child and inspection, or persists the intent |
| `DurableBrokers.DurableBroker.IssueWithChild` | internal/credential/durable_broker.go:390-475 | as Issue, from the created child on |
| `DurableBrokers.DurableBroker.IssueConsumed` | internal/credential/durable_broker.go:358-475 | as Issue, once the handle is consumed |
| `DurableBrokers.DurableBroker.Issue` | internal/credential/durable_broker.go:343-476 | every run destroys child token and accessor; a used, foreign or altered handle changes nothing; a failed run also destroys the secret and leaves the record neither ANCHORED nor ACTIVE if the intent could be persisted, whatever others call under other fences; a successful one returns the record just made ACTIVE by it, three versions after Prepare's, and a secret within child, credential, policy and requested deadlines; and it does succeed on one clock with a fence that stays current, an honest issuer, no cancellation and nobody else at the record |
| `DurableBrokers.DurableBroker.RecordNoCredential` | internal/credential/durable_broker.go:478-501 | consumes the handle and succeeds only with a NO_CREDENTIAL record; as long as the permit has not left the handle it succeeds if and only if the repository's reply is no error |
| `DurableBrokers.DurableBroker.RequestRevocation` | internal/credential/durable_broker.go:668-716 | destroys the local secret first in every case, caches the first accepted answer and returns only that one from then on; on a credential once ACTIVE it succeeds |
| `OwedIssues.CredentialIsOwed` | internal/credential/durable_broker.go:343-476 | after a Prepare on an empty repository there are surroundings under which Issue must succeed |
| `RevocationFlights.OneResult` | internal/credential/durable_broker.go:668-716 | over every interleaving of callers on copies of one credential, all that succeed are returned the one cached result, the secret is gone, and no repository call runs any more |
| `RevocationFlights.OneCallAtATime` | internal/credential/durable_broker.go:676-716 | at most one repository call runs at a time, and none once a result is cached |
| `RevocationFlights.WaiterHasFlight` | internal/credential/durable_broker.go:681-690 | a caller that waits on the channel of a flight and cannot go on waits for the caller of that very flight, which can |
| `CleanupSteps.StepKeeps` | internal/discoverycleanup/broker.go:166-623 | every locked section and every start and end of an outside call keeps the ownership invariant: one worker per attempt, one owner per handle, somebody at work for everybody who waits, the WaitGroup equal to the callers inside |
| `CleanupSteps.RunKeeps` | internal/discoverycleanup/broker.go:166-623 | the same over every interleaving |
| `CleanupSteps.AllQuiet` | internal/discoverycleanup/broker.go:599-613 | when the WaitGroup is empty no caller works on any attempt, owns any handle or runs anything on one |
| `CleanupResults.EveryHandleIsOwned` | internal/discoverycleanup/broker.go:216-623 | in every interleaving a handle's Revoke is called at most once and never during BindRuntime, its Destroy at most once and never during either, and every Destroy has been called once and has returned when the broker's Destroy returns |
| `CleanupResults.OneOpenPerAttempt` | internal/discoverycleanup/broker.go:179-222 | one OpenSession call per attempt identifier |
| `CleanupResults.AnswersAgree` | internal/discoverycleanup/broker.go:389-498 | any two RevokeAttempt replies for one attempt that carry a proof or a signing error are equal, for the caller that did the work, those that waited and those that came later |
| `CleanupResults.RepliesBeforeDestroy` | internal/discoverycleanup/broker.go:389-498 | before Destroy a reply is the attempt's one verdict unless the caller's own context ended or the attempt was unknown |
| `CleanupResults.UnknownMeansUnopened` | internal/discoverycleanup/broker.go:407-411 | only an attempt that was never opened is answered as unknown |
| `CleanupResults.RevokedMeansBoth` | internal/discoverycleanup/broker.go:457-474 | a proof on record names the attempt's own request, and says REVOKED only if the session opened and its revocation succeeded |
| `CleanupResults.EveryReplyVerifies` | internal/discoverycleanup/broker.go:503-578 | with a correct authority every proof RevokeAttempt ever returns is accepted by VerifyCleanupProof |
| `CleanupProgress.WaiterHasWorker` | internal/discoverycleanup/broker.go:190-197 | a caller blocked on openDone, bindDone or revokeDone of a living broker waits for a caller that is at work on that very attempt and can take its next step |
| `CleanupProgress.DestroyHasWork` | internal/discoverycleanup/broker.go:583-623 | until Destroy has returned, its caller or one it waits for can take a step |
| `CleanupProgress.NoDeadlock` | internal/discoverycleanup/broker.go:166-623 | whoever cannot go on, a second Destroy included, waits for somebody who can |
| `CleanupProgress.DestroyIsBounded` | internal/discoverycleanup/broker.go:583-623 | once Destroy has begun, operations and Destroy take no more steps than the work then left, however many callers keep coming, and when they have taken them Destroy has returned |
| `CleanupProofs.IssuedProofVerifies` | internal/discoverycleanup/broker.go:503-578 | with a correct authority every issued proof is accepted by VerifyCleanupProof |
| `CleanupProofs.ProofBytesInjective` | internal/discoverycleanup/broker.go:741-770 | the signed bytes determine every coordinate and the status |
| `AttemptSessions.StepKeeps` | internal/discoveryworker/attempt_session.go:245-823 | every locked section and every start and end of an outside call by opener, resolver, revoker and destroyer keeps one owner for lifecycle and lease |
| `AttemptSessions.LifecycleHasOneOwner` | internal/discoveryworker/attempt_session.go:245-1066 | over every interleaving the lifecycle is never lost, Destroy is called on it at most once and never during Revoke, Revoke never twice at a time, likewise for the lease; all are gone when the cell is closed and everybody has left |
| `AttemptSessions.SuccessMeansBothRevoked` | internal/discoveryworker/attempt_session.go:696-769 | a successful Revoke means that the transport and the installed lifecycle were revoked and both are destroyed |
| `AttemptSessions.DestroyReturnsWhen` | internal/discoveryworker/attempt_session.go:771-813 | a destroy call that finds the cell closed returns with everything destroyed if and only if no other destroy call is still at it |
| `AttemptSessions.DestroyMayReturnEarly` | internal/discoveryworker/attempt_session.go:787-790 | and the other case happens: after a failed OpenSession a second destroy call returns while the first still holds the lease |
| `AttemptSessions.ClosedStays` | internal/discoveryworker/attempt_session.go:526-565 | what a destroy call found stays so, hence for all cells once the authority has gone through them |
| `RecoverySessions.LeaseHasOneOwner` | internal/discoveryworker/attempt_session.go:838-928 | a recovered session's lease is destroyed at most once, never while the transport revokes it, and exactly once when closed and left |
| `RecoverySessions.DestroyReturnsWhen` | internal/discoveryworker/attempt_session.go:892-928 | a destroy call that finds a recovered cell closed returns with the lease destroyed if and only if neither a successful revocation nor another destroy call is still at it |
| `RecoverySessions.DestroyMayReturnEarly` | internal/discoveryworker/attempt_session.go:869-889 | and both cases happen: the revoking flag is given up before the lease is destroyed, and a second destroy call does not wait for the first |
| `RecoverySessions.ClosedStays` | internal/discoveryworker/attempt_session.go:526-565 | a closed recovered cell stays closed through every further run |
| `AttemptSessions.CallerFalls` | internal/discoveryworker/attempt_session.go:696-813 | every step inside revoke and destroy uses up work of which a cell has a fixed amount, and a cell in which a revocation has run sees no other one |
| `SessionCallers.StepKeeps` | internal/discoveryworker/attempt_session.go:696-928 | with any number of callers of revoke and destroy on an initial or recovered cell, at most one is at work, one is while the cell is revoking, and waiters wait for the one revocation the cell will ever see |
| `SessionCallers.FreshCells` | internal/discoveryworker/attempt_session.go:826-836 | a cell just opened or recovered, with nobody calling, is such a state, so what follows holds in every run from there |
| `SessionCallers.CallerHasWork` | internal/discoveryworker/attempt_session.go:707-716 | as long as a call has not returned, it can take a step, or the caller at work it waits for can |
| `SessionCallers.CallIsBounded` | internal/discoveryworker/attempt_session.go:696-928 | a call returns after at most eighteen steps of its own and of whoever is at work, however many other callers come |
| `SessionCallers.DestroyCloses` | internal/discoveryworker/attempt_session.go:771-813 | a destroy call returns with the cell closed and nobody revoking |
| `SessionShutdowns.BeginsSound` | internal/discoveryworker/attempt_session.go:526-553 | the authority's Destroy may find its cells in whatever states their callers have left them |
| `SessionShutdowns.ShutdownHasWork` | internal/discoveryworker/attempt_session.go:526-565 | until the authority's Destroy has been through all its cells, it or the caller at work it waits for can take a step |
| `SessionShutdowns.ShutdownIsBounded` | internal/discoveryworker/attempt_session.go:526-565 | the authority's Destroy returns after at most twenty such steps per cell, initial or recovered, however many callers keep coming, and then every cell is closed |
| `Framing.FramesRoundTrip` | internal/assetcatalog/validation.go:479-493 | decoding gives back any sequence of frames, telling missing from empty |
| `Framing.FramesInjective` | internal/assetcatalog/validation.go:479-493 | equal bytes come from equal frames |
| `Framing.WriteFrames` | internal/assetcatalog/validation.go:479-493 | the loop writes exactly the encoding |
| `Framing.TupleInjective` | internal/discoverycleanup/broker.go:756-770 | framed tuples are equal only if all fields are |
| `Framing.PrefixRoundTrip` | internal/discoverycheckpoint/codec.go:529-543 | the four length bytes determine any length below 2^32 |
| `SortedLists.NormalizeSet` | internal/assetcatalog/validation.go:1320-1330 | succeeds exactly if every value is valid, and then gives the one ascending listing of the set |
| `SortedLists.NormalizedExactly` | internal/assetcatalog/validation.go:1320-1330 | two lists normalize alike if and only if they are equal as sets |
| `SortedLists.BinarySearch` | internal/assetdiscovery/contracts.go:529-535 | decides membership on an ascending list |
| `SortedLists.ValidSortedUnique` | internal/assetdiscovery/contracts.go:491-501 | true exactly for bounded, strictly ascending lists of valid values |
| `QueryDigests.QueryDigest` | internal/assetcatalog/validation.go:1144-1187 | a digest exactly for valid queries whose cursor fits, taken of the framed fields |
| `QueryDigests.SameBytesExactly` | internal/assetcatalog/validation.go:1144-1187 | two valid queries feed the hash the same bytes if and only if scope, search, service, sort and access agree and the six filters are equal as sets |
| `QueryDigests.KindsAreSeparate` | internal/assetcatalog/validation.go:1144-1300 | list queries of different kinds never feed the hash the same bytes, whatever their fields |
| `Checkpoints.RoundTrip` | internal/discoverycheckpoint/codec.go:195-328 | a sealed checkpoint opens to itself under any keyring that retains the key |
| `Checkpoints.LargestEnvelope` | internal/discoverysource/contracts.go:25 | the envelope is 29 bytes longer; 65507 bytes is exactly what the 65536-byte maximum leaves room for |
| `Checkpoints.DomainsAreSeparate` | internal/discoverycheckpoint/codec.go:407-468 | associated data determines every coordinate, is never a replay message, and the derived keys have distinct infos |
| `Checkpoints.Keyring.New` | internal/discoverycheckpoint/codec.go:114-134 | a keyring exactly for an active key among retained, well-formed identifiers |
| `Checkpoints.Keyring.Destroy` | internal/discoverycheckpoint/codec.go:151-166 | forgets every key, once |
| `Checkpoints.CheckKeyID` | internal/discoverycheckpoint/codec.go:511-523 | the loop decides the identifier pattern |
| `Checkpoints.CheckpointCodec.Seal` | internal/discoverycheckpoint/codec.go:195-270 | the envelope built step by step, or the error, as specified |
| `Checkpoints.CheckpointCodec.Open` | internal/discoverycheckpoint/codec.go:272-328 | the checkpoint or the error, as specified |
| `Facts.ValidateFacts` | internal/assetdiscovery/contracts.go:105-148 | succeeds exactly on a valid policy, counts within limits, individually valid facts and identities distinct as tuples |
| `Facts.ValidateItems` | internal/assetdiscovery/contracts.go:117-127 | the key set finds a repetition exactly if two items share provider kind and external identifier |
| `Facts.ValidateRelations` | internal/assetdiscovery/contracts.go:129-146 | the same for the six-part identity of relations |
| `Facts.ValidatePolicy` | internal/assetdiscovery/contracts.go:150-181 | succeeds exactly on a valid policy |
| `Facts.ValidateProvenance` | internal/assetdiscovery/contracts.go:300-323 | succeeds exactly for valid entries of distinct fields that cover the required ones |
| `Facts.ValidateItem` | internal/assetdiscovery/contracts.go:183-223 | succeeds exactly on a valid item |
| `Facts.ValidateRelation` | internal/assetdiscovery/contracts.go:225-251 | succeeds exactly on a valid relation |
| `Facts.EnvironmentAllowed` | internal/assetdiscovery/contracts.go:529-535 | decides membership among the policy's environments |
| `RetryDelays.RetryUpperBound` | internal/credential/runner_revocation.go:285-300 | min(5s * 2^(attempt-1), 15m) for every attempt number, without exceeding the cap on the way |
| `RetryDelays.FullJitterRetryDelay` | internal/credential/runner_revocation.go:272-283 | a delay between 5s and the bound, the minimum if entropy fails |
| `RetryDelays.BoundDoubles` | internal/credential/runner_revocation.go:285-300 | the bound doubles with each attempt and reaches fifteen minutes at the ninth |
| `RetryDelays.SampledDelayIsAccepted` | internal/credential/memory.go:714-718 | RetryRevocation never refuses a sampled delay |
| `RetryDelays.SampledRetryIsManageableExactly` | internal/credential/runner_revocation.go:272-283 | a retry with a sampled delay leaves a record ValidManagementRecord accepts if and only if the drawn offset is a whole number of microseconds |

## Left out

- Contexts, cancellation inside the repository and deadlines of contexts: a canceled call returns early and changes nothing; the broker's cancellation points are in its script, the cleanup broker's are steps.
- Location and monotonic part of `time.Time`, and saturation of durations: instants are integers.
- Wrap-around of versions, attempts and failure counts at 2^63: they are unbounded; claim epochs have the code's own check.
- Order of clock readings and commits: a call is one atomic step that carries its readings, which may be in any order from call to call; results about timestamps assume they never run backwards; `EveryReachableRecordInAnyOrder` does not.
- `Get`, `List` and the order of confirmations in a result: reads without decisions.
- The runner-side claim and receipt checks of `runner_revocation.go`: flat comparisons.
- DurableBrokers.DurableBroker.RequestRevocation: models one call at a time; concurrent calls are the subject of RevocationFlights.
- PostgreSQL repositories, HTTP session transport, file loading, configuration and process hardening.
- Bodies of SHA-256, HMAC, AES-GCM, HKDF and signatures; the value of a replay identity beyond the bytes it is taken of.
- CleanupSteps.StepKeeps: does not model authentication of acknowledgement tickets; any caller may try to bind, which allows more runs than the code, and what OpenAttempt and BindAttemptRuntime return is not recorded.
- The map of cells in the session authority: Destroy starts from the list it has collected after waiting for OpenSession; the waiting itself is the guard that a cell has been published.
- `ActiveKeyID` of the keyring: a getter.
- JSON documents, fingerprints, sensitive-text heuristics and Unicode classes in fact validation: opaque predicates.
- Facts.ValidatePolicy: states when a policy is refused, not with which of the error codes.
- Facts.ValidateItem: states when an item is refused, not with which of the error codes; documents, fingerprints and freshness are opaque.
- Facts.ValidateRelation: states when a relation is refused, not with which of the error codes.
- The fields of the other four query digests: same framing, fewer fields; only their separation is stated.
- Permission tables, catalog management, source and run shape predicates: flat validation.
