# Backend protocols of the desktop host, modelled and verified in Dafny

The desktop host runs a backend process between the user interface and the
supervisor that owns agent sessions. Eight of its protocols mix mutable state,
asynchronous continuations and interference from crashes, resets and duplicate
messages. Each is modelled here as a state machine over values whose steps are
cut at every `await`, message hop, timer and journal write, so that any other
step can fall in between. The classes update the same fields the code does, and
each of their methods is proved to take exactly the step of the machine. The
theorems are about the machine: over every run, from every reachable state.

- **Journaled revert** (`RevertJournal`, `RevertSafety`, `RevertTheorems`,
  `RevertGaps`, `RevertPurge`, `RevertHost`): provider rollback, file restore
  and transcript truncation under one durable row per operation key, whose
  settled and failed rows retention deletes when the database reopens.
- **Custody** (`RevertChain`, `DataCustody`, `RevertCustody`,
  `RevertCustodyHost`): the per-thread chain of accepted reverts, and any number
  of processes opening, building, closing and dying statement by statement on
  one data root behind its fence.
- **Canonical admission** (`CanonicalAdmission`, `...Proof`, `...Theorems`,
  `...Host`): reservations granted, delivered, resolved and released against a
  sender that may duplicate, reorder or mismatch anything.
- **Delegated-agent settlement** (`SettlementRecovery...`, `BootSettle...`):
  retries of captured ids across promise continuations, and the boot pass that
  folds uncommitted events over stored rows.
- **Native activity** (`ThreadActivity...`, `MainShell`): a coalescing producer,
  a FIFO channel, main's working set and the two power channels.
- **Job-object protocol** (`JobText`, `JobManager...`, `JobWire`, `JobLockstep`):
  both ends of the line protocol, their text, the incremental framer, and the
  two composed.
- **Procedure routing** (`RemotePayload...`, `RemoteRouting...`): payload
  transforms, the ownership analysis, and where a call is run.
- **Browser watch** (`BrowserWatch...`): a sequence-fenced proxy and the native
  watcher it drives.

Environment answers are parameters of the steps: what a provider call, a journal
write, a reservation, a gate or the operating system answers, and when a timer,
a crash or a process exit happens. `Orders` and `Wrappers` hold the insertion
order of maps and the option type.

## Where the code and its comments differ

- `src/backend/BackendHostCore.ts:645-646` says every phase write precedes its
  side effect. The truncation is journaled after it happened
  (`RevertGaps.InterruptedCutRunsAgain`), and a restore whose anchor write was
  refused is issued with an anchor the journal does not hold
  (`RevertGaps.UnjournaledRestoreHappens`). The model follows the code; the exact
  conditions are proved beside the runs that show it.
- `src/backend/BackendHostCore.ts:628-644` promises at most one provider rollback
  per operation key and verbatim replay of settled ones. Opening the database
  deletes settled and failed rows past their retention
  (`src/host/db/connection.ts:346-354`), after which the key is claimed afresh
  and the provider called again (`RevertPurge.PurgedKeyRollsBackTwice`). Both
  promises hold per claim and until the row is deleted; over a key's whole
  history at most once holds exactly until a reclaim
  (`RevertPurge.AtMostOncePerKeyExactlyWhen`).
- `src/backend/nativeThreadActivity.ts:33-37` argues reset safety from
  transitions alone. A change still pending arrives after the reset; it is the
  inactive events of the reset that overwrite it
  (`ThreadActivityTheorems.TransitionsAloneAreNotEnough`, `ResetClearsExactlyWhen`).
- `src/backend/delegatedAgentBootSettle.ts:109` says updates are folded as the
  writer applies them. The writer ignores a second start, drops the payload on an
  update without one, keeps updating completed rows and merges completion
  payloads; the fold does none of these (the four `...IsMissed` lemmas).

## Model

| member | source | states |
|---|---|---|
| RevertTheorems.ProviderRestoredAtMostOnce | src/backend/BackendHostCore.ts:782-866 | Over any run with aborts, crashes, reopened databases, refused writes and other threads: under each claim of an operation key, those whose row was deleted since included, at most one relative rollback is issued, all absolute restores carry one anchor, and the two modes never mix |
| RevertPurge.AtMostOncePerKeyExactlyWhen | src/host/db/connection.ts:346-354 | Over the whole history of a key the same holds until a reclaim, and an event endangers it exactly when it reclaims: a fresh claim, with turns to take back, of a key whose provider was called under a claim whose row retention deleted; some continuation of a reclaim breaks it, no other event's does |
| RevertPurge.AtMostOnceWhileNotReclaimed | src/host/db/connection.ts:346-354 | A history in which no such reclaim happens keeps at most once per key as a whole |
| RevertPurge.ReclaimedKeyIsCalledAgain | src/host/db/connection.ts:346-354 | After a reclaim, four steps with a provider that supports no anchors call it a second time |
| RevertPurge.PurgedKeyRollsBackTwice | src/host/db/connection.ts:346-354 | A run: rollback done, file restore failed, the failed row deleted by retention, and the retry of the same key rolls back again |
| RevertSafety.ModeMeaning | src/backend/BackendHostCore.ts:782-866 | The provider history the invariant tracks is the plain reading: counting rollbacks and collecting restored anchors over the log |
| RevertSafety.RestoredMeans | src/backend/BackendHostCore.ts:827-844 | The collected anchors are exactly those of the restores issued for the key |
| RevertTheorems.ProviderNeverPastFrozenTarget | src/backend/BackendHostCore.ts:782-866 | Under one claim, whichever subset of the issued calls took effect and however far the provider went on between them, it is never taken back past the claim's journaled turn count, or past the journaled anchor once the journal holds one |
| RevertTheorems.ClaimsAreFrozenAndSettledRowsFinal | src/backend/BackendHostCore.ts:628-653 | Unless a reopening deletes it, which never happens to a running row, a row stays, its thread, item, turn count, location and config stay as claimed, and once settled it never changes |
| RevertTheorems.SettledKeyReplays | src/backend/BackendHostCore.ts:718-748 | Once a key settled and until retention deletes its row, every later admitted retry for the same target answers with that very row, whatever happened since, and no retry changes anything |
| RevertTheorems.MemoryIsJournal | src/backend/BackendHostCore.ts:947-969 | In every reachable state an attempt's in-memory row is the journal row, it is unsettled, and no other attempt shares its key |
| RevertTheorems.EffectsFollowTheClaim | src/backend/BackendHostCore.ts:868-930 | Every effect saw an unsettled row and carried its frozen inputs; the transcript was cut only with the provider decided and the files restored or skipped; effects with no deletion of the row between them served one and the same claim |
| RevertTheorems.FaultFreeRetrySettles | src/backend/BackendHostCore.ts:687-930 | From any reachable world a fault-free retry of an unsettled row settles it, with the outcome its provider phase dictates |
| RevertTheorems.FaultFreeDriveSettles | src/backend/BackendHostCore.ts:782-930 | From any point of an attempt, fault-free steps leave the row with the outcome that point dictates, failed files included |
| RevertTheorems.EveryAttemptEnds | src/backend/BackendHostCore.ts:782-930 | Faults or not, an attempt ends within the rank of where it stands |
| RevertTheorems.FrozenCountIsWhatTheCutRemoves | src/host/db/checkpointRevertOperations.ts:174-208 | From a fresh claim to the cut under it: the provider is asked for the turns standing at the claim, the cut removes those standing at the cut, and over a transcript that only grew the two differ by exactly the turns completed in between; transcripts counted by assistant messages included |
| RevertGaps.RestoreIsJournaledFirstExactlyWhen | src/backend/BackendHostCore.ts:804-839 | A restore carries the anchor already journaled if and only if the anchor write of the plan before it was not refused |
| RevertGaps.UnjournaledRestoreHappens | src/backend/BackendHostCore.ts:804-839 | A run in which the anchor write is refused and the restore is issued with no anchor in the journal |
| RevertGaps.InterruptedCutRunsAgain | src/backend/BackendHostCore.ts:901-930 | An attempt that dies between the cut and its journal write leaves the cut to be done again; the second cut is harmless exactly when nothing was added in between |
| RevertHost.Host.BumpPhase | src/backend/BackendHostCore.ts:947-969 | A phase write updates the durable row and returns the same merge as the in-memory row, or changes neither |
| RevertHost.Host.BeginRevert | src/backend/BackendHostCore.ts:687-780 | Entry guards, missing-checkpoint handling and claim, state and reply as specified |
| RevertHost.Host.StepProvider | src/backend/BackendHostCore.ts:782-866 | The provider phase, one step per await or journal write, follows the state machine |
| RevertHost.Host.StepFiles | src/backend/BackendHostCore.ts:868-899 | The file phase follows the state machine |
| RevertHost.Host.StepTruncate | src/backend/BackendHostCore.ts:901-930 | Truncation and the settling write follow the state machine |
| RevertHost.Host.AbortAttempt | src/backend/BackendHostCore.ts:687-930 | An attempt that throws leaves journal and transcripts as they are |
| RevertHost.Host.Die | src/backend/BackendHostCore.ts:1008-1037 | Process death loses every attempt and keeps the journal |
| RevertHost.Host.ReopenExpiring | src/host/db/connection.ts:346-354 | Reopening starts without attempts and deletes a row past its retention unless it is running |
| RevertCustody.OneWriterPerDataRoot | src/backend/ownership/hostDataFence.ts:68-132 | Any number of processes on one data root, every statement of opening and closing a step, failures and deaths between any two: of the hosts that use the fence at most one has the database open at any moment, and it holds the fence |
| RevertCustody.DatabaseOpenOnlyUnderFence | src/backend/BackendHostCore.ts:201-399 | At every such moment the handle is open only while databaseOpen is set, and that only under the fence; a failed, closed or dead host holds none of the three, a refused close during construction keeps all of them |
| RevertCustody.RevertsRunUnderTheFence | src/backend/BackendHostCore.ts:654-685 | While a revert is under way its host has the database open under the fence and no other fenced host does |
| RevertCustody.ClosesOnlyAfterEveryAcceptedRevert | src/backend/BackendHostCore.ts:1008-1037 | A host that served closes its handle only once the supervisor joined and every revert it ever accepted has settled |
| RevertChain.JoinedMeansEveryAcceptedRevertSettled | src/backend/BackendHostCore.ts:990-1006 | A joined disposal has waited for every accepted revert, those still queued when it began included |
| RevertChain.RevertsRunOneAtATimeInAcceptanceOrder | src/backend/BackendHostCore.ts:654-685 | With or without a coordinator, and whatever order it calls back in: on one thread no two reverts are under way at once and phases run in acceptance order, by the chain of awaited predecessors alone |
| RevertChain.RefusalInTurnExactlyWhen | src/host/supervisor/SupervisorClient.ts:800-835 | Refusing a queued revert keeps the order exactly when everything accepted before it for its thread has settled, which is when the coordinator refuses |
| RevertChain.EarlyRefusalInterleaves | src/host/supervisor/SupervisorClient.ts:800-835 | A run in which a refusal out of turn lets one revert work between two phases of another |
| RevertChain.ClosingAdmitsNothing | src/backend/BackendHostCore.ts:654-676 | However the run goes on after disposal began, nothing more is accepted and no revert starts |
| RevertCustodyHost.BackendHost.constructor | src/backend/BackendHostCore.ts:201-399 | Fence, flag, handle, the rest; on failure handle, flag and fence again in the statements' order, unless the close is refused |
| RevertCustodyHost.BackendHost.RetryCloseDatabase | src/backend/BackendHostCore.ts:372-384 | The retained handle closes once a retry is no longer refused, then lets flag and fence go |
| RevertCustodyHost.BackendHost.PreviousHasSettled | src/backend/BackendHostCore.ts:672-676 | A callback runs, or refuses when closing, once the revert before it has settled |
| RevertCustodyHost.BackendHost.CalledBack | src/backend/BackendHostCore.ts:678-682 | The coordinator calls back, or the callback runs at once without one |
| RevertCustodyHost.BackendHost.RunPhase | src/backend/BackendHostCore.ts:687-930 | A phase of the revert under way |
| RevertCustodyHost.BackendHost.ForgetLock | src/backend/BackendHostCore.ts:665-670 | A settled revert removes its lock only while it is the last of its thread |
| RevertCustodyHost.BackendHost.SupervisorDisposed | src/backend/BackendHostCore.ts:997-998 | The supervisor client has joined |
| RevertCustodyHost.BackendHost.ContinuationsSettled | src/backend/BackendHostCore.ts:1000-1003 | With the client joined and the snapshot settled the host has joined |
| RevertCustodyHost.BackendHost.RevertCheckpoint | src/backend/BackendHostCore.ts:654-685 | Registers a revert behind the thread's previous one, refused once closing |
| RevertCustodyHost.BackendHost.DisposeSupervisor | src/backend/BackendHostCore.ts:990-1006 | Disposal snapshots the revert locks once |
| RevertCustodyHost.BackendHost.CloseDatabase | src/backend/BackendHostCore.ts:1008-1037 | Closing throws before the join; a refused drain keeps handle, flag and fence, which otherwise go in that order |
| CanonicalAdmissionTheorems.EveryLiveReservationHasOneHolder | src/backend/HostCanonicalAdmissionControl.ts:117-262 | Under any messages, notifications and port answers every live reservation is named by exactly one pending or retained grant of the current owner |
| CanonicalAdmissionTheorems.RetirementLeavesNothingLive | src/backend/HostCanonicalAdmissionControl.ts:278-291 | However the owner's run went, no reservation is live after its retirement |
| CanonicalAdmissionTheorems.RetiredGenerationChangesNothing | src/backend/HostCanonicalAdmissionControl.ts:117-118 | Removing every message of a generation that is retired and never negotiates again leaves the run unchanged |
| CanonicalAdmissionTheorems.TablesStayBoundedAndApart | src/backend/HostCanonicalAdmissionControl.ts:143-171 | Pending plus retained never exceed 256, neither does the replay cache; pending keys are apart from both; all keys are at most the last request number |
| CanonicalAdmissionTheorems.NoLostWake | src/backend/HostCanonicalAdmissionControl.ts:70-97 | A request without a grant that last asked before capacity was freed has a wake scheduled, while the observer stands |
| CanonicalAdmissionTheorems.AWakeReasksEveryWaitingRequest | src/backend/HostCanonicalAdmissionControl.ts:230-232 | Every request still waiting after a wake asked again knowing all capacity freed before it |
| CanonicalAdmissionTheorems.AdmittedAtMostOnce | src/backend/HostCanonicalAdmissionControl.ts:173-201 | Between two retirements no request number reaches the port's admit twice |
| CanonicalAdmissionTheorems.VerdictsAreFinal | src/backend/HostCanonicalAdmissionControl.ts:234-262 | Until the owner retires, a recorded verdict never changes |
| CanonicalAdmissionTheorems.OneOutcomePerRequest | src/backend/HostCanonicalAdmissionControl.ts:234-275 | No owner is sent two different outcomes of one request, invalid answers to mismatches aside |
| CanonicalAdmissionTheorems.CachedVerdictIsResent | src/backend/HostCanonicalAdmissionControl.ts:129-142 | A repeated message for a cached request gets the recorded verdict again, or invalid on a mismatch, whatever the port would have answered |
| CanonicalAdmissionTheorems.PublishedIsWhatWasAccepted | src/backend/HostCanonicalAdmissionControl.ts:182-201 | Per thread, what is published is the concatenation of the accepted prefixes in admission order |
| CanonicalAdmissionTheorems.AcceptedCountsArePublished | src/backend/HostCanonicalAdmissionControl.ts:182-201 | Over a whole run, the events published for a thread number exactly what the verdicts of its deliveries report as accepted |
| CanonicalAdmissionTheorems.DeliveryIsReported | src/backend/HostCanonicalAdmissionControl.ts:173-201 | A matching delivery is answered by one verdict that repeats the port's own accepted and refused counts |
| CanonicalAdmissionProof.RunKeepsInv | src/backend/HostCanonicalAdmissionControl.ts:54-291 | The invariant behind these holds after every event sequence |
| CanonicalAdmissionHost.HostCanonicalAdmissionControl.Finish | src/backend/HostCanonicalAdmissionControl.ts:234-262 | Moves a request to the resolved ones, retains its grant if asked, evicts the oldest verdicts in a loop, sends the verdict |
| CanonicalAdmissionHost.HostCanonicalAdmissionControl.Remember | src/backend/HostCanonicalAdmissionControl.ts:254-260 | Records a verdict in the replay cache and evicts the oldest ones while it is over its limit |
| CanonicalAdmissionHost.HostCanonicalAdmissionControl.TryGrant | src/backend/HostCanonicalAdmissionControl.ts:204-228 | Asks for a reservation: granted, blocked, or resolved invalid |
| CanonicalAdmissionHost.HostCanonicalAdmissionControl.Pump | src/backend/HostCanonicalAdmissionControl.ts:230-232 | The deferred wake visits every ungranted request |
| CanonicalAdmissionHost.HostCanonicalAdmissionControl.OnReset | src/backend/HostCanonicalAdmissionControl.ts:83-96 | A queue reset sends granted requests back, drops retained grants and schedules a wake |
| CanonicalAdmissionHost.HostCanonicalAdmissionControl.Handle | src/backend/HostCanonicalAdmissionControl.ts:117-202 | One message, every branch, as specified |
| CanonicalAdmissionHost.HostCanonicalAdmissionControl.RetireOwner | src/backend/HostCanonicalAdmissionControl.ts:278-291 | Releases what every grant names and forgets all bookkeeping |
| SettlementRecoveryTheorems.NothingIsStranded | src/backend/delegatedAgentSettlementRecovery.ts:94-142 | A thread left with captured ids and no attempt has a refusal on record, and the matching signal or acknowledgement retries all of its ids |
| SettlementRecoveryTheorems.OneAttemptPerThread | src/backend/delegatedAgentSettlementRecovery.ts:94-142 | No two unfinished attempts work on the same thread |
| SettlementRecoveryTheorems.AttemptsEnd | src/backend/delegatedAgentSettlementRecovery.ts:131-138 | A thread's attempts take at most six steps per capture, signal or acknowledgement: self-started retries end |
| SettlementRecoveryTheorems.OnlyReportedRowsAreSettled | src/backend/delegatedAgentSettlementRecovery.ts:40-49 | Whatever is settled or published was captured for that thread by a report of the run |
| SettlementRecoveryTheorems.ForgottenAttemptIsInert | src/backend/delegatedAgentSettlementRecovery.ts:58-62 | An attempt begun before a reset forgot its thread settles nothing at its gate and changes no set, refusal or publication, even if the same ids were captured again |
| SettlementRecoveryProof.RunKeepsInv | src/backend/delegatedAgentSettlementRecovery.ts:40-142 | The invariant behind these holds after every event sequence |
| SettlementRecoveryHost.DelegatedAgentSettlementRecovery.Capture | src/backend/delegatedAgentSettlementRecovery.ts:40-49 | Adds each batch to its thread's set in place, records the refusal, retries unless it is a gap |
| SettlementRecoveryHost.DelegatedAgentSettlementRecovery.RetryRefused | src/backend/delegatedAgentSettlementRecovery.ts:73-76 | A signal retries every thread refused for its reason |
| SettlementRecoveryHost.DelegatedAgentSettlementRecovery.Gate | src/backend/delegatedAgentBootSettle.ts:148-156 | At the gate an inactive attempt settles nothing |
| SettlementRecoveryHost.DelegatedAgentSettlementRecovery.Then | src/backend/delegatedAgentSettlementRecovery.ts:111-126 | Success removes what was captured at the start from the set, keeps later additions, publishes |
| SettlementRecoveryHost.DelegatedAgentSettlementRecovery.Catch | src/backend/delegatedAgentSettlementRecovery.ts:127-130 | Failure records its refusal on the current set only |
| SettlementRecoveryHost.DelegatedAgentSettlementRecovery.Finally | src/backend/delegatedAgentSettlementRecovery.ts:131-138 | The attempt is forgotten and goes on by itself only as specified |
| BootSettleTheorems.CaptureIsComplete | src/backend/delegatedAgentBootSettle.ts:82-115 | Over well-formed pending events, every row still orphaned once they are committed was captured |
| BootSettleTheorems.CaptureIsCompleteExactlyWhen | src/backend/delegatedAgentBootSettle.ts:81-130 | Whatever tools count as delegated agents, no orphan is missed exactly when the payload of each row left open was at some point remembered for it |
| BootSettleTheorems.CaptureIsCompleteForAClassifier | src/backend/delegatedAgentBootSettle.ts:81-130 | For the classifier at hand, no orphan is missed exactly when each row orphaned in the end had at some point a remembered payload that it calls orphaned |
| BootSettleTheorems.OnlyItsOwnEventsHideARow | src/backend/delegatedAgentBootSettle.ts:81-130 | A missed row had an event of its own that starts a tool call twice, updates one without a payload or once completed, or completes one as running; events of other rows never matter |
| BootSettleTheorems.BootSettlesExactlyTheOrphans | src/backend/delegatedAgentBootSettle.ts:117-145 | At boot a thread whose gate opens gets exactly its orphans settled |
| BootSettleTheorems.ResetSettlesTheUnfinishedOrphans | src/backend/delegatedAgentBootSettle.ts:117-145 | After a reset all unfinished orphans are settled; anything else settled is a captured row completed while still saying running |
| BootSettleTheorems.FinishedByThePrefixIsNotSettled | src/backend/delegatedAgentBootSettle.ts:58-73 | A run the prefix finished with success or error is never settled |
| BootSettleTheorems.PrefixIsPerThread | src/host/db/runtimeItemsWriter.ts:209-305 | A thread's gate commits its own rows exactly as the whole queue would, and no other row |
| BootSettleTheorems.OneEventIsMissedExactlyWhen | src/backend/delegatedAgentBootSettle.ts:102-115 | The exact condition under which a single pending event leaves an orphan uncaptured |
| BootSettleTheorems.SecondStartIsMissed | src/host/db/runtimeItemsWriter.ts:91-95 | A second start, ignored by the writer and folded by the capture, leaves an orphan uncaptured |
| BootSettleTheorems.PayloadlessUpdateIsMissed | src/host/db/runtimeItemsWriter.ts:381-385 | An update without a payload erases the stored one while the fold keeps it, and an orphan is missed |
| BootSettleTheorems.UpdateOfACompletedRowIsMissed | src/backend/delegatedAgentBootSettle.ts:107-113 | An update that makes a completed row say running again is not folded, and an orphan is missed |
| BootSettleTheorems.CompletionSayingRunningIsMissed | src/host/db/runtimeWriteQueue.ts:602-613 | A completion whose payload says running never reaches the fold, and an orphan is missed |
| BootSettle.CaptureCandidates | src/backend/delegatedAgentBootSettle.ts:85-115 | The two loops return exactly the folded captures, by thread, none empty |
| BootSettle.SettleCapturedRows | src/backend/delegatedAgentBootSettle.ts:58-73 | The loop emits one completion per captured orphan and leaves the table with exactly those rows settled |
| BootSettlePass.SettleCandidates | src/backend/delegatedAgentBootSettle.ts:117-145 | Every thread passes its own gate: refused ones are deferred with all their ids in order, every row ends as its own thread's gate left it |
| ThreadActivityTheorems.CoalescingKeepsTheMeaning | src/backend/nativeThreadActivity.ts:52-101 | For every interleaving of observing, flushing (observations inside emit included), sending and delivering, what main has plus what is on its way equals applying every event in order |
| ThreadActivityTheorems.QuietMainAgrees | src/main/desktopAppShell.ts:103-117 | With nothing on its way main's working set is that of the uncoalesced run |
| ThreadActivityTheorems.BatchesAreBoundedAndFlushesScheduled | src/backend/nativeThreadActivity.ts:64-101 | Messages carry between one change and the cap; pending work has a flush scheduled or under way |
| ThreadActivityTheorems.ResetClearsExactlyWhen | src/backend/index.ts:304-316 | After a reset nothing of the old supervisor remains on its way exactly when each thread still to be reported active has a stored row inside its turn |
| ThreadActivityTheorems.ResetSafety | src/backend/inactivateLiveThreads.ts:9-33 | With stored rows mirroring the last observed statuses, main ends with what the events since the reset say |
| ThreadActivityTheorems.TransitionsAloneAreNotEnough | src/backend/nativeThreadActivity.ts:33-37 | Without the inactive events a pending active change survives the reset |
| ThreadActivityTheorems.PowerFollowsThroughout | src/main/desktopAppShell.ts:70-141 | The power channels match the policy throughout the system |
| ThreadActivityHost.NativeThreadActivityProjection.Record | src/backend/nativeThreadActivity.ts:89-93 | Last writer wins per thread, first position kept, a flush scheduled |
| ThreadActivityHost.NativeThreadActivityProjection.Take | src/backend/nativeThreadActivity.ts:64-74 | The flush loop takes out the oldest changes up to the cap |
| ThreadActivityHost.NativeThreadActivityProjection.AfterEmit | src/backend/nativeThreadActivity.ts:75-79 | After emit, what is pending gets a flush |
| ThreadActivityHost.NativeThreadActivityProjection.ObserveInactivated | src/backend/inactivateLiveThreads.ts:21-31 | The reset observes one inactive event per stored row inside its turn |
| MainShell.PowerFollowsPolicy | src/main/desktopAppShell.ts:70-141 | Over any run of reactions an applied power value is the policy of the current set and settings, and no inhibitor is told the same value twice in a row |
| MainShell.LatePreparationFallsBehind | src/main/desktopAppShell.ts:193-208 | A first derivation before preparation can leave a channel behind |
| MainShell.DesktopShell.UpdatePowerSaveBlocker | src/main/desktopAppShell.ts:70-88 | Derives both channels and tells an inhibitor only on a change |
| MainShell.DesktopShell.SetComputerUseThreads | src/main/desktopAppShell.ts:90-94 | Replaces the set and derives both channels again |
| MainShell.DesktopShell.ResetThreadActivity | src/main/desktopAppShell.ts:124-129 | Clears the working set and derives both channels again |
| MainShell.DesktopShell.HandleSharedSettingsChanged | src/main/desktopAppShell.ts:131-141 | Adopts the committed settings before deriving |
| MainShell.DesktopShell.PrepareDesktopNativeShell | src/main/desktopAppShell.ts:193-208 | Preparation derives nothing |
| MainShell.DesktopShell.ApplyThreadActivity | src/main/desktopAppShell.ts:103-117 | The loop applies a batch in order and re-derives only if the set moved |
| MainShell.DesktopShell.AnyConditionMet | src/main/sleepPolicy.ts:16-33 | True exactly when some listed condition is met |
| JobManager.FramingIgnoresChunks | src/main/windowsNativeJobObject.ts:126-193 | For every cut of the helper's output into chunks, over-long frames included, phases, commands, settlement, membership and kill are those of the whole text |
| JobWire.OutputIsHeardReplyByReply | src/main/windowsNativeJobObject.ts:126-193 | However the pipe cuts the helper's output, the manager ends where hearing its replies one by one would have taken it, for replies whose numbers fit the helper's fields |
| JobManagerHost.ManagedHelper.Read | src/main/windowsNativeJobObject.ts:126-144 | The framing loop equals its recursive reading |
| JobManagerHost.ManagedHelper.Reply | src/main/windowsNativeJobObject.ts:146-193 | One reply, every branch, as specified |
| JobManagerHost.ManagedHelper.Fail | src/main/windowsNativeJobObject.ts:205-226 | Rejects; kills only a member never sent the assignment |
| JobManagerHost.ManagedHelper.Dispose | src/main/windowsNativeJobObject.ts:102-124 | Rejects what is pending and writes the close |
| JobText.ParseUndoesReply | src/shared/contracts/ptyJobOwner.ts:36-54 | Every reply line the helper emits reads back as itself, or is rejected if a number in it is zero |
| JobText.HelperReadsWhatTheManagerWrites | native/pty-job-owner/main.rs:145-154 | The helper understands a command line of the manager exactly when its numbers fit 32 bits |
| JobText.CommandsFitTheLineLimit | native/pty-job-owner/main.rs:133-144 | Such a line stays within the helper's 256 bytes |
| JobText.DecimalOfValue | src/shared/contracts/ptyJobOwner.ts:14-14 | For accepted numbers, comparing text is comparing values |
| JobLockstep.HelperSeesNoProtocolError | native/pty-job-owner/main.rs:237-302 | The helper never answers this manager with a protocol error; it refuses a line only for a disposal before the bind or a process id over 32 bits |
| JobLockstep.ResolvesOnlyWhenTheJobHoldsIt | src/main/windowsNativeJobObject.ts:178-186 | The promise resolves only when the helper's job was given this process and no other |
| JobLockstep.SettlesOnce | src/main/windowsNativeJobObject.ts:146-226 | A promise is settled at most once and stays as settled |
| JobLockstep.NoKillOnceAssignIsWritten | src/main/windowsNativeJobObject.ts:205-226 | A failure kills only a helper never sent the assignment; the one other kill follows the grace of a disposal that tried to close it, its promise settled by then |
| JobManagerHost.ManagedHelper.GraceOver | src/main/windowsNativeJobObject.ts:116-121 | The forced close after the grace kills a helper that is still there |
| JobLockstep.RetiredMeansEmpty | native/pty-job-owner/main.rs:163-183 | The retirement acknowledgment is sent only with nobody left in the job, descendants of the assigned process included |
| JobLockstep.CooperativeHandshakeResolves | src/main/windowsNativeJobObject.ts:146-193 | With a cooperating operating system the handshake resolves with the process in the job |
| RemoteRoutingTheorems.LocationOwnersOwnEverything | src/renderer/remoteProcedureRouter.ts:379-402 | A location-routed or skill-routed call goes to a desktop owning every recognised location at every depth |
| RemoteRoutingTheorems.SubjectOwnersOwnEverythingExactlyWhen | src/renderer/remoteProcedureRouter.ts:405-485 | A thread- or project-routed call's desktop owns every location exactly when its id is not empty or the payload names no owner |
| RemoteRoutingTheorems.EmptyDesktopIdIsUnsound | src/renderer/remoteProcedureRouter.ts:603-611 | With an empty desktop id, which the registered projection never answers with, a payload of another desktop passes |
| RemoteRoutingTheorems.OutgoingIsClean | src/renderer/remoteProcedureRouter.ts:180-192 | No recognised location of a routed payload still carries an owner |
| RemoteRoutingTheorems.MentionsResolve | src/renderer/remoteProcedureRouter.ts:426-447 | Segment by segment, a thread mention leaves as an id the chosen host resolves or as plain text, and other segments unchanged |
| RemoteRoutingTheorems.UnprojectUndoesProjection | src/renderer/state/remoteProjection.ts:29-38 | An id has a host part exactly when it is the projection of that part, and of no empty one |
| RemoteRoutingTheorems.NamedOwnersNeverRunLocally | src/renderer/remoteProcedureRouter.ts:385-475 | A call with a subject runs locally exactly when its payload names no remote owner and the host does not know the subject |
| RemoteRoutingTheorems.StampedLocalIsRoutedUnchanged | src/renderer/remoteProcedureRouter.ts:622-645 | A location-routed local payload, stamped, is routed to the stamping server with the payload it would have had locally, project id aside |
| RemoteRoutingTheorems.StampedThreadCallIsRoutedUnchanged | src/renderer/remoteProcedureRouter.ts:426-447 | A thread-routed local payload, stamped, is routed to its thread's desktop as if it held no location |
| RemoteRoutingTheorems.StampedProjectCallIsRoutedUnchanged | src/renderer/remoteProcedureRouter.ts:448-484 | A project-routed local payload, stamped, is routed to its project's desktop, project id aside unchanged |
| RemoteRoutingTheorems.StampedSkillCallIsRoutedUnchanged | src/renderer/remoteProcedureRouter.ts:379-402 | A skill-routed local payload, stamped, is routed to the stamping server unchanged |
| RemotePayloadLaws.UnprojectUndoesStamp | src/renderer/remoteProcedureRouter.ts:631-645 | Unprojecting after stamping is unprojecting, for every nested payload |
| RemotePayloadLaws.UnprojectIsIdempotent | src/renderer/remoteProcedureRouter.ts:180-192 | Unprojecting twice is unprojecting once |
| RemotePayloadLaws.StampIsIdempotent | src/renderer/remoteProcedureRouter.ts:631-645 | Stamping twice is stamping once |
| RemotePayloadLaws.UnchangedExactlyWhenClean | src/renderer/remoteProcedureRouter.ts:175-192 | Unprojecting changes nothing exactly when no recognised location has an owner field |
| RemotePayloadLaws.AnalysisMeansOwnership | src/renderer/remoteProcedureRouter.ts:584-601 | The analysis finds one server and nothing local exactly when that server owns every location |
| RemotePayloadLaws.StampedAnalysis | src/renderer/remoteProcedureRouter.ts:631-645 | Stamping hands every local location to the server and no other |
| RemotePayloadLaws.StampedLocalPasses | src/renderer/remoteProcedureRouter.ts:603-611 | A local payload once stamped passes the single-owner check |
| RemoteRouting.LocationAnalysis.Analyze | src/renderer/remoteProcedureRouter.ts:584-601 | The accumulator walk equals the analysis |
| BrowserWatch.QuietNativeMatchesSinks | src/backend/BackendRemoteBrowserProxy.ts:60-138 | When every request succeeds, at quiescence the native side watches exactly when sinks remain |
| BrowserWatch.StaleSettlementsChangeNothing | src/backend/BackendRemoteBrowserProxy.ts:104-119 | The settlement of a superseded start changes nothing |
| BrowserWatch.StopOnlyAfterStart | src/backend/BackendRemoteBrowserProxy.ts:129-138 | A stop is sent only when the last start or stop before it was a start |
| BrowserWatch.OneCurrentStart | src/backend/BackendRemoteBrowserProxy.ts:100-121 | At most one start request carries the current number |
| BrowserWatch.ActiveMeansWatching | src/main/desktopAppHostServices.ts:163-181 | The proxy believes it watches only while the native side does, failed starts included |
| BrowserWatch.FailedStartIsRetried | src/backend/BackendRemoteBrowserProxy.ts:69-79 | With sinks left and no start under way, the next watch or refresh sends a fresh start |
| BrowserWatchHost.BackendRemoteBrowserProxy.Refresh | src/backend/BackendRemoteBrowserProxy.ts:69-79 | Refreshes, or retries the start |
| BrowserWatchHost.BackendRemoteBrowserProxy.StartSettled | src/backend/BackendRemoteBrowserProxy.ts:104-120 | Only the latest request's settlement counts |
| BrowserWatchHost.BackendRemoteBrowserProxy.Unwatch | src/backend/BackendRemoteBrowserProxy.ts:63-66 | Releases the native watch with the last sink |

## Left out

- RevertGaps.InterruptedCutRunsAgain: which later items a provider or a user adds between the two cuts is any transcript that still holds the checkpoint.
- RevertChain.RevertsRunOneAtATimeInAcceptanceOrder: safety only; a revert whose thread id is empty is never called back, so it and a disposal waiting for it never settle.
- RevertChain.RefusalInTurnExactlyWhen: a client disposed under a host that is not closing, which refuses at once, does not arise from this host and is not modelled.
- RevertCustody.OneWriterPerDataRoot: hosts constructed without a fence path take part but nothing is promised of them; the lock behind the fence is taken to be exclusive and to end with its process.
- RevertPurge.AtMostOncePerKeyExactlyWhen: which rows are past their retention is any choice; ages and the clock are not modelled, and one opening that deletes several rows is several events in a row.
- RevertTheorems.FrozenCountIsWhatTheCutRemoves: the difference of the two counts is given for transcripts that only grew between claim and cut; for any other edit it is the two counts themselves.
- RevertTheorems.FaultFreeRetrySettles: the retry is one the entry guards admit; what they refuse (an open gap, a running agent) is a single flag.
- RevertTheorems.ProviderNeverPastFrozenTarget: provider positions are integers, an anchor decodes to one position and a provider only goes forward by itself; what a provider stores is opaque.
- CanonicalAdmissionTheorems.EveryLiveReservationHasOneHolder: the persistence queue is an honest port (fresh ids, acceptance only under a matching lease); an answer that is not is read as the nearest one that is.
- JobLockstep.HelperSeesNoProtocolError: nonces always match at this level; that the text of every message reads back as the message, and that reading the helper's output is hearing its replies, is proved in JobText and JobWire.
- JobText.HelperReadsWhatTheManagerWrites: process ids are written in plain decimal, so ids of 10^21 and more, which the code writes in exponent form and the helper refuses as well, are not rendered as the code renders them.
- BootSettleTheorems.CaptureIsComplete: a sufficient condition on the events alone; CaptureIsCompleteForAClassifier and CaptureIsCompleteExactlyWhen give exact ones in terms of what the fold remembered, and the IsMissed lemmas show each clause is needed.
- ThreadActivityTheorems.ResetSafety: the rows a reset reads are all stored threads, as the thread query returns them.
- RemoteRoutingTheorems.OutgoingIsClean: desktop-scoped calls forward their payload as it is and are not covered.
- Terminal routes are not checked against the locations of their payload in the code either; only their cleanliness and managed provenance are stated.
- SQLite, the persistence controller behind the gates, IPC framing and backpressure, child processes and Win32 calls: abstract answers with the contracts named above.
- Durations: a timeout is a step that may happen.
- The manager's set of helpers is a membership flag of each helper; captured sets carry a number where the code compares object identity.
- Payload contents beyond the fields a rule reads, error and status texts, diagnostics, warnings printed once per thread, localisation.
- The shared delegated-tool classifier is a parameter; stored payloads are maps from field names to text, and a field set to undefined is an absent field.
- Disposal of the activity projection and the shutdown sequence of the backend process (which services stop first) are not part of the system-level runs.
- Backend child exits, which clear main's working set through another path, and the browser gateway behind the native watcher.
- Registration of procedure hosts, the terminal ownership table and result projection in the router enter as parameters or are not modelled.
