# Verified models of oxid's hard parts

Dafny models, with proofs, of the parts of oxid that have to be right under crashes, races and hostile input:

- **DUST settlement recovery** (`RecoveryProtocol`, `RecoveryInvariant`, `RecoveryTheorems`, `RecoveryProgress`,
  `RecoveryAnswers`, `RecoveryRuns`, `RecoveryWedge`). The two-slot mailbox, the persistence worker, the waiting
  executor and the reject calls, as a transition system with one step per atomic action. Proofs are by inductive
  invariants over every interleaving.
- **The settlement executor** (`SettlementExecutor`, `SettlementInvariant`, `SettlementTheorems`, `SettlementChain`,
  `SettlementOrigins`, `SettlementRuns`) on top of that protocol: prepare, authorise, submit, observe and refresh, with
  arbitrary port answers, rebinds by other threads, futures dropped wherever they await, and restarts that keep only the
  store. Its theorems are about an event log of calls and raw answers.
- **DID deployment** (`DidOperation`, `DidDeployment`, `DidHistory`, `DidTheorems`, `DidProgress`, `DidLiveness`,
  `DidOutcomes`, `DidCourses`, `DidService`). The guarded operation record, the sixteen-iteration loop as a function of
  the port answers, histories of any number of runs each cut short anywhere, and the service as a class whose loop
  refines that function.
- **The standalone faucet** (`Faucet`, `Framing`, `HttpReader`, `HttpTheorems`, `HttpAcceptance`, `NightGrant`): receipt
  cache, newline framing, HTTP request reader and balance guard, each a class proved against a specification function.
- **Codecs** (`Codecs`): bounded hexadecimal and canonical 128-bit decimals.

`dafny verify dfyconfig.toml` checks the whole project.

## What the proofs found

These follow the code where its own expectations, or its documentation, say otherwise.

- A submission checkpoint that is saved and held but never claimed (its operation fails `validate_bound` before it
  waits, or is dropped while it waits) can block persistence for good; a retry that enqueues its record is enough
  (`RecoveryWedge.RetryWedgeIsReachable`). `ReleasableIff` gives the exact condition, in every reachable state, for a
  release to remain possible.
- A rebind to another identity that lands between an operation's reading of its preview and its check of `uncertain`
  reopens an unsettled submit (`SettlementRuns.RebindRaceHappens`).
- A prepare does not look at the binding again when its port returns. A rebind that lands on it leaves a draft prepared
  for one identity to be submitted for another (`SettlementRuns.PrepareOutlivesBinding`). This and a rebind on an
  operation carrying a draft are the only ways out of the binding (`SettlementTheorems.BindingSafetyIff`).
- The user's decision is documented as one for the exact retained preview, but is not tied to it: a prepare between the
  decision and its use moves it to another draft (`SettlementRuns.ConsentMovesToAnotherDraft`). That is the only way
  (`SettlementTheorems.AuthorisationIsConfirmed`).
- The uncertainty mark is not tied to a draft: once another draft is prepared, a cancellation of that one clears the
  mark a lost submit had left (`SettlementRuns.PrepareReplacesUncertainty`). Without a prepare in between this cannot
  happen (`SettlementTheorems.NoBlindResubmission`).
- The observation revision recovered at start-up never reaches a refresh: the first bind counts as a change of realm and
  drops it, so a refresh is refused until an observation is made anew (`SettlementChain.RefreshFollowsObservation`).
- A DID deployment whose submission was Rejected or Expired stays OutcomeUnknown: the run tries to pause it, which the
  operation type refuses (`DidTheorems.RejectionKeepsUnknown`).
- A DID deployment stored as Submitting, or paused there, cannot advance again, since the loop would take it back to
  Proving (`DidLiveness.ReadyIsReachableIff`). This is also what makes every effect be submitted at most once.
- The trailing Integrity error of the DID loop is not unreachable from every valid record, only from every record the
  workflow writes (`DidProgress.TrailingErrorIff`).
- The faucet's balance guard is lost when an attempt sees the lowered balance and then fails
  (`NightGrant.FailedSightLosesTheGuard`, `ConservationIff`).
- The HTTP reader takes a plus sign before the Content-Length digits, which section 8.6 of RFC 9110 does not allow
  (`HttpTheorems.PlusSignIff`, `PlusSignIsAccepted`).

## Model

| member | source | states |
|---|---|---|
| `RecoveryInvariant.StartInv` | crates/composition/src/dust_settlement.rs:477-597 | The state a process starts from, for any recovered record, satisfies the protocol invariant. |
| `RecoveryInvariant.CallerKeepsInv` | crates/composition/src/dust_settlement.rs:171-229 | Every atomic action of enqueueing and of rejecting, interleaved anywhere, keeps the invariant. |
| `RecoveryInvariant.WorkerKeepsInv` | crates/composition/src/dust_settlement.rs:85-166 | Every atomic action of the persistence worker, whether the store accepts the save or not, keeps the invariant. |
| `RecoveryInvariant.ExecutorKeepsInv` | crates/composition/src/dust_settlement.rs:231-318 | Every atomic action of waiting for a submission checkpoint, claiming it, dropping the guard and releasing keeps the invariant. |
| `RecoveryTheorems.ReachableInv` | crates/composition/src/dust_settlement.rs:85-318 | The invariant holds in every state any interleaving of the threads can reach. |
| `RecoveryTheorems.HeldIsStored` | crates/composition/src/dust_settlement.rs:118-150 | A held generation is exactly the stored and last persisted generation, and its record is Submitting. |
| `RecoveryTheorems.HoldFreezesStore` | crates/composition/src/dust_settlement.rs:85-150 | While a checkpoint is held, no step of any thread writes the store. |
| `RecoveryTheorems.GuardFreezesStore` | crates/composition/src/dust_settlement.rs:282-318 | Until the guard is dropped, the claimed checkpoint stays held and stays the stored record in every continuation. |
| `RecoveryTheorems.NoLostWakeUp` | crates/composition/src/dust_settlement.rs:85-100 | A worker blocked on an empty token channel with nobody about to send has a held checkpoint or an empty mailbox. |
| `RecoveryTheorems.NoLostNotification` | crates/composition/src/dust_settlement.rs:231-258 | A parked submission waiter whose answer is already available has been notified since it subscribed, or some thread is on its way to notify it. |
| `RecoveryProgress.LatestIsNotified` | crates/composition/src/dust_settlement.rs:260-280 | A caller waiting for the latest record that saw neither answer after subscribing has been notified by the time an answer is there, or the worker is about to notify it. |
| `RecoveryProgress.MailboxDrains` | crates/composition/src/dust_settlement.rs:85-166 | From every state with nothing held and the lock free, worker actions with successful saves, after at most the delivery of one owed token, empty the mailbox or hold a checkpoint. |
| `RecoveryTheorems.QuiescentStoresNewest` | crates/composition/src/dust_settlement.rs:95-163 | With the mailbox and the worker empty, the newest enqueued record is the stored one if and only if its own save did not fail. |
| `RecoveryTheorems.MailboxRefinesWriteThrough` | crates/composition/src/dust_settlement.rs:95-209 | Coalescing and submission-first priority refine writing through: at quiescence, unless the newest save failed, the store is what writing each record handed to a completed enqueue call, read off the steps alone, would have left. |
| `RecoveryTheorems.AcceptingRefinesWriteThrough` | crates/composition/src/dust_settlement.rs:95-209 | With a store that accepts every save this holds of every quiescent run, with no condition on the state. |
| `RecoveryAnswers.LatestIsAnswered` | crates/composition/src/dust_settlement.rs:95-163 | Once the mailbox is drained, the record announced last is published as persisted or as failed, and as persisted if its save did not fail. |
| `RecoveryAnswers.SubmissionIsAnswered` | crates/composition/src/dust_settlement.rs:95-163 | Once the mailbox is drained, the newest submission is published as failed, held, on its way to be held, or released. |
| `RecoveryAnswers.FailedIsNotDurable` | crates/composition/src/dust_settlement.rs:116-139 | Once the worker is done with a newest submission whose save failed, the durable flag is clear. |
| `RecoveryAnswers.WokenLooksOnce` | crates/composition/src/dust_settlement.rs:231-258 | A waiter that is woken looks once: it claims what is held, gives up on a failure, or parks until the next notification. |
| `RecoveryAnswers.AwaitLatestCoversEnqueued` | crates/composition/src/dust_settlement.rs:260-280 | When the wait for the latest record reports success, the stored record is, in every continuation, the last ordinary one enqueued before the call or one enqueued after that, counted by the steps. |
| `RecoveryAnswers.ClaimCoversEnqueued` | crates/composition/src/dust_settlement.rs:231-258 | If nothing was rejected before, a claimed record is Submitting and is the last submission enqueued before the target was loaded or one enqueued after that. |
| `RecoveryAnswers.RequiredIsNewest` | crates/composition/src/dust_settlement.rs:171-229 | A required generation that belongs to a record belongs to the newest submission placed, rejections or not. |
| `RecoveryTheorems.SubmissionIsNeverStale` | crates/composition/src/dust_settlement.rs:95-115 | A pending or compared submission checkpoint is always newer than the persisted generation, so the stale branch never skips one. |
| `RecoveryTheorems.SubmissionFate` | crates/composition/src/dust_settlement.rs:95-209 | Each submission checkpoint ever placed is on its way, saved, recorded as failed, or replaced by a newer submission. |
| `RecoveryTheorems.SavesIncrease` | crates/composition/src/dust_settlement.rs:101-163 | The generations saved over a whole run are strictly increasing. |
| `RecoveryTheorems.AwaitLatestIsDurable` | crates/composition/src/dust_settlement.rs:260-280 | When the wait for the latest record reports success, the persisted generation is, from then on for ever, at least the latest at the call. |
| `RecoveryTheorems.ClaimIsDurable` | crates/composition/src/dust_settlement.rs:231-258 | A claim hands out a checkpoint that is stored and at least as new as the one required. |
| `RecoveryWedge.WedgeIsForever` | crates/composition/src/dust_settlement.rs:85-318 | A hold nobody can claim any more freezes the store in every continuation. |
| `RecoveryWedge.ReleasableIff` | crates/composition/src/dust_settlement.rs:211-306 | In every reachable state, wherever the executor is, a hold can still be released if and only if a release is under way, or durable is set and the operation in flight, or one starting now or after a pending reject, is content with that generation. |
| `RecoveryRuns.HeldRun` | crates/composition/src/dust_settlement.rs:85-209 | From every state at rest a Submitting record can be enqueued, saved and held. |
| `RecoveryWedge.RetryWedgeIsReachable` | crates/composition/src/dust_settlement.rs:171-209 | For all Submitting records a run from the start (one saved and held but not claimed, the other enqueued by a retry) ends in a hold that is never released. |
| `RecoveryWedge.RejectWedgeIsReachable` | crates/composition/src/dust_settlement.rs:211-229 | For every Submitting record a run from the start (saved and held, then a reject call before it is claimed) ends in such a hold. |
| `SettlementInvariant.StepKeepsInv` | crates/composition/src/dust_settlement.rs:1022-1608 | Every step of the composed executor, of other threads, of the ports and of a restart keeps the joint invariant. |
| `SettlementTheorems.ReachableInv` | crates/composition/src/dust_settlement.rs:1022-1608 | The joint invariant holds in every reachable world: every interleaving, port answer, dropped future and restart. |
| `SettlementTheorems.PersistBeforeBroadcast` | crates/composition/src/dust_settlement.rs:1280-1384 | Whenever the submit port is being called, the store holds a Submitting record of the same identity and draft, under a held checkpoint. |
| `SettlementTheorems.BroadcastKeepsRecord` | crates/composition/src/dust_settlement.rs:1322-1384 | While that call is outstanding nothing other threads do, including rebinding, changes the stored record. |
| `SettlementTheorems.SettledBetween` | crates/composition/src/dust_settlement.rs:1322-1473 | Between any two submit calls there is a definite result, a cancellation seen for the draft last prepared by then, or a rebind or restart after the first was marked uncertain. |
| `SettlementTheorems.NoBlindResubmission` | crates/composition/src/dust_settlement.rs:1322-1473 | Two submit calls with no prepare in between send the same draft, and between them that very draft was definitely answered or seen cancelled without transaction, or a rebind landed on an operation carrying it. |
| `SettlementTheorems.RestartSafety` | crates/composition/src/dust_settlement.rs:1280-1321 | Every submit sends the draft the prepare port returned last, in the same process lifetime, with no rebind since but on an operation carrying a draft; automatic authority submits only for the undeployed realm. That it was also ready and authorised is the next two rows. |
| `SettlementTheorems.BroadcastIsReady` | crates/composition/src/dust_settlement.rs:1280-1321 | Of all port answers that set the retained preview, the last before a submit was for the draft submitted and said ready; under automatic authority it was on the undeployed network too. |
| `SettlementTheorems.BroadcastIsAuthorised` | crates/composition/src/dust_settlement.rs:1212-1321 | Unless a prepare or submit answer itself said ready, the draft submitted was asked to be authorised and was authorised after its last prepare, which under explicit authority used up a confirmation of its own. |
| `SettlementTheorems.AutomaticIsDevelopment` | crates/composition/src/dust_settlement.rs:1212-1278 | Automatic authority asks to authorise only for the undeployed realm, and only the preview shown last, on the undeployed network. |
| `SettlementOrigins.BroadcastWasEnqueued` | crates/composition/src/dust_settlement.rs:1280-1384 | Whenever the submit port is being called, the very Submitting record of that identity and draft was handed to an enqueue call, read off the steps, since the last restart. |
| `SettlementOrigins.ObservedIsKnown` | crates/composition/src/dust_settlement.rs:1475-1512 | Whenever a status is being observed, its draft was shown by a port, or is that of a record of the very identity that was enqueued or found at boot. |
| `SettlementOrigins.FailedReadStops` | crates/composition/src/dust_settlement.rs:1153-1170 | An operation whose read of the store fails ends there, calling no port and changing nothing. |
| `SettlementTheorems.BindingSafetyIff` | crates/composition/src/dust_settlement.rs:1172-1210 | A submit is made for the identity its draft was prepared for, in the binding the prepare returned in, if and only if the last prepare returned with its identity bound and no rebind has landed on an operation carrying a draft since. |
| `SettlementRuns.PrepareOutlivesBinding` | crates/composition/src/dust_settlement.rs:1201-1204 | A reachable run, for all pairs of identities: a rebind lands on the prepare of a draft for one identity, which is then authorised and submitted for the other. |
| `SettlementRuns.PrepareReplacesUncertainty` | crates/composition/src/dust_settlement.rs:1294-1333 | The mark of an uncertain submit is not tied to its draft: for all drafts d and e a reachable run loses the submit of d, prepares e, sees e cancelled and submits e, with nothing learnt of d. |
| `SettlementRuns.RebindReopensBroadcast` | crates/composition/src/dust_settlement.rs:1022-1043 | From every world past reading its preview with an exposed submit, a rebind leads to a second submit of the same draft with no status call. |
| `SettlementRuns.ExposedCheckIsReachable` | crates/composition/src/dust_settlement.rs:1280-1321 | Such worlds are reachable, for every identity and draft, by a submit that times out and is tried again. |
| `SettlementRuns.RebindRaceHappens` | crates/composition/src/dust_settlement.rs:1022-1043 | A reachable run submits one draft twice with nothing but the rebind and the mark in between. |
| `SettlementTheorems.RevisionsOrdered` | crates/composition/src/dust_settlement.rs:1119-1151 | The chain observation revision never exceeds the operation revision, including after recovery, rebinding and saturation. |
| `SettlementTheorems.RefreshIsNewer` | crates/composition/src/dust_settlement.rs:1562-1608 | A DUST-refresh completion carries a revision strictly newer than the observation it names if and only if that one is not saturated. |
| `SettlementChain.CompletionsIncrease` | crates/composition/src/dust_settlement.rs:1119-1138 | The revisions of the completions reported in one process lifetime strictly increase until they saturate. |
| `SettlementChain.FinalityOnce` | crates/composition/src/dust_settlement.rs:1475-1530 | Finality is reported only right after the status port said included, and between two reports a new transaction became known, or there was a rebind or a restart. |
| `SettlementChain.ReconciledAfterFinality` | crates/composition/src/dust_settlement.rs:1475-1560 | A reconciliation is reported only right after the reconcile port answered, or the status port said included when finality had been reported before in this lifetime. |
| `SettlementChain.RefreshFollowsObservation` | crates/composition/src/dust_settlement.rs:1128-1151 | A refresh reported names the observation it was asked for to follow, which is the last reported by then in that very binding: neither a recovered observation nor one of an earlier binding is ever followed. |
| `SettlementChain.RefreshKeepsBinding` | crates/composition/src/dust_settlement.rs:1578-1603 | Applying a refreshed realm that is still the bound one leaves binding, draft, decision, mark and log alone. |
| `SettlementRuns.ObservesStoredDraft` | crates/composition/src/dust_settlement.rs:1475-1512 | Wherever no preview is retained, an observation asks about the draft of the stored record of the bound identity. |
| `SettlementRuns.SubmitWithoutPreviewAsks` | crates/composition/src/dust_settlement.rs:1294-1318 | A submit that finds no draft retained asks for the status of its own draft, whatever the answer. |
| `SettlementRuns.RefreshCompletes` | crates/composition/src/dust_settlement.rs:1562-1608 | Where an observation was made in the binding, a refresh is reported, directly or after a synchronisation whose newer revision is taken over. |
| `SettlementRuns.FinalityPerBinding` | crates/composition/src/dust_settlement.rs:1022-1043 | A rebind makes finality news again: from every idle world, the next inclusion seen is reported as finality. |
| `SettlementTheorems.AuthorisationIsConfirmed` | crates/composition/src/dust_settlement.rs:1212-1278 | Under explicit authority each authorisation uses up its own affirmative confirmation with nothing staged, withdrawn, authorised, rebound or restarted in between, and that was given for the very draft authorised if and only if nothing was prepared after it. |
| `SettlementTheorems.AuthorisationsAreConfirmed` | crates/composition/src/dust_settlement.rs:1212-1278 | Under explicit authority, authorisation requests never outnumber affirmative confirmations staged. |
| `SettlementRuns.ConsentMovesToAnotherDraft` | crates/composition/src/dust_settlement.rs:1055-1064 | A reachable run, for all drafts d and e: a decision staged while d was retained authorises e, prepared in between. |
| `DidOperation.NewIsProduced` | crates/identity/application/src/deployment.rs:245-271 | A new operation is well formed: it passes the repository validation and carries only deterministic ids. |
| `DidOperation.ComposedIsProduced` | crates/identity/application/src/deployment.rs:393-415 | Recording a composed deployment keeps an operation well formed. |
| `DidOperation.PreparedIsProduced` | crates/identity/application/src/deployment.rs:421-438 | Recording a prepared later effect keeps an operation well formed. |
| `DidOperation.AdvanceIsProduced` | crates/identity/application/src/deployment.rs:440-460 | Moving on to Proving, Submitting or Ready keeps an operation well formed. |
| `DidOperation.ResumeIsProduced` | crates/identity/application/src/deployment.rs:440-460 | Resuming from a pause keeps an operation well formed. |
| `DidOperation.PausedIsProduced` | crates/identity/application/src/deployment.rs:462-481 | A retryable failure keeps an operation well formed, and what it resumes as is valid too. |
| `DidOperation.UnknownIsProduced` | crates/identity/application/src/deployment.rs:483-499 | Marking the outcome unknown keeps an operation well formed. |
| `DidOperation.IncludedIsProduced` | crates/identity/application/src/deployment.rs:501-542 | Inclusion appends exactly one receipt, for the current effect under its deterministic id, and moves to the next effect. |
| `DidOperation.ReceiptsGrow` | crates/identity/application/src/deployment.rs:646-672 | Appending the receipt of the current effect keeps the receipts the exact prefix of the effect order. |
| `DidOperation.RecordedStays` | crates/identity/application/src/deployment.rs:393-438 | No update of any record, valid or not, replaces a DID or submission id already recorded. |
| `DidOperation.UnknownWaits` | crates/identity/application/src/deployment.rs:440-499 | No update takes an unknown outcome anywhere but to Confirming, and none pauses it. |
| `DidHistory.IterationOk` | crates/composition/src/did_deployment.rs:474-578 | From every stored state, for every port answer, one iteration performs only legal writes, submissions and queries. |
| `DidHistory.RunOk` | crates/composition/src/did_deployment.rs:454-596 | So does a whole run, including one that creates the operation. |
| `DidTheorems.HistoryIsLegal` | crates/composition/src/did_deployment.rs:454-580 | Any sequence of runs, each cut off after any of its inputs and outputs, is legal and leaves a well-formed record. |
| `DidTheorems.SubmissionsAreWrittenAhead` | crates/composition/src/did_deployment.rs:546-565 | Across all such histories, every submission is directly preceded by the durable write of that operation in Submitting under its deterministic id. |
| `DidTheorems.EffectsAreSubmittedOnceInOrder` | crates/composition/src/did_deployment.rs:474-578 | The submissions ever made are a prefix of the eight effects: each at most once and in order, whatever fails or restarts. |
| `DidTheorems.ReadyMeansEachEffectOnce` | crates/composition/src/did_deployment.rs:643-667 | A record stored as Ready stands for exactly one submission and one receipt of each effect, in order, each under its own id. That it was also resolved is DidOutcomes.ReadyIsResolved. |
| `DidTheorems.UnknownIsNeverResubmitted` | crates/composition/src/did_deployment.rs:478-484 | After an operation is stored as OutcomeUnknown, no later run ever submits its effect again. |
| `DidTheorems.RejectionKeepsUnknown` | crates/composition/src/did_deployment.rs:634-640 | A status of Rejected or Expired makes the run fail and leaves the record OutcomeUnknown: the pause it tries is not a permitted update. |
| `DidTheorems.UnknownLeavesOnlyByInclusion` | crates/composition/src/did_deployment.rs:598-633 | Only a report of inclusion moves an unknown outcome on, and then by one receipt for that very effect. |
| `DidTheorems.SubmissionIdsAreDistinct` | crates/composition/src/did_deployment.rs:742-748 | Different operations or different effects never share a submission id. |
| `DidOutcomes.IterationAccounted` | crates/composition/src/did_deployment.rs:474-578 | Every record an iteration writes is explained, field by field, by the record before it and by what the ports answered in that iteration. |
| `DidOutcomes.WritesAreExplained` | crates/composition/src/did_deployment.rs:454-596 | So is every write of every history of runs and crashes: the first by a request, each later one by some answer. |
| `DidOutcomes.ReadyIsResolved` | crates/composition/src/did_deployment.rs:643-667 | Across all histories a record is written as Ready only over the same record in Resolving, on a matching resolution. |
| `DidOutcomes.ResolutionPauses` | crates/composition/src/did_deployment.rs:643-680 | Whatever is written over a record in Resolving is Ready exactly for a matching resolution, and otherwise a pause that resumes there, with the unavailable failure for a resolver that is down and the mismatch failure for a mismatch. |
| `DidOutcomes.ReceiptsAreReported` | crates/composition/src/did_deployment.rs:555-633 | Every receipt of a stored record is an inclusion that the submission or the status port reported: its transaction, block and height, as lower-case hex. |
| `DidOutcomes.RecordsMoveForward` | crates/composition/src/did_deployment.rs:454-580 | Later records keep id, profile, network, creation time and DID, extend the receipts, and never go back in time or effect. |
| `DidOutcomes.FreshIdsAreDistinct` | crates/composition/src/did_deployment.rs:582-596 | Operations created from different random bytes have different ids. |
| `DidCourses.IterationCourse` | crates/composition/src/did_deployment.rs:474-578 | For every stored record and every port answer, if clock and repository do not fail, an iteration writes, submits, asks and ends exactly as a table of phase and answer says. |
| `DidCourses.RunBegins` | crates/composition/src/did_deployment.rs:454-472 | Which requests are refused before the loop and with which error, and that others start from the stored or a newly created record. |
| `DidProgress.IterationDescends` | crates/composition/src/did_deployment.rs:474-578 | Every iteration that goes round again has fewer effects left or has just left a pause. |
| `DidProgress.TrailingErrorIff` | crates/composition/src/did_deployment.rs:474-579 | The trailing Integrity error is reachable from a valid stored operation if and only if that is a retryable failure resuming as itself. |
| `DidProgress.TenIterationsSuffice` | crates/composition/src/did_deployment.rs:474-579 | From every record the workflow stores, the answer of sixteen iterations is that of ten, so the trailing error is never reached. |
| `DidLiveness.BlockedIsForever` | crates/composition/src/did_deployment.rs:546-565 | An operation stored as Submitting, or paused there, or whose expiry overflows before a submission it still needs, is never submitted or unblocked by any run. |
| `DidLiveness.ReadyIsReachableIff` | crates/composition/src/did_deployment.rs:454-580 | Some sequence of runs makes a stored operation Ready if and only if it is not blocked. |
| `DidLiveness.OneRunSuffices` | crates/composition/src/did_deployment.rs:454-580 | A single run of sixteen iterations with cooperative ports finishes every unblocked operation. |
| `DidService.DeploymentService.Drain` | crates/composition/src/did_deployment.rs:474-579 | The bounded loop computes the recursive specification, and the repository ends with what it performed. |
| `DidService.DeploymentService.Run` | crates/composition/src/did_deployment.rs:454-596 | The whole run, with or without a stored operation, performs what the specification says, and keeps the history of the service, with everything earlier processes did, legal. |
| `DidService.DeploymentService.WrittenAhead` | crates/composition/src/did_deployment.rs:546-565 | In the own history of a valid service every submission directly follows the write of that operation in Submitting under its deterministic id. |
| `DidService.DeploymentService.OnceInOrder` | crates/composition/src/did_deployment.rs:474-578 | In the own history of a valid service the submissions are a prefix of the effect order. |
| `Faucet.FindId` | apps/oxid-headless/src/faucet.rs:158-176 | The lookup by request id returns a retained receipt with that id, and nothing only if there is none. |
| `Faucet.FindRecipient` | apps/oxid-headless/src/faucet.rs:177-191 | The lookup by recipient returns a retained receipt for it, and nothing only if there is none. |
| `Faucet.WindowGrows` | apps/oxid-headless/src/faucet.rs:220-225 | Retaining keeps the deque exactly the last 256 entries of the append-only log. |
| `Faucet.RetainKeepsCoherent` | apps/oxid-headless/src/faucet.rs:158-225 | A retained grant or alias keeps ids unique, one outcome per recipient, and grants spaced. |
| `Faucet.StandaloneFaucet.Fund` | apps/oxid-headless/src/faucet.rs:141-218 | Funding answers, retains and asks the grant port exactly as specified, and keeps the cache coherent. |
| `Faucet.StandaloneFaucet.RetainEntry` | apps/oxid-headless/src/faucet.rs:220-225 | The oldest receipt makes room when the deque is full; the newest goes to the back. |
| `Faucet.ServedIsCoherent` | apps/oxid-headless/src/faucet.rs:141-225 | After any sequence of requests the cache is coherent. |
| `Faucet.ReplayIsFree` | apps/oxid-headless/src/faucet.rs:158-176 | After any run, repeating a retained request id and recipient returns that very outcome, retains nothing and never reaches the grant port. |
| `Faucet.GrantIffUnseen` | apps/oxid-headless/src/faucet.rs:141-193 | The grant port is asked if and only if the request is well formed and neither its id nor its recipient is retained. |
| `Faucet.RecentAnswers` | apps/oxid-headless/src/faucet.rs:158-191 | After any run: an id among the last 256 entries is answered with its outcome, unknown included, or as a conflict if it names another recipient; a new id for a recent recipient gets that outcome and is kept as an alias. |
| `Faucet.UnseenAnswers` | apps/oxid-headless/src/faucet.rs:193-218 | A new id and recipient are answered, and kept, by what the grant port says: its transaction and block in order, unknown if lost, or its error with nothing kept. |
| `Faucet.TokenIff` | apps/oxid-headless/src/faucet.rs:460-467 | A request id is 1 to 128 ASCII letters, digits, hyphens, dots and underscores, and nothing else is. |
| `Faucet.RecipientRefuses` | apps/oxid-headless/src/faucet.rs:469-477 | No recipient contains an at sign or a scheme separator, and each is the prefix and more visible ASCII, at most 256 characters. |
| `Faucet.RecipientAccepts` | apps/oxid-headless/src/faucet.rs:469-477 | The prefix and any visible ASCII without an at sign or slash, within the bound, is a recipient. |
| `Faucet.GrantsAreApart` | apps/oxid-headless/src/faucet.rs:177-225 | Two retained grants to one recipient are more than 256 log entries apart, and the 256 just before the later are all for others. |
| `Faucet.RateBound` | apps/oxid-headless/src/faucet.rs:141-225 | A log of n > 0 retained receipts holds at most (n-1)/257 + 1 grants to any one recipient. |
| `Framing.SplitIff` | apps/oxid-headless/src/faucet.rs:235-255 | Cutting after each newline is the one split of the stream into lines, and it loses no byte. |
| `Framing.FramesResynchronise` | apps/oxid-headless/src/faucet.rs:241-249 | Whatever stands before a newline, oversized or malformed, has no effect on the frames after it. |
| `Framing.FrameOfPiece` | apps/oxid-headless/src/faucet.rs:235-255 | Wherever it stands in the stream, a piece over 4096 bytes is too large, else malformed if not UTF-8, else empty if blank, else a line with exactly its bytes: each if and only if. |
| `Framing.AnsweredIff` | apps/oxid-headless/src/faucet.rs:48-77 | Answered are the frames that are not blank, up to and including the first line that asks to shut down. |
| `Framing.FrameReader.ReadFrame` | apps/oxid-headless/src/faucet.rs:235-255 | One frame consumes exactly the next piece of the stream, classifies it by its whole length, and buffers at most 4097 bytes. |
| `Framing.FrameReader.ReadAll` | apps/oxid-headless/src/faucet.rs:235-255 | Reading until the end of the stream yields exactly the classified pieces. |
| `Framing.FrameReader.Run` | apps/oxid-headless/src/faucet.rs:48-77 | The serving loop answers every frame but the blank ones, up to and including the first line that asks to shut down. |
| `HttpReader.Connection.DrainHeaderTail` | apps/oxid-headless/src/faucet_http.rs:269-282 | The rotating four-byte window discards up to the next empty line, or 8192 bytes, or everything. |
| `HttpReader.Connection.ReadHeaders` | apps/oxid-headless/src/faucet_http.rs:247-267 | The headers are the shortest prefix ending in an empty line when that is at most 8193 bytes; otherwise incomplete or too large, exactly. |
| `HttpReader.Connection.ReadFields` | apps/oxid-headless/src/faucet_http.rs:178-228 | The header loop accepts exactly the orderly lines, and its saturating counter equals one exactly when there is one Host. What the lines are, byte by byte, is HttpAcceptance.AcceptedIsSaid. |
| `HttpReader.Connection.ReadRequest` | apps/oxid-headless/src/faucet_http.rs:158-245 | Reading a request answers, and leaves unread, exactly what the specification of the whole stream says, accepted or not. |
| `HttpTheorems.AcceptedRequestIsFramed` | apps/oxid-headless/src/faucet_http.rs:158-267 | An accepted request is the shortest headers, at most 8193 bytes, and exactly the declared following bytes, at most 4096, as its body. What its lines say, byte by byte, is the next row. |
| `HttpAcceptance.AcceptedIsSaid` | apps/oxid-headless/src/faucet_http.rs:158-245 | The bytes of an accepted request are a request line with its verb and path and fields with good names: one Host, no Transfer-Encoding or Expect in any case of letters, at most one length and one type, and the type trimmed is its content type. |
| `HttpAcceptance.SaidIsAccepted` | apps/oxid-headless/src/faucet_http.rs:158-245 | Conversely, all bytes of that form are accepted, with that verb, path, content type and body. |
| `HttpAcceptance.HeadersTooLargeIff` | apps/oxid-headless/src/faucet_http.rs:247-267 | 431 is answered if and only if no empty line ends within 8193 bytes of a longer stream; other refusals are 400 or 413. |
| `HttpAcceptance.BodyTooLarge` | apps/oxid-headless/src/faucet_http.rs:229-239 | A well-formed head that declares more than 4096 bytes is answered 413 ... |
| `HttpAcceptance.TooLargeIsSaid` | apps/oxid-headless/src/faucet_http.rs:229-239 | ... and nothing else is. |
| `HttpTheorems.OneHost` | apps/oxid-headless/src/faucet_http.rs:181-182 | The host count is one if and only if a single line, whatever the number of lines, is a Host. |
| `HttpTheorems.AcceptanceIgnoresWhatFollows` | apps/oxid-headless/src/faucet_http.rs:158-245 | An accepted request is decided by the bytes it consumes: no continuation of the stream changes it. |
| `HttpTheorems.LinesRejoin` | apps/oxid-headless/src/faucet_http.rs:162-165 | Splitting the headers at line ends loses nothing and leaves no line end inside a line. |
| `HttpTheorems.WordsRejoin` | apps/oxid-headless/src/faucet_http.rs:166-173 | Splitting the request line at spaces loses nothing and leaves no space inside a word. |
| `HttpTheorems.RequestLineIff` | apps/oxid-headless/src/faucet_http.rs:166-173 | A request line is accepted with a verb and a path if and only if it is these, spaceless and not empty, and the version, with single spaces between. |
| `HttpTheorems.PlusSignIff` | apps/oxid-headless/src/faucet_http.rs:203-213 | A length is accepted outside the digits-only grammar if and only if it is a plus sign before digits that fit the machine word; digits alone parse to their value. |
| `HttpTheorems.PlusSignIsAccepted` | apps/oxid-headless/src/faucet_http.rs:158-245 | For every verb, path, host and body, a request whose length is a plus sign and the decimal length of the body is accepted with that body. |
| `NightGrant.ApplicationNightGrant.AwaitSpendableBalance` | apps/oxid-headless/src/faucet_application.rs:89-131 | The polling loop returns a balance if and only if the readings, on their own, show one to stop at, returns that very reading, and clears the guard exactly then. |
| `NightGrant.ApplicationNightGrant.Grant` | apps/oxid-headless/src/faucet_application.rs:136-188 | A grant succeeds, fails and sets the guard exactly as specified; a success had a reading that covers the grant and leaves that reading less the grant. |
| `NightGrant.SeenIff` | apps/oxid-headless/src/faucet_application.rs:89-131 | A balance is seen if and only if some reading shows it: the first without a guard; with one, a reading at or below it after only failed synchronisations and higher balances. |
| `NightGrant.MissedIff` | apps/oxid-headless/src/faucet_application.rs:89-131 | The wait fails with an error if and only if it meets an unreadable account, or its deadline at a failed synchronisation or a balance above the guard. |
| `NightGrant.GrantedIff` | apps/oxid-headless/src/faucet_application.rs:136-188 | An attempt is granted if and only if that reading covers the grant and the transfer is submitted; the guard is then the reading less the grant, empty after any other sighting, and unchanged without one. |
| `NightGrant.FailedIff` | apps/oxid-headless/src/faucet_application.rs:136-188 | It fails with the error of the wait, for want of balance, or with that of the transfer, if and only if these say so. |
| `NightGrant.GuardIff` | apps/oxid-headless/src/faucet_application.rs:89-131 | The next balance to be seen is certain to be at most a bound if and only if the guard is set that low. |
| `NightGrant.ConservationIff` | apps/oxid-headless/src/faucet_application.rs:89-188 | After a success from balance b, the next balance seen is bounded by b less the grant if and only if no attempt since has seen a balance. |
| `NightGrant.BackToBackDrains` | apps/oxid-headless/src/faucet_application.rs:89-188 | Every success, while none fails after seeing a balance, lowers the guard by a whole grant. |
| `NightGrant.Conservation` | apps/oxid-headless/src/faucet_application.rs:89-188 | k successes back to back, the first from balance b0, need b0 to cover k grants, whatever the indexer reports. |
| `NightGrant.FailedSightLosesTheGuard` | apps/oxid-headless/src/faucet_application.rs:113-122 | The condition is needed: a sighting that fails clears the guard, and one grant of balance then funds two. |
| `Codecs.EncodeHex` | apps/oxid-headless/src/projections.rs:623-631 | The digit-pushing loop computes the recursive encoding. |
| `Codecs.HexRoundTrip` | apps/oxid-headless/src/parameters.rs:559-576 | Decoding returns every non-empty input within the bound from its encoding. |
| `Codecs.HexDecodesExactly` | apps/oxid-headless/src/parameters.rs:559-585 | Exactly the non-empty even-length hexadecimal strings within the bound decode, and re-encoding lower-cases them. |
| `Codecs.DecimalBijection` | apps/oxid-headless/src/parameters.rs:587-596 | Decoding is a bijection between the canonical decimals of all numbers below 2^128 and those numbers; the 39-digit cap excludes none. |

## Left out

- The DUST protocol and executor are transition systems, not classes: their threads interleave between atomic actions, and memory orderings weaker than sequential consistency are not modelled.
- Generations and notification counts of the DUST protocol are unbounded integers; the revisions are modelled with their 64-bit saturation.
- The wallet driver, coordinator, policy and recovery projection around the executor; single-flight admission is an assumption of the executor model.
- The status and reconcile calls of one observation, or of one recovery, are one answer of the model; a report about another transaction is a failed answer.
- Two deployment runs at once for one profile and network, and the repository's other slots, capacity limit and JSON encoding.
- Composition, funding, proving, chain, resolver, clock, randomness and store adapters: their answers are parameters, and any failure to read the deployment repository or the stream itself is left out.
- Which resolution counts as matching (`required_holder_methods_resolve`), and the mapping from transaction errors to failures: finite tables.
- Faucet restarts: receipts live in memory only, so every promise about them is for one process.
- UTF-8 validity, Unicode white space and trimming are parameters of the framing and HTTP models.
- Read timeouts: a deadline is a stream that ends early. Responses, routing and JSON are not modelled.
- `policy_value`, headless dispatch, parameter structs, error mapping and projections other than the codecs: only easy members.
- Sockets, static composition wiring, UI, build scripts, cryptography and the MCP adapter.
