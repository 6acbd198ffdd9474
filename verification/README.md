# llmsvc: verified models of its durable state machines

This project models the parts of llmsvc that must stay right across crashes, restarts and retries, and the
arithmetic that its reports depend on, and proves properties of them in Dafny 4.11. Check the whole project with
`dafny verify dfyconfig.toml`.

## What is modelled, and how

A process crash is an answer of the environment: every place where the program waits for something outside
(a lock, a probe, a request, a write) asks a script of answers, and any answer may end the process there. A crash
between a durable save and the next such place leaves what a crash at that place leaves; before every request that
must not be repeated there is one, so the save can survive without the request. Recovery starts from any state that
the invariant allows, not only from those. What the program keeps on disk or in its database are the fields that survive; what it keeps in memory are local variables
and fields that a restart sets again. Requests sent and events seen are remembered in ghost fields. Time is an exact
real, JSON and digests are compared by content.

- **Fault detection** (`FaultEvidence`, `FaultWindow`, `FaultTally`, `FaultDetection`). `FaultWindow` says what a
  history of rounds, invalidations, warm wakes and dropped records means, without any counter. The detector's record of counters and
  flags is proved equal to that reading after every history, so each proof it returns means something about the
  history, and a proof that is still current means that nothing happened since.
- **Fenced fault recovery** (`FaultProtocol`, `FaultRecovery`). Every durable write, request and round examined is
  one entry of a ledger. The controller keeps the ledger lawful through every crash, and a lawful ledger sends
  nothing twice and closes a claim only after the whole sequence of steps. Work on one claim adds nothing about
  another, and every claim has its turn.
- **First-default bootstrap** (`BootstrapRecord`, `BootstrapState`, `BootstrapStore`, `Bootstrap`). The durable
  fence is a state machine whose runs are analysed as a whole; the store's methods are proved to take its steps; the
  controller, crashing anywhere, sends each external effect at most once and only when the durable record holds it.
- **Catalog generations** (`CatalogManifest`, `CatalogRecord`, `CatalogRuntime`). Preparing a generation, the
  checkpoint's rules, and the runtime with its restart recovery. Actions are unfenced only while the last
  transaction is settled, and published generations never alias a port or a unit.
- **Reversible file transactions** (`UpgradeFiles`, `Upgrade`, `UnitFragment`, `NativeAttempt`). From every state
  that a crash of an upgrade leaves, a rollback puts back the pointer and every file, and can itself be interrupted
  and repeated. From every state that a crash of the native staging leaves, a rollback puts back every target while
  the source is absent or its stop was not submitted; that rollback is one-shot.
- **Aggregation** (`Collation`, `ActivitySummary`, `ReportOrder`, `UsageReport`, `Coverage`, `Distribution`). Fast
  forms equal simple ones: the skip-scan equals a one-pass group-by, the usage table conserves, transposes and does
  not depend on the order of its input, the coverage estimate is exact, and the histogram loses nothing.
- **Loops** (`TransitionRegistry`, `FreeMeasure`, `FreeLoop`, `Splice`, `ConcurrencyCaps`, `ActorWalk`). The
  measured `free` loop, owned transitions, the reverse splice of text edits and the process attribution walk.

Results where the obvious statement is false of the code, with the exact condition instead:

- A submitted native rollback does not exclude the activation. `NativeAttempt.RollbackDoesNotExcludeActivation` is
  the shortest case, and `NativeAttempt.ActivationAfterInterruptedRollback` says exactly when it happens: the source
  is absent and no target was put back yet.
- Valid rows need not give a usage report: two rows with one request each, one without a model and one of model
  "a", raise in a sort whatever the report is by (`UsageReport.UnnamedModelRaises`), because a missing name and a text
  cannot be compared. `UsageReport.BuildReport` says exactly when: an invalid row, or a report row or breakdown cell
  without a name that has as many requests as another beside it. Rows that all name their model never do it
  (`UsageReport.NamedModelsSort`).
- A finished rollback of an upgrade need not clear the way for the next upgrade. `Upgrade.Installation.Rollback` says
  exactly when it does not: it found nothing to do, and the state file still called the transaction unfinished. A
  crash between the last two notes of `restore` leads there, and nothing leads out again
  (`Upgrade.Installation.StuckForever`).
- `save` lets a bootstrap pass from placing to placed without a lease (`BootstrapState.PlacedWithoutLease`); such a
  record can never complete (`BootstrapState.StrandedNeverCompletes`). It also lets a receipt go, exactly when its
  value is null (`BootstrapState.NullReceiptDropped`).
- The operator's configuration has no planned digest in an upgrade, so its deletion is accepted by `restore`, and
  repaired (`UpgradeFiles.ConfigDeletionAccepted`).
- The detector's separate test for six rounds in `ready_still_sleeping` decides nothing
  (`FaultWindow.MismatchSpanBound`).

## Model

| member | source | states |
|---|---|---|
| FaultWindow.HistoryChained | llmsvc/faults.py:131-142 | after any history, the evidence is one unbroken chain: it never joins rounds across a gap, a changed identity or a clock that disagrees |
| FaultWindow.ChainRises | llmsvc/faults.py:131-142 | rounds of a chain share one identity, with rising generation, sample time and receipt time |
| FaultWindow.RunSpan | llmsvc/faults.py:131-142 | k adjacent rounds of a chain span at most two seconds a step |
| FaultWindow.MismatchSpanBound | llmsvc/faults.py:167-181 | an open mismatch window spans at most 2·(samples − 1) seconds, so ten seconds already force six rounds |
| FaultWindow.HealthProofSound | llmsvc/faults.py:146-192 | a health-failure verdict is backed by an unbroken failing chain of that length, armed before it and not disarmed since |
| FaultWindow.HealthProofComplete | llmsvc/faults.py:146-192 | whenever the history ends in such a chain, the fault is proved |
| FaultWindow.ExitProofSound | llmsvc/faults.py:146-149 | an exit is a fault only when the evidence was armed before it and nothing disarmed it |
| FaultWindow.SleepProofSound | llmsvc/faults.py:167-181 | ready-but-asleep is proved only by six armed rounds over ten seconds |
| FaultTally.RoundVerdict | llmsvc/faults.py:146-181 | the tests on counters and flags decide exactly what the history says |
| FaultTally.StepRefines | llmsvc/faults.py:81-192 | one call takes the record and the proof from what the old history calls for to what the new one calls for |
| FaultTally.RunRefines | llmsvc/faults.py:81-192 | after every history, counters, flags and proofs are those of the declarative window |
| FaultTally.HealthProofMeans | llmsvc/faults.py:175-192 | `consecutive_health_failures` is returned exactly when the round is recorded and the history ends in such a chain; an unrecorded round proves nothing |
| FaultTally.CurrentMeansUntouched | llmsvc/faults.py:194-201 | a proof still current after more events means none of them was recorded, invalidated the evidence or woke the model |
| FaultDetection.ModelsIndependent | llmsvc/faults.py:79-188 | a model's record depends on its own events alone, however the calls interleave |
| FaultDetection.FaultDetector.constructor | llmsvc/faults.py:75-79 | an empty detector |
| FaultDetection.FaultDetector.Create | llmsvc/faults.py:75-79 | an empty detector, refused exactly below three health failures |
| FaultDetection.FaultDetector.Invalidate | llmsvc/faults.py:81-88 | disarms in place exactly as the history calls for |
| FaultDetection.FaultDetector.WarmWake | llmsvc/faults.py:90-99 | accepts a wake exactly when the last round of the history allows it |
| FaultDetection.FaultDetector.Drop | llmsvc/faults.py:318-351 | the recovery controller drops one model's record and no other |
| FaultDetection.FaultDetector.Clear | llmsvc/faults.py:593-596 | a failed cycle drops every record at once |
| FaultDetection.FaultDetector.Observe | llmsvc/faults.py:101-192 | updates the record and returns exactly the proof that the history calls for |
| FaultDetection.FaultDetector.TakeRound | llmsvc/faults.py:103-192 | one observation of one model: continue or start a record, or leave it untouched for an unmatched absence |
| FaultDetection.FaultDetector.CountRound | llmsvc/faults.py:146-184 | the three kinds of round and what each does to counters and flags |
| FaultDetection.FaultDetector.Degrade | llmsvc/faults.py:156-181 | a serving round that is not healthy and awake |
| FaultDetection.FaultDetector.IsCurrent | llmsvc/faults.py:194-201 | whether a proof may still be acted on |
| FaultProtocol.AtMostOnce | llmsvc/faults.py:394-548 | in a lawful ledger no durable write or request of a claim occurs twice |
| FaultProtocol.ReleaseHistory | llmsvc/faults.py:433-459 | a release follows its claim and two adjacent absent rounds with rising sample times |
| FaultProtocol.CompleteHistory | llmsvc/faults.py:516-529 | a completion follows two absent rounds with the proxy stopped, both after the acknowledgement |
| FaultProtocol.CompletionHistory | llmsvc/faults.py:461-548 | a completed claim went through claim, release, announcement, unload, acknowledgement and both waits, in that order |
| FaultRecovery.ProgressMatches | llmsvc/store.py:547-582 | each durable step of a claim keeps row and ledger in step |
| FaultRecovery.SentAtMostOnce | llmsvc/faults.py:394-548 | after any run with crashes, each claim's stop and unload were sent and its account released at most once |
| FaultRecovery.ClosedMeans | llmsvc/faults.py:461-548 | a closed row was released after two absent rounds and closed after an acknowledged unload and two more |
| FaultRecovery.FaultRecoveryController.ClaimFault | llmsvc/store.py:514-545 | a claim is inserted exactly when nothing else blocks the accounting, the account matches, the lease is unclaimed and the model has no open claim |
| FaultRecovery.FaultRecoveryController.AdvanceFault | llmsvc/store.py:547-582 | compare-and-save of the next step; the release also releases the account |
| FaultRecovery.FaultRecoveryController.Begin | llmsvc/faults.py:394-431 | claims, then sends at most one stop; nothing else is written |
| FaultRecovery.FaultRecoveryController.WaitAbsence | llmsvc/faults.py:433-459 | ends well only after two adjacent absent rounds with a rising sample time |
| FaultRecovery.FaultRecoveryController.LookOnce | llmsvc/faults.py:433-459 | one round: identity first, then absence; a non-absent or unusable round starts over |
| FaultRecovery.FaultRecoveryController.ReleaseAccount | llmsvc/faults.py:474-494 | observe the exit and release, unless an earlier attempt did |
| FaultRecovery.FaultRecoveryController.SendUnload | llmsvc/faults.py:495-517 | announce durably, send once, record the acceptance |
| FaultRecovery.FaultRecoveryController.Settle | llmsvc/faults.py:468-534 | an announced but unacknowledged unload is never sent again nor taken for done; ending well means completed |
| FaultRecovery.FaultRecoveryController.Cleanup | llmsvc/faults.py:468-548 | the attempt and its saved error; only this claim's ledger grows |
| FaultRecovery.FaultRecoveryController.RunOnce | llmsvc/faults.py:578-592 | the claim or proof whose turn it is, and nothing about any other |
| FaultRecovery.EveryTurnComes | llmsvc/faults.py:580-584 | while the work stays the same, every claim and proof has its turn within as many cycles as there are |
| BootstrapState.NothingRegresses | llmsvc/bootstrap_state.py:105-136 | over any run, identity and lease never change, effects and non-null receipts never regress, the phase never goes back |
| BootstrapState.NullReceiptDropped | llmsvc/bootstrap_state.py:119-120 | a save may drop a receipt exactly when its value is null |
| BootstrapState.AtMostElevenChanges | llmsvc/bootstrap_state.py:105-136 | the phase changes at most eleven times |
| BootstrapState.OnePlacement | llmsvc/bootstrap_state.py:139-151 | a record names a lease exactly when one account was placed through the fence, and never a second |
| BootstrapState.LeaseWasPlaced | llmsvc/bootstrap_state.py:139-151 | the named lease was placed for the record's own model, unit and share |
| BootstrapState.CompletionCommitted | llmsvc/bootstrap_state.py:129-136 | a completion was committed with the account confirmed at that moment |
| BootstrapState.CompleteMeans | llmsvc/bootstrap_state.py:38-42 | a complete record: exactly one placement, before the commit, confirmed for the same model and unit, launch and activate recorded |
| BootstrapState.PlacedWithoutLease | llmsvc/bootstrap_state.py:109-115 | saves alone reach placed without a lease |
| BootstrapState.StrandedNeverCompletes | llmsvc/bootstrap_state.py:38-42 | a record past placing without a lease never completes |
| BootstrapState.AbortedMeans | llmsvc/bootstrap_state.py:43-46 | an aborted record had no effect at any time of the run, or its rollback was acknowledged |
| BootstrapState.AccountsFenced | llmsvc/bootstrap_state.py:139-151 | while a bootstrap is pending, its own account is the only live one |
| BootstrapState.ReclaimFences | llmsvc/bootstrap_state.py:154-162 | a reclaim takes the placement capability from every earlier holder until a scope is entered again |
| BootstrapStore.Store.ClaimBootstrap | llmsvc/bootstrap_state.py:81-102 | succeeds exactly when the fence accepts, and takes its step |
| BootstrapStore.Store.Saveable | llmsvc/bootstrap_state.py:105-131 | the tests of a save, in their order, are the fence's condition |
| BootstrapStore.Store.SaveBootstrap | llmsvc/bootstrap_state.py:105-136 | compare-and-save takes exactly the fence's step |
| BootstrapStore.Store.PlaceLease | llmsvc/bootstrap_state.py:139-151 | account and attachment are one write; the account is a pending one, as `create_lease` asks (llmsvc/store.py, line 700) |
| BootstrapStore.Store.ReclaimBootstrap | llmsvc/bootstrap_state.py:154-162 | only actor and token change |
| BootstrapStore.Store.EnterScope | llmsvc/bootstrap_state.py:72-78 | the capability is bound to the record's present token, and the previous one is returned |
| BootstrapStore.Store.LeaveScope | llmsvc/bootstrap_state.py:77-78 | the previous capability comes back |
| BootstrapStore.Store.TransitionLease | llmsvc/store.py:737-754 | an account moves exactly when no fault, sleeping recovery or catalog forbids it, and that of a pending bootstrap only inside its own scope |
| Bootstrap.FencedGrows | llmsvc/bootstrap_state.py:105-136 | no step of the store takes an already sent effect out of the record |
| Bootstrap.ReportPhases | llmsvc/bootstrap.py:306-320 | every launcher report the save accepts keeps phase and effects in step |
| Bootstrap.BootstrapController.SaveRecord | llmsvc/bootstrap.py:112-142 | the saved record is the one asked for, or nothing changed |
| Bootstrap.BootstrapController.Send | llmsvc/bootstrap.py:177-190 | an effect leaves only once, and only when the durable record holds it |
| Bootstrap.BootstrapController.Progress | llmsvc/bootstrap.py:293-320 | an accepted start_submitted means the launch is durably recorded |
| Bootstrap.BootstrapController.RunLauncher | llmsvc/bootstrap.py:399-402 | any reports in any order keep the fence; one start, and only after an accepted start_submitted |
| Bootstrap.BootstrapController.StageFiles | llmsvc/bootstrap.py:393-397 | announced, sent once, recorded; no launch yet |
| Bootstrap.BootstrapController.ActivateSource | llmsvc/bootstrap.py:415-421 | announced, sent once; ending well means complete |
| Bootstrap.BootstrapController.FinishSource | llmsvc/bootstrap.py:423-440 | observes only |
| Bootstrap.BootstrapController.Run | llmsvc/bootstrap.py:358-412 | with an existing record nothing happens; a run that ends well is complete and sent stage, launch and activate exactly once each; a rollback is never sent |
| Bootstrap.BootstrapController.Recover | llmsvc/bootstrap.py:442-522 | a terminal record is left alone; observing sends nothing, undoing at most the rollback, resuming never the stage; every effect at most once over all attempts |
| Bootstrap.BootstrapController.TakeUp | llmsvc/bootstrap.py:462-519 | ending well means aborted for a rollback and complete for a resume |
| Bootstrap.BootstrapController.RollBack | llmsvc/bootstrap.py:463-484 | never after a submitted launch and never a second time; ending well means aborted after exactly one rollback |
| Bootstrap.BootstrapController.Continue | llmsvc/bootstrap.py:487-519 | observing sends nothing |
| Bootstrap.BootstrapController.AdoptLaunch | llmsvc/bootstrap.py:504-517 | a submitted launch is only observed and confirmed |
| CatalogManifest.Inspect | llmsvc/catalog.py:224-257 | the tests of one candidate profile |
| CatalogManifest.InspectAll | llmsvc/catalog.py:224-257 | the loop accepts exactly the candidates whose profiles all pass and pairwise differ in port and unit |
| CatalogManifest.KeepDescriptions | llmsvc/catalog.py:258-265 | the loop keeps removed models, and retained ones that are still required |
| CatalogManifest.CheckMembership | llmsvc/catalog.py:302-309 | no removed model is pinned or a default |
| CatalogManifest.Prepare | llmsvc/catalog.py:203-272 | the candidate becomes exactly the described generation, or is refused |
| CatalogManifest.GenerationIsDistinct | llmsvc/catalog.py:218-271 | from distinct profiles, active and retained of the next generation are disjoint with pairwise distinct ports and units |
| CatalogManifest.GenerationContinues | llmsvc/catalog.py:250-265 | a described name keeps port and unit; a removed model was no default and stays retained; nothing else is retained |
| CatalogManifest.DroppedMeans | llmsvc/catalog.py:258-294 | a description disappears exactly when it was only retained and is not required any more |
| CatalogManifest.AlwaysDistinct | llmsvc/catalog.py:218-271 | every later generation of a run is distinct |
| CatalogManifest.ResourceIsStable | llmsvc/catalog.py:252-254 | port and unit of a name never change while it stays described |
| CatalogManifest.DefaultsAreOld | llmsvc/catalog.py:250-254 | a default model was the same default in every earlier generation |
| CatalogManifest.LeavesThroughRetained | llmsvc/catalog.py:258-294 | an active model leaves only through a later generation that retained it and saw it stopped, with no lease, fault or recovery |
| CatalogRecord.BackupIsLastSettled | llmsvc/catalog_state.py:65-69 | over any run of writes the checkpoint is well formed and its backup is the last settled transaction |
| CatalogRecord.NoDeeperBackup | llmsvc/catalog_state.py:65-69 | a backup never holds a backup |
| CatalogRecord.TransactionIsStable | llmsvc/store.py:201-213 | while a transaction is current, manifests, epochs and receipt never change and its phase only advances |
| CatalogRuntime.ClaimOk | llmsvc/catalog.py:606-617 | a claim of a prepared generation keeps what every crash point needs |
| CatalogRuntime.CatalogRuntime.Save | llmsvc/store.py:169-213 | a checkpoint is written only when the store's rules accept it |
| CatalogRuntime.CatalogRuntime.Restart | llmsvc/catalog.py:80-147 | restart recovery keeps the checkpoint and serves exactly its generation; unfenced only for what is released, or for the configuration an abort left |
| CatalogRuntime.CatalogRuntime.StartFresh | llmsvc/catalog.py:110-117 | nothing was ever published: the configuration is served, fenced unless it is what the abort left |
| CatalogRuntime.CatalogRuntime.StartFromCheckpoint | llmsvc/catalog.py:118-147 | the checkpoint's generation is served, unfenced only for a released one with nothing left to reconcile |
| CatalogRuntime.CatalogRuntime.Enqueue | llmsvc/catalog.py:385-437 | only a generation prepared from the present one, under the present epoch, is queued |
| CatalogRuntime.CatalogRuntime.Claim | llmsvc/catalog.py:606-618 | the fence is closed before the claim is written |
| CatalogRuntime.CatalogRuntime.QueueProcess | llmsvc/reload.py:479-592 | the queue's contract: the callback runs only after the commit, applied means published, and a committed job leaves the queue |
| CatalogRuntime.CatalogRuntime.AfterApply | llmsvc/catalog.py:562-578 | bind, prove, publish, serve, in that order, with every failure left fenced |
| CatalogRuntime.CatalogRuntime.ProcessOnce | llmsvc/catalog.py:580-660 | applied ends released and unfenced on the new generation; failed ends aborted and unfenced on the old one |
| CatalogRuntime.CatalogRuntime.Abort | llmsvc/catalog.py:622-627 | a claim is withdrawn only while the configuration is still the base and no receipt exists |
| CatalogRuntime.CatalogRuntime.Release | llmsvc/catalog.py:630-645 | released only when the process serves the new generation and the receipt is gone |
| CatalogRuntime.CatalogRuntime.RestoreAbort | llmsvc/store.py:340-355 | the backup becomes the checkpoint again |
| CatalogRuntime.CatalogRuntime.Reconcile | llmsvc/catalog.py:662-732 | ending well means released, settled and unfenced on the checkpoint's generation |
| CatalogRuntime.CatalogRuntime.ActionsSeeSettled | llmsvc/scheduler.py:281-288 | in every run an allowed action finds the checkpoint absent, aborted or released, and the last settled generation served |
| CatalogRuntime.CatalogRuntime.PublishedDistinct | llmsvc/catalog.py:562-578 | every generation a run ever published keeps resources distinct, if its first configuration did |
| UpgradeFiles.ConfigDeletionAccepted | deploy/upgrade.py:461-464 | of the operator's configuration exactly the original and its deletion are accepted |
| UpgradeFiles.SwitchStep | deploy/upgrade.py:434-435 | writing a planned file leaves a recoverable state |
| UpgradeFiles.RestoreStep | deploy/upgrade.py:469-475 | so does putting a file back |
| UpgradeFiles.UnpointStep | deploy/upgrade.py:468-476 | without a previous generation the pointer may go exactly when no new launcher is left |
| UpgradeFiles.PlanStep | deploy/upgrade.py:439-445 | planning the manifest before writing it keeps the state recoverable |
| Upgrade.Installation.Check | deploy/upgrade.py:456-466 | the checks before any rollback write, exactly |
| Upgrade.Installation.RestoreFiles | deploy/upgrade.py:469-475 | the loop ends with all six files as before |
| Upgrade.Installation.Leave | deploy/upgrade.py:479-479 | the last two notes; both done, the next upgrade may start |
| Upgrade.Installation.Restore | deploy/upgrade.py:456-481 | a refusal changes nothing; otherwise pointer and files end as before, and every interruption can be rerun |
| Upgrade.Installation.Rollback | deploy/upgrade.py:483-500 | of the current transaction, it ends with everything restored when nothing fails; once finished, the next upgrade may start unless there was nothing to do and it could not start before |
| Upgrade.Installation.WriteFiles | deploy/upgrade.py:433-435 | pointer first, then the planned files; the configuration and the manifest are untouched |
| Upgrade.Installation.Switch | deploy/upgrade.py:413-454 | the committed result, and after any failure either the transaction is current or nothing has changed |
| Upgrade.Installation.UndoAfterCrashes | deploy/upgrade.py:413-500 | after a crash at any write, and any number of crashing rollbacks, one undisturbed rollback restores pointer and files |
| Upgrade.Installation.StuckForever | deploy/upgrade.py:479-491 | after a crash between the last two notes of a restore, every later upgrade is refused and every later rollback finds nothing to do |
| UnitFragment.UnitCandidate | deploy/bootstrap_native.py:78-90 | succeeds exactly with one Restart directive in the service section and no binding yet, and changes that directive only |
| UnitFragment.NarrowBinds | deploy/bootstrap_native.py:84-85 | the candidate binds the environment file, so a second pass refuses it |
| NativeAttempt.ActivationAfterInterruptedRollback | deploy/bootstrap_native.py:445-451 | after an interrupted rollback, activation is admitted exactly while the source is absent and no target was put back |
| NativeAttempt.RollbackDoesNotExcludeActivation | deploy/bootstrap_native.py:448-450 | the shortest case of that |
| NativeAttempt.Attempt.ReplaceOwned | deploy/bootstrap_native.py:53-75 | replaces only the expected image, with exactly the wanted content |
| NativeAttempt.Attempt.Install | deploy/bootstrap_native.py:375-380 | announce, replace, note; before the stop only the unit fragment |
| NativeAttempt.Attempt.SaveBackups | deploy/bootstrap_native.py:399-404 | ends with every original saved |
| NativeAttempt.Attempt.Stage | deploy/bootstrap_native.py:382-425 | never replayed; ends with every target installed; until the stop only the fragment can differ; whatever happens, no activation or rollback is announced |
| NativeAttempt.Attempt.Activate | deploy/bootstrap_native.py:445-463 | refused without any change unless admitted; only the environment file changes |
| NativeAttempt.Attempt.Inspect | deploy/bootstrap_native.py:551-557 | no foreign target and no corrupt backup, exactly |
| NativeAttempt.Attempt.Rollback | deploy/bootstrap_native.py:532-584 | one-shot; a foreign file or corrupt backup refuses before any change; at its end all six targets are as before |
| NativeAttempt.Attempt.RestoreTargets | deploy/bootstrap_native.py:559-571 | the reverse loop restores every target and keeps restored ones |
| NativeAttempt.Attempt.UndoAfterCrash | deploy/bootstrap_native.py:382-584 | after a staging that crashed or failed anywhere, one undisturbed rollback ends with all six targets as before, if the source is absent or its stop was not submitted |
| ActivitySummary.GroupBySeeks | llmsvc/activity.py:665-714 | each group of a one-pass aggregate is what the three seeks of its model answer |
| ActivitySummary.ModelIds | llmsvc/activity.py:681-687 | the skip-scan ends and lists every model id once, the missing one included |
| ActivitySummary.SummaryRows | llmsvc/activity.py:665-714 | exactly the groups of the one-pass aggregate, each once |
| ActivitySummary.Read | llmsvc/activity.py:147-200 | every recent model with its counts and the source of its row greatest in time, then id |
| ReportOrder.SortedMeans | llmsvc/activity.py:410-416 | a sort by falling requests and rising name is a permutation in order, and raises exactly when two keys cannot be compared |
| ReportOrder.OrderIsUnique | llmsvc/activity.py:410-416 | the same keys can be sorted in one way only |
| UsageReport.BucketStep | llmsvc/activity.py:367-394 | one row updates its own bucket and cell to the specified sums, times and kinds, and no other |
| UsageReport.BuildReport | llmsvc/activity.py:327-434 | raises exactly on an invalid row or an unnamed row or cell tied with a named one; otherwise every row and cell holds its specified sums, times and kind, sorted |
| UsageReport.UnnamedModelRaises | llmsvc/activity.py:410-416 | two valid rows, one without a model, that raise by user, model and day |
| UsageReport.NamedModelsSort | llmsvc/activity.py:410-416 | when every row names its model, only an invalid row raises |
| UsageReport.TotalsAreRows | llmsvc/activity.py:367-388 | every counter's total is the sum of the report rows |
| UsageReport.RowsAreCells | llmsvc/activity.py:388-394 | every row is the sum of its breakdown |
| UsageReport.CellMeans | llmsvc/activity.py:391-409 | a cell exists exactly for the pairs that occur, with exactly their sum |
| UsageReport.OrderIndependent | llmsvc/activity.py:348-416 | whatever the order of the input rows, both raise or both give the same rows and cells with the same counts in the same order |
| UsageReport.Transposable | llmsvc/activity.py:369-377 | the (user, model) cell by user is the (model, user) cell by model |
| Coverage.Cover | deploy/summarize_observation.py:120-152 | samples in the window, gaps, estimate and completeness as specified |
| Coverage.Measure | deploy/summarize_observation.py:127-151 | the two loops find exactly the gaps and the specified estimate |
| Coverage.CompleteIffNoneMissing | deploy/summarize_observation.py:136-151 | with a sample, complete exactly when nothing is estimated missing |
| Coverage.CompleteMeansDense | deploy/summarize_observation.py:127-151 | complete exactly when both ends are within tolerance and every closed interval of length interval + tolerance between the samples holds one |
| Coverage.CompleteHolds | deploy/summarize_observation.py:151-151 | in a complete window every such interval holds a sample |
| Coverage.SpanAccounted | deploy/summarize_observation.py:127-138 | n + missing ≥ (span − (n+1)·tolerance)/interval + 1 |
| Distribution.BinBounds | deploy/summarize_observation.py:166-174 | a value is in a bin exactly when it lies in the bin's half-open interval |
| Distribution.Histogram | deploy/summarize_observation.py:166-166 | exactly the bins that occur, each with exactly its number of values |
| Distribution.NothingLost | deploy/summarize_observation.py:169-174 | the listed bins hold every value exactly once |
| Distribution.PercentilesRise | deploy/summarize_observation.py:157-160 | percentiles lie within the values and rise with the fraction |
| Distribution.PercentileEnds | deploy/summarize_observation.py:157-160 | the least and greatest value are the 0 and 1 percentiles |
| TransitionRegistry.Registry.Start | llmsvc/actions.py:45-55 | first owner wins; a fresh token is returned either way |
| TransitionRegistry.Registry.Finish | llmsvc/actions.py:57-63 | only the owner's token removes the entry |
| TransitionRegistry.OwnerOnly | llmsvc/actions.py:33-37 | whatever others begin or end, an entry stays until its owner ends it |
| TransitionRegistry.SecondTokenIsPowerless | llmsvc/actions.py:53-55 | a token handed out while the model has an owner never ends anything |
| TransitionRegistry.OwnedRoundTrip | llmsvc/actions.py:45-63 | begin and end by the owner leave the entries as they were |
| FreeMeasure.RecordSupported | llmsvc/actions.py:676-693 | recording a round keeps every reported name confirmed and every release measured in a fresh round |
| FreeLoop.FreeController.WaitEffect | llmsvc/actions.py:625-645 | an effect counts only when two fresh rounds after the dispatch show it, the second sampled later |
| FreeLoop.FreeController.SeeAnyway | llmsvc/actions.py:751-759 | the same two rounds are asked of a failed request |
| FreeLoop.FreeController.Choose | llmsvc/actions.py:700-742 | an action is chosen only for an active, unmarked model, and never one already confirmed |
| FreeLoop.FreeController.Act | llmsvc/actions.py:745-790 | a turn that goes on confirmed exactly the action it sent |
| FreeLoop.FreeController.Turns | llmsvc/actions.py:700-794 | the loop ends without the deadline, and the pending marks are left as found |
| FreeLoop.FreeController.Free | llmsvc/actions.py:647-807 | each action at most once, at most two per active model; reported names were seen twice in their target state after the dispatch |
| Splice.Apply | deploy/concurrency_smoke.py:97-98 | splicing in descending order equals substituting all edits at once |
| Splice.Untouched | deploy/concurrency_smoke.py:97-98 | every character outside the edits is still there, moved only by the edits before it |
| ConcurrencyCaps.CollectEdits | deploy/concurrency_smoke.py:73-96 | one edit for each model whose cap changes |
| ConcurrencyCaps.CandidateConfig | deploy/concurrency_smoke.py:55-101 | the result is the simultaneous substitution and loads as the raised caps with everything else as it was; refused exactly when it cannot be edited or would not load so |
| ConcurrencyCaps.RaisedCaps | deploy/concurrency_smoke.py:79-81 | every cap becomes max(limit, previous) |
| ConcurrencyCaps.RaisedIsStable | deploy/concurrency_smoke.py:79-81 | a second pass changes no cap |
| ConcurrencyCaps.Twice | deploy/concurrency_smoke.py:55-101 | the transformation accepts its own result and gives back that text, without an edit |
| ActorWalk.Walk | deploy/maintenance_native.py:492-500 | the walk ends and accepts exactly the members whose chain stays inside and meets a root or auxiliary before the main process |
| ActorWalk.AllAttributed | deploy/maintenance_native.py:492-500 | the inspection accepts exactly when every member but the main process is attributed |
| ActorWalk.CycleRejected | deploy/maintenance_native.py:494-496 | a process on a cycle of parents is rejected |
| ActorWalk.EscapeRejected | deploy/maintenance_native.py:494-500 | so is an escape from the group, and a direct child of the main process that is neither root nor auxiliary |

## Left out

- HTTP, subprocesses, systemd, `/proc`, SQLite, fsync and locks: answers of the environment and atomic steps. An
  operation under the action lock is one method call, so the `busy` flags of the catalog, which keep a second thread
  out, are not modelled.
- Deadlines and clocks outside the fault detector, option switches, proxy origins and configuration hashes: guards
  that the environment may refuse at.
- JSON and YAML parsing, hashing and regular expressions: datatypes, content equality and plain character tests;
  size limits of stored JSON are not modelled. Profile and receipt fields of a wrong type read as missing.
- FaultDetection.FaultDetector.constructor: the source's error for fewer than three health failures is a precondition
  here; `Create` has the error.
- FaultDetection.FaultDetector.Observe: the records are values in a map field that is reassigned, not objects shared by reference.
- FaultRecovery.FaultRecoveryController.RunOnce: the order in which claims and proofs are listed is given by the caller.
- Bootstrap.BootstrapController.RunLauncher: of the launcher (deploy/vllm-launch) only one thing is kept: it starts the
  unit once, directly after its first accepted start_submitted; otherwise it may report anything in any order.
- Bootstrap.BootstrapController.FinishSource: the identities and bindings inside the activation proof are one guard.
- The writes of `save_catalog` to the bootstrap record's catalog_present field, and the maintenance transaction beside
  the catalog checkpoint, with its rollback phases: their controller is not modelled; no run here reaches rolled_back.
- CatalogManifest.Prepare: which error is raised first; a refusal is None.
- CatalogRuntime.CatalogRuntime.QueueProcess: the maintenance adapter's effects before the commit are not modelled.
- CatalogRuntime.CatalogRuntime.Release: membership and resource references at release are a guard of the environment.
- Native profile rows, collectors, relays and controllers rebuilt by a publication.
- Upgrade.Installation.Restore: file modes and owners are not restored when the content already agrees, as in the
  source, and are not modelled; the protected files are assumed not to be among the six managed ones.
- Preparing a generation directory, its fingerprint and the bundle's own checks in the upgrade.
- UnitFragment.UnitCandidate: lines arrive already split, and white space is the ASCII kind.
- NativeAttempt.Attempt.Activate: what is observed after the start is one command.
- UsageReport.BuildReport: the SQL grouping and the canonical form of an address are inputs. `list.sort` is an
  insertion sort; any sort must compare the neighbours of its result, so it raises on the same lists.
- The container usage tables of `ActivityReader.usage`, which are built like the report.
- Coverage.Cover: rounding of displayed values and the display of times.
- The other counters of the observation summary, and its input validation.
- FreeLoop.FreeController.Free: the entries of `skipped`, the `measurement_complete` flag and the event at the end.
- Wake operations, automatic policy and the dispatcher's own validation of an action.
- ConcurrencyCaps.CandidateConfig: the YAML parser is a function given to the method, with marks at distinct places;
  line-ending, anchor and header-layout checks are refusals of that parser.
- The fixture gate of the concurrency smoke test and the rest of that script.
- `lease_aware_command` and the other tests of a process row in the native inspection.
