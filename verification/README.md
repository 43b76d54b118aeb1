# snowdeploy, modelled and proved in Dafny

snowdeploy lands every image change as a merged pull request first and only then
applies what main holds to the host. This project models the parts of the daemon
and its UI whose correctness spans many functions or many interleavings:

- the merge-first deploy engine (`Engine.dfy` and the `Engine*.dfy` proofs): any
  number of runs, each at a program point, stepping in any order over the locks,
  the merge queue, main, the mirror, the host and the journal, with requests,
  outside pushes, cancellation, crashes and restarts in between;
- its two bounded retry loops (`MergeLoop.dfy`), and its fields with the code that
  writes them (`EngineObject.dfy`), in their own imperative form, proved to do what
  the transition system's steps do;
- what a request means and what it registers (`EngineStart.dfy`), how runs end and
  what they say (`EngineEndings.dfy`), and the course of one that meets no failure
  (`EngineCourse.dfy`);
- reachable worlds that show why the theorems carry their hypotheses and
  conditions (`EngineWitness.dfy`);
- the manifest rewrite (`Digests.dfy`), the journal and start-up recovery
  (`Journal.dfy`), and the reading of check runs (`CheckRuns.dfy`);
- the single-flight revision cache (`RevisionCache.dfy`);
- the event broker and the connection snapshot (`Broker.dfy`), the UI reducer
  that must recover from dropped events (`UiState.dfy`), and the token-hash file
  grammar (`Tokens.dfy`).

`dafny verify dfyconfig.toml` checks everything.

## How the engine is modelled

A `World` is the shared state, every run with its request, place and history, the
requests on their way to the critical section of `start`, and whether the daemon
is up. A `Label` says what happens next; `Next` is total on legal labels. One step
of a run is one call on something shared, together with the local work around it,
and everything the outside world can answer (a failed call, a call that fails but
took effect, a lost journal write, a cancelled wait, what a merge landed) is the
step's `Env`. `Reachable` worlds are those any legal trace reaches from a fresh
installation. All runs' invariants are proved step by step over the parts they
concern (`EngineControl`, `EngineReceipts`, `EngineTargets`, `EngineCalls`,
`EngineHost`), put together in `EngineRuns`, and the theorems are in
`EngineTheorems`, in `EngineMirror` for what main and its mirror say of each other,
and in `EngineEndings` for how runs end.

`main`, the mirror and the host are three maps. Only `Sync` copies main to the
mirror, only a merge or a push moves main, and `Manifest` reads only the mirror,
which must have been synced once by this process. The applier writes the unit the
manifest names, whichever service was asked for, as internal/reconcile/apply.go:51-55
does. `held` records everything main ever held, and `HeldIsMainsHistory` proves it is
nothing else. `moved` records, where the mirror has not followed main since, which
run's merge is known to have moved main last. The hypothesis `revertAttempts >= 1` is
what `New` establishes (internal/deploy/engine.go:127-129).

## What came out different from the wording in the repository

- Green is decided on one page of a hundred check runs
  (internal/gitops/github.go:311-313). `GreenSpeaksForAll` says for every number of
  runs that green speaks for all of them exactly when they fit the page, and
  `RedBeyondThePage` gives a misread listing of every greater length.
- The verdict depends on the order of the runs. Red does even within a page:
  `OrderMattersIff` says exactly when, namely when the page holds both a run that is
  not completed and one that completed unacceptably (`RedDependsOnOrder` shows the
  shortest). Green does as soon as there are more runs than a page, since a failed
  one may then be listed off it: `GreenIgnoresOrder` is an if-and-only-if on their
  number.
- `Merge` names the pull request and not the head whose checks were green
  (internal/gitops/github.go:353-367). `MergedUnchecked` reaches a world in which
  nobody pushed to main, a run merged straight after its green check, and main
  holds something else than was checked. Theorems about main therefore ask that the
  engine is `Alone`, which `AloneIffLeftAlone` spells out over whole traces: nobody
  pushed, and each landing was the run's own proposal and was answered as a success.
- `emit` and `finish` ignore a failed journal write
  (internal/deploy/engine.go:761-771), so a terminal event can be sent whose
  receipt is not in the journal until start-up closes the row as failed.
  `ReceiptLandsIffWritten` says over whole traces when a row has its run's
  receipt, and `ReceiptLost` reaches a world where it has not.
- A run can end rolled back having merged and reverted nothing and still leave main
  and the host equal, although its receipt says main needs a manual revert:
  `RolledBackForNothing` reaches that world. `RepositoryDescribesHost` has the exact
  condition for every rolled-back run, and for one that got as far as applying its
  change it is that its revert merged.
- The front of the queue reads the mirror without a sync
  (internal/deploy/engine.go:364), so the restore point of a deploy need not be what
  main pins: `RestorePointThatFailed` reaches a world where it is the digest another
  deploy was just taken back from. `RestorePointIsMain` has the exact condition, in
  what the engine knows without asking main: nothing moved main since the mirror
  followed it, or the run that moved it last landed these very bytes. That a merge
  landed since the last sync does not decide it, as `RestorePointDespiteMerges` shows.
- The daemon does not compare a manifest's name with its file's
  (cmd/snowdeploy/validate.go:91-95 does, in the CLI). `RepositoryDescribesHost` asks
  that main only ever held manifests named for their services, and `UnitOfAnother`
  reaches the world in which one is not and a healthy run writes another service's
  unit.
- When a run's terminal frame is dropped, the next run's rail keeps the old run's
  start, pull-request number and addresses (web/src/lib/state.ts:179-193).
  `RailsAreTheirOwn` covers every stream in which that never happens, and
  `HandoverIsCleanIff` says for the event at which it does when the rail still
  shows only what was said of its own run.

## Model

| member | source | states |
|---|---|---|
| `Digests.IsDigestWhen` | internal/deploy/engine.go:24 | a pin is sha256, a colon and sixty-four lower-case hexadecimal digits, and nothing else is |
| `Digests.DigestsDoNotOverlap` | internal/deploy/engine.go:24 | two digests occurring in the same bytes less than a digest's length apart are at the same offset |
| `Digests.CountOneIsUnique` | internal/deploy/engine.go:807 | counting non-overlapping occurrences gives one exactly when there is one occurrence at all, and the first found is it |
| `Digests.SetDigestIsExact` | internal/deploy/engine.go:806-813 | the rewrite succeeds exactly when the old digest occurs once, and then changes that 71-byte window and nothing else |
| `Digests.OccurrencesAfter` | internal/deploy/engine.go:812 | where any digest occurs after the rewrite: in the window, or where it stood clear of it before |
| `Digests.SetDigestReversesExactly` | internal/deploy/engine.go:806-813 | setting the old digest back recovers the original bytes if and only if the new digest did not already occur |
| `Digests.SetDigestChangesTheFile` | internal/deploy/engine.go:399-409 | a successful rewrite to another digest is never an empty proposal |
| `Journals.NewestFirstIsTheQuery` | internal/journal/journal.go:209-212 | the ordered query yields each selected row once, each started later than the next or at the same time with the higher id |
| `Journals.PreviousHealthyDigestIsNewest` | internal/journal/journal.go:280-294 | the answer is the digest of the healthy row of the service, with another non-empty digest, that started last (inserted last among equals), and there is no such row when it says so |
| `Journals.Journal.Begin` | internal/journal/journal.go:107-127 | a new unfinished row is appended and its id returned |
| `Journals.Journal.Write` | internal/journal/journal.go:130-198 | for each of the five updates, an unfinished row gets the named columns and keeps every other, and no other row changes; an unknown or finished one is left alone and the error says which |
| `Journals.Journal.Recent` | internal/journal/journal.go:205-230 | at most n rows (twenty when n is not positive), all of the service, newest first, and all there are if fewer than that |
| `Journals.Journal.Unfinished` | internal/journal/journal.go:236-258 | exactly the rows without a receipt, oldest first |
| `Journals.Journal.FailOrphanedDeploys` | cmd/snowdeployd/main.go:227-246 | recovery sets an orphan's state to failed and its finishing time and keeps every other column, leaves finished rows alone, and reaches every orphan unless a write fails |
| `Journals.ReceiptsArePermanent` | internal/journal/journal.go:130-198 | over any sequence of inserts, guarded updates and recoveries a finished row keeps every field |
| `CheckRuns.SummarizeChecks` | internal/gitops/github.go:334-350 | green exactly when there are runs and all of them completed as success, neutral or skipped; otherwise the first run that did not decides, pending if it is not completed and red if it is |
| `CheckRuns.WaitChecks` | internal/gitops/github.go:304-329 | the first poll that concludes or cannot be read ends the wait with that answer, and only polls that are read and pending come before it |
| `CheckRuns.GreenIsThePage` | internal/gitops/github.go:311-316 | a listing reads green exactly when its first page is not empty and all of it passed |
| `CheckRuns.GreenIgnoresOrder` | internal/gitops/github.go:311-316 | for every number n of runs: every reordering of a green listing of n runs reads green if and only if n is at most a page |
| `CheckRuns.GreenSpeaksForAll` | internal/gitops/github.go:311-313 | for every number n of runs: every green listing of n runs passed entirely if and only if n is at most a page |
| `CheckRuns.RedBeyondThePage` | internal/gitops/github.go:311-313 | for every length past a page there is a listing that reads green though one of its runs failed |
| `CheckRuns.OrderMattersIff` | internal/gitops/github.go:338-349 | every reordering of a page sums up the same if and only if it does not hold both an unfinished and an unacceptable run |
| `CheckRuns.RedDependsOnOrder` | internal/gitops/github.go:338-348 | two orders of the same two runs of which one reads red and the other pending |
| `EngineControl.StepControl` | internal/deploy/engine.go:320-759 | every step of a run moves the locks and the gauge exactly as its place says, and lowers the bound on its remaining steps |
| `EngineTheorems.MutualExclusion` | internal/deploy/engine.go:338-356 | no two runs hold one service's lock, the full channels are exactly the holders' services, working runs and spans hold theirs, at most one open-to-merge span exists in all, the merge lock is held exactly during a span, and the gauge counts exactly the waiters |
| `EngineTheorems.ProposalsHappenInSpan` | internal/deploy/engine.go:356-431 | a step makes at most one call, and opens, updates or merges a proposal only inside the merge span |
| `EngineTheorems.NoDeadlock` | internal/deploy/engine.go:734-759 | while a run is unfinished some run can step without anything being given up |
| `EngineTheorems.EveryRunEnds` | internal/deploy/engine.go:466-507 | without new requests the runs take boundedly many steps whatever the world answers, and the bound is used up exactly when all are over |
| `EngineTheorems.NothingMergesOnRed` | internal/deploy/engine.go:466-507 | each merge any run ever tried came straight after a green check of its own open proposal, and was at most that proposal's third |
| `EngineTheorems.MergedBeforeApplied` | internal/deploy/engine.go:431-454 | everything ever given to the applier main once held for that service, and a run that proposed had merged before |
| `EngineTheorems.HeldIsMainsHistory` | internal/gitops/repo.go:104-116 | whatever is recorded as once held was, at a moment of the trace, what main held |
| `EngineTheorems.AppliedOnlyWhatMainHeld` | internal/deploy/engine.go:568-600 | what a run is about to write to the host, main held at an earlier moment of the same trace |
| `EngineTheorems.RestoresWhatItReverts` | internal/deploy/engine.go:609-696 | the restore point pins the old digest and that is not the new one; what is restored on the host are the bytes every revert proposes |
| `EngineEndings.FailuresAreUndone` | internal/deploy/engine.go:431-454 | a deploy or rollback past its receipt that recorded its merge, inspected the host or applied its change ended healthy or entered the rollback, and no other run entered it; there it gave the applier its restore point, and ended rolled back if and only if that was probed healthy, having opened a revert with the same bytes; else the restore was the last thing tried and failed |
| `EngineEndings.ConvergeEndsAsProbed` | internal/deploy/engine.go:528-566 | a converge past its receipt failed having called nothing, or having applied one manifest without a passing probe, or was healthy with a passing one; it never opened, merged or restored anything |
| `EngineEndings.LastEventTellsThePlace` | internal/deploy/engine.go:320-696 | what an unfinished run last sent tells which stage it is in, in every reachable state |
| `EngineCourse.GoesThrough` | internal/deploy/engine.go:320-453 | with the locks free and every call answered well a deploy or rollback goes through: main, mirror and unit hold the rewritten file, the row has pull request, merge commit and healthy receipt, the events tell the whole lifecycle in order, and the engine's fields are as before |
| `EngineTheorems.OneReceiptPerRun` | internal/deploy/engine.go:761-789 | one terminal event per finished run, its last, and at most that for a killed one; a row is terminal exactly when finished, and says what that event said unless start-up closed it as failed |
| `EngineTheorems.ReceiptLandsIffWritten` | internal/deploy/engine.go:767-771 | over any trace from a fresh installation a row has its run's own receipt, saying what the event said, if and only if the write that went with the event landed; the event is sent either way |
| `EngineTheorems.HealthyIsBacked` | internal/deploy/engine.go:372-396 | a healthy row names a digest its own run applied with a passing probe or saw reported running, a converge whose pin moved included |
| `EngineTheorems.BareRollbackIsBacked` | internal/deploy/engine.go:172-178 | a rollback without a target resolves to another digest than the pin, that of the last started healthy row with one, and that row's own run saw it healthy |
| `EngineTheorems.ReceiptsStay` | internal/journal/journal.go:130-198 | over any continuation of the engine, crashes and restarts included, a finished row keeps every field |
| `EngineStart.PreparedIsAsked` | internal/deploy/engine.go:154-230 | a prepared request has its action and service; its digest is the one named, for a converge the pin, for a bare rollback the newest other healthy receipt's; it restores the mirror's file and proposes that file with the pin's window set to the digest |
| `EngineStart.RefusedIffItCannotStart` | internal/deploy/engine.go:154-230 | a request is refused if and only if there is no readable manifest, no well-formed target, or for other than a converge nothing to change exactly once, and the error names which |
| `EngineStart.RegisteredIsAsked` | internal/deploy/engine.go:232-298 | a request joins exactly the live entry of its service, kind and digest and then leaves nothing; otherwise one row and one run are added with its very fields, and the entry of its service unless one stands |
| `EngineStart.ProposesTheFileAsItIs` | internal/deploy/engine.go:360-411 | at the front the restore point is the mirror's file as it is then, the proposal is it with its pin's window set to the digest asked for, the inspector decides if it pins that already, and the run fails otherwise |
| `EngineTheorems.JoinIsSound` | internal/deploy/engine.go:236-247 | a click that joins gets a run that has not deregistered, of its service and kind, with its digest: for a deploy or rollback always, for a converge until the run has read what main pins |
| `EngineTheorems.NextKeepsPending` | internal/deploy/engine.go:272-278 | a pending entry changes only when its own run deregisters or the process ends |
| `EngineTheorems.PendingStands` | internal/deploy/engine.go:236-267 | over any continuation, while the entry's run is not over every matching click gets its id and adds no row |
| `EngineMirror.RestorePointIsMain` | internal/deploy/engine.go:364-409 | the restore point taken at the front is the mirror's file; where any run's merge is known to have moved main last, or nothing did, it is main's exactly when nothing did or that run's own request names these bytes: its restore point if the landing was its revert, its rewritten file otherwise; when nobody pushed and merges were exact this tells for every run |
| `EngineMirror.NextMirrored` | internal/gitops/repo.go:104-116 | every label keeps that the mirror is main where nothing moved main since, and that main holds the landing of the run known to have moved it last |
| `EngineMirror.AloneIffLeftAlone` | internal/gitops/github.go:353-367 | over any trace the engine stays alone if and only if nobody pushed and each landing was what its run proposed and checked, and was answered as a success |
| `EngineTheorems.RepositoryDescribesHost` | internal/deploy/engine.go:356-455 | the last run that touched a service leaves host and main equal when it ended healthy; rolled back, exactly when its revert merged, or it merged nothing and main held the restore point already when it took its lock, which never helps a run that applied its change |
| `EngineTheorems.MergedContentStays` | internal/deploy/engine.go:431-443 | however the last run that touched a service ended, failed or killed included: once it merged and did not revert, main holds what it proposed, and as long as it gave the applier nothing, the unit is what it was when the run took its lock |
| `EngineWitness.RolledBackForNothing` | internal/deploy/engine.go:364-397 | a reachable undisturbed world where a run rolled back, merged and reverted nothing, and main equals the host |
| `EngineWitness.RestorePointThatFailed` | internal/deploy/engine.go:364-409 | a reachable world, nobody pushing, where a deploy's restore point is the digest another was just taken back from |
| `EngineWitness.RestorePointDespiteMerges` | internal/deploy/engine.go:568-571 | a reachable world where main moved since the last sync and the restore point still is main's file |
| `EngineWitness.ReceiptLost` | internal/deploy/engine.go:767-771 | a reachable world with a run past its receipt, its terminal event sent, and its row still in flight |
| `EngineWitness.MergedUnchecked` | internal/gitops/github.go:353-367 | a reachable world, nobody pushing to main, where a run merged straight after the green check of its proposal and main holds something else |
| `EngineWitness.FailedCallsCanTakeEffect` | internal/gitops/github.go:353-367 | from any state a sync, a merge or a write to the host that is reported failed may have moved the mirror, main or the unit |
| `EngineWitness.UnitOfAnother` | internal/reconcile/apply.go:51-55 | a reachable world where a manifest names another service and a healthy run wrote that service's unit instead of its own |
| `EngineRuns.NextInv` | internal/deploy/engine.go:200-789 | every label of the system keeps the whole invariant |
| `EngineRuns.InPlaceStable` | internal/deploy/engine.go:741-759 | what one run relies on about main, mirror and host survives any step of a run that is not behind the same service lock |
| `EngineHost.StepInPlace` | internal/deploy/engine.go:320-696 | a step touches only its own service's main, and as long as manifests name their services only its own unit, under its lock, and leaves both as the run's place says |
| `EngineTargets.StepTargets` | internal/deploy/engine.go:356-409 | a step keeps where every applied manifest comes from, the restore point and the pending entry's target |
| `EngineReceipts.StepReceipts` | internal/deploy/engine.go:761-789 | a step writes only its own unfinished row: the pull request, the merge commit and a moved converge's digests where they are recorded, the state it announces and the receipt where the journal takes the write, and no other column; row and events stay in agreement and every healthy outcome backed |
| `EngineCalls.StepCalls` | internal/deploy/engine.go:466-507 | a step keeps the discipline of the run's calls and adds at most one |
| `EngineObject.Engine.constructor` | internal/deploy/engine.go:136-141 | a new engine holds no lock and has no pending entry |
| `EngineObject.Engine.Start` | internal/deploy/engine.go:236-267 | the critical section does what the system's registration does: joins without a row, or journals once and registers unless a live entry stands, or returns the insert's error and changes nothing |
| `EngineObject.Engine.QueueUp` | internal/deploy/engine.go:338-351 | announcing and starting to wait is the system's step from the sync to the wait |
| `EngineObject.Engine.EndWait` | internal/deploy/engine.go:741-759 | the select in lock is the system's step: the channel is filled only if it was empty, the gauge comes down, and up again when the merge lock is waited for next |
| `EngineObject.Engine.LockMergeQueue` | internal/deploy/engine.go:734-738 | taking the free merge lock is the system's step into the span, after which the run no longer counts as waiting |
| `EngineObject.Engine.LeaveInspected` | internal/deploy/engine.go:372-396 | the already-pinned branch leaves the span and is healthy exactly when the inspector saw the digest |
| `EngineObject.Engine.LeaveSpan` | internal/deploy/engine.go:364-431 | every other way out of the span, a failed read, rewrite, proposal or record, a loop given up, a merge landed, frees the merge lock as the system's step does |
| `EngineObject.Engine.BeginRevert` | internal/deploy/engine.go:656-660 | a revert attempt up to its wait for the merge lock is the system's step |
| `EngineObject.Engine.Finish` | internal/deploy/engine.go:767-771 | the receipt is the system's step, whether or not the journal takes it |
| `EngineObject.Engine.Release` | internal/deploy/engine.go:755 | emptying the channel is the system's step out of the lock |
| `EngineObject.Engine.Deregister` | internal/deploy/engine.go:272-278 | the deferred removal is the system's last step, and takes away no other run's entry |
| `MergeLoop.MergeThroughChecks` | internal/deploy/engine.go:466-507 | the loop makes the specified calls in order, and returns a merge commit exactly when the last call was a merge that succeeded |
| `MergeLoop.RevertOnce` | internal/deploy/engine.go:676-696 | one revert opens the original bytes and merges them through their checks |
| `MergeLoop.RevertMain` | internal/deploy/engine.go:653-674 | reverts are repeated until one merges, the context had ended by an attempt's last answer or ends during the pause, or the attempts are used up |
| `MergeLoop.WonByLastMerge` | internal/deploy/engine.go:466-507 | the loop's outcome is success exactly when its last call was a successful merge |
| `MergeLoop.RestoredByLastMerge` | internal/deploy/engine.go:653-674 | main is restored exactly when the last thing the revert did was a successful merge |
| `MergeLoop.LoopKeepsDiscipline` | internal/deploy/engine.go:461-507 | no merge without a green check just before it, at most three merges a proposal |
| `MergeLoop.LoopGivesUpOnlyIf` | internal/deploy/engine.go:466-507 | the merge loop is left without a merge only after red checks, a merge refused as the context ended, a branch that could not be updated, a pause cut short, or the third refused merge |
| `MergeLoop.LoopIsTheMachine` | internal/deploy/engine.go:466-507 | the loop and the program points of the transition system make the same calls in the same number of steps and leave at the same point |
| `MergeLoop.RevertIsTheMachine` | internal/deploy/engine.go:653-696 | so do the revert loop and its program points, attempt by attempt |
| `RevisionCache.KeysAreInjective` | internal/revision/revision.go:140 | two images whose digests hold no @ share a key only if they are the same image |
| `RevisionCache.CachedSource.CachedOrFilling` | internal/revision/revision.go:160-181 | a remembered success or a failure less than ten minutes old is answered and changes nothing; any other question waits on the key's fill, started only if there is none |
| `RevisionCache.CachedSource.StoreOutcome` | internal/revision/revision.go:198-203 | the outcome is stored, alone if the map was full, and the map never exceeds its bound |
| `RevisionCache.CachedSource.Publish` | internal/revision/revision.go:190-193 | a finished fill stores its outcome and frees its key |
| `RevisionCache.ReadTellsWhatIsRemembered` | internal/revision/revision.go:160-181 | in any state a lookup is answered with what is remembered, if that is a success or a failure less than ten minutes old, and otherwise waits on the fill of its own repository and digest |
| `RevisionCache.NextKeeps` | internal/revision/revision.go:139-203 | every interleaving step keeps keys in flight and live fills one-to-one with no success stored under them, and every entry an answer of its source |
| `RevisionCache.OnlyItsCallMoves` | internal/revision/revision.go:139-153 | a step moves no call but its own, a call asks for the same image for good, and giving up or waking leaves the cache alone |
| `RevisionCache.OneFillPerKey` | internal/revision/revision.go:174-179 | in every reachable state two resolving fills have different keys |
| `RevisionCache.ConcurrentLookupsShare` | internal/revision/revision.go:174-179 | while a key's fill is resolving no lookup starts another for it, so they cost one resolve |
| `RevisionCache.AnswersAgreeWithSource` | internal/revision/revision.go:139-181 | every answer, a commit or none, is what a completed resolve of that very repository and digest found, and the cache stays within 512 entries |
| `RevisionCache.SuccessIsNeverReplaced` | internal/revision/revision.go:198-203 | a stored success is left as it is by every step, or dropped with the whole map |
| `RevisionCache.WaiterIsWoken` | internal/revision/revision.go:146-153 | the fill a waiter waits on still publishes and closes its channel, and the waiter then wakes |
| `RevisionCache.WaiterGetsTheAnswer` | internal/revision/revision.go:139-195 | once its fill resolves, publishes and closes, a waiter wakes, asks again and is answered with what that fill found, a failure included |
| `RevisionCache.GivingUpChangesNothing` | internal/revision/revision.go:151-152 | whoever gives up, and whenever, the cache goes through the same states as if all had waited |
| `Broadcast.Broker.constructor` | internal/api/sse.go:43-45 | a new broker has no subscribers and counted no drops |
| `Broadcast.Broker.Subscribe` | internal/api/sse.go:47-55 | a new subscriber starts empty under an unused id and hears only what comes after |
| `Broadcast.Broker.Unsubscribe` | internal/api/sse.go:57-63 | the channel is closed once however often it is asked for, and keeps its buffer |
| `Broadcast.Broker.Offer` | internal/api/sse.go:72-83 | an event is buffered if there is room, else lost, warned about once and counted |
| `Broadcast.Broker.Publish` | internal/api/sse.go:68-85 | every open subscriber with fewer than sixty-four buffered events gets this one at the end, every other open one loses it and is warned, no closed one is touched, and all books still balance |
| `Broadcast.Broker.Receive` | internal/api/sse.go:139-146 | a reader gets the oldest buffered event, also after the close, and the end only once drained |
| `Broadcast.KeptIsInOrder` | internal/api/sse.go:68-85 | what a buffer took is an in-order subsequence of what was published, and with the losses it is all of it |
| `Broadcast.Conservation` | internal/api/sse.go:47-85 | received then buffered events embed in order into what was published; received, buffered and dropped add up to it |
| `Broadcast.SnapshotEvents` | internal/api/sse.go:154-168 | the loop collects the snapshot of the specification |
| `Broadcast.SnapshotIsInOrder` | internal/api/sse.go:154-190 | one event for each named, readable service whose newest row has no receipt, none for any other, in the order of the names, each with its row's id, service, action, state, start and pull request |
| `UiState.SetServices` | web/src/lib/state.ts:205-245 | the loops compute the catalog update of the specification |
| `UiState.RailsAfterCatalog` | web/src/lib/state.ts:218-236 | exactly which rails stand after a catalog: ended by a finished row at least as new, started from a running one with its id, state, start and pull request, else untouched |
| `UiState.CatalogIsLoaded` | web/src/lib/state.ts:205-245 | the rest of a catalog update: the list, the first address it gives or the one known, for each digest the commit of the last service that knows it or the one known; histories stay |
| `UiState.LinkNamesPullRequest` | web/src/lib/state.ts:119-125 | a link is the repository's address, /pull/ and the number in decimal digits without a leading zero; there is none without an address or a number |
| `UiState.OtherUpdates` | web/src/lib/state.ts:247-269 | a fetched history replaces its service's, found commits override known ones digest by digest, an error replaces the error and ends the loading; each changes nothing else |
| `UiState.ReplayChangesNothing` | web/src/lib/state.ts:141-196 | folding the same event in twice in a row is folding it in once |
| `UiState.ReceiptsStayUnique` | web/src/lib/state.ts:149-175 | over any stream of updates receipt ids stay unique per service, given that fetched ones are |
| `UiState.OutcomeIsShown` | web/src/lib/state.ts:145-175 | a terminal event ends its rail; if the history has the run, exactly its receipts get state, detail and finish and keep the rest; if not, the new receipt stands before all earlier ones, which stay; nothing else changes, and given unique ids one receipt has the outcome |
| `UiState.ProgressIsShown` | web/src/lib/state.ts:178-196 | a progress event's run, state and detail are on the rail, the start is the standing rail's or the event's, each link the event's or the standing one; nothing else changes |
| `UiState.LinksStay` | web/src/lib/state.ts:179-193 | until its service's terminal event or the next catalog a rail keeps the moment it began, no link once shown disappears, and without an event of its service nothing changes |
| `UiState.RailsAreTheirOwn` | web/src/lib/state.ts:179-193 | unless a progress event of another run met a standing rail, the rail's start, pull-request number and both addresses were said of the run it names |
| `UiState.HandoverIsCleanIff` | web/src/lib/state.ts:179-193 | when the first event of a run meets another's rail, all the rail then shows was said of the new run if and only if the old rail began at the same moment and had no link the event lacks, and if and only if it is the rail a fresh one would be |
| `UiState.DroppedTerminalMixesRuns` | web/src/lib/state.ts:179-193 | a dropped terminal frame leaves the next run under the old one's start and pull request; with the frame it is clean |
| `UiState.RailsWereSeen` | web/src/lib/state.ts:141-245 | whatever run a rail shows was named by an event or catalog the page received |
| `UiState.DroppedFramesHeal` | web/src/lib/state.ts:198-236 | whatever frames were dropped, a catalog whose last deploy is finished and at least as new as every run seen clears that service's rail |
| `UiState.SnapshotShowsWhatRuns` | internal/api/sse.go:150-168 | once a connection's snapshot is folded in, every service whose newest run is in flight shows that run in its journalled state |
| `Tokens.ParseScope` | internal/api/auth.go:223-235 | exactly the named actions, or the first unknown name |
| `Tokens.ParseTokenLine` | internal/api/auth.go:188-218 | the loop reads the line as the grammar says: hash, label, and a scope only in last place |
| `Tokens.ScanLines` | internal/api/auth.go:168-186 | the scanner's loop, over what one line means, reads the lines in order up to the first that is not good |
| `Tokens.ParseTokenHashFile` | internal/api/auth.go:168-186 | every token of the file in order, or the number of the first bad line; accepted exactly when every line is shorter than 65536 characters and good |
| `Tokens.UnscopedIffNoScopeField` | internal/api/auth.go:161-218 | a line is accepted and allows everything if and only if no field after the hash begins with s, c, o, p, e in either case; no label word ever does, a missing label reads cli, and the hash is the given one with its capitals lowered |
| `Tokens.ScopeIsWhatIsNamed` | internal/api/auth.go:30-51 | a scoped line allows an action exactly when its last field, after scope=, names it between commas, and only deploy, rollback and converge |
| `Tokens.FieldsOfSpread` | internal/api/auth.go:189 | however many blanks and tabs stand before, between and after them, the fields of a line are its words |
| `Tokens.AsciiSpace` | internal/api/auth.go:189 | among ASCII characters exactly tab to carriage return and the blank separate fields |
| `Tokens.OneBadLineRefusesAll` | internal/api/auth.go:168-186 | a file is accepted exactly when every line is good, and a refusal names the first that is not |
| `Tokens.LineRoundTrip` | internal/api/auth.go:188-235 | printing a hash, label words and an optional list of actions and parsing it gives them back, so an empty scope stays different from none |
| `Tokens.FileRoundTrip` | internal/api/auth.go:168-235 | so does printing and parsing a whole file, its last line ended or not |

## Left out

- HTTP handlers, authentication headers, constant-time comparison, the proxy secret, metrics, the CLI and the SSE wire format.
- Git, GitHub, SQLite, systemd, podman and the registry themselves: their calls are steps that may answer anything their callers allow for.
- YAML parsing, field checks and template rendering: `Config.parse` is any function from bytes to a digest and a template name. A restore renders with the current template, so nothing is claimed about the unit file it produces.
- An `Applied` call is noted also when reading the template fails before the applier is reached, and one that fails may or may not have written the unit.
- `SyncState`'s wording and the classification of sync failures; the branch names and titles of proposals; closing an abandoned pull request, which the engine does outside the merge span and whose result it ignores.
- Event details, addresses, actors and short digests in the engine; in the UI they are carried but not built, and how a row's detail and addresses read is a parameter.
- `LastHealthyDigest`, which no decision of the engine reads; `Drift`'s comparison and the registry watcher (Drift's sync is a step of its own).
- Real time: timeouts, poll intervals and backoffs are steps without duration; the cache's clock is a number that does not run backwards. A pause whose context ends may in the model still be left by its timer.
- `units` holds the manifest a unit was last written from, not the rendered file.
- A lock release is joined to the step before it where nothing observable lies between; a deploy's gauge counts it once through both of its waits, as the source's two counters add up to.
- Row ids and subscriber ids are positions from zero; SQLite and the broker count from one. Subscribers sit in a table under their id instead of behind a reference.
- CachedSource: the loop of `Lookup` and the goroutine around `Publish` are labels of the interleaving (`Read`, `Wake`, `Abandon`, `Fills`, `Closes`), not methods; what `resolve` does with labels and GitHub is not modelled, only what it answers.
- EngineObject: only the code that writes the engine's fields or the journal has methods; calls on git, GitHub, the host and the registry with nothing of that around them are steps of the transition system alone.
- MergeLoop.RevertMain: the pull-request trail it clears and fills in for events is modelled in the transition system, as `prNumber`, not in the loop.
- Tokens: letters and spaces are those of Unicode for spaces and of ASCII for lower-casing, and a line's length is counted in characters; the two agree with the source on ASCII files.
- States, statuses and service names sent to the UI are those the daemon sends; prototype keys of JavaScript objects are not modelled.
- Svelte components, routing, `setError`'s and `setRevisions`' callers, `updateAvailable` and `joinedNotice`.
