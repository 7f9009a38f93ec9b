# Archive custody model

A Dafny model of a document archive whose records outlive every caller: documents with
retention, legal holds, destruction, a supersession graph, stored bytes, signed decisions
about all of it, and an audit log. It is one specification read at three layers.

- **Atomic contract.** `transitions.dfy` says what each guarded repository transition
  decides and exactly which columns it writes. `repository.dfy`, `storage.dfy`,
  `purge_evaluation.dfy`, `service.dfy` and `archive_writer.dfy` are the imperative classes
  and programs, each proved equal to its specification; `transition_laws.dfy` says of the
  rows what each transition answers and writes, without those definitions;
  `custody_invariants.dfy`, `histories.dfy` and `supersession.dfy` prove what every
  transition and every run keeps.
- **Interleaved calls.** In `custody_threads.dfy` every service call is a thread with a
  program counter, every repository or storage call one atomic step, and every thread may
  crash anywhere. `custody_assertions.dfy` and `custody_steps.dfy` give a rely-guarantee
  argument, `custody_runs.dfy` lifts it to runs, `custody_theorems.dfy` and
  `custody_accounts.dfy` state what callers get; `custody_refusals.dfy` and
  `custody_witness.dfy` settle one answer exactly. `custody_undisturbed.dfy` and
  `custody_alone.dfy` show that each thread left alone is the service call it stands for;
  `custody_records.dfy` follows every hold and relationship row back to its callers.
- **PostgreSQL transactions.** `postgres.dfy` runs each repository call as SQL statements
  under row locks and READ COMMITTED (PostgreSQL manual, section 13.2.1): a blocked UPDATE
  re-checks the columns of the locked row while its subqueries keep an older snapshot.
  `postgres_refinement.dfy`, `postgres_saves.dfy` and `postgres_runs.dfy` prove that every
  interleaving refines the atomic contract up to `updated_at`; `postgres_locks.dfy` proves
  that it never deadlocks and that an uncontended transaction ends as the atomic call;
  `postgres_records.dfy` follows committed rows to their calls. `custody_calls.dfy` and
  `postgres_custody.dfy` run the service programs over these transactions and prove that
  every such run is a run of the interleaved calls, so that what callers get there they
  get here.

Beside them stand `lifecycle_keys.dfy` and `decision_ledger.dfy` (signed decisions under
rotating and revoked keys, over a ledger several processes share, with an ideal signature
in place of section 5.1 of RFC 8032), `decision_custody.dfy` (what those decisions say,
read off the interleaved and the committed archive), `composite_windows.dfy`
(window vectors over civil dates) and `audit_paging.dfy` (a log that grows under its own
reader). `records.dfy`, `platform.dfy` and `decision_actions.dfy` hold the shared records.

Identifiers are minted fresh: each admitted hold, relationship and document carries one
never used before. Test seeding is not a transition here; the results that hold on any
store, seeded or drifted ones included, say so.

Five places where the code is not what a reader might assume:

- `purge_state_changed` (src/app/archive/purge_transitions.py:109-112) reads as the mark of
  a guard without its branch. It is answered exactly when an active hold refused the grant,
  a hold of the document was released before the re-read, and re-read and listing both find
  the document idle: `CustodyRefusals`; `CustodyWitness.StateChangedIsReached` is a run.
- One request for a page of the audit log lists and counts in two repository calls
  (src/app/archive/service.py:252-253). An event recorded in between is counted but not
  listed, and `next_offset` may lead past it: `AuditPaging.CountedEventsAreSkipped`. A
  reader can tell: there is no gap if and only if every page with a next offset was full.
- A page limit of 1 is admitted, and a sole reader using it on a document with an event
  never reaches the end, because every page read appends an event first:
  `AuditPaging.FinishingIsExact` gives the exact condition.
- The replay ledger is closed by revoking the current signing key only. A decision signed
  by a key that has been rotated out and then revoked is still replayed; every consumer
  refuses it: `DecisionLedger.WithdrawalIsReachable`.
- `begin_purge` checks no retention. That an intent still implies a reached retention date
  is a fact about whole runs with a monotone clock and evaluation dates not after today:
  `CustodyTheorems.DestructionIsTruthful`.

## Model

| member | source | states |
|---|---|---|
| `Repository.InMemoryRepository.ActiveHoldCount` | src/app/archive/repository.py:427-432 | the loop over hold rows returns the number of active rows of the document |
| `Repository.InMemoryRepository.FindRecorded` | src/app/archive/repository.py:487-495 | the relationship recorded for exactly this source, target and kind, or none |
| `Repository.InMemoryRepository.Save` | src/app/archive/repository.py:157-190 | new state and answer are the atomic save: a new document, a touch of `updated_at` alone, a duplicate request, or refused history |
| `Repository.InMemoryRepository.BeginPurge` | src/app/archive/repository.py:192-221 | claims an intent once, never over an active summary or an active hold row; an existing intent is answered unchanged |
| `Repository.InMemoryRepository.AdmitAndRecordLegalHold` | src/app/archive/repository.py:223-256 | refused under an intent; otherwise hold row and recounted summary change together |
| `Repository.InMemoryRepository.RefreshLegalHoldSummary` | src/app/archive/repository.py:387-416 | writes the recount of the stored hold rows, or nothing when it agrees |
| `Repository.InMemoryRepository.ReleaseAndRecordLegalHold` | src/app/archive/repository.py:258-294 | releases an active row once, keeps earlier release facts, and recounts |
| `Repository.InMemoryRepository.MarkPurgeEligible` | src/app/archive/repository.py:296-329 | refused by intent, PURGED, active summary or active row; the first eligibility instant is kept |
| `Repository.InMemoryRepository.MarkPurgeNotEligible` | src/app/archive/repository.py:331-356 | refused by intent or PURGED; otherwise eligibility is withdrawn |
| `Repository.InMemoryRepository.CompletePurge` | src/app/archive/repository.py:358-385 | only under an intent; a second completion changes nothing |
| `Repository.InMemoryRepository.ApplyLifecycleTransition` | src/app/archive/repository.py:452-501 | replay, refusal, or both pointers and one relationship row, decided on the stored rows |
| `CustodyInvariants.TransitionsKeepInvariants` | src/app/archive/repository.py:157-501 | every transition with fresh identifiers keeps: summary equals active rows, no hold under intent, PURGED iff purge instant, request index, and the whole graph shape |
| `CustodyInvariants.TransitionsOnlyAccumulate` | src/app/archive/repository.py:157-501 | no transition reverts an input field, an intent, a purge instant, PURGED, a pointer, a release or a relationship row |
| `Histories.RunsKeepInvariants` | src/app/archive/repository.py:118-501 | any sequence of transitions keeps all invariants and only accumulates |
| `Histories.DriftedHoldsStillProtect` | src/app/archive/repository.py:192-221 | from any store whatever, drifted or seeded ones included, and over any history without a release of it, an active hold row alone keeps its document from being claimed, found eligible or marked purged |
| `Histories.NoHoldUnderIntent` | src/app/archive/repository.py:192-256 | no reachable store shows a destruction intent beside an active hold row |
| `TransitionLaws.SavingIsExact` | src/app/archive/repository.py:157-190 | a save succeeds iff nobody else's request owns it and it is new or differs in `updated_at` alone; each refusal has its condition; the row stored is the row given |
| `TransitionLaws.ClaimingIsExact` | src/app/archive/repository.py:192-221 | a claim is granted iff an intent exists, changing nothing, or neither summary nor any row shows an active hold; then intent and touch are the instant given and no other column moves |
| `TransitionLaws.GrantingIsExact` | src/app/archive/repository.py:296-329 | eligibility is granted iff no intent, not PURGED, no active summary and no active row; the first instant stays, no other column moves |
| `TransitionLaws.WithdrawingIsExact` | src/app/archive/repository.py:331-356 | eligibility is withdrawn iff no intent and not PURGED; no other column moves |
| `TransitionLaws.CompletingIsExact` | src/app/archive/repository.py:358-385 | completion succeeds iff an intent exists; it records PURGED and the instant once, no other column moves |
| `TransitionLaws.AdmittingIsExact` | src/app/archive/repository.py:223-256 | a hold is admitted iff the document exists without intent; its row is stored as given and the summary states the rows |
| `TransitionLaws.RefreshingIsExact` | src/app/archive/repository.py:387-416 | after a refresh the summary states the rows; a summary that did already is left alone |
| `TransitionLaws.ReleasingIsExact` | src/app/archive/repository.py:258-294 | a release of an active row records exactly the caller's actor, instant and reason and keeps every requested fact; a clear row keeps its own; the summary states the rows |
| `TransitionLaws.LinkingIsExact` | src/app/archive/repository.py:452-501 | on sound stores a transition succeeds iff it is recorded already or both documents exist, differ, are not PURGED or superseded and the target has no origin; unknown documents and unsupported transitions have their conditions, the rest conflicts; refusals and replays change nothing |
| `TransitionLaws.LinkingWritesExactly` | src/app/archive/repository.py:487-501 | a new link stores the row given, one successor pointer, the origin field of its kind, two touches, and nothing else |
| `Supersession.ResolutionIsExact` | src/app/archive/service.py:843-862 | on any store, cyclic ones included, resolution ends and its three outcomes are exactly: chain ends, chain revisits, chain dangles |
| `Supersession.SoundStoresResolve` | src/app/archive/service.py:843-862 | on sound stores resolution raises neither cycle nor missing document, and no document reaches itself |
| `Supersession.TransitionRedirectsExactly` | src/app/archive/repository.py:487-501 | linking s to t redirects exactly the documents on s's path, and t itself, to t |
| `Supersession.ReachableGraphsArePaths` | src/app/archive/lifecycle_transitions.py:27-70 | reachable pointers form disjoint simple paths with inverse pointers and one origin each; same current document iff on one path; current documents = documents less relationships |
| `Supersession.ReplayConverges` | src/app/archive/lifecycle_transitions.py:53-70 | a recorded transition repeated after any later history returns the recorded row and changes nothing |
| `Supersession.OneSuccessorEver` | src/app/archive/service.py:767-820 | of all transitions ever attempted from one source at most one distinct relationship is returned |
| `Storage.ObjectStorage.Put` | src/app/archive/storage.py:54-79 | checksum mismatch and unsafe key refused, otherwise exactly that key is replaced |
| `Storage.ObjectStorage.Delete` | src/app/archive/storage.py:87-90 | deletion is idempotent and touches one key |
| `Platforms.StorageKeysNameOneDocument` | src/app/archive/archive_writer.py:129-143 | equal storage keys have equal document ids, whatever the other parts contain |
| `Platforms.StorageKeysNameTheirDelivery` | src/app/archive/archive_writer.py:129-143 | where region, tenant and report type are single segments, equal keys have equal ones, and equal format names; a key lies under its region and tenant |
| `PurgeEvaluation.EvaluatePurge` | src/app/archive/purge_transitions.py:27-59 | the guarded program equals the classification of its snapshot, committed against the stored row |
| `PurgeEvaluation.WithdrawEligibility` | src/app/archive/purge_transitions.py:62-71 | the withdrawal, or the re-read explanation when it is refused |
| `PurgeEvaluation.ReclassifyRefusedTransition` | src/app/archive/purge_transitions.py:74-112 | the re-read classification, hold rows included; writes nothing |
| `PurgeEvaluation.EvaluationIsExact` | src/app/archive/purge_transitions.py:27-112 | from a current snapshot: eligible iff destruction began, or no active hold row and retention reached; only this row changes |
| `PurgeEvaluation.PurgeStateChangedIsExact` | src/app/archive/purge_transitions.py:74-112 | after a refusal: answered iff the re-read row shows no intent and no active hold and the later listing finds none; a refused grant was then refused by an active hold, a refused withdrawal never ends so |
| `PurgeEvaluation.EvaluationReasonsAreExact` | src/app/archive/purge_transitions.py:27-112 | from a current snapshot each of the six reasons is given iff its condition holds, the seventh never; status, first eligibility instant and touch follow it, no other column moves |
| `PurgeEvaluation.StaleEvaluationsAreExact` | src/app/archive/purge_transitions.py:27-71 | from any snapshot: what it decides alone writes nothing, a mark is written iff the stored row allows it, a refused mark is explained from the stored row |
| `PurgeEvaluation.RefusalsAreExplained` | src/app/archive/purge_transitions.py:74-112 | a refused mark is explained by destruction as far as it has come, else by an active hold of row or rows, else as a changed state, each iff |
| `CustodyRefusals.RereadIsExact` | src/app/archive/purge_transitions.py:84-100 | in any run the re-read goes on to the hold rows iff the document is idle then; otherwise it explains the refusal |
| `CustodyRefusals.ListingIsExact` | src/app/archive/purge_transitions.py:100-112 | in any run the listing answers `purge_state_changed` iff it finds no active hold row |
| `CustodyRefusals.StateChangedIsExplained` | src/app/archive/purge_transitions.py:109-112 | whenever a call of a run answers it: an active hold refused its grant, a hold of the document was released before the re-read, and re-read and listing both found the document idle |
| `CustodyRefusals.UnreleasedRefusalsAreExplained` | src/app/archive/purge_transitions.py:74-112 | with no release of a hold of the document between refusal and re-read it is never answered |
| `CustodyWitness.StateChangedIsReached` | src/app/archive/purge_transitions.py:109-112 | a run from the empty system in which it is answered |
| `Service.ArchiveService.PurgeDocument` | src/app/archive/service.py:305-370 | with a clock read of its own at each repository call, the program equals its specification and, on sound stores, has exactly the outcomes of `PurgeOutcome` and keeps every invariant |
| `Service.PurgeIsExact` | src/app/archive/service.py:305-370 | each answer of an undisturbed purge holds iff its condition does; success erases exactly the document's object; a refusal withdraws eligibility, a failed deletion leaves the intent, no column outside the purge's own moves |
| `Service.PurgeKeepsInvariants` | src/app/archive/service.py:305-370 | a purge keeps every store invariant and reverts nothing |
| `Service.PurgeIsIdempotent` | src/app/archive/service.py:342-370 | after a success and any later transitions every call answers the same purge instant and changes nothing |
| `Service.ArchiveService.SetLegalHold` | src/app/archive/service.py:373-436 | a hold active for the same document, reason and authority is returned, an intent refuses, otherwise one new active row that names its caller and instant and carries no release, and an agreeing summary |
| `Service.ArchiveService.ReleaseLegalHold` | src/app/archive/service.py:439-472 | unknown or foreign hold refused; otherwise an active row records the caller's actor, instant and reason field by field, requested facts stay, and exactly that hold leaves the active set |
| `Service.ArchiveService.ResolveCurrentDocument` | src/app/archive/service.py:843-862 | the loop returns what the recursive walk returns, and ends on every store |
| `Service.ArchiveService.ApplyLifecycleTransition` | src/app/archive/service.py:736-841 | on sound stores: success iff recorded or linkable, each refusal under its condition; a new row names the caller, the instant and the reason code of its kind; a success comes with the target's current document |
| `CustodyAssertions.AssertionsAreStable` | src/app/archive/service.py:305-436 | what each thread knows at each program point survives every step of every other thread |
| `CustodyRuns.RunsAreSound` | src/app/archive/service.py:280-472 | every state of every interleaving of purge, evaluation, decision, hold, release, transition, resolution and archive calls, with crashes anywhere, satisfies the system invariant |
| `CustodyRuns.RunsOnlyAccumulate` | src/app/archive/repository.py:192-501 | between any two moments of a run nothing archived, destroyed or linked reverts |
| `CustodyUndisturbed.UndisturbedPurgeIsTheMethod` | src/app/archive/service.py:305-370 | the interleaved purge program, left alone with an environment per step, leaves the store, objects and answer of the purge method on the clock those steps read, storage failure included |
| `CustodyAlone.UndisturbedHoldIsTheMethod` | src/app/archive/service.py:373-436 | the hold thread left alone answers and stores what `set_legal_hold` does |
| `CustodyAlone.UndisturbedReleaseIsTheMethod` | src/app/archive/service.py:439-472 | the release thread left alone answers and stores what `release_legal_hold` does |
| `CustodyAlone.UndisturbedTransitionIsTheMethod` | src/app/archive/service.py:736-820 | the transition thread left alone answers and records what the service's transition does on a sound store |
| `CustodyAlone.UndisturbedResolutionIsTheMethod` | src/app/archive/service.py:843-862 | the resolution thread left alone, given as many steps as its path is long, answers what the loop does on any store |
| `CustodyAlone.UndisturbedDeliveryIsTheMethod` | src/app/archive/archive_writer.py:32-103 | the writer thread left alone is the delivery, storage and repository failures and compensation included |
| `CustodyAlone.UndisturbedPosturesAreTheMethods` | src/app/archive/service.py:106-303 | the retention, evaluation and decision threads left alone answer the refreshed row, the row the evaluation left, or its signed action |
| `CustodyRecords.HoldRowsNameTheirCallers` | src/app/archive/service.py:373-472 | every hold row of every interleaving was recorded by one hold call as its caller asked; a clear one was cleared by one release call of that hold and document and carries that caller's actor, instant and reason ever after |
| `CustodyRecords.RelationshipsNameTheirCallers` | src/app/archive/service.py:767-820 | every relationship row of every interleaving was added by one transition call as its caller asked, at a moment when both documents existed, neither PURGED nor superseded |
| `CustodyTheorems.ReturnedHoldsPreserveBytes` | src/app/archive/service.py:373-436 | from the step that returns a hold until a release of it that names its document, the archived bytes are present and unchanged, under every interleaving |
| `CustodyTheorems.DestructionIsTruthful` | src/app/archive/service.py:342-370 | with crashes: absent bytes imply intent; PURGED implies intent, instant and absent bytes; an intent implies retention reached and no active hold |
| `CustodyTheorems.DestructionIsFinal` | src/app/archive/repository.py:358-385 | intent, purge instant and PURGED never revert along a run |
| `CustodyTheorems.StartedPurgesComplete` | src/app/archive/service.py:342-370 | from any started state one uncontended call, an environment per step, reaches PURGED unless its deletion fails, keeping intent and any recorded instant, else recording its last step's |
| `CustodyTheorems.PurgesAnswerOneInstant` | src/app/archive/service.py:305-370 | of all purge calls for a document in a run, every one that reports destruction reports the same purge instant and intent |
| `CustodyAccounts.StorageIsConserved` | src/app/archive/archive_writer.py:75-103 | stored keys are exactly those of unerased documents, of writers in flight, and of failed writers |
| `CustodyAccounts.CompensationIsComplete` | src/app/archive/archive_writer.py:98-103 | unless a writer crashes after its put or its deletion fails, nothing is stranded |
| `CustodyAccounts.DocumentsShareNothing` | src/app/archive/archive_writer.py:129-143 | distinct documents never share a stored object or an archive request |
| `CustodyAccounts.DecisionsAreTruthful` | src/app/archive/idea_lifecycle_decisions/service.py:253-276 | every signed action was true of the archive at a moment of its own call |
| `CustodyAccounts.ConcurrentTransitionsConverge` | src/app/archive/service.py:767-820 | all successful transitions from one source, in any interleaving, return the same relationship |
| `CustodyAccounts.ResolutionsNeverFail` | src/app/archive/service.py:843-862 | a resolution that found its document goes on or ends, however the graph grows meanwhile |
| `CustodyAccounts.ResolutionsLinearize` | src/app/archive/service.py:843-862 | the document a resolution returns was the current one of its document, as its row stood, at a moment of its own call |
| `ArchiveWriters.ArchiveWriter.ArchiveDocument` | src/app/archive/archive_writer.py:32-103 | answer, store and objects are those of the delivery specification, compensation included |
| `ArchiveWriters.ArchiveWriter.HeldUnderAnotherReference` | src/app/archive/archive_writer.py:60-70 | the loop finds a document with the same bytes under another reference iff one exists |
| `ArchiveWriters.FirstDeliveryIsExact` | src/app/archive/archive_writer.py:32-103 | for an unrecorded request: accepted iff the format is, a declared checksum agrees, nobody holds the bytes under another reference, the key is safe and nothing fails; each refusal has its condition and leaves nothing; success adds one row with exactly what was delivered and no history, and one object |
| `ArchiveWriters.RedeliveryIsExact` | src/app/archive/archive_writer.py:71-127 | under a recorded request id the original is answered iff format, declared checksum, bytes and every supplied field agree, and each refusal has its condition; nothing changes either way |
| `ArchiveWriters.RedeliveryIsIdempotentForLife` | src/app/archive/archive_writer.py:105-127 | after any transitions, erasures and other deliveries the same input and bytes answer the original document and change nothing |
| `ArchiveWriters.HistoriesKeepReferences` | src/app/archive/archive_writer.py:54-70 | one checksum carries at most one document reference, over every history |
| `ArchiveWriters.NewIdsAreUnused` | src/app/archive/archive_writer.py:75-76 | over every history a newly minted plain identifier names no document and no stored key |
| `ArchiveWriters.FirstDeliveryIsRecorded` | src/app/archive/archive_writer.py:75-103 | a first success records exactly what was delivered and stores exactly its bytes |
| `ArchiveWriters.FailedDeliveriesLeaveNothing` | src/app/archive/archive_writer.py:98-103 | a refused or failed delivery leaves neither record nor object |
| `PostgresRefinement.CommitIsAtomic` | src/app/archive/postgres_repository.py:298-718 | the writes a transaction commits are the atomic transition on the committed store, same answer, modulo `updated_at` |
| `PostgresRefinement.GrantStep` | src/app/archive/postgres_repository.py:298-352 | a lock granted over an arbitrarily old subquery snapshot leaves a claim only where the current row has no hold |
| `PostgresRefinement.TxnStable` | src/app/archive/postgres_repository.py:513-546 | what a transaction knows under its locks survives every other commit |
| `PostgresRefinement.NoUniqueViolation` | src/app/archive/postgres_repository.py:701-711 | from sound states no second relationship row for a source or target is attempted |
| `PostgresRuns.DbStepKeeps` | src/app/archive/postgres_repository.py:298-718 | every statement, commit, abort and insert keeps the database invariant and refines the atomic contract |
| `PostgresRuns.CommittedStatesAreSound` | src/app/archive/postgres_repository.py:354-612 | each committed state has count = active rows, ACTIVE iff positive, and no intent beside an active row |
| `PostgresRefinement.CommitIsExact` | src/app/archive/postgres_repository.py:298-718 | to the last column a commit is the atomic transition, once a row it rewrites in vain has been saved again as it was |
| `PostgresSaves.SaveCommits` | src/app/archive/postgres_repository.py:279-296 | committing the insert of a new document is the atomic save of it |
| `PostgresSaves.KeysNeverConflict` | src/app/archive/postgres_repository.py:279-296 | of the unique indexes only the one on the request id ever blocks or refuses a save |
| `PostgresRuns.SavesLinearize` | src/app/archive/postgres_repository.py:279-296 | every save's answer - recorded, refused by its read, refused by an index after waiting - is the atomic save's on a state committed while it ran |
| `PostgresRuns.TransactionsRefineAtomicSteps` | src/app/archive/postgres_repository.py:279-718 | any interleaving of statements, saves included, commits an admissible history of atomic calls and holds what the in-memory repository holds after it, modulo `updated_at` |
| `PostgresRuns.CommittedGraphsArePaths` | src/app/archive/postgres_repository.py:623-718 | every committed supersession graph is a set of disjoint simple paths |
| `PostgresRuns.CommittedHoldsForbidIntent` | src/app/archive/postgres_repository.py:354-407 | from its commit until a release of it commits, a hold is active and its document without intent |
| `PostgresRecords.CommittedHoldsNameTheirCalls` | src/app/archive/postgres_repository.py:354-612 | every committed hold row was committed by one admission, stands as admitted while active, and once clear carries the facts of the one committed release that cleared it |
| `PostgresRecords.CommittedRelationshipsNameTheirCalls` | src/app/archive/postgres_repository.py:623-718 | every committed relationship row was added by one committed transition between documents committed then, neither PURGED nor superseded |
| `PostgresRecords.PostgresHoldsNameTheirCallers` | src/app/archive/postgres_repository.py:354-612 | over PostgreSQL each hold row and each clearing goes back to the call that asked for it, in the atomic run the run passes through |
| `PostgresRecords.PostgresRelationshipsNameTheirCallers` | src/app/archive/postgres_repository.py:623-718 | over PostgreSQL each relationship row goes back to the transition call that asked for it, in the atomic run the run passes through |
| `PostgresCustody.PostgresRunsAreCustodyRuns` | src/app/archive/postgres_repository.py:279-718 | every run of the service programs over transactions of statements passes, in order, through the states of one run of the atomic thread system |
| `PostgresCustody.PostgresDestructionIsTruthful` | src/app/archive/service.py:342-370 | over PostgreSQL, crashes and aborts included: absent bytes imply intent, PURGED implies intent, instant and absent bytes, an intent implies retention reached and no active hold |
| `PostgresCustody.PostgresHoldsPreserveBytes` | src/app/archive/service.py:373-436 | from a hold's commit until a release of it commits the archived bytes are present and unchanged |
| `PostgresCustody.PostgresOnlyAccumulates` | src/app/archive/postgres_repository.py:279-718 | between any two moments of a PostgreSQL run nothing archived, destroyed or linked reverts |
| `PostgresCustody.PostgresStorageIsConserved` | src/app/archive/archive_writer.py:75-103 | over PostgreSQL the stored keys are exactly those of unerased documents, of writers in flight, and of failed writers |
| `PostgresCustody.PostgresDecisionsAreTruthful` | src/app/archive/idea_lifecycle_decisions/service.py:253-276 | over PostgreSQL every signed action was true of a committed state at a moment of its own call |
| `PostgresCustody.PostgresPurgesAnswerOneInstant` | src/app/archive/service.py:305-370 | over PostgreSQL all purge calls that report destruction of a document report one purge instant |
| `PostgresRuns.PerformRespects` | src/app/archive/repository.py:157-501 | no transition's outcome depends on `updated_at` |
| `PostgresRuns.EndedAnswers` | src/app/archive/postgres_repository.py:330-352 | every answer, refusals and replays included, is the atomic contract's answer on a state committed while the transaction ran |
| `PostgresLocks.WaitsAreAcyclic` | src/app/archive/postgres_repository.py:655-665 | no cycle of transactions waiting for each other's rows |
| `PostgresLocks.RunsNeverDeadlock` | src/app/archive/postgres_repository.py:655-665 | in every state of every run with an open transaction, some transaction can take its next statement or commit |
| `PostgresLocks.TransactionsAreShort` | src/app/archive/postgres_repository.py:298-718 | no transaction of any run takes more than six statements, whatever it waits for |
| `PostgresLocks.UncontendedTransactionsEnd` | src/app/archive/postgres_repository.py:298-718 | a transaction nobody contends with ends after at most six statements and a commit, having done and answered what the atomic call does where it started, modulo `updated_at` |
| `PostgresLocks.SavesNeverDeadlock` | src/app/archive/postgres_repository.py:279-296 | an open save, or the save whose index entry it waits for, can go on |
| `PostgresLocks.HoldRowsAreUncontended` | src/app/archive/postgres_repository.py:569-588 | a release never finds its hold row written by another open transaction |
| `PostgresLocks.RelationshipRowsAreUncontended` | src/app/archive/postgres_repository.py:701-711 | the unique indexes neither refuse nor block a transition about to insert its row, committed or not |
| `Postgres.BeforeIsTotal` | src/app/archive/postgres_repository.py:655-656 | the sorted lock order is total |
| `Postgres.BeforeIsOrder` | src/app/archive/postgres_repository.py:655-656 | the sorted lock order is irreflexive and transitive |
| `LifecycleKeys.AcceptanceIsExact` | src/app/archive/idea_lifecycle_decisions/signing.py:194-246 | for any bundle and any decision: accepted iff exactly one entry has the id and it is unrevoked, managed, in window at the claimed issue time, the signer of exactly these fields, and not expired |
| `LifecycleKeys.RefusalsAreExact` | src/app/archive/idea_lifecycle_decisions/signing.py:194-246 | for any bundle and any decision each of the seven refusals is given iff its condition holds, in the consumer's order |
| `LifecycleKeys.PublishedIsExact` | src/app/archive/idea_lifecycle_decisions/service.py:87-149 | the bundle is the signing key, open and active, and every retained key, closed and rotated; a revoked id is published as revoked, and only such |
| `LifecycleKeys.ValidSettingsAreExact` | src/app/archive/settings.py:116-160 | settings start up iff, outside the local profile, a managed key with a start is configured, retained windows are windows, every id is published once and only published ids are revoked |
| `LifecycleKeys.StartUpRefusalsAreExact` | src/app/archive/settings.py:116-160 | each start-up refusal is given iff its check is the first to fail |
| `LifecycleKeys.ChangesPublish` | src/app/archive/idea_lifecycle_decisions/service.py:87-149 | a rotation publishes the new key under its id, open from its instant; a revocation adds no key and one revoked id |
| `LifecycleKeys.WindowsPartitionTime` | src/app/archive/idea_lifecycle_decisions/service.py:87-149 | published half-open windows partition all time from the first start |
| `LifecycleKeys.ValidIdsAreSole` | src/app/archive/settings.py:128-160 | validated settings publish no key id twice |
| `LifecycleKeys.KeysStayPublished` | src/app/archive/idea_lifecycle_decisions/service.py:110-139 | a rotation or revocation keeps every key's id, public half and start, closes only the signing window, revokes only the named key |
| `DecisionLedger.IssuedDecisionsStayVerifiable` | src/app/archive/idea_lifecycle_decisions/signing.py:194-246 | after any history a recorded decision verifies iff unexpired, key unrevoked, issued in its key's window |
| `LifecycleKeys.RotationKeepsHistory` | src/app/archive/idea_lifecycle_decisions/signing.py:221-236 | a rotation keeps decisions issued before it and refuses later ones under the old key, at the instant itself too |
| `DecisionLedger.LifecycleDecisionService.Issue` | src/app/archive/idea_lifecycle_decisions/service.py:151-250 | answer and ledger are those of the issuing specification, in the order of its refusals, a caller without tenant among them |
| `DecisionLedger.LifecycleDecisionService.Save` | src/app/archive/idea_lifecycle_decisions/repository.py:48-69 | the entry is inserted, or on conflict the recorded decision of an equal request, or a conflict |
| `DecisionLedger.PreparationIsExact` | src/app/archive/idea_lifecycle_decisions/service.py:161-234 | each answer before the save has its condition; what is signed certifies the posture field by field: request, tenant, region, policy, holds, purge status, an action and reason given by cases, a lifetime of exactly the ttl, under the current key |
| `DecisionLedger.IssuesAreExact` | src/app/archive/idea_lifecycle_decisions/service.py:151-250 | under a new idempotency key an issue succeeds iff the signer is unrevoked, a tenant asks, and the posture is its proof pack with a policy and a region code; it enters exactly the decision that certifies the posture, or nothing |
| `DecisionLedger.FirstDecisionIsKept` | src/app/archive/idea_lifecycle_decisions/repository.py:48-69 | a save never replaces an entry: a new key is entered, an equal request gets the entry, a different one conflicts |
| `DecisionLedger.EntriesCertifyTheirPosture` | src/app/archive/idea_lifecycle_decisions/service.py:151-250 | over any history of look-ups, racing saves, rotations and revocations, every entry was asked for under its key and certifies the posture it was asked on, signed by the key that signed then |
| `DecisionActions.ActionsAreExact` | src/app/archive/idea_lifecycle_decisions/service.py:253-276 | executed iff purged or begun, else held iff active, else disposal-eligible iff eligible, else retain; each of the five reasons has its condition |
| `DecisionCustody.PayloadsAreTruthful` | src/app/archive/idea_lifecycle_decisions/service.py:193-234 | a payload that certifies the posture a thread of a run read was true of the archive - holds, their number, purge status, policy, action - at a moment of that thread's own call |
| `DecisionCustody.LedgersAreTruthful` | src/app/archive/idea_lifecycle_decisions/service.py:151-250 | over any ledger history whose postures were read in a run, every decision the ledger holds was true of the archive at some moment |
| `DecisionCustody.PostgresPayloadsAreTruthful` | src/app/archive/idea_lifecycle_decisions/service.py:193-234 | and over PostgreSQL, of what was committed and stored at a moment of the reading call |
| `DecisionLedger.TimelyDecisionsVerify` | src/app/archive/idea_lifecycle_decisions/signing.py:194-246 | if every rotation comes after the issue times before it, a recorded decision verifies until it expires or its key is revoked, and not after |
| `DecisionLedger.OneDecisionPerKey` | src/app/archive/idea_lifecycle_decisions/service.py:180-232 | whatever processes race between look-up and save, all successful answers under one idempotency key are the same decision |
| `DecisionLedger.WithdrawalIsReachable` | src/app/archive/idea_lifecycle_decisions/service.py:161-168 | from any first configuration: a granted request is recorded, its key rotated out and revoked, the decision replayed, and every consumer refuses it |
| `DecisionLedger.DecisionsReplay` | src/app/archive/idea_lifecycle_decisions/service.py:185-191 | a recorded idempotency key answers the recorded decision for good, or conflicts, or the current signer is revoked |
| `DecisionLedger.WithdrawnDecisionsAreReplayed` | src/app/archive/idea_lifecycle_decisions/service.py:161-168 | a recorded decision is replayed iff the current signing key is not revoked; consumers refuse it as withdrawn iff its own key is |
| `AuditPaging.InMemoryAccessAudit.Record` | src/app/archive/audit.py:86-88 | appends one event |
| `AuditPaging.InMemoryAccessAudit.ListByDocumentId` | src/app/archive/audit.py:90-101 | the filtered log sliced by offset and limit |
| `AuditPaging.InMemoryAccessAudit.CountByDocumentId` | src/app/archive/audit.py:102-103 | the length of the filtered log |
| `AuditPaging.MatchingIsExact` | src/app/archive/audit.py:90-103 | the filtered log is the document's events, all of them, each once, in the order recorded |
| `AuditPaging.SlicesAreExact` | src/app/archive/audit.py:98-100 | a page is the items from its offset on, in order, and stops early only at its limit |
| `AuditPaging.InMemoryAccessAudit.ReadPage` | src/app/archive/service.py:231-254 | record, list and count in turn, for a request during which nobody else records: page, total and `next_offset` of the grown log |
| `AuditPaging.PageIsExact` | src/app/archive/api.py:480-487 | a page with a next offset is the stretch of the log it stands for iff it is full, others recording between its listing and its count included |
| `AuditPaging.PagesAreTheLog` | src/app/archive/api.py:480-487 | whatever others record, before, during and between requests: the pages are the log up to the offset, or whole as last listed, without gap or repeat, iff every page with a next offset was full |
| `AuditPaging.UninterruptedPagesAreFull` | src/app/archive/service.py:251-254 | requests nobody interrupts between listing and counting leave no gap |
| `AuditPaging.CountedEventsAreSkipped` | src/app/archive/service.py:251-254 | an event recorded between a listing and its count, and never delivered |
| `AuditPaging.SoleReaderFinishes` | src/app/archive/api.py:480-487 | with limit L of at least 2 and N events a sole reader takes exactly N/(L-1) pages rounded up, and has then read the final log |
| `AuditPaging.FinishingIsExact` | src/app/archive/api.py:469-487 | a sole reader finishes iff the limit is at least 2 or there was nothing to read |
| `CompositeWindows.WindowsCoverTheHorizonOnce` | src/app/archive/composite_identity.py:52-64 | an admitted selection covers each day of its horizon exactly once and no other day |
| `CompositeWindows.PartitionsAreContiguous` | src/app/archive/composite_identity.py:61-63 | windows in order that cover each day once pass the contiguity check |
| `CompositeWindows.AdmittedIsExact` | src/app/archive/composite_identity.py:28-64 | admitted iff 1 to 120 windows of different materializations, each naming nonblank sources and not inverted, from the first day of the horizon to the last, each beginning the day after the one before |
| `CompositeWindows.VectorRefusalsAreExact` | src/app/archive/composite_identity.py:50-64 | each refusal of the vector has its condition, in order; the last ones iff some first pair does not follow |
| `CompositeWindows.NextDayCounts` | src/app/archive/composite_identity.py:61-63 | the next day has the next day number of the Gregorian calendar |
| `CompositeWindows.NextDayIsNext` | src/app/archive/composite_identity.py:61-63 | no date lies between a day and the next, month ends and leap years included |
| `CompositeWindows.MonthsAreConsecutive` | src/app/archive/composite_products.py:29-37 | contiguous complete months are consecutive months |
| `CompositeWindows.CalendarProductsAreTheirYear` | src/app/archive/composite_products.py:40-61 | admitted iff the k-th of twelve windows is exactly month k of the year |
| `CompositeWindows.SubvectorsAreSlices` | src/app/archive/composite_products.py:122-129 | the subvector check admits exactly the contiguous slices of the primary windows |
| `CompositeWindows.ContiguityIsExact` | src/app/archive/composite_identity.py:61-63 | the pairwise loop passes iff every window begins the day after the one before; it also refuses where that day cannot be formed |
| `CompositeWindows.IdentitiesAreExact` | src/app/archive/composite_products.py:80-134 | an identity passes every validator iff it has 1 to 8 products, all its windows cover their horizons as above, its product keys are unique and each product is in scope, answered by its own response, and the year of months or the last months it names |
| `CompositeWindows.ProductRefusalsAreExact` | src/app/archive/composite_products.py:29-92 | each refusal of one product has its condition, in order |
| `CompositeWindows.ScopeRefusalsAreExact` | src/app/archive/composite_products.py:106-134 | the scope loop stops at the first product out of scope and names why |
| `CompositeWindows.TrailingProductsAreSuffixes` | src/app/archive/composite_products.py:118-133 | a trailing product of n months is in scope iff it is exactly the last n primary windows |

## Left out

- Authorization, tenant and region scoping, caller allow-lists and the contents of audit events other than what paging needs.
- HTTP routing, request parsing, metrics, logging, readiness and build metadata.
- S3 and database drivers, connection pools, timeouts and ambiguous commits: a commit either happens or does not.
- SHA-256, Ed25519, base64 and canonical JSON: a checksum and a payload digest are arbitrary functions; a signature can be made only by the key's holder and fits one message; a decision's id is the pair its hash is taken of; equal request fingerprints mean equal requests.
- Artifact format validation: a deterministic predicate on format, media type and bytes.
- Unicode lower-casing in storage keys: an arbitrary function; keys are injective for every such function.
- Filesystem paths, temporary files and path normalisation: storage is a map, an unsafe key a predicate on keys.
- The document's descriptive fields: those no modelled rule names are one map, compared as a whole.
- Platforms.StorageKeysNameOneDocument: minted ids are assumed to contain neither `/` nor `.`, as a prefix with hexadecimal digits does.
- ArchiveWriters.RedeliveryIsIdempotentForLife: for writer calls that do not overlap, because the reference check is check-then-act; concurrent writers are covered by the storage and request-id results instead.
- Service.ArchiveService.SetLegalHold: that an equal active hold is never recorded twice is claimed for calls that do not overlap only; the duplicate check is check-then-act.
- Service.ArchiveService.ApplyLifecycleTransition: on drifted stores only the guarded transition itself is specified, not the service's two resolution walks around it.
- CustodyAccounts.ConcurrentTransitionsConverge: the interleaved transition thread omits the resolution walks before and after the transition; those are the resolving threads, which only read.
- PostgresRuns.TransactionsRefineAtomicSteps: saves are those of new documents, as the writer makes them; the branch of the same statement that touches an existing row is in the atomic contract only. A transaction whose re-check fails is modelled as letting its row go at once, although PostgreSQL keeps the lock until the transaction ends a moment later.
- PostgresCustody.PostgresRunsAreCustodyRuns: an aborted transaction ends its caller, or sends a writer to its compensation; a commit whose outcome the caller never learns is not modelled.
- AuditPaging.PagesAreTheLog: the log is kept in the order events are appended, as the in-memory repository keeps it; the PostgreSQL audit table orders by creation instant, so an event recorded late with an early instant is not modelled.
- Reads that return lists of documents, holds or relationships in order, batch lookups, and the download of a document's bytes: they decide nothing.
- Migrations, the repair of legacy drifted rows, and the indexes beyond one successor and one origin.
- DecisionLedger.IssuedDecisionsStayVerifiable: starts from one production configuration without retained keys and follows the documented rotation procedure; retained windows an operator writes by hand may leave gaps or overlap, which settings validation does not check.
- DecisionLedger.LifecycleDecisionService.Issue: authorization and audit records are left out; the posture it signs is a parameter, and `DecisionCustody` ties it to the decision threads that read it. The signed fields that are constants are left out, save that disposal is never authorized.
- Malformed key material: base64 decoding of published keys and of the private key.
- The version 3 to 8 composite identities, digests, identifiers' patterns and other single-field checks.
