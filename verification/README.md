# Verification of the interview backend's protocols

This project models the database-backed protocols of the interview backend in Dafny and proves what they keep over
whole runs. `dafny verify dfyconfig.toml` checks everything.

- **P2 memory** (`MemoryP2*`, `RevisionChains`, `MemoryGate`): a worker freezes a checkpoint under a lease token, then
  commits layer revisions or terminalizes; recoverers claim expired leases or apply compare-and-set commands planned
  from a re-read record; a reader accepts only what it can check. `MemoryP2Writes` defines every transaction as a
  function on the tables, `MemoryP2Repository` is the class that performs them in place and is proved to do exactly
  that, and the other modules prove fencing, chains, read-back, replay and recovery about those functions. The planning
  of recovery is first treated over arbitrary records (`MemoryP2Recovery`, `MemoryP2RecoveryPass`), then over the records
  of reachable stores (`MemoryP2StoredRecovery`, `MemoryP2StoredPasses`, `MemoryP2StoredCommits`); the `MemoryP2*Witness`
  modules hold concrete runs.
- **Decision traces** (`DecisionTraceRecovery`): repair of an attempt, its job and its trace after a crash.
- **AI jobs and the maintainer** (`AiJobs`, `MaintainerContract`, `WriteBack`, `MaintainerThreads`,
  `MaintainerBatches`): trigger dedupe and retries, drift checks at write-back, park and resume of threads, consumption
  of transcript segments.
- **Derived outputs** (`OutputEligibility`, `AiRetention`, `RetentionCleanup`): the recursive eligibility check, the
  retention service that hides roots under it, and the purge of hidden roots.
- **Smaller cores**: `CanonicalJson`, `LongConsolidation`, `AudioStorage`, `AudioObjects`, `LoginThrottle`.

## Conventions

- Identifiers are natural numbers and instants integers; format checks on identifiers, dates and digests hold by typing.
  A row with a random identifier sits in a sequence and its position is its identifier; rows with identifiers given by
  the caller sit in maps.
- A digest is an injective constructor applied to what it is taken of.
- A transaction is one step: it returns the new tables or an error that leaves them as they were. The clock only moves
  forward. Policy, consent, assignment and authorization are inputs of a step; so are failures of the provider and of
  the storage. What the source does outside a transaction, or in several, is several steps.
- The checks, unique keys and deferred triggers of the database are part of the P2, job and write-back transactions where
  they concern modelled columns: what they refuse is an error, `UniqueViolation` or `ConstraintViolation`. Those the
  program's own checks already imply are not repeated.
- P2 runs start on an empty store or on one as the migration leaves it: slots with the chains of resolutions it found,
  and no row of the protocol.
- Classes hold the tables as fields. Each of their methods follows the source's loops and updates, and is proved equal
  to the function the theorems are about.

## What the code does differently from what it promises

Each of these is proved by the members it names, with the exact condition where there is one.

- A planned `preserve_committed` command never passes its own compare-and-set (`PreserveCommittedNeverMatchesOwnRecord`).
- A command for an uncommitted job matches its own record exactly when the record has an agreeing checkpoint and rows
  that back its references (`PlannedCommandMatchesOwnRecord`).
- A repeated commit is refused although it was made when it expected a resolution of its slot while the layer had no
  current revision (`CommitReplays`). The program derives the layer's key from the slot (`memory-p2-runtime.ts:1575-1586,
  1617-1622`); then this cannot happen to a slot whose resolutions all came with layers (`SlotKeyedCommitsReplay`), but it
  does happen to the first layer of every slot the migration found (`LaterLayerRefusesRepetition`). From a store without
  resolutions it takes a caller whose key is not a function of the slot.
- Recovery converges for no stored job that has committed nothing (`NoUncommittedJobConverges`). A Mid job's own
  checkpoint is still frozen (`memory-p2-recovery.service.ts:360`), so after its lease it stays as it is, and running. A
  Long job's trace carries the digest of a layer revision (`memory-p2-persistence.repository.ts:370, 429`) where recovery
  compares the digest of the checkpoint's members, so it is abandoned as drifted and unreadable from then on. For the same
  reason no commit fence is ever issued (`NoFenceIsIssued`), and of committed jobs only Mid ones converge unless a commit
  names a checkpoint's digest as its Long source digest; the program names another document's
  (`memory-p2-runtime.ts:1598-1599`).
- A committed job whose layer is superseded is reported unreadable from then on (`SupersededStaysUnreadable`).
- Freezing compares the members' claim counts with their resolutions (`memory-p2-persistence.repository.ts:164-180`), and
  the database their authorities, revisions and statuses (`20260822120000_memory_p2_c_database/migration.sql:708-722`), but
  nothing compares their projects; a checkpoint with a member of another project is frozen, committed and never readable
  (`CheckpointsReadBackExactlyWhen`, `ForeignMemberHidesTheCheckpoint`).
- The program ends a blocked or drifted job as cancelled, with an error code (`memory-p2-runtime.ts:200-245, 279-287`). The
  trace of the job may carry an error code only if it is failed or unavailable
  (`20260822120000_memory_p2_c_database/migration.sql:371-387`), so the transaction is always refused, the job stays
  running, and no job is ever cancelled (`CancellingIsRefused`, `RunCancelsNothing`).
- A write-back can commit although its inputs have changed since its check. It locks `project:<id>` and `session:<id>`
  (`ai-job-coordinator.service.ts:825-826`), and nothing that edits the inputs takes these keys: speaker correction and
  calibration lock the bare session (`speaker-correction.service.ts:471-472`, `speaker-calibration.service.ts:336-337`),
  P2 commits the bare project (`memory-p2-persistence.repository.ts:1334`), retention its own
  (`ai-retention.service.ts:33`). The database compares again only the text revisions of consumed segments
  (`20260817121000_memory_maintainer_v1_1_runtime/migration.sql:246-268`). All inputs are unchanged at the commit exactly
  when no edit in between leaves one changed (`CommitsWereChecked`, `CorrectionSlipsIn`).
- The handler of a failed write-back reads the job and then updates it without looking at its status again
  (`ai-job-coordinator.service.ts:847-857`), so it can turn a job that has ended meanwhile into a failed one
  (`HandlerOverwritesCancellation`).
- A purge reports success and leaves the root when its request has already purged another root
  (`SuccessfulPurgeRemoves`, `SecondRootStays`). A finished audit can be rewritten, to failed too, exactly while another
  purge of its request is under way whose root is there or marked (`FinishedAuditIsRewrittenExactlyWhen`).
- A purge that fails before its root was hidden marks the root all the same (`ai-retention.service.ts:279-295`); such a
  root is never hidden under a request and never purged (`StrandedStays`).
- Terminalizing does not check that the trace belongs to the job. With the trace of a job that has committed it hides that
  job's layer, and only then (`TerminalizingHidesExactlyWhen`, `ForeignTraceHidesTheLayer`); the one caller reads the
  job's own trace (`memory-p2-runtime.ts:269-289`), so the theorems about readable layers ask that of the caller.
- Recovery of an attempt converges exactly when its outcome does not contradict its status or its trace had settled;
  otherwise it never does. A frozen snapshot survives exactly when, besides, the attempt at its first recovery is past
  the cutoff, has ended or has a finished trace (`SnapshotSurvivesExactlyWhen`).
- With an overlap setting of 0 a batch takes every earlier segment, so its size has no bound
  (`ZeroOverlapTakesEverythingEarlier`).
- The dedupe validator accepts trigger identities of the v1.1 namespace, while the runtime writes v1.2 ones: it accepts the
  tables the coordinator can reach exactly as long as they hold no maintainer of the runtime
  (`ReachableTablesAcceptedExactlyWhen`). Their groups always obey its other rules (`ReachableTablesObeyRules`).
- A Long consolidation of a job that did not succeed can never be valid, because a manifest must not be empty
  (`ValidMeansSucceeded`).

## Model

| member | source | states |
|---|---|---|
| MemoryP2Runs.StepIsSafe | apps/api/src/memory/memory-p2-persistence.repository.ts:86-1283 | One protocol step: a lease is replaced only after it has run out and then by a higher epoch that is still unexpired; a job changes status only out of pending or running, and only by a commit or terminalization that holds its current unexpired token, or by a recovery command applied after its lease expired with nothing committed. |
| MemoryP2Runs.RunIsSafe | apps/api/src/memory/memory-p2-persistence.repository.ts:456-1283 | Over any run with a forward clock: epochs only grow and one epoch names one lease, a job stops being live at most once and then keeps its status, and it owns layer revisions exactly when it succeeded, so no job is both committed and terminalized. |
| MemoryP2Runs.OldTokenIsFenced | apps/api/src/memory/memory-p2-persistence.repository.ts:456-534 | After a newer epoch exists, whatever happens in between, the old token can neither commit nor terminalize the still live job. |
| MemoryP2Runs.StaleCommitIsRefused | apps/api/src/memory/memory-p2-persistence.repository.ts:456-534 | A commit whose token has an older epoch than the stored lease of a live job is refused. |
| MemoryP2Runs.StaleTerminalizeIsRefused | apps/api/src/memory/memory-p2-persistence.repository.ts:889-917 | A terminalization with an older epoch than the stored lease of a live job is refused. |
| MemoryP2Runs.CommitIsSafe | apps/api/src/memory/memory-p2-persistence.repository.ts:874-887 | A commit of any number of targets of one job: either a replay that changes nothing, or all targets held the current token and the job goes from running to succeeded with new revisions of its own. |
| MemoryP2Runs.TargetsWritten | apps/api/src/memory/memory-p2-persistence.repository.ts:591-866 | A new commit adds revisions of its own job only, leaves every earlier revision where it was, no lease moves, and only the last target finishes the job. |
| MemoryP2Runs.TargetsReplayed | apps/api/src/memory/memory-p2-persistence.repository.ts:1426-1504 | Committing again for a job that already succeeded changes no row. |
| MemoryP2Runs.RecoverIsSafe | apps/api/src/memory/memory-p2-persistence.repository.ts:1193-1247 | A recovery command planned earlier from any record, even another job state, only does what the present rows allow: never a job with a committed revision, never a job under a live lease. |
| MemoryP2Runs.AdmittedRecovery | apps/api/src/memory/memory-p2-persistence.repository.ts:2302-2341 | What passing the compare-and-set establishes about the stored rows: status among the expected ones, same lease expiry, and a commit digest expected exactly when the job has revisions. |
| MemoryP2Runs.ClaimIsSafe | apps/api/src/memory/memory-p2-persistence.repository.ts:1249-1283 | Claiming a lease succeeds only over an expired one and yields a higher epoch. |
| MemoryP2Runs.RunCancelsNothing | apps/api/src/memory/memory-p2-persistence.repository.ts:889-935 | Over any run no job of the protocol becomes cancelled, although the program asks for it. |
| MemoryP2Runs.TerminalizeIsSafe | apps/api/src/memory/memory-p2-persistence.repository.ts:889-935 | Terminalizing needs the current unexpired token and ends a running job that has no revisions. |
| MemoryP2Chains.RunsFormChains | apps/api/src/memory/memory-p2-persistence.repository.ts:550-714 | From an empty or migrated store, any run: each authority's resolutions and each identity's layer revisions are numbered 1..n, each number once, in one predecessor chain with exactly the last one current; slots and identity keys stay unique. |
| MemoryP2Chains.CommitTargetKeepsChains | apps/api/src/memory/memory-p2-persistence.repository.ts:631-714 | Writing one target extends one resolution chain and one revision chain and disturbs no other. |
| MemoryP2Chains.GatePlanIsWritten | apps/api/src/memory/memory-p2-persistence.repository.ts:550-589 | The revision number and predecessor the gate planned are the ones the commit writes: one more than the authority's row count, and the row that stops being current. |
| MemoryP2Chains.AuthorityResolved | apps/api/src/memory/memory-p2-persistence.repository.ts:1386-1424 | Resolving an authority reuses the one row of its slot or adds it, and slots stay unique. |
| MemoryP2Chains.IdentityResolved | apps/api/src/memory/memory-p2-persistence.repository.ts:1506-1538 | The same for layer identities and their keys. |
| MemoryP2Chains.OtherStepsLeaveChains | apps/api/src/memory/memory-p2-persistence.repository.ts:86-454 | No step but a commit touches authorities, resolutions, identities or revisions. |
| RevisionChains.AppendKeepsChains | apps/api/src/memory/memory-p2-persistence.repository.ts:631-714 | Superseding the current row and appending one keeps every owner's numbering, links and single current row. |
| RevisionChains.NumbersAreComplete | apps/api/src/memory/memory-p2-persistence.repository.ts:631-714 | In a kept chain every number from 1 to the row count has a row. |
| MemoryGate.PassedCandidate | apps/api/src/memory/memory-gate-correction.service.ts:250-412 | Whatever the gate lets through rests on evidence spoken by the elder inside the source sessions, authorized, retained and not deleted; a fact needs an explicit statement; the planned revision is the direct successor of a current target, or the first. |
| MemoryGate.PlannedExactlyWhen | apps/api/src/memory/memory-gate-correction.service.ts:250-412 | The gate plans a write exactly for candidates that may be written: usable, distinct and cited evidence under one digest, and either a new boundary with activation intent or a memory that starts a chain or continues its current revision; it accepts nothing else. |
| MemoryGate.BoundariesAreNeverWithdrawnHere | apps/api/src/memory/memory-gate-correction.service.ts:250-412 | The gate never changes an established boundary and never accepts such a candidate. |
| MemoryGate.EvidenceAccepted | apps/api/src/memory/memory-gate-correction.service.ts:250-300 | The loop over evidence passes exactly when no single piece is refused. |
| MemoryP2ReadBack.CommittedLayerReadsBack | apps/api/src/memory/memory-p2-persistence.reader.ts:100-252 | After a single-target commit the reader returns exactly the committed layer until the job expires. |
| MemoryP2Replay.CommitReplays | apps/api/src/memory/memory-p2-persistence.repository.ts:1426-1504 | A single-target commit made again under a valid token returns the same result and changes nothing, unless it expected a resolution of its slot while its layer had no current revision; then, and only then, it is refused although it was made. |
| MemoryP2Replay.LayerHasResolution | apps/api/src/memory/memory-p2-persistence.repository.ts:1386-1424 | A slot whose layer has a current revision has a current resolution, so a layer never begins before its resolutions. |
| MemoryP2ReplayRuns.SlotKeyedCommitsReplay | apps/api/src/memory/memory-p2-persistence.repository.ts:1426-1504 | From a store without resolutions, over any run whose commits name layers by a function of the slot, every single-target commit made at the end is answered again in the same way. |
| MemoryP2ReplayRuns.RunKeepsLayered | apps/api/src/memory/memory-p2-persistence.repository.ts:1506-1538 | Over any such run every slot with a resolution has a layer. |
| MemoryP2ReplayRuns.LayeredNeverBeginsLate | apps/api/src/memory/memory-p2-persistence.repository.ts:1506-1538 | Where every slot with a resolution has a layer, a commit that expects a resolution finds the layer. |
| MemoryP2Replay.ReplayAnswers | apps/api/src/memory/memory-p2-persistence.repository.ts:1426-1504 | What the replay check finds in the rows a commit wrote, against every field it compares. |
| MemoryP2Replay.PredecessorIsCurrentLayer | apps/api/src/memory/memory-p2-persistence.repository.ts:1506-1538 | The predecessor a commit links to is the current revision of the identity named by its key. |
| MemoryP2Replay.FreezeReplays | apps/api/src/memory/memory-p2-persistence.repository.ts:86-135 | A freeze made again under its own unexpired token names the same rows and writes nothing. |
| MemoryP2Replay.FreezeLongReplays | apps/api/src/memory/memory-p2-persistence.repository.ts:312-355 | The same for a Long job. |
| MemoryP2Replay.TakenOverFreezeIsRefused | apps/api/src/memory/memory-p2-persistence.repository.ts:86-135 | A worker whose lease was taken over cannot freeze again. |
| MemoryP2Witness.StartIsMigrated | apps/api/prisma/migrations/20260822120000_memory_p2_c_database/migration.sql:953-1005 | The start of the concrete runs is a store the migration leaves: one slot with its first resolution, current, and no layer. |
| MemoryP2Witness.LaterLayerRefusesRepetition | apps/api/src/memory/memory-p2-persistence.repository.ts:1426-1504 | A run from that store whose commit continues the slot's resolution and is the first of its layer: it succeeds and its repetition is refused. |
| MemoryP2ReadBack.SortsAgree | apps/api/src/memory/memory-p2-persistence.reader.ts:328-387 | The writer's sort by identifier and the reader's sort give one evidence manifest when identifiers differ. |
| MemoryP2ReadBack.ClaimEvidenceReadsBack | apps/api/src/memory/memory-p2-persistence.reader.ts:328-387 | The links, bridges and rows the writer made for a claim satisfy every check of the claim reader and reproduce its digest. |
| MemoryP2ReadBack.ClaimsCreated | apps/api/src/memory/memory-p2-persistence.repository.ts:1803-1994 | Creating the claims of a target gives members ordered 0..n-1, each readable, and leaves earlier claims and evidence in place. |
| MemoryP2ReadBack.HeaderReadsBack | apps/api/src/memory/memory-p2-persistence.reader.ts:100-157 | The written revision, resolution, identity and retention targets pass the reader's header checks. |
| MemoryP2ReadBack.MembersReadBack | apps/api/src/memory/memory-p2-persistence.reader.ts:212-243 | Every manifest member of the written revision passes the reader's member checks. |
| MemoryP2ReadBack.LongManifestReadsBack | apps/api/src/memory/memory-p2-persistence.reader.ts:389-437 | The Long source manifest the writer stored is accepted by the reader, with the hash the commit named. |
| MemoryP2ReadBack.TraceReadsBack | apps/api/src/memory/memory-p2-persistence.reader.ts:157-212 | The finished trace passes every check of the reader: its shape, outcome and digests, the order, deletion scope and typed columns of all its sources, frozen and added, and the retention targets. |
| MemoryP2ReadBack.RetentionReadsBack | apps/api/src/memory/memory-p2-persistence.reader.ts:172-212 | The job's retention targets are the kinds the reader expects for the layer, in order. |
| MemoryP2ReadBackRuns.ReadableLayersStayReadable | apps/api/src/memory/memory-p2-persistence.reader.ts:100-252 | Over any later run a readable layer is read unchanged at its end, as long as its revision and resolution are still current and its job retained and unexpired. |
| MemoryP2ReadBackRuns.CurrencyNeverReturns | apps/api/src/memory/memory-p2-persistence.repository.ts:631-714 | A layer that was superseded, hidden or has expired never becomes current again. |
| MemoryP2ReadBackRuns.TerminalizingHidesExactlyWhen | apps/api/src/memory/memory-p2-persistence.repository.ts:889-935 | A terminalization of a running job hides a layer that could be read exactly when the trace it names is that of the job that wrote the layer; every other layer is read unchanged. |
| MemoryP2TerminalWitness.ForeignTraceHidesTheLayer | apps/api/src/memory/memory-p2-persistence.repository.ts:889-935 | A run from the migrated store in which a Mid job has committed a layer that is read, and a Long job is terminalized with the Mid job's trace: the layer is no longer returned. |
| MemoryP2ReadBackRuns.StepKeeps | apps/api/src/memory/memory-p2-persistence.repository.ts:86-1283 | Every step changes nothing, or works on one job that had not succeeded (or is only being hidden) and leaves every other job's rows and all committed rows in place. |
| MemoryP2ReadBackRuns.OnlyTerminalizeApplies | apps/api/src/memory/memory-p2-persistence.repository.ts:1193-1247 | Where every trace follows its job, only commands that terminalize an uncommitted running job ever pass the compare-and-set. |
| MemoryP2ReadBackRuns.RunsKeepReadBack | apps/api/src/memory/memory-p2-persistence.repository.ts:86-1283 | What the reader relies on holds in every state a run reaches. |
| MemoryP2ReadBackRuns.MigratedStoreReadsBack | apps/api/prisma/migrations/20260822120000_memory_p2_c_database/migration.sql:953-1005 | A store as the migration leaves it, the empty one among them, satisfies what the reader relies on. |
| MemoryP2CheckpointReads.CheckpointsReadBackExactlyWhen | apps/api/src/memory/memory-p2-persistence.reader.ts:20-98 | In every store a run reaches, a checkpoint is returned exactly while its producer has succeeded, is retained and unexpired and every member's resolution belongs to the checkpoint's project; what is returned is the frozen manifest. |
| MemoryP2CheckpointReads.RunKeepsStated | apps/api/prisma/migrations/20260822120000_memory_p2_c_database/migration.sql:708-722 | Over every run each checkpoint member states the authority, revision, semantic status and claim count its resolution row has. |
| MemoryP2CheckpointWitness.ForeignMemberHidesTheCheckpoint | apps/api/src/memory/memory-p2-persistence.reader.ts:20-98 | A run from the migrated store in which a job of another project freezes the slot's resolution and commits: its checkpoint is committed and retained and can be read at no time. |
| MemoryP2CheckpointReads.StepKeepsCheckpoints | apps/api/src/memory/memory-p2-persistence.repository.ts:86-872 | Every step keeps: a manifest is complete, its producer works on the checkpoint and retains it, and the checkpoint is committed exactly if its producer has written revisions. |
| MemoryP2Reader.ReadClaimEvidence | apps/api/src/memory/memory-p2-persistence.reader.ts:328-387 | The loop over evidence links answers exactly whether the claim is readable under the expected digest. |
| MemoryP2Recovery.RecoveryIsSafe | apps/api/src/memory/memory-p2-recovery.service.ts:55-159 | Reconciling never terminalizes or repairs a record with anything committed and never acts on a live job under a live lease. |
| MemoryP2Recovery.PlannedCommandShape | apps/api/src/memory/memory-p2-recovery.service.ts:282-342 | What each kind of planned command expects of status, lease and commit, and the ending it will leave. |
| MemoryP2Recovery.ReadableRecordNeverRaises | apps/api/src/memory/memory-p2-recovery.service.ts:344-393 | For an uncommitted record without an authority error, planning never fails. |
| MemoryP2Recovery.PlannedCommandMatchesOwnRecord | apps/api/src/memory/memory-p2-persistence.repository.ts:2302-2341 | A command planned for an uncommitted job passes the compare-and-set on its own record exactly when the record is self-consistent: a checkpoint that agrees and rows that back the references. |
| MemoryP2Recovery.AppliedCommandConverges | apps/api/src/memory/memory-p2-recovery.service.ts:55-159 | After such a command is applied, a later pass finds the job converged exactly when the record is free of errors at that instant. |
| MemoryP2Recovery.UncommittedRecoveryConverges | apps/api/src/memory/memory-p2-recovery.service.ts:55-159 | For arbitrary records: no authority error and not yet expired, and the command matches its own record and the next pass reports convergence. No stored uncommitted job has such a record, see NoUncommittedJobConverges. |
| MemoryP2Recovery.PreserveCommittedNeverMatchesOwnRecord | apps/api/src/memory/memory-p2-persistence.repository.ts:2302-2341 | A "preserve committed" command never passes its own compare-and-set, because it compares the stored trace's missing commit digest with the one the command carries. |
| MemoryP2Recovery.FencedJobIsLeftAlone | apps/api/src/memory/memory-p2-recovery.service.ts:161-199 | For arbitrary records: while the lease of an issued commit fence lasts, and only that long, reconciling reports an active attempt. For a stored job no fence is issued, see NoFenceIsIssued. |
| MemoryP2Recovery.BuiltRunningIsRecognised | apps/api/src/memory/memory-p2-decision-trace.service.ts:229-271 | Every running trace the builders accept is recognised by the running matcher when read back. |
| MemoryP2Recovery.RecognisedRunningWasBuildable | apps/api/src/memory/memory-p2-recovery.service.ts:432-453 | Conversely the running matcher accepts nothing the stage builder could not have produced. |
| MemoryP2Recovery.BuiltTerminalIsRecognised | apps/api/src/memory/memory-p2-decision-trace.service.ts:273-282 | Every failed, cancelled or unavailable trace the builder accepts is recognised for those facts. |
| MemoryP2Recovery.RecognisedTerminalWasBuildable | apps/api/src/memory/memory-p2-recovery.service.ts:478-499 | Conversely a recognised terminal trace is one the builder accepts. |
| MemoryP2Recovery.BuiltSucceededIsRecognised | apps/api/src/memory/memory-p2-recovery.service.ts:455-476 | A built succeeded trace is recognised exactly when it carries the committed outcome and digests. |
| MemoryP2RecoveryPass.AppliedRecordIsRead | apps/api/src/memory/memory-p2-persistence.repository.ts:980-1191 | Reading a job back after an applied command gives the record the planner predicted. |
| MemoryP2RecoveryPass.OnePassSettlesUncommittedJob | apps/api/src/memory/memory-p2-recovery.service.ts:55-159 | For arbitrary rows: an uncommitted job with an error-free record is settled by one pass, and any later pass before expiry finds it converged. No store that a run reaches holds such a record, see NoUncommittedJobConverges. |
| MemoryP2StoredPasses.NoUncommittedJobConverges | apps/api/src/memory/memory-p2-recovery.service.ts:55-159 | In every store a run reaches, the record of a job that has committed nothing carries an error at every instant, and no pass reports it converged: a Mid job, or any job hidden or expired, is changed by no pass; a retained unexpired Long job is at most abandoned. |
| MemoryP2StoredPasses.UncommittedRecordHasError | apps/api/src/memory/memory-p2-recovery.service.ts:344-393 | Which error that is: retention unavailable for a Mid job, whose own checkpoint is still frozen, and for a hidden or expired one; otherwise source drift, because a Long trace names the digest of a layer revision where the checkpoint names that of its members. |
| MemoryP2StoredPasses.PassOverLongJob | apps/api/src/memory/memory-p2-recovery.service.ts:87-134 | A pass over a retained unexpired uncommitted Long job ends it unavailable with source drift exactly when its lease is over, its trace still runs and can be ended, and the rows back its references; otherwise it leaves it, loses its compare-and-set or raises. |
| MemoryP2StoredPasses.AbandonedJobEnds | apps/api/src/memory/memory-p2-recovery.service.ts:87-134 | A job that a pass abandons has source drift as its failure, and any later pass, whatever it reads, finds it unreadable. |
| MemoryP2StoredPasses.EndedJobStaysUnreadable | apps/api/src/memory/memory-p2-recovery.service.ts:135-159 | After a job has ended without a commit, every pass after any run finds it unreadable and changes nothing. |
| MemoryP2StoredPasses.NoFenceIsIssued | apps/api/src/memory/memory-p2-recovery.service.ts:161-199 | In every store a run reaches, a commit fence is refused for every job. |
| MemoryP2StoredRecovery.StepKeepsRecords | apps/api/src/memory/memory-p2-persistence.repository.ts:86-1283 | Every step keeps what the records of jobs rest on: a Mid job owns the checkpoint it works on, frozen until it commits; a Long job works on a committed checkpoint and its trace names a layer revision until it commits. |
| MemoryP2StoredCommits.CommittedJobConvergesExactlyWhen | apps/api/src/memory/memory-p2-recovery.service.ts:55-86 | A pass over a job that has committed changes nothing and finds it converged exactly when its record has no error and its proof is complete; outcome and trace then always agree. |
| MemoryP2StoredCommits.OnlyCommittedJobsConverge | apps/api/src/memory/memory-p2-recovery.service.ts:55-159 | After any run only a job that has committed is found converged, and a Long job only if its commit gave a digest of checkpoint members as its Long source digest. |
| MemoryP2StoredCommits.SupersededStaysUnreadable | apps/api/src/memory/memory-p2-persistence.repository.ts:1027-1120 | Once a later commit has superseded the layer a job wrote, no pass after any run finds that job converged again. |
| MemoryP2StoredCommits.StepKeepsCommits | apps/api/src/memory/memory-p2-persistence.repository.ts:737-866 | Every step keeps the trace of a committed job as its last target left it. |
| MemoryP2RecoveryWitness.ExpiredMidJobIsLeft | apps/api/src/memory/memory-p2-recovery.service.ts:87-134 | A run after which a running Mid job with an expired lease is left as it is by a pass, whatever rows it reads. |
| MemoryP2RecoveryWitness.ExpiredLongJobIsAbandoned | apps/api/src/memory/memory-p2-recovery.service.ts:87-134 | A run after which a Long job is abandoned with source drift by a pass and unreadable for every later one. |
| MemoryP2RecoveryWitness.CommittedMidJobConverges | apps/api/src/memory/memory-p2-recovery.service.ts:55-86 | A run after which a committed Mid job is found converged. |
| MemoryP2RecoveryPass.PassIsARun | apps/api/src/memory/memory-p2-recovery.service.ts:43-53 | Every change a recovery pass over all candidates makes is a sequence of recovery steps the run theorems cover. |
| MemoryP2Traces.AssertReferences | apps/api/src/memory/memory-p2-decision-trace.service.ts:543-582 | The loop that remembers seen targets answers as the rule that compares every pair does. |
| MemoryP2Traces.ReferencesAccepted | apps/api/src/memory/memory-p2-decision-trace.service.ts:543-582 | References are accepted exactly when there are some, orders count 0..n-1, revisions are not negative, scopes agree and no target repeats. |
| MemoryP2Traces.AssertReferenceAuthorityParity | apps/api/src/memory/memory-p2-decision-trace.service.ts:312-343 | The loop that collects referenced sessions decides parity; comparing set sizes is enough because the source sessions are distinct. |
| MemoryP2Traces.SizeDecidesCoverage | apps/api/src/memory/memory-p2-decision-trace.service.ts:312-343 | With distinct source sessions, unequal sizes mean that some source session has no reference. |
| MemoryP2Repository.Repository.FreezeCheckpoint | apps/api/src/memory/memory-p2-persistence.repository.ts:86-310 | The freeze transaction on the stored rows: all of its rows appear together under one lease, and a refused freeze leaves every row as it was. |
| MemoryP2Repository.Repository.FreezeLongJob | apps/api/src/memory/memory-p2-persistence.repository.ts:312-454 | The same for a Long job, which has no checkpoint members. |
| MemoryP2Repository.Repository.ResolveClaimEvidences | apps/api/src/memory/memory-p2-persistence.repository.ts:1830-1960 | The loop over a claim's evidence finds or creates one row per frozen segment, in order. |
| MemoryP2Repository.Repository.CreateClaims | apps/api/src/memory/memory-p2-persistence.repository.ts:1803-1994 | The loop over claims leaves the claims, evidence and member manifest the read-back theorem is about. |
| MemoryP2Repository.Repository.PlanTarget | apps/api/src/memory/memory-p2-persistence.repository.ts:536-590 | All lookups and refusals of one target before any row is written. |
| MemoryP2Repository.Repository.CommitTarget | apps/api/src/memory/memory-p2-persistence.repository.ts:456-872 | One target: replay, refusal, or all rows of the target; a refusal changes nothing. |
| MemoryP2Repository.Repository.CollectCommittedSources | apps/api/src/memory/memory-p2-persistence.repository.ts:795-845 | The loops over the job's revisions and evidence give the trace sources in one dense order. |
| MemoryP2Repository.Repository.CommitLayerRevisions | apps/api/src/memory/memory-p2-persistence.repository.ts:874-887 | The loop over targets finishes the job with the last one; if any target is refused no row of any target stays. |
| MemoryP2Repository.Repository.TerminalizeUnavailable | apps/api/src/memory/memory-p2-persistence.repository.ts:889-935 | The job, projection and trace end together, or nothing changes. |
| MemoryP2Repository.Repository.ClaimRecoveryLease | apps/api/src/memory/memory-p2-persistence.repository.ts:1249-1283 | Replaces an expired lease by the next epoch, or answers that it was not claimed and changes nothing. |
| MemoryP2Repository.Repository.ApplyRecovery | apps/api/src/memory/memory-p2-persistence.repository.ts:1193-1247 | Compare-and-set on the re-read record; losing the race changes nothing. |
| MemoryP2Repository.Repository.ReconcilePersistedState | apps/api/src/memory/memory-p2-recovery.service.ts:43-53 | The loop over candidates, each job once, stops at the first planning failure and keeps what earlier jobs changed. |
| DecisionTraceRecovery.TwoRecoveriesConverge | apps/api/src/ai-runtime/decision-trace.service.ts:447-774 | Two recoveries past the cutoff make attempt, job and trace terminal and agreeing, if and only if the outcome does not contradict the status or the trace had already settled. |
| DecisionTraceRecovery.RecoveryReachesAFixedPoint | apps/api/src/ai-runtime/decision-trace.service.ts:447-774 | From two recoveries on nothing changes, however often recovery is repeated and whatever its inputs are. |
| DecisionTraceRecovery.ContradictionNeverConverges | apps/api/src/ai-runtime/decision-trace.service.ts:1351-1361 | An attempt whose outcome contradicts its status, with a disagreeing trace, never converges. |
| DecisionTraceRecovery.FrozenSnapshotSurvives | apps/api/src/ai-runtime/decision-trace.service.ts:661-774 | A frozen trace keeps its context digest and memberships through any number of recoveries at any times, if the rows do not contradict each other and at the first of them the attempt is past the cutoff, has ended, or has a finished trace. |
| DecisionTraceRecovery.SnapshotSurvivesExactlyWhen | apps/api/src/ai-runtime/decision-trace.service.ts:485-774 | That condition is exact: a frozen snapshot survives everything that may follow a recovery if and only if it holds at that recovery. |
| DecisionTraceRecovery.SecondRecoveryDecides | apps/api/src/ai-runtime/decision-trace.service.ts:485-774 | Already the second recovery decides, unless its inputs rebuild the same context. |
| DecisionTraceRecovery.YoungAttemptLosesSnapshot | apps/api/src/ai-runtime/decision-trace.service.ts:485-530 | An attempt recovered before the cutoff while live loses its frozen snapshot at the next recovery. |
| DecisionTraceRecovery.ContradictoryAttemptLosesSnapshot | apps/api/src/ai-runtime/decision-trace.service.ts:661-774 | So does a contradictory attempt. |
| DecisionTraceRecovery.ConvergedAbsorbs | apps/api/src/ai-runtime/decision-trace.service.ts:319-445 | Once the rows have converged, neither recovery nor finalize nor attach changes them. |
| DecisionTraceRecovery.ContextItemsAreDense | apps/api/src/ai-runtime/decision-trace.service.ts:561-645 | The rebuilt context holds every input once, in section order, numbered 0, 1, 2, ... |
| DecisionTraceRecovery.AttemptStore.ProjectContext | apps/api/src/ai-runtime/decision-trace.service.ts:561-645 | The loops that push the sections give that context. |
| DecisionTraceRecovery.AttemptStore.RecoverAttempt | apps/api/src/ai-runtime/decision-trace.service.ts:447-774 | The repair of the three rows in place, with its early return when they already agree. |
| DecisionTraceRecovery.AttemptStore.Finalize | apps/api/src/ai-runtime/decision-trace.service.ts:319-383 | A running trace is finished once; a finished one is not changed. |
| DecisionTraceRecovery.AttemptStore.AttachReferences | apps/api/src/ai-runtime/decision-trace.service.ts:385-445 | The loop keeps the first of equal references and freezes the context of a running trace only. |
| AiJobs.ReachableTablesObeyRules | apps/api/src/memory/memory-maintainer-contract-v1-1.ts:262-319 | Every job table reachable through freeze, rejection, provider failure, write-back, orphan failure and discard obeys the grouping rules: attempts are 1..n, all but the last failed, at most one live or succeeded. |
| AiJobs.StepKeepsTable | apps/api/src/ai-runtime/ai-job-coordinator.service.ts:155-339 | Every coordinator step keeps the retry chains of the job table. |
| AiJobs.ReachableTablesAcceptedExactlyWhen | apps/api/src/memory/memory-maintainer-contract-v1-1.ts:262-319 | The validator accepts a reachable table exactly when no maintainer in it has a trigger key of the v1.2 namespace, the one the runtime writes. |
| AiJobs.TriggersSeparate | apps/api/prisma/migrations/20260818100000_memory_maintainer_v1_2_semantic_trigger/migration.sql:38-60 | Maintainers and other job types never share a trigger key. |
| AiJobs.FreezeReplays | apps/api/src/ai-runtime/ai-job-coordinator.service.ts:155-200 | A request that made a job is answered with that job when it comes again, whatever its inputs would resolve to now. |
| AiJobs.FailedAttemptCanBeRetried | apps/api/src/ai-runtime/ai-job-coordinator.service.ts:200-339 | In a reachable table the last attempt of a trigger, if it failed, can always be retried in the same scope as the next attempt. |
| AiJobs.AiJobCoordinator.FreezeJob | apps/api/src/ai-runtime/ai-job-coordinator.service.ts:155-339 | The freeze transaction: replay of the same request, refusal without any change, or one new running job. |
| AiJobs.AiJobCoordinator.RecordRejectedJob | apps/api/src/ai-runtime/ai-job-coordinator.service.ts:719-816 | One cancelled job per trigger, replayed when the same rejection comes again; a maintainer rejection that names a retried job, or a key outside its namespace, is refused by the table and changes nothing. |
| AiJobs.AiJobCoordinator.CallProviderWithRetry | apps/api/src/ai-runtime/ai-job-coordinator.service.ts:621-695 | The retry loop, with the deadline and the policy asked again before each call: the first valid answer in time wins; a denial cancels the job, a passed deadline or two failed calls fail it. |
| AiJobs.RoundsEndTheJob | apps/api/src/ai-runtime/ai-job-coordinator.service.ts:621-695 | One call is recorded for every failed round and one for the answer; the job stays running exactly if a round answers before one is denied or finds the deadline passed, and otherwise is cancelled by the denial or failed. |
| AiJobs.AiJobCoordinator.DiscardUncalledJob | apps/api/src/ai-runtime/ai-job-coordinator.service.ts:697-703 | Deletes a live job that never reached the provider, and nothing else. |
| AiJobs.AiJobCoordinator.FailOrphanedSystemJob | apps/api/src/ai-runtime/ai-job-coordinator.service.ts:705-717 | Fails a live job and leaves a finished one as it is. |
| MaintainerContract.ValidateJobDedupe | apps/api/src/memory/memory-maintainer-contract-v1-1.ts:262-319 | The validator reports nothing exactly when every identity is in its namespace and every group obeys the grouping rules. |
| MaintainerContract.AttemptsAreConsecutive | apps/api/src/memory/memory-maintainer-contract-v1-1.ts:281-316 | Under the rules a group of n attempts carries exactly the numbers 1..n and all but the last failed. |
| MaintainerContract.CheckRetries | apps/api/src/memory/memory-maintainer-contract-v1-1.ts:281-316 | The loop over the attempt index finds every attempt whose predecessor is missing or did not fail. |
| WriteBack.CommitsWereChecked | apps/api/src/ai-runtime/ai-job-coordinator.service.ts:818-938 | If rows of a job appear in a run, then a check at an earlier step found every frozen input unchanged, and the job became succeeded in the step that wrote the rows; at that step every consumed segment has the text revision it was frozen with, and all inputs are still unchanged if and only if no edit made in between leaves one of them changed. |
| WriteBack.UnchangedExactlyWhen | apps/api/src/ai-runtime/ai-job-coordinator.service.ts:861-938 | Inputs that were unchanged are unchanged some steps later exactly when the last edit of each, if there is one, leaves it as it was frozen. |
| WriteBack.CorrectionSlipsIn | apps/api/src/ai-runtime/ai-job-coordinator.service.ts:825-846 | A run in which the speaker of a consumed segment is corrected between check and commit; the rows are written and the job succeeds. |
| WriteBack.RunIsSafe | apps/api/src/ai-runtime/ai-job-coordinator.service.ts:834-846 | Over any run a succeeded job has its rows, and rows stay. |
| WriteBack.EndedJobsStay | apps/api/src/memory/memory-maintainer.runtime.ts:291-302 | A job that has ended (failed by the stale scan, cancelled by drift, or committed) never gets rows afterwards, and never changes again unless a failure handler had seen it running before; then it can only become failed. |
| WriteBack.RowsMeanSuccess | apps/api/src/ai-runtime/ai-job-coordinator.service.ts:818-857 | With one write-back per job, its rows are there at the end of any run if and only if it succeeded. |
| WriteBack.HandlerOverwritesCancellation | apps/api/src/ai-runtime/ai-job-coordinator.service.ts:847-857 | A run in which the handler of a failed write-back fails a job that was cancelled meanwhile. |
| WriteBack.CheckDrift | apps/api/src/ai-runtime/ai-job-coordinator.service.ts:861-938 | The loops report no drift exactly when the job is running under its own identity and policy, has all its session scopes, and every scope, segment, memory and question is unchanged. |
| MaintainerThreads.ReachableThreads | apps/api/src/memory/memory-maintainer.runtime.ts:1781-1873 | In every reachable state each thread has exactly one unsuperseded revision, numbered by its revision count, and no session has two active threads. |
| MaintainerThreads.BatchKeepsThreads | apps/api/src/memory/memory-maintainer.runtime.ts:1148-1204 | After a batch with an applied operation the session's only active thread is that of the last applied one. |
| MaintainerThreads.ResolveKeeps | apps/api/src/memory/memory-maintainer.runtime.ts:1781-1845 | Opening or resuming a thread keeps all threads and makes it the session's only active one. |
| MaintainerThreads.ParkKeeps | apps/api/src/memory/memory-maintainer.runtime.ts:1847-1873 | Parking leaves no active thread in the session except the one spared, and changes no row of that one. |
| MaintainerThreads.ThreadStore.ParkCurrentActive | apps/api/src/memory/memory-maintainer.runtime.ts:1847-1873 | Parks in place by superseding the active revision. |
| MaintainerThreads.ThreadStore.ResolveOperation | apps/api/src/memory/memory-maintainer.runtime.ts:1781-1845 | The resolution of one operation on the stored rows; a refused one changes nothing. |
| MaintainerThreads.ThreadStore.Apply | apps/api/src/memory/memory-maintainer.runtime.ts:1148-1204 | The loop over operations; if one is refused the whole batch leaves no trace. |
| MaintainerBatches.SegmentsAreConsumedAtMostOnce | apps/api/src/memory/memory-maintainer.runtime.ts:1992-2105 | Over any wakes, scans, failures and crashes of one process: a segment is consumed at most once, the consumed set is the union of the new members of succeeded jobs, and new and overlap members never meet. |
| MaintainerBatches.CommitIsNeverRefused | apps/api/src/memory/memory-maintainer.runtime.ts:1992-2105 | So the consumption table never refuses the commit of a running job. |
| MaintainerBatches.SelectedBatchShape | apps/api/src/memory/memory-maintainer.runtime.ts:621-703 | A selected batch has distinct unconsumed new members of its session, none of them also in the overlap, and at most 80 members when the overlap setting is at least 1. |
| MaintainerBatches.NothingIsSkipped | apps/api/src/memory/memory-maintainer.runtime.ts:621-703 | A batch takes the oldest pending segments, as many as fit beside the overlap, and once it is consumed exactly the others are pending, in their order. |
| MaintainerBatches.OverlapIsNearest | apps/api/src/memory/memory-maintainer.runtime.ts:674-683 | The overlap is the nearest context: every earlier trusted segment is taken or starts no later than any of the n taken. |
| MaintainerBatches.PendingIsComplete | apps/api/src/memory/memory-maintainer.runtime.ts:640-647 | A segment is pending exactly when it is the elder's and not consumed. |
| MaintainerBatches.ZeroOverlapTakesEverythingEarlier | apps/api/src/memory/memory-maintainer.runtime.ts:683-690 | With an overlap setting of 0 the batch takes every earlier segment. |
| MaintainerBatches.StepKeepsInv | apps/api/src/memory/memory-maintainer.runtime.ts:253-289 | Waking, selecting, freezing, failing, crashing and committing keep the reservation of segments per session. |
| MaintainerBatches.RecordConsumptions | apps/api/src/memory/memory-maintainer.runtime.ts:1992-2105 | The loop is refused exactly when a member repeats or is already consumed, and then records nothing; otherwise it adds one row per new member, in order. |
| OutputEligibility.EligibleIffAllReachedStand | apps/api/src/ai-runtime/ai-output-eligibility.service.ts:25-188 | An output is eligible exactly when it and every output it reaches through the recursion stand on their own. |
| OutputEligibility.NothingBecomesEligible | apps/api/src/ai-runtime/ai-output-eligibility.service.ts:25-188 | Hiding roots, invalidating outputs, superseding resolutions, withdrawing analyses, letting time pass or refusing access to a job's project and sessions never makes an output eligible. |
| OutputEligibility.NoMemoryBecomesEligible | apps/api/src/ai-runtime/ai-output-eligibility.service.ts:190-224 | The same for memory resolutions. |
| OutputEligibility.IneligibilitySpreads | apps/api/src/ai-runtime/ai-output-eligibility.service.ts:296-351 | Every output that reaches an ineligible one through the recursion is ineligible. |
| OutputEligibility.RankIsIrrelevant | apps/api/src/ai-runtime/ai-output-eligibility.service.ts:25-188 | On an acyclic store the recursion ends and its answer does not depend on how that is shown. |
| OutputEligibility.DegradedIsAcyclic | apps/api/src/ai-runtime/ai-output-eligibility.service.ts:25-188 | A store that only lost standing is still acyclic. |
| AiRetention.HidingNeverRevives | apps/api/src/ai-runtime/ai-retention.service.ts:26-46 | Hiding any expired root never makes an output eligible, then or later. |
| AiRetention.HiddenJobEndsItsDependents | apps/api/src/ai-runtime/ai-retention.service.ts:105-178 | After an expired job is hidden, its outputs, the direct dependents of its memories, questions and claims, and everything that reaches them are ineligible. |
| AiRetention.HidingDegrades | apps/api/src/ai-runtime/ai-retention.service.ts:26-46 | Hiding only takes standing away: no row gains currency, readability or retention. |
| RetentionCleanup.RootsLeaveByTheirOwnPurge | apps/api/src/ai-runtime/ai-retention.service.ts:48-103 | Over any run with interleaved purges a root disappears only after it expired and by the transaction of a purge of the request that had hidden it. |
| RetentionCleanup.GoneStaysGone | apps/api/src/ai-runtime/ai-retention.service.ts:48-103 | A root that is gone never comes back. |
| RetentionCleanup.StepKeepsRoots | apps/api/src/ai-runtime/ai-retention.service.ts:26-103 | A cleanup request, once set, stays; a root that is not active never becomes active; failure marks the root and keeps it. |
| RetentionCleanup.FinishedAuditIsRewrittenExactlyWhen | apps/api/src/ai-runtime/ai-retention.service.ts:48-103 | A finished audit can still be rewritten if and only if a purge of its request is under way whose root is there or has already been marked. |
| RetentionCleanup.FinishedAuditStays | apps/api/src/ai-runtime/ai-retention.service.ts:48-103 | Where no such purge is under way, the finished audit is the same after any run. |
| RetentionCleanup.FinishedAuditIsOverwritten | apps/api/src/ai-runtime/ai-retention.service.ts:279-310 | A run in which two purges of one request overlap and the finished audit of one becomes a failed audit. |
| RetentionCleanup.SuccessfulPurgeRemoves | apps/api/src/ai-runtime/ai-retention.service.ts:48-60 | A purge that nothing interrupts and that reports success has removed the root if and only if its request had not already finished another purge. |
| RetentionCleanup.SecondRootStays | apps/api/src/ai-runtime/ai-retention.service.ts:48-60 | Once a request has finished a purge and has none under way, another root of that request stays through any run, and every purge of it reports success. |
| RetentionCleanup.SharedRequestLeavesARoot | apps/api/src/ai-runtime/ai-retention.service.ts:48-60 | A run that leaves such a second root. |
| RetentionCleanup.StrandedStays | apps/api/src/ai-runtime/ai-retention.service.ts:26-103 | A root that a failed transaction marked before it was hidden is never hidden under a request and never purged. |
| RetentionCleanup.EarlyFailureStrands | apps/api/src/ai-runtime/ai-retention.service.ts:279-310 | A run that leaves such a root. |
| RetentionCleanup.RetentionService.HideExpired | apps/api/src/ai-runtime/ai-retention.service.ts:26-46 | Hides an expired root once for the request that claimed it; a refusal changes nothing. |
| RetentionCleanup.RetentionService.RunTransaction | apps/api/src/ai-runtime/ai-retention.service.ts:60-90 | The transaction of a purge in place: deletes the root and audits it, or is refused and changes nothing. |
| RetentionCleanup.RetentionService.PurgeRoot | apps/api/src/ai-runtime/ai-retention.service.ts:48-103 | A purge that nothing interrupts: a finished request is left alone; the transaction deletes and audits, or its failure marks the root and counts one more failed attempt in the audit. |
| AiRetention.RetentionService.Hide | apps/api/src/ai-runtime/ai-retention.service.ts:26-46 | Marks the root and detaches what rests on it in place; an unexpired or finished root is left alone. |
| AiRetention.RetentionService.DetachJobRows | apps/api/src/ai-runtime/ai-retention.service.ts:105-178 | Invalidating dependents after the job's own rows ends in the same place as doing both at once. |
| CanonicalJson.CanonicalTextDecidesSameness | apps/api/src/ai-runtime/ai-provenance.ts:17-26 | Two values without duplicate keys print the same text if and only if they are equal up to the order of object entries. |
| CanonicalJson.CanonicalInjective | apps/api/src/ai-runtime/ai-provenance.ts:17-26 | Equal texts come only from values that are equal up to entry order. |
| CanonicalJson.SameTexts | apps/api/src/ai-runtime/ai-provenance.ts:17-26 | Entry order does not change the text. |
| CanonicalJson.TextsArePrefixFree | apps/api/src/ai-runtime/ai-provenance.ts:17-26 | Two printed values that, each followed by its own end or delimiter, give one text are the same printed value. |
| CanonicalJson.QuoteUnique | apps/api/src/ai-runtime/ai-provenance.ts:17-26 | A quoted string ends at its own closing quote and determines its content. |
| CanonicalJson.NumberEnds | apps/api/src/ai-runtime/ai-provenance.ts:17-26 | A printed integer determines its value once its end is marked. |
| CanonicalJson.SortSorts | apps/api/src/ai-runtime/ai-provenance.ts:17-26 | Sorting entries by distinct keys gives strictly increasing keys. |
| CanonicalJson.LexIsStrictTotal | apps/api/src/ai-runtime/ai-provenance.ts:17-26 | Character-wise order is one strict total key order, so the assumption on the key order can be met. |
| LongConsolidation.Validate | apps/api/src/memory/memory-evolution-contract.ts:248-425 | Every broken rule is reported and nothing else; the pair is valid exactly when no rule is broken. |
| LongConsolidation.SourcesAreTheManifest | apps/api/src/memory/memory-evolution-contract.ts:398-410 | In a valid pair the outputs' source lists, one after the other, are the Mid manifest in order, each revision exactly once. |
| LongConsolidation.IdentityIsNotSplit | apps/api/src/memory/memory-evolution-contract.ts:339-368 | Mid revisions of one identity go to one output, lie next to each other in the manifest and agree on resolution, revision and semantic status. |
| LongConsolidation.MidOfSource | apps/api/src/memory/memory-evolution-contract.ts:339-368 | Every source of an output has the output's identity, resolution and status. |
| LongConsolidation.ValidMeansSucceeded | apps/api/src/memory/memory-evolution-contract.ts:248-282 | Only a succeeded job can have a valid consolidation, since a valid manifest is never empty. |
| LongConsolidation.SessionsAreThoseUsed | apps/api/src/memory/memory-evolution-contract.ts:316-338 | The scoped sessions are exactly the sessions of the Mid revisions used. |
| LongConsolidation.ContiguousManifestIsSorted | apps/api/src/memory/memory-evolution-contract.ts:398-410 | Sorting a contiguous manifest by input order does not move it. |
| LongConsolidation.SortOrders | apps/api/src/memory/memory-evolution-contract.ts:398-404 | The sort gives a non-decreasing permutation of any manifest. |
| LongConsolidation.CheckRevision | apps/api/src/memory/memory-evolution-contract.ts:339-397 | The checks of one output report exactly its broken rules. |
| LongConsolidation.CheckMids | apps/api/src/memory/memory-evolution-contract.ts:316-338 | The loop over Mid rows and the session set report exactly their broken rules. |
| AudioStorage.StoredContentIsImmutable | apps/api/src/audio/local-audio-storage.adapter.ts:25-87 | Under any interleaving of writers with errors and crashes at any step, what is linked is the whole content of one writer and never changes, and every finished put and inspection reports it. |
| AudioStorage.OnlyOneCreator | apps/api/src/audio/local-audio-storage.adapter.ts:35-87 | At most one put reports that it created the object, and its bytes are the stored ones. |
| AudioStorage.StepKeeps | apps/api/src/audio/local-audio-storage.adapter.ts:35-87 | Every single file operation of any writer keeps the linked content and the other writers' temporary files. |
| AudioObjects.CompletedObjectsVerify | apps/api/src/audio/audio-integrity.service.ts:39-69 | After any run of uploads and completions a completed object passes the later manifest check and its total is the sum of its chunk sizes. |
| AudioObjects.CompletedObjectsStay | apps/api/src/audio/audio.service.ts:81-272 | Chunk rows and stored bytes are never rewritten, and a completed object keeps everything and keeps verifying. |
| AudioObjects.ChunksTileTime | apps/api/src/audio/audio-integrity.service.ts:71-85 | The chunks of a completed object tile the time from 0 to its last end: each millisecond lies in exactly one chunk. |
| AudioObjects.RequestsReplay | apps/api/src/audio/audio.service.ts:464-492 | Repeating an answered request changes nothing and gives the first answer. |
| AudioObjects.VerifyCompleteManifest | apps/api/src/audio/audio-integrity.service.ts:39-85 | The loops of the later check answer exactly whether rows, storage, total and manifest agree. |
| AudioObjects.AudioService.UploadChunk | apps/api/src/audio/audio.service.ts:81-182 | The upload transaction on the stored rows and the write-once storage, with its refusals. |
| AudioObjects.AudioService.ManifestIsReady | apps/api/src/audio/audio.service.ts:200-250 | The loops find exactly the manifests that are continuous, as promised and stored as recorded. |
| AudioObjects.AudioService.CompleteAudio | apps/api/src/audio/audio.service.ts:184-272 | Completion in place: freezes manifest, count and accumulated total, or changes nothing. |
| LoginThrottle.RunKeepsThrottle | apps/api/src/auth/login-throttle.service.ts:32-121 | Under any interleaving over any keys with a forward clock: counts stay in 1..limit and reach the limit exactly when the key is blocked, and at most limit - 1 attempts get through in one window without a success. |
| LoginThrottle.ThrottleFromEmpty | apps/api/src/auth/login-throttle.service.ts:32-121 | The same for every run from an empty table. |
| LoginThrottle.AllowanceIsExact | apps/api/src/auth/login-throttle.service.ts:32-88 | In a new window exactly limit - 1 attempts of an identity get through; the one that reaches the limit is denied and blocks it for one window, and further ones leave no mark. |
| LoginThrottle.BlockEndsWithItsWindow | apps/api/src/auth/login-throttle.service.ts:41-66 | When a block has run out its window is over too, so the next attempt counts from one. |
| LoginThrottle.SuccessTakesItsAttemptBack | apps/api/src/auth/login-throttle.service.ts:90-121 | A success right after its reservation clears the identity and restores the address counter; no other key changes. |
| LoginThrottle.LaterAttemptsStayCounted | apps/api/src/auth/login-throttle.service.ts:89-121 | Attempts reserved in the same window before a success is finalized stay counted. |
| LoginThrottle.StepKeepsTable | apps/api/src/auth/login-throttle.service.ts:32-121 | One reservation or success keeps the counter rows well-formed. |
| LoginThrottle.StepKeepsBound | apps/api/src/auth/login-throttle.service.ts:32-88 | The count of attempts let through in the current window never passes the stored counter, nor limit - 1. |
| LoginThrottle.ThrottleStore.ReserveAttempt | apps/api/src/auth/login-throttle.service.ts:32-88 | The loop over both keys updates both counters or answers blocked, in place. |
| LoginThrottle.ThrottleStore.Finalize | apps/api/src/auth/login-throttle.service.ts:90-121 | A success takes back what its reservation counted for the identity and one attempt of the address, and unblocks both; a counter that would reach zero is removed. |

## Left out

- MemoryP2ReadBack.CommittedLayerReadsBack: one target per commit, because the projection stores only the last target.
- MemoryP2Replay.CommitReplays: one target per commit.
- MemoryP2ReadBackRuns.ReadableLayersStayReadable: runs in which callers terminalize a job together with its own trace.
- MemoryP2Chains.RunsFormChains: no retention deletes, which remove rows outside the chain, and no P1 writers, which supersede a slot's resolution by one without an authority.
- MemoryP2StoredCommits.OnlyCommittedJobsConverge: runs in which callers terminalize a job together with its own trace.
- WriteBack.CommitsWereChecked: the check's reads are taken at one instant; what the write itself compares again is part of whether it succeeds.
- OutputEligibility.NothingBecomesEligible: the policy is asked once per job and project for the asking actor, so it does not change within one question.
- AiJobs.ReachableTablesObeyRules: retention deletes are not steps; a rejection whose project or sessions are gone, which records nothing, is not one either.
- MaintainerBatches.SegmentsAreConsumedAtMostOnce: one process, whose active map serializes the work of a session.
- CanonicalJson.CanonicalTextDecidesSameness: integers are unbounded and other numbers, integers printed in exponent form and lone surrogates are not values; the key comparison is any strict total order.
- SQL text, foreign keys, constraints on columns that are not modelled (P1 terminal jobs, snapshots and threads, retry predecessors of P2 jobs, trigger identities of checkpoints), the guard that refuses to delete P2 rows, advisory-lock mechanics, migration resume and candidate-scan queries.
- P2: derived-output and dependency rows of commits; deletion-scope and policy reads and the assembly of gate evidence from transcripts are inputs; the rows behind trace references in a recovery record are an input; legacy resolutions without an authority.
- Decision traces: provider and evidence rows, memory trigger observations, and the loops that look for running or missing attempts.
- Coordinator: the policy check in front of the freeze transaction, resolution of a request to its inputs, the single-call form of the provider call, and the numbering of calls, which allows two for a job.
- Maintainer: claim, boundary and resolution rows of an operation (an operation says whether it is applied), and the unjudged final.
- Retention: decision-trace roots have no dependents here, and the rows a purge deletes with its root are not part of the eligibility store; display state; eligibility of memory identities and of actual questions.
- Audio: HTTP, authentication and audit rows; several objects at once, since rows, keys and requests of different objects never meet.
- Login: hashing of the keys and the password check.
- Long consolidation: shape guards on untyped JSON and the forbidden-key scan; the other validators of the contract.
- Evidence drilldown, retrieval ranking, P2 orchestration and the v1.2 semantic validator.
