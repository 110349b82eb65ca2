/**
 Recovery after concrete runs: an expired Mid job is left unreadable, an expired Long job is abandoned as drifted and
 then unreadable, and a Mid job that has committed is found converged.
 */
module MemoryP2RecoveryWitness {
  import opened Options
  import opened MemoryP2Traces
  import opened MemoryP2Recovery
  import opened RevisionChains
  import opened MemoryP2Store
  import opened MemoryP2Writes
  import opened MemoryP2Runs
  import opened MemoryP2Chains
  import opened MemoryP2ReadBack
  import opened MemoryP2ReadBackRuns
  import opened MemoryP2RecoveryPass
  import opened MemoryP2StoredRecovery
  import opened MemoryP2StoredPasses
  import opened MemoryP2StoredCommits
  import opened MemoryP2Witness

  // ---------------------------------------------------------------- runs, one step at a time

  lemma OneMore(s: State, steps: seq<Step>, step: Step)
    requires AllAllowed(s, steps) && Allowed(Run(s, steps), step)
    ensures AllAllowed(s, steps + [step]) && Run(s, steps + [step]) == Next(Run(s, steps), step)
  {
    OneStepRun(Run(s, steps), step);
    RunsCompose(s, steps, [step]);
  }

  lemma {:induction false} OwnRunIsRun(s: State, steps: seq<Step>)
    requires AllOwnAllowed(s, steps)
    ensures AllAllowed(s, steps) && Run(s, steps) == OwnRun(s, steps)
    decreases |steps|
  {
    if steps != [] {
      OwnRunIsRun(Next(s, steps[0]), steps[1..]);
    }
  }

  lemma FrozenIsReached()
    ensures AllAllowed(State(START, 0), FrozenSteps())
    ensures Run(State(START, 0), FrozenSteps()) == State(FrozenStore(), 0)
  {
    StoreIsReached();
    OwnRunIsRun(State(START, 0), FrozenSteps());
  }

  // ---------------------------------------------------------------- an expired Mid job

  const EXPIRED_STEPS := FrozenSteps() + [Wait(60)]

  /** The Mid job's lease has run out and nothing was committed: whatever rows a pass reads, it leaves the job as it is. */
  lemma ExpiredMidJobIsLeft(rows: seq<ReferenceAuthority>)
    ensures Migrated(START) && AllAllowed(State(START, 0), EXPIRED_STEPS)
    ensures Run(State(START, 0), EXPIRED_STEPS) == State(FrozenStore(), 60)
    ensures JobIs(FrozenStore(), 0, Running)
    ensures ReconcileJob(FrozenStore(), 0, rows, 60) == Ok((FrozenStore(), TerminalUnreadableOutcome))
  {
    ExpiredIsReached();
    FrozenIsOrderly();
    FrozenIsUncommitted(rows);
    PassLeavesTheJob(FrozenStore(), 0, rows, 60);
  }

  lemma ExpiredIsReached()
    ensures Migrated(START) && AllAllowed(State(START, 0), EXPIRED_STEPS)
    ensures Run(State(START, 0), EXPIRED_STEPS) == State(FrozenStore(), 60)
  {
    StartIsMigrated();
    FrozenIsReached();
    WaitsOn();
    OneMore(State(START, 0), FrozenSteps(), Wait(60));
  }

  lemma WaitsOn()
    ensures Allowed(State(FrozenStore(), 0), Wait(60)) && Next(State(FrozenStore(), 0), Wait(60)) == State(FrozenStore(), 60)
  {
  }

  lemma FrozenIsOrderly()
    ensures Inv(FrozenStore()) && RecordsOk(FrozenStore())
  {
    StartIsMigrated();
    FrozenIsReached();
    RunFromMigrated(State(START, 0), FrozenSteps());
  }

  lemma FrozenIsUncommitted(rows: seq<ReferenceAuthority>)
    ensures Uncommitted(FrozenStore(), 0, rows)
  {
    assert FrozenStore().revisions == [];
  }

  // ---------------------------------------------------------------- the committed Mid job

  const COMMIT_STEP := Commit(Single(COMMIT, READS))
  const COMMITTED_STEPS := FrozenSteps() + [COMMIT_STEP]

  function CommittedStore(): Db {
    Kept(CommitLayerRevisions(FrozenStore(), Single(COMMIT, READS), 0), FrozenStore())
  }

  lemma CommittedIsReached()
    ensures Migrated(START) && AllAllowed(State(START, 0), COMMITTED_STEPS)
    ensures Run(State(START, 0), COMMITTED_STEPS) == State(CommittedStore(), 0)
  {
    StartIsMigrated();
    FrozenIsReached();
    OneMore(State(START, 0), FrozenSteps(), COMMIT_STEP);
  }

  lemma CommitsOnce()
    ensures CommitLayerRevisions(FrozenStore(), Single(COMMIT, READS), 0).Ok?
    ensures PlanTarget(FrozenStore(), COMMIT, READS).Ok?
    ensures var plan := PlanTarget(FrozenStore(), COMMIT, READS).value;
            && PlanFits(FrozenStore(), plan) && Committing(FrozenStore(), COMMIT, plan, 0)
            && CommittedStore() == Written(FrozenStore(), COMMIT, plan, 0)
  {
    StoreIsOrderly();
    CommitIsMade();
    SingleIsTarget(FrozenStore(), COMMIT, READS, 0);
    TargetParts(FrozenStore(), COMMIT, READS, 0, true);
    SingleTargetShape(FrozenStore(), COMMIT, READS, 0);
  }

  /** What a Long job needs to find. */
  lemma CommittedMidRows()
    ensures var db := CommittedStore();
            && db.projections.Keys == {0}
            && db.projections[0].jobKind.MidFinal? && db.projections[0].targetRevisionDigest.Some?
            && (forall i :: 0 <= i < |db.revisions| ==> db.revisions[i].sourceJobId == 0)
  {
    CommitsOnce();
    CommittedKeys();
    WrittenTarget(FrozenStore(), COMMIT, PlanTarget(FrozenStore(), COMMIT, READS).value, 0);
  }

  lemma CommittedMaps()
    ensures CommittedStore().jobs == map[0 := JOB.(status := Succeeded, completedAt := Some(0))]
    ensures CommittedStore().checkpoints
            == map[0 := CheckpointRow(FREEZE).(status := CpCommitted, committedAt := Some(0))]
  {
    CommitsOnce();
    WrittenJob(PlanTarget(FrozenStore(), COMMIT, READS).value);
    WrittenCheckpoint(PlanTarget(FrozenStore(), COMMIT, READS).value);
  }

  lemma WrittenJob(plan: TargetPlan)
    requires PlanFits(FrozenStore(), plan)
    ensures Written(FrozenStore(), COMMIT, plan, 0).jobs
            == map[0 := JOB.(status := Succeeded, completedAt := Some(0))]
  {
    assert FrozenStore().jobs == map[0 := JOB];
  }

  lemma WrittenCheckpoint(plan: TargetPlan)
    requires PlanFits(FrozenStore(), plan)
    ensures Written(FrozenStore(), COMMIT, plan, 0).checkpoints
            == map[0 := CheckpointRow(FREEZE).(status := CpCommitted, committedAt := Some(0))]
  {
    assert FrozenStore().checkpoints == map[0 := CheckpointRow(FREEZE)];
  }

  lemma CommittedKeys()
    ensures var db := CommittedStore();
            && db.migrationCompleted
            && db.projections.Keys == {0} && db.traces.Keys == {0} && db.traceByJob == map[0 := 0]
            && db.retention.Keys == {0} && db.longs == map[] && db.checkpointByJob == map[0 := 0]
  {
    CommitsOnce();
    WrittenMaps(FrozenStore(), COMMIT, PlanTarget(FrozenStore(), COMMIT, READS).value, 0);
  }

  lemma WrittenMaps(db: Db, input: CommitInput, plan: TargetPlan, now: Instant)
    requires Committing(db, input, plan, now) && plan.long.None?
    ensures var after, j := Written(db, input, plan, now), input.aiJobId;
            && after.migrationCompleted && after.checkpointByJob == db.checkpointByJob && after.longs == db.longs
            && after.traceByJob == db.traceByJob && after.inputs == db.inputs
            && after.jobs == db.jobs[j := db.jobs[j].(status := Succeeded, completedAt := Some(now))]
            && after.projections.Keys == db.projections.Keys && after.traces.Keys == db.traces.Keys
            && after.retention.Keys == db.retention.Keys + {j}
            && after.checkpoints
               == db.checkpoints[input.checkpointId := FinishedCheckpoint(db.checkpoints[input.checkpointId], now)]
  {
  }

  lemma WrittenTarget(db: Db, input: CommitInput, plan: TargetPlan, now: Instant)
    requires Committing(db, input, plan, now) && db.revisions == []
    ensures var after, j := Written(db, input, plan, now), input.aiJobId;
            && after.projections[j].jobKind == db.projections[j].jobKind
            && after.projections[j].targetRevisionDigest.Some?
            && |after.revisions| == 1 && after.revisions[0].sourceJobId == j
  {
  }

  // ---------------------------------------------------------------- a Long job after it

  const LONG_JOB := JOB.(jobType := LongSessionEnd, requestId := 1, inputMemories := map[])
  const NO_SEGMENTS: map<Id, InputSegment> := map[]
  const LONG_SOURCE := Reference(CheckpointSource, 0, 1, Plain(7), SCOPE, 0)
  const LONG_ROW := ReferenceAuthority(CheckpointSource, 0, 0, 0, 1, Plain(7), SCOPE, ReadActive)

  function LongFreeze(digest: Digest): FreezeLongInput {
    FreezeLongInput(1, 1, 0, 0, 0, Some(9), digest, SCOPE, 100, LEASE, "policy", "retention", [LONG_SOURCE], 1, 1)
  }

  function LongDigest(): Digest {
    var p := Get(CommittedStore().projections, 0);
    if p.Some? then p.value.targetRevisionDigest.GetOr(SCOPE) else SCOPE
  }

  function LongSteps(): seq<Step> {
    COMMITTED_STEPS + [Admit(1, LONG_JOB, NO_SEGMENTS)] + [FreezeLong(LongFreeze(LongDigest()))] + [Wait(60)]
  }

  function AdmittedLong(): Db {
    CommittedStore().(jobs := CommittedStore().jobs[1 := LONG_JOB])
  }

  function LongStore(): Db {
    FrozenLongDb(AdmittedLong(), LongFreeze(LongDigest()), 0)
  }

  lemma LongFreezes()
    ensures FreezeLongJob(AdmittedLong(), LongFreeze(LongDigest()), 0)
            == Ok((LongStore(), FrozenCheckpoint(0, 1, false)))
  {
    LongIsAdmissible();
    AdmittedKeys();
    LongRequestFits(LongDigest());
    FreezesUnder(AdmittedLong(), LongFreeze(LongDigest()), 0);
  }

  lemma LongRequestFits(digest: Digest)
    ensures var f := LongFreeze(digest);
            && LeaseWellFormed(f.lease, 0) && f.lease.expiresAt <= f.expiresAt && FreezeLongPermitted(f)
            && SourcesOrdered(f.sources) && SourcesUnique(f.sources)
            && f.aiJobId == 1 && f.traceId == 1 && f.finalMidCheckpointId == 0 && f.requestId == 1 && f.generationId == 1
  {
    assert LEASE.owner[0] == 'w';
  }

  lemma FreezesUnder(db: Db, f: FreezeLongInput, now: Instant)
    requires db.migrationCompleted && LeaseWellFormed(f.lease, now) && f.lease.expiresAt <= f.expiresAt
    requires f.aiJobId !in db.projections && JobAdmitsLongFreeze(db, f) && FreezeLongPermitted(f)
    requires SourcesOrdered(f.sources) && SourcesUnique(f.sources)
    requires f.traceId !in db.traces && f.aiJobId !in db.traceByJob && f.aiJobId !in db.retention
    requires !TraceKeysTaken(db, f.requestId, f.generationId)
    ensures FreezeLongJob(db, f, now)
            == Ok((FrozenLongDb(db, f, now), FrozenCheckpoint(f.finalMidCheckpointId, f.traceId, false)))
  {
  }

  /** Nothing of the second job is there yet. */
  lemma AdmittedKeys()
    ensures var db := AdmittedLong();
            && db.migrationCompleted && 1 !in db.projections && 1 !in db.traces && 1 !in db.traceByJob && 1 !in db.retention
            && !TraceKeysTaken(db, 1, 1)
  {
    CommittedKeys();
    CommittedTraceKeys();
  }

  lemma CommittedTraceKeys()
    ensures var db := CommittedStore();
            db.traces.Keys == {0} && db.traces[0].requestId == 0 && db.traces[0].generationId == 0
  {
    CommitsOnce();
    CommittedKeys();
    WrittenTraceKeys(FrozenStore(), COMMIT, PlanTarget(FrozenStore(), COMMIT, READS).value, 0);
    FrozenTraceKeys();
  }

  lemma FrozenTraceKeys()
    ensures 0 in FrozenStore().traces
    ensures FrozenStore().traces[0].requestId == 0 && FrozenStore().traces[0].generationId == 0
  {
  }

  lemma WrittenTraceKeys(db: Db, input: CommitInput, plan: TargetPlan, now: Instant)
    requires Committing(db, input, plan, now)
    ensures var after, t := Written(db, input, plan, now), input.traceId;
            t in after.traces && after.traces[t].requestId == db.traces[t].requestId
            && after.traces[t].generationId == db.traces[t].generationId
  {
  }

  lemma LongIsAdmissible()
    ensures JobAdmitsLongFreeze(AdmittedLong(), LongFreeze(LongDigest()))
  {
    CommittedMidRows();
    CommittedMaps();
  }

  lemma AdmitsLong()
    ensures Allowed(State(CommittedStore(), 0), Admit(1, LONG_JOB, NO_SEGMENTS))
    ensures Next(State(CommittedStore(), 0), Admit(1, LONG_JOB, NO_SEGMENTS)) == State(AdmittedLong(), 0)
  {
    CommittedMidRows();
    CommittedMaps();
    CommittedKeys();
    assert CommittedStore().inputs + NO_SEGMENTS == CommittedStore().inputs;
  }

  lemma LongIsReached()
    ensures Migrated(START) && AllAllowed(State(START, 0), LongSteps())
    ensures Run(State(START, 0), LongSteps()) == State(LongStore(), 60)
  {
    var s, freeze := State(START, 0), FreezeLong(LongFreeze(LongDigest()));
    var admitted := COMMITTED_STEPS + [Admit(1, LONG_JOB, NO_SEGMENTS)];
    LongIsAdmitted();
    FreezesLong();
    OneMore(s, admitted, freeze);
    OneMore(s, admitted + [freeze], Wait(60));
  }

  lemma LongIsAdmitted()
    ensures Migrated(START) && AllAllowed(State(START, 0), COMMITTED_STEPS + [Admit(1, LONG_JOB, NO_SEGMENTS)])
    ensures Run(State(START, 0), COMMITTED_STEPS + [Admit(1, LONG_JOB, NO_SEGMENTS)]) == State(AdmittedLong(), 0)
  {
    CommittedIsReached();
    AdmitsLong();
    OneMore(State(START, 0), COMMITTED_STEPS, Admit(1, LONG_JOB, NO_SEGMENTS));
  }

  lemma FreezesLong()
    ensures Allowed(State(AdmittedLong(), 0), FreezeLong(LongFreeze(LongDigest())))
    ensures Next(State(AdmittedLong(), 0), FreezeLong(LongFreeze(LongDigest()))) == State(LongStore(), 0)
  {
    LongFreezes();
  }

  lemma LongRecordIs()
    ensures var db := LongStore();
            && 1 in db.jobs && 1 in db.projections && Uncommitted(db, 1, [LONG_ROW])
            && StoredError(db, 1, 60).SourceDrift? && Live(db.jobs[1].status) && db.projections[1].lease.expiresAt <= 60
            && var a := ReadRecoveryAuthority(db, 1, [LONG_ROW]).value;
            && a.references == [LONG_SOURCE] && a.referenceAuthorities == [LONG_ROW] && a.sourceSessionIds == [0]
            && a.identity.deletionScopeDigest == SCOPE && a.identity.projectId == 0
            && a.identity.createdAt < a.identity.expiresAt
            && a.p2PolicyRevision == "policy" && a.p2RetentionPolicyVersion == "retention"
            && a.checkpoint.Some? && a.checkpoint.value.deletionScopeDigest == SCOPE
            && a.checkpoint.value.p2PolicyRevision == "policy"
            && a.checkpoint.value.p2RetentionPolicyVersion == "retention"
            && a.targetLayer.LongLayer? && TraceMatchesRunning(a)
  {
    CommittedMidRows();
    CommittedMaps();
    CommittedKeys();
    UncommittedLong();
  }

  lemma UncommittedLong()
    ensures ReadRecoveryAuthority(LongStore(), 1, [LONG_ROW]).Some?
    ensures ReadRecoveryAuthority(LongStore(), 1, [LONG_ROW]).value.committed.None?
  {
    CommittedMidRows();
    CommittedMaps();
    CommittedKeys();
    NoneOfLong();
  }

  lemma NoneOfLong()
    ensures RevisionsOfJob(LongStore().revisions, 1, |LongStore().revisions|) == []
  {
    CommittedMidRows();
    assert !HasRevisions(CommittedStore(), 1);
    NoRevisionsNoIds(CommittedStore(), 1);
  }

  lemma LongIsAbandoned()
    ensures Abandons(LongStore(), 1, [LONG_ROW], 60)
  {
    LongRecordIs();
    RecordIsBound(ReadRecoveryAuthority(LongStore(), 1, [LONG_ROW]).value);
  }

  lemma RecordIsBound(a: RecoveryAuthority)
    requires a.references == [LONG_SOURCE] && a.referenceAuthorities == [LONG_ROW] && a.sourceSessionIds == [0]
    requires a.identity.deletionScopeDigest == SCOPE && a.identity.projectId == 0
    requires a.identity.createdAt < a.identity.expiresAt && a.targetLayer.LongLayer?
    requires a.p2PolicyRevision == "policy" && a.p2RetentionPolicyVersion == "retention"
    requires a.checkpoint.Some? && a.checkpoint.value.deletionScopeDigest == SCOPE
    requires a.checkpoint.value.p2PolicyRevision == "policy" && a.checkpoint.value.p2RetentionPolicyVersion == "retention"
    ensures BaseError(BaseOf(a, a.retentionState)).None? && SelfConsistent(a)
  {
    ReferencesAccepted(a.identity, a.references);
  }

  /**
   A Long job whose lease has run out, with every row behind its trace in place: a pass ends it unavailable with "source
   drift", and every later pass, whatever it reads, finds it unreadable.
   */
  lemma ExpiredLongJobIsAbandoned(rows: seq<ReferenceAuthority>, later: Instant)
    ensures Migrated(START) && AllAllowed(State(START, 0), LongSteps())
    ensures Run(State(START, 0), LongSteps()) == State(LongStore(), 60)
    ensures ReconcileJob(LongStore(), 1, [LONG_ROW], 60).Ok?
    ensures var (after, outcome) := ReconcileJob(LongStore(), 1, [LONG_ROW], 60).value;
            && outcome.TerminalizedUncommitted?
            && 1 in after.jobs && after.jobs[1].status.Unavailable? && after.jobs[1].failureCode == Some(SourceDrift)
            && (ReadRecoveryAuthority(after, 1, rows).Some? ==>
                  ReconcileJob(after, 1, rows, later) == Ok((after, TerminalUnreadableOutcome)))
  {
    LongIsReached();
    RunFromMigrated(State(START, 0), LongSteps());
    LongRecordIs();
    LongIsAbandoned();
    AbandonedJobEnds(LongStore(), 1, [LONG_ROW], 60, rows, later);
  }

  // ---------------------------------------------------------------- the committed job converges

  const EVIDENCE_ROW := EvidenceAuthority(0, 0, 7, 1, Plain(8), 0, 1, 1, Plain(4))
  const MEMBER := LayerMemberEntry(1, 1, Primary, 0, EvidenceDigest(COMMIT, [EVIDENCE], [0]))
  const CLAIMED := ClaimState(START.claims + [ClaimRow(COMMIT, CLAIM, [0])], [EVIDENCE_ROW], [MEMBER])

  lemma ClaimsAre()
    ensures CreateClaims(SEGMENTS, COMMIT, ClaimState(START.claims, [], []), COMMIT.claims) == Ok(CLAIMED)
  {
    assert [] + [EVIDENCE_ROW] == [EVIDENCE_ROW] && [] + [MEMBER] == [MEMBER];
    assert ResolveEvidence(SEGMENTS, COMMIT, [], EVIDENCE) == Ok(([EVIDENCE_ROW], 0));
    assert [EVIDENCE][1..] == [] && [] + [0] == [0];
    assert ResolveEvidences(SEGMENTS, COMMIT, [EVIDENCE_ROW], [0], []) == Ok(([EVIDENCE_ROW], [0]));
    assert ResolveEvidences(SEGMENTS, COMMIT, [], [], [EVIDENCE]) == Ok(([EVIDENCE_ROW], [0]));
    assert CreateClaim(SEGMENTS, COMMIT, ClaimState(START.claims, [], []), CLAIM) == Ok(CLAIMED);
    assert [CLAIM][1..] == [];
  }

  lemma PlanIs()
    ensures PlanTarget(FrozenStore(), COMMIT, READS).Ok?
    ensures var plan := PlanTarget(FrozenStore(), COMMIT, READS).value;
            && plan.claims == CLAIMED && plan.authorityId == 0 && plan.identityId == 0
            && plan.previous == Some(0) && plan.predecessor.None? && plan.long.None?
  {
    var db := FrozenStore();
    StartIsMigrated();
    TargetIsPlanned();
    PlanParts(db, COMMIT, READS);
    ClaimsAre();
    assert db.claims == START.claims && db.evidences == [] && db.inputs == SEGMENTS && db.revisions == [];
  }

  const LAYER_ROW := LayerRevision(Link(0, 1, None, true), MidLayer, 0, 2, 1, Asserted, 0, 0, 0, 0, 1,
                                   LayerMemberDigest([MEMBER]), [MEMBER])

  lemma CommittedTables()
    ensures var db := CommittedStore();
            && db.revisions == [LAYER_ROW] && db.evidences == [EVIDENCE_ROW] && db.claims == CLAIMED.claims
            && |db.resolutions| == 2 && db.resolutions[1].projectId == 0 && db.resolutions[1].aiJobId == 0
            && db.resolutions[1].layer.MidLayer?
  {
    CommitsOnce();
    PlanIs();
    WrittenTables(PlanTarget(FrozenStore(), COMMIT, READS).value);
  }

  lemma WrittenTables(plan: TargetPlan)
    requires PlanFits(FrozenStore(), plan) && plan.claims == CLAIMED && plan.authorityId == 0 && plan.identityId == 0
    requires plan.previous == Some(0) && plan.predecessor.None?
    ensures var db := Written(FrozenStore(), COMMIT, plan, 0);
            && db.revisions == [LAYER_ROW] && db.evidences == [EVIDENCE_ROW] && db.claims == CLAIMED.claims
            && |db.resolutions| == 2 && db.resolutions[1].projectId == 0 && db.resolutions[1].aiJobId == 0
            && db.resolutions[1].layer.MidLayer?
  {
    assert FrozenStore().revisions == [];
  }

  /** What the job wrote, as every later read collects it. */
  lemma JobWrote(db: Db)
    requires db.revisions == [LAYER_ROW] && db.evidences == [EVIDENCE_ROW] && db.claims == CLAIMED.claims
    ensures RevisionsOfJob(db.revisions, 0, |db.revisions|) == [0]
    ensures AuthoritiesOfJob(db.revisions, 0, |db.revisions|) == [0]
    ensures EvidenceOfJob(db, 0, |db.evidences|) == [0]
  {
    assert RevisionsOfJob(db.revisions, 0, 0) == [] && AuthoritiesOfJob(db.revisions, 0, 0) == [];
    assert LAYER_ROW in db.revisions && MEMBER in LAYER_ROW.members;
    assert EvidenceLink(0, 7, 0, 1, 0) in db.claims[1].links by {
      assert db.claims[1].links[0] == EvidenceLink(0, 7, 0, 1, 0);
    }
    assert CitedByJob(db, 0, 0);
    assert EvidenceOfJob(db, 0, 0) == [];
  }

  const SOURCES := [Reference(JobSource, 0, 1, Plain(7), SCOPE, 0),
                    Reference(EvidenceSource, 0, 1, Plain(8), SCOPE, 1),
                    Reference(ResolutionSource, 0, 2, LayerMemberDigest([MEMBER]), SCOPE, 2)]

  lemma OneOfEach(db: Db)
    requires EvidenceOfJob(db, 0, |db.evidences|) == [0] && RevisionsOfJob(db.revisions, 0, |db.revisions|) == [0]
    ensures |db.evidences| > 0 && |db.revisions| > 0
    ensures CommittedSources(db, 0, SCOPE, 1) == [EvidenceReference(db, 0, SCOPE, 1), ResolutionReference(db, 0, SCOPE, 2)]
  {
    assert 0 in EvidenceOfJob(db, 0, |db.evidences|) && 0 in RevisionsOfJob(db.revisions, 0, |db.revisions|);
  }

  lemma SourcesAre(db: Db)
    requires db.revisions == [LAYER_ROW] && db.evidences == [EVIDENCE_ROW] && db.claims == CLAIMED.claims
    ensures [SOURCES[0]] + CommittedSources(db, 0, SCOPE, 1) == SOURCES
  {
    JobWrote(db);
    OneOfEach(db);
    AddedAre(db);
    SourcesListed();
  }

  lemma SourcesListed()
    ensures [SOURCES[0]] + [SOURCES[1], SOURCES[2]] == SOURCES
  {
  }

  lemma AddedAre(db: Db)
    requires db.revisions == [LAYER_ROW] && db.evidences == [EVIDENCE_ROW]
    ensures EvidenceReference(db, 0, SCOPE, 1) == SOURCES[1] && ResolutionReference(db, 0, SCOPE, 2) == SOURCES[2]
  {
  }

  const ROWS := [ReferenceAuthority(JobSource, 0, 0, 0, 1, Plain(7), SCOPE, ReadActive),
                 ReferenceAuthority(EvidenceSource, 0, 0, 0, 1, Plain(8), SCOPE, ReadActive),
                 ReferenceAuthority(ResolutionSource, 0, 0, 0, 2, LayerMemberDigest([MEMBER]), SCOPE, ReadActive)]

  /** The job's projection and trace after its commit. */
  lemma CommittedRows()
    ensures var db := CommittedStore();
            && 0 in db.projections && 0 in db.traces
            && db.projections[0] == FinishedProjection(MidProjectionRow(JOB, FREEZE, 0), 0, 0,
                                                       LayerMemberDigest([MEMBER]), 0)
            && db.traces[0].sources == SOURCES && db.traces[0].sourceManifestHash == CheckpointDigest([ENTRY])
            && db.traces[0].sessionId == 0 && db.traces[0].deletionScopeDigest == SCOPE
            && db.traces[0].proposalDigest.Some? && db.traces[0].planDigest.Some? && db.traces[0].commitDigest.Some?
  {
    CommitsOnce();
    PlanIs();
    WrittenRows(PlanTarget(FrozenStore(), COMMIT, READS).value);
  }

  lemma WrittenRows(plan: TargetPlan)
    requires PlanFits(FrozenStore(), plan) && plan.claims == CLAIMED && plan.authorityId == 0 && plan.identityId == 0
    requires plan.previous == Some(0) && plan.predecessor.None?
    ensures var db := Written(FrozenStore(), COMMIT, plan, 0);
            && 0 in db.projections && 0 in db.traces
            && db.projections[0] == FinishedProjection(MidProjectionRow(JOB, FREEZE, 0), 0, 0,
                                                       LayerMemberDigest([MEMBER]), 0)
            && db.traces[0].sources == SOURCES && db.traces[0].sourceManifestHash == CheckpointDigest([ENTRY])
            && db.traces[0].sessionId == 0 && db.traces[0].deletionScopeDigest == SCOPE
            && db.traces[0].proposalDigest.Some? && db.traces[0].planDigest.Some? && db.traces[0].commitDigest.Some?
  {
    WrittenTables(plan);
    SourcesAre(WithTarget(FrozenStore(), COMMIT, plan));
    assert FrozenStore().traces[0].sources == [SOURCES[0]];
  }

  lemma ProofIsComplete()
    ensures var db := CommittedStore();
            && 0 in db.jobs && 0 in db.projections && 0 in db.traces
            && TargetProofComplete(db, 0, db.jobs[0], db.projections[0], db.traces[0])
  {
    CommittedRows();
    CommittedTables();
    CommittedMaps();
    JobWrote(CommittedStore());
  }

  /** What recovery reads of the committed job. */
  lemma CommittedRecordIs()
    ensures ReadRecoveryAuthority(CommittedStore(), 0, ROWS).Some?
    ensures var a := ReadRecoveryAuthority(CommittedStore(), 0, ROWS).value;
            && a.references == SOURCES && a.referenceAuthorities == ROWS && a.sourceSessionIds == [0]
            && a.identity.sourceManifestHash == CheckpointDigest([ENTRY]) && a.identity.deletionScopeDigest == SCOPE
            && a.identity.projectId == 0 && a.identity.sessionId == 0
            && a.identity.createdAt < a.identity.expiresAt && a.identity.expiresAt == 100
            && a.targetLayer.MidLayer? && a.retentionState.Active? && a.migrationStatus.MigrationCompleted?
            && a.legacyNullResolutionCount == 0
            && a.p2PolicyRevision == "policy" && a.p2RetentionPolicyVersion == "retention"
            && a.checkpoint == Some(CheckpointAuthority(0, 0, 0, CheckpointDigest([ENTRY]), SCOPE, "policy", "retention",
                                                        CpCommitted))
  {
    CommittedRows();
    CommittedMaps();
    CommittedKeys();
  }

  lemma CommittedProofIs()
    ensures ReadRecoveryAuthority(CommittedStore(), 0, ROWS).Some?
    ensures HasCompleteCommitProof(ReadRecoveryAuthority(CommittedStore(), 0, ROWS).value)
  {
    CommittedRecordIs();
    CommittedRowsProve();
    StoreProves(CommittedStore(), ROWS);
  }

  lemma CommittedRowsProve()
    ensures RowsProve(CommittedStore())
  {
    CommittedRows();
    CommittedTables();
    CommittedKeys();
    ProofIsComplete();
  }

  ghost predicate RowsProve(db: Db) {
    && db.revisions == [LAYER_ROW] && db.evidences == [EVIDENCE_ROW] && db.claims == CLAIMED.claims
    && 0 in db.jobs && 0 in db.projections && db.projections[0].targetRevisionId == Some(0)
    && TraceOfJob(db, 0).Some? && TraceOfJob(db, 0).value.sources == SOURCES
    && TargetProofComplete(db, 0, db.jobs[0], db.projections[0], TraceOfJob(db, 0).value)
  }

  lemma StoreProves(db: Db, rows: seq<ReferenceAuthority>)
    requires RowsProve(db) && ReadRecoveryAuthority(db, 0, rows).Some?
    ensures HasCompleteCommitProof(ReadRecoveryAuthority(db, 0, rows).value)
  {
    JobWrote(db);
    RecordProof(db, rows);
    ProofOfSources(ReadRecoveryAuthority(db, 0, rows).value);
  }

  /** The part of a record that proves a commit of revision 0 for identity 0. */
  predicate ProvesFirstRevision(a: RecoveryAuthority) {
    && a.committed.Some?
    && var c := a.committed.value;
    && c.targetLayer == a.targetLayer && c.targetLayerIdentityId.Some? && c.targetLayerRevisionId.Some?
    && c.targetRevision > 0 && c.targetRevisionDigest.Some? && c.proposalDigest.Some? && c.planDigest.Some?
    && c.commitDigest.Some? && c.resolutionAuthorityIds == [0] && c.evidenceAuthorityIds == [0]
  }

  lemma RecordProof(db: Db, rows: seq<ReferenceAuthority>)
    requires ReadRecoveryAuthority(db, 0, rows).Some? && 0 in db.jobs && 0 in db.projections && TraceOfJob(db, 0).Some?
    requires RevisionsOfJob(db.revisions, 0, |db.revisions|) == [0] && db.revisions[0].link.number > 0
    requires AuthoritiesOfJob(db.revisions, 0, |db.revisions|) == [0] && EvidenceOfJob(db, 0, |db.evidences|) == [0]
    requires db.projections[0].targetRevisionId == Some(0)
    requires TargetProofComplete(db, 0, db.jobs[0], db.projections[0], TraceOfJob(db, 0).value)
    ensures ProvesFirstRevision(ReadRecoveryAuthority(db, 0, rows).value)
  {
  }

  lemma ProofOfSources(a: RecoveryAuthority)
    requires ProvesFirstRevision(a) && a.references == SOURCES
    ensures HasCompleteCommitProof(a)
  {
    assert SOURCES[1] in SOURCES && SOURCES[2] in SOURCES;
  }

  lemma RecordHasNoError(a: RecoveryAuthority)
    requires a.references == SOURCES && a.referenceAuthorities == ROWS && a.sourceSessionIds == [0]
    requires a.identity.sourceManifestHash == CheckpointDigest([ENTRY]) && a.identity.deletionScopeDigest == SCOPE
    requires a.identity.projectId == 0 && a.identity.sessionId == 0
    requires a.identity.createdAt < a.identity.expiresAt && a.identity.expiresAt == 100
    requires a.targetLayer.MidLayer? && a.retentionState.Active? && a.migrationStatus.MigrationCompleted?
    requires a.legacyNullResolutionCount == 0
    requires a.p2PolicyRevision == "policy" && a.p2RetentionPolicyVersion == "retention"
    requires a.checkpoint == Some(CheckpointAuthority(0, 0, 0, CheckpointDigest([ENTRY]), SCOPE, "policy", "retention",
                                                      CpCommitted))
    ensures AuthorityError(a, 20).None?
  {
    ReferencesAccepted(a.identity, a.references);
    assert BaseError(BaseOf(a, Active)).None?;
    var running := BuildRunningTrace(BaseOf(a, Active)).value;
    assert ParityErrorFrom(running, ROWS, ScopeOf(a), 3).None?;
    assert ParityErrorFrom(running, ROWS, ScopeOf(a), 2).None?;
    assert ParityErrorFrom(running, ROWS, ScopeOf(a), 1).None?;
    assert ROWS[0] in ROWS && !SomeSessionUncovered(ROWS, [0]);
  }

  /** A Mid job that has committed, with every row behind its trace in place, is found converged. */
  lemma CommittedMidJobConverges()
    ensures Migrated(START) && AllAllowed(State(START, 0), COMMITTED_STEPS)
    ensures Run(State(START, 0), COMMITTED_STEPS) == State(CommittedStore(), 0)
    ensures ReconcileJob(CommittedStore(), 0, ROWS, 20) == Ok((CommittedStore(), ConvergedOutcome))
  {
    CommittedIsReached();
    CommittedIsOrderly();
    CommittedRecordIs();
    RecordHasNoError(ReadRecoveryAuthority(CommittedStore(), 0, ROWS).value);
    CommittedProofIs();
    CommittedMaps();
    CommittedJobConvergesExactlyWhen(CommittedStore(), 0, ROWS, 20);
  }

  lemma CommittedIsOrderly()
    ensures StoreOk(CommittedStore())
  {
    StartIsMigrated();
    MigratedStoreOk(START);
    StoreIsReached();
    RunKeepsStoreOk(State(START, 0), FrozenSteps());
    CommitStepKeeps();
  }

  lemma CommitStepKeeps()
    requires StoreOk(FrozenStore())
    ensures StoreOk(CommittedStore())
  {
    StepKeepsStoreOk(State(FrozenStore(), 0), COMMIT_STEP);
  }
}
