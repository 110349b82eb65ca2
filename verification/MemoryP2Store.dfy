/**
 The rows the P2 memory repository works on. Tables keyed by caller-chosen identifiers are maps;
 tables whose rows get a fresh random identifier are sequences, a row's identifier being its
 position. Child rows live inside their parent.
 */
module MemoryP2Store {
  import opened Options
  import opened MemoryP2Traces
  import MemoryGate
  import opened MemoryP2Recovery
  import opened RevisionChains

  datatype PersistError =
    | CasMismatch | CheckpointInvalid | AlreadyTerminal | InputScopeMismatch | JobNotRunning
    | ManifestInvalid | MigrationIncomplete | SourceNotFrozen | UniqueViolation | ConstraintViolation | RowMissing

  datatype JobType = MidOnline | MidFinal | LongSessionEnd | OtherJob

  datatype SpeakerRole = Elder | Interviewer | OtherSpeaker

  datatype InputSegment = InputSegment(
    aiJobId: Id, transcriptId: Id, sessionId: Id, textRevision: int, speakerRoleRevision: int,
    textDigest: Digest, trustedRole: SpeakerRole, conversation: bool, inputOrder: int)

  /** inputMemories gives the frozen revision of each resolution the job was given. */
  datatype Job = Job(
    projectId: Id, jobType: JobType, status: Status, p2Trigger: bool, attemptNo: nat, policyRevision: nat,
    retentionPolicyVersion: nat, retentionState: RetentionState, createdAt: Instant, expiresAt: Instant,
    inputHash: Digest, requestedBy: Id, requestId: Id, failureCode: Option<ErrorCode>,
    completedAt: Option<Instant>, inputMemories: map<Id, nat>)

  datatype CheckpointMember = CheckpointMember(entry: CheckpointEntry, resolutionRowId: Id)

  datatype Checkpoint = Checkpoint(
    projectId: Id, sessionId: Id, producerJobId: Id, rootIdentity: Digest, status: CheckpointStatus,
    committedAt: Option<Instant>, expectedMemberCount: nat, memberManifestHash: Digest,
    evidenceManifestHash: Digest, deletionScopeDigest: Digest, aiPolicyRevision: nat,
    retentionPolicyVersion: nat, threadId: Id, p1TerminalJobId: Option<Id>, members: seq<CheckpointMember>)

  datatype LeaseToken = LeaseToken(owner: string, epoch: int, expiresAt: Instant)

  datatype Projection = Projection(
    jobKind: JobType, sourceCheckpointId: Id, finalMidCheckpointId: Option<Id>, sourceRevisionDigest: Digest,
    deletionScopeDigest: Digest, p2PolicyRevision: string, p2RetentionPolicyVersion: string, lease: LeaseToken,
    targetIdentityId: Option<Id>, targetRevisionId: Option<Id>, targetRevisionDigest: Option<Digest>,
    terminalErrorCode: Option<ErrorCode>, updatedAt: Instant)

  /** The columns that say what a trace is a trace of. */
  datatype TraceShape = TraceShape(
    kind: string, trigger: string, decisionOutcome: string, directorInvoked: bool, contextRevision: int,
    stageTimings: map<string, int>)

  const MEMORY_TRACE := TraceShape("memory_layer_evolve", "memory_layer_evolve", "unavailable", false, 0, map[])

  /** A decision trace with its memory semantics and its source references. */
  datatype Trace = Trace(
    shape: TraceShape, aiJobId: Id, sessionId: Id, requestId: Id, generationId: Id, startedAt: Instant, expiresAt: Instant,
    status: Status, stage: Stage, memoryOutcome: Outcome, errorCode: Option<ErrorCode>,
    completedAt: Option<Instant>, durationMs: Option<int>, deletionScopeDigest: Digest,
    sourceManifestHash: Digest, proposalDigest: Option<Digest>, planDigest: Option<Digest>,
    commitDigest: Option<Digest>, sources: seq<Reference>)

  datatype RetentionKind = JobTarget | TraceTarget | CheckpointTarget | LayerRevisionTarget

  datatype RetentionTarget = RetentionTarget(kind: RetentionKind, targetId: Id, inputOrder: int)

  datatype LongProjection = LongProjection(
    targetRevisionId: Id, expectedSourceCount: nat, sourceManifestHash: Digest, sourceMidManifestHash: Digest,
    sourceSessionIds: seq<Id>, sourceSessionSetHash: Digest, sources: seq<LongSourceEntry>)

  datatype ResolutionAuthority = ResolutionAuthority(
    projectId: Id, semanticKind: MemoryGate.SemanticKind, canonicalKey: string, originSessionId: Id,
    originThreadId: Id)

  /** link.owner is the authority, link.number the resolution revision, link.predecessor what it supersedes. */
  datatype Resolution = Resolution(
    link: Link, aiJobId: Id, projectId: Id, sessionId: Id, layer: TargetLayer, canonicalKey: string,
    semanticKind: MemoryGate.SemanticKind, semanticStatus: SemanticStatus, p2Write: bool, claimIds: seq<Id>)

  datatype LayerIdentity = LayerIdentity(
    projectId: Id, keyDigest: Digest, originAuthorityId: Id, originSessionId: Id, originThreadId: Id)

  /** link.owner is the layer identity, link.number the revision number. */
  datatype LayerRevision = LayerRevision(
    link: Link, layer: TargetLayer, authorityId: Id, resolutionRevision: nat, resolutionRowId: Id,
    semanticStatus: SemanticStatus, projectId: Id, sessionId: Id, sourceCheckpointId: Id, sourceJobId: Id,
    expectedMemberCount: nat, memberManifestHash: Digest, members: seq<LayerMemberEntry>)

  datatype EvidenceLink = EvidenceLink(
    inputSegmentId: Id, transcriptId: Id, evidenceId: Id, authorityRevision: int, evidenceOrder: int)

  datatype EvidenceBridge = EvidenceBridge(inputSegmentId: Id, evidenceId: Id, authorityRevision: int)

  datatype Claim = Claim(
    aiJobId: Id, projectId: Id, sessionId: Id, layer: TargetLayer, canonicalKey: string,
    semanticKind: MemoryGate.SemanticKind, claimRevision: int, links: seq<EvidenceLink>,
    bridges: seq<EvidenceBridge>)

  datatype EvidenceAuthority = EvidenceAuthority(
    projectId: Id, sessionId: Id, sourceId: Id, authorityRevision: int, membershipDigest: Digest,
    inputOrder: int, textRevision: int, speakerRoleRevision: int, textDigest: Digest)

  datatype Db = Db(
    migrationCompleted: bool, jobs: map<Id, Job>, inputs: map<Id, InputSegment>, checkpoints: map<Id, Checkpoint>,
    checkpointByJob: map<Id, Id>, projections: map<Id, Projection>, traces: map<Id, Trace>, traceByJob: map<Id, Id>,
    retention: map<Id, seq<RetentionTarget>>, longs: map<Id, LongProjection>,
    authorities: seq<ResolutionAuthority>, resolutions: seq<Resolution>, identities: seq<LayerIdentity>,
    revisions: seq<LayerRevision>, claims: seq<Claim>, evidences: seq<EvidenceAuthority>)

  const EMPTY_DB := Db(true, map[], map[], map[], map[], map[], map[], map[], map[], map[], [], [], [], [], [], [])

  // ---------------------------------------------------------------- lookups

  function ResolutionLinks(rows: seq<Resolution>): (r: seq<Link>)
    ensures |r| == |rows|
  {
    seq(|rows|, i requires 0 <= i < |rows| => rows[i].link)
  }

  function RevisionLinks(rows: seq<LayerRevision>): (r: seq<Link>)
    ensures |r| == |rows|
  {
    seq(|rows|, i requires 0 <= i < |rows| => rows[i].link)
  }

  function CurrentResolution(rows: seq<Resolution>, authorityId: Id): (r: Option<Id>)
    ensures r.Some? ==> r.value < |rows| && rows[r.value].link.owner == authorityId && rows[r.value].link.current
  {
    FirstCurrent(ResolutionLinks(rows), authorityId)
  }

  function CurrentRevision(rows: seq<LayerRevision>, identityId: Id): (r: Option<Id>)
    ensures r.Some? ==> r.value < |rows| && rows[r.value].link.owner == identityId && rows[r.value].link.current
  {
    FirstCurrent(RevisionLinks(rows), identityId)
  }

  function Get<T>(table: map<Id, T>, id: Id): Option<T> {
    if id in table then Some(table[id]) else None
  }

  function TraceOfJob(db: Db, jobId: Id): Option<Trace> {
    if jobId in db.traceByJob then Get(db.traces, db.traceByJob[jobId]) else None
  }

  function RetentionOf(db: Db, jobId: Id): seq<RetentionTarget> {
    if jobId in db.retention then db.retention[jobId] else []
  }

  /** The layer revisions a job has written, in table order. */
  function RevisionsOfJob(rows: seq<LayerRevision>, jobId: Id, n: nat): (r: seq<Id>)
    requires n <= |rows|
    ensures forall id: Id :: id in r <==> id < n && rows[id].sourceJobId == jobId
  {
    if n == 0 then []
    else RevisionsOfJob(rows, jobId, n - 1) + (if rows[n - 1].sourceJobId == jobId then [n - 1] else [])
  }

  predicate HasRevisions(db: Db, jobId: Id) {
    exists r :: r in db.revisions && r.sourceJobId == jobId
  }

  /** A claim of some revision the job wrote cites the evidence. */
  predicate CitedByJob(db: Db, jobId: Id, evidenceId: Id) {
    exists r :: r in db.revisions && r.sourceJobId == jobId
      && exists m :: m in r.members && m.claimId < |db.claims|
           && exists l :: l in db.claims[m.claimId].links && l.evidenceId == evidenceId
  }

  /** The evidence behind everything the job wrote, in table order. */
  function EvidenceOfJob(db: Db, jobId: Id, n: nat): (r: seq<Id>)
    requires n <= |db.evidences|
    ensures forall id: Id :: id in r <==> id < n && CitedByJob(db, jobId, id)
  {
    if n == 0 then []
    else EvidenceOfJob(db, jobId, n - 1) + (if CitedByJob(db, jobId, n - 1) then [n - 1] else [])
  }

  /** The authorities a job's revisions belong to, each once. */
  function AuthoritiesOfJob(rows: seq<LayerRevision>, jobId: Id, n: nat): seq<Id>
    requires n <= |rows|
  {
    if n == 0 then []
    else
      var before := AuthoritiesOfJob(rows, jobId, n - 1);
      if rows[n - 1].sourceJobId != jobId || rows[n - 1].authorityId in before then before
      else before + [rows[n - 1].authorityId]
  }

  function LayerOfKind(kind: JobType): TargetLayer {
    if kind.LongSessionEnd? then LongLayer else MidLayer
  }

  // ---------------------------------------------------------------- leases

  predicate NonBlank(s: string) {
    exists i :: 0 <= i < |s| && s[i] != ' '
  }

  /** The token checks every worker call starts with. */
  predicate LeaseWellFormed(lease: LeaseToken, now: Instant) {
    lease.epoch >= 1 && NonBlank(lease.owner) && lease.expiresAt > now
  }

  /** The caller holds the job's current token and it has not run out. */
  predicate HoldsLease(projection: Projection, lease: LeaseToken, now: Instant) {
    projection.lease == lease && projection.lease.expiresAt > now
  }

  // ---------------------------------------------------------------- the recovery record

  /** The checkpoint the job produced, else the final Mid checkpoint a Long job consumes. */
  function RecoveryCheckpointId(db: Db, jobId: Id): Option<Id>
    requires jobId in db.projections
  {
    var finalMid := db.projections[jobId].finalMidCheckpointId;
    if jobId in db.checkpointByJob && db.checkpointByJob[jobId] in db.checkpoints then Some(db.checkpointByJob[jobId])
    else if finalMid.Some? && finalMid.value in db.checkpoints then finalMid
    else None
  }

  function CheckpointRecord(db: Db, p: Projection, checkpointId: Id): CheckpointAuthority
    requires checkpointId in db.checkpoints
  {
    var row := db.checkpoints[checkpointId];
    CheckpointAuthority(checkpointId, row.projectId, row.sessionId, row.memberManifestHash,
                        row.deletionScopeDigest, p.p2PolicyRevision, p.p2RetentionPolicyVersion, row.status)
  }

  predicate TargetProofComplete(db: Db, jobId: Id, job: Job, p: Projection, trace: Trace) {
    var ids := RevisionsOfJob(db.revisions, jobId, |db.revisions|);
    && ids != []
    && (forall id: Id :: id in ids ==>
          db.revisions[id].projectId == job.projectId && db.revisions[id].layer == LayerOfKind(p.jobKind))
    && (forall id: Id :: id in ids ==>
          && db.revisions[id].resolutionRowId < |db.resolutions|
          && var r := db.resolutions[db.revisions[id].resolutionRowId];
             r.projectId == job.projectId && r.aiJobId == jobId && r.layer == LayerOfKind(p.jobKind))
    && (forall id: Id :: id in EvidenceOfJob(db, jobId, |db.evidences|) ==>
          db.evidences[id].projectId == job.projectId)
    && p.targetRevisionId.Some? && p.targetRevisionId.value < |db.revisions|
    && p.targetIdentityId.Some? && p.targetRevisionDigest.Some?
    && var target := db.revisions[p.targetRevisionId.value];
    && target.link.current
    && target.link.owner == p.targetIdentityId.value
    && target.memberManifestHash == p.targetRevisionDigest.value
    && trace.proposalDigest.Some? && trace.planDigest.Some? && trace.commitDigest.Some?
    && EvidenceOfJob(db, jobId, |db.evidences|) != []
  }

  function CommittedRecord(db: Db, jobId: Id, job: Job, p: Projection, trace: Trace): Option<CommittedAuthority> {
    var ids := RevisionsOfJob(db.revisions, jobId, |db.revisions|);
    if ids == [] then None
    else
      Some(CommittedAuthority(
        LayerOfKind(p.jobKind), p.targetIdentityId, p.targetRevisionId,
        if p.targetRevisionId.Some? && p.targetRevisionId.value < |db.revisions|
        then db.revisions[p.targetRevisionId.value].link.number else 0,
        p.targetRevisionDigest, trace.proposalDigest, trace.planDigest,
        if TargetProofComplete(db, jobId, job, p, trace) then trace.commitDigest else None,
        AuthoritiesOfJob(db.revisions, jobId, |db.revisions|), EvidenceOfJob(db, jobId, |db.evidences|)))
  }

  function TraceRecord(job: Job, p: Projection, traceId: Id, trace: Trace): DurableTrace {
    DurableTrace(traceId, trace.status, trace.stage, trace.memoryOutcome, trace.errorCode, trace.sourceManifestHash,
                 trace.deletionScopeDigest, p.p2PolicyRevision, p.p2RetentionPolicyVersion, job.retentionState,
                 job.expiresAt, trace.proposalDigest, trace.planDigest, trace.commitDigest, trace.sources)
  }

  function SourceSessions(db: Db, jobId: Id): seq<Id>
    requires jobId in db.projections
  {
    if jobId in db.longs then db.longs[jobId].sourceSessionIds
    else
      var checkpointId := RecoveryCheckpointId(db, jobId);
      if checkpointId.None? then [] else [db.checkpoints[checkpointId.value].sessionId]
  }

  /**
   The record recovery plans from. `rows` are the rows behind the trace's references as read at
   the same time.
   */
  function ReadRecoveryAuthority(db: Db, jobId: Id, rows: seq<ReferenceAuthority>): Option<RecoveryAuthority> {
    if jobId !in db.jobs || jobId !in db.projections || TraceOfJob(db, jobId).None? then None
    else if SourceSessions(db, jobId) == [] then None
    else
      var job, p := db.jobs[jobId], db.projections[jobId];
      var traceId, trace := db.traceByJob[jobId], TraceOfJob(db, jobId).value;
      var checkpointId, sessions := RecoveryCheckpointId(db, jobId), SourceSessions(db, jobId);
      Some(RecoveryAuthority(
        TraceIdentity(traceId, job.projectId, trace.sessionId, job.requestedBy, job.requestId, trace.generationId,
                      jobId, job.inputHash, trace.sourceManifestHash, p.deletionScopeDigest, trace.startedAt,
                      job.createdAt, job.expiresAt),
        job.attemptNo, job.status, Some(trace.memoryOutcome), job.failureCode, p.updatedAt, Some(p.lease.owner),
        p.lease.epoch, Some(p.lease.expiresAt), p.p2PolicyRevision, p.p2RetentionPolicyVersion,
        job.retentionState, LayerOfKind(p.jobKind), sessions,
        if jobId in db.longs then db.longs[jobId].sourceSessionSetHash else SessionSetDigest(sessions),
        if checkpointId.Some? then Some(CheckpointRecord(db, p, checkpointId.value)) else None,
        trace.sources, rows, 0,
        if db.migrationCompleted then MigrationCompleted else MigrationMissing,
        CommittedRecord(db, jobId, job, p, trace), Some(TraceRecord(job, p, traceId, trace))))
  }
}
