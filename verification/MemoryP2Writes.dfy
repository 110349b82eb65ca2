/**
 What each transaction of the P2 memory repository does to the stored rows. A transaction that
 throws, or that the database refuses for a unique key or another constraint, is an Err and leaves
 the rows as they were.
 */
module MemoryP2Writes {
  import opened Options
  import opened MemoryP2Traces
  import G = MemoryGate
  import opened MemoryP2Recovery
  import opened RevisionChains
  import opened MemoryP2Store

  // ---------------------------------------------------------------- freezing

  datatype FreezeInput = FreezeInput(
    aiJobId: Id, checkpointId: Id, traceId: Id, projectId: Id, sessionId: Id, rootIdentity: Digest,
    memberManifestHash: Digest, evidenceManifestHash: Digest, deletionScopeDigest: Digest,
    aiPolicyRevision: nat, retentionPolicyVersion: nat, expiresAt: Instant, lease: LeaseToken,
    expectedMemberCount: nat, members: seq<CheckpointMember>, finalFlush: bool, snapshotContractCurrent: bool,
    threadId: Id, p1TerminalJobId: Option<Id>, sourceRevisionDigest: Digest, p2PolicyRevision: string,
    p2RetentionPolicyVersion: string, sources: seq<Reference>, requestId: Id, generationId: Id)

  datatype Frozen = FrozenCheckpoint(checkpointId: Id, traceId: Id, replayed: bool)

  function Entries(members: seq<CheckpointMember>): seq<CheckpointEntry> {
    seq(|members|, i requires 0 <= i < |members| => members[i].entry)
  }

  predicate MembersOrdered(members: seq<CheckpointMember>) {
    forall i :: 0 <= i < |members| ==> members[i].entry.inputOrder == i
  }

  predicate SourcesOrdered(sources: seq<Reference>) {
    forall i :: 0 <= i < |sources| ==> sources[i].inputOrder == i
  }

  predicate MembersUnique(members: seq<CheckpointMember>) {
    forall i, j :: 0 <= i < j < |members| ==>
      && members[i].entry.resolutionAuthorityId != members[j].entry.resolutionAuthorityId
      && members[i].resolutionRowId != members[j].resolutionRowId
  }

  predicate SourcesUnique(sources: seq<Reference>) {
    forall i, j :: 0 <= i < j < |sources| ==>
      (sources[i].kind, sources[i].targetId, sources[i].sourceRevision)
      != (sources[j].kind, sources[j].targetId, sources[j].sourceRevision)
  }

  function ClaimCount(resolutions: seq<Resolution>, rowId: Id): nat {
    if rowId < |resolutions| then |resolutions[rowId].claimIds| else 0
  }

  predicate MidType(t: JobType) {
    t.MidOnline? || t.MidFinal?
  }

  predicate JobAdmitsFreeze(job: Job, input: FreezeInput) {
    && job.projectId == input.projectId
    && MidType(job.jobType)
    && job.status.Running?
    && job.p2Trigger
    && job.policyRevision == input.aiPolicyRevision
    && job.retentionPolicyVersion == input.retentionPolicyVersion
    && job.retentionState.Active?
    && job.expiresAt == input.expiresAt
    && input.snapshotContractCurrent
  }

  function CheckpointRow(input: FreezeInput): Checkpoint {
    Checkpoint(input.projectId, input.sessionId, input.aiJobId, input.rootIdentity, CpFrozen, None,
               input.expectedMemberCount, input.memberManifestHash, input.evidenceManifestHash,
               input.deletionScopeDigest, input.aiPolicyRevision, input.retentionPolicyVersion, input.threadId,
               input.p1TerminalJobId, input.members)
  }

  function MidProjectionRow(job: Job, input: FreezeInput, now: Instant): Projection {
    Projection(job.jobType, input.checkpointId, None, input.sourceRevisionDigest, input.deletionScopeDigest,
               input.p2PolicyRevision, input.p2RetentionPolicyVersion, input.lease, None, None, None, None, now)
  }

  function FrozenTrace(jobId: Id, sessionId: Id, requestId: Id, generationId: Id, expiresAt: Instant,
                       deletionScopeDigest: Digest, sourceRevisionDigest: Digest, sources: seq<Reference>,
                       now: Instant): Trace
  {
    Trace(MEMORY_TRACE, jobId, sessionId, requestId, generationId, now, expiresAt, Running, Frozen, Unjudged, None, None,
          None, deletionScopeDigest, sourceRevisionDigest, None, None, None, sources)
  }

  /** The typed columns of a stored source: the identifier stands in the column of its kind. */
  datatype SourceColumns = SourceColumns(
    checkpointId: Option<Id>, jobId: Option<Id>, inputSegmentId: Option<Id>, evidenceId: Option<Id>,
    resolutionAuthorityId: Option<Id>)

  function ColumnsOf(source: Reference): SourceColumns {
    SourceColumns(
      if source.kind.CheckpointSource? then Some(source.targetId) else None,
      if source.kind.JobSource? then Some(source.targetId) else None,
      if source.kind.InputSegmentSource? then Some(source.targetId) else None,
      if source.kind.EvidenceSource? then Some(source.targetId) else None,
      if source.kind.ResolutionSource? then Some(source.targetId) else None)
  }

  predicate RootTaken(db: Db, rootIdentity: Digest) {
    exists id :: id in db.checkpoints && db.checkpoints[id].rootIdentity == rootIdentity
  }

  /** A request or a generation has one trace. */
  predicate TraceKeysTaken(db: Db, requestId: Id, generationId: Id) {
    exists t :: t in db.traces && (db.traces[t].requestId == requestId || db.traces[t].generationId == generationId)
  }

  /** A member states its resolution row's authority, revision and semantic status, and counts are positive. */
  predicate MemberPermitted(resolutions: seq<Resolution>, m: CheckpointMember) {
    && m.entry.resolutionRevision > 0 && m.entry.claimCount > 0
    && m.resolutionRowId < |resolutions|
    && var row := resolutions[m.resolutionRowId];
    && row.link.owner == m.entry.resolutionAuthorityId
    && row.link.number == m.entry.resolutionRevision
    && row.semanticStatus == m.entry.semanticStatus
  }

  /** Every source of a trace names the trace's own deletion scope. */
  predicate SourcesInScope(sources: seq<Reference>, deletionScopeDigest: Digest) {
    forall s :: s in sources ==> s.deletionScopeDigest == deletionScopeDigest
  }

  predicate SourcesPermitted(sources: seq<Reference>, deletionScopeDigest: Digest) {
    SourcesInScope(sources, deletionScopeDigest) && forall s :: s in sources ==> s.sourceRevision >= 0
  }

  /** The checks and deferred triggers of the tables; a final flush, and only that, names the P1 job it follows. */
  predicate FreezePermitted(db: Db, input: FreezeInput) {
    && (input.finalFlush <==> input.p1TerminalJobId.Some?)
    && (forall m :: m in input.members ==> MemberPermitted(db.resolutions, m))
    && SourcesPermitted(input.sources, input.deletionScopeDigest)
  }

  function ReplayFreeze(db: Db, input: FreezeInput): Result<Frozen, PersistError>
    requires input.aiJobId in db.checkpointByJob
  {
    var id := db.checkpointByJob[input.aiJobId];
    var row :- GetRow(db.checkpoints, id);
    :- Need(id == input.checkpointId
            && row.projectId == input.projectId
            && row.sessionId == input.sessionId
            && row.rootIdentity == input.rootIdentity
            && row.memberManifestHash == input.memberManifestHash
            && row.deletionScopeDigest == input.deletionScopeDigest, CheckpointInvalid);
    :- Need(TraceOfJob(db, input.aiJobId).Some?
            && input.aiJobId in db.projections
            && db.projections[input.aiJobId].lease == input.lease, CheckpointInvalid);
    Ok(FrozenCheckpoint(id, db.traceByJob[input.aiJobId], true))
  }

  function GetRow<T>(table: map<Id, T>, id: Id): (r: Result<T, PersistError>)
    ensures r.Ok? <==> id in table
    ensures r.Ok? ==> r.value == table[id]
  {
    if id in table then Ok(table[id]) else Err(RowMissing)
  }

  function FreezeCheckpoint(db: Db, input: FreezeInput, now: Instant): Result<(Db, Frozen), PersistError> {
    var ready := db.migrationCompleted;
    :- Need(ready, MigrationIncomplete);
    :- Need(LeaseWellFormed(input.lease, now), CheckpointInvalid);
    if input.aiJobId in db.checkpointByJob then
      var replay :- ReplayFreeze(db, input);
      Ok((db, replay))
    else
      :- Need(input.aiJobId in db.jobs && JobAdmitsFreeze(db.jobs[input.aiJobId], input), JobNotRunning);
      var job := db.jobs[input.aiJobId];
      :- Need(input.lease.expiresAt <= input.expiresAt, CheckpointInvalid);
      :- Need(MembersOrdered(input.members) && SourcesOrdered(input.sources), ManifestInvalid);
      :- Need(MembersUnique(input.members) && SourcesUnique(input.sources), ManifestInvalid);
      :- Need(input.expectedMemberCount == |input.members| && input.members != []
              && CheckpointDigest(Entries(input.members)) == input.memberManifestHash, ManifestInvalid);
      :- Need(forall m :: m in input.members ==> ClaimCount(db.resolutions, m.resolutionRowId) == m.entry.claimCount,
              SourceNotFrozen);
      :- Need(job.jobType == (if input.finalFlush then MidFinal else MidOnline), InputScopeMismatch);
      :- Need(input.checkpointId !in db.checkpoints && !RootTaken(db, input.rootIdentity)
              && input.aiJobId !in db.projections && input.traceId !in db.traces
              && input.aiJobId !in db.traceByJob && input.aiJobId !in db.retention
              && !TraceKeysTaken(db, input.requestId, input.generationId), UniqueViolation);
      :- Need(FreezePermitted(db, input), ConstraintViolation);
      Ok((FrozenDb(db, input, job, now), FrozenCheckpoint(input.checkpointId, input.traceId, false)))
  }

  function FrozenDb(db: Db, input: FreezeInput, job: Job, now: Instant): Db {
    db.(checkpoints := db.checkpoints[input.checkpointId := CheckpointRow(input)],
        checkpointByJob := db.checkpointByJob[input.aiJobId := input.checkpointId],
        projections := db.projections[input.aiJobId := MidProjectionRow(job, input, now)],
        traces := db.traces[input.traceId :=
          FrozenTrace(input.aiJobId, input.sessionId, input.requestId, input.generationId, input.expiresAt,
                      input.deletionScopeDigest, input.sourceRevisionDigest, input.sources, now)],
        traceByJob := db.traceByJob[input.aiJobId := input.traceId],
        retention := db.retention[input.aiJobId :=
          [RetentionTarget(JobTarget, input.aiJobId, 0), RetentionTarget(TraceTarget, input.traceId, 1),
           RetentionTarget(CheckpointTarget, input.checkpointId, 2)]])
  }

  datatype FreezeLongInput = FreezeLongInput(
    aiJobId: Id, traceId: Id, projectId: Id, sessionId: Id, finalMidCheckpointId: Id, p1TerminalJobId: Option<Id>,
    sourceRevisionDigest: Digest, deletionScopeDigest: Digest, expiresAt: Instant, lease: LeaseToken,
    p2PolicyRevision: string, p2RetentionPolicyVersion: string, sources: seq<Reference>, requestId: Id,
    generationId: Id)

  function LongProjectionRow(input: FreezeLongInput, now: Instant): Projection {
    Projection(LongSessionEnd, input.finalMidCheckpointId, Some(input.finalMidCheckpointId),
               input.sourceRevisionDigest, input.deletionScopeDigest, input.p2PolicyRevision,
               input.p2RetentionPolicyVersion, input.lease, None, None, None, None, now)
  }

  predicate JobAdmitsLongFreeze(db: Db, input: FreezeLongInput) {
    && input.aiJobId in db.jobs && input.finalMidCheckpointId in db.checkpoints
    && var job, checkpoint := db.jobs[input.aiJobId], db.checkpoints[input.finalMidCheckpointId];
    && job.projectId == input.projectId
    && job.jobType.LongSessionEnd?
    && job.status.Running?
    && job.p2Trigger
    && job.retentionState.Active?
    && job.expiresAt == input.expiresAt
    && checkpoint.projectId == input.projectId
    && checkpoint.sessionId == input.sessionId
    && checkpoint.status.CpCommitted?
    && checkpoint.p1TerminalJobId == input.p1TerminalJobId
    && checkpoint.producerJobId in db.projections
    && var finalProjection := db.projections[checkpoint.producerJobId];
    && finalProjection.jobKind.MidFinal?
    && finalProjection.targetRevisionDigest == Some(input.sourceRevisionDigest)
  }

  predicate FreezeLongPermitted(input: FreezeLongInput) {
    input.p1TerminalJobId.Some? && SourcesPermitted(input.sources, input.deletionScopeDigest)
  }

  function FreezeLongJob(db: Db, input: FreezeLongInput, now: Instant): Result<(Db, Frozen), PersistError> {
    var ready := db.migrationCompleted;
    :- Need(ready, MigrationIncomplete);
    :- Need(LeaseWellFormed(input.lease, now), CheckpointInvalid);
    if input.aiJobId in db.projections then
      var replay := db.projections[input.aiJobId];
      :- Need(TraceOfJob(db, input.aiJobId).Some?
              && replay.finalMidCheckpointId == Some(input.finalMidCheckpointId)
              && replay.sourceRevisionDigest == input.sourceRevisionDigest
              && replay.deletionScopeDigest == input.deletionScopeDigest
              && replay.lease == input.lease, CheckpointInvalid);
      Ok((db, FrozenCheckpoint(input.finalMidCheckpointId, db.traceByJob[input.aiJobId], true)))
    else
      :- Need(JobAdmitsLongFreeze(db, input), SourceNotFrozen);
      :- Need(input.lease.expiresAt <= input.expiresAt, CheckpointInvalid);
      :- Need(SourcesOrdered(input.sources) && SourcesUnique(input.sources), ManifestInvalid);
      :- Need(input.traceId !in db.traces && input.aiJobId !in db.traceByJob && input.aiJobId !in db.retention
              && !TraceKeysTaken(db, input.requestId, input.generationId), UniqueViolation);
      :- Need(FreezeLongPermitted(input), ConstraintViolation);
      Ok((FrozenLongDb(db, input, now), FrozenCheckpoint(input.finalMidCheckpointId, input.traceId, false)))
  }

  function FrozenLongDb(db: Db, input: FreezeLongInput, now: Instant): Db {
    db.(projections := db.projections[input.aiJobId := LongProjectionRow(input, now)],
        traces := db.traces[input.traceId :=
          FrozenTrace(input.aiJobId, input.sessionId, input.requestId, input.generationId, input.expiresAt,
                      input.deletionScopeDigest, input.sourceRevisionDigest, input.sources, now)],
        traceByJob := db.traceByJob[input.aiJobId := input.traceId],
        retention := db.retention[input.aiJobId :=
          [RetentionTarget(JobTarget, input.aiJobId, 0), RetentionTarget(TraceTarget, input.traceId, 1)]])
  }

  // ---------------------------------------------------------------- committing: claims and evidence

  /** The frozen revision of transcript evidence is always 1. */
  const EVIDENCE_REVISION := 1

  datatype EvidenceInput = EvidenceInput(
    inputSegmentId: Id, sourceId: Id, textRevision: int, speakerRoleRevision: int, textDigest: Digest,
    membershipDigest: Digest, expectedEvidenceId: Option<Id>, inputOrder: int)

  datatype ClaimInput = ClaimInput(
    canonicalKey: string, semanticKind: G.SemanticKind, role: ClaimRole, evidences: seq<EvidenceInput>)

  datatype TargetResolutionKind = KnownKind(kind: G.ResolutionKind) | ReviewRequiredKind

  datatype TargetInput = TargetInput(
    layer: TargetLayer, authorityId: Option<Id>, canonicalKey: string, semanticKind: G.SemanticKind,
    semanticStatus: SemanticStatus, resolutionKind: TargetResolutionKind, hasValue: bool,
    expectedCurrentResolutionId: Option<Id>, expectedCurrentRevision: nat, identityId: Option<Id>,
    identityKeyDigest: Digest)

  datatype CommitInput = CommitInput(
    aiJobId: Id, checkpointId: Id, traceId: Id, projectId: Id, sessionId: Id, lease: LeaseToken,
    deletionScopeDigest: Digest, proposalDigest: Digest, planDigest: Digest, commitDigest: Digest,
    claims: seq<ClaimInput>, target: TargetInput, longSources: seq<LongSourceEntry>,
    longSourceManifestHash: Option<Digest>, longSourceMidManifestHash: Option<Digest>)

  function FindEvidence(rows: seq<EvidenceAuthority>, input: CommitInput, sourceId: Id, i: nat): (r: Option<Id>)
    requires i <= |rows|
    ensures r.Some? ==> i <= r.value < |rows|
    decreases |rows| - i
  {
    if i == |rows| then None
    else if && rows[i].projectId == input.projectId && rows[i].sessionId == input.sessionId
            && rows[i].sourceId == sourceId && rows[i].authorityRevision == EVIDENCE_REVISION
    then Some(i)
    else FindEvidence(rows, input, sourceId, i + 1)
  }

  predicate FrozenFor(s: InputSegment, input: CommitInput, e: EvidenceInput) {
    && s.aiJobId == input.aiJobId
    && s.sessionId == input.sessionId
    && s.transcriptId == e.sourceId
    && s.textRevision == e.textRevision
    && s.speakerRoleRevision == e.speakerRoleRevision
    && s.textDigest == e.textDigest
    && s.trustedRole.Elder?
    && s.conversation
  }

  function EvidenceRow(input: CommitInput, e: EvidenceInput, s: InputSegment): EvidenceAuthority {
    EvidenceAuthority(input.projectId, input.sessionId, e.sourceId, EVIDENCE_REVISION, e.membershipDigest,
                      s.inputOrder, e.textRevision, e.speakerRoleRevision, e.textDigest)
  }

  /** Finds or creates the evidence row a claim's evidence names. */
  function ResolveEvidence(inputs: map<Id, InputSegment>, input: CommitInput, rows: seq<EvidenceAuthority>,
                           e: EvidenceInput): Result<(seq<EvidenceAuthority>, Id), PersistError>
  {
    var id := e.inputSegmentId;
    :- Need(id in inputs && FrozenFor(inputs[id], input, e), SourceNotFrozen);
    var frozen := inputs[id];
    var found := FindEvidence(rows, input, e.sourceId, 0);
    match found
    case None =>
      :- Need(e.expectedEvidenceId.None?, CasMismatch);
      Ok((rows + [EvidenceRow(input, e, frozen)], |rows|))
    case Some(id) =>
      :- Need((e.expectedEvidenceId.None? || e.expectedEvidenceId == found)
              && rows[id] == EvidenceRow(input, e, frozen), CasMismatch);
      Ok((rows, id))
  }

  /** Resolves a claim's evidences from the left; `ids` holds what has been resolved so far. */
  function ResolveEvidences(inputs: map<Id, InputSegment>, input: CommitInput, rows: seq<EvidenceAuthority>,
                            ids: seq<Id>, rest: seq<EvidenceInput>): Result<(seq<EvidenceAuthority>, seq<Id>), PersistError>
    decreases |rest|
  {
    if rest == [] then Ok((rows, ids))
    else
      var next :- ResolveEvidence(inputs, input, rows, rest[0]);
      ResolveEvidences(inputs, input, next.0, ids + [next.1], rest[1..])
  }

  function EvidenceEntries(input: CommitInput, evidences: seq<EvidenceInput>, ids: seq<Id>): (r: seq<EvidenceEntry>)
    requires |ids| == |evidences|
    ensures |r| == |ids|
  {
    seq(|ids|, i requires 0 <= i < |ids| =>
      EvidenceEntry(ids[i], evidences[i].sourceId, EVIDENCE_REVISION, evidences[i].membershipDigest,
                    input.projectId, input.sessionId))
  }

  function InsertById(e: EvidenceEntry, sorted: seq<EvidenceEntry>): seq<EvidenceEntry> {
    if sorted == [] || e.evidenceId <= sorted[0].evidenceId then [e] + sorted
    else [sorted[0]] + InsertById(e, sorted[1..])
  }

  function SortById(entries: seq<EvidenceEntry>): seq<EvidenceEntry> {
    if entries == [] then [] else InsertById(entries[0], SortById(entries[1..]))
  }

  function EvidenceDigest(input: CommitInput, evidences: seq<EvidenceInput>, ids: seq<Id>): Digest
    requires |ids| == |evidences|
  {
    ClaimEvidenceDigest(SortById(EvidenceEntries(input, evidences, ids)))
  }

  function Links(evidences: seq<EvidenceInput>, ids: seq<Id>): (r: seq<EvidenceLink>)
    requires |ids| == |evidences|
    ensures |r| == |ids|
  {
    seq(|ids|, i requires 0 <= i < |ids| =>
      EvidenceLink(evidences[i].inputSegmentId, evidences[i].sourceId, ids[i], EVIDENCE_REVISION, i))
  }

  function Bridges(evidences: seq<EvidenceInput>, ids: seq<Id>): (r: seq<EvidenceBridge>)
    requires |ids| == |evidences|
    ensures |r| == |ids|
  {
    seq(|ids|, i requires 0 <= i < |ids| =>
      EvidenceBridge(evidences[i].inputSegmentId, ids[i], EVIDENCE_REVISION))
  }

  predicate EvidencesOrdered(evidences: seq<EvidenceInput>) {
    forall i :: 0 <= i < |evidences| ==> evidences[i].inputOrder == i
  }

  predicate EvidencesUnique(evidences: seq<EvidenceInput>) {
    forall i, j :: 0 <= i < j < |evidences| ==> evidences[i].inputSegmentId != evidences[j].inputSegmentId
  }

  datatype ClaimState = ClaimState(claims: seq<Claim>, evidences: seq<EvidenceAuthority>, members: seq<LayerMemberEntry>)

  lemma {:induction false} ResolvedCount(inputs: map<Id, InputSegment>, input: CommitInput,
                                         rows: seq<EvidenceAuthority>, ids: seq<Id>, rest: seq<EvidenceInput>)
    requires ResolveEvidences(inputs, input, rows, ids, rest).Ok?
    ensures |ResolveEvidences(inputs, input, rows, ids, rest).value.1| == |ids| + |rest|
    decreases |rest|
  {
    if rest != [] {
      var next := ResolveEvidence(inputs, input, rows, rest[0]).value;
      ResolvedCount(inputs, input, next.0, ids + [next.1], rest[1..]);
    }
  }

  function ClaimRow(input: CommitInput, claim: ClaimInput, ids: seq<Id>): Claim
    requires |ids| == |claim.evidences|
  {
    Claim(input.aiJobId, input.projectId, input.sessionId, input.target.layer, claim.canonicalKey, claim.semanticKind,
          1, Links(claim.evidences, ids), Bridges(claim.evidences, ids))
  }

  /** Adds one claim with its evidence links and its entry in the layer manifest. */
  function CreateClaim(inputs: map<Id, InputSegment>, input: CommitInput, s: ClaimState, claim: ClaimInput)
    : Result<ClaimState, PersistError>
  {
    var evidences := claim.evidences;
    :- Need(EvidencesOrdered(evidences) && EvidencesUnique(evidences), ManifestInvalid);
    :- Need(claim.canonicalKey == input.target.canonicalKey
            && claim.semanticKind == input.target.semanticKind
            && claim.evidences != [], InputScopeMismatch);
    var resolved :- ResolveEvidences(inputs, input, s.evidences, [], claim.evidences);
    ResolvedCount(inputs, input, s.evidences, [], claim.evidences);
    Ok(ClaimState(
      s.claims + [ClaimRow(input, claim, resolved.1)],
      resolved.0,
      s.members + [LayerMemberEntry(|s.claims|, 1, claim.role, |s.members|,
                                    EvidenceDigest(input, claim.evidences, resolved.1))]))
  }

  function CreateClaims(inputs: map<Id, InputSegment>, input: CommitInput, s: ClaimState, rest: seq<ClaimInput>)
    : Result<ClaimState, PersistError>
    decreases |rest|
  {
    if rest == [] then Ok(s)
    else
      var next :- CreateClaim(inputs, input, s, rest[0]);
      CreateClaims(inputs, input, next, rest[1..])
  }

  // ---------------------------------------------------------------- committing: authorities, gate, identities

  function FindSlot(rows: seq<ResolutionAuthority>, input: CommitInput, i: nat): (r: Option<Id>)
    requires i <= |rows|
    ensures r.Some? ==> i <= r.value < |rows|
    decreases |rows| - i
  {
    if i == |rows| then None
    else if && rows[i].projectId == input.projectId && rows[i].semanticKind == input.target.semanticKind
            && rows[i].canonicalKey == input.target.canonicalKey
    then Some(i)
    else FindSlot(rows, input, i + 1)
  }

  function ResolveAuthority(rows: seq<ResolutionAuthority>, input: CommitInput, threadId: Id)
    : Result<(seq<ResolutionAuthority>, Id), PersistError>
  {
    match FindSlot(rows, input, 0)
    case Some(id) =>
      :- Need(input.target.authorityId == Some(id), CasMismatch);
      Ok((rows, id))
    case None =>
      :- Need(input.target.authorityId.None? && input.target.expectedCurrentResolutionId.None?
              && input.target.expectedCurrentRevision == 0, CasMismatch);
      Ok((rows + [ResolutionAuthority(input.projectId, input.target.semanticKind, input.target.canonicalKey,
                                      input.sessionId, threadId)], |rows|))
  }

  function FindIdentity(rows: seq<LayerIdentity>, keyDigest: Digest, i: nat): (r: Option<Id>)
    requires i <= |rows|
    ensures r.Some? ==> i <= r.value < |rows|
    decreases |rows| - i
  {
    if i == |rows| then None
    else if rows[i].keyDigest == keyDigest then Some(i)
    else FindIdentity(rows, keyDigest, i + 1)
  }

  /** An authority has one identity for each session and thread it was first seen in. */
  predicate OriginTaken(rows: seq<LayerIdentity>, input: CommitInput, authorityId: Id, threadId: Id) {
    exists i :: 0 <= i < |rows| && rows[i].originAuthorityId == authorityId && rows[i].projectId == input.projectId
                && rows[i].originSessionId == input.sessionId && rows[i].originThreadId == threadId
  }

  function ResolveLayerIdentity(rows: seq<LayerIdentity>, input: CommitInput, authorityId: Id, threadId: Id)
    : Result<(seq<LayerIdentity>, Id), PersistError>
  {
    match FindIdentity(rows, input.target.identityKeyDigest, 0)
    case Some(id) =>
      :- Need(input.target.identityId == Some(id) && rows[id].originAuthorityId == authorityId, CasMismatch);
      Ok((rows, id))
    case None =>
      :- Need(input.target.identityId.None? && !input.target.layer.LongLayer?, CasMismatch);
      :- Need(!OriginTaken(rows, input, authorityId, threadId), UniqueViolation);
      Ok((rows + [LayerIdentity(input.projectId, input.target.identityKeyDigest, authorityId, input.sessionId,
                                threadId)], |rows|))
  }

  /**
   What a commit reads besides its own tables: the deletion scope before and after the gate (None
   while a deletion is in progress), whether policy and retention versions still agree, and the
   evidence and claim citations the gate is shown, or why they could not be put together.
   */
  datatype CommitReads = CommitReads(
    deletionScope: Option<Digest>, deletionScopeAfterGate: Option<Digest>, policyCurrent: bool,
    gateEvidence: Result<(seq<G.GateEvidence>, seq<seq<Id>>), PersistError>)

  function DeletionScopeCheck(scope: Option<Digest>, expected: seq<Digest>): Check<PersistError> {
    if scope.None? then Fail(SourceNotFrozen)
    else Need(forall d :: d in expected ==> d == scope.value, JobNotRunning)
  }

  function GateCandidate(input: CommitInput, resolutions: seq<Resolution>, previous: Option<Id>,
                         evidence: seq<G.GateEvidence>, claims: seq<seq<Id>>, evidenceDigest: Digest): G.Candidate
    requires previous.Some? ==> previous.value < |resolutions|
  {
    var t := input.target;
    G.Candidate(
      input.aiJobId, G.MemoryCandidate(t.semanticKind),
      if previous.None? then G.Create
      else match t.semanticStatus
        case Uncertain => G.MarkUncertain
        case Disputed => G.MarkDisputed
        case Asserted => G.Correct,
      if previous.None? then None
      else
        var row := resolutions[previous.value];
        Some(G.MemoryTarget(t.authorityId.GetOr(previous.value), previous.value, row.link.number, row.link.current,
                            row.semanticKind)),
      if previous.None? then None else Some(t.expectedCurrentRevision),
      G.SemanticState(t.semanticKind, t.hasValue && !t.semanticStatus.Disputed?, !t.semanticStatus.Disputed?,
                      if t.resolutionKind.ReviewRequiredKind? then G.UnknownValue else t.resolutionKind.kind,
                      t.semanticStatus, !t.semanticStatus.Asserted?, claims),
      evidence, evidenceDigest)
  }

  function GateSnapshot(input: CommitInput, evidenceDigest: Digest): G.Snapshot {
    G.Snapshot(input.projectId, [input.sessionId], evidenceDigest, 1)
  }

  function GateCheck(input: CommitInput, seen: CommitReads, resolutions: seq<Resolution>, previous: Option<Id>,
                     evidenceDigest: Digest): Result<G.Plan, PersistError>
    requires previous.Some? ==> previous.value < |resolutions|
  {
    var authorized := seen.policyCurrent;
    :- Need(authorized, SourceNotFrozen);
    var shown :- seen.gateEvidence;
    var plan := G.Evaluate(GateCandidate(input, resolutions, previous, shown.0, shown.1, evidenceDigest),
                           GateSnapshot(input, evidenceDigest)).plan;
    :- Need(!plan.action.NoAction?, SourceNotFrozen);
    Ok(plan)
  }

  // ---------------------------------------------------------------- committing: long sources

  predicate LongSourcesOrdered(sources: seq<LongSourceEntry>) {
    forall i :: 0 <= i < |sources| ==> sources[i].inputOrder == i
  }

  predicate LongSourcesUnique(sources: seq<LongSourceEntry>) {
    forall i, j :: 0 <= i < j < |sources| ==> sources[i].sourceMidRevisionId != sources[j].sourceMidRevisionId
  }

  /** Inserts a session into a sorted list unless it is already there. */
  function InsertSession(s: Id, sorted: seq<Id>): seq<Id> {
    if sorted == [] || s < sorted[0] then [s] + sorted
    else if s == sorted[0] then sorted
    else [sorted[0]] + InsertSession(s, sorted[1..])
  }

  /** The distinct sessions of the sources, in order. */
  function SessionsOfSources(sources: seq<LongSourceEntry>): seq<Id> {
    if sources == [] then [] else InsertSession(sources[0].sourceSessionId, SessionsOfSources(sources[1..]))
  }

  predicate MidRevisionBacks(revisions: seq<LayerRevision>, projectId: Id, source: LongSourceEntry) {
    && source.sourceMidRevisionId < |revisions|
    && var r := revisions[source.sourceMidRevisionId];
    && r.projectId == projectId
    && r.layer.MidLayer?
    && r.sessionId == source.sourceSessionId
    && r.memberManifestHash == source.membershipDigest
  }

  function LongProjectionFor(db: Db, input: CommitInput, revisions: seq<LayerRevision>, revisionId: Id)
    : Result<LongProjection, PersistError>
  {
    var sources := input.longSources;
    :- Need(LongSourcesOrdered(sources) && LongSourcesUnique(sources), ManifestInvalid);
    :- Need(sources != [] && input.longSourceManifestHash.Some?
            && input.longSourceMidManifestHash == Some(LongSourceDigest(input.longSources)), ManifestInvalid);
    var sessions := SessionsOfSources(input.longSources);
    :- Need(input.sessionId in sessions, InputScopeMismatch);
    :- Need(forall s :: s in input.longSources ==> MidRevisionBacks(revisions, input.projectId, s), SourceNotFrozen);
    :- Need(input.aiJobId !in db.longs, UniqueViolation);
    Ok(LongProjection(revisionId, |input.longSources|, input.longSourceManifestHash.value,
                      input.longSourceMidManifestHash.value, sessions, SessionSetDigest(sessions), input.longSources))
  }

  // ---------------------------------------------------------------- committing: one target

  datatype CommitResult = CommitResult(
    authorityId: Id, checkpointId: Id, identityId: Id, revisionId: Id, claimIds: seq<Id>, resolutionId: Id,
    resolutionRevision: nat, targetRevisionDigest: Digest)

  predicate CheckpointFrozenFor(db: Db, input: CommitInput) {
    && input.checkpointId in db.checkpoints
    && var c := db.checkpoints[input.checkpointId];
    && c.projectId == input.projectId
    && c.sessionId == input.sessionId
    && (c.status.CpFrozen? || c.status.CpCommitted?)
    && |c.members| == c.expectedMemberCount
    && MembersOrdered(c.members)
    && CheckpointDigest(Entries(c.members)) == c.memberManifestHash
  }

  /** Everything the commit demands of a running job, its projection, trace and checkpoint. */
  predicate CommitAdmitted(db: Db, input: CommitInput, now: Instant)
    requires input.checkpointId in db.checkpoints
  {
    && input.aiJobId in db.jobs && input.aiJobId in db.projections && input.traceId in db.traces
    && var checkpoint := db.checkpoints[input.checkpointId];
    && var job, p, trace := db.jobs[input.aiJobId], db.projections[input.aiJobId], db.traces[input.traceId];
    && job.status.Running?
    && job.projectId == input.projectId
    && p.sourceCheckpointId == input.checkpointId
    && trace.aiJobId == input.aiJobId
    && p.deletionScopeDigest == trace.deletionScopeDigest
    && input.deletionScopeDigest == checkpoint.deletionScopeDigest
    && (job.jobType.LongSessionEnd? || p.deletionScopeDigest == checkpoint.deletionScopeDigest)
    && job.policyRevision == checkpoint.aiPolicyRevision
    && job.retentionPolicyVersion == checkpoint.retentionPolicyVersion
    && job.retentionState.Active?
    && job.expiresAt > now
    && HoldsLease(p, input.lease, now)
    && (job.jobType.LongSessionEnd? || p.sourceRevisionDigest == checkpoint.memberManifestHash)
  }

  /** What a single target adds, once every check has passed. */
  datatype TargetPlan = TargetPlan(
    authorities: seq<ResolutionAuthority>, authorityId: Id, previous: Option<Id>, gate: G.Plan, claims: ClaimState,
    identities: seq<LayerIdentity>, identityId: Id, predecessor: Option<Id>, long: Option<LongProjection>)

  function PlanTarget(db: Db, input: CommitInput, seen: CommitReads): Result<TargetPlan, PersistError>
    requires input.checkpointId in db.checkpoints && input.aiJobId in db.jobs
    requires input.aiJobId in db.projections && input.traceId in db.traces
  {
    var checkpoint, job := db.checkpoints[input.checkpointId], db.jobs[input.aiJobId];
    var p, trace := db.projections[input.aiJobId], db.traces[input.traceId];
    var scopes := [checkpoint.deletionScopeDigest, p.deletionScopeDigest, trace.deletionScopeDigest];
    :- DeletionScopeCheck(seen.deletionScope, scopes);
    :- Need(input.claims != [] && input.target.layer == LayerOfKind(job.jobType), ManifestInvalid);
    var authority :- ResolveAuthority(db.authorities, input, checkpoint.threadId);
    var previous := CurrentResolution(db.resolutions, authority.1);
    :- Need(previous == input.target.expectedCurrentResolutionId
            && NumberOf(ResolutionLinks(db.resolutions), previous) == input.target.expectedCurrentRevision, CasMismatch);
    var gate :- GateCheck(input, seen, db.resolutions, previous, checkpoint.evidenceManifestHash);
    :- DeletionScopeCheck(seen.deletionScopeAfterGate, scopes);
    :- Need(previous.Some? ==>
              && previous.value in job.inputMemories
              && job.inputMemories[previous.value] == db.resolutions[previous.value].link.number, SourceNotFrozen);
    var claims :- CreateClaims(db.inputs, input, ClaimState(db.claims, db.evidences, []), input.claims);
    var identity :- ResolveLayerIdentity(db.identities, input, authority.1, checkpoint.threadId);
    var predecessor := CurrentRevision(db.revisions, identity.1);
    if input.target.layer.LongLayer? then
      var long :- LongProjectionFor(db, input, db.revisions, |db.revisions|);
      Ok(TargetPlan(authority.0, authority.1, previous, gate, claims, identity.0, identity.1, predecessor, Some(long)))
    else
      Ok(TargetPlan(authority.0, authority.1, previous, gate, claims, identity.0, identity.1, predecessor, None))
  }

  function SupersedeResolution(rows: seq<Resolution>, id: Option<Id>): (r: seq<Resolution>)
    requires id.Some? ==> id.value < |rows|
    ensures |r| == |rows|
  {
    if id.Some? then rows[id.value := rows[id.value].(link := rows[id.value].link.(current := false))] else rows
  }

  function SupersedeRevision(rows: seq<LayerRevision>, id: Option<Id>): (r: seq<LayerRevision>)
    requires id.Some? ==> id.value < |rows|
    ensures |r| == |rows|
  {
    if id.Some? then rows[id.value := rows[id.value].(link := rows[id.value].link.(current := false))] else rows
  }

  function ClaimIds(members: seq<LayerMemberEntry>): seq<Id> {
    seq(|members|, i requires 0 <= i < |members| => members[i].claimId)
  }

  function ResolutionRow(input: CommitInput, plan: TargetPlan): Resolution {
    Resolution(Link(plan.authorityId, input.target.expectedCurrentRevision + 1, plan.previous, true), input.aiJobId,
               input.projectId, input.sessionId, input.target.layer, input.target.canonicalKey,
               input.target.semanticKind, input.target.semanticStatus, true, ClaimIds(plan.claims.members))
  }

  function RevisionRow(input: CommitInput, plan: TargetPlan, revisions: seq<LayerRevision>, resolutionId: Id): LayerRevision
    requires plan.predecessor.Some? ==> plan.predecessor.value < |revisions|
  {
    LayerRevision(Link(plan.identityId, NumberOf(RevisionLinks(revisions), plan.predecessor) + 1, plan.predecessor, true),
                  input.target.layer, plan.authorityId, input.target.expectedCurrentRevision + 1, resolutionId,
                  input.target.semanticStatus, input.projectId, input.sessionId, input.checkpointId, input.aiJobId,
                  |plan.claims.members|, LayerMemberDigest(plan.claims.members), plan.claims.members)
  }

  ghost predicate PlanFits(db: Db, plan: TargetPlan) {
    && (plan.previous.Some? ==> plan.previous.value < |db.resolutions|)
    && (plan.predecessor.Some? ==> plan.predecessor.value < |db.revisions|)
  }

  /** The rows every target adds: authority, resolution, claims, identity, layer revision, long projection. */
  function WithTarget(db: Db, input: CommitInput, plan: TargetPlan): Db
    requires PlanFits(db, plan)
  {
    db.(authorities := plan.authorities,
        resolutions := SupersedeResolution(db.resolutions, plan.previous) + [ResolutionRow(input, plan)],
        claims := plan.claims.claims,
        evidences := plan.claims.evidences,
        identities := plan.identities,
        revisions := SupersedeRevision(db.revisions, plan.predecessor)
                     + [RevisionRow(input, plan, db.revisions, |db.resolutions|)],
        longs := if plan.long.Some? then db.longs[input.aiJobId := plan.long.value] else db.longs)
  }

  function WithRetentionTarget(db: Db, jobId: Id, revisionId: Id): Db {
    var targets := RetentionOf(db, jobId);
    db.(retention := db.retention[jobId := targets + [RetentionTarget(LayerRevisionTarget, revisionId, |targets|)]])
  }

  function EvidenceReference(db: Db, id: Id, deletionScopeDigest: Digest, inputOrder: nat): Reference
    requires id < |db.evidences|
  {
    Reference(EvidenceSource, id, db.evidences[id].authorityRevision, db.evidences[id].membershipDigest,
              deletionScopeDigest, inputOrder)
  }

  function ResolutionReference(db: Db, id: Id, deletionScopeDigest: Digest, inputOrder: nat): Reference
    requires id < |db.revisions|
  {
    var r := db.revisions[id];
    Reference(ResolutionSource, r.authorityId, r.resolutionRevision, r.memberManifestHash, deletionScopeDigest, inputOrder)
  }

  /** The trace references a finished job adds for all its evidence and all its revisions. */
  function CommittedSources(db: Db, jobId: Id, deletionScopeDigest: Digest, offset: nat): (r: seq<Reference>) {
    var evidenceIds := EvidenceOfJob(db, jobId, |db.evidences|);
    var revisionIds := RevisionsOfJob(db.revisions, jobId, |db.revisions|);
    seq(|evidenceIds|, i requires 0 <= i < |evidenceIds| =>
      (assert evidenceIds[i] in evidenceIds; EvidenceReference(db, evidenceIds[i], deletionScopeDigest, offset + i)))
    + seq(|revisionIds|, i requires 0 <= i < |revisionIds| =>
      (assert revisionIds[i] in revisionIds;
       ResolutionReference(db, revisionIds[i], deletionScopeDigest, offset + |evidenceIds| + i)))
  }

  function FinishedCheckpoint(checkpoint: Checkpoint, now: Instant): Checkpoint {
    if checkpoint.status.CpFrozen? then checkpoint.(status := CpCommitted, committedAt := Some(now)) else checkpoint
  }

  function FinishedProjection(p: Projection, identityId: Id, revisionId: Id, digest: Digest, now: Instant): Projection {
    p.(targetIdentityId := Some(identityId), targetRevisionId := Some(revisionId), targetRevisionDigest := Some(digest),
       updatedAt := now)
  }

  function FinishedTrace(trace: Trace, input: CommitInput, p: Projection, added: seq<Reference>, now: Instant): Trace {
    trace.(completedAt := Some(now), durationMs := Some(Max(0, now - trace.startedAt)),
           memoryOutcome := if input.target.layer.LongLayer? then LongCommitted else CheckpointCommitted,
           stage := Committed, status := Succeeded, commitDigest := Some(input.commitDigest),
           planDigest := Some(input.planDigest), proposalDigest := Some(input.proposalDigest),
           sourceManifestHash := if input.target.layer.LongLayer? then input.longSourceManifestHash.GetOr(p.sourceRevisionDigest)
                                 else p.sourceRevisionDigest,
           sources := trace.sources + added)
  }

  /** The rows only the last target of a commit changes: checkpoint, job, projection, trace. */
  function Finished(db: Db, input: CommitInput, plan: TargetPlan, revisionId: Id, now: Instant): Db
    requires input.checkpointId in db.checkpoints && input.aiJobId in db.jobs
    requires input.aiJobId in db.projections && input.traceId in db.traces
  {
    var p, trace := db.projections[input.aiJobId], db.traces[input.traceId];
    var added := CommittedSources(db, input.aiJobId, p.deletionScopeDigest, |trace.sources|);
    db.(checkpoints := db.checkpoints[input.checkpointId := FinishedCheckpoint(db.checkpoints[input.checkpointId], now)],
        jobs := db.jobs[input.aiJobId := db.jobs[input.aiJobId].(status := Succeeded, completedAt := Some(now))],
        projections := db.projections[input.aiJobId :=
          FinishedProjection(p, plan.identityId, revisionId, LayerMemberDigest(plan.claims.members), now)],
        traces := db.traces[input.traceId := FinishedTrace(trace, input, p, added, now)])
  }

  function ResultOf(db: Db, input: CommitInput, plan: TargetPlan): CommitResult {
    CommitResult(plan.authorityId, input.checkpointId, plan.identityId, |db.revisions|, ClaimIds(plan.claims.members),
                 |db.resolutions|, input.target.expectedCurrentRevision + 1, LayerMemberDigest(plan.claims.members))
  }

  /** The answer to a commit that has already been made, if it is the same commit. */
  function Replay(db: Db, input: CommitInput): Option<CommitResult> {
    if input.aiJobId !in db.projections || input.traceId !in db.traces then None
    else
      var p, trace := db.projections[input.aiJobId], db.traces[input.traceId];
      if || p.sourceCheckpointId != input.checkpointId
         || trace.aiJobId != input.aiJobId
         || trace.proposalDigest != Some(input.proposalDigest)
         || trace.planDigest != Some(input.planDigest)
         || trace.commitDigest != Some(input.commitDigest)
         || p.targetIdentityId.None? || p.targetRevisionId.None? || p.targetRevisionDigest.None?
         || p.targetRevisionId.value >= |db.revisions| || p.targetIdentityId.value >= |db.identities|
         || db.revisions[p.targetRevisionId.value].resolutionRowId >= |db.resolutions|
      then None
      else
        var revision, identity := db.revisions[p.targetRevisionId.value], db.identities[p.targetIdentityId.value];
        var committed, t := db.resolutions[revision.resolutionRowId], input.target;
        if && |revision.members| == revision.expectedMemberCount
           && (forall i :: 0 <= i < |revision.members| ==> revision.members[i].inputOrder == i)
           && revision.sourceCheckpointId == input.checkpointId
           && revision.sourceJobId == input.aiJobId
           && revision.layer == t.layer
           && revision.memberManifestHash == p.targetRevisionDigest.value
           && committed.link.owner == revision.authorityId
           && committed.canonicalKey == t.canonicalKey
           && committed.semanticKind == t.semanticKind
           && committed.link.number == revision.resolutionRevision
           && committed.link.current
           && (t.identityId.None? || t.identityId == p.targetIdentityId)
           && identity.keyDigest == t.identityKeyDigest
           && (t.authorityId.None? || t.authorityId == Some(revision.authorityId))
           && (if revision.link.number == 1
               then t.expectedCurrentResolutionId.None? && t.expectedCurrentRevision == 0
               else committed.link.predecessor == t.expectedCurrentResolutionId && t.expectedCurrentRevision > 0)
           && (revision.link.number > 1 ==>
                 && t.expectedCurrentResolutionId.Some?
                 && t.expectedCurrentResolutionId.value < |db.resolutions|
                 && db.resolutions[t.expectedCurrentResolutionId.value].link.number == t.expectedCurrentRevision)
        then Some(CommitResult(revision.authorityId, input.checkpointId, p.targetIdentityId.value,
                               p.targetRevisionId.value, ClaimIds(revision.members), revision.resolutionRowId,
                               committed.link.number, p.targetRevisionDigest.value))
        else None
  }

  predicate JobSucceeded(db: Db, jobId: Id) {
    jobId in db.jobs && db.jobs[jobId].status.Succeeded?
  }

  /**
   Commits one target inside a transaction; the last one of a job also finishes it. A succeeded trace must not have an
   error code, which a trace of the running job has only if another job was terminalized with it.
   */
  function CommitTarget(db: Db, input: CommitInput, seen: CommitReads, now: Instant, finalize: bool)
    : Result<(Db, CommitResult), PersistError>
  {
    var lease := input.lease;
    :- Need(LeaseWellFormed(lease, now), CheckpointInvalid);
    :- Need(db.migrationCompleted, MigrationIncomplete);
    :- Need(CheckpointFrozenFor(db, input), SourceNotFrozen);
    if JobSucceeded(db, input.aiJobId) then
      var replay := Replay(db, input);
      if replay.Some? then Ok((db, replay.value)) else Err(AlreadyTerminal)
    else
      :- Need(CommitAdmitted(db, input, now), JobNotRunning);
      var plan :- PlanTarget(db, input, seen);
      :- Need(finalize ==> db.traces[input.traceId].errorCode.None?, ConstraintViolation);
      var revisionId := |db.revisions|;
      var written := WithTarget(db, input, plan);
      var finished := if finalize then Finished(written, input, plan, revisionId, now) else written;
      Ok((WithRetentionTarget(finished, input.aiJobId, revisionId), ResultOf(db, input, plan)))
  }

  /** Commits the targets in order in one transaction, finishing the job with the last. */
  function CommitTargets(db: Db, targets: seq<(CommitInput, CommitReads)>, results: seq<CommitResult>, now: Instant)
    : Result<(Db, seq<CommitResult>), PersistError>
    decreases |targets|
  {
    if targets == [] then Ok((db, results))
    else
      var next :- CommitTarget(db, targets[0].0, targets[0].1, now, |targets| == 1);
      CommitTargets(next.0, targets[1..], results + [next.1], now)
  }

  function CommitLayerRevisions(db: Db, targets: seq<(CommitInput, CommitReads)>, now: Instant)
    : Result<(Db, seq<CommitResult>), PersistError>
  {
    var count := |targets|;
    :- Need(count != 0, ManifestInvalid);
    CommitTargets(db, targets, [], now)
  }

  // ---------------------------------------------------------------- terminalizing and leases

  datatype TerminalizeInput = TerminalizeInput(aiJobId: Id, traceId: Id, errorCode: ErrorCode, lease: LeaseToken, status: Status)

  predicate TerminalizeStatus(status: Status) {
    status.Failed? || status.Cancelled? || status.Unavailable?
  }

  function TerminalizedTrace(trace: Trace, status: Status, errorCode: ErrorCode, now: Instant): Trace
    requires TerminalizeStatus(status)
  {
    trace.(completedAt := Some(now), durationMs := Some(Max(0, now - trace.startedAt)), errorCode := Some(errorCode),
           memoryOutcome := ExpectedOutcome(status), stage := Terminal, status := status)
  }

  /** A trace with an error code is failed or unavailable; a cancelled one must not have any. */
  predicate TracePermitsError(status: Status) {
    status.Failed? || status.Unavailable?
  }

  function Terminalize(db: Db, input: TerminalizeInput, now: Instant): Result<Db, PersistError>
    requires TerminalizeStatus(input.status)
  {
    var jobId := input.aiJobId;
    :- Need(jobId in db.jobs, JobNotRunning);
    var job := db.jobs[jobId];
    if !job.status.Running? then
      if job.status == input.status && job.failureCode == Some(input.errorCode) then Ok(db) else Err(AlreadyTerminal)
    else
      :- Need(input.aiJobId in db.projections && HoldsLease(db.projections[input.aiJobId], input.lease, now), CasMismatch);
      :- Need(input.traceId in db.traces, RowMissing);
      :- Need(TracePermitsError(input.status), ConstraintViolation);
      Ok(db.(jobs := db.jobs[input.aiJobId :=
               job.(completedAt := Some(now), failureCode := Some(input.errorCode), status := input.status)],
             projections := db.projections[input.aiJobId :=
               db.projections[input.aiJobId].(terminalErrorCode := Some(input.errorCode), updatedAt := now)],
             traces := db.traces[input.traceId :=
               TerminalizedTrace(db.traces[input.traceId], input.status, input.errorCode, now)]))
  }

  datatype ClaimLeaseInput = ClaimLeaseInput(aiJobId: Id, expectedEpoch: int, leaseOwner: string, leaseExpiresAt: Instant)

  predicate LeaseClaimable(db: Db, input: ClaimLeaseInput, now: Instant) {
    && input.aiJobId in db.jobs && input.aiJobId in db.projections
    && var job, p := db.jobs[input.aiJobId], db.projections[input.aiJobId];
    && job.status.Running?
    && job.retentionState.Active?
    && job.expiresAt > now
    && input.leaseExpiresAt <= job.expiresAt
    && p.lease.epoch == input.expectedEpoch
    && p.lease.expiresAt <= now
  }

  function ClaimRecoveryLease(db: Db, input: ClaimLeaseInput, now: Instant): Result<(Db, Option<LeaseToken>), PersistError> {
    if !db.migrationCompleted then Ok((db, None))
    else
      :- Need(input.expectedEpoch >= 1 && NonBlank(input.leaseOwner) && input.leaseExpiresAt > now, CheckpointInvalid);
      if LeaseClaimable(db, input, now) then
        var p := db.projections[input.aiJobId];
        var token := LeaseToken(input.leaseOwner, p.lease.epoch + 1, input.leaseExpiresAt);
        Ok((db.(projections := db.projections[input.aiJobId := p.(lease := token, updatedAt := now)]), Some(token)))
      else Ok((db, None))
  }

  // ---------------------------------------------------------------- applying recovery, advancing stages

  function RecoveredTrace(trace: Trace, w: TraceWrite): Trace {
    trace.(completedAt := w.parent.completedAt, durationMs := w.parent.durationMs, errorCode := w.parent.errorCode,
           memoryOutcome := w.parent.memoryOutcome, stage := w.parent.stage, status := w.parent.status,
           commitDigest := w.semantic.commitDigest, planDigest := w.semantic.planDigest,
           proposalDigest := w.semantic.proposalDigest)
  }

  function RecoveredJob(job: Job, c: RecoveryCommand): Job {
    if c.kind.RepairTerminalTrace? then job
    else job.(completedAt := Some(c.writeAt), status := c.terminalStatus,
              failureCode := if c.kind.PreserveCommitted? then None else c.errorCode)
  }

  predicate RecoveryAdmitted(db: Db, c: RecoveryCommand, rows: seq<ReferenceAuthority>) {
    var authority := ReadRecoveryAuthority(db, c.jobId, rows);
    && authority.Some?
    && CommandMatches(c, authority.value)
  }

  /** Applies a command if the record re-read under lock still matches; false means it lost the race. */
  function ApplyRecovery(db: Db, c: RecoveryCommand, rows: seq<ReferenceAuthority>): (Db, bool) {
    if !RecoveryAdmitted(db, c, rows) then (db, false)
    else
      var traceId := db.traceByJob[c.jobId];
      (db.(jobs := db.jobs[c.jobId := RecoveredJob(db.jobs[c.jobId], c)],
           traces := db.traces[traceId := RecoveredTrace(db.traces[traceId], c.trace)]), true)
  }

  datatype AdvanceInput = AdvanceInput(
    traceId: Id, expectedStage: Stage, stage: Stage, proposalDigest: Option<Digest>, planDigest: Option<Digest>)

  /** Moves a running trace to its next stage; `authorized` is the policy and parity check. */
  function AdvanceStage(db: Db, input: AdvanceInput, authorized: bool): (Db, bool) {
    if !authorized || input.traceId !in db.traces || !db.traces[input.traceId].status.Running? then (db, false)
    else
      var trace := db.traces[input.traceId];
      if && trace.stage == input.stage && trace.proposalDigest == input.proposalDigest
         && trace.planDigest == input.planDigest
      then (db, true)
      else if trace.stage != input.expectedStage then (db, false)
      else
        (db.(traces := db.traces[input.traceId :=
           trace.(stage := input.stage, proposalDigest := input.proposalDigest, planDigest := input.planDigest)]), true)
  }
}
