/**
 The reader of committed memory layers. It trusts nothing the writer says: it rebuilds every
 manifest from the stored rows and returns a layer only if every count, order, digest, trace and
 retention check agrees.
 */
module MemoryP2Reader {
  import opened Options
  import opened MemoryP2Traces
  import opened MemoryP2Store
  import opened MemoryP2Writes

  datatype ReadableLayer = ReadableLayer(
    authorityId: Id, claimIds: seq<Id>, identityId: Id, layer: TargetLayer, memberManifestHash: Digest,
    resolutionId: Id, resolutionRevision: nat, revisionId: Id, revisionNo: nat, semanticStatus: SemanticStatus)

  // ---------------------------------------------------------------- claim evidence

  /** The order the reader sorts by: identifier first, the other readable parts after it. */
  predicate ReadsBefore(a: EvidenceEntry, b: EvidenceEntry) {
    if a.evidenceId != b.evidenceId then a.evidenceId < b.evidenceId
    else if a.sourceId != b.sourceId then a.sourceId < b.sourceId
    else if a.authorityRevision != b.authorityRevision then a.authorityRevision < b.authorityRevision
    else if a.projectId != b.projectId then a.projectId < b.projectId
    else a.sessionId < b.sessionId
  }

  function InsertForRead(e: EvidenceEntry, sorted: seq<EvidenceEntry>): seq<EvidenceEntry> {
    if sorted == [] || !ReadsBefore(sorted[0], e) then [e] + sorted
    else [sorted[0]] + InsertForRead(e, sorted[1..])
  }

  function SortForRead(entries: seq<EvidenceEntry>): seq<EvidenceEntry> {
    if entries == [] then [] else InsertForRead(entries[0], SortForRead(entries[1..]))
  }

  /** The bridge a map keyed by evidence would hold: the last one for that evidence. */
  function FindBridge(bridges: seq<EvidenceBridge>, evidenceId: Id, n: nat): Option<EvidenceBridge>
    requires n <= |bridges|
  {
    if n == 0 then None
    else if bridges[n - 1].evidenceId == evidenceId then Some(bridges[n - 1])
    else FindBridge(bridges, evidenceId, n - 1)
  }

  predicate LinkReadable(inputs: map<Id, InputSegment>, evidences: seq<EvidenceAuthority>, claim: Claim, link: EvidenceLink) {
    var bridge := FindBridge(claim.bridges, link.evidenceId, |claim.bridges|);
    && bridge.Some? && link.evidenceId < |evidences| && link.inputSegmentId in inputs
    && var authority, segment := evidences[link.evidenceId], inputs[link.inputSegmentId];
    && bridge.value.authorityRevision == link.authorityRevision
    && bridge.value.inputSegmentId == link.inputSegmentId
    && authority.authorityRevision == link.authorityRevision
    && authority.sourceId == link.transcriptId
    && segment.transcriptId == authority.sourceId
    && segment.sessionId == authority.sessionId
    && segment.textRevision == authority.textRevision
    && segment.speakerRoleRevision == authority.speakerRoleRevision
    && segment.textDigest == authority.textDigest
    && segment.trustedRole.Elder?
    && segment.conversation
  }

  function EntryOf(evidences: seq<EvidenceAuthority>, id: Id): EvidenceEntry
    requires id < |evidences|
  {
    var a := evidences[id];
    EvidenceEntry(id, a.sourceId, a.authorityRevision, a.membershipDigest, a.projectId, a.sessionId)
  }

  predicate LinksReadable(inputs: map<Id, InputSegment>, evidences: seq<EvidenceAuthority>, claim: Claim) {
    && claim.links != []
    && |claim.links| == |claim.bridges|
    && forall i :: 0 <= i < |claim.links| ==> LinkReadable(inputs, evidences, claim, claim.links[i])
  }

  function LinkEntries(evidences: seq<EvidenceAuthority>, links: seq<EvidenceLink>): (r: seq<EvidenceEntry>)
    requires forall i :: 0 <= i < |links| ==> links[i].evidenceId < |evidences|
    ensures |r| == |links|
  {
    seq(|links|, i requires 0 <= i < |links| => EntryOf(evidences, links[i].evidenceId))
  }

  predicate EvidenceReadable(inputs: map<Id, InputSegment>, evidences: seq<EvidenceAuthority>, claim: Claim, expected: Digest) {
    && LinksReadable(inputs, evidences, claim)
    && ClaimEvidenceDigest(SortForRead(LinkEntries(evidences, claim.links))) == expected
  }

  /** The loop that walks a claim's evidence links and collects the entries of its manifest. */
  method ReadClaimEvidence(inputs: map<Id, InputSegment>, evidences: seq<EvidenceAuthority>, claim: Claim, expected: Digest)
    returns (readable: bool)
    ensures readable == EvidenceReadable(inputs, evidences, claim, expected)
  {
    if |claim.links| == 0 || |claim.links| != |claim.bridges| { return false; }
    var entries: seq<EvidenceEntry> := [];
    for index := 0 to |claim.links|
      invariant forall i :: 0 <= i < index ==> LinkReadable(inputs, evidences, claim, claim.links[i])
      invariant |entries| == index
      invariant forall i :: 0 <= i < index ==> entries[i] == EntryOf(evidences, claim.links[i].evidenceId)
    {
      var link := claim.links[index];
      if !LinkReadable(inputs, evidences, claim, link) { return false; }
      entries := entries + [EntryOf(evidences, link.evidenceId)];
    }
    assert entries == LinkEntries(evidences, claim.links);
    return ClaimEvidenceDigest(SortForRead(entries)) == expected;
  }

  // ---------------------------------------------------------------- long sources

  /** The sessions a list holds, each once and in order. */
  function SortedSessions(sessions: seq<Id>): seq<Id> {
    if sessions == [] then [] else InsertSession(sessions[0], SortedSessions(sessions[1..]))
  }

  function ReadableLongManifest(db: Db, jobId: Id, revisionId: Id, projectId: Id): Option<Digest> {
    if jobId !in db.longs || db.longs[jobId].targetRevisionId != revisionId then None
    else
      var p := db.longs[jobId];
      var sessions := SessionsOfSources(p.sources);
      if && |p.sources| == p.expectedSourceCount
         && p.sources != []
         && LongSourcesOrdered(p.sources)
         && LongSourceDigest(p.sources) == p.sourceMidManifestHash
         && sessions == SortedSessions(p.sourceSessionIds)
         && |sessions| == |p.sourceSessionIds|
         && SessionSetDigest(sessions) == p.sourceSessionSetHash
         && LongSourcesUnique(p.sources)
         && (forall s :: s in p.sources ==> MidRevisionBacks(db.revisions, projectId, s))
      then Some(p.sourceManifestHash)
      else None
  }

  // ---------------------------------------------------------------- the layer

  predicate HeaderReadable(db: Db, identityId: Id, id: Id, now: Instant)
    requires id < |db.revisions|
  {
    var r := db.revisions[id];
    && identityId < |db.identities|
    && r.resolutionRowId < |db.resolutions|
    && r.sourceCheckpointId in db.checkpoints
    && r.sourceJobId in db.jobs
    && r.sourceJobId in db.projections
    && var resolution, job, p := db.resolutions[r.resolutionRowId], db.jobs[r.sourceJobId], db.projections[r.sourceJobId];
    && (exists t :: t in RetentionOf(db, r.sourceJobId) && t.kind.LayerRevisionTarget? && t.targetId == id)
    && db.checkpoints[r.sourceCheckpointId].status.CpCommitted?
    && job.status.Succeeded?
    && job.retentionState.Active?
    && job.expiresAt > now
    && p.targetIdentityId == Some(identityId)
    && p.targetRevisionId == Some(id)
    && p.targetRevisionDigest == Some(r.memberManifestHash)
    && resolution.link.current
    && resolution.p2Write
    && resolution.link.owner == r.authorityId
    && resolution.link.number == r.resolutionRevision
    && resolution.semanticStatus == r.semanticStatus
    && db.identities[identityId].originAuthorityId == r.authorityId
    && |r.members| == r.expectedMemberCount
    && forall i :: 0 <= i < |r.members| ==> r.members[i].inputOrder == i
  }

  function Filled(column: Option<Id>): nat {
    if column.Some? then 1 else 0
  }

  /** Exactly one typed column is filled, the one of the source's kind. */
  predicate ColumnsValid(kind: SourceKind, c: SourceColumns) {
    && Filled(c.checkpointId) + Filled(c.jobId) + Filled(c.inputSegmentId) + Filled(c.evidenceId)
       + Filled(c.resolutionAuthorityId) == 1
    && match kind
       case CheckpointSource => c.checkpointId.Some?
       case JobSource => c.jobId.Some?
       case InputSegmentSource => c.inputSegmentId.Some?
       case EvidenceSource => c.evidenceId.Some?
       case ResolutionSource => c.resolutionAuthorityId.Some?
  }

  predicate SourceReadable(s: Reference, deletionScopeDigest: Digest) {
    s.deletionScopeDigest == deletionScopeDigest && ColumnsValid(s.kind, ColumnsOf(s))
  }

  function ExpectedKinds(layer: TargetLayer): seq<RetentionKind> {
    if layer.LongLayer? then [JobTarget, TraceTarget, LayerRevisionTarget]
    else [JobTarget, TraceTarget, CheckpointTarget, LayerRevisionTarget]
  }

  predicate TargetsAre(targets: seq<RetentionTarget>, kinds: seq<RetentionKind>) {
    && |targets| == |kinds|
    && forall i :: 0 <= i < |targets| ==> targets[i].inputOrder == i && targets[i].kind == kinds[i]
  }

  predicate TraceReadable(db: Db, id: Id)
    requires id < |db.revisions| && db.revisions[id].sourceJobId in db.jobs && db.revisions[id].sourceJobId in db.projections
  {
    var r := db.revisions[id];
    var job, p := db.jobs[r.sourceJobId], db.projections[r.sourceJobId];
    && TraceOfJob(db, r.sourceJobId).Some?
    && var trace := TraceOfJob(db, r.sourceJobId).value;
    var manifest := if r.layer.LongLayer? then ReadableLongManifest(db, r.sourceJobId, id, r.projectId)
                    else Some(p.sourceRevisionDigest);
    && manifest.Some?
    && trace.shape == MEMORY_TRACE
    && trace.status.Succeeded?
    && trace.stage.Committed?
    && trace.errorCode.None?
    && trace.memoryOutcome == (if r.layer.LongLayer? then LongCommitted else CheckpointCommitted)
    && trace.expiresAt == job.expiresAt
    && trace.deletionScopeDigest == p.deletionScopeDigest
    && Some(trace.sourceManifestHash) == manifest
    && trace.proposalDigest.Some? && trace.planDigest.Some? && trace.commitDigest.Some?
    && trace.sources != []
    && SourcesOrdered(trace.sources)
    && (forall s :: s in trace.sources ==> SourceReadable(s, p.deletionScopeDigest))
    && TargetsAre(RetentionOf(db, r.sourceJobId), ExpectedKinds(r.layer))
  }

  predicate MemberReadable(inputs: map<Id, InputSegment>, evidences: seq<EvidenceAuthority>, claims: seq<Claim>,
                           r: LayerRevision, resolution: Resolution, m: LayerMemberEntry)
  {
    && m.claimId < |claims|
    && var claim := claims[m.claimId];
    && claim.projectId == r.projectId
    && claim.claimRevision == m.claimRevision == 1
    && claim.layer == r.layer
    && (r.layer.MidLayer? ==> claim.sessionId == r.sessionId)
    && claim.semanticKind == resolution.semanticKind
    && EvidenceReadable(inputs, evidences, claim, m.evidenceMembershipDigest)
  }

  predicate MembersReadable(db: Db, id: Id)
    requires id < |db.revisions| && db.revisions[id].resolutionRowId < |db.resolutions|
  {
    var r := db.revisions[id];
    && LayerMemberDigest(r.members) == r.memberManifestHash
    && forall i :: 0 <= i < |r.members| ==>
         MemberReadable(db.inputs, db.evidences, db.claims, r, db.resolutions[r.resolutionRowId], r.members[i])
  }

  function LayerOf(db: Db, identityId: Id, id: Id): ReadableLayer
    requires id < |db.revisions|
  {
    var r := db.revisions[id];
    ReadableLayer(r.authorityId, ClaimIds(r.members), identityId, r.layer, r.memberManifestHash, r.resolutionRowId,
                  r.resolutionRevision, id, r.link.number, r.semanticStatus)
  }

  function ReadCurrentLayer(db: Db, identityId: Id, now: Instant): Option<ReadableLayer> {
    if !db.migrationCompleted then None
    else
      var id := CurrentRevision(db.revisions, identityId);
      if && id.Some?
         && HeaderReadable(db, identityId, id.value, now)
         && TraceReadable(db, id.value)
         && MembersReadable(db, id.value)
      then Some(LayerOf(db, identityId, id.value))
      else None
  }

  // ---------------------------------------------------------------- checkpoints

  datatype ReadableCheckpoint = ReadableCheckpoint(
    checkpointId: Id, committedAt: Instant, memberIds: seq<Id>, memberManifestHash: Digest, projectId: Id, sessionId: Id)

  predicate CheckpointMemberBacked(resolutions: seq<Resolution>, c: Checkpoint, m: CheckpointMember) {
    && m.resolutionRowId < |resolutions|
    && var r := resolutions[m.resolutionRowId];
    && r.projectId == c.projectId
    && r.link.owner == m.entry.resolutionAuthorityId
    && r.link.number == m.entry.resolutionRevision
    && r.semanticStatus == m.entry.semanticStatus
    && |r.claimIds| == m.entry.claimCount
  }

  function MemberIds(members: seq<CheckpointMember>): seq<Id> {
    seq(|members|, i requires 0 <= i < |members| => members[i].entry.resolutionAuthorityId)
  }

  function ReadCheckpoint(db: Db, checkpointId: Id, now: Instant): Option<ReadableCheckpoint> {
    if !db.migrationCompleted || checkpointId !in db.checkpoints then None
    else
      var c := db.checkpoints[checkpointId];
      if && c.status.CpCommitted? && c.committedAt.Some?
         && c.producerJobId in db.jobs
         && var job := db.jobs[c.producerJobId];
         && job.status.Succeeded? && job.retentionState.Active? && job.expiresAt > now
         && (exists t :: t in RetentionOf(db, c.producerJobId) && t.kind.CheckpointTarget? && t.targetId == checkpointId)
         && |c.members| == c.expectedMemberCount
         && MembersOrdered(c.members)
         && CheckpointDigest(Entries(c.members)) == c.memberManifestHash
         && (forall m :: m in c.members ==> CheckpointMemberBacked(db.resolutions, c, m))
      then Some(ReadableCheckpoint(checkpointId, c.committedAt.value, MemberIds(c.members), c.memberManifestHash,
                                   c.projectId, c.sessionId))
      else None
  }
}
