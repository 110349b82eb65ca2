/**
 Durable decision traces of the P2 memory jobs: the records, the builders that refuse
 malformed traces and the parity check between trace references and the rows they name.

 Identifiers are natural numbers and instants are integers, so the shape tests the program
 runs on UUID strings, hexadecimal digests and dates hold by typing. An absent digest is None.
 */
module MemoryP2Traces {
  import opened Options

  type Id = nat
  type Instant = int

  /** SHA-256 digests. Two digests are equal exactly when the hashed contents are. */
  datatype Digest =
    | Plain(n: nat)
    | CheckpointDigest(members: seq<CheckpointEntry>)
    | ClaimEvidenceDigest(evidences: seq<EvidenceEntry>)
    | LayerMemberDigest(entries: seq<LayerMemberEntry>)
    | LongSourceDigest(sources: seq<LongSourceEntry>)
    | SessionSetDigest(sessions: seq<Id>)

  datatype SemanticStatus = Asserted | Uncertain | Disputed

  datatype CheckpointEntry = CheckpointEntry(
    resolutionAuthorityId: Id, resolutionRevision: int, semanticStatus: SemanticStatus,
    claimCount: nat, boundaryStatus: string, membershipDigest: Digest, inputOrder: int)

  datatype EvidenceEntry = EvidenceEntry(
    evidenceId: Id, sourceId: Id, authorityRevision: int, membershipDigest: Digest,
    projectId: Id, sessionId: Id)

  datatype ClaimRole = Primary | Supporting | Conflicting | SupersededRole

  datatype LayerMemberEntry = LayerMemberEntry(
    claimId: Id, claimRevision: int, role: ClaimRole, inputOrder: int,
    evidenceMembershipDigest: Digest)

  datatype LongSourceEntry = LongSourceEntry(
    sourceSessionId: Id, sourceMidRevisionId: Id, membershipDigest: Digest, inputOrder: int)

  datatype ErrorCode =
    | ProviderUnavailable | SourceDrift | TargetDrift | PolicyDrift | DeletionScopeDrift
    | RetentionUnavailable | CasLost | RestartRecovery | TraceUnavailable
    | MigrationUnavailable | TerminalUnavailable

  /** Job statuses; a trace uses all of them but Pending. */
  datatype Status = Pending | Running | Succeeded | Failed | Cancelled | Unavailable

  datatype Stage = Frozen | Proposed | Validated | Planned | Committed | Recovered | Terminal

  datatype Outcome =
    | CheckpointCommitted | LongCommitted | NoChange | Unjudged
    | OutcomeFailed | OutcomeCancelled | OutcomeUnavailable

  datatype RetentionState = Active | Hidden | Expired | Deleted | Purging | Purged | CleanupFailed | Unknown

  datatype SourceKind = CheckpointSource | JobSource | InputSegmentSource | EvidenceSource | ResolutionSource

  datatype TargetLayer = MidLayer | LongLayer

  datatype Reference = Reference(
    kind: SourceKind, targetId: Id, sourceRevision: int, membershipDigest: Digest,
    deletionScopeDigest: Digest, inputOrder: int)

  datatype Readability = ReadActive | ReadHidden | ReadDeleted | ReadExpired | ReadMissing | ReadCleanupFailed

  datatype ReferenceAuthority = ReferenceAuthority(
    kind: SourceKind, targetId: Id, projectId: Id, sessionId: Id, sourceRevision: int,
    membershipDigest: Digest, deletionScopeDigest: Digest, readability: Readability)

  datatype SessionScope = SessionScope(
    targetLayer: TargetLayer, sourceSessionIds: seq<Id>, sourceSessionManifestHash: Digest)

  datatype TraceIdentity = TraceIdentity(
    traceId: Id, projectId: Id, sessionId: Id, ownerActorId: Id, requestId: Id, generationId: Id,
    aiJobId: Id, inputHash: Digest, sourceManifestHash: Digest, deletionScopeDigest: Digest,
    startedAt: Instant, createdAt: Instant, expiresAt: Instant)

  datatype TraceParent = TraceParent(
    identity: TraceIdentity, memoryOutcome: Outcome, status: Status, stage: Stage,
    errorCode: Option<ErrorCode>, completedAt: Option<Instant>, durationMs: Option<int>,
    retentionState: RetentionState)

  datatype TraceSemantic = TraceSemantic(
    traceId: Id, aiJobId: Id, deletionScopeDigest: Digest, sourceManifestHash: Digest,
    proposalDigest: Option<Digest>, planDigest: Option<Digest>, commitDigest: Option<Digest>,
    createdAt: Instant)

  datatype TraceWrite = TraceWrite(parent: TraceParent, semantic: TraceSemantic, references: seq<Reference>)

  /** What every builder is given. */
  datatype TraceBase = TraceBase(
    identity: TraceIdentity, p2PolicyRevision: string, p2RetentionPolicyVersion: string,
    retentionState: RetentionState, references: seq<Reference>, scope: SessionScope)

  /** The part of a trace that moves from stage to stage. */
  datatype TraceProgress = TraceProgress(
    status: Status, stage: Stage, memoryOutcome: Outcome, errorCode: Option<ErrorCode>,
    completedAt: Option<Instant>, proposalDigest: Option<Digest>, planDigest: Option<Digest>,
    commitDigest: Option<Digest>)

  // ---------------------------------------------------------------- input checks

  function IdentityError(identity: TraceIdentity): Option<ErrorCode> {
    if identity.expiresAt <= identity.createdAt then Some(TraceUnavailable) else None
  }

  function PolicyVersionError(policyRevision: string, retentionPolicyVersion: string): Option<ErrorCode> {
    if 1 <= |policyRevision| <= 80 && 1 <= |retentionPolicyVersion| <= 80 then None else Some(PolicyDrift)
  }

  predicate NoDuplicates<T(==)>(s: seq<T>) {
    forall i, j :: 0 <= i < j < |s| ==> s[i] != s[j]
  }

  function ScopeError(sessionId: Id, scope: SessionScope): Option<ErrorCode> {
    if |scope.sourceSessionIds| == 0 then Some(SourceDrift)
    else if !NoDuplicates(scope.sourceSessionIds) then Some(SourceDrift)
    else if scope.targetLayer.MidLayer? && scope.sourceSessionIds != [sessionId] then Some(SourceDrift)
    else None
  }

  /** The references the trace may carry: dense order, one scope digest, no target twice. */
  ghost predicate ReferencesWellFormed(identity: TraceIdentity, references: seq<Reference>) {
    && references != []
    && (forall i :: 0 <= i < |references| ==>
          && references[i].inputOrder == i
          && 0 <= references[i].sourceRevision
          && references[i].deletionScopeDigest == identity.deletionScopeDigest)
    && (forall i, j :: 0 <= i < j < |references| ==>
          (references[i].kind, references[i].targetId) != (references[j].kind, references[j].targetId))
  }

  function ReferencesErrorFrom(identity: TraceIdentity, references: seq<Reference>, i: nat): Option<ErrorCode>
    requires i <= |references|
    decreases |references| - i
  {
    if i == |references| then None
    else
      var r := references[i];
      if r.inputOrder != i then Some(TraceUnavailable)
      else if r.sourceRevision < 0 then Some(TraceUnavailable)
      else if r.deletionScopeDigest != identity.deletionScopeDigest then Some(DeletionScopeDrift)
      else if exists j :: 0 <= j < i && references[j].kind == r.kind && references[j].targetId == r.targetId
      then Some(TraceUnavailable)
      else ReferencesErrorFrom(identity, references, i + 1)
  }

  function ReferencesError(identity: TraceIdentity, references: seq<Reference>): Option<ErrorCode> {
    if references == [] then Some(TraceUnavailable) else ReferencesErrorFrom(identity, references, 0)
  }

  /** The loop that walks the references and remembers the targets it has seen. */
  method AssertReferences(identity: TraceIdentity, references: seq<Reference>) returns (error: Option<ErrorCode>)
    ensures error == ReferencesError(identity, references)
  {
    if references == [] { return Some(TraceUnavailable); }
    var targets: set<(SourceKind, Id)> := {};
    for index := 0 to |references|
      invariant targets == set j | 0 <= j < index :: (references[j].kind, references[j].targetId)
      invariant ReferencesErrorFrom(identity, references, 0) == ReferencesErrorFrom(identity, references, index)
    {
      var reference := references[index];
      if reference.inputOrder != index { return Some(TraceUnavailable); }
      if reference.sourceRevision < 0 { return Some(TraceUnavailable); }
      if reference.deletionScopeDigest != identity.deletionScopeDigest { return Some(DeletionScopeDrift); }
      var key := (reference.kind, reference.targetId);
      if key in targets { return Some(TraceUnavailable); }
      targets := targets + {key};
    }
    return None;
  }

  lemma {:induction false} ReferencesAcceptedFrom(identity: TraceIdentity, references: seq<Reference>, i: nat)
    requires i <= |references|
    ensures ReferencesErrorFrom(identity, references, i).None? <==>
            forall k :: i <= k < |references| ==>
              && references[k].inputOrder == k
              && 0 <= references[k].sourceRevision
              && references[k].deletionScopeDigest == identity.deletionScopeDigest
              && (forall j :: 0 <= j < k ==>
                    (references[j].kind, references[j].targetId) != (references[k].kind, references[k].targetId))
    decreases |references| - i
  {
    if i < |references| {
      ReferencesAcceptedFrom(identity, references, i + 1);
    }
  }

  /** The reference loop accepts exactly the well-formed reference lists. */
  lemma ReferencesAccepted(identity: TraceIdentity, references: seq<Reference>)
    ensures ReferencesError(identity, references).None? <==> ReferencesWellFormed(identity, references)
  {
    ReferencesAcceptedFrom(identity, references, 0);
  }

  function BaseError(base: TraceBase): Option<ErrorCode> {
    var identityError := IdentityError(base.identity);
    if identityError.Some? then identityError else
    var policyError := PolicyVersionError(base.p2PolicyRevision, base.p2RetentionPolicyVersion);
    if policyError.Some? then policyError else
    var scopeError := ScopeError(base.identity.sessionId, base.scope);
    if scopeError.Some? then scopeError else
    ReferencesError(base.identity, base.references)
  }

  // ---------------------------------------------------------------- state checks

  predicate RunningStage(stage: Stage) {
    stage.Frozen? || stage.Proposed? || stage.Validated? || stage.Planned?
  }

  function RunningStateError(p: TraceProgress): Option<ErrorCode> {
    if !p.status.Running? then None
    else if !RunningStage(p.stage) then Some(TraceUnavailable)
    else if !p.memoryOutcome.Unjudged? || p.errorCode.Some? || p.completedAt.Some? || p.commitDigest.Some? then
      Some(TraceUnavailable)
    else if p.stage.Frozen? then
      if p.proposalDigest.Some? || p.planDigest.Some? then Some(TraceUnavailable) else None
    else if p.proposalDigest.None? then Some(TraceUnavailable)
    else if p.stage.Planned? then
      if p.planDigest.None? then Some(TraceUnavailable) else None
    else if p.planDigest.Some? then Some(TraceUnavailable)
    else None
  }

  predicate TerminalStatus(status: Status) {
    status.Succeeded? || status.Failed? || status.Cancelled? || status.Unavailable?
  }

  function ExpectedOutcome(status: Status): Outcome
    requires status.Failed? || status.Cancelled? || status.Unavailable?
  {
    match status
    case Failed => OutcomeFailed
    case Cancelled => OutcomeCancelled
    case Unavailable => OutcomeUnavailable
  }

  function TerminalStateError(startedAt: Instant, p: TraceProgress): Option<ErrorCode>
    requires TerminalStatus(p.status) && p.completedAt.Some?
  {
    if p.completedAt.value < startedAt then Some(TraceUnavailable)
    else if p.status.Succeeded? then
      if p.errorCode.Some?
         || !(p.memoryOutcome.CheckpointCommitted? || p.memoryOutcome.LongCommitted? || p.memoryOutcome.NoChange?)
         || p.proposalDigest.None? || p.planDigest.None? || p.commitDigest.None?
      then Some(TraceUnavailable)
      else if !p.stage.Committed? && !p.stage.Recovered? then Some(TraceUnavailable)
      else None
    else if p.memoryOutcome != ExpectedOutcome(p.status) then Some(TraceUnavailable)
    else if !p.stage.Terminal? && !p.stage.Recovered? then Some(TraceUnavailable)
    else if p.errorCode.None? then Some(TraceUnavailable)
    else if p.commitDigest.Some? then Some(TraceUnavailable)
    else if p.planDigest.Some? && p.proposalDigest.None? then Some(TraceUnavailable)
    else None
  }

  // ---------------------------------------------------------------- builders

  function Max(a: int, b: int): int {
    if a < b then b else a
  }

  function WriteOf(base: TraceBase, p: TraceProgress): TraceWrite {
    TraceWrite(
      TraceParent(base.identity, p.memoryOutcome, p.status, p.stage, p.errorCode, p.completedAt,
                  if p.completedAt.None? then None
                  else Some(Max(0, p.completedAt.value - base.identity.startedAt)),
                  base.retentionState),
      TraceSemantic(base.identity.traceId, base.identity.aiJobId, base.identity.deletionScopeDigest,
                    base.identity.sourceManifestHash, p.proposalDigest, p.planDigest, p.commitDigest,
                    base.identity.createdAt),
      base.references)
  }

  function BuildWrite(base: TraceBase, p: TraceProgress): Result<TraceWrite, ErrorCode> {
    var stateError := RunningStateError(p);
    if stateError.Some? then Err(stateError.value) else Ok(WriteOf(base, p))
  }

  const FROZEN_PROGRESS := TraceProgress(Running, Frozen, Unjudged, None, None, None, None, None)

  /** A freshly frozen running trace. */
  function BuildRunningTrace(base: TraceBase): Result<TraceWrite, ErrorCode> {
    var baseError := BaseError(base);
    if baseError.Some? then Err(baseError.value) else BuildWrite(base, FROZEN_PROGRESS)
  }

  /** A running trace that has advanced to a later stage. */
  function BuildRunningStageTrace(base: TraceBase, stage: Stage, proposalDigest: Option<Digest>,
                                  planDigest: Option<Digest>): Result<TraceWrite, ErrorCode>
  {
    var baseError := BaseError(base);
    if baseError.Some? then Err(baseError.value)
    else BuildWrite(base, TraceProgress(Running, stage, Unjudged, None, None, proposalDigest, planDigest, None))
  }

  /** A terminal trace: committed, failed, cancelled or unavailable. */
  function BuildTerminalTrace(base: TraceBase, p: TraceProgress): Result<TraceWrite, ErrorCode>
    requires TerminalStatus(p.status) && p.completedAt.Some?
  {
    var baseError := BaseError(base);
    if baseError.Some? then Err(baseError.value) else
    var terminalError := TerminalStateError(base.identity.startedAt, p);
    if terminalError.Some? then Err(terminalError.value)
    else BuildWrite(base, p)
  }

  // ---------------------------------------------------------------- authority parity

  function ParityErrorFrom(write: TraceWrite, authorities: seq<ReferenceAuthority>, scope: SessionScope, i: nat)
    : Option<ErrorCode>
    requires |authorities| == |write.references| && i <= |authorities|
    decreases |authorities| - i
  {
    if i == |authorities| then None
    else
      var reference, authority := write.references[i], authorities[i];
      if !authority.readability.ReadActive? then Some(RetentionUnavailable)
      else if || authority.kind != reference.kind
              || authority.targetId != reference.targetId
              || authority.projectId != write.parent.identity.projectId
              || authority.sessionId !in scope.sourceSessionIds
              || authority.sourceRevision != reference.sourceRevision
              || authority.membershipDigest != reference.membershipDigest
      then Some(SourceDrift)
      else if || authority.deletionScopeDigest != reference.deletionScopeDigest
              || authority.deletionScopeDigest != write.semantic.deletionScopeDigest
      then Some(DeletionScopeDrift)
      else ParityErrorFrom(write, authorities, scope, i + 1)
  }

  predicate SomeSessionUncovered(authorities: seq<ReferenceAuthority>, sessionIds: seq<Id>) {
    exists s :: s in sessionIds && forall a :: a in authorities ==> a.sessionId != s
  }

  /** Each reference is backed by the row it names, and together they cover every source session. */
  function ParityError(write: TraceWrite, authorities: seq<ReferenceAuthority>, scope: SessionScope)
    : Option<ErrorCode>
  {
    var scopeError := ScopeError(write.parent.identity.sessionId, scope);
    if scopeError.Some? then scopeError
    else if |authorities| != |write.references| then Some(TraceUnavailable)
    else
      var rowError := ParityErrorFrom(write, authorities, scope, 0);
      if rowError.Some? then rowError
      else if SomeSessionUncovered(authorities, scope.sourceSessionIds) then Some(SourceDrift)
      else None
  }

  lemma {:induction false} ParityRows(write: TraceWrite, authorities: seq<ReferenceAuthority>, scope: SessionScope, i: nat)
    requires |authorities| == |write.references| && i <= |authorities|
    requires ParityErrorFrom(write, authorities, scope, i).None?
    ensures forall k :: i <= k < |authorities| ==>
              && authorities[k].readability.ReadActive?
              && authorities[k].kind == write.references[k].kind
              && authorities[k].targetId == write.references[k].targetId
              && authorities[k].projectId == write.parent.identity.projectId
              && authorities[k].sessionId in scope.sourceSessionIds
              && authorities[k].sourceRevision == write.references[k].sourceRevision
              && authorities[k].membershipDigest == write.references[k].membershipDigest
              && authorities[k].deletionScopeDigest == write.references[k].deletionScopeDigest
    decreases |authorities| - i
  {
    if i < |authorities| {
      ParityRows(write, authorities, scope, i + 1);
    }
  }

  function SessionsOf(authorities: seq<ReferenceAuthority>, n: nat): set<Id>
    requires n <= |authorities|
  {
    if n == 0 then {} else SessionsOf(authorities, n - 1) + {authorities[n - 1].sessionId}
  }

  lemma {:induction false} SessionsOfMember(authorities: seq<ReferenceAuthority>, n: nat, s: Id)
    requires n <= |authorities|
    ensures s in SessionsOf(authorities, n) <==> exists j :: 0 <= j < n && authorities[j].sessionId == s
  {
    if n > 0 {
      SessionsOfMember(authorities, n - 1, s);
    }
  }

  /** The loop of the parity check; the set collects the sessions the rows belong to. */
  method AssertReferenceAuthorityParity(write: TraceWrite, authorities: seq<ReferenceAuthority>, scope: SessionScope)
    returns (error: Option<ErrorCode>)
    ensures error == ParityError(write, authorities, scope)
  {
    var scopeError := ScopeError(write.parent.identity.sessionId, scope);
    if scopeError.Some? { return scopeError; }
    if |authorities| != |write.references| { return Some(TraceUnavailable); }
    var referencedSessions: set<Id> := {};
    for index := 0 to |authorities|
      invariant referencedSessions == SessionsOf(authorities, index)
      invariant forall s :: s in referencedSessions ==> s in scope.sourceSessionIds
      invariant ParityErrorFrom(write, authorities, scope, 0) == ParityErrorFrom(write, authorities, scope, index)
    {
      var reference, authority := write.references[index], authorities[index];
      if !authority.readability.ReadActive? { return Some(RetentionUnavailable); }
      if authority.kind != reference.kind
         || authority.targetId != reference.targetId
         || authority.projectId != write.parent.identity.projectId
         || authority.sessionId !in scope.sourceSessionIds
         || authority.sourceRevision != reference.sourceRevision
         || authority.membershipDigest != reference.membershipDigest { return Some(SourceDrift); }
      if authority.deletionScopeDigest != reference.deletionScopeDigest
         || authority.deletionScopeDigest != write.semantic.deletionScopeDigest {
        return Some(DeletionScopeDrift);
      }
      referencedSessions := referencedSessions + {authority.sessionId};
    }
    SizeDecidesCoverage(authorities, scope.sourceSessionIds);
    return if |referencedSessions| != |scope.sourceSessionIds| then Some(SourceDrift) else None;
  }

  ghost function MembersOf(s: seq<Id>): set<Id> {
    set j | 0 <= j < |s| :: s[j]
  }

  /** Comparing sizes decides coverage, because the source sessions are distinct and bound the rows' sessions. */
  lemma SizeDecidesCoverage(authorities: seq<ReferenceAuthority>, sessionIds: seq<Id>)
    requires NoDuplicates(sessionIds)
    requires forall s :: s in SessionsOf(authorities, |authorities|) ==> s in sessionIds
    ensures |SessionsOf(authorities, |authorities|)| != |sessionIds| <==> SomeSessionUncovered(authorities, sessionIds)
  {
    var covered, wanted := SessionsOf(authorities, |authorities|), MembersOf(sessionIds);
    SetSizeOfDistinct(sessionIds);
    forall s ensures s in covered <==> !forall a :: a in authorities ==> a.sessionId != s {
      SessionsOfMember(authorities, |authorities|, s);
    }
    assert forall s :: s in wanted <==> s in sessionIds;
    SizesDiffer(covered, wanted);
  }

  lemma SizesDiffer(a: set<Id>, b: set<Id>)
    requires a <= b
    ensures |a| != |b| <==> exists x :: x in b && x !in a
  {
    assert |b - a| == |b| - |a|;
    if |a| != |b| {
      var x :| x in b - a;
    } else {
      assert b - a == {};
    }
  }

  lemma {:induction false} SetSizeOfDistinct(s: seq<Id>)
    requires NoDuplicates(s)
    ensures |MembersOf(s)| == |s|
  {
    if s == [] {
      assert MembersOf(s) == {};
    } else {
      var front := s[..|s| - 1];
      SetSizeOfDistinct(front);
      assert MembersOf(s) == MembersOf(front) + {s[|s| - 1]};
    }
  }
}
