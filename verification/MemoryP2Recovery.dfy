/**
 Planning of crash recovery for P2 memory jobs: from a re-read authority record the service
 decides whether a job has converged, is still owned by a live attempt, cannot be read safely,
 or needs a compare-and-set command; the repository accepts a command only if the record it
 re-reads under lock still matches.
 */
module MemoryP2Recovery {
  import opened Options
  import opened MemoryP2Traces

  datatype CheckpointStatus = CpFrozen | CpCommitted | CpHidden | CpDeleted | CpExpired | CpCleanupFailed

  datatype CheckpointAuthority = CheckpointAuthority(
    checkpointId: Id, projectId: Id, sessionId: Id, sourceManifestHash: Digest, deletionScopeDigest: Digest,
    p2PolicyRevision: string, p2RetentionPolicyVersion: string, status: CheckpointStatus)

  /** What the layer revisions written by a job prove; a part that cannot be read is None. */
  datatype CommittedAuthority = CommittedAuthority(
    targetLayer: TargetLayer, targetLayerIdentityId: Option<Id>, targetLayerRevisionId: Option<Id>,
    targetRevision: nat, targetRevisionDigest: Option<Digest>, proposalDigest: Option<Digest>,
    planDigest: Option<Digest>, commitDigest: Option<Digest>,
    resolutionAuthorityIds: seq<Id>, evidenceAuthorityIds: seq<Id>)

  datatype DurableTrace = DurableTrace(
    traceId: Id, status: Status, stage: Stage, memoryOutcome: Outcome, errorCode: Option<ErrorCode>,
    sourceManifestHash: Digest, deletionScopeDigest: Digest, p2PolicyRevision: string,
    p2RetentionPolicyVersion: string, retentionState: RetentionState, expiresAt: Instant,
    proposalDigest: Option<Digest>, planDigest: Option<Digest>, commitDigest: Option<Digest>,
    references: seq<Reference>)

  datatype MigrationStatus = MigrationReady | MigrationCompleted | MigrationUpgrading | MigrationInterrupted | MigrationMissing

  datatype RecoveryAuthority = RecoveryAuthority(
    identity: TraceIdentity, attemptNo: nat, jobStatus: Status, jobMemoryOutcome: Option<Outcome>,
    jobFailureCode: Option<ErrorCode>, jobRevision: int, leaseOwnerId: Option<string>, leaseEpoch: int,
    leaseExpiresAt: Option<Instant>, p2PolicyRevision: string, p2RetentionPolicyVersion: string,
    retentionState: RetentionState, targetLayer: TargetLayer, sourceSessionIds: seq<Id>,
    sourceSessionManifestHash: Digest, checkpoint: Option<CheckpointAuthority>, references: seq<Reference>,
    referenceAuthorities: seq<ReferenceAuthority>, legacyNullResolutionCount: nat,
    migrationStatus: MigrationStatus, committed: Option<CommittedAuthority>, trace: Option<DurableTrace>)

  // ---------------------------------------------------------------- reading the authority record

  function ScopeOf(a: RecoveryAuthority): SessionScope {
    SessionScope(a.targetLayer, a.sourceSessionIds, a.sourceSessionManifestHash)
  }

  function BaseOf(a: RecoveryAuthority, retentionState: RetentionState): TraceBase {
    TraceBase(a.identity, a.p2PolicyRevision, a.p2RetentionPolicyVersion, retentionState, a.references, ScopeOf(a))
  }

  /** First reason, in the order the service tests them, why the record cannot back a write. */
  function AuthorityError(a: RecoveryAuthority, writeAt: Instant): Option<ErrorCode> {
    if !a.migrationStatus.MigrationReady? && !a.migrationStatus.MigrationCompleted? then Some(MigrationUnavailable)
    else if a.legacyNullResolutionCount > 0 then Some(SourceDrift)
    else if !a.retentionState.Active? then Some(RetentionUnavailable)
    else if a.identity.expiresAt <= writeAt then Some(RetentionUnavailable)
    else if a.checkpoint.None? then Some(SourceDrift)
    else
      var checkpoint := a.checkpoint.value;
      if !checkpoint.status.CpCommitted? then Some(RetentionUnavailable)
      else if || checkpoint.projectId != a.identity.projectId
              || checkpoint.sessionId != a.identity.sessionId
              || checkpoint.sourceManifestHash != a.identity.sourceManifestHash
      then Some(SourceDrift)
      else if checkpoint.deletionScopeDigest != a.identity.deletionScopeDigest then Some(DeletionScopeDrift)
      else if || checkpoint.p2PolicyRevision != a.p2PolicyRevision
              || checkpoint.p2RetentionPolicyVersion != a.p2RetentionPolicyVersion
      then Some(PolicyDrift)
      else match BuildRunningTrace(BaseOf(a, Active))
        case Err(error) => Some(error)
        case Ok(running) => ParityError(running, a.referenceAuthorities, ScopeOf(a))
  }

  predicate Traces(references: seq<Reference>, kind: SourceKind, targetId: Id) {
    exists r :: r in references && r.kind == kind && r.targetId == targetId
  }

  predicate HasCompleteCommitProof(a: RecoveryAuthority) {
    && a.committed.Some?
    && var c := a.committed.value;
    && c.targetLayer == a.targetLayer
    && c.targetLayerIdentityId.Some?
    && c.targetLayerRevisionId.Some?
    && c.targetRevision > 0
    && c.targetRevisionDigest.Some?
    && c.proposalDigest.Some?
    && c.planDigest.Some?
    && c.commitDigest.Some?
    && c.resolutionAuthorityIds != []
    && NoDuplicates(c.resolutionAuthorityIds)
    && (forall id :: id in c.resolutionAuthorityIds ==> Traces(a.references, ResolutionSource, id))
    && c.evidenceAuthorityIds != []
    && NoDuplicates(c.evidenceAuthorityIds)
    && (forall id :: id in c.evidenceAuthorityIds ==> Traces(a.references, EvidenceSource, id))
  }

  /** The part of a stored trace that must agree with the record whatever its status. */
  predicate TraceHeaderMatches(a: RecoveryAuthority, trace: DurableTrace) {
    && trace.sourceManifestHash == a.identity.sourceManifestHash
    && trace.deletionScopeDigest == a.identity.deletionScopeDigest
    && trace.p2PolicyRevision == a.p2PolicyRevision
    && trace.p2RetentionPolicyVersion == a.p2RetentionPolicyVersion
    && trace.retentionState == a.retentionState
    && trace.expiresAt == a.identity.expiresAt
    && trace.references == a.references
  }

  predicate TraceMatchesRunning(a: RecoveryAuthority) {
    && a.trace.Some?
    && var trace := a.trace.value;
    && trace.status.Running?
    && RunningStage(trace.stage)
    && trace.memoryOutcome.Unjudged?
    && trace.errorCode.None?
    && trace.commitDigest.None?
    && TraceHeaderMatches(a, trace)
    && if trace.stage.Frozen? then trace.proposalDigest.None? && trace.planDigest.None?
       else if trace.proposalDigest.None? then false
       else trace.planDigest.Some? == trace.stage.Planned?
  }

  function CommittedOutcome(a: RecoveryAuthority): Outcome {
    if a.committed.Some? && a.committed.value.targetLayer.LongLayer? then LongCommitted else CheckpointCommitted
  }

  predicate TraceMatchesCommitted(a: RecoveryAuthority) {
    && a.trace.Some? && a.committed.Some?
    && var trace, committed := a.trace.value, a.committed.value;
    && trace.status.Succeeded?
    && (trace.stage.Committed? || trace.stage.Recovered?)
    && trace.memoryOutcome == CommittedOutcome(a)
    && trace.errorCode.None?
    && TraceHeaderMatches(a, trace)
    && trace.proposalDigest == committed.proposalDigest
    && trace.planDigest == committed.planDigest
    && trace.commitDigest == committed.commitDigest
  }

  datatype TerminalFacts = TerminalFacts(status: Status, memoryOutcome: Outcome, errorCode: ErrorCode)

  function DurableTerminalFacts(a: RecoveryAuthority): Option<TerminalFacts> {
    if !a.jobStatus.Failed? && !a.jobStatus.Cancelled? && !a.jobStatus.Unavailable? then None
    else if a.jobMemoryOutcome != Some(ExpectedOutcome(a.jobStatus)) || a.jobFailureCode.None? then None
    else Some(TerminalFacts(a.jobStatus, ExpectedOutcome(a.jobStatus), a.jobFailureCode.value))
  }

  predicate TraceMatchesTerminal(a: RecoveryAuthority, facts: TerminalFacts) {
    && a.trace.Some?
    && var trace := a.trace.value;
    && trace.status == facts.status
    && (trace.stage.Terminal? || trace.stage.Recovered?)
    && trace.memoryOutcome == facts.memoryOutcome
    && trace.errorCode == Some(facts.errorCode)
    && trace.commitDigest.None?
    && TraceHeaderMatches(a, trace)
    && (trace.planDigest.Some? ==> trace.proposalDigest.Some?)
  }

  datatype LeaseState = LeaseActive | LeaseExpired | LeaseInvalid

  function DurableLeaseState(a: RecoveryAuthority, now: Instant): LeaseState {
    if || a.leaseOwnerId.None?
       || |a.leaseOwnerId.value| < 1
       || a.leaseEpoch < 1
       || a.leaseExpiresAt.None?
    then LeaseInvalid
    else if a.leaseExpiresAt.value > now then LeaseActive
    else LeaseExpired
  }

  // ---------------------------------------------------------------- commands

  datatype CommandKind = TerminalizeUncommitted | PreserveCommitted | RepairTerminalTrace

  /** A missing trace is None; what a commit left unreadable is Some(None). */
  datatype RecoveryCommand = RecoveryCommand(
    kind: CommandKind, jobId: Id, expectedAttemptNo: nat, expectedJobRevision: int,
    expectedJobStatuses: set<Status>, expectedLeaseOwnerId: Option<string>, expectedLeaseEpoch: int,
    expectedLeaseExpiresAt: Option<Instant>, expectedTraceStatuses: set<Option<Status>>,
    expectedCheckpointId: Option<Id>, expectedSourceManifestHash: Digest, expectedTargetLayer: TargetLayer,
    expectedSourceSessionIds: seq<Id>, expectedSourceSessionManifestHash: Digest,
    expectedDeletionScopeDigest: Digest, expectedP2PolicyRevision: string,
    expectedP2RetentionPolicyVersion: string, expectedRetentionExpiresAt: Instant,
    expectedTargetLayerRevisionId: Option<Option<Id>>, expectedTargetRevision: Option<nat>,
    expectedTargetRevisionDigest: Option<Option<Digest>>, expectedCommitDigest: Option<Option<Digest>>,
    terminalStatus: Status, errorCode: Option<ErrorCode>, writeAt: Instant, trace: TraceWrite)

  function CheckpointIdOf(a: RecoveryAuthority): Option<Id> {
    if a.checkpoint.Some? then Some(a.checkpoint.value.checkpointId) else None
  }

  function TraceStatusOf(a: RecoveryAuthority): Option<Status> {
    if a.trace.Some? then Some(a.trace.value.status) else None
  }

  function ProposalDigestOf(a: RecoveryAuthority): Option<Digest> {
    if a.trace.Some? then a.trace.value.proposalDigest else None
  }

  function PlanDigestOf(a: RecoveryAuthority): Option<Digest> {
    if a.trace.Some? then a.trace.value.planDigest else None
  }

  function CommitDigestOf(a: RecoveryAuthority): Option<Digest> {
    if a.trace.Some? then a.trace.value.commitDigest else None
  }

  function CommittedRevisionId(a: RecoveryAuthority): Option<Option<Id>> {
    if a.committed.Some? then Some(a.committed.value.targetLayerRevisionId) else None
  }

  function CommittedRevisionNo(a: RecoveryAuthority): Option<nat> {
    if a.committed.Some? then Some(a.committed.value.targetRevision) else None
  }

  function CommittedRevisionDigest(a: RecoveryAuthority): Option<Option<Digest>> {
    if a.committed.Some? then Some(a.committed.value.targetRevisionDigest) else None
  }

  function CommittedCommitDigest(a: RecoveryAuthority): Option<Option<Digest>> {
    if a.committed.Some? then Some(a.committed.value.commitDigest) else None
  }

  /** The terminal trace a command carries; it never completes before it started. */
  function RecoveredProgress(a: RecoveryAuthority, writeAt: Instant, status: Status, outcome: Outcome,
                             errorCode: Option<ErrorCode>): TraceProgress
  {
    var completedAt := Some(Max(a.identity.startedAt, writeAt));
    if status.Succeeded? then
      var c := a.committed;
      TraceProgress(status, Recovered, outcome, errorCode, completedAt,
                    if c.Some? then c.value.proposalDigest else None,
                    if c.Some? then c.value.planDigest else None,
                    if c.Some? then c.value.commitDigest else None)
    else
      TraceProgress(status, Recovered, outcome, errorCode, completedAt,
                    ProposalDigestOf(a), PlanDigestOf(a), None)
  }

  function PlanCommand(a: RecoveryAuthority, writeAt: Instant, kind: CommandKind, status: Status,
                       errorCode: Option<ErrorCode>, outcome: Outcome, jobStatuses: set<Status>,
                       traceStatuses: set<Option<Status>>): Result<RecoveryCommand, ErrorCode>
    requires TerminalStatus(status)
  {
    match BuildTerminalTrace(BaseOf(a, a.retentionState), RecoveredProgress(a, writeAt, status, outcome, errorCode))
    case Err(error) => Err(error)
    case Ok(trace) =>
      Ok(RecoveryCommand(
        kind, a.identity.aiJobId, a.attemptNo, a.jobRevision, jobStatuses, a.leaseOwnerId, a.leaseEpoch,
        a.leaseExpiresAt, traceStatuses, CheckpointIdOf(a), a.identity.sourceManifestHash, a.targetLayer,
        a.sourceSessionIds, a.sourceSessionManifestHash, a.identity.deletionScopeDigest, a.p2PolicyRevision,
        a.p2RetentionPolicyVersion, a.identity.expiresAt, CommittedRevisionId(a), CommittedRevisionNo(a),
        CommittedRevisionDigest(a), CommittedCommitDigest(a), status, errorCode, writeAt, trace))
  }

  // ---------------------------------------------------------------- the decision

  datatype Decision =
    | AlreadyConverged
    | ActiveAttempt
    | SucceededUnreadable(error: ErrorCode)
    | TerminalUnreadable(error: ErrorCode)
    | Apply(command: RecoveryCommand)
    | Raises(error: ErrorCode)

  function Planned(plan: Result<RecoveryCommand, ErrorCode>): Decision {
    match plan
    case Ok(command) => Apply(command)
    case Err(error) => Raises(error)
  }

  function ReconcileSucceeded(a: RecoveryAuthority, writeAt: Instant): Decision {
    var error := AuthorityError(a, writeAt);
    if error.Some? || !HasCompleteCommitProof(a) then SucceededUnreadable(error.GetOr(TargetDrift))
    else if a.jobMemoryOutcome != Some(CommittedOutcome(a)) then SucceededUnreadable(TargetDrift)
    else if TraceMatchesCommitted(a) then AlreadyConverged
    else if a.trace.Some? && a.trace.value.status.Running? && !TraceMatchesRunning(a) then
      SucceededUnreadable(TraceUnavailable)
    else if a.trace.Some? && !a.trace.value.status.Running? then SucceededUnreadable(TraceUnavailable)
    else Planned(PlanCommand(a, writeAt, PreserveCommitted, Succeeded, None, CommittedOutcome(a),
                             {Succeeded}, {None, Some(Running)}))
  }

  function ReconcileLive(a: RecoveryAuthority, writeAt: Instant): Decision {
    var error := AuthorityError(a, writeAt);
    match DurableLeaseState(a, writeAt)
    case LeaseActive => ActiveAttempt
    case LeaseInvalid => TerminalUnreadable(TraceUnavailable)
    case LeaseExpired =>
      if a.trace.Some? && !TraceMatchesRunning(a) then
        if a.committed.Some? then SucceededUnreadable(TraceUnavailable) else TerminalUnreadable(TraceUnavailable)
      else if && HasCompleteCommitProof(a)
              && error.None?
              && (a.trace.None? || a.trace.value.status.Running? || TraceMatchesCommitted(a))
      then Planned(PlanCommand(a, writeAt, PreserveCommitted, Succeeded, None, CommittedOutcome(a),
                               {Pending, Running}, {None, Some(Running), Some(Succeeded)}))
      else if a.committed.Some? then SucceededUnreadable(error.GetOr(TargetDrift))
      else if ScopeError(a.identity.sessionId, ScopeOf(a)).Some? then TerminalUnreadable(SourceDrift)
      else if error == Some(RetentionUnavailable) then TerminalUnreadable(RetentionUnavailable)
      else Planned(PlanCommand(a, writeAt, TerminalizeUncommitted, Unavailable,
                               Some(error.GetOr(RestartRecovery)), OutcomeUnavailable,
                               {Pending, Running}, {None, Some(Running)}))
  }

  function ReconcileTerminal(a: RecoveryAuthority, writeAt: Instant): Decision {
    var error := AuthorityError(a, writeAt);
    var facts := DurableTerminalFacts(a);
    if a.committed.Some? then SucceededUnreadable(error.GetOr(TargetDrift))
    else if facts.None? then TerminalUnreadable(TraceUnavailable)
    else if error.Some? then TerminalUnreadable(error.value)
    else if TraceMatchesTerminal(a, facts.value) then AlreadyConverged
    else if a.trace.Some? && a.trace.value.status.Running? && !TraceMatchesRunning(a) then
      TerminalUnreadable(TraceUnavailable)
    else if a.trace.Some? && !a.trace.value.status.Running? then TerminalUnreadable(TraceUnavailable)
    else Planned(PlanCommand(a, writeAt, RepairTerminalTrace, facts.value.status, Some(facts.value.errorCode),
                             facts.value.memoryOutcome, {a.jobStatus}, {None, Some(Running)}))
  }

  function Reconcile(a: RecoveryAuthority, writeAt: Instant): Decision {
    if a.jobStatus.Succeeded? then ReconcileSucceeded(a, writeAt)
    else if a.jobStatus.Pending? || a.jobStatus.Running? then ReconcileLive(a, writeAt)
    else ReconcileTerminal(a, writeAt)
  }

  // ---------------------------------------------------------------- the compare-and-set

  predicate RowsBackReferences(authorities: seq<ReferenceAuthority>, references: seq<Reference>) {
    && |authorities| == |references|
    && forall i :: 0 <= i < |authorities| ==>
         && authorities[i].kind == references[i].kind
         && authorities[i].targetId == references[i].targetId
         && authorities[i].sourceRevision == references[i].sourceRevision
         && authorities[i].membershipDigest == references[i].membershipDigest
         && authorities[i].deletionScopeDigest == references[i].deletionScopeDigest
  }

  predicate RowsBoundToJob(a: RecoveryAuthority) {
    forall r :: r in a.referenceAuthorities ==>
      r.projectId == a.identity.projectId && r.sessionId in a.sourceSessionIds && r.readability.ReadActive?
  }

  predicate CommandMatches(c: RecoveryCommand, a: RecoveryAuthority) {
    && a.identity.aiJobId == c.jobId
    && a.attemptNo == c.expectedAttemptNo
    && a.jobStatus in c.expectedJobStatuses
    && a.jobRevision == c.expectedJobRevision
    && a.leaseOwnerId == c.expectedLeaseOwnerId
    && a.leaseEpoch == c.expectedLeaseEpoch
    && a.leaseExpiresAt == c.expectedLeaseExpiresAt
    && TraceStatusOf(a) in c.expectedTraceStatuses
    && a.references == c.trace.references
    && RowsBackReferences(a.referenceAuthorities, c.trace.references)
    && ProposalDigestOf(a) == c.trace.semantic.proposalDigest
    && PlanDigestOf(a) == c.trace.semantic.planDigest
    && CommitDigestOf(a) == c.trace.semantic.commitDigest
    && CheckpointIdOf(a) == c.expectedCheckpointId
    && a.checkpoint.Some?
    && a.checkpoint.value.deletionScopeDigest == c.expectedDeletionScopeDigest
    && a.checkpoint.value.p2PolicyRevision == c.expectedP2PolicyRevision
    && a.checkpoint.value.p2RetentionPolicyVersion == c.expectedP2RetentionPolicyVersion
    && a.identity.sourceManifestHash == c.expectedSourceManifestHash
    && a.targetLayer == c.expectedTargetLayer
    && a.sourceSessionIds == c.expectedSourceSessionIds
    && a.sourceSessionManifestHash == c.expectedSourceSessionManifestHash
    && RowsBoundToJob(a)
    && a.identity.deletionScopeDigest == c.expectedDeletionScopeDigest
    && a.p2PolicyRevision == c.expectedP2PolicyRevision
    && a.p2RetentionPolicyVersion == c.expectedP2RetentionPolicyVersion
    && a.identity.expiresAt == c.expectedRetentionExpiresAt
    && CommittedRevisionId(a) == c.expectedTargetLayerRevisionId
    && CommittedRevisionNo(a) == c.expectedTargetRevision
    && CommittedRevisionDigest(a) == c.expectedTargetRevisionDigest
    && CommittedCommitDigest(a) == c.expectedCommitDigest
  }

  function TraceAfter(a: RecoveryAuthority, w: TraceWrite): DurableTrace {
    if a.trace.Some? then
      a.trace.value.(status := w.parent.status, stage := w.parent.stage, memoryOutcome := w.parent.memoryOutcome,
                     errorCode := w.parent.errorCode, proposalDigest := w.semantic.proposalDigest,
                     planDigest := w.semantic.planDigest, commitDigest := w.semantic.commitDigest)
    else ReadBack(w, a.p2PolicyRevision, a.p2RetentionPolicyVersion)
  }

  /** The record a later read returns once the command has been applied. */
  function Applied(a: RecoveryAuthority, c: RecoveryCommand): RecoveryAuthority {
    var traced := a.(trace := Some(TraceAfter(a, c.trace)),
                     jobMemoryOutcome := Some(c.trace.parent.memoryOutcome));
    if c.kind.RepairTerminalTrace? then traced
    else traced.(jobStatus := c.terminalStatus,
                 jobFailureCode := if c.kind.PreserveCommitted? then None else c.errorCode)
  }

  // ---------------------------------------------------------------- commit fences

  datatype CommitFence = CommitFence(
    jobId: Id, attemptNo: nat, jobRevision: int, checkpointId: Id, sourceManifestHash: Digest,
    deletionScopeDigest: Digest, p2PolicyRevision: string, p2RetentionPolicyVersion: string,
    leaseOwnerId: string, leaseEpoch: int, leaseExpiresAt: Instant)

  function CreateCommitFence(a: RecoveryAuthority, now: Instant, attemptNo: nat, leaseOwnerId: string,
                             leaseEpoch: int): Result<CommitFence, ErrorCode>
  {
    if a.attemptNo != attemptNo then Err(CasLost)
    else if || !a.jobStatus.Running?
            || a.committed.Some?
            || a.leaseOwnerId != Some(leaseOwnerId)
            || a.leaseEpoch != leaseEpoch
            || !DurableLeaseState(a, now).LeaseActive?
            || (a.trace.Some? && !TraceMatchesRunning(a))
    then Err(CasLost)
    else
      var error := AuthorityError(a, now);
      if error.Some? then Err(error.value)
      else if a.checkpoint.None? then Err(SourceDrift)
      else Ok(CommitFence(a.identity.aiJobId, a.attemptNo, a.jobRevision, a.checkpoint.value.checkpointId,
                          a.identity.sourceManifestHash, a.identity.deletionScopeDigest, a.p2PolicyRevision,
                          a.p2RetentionPolicyVersion, leaseOwnerId, leaseEpoch, a.leaseExpiresAt.value))
  }

  // ---------------------------------------------------------------- builders meet matchers

  /** A written trace as a later read returns it. */
  function ReadBack(w: TraceWrite, p2PolicyRevision: string, p2RetentionPolicyVersion: string): DurableTrace {
    DurableTrace(w.parent.identity.traceId, w.parent.status, w.parent.stage, w.parent.memoryOutcome,
                 w.parent.errorCode, w.semantic.sourceManifestHash, w.semantic.deletionScopeDigest,
                 p2PolicyRevision, p2RetentionPolicyVersion, w.parent.retentionState,
                 w.parent.identity.expiresAt, w.semantic.proposalDigest, w.semantic.planDigest,
                 w.semantic.commitDigest, w.references)
  }

  /** The record holds the trace that was built from the record's own header. */
  ghost predicate HoldsBuilt(a: RecoveryAuthority, base: TraceBase, w: TraceWrite) {
    && base == BaseOf(a, a.retentionState)
    && a.trace == Some(ReadBack(w, a.p2PolicyRevision, a.p2RetentionPolicyVersion))
  }

  /** Every running trace the builders accept is recognised as the live attempt's trace. */
  lemma BuiltRunningIsRecognised(a: RecoveryAuthority, base: TraceBase, stage: Stage,
                                 proposalDigest: Option<Digest>, planDigest: Option<Digest>)
    requires BuildRunningStageTrace(base, stage, proposalDigest, planDigest).Ok?
    requires HoldsBuilt(a, base, BuildRunningStageTrace(base, stage, proposalDigest, planDigest).value)
    ensures TraceMatchesRunning(a)
  {
  }

  /** Conversely the running matcher accepts nothing the stage builder could not have produced. */
  lemma RecognisedRunningWasBuildable(a: RecoveryAuthority)
    requires TraceMatchesRunning(a) && BaseError(BaseOf(a, a.retentionState)).None?
    requires a.trace.value.traceId == a.identity.traceId
    ensures var trace := a.trace.value;
            var built := BuildRunningStageTrace(BaseOf(a, a.retentionState), trace.stage, trace.proposalDigest,
                                                trace.planDigest);
            built.Ok? && HoldsBuilt(a, BaseOf(a, a.retentionState), built.value)
  {
  }

  /** A built failed, cancelled or unavailable trace is recognised by the matcher for those facts. */
  lemma BuiltTerminalIsRecognised(a: RecoveryAuthority, base: TraceBase, p: TraceProgress)
    requires TerminalStatus(p.status) && !p.status.Succeeded? && p.completedAt.Some?
    requires BuildTerminalTrace(base, p).Ok? && HoldsBuilt(a, base, BuildTerminalTrace(base, p).value)
    ensures p.errorCode.Some?
    ensures TraceMatchesTerminal(a, TerminalFacts(p.status, ExpectedOutcome(p.status), p.errorCode.value))
  {
  }

  /** Conversely a recognised terminal trace is one the builder accepts, whenever it ended. */
  lemma RecognisedTerminalWasBuildable(a: RecoveryAuthority, facts: TerminalFacts, completedAt: Instant)
    requires facts.status.Failed? || facts.status.Cancelled? || facts.status.Unavailable?
    requires facts.memoryOutcome == ExpectedOutcome(facts.status)
    requires TraceMatchesTerminal(a, facts) && BaseError(BaseOf(a, a.retentionState)).None?
    requires a.trace.value.traceId == a.identity.traceId && a.identity.startedAt <= completedAt
    ensures var trace := a.trace.value;
            var built := BuildTerminalTrace(
              BaseOf(a, a.retentionState),
              TraceProgress(trace.status, trace.stage, trace.memoryOutcome, trace.errorCode, Some(completedAt),
                            trace.proposalDigest, trace.planDigest, None));
            built.Ok? && HoldsBuilt(a, BaseOf(a, a.retentionState), built.value)
  {
  }

  /**
   A built succeeded trace is recognised exactly when it carries the committed outcome and the
   committed digests; a "no change" success never is.
   */
  lemma BuiltSucceededIsRecognised(a: RecoveryAuthority, base: TraceBase, p: TraceProgress)
    requires p.status.Succeeded? && p.completedAt.Some? && a.committed.Some?
    requires BuildTerminalTrace(base, p).Ok? && HoldsBuilt(a, base, BuildTerminalTrace(base, p).value)
    ensures TraceMatchesCommitted(a) <==>
            && p.memoryOutcome == CommittedOutcome(a)
            && p.proposalDigest == a.committed.value.proposalDigest
            && p.planDigest == a.committed.value.planDigest
            && p.commitDigest == a.committed.value.commitDigest
  {
  }

  // ---------------------------------------------------------------- safety of the decision

  /** A committed record is never terminalized or repaired, and a live lease is never acted on. */
  lemma RecoveryIsSafe(a: RecoveryAuthority, writeAt: Instant)
    ensures Reconcile(a, writeAt).Apply? && a.committed.Some? ==>
              Reconcile(a, writeAt).command.kind.PreserveCommitted?
    ensures (a.jobStatus.Pending? || a.jobStatus.Running?) && DurableLeaseState(a, writeAt).LeaseActive? ==>
              Reconcile(a, writeAt) == ActiveAttempt
    ensures Reconcile(a, writeAt).Apply? && Reconcile(a, writeAt).command.kind.TerminalizeUncommitted? ==>
              && (a.jobStatus.Pending? || a.jobStatus.Running?)
              && DurableLeaseState(a, writeAt).LeaseExpired?
              && a.committed.None?
              && (a.trace.Some? ==> TraceMatchesRunning(a))
    ensures Reconcile(a, writeAt).Apply? && Reconcile(a, writeAt).command.kind.RepairTerminalTrace? ==>
              a.committed.None? && DurableTerminalFacts(a).Some?
  {
  }

  /** What a command planned for a job seen with this status expects to find, and what it will leave, by its kind. */
  predicate PlannedShape(c: RecoveryCommand, seen: Status, writeAt: Instant) {
    match c.kind
    case TerminalizeUncommitted =>
      && c.expectedJobStatuses == {Pending, Running}
      && c.terminalStatus.Unavailable?
      && c.trace.parent.status.Unavailable?
      && c.expectedLeaseExpiresAt.Some? && c.expectedLeaseExpiresAt.value <= writeAt
      && c.expectedCommitDigest.None?
    case PreserveCommitted =>
      && (|| c.expectedJobStatuses == {Pending, Running}
          || (c.expectedJobStatuses == {Succeeded} && c.expectedTraceStatuses == {None, Some(Running)}))
      && c.terminalStatus.Succeeded?
      && c.expectedCommitDigest.Some?
      && c.trace.semantic.commitDigest.Some?
    case RepairTerminalTrace =>
      && c.expectedJobStatuses == {seen} && TerminalStatus(seen) && !seen.Succeeded?
      && c.expectedTraceStatuses == {None, Some(Running)}
  }

  lemma PlannedCommandShape(a: RecoveryAuthority, writeAt: Instant)
    requires Reconcile(a, writeAt).Apply?
    ensures PlannedShape(Reconcile(a, writeAt).command, a.jobStatus, writeAt)
  {
  }

  /** A record without error can always be rebuilt, so planning for an uncommitted job never raises. */
  lemma ReadableRecordNeverRaises(a: RecoveryAuthority, writeAt: Instant)
    requires AuthorityError(a, writeAt).None? && a.committed.None?
    ensures !Reconcile(a, writeAt).Raises?
  {
  }

  /** What the compare-and-set asks beyond equality with the record the command was planned from. */
  predicate SelfConsistent(a: RecoveryAuthority) {
    && a.checkpoint.Some?
    && a.checkpoint.value.deletionScopeDigest == a.identity.deletionScopeDigest
    && a.checkpoint.value.p2PolicyRevision == a.p2PolicyRevision
    && a.checkpoint.value.p2RetentionPolicyVersion == a.p2RetentionPolicyVersion
    && RowsBackReferences(a.referenceAuthorities, a.references)
    && RowsBoundToJob(a)
  }

  /**
   A command planned for an uncommitted job passes its own compare-and-set exactly when the record
   is bound to its checkpoint and its rows; a record without any error always is.
   */
  lemma PlannedCommandMatchesOwnRecord(a: RecoveryAuthority, writeAt: Instant)
    requires a.committed.None? && Reconcile(a, writeAt).Apply?
    ensures CommandMatches(Reconcile(a, writeAt).command, a) <==> SelfConsistent(a)
    ensures AuthorityError(a, writeAt).None? ==> SelfConsistent(a)
  {
    if AuthorityError(a, writeAt).None? {
      var running := BuildRunningTrace(BaseOf(a, Active)).value;
      ParityRows(running, a.referenceAuthorities, ScopeOf(a), 0);
    }
  }

  lemma AppliedTraceMatches(a: RecoveryAuthority, writeAt: Instant)
    requires a.committed.None? && Reconcile(a, writeAt).Apply?
    ensures var b := Applied(a, Reconcile(a, writeAt).command);
            DurableTerminalFacts(b).Some? && TraceMatchesTerminal(b, DurableTerminalFacts(b).value)
  {
    AppliedFacts(a, writeAt);
    if a.trace.Some? {
      FinishedTraceMatches(a, writeAt);
    } else {
      RebuiltTraceMatches(a, writeAt);
    }
  }

  /** The job's row and the command's trace name the same ending. */
  lemma AppliedFacts(a: RecoveryAuthority, writeAt: Instant)
    requires a.committed.None? && Reconcile(a, writeAt).Apply?
    ensures var c := Reconcile(a, writeAt).command;
            && c.errorCode.Some?
            && DurableTerminalFacts(Applied(a, c)) ==
                 Some(TerminalFacts(c.terminalStatus, ExpectedOutcome(c.terminalStatus), c.errorCode.value))
  {
  }

  lemma FinishedTraceMatches(a: RecoveryAuthority, writeAt: Instant)
    requires a.committed.None? && a.trace.Some? && Reconcile(a, writeAt).Apply?
    requires Reconcile(a, writeAt).command.errorCode.Some?
    ensures var c := Reconcile(a, writeAt).command;
            TraceMatchesTerminal(Applied(a, c), TerminalFacts(c.terminalStatus, ExpectedOutcome(c.terminalStatus), c.errorCode.value))
  {
    assert TraceMatchesRunning(a);
  }

  lemma RebuiltTraceMatches(a: RecoveryAuthority, writeAt: Instant)
    requires a.committed.None? && a.trace.None? && Reconcile(a, writeAt).Apply?
    requires Reconcile(a, writeAt).command.errorCode.Some?
    ensures var c := Reconcile(a, writeAt).command;
            TraceMatchesTerminal(Applied(a, c), TerminalFacts(c.terminalStatus, ExpectedOutcome(c.terminalStatus), c.errorCode.value))
  {
    assert ProposalDigestOf(a).None? && PlanDigestOf(a).None?;
  }

  lemma SettledDecision(b: RecoveryAuthority, now: Instant)
    requires b.committed.None? && DurableTerminalFacts(b).Some?
    requires TraceMatchesTerminal(b, DurableTerminalFacts(b).value)
    ensures Reconcile(b, now) == match AuthorityError(b, now)
              case None => AlreadyConverged
              case Some(error) => TerminalUnreadable(error)
  {
  }

  lemma AppliedKeepsAuthority(a: RecoveryAuthority, c: RecoveryCommand, later: Instant)
    requires a.committed.None?
    ensures Applied(a, c).committed.None? && AuthorityError(Applied(a, c), later) == AuthorityError(a, later)
  {
    assert BaseOf(Applied(a, c), Active) == BaseOf(a, Active);
  }

  /**
   Once a planned command for an uncommitted job is applied, a later pass finds the job converged
   exactly when the record is free of errors at that later instant.
   */
  lemma AppliedCommandConverges(a: RecoveryAuthority, writeAt: Instant, later: Instant)
    requires a.committed.None? && Reconcile(a, writeAt).Apply?
    ensures var next := Reconcile(Applied(a, Reconcile(a, writeAt).command), later);
            next == match AuthorityError(a, later)
              case None => AlreadyConverged
              case Some(error) => TerminalUnreadable(error)
  {
    var c := Reconcile(a, writeAt).command;
    var b := Applied(a, c);
    AppliedKeepsAuthority(a, c, later);
    AppliedTraceMatches(a, writeAt);
    SettledDecision(b, later);
  }

  /**
   A record without error and not yet expired is matched, applied and then converged. This speaks of arbitrary records:
   in a stored job that has committed nothing the record always carries an error.
   */
  lemma UncommittedRecoveryConverges(a: RecoveryAuthority, writeAt: Instant, later: Instant)
    requires a.committed.None? && AuthorityError(a, writeAt).None? && later < a.identity.expiresAt
    requires Reconcile(a, writeAt).Apply?
    ensures CommandMatches(Reconcile(a, writeAt).command, a)
    ensures Reconcile(Applied(a, Reconcile(a, writeAt).command), later) == AlreadyConverged
  {
    PlannedCommandMatchesOwnRecord(a, writeAt);
    AppliedCommandConverges(a, writeAt, later);
  }

  /**
   A planned "preserve committed" command never passes its own compare-and-set: the stored trace it
   wants to finish has no commit digest yet, while the command already carries one.
   */
  lemma PreserveCommittedNeverMatchesOwnRecord(a: RecoveryAuthority, writeAt: Instant)
    requires Reconcile(a, writeAt).Apply? && Reconcile(a, writeAt).command.kind.PreserveCommitted?
    ensures !CommandMatches(Reconcile(a, writeAt).command, a)
  {
  }

  /**
   While an issued fence's lease lasts, recovery leaves the job alone. This speaks of arbitrary records: for a stored
   job no fence is ever issued (MemoryP2StoredPasses.NoFenceIsIssued).
   */
  lemma FencedJobIsLeftAlone(a: RecoveryAuthority, now: Instant, attemptNo: nat, leaseOwnerId: string,
                             leaseEpoch: int, at: Instant)
    requires CreateCommitFence(a, now, attemptNo, leaseOwnerId, leaseEpoch).Ok?
    ensures var fence := CreateCommitFence(a, now, attemptNo, leaseOwnerId, leaseEpoch).value;
            && now < fence.leaseExpiresAt
            && a.committed.None?
            && a.leaseOwnerId == Some(fence.leaseOwnerId) && a.leaseEpoch == fence.leaseEpoch
            && (at < fence.leaseExpiresAt <==> Reconcile(a, at) == ActiveAttempt)
  {
  }
}
