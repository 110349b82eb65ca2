/**
 The gate that decides, for one candidate memory or boundary, whether it may be written and how
 the revision it describes follows its predecessor. It only describes the mutation; the commit
 transaction performs it.
 */
module MemoryGate {
  import opened Options
  import opened MemoryP2Traces

  datatype SemanticKind = Episode | Fact

  datatype CandidateKind = MemoryCandidate(kind: SemanticKind) | BoundaryCandidate

  datatype Operation = Create | Correct | MarkUncertain | MarkDisputed | Activate | Revoke | Supersede

  datatype ResolutionKind = Single | Range | UnknownValue | ConflictSet

  datatype EvidenceRole =
    | ExplicitFactStatement | ElderStoryContext | BoundaryActivationIntent
    | BoundaryWithdrawal | InterviewerSuggestion | ModelInference | UnknownRole

  datatype Authorization = Authorized | Denied | AuthorizationUnknown
  datatype RetentionEligibility = Eligible | Ineligible | RetentionUnclear
  datatype DeletionEligibility = NotDeleted | IsDeleted | DeletionUnknown

  datatype GateEvidence = GateEvidence(
    evidenceId: Id, projectId: Id, sessionId: Id, authorityRevision: int, elder: bool, role: EvidenceRole,
    authorization: Authorization, retention: RetentionEligibility, deletion: DeletionEligibility)

  datatype BoundaryStatus = BoundaryActive | BoundaryRevoked | BoundarySuperseded

  datatype Target =
    | MemoryTarget(authorityId: Id, revisionId: Id, revisionNo: nat, isCurrent: bool, semanticKind: SemanticKind)
    | BoundaryTarget(boundaryId: Id, revisionId: Id, revisionNo: nat, status: BoundaryStatus)

  /** Claims are given by the evidence each one cites. */
  datatype ProposedState =
    | SemanticState(semanticKind: SemanticKind, hasValue: bool, hasValueKind: bool, resolutionKind: ResolutionKind,
                    semanticStatus: SemanticStatus, reviewRequired: bool, claims: seq<seq<Id>>)
    | BoundaryState(status: BoundaryStatus)

  datatype Candidate = Candidate(
    candidateId: Id, kind: CandidateKind, operation: Operation, target: Option<Target>,
    expectedRevision: Option<nat>, state: ProposedState, evidence: seq<GateEvidence>, evidenceDigest: Digest)

  /** Project and session identifiers are never empty here, so their length tests hold by typing. */
  datatype Snapshot = Snapshot(
    projectId: Id, sourceSessionIds: seq<Id>, evidenceDigest: Digest, snapshotRevision: int)

  datatype DecisionStatus = Accepted | Rejected | ReviewRequired
  datatype Action = NoAction | CreateRevision | AppendRevision

  datatype Reason =
    | ExplicitElderEvidence | ExplicitBoundaryIntent | AppendedCorrection | ConflictRequiresReview
    | EligibleEvidenceWithConflict | EvidenceMissing | FactEvidenceRequired | BoundaryIntentRequired
    | BoundaryWithdrawalRequired | BoundaryHumanRequired | EvidenceNotEligible | StaleEvidence
    | DeletedEvidence | RetentionIneligible | UnknownAuthority | IllegalTransition | RevisionMismatch
    | AmbiguousCorrection | SemanticKindMismatch | SnapshotMismatch

  datatype Plan = Plan(
    action: Action, newRevisionId: Option<Id>, newRevisionNo: Option<nat>, predecessorRevisionId: Option<Id>)

  datatype GateDecision = GateDecision(status: DecisionStatus, reason: Reason, plan: Plan)

  const NO_PLAN := Plan(NoAction, None, None, None)

  function RejectedFor(reason: Reason): GateDecision {
    GateDecision(Rejected, reason, NO_PLAN)
  }

  function Mutation(c: Candidate, action: Action): Plan {
    if action.NoAction? then NO_PLAN
    else Plan(action, Some(c.candidateId),
              Some((if c.target.Some? then c.target.value.revisionNo else 0) + 1),
              if c.target.Some? then Some(c.target.value.revisionId) else None)
  }

  function WriteAction(c: Candidate): Action {
    if c.target.None? then CreateRevision else AppendRevision
  }

  function EvidenceError(e: GateEvidence, s: Snapshot): Option<Reason> {
    if e.projectId != s.projectId || e.sessionId !in s.sourceSessionIds || e.authorityRevision < 1 then Some(StaleEvidence)
    else if !e.authorization.Authorized? then Some(EvidenceNotEligible)
    else if !e.deletion.NotDeleted? then Some(if e.deletion.IsDeleted? then DeletedEvidence else EvidenceNotEligible)
    else if !e.retention.Eligible? then Some(RetentionIneligible)
    else if !e.elder then Some(EvidenceNotEligible)
    else None
  }

  /** The first evidence that is unusable decides. */
  function FirstEvidenceError(evidence: seq<GateEvidence>, s: Snapshot): Option<Reason> {
    if evidence == [] then None
    else
      var error := EvidenceError(evidence[0], s);
      if error.Some? then error else FirstEvidenceError(evidence[1..], s)
  }

  predicate HasRole(evidence: seq<GateEvidence>, role: EvidenceRole) {
    exists e :: e in evidence && e.role == role
  }

  predicate Cites(evidence: seq<GateEvidence>, id: Id) {
    exists e :: e in evidence && e.evidenceId == id
  }

  predicate DistinctEvidence(evidence: seq<GateEvidence>) {
    forall i, j :: 0 <= i < j < |evidence| ==> evidence[i].evidenceId != evidence[j].evidenceId
  }

  predicate ClaimsSupported(c: Candidate) {
    c.state.SemanticState? ==>
      forall claim :: claim in c.state.claims ==> forall id :: id in claim ==> Cites(c.evidence, id)
  }

  function SnapshotError(c: Candidate, s: Snapshot): Option<Reason> {
    if s.sourceSessionIds == [] || s.snapshotRevision < 1 then Some(SnapshotMismatch)
    else if c.evidence == [] then Some(EvidenceMissing)
    else if c.evidenceDigest != s.evidenceDigest then Some(SnapshotMismatch)
    else
      var error := FirstEvidenceError(c.evidence, s);
      if error.Some? then error
      else if !DistinctEvidence(c.evidence) || !ClaimsSupported(c) then Some(StaleEvidence)
      else None
  }

  function TransitionError(c: Candidate): Option<Reason> {
    if c.operation.Create? || c.operation.Activate? then
      if c.target.Some? || c.expectedRevision.Some? then Some(IllegalTransition) else None
    else if c.target.None? || c.expectedRevision.None? then Some(UnknownAuthority)
    else if c.expectedRevision.value != c.target.value.revisionNo then Some(RevisionMismatch)
    else None
  }

  function EvaluateBoundary(c: Candidate): GateDecision {
    if !c.operation.Activate? && !c.operation.Revoke? && !c.operation.Supersede? then RejectedFor(IllegalTransition)
    else if !c.state.BoundaryState? then RejectedFor(SemanticKindMismatch)
    else if c.operation.Activate? then
      if !c.state.status.BoundaryActive? || !HasRole(c.evidence, BoundaryActivationIntent) then
        RejectedFor(BoundaryIntentRequired)
      else GateDecision(Accepted, ExplicitBoundaryIntent, Mutation(c, CreateRevision))
    else if c.target.None? || !c.target.value.BoundaryTarget? || !c.target.value.status.BoundaryActive? then
      RejectedFor(IllegalTransition)
    else if || (c.operation.Revoke? && !c.state.status.BoundaryRevoked?)
            || (c.operation.Supersede? && !c.state.status.BoundarySuperseded?)
    then RejectedFor(IllegalTransition)
    else if !HasRole(c.evidence, BoundaryWithdrawal) then RejectedFor(BoundaryWithdrawalRequired)
    else GateDecision(ReviewRequired, BoundaryHumanRequired, NO_PLAN)
  }

  predicate Ambiguous(s: ProposedState)
    requires s.SemanticState?
  {
    match s.semanticStatus
    case Asserted => s.reviewRequired || s.resolutionKind.ConflictSet?
    case Uncertain => !s.reviewRequired || s.resolutionKind.ConflictSet?
    case Disputed =>
      !s.reviewRequired || !s.resolutionKind.ConflictSet? || s.hasValue || s.hasValueKind || |s.claims| < 2
  }

  function EvaluateMemory(c: Candidate): GateDecision
    requires c.kind.MemoryCandidate?
  {
    if !c.state.SemanticState? || c.state.semanticKind != c.kind.kind then RejectedFor(SemanticKindMismatch)
    else if c.operation.Activate? || c.operation.Revoke? || c.operation.Supersede? then RejectedFor(IllegalTransition)
    else if c.target.Some? && c.target.value.BoundaryTarget? then RejectedFor(SemanticKindMismatch)
    else if c.target.Some? && c.target.value.semanticKind != c.kind.kind then RejectedFor(SemanticKindMismatch)
    else if c.target.Some? && !c.target.value.isCurrent then RejectedFor(IllegalTransition)
    else if c.kind.kind.Fact? && !HasRole(c.evidence, ExplicitFactStatement) then RejectedFor(FactEvidenceRequired)
    else if Ambiguous(c.state) then RejectedFor(AmbiguousCorrection)
    else match c.state.semanticStatus
      case Disputed => GateDecision(ReviewRequired, EligibleEvidenceWithConflict, Mutation(c, WriteAction(c)))
      case Uncertain => GateDecision(ReviewRequired, ConflictRequiresReview, Mutation(c, WriteAction(c)))
      case Asserted =>
        GateDecision(Accepted, if c.operation.Correct? then AppendedCorrection else ExplicitElderEvidence,
                     Mutation(c, WriteAction(c)))
  }

  function Evaluate(c: Candidate, s: Snapshot): GateDecision {
    var snapshotError := SnapshotError(c, s);
    if snapshotError.Some? then RejectedFor(snapshotError.value) else
    var transitionError := TransitionError(c);
    if transitionError.Some? then RejectedFor(transitionError.value)
    else if c.kind.BoundaryCandidate? then EvaluateBoundary(c)
    else EvaluateMemory(c)
  }

  // ---------------------------------------------------------------- properties

  lemma {:induction false} EvidenceAccepted(evidence: seq<GateEvidence>, s: Snapshot)
    ensures FirstEvidenceError(evidence, s).None? <==> forall e :: e in evidence ==> EvidenceError(e, s).None?
  {
    if evidence != [] {
      EvidenceAccepted(evidence[1..], s);
      assert evidence == [evidence[0]] + evidence[1..];
    }
  }

  /**
   Whatever the gate lets through rests on at least one piece of evidence, all of it spoken by the
   elder inside the source sessions, authorized, retained and not deleted; a fact needs an explicit
   statement; and the revision it describes is the direct successor of the current target, or the
   first revision when there is no target.
   */
  lemma PassedCandidate(c: Candidate, s: Snapshot)
    requires !Evaluate(c, s).plan.action.NoAction?
    ensures c.evidence != [] && DistinctEvidence(c.evidence) && ClaimsSupported(c)
    ensures forall e :: e in c.evidence ==>
              && e.projectId == s.projectId && e.sessionId in s.sourceSessionIds && e.elder
              && e.authorization.Authorized? && e.retention.Eligible? && e.deletion.NotDeleted?
    ensures c.kind == MemoryCandidate(Fact) ==> HasRole(c.evidence, ExplicitFactStatement)
    ensures var plan := Evaluate(c, s).plan;
            match c.target
            case None => plan == Plan(CreateRevision, Some(c.candidateId), Some(1), None)
            case Some(t) =>
              && t.MemoryTarget? && t.isCurrent && c.expectedRevision == Some(t.revisionNo)
              && plan == Plan(AppendRevision, Some(c.candidateId), Some(t.revisionNo + 1), Some(t.revisionId))
  {
    EvidenceAccepted(c.evidence, s);
  }

  ghost predicate Usable(e: GateEvidence, s: Snapshot) {
    && e.projectId == s.projectId && e.sessionId in s.sourceSessionIds && e.authorityRevision >= 1 && e.elder
    && e.authorization.Authorized? && e.retention.Eligible? && e.deletion.NotDeleted?
  }

  /** The candidate names its predecessor: none for a first revision, else the current one with its number. */
  ghost predicate Continues(c: Candidate, kind: SemanticKind) {
    match c.target
    case None => c.operation.Create? && c.expectedRevision.None?
    case Some(t) =>
      && (c.operation.Correct? || c.operation.MarkUncertain? || c.operation.MarkDisputed?)
      && t.MemoryTarget? && t.isCurrent && t.semanticKind == kind && c.expectedRevision == Some(t.revisionNo)
  }

  /** What a candidate needs, whatever the order the checks are made in. */
  ghost predicate MayBeWritten(c: Candidate, s: Snapshot) {
    && s.snapshotRevision >= 1 && c.evidenceDigest == s.evidenceDigest
    && c.evidence != [] && (forall e :: e in c.evidence ==> Usable(e, s))
    && DistinctEvidence(c.evidence) && ClaimsSupported(c)
    && match c.kind
       case BoundaryCandidate =>
         && c.operation.Activate? && c.target.None? && c.expectedRevision.None?
         && c.state == BoundaryState(BoundaryActive) && HasRole(c.evidence, BoundaryActivationIntent)
       case MemoryCandidate(kind) =>
         && c.state.SemanticState? && c.state.semanticKind == kind && !Ambiguous(c.state)
         && Continues(c, kind)
         && (kind.Fact? ==> HasRole(c.evidence, ExplicitFactStatement))
  }

  /** The gate plans a write exactly for the candidates that may be written, and accepts no other. */
  lemma PlannedExactlyWhen(c: Candidate, s: Snapshot)
    ensures !Evaluate(c, s).plan.action.NoAction? <==> MayBeWritten(c, s)
    ensures Evaluate(c, s).status.Accepted? ==> MayBeWritten(c, s)
  {
    EvidenceAccepted(c.evidence, s);
    forall e | e in c.evidence ensures EvidenceError(e, s).None? <==> Usable(e, s) {
    }
    if MayBeWritten(c, s) {
      assert c.evidence[0] in c.evidence && Usable(c.evidence[0], s);
    }
  }

  /** An established boundary is never changed by the gate alone. */
  lemma BoundariesAreNeverWithdrawnHere(c: Candidate, s: Snapshot)
    requires c.kind.BoundaryCandidate? && c.target.Some?
    ensures Evaluate(c, s).plan.action.NoAction? && !Evaluate(c, s).status.Accepted?
  {
  }
}
