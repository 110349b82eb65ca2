/**
 Hiding expired retention roots. Hiding a root invalidates what it owns and what was derived from it in
 the same transaction, so nothing that rests on a hidden root can be used again.
 */
module AiRetention {
  import opened Options
  import opened OutputEligibility

  datatype RootKind = JobRoot | SnapshotRoot | MemoryRootKind

  datatype RetentionError = NotExpired | CleanupIdentityMismatch

  /** Where a root stands: its expiry, its state and the cleanup that claimed it. */
  datatype RootView = RootView(expiresAt: Instant, retention: RetentionState, cleanupRequest: Option<Id>)

  function ReadRoot(s: Store, kind: RootKind, id: Id): Option<RootView> {
    match kind
    case JobRoot =>
      if id in s.jobs then Some(RootView(s.jobs[id].expiresAt, s.jobs[id].retention, s.jobs[id].cleanupRequest)) else None
    case SnapshotRoot =>
      if id in s.snapshots
      then Some(RootView(s.snapshots[id].expiresAt, s.snapshots[id].retention, s.snapshots[id].cleanupRequest)) else None
    case MemoryRootKind =>
      if id in s.memoryRoots
      then Some(RootView(s.memoryRoots[id].expiresAt, s.memoryRoots[id].retention, s.memoryRoots[id].cleanupRequest)) else None
  }

  function MarkHidden(s: Store, kind: RootKind, id: Id, request: Id): Store
    requires ReadRoot(s, kind, id).Some?
  {
    match kind
    case JobRoot => s.(jobs := s.jobs[id := s.jobs[id].(retention := Hidden, cleanupRequest := Some(request))])
    case SnapshotRoot =>
      s.(snapshots := s.snapshots[id := s.snapshots[id].(retention := Hidden, cleanupRequest := Some(request))])
    case MemoryRootKind =>
      s.(memoryRoots := s.memoryRoots[id := s.memoryRoots[id].(retention := Hidden, cleanupRequest := Some(request))])
  }

  // ---------------------------------------------------------------- what rests on a job

  predicate ResolutionOfJob(s: Store, jobId: Id, resolutionId: Id) {
    resolutionId in s.resolutions && s.resolutions[resolutionId].jobId == Some(jobId)
  }

  /** The output was given a memory the job wrote. */
  predicate UsesMemoryOf(s: Store, jobId: Id, o: Output) {
    exists d :: d in o.memoryDeps && d in s.memoryInputs && ResolutionOfJob(s, jobId, s.memoryInputs[d].resolutionId)
  }

  /** The output was given a question the job analysed. */
  predicate UsesQuestionOf(s: Store, jobId: Id, o: Output) {
    exists q :: q in o.questionDeps && q.targetId in s.questions && s.questions[q.targetId].analysisId in s.analyses
      && s.analyses[s.questions[q.targetId].analysisId].jobId == jobId
  }

  /** The output is a resolution over a claim the job wrote. */
  predicate ResolvesClaimOf(s: Store, jobId: Id, outputId: Id) {
    exists r :: r in s.resolutions && s.resolutions[r].outputId == Some(outputId)
      && exists c :: c in s.resolutions[r].claimIds && c in s.claims && s.claims[c].jobId == jobId
  }

  predicate DerivedFromJob(s: Store, jobId: Id, outputId: Id) {
    && outputId in s.outputs
    && (|| UsesMemoryOf(s, jobId, s.outputs[outputId])
        || UsesQuestionOf(s, jobId, s.outputs[outputId])
        || ResolvesClaimOf(s, jobId, outputId))
  }

  predicate UsesSnapshot(o: Output, snapshotId: Id) {
    exists q :: q in o.questionDeps && q.kind.DisplaySnapshotTarget? && q.targetId == snapshotId
  }

  function SupersededOf(resolutions: map<Id, Resolution>, jobId: Id): map<Id, Resolution> {
    map k | k in resolutions ::
      if resolutions[k].jobId == Some(jobId) then resolutions[k].(current := false) else resolutions[k]
  }

  function WithdrawnOf(analyses: map<Id, Analysis>, jobId: Id): map<Id, Analysis> {
    map k | k in analyses :: if analyses[k].jobId == jobId then analyses[k].(published := false) else analyses[k]
  }

  function InvalidatedOf(outputs: map<Id, Output>, jobId: Id): map<Id, Output> {
    map k | k in outputs :: if outputs[k].jobId == jobId then outputs[k].(current := false) else outputs[k]
  }

  function DependentsInvalidated(s: Store, jobId: Id): map<Id, Output> {
    map k | k in s.outputs :: if DerivedFromJob(s, jobId, k) then s.outputs[k].(current := false) else s.outputs[k]
  }

  /** Everything resting on the job is invalidated at once. */
  function DetachJob(s: Store, jobId: Id): Store {
    s.(outputs := map k | k in s.outputs ::
         if s.outputs[k].jobId == jobId || DerivedFromJob(s, jobId, k) then s.outputs[k].(current := false) else s.outputs[k],
       resolutions := SupersededOf(s.resolutions, jobId),
       analyses := WithdrawnOf(s.analyses, jobId))
  }

  function Detach(s: Store, kind: RootKind, id: Id): Store {
    match kind
    case JobRoot => DetachJob(s, id)
    case SnapshotRoot =>
      s.(outputs := map k | k in s.outputs ::
           if UsesSnapshot(s.outputs[k], id) then s.outputs[k].(current := false) else s.outputs[k])
    case MemoryRootKind =>
      s.(resolutions := map k | k in s.resolutions ::
           if s.resolutions[k].rootId == Some(id) then s.resolutions[k].(current := false) else s.resolutions[k])
  }

  function HideExpired(s: Store, kind: RootKind, id: Id, request: Id, now: Instant): Result<Store, RetentionError> {
    var root := ReadRoot(s, kind, id);
    if root.None? then Ok(s)
    else if root.value.expiresAt > now then Err(NotExpired)
    else if root.value.cleanupRequest.Some? && root.value.cleanupRequest != Some(request) then Err(CleanupIdentityMismatch)
    else if root.value.retention.Hidden? || root.value.retention.CleanupFailed? then Ok(s)
    else Ok(Detach(MarkHidden(s, kind, id, request), kind, id))
  }

  class RetentionService {
    var s: Store

    constructor (initial: Store)
      ensures s == initial
    {
      s := initial;
    }

    /** The updates of one detached job, table by table. */
    method DetachJobRows(jobId: Id)
      modifies this
      ensures s == DetachJob(old(s), jobId)
    {
      ghost var before := s;
      s := s.(outputs := InvalidatedOf(s.outputs, jobId));
      s := s.(resolutions := SupersededOf(s.resolutions, jobId));
      s := s.(analyses := WithdrawnOf(s.analyses, jobId));
      DetachedInSteps(before, s, jobId);
      s := s.(outputs := DependentsInvalidated(s, jobId));
    }

    method Hide(kind: RootKind, id: Id, request: Id, now: Instant) returns (r: Check<RetentionError>)
      modifies this
      ensures match HideExpired(old(s), kind, id, request, now)
              case Ok(after) => s == after && r == Pass
              case Err(error) => s == old(s) && r == Fail(error)
    {
      var root := ReadRoot(s, kind, id);
      if root.None? { return Pass; }
      if root.value.expiresAt > now { return Fail(NotExpired); }
      if root.value.cleanupRequest.Some? && root.value.cleanupRequest != Some(request) { return Fail(CleanupIdentityMismatch); }
      if root.value.retention.Hidden? || root.value.retention.CleanupFailed? { return Pass; }
      s := MarkHidden(s, kind, id, request);
      if kind.JobRoot? {
        DetachJobRows(id);
      } else {
        s := Detach(s, kind, id);
      }
      return Pass;
    }
  }

  lemma OwnRowsDegrade(a: Store, b: Store, jobId: Id)
    requires b == a.(outputs := InvalidatedOf(a.outputs, jobId), resolutions := SupersededOf(a.resolutions, jobId),
                     analyses := WithdrawnOf(a.analyses, jobId))
    ensures Degrades(a, b) && a.outputs.Keys == b.outputs.Keys
  {
  }

  /** Invalidating the dependents last, after the job's own rows, ends in the same place. */
  lemma DetachedInSteps(a: Store, b: Store, jobId: Id)
    requires b == a.(outputs := InvalidatedOf(a.outputs, jobId), resolutions := SupersededOf(a.resolutions, jobId),
                     analyses := WithdrawnOf(a.analyses, jobId))
    ensures b.(outputs := DependentsInvalidated(b, jobId)) == DetachJob(a, jobId)
  {
    OwnRowsDegrade(a, b, jobId);
    DependentsUnmoved(a, b, jobId);
    assert DependentsInvalidated(b, jobId) == DetachJob(a, jobId).outputs;
  }

  /** Superseding and withdrawing do not change which outputs rest on a job. */
  lemma DependentsUnmoved(a: Store, b: Store, jobId: Id)
    requires Degrades(a, b) && a.outputs.Keys == b.outputs.Keys
    ensures forall k :: k in a.outputs ==> (DerivedFromJob(a, jobId, k) <==> DerivedFromJob(b, jobId, k))
  {
    forall k | k in a.outputs ensures DerivedFromJob(a, jobId, k) <==> DerivedFromJob(b, jobId, k) {
      var o, p := a.outputs[k], b.outputs[k];
      assert o.memoryDeps == p.memoryDeps && o.questionDeps == p.questionDeps;
      forall r ensures ResolutionOfJob(a, jobId, r) <==> ResolutionOfJob(b, jobId, r) {
      }
    }
  }

  // ---------------------------------------------------------------- properties

  lemma DegradesTwice(a: Store, b: Store, c: Store)
    requires Degrades(a, b) && Degrades(b, c)
    ensures Degrades(a, c)
  {
  }

  lemma MarkingDegrades(s: Store, kind: RootKind, id: Id, request: Id)
    requires ReadRoot(s, kind, id).Some?
    ensures Degrades(s, MarkHidden(s, kind, id, request))
  {
  }

  lemma DetachingDegrades(s: Store, kind: RootKind, id: Id)
    ensures Degrades(s, Detach(s, kind, id))
  {
    if kind.JobRoot? {
      assert OutputsDegrade(s.outputs, DetachJob(s, id).outputs);
    }
  }

  lemma HidingDegrades(s: Store, kind: RootKind, id: Id, request: Id, now: Instant)
    requires HideExpired(s, kind, id, request, now).Ok?
    ensures Degrades(s, HideExpired(s, kind, id, request, now).value)
  {
    if HideExpired(s, kind, id, request, now).value != s {
      MarkingDegrades(s, kind, id, request);
      DetachingDegrades(MarkHidden(s, kind, id, request), kind, id);
      DegradesTwice(s, MarkHidden(s, kind, id, request), HideExpired(s, kind, id, request, now).value);
    }
  }

  /** Hiding any root, at any later time, never makes an output eligible. */
  lemma HidingNeverRevives(s: Store, rank: map<Id, nat>, kind: RootKind, id: Id, request: Id, first: Ask, second: Ask, output: Id)
    requires Acyclic(s, rank) && HideExpired(s, kind, id, request, second.now).Ok? && LaterAsk(first, second)
    ensures Acyclic(HideExpired(s, kind, id, request, second.now).value, rank)
    ensures Eligible(HideExpired(s, kind, id, request, second.now).value, rank, second, output) ==>
              Eligible(s, rank, first, output)
  {
    var after := HideExpired(s, kind, id, request, second.now).value;
    HidingDegrades(s, kind, id, request, second.now);
    DegradedIsAcyclic(s, after, rank);
    if Eligible(after, rank, second, output) {
      NothingBecomesEligible(s, after, rank, first, second, output);
    }
  }

  /** What rests on the hidden job: its own outputs and those derived from its memories, questions or claims. */
  predicate RestsOnJob(s: Store, jobId: Id, output: Id) {
    output in s.outputs && (s.outputs[output].jobId == jobId || DerivedFromJob(s, jobId, output))
  }

  /**
   After an expired job is hidden, everything that rests on it is ineligible, and so is every output
   that reaches such an output through the recursion.
   */
  lemma HiddenJobEndsItsDependents(s: Store, rank: map<Id, nat>, jobId: Id, request: Id, now: Instant, ask: Ask,
                                   direct: Id, output: Id)
    requires Acyclic(s, rank) && jobId in s.jobs
    requires s.jobs[jobId].expiresAt <= now && (s.jobs[jobId].retention.Active? || s.jobs[jobId].retention.Purging?)
    requires HideExpired(s, JobRoot, jobId, request, now).Ok?
    requires RestsOnJob(s, jobId, direct)
    ensures Acyclic(HideExpired(s, JobRoot, jobId, request, now).value, rank)
    ensures var after := HideExpired(s, JobRoot, jobId, request, now).value;
            && !Eligible(after, rank, ask, direct)
            && (Reaches(after, rank, output, direct) ==> !Eligible(after, rank, ask, output))
  {
    var after := HideExpired(s, JobRoot, jobId, request, now).value;
    HidingDegrades(s, JobRoot, jobId, request, now);
    DegradedIsAcyclic(s, after, rank);
    var hidden := MarkHidden(s, JobRoot, jobId, request);
    DependentsUnmoved(s, hidden, jobId);
    assert !after.outputs[direct].current;
    if Reaches(after, rank, output, direct) {
      IneligibilitySpreads(after, rank, ask, output, direct);
    }
  }
}
