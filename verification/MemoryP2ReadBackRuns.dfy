/**
 Committed layers stay readable: over any run in which callers terminalize a job together with its own
 trace, a layer that could be read is read unchanged for as long as its revision and resolution are
 current and its job is retained and unexpired.
 */
module MemoryP2ReadBackRuns {
  import opened Options
  import opened MemoryP2Traces
  import opened MemoryP2Recovery
  import opened RevisionChains
  import opened MemoryP2Store
  import opened MemoryP2Writes
  import opened MemoryP2Runs
  import opened MemoryP2Chains
  import opened MemoryP2Reader
  import opened MemoryP2ReadBack

  /** Terminalizing does not itself check that the trace is the job's, so the caller has to. */
  ghost predicate OwnAllowed(s: State, step: Step) {
    && Allowed(s, step)
    && (step.TerminalizeJob? ==> TraceIs(s.db, step.terminalize.aiJobId, step.terminalize.traceId))
  }

  // ---------------------------------------------------------------- what a step on job j leaves alone

  ghost predicate Extended<T(!new)>(a: seq<T>, b: seq<T>) {
    |a| <= |b| && forall i :: 0 <= i < |a| ==> b[i] == a[i]
  }

  ghost predicate RevisionsKept(a: seq<LayerRevision>, b: seq<LayerRevision>) {
    && |a| <= |b|
    && forall i :: 0 <= i < |a| ==> b[i] == a[i] || b[i] == a[i].(link := a[i].link.(current := false))
  }

  ghost predicate ResolutionsKept(a: seq<Resolution>, b: seq<Resolution>) {
    && |a| <= |b|
    && forall i :: 0 <= i < |a| ==> b[i] == a[i] || b[i] == a[i].(link := a[i].link.(current := false))
  }

  ghost predicate Includes<T(!new)>(a: map<Id, T>, b: map<Id, T>) {
    forall k :: k in a ==> k in b && b[k] == a[k]
  }

  ghost predicate IncludesBut<T(!new)>(a: map<Id, T>, b: map<Id, T>, j: Id) {
    forall k :: k in a && k != j ==> k in b && b[k] == a[k]
  }

  ghost predicate TracesKept(a: map<Id, Trace>, b: map<Id, Trace>, j: Id) {
    forall t :: t in a && a[t].aiJobId != j ==> t in b && b[t] == a[t]
  }

  ghost predicate CheckpointsKept(a: map<Id, Checkpoint>, b: map<Id, Checkpoint>) {
    forall c :: c in a && a[c].status.CpCommitted? ==> c in b && b[c] == a[c]
  }

  ghost predicate RowsKept(a: Db, b: Db) {
    && Extended(a.identities, b.identities)
    && Extended(a.claims, b.claims)
    && Extended(a.evidences, b.evidences)
    && RevisionsKept(a.revisions, b.revisions)
    && ResolutionsKept(a.resolutions, b.resolutions)
  }

  ghost predicate TablesKept(a: Db, b: Db, j: Id) {
    && a.migrationCompleted == b.migrationCompleted
    && Includes(a.inputs, b.inputs)
    && IncludesBut(a.jobs, b.jobs, j)
    && IncludesBut(a.projections, b.projections, j)
    && IncludesBut(a.traceByJob, b.traceByJob, j)
    && IncludesBut(a.retention, b.retention, j)
    && IncludesBut(a.longs, b.longs, j)
    && TracesKept(a.traces, b.traces, j)
    && CheckpointsKept(a.checkpoints, b.checkpoints)
  }

  lemma KeptTwice(a: Db, b: Db, c: Db, j: Id)
    requires RowsKept(a, b) && RowsKept(b, c)
    ensures RowsKept(a, c)
  {
  }

  lemma TablesKeptTwice(a: Db, b: Db, c: Db, j: Id)
    requires TablesKept(a, b, j) && TablesKept(b, c, j)
    ensures TablesKept(a, c, j)
  {
  }

  lemma CreatedClaimsExtend(inputs: map<Id, InputSegment>, input: CommitInput, s: ClaimState, rest: seq<ClaimInput>)
    requires OrdersUnique(inputs) && s.members == [] && CreateClaims(inputs, input, s, rest).Ok?
    ensures Extended(s.claims, CreateClaims(inputs, input, s, rest).value.claims)
    ensures Extended(s.evidences, CreateClaims(inputs, input, s, rest).value.evidences)
  {
    ClaimsCreated(inputs, input, s, rest);
    var last := CreateClaims(inputs, input, s, rest).value;
    forall i | 0 <= i < |s.claims| ensures last.claims[i] == s.claims[i] {
      assert last.claims[..|s.claims|][i] == s.claims[i];
    }
    forall i | 0 <= i < |s.evidences| ensures last.evidences[i] == s.evidences[i] {
      assert last.evidences[..|s.evidences|][i] == s.evidences[i];
    }
  }

  lemma TargetKeepsRows(db: Db, input: CommitInput, plan: TargetPlan)
    requires PlanFits(db, plan) && PlanNames(db, input, plan)
    requires Extended(db.claims, plan.claims.claims) && Extended(db.evidences, plan.claims.evidences)
    ensures RowsKept(db, WithTarget(db, input, plan))
  {
    var after := WithTarget(db, input, plan);
    forall i | 0 <= i < |db.identities| ensures after.identities[i] == db.identities[i] {
      assert plan.identities[..|db.identities|][i] == db.identities[i];
    }
  }

  lemma AfterTargetKeepsTables(db: Db, input: CommitInput, plan: TargetPlan, now: Instant, finalize: bool)
    requires PlanFits(db, plan) && input.checkpointId in db.checkpoints && CommitAdmitted(db, input, now)
    ensures var after, targeted := AfterTarget(db, input, plan, now, finalize), WithTarget(db, input, plan);
            && TablesKept(db, after, input.aiJobId) && after.inputs == db.inputs
            && after.identities == targeted.identities && after.claims == targeted.claims
            && after.evidences == targeted.evidences && after.revisions == targeted.revisions
            && after.resolutions == targeted.resolutions
  {
  }

  lemma CommitTargetKeeps(db: Db, input: CommitInput, seen: CommitReads, now: Instant, finalize: bool)
    requires ChainsOk(db) && OrdersUnique(db.inputs)
    requires CommitTarget(db, input, seen, now, finalize).Ok? && !JobSucceeded(db, input.aiJobId)
    ensures var after := CommitTarget(db, input, seen, now, finalize).value.0;
            && RowsKept(db, after) && TablesKept(db, after, input.aiJobId)
            && ChainsOk(after) && after.inputs == db.inputs
  {
    TargetParts(db, input, seen, now, finalize);
    PlanParts(db, input, seen);
    PlannedTargetNames(db, input, seen);
    var plan := PlanTarget(db, input, seen).value;
    CreatedClaimsExtend(db.inputs, input, ClaimState(db.claims, db.evidences, []), input.claims);
    TargetKeepsRows(db, input, plan);
    AfterTargetKeepsTables(db, input, plan, now, finalize);
    CommitTargetKeepsChains(db, input, seen, now, finalize);
  }

  lemma {:induction false} CommitTargetsKeep(db: Db, targets: seq<(CommitInput, CommitReads)>, results: seq<CommitResult>,
                                             now: Instant, j: Id)
    requires ChainsOk(db) && OrdersUnique(db.inputs) && targets != []
    requires forall i :: 0 <= i < |targets| ==> targets[i].0.aiJobId == j
    requires CommitTargets(db, targets, results, now).Ok? && !JobSucceeded(db, j)
    ensures var after := CommitTargets(db, targets, results, now).value.0;
            RowsKept(db, after) && TablesKept(db, after, j)
    decreases |targets|
  {
    CommitTargetKeeps(db, targets[0].0, targets[0].1, now, |targets| == 1);
    TargetWritten(db, targets[0].0, targets[0].1, now, |targets| == 1);
    var next := CommitTarget(db, targets[0].0, targets[0].1, now, |targets| == 1).value;
    if |targets| > 1 {
      CommitTargetsKeep(next.0, targets[1..], results + [next.1], now, j);
      var after := CommitTargets(db, targets, results, now).value.0;
      KeptTwice(db, next.0, after, j);
      TablesKeptTwice(db, next.0, after, j);
    }
  }

  // ---------------------------------------------------------------- the invariant over steps

  ghost predicate TracesBelong(a: Db, b: Db, j: Id) {
    forall t :: t in b.traces ==>
      if b.traces[t].aiJobId == j then j in b.projections && TraceIs(b, j, t)
      else t in a.traces && b.traces[t].aiJobId == a.traces[t].aiJobId
  }

  /** A step on job j only has to re-establish what concerns job j. */
  lemma InvKept(a: Db, b: Db, j: Id)
    requires ReadBackInv(a) && TablesKept(a, b, j) && ChainsOk(b)
    requires OrdersUnique(b.inputs) && InputsOwned(b)
    requires b.projections.Keys <= a.projections.Keys + {j}
    requires j in b.projections ==> JobTraced(b, j)
    requires TracesBelong(a, b, j)
    ensures ReadBackInv(b)
  {
    forall k | k in b.projections ensures JobTraced(b, k) {
      if k != j {
        assert JobTraced(a, k);
      }
    }
    forall t | t in b.traces ensures b.traces[t].aiJobId in b.projections && TraceIs(b, b.traces[t].aiJobId, t) {
      if b.traces[t].aiJobId != j {
        assert TraceIs(a, a.traces[t].aiJobId, t);
      }
    }
  }

  lemma AdmittedInputs(db: Db, jobId: Id, segments: map<Id, InputSegment>)
    requires OrdersUnique(db.inputs) && InputsOwned(db) && jobId !in db.jobs && FreshSegments(db, jobId, segments)
    ensures OrdersUnique(db.inputs + segments)
  {
  }

  lemma AdmitKeeps(db: Db, jobId: Id, job: Job, segments: map<Id, InputSegment>)
    requires ReadBackInv(db) && jobId !in db.jobs && jobId !in db.projections && FreshSegments(db, jobId, segments)
    ensures var after := db.(jobs := db.jobs[jobId := job], inputs := db.inputs + segments);
            RowsKept(db, after) && TablesKept(db, after, jobId) && ReadBackInv(after)
  {
    var after := db.(jobs := db.jobs[jobId := job], inputs := db.inputs + segments);
    SameChainsOk(db, after);
    AdmittedInputs(db, jobId, segments);
    assert TracesBelong(db, after, jobId);
    InvKept(db, after, jobId);
  }

  lemma NewTraceBelongs(db: Db, after: Db, j: Id, t: Id)
    requires ReadBackInv(db) && j !in db.projections && j in after.projections && t !in db.traces && t in after.traces
    requires after.traces == db.traces[t := after.traces[t]] && after.traceByJob == db.traceByJob[j := t]
    requires after.traces[t].aiJobId == j
    ensures TracesBelong(db, after, j)
  {
    assert forall u :: u in db.traces ==> db.traces[u].aiJobId in db.projections;
  }

  lemma FrozenTables(db: Db, input: FreezeInput, job: Job, now: Instant)
    requires input.aiJobId in db.jobs && db.jobs[input.aiJobId] == job
    requires JobAdmitsFreeze(job, input) && SourcesOrdered(input.sources)
    requires SourcesInScope(input.sources, input.deletionScopeDigest)
    requires input.checkpointId !in db.checkpoints && input.traceId !in db.traces
    ensures var after := FrozenDb(db, input, job, now);
            && SameChains(db, after) && RowsKept(db, after) && TablesKept(db, after, input.aiJobId)
            && JobTraced(after, input.aiJobId)
  {
  }

  lemma FreezeKeeps(db: Db, input: FreezeInput, now: Instant)
    requires ReadBackInv(db) && Kept(FreezeCheckpoint(db, input, now), db) != db
    ensures var after, j := Kept(FreezeCheckpoint(db, input, now), db), input.aiJobId;
            && RowsKept(db, after) && TablesKept(db, after, j) && ReadBackInv(after)
            && j !in db.projections
  {
    FreezeIsAdmitted(db, input, now);
    FrozenKeeps(db, input, db.jobs[input.aiJobId], now);
  }

  lemma FreezeIsAdmitted(db: Db, input: FreezeInput, now: Instant)
    requires Kept(FreezeCheckpoint(db, input, now), db) != db
    ensures input.aiJobId in db.jobs && JobAdmitsFreeze(db.jobs[input.aiJobId], input) && SourcesOrdered(input.sources)
    ensures SourcesInScope(input.sources, input.deletionScopeDigest)
    ensures input.checkpointId !in db.checkpoints && input.traceId !in db.traces && input.aiJobId !in db.projections
    ensures Kept(FreezeCheckpoint(db, input, now), db) == FrozenDb(db, input, db.jobs[input.aiJobId], now)
  {
  }

  lemma FrozenKeeps(db: Db, input: FreezeInput, job: Job, now: Instant)
    requires ReadBackInv(db) && input.aiJobId in db.jobs && db.jobs[input.aiJobId] == job
    requires JobAdmitsFreeze(job, input) && SourcesOrdered(input.sources)
    requires SourcesInScope(input.sources, input.deletionScopeDigest)
    requires input.checkpointId !in db.checkpoints && input.traceId !in db.traces && input.aiJobId !in db.projections
    ensures var after, j := FrozenDb(db, input, job, now), input.aiJobId;
            RowsKept(db, after) && TablesKept(db, after, j) && ReadBackInv(after)
  {
    var after := FrozenDb(db, input, job, now);
    FrozenTables(db, input, job, now);
    SameChainsOk(db, after);
    NewTraceBelongs(db, after, input.aiJobId, input.traceId);
    InvKept(db, after, input.aiJobId);
  }

  lemma FrozenLongTables(db: Db, input: FreezeLongInput, now: Instant)
    requires JobAdmitsLongFreeze(db, input) && SourcesOrdered(input.sources) && input.traceId !in db.traces
    requires SourcesInScope(input.sources, input.deletionScopeDigest)
    ensures var after := FrozenLongDb(db, input, now);
            && SameChains(db, after) && RowsKept(db, after) && TablesKept(db, after, input.aiJobId)
            && JobTraced(after, input.aiJobId)
  {
  }

  lemma FreezeLongKeeps(db: Db, input: FreezeLongInput, now: Instant)
    requires ReadBackInv(db) && Kept(FreezeLongJob(db, input, now), db) != db
    ensures var after, j := Kept(FreezeLongJob(db, input, now), db), input.aiJobId;
            && RowsKept(db, after) && TablesKept(db, after, j) && ReadBackInv(after)
            && j !in db.projections
  {
    var after := Kept(FreezeLongJob(db, input, now), db);
    FrozenLongTables(db, input, now);
    SameChainsOk(db, after);
    NewTraceBelongs(db, after, input.aiJobId, input.traceId);
    InvKept(db, after, input.aiJobId);
  }

  ghost predicate CommitTraced(db: Db, after: Db, j: Id) {
    && after.projections.Keys == db.projections.Keys
    && after.traceByJob == db.traceByJob
    && after.traces.Keys == db.traces.Keys
    && (forall t :: t in db.traces ==>
          after.traces[t].aiJobId == db.traces[t].aiJobId && after.traces[t].shape == db.traces[t].shape)
    && j in after.projections && j in db.jobs && j in after.jobs
    && after.projections[j].jobKind == db.projections[j].jobKind && after.jobs[j].jobType == db.jobs[j].jobType
  }

  lemma CommitTargetTraced(db: Db, input: CommitInput, seen: CommitReads, now: Instant, finalize: bool)
    requires CommitTarget(db, input, seen, now, finalize).Ok? && !JobSucceeded(db, input.aiJobId)
    ensures var after := CommitTarget(db, input, seen, now, finalize).value.0;
            && CommitTraced(db, after, input.aiJobId)
            && input.traceId in db.traces && db.traces[input.traceId].aiJobId == input.aiJobId
            && (finalize ==> after.traces[input.traceId].status.Succeeded?)
  {
    TargetParts(db, input, seen, now, finalize);
  }

  lemma {:induction false} CommitTargetsTraced(db: Db, targets: seq<(CommitInput, CommitReads)>, results: seq<CommitResult>,
                                               now: Instant, j: Id)
    requires targets != [] && forall i :: 0 <= i < |targets| ==> targets[i].0.aiJobId == j
    requires CommitTargets(db, targets, results, now).Ok? && !JobSucceeded(db, j)
    ensures var after := CommitTargets(db, targets, results, now).value.0;
            && CommitTraced(db, after, j)
            && exists t :: t in db.traces && db.traces[t].aiJobId == j && after.traces[t].status.Succeeded?
    decreases |targets|
  {
    CommitTargetTraced(db, targets[0].0, targets[0].1, now, |targets| == 1);
    TargetWritten(db, targets[0].0, targets[0].1, now, |targets| == 1);
    var next := CommitTarget(db, targets[0].0, targets[0].1, now, |targets| == 1).value;
    if |targets| > 1 {
      CommitTargetsTraced(next.0, targets[1..], results + [next.1], now, j);
      var t :| t in next.0.traces && next.0.traces[t].aiJobId == j
               && CommitTargets(db, targets, results, now).value.0.traces[t].status.Succeeded?;
      assert t in db.traces && db.traces[t].aiJobId == j;
    } else {
      assert CommitTargets(db, targets, results, now).value.0 == next.0;
    }
  }

  lemma CommitKeeps(db: Db, targets: seq<(CommitInput, CommitReads)>, now: Instant)
    requires ReadBackInv(db) && Kept(CommitLayerRevisions(db, targets, now), db) != db
    requires forall i :: 0 <= i < |targets| ==> targets[i].0.aiJobId == targets[0].0.aiJobId
    ensures targets != []
    ensures var after, j := Kept(CommitLayerRevisions(db, targets, now), db), targets[0].0.aiJobId;
            && RowsKept(db, after) && TablesKept(db, after, j) && ReadBackInv(after)
            && !JobSucceeded(db, j)
  {
    var after, j := CommitLayerRevisions(db, targets, now).value.0, targets[0].0.aiJobId;
    if JobSucceeded(db, j) {
      TargetsReplayed(db, targets, [], now, j);
      assert false;
    }
    CommitTargetsKeep(db, targets, [], now, j);
    CommitTargetsKeepChains(db, targets, [], now);
    CommitTargetsTraced(db, targets, [], now, j);
    TargetsWritten(db, targets, [], now, j);
    CommitKeepsInputs(db, targets, [], now);
    CommittedKeeps(db, after, j);
  }

  lemma CommittedKeeps(db: Db, after: Db, j: Id)
    requires ReadBackInv(db) && ChainsOk(after) && TablesKept(db, after, j) && after.inputs == db.inputs
    requires CommitTraced(db, after, j) && JobSucceeded(after, j) && JobsChangeOnlyAt(db, after, j, true)
    requires exists t :: t in db.traces && db.traces[t].aiJobId == j && after.traces[t].status.Succeeded?
    ensures ReadBackInv(after)
  {
    CommittedJobTraced(db, after, j);
    InvKept(db, after, j);
  }

  lemma {:induction false} CommitKeepsInputs(db: Db, targets: seq<(CommitInput, CommitReads)>, results: seq<CommitResult>,
                                             now: Instant)
    requires CommitTargets(db, targets, results, now).Ok?
    ensures CommitTargets(db, targets, results, now).value.0.inputs == db.inputs
    decreases |targets|
  {
    if targets != [] {
      var next := CommitTarget(db, targets[0].0, targets[0].1, now, |targets| == 1).value;
      if !JobSucceeded(db, targets[0].0.aiJobId) {
        TargetParts(db, targets[0].0, targets[0].1, now, |targets| == 1);
      }
      CommitKeepsInputs(next.0, targets[1..], results + [next.1], now);
    }
  }

  lemma CommittedJobTraced(db: Db, after: Db, j: Id)
    requires ReadBackInv(db) && CommitTraced(db, after, j) && JobSucceeded(after, j)
    requires exists t :: t in db.traces && db.traces[t].aiJobId == j && after.traces[t].status.Succeeded?
    ensures JobTraced(after, j) && TracesBelong(db, after, j)
  {
    var t :| t in db.traces && db.traces[t].aiJobId == j && after.traces[t].status.Succeeded?;
    assert TraceIs(db, j, t) && JobTraced(db, j);
    forall u | u in after.traces && after.traces[u].aiJobId == j ensures TraceIs(after, j, u) {
      assert TraceIs(db, j, u);
    }
  }

  /** Only rows of job j, and among traces only its own, are rewritten in place. */
  ghost predicate OnlyJob(a: Db, b: Db, j: Id) {
    && b == a.(jobs := b.jobs, projections := b.projections, traces := b.traces)
    && b.jobs.Keys == a.jobs.Keys && IncludesBut(a.jobs, b.jobs, j)
    && b.projections.Keys == a.projections.Keys && IncludesBut(a.projections, b.projections, j)
    && b.traces.Keys == a.traces.Keys
    && (forall t :: t in a.traces ==> b.traces[t].aiJobId == a.traces[t].aiJobId)
    && TracesKept(a.traces, b.traces, j)
  }

  lemma OnlyJobKeeps(a: Db, b: Db, j: Id)
    requires ReadBackInv(a) && OnlyJob(a, b, j) && (j in b.projections ==> JobTraced(b, j))
    ensures RowsKept(a, b) && TablesKept(a, b, j) && ReadBackInv(b)
  {
    SameChainsOk(a, b);
    forall u | u in b.traces && b.traces[u].aiJobId == j ensures TraceIs(b, j, u) && j in b.projections {
      assert TraceIs(a, j, u);
    }
    InvKept(a, b, j);
  }

  lemma TerminalizedJob(db: Db, input: TerminalizeInput, now: Instant)
    requires TerminalizeStatus(input.status) && Terminalize(db, input, now).Ok? && Terminalize(db, input, now).value != db
    requires input.aiJobId in db.projections && JobTraced(db, input.aiJobId) && TraceIs(db, input.aiJobId, input.traceId)
    ensures var after := Terminalize(db, input, now).value;
            OnlyJob(db, after, input.aiJobId) && JobTraced(after, input.aiJobId) && !JobSucceeded(db, input.aiJobId)
  {
  }

  lemma TerminalizeKeeps(db: Db, input: TerminalizeInput, now: Instant)
    requires ReadBackInv(db) && TerminalizeStatus(input.status) && TraceIs(db, input.aiJobId, input.traceId)
    requires Terminalize(db, input, now).Ok? && Terminalize(db, input, now).value != db
    ensures var after, j := Terminalize(db, input, now).value, input.aiJobId;
            && RowsKept(db, after) && TablesKept(db, after, j) && ReadBackInv(after)
            && !JobSucceeded(db, j)
  {
    assert JobTraced(db, input.aiJobId);
    TerminalizedJob(db, input, now);
    OnlyJobKeeps(db, Terminalize(db, input, now).value, input.aiJobId);
  }

  lemma ClaimedJob(db: Db, input: ClaimLeaseInput, now: Instant)
    requires LeaseClaimable(db, input, now) && ClaimRecoveryLease(db, input, now).Ok? && JobTraced(db, input.aiJobId)
    ensures var after := ClaimRecoveryLease(db, input, now).value.0;
            OnlyJob(db, after, input.aiJobId) && JobTraced(after, input.aiJobId)
  {
  }

  lemma ClaimKeeps(db: Db, input: ClaimLeaseInput, now: Instant)
    requires ReadBackInv(db) && Kept(ClaimRecoveryLease(db, input, now), db) != db
    ensures var after, j := Kept(ClaimRecoveryLease(db, input, now), db), input.aiJobId;
            && RowsKept(db, after) && TablesKept(db, after, j) && ReadBackInv(after)
            && !JobSucceeded(db, j)
  {
    assert JobTraced(db, input.aiJobId);
    ClaimedJob(db, input, now);
    OnlyJobKeeps(db, Kept(ClaimRecoveryLease(db, input, now), db), input.aiJobId);
  }

  /** Where every trace follows its job, only terminalizing commands ever pass the compare-and-set. */
  lemma OnlyTerminalizeApplies(s: State, step: Step)
    requires ReadBackInv(s.db) && step.Recover? && Allowed(s, step) && RecoveryAdmitted(s.db, step.command, step.rows)
    ensures step.command.kind.TerminalizeUncommitted?
    ensures step.command.jobId in s.db.jobs && s.db.jobs[step.command.jobId].status.Running?
  {
    var db, c := s.db, step.command;
    PlannedCommandShape(step.from, step.plannedAt);
    AdmittedRecovery(db, c, step.rows);
    AdmittedStatuses(db, c, step.rows);
    TraceFollowsJob(db, c.jobId);
  }

  lemma TraceFollowsJob(db: Db, j: Id)
    requires ReadBackInv(db) && j in db.projections
    ensures j in db.jobs && j in db.traceByJob && db.traceByJob[j] in db.traces
    ensures var job, trace := db.jobs[j], db.traces[db.traceByJob[j]];
            && (Live(job.status) ==> job.status.Running? && trace.status.Running? && trace.commitDigest.None?)
            && (!Live(job.status) ==> !trace.status.Running?)
  {
    assert JobTraced(db, j);
  }

  lemma AdmittedStatuses(db: Db, c: RecoveryCommand, rows: seq<ReferenceAuthority>)
    requires RecoveryAdmitted(db, c, rows) && c.jobId in db.traceByJob && db.traceByJob[c.jobId] in db.traces
    ensures Some(db.traces[db.traceByJob[c.jobId]].status) in c.expectedTraceStatuses
  {
  }

  lemma RecoveredJobTraced(db: Db, c: RecoveryCommand, rows: seq<ReferenceAuthority>)
    requires c.jobId in db.projections && JobTraced(db, c.jobId) && RecoveryAdmitted(db, c, rows)
    requires c.kind.TerminalizeUncommitted? && c.terminalStatus.Unavailable? && c.trace.parent.status.Unavailable?
    ensures var after := ApplyRecovery(db, c, rows).0;
            OnlyJob(db, after, c.jobId) && JobTraced(after, c.jobId)
  {
  }

  lemma RecoverKeeps(s: State, step: Step)
    requires ReadBackInv(s.db) && step.Recover? && Allowed(s, step)
    requires ApplyRecovery(s.db, step.command, step.rows).0 != s.db
    ensures var after, j := ApplyRecovery(s.db, step.command, step.rows).0, step.command.jobId;
            && RowsKept(s.db, after) && TablesKept(s.db, after, j) && ReadBackInv(after)
            && !JobSucceeded(s.db, j)
  {
    var db, c := s.db, step.command;
    PlannedCommandShape(step.from, step.plannedAt);
    assert RecoveryAdmitted(db, c, step.rows);
    OnlyTerminalizeApplies(s, step);
    AdmittedRecovery(db, c, step.rows);
    RecoveredJobTraced(db, c, step.rows);
    OnlyJobKeeps(db, ApplyRecovery(db, c, step.rows).0, c.jobId);
  }

  lemma AdvancedJob(db: Db, input: AdvanceInput, j: Id)
    requires input.traceId in db.traces && db.traces[input.traceId].aiJobId == j && TraceIs(db, j, input.traceId)
    requires j in db.projections && JobTraced(db, j) && AdvanceStage(db, input, true).0 != db
    ensures var after := AdvanceStage(db, input, true).0;
            OnlyJob(db, after, j) && JobTraced(after, j) && !JobSucceeded(db, j)
  {
  }

  lemma AdvanceKeeps(db: Db, input: AdvanceInput, authorized: bool)
    requires ReadBackInv(db) && AdvanceStage(db, input, authorized).0 != db
    ensures input.traceId in db.traces
    ensures var after, j := AdvanceStage(db, input, authorized).0, db.traces[input.traceId].aiJobId;
            && RowsKept(db, after) && TablesKept(db, after, j) && ReadBackInv(after)
            && !JobSucceeded(db, j)
  {
    var j := db.traces[input.traceId].aiJobId;
    assert TraceIs(db, j, input.traceId) && JobTraced(db, j);
    AdvancedJob(db, input, j);
    OnlyJobKeeps(db, AdvanceStage(db, input, true).0, j);
  }

  lemma HideKeeps(db: Db, j: Id)
    requires ReadBackInv(db) && j in db.jobs
    ensures var after := db.(jobs := db.jobs[j := db.jobs[j].(retentionState := Hidden)]);
            RowsKept(db, after) && TablesKept(db, after, j) && ReadBackInv(after)
  {
    if j in db.projections {
      assert JobTraced(db, j);
    }
    OnlyJobKeeps(db, db.(jobs := db.jobs[j := db.jobs[j].(retentionState := Hidden)]), j);
  }

  /**
   A step either changes nothing, or works on one job that had not succeeded (or is only being hidden)
   and leaves every other job's rows and every committed row in place.
   */
  lemma StepKeeps(s: State, step: Step) returns (j: Id)
    requires ReadBackInv(s.db) && OwnAllowed(s, step) && NextDb(s, step) != s.db
    ensures var after := NextDb(s, step);
            && RowsKept(s.db, after) && TablesKept(s.db, after, j) && ReadBackInv(after)
            && (JobSucceeded(s.db, j) && j in s.db.projections ==> step == Hide(j))
  {
    if step.Commit? || step.Freeze? || step.FreezeLong? || step.TerminalizeJob? {
      j := WorkerStepKeeps(s, step);
    } else {
      j := OtherStepKeeps(s, step);
    }
  }

  lemma WorkerStepKeeps(s: State, step: Step) returns (j: Id)
    requires ReadBackInv(s.db) && OwnAllowed(s, step) && NextDb(s, step) != s.db
    requires step.Commit? || step.Freeze? || step.FreezeLong? || step.TerminalizeJob?
    ensures var after := NextDb(s, step);
            && RowsKept(s.db, after) && TablesKept(s.db, after, j) && ReadBackInv(after)
            && !(JobSucceeded(s.db, j) && j in s.db.projections)
  {
    j := 0;
    match step
    case Freeze(input) => FreezeKeeps(s.db, input, s.now); j := input.aiJobId;
    case FreezeLong(input) => FreezeLongKeeps(s.db, input, s.now); j := input.aiJobId;
    case Commit(targets) => CommitKeeps(s.db, targets, s.now); j := targets[0].0.aiJobId;
    case TerminalizeJob(input) => TerminalizeKeeps(s.db, input, s.now); j := input.aiJobId;
  }

  lemma OtherStepKeeps(s: State, step: Step) returns (j: Id)
    requires ReadBackInv(s.db) && OwnAllowed(s, step) && NextDb(s, step) != s.db
    requires !(step.Commit? || step.Freeze? || step.FreezeLong? || step.TerminalizeJob?)
    ensures var after := NextDb(s, step);
            && RowsKept(s.db, after) && TablesKept(s.db, after, j) && ReadBackInv(after)
            && (JobSucceeded(s.db, j) && j in s.db.projections ==> step == Hide(j))
  {
    j := 0;
    match step
    case ClaimLease(input) => ClaimKeeps(s.db, input, s.now); j := input.aiJobId;
    case Recover(command, _, _, _) => RecoverKeeps(s, step); j := command.jobId;
    case Advance(input, authorized) => AdvanceKeeps(s.db, input, authorized); j := s.db.traces[input.traceId].aiJobId;
    case Wait(_) => assert false;
    case _ => j := JobStepKeeps(s, step);
  }

  lemma JobStepKeeps(s: State, step: Step) returns (j: Id)
    requires ReadBackInv(s.db) && OwnAllowed(s, step) && NextDb(s, step) != s.db && (step.Admit? || step.Hide?)
    ensures var after := NextDb(s, step);
            && RowsKept(s.db, after) && TablesKept(s.db, after, j) && ReadBackInv(after)
            && (JobSucceeded(s.db, j) && j in s.db.projections ==> step == Hide(j))
  {
    j := 0;
    match step
    case Admit(jobId, job, segments) => AdmitKeeps(s.db, jobId, job, segments); j := jobId;
    case Hide(jobId) => HideKeeps(s.db, jobId); j := jobId;
  }

  // ---------------------------------------------------------------- staying readable

  /** Nothing has superseded the layer's revision or its resolution, and its job is retained and unexpired. */
  ghost predicate StillCurrent(db: Db, v: ReadableLayer, now: Instant) {
    && v.revisionId < |db.revisions| && db.revisions[v.revisionId].link.current
    && v.resolutionId < |db.resolutions| && db.resolutions[v.resolutionId].link.current
    && var j := db.revisions[v.revisionId].sourceJobId;
    && j in db.jobs && db.jobs[j].retentionState.Active? && db.jobs[j].expiresAt > now
  }

  lemma ReadIsCurrent(db: Db, identityId: Id, now: Instant)
    requires ReadCurrentLayer(db, identityId, now).Some?
    ensures var v := ReadCurrentLayer(db, identityId, now).value;
            && StillCurrent(db, v, now)
            && CurrentRevision(db.revisions, identityId) == Some(v.revisionId)
            && JobSucceeded(db, db.revisions[v.revisionId].sourceJobId)
            && db.revisions[v.revisionId].sourceJobId in db.projections
            && db.revisions[v.revisionId].resolutionRowId == v.resolutionId
  {
  }

  lemma CurrentIsFound(rows: seq<LayerRevision>, id: Id)
    requires Chained(RevisionLinks(rows)) && id < |rows| && rows[id].link.current
    ensures CurrentRevision(rows, rows[id].link.owner) == Some(id)
  {
    var links := RevisionLinks(rows);
    assert RowInPlace(links, id);
    FirstCurrentIsLastFrom(links, links[id].owner, 0);
  }

  lemma HeaderStays(a: Db, b: Db, j: Id, identityId: Id, id: Id, now: Instant, later: Instant)
    requires RowsKept(a, b) && TablesKept(a, b, j) && id < |a.revisions| && HeaderReadable(a, identityId, id, now)
    requires a.revisions[id].sourceJobId != j && b.revisions[id] == a.revisions[id]
    requires b.resolutions[a.revisions[id].resolutionRowId] == a.resolutions[a.revisions[id].resolutionRowId]
    requires a.jobs[a.revisions[id].sourceJobId].expiresAt > later
    ensures HeaderReadable(b, identityId, id, later)
  {
    var r := a.revisions[id];
    assert RetentionOf(a, r.sourceJobId) == RetentionOf(b, r.sourceJobId);
  }

  lemma TraceStays(a: Db, b: Db, j: Id, identityId: Id, id: Id, now: Instant)
    requires RowsKept(a, b) && TablesKept(a, b, j) && id < |a.revisions|
    requires HeaderReadable(a, identityId, id, now) && TraceReadable(a, id)
    requires a.revisions[id].sourceJobId != j && b.revisions[id] == a.revisions[id]
    requires JobTraced(a, a.revisions[id].sourceJobId)
    ensures b.revisions[id].sourceJobId in b.jobs && b.revisions[id].sourceJobId in b.projections
    ensures TraceReadable(b, id)
  {
    var r := a.revisions[id];
    assert RetentionOf(a, r.sourceJobId) == RetentionOf(b, r.sourceJobId);
    if r.layer.LongLayer? {
      forall s | s in a.longs[r.sourceJobId].sources ensures MidRevisionBacks(b.revisions, r.projectId, s) {
        assert MidRevisionBacks(a.revisions, r.projectId, s);
      }
    }
  }

  lemma MembersStay(a: Db, b: Db, j: Id, id: Id)
    requires RowsKept(a, b) && TablesKept(a, b, j) && id < |a.revisions|
    requires b.revisions[id] == a.revisions[id] && a.revisions[id].resolutionRowId < |a.resolutions|
    requires b.resolutions[a.revisions[id].resolutionRowId] == a.resolutions[a.revisions[id].resolutionRowId]
    requires MembersReadable(a, id)
    ensures MembersReadable(b, id)
  {
    var r := a.revisions[id];
    var resolution := a.resolutions[r.resolutionRowId];
    assert b.evidences[..|a.evidences|] == a.evidences;
    forall i | 0 <= i < |r.members|
      ensures MemberReadable(b.inputs, b.evidences, b.claims, r, resolution, r.members[i])
    {
      var m := r.members[i];
      assert MemberReadable(a.inputs, a.evidences, a.claims, r, resolution, m);
      EvidenceStaysReadable(a.inputs, b.inputs, a.evidences, b.evidences, a.claims[m.claimId], m.evidenceMembershipDigest);
    }
  }

  /** Work on another job leaves a readable layer readable, unless it supersedes it. */
  lemma LayerStays(a: Db, b: Db, j: Id, identityId: Id, now: Instant, later: Instant)
    requires ReadBackInv(a) && ChainsOk(b) && RowsKept(a, b) && TablesKept(a, b, j)
    requires ReadCurrentLayer(a, identityId, now).Some?
    requires var v := ReadCurrentLayer(a, identityId, now).value;
             a.revisions[v.revisionId].sourceJobId != j && StillCurrent(b, v, later)
    ensures ReadCurrentLayer(b, identityId, later) == ReadCurrentLayer(a, identityId, now)
  {
    ReadIsCurrent(a, identityId, now);
    var v := ReadCurrentLayer(a, identityId, now).value;
    var id := v.revisionId;
    assert JobTraced(a, a.revisions[id].sourceJobId);
    assert b.revisions[id] == a.revisions[id];
    assert b.resolutions[v.resolutionId] == a.resolutions[v.resolutionId];
    CurrentIsFound(b.revisions, id);
    HeaderStays(a, b, j, identityId, id, now, later);
    TraceStays(a, b, j, identityId, id, now);
    MembersStay(a, b, j, id);
  }

  ghost predicate AllOwnAllowed(s: State, steps: seq<Step>)
    decreases |steps|
  {
    steps != [] ==> OwnAllowed(s, steps[0]) && AllOwnAllowed(Next(s, steps[0]), steps[1..])
  }

  ghost function OwnRun(s: State, steps: seq<Step>): State
    requires AllOwnAllowed(s, steps)
    decreases |steps|
  {
    if steps == [] then s else OwnRun(Next(s, steps[0]), steps[1..])
  }

  /** A layer written by a job that has succeeded. */
  ghost predicate WrittenLayer(db: Db, v: ReadableLayer) {
    && v.revisionId < |db.revisions| && v.resolutionId < |db.resolutions|
    && var j := db.revisions[v.revisionId].sourceJobId;
    && j in db.projections && JobSucceeded(db, j)
  }

  ghost predicate LayerFate(a: Db, b: Db, v: ReadableLayer, now: Instant, later: Instant) {
    WrittenLayer(b, v) && (StillCurrent(b, v, later) ==> StillCurrent(a, v, now))
  }

  /** Superseded rows stay superseded, and other jobs' rows keep their retention and expiry. */
  lemma FateUnderOtherJob(a: Db, b: Db, j: Id, v: ReadableLayer, now: Instant, later: Instant)
    requires RowsKept(a, b) && TablesKept(a, b, j) && now <= later
    requires WrittenLayer(a, v) && a.revisions[v.revisionId].sourceJobId != j
    ensures LayerFate(a, b, v, now, later)
  {
    var row, kept := a.revisions[v.revisionId], b.revisions[v.revisionId];
    assert kept == row || kept == row.(link := row.link.(current := false));
    assert b.projections[row.sourceJobId] == a.projections[row.sourceJobId];
    assert b.jobs[row.sourceJobId] == a.jobs[row.sourceJobId];
  }

  lemma FateWhenHidden(s: State, v: ReadableLayer)
    requires WrittenLayer(s.db, v)
    ensures LayerFate(s.db, NextDb(s, Hide(s.db.revisions[v.revisionId].sourceJobId)), v, s.now, s.now)
  {
    var j := s.db.revisions[v.revisionId].sourceJobId;
    var after := NextDb(s, Hide(j));
    assert after.jobs[j] == s.db.jobs[j].(retentionState := Hidden);
    assert after.revisions == s.db.revisions && after.resolutions == s.db.resolutions;
    assert after.projections == s.db.projections;
  }

  /** A layer that is superseded, hidden or expired never becomes current again. */
  lemma CurrencyNeverReturns(s: State, step: Step, after: State, v: ReadableLayer)
    requires ReadBackInv(s.db) && OwnAllowed(s, step) && after == Next(s, step) && WrittenLayer(s.db, v)
    ensures LayerFate(s.db, after.db, v, s.now, after.now)
  {
    if NextDb(s, step) != s.db {
      var j := StepKeeps(s, step);
      if j == s.db.revisions[v.revisionId].sourceJobId {
        FateWhenHidden(s, v);
      } else {
        FateUnderOtherJob(s.db, after.db, j, v, s.now, after.now);
      }
    }
  }

  /**
   Over any run, a layer that can be read now is read unchanged at the end of the run, provided it is
   then still current, retained and unexpired.
   */
  lemma {:induction false} ReadableLayersStayReadable(s: State, steps: seq<Step>, identityId: Id)
    requires ReadBackInv(s.db) && AllOwnAllowed(s, steps) && ReadCurrentLayer(s.db, identityId, s.now).Some?
    ensures var v, final := ReadCurrentLayer(s.db, identityId, s.now).value, OwnRun(s, steps);
            && v.revisionId < |final.db.revisions| && v.resolutionId < |final.db.resolutions|
            && (StillCurrent(final.db, v, final.now) ==> ReadCurrentLayer(final.db, identityId, final.now) == Some(v))
    decreases |steps|
  {
    ReadIsCurrent(s.db, identityId, s.now);
    var v := ReadCurrentLayer(s.db, identityId, s.now).value;
    if steps != [] {
      var next := Next(s, steps[0]);
      StaysOrEnds(s, steps, v);
      if StillCurrent(OwnRun(s, steps).db, v, OwnRun(s, steps).now) {
        LayerStaysOneStep(s, steps[0], identityId);
        ReadableLayersStayReadable(next, steps[1..], identityId);
      }
    }
  }

  /**
   A successful terminalization of a running job hides a layer that can be read exactly when the trace it names is that of
   the job that wrote the layer; any other layer is read unchanged.
   */
  lemma TerminalizingHidesExactlyWhen(db: Db, input: TerminalizeInput, now: Instant, identityId: Id, later: Instant)
    requires TerminalizeStatus(input.status) && JobIs(db, input.aiJobId, Running) && Terminalize(db, input, now).Ok?
    requires ReadCurrentLayer(db, identityId, later).Some?
    ensures var v := ReadCurrentLayer(db, identityId, later).value;
            && v.revisionId < |db.revisions|
            && ReadCurrentLayer(Terminalize(db, input, now).value, identityId, later)
               == if TraceIs(db, db.revisions[v.revisionId].sourceJobId, input.traceId) then None else Some(v)
  {
    var after, id := Terminalize(db, input, now).value, CurrentRevision(db.revisions, identityId).value;
    var j := db.revisions[id].sourceJobId;
    assert CurrentRevision(after.revisions, identityId) == Some(id);
    assert HeaderReadable(after, identityId, id, later) && MembersReadable(after, id);
    TerminalizedTraceReads(db, input, now, id);
  }

  lemma TerminalizedTraceReads(db: Db, input: TerminalizeInput, now: Instant, id: Id)
    requires TerminalizeStatus(input.status) && JobIs(db, input.aiJobId, Running) && Terminalize(db, input, now).Ok?
    requires id < |db.revisions| && JobSucceeded(db, db.revisions[id].sourceJobId)
    requires db.revisions[id].sourceJobId in db.projections && TraceReadable(db, id)
    ensures var after, j := Terminalize(db, input, now).value, db.revisions[id].sourceJobId;
            && after.revisions == db.revisions && j in after.jobs && j in after.projections
            && (TraceReadable(after, id) <==> !TraceIs(db, j, input.traceId))
  {
    var after, j := Terminalize(db, input, now).value, db.revisions[id].sourceJobId;
    assert ReadableLongManifest(after, j, id, db.revisions[id].projectId)
           == ReadableLongManifest(db, j, id, db.revisions[id].projectId);
  }

  lemma LayerStaysOneStep(s: State, step: Step, identityId: Id)
    requires ReadBackInv(s.db) && OwnAllowed(s, step) && ReadCurrentLayer(s.db, identityId, s.now).Some?
    requires var v, next := ReadCurrentLayer(s.db, identityId, s.now).value, Next(s, step);
             StillCurrent(next.db, v, next.now)
    ensures ReadBackInv(Next(s, step).db)
    ensures ReadCurrentLayer(Next(s, step).db, identityId, Next(s, step).now) == ReadCurrentLayer(s.db, identityId, s.now)
  {
    var v, next := ReadCurrentLayer(s.db, identityId, s.now).value, Next(s, step);
    if next.db != s.db {
      var j := StepKeeps(s, step);
      HideHides(s, step, j);
      LayerStaysBeside(s.db, next.db, j, identityId, s.now, next.now);
    } else {
      SameRowsStay(s.db, identityId, s.now, next.now);
    }
  }

  lemma SameRowsStay(db: Db, identityId: Id, now: Instant, later: Instant)
    requires ReadBackInv(db) && ReadCurrentLayer(db, identityId, now).Some?
    requires StillCurrent(db, ReadCurrentLayer(db, identityId, now).value, later)
    ensures ReadCurrentLayer(db, identityId, later) == ReadCurrentLayer(db, identityId, now)
  {
    ReadIsCurrent(db, identityId, now);
    LayerStays(db, db, NoJob(db, ReadCurrentLayer(db, identityId, now).value), identityId, now, later);
  }

  ghost predicate HiddenJob(db: Db, j: Id) {
    j in db.jobs && db.jobs[j].retentionState.Hidden?
  }

  lemma HideHides(s: State, step: Step, j: Id)
    requires ReadBackInv(s.db) && OwnAllowed(s, step)
    requires JobSucceeded(s.db, j) && j in s.db.projections ==> step == Hide(j)
    ensures JobSucceeded(s.db, j) && j in s.db.projections ==> HiddenJob(NextDb(s, step), j)
  {
  }

  /** A step on a job that has not committed, or that hides it, leaves every layer that is still current. */
  lemma LayerStaysBeside(a: Db, b: Db, j: Id, identityId: Id, now: Instant, later: Instant)
    requires ReadBackInv(a) && ChainsOk(b) && RowsKept(a, b) && TablesKept(a, b, j)
    requires JobSucceeded(a, j) && j in a.projections ==> HiddenJob(b, j)
    requires ReadCurrentLayer(a, identityId, now).Some?
    requires StillCurrent(b, ReadCurrentLayer(a, identityId, now).value, later)
    ensures ReadCurrentLayer(b, identityId, later) == ReadCurrentLayer(a, identityId, now)
  {
    ReadIsCurrent(a, identityId, now);
    LayerStays(a, b, j, identityId, now, later);
  }

  /** Some job other than the layer's own. */
  function NoJob(db: Db, v: ReadableLayer): Id {
    if v.revisionId < |db.revisions| then db.revisions[v.revisionId].sourceJobId + 1 else 0
  }

  /** A layer current at the end of a run was current after its first step. */
  lemma {:induction false} StaysOrEnds(s: State, steps: seq<Step>, v: ReadableLayer)
    requires ReadBackInv(s.db) && AllOwnAllowed(s, steps)
    requires WrittenLayer(s.db, v)
    ensures v.revisionId < |OwnRun(s, steps).db.revisions| && v.resolutionId < |OwnRun(s, steps).db.resolutions|
    ensures StillCurrent(OwnRun(s, steps).db, v, OwnRun(s, steps).now) ==>
              && StillCurrent(s.db, v, s.now)
              && (steps != [] ==> StillCurrent(Next(s, steps[0]).db, v, Next(s, steps[0]).now))
    decreases |steps|
  {
    if steps != [] {
      CurrencyNeverReturns(s, steps[0], Next(s, steps[0]), v);
      StepKeepsReadBack(s, steps[0]);
      StaysOrEnds(Next(s, steps[0]), steps[1..], v);
    }
  }

  lemma StepKeepsReadBack(s: State, step: Step)
    requires ReadBackInv(s.db) && OwnAllowed(s, step)
    ensures ReadBackInv(Next(s, step).db)
  {
    if NextDb(s, step) != s.db {
      var j := StepKeeps(s, step);
    }
  }

  /** The store every run starts from, and every store it reaches, satisfies what the reader relies on. */
  lemma {:induction false} RunsKeepReadBack(s: State, steps: seq<Step>)
    requires ReadBackInv(s.db) && AllOwnAllowed(s, steps)
    ensures ReadBackInv(OwnRun(s, steps).db)
    decreases |steps|
  {
    if steps != [] {
      StepKeepsReadBack(s, steps[0]);
      RunsKeepReadBack(Next(s, steps[0]), steps[1..]);
    }
  }

  lemma MigratedStoreReadsBack(db: Db)
    requires Migrated(db)
    ensures ReadBackInv(db)
  {
  }
}
