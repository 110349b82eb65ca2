/**
 Recovery of stored jobs that have committed. A pass finds such a job converged exactly when its record carries no error
 and its proof is complete; its trace then always agrees. A job whose layer a later commit has superseded is unreadable
 for good.
 */
module MemoryP2StoredCommits {
  import opened Options
  import opened MemoryP2Traces
  import opened MemoryP2Recovery
  import opened MemoryP2Store
  import opened MemoryP2Writes
  import opened MemoryP2Runs
  import opened MemoryP2Chains
  import opened MemoryP2ReadBack
  import opened MemoryP2ReadBackRuns
  import opened MemoryP2RecoveryPass
  import opened MemoryP2StoredRecovery
  import opened MemoryP2StoredPasses

  // ---------------------------------------------------------------- what a commit leaves

  function OutcomeOfKind(kind: JobType): Outcome {
    if kind.LongSessionEnd? then LongCommitted else CheckpointCommitted
  }

  /** The trace of a job that has committed, next to the job's projection. */
  predicate CommittedTrace(p: Projection, trace: Trace) {
    && trace.status.Succeeded? && trace.stage.Committed? && trace.errorCode.None?
    && trace.memoryOutcome == OutcomeOfKind(p.jobKind)
    && trace.deletionScopeDigest == p.deletionScopeDigest
  }

  ghost predicate CommittedJob(db: Db, j: Id)
    requires j in db.projections
  {
    TraceOwned(db, j) && CommittedTrace(db.projections[j], db.traces[db.traceByJob[j]])
  }

  ghost predicate CommitsOk(db: Db) {
    forall j :: j in db.projections && JobSucceeded(db, j) ==> CommittedJob(db, j)
  }

  ghost predicate OnlyTrace(db: Db, j: Id, t: Id) {
    t in db.traces && db.traces[t].aiJobId == j && forall u :: u in db.traces && db.traces[u].aiJobId == j ==> u == t
  }

  lemma LastTargetFinishes(db: Db, input: CommitInput, seen: CommitReads, now: Instant)
    requires CommitTarget(db, input, seen, now, true).Ok? && !JobSucceeded(db, input.aiJobId)
    ensures var after, j := CommitTarget(db, input, seen, now, true).value.0, input.aiJobId;
            && j in db.projections && j in after.projections && j in db.jobs
            && after.projections[j].jobKind == db.projections[j].jobKind
            && input.traceId in db.traces && input.traceId in after.traces && db.traces[input.traceId].aiJobId == j
            && (db.projections[j].jobKind == db.jobs[j].jobType && db.traces[input.traceId].errorCode.None? ==>
                  CommittedTrace(after.projections[j], after.traces[input.traceId]))
  {
    TargetParts(db, input, seen, now, true);
    FinishedRows(db, input, PlanTarget(db, input, seen).value, now);
  }

  lemma FinishedRows(db: Db, input: CommitInput, plan: TargetPlan, now: Instant)
    requires PlanFits(db, plan) && input.checkpointId in db.checkpoints && CommitAdmitted(db, input, now)
    ensures var after, j := AfterTarget(db, input, plan, now, true), input.aiJobId;
            && j in after.projections && input.traceId in after.traces
            && var p, trace := db.projections[j], db.traces[input.traceId];
            && after.projections[j].jobKind == p.jobKind
            && after.projections[j].deletionScopeDigest == p.deletionScopeDigest == trace.deletionScopeDigest
            && after.traces[input.traceId].status.Succeeded? && after.traces[input.traceId].stage.Committed?
            && after.traces[input.traceId].errorCode == trace.errorCode
            && after.traces[input.traceId].deletionScopeDigest == trace.deletionScopeDigest
            && after.traces[input.traceId].memoryOutcome
               == if input.target.layer.LongLayer? then LongCommitted else CheckpointCommitted
  {
  }

  lemma EarlierTargetKeepsTraces(db: Db, input: CommitInput, seen: CommitReads, now: Instant)
    requires CommitTarget(db, input, seen, now, false).Ok? && !JobSucceeded(db, input.aiJobId)
    ensures var after := CommitTarget(db, input, seen, now, false).value.0;
            after.traces == db.traces && after.projections == db.projections && after.jobs == db.jobs
  {
    TargetParts(db, input, seen, now, false);
  }

  lemma {:induction false} TargetsFinish(db: Db, targets: seq<(CommitInput, CommitReads)>, results: seq<CommitResult>,
                                         now: Instant, j: Id, t: Id)
    requires targets != [] && forall i :: 0 <= i < |targets| ==> targets[i].0.aiJobId == j
    requires CommitTargets(db, targets, results, now).Ok? && !JobSucceeded(db, j)
    requires j in db.projections && j in db.jobs && db.projections[j].jobKind == db.jobs[j].jobType
    requires OnlyTrace(db, j, t) && db.traces[t].errorCode.None?
    ensures var after := CommitTargets(db, targets, results, now).value.0;
            j in after.projections && t in after.traces && CommittedTrace(after.projections[j], after.traces[t])
    decreases |targets|
  {
    var next := CommitTarget(db, targets[0].0, targets[0].1, now, |targets| == 1).value;
    if |targets| > 1 {
      EarlierTargetKeepsTraces(db, targets[0].0, targets[0].1, now);
      TargetsFinish(next.0, targets[1..], results + [next.1], now, j, t);
    } else {
      LastTargetFinishes(db, targets[0].0, targets[0].1, now);
      assert CommitTargets(db, targets, results, now).value.0 == next.0;
    }
  }

  // ---------------------------------------------------------------- every run

  /** Only freezing adds a projection. */
  lemma ProjectionsGrowByFreezing(s: State, step: Step)
    requires Inv(s.db) && Allowed(s, step) && !step.Freeze? && !step.FreezeLong?
    ensures NextDb(s, step).projections.Keys == s.db.projections.Keys
  {
    if step.Commit? {
      CommitKeepsProjections(s.db, step.targets, s.now);
    } else {
      OtherStepKeepsRoles(s, step);
    }
  }

  lemma CommitKeepsProjections(db: Db, targets: seq<(CommitInput, CommitReads)>, now: Instant)
    requires forall i :: 0 <= i < |targets| ==> targets[i].0.aiJobId == targets[0].0.aiJobId
    ensures Kept(CommitLayerRevisions(db, targets, now), db).projections.Keys == db.projections.Keys
  {
    if CommitLayerRevisions(db, targets, now).Ok? {
      if JobSucceeded(db, targets[0].0.aiJobId) {
        TargetsReplayed(db, targets, [], now, targets[0].0.aiJobId);
      } else {
        TargetsWritten(db, targets, [], now, targets[0].0.aiJobId);
      }
    }
  }

  lemma FreezingKeepsJobs(s: State, step: Step)
    requires step.Freeze? || step.FreezeLong?
    ensures var after := NextDb(s, step);
            && after.jobs == s.db.jobs
            && (forall j :: j in after.projections && j !in s.db.projections ==> JobIs(s.db, j, Running))
  {
  }

  lemma SucceedsByCommit(s: State, step: Step, j: Id)
    requires Inv(s.db) && Allowed(s, step) && j in NextDb(s, step).projections
    requires JobSucceeded(NextDb(s, step), j) && !(JobSucceeded(s.db, j) && j in s.db.projections)
    ensures j in s.db.projections && !JobSucceeded(s.db, j) && step.Commit? && step.targets != []
    ensures forall i :: 0 <= i < |step.targets| ==> step.targets[i].0.aiJobId == j
    ensures CommitLayerRevisions(s.db, step.targets, s.now).Ok?
  {
    if step.Freeze? || step.FreezeLong? {
      FreezingKeepsJobs(s, step);
    } else {
      ProjectionsGrowByFreezing(s, step);
    }
    ProjectedSucceedsByCommit(s, step, j);
  }

  lemma ProjectedSucceedsByCommit(s: State, step: Step, j: Id)
    requires Inv(s.db) && Allowed(s, step) && j in s.db.projections
    requires JobSucceeded(NextDb(s, step), j) && !JobSucceeded(s.db, j)
    ensures step.Commit? && step.targets != [] && CommitLayerRevisions(s.db, step.targets, s.now).Ok?
    ensures forall i :: 0 <= i < |step.targets| ==> step.targets[i].0.aiJobId == j
  {
    StepIsSafe(s, step);
    SafeSuccess(s.db, NextDb(s, step), s.now, step, j);
    if CommitLayerRevisions(s.db, step.targets, s.now).Err? {
      RefusedCommitKeeps(s, step);
    }
  }

  lemma SafeSuccess(before: Db, after: Db, now: Instant, step: Step, j: Id)
    requires Inv(before) && StepSafe(before, after, now, step) && j in before.projections
    requires JobSucceeded(after, j) && !JobSucceeded(before, j)
    ensures step.Commit? && step.targets != []
    ensures forall i :: 0 <= i < |step.targets| ==> step.targets[i].0.aiJobId == j
  {
    assert JobSafe(before, after, now, step, j);
  }

  lemma RefusedCommitKeeps(s: State, step: Step)
    requires step.Commit? && CommitLayerRevisions(s.db, step.targets, s.now).Err?
    ensures NextDb(s, step) == s.db
  {
  }

  lemma CommitLeavesTrace(db: Db, targets: seq<(CommitInput, CommitReads)>, now: Instant, j: Id)
    requires ReadBackInv(db) && j in db.projections && !JobSucceeded(db, j) && targets != []
    requires forall i :: 0 <= i < |targets| ==> targets[i].0.aiJobId == j
    requires CommitLayerRevisions(db, targets, now).Ok?
    ensures var after := CommitLayerRevisions(db, targets, now).value.0;
            j in after.projections && CommittedJob(after, j)
  {
    assert JobTraced(db, j);
    var t := db.traceByJob[j];
    forall u | u in db.traces && db.traces[u].aiJobId == j ensures u == t {
      assert TraceIs(db, j, u);
    }
    TargetsWritten(db, targets, [], now, j);
    TargetsFinish(db, targets, [], now, j, t);
    TargetsFrame(db, targets, [], now, j);
  }

  lemma OtherCommittedStays(a: Db, b: Db, j: Id, k: Id)
    requires TablesKept(a, b, j) && k != j && k in a.projections && CommittedJob(a, k)
    ensures k in b.projections && CommittedJob(b, k)
  {
  }

  lemma StepKeepsCommits(s: State, step: Step)
    requires Inv(s.db) && ReadBackInv(s.db) && CommitsOk(s.db) && OwnAllowed(s, step)
    ensures CommitsOk(NextDb(s, step))
  {
    var after := NextDb(s, step);
    if after != s.db {
      forall k | k in after.projections && JobSucceeded(after, k) ensures CommittedJob(after, k) {
        if JobSucceeded(s.db, k) && k in s.db.projections {
          CommittedStaysOneStep(s, step, k);
        } else {
          NewlyCommitted(s, step, k);
        }
      }
    }
  }

  lemma NewlyCommitted(s: State, step: Step, k: Id)
    requires Inv(s.db) && ReadBackInv(s.db) && Allowed(s, step) && k in NextDb(s, step).projections
    requires JobSucceeded(NextDb(s, step), k) && !(JobSucceeded(s.db, k) && k in s.db.projections)
    ensures CommittedJob(NextDb(s, step), k)
  {
    SucceedsByCommit(s, step, k);
    CommitLeavesTrace(s.db, step.targets, s.now, k);
  }

  /** A job that had committed before the step. */
  lemma CommittedStaysOneStep(s: State, step: Step, k: Id)
    requires ReadBackInv(s.db) && CommitsOk(s.db) && OwnAllowed(s, step) && NextDb(s, step) != s.db
    requires k in s.db.projections && JobSucceeded(s.db, k)
    ensures k in NextDb(s, step).projections && CommittedJob(NextDb(s, step), k)
  {
    assert CommittedJob(s.db, k);
    var j := StepKeeps(s, step);
    if k == j {
      HideKeepsCommitted(s, k);
    } else {
      OtherCommittedStays(s.db, NextDb(s, step), j, k);
    }
  }

  lemma HideKeepsCommitted(s: State, k: Id)
    requires k in s.db.projections && CommittedJob(s.db, k)
    ensures k in NextDb(s, Hide(k)).projections && CommittedJob(NextDb(s, Hide(k)), k)
  {
  }

  ghost predicate StoreOk(db: Db) {
    Inv(db) && RecordsOk(db) && ReadBackInv(db) && CommitsOk(db)
  }

  lemma MigratedStoreOk(db: Db)
    requires Migrated(db)
    ensures StoreOk(db)
  {
    MigratedStoreRecords(db);
    MigratedStoreReadsBack(db);
  }

  lemma StepKeepsStoreOk(s: State, step: Step)
    requires StoreOk(s.db) && OwnAllowed(s, step)
    ensures StoreOk(Next(s, step).db)
  {
    StepIsSafe(s, step);
    StepKeepsRecords(s, step);
    StepKeepsReadBack(s, step);
    StepKeepsCommits(s, step);
  }

  lemma {:induction false} RunKeepsStoreOk(s: State, steps: seq<Step>)
    requires StoreOk(s.db) && AllOwnAllowed(s, steps)
    ensures StoreOk(OwnRun(s, steps).db)
    decreases |steps|
  {
    if steps != [] {
      StepKeepsStoreOk(s, steps[0]);
      RunKeepsStoreOk(Next(s, steps[0]), steps[1..]);
    }
  }

  // ---------------------------------------------------------------- what a pass finds

  /** What recovery reads of a job that has committed. */
  lemma CommittedRecordRead(db: Db, j: Id, rows: seq<ReferenceAuthority>)
    requires j in db.projections && CommittedJob(db, j) && ReadRecoveryAuthority(db, j, rows).Some? && JobSucceeded(db, j)
    ensures var a := ReadRecoveryAuthority(db, j, rows).value;
            && a.jobStatus.Succeeded? && a.trace.Some?
            && a.jobMemoryOutcome == Some(a.trace.value.memoryOutcome)
            && a.trace.value.memoryOutcome == OutcomeOfKind(db.projections[j].jobKind)
            && a.trace.value.status.Succeeded? && a.trace.value.stage.Committed? && a.trace.value.errorCode.None?
            && TraceHeaderMatches(a, a.trace.value)
            && (a.committed.Some? ==>
                  && CommittedOutcome(a) == OutcomeOfKind(db.projections[j].jobKind)
                  && a.committed.value.proposalDigest == a.trace.value.proposalDigest
                  && a.committed.value.planDigest == a.trace.value.planDigest
                  && (a.committed.value.commitDigest.Some? ==>
                        a.committed.value.commitDigest == a.trace.value.commitDigest))
  {
  }

  lemma SucceededDecision(a: RecoveryAuthority, now: Instant)
    requires a.jobStatus.Succeeded? && a.trace.Some?
    requires HasCompleteCommitProof(a) ==> a.jobMemoryOutcome == Some(CommittedOutcome(a)) && TraceMatchesCommitted(a)
    ensures if AuthorityError(a, now).None? && HasCompleteCommitProof(a) then Reconcile(a, now) == AlreadyConverged
            else Reconcile(a, now).SucceededUnreadable?
  {
  }

  /**
   A pass over a job that has committed changes nothing. It finds the job converged exactly when the record carries no
   error and its proof is complete: the stored outcome and trace then always agree with the proof.
   */
  lemma CommittedJobConvergesExactlyWhen(db: Db, j: Id, rows: seq<ReferenceAuthority>, now: Instant)
    requires StoreOk(db) && JobSucceeded(db, j) && ReadRecoveryAuthority(db, j, rows).Some?
    ensures var a := ReadRecoveryAuthority(db, j, rows).value;
            ReconcileJob(db, j, rows, now)
            == Ok((db, if AuthorityError(a, now).None? && HasCompleteCommitProof(a) then ConvergedOutcome
                       else SucceededUnreadableOutcome))
  {
    var a := ReadRecoveryAuthority(db, j, rows).value;
    CommittedRecordRead(db, j, rows);
    SucceededDecision(a, now);
    SucceededPass(db, j, rows, now);
  }

  lemma SucceededPass(db: Db, j: Id, rows: seq<ReferenceAuthority>, now: Instant)
    requires ReadRecoveryAuthority(db, j, rows).Some?
    ensures var d := Reconcile(ReadRecoveryAuthority(db, j, rows).value, now);
            && (d.AlreadyConverged? ==> ReconcileJob(db, j, rows, now) == Ok((db, ConvergedOutcome)))
            && (d.SucceededUnreadable? ==> ReconcileJob(db, j, rows, now) == Ok((db, SucceededUnreadableOutcome)))
  {
  }

  /** The digests a converged record compares. */
  lemma ErrorFreeRecord(db: Db, j: Id, rows: seq<ReferenceAuthority>, now: Instant)
    requires RecordsOk(db) && ReadRecoveryAuthority(db, j, rows).Some?
    requires AuthorityError(ReadRecoveryAuthority(db, j, rows).value, now).None?
    ensures TraceOfJob(db, j).Some? && TraceOfJob(db, j).value.sourceManifestHash.CheckpointDigest?
  {
  }

  /**
   Only a job that has committed is ever found converged, and a Long job only if its commit gave a digest of checkpoint
   members as the digest of its Long sources.
   */
  lemma OnlyCommittedJobsConverge(s: State, steps: seq<Step>, j: Id, rows: seq<ReferenceAuthority>, now: Instant)
    requires Migrated(s.db) && AllOwnAllowed(s, steps)
    requires ReconcileJob(OwnRun(s, steps).db, j, rows, now).Ok?
    requires ReconcileJob(OwnRun(s, steps).db, j, rows, now).value.1.ConvergedOutcome?
    ensures var db := OwnRun(s, steps).db;
            && JobSucceeded(db, j) && TraceOfJob(db, j).Some?
            && TraceOfJob(db, j).value.sourceManifestHash.CheckpointDigest?
  {
    MigratedStoreOk(s.db);
    RunKeepsStoreOk(s, steps);
    ConvergedIsCommitted(OwnRun(s, steps).db, j, rows, now);
  }

  lemma ConvergedIsCommitted(db: Db, j: Id, rows: seq<ReferenceAuthority>, now: Instant)
    requires StoreOk(db) && ReconcileJob(db, j, rows, now).Ok? && ReconcileJob(db, j, rows, now).value.1.ConvergedOutcome?
    ensures JobSucceeded(db, j) && TraceOfJob(db, j).Some?
    ensures TraceOfJob(db, j).value.sourceManifestHash.CheckpointDigest?
  {
    UncommittedHasNoRevisions(db, j, rows);
    if Uncommitted(db, j, rows) {
      StoredPass(db, j, rows, now);
    } else {
      CommittedJobConvergesExactlyWhen(db, j, rows, now);
      ErrorFreeRecord(db, j, rows, now);
    }
  }

  // ---------------------------------------------------------------- superseded layers

  /** The layer revision the job's projection names is no longer current. */
  predicate TargetSuperseded(db: Db, j: Id) {
    && j in db.projections
    && var target := db.projections[j].targetRevisionId;
    && target.Some? && target.value < |db.revisions| && !db.revisions[target.value].link.current
  }

  lemma SupersededHasNoProof(db: Db, j: Id, rows: seq<ReferenceAuthority>)
    requires TargetSuperseded(db, j) && ReadRecoveryAuthority(db, j, rows).Some?
    ensures !HasCompleteCommitProof(ReadRecoveryAuthority(db, j, rows).value)
  {
  }

  lemma StepKeepsSuperseded(s: State, step: Step, j: Id)
    requires ReadBackInv(s.db) && OwnAllowed(s, step) && JobSucceeded(s.db, j) && TargetSuperseded(s.db, j)
    ensures JobSucceeded(NextDb(s, step), j) && TargetSuperseded(NextDb(s, step), j)
  {
    if NextDb(s, step) != s.db {
      var k := StepKeeps(s, step);
      if k == j {
        HidingKeepsSuperseded(s, j);
      } else {
        OtherJobKeepsSuperseded(s.db, NextDb(s, step), k, j);
      }
    }
  }

  lemma HidingKeepsSuperseded(s: State, j: Id)
    requires JobSucceeded(s.db, j) && TargetSuperseded(s.db, j)
    ensures JobSucceeded(NextDb(s, Hide(j)), j) && TargetSuperseded(NextDb(s, Hide(j)), j)
  {
  }

  lemma OtherJobKeepsSuperseded(a: Db, b: Db, k: Id, j: Id)
    requires RowsKept(a, b) && TablesKept(a, b, k) && k != j && JobSucceeded(a, j) && TargetSuperseded(a, j)
    ensures JobSucceeded(b, j) && TargetSuperseded(b, j)
  {
  }

  lemma SupersededPass(db: Db, j: Id, rows: seq<ReferenceAuthority>, now: Instant)
    requires StoreOk(db) && JobSucceeded(db, j) && TargetSuperseded(db, j)
    ensures ReadRecoveryAuthority(db, j, rows).Some? ==>
              ReconcileJob(db, j, rows, now) == Ok((db, SucceededUnreadableOutcome))
  {
    if ReadRecoveryAuthority(db, j, rows).Some? {
      SupersededHasNoProof(db, j, rows);
      CommittedJobConvergesExactlyWhen(db, j, rows, now);
    }
  }

  /** Once a later commit has superseded what a job wrote, no pass after any run finds the job converged again. */
  lemma SupersededStaysUnreadable(s: State, steps: seq<Step>, j: Id, rows: seq<ReferenceAuthority>, now: Instant)
    requires StoreOk(s.db) && AllOwnAllowed(s, steps) && JobSucceeded(s.db, j) && TargetSuperseded(s.db, j)
    ensures var db := OwnRun(s, steps).db;
            ReadRecoveryAuthority(db, j, rows).Some? ==>
              ReconcileJob(db, j, rows, now) == Ok((db, SucceededUnreadableOutcome))
  {
    RunKeepsStoreOk(s, steps);
    RunKeepsSuperseded(s, steps, j);
    SupersededPass(OwnRun(s, steps).db, j, rows, now);
  }

  lemma {:induction false} RunKeepsSuperseded(s: State, steps: seq<Step>, j: Id)
    requires ReadBackInv(s.db) && AllOwnAllowed(s, steps) && JobSucceeded(s.db, j) && TargetSuperseded(s.db, j)
    ensures JobSucceeded(OwnRun(s, steps).db, j) && TargetSuperseded(OwnRun(s, steps).db, j)
    decreases |steps|
  {
    if steps != [] {
      StepKeepsReadBack(s, steps[0]);
      StepKeepsSuperseded(s, steps[0], j);
      RunKeepsSuperseded(Next(s, steps[0]), steps[1..], j);
    }
  }
}
