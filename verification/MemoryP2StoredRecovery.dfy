/**
 Recovery of stored jobs. In every store a run can reach, the record of a job that has committed nothing carries an
 error: a Mid job's own checkpoint is still only frozen, and a Long job's trace names the digest of a layer revision
 where the checkpoint names the digest of its members. So no pass finds such a job converged, and no fence is issued.
 */
module MemoryP2StoredRecovery {
  import opened Options
  import opened MemoryP2Traces
  import opened MemoryP2Recovery
  import opened MemoryP2Store
  import opened MemoryP2Writes
  import opened MemoryP2Runs

  // ---------------------------------------------------------------- what a run keeps of the records

  ghost predicate TraceOwned(db: Db, j: Id) {
    j in db.traceByJob && db.traceByJob[j] in db.traces && db.traces[db.traceByJob[j]].aiJobId == j
  }

  /** A Mid job produced its own checkpoint, which stays frozen until the job commits. */
  ghost predicate MidRecord(db: Db, j: Id)
    requires j in db.projections
  {
    var p := db.projections[j];
    && MidType(p.jobKind) && p.finalMidCheckpointId.None?
    && j in db.checkpointByJob && db.checkpointByJob[j] == p.sourceCheckpointId
    && p.sourceCheckpointId in db.checkpoints
    && db.checkpoints[p.sourceCheckpointId].producerJobId == j
    && (!HasRevisions(db, j) ==> db.checkpoints[p.sourceCheckpointId].status.CpFrozen?)
  }

  /** A Long job consumes a committed checkpoint; until it commits, its trace names a layer revision's digest. */
  ghost predicate LongRecord(db: Db, j: Id)
    requires j in db.projections && TraceOwned(db, j)
  {
    var p := db.projections[j];
    && p.jobKind.LongSessionEnd? && p.finalMidCheckpointId == Some(p.sourceCheckpointId)
    && j !in db.checkpointByJob
    && p.sourceCheckpointId in db.checkpoints && db.checkpoints[p.sourceCheckpointId].status.CpCommitted?
    && (!HasRevisions(db, j) ==> db.traces[db.traceByJob[j]].sourceManifestHash.LayerMemberDigest?)
  }

  ghost predicate JobRecord(db: Db, j: Id)
    requires j in db.projections
  {
    var p := db.projections[j];
    && TraceOwned(db, j)
    && p.lease.epoch >= 1 && NonBlank(p.lease.owner)
    && (p.targetRevisionDigest.Some? ==> p.targetRevisionDigest.value.LayerMemberDigest?)
    && (MidRecord(db, j) || LongRecord(db, j))
  }

  ghost predicate RecordsOk(db: Db) {
    && db.migrationCompleted
    && (forall j :: j in db.projections ==> JobRecord(db, j))
    && (forall c :: c in db.checkpoints ==> db.checkpoints[c].memberManifestHash.CheckpointDigest?)
    && (forall j :: j in db.checkpointByJob ==> j in db.projections)
    && (forall j :: j in db.longs ==> HasRevisions(db, j))
  }

  // ---------------------------------------------------------------- steps that write no revision

  predicate SameRole(p: Projection, q: Projection) {
    && q.jobKind == p.jobKind && q.sourceCheckpointId == p.sourceCheckpointId
    && q.finalMidCheckpointId == p.finalMidCheckpointId && q.targetRevisionDigest == p.targetRevisionDigest
    && (q.lease == p.lease || (q.lease.epoch >= 1 && NonBlank(q.lease.owner)))
  }

  ghost predicate RolesKept(a: Db, b: Db) {
    && b.migrationCompleted == a.migrationCompleted && b.checkpoints == a.checkpoints
    && b.checkpointByJob == a.checkpointByJob && b.traceByJob == a.traceByJob && b.longs == a.longs
    && b.revisions == a.revisions && b.retention == a.retention
    && b.projections.Keys == a.projections.Keys && b.traces.Keys == a.traces.Keys
    && (forall j :: j in a.projections ==> SameRole(a.projections[j], b.projections[j]))
    && (forall t :: t in a.traces ==>
          b.traces[t].aiJobId == a.traces[t].aiJobId && b.traces[t].sourceManifestHash == a.traces[t].sourceManifestHash)
  }

  lemma RolesKeptKeeps(a: Db, b: Db)
    requires RecordsOk(a) && RolesKept(a, b)
    ensures RecordsOk(b)
  {
    forall j | j in b.projections ensures JobRecord(b, j) {
      assert JobRecord(a, j) && SameRole(a.projections[j], b.projections[j]);
    }
    forall j | j in b.longs ensures HasRevisions(b, j) {
      assert HasRevisions(a, j);
    }
  }

  lemma JobsRewritten(a: Db, b: Db)
    requires b == a.(jobs := b.jobs, inputs := b.inputs)
    ensures RolesKept(a, b)
  {
  }

  lemma TraceRewritten(db: Db, jobs: map<Id, Job>, t: Id, trace: Trace)
    requires t in db.traces
    requires trace.aiJobId == db.traces[t].aiJobId && trace.sourceManifestHash == db.traces[t].sourceManifestHash
    ensures RolesKept(db, db.(jobs := jobs, traces := db.traces[t := trace]))
  {
  }

  lemma RowsRewritten(db: Db, jobs: map<Id, Job>, j: Id, p: Projection, t: Id, trace: Trace)
    requires j in db.projections && SameRole(db.projections[j], p) && t in db.traces
    requires trace.aiJobId == db.traces[t].aiJobId && trace.sourceManifestHash == db.traces[t].sourceManifestHash
    ensures RolesKept(db, db.(jobs := jobs, projections := db.projections[j := p], traces := db.traces[t := trace]))
  {
  }

  lemma TerminalizeKeepsRoles(db: Db, input: TerminalizeInput, now: Instant)
    requires TerminalizeStatus(input.status) && Terminalize(db, input, now).Ok?
    ensures RolesKept(db, Terminalize(db, input, now).value)
  {
    var after, j, t := Terminalize(db, input, now).value, input.aiJobId, input.traceId;
    if after != db {
      RowsRewritten(db, after.jobs, j, after.projections[j], t, after.traces[t]);
    }
  }

  lemma ClaimKeepsRoles(db: Db, input: ClaimLeaseInput, now: Instant)
    ensures RolesKept(db, Kept(ClaimRecoveryLease(db, input, now), db))
  {
  }

  lemma RecoverKeepsRoles(db: Db, c: RecoveryCommand, rows: seq<ReferenceAuthority>)
    ensures RolesKept(db, ApplyRecovery(db, c, rows).0)
  {
    if RecoveryAdmitted(db, c, rows) {
      var after, t := ApplyRecovery(db, c, rows).0, db.traceByJob[c.jobId];
      TraceRewritten(db, after.jobs, t, after.traces[t]);
    }
  }

  lemma AdvanceKeepsRoles(db: Db, input: AdvanceInput, authorized: bool)
    ensures RolesKept(db, AdvanceStage(db, input, authorized).0)
  {
    var after := AdvanceStage(db, input, authorized).0;
    if after != db {
      TraceRewritten(db, db.jobs, input.traceId, after.traces[input.traceId]);
    }
  }

  // ---------------------------------------------------------------- freezing

  /** New rows under fresh identifiers leave the records of the jobs that were there. */
  lemma RecordBesideNewRows(a: Db, b: Db, j: Id, t: Id, k: Id)
    requires k in a.projections && JobRecord(a, k) && k != j && t !in a.traces
    requires b.revisions == a.revisions
    requires k in b.projections && b.projections[k] == a.projections[k]
    requires t in b.traces && b.traces == a.traces[t := b.traces[t]]
    requires k in b.traceByJob && b.traceByJob[k] == a.traceByJob[k]
    requires k in b.checkpointByJob <==> k in a.checkpointByJob
    requires k in a.checkpointByJob ==> b.checkpointByJob[k] == a.checkpointByJob[k]
    requires forall d :: d in a.checkpoints ==> d in b.checkpoints && b.checkpoints[d] == a.checkpoints[d]
    ensures JobRecord(b, k)
  {
  }

  lemma NewMidRecord(db: Db, input: FreezeInput, job: Job, now: Instant)
    requires LeaseWellFormed(input.lease, now) && MidType(job.jobType)
    ensures JobRecord(FrozenDb(db, input, job, now), input.aiJobId)
  {
  }

  lemma NewMidKeeps(db: Db, input: FreezeInput, job: Job, now: Instant)
    requires RecordsOk(db) && input.aiJobId !in db.projections && input.checkpointId !in db.checkpoints
    requires input.traceId !in db.traces && LeaseWellFormed(input.lease, now) && MidType(job.jobType)
    requires input.memberManifestHash.CheckpointDigest?
    ensures RecordsOk(FrozenDb(db, input, job, now))
  {
    var after := FrozenDb(db, input, job, now);
    NewMidRecord(db, input, job, now);
    forall j | j in after.projections && j != input.aiJobId ensures JobRecord(after, j) {
      MidBesideRecord(db, input, job, now, j);
    }
  }

  lemma MidBesideRecord(db: Db, input: FreezeInput, job: Job, now: Instant, j: Id)
    requires RecordsOk(db) && input.checkpointId !in db.checkpoints && input.traceId !in db.traces
    requires j in db.projections && j != input.aiJobId
    ensures JobRecord(FrozenDb(db, input, job, now), j)
  {
    RecordBesideNewRows(db, FrozenDb(db, input, job, now), input.aiJobId, input.traceId, j);
  }

  lemma FreezeKeepsRecords(db: Db, input: FreezeInput, now: Instant)
    requires RecordsOk(db)
    ensures RecordsOk(Kept(FreezeCheckpoint(db, input, now), db))
  {
    if Kept(FreezeCheckpoint(db, input, now), db) != db {
      FreezeFacts(db, input, now);
      NewMidKeeps(db, input, db.jobs[input.aiJobId], now);
    }
  }

  lemma FreezeFacts(db: Db, input: FreezeInput, now: Instant)
    requires Kept(FreezeCheckpoint(db, input, now), db) != db
    ensures input.aiJobId in db.jobs && MidType(db.jobs[input.aiJobId].jobType) && LeaseWellFormed(input.lease, now)
    ensures input.aiJobId !in db.projections && input.checkpointId !in db.checkpoints && input.traceId !in db.traces
    ensures input.memberManifestHash.CheckpointDigest?
    ensures Kept(FreezeCheckpoint(db, input, now), db) == FrozenDb(db, input, db.jobs[input.aiJobId], now)
  {
  }

  lemma NewLongRecord(db: Db, input: FreezeLongInput, now: Instant)
    requires LeaseWellFormed(input.lease, now) && JobAdmitsLongFreeze(db, input) && input.aiJobId !in db.checkpointByJob
    requires input.sourceRevisionDigest.LayerMemberDigest?
    ensures JobRecord(FrozenLongDb(db, input, now), input.aiJobId)
  {
  }

  lemma NewLongKeeps(db: Db, input: FreezeLongInput, now: Instant)
    requires RecordsOk(db) && input.aiJobId !in db.projections && input.traceId !in db.traces
    requires LeaseWellFormed(input.lease, now) && JobAdmitsLongFreeze(db, input)
    ensures RecordsOk(FrozenLongDb(db, input, now))
  {
    var after := FrozenLongDb(db, input, now);
    assert JobRecord(db, db.checkpoints[input.finalMidCheckpointId].producerJobId);
    NewLongRecord(db, input, now);
    forall j | j in after.projections ensures JobRecord(after, j) {
      if j != input.aiJobId {
        RecordBesideNewRows(db, after, input.aiJobId, input.traceId, j);
      }
    }
  }

  lemma FreezeLongKeepsRecords(db: Db, input: FreezeLongInput, now: Instant)
    requires RecordsOk(db)
    ensures RecordsOk(Kept(FreezeLongJob(db, input, now), db))
  {
    if Kept(FreezeLongJob(db, input, now), db) != db {
      FreezeLongFacts(db, input, now);
      NewLongKeeps(db, input, now);
    }
  }

  lemma FreezeLongFacts(db: Db, input: FreezeLongInput, now: Instant)
    requires Kept(FreezeLongJob(db, input, now), db) != db
    ensures JobAdmitsLongFreeze(db, input) && LeaseWellFormed(input.lease, now)
    ensures input.aiJobId !in db.projections && input.traceId !in db.traces
    ensures Kept(FreezeLongJob(db, input, now), db) == FrozenLongDb(db, input, now)
  {
  }

  // ---------------------------------------------------------------- committing

  predicate SameRoleButTarget(p: Projection, q: Projection) {
    && q.jobKind == p.jobKind && q.sourceCheckpointId == p.sourceCheckpointId
    && q.finalMidCheckpointId == p.finalMidCheckpointId && q.lease == p.lease
    && (q.targetRevisionDigest == p.targetRevisionDigest
        || (q.targetRevisionDigest.Some? && q.targetRevisionDigest.value.LayerMemberDigest?))
  }

  predicate SameCheckpoint(a: Checkpoint, b: Checkpoint) {
    b == a || (a.status.CpFrozen? && b == a.(status := CpCommitted, committedAt := b.committedAt))
  }

  /** A commit of job j writes j's projection and trace, j's checkpoint and nothing of another job's record. */
  ghost predicate CommitFrame(a: Db, b: Db, j: Id)
    requires j in a.projections
  {
    && b.migrationCompleted == a.migrationCompleted && b.checkpointByJob == a.checkpointByJob
    && b.traceByJob == a.traceByJob
    && b.projections.Keys == a.projections.Keys && b.traces.Keys == a.traces.Keys
    && b.checkpoints.Keys == a.checkpoints.Keys && b.longs.Keys <= a.longs.Keys + {j}
    && (forall k :: k in a.projections && k != j ==> b.projections[k] == a.projections[k])
    && SameRoleButTarget(a.projections[j], b.projections[j])
    && (forall t :: t in a.traces ==>
          b.traces[t].aiJobId == a.traces[t].aiJobId && (a.traces[t].aiJobId != j ==> b.traces[t] == a.traces[t]))
    && (forall c :: c in a.checkpoints ==>
          if c == a.projections[j].sourceCheckpointId then SameCheckpoint(a.checkpoints[c], b.checkpoints[c])
          else b.checkpoints[c] == a.checkpoints[c])
  }

  /** The rows a target leaves, without the rows the frame does not speak about. */
  lemma FinishedFrame(db: Db, written: Db, input: CommitInput, plan: TargetPlan, revisionId: Id, now: Instant)
    requires input.checkpointId in db.checkpoints && CommitAdmitted(db, input, now)
    requires written == db.(authorities := written.authorities, resolutions := written.resolutions,
                            claims := written.claims, evidences := written.evidences, identities := written.identities,
                            revisions := written.revisions, longs := written.longs, retention := written.retention)
    requires written.longs.Keys <= db.longs.Keys + {input.aiJobId}
    ensures CommitFrame(db, Finished(written, input, plan, revisionId, now), input.aiJobId)
  {
  }

  lemma TargetFrame(db: Db, input: CommitInput, seen: CommitReads, now: Instant, finalize: bool)
    requires CommitTarget(db, input, seen, now, finalize).Ok? && !JobSucceeded(db, input.aiJobId)
    ensures input.aiJobId in db.projections
    ensures CommitFrame(db, CommitTarget(db, input, seen, now, finalize).value.0, input.aiJobId)
  {
    TargetRows(db, input, seen, now, finalize);
    var plan := PlanTarget(db, input, seen).value;
    if finalize {
      FinishedFrame(db, WithTarget(db, input, plan), input, plan, |db.revisions|, now);
      RetentionKeepsFrame(db, Finished(WithTarget(db, input, plan), input, plan, |db.revisions|, now), input.aiJobId,
                          |db.revisions|);
    } else {
      RetentionKeepsFrame(db, WithTarget(db, input, plan), input.aiJobId, |db.revisions|);
    }
  }

  lemma RetentionKeepsFrame(a: Db, b: Db, j: Id, revisionId: Id)
    requires j in a.projections && CommitFrame(a, b, j)
    ensures CommitFrame(a, WithRetentionTarget(b, j, revisionId), j)
  {
  }

  lemma TargetRows(db: Db, input: CommitInput, seen: CommitReads, now: Instant, finalize: bool)
    requires CommitTarget(db, input, seen, now, finalize).Ok? && !JobSucceeded(db, input.aiJobId)
    ensures input.checkpointId in db.checkpoints && CommitAdmitted(db, input, now)
    ensures PlanTarget(db, input, seen).Ok? && PlanFits(db, PlanTarget(db, input, seen).value)
    ensures var plan := PlanTarget(db, input, seen).value;
            var written := WithTarget(db, input, plan);
            CommitTarget(db, input, seen, now, finalize).value.0
            == WithRetentionTarget(if finalize then Finished(written, input, plan, |db.revisions|, now) else written,
                                   input.aiJobId, |db.revisions|)
  {
  }

  lemma {:induction false} TargetsFrame(db: Db, targets: seq<(CommitInput, CommitReads)>, results: seq<CommitResult>,
                                        now: Instant, j: Id)
    requires targets != [] && forall i :: 0 <= i < |targets| ==> targets[i].0.aiJobId == j
    requires CommitTargets(db, targets, results, now).Ok? && !JobSucceeded(db, j)
    ensures j in db.projections && CommitFrame(db, CommitTargets(db, targets, results, now).value.0, j)
    decreases |targets|
  {
    TargetFrame(db, targets[0].0, targets[0].1, now, |targets| == 1);
    TargetWritten(db, targets[0].0, targets[0].1, now, |targets| == 1);
    var next := CommitTarget(db, targets[0].0, targets[0].1, now, |targets| == 1).value;
    if |targets| > 1 {
      TargetsFrame(next.0, targets[1..], results + [next.1], now, j);
      FramesCompose(db, next.0, CommitTargets(db, targets, results, now).value.0, j);
    } else {
      assert CommitTargets(db, targets, results, now).value.0 == next.0;
    }
  }

  lemma FramesCompose(a: Db, b: Db, c: Db, j: Id)
    requires j in a.projections && CommitFrame(a, b, j) && CommitFrame(b, c, j)
    ensures CommitFrame(a, c, j)
  {
  }

  lemma OwnRecordKept(a: Db, b: Db, j: Id)
    requires j in a.projections && JobRecord(a, j) && CommitFrame(a, b, j) && HasRevisions(b, j)
    ensures JobRecord(b, j)
  {
  }

  lemma OtherRecordKept(a: Db, b: Db, j: Id, k: Id)
    requires j in a.projections && JobRecord(a, j) && CommitFrame(a, b, j) && RevisionsExtend(a, b, j)
    requires k in a.projections && k != j && JobRecord(a, k)
    ensures JobRecord(b, k)
  {
    if HasRevisions(a, k) {
      RevisionsStay(a, b, j, k);
    }
  }

  lemma LongsKept(a: Db, b: Db, j: Id)
    requires j in a.projections && CommitFrame(a, b, j) && RevisionsExtend(a, b, j) && HasRevisions(b, j)
    requires forall k :: k in a.longs ==> HasRevisions(a, k)
    ensures forall k :: k in b.longs ==> HasRevisions(b, k)
  {
    forall k | k in b.longs ensures HasRevisions(b, k) {
      if k != j {
        RevisionsStay(a, b, j, k);
      }
    }
  }

  lemma HashesKept(a: Db, b: Db, j: Id)
    requires j in a.projections && CommitFrame(a, b, j)
    requires forall c :: c in a.checkpoints ==> a.checkpoints[c].memberManifestHash.CheckpointDigest?
    ensures forall c :: c in b.checkpoints ==> b.checkpoints[c].memberManifestHash.CheckpointDigest?
  {
  }

  lemma FrameKeepsRecords(a: Db, b: Db, j: Id)
    requires RecordsOk(a) && j in a.projections && CommitFrame(a, b, j) && RevisionsExtend(a, b, j) && HasRevisions(b, j)
    ensures RecordsOk(b)
  {
    LongsKept(a, b, j);
    HashesKept(a, b, j);
    assert JobRecord(a, j);
    forall k | k in b.projections ensures JobRecord(b, k) {
      if k == j {
        OwnRecordKept(a, b, j);
      } else {
        OtherRecordKept(a, b, j, k);
      }
    }
  }

  lemma CommitKeepsRecords(db: Db, targets: seq<(CommitInput, CommitReads)>, now: Instant)
    requires RecordsOk(db)
    requires forall i :: 0 <= i < |targets| ==> targets[i].0.aiJobId == targets[0].0.aiJobId
    ensures RecordsOk(Kept(CommitLayerRevisions(db, targets, now), db))
  {
    if CommitLayerRevisions(db, targets, now).Ok? {
      var after, j := CommitLayerRevisions(db, targets, now).value.0, targets[0].0.aiJobId;
      if JobSucceeded(db, j) {
        TargetsReplayed(db, targets, [], now, j);
      } else {
        TargetsFrame(db, targets, [], now, j);
        TargetsWritten(db, targets, [], now, j);
        assert after.revisions[|db.revisions|] in after.revisions;
        FrameKeepsRecords(db, after, j);
      }
    }
  }

  // ---------------------------------------------------------------- every run

  lemma StepKeepsRecords(s: State, step: Step)
    requires RecordsOk(s.db) && Allowed(s, step)
    ensures RecordsOk(Next(s, step).db)
  {
    if step.Commit? || step.Freeze? || step.FreezeLong? {
      RowStepKeepsRecords(s, step);
    } else {
      OtherStepKeepsRecords(s, step);
    }
  }

  lemma RowStepKeepsRecords(s: State, step: Step)
    requires RecordsOk(s.db) && Allowed(s, step) && (step.Commit? || step.Freeze? || step.FreezeLong?)
    ensures RecordsOk(NextDb(s, step))
  {
    match step
    case Commit(targets) => CommitKeepsRecords(s.db, targets, s.now);
    case Freeze(input) => FreezeKeepsRecords(s.db, input, s.now);
    case FreezeLong(input) => FreezeLongKeepsRecords(s.db, input, s.now);
  }

  lemma OtherStepKeepsRecords(s: State, step: Step)
    requires RecordsOk(s.db) && Allowed(s, step) && !(step.Commit? || step.Freeze? || step.FreezeLong?)
    ensures RecordsOk(NextDb(s, step))
  {
    OtherStepKeepsRoles(s, step);
    RolesKeptKeeps(s.db, NextDb(s, step));
  }

  lemma OtherStepKeepsRoles(s: State, step: Step)
    requires Allowed(s, step) && !(step.Commit? || step.Freeze? || step.FreezeLong?)
    ensures RolesKept(s.db, NextDb(s, step))
  {
    match step
    case TerminalizeJob(input) =>
      if Terminalize(s.db, input, s.now).Ok? {
        TerminalizeKeepsRoles(s.db, input, s.now);
      }
    case ClaimLease(input) => ClaimKeepsRoles(s.db, input, s.now);
    case Recover(command, _, _, rows) => RecoverKeepsRoles(s.db, command, rows);
    case Advance(input, authorized) => AdvanceKeepsRoles(s.db, input, authorized);
    case Admit(_, _, _) => JobsRewritten(s.db, NextDb(s, step));
    case Hide(_) => JobsRewritten(s.db, NextDb(s, step));
    case Wait(_) =>
  }

  lemma {:induction false} RunKeepsRecords(s: State, steps: seq<Step>)
    requires Inv(s.db) && RecordsOk(s.db) && AllAllowed(s, steps)
    ensures Inv(Run(s, steps).db) && RecordsOk(Run(s, steps).db)
    decreases |steps|
  {
    if steps != [] {
      StepIsSafe(s, steps[0]);
      StepKeepsRecords(s, steps[0]);
      RunKeepsRecords(Next(s, steps[0]), steps[1..]);
    }
  }
}
