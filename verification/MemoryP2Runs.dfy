/**
 Runs of the P2 memory protocol: workers freezing, committing and terminalizing under a lease,
 recoverers claiming expired leases or applying commands planned from records that may be stale,
 with a clock that never goes back.
 */
module MemoryP2Runs {
  import opened Options
  import opened MemoryP2Traces
  import opened MemoryP2Recovery
  import opened MemoryP2Store
  import opened MemoryP2Writes

  datatype State = State(db: Db, now: Instant)

  datatype Step =
    | Admit(jobId: Id, job: Job, segments: map<Id, InputSegment>)
    | Freeze(freeze: FreezeInput)
    | FreezeLong(freezeLong: FreezeLongInput)
    | Commit(targets: seq<(CommitInput, CommitReads)>)
    | TerminalizeJob(terminalize: TerminalizeInput)
    | ClaimLease(claim: ClaimLeaseInput)
    | Recover(command: RecoveryCommand, from: RecoveryAuthority, plannedAt: Instant, rows: seq<ReferenceAuthority>)
    | Advance(advance: AdvanceInput, authorized: bool)
    | Hide(hidden: Id)
    | Wait(duration: nat)

  predicate Live(status: Status) {
    status.Pending? || status.Running?
  }

  /** The frozen inputs of a new job: new rows, each with its own place in the job's order. */
  ghost predicate FreshSegments(db: Db, jobId: Id, segments: map<Id, InputSegment>) {
    && segments.Keys !! db.inputs.Keys
    && (forall k :: k in segments ==> segments[k].aiJobId == jobId)
    && (forall k, l :: k in segments && l in segments && segments[k].inputOrder == segments[l].inputOrder ==> k == l)
  }

  /**
   What a run may contain: jobs are admitted live under a new identifier, a commit's targets belong
   to one job, and a recovery command was planned by the service at some earlier instant from some
   record, which need not be the job's present one.
   */
  ghost predicate Allowed(s: State, step: Step) {
    match step
    case Admit(jobId, job, segments) =>
      && jobId !in s.db.jobs && jobId !in s.db.projections && Live(job.status)
      && FreshSegments(s.db, jobId, segments)
    case Commit(targets) =>
      forall i :: 0 <= i < |targets| ==> targets[i].0.aiJobId == targets[0].0.aiJobId
    case TerminalizeJob(input) => TerminalizeStatus(input.status)
    case Recover(command, from, plannedAt, _) => plannedAt <= s.now && Reconcile(from, plannedAt) == Apply(command)
    case Advance(input, _) => RunningStage(input.stage)
    case _ => true
  }

  function Kept<T>(result: Result<(Db, T), PersistError>, db: Db): Db {
    match result
    case Ok(pair) => pair.0
    case Err(_) => db
  }

  function NextDb(s: State, step: Step): Db
    requires step.TerminalizeJob? ==> TerminalizeStatus(step.terminalize.status)
  {
    match step
    case Admit(jobId, job, segments) => s.db.(jobs := s.db.jobs[jobId := job], inputs := s.db.inputs + segments)
    case Freeze(input) => Kept(FreezeCheckpoint(s.db, input, s.now), s.db)
    case FreezeLong(input) => Kept(FreezeLongJob(s.db, input, s.now), s.db)
    case Commit(targets) => Kept(CommitLayerRevisions(s.db, targets, s.now), s.db)
    case TerminalizeJob(input) =>
      (match Terminalize(s.db, input, s.now)
       case Ok(db) => db
       case Err(_) => s.db)
    case ClaimLease(input) => Kept(ClaimRecoveryLease(s.db, input, s.now), s.db)
    case Recover(command, _, _, rows) => ApplyRecovery(s.db, command, rows).0
    case Advance(input, authorized) => AdvanceStage(s.db, input, authorized).0
    case Hide(jobId) =>
      if jobId in s.db.jobs then s.db.(jobs := s.db.jobs[jobId := s.db.jobs[jobId].(retentionState := Hidden)]) else s.db
    case Wait(_) => s.db
  }

  function Next(s: State, step: Step): State
    requires step.TerminalizeJob? ==> TerminalizeStatus(step.terminalize.status)
  {
    State(NextDb(s, step), s.now + if step.Wait? then step.duration else 0)
  }

  // ---------------------------------------------------------------- invariant and step safety

  /** A job has written revisions exactly when it succeeded; every projection belongs to a job. */
  ghost predicate Inv(db: Db) {
    && (forall j :: j in db.projections ==> j in db.jobs && db.projections[j].lease.epoch >= 1)
    && (forall i :: 0 <= i < |db.revisions| ==> JobSucceeded(db, db.revisions[i].sourceJobId))
    && (forall j :: j in db.projections && db.jobs[j].status.Succeeded? ==> HasRevisions(db, j))
  }

  ghost predicate ByCommit(before: Db, after: Db, now: Instant, step: Step, j: Id)
    requires j in before.projections
  {
    && step.Commit?
    && step.targets != []
    && (forall i :: 0 <= i < |step.targets| ==>
          && step.targets[i].0.aiJobId == j
          && HoldsLease(before.projections[j], step.targets[i].0.lease, now))
    && JobSucceeded(after, j)
    && !HasRevisions(before, j) && HasRevisions(after, j)
  }

  ghost predicate ByTerminalize(before: Db, after: Db, now: Instant, step: Step, j: Id)
    requires j in before.projections && j in after.jobs
  {
    && step.TerminalizeJob?
    && step.terminalize.aiJobId == j
    && HoldsLease(before.projections[j], step.terminalize.lease, now)
    && after.jobs[j].status == step.terminalize.status
    && TerminalizeStatus(after.jobs[j].status)
    && !HasRevisions(after, j)
  }

  ghost predicate ByRecovery(before: Db, after: Db, now: Instant, step: Step, j: Id)
    requires j in before.projections && j in after.jobs
  {
    && step.Recover?
    && step.command.kind.TerminalizeUncommitted?
    && step.command.jobId == j
    && before.projections[j].lease.expiresAt <= now
    && after.jobs[j].status.Unavailable?
    && !HasRevisions(after, j)
  }

  /** How one step may treat a job that is under the protocol. */
  ghost predicate JobSafe(before: Db, after: Db, now: Instant, step: Step, j: Id)
    requires j in before.projections && j in before.jobs
  {
    && j in after.projections && j in after.jobs
    && var p, q := before.projections[j].lease, after.projections[j].lease;
    && p.epoch <= q.epoch
    && (p.epoch == q.epoch ==> p == q)
    && (p != q ==> p.expiresAt <= now < q.expiresAt)
    && (after.jobs[j].status != before.jobs[j].status ==>
          && Live(before.jobs[j].status)
          && (|| ByCommit(before, after, now, step, j)
              || ByTerminalize(before, after, now, step, j)
              || ByRecovery(before, after, now, step, j)))
  }

  ghost predicate StepSafe(before: Db, after: Db, now: Instant, step: Step)
    requires Inv(before)
  {
    && (forall j :: j in before.projections ==> JobSafe(before, after, now, step, j))
    && |before.revisions| <= |after.revisions|
    && (forall i :: |before.revisions| <= i < |after.revisions| ==>
          && JobIs(before, after.revisions[i].sourceJobId, Running)
          && JobIs(after, after.revisions[i].sourceJobId, Succeeded))
  }

  predicate JobIs(db: Db, j: Id, status: Status) {
    j in db.jobs && db.jobs[j].status == status
  }

  // ---------------------------------------------------------------- one target, then a whole commit

  ghost predicate SameLeases(a: Db, b: Db) {
    && a.projections.Keys == b.projections.Keys
    && forall j :: j in a.projections ==> a.projections[j].lease == b.projections[j].lease
  }

  /** b's revisions are a's, in place, followed by revisions of job j. */
  ghost predicate RevisionsExtend(a: Db, b: Db, j: Id) {
    && |a.revisions| <= |b.revisions|
    && (forall i :: 0 <= i < |a.revisions| ==> b.revisions[i].sourceJobId == a.revisions[i].sourceJobId)
    && (forall i :: |a.revisions| <= i < |b.revisions| ==> b.revisions[i].sourceJobId == j)
  }

  ghost predicate JobsChangeOnlyAt(a: Db, b: Db, j: Id, succeeded: bool) {
    && a.jobs.Keys == b.jobs.Keys
    && (forall k :: k in a.jobs && k != j ==> b.jobs[k] == a.jobs[k])
    && (j in a.jobs ==> if succeeded then b.jobs[j].status.Succeeded? else b.jobs[j] == a.jobs[j])
  }

  /** One target written: the caller's lease is the job's, one revision is added, the last target finishes the job. */
  lemma TargetWritten(db: Db, input: CommitInput, seen: CommitReads, now: Instant, finalize: bool)
    requires CommitTarget(db, input, seen, now, finalize).Ok? && !JobSucceeded(db, input.aiJobId)
    ensures var after := CommitTarget(db, input, seen, now, finalize).value.0;
            && input.aiJobId in db.projections && HoldsLease(db.projections[input.aiJobId], input.lease, now)
            && input.aiJobId in db.jobs && db.jobs[input.aiJobId].status.Running?
            && SameLeases(db, after)
            && RevisionsExtend(db, after, input.aiJobId) && |after.revisions| == |db.revisions| + 1
            && JobsChangeOnlyAt(db, after, input.aiJobId, finalize)
  {
  }

  /** Every target held the job's current token. */
  ghost predicate AllHold(db: Db, targets: seq<(CommitInput, CommitReads)>, now: Instant, j: Id)
    requires j in db.projections
  {
    forall i :: 0 <= i < |targets| ==> HoldsLease(db.projections[j], targets[i].0.lease, now)
  }

  lemma {:induction false} TargetsHold(db: Db, targets: seq<(CommitInput, CommitReads)>, results: seq<CommitResult>,
                                       now: Instant, j: Id)
    requires targets != [] && forall i :: 0 <= i < |targets| ==> targets[i].0.aiJobId == j
    requires CommitTargets(db, targets, results, now).Ok? && !JobSucceeded(db, j)
    ensures j in db.projections && AllHold(db, targets, now, j)
    decreases |targets|
  {
    TargetWritten(db, targets[0].0, targets[0].1, now, |targets| == 1);
    var next := CommitTarget(db, targets[0].0, targets[0].1, now, |targets| == 1).value;
    if |targets| > 1 {
      TargetsHold(next.0, targets[1..], results + [next.1], now, j);
      RestHold(db, next.0, targets, now, j);
    }
  }

  lemma RestHold(db: Db, next: Db, targets: seq<(CommitInput, CommitReads)>, now: Instant, j: Id)
    requires SameLeases(db, next) && j in db.projections && targets != []
    requires HoldsLease(db.projections[j], targets[0].0.lease, now) && AllHold(next, targets[1..], now, j)
    ensures AllHold(db, targets, now, j)
  {
    forall i | 0 <= i < |targets| ensures HoldsLease(db.projections[j], targets[i].0.lease, now) {
      assert i > 0 ==> targets[1..][i - 1] == targets[i];
    }
  }

  lemma {:induction false} TargetsExtend(db: Db, targets: seq<(CommitInput, CommitReads)>, results: seq<CommitResult>,
                                         now: Instant, j: Id)
    requires targets != [] && forall i :: 0 <= i < |targets| ==> targets[i].0.aiJobId == j
    requires CommitTargets(db, targets, results, now).Ok? && !JobSucceeded(db, j)
    ensures var after := CommitTargets(db, targets, results, now).value.0;
            && j in db.projections && j in db.jobs && db.jobs[j].status.Running?
            && SameLeases(db, after)
            && RevisionsExtend(db, after, j) && |after.revisions| > |db.revisions|
            && JobsChangeOnlyAt(db, after, j, true)
    decreases |targets|
  {
    var next := CommitTarget(db, targets[0].0, targets[0].1, now, |targets| == 1).value;
    if |targets| == 1 {
      TargetWritten(db, targets[0].0, targets[0].1, now, true);
      assert CommitTargets(next.0, targets[1..], results + [next.1], now).value.0 == next.0;
    } else {
      TargetWritten(db, targets[0].0, targets[0].1, now, false);
      TargetsExtend(next.0, targets[1..], results + [next.1], now, j);
      WrittenTwice(db, next.0, CommitTargets(next.0, targets[1..], results + [next.1], now).value.0, j);
    }
  }

  lemma TargetsWritten(db: Db, targets: seq<(CommitInput, CommitReads)>, results: seq<CommitResult>, now: Instant, j: Id)
    requires targets != [] && forall i :: 0 <= i < |targets| ==> targets[i].0.aiJobId == j
    requires CommitTargets(db, targets, results, now).Ok? && !JobSucceeded(db, j)
    ensures var after := CommitTargets(db, targets, results, now).value.0;
            && j in db.projections && j in db.jobs && db.jobs[j].status.Running?
            && AllHold(db, targets, now, j)
            && SameLeases(db, after)
            && RevisionsExtend(db, after, j) && |after.revisions| > |db.revisions|
            && JobsChangeOnlyAt(db, after, j, true)
  {
    TargetsHold(db, targets, results, now, j);
    TargetsExtend(db, targets, results, now, j);
  }

  lemma WrittenTwice(a: Db, b: Db, c: Db, j: Id)
    requires SameLeases(a, b) && RevisionsExtend(a, b, j) && JobsChangeOnlyAt(a, b, j, false)
    requires SameLeases(b, c) && RevisionsExtend(b, c, j) && JobsChangeOnlyAt(b, c, j, true)
    ensures SameLeases(a, c) && RevisionsExtend(a, c, j) && JobsChangeOnlyAt(a, c, j, true)
  {
  }

  lemma {:induction false} TargetsReplayed(db: Db, targets: seq<(CommitInput, CommitReads)>, results: seq<CommitResult>,
                                           now: Instant, j: Id)
    requires forall i :: 0 <= i < |targets| ==> targets[i].0.aiJobId == j
    requires CommitTargets(db, targets, results, now).Ok? && JobSucceeded(db, j)
    ensures CommitTargets(db, targets, results, now).value.0 == db
    decreases |targets|
  {
    if targets != [] {
      var next := CommitTarget(db, targets[0].0, targets[0].1, now, |targets| == 1).value;
      TargetsReplayed(next.0, targets[1..], results + [next.1], now, j);
    }
  }

  /** A job that ends succeeded with new revisions of its own keeps the invariant. */
  lemma JobCommitted(db: Db, after: Db, j: Id)
    requires Inv(db) && j in db.projections && db.jobs[j].status.Running?
    requires SameLeases(db, after) && RevisionsExtend(db, after, j) && |after.revisions| > |db.revisions|
    requires JobsChangeOnlyAt(db, after, j, true)
    ensures Inv(after) && HasRevisions(after, j) && !HasRevisions(db, j)
  {
    UnfinishedJobHasNone(db, j);
    assert after.revisions[|db.revisions|] in after.revisions;
    forall i | 0 <= i < |after.revisions| ensures JobSucceeded(after, after.revisions[i].sourceJobId) {
      if i < |db.revisions| {
        assert JobSucceeded(db, db.revisions[i].sourceJobId);
      }
    }
    forall k | k in after.projections && after.jobs[k].status.Succeeded? ensures HasRevisions(after, k) {
      if k != j {
        assert HasRevisions(db, k);
        RevisionsStay(db, after, j, k);
      }
    }
  }

  lemma CommitIsSafe(db: Db, step: Step, now: Instant)
    requires Inv(db) && step.Commit?
    requires forall i :: 0 <= i < |step.targets| ==> step.targets[i].0.aiJobId == step.targets[0].0.aiJobId
    ensures var after := Kept(CommitLayerRevisions(db, step.targets, now), db);
            Inv(after) && StepSafe(db, after, now, step)
  {
    var targets := step.targets;
    if CommitLayerRevisions(db, targets, now).Ok? {
      var after, j := CommitLayerRevisions(db, targets, now).value.0, targets[0].0.aiJobId;
      if JobSucceeded(db, j) {
        TargetsReplayed(db, targets, [], now, j);
      } else {
        TargetsWritten(db, targets, [], now, j);
        FirstCommitIsSafe(db, after, step, now, j);
      }
    }
  }

  lemma FirstCommitIsSafe(db: Db, after: Db, step: Step, now: Instant, j: Id)
    requires Inv(db) && j in db.projections && db.jobs[j].status.Running? && step.Commit? && step.targets != []
    requires forall i :: 0 <= i < |step.targets| ==>
               step.targets[i].0.aiJobId == j && HoldsLease(db.projections[j], step.targets[i].0.lease, now)
    requires SameLeases(db, after) && RevisionsExtend(db, after, j) && |after.revisions| > |db.revisions|
    requires JobsChangeOnlyAt(db, after, j, true)
    ensures Inv(after) && StepSafe(db, after, now, step)
  {
    JobCommitted(db, after, j);
    assert ByCommit(db, after, now, step, j);
  }

  lemma RevisionsStay(a: Db, b: Db, j: Id, k: Id)
    requires RevisionsExtend(a, b, j) && HasRevisions(a, k)
    ensures HasRevisions(b, k)
  {
    var r :| r in a.revisions && r.sourceJobId == k;
    var i :| 0 <= i < |a.revisions| && a.revisions[i] == r;
    assert b.revisions[i] in b.revisions;
  }

  // ---------------------------------------------------------------- recovery

  lemma NoRevisionsNoIds(db: Db, j: Id)
    ensures RevisionsOfJob(db.revisions, j, |db.revisions|) != [] <==> HasRevisions(db, j)
  {
    var ids := RevisionsOfJob(db.revisions, j, |db.revisions|);
    if ids != [] {
      assert ids[0] in ids;
      assert db.revisions[ids[0]] in db.revisions;
    }
    if HasRevisions(db, j) {
      var r :| r in db.revisions && r.sourceJobId == j;
      var i: Id :| i < |db.revisions| && db.revisions[i] == r;
      assert i in ids;
    }
  }

  /** What the compare-and-set establishes about the stored rows. */
  lemma AdmittedRecovery(db: Db, c: RecoveryCommand, rows: seq<ReferenceAuthority>)
    requires RecoveryAdmitted(db, c, rows)
    ensures c.jobId in db.jobs && c.jobId in db.projections && c.jobId in db.traceByJob
    ensures db.traceByJob[c.jobId] in db.traces
    ensures db.jobs[c.jobId].status in c.expectedJobStatuses
    ensures c.expectedLeaseExpiresAt == Some(db.projections[c.jobId].lease.expiresAt)
    ensures c.expectedCommitDigest.Some? <==> HasRevisions(db, c.jobId)
    ensures db.traces[db.traceByJob[c.jobId]].commitDigest == c.trace.semantic.commitDigest
  {
    NoRevisionsNoIds(db, c.jobId);
  }

  /** A command planned long ago from any record still only does what the job's present state allows. */
  lemma RecoverIsSafe(s: State, step: Step)
    requires Inv(s.db) && step.Recover? && Allowed(s, step)
    ensures var after := ApplyRecovery(s.db, step.command, step.rows).0;
            Inv(after) && StepSafe(s.db, after, s.now, step)
  {
    var db, c := s.db, step.command;
    var after := ApplyRecovery(db, c, step.rows).0;
    if RecoveryAdmitted(db, c, step.rows) {
      AdmittedRecovery(db, c, step.rows);
      AdmittedWrite(db, c, step.rows);
      PlannedCommandShape(step.from, step.plannedAt);
      RecoveredJobIsSafe(db, after, step, s.now);
    }
  }

  lemma AdmittedWrite(db: Db, c: RecoveryCommand, rows: seq<ReferenceAuthority>)
    requires RecoveryAdmitted(db, c, rows) && c.jobId in db.jobs
    ensures var after := ApplyRecovery(db, c, rows).0;
            && after.projections == db.projections && after.revisions == db.revisions
            && after.jobs == db.jobs[c.jobId := RecoveredJob(db.jobs[c.jobId], c)]
  {
  }

  lemma RecoveredJobIsSafe(db: Db, after: Db, step: Step, now: Instant)
    requires Inv(db) && step.Recover? && step.command.jobId in db.jobs && step.command.jobId in db.projections
    requires var c, j := step.command, step.command.jobId;
             && after.projections == db.projections && after.revisions == db.revisions
             && after.jobs == db.jobs[j := RecoveredJob(db.jobs[j], c)]
             && db.jobs[j].status in c.expectedJobStatuses
             && c.expectedLeaseExpiresAt == Some(db.projections[j].lease.expiresAt)
             && (c.expectedCommitDigest.Some? <==> HasRevisions(db, j))
             && PlannedShape(c, step.from.jobStatus, step.plannedAt) && step.plannedAt <= now
    ensures Inv(after) && StepSafe(db, after, now, step)
  {
    var c := step.command;
    assert HasRevisions(after, c.jobId) == HasRevisions(db, c.jobId);
    JobRewritten(db, after, c.jobId);
  }

  /** Rewriting one job keeps the invariant if it is succeeded exactly when it has revisions. */
  lemma JobRewritten(db: Db, after: Db, j: Id)
    requires Inv(db) && j in db.projections
    requires SameLeases(db, after) && after.revisions == db.revisions
    requires after.jobs.Keys == db.jobs.Keys && forall k :: k in db.jobs && k != j ==> after.jobs[k] == db.jobs[k]
    requires after.jobs[j].status.Succeeded? <==> HasRevisions(db, j)
    ensures Inv(after)
  {
    forall i | 0 <= i < |after.revisions| ensures JobSucceeded(after, after.revisions[i].sourceJobId) {
      assert after.revisions[i] in db.revisions;
      assert JobSucceeded(db, db.revisions[i].sourceJobId);
    }
    forall k | k in after.projections && after.jobs[k].status.Succeeded? ensures HasRevisions(after, k) {
      assert HasRevisions(db, k);
    }
  }

  lemma UnfinishedJobHasNone(db: Db, j: Id)
    requires Inv(db) && !JobSucceeded(db, j)
    ensures !HasRevisions(db, j)
  {
  }

  /** What a terminalization that changes anything does to the rows. */
  lemma TerminalizedRows(db: Db, input: TerminalizeInput, now: Instant)
    requires TerminalizeStatus(input.status) && Terminalize(db, input, now).Ok? && Terminalize(db, input, now).value != db
    ensures var after, j := Terminalize(db, input, now).value, input.aiJobId;
            && j in db.projections && HoldsLease(db.projections[j], input.lease, now) && JobIs(db, j, Running)
            && SameLeases(db, after) && after.revisions == db.revisions
            && after.jobs.Keys == db.jobs.Keys && (forall k :: k in db.jobs && k != j ==> after.jobs[k] == db.jobs[k])
            && after.jobs[j].status == input.status
  {
  }

  lemma TerminalizeIsSafe(db: Db, step: Step, now: Instant)
    requires Inv(db) && step.TerminalizeJob? && TerminalizeStatus(step.terminalize.status)
    requires Terminalize(db, step.terminalize, now).Ok?
    ensures var after := Terminalize(db, step.terminalize, now).value;
            Inv(after) && StepSafe(db, after, now, step)
  {
    if Terminalize(db, step.terminalize, now).value != db {
      TerminalizedRows(db, step.terminalize, now);
      EndedUnderToken(db, Terminalize(db, step.terminalize, now).value, now, step);
    }
  }

  lemma EndedUnderToken(db: Db, after: Db, now: Instant, step: Step)
    requires Inv(db) && step.TerminalizeJob? && TerminalizeStatus(step.terminalize.status)
    requires var j := step.terminalize.aiJobId;
             && j in db.projections && HoldsLease(db.projections[j], step.terminalize.lease, now) && JobIs(db, j, Running)
             && SameLeases(db, after) && after.revisions == db.revisions
             && after.jobs.Keys == db.jobs.Keys && (forall k :: k in db.jobs && k != j ==> after.jobs[k] == db.jobs[k])
             && after.jobs[j].status == step.terminalize.status
    ensures Inv(after) && StepSafe(db, after, now, step)
  {
    UnfinishedJobHasNone(db, step.terminalize.aiJobId);
    JobRewritten(db, after, step.terminalize.aiJobId);
  }

  /** Steps that change no existing job's status keep the invariant. */
  lemma QuietChange(db: Db, after: Db)
    requires Inv(db) && after.revisions == db.revisions
    requires forall j :: j in db.jobs ==> j in after.jobs && after.jobs[j].status == db.jobs[j].status
    requires forall j :: j in after.projections ==>
               && j in after.jobs && after.projections[j].lease.epoch >= 1
               && (j in db.projections || !after.jobs[j].status.Succeeded?)
    ensures Inv(after)
  {
    forall i | 0 <= i < |after.revisions| ensures JobSucceeded(after, after.revisions[i].sourceJobId) {
      assert JobSucceeded(db, db.revisions[i].sourceJobId);
    }
    forall k | k in after.projections && after.jobs[k].status.Succeeded? ensures HasRevisions(after, k) {
      assert HasRevisions(db, k);
    }
  }

  /** A change that also leaves every stored lease alone. */
  lemma QuietChangeIsSafe(db: Db, after: Db, now: Instant, step: Step)
    requires Inv(db) && after.revisions == db.revisions
    requires forall j :: j in db.jobs ==> j in after.jobs && after.jobs[j].status == db.jobs[j].status
    requires forall j :: j in after.projections ==>
               && j in after.jobs && after.projections[j].lease.epoch >= 1
               && (j in db.projections || !after.jobs[j].status.Succeeded?)
    requires forall j :: j in db.projections ==>
               j in after.projections && after.projections[j].lease == db.projections[j].lease
    ensures Inv(after) && StepSafe(db, after, now, step)
  {
    QuietChange(db, after);
  }

  ghost predicate LeavesLeases(db: Db, after: Db) {
    && after.jobs == db.jobs && after.revisions == db.revisions
    && (forall j :: j in after.projections ==>
          && j in db.jobs && after.projections[j].lease.epoch >= 1
          && (j in db.projections || !db.jobs[j].status.Succeeded?))
    && (forall j :: j in db.projections ==>
          j in after.projections && after.projections[j].lease == db.projections[j].lease)
  }

  lemma FreezeLeavesLeases(db: Db, input: FreezeInput, now: Instant)
    requires forall j :: j in db.projections ==> j in db.jobs && db.projections[j].lease.epoch >= 1
    ensures LeavesLeases(db, Kept(FreezeCheckpoint(db, input, now), db))
  {
  }

  lemma FreezeLongLeavesLeases(db: Db, input: FreezeLongInput, now: Instant)
    requires forall j :: j in db.projections ==> j in db.jobs && db.projections[j].lease.epoch >= 1
    ensures LeavesLeases(db, Kept(FreezeLongJob(db, input, now), db))
  {
  }

  lemma FreezeIsSafe(db: Db, step: Step, now: Instant)
    requires Inv(db) && step.Freeze?
    ensures var after := Kept(FreezeCheckpoint(db, step.freeze, now), db);
            Inv(after) && StepSafe(db, after, now, step)
  {
    FreezeLeavesLeases(db, step.freeze, now);
    QuietChangeIsSafe(db, Kept(FreezeCheckpoint(db, step.freeze, now), db), now, step);
  }

  lemma FreezeLongIsSafe(db: Db, step: Step, now: Instant)
    requires Inv(db) && step.FreezeLong?
    ensures var after := Kept(FreezeLongJob(db, step.freezeLong, now), db);
            Inv(after) && StepSafe(db, after, now, step)
  {
    FreezeLongLeavesLeases(db, step.freezeLong, now);
    QuietChangeIsSafe(db, Kept(FreezeLongJob(db, step.freezeLong, now), db), now, step);
  }

  /** A lease that has run out is replaced by a later one with a higher epoch. */
  lemma LeaseReplaced(db: Db, after: Db, now: Instant, step: Step, j: Id, p: Projection)
    requires Inv(db) && j in db.projections && after == db.(projections := db.projections[j := p])
    requires db.projections[j].lease.epoch < p.lease.epoch && db.projections[j].lease.expiresAt <= now < p.lease.expiresAt
    ensures Inv(after) && StepSafe(db, after, now, step)
  {
    QuietChange(db, after);
  }

  lemma ClaimIsSafe(db: Db, step: Step, now: Instant)
    requires Inv(db) && step.ClaimLease?
    ensures var after := Kept(ClaimRecoveryLease(db, step.claim, now), db);
            Inv(after) && StepSafe(db, after, now, step)
  {
    var claimed, j := ClaimRecoveryLease(db, step.claim, now), step.claim.aiJobId;
    if claimed.Ok? && claimed.value.1.Some? {
      LeaseReplaced(db, claimed.value.0, now, step, j, claimed.value.0.projections[j]);
    } else {
      assert Kept(claimed, db) == db;
    }
  }

  lemma AdvanceIsSafe(db: Db, step: Step, now: Instant)
    requires Inv(db) && step.Advance?
    ensures var after := AdvanceStage(db, step.advance, step.authorized).0;
            Inv(after) && StepSafe(db, after, now, step)
  {
    var after := AdvanceStage(db, step.advance, step.authorized).0;
    AdvanceTouchesTraces(db, step.advance, step.authorized);
    QuietChangeIsSafe(db, after, now, step);
  }

  lemma AdvanceTouchesTraces(db: Db, input: AdvanceInput, authorized: bool)
    ensures var after := AdvanceStage(db, input, authorized).0;
            after.projections == db.projections && after.jobs == db.jobs && after.revisions == db.revisions
  {
  }

  lemma AdmitIsSafe(db: Db, jobId: Id, job: Job, segments: map<Id, InputSegment>, step: Step, now: Instant)
    requires Inv(db) && jobId !in db.jobs
    ensures var after := db.(jobs := db.jobs[jobId := job], inputs := db.inputs + segments);
            Inv(after) && StepSafe(db, after, now, step)
  {
    QuietChangeIsSafe(db, db.(jobs := db.jobs[jobId := job], inputs := db.inputs + segments), now, step);
  }

  lemma HideIsSafe(db: Db, jobId: Id, step: Step, now: Instant)
    requires Inv(db) && jobId in db.jobs
    ensures var after := db.(jobs := db.jobs[jobId := db.jobs[jobId].(retentionState := Hidden)]);
            Inv(after) && StepSafe(db, after, now, step)
  {
    QuietChangeIsSafe(db, db.(jobs := db.jobs[jobId := db.jobs[jobId].(retentionState := Hidden)]), now, step);
  }

  // ---------------------------------------------------------------- the step and run theorems

  /**
   One step of the protocol: lease epochs only grow and a lease is replaced only once it has run out;
   a job changes status only out of a live one, and then by a commit or a terminalization holding its
   current unexpired token, or by recovery after its lease expired with nothing committed.
   */
  lemma StepIsSafe(s: State, step: Step)
    requires Inv(s.db) && Allowed(s, step)
    ensures Inv(Next(s, step).db)
    ensures StepSafe(s.db, Next(s, step).db, s.now, step)
  {
    if step.Commit? || step.Freeze? || step.FreezeLong? || step.TerminalizeJob? {
      WorkerStepIsSafe(s, step);
    } else {
      OtherStepIsSafe(s, step);
    }
  }

  lemma WorkerStepIsSafe(s: State, step: Step)
    requires Inv(s.db) && Allowed(s, step) && (step.Commit? || step.Freeze? || step.FreezeLong? || step.TerminalizeJob?)
    ensures Inv(NextDb(s, step)) && StepSafe(s.db, NextDb(s, step), s.now, step)
  {
    match step
    case Commit(_) => CommitIsSafe(s.db, step, s.now);
    case Freeze(_) => FreezeIsSafe(s.db, step, s.now);
    case FreezeLong(_) => FreezeLongIsSafe(s.db, step, s.now);
    case TerminalizeJob(input) =>
      if Terminalize(s.db, input, s.now).Ok? {
        TerminalizeIsSafe(s.db, step, s.now);
      }
  }

  lemma OtherStepIsSafe(s: State, step: Step)
    requires Inv(s.db) && Allowed(s, step)
    requires !(step.Commit? || step.Freeze? || step.FreezeLong? || step.TerminalizeJob?)
    ensures Inv(NextDb(s, step)) && StepSafe(s.db, NextDb(s, step), s.now, step)
  {
    match step
    case Recover(_, _, _, _) => RecoverIsSafe(s, step);
    case ClaimLease(_) => ClaimIsSafe(s.db, step, s.now);
    case Advance(_, _) => AdvanceIsSafe(s.db, step, s.now);
    case Admit(jobId, job, segments) => AdmitIsSafe(s.db, jobId, job, segments, step, s.now);
    case Hide(jobId) =>
      if jobId in s.db.jobs {
        HideIsSafe(s.db, jobId, step, s.now);
      }
    case Wait(_) =>
  }

  ghost predicate AllAllowed(s: State, steps: seq<Step>)
    decreases |steps|
  {
    steps != [] ==> Allowed(s, steps[0]) && AllAllowed(Next(s, steps[0]), steps[1..])
  }

  ghost function Run(s: State, steps: seq<Step>): State
    requires AllAllowed(s, steps)
    decreases |steps|
  {
    if steps == [] then s else Run(Next(s, steps[0]), steps[1..])
  }

  predicate LiveJob(db: Db, j: Id) {
    j in db.jobs && Live(db.jobs[j].status)
  }

  /** How often job j stops being live during a run. */
  ghost function Exits(s: State, steps: seq<Step>, j: Id): nat
    requires AllAllowed(s, steps)
    decreases |steps|
  {
    if steps == [] then 0
    else
      var next := Next(s, steps[0]);
      (if LiveJob(s.db, j) && !LiveJob(next.db, j) then 1 else 0) + Exits(next, steps[1..], j)
  }

  /** What one step may do to one job, without the reasons. */
  lemma JobThroughStep(s: State, step: Step, j: Id)
    requires Inv(s.db) && Allowed(s, step) && j in s.db.projections
    ensures var next := Next(s, step);
            && Inv(next.db) && s.now <= next.now && j in next.db.projections && j in next.db.jobs
            && s.db.projections[j].lease.epoch <= next.db.projections[j].lease.epoch
            && (s.db.projections[j].lease.epoch == next.db.projections[j].lease.epoch ==>
                  s.db.projections[j].lease == next.db.projections[j].lease)
            && (!Live(s.db.jobs[j].status) ==> next.db.jobs[j].status == s.db.jobs[j].status)
  {
    StepIsSafe(s, step);
    assert JobSafe(s.db, Next(s, step).db, s.now, step, j);
  }

  /**
   Over any run a job's lease epoch only grows and an epoch names one lease; the job stops being live
   at most once and then keeps its status for good; and it has written revisions exactly when it
   succeeded, so a terminalized job has committed nothing and a committed one is never terminalized.
   */
  lemma {:induction false} RunIsSafe(s: State, steps: seq<Step>, j: Id)
    requires Inv(s.db) && AllAllowed(s, steps) && j in s.db.projections
    ensures var final := Run(s, steps);
            && Inv(final.db) && s.now <= final.now
            && j in final.db.projections
            && s.db.projections[j].lease.epoch <= final.db.projections[j].lease.epoch
            && (s.db.projections[j].lease.epoch == final.db.projections[j].lease.epoch ==>
                  s.db.projections[j].lease == final.db.projections[j].lease)
            && (!Live(s.db.jobs[j].status) ==> final.db.jobs[j].status == s.db.jobs[j].status)
            && Exits(s, steps, j) == (if LiveJob(s.db, j) && !LiveJob(final.db, j) then 1 else 0)
            && (HasRevisions(final.db, j) <==> final.db.jobs[j].status.Succeeded?)
    decreases |steps|
  {
    if steps == [] {
      if !s.db.jobs[j].status.Succeeded? {
        UnfinishedJobHasNone(s.db, j);
      }
    } else {
      JobThroughStep(s, steps[0], j);
      RunIsSafe(Next(s, steps[0]), steps[1..], j);
    }
  }

  // ---------------------------------------------------------------- cancelling

  /** A running job is never terminalized as cancelled: its trace would carry an error code. */
  lemma CancellingIsRefused(db: Db, input: TerminalizeInput, now: Instant)
    requires input.status.Cancelled? && JobIs(db, input.aiJobId, Running)
    ensures Terminalize(db, input, now).Err?
  {
  }

  ghost predicate NoneCancelled(db: Db) {
    forall j :: j in db.projections && j in db.jobs ==> !db.jobs[j].status.Cancelled?
  }

  /** Every job that comes under the protocol runs. */
  ghost predicate NewJobsRun(before: Db, after: Db) {
    forall j :: j in after.projections && j !in before.projections ==> JobIs(after, j, Running)
  }

  lemma FreezeRuns(db: Db, input: FreezeInput, now: Instant)
    ensures NewJobsRun(db, Kept(FreezeCheckpoint(db, input, now), db))
  {
  }

  lemma FreezeLongRuns(db: Db, input: FreezeLongInput, now: Instant)
    ensures NewJobsRun(db, Kept(FreezeLongJob(db, input, now), db))
  {
  }

  lemma CommitsProject(db: Db, targets: seq<(CommitInput, CommitReads)>, now: Instant)
    ensures Kept(CommitLayerRevisions(db, targets, now), db).projections.Keys == db.projections.Keys
  {
    if CommitLayerRevisions(db, targets, now).Ok? {
      TargetsProject(db, targets, [], now);
    }
  }

  lemma {:induction false} TargetsProject(db: Db, targets: seq<(CommitInput, CommitReads)>, results: seq<CommitResult>,
                                          now: Instant)
    requires CommitTargets(db, targets, results, now).Ok?
    ensures CommitTargets(db, targets, results, now).value.0.projections.Keys == db.projections.Keys
    decreases |targets|
  {
    if targets != [] {
      TargetProjects(db, targets[0].0, targets[0].1, now, |targets| == 1);
      var next := CommitTarget(db, targets[0].0, targets[0].1, now, |targets| == 1).value;
      TargetsProject(next.0, targets[1..], results + [next.1], now);
    }
  }

  lemma TargetProjects(db: Db, input: CommitInput, seen: CommitReads, now: Instant, finalize: bool)
    requires CommitTarget(db, input, seen, now, finalize).Ok?
    ensures CommitTarget(db, input, seen, now, finalize).value.0.projections.Keys == db.projections.Keys
  {
  }

  lemma StepProjects(s: State, step: Step)
    requires Allowed(s, step)
    ensures NewJobsRun(s.db, NextDb(s, step))
  {
    match step
    case Freeze(input) => FreezeRuns(s.db, input, s.now);
    case FreezeLong(input) => FreezeLongRuns(s.db, input, s.now);
    case Commit(targets) => CommitsProject(s.db, targets, s.now);
    case _ => OtherStepProjects(s, step);
  }

  lemma OtherStepProjects(s: State, step: Step)
    requires Allowed(s, step) && !step.Freeze? && !step.FreezeLong? && !step.Commit?
    ensures NextDb(s, step).projections.Keys == s.db.projections.Keys
  {
    match step
    case TerminalizeJob(input) =>
      if Terminalize(s.db, input, s.now).Ok? {
        TerminalizeProjects(s.db, input, s.now);
      }
    case ClaimLease(input) => ClaimProjects(s.db, input, s.now);
    case _ =>
  }

  lemma TerminalizeProjects(db: Db, input: TerminalizeInput, now: Instant)
    requires TerminalizeStatus(input.status) && Terminalize(db, input, now).Ok?
    ensures Terminalize(db, input, now).value.projections.Keys == db.projections.Keys
  {
  }

  lemma ClaimProjects(db: Db, input: ClaimLeaseInput, now: Instant)
    ensures Kept(ClaimRecoveryLease(db, input, now), db).projections.Keys == db.projections.Keys
  {
  }

  /** A terminalization as cancelled moves no job. */
  ghost predicate MovesNoneCancelled(before: Db, after: Db, step: Step) {
    step.TerminalizeJob? && step.terminalize.status.Cancelled? ==>
      forall j :: j in before.jobs ==> j in after.jobs && after.jobs[j].status == before.jobs[j].status
  }

  lemma TerminalizeMovesNone(s: State, step: Step)
    requires Allowed(s, step)
    ensures MovesNoneCancelled(s.db, NextDb(s, step), step)
  {
  }

  lemma SafeChangeCancelsNothing(before: Db, after: Db, now: Instant, step: Step)
    requires Inv(before) && StepSafe(before, after, now, step) && NoneCancelled(before)
    requires NewJobsRun(before, after) && MovesNoneCancelled(before, after, step)
    ensures NoneCancelled(after)
  {
    forall j | j in after.projections && j in after.jobs ensures !after.jobs[j].status.Cancelled? {
      if j in before.projections {
        assert JobSafe(before, after, now, step, j);
      }
    }
  }

  lemma StepCancelsNothing(s: State, step: Step)
    requires Inv(s.db) && Allowed(s, step) && NoneCancelled(s.db)
    ensures NoneCancelled(NextDb(s, step))
  {
    StepIsSafe(s, step);
    StepProjects(s, step);
    TerminalizeMovesNone(s, step);
    SafeChangeCancelsNothing(s.db, NextDb(s, step), s.now, step);
  }

  /** Over any run no job of the protocol is ever cancelled. */
  lemma {:induction false} RunCancelsNothing(s: State, steps: seq<Step>)
    requires Inv(s.db) && AllAllowed(s, steps) && NoneCancelled(s.db)
    ensures NoneCancelled(Run(s, steps).db)
    decreases |steps|
  {
    if steps != [] {
      StepIsSafe(s, steps[0]);
      StepCancelsNothing(s, steps[0]);
      RunCancelsNothing(Next(s, steps[0]), steps[1..]);
    }
  }

  // ---------------------------------------------------------------- fencing

  /** Once a newer epoch exists, the old token can neither commit nor terminalize a live job, whatever happens in between. */
  lemma OldTokenIsFenced(s: State, steps: seq<Step>, j: Id, targets: seq<(CommitInput, CommitReads)>,
                         terminalize: TerminalizeInput)
    requires Inv(s.db) && AllAllowed(s, steps) && j in s.db.projections
    requires targets != [] && forall i :: 0 <= i < |targets| ==> targets[i].0.aiJobId == j
    requires targets[0].0.lease.epoch < s.db.projections[j].lease.epoch
    requires TerminalizeStatus(terminalize.status) && terminalize.aiJobId == j
    requires terminalize.lease.epoch < s.db.projections[j].lease.epoch
    requires LiveJob(Run(s, steps).db, j)
    ensures var final := Run(s, steps);
            && CommitLayerRevisions(final.db, targets, final.now).Err?
            && Terminalize(final.db, terminalize, final.now).Err?
  {
    RunIsSafe(s, steps, j);
    var final := Run(s, steps);
    StaleCommitIsRefused(final.db, targets, final.now, j);
    StaleTerminalizeIsRefused(final.db, terminalize, final.now);
  }

  lemma StaleCommitIsRefused(db: Db, targets: seq<(CommitInput, CommitReads)>, now: Instant, j: Id)
    requires targets != [] && forall i :: 0 <= i < |targets| ==> targets[i].0.aiJobId == j
    requires j in db.projections && LiveJob(db, j) && targets[0].0.lease.epoch < db.projections[j].lease.epoch
    ensures CommitLayerRevisions(db, targets, now).Err?
  {
    if CommitLayerRevisions(db, targets, now).Ok? {
      TargetsWritten(db, targets, [], now, j);
    }
  }

  lemma StaleTerminalizeIsRefused(db: Db, input: TerminalizeInput, now: Instant)
    requires TerminalizeStatus(input.status) && input.aiJobId in db.projections && LiveJob(db, input.aiJobId)
    requires input.lease.epoch < db.projections[input.aiJobId].lease.epoch
    ensures Terminalize(db, input, now).Err?
  {
  }
}
