/**
 Reading checkpoints back. In every store a run reaches, a checkpoint is committed exactly when the job that produced it
 has succeeded, its manifest is complete, and each member states its resolution row as it is; so the reader's answer
 depends only on the producer's retention and on the projects of those rows, which freezing does not compare.
 */
module MemoryP2CheckpointReads {
  import opened Options
  import opened MemoryP2Traces
  import opened MemoryP2Store
  import opened MemoryP2Writes
  import opened MemoryP2Runs
  import opened MemoryP2Chains
  import opened MemoryP2Reader
  import opened MemoryP2ReadBack
  import R = MemoryP2ReadBackRuns
  import opened MemoryP2StoredRecovery
  import opened MemoryP2StoredPasses

  predicate ManifestComplete(c: Checkpoint) {
    && |c.members| == c.expectedMemberCount && MembersOrdered(c.members)
    && CheckpointDigest(Entries(c.members)) == c.memberManifestHash
  }

  predicate RetainsCheckpoint(targets: seq<RetentionTarget>, c: Id) {
    exists t :: t in targets && t.kind.CheckpointTarget? && t.targetId == c
  }

  /** The job that froze the checkpoint works on it and retains it. */
  ghost predicate Produced(db: Db, c: Id)
    requires c in db.checkpoints
  {
    var j := db.checkpoints[c].producerJobId;
    && j in db.projections && db.projections[j].sourceCheckpointId == c
    && RetainsCheckpoint(RetentionOf(db, j), c)
  }

  /** A checkpoint is frozen until its producer commits. */
  ghost predicate StatusFollows(db: Db, c: Id)
    requires c in db.checkpoints
  {
    var checkpoint := db.checkpoints[c];
    if HasRevisions(db, checkpoint.producerJobId) then checkpoint.status.CpCommitted? && checkpoint.committedAt.Some?
    else checkpoint.status.CpFrozen?
  }

  ghost predicate CheckpointOk(db: Db, c: Id)
    requires c in db.checkpoints
  {
    ManifestComplete(db.checkpoints[c]) && Produced(db, c) && StatusFollows(db, c)
  }

  ghost predicate CheckpointsOk(db: Db) {
    forall c :: c in db.checkpoints ==> CheckpointOk(db, c)
  }

  // ---------------------------------------------------------------- steps

  lemma RolesKeepCheckpoints(a: Db, b: Db)
    requires RolesKept(a, b) && CheckpointsOk(a)
    ensures CheckpointsOk(b)
  {
    forall c | c in b.checkpoints ensures CheckpointOk(b, c) {
      assert CheckpointOk(a, c);
    }
  }

  /** Rows of another job leave a checkpoint as it was. */
  lemma CheckpointBeside(a: Db, b: Db, c: Id)
    requires c in a.checkpoints && c in b.checkpoints && b.checkpoints[c] == a.checkpoints[c] && CheckpointOk(a, c)
    requires var j := a.checkpoints[c].producerJobId;
             && j in b.projections && b.projections[j].sourceCheckpointId == a.projections[j].sourceCheckpointId
             && RetentionOf(b, j) == RetentionOf(a, j) && (HasRevisions(a, j) <==> HasRevisions(b, j))
    ensures CheckpointOk(b, c)
  {
  }

  lemma FrozenCheckpointOk(db: Db, input: FreezeInput, job: Job, now: Instant)
    requires MembersOrdered(input.members) && input.expectedMemberCount == |input.members|
    requires CheckpointDigest(Entries(input.members)) == input.memberManifestHash && !HasRevisions(db, input.aiJobId)
    ensures CheckpointOk(FrozenDb(db, input, job, now), input.checkpointId)
  {
    var after := FrozenDb(db, input, job, now);
    assert RetentionTarget(CheckpointTarget, input.checkpointId, 2) in RetentionOf(after, input.aiJobId);
  }

  lemma FreezeMakesManifest(db: Db, input: FreezeInput, now: Instant)
    requires Kept(FreezeCheckpoint(db, input, now), db) != db
    ensures MembersOrdered(input.members) && input.expectedMemberCount == |input.members|
    ensures CheckpointDigest(Entries(input.members)) == input.memberManifestHash
    ensures input.aiJobId in db.jobs && db.jobs[input.aiJobId].status.Running?
  {
  }

  lemma FreezeKeepsCheckpoints(db: Db, input: FreezeInput, now: Instant)
    requires Inv(db) && CheckpointsOk(db)
    ensures CheckpointsOk(Kept(FreezeCheckpoint(db, input, now), db))
  {
    if Kept(FreezeCheckpoint(db, input, now), db) != db {
      FreezeFacts(db, input, now);
      FreezeMakesManifest(db, input, now);
      UnfinishedJobHasNone(db, input.aiJobId);
      var after := FrozenDb(db, input, db.jobs[input.aiJobId], now);
      FrozenCheckpointOk(db, input, db.jobs[input.aiJobId], now);
      forall c | c in after.checkpoints && c != input.checkpointId ensures CheckpointOk(after, c) {
        assert CheckpointOk(db, c);
        CheckpointBeside(db, after, c);
      }
    }
  }

  lemma FreezeLongKeepsCheckpoints(db: Db, input: FreezeLongInput, now: Instant)
    requires CheckpointsOk(db)
    ensures CheckpointsOk(Kept(FreezeLongJob(db, input, now), db))
  {
    if Kept(FreezeLongJob(db, input, now), db) != db {
      FreezeLongFacts(db, input, now);
      var after := FrozenLongDb(db, input, now);
      forall c | c in after.checkpoints ensures CheckpointOk(after, c) {
        assert CheckpointOk(db, c);
        CheckpointBeside(db, after, c);
      }
    }
  }

  /** A commit of job j finishes the checkpoint it works on and only adds to what it retains. */
  ghost predicate CheckpointFinished(a: Db, b: Db, j: Id, now: Instant)
    requires j in a.projections && a.projections[j].sourceCheckpointId in a.checkpoints
  {
    var c := a.projections[j].sourceCheckpointId;
    b.checkpoints == a.checkpoints[c := FinishedCheckpoint(a.checkpoints[c], now)]
  }

  ghost predicate RetentionGrows(a: Db, b: Db, j: Id) {
    && (forall k :: k != j ==> RetentionOf(b, k) == RetentionOf(a, k))
    && (forall t :: t in RetentionOf(a, j) ==> t in RetentionOf(b, j))
  }

  lemma TargetKeepsRetention(db: Db, input: CommitInput, seen: CommitReads, now: Instant, finalize: bool)
    requires CommitTarget(db, input, seen, now, finalize).Ok? && !JobSucceeded(db, input.aiJobId)
    ensures RetentionGrows(db, CommitTarget(db, input, seen, now, finalize).value.0, input.aiJobId)
  {
    TargetRows(db, input, seen, now, finalize);
  }

  lemma TargetCheckpoints(db: Db, input: CommitInput, seen: CommitReads, now: Instant, finalize: bool)
    requires CommitTarget(db, input, seen, now, finalize).Ok? && !JobSucceeded(db, input.aiJobId)
    ensures input.aiJobId in db.projections && db.projections[input.aiJobId].sourceCheckpointId in db.checkpoints
    ensures var after := CommitTarget(db, input, seen, now, finalize).value.0;
            if finalize then CheckpointFinished(db, after, input.aiJobId, now)
            else after.checkpoints == db.checkpoints && after.projections == db.projections
  {
    TargetRows(db, input, seen, now, finalize);
  }

  lemma {:induction false} TargetsKeepRetention(db: Db, targets: seq<(CommitInput, CommitReads)>, results: seq<CommitResult>,
                                                now: Instant, j: Id)
    requires targets != [] && forall i :: 0 <= i < |targets| ==> targets[i].0.aiJobId == j
    requires CommitTargets(db, targets, results, now).Ok? && !JobSucceeded(db, j)
    ensures j in db.projections && db.projections[j].sourceCheckpointId in db.checkpoints
    ensures var after := CommitTargets(db, targets, results, now).value.0;
            RetentionGrows(db, after, j) && CheckpointFinished(db, after, j, now)
    decreases |targets|
  {
    TargetKeepsRetention(db, targets[0].0, targets[0].1, now, |targets| == 1);
    TargetCheckpoints(db, targets[0].0, targets[0].1, now, |targets| == 1);
    var next := CommitTarget(db, targets[0].0, targets[0].1, now, |targets| == 1).value;
    if |targets| > 1 {
      TargetWritten(db, targets[0].0, targets[0].1, now, false);
      TargetsKeepRetention(next.0, targets[1..], results + [next.1], now, j);
    } else {
      assert CommitTargets(db, targets, results, now).value.0 == next.0;
    }
  }

  /** The checkpoint the committing job works on. */
  lemma WorkedOnCheckpoint(a: Db, b: Db, j: Id, c: Id, now: Instant)
    requires j in a.projections && JobRecord(a, j) && a.projections[j].sourceCheckpointId == c
    requires c in a.checkpoints && c in b.checkpoints && CheckpointOk(a, c) && CommitFrame(a, b, j)
    requires b.checkpoints[c] == FinishedCheckpoint(a.checkpoints[c], now) && RetentionGrows(a, b, j)
    requires !HasRevisions(a, j) && HasRevisions(b, j) && RevisionsExtend(a, b, j)
    ensures CheckpointOk(b, c)
  {
    var k := a.checkpoints[c].producerJobId;
    if k == j {
      GrowsKeepsTarget(a, b, j, c);
    } else {
      OthersKeepRevisions(a, b, j, k);
    }
  }

  lemma GrowsKeepsTarget(a: Db, b: Db, j: Id, c: Id)
    requires RetentionGrows(a, b, j) && RetainsCheckpoint(RetentionOf(a, j), c)
    ensures RetainsCheckpoint(RetentionOf(b, j), c)
  {
    var t :| t in RetentionOf(a, j) && t.kind.CheckpointTarget? && t.targetId == c;
    assert t in RetentionOf(b, j);
  }

  lemma OthersKeepRevisions(a: Db, b: Db, j: Id, k: Id)
    requires RevisionsExtend(a, b, j) && k != j
    ensures HasRevisions(a, k) <==> HasRevisions(b, k)
  {
    if HasRevisions(a, k) {
      RevisionsStay(a, b, j, k);
    }
    if HasRevisions(b, k) {
      var r :| r in b.revisions && r.sourceJobId == k;
      var i :| 0 <= i < |b.revisions| && b.revisions[i] == r;
      assert a.revisions[i] in a.revisions;
    }
  }

  lemma CommitKeepsCheckpoints(db: Db, targets: seq<(CommitInput, CommitReads)>, now: Instant)
    requires Inv(db) && RecordsOk(db) && CheckpointsOk(db)
    requires forall i :: 0 <= i < |targets| ==> targets[i].0.aiJobId == targets[0].0.aiJobId
    ensures CheckpointsOk(Kept(CommitLayerRevisions(db, targets, now), db))
  {
    if CommitLayerRevisions(db, targets, now).Ok? {
      var after, j := CommitLayerRevisions(db, targets, now).value.0, targets[0].0.aiJobId;
      if JobSucceeded(db, j) {
        TargetsReplayed(db, targets, [], now, j);
      } else {
        TargetsFrame(db, targets, [], now, j);
        TargetsWritten(db, targets, [], now, j);
        TargetsKeepRetention(db, targets, [], now, j);
        UnfinishedJobHasNone(db, j);
        assert after.revisions[|db.revisions|] in after.revisions;
        CommittedCheckpointsOk(db, after, j, now);
      }
    }
  }

  lemma CommittedCheckpointsOk(a: Db, b: Db, j: Id, now: Instant)
    requires RecordsOk(a) && CheckpointsOk(a) && j in a.projections && a.projections[j].sourceCheckpointId in a.checkpoints
    requires CommitFrame(a, b, j) && RevisionsExtend(a, b, j) && !HasRevisions(a, j) && HasRevisions(b, j)
    requires RetentionGrows(a, b, j) && CheckpointFinished(a, b, j, now)
    ensures CheckpointsOk(b)
  {
    forall c | c in b.checkpoints ensures CheckpointOk(b, c) {
      assert CheckpointOk(a, c) && JobRecord(a, j);
      if c == a.projections[j].sourceCheckpointId {
        WorkedOnCheckpoint(a, b, j, c, now);
      } else {
        OthersKeepRevisions(a, b, j, a.checkpoints[c].producerJobId);
        CheckpointBeside(a, b, c);
      }
    }
  }

  // ---------------------------------------------------------------- what members state

  /** The member states the row's authority, revision, semantic status and number of claims. */
  predicate MemberStated(resolutions: seq<Resolution>, m: CheckpointMember) {
    MemberPermitted(resolutions, m) && |resolutions[m.resolutionRowId].claimIds| == m.entry.claimCount
  }

  ghost predicate MembersStated(db: Db) {
    forall c, m :: c in db.checkpoints && m in db.checkpoints[c].members ==> MemberStated(db.resolutions, m)
  }

  /** Resolutions only lose their currency, and checkpoints keep their members. */
  lemma StatedStays(a: Db, b: Db)
    requires MembersStated(a) && R.ResolutionsKept(a.resolutions, b.resolutions)
    requires forall c :: c in b.checkpoints ==> c in a.checkpoints && b.checkpoints[c].members == a.checkpoints[c].members
    ensures MembersStated(b)
  {
    forall c, m | c in b.checkpoints && m in b.checkpoints[c].members ensures MemberStated(b.resolutions, m) {
      assert c in a.checkpoints && MemberStated(a.resolutions, m);
    }
  }

  lemma FreezeStatesMembers(db: Db, input: FreezeInput, now: Instant)
    requires Kept(FreezeCheckpoint(db, input, now), db) != db
    ensures forall m :: m in input.members ==> MemberStated(db.resolutions, m)
  {
    assert FreezePermitted(db, input);
  }

  lemma FreezeKeepsStated(db: Db, input: FreezeInput, now: Instant)
    requires MembersStated(db)
    ensures MembersStated(Kept(FreezeCheckpoint(db, input, now), db))
  {
    if Kept(FreezeCheckpoint(db, input, now), db) != db {
      FreezeFacts(db, input, now);
      FreezeStatesMembers(db, input, now);
      var after := FrozenDb(db, input, db.jobs[input.aiJobId], now);
      forall c, m | c in after.checkpoints && m in after.checkpoints[c].members ensures MemberStated(after.resolutions, m) {
        if c != input.checkpointId {
          assert c in db.checkpoints && MemberStated(db.resolutions, m);
        }
      }
    }
  }

  lemma TargetKeepsResolutions(db: Db, input: CommitInput, seen: CommitReads, now: Instant, finalize: bool)
    requires CommitTarget(db, input, seen, now, finalize).Ok? && !JobSucceeded(db, input.aiJobId)
    ensures R.ResolutionsKept(db.resolutions, CommitTarget(db, input, seen, now, finalize).value.0.resolutions)
  {
    TargetParts(db, input, seen, now, finalize);
  }

  lemma {:induction false} TargetsKeepResolutions(db: Db, targets: seq<(CommitInput, CommitReads)>,
                                                  results: seq<CommitResult>, now: Instant, j: Id)
    requires forall i :: 0 <= i < |targets| ==> targets[i].0.aiJobId == j
    requires CommitTargets(db, targets, results, now).Ok? && !JobSucceeded(db, j)
    ensures R.ResolutionsKept(db.resolutions, CommitTargets(db, targets, results, now).value.0.resolutions)
    decreases |targets|
  {
    if targets != [] {
      TargetKeepsResolutions(db, targets[0].0, targets[0].1, now, |targets| == 1);
      TargetWritten(db, targets[0].0, targets[0].1, now, |targets| == 1);
      var next := CommitTarget(db, targets[0].0, targets[0].1, now, |targets| == 1).value;
      if |targets| > 1 {
        TargetsKeepResolutions(next.0, targets[1..], results + [next.1], now, j);
        KeptResolutionsTwice(db.resolutions, next.0.resolutions, CommitTargets(db, targets, results, now).value.0.resolutions);
      } else {
        assert CommitTargets(db, targets, results, now).value.0 == next.0;
      }
    }
  }

  lemma {:induction false} KeptResolutionsTwice(a: seq<Resolution>, b: seq<Resolution>, c: seq<Resolution>)
    requires R.ResolutionsKept(a, b) && R.ResolutionsKept(b, c)
    ensures R.ResolutionsKept(a, c)
  {
  }

  lemma CommitKeepsStated(db: Db, targets: seq<(CommitInput, CommitReads)>, now: Instant)
    requires MembersStated(db)
    requires forall i :: 0 <= i < |targets| ==> targets[i].0.aiJobId == targets[0].0.aiJobId
    ensures MembersStated(Kept(CommitLayerRevisions(db, targets, now), db))
  {
    if CommitLayerRevisions(db, targets, now).Ok? {
      var after, j := CommitLayerRevisions(db, targets, now).value.0, targets[0].0.aiJobId;
      if JobSucceeded(db, j) {
        TargetsReplayed(db, targets, [], now, j);
      } else {
        TargetsKeepResolutions(db, targets, [], now, j);
        TargetsKeepRetention(db, targets, [], now, j);
        StatedStays(db, after);
      }
    }
  }

  lemma OtherStepKeepsStated(s: State, step: Step)
    requires MembersStated(s.db) && Allowed(s, step) && !(step.Commit? || step.Freeze?)
    ensures MembersStated(NextDb(s, step))
  {
    OtherStepsLeaveChains(s, step);
    if step.FreezeLong? {
      FreezeLongLeavesCheckpoints(s.db, step.freezeLong, s.now);
    } else {
      OtherStepKeepsRoles(s, step);
    }
    StatedStays(s.db, NextDb(s, step));
  }

  lemma FreezeLongLeavesCheckpoints(db: Db, input: FreezeLongInput, now: Instant)
    ensures Kept(FreezeLongJob(db, input, now), db).checkpoints == db.checkpoints
  {
  }

  lemma {:induction false} RunKeepsStated(s: State, steps: seq<Step>)
    requires MembersStated(s.db) && AllAllowed(s, steps)
    ensures MembersStated(Run(s, steps).db)
    decreases |steps|
  {
    if steps != [] {
      match steps[0] {
        case Commit(targets) => CommitKeepsStated(s.db, targets, s.now);
        case Freeze(input) => FreezeKeepsStated(s.db, input, s.now);
        case _ => OtherStepKeepsStated(s, steps[0]);
      }
      RunKeepsStated(Next(s, steps[0]), steps[1..]);
    }
  }

  // ---------------------------------------------------------------- every run

  lemma StepKeepsCheckpoints(s: State, step: Step)
    requires Inv(s.db) && RecordsOk(s.db) && CheckpointsOk(s.db) && Allowed(s, step)
    ensures CheckpointsOk(NextDb(s, step))
  {
    match step
    case Commit(targets) => CommitKeepsCheckpoints(s.db, targets, s.now);
    case Freeze(input) => FreezeKeepsCheckpoints(s.db, input, s.now);
    case FreezeLong(input) => FreezeLongKeepsCheckpoints(s.db, input, s.now);
    case _ =>
      OtherStepKeepsRoles(s, step);
      RolesKeepCheckpoints(s.db, NextDb(s, step));
  }

  lemma {:induction false} RunKeepsCheckpoints(s: State, steps: seq<Step>)
    requires Inv(s.db) && RecordsOk(s.db) && CheckpointsOk(s.db) && AllAllowed(s, steps)
    ensures Inv(Run(s, steps).db) && CheckpointsOk(Run(s, steps).db)
    decreases |steps|
  {
    if steps != [] {
      StepIsSafe(s, steps[0]);
      StepKeepsRecords(s, steps[0]);
      StepKeepsCheckpoints(s, steps[0]);
      RunKeepsCheckpoints(Next(s, steps[0]), steps[1..]);
    }
  }

  predicate MemberInProject(resolutions: seq<Resolution>, projectId: Id, m: CheckpointMember) {
    m.resolutionRowId < |resolutions| && resolutions[m.resolutionRowId].projectId == projectId
  }

  /** What the reader still has to find: a retained producer that has succeeded, and members of the checkpoint's project. */
  predicate CheckpointStands(db: Db, c: Id, now: Instant)
    requires c in db.checkpoints
  {
    var checkpoint := db.checkpoints[c];
    && JobSucceeded(db, checkpoint.producerJobId)
    && db.jobs[checkpoint.producerJobId].retentionState.Active? && db.jobs[checkpoint.producerJobId].expiresAt > now
    && forall m :: m in checkpoint.members ==> MemberInProject(db.resolutions, checkpoint.projectId, m)
  }

  lemma StatedMembersBacked(db: Db, c: Id)
    requires c in db.checkpoints && MembersStated(db)
    ensures var checkpoint := db.checkpoints[c];
            (forall m :: m in checkpoint.members ==> CheckpointMemberBacked(db.resolutions, checkpoint, m))
            <==> (forall m :: m in checkpoint.members ==> MemberInProject(db.resolutions, checkpoint.projectId, m))
  {
    var checkpoint := db.checkpoints[c];
    forall m | m in checkpoint.members
      ensures CheckpointMemberBacked(db.resolutions, checkpoint, m)
              <==> MemberInProject(db.resolutions, checkpoint.projectId, m)
    {
      assert MemberStated(db.resolutions, m);
    }
  }

  lemma CheckpointReads(db: Db, c: Id, now: Instant)
    requires Inv(db) && db.migrationCompleted && c in db.checkpoints && CheckpointOk(db, c) && MembersStated(db)
    ensures ReadCheckpoint(db, c, now).Some? <==> CheckpointStands(db, c, now)
    ensures ReadCheckpoint(db, c, now).Some? ==>
              var checkpoint := db.checkpoints[c];
              && checkpoint.committedAt.Some?
              && ReadCheckpoint(db, c, now)
                 == Some(ReadableCheckpoint(c, checkpoint.committedAt.value, MemberIds(checkpoint.members),
                                            checkpoint.memberManifestHash, checkpoint.projectId, checkpoint.sessionId))
  {
    StatedMembersBacked(db, c);
    var j := db.checkpoints[c].producerJobId;
    if JobSucceeded(db, j) {
      assert HasRevisions(db, j);
    }
  }

  /**
   In every store a run reaches, the reader returns a checkpoint exactly while the job that produced it has succeeded, is
   retained and unexpired, and every member's resolution belongs to the checkpoint's project; it then returns the frozen
   manifest.
   */
  lemma CheckpointsReadBackExactlyWhen(s: State, steps: seq<Step>, c: Id, now: Instant)
    requires Migrated(s.db) && AllAllowed(s, steps) && c in Run(s, steps).db.checkpoints
    ensures var db := Run(s, steps).db;
            && (ReadCheckpoint(db, c, now).Some? <==> CheckpointStands(db, c, now))
            && (ReadCheckpoint(db, c, now).Some? ==>
                  && ReadCheckpoint(db, c, now).value.memberIds == MemberIds(db.checkpoints[c].members)
                  && ReadCheckpoint(db, c, now).value.memberManifestHash
                     == CheckpointDigest(Entries(db.checkpoints[c].members)))
  {
    MigratedStoreRecords(s.db);
    RunKeepsRecords(s, steps);
    RunKeepsCheckpoints(s, steps);
    RunKeepsStated(s, steps);
    CheckpointReads(Run(s, steps).db, c, now);
  }
}
