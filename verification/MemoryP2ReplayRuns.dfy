/**
 Repeated commits over runs. Where every commit names the layer by a key that is a function of the slot, as the program
 does, and no slot had a resolution before the first layer was written, a repeated commit is never refused.
 */
module MemoryP2ReplayRuns {
  import opened Options
  import opened MemoryP2Traces
  import G = MemoryGate
  import opened MemoryP2Store
  import opened MemoryP2Writes
  import opened MemoryP2Runs
  import opened MemoryP2Chains
  import opened MemoryP2ReadBack
  import opened MemoryP2ReadBackRuns
  import opened MemoryP2Replay

  /** How a caller names the layer of a slot. */
  type SlotKey = (Id, G.SemanticKind, string) -> Digest

  predicate SlotKeyed(input: CommitInput, key: SlotKey) {
    input.target.identityKeyDigest == key(input.projectId, input.target.semanticKind, input.target.canonicalKey)
  }

  predicate TargetsSlotKeyed(targets: seq<(CommitInput, CommitReads)>, key: SlotKey) {
    forall i :: 0 <= i < |targets| ==> SlotKeyed(targets[i].0, key)
  }

  predicate StepsSlotKeyed(steps: seq<Step>, key: SlotKey) {
    forall i :: 0 <= i < |steps| && steps[i].Commit? ==> TargetsSlotKeyed(steps[i].targets, key)
  }

  /** Layer revision r belongs to the slot of resolution i. */
  ghost predicate LayerOfSlot(db: Db, key: SlotKey, i: nat, r: nat) {
    && i < |db.resolutions| && r < |db.revisions| && db.revisions[r].link.owner < |db.identities|
    && var resolution := db.resolutions[i];
    db.identities[db.revisions[r].link.owner].keyDigest
    == key(resolution.projectId, resolution.semanticKind, resolution.canonicalKey)
  }

  ghost predicate HasLayer(db: Db, key: SlotKey, i: nat) {
    exists r: nat :: LayerOfSlot(db, key, i, r)
  }

  /** Every slot with a resolution has a layer. */
  ghost predicate Layered(db: Db, key: SlotKey) {
    forall i: nat :: i < |db.resolutions| ==> HasLayer(db, key, i)
  }

  lemma SameRowsSameLayers(a: Db, b: Db, key: SlotKey)
    requires SameChains(a, b) && Layered(a, key)
    ensures Layered(b, key)
  {
    forall i: nat | i < |b.resolutions| ensures HasLayer(b, key, i) {
      assert HasLayer(a, key, i);
      var r: nat :| LayerOfSlot(a, key, i, r);
      assert LayerOfSlot(b, key, i, r);
    }
  }

  lemma OldLayersStay(a: Db, b: Db, key: SlotKey, i: nat)
    requires RowsKept(a, b) && Layered(a, key) && i < |a.resolutions|
    ensures HasLayer(b, key, i)
  {
    assert HasLayer(a, key, i);
    var r: nat :| LayerOfSlot(a, key, i, r);
    assert b.revisions[r].link.owner == a.revisions[r].link.owner;
    assert LayerOfSlot(b, key, i, r);
  }

  lemma NewRows(db: Db, input: CommitInput, seen: CommitReads, now: Instant, finalize: bool)
    requires ChainsOk(db) && CommitTarget(db, input, seen, now, finalize).Ok? && !JobSucceeded(db, input.aiJobId)
    ensures var after := CommitTarget(db, input, seen, now, finalize).value.0;
            && |after.resolutions| == |db.resolutions| + 1 && |after.revisions| == |db.revisions| + 1
            && var resolution, revision := after.resolutions[|db.resolutions|], after.revisions[|db.revisions|];
            && resolution.projectId == input.projectId && resolution.semanticKind == input.target.semanticKind
            && resolution.canonicalKey == input.target.canonicalKey
            && revision.link.owner < |after.identities|
            && after.identities[revision.link.owner].keyDigest == input.target.identityKeyDigest
  {
    TargetParts(db, input, seen, now, finalize);
    PlanIsNamed(db, input, seen);
  }

  lemma TargetKeepsLayered(db: Db, input: CommitInput, seen: CommitReads, now: Instant, finalize: bool, key: SlotKey)
    requires ChainsOk(db) && OrdersUnique(db.inputs) && Layered(db, key) && SlotKeyed(input, key)
    requires CommitTarget(db, input, seen, now, finalize).Ok? && !JobSucceeded(db, input.aiJobId)
    ensures Layered(CommitTarget(db, input, seen, now, finalize).value.0, key)
  {
    CommitTargetKeeps(db, input, seen, now, finalize);
    NewRows(db, input, seen, now, finalize);
    NewRowKeepsLayered(db, CommitTarget(db, input, seen, now, finalize).value.0, key);
  }

  lemma NewRowKeepsLayered(a: Db, b: Db, key: SlotKey)
    requires RowsKept(a, b) && Layered(a, key) && |b.resolutions| == |a.resolutions| + 1
    requires LayerOfSlot(b, key, |a.resolutions|, |a.revisions|)
    ensures Layered(b, key)
  {
    forall i: nat | i < |b.resolutions| ensures HasLayer(b, key, i) {
      if i < |a.resolutions| {
        OldLayersStay(a, b, key, i);
      }
    }
  }

  lemma {:induction false} TargetsKeepLayered(db: Db, targets: seq<(CommitInput, CommitReads)>, results: seq<CommitResult>,
                                              now: Instant, j: Id, key: SlotKey)
    requires ChainsOk(db) && OrdersUnique(db.inputs) && Layered(db, key) && TargetsSlotKeyed(targets, key)
    requires forall i :: 0 <= i < |targets| ==> targets[i].0.aiJobId == j
    requires CommitTargets(db, targets, results, now).Ok? && !JobSucceeded(db, j)
    ensures Layered(CommitTargets(db, targets, results, now).value.0, key)
    decreases |targets|
  {
    if targets != [] {
      var next := CommitTarget(db, targets[0].0, targets[0].1, now, |targets| == 1).value;
      TargetKeepsLayered(db, targets[0].0, targets[0].1, now, |targets| == 1, key);
      if |targets| > 1 {
        CommitTargetKeeps(db, targets[0].0, targets[0].1, now, false);
        TargetWritten(db, targets[0].0, targets[0].1, now, false);
        TargetsKeepLayered(next.0, targets[1..], results + [next.1], now, j, key);
      } else {
        assert CommitTargets(db, targets, results, now).value.0 == next.0;
      }
    }
  }

  lemma CommitKeepsLayered(db: Db, targets: seq<(CommitInput, CommitReads)>, now: Instant, key: SlotKey)
    requires ChainsOk(db) && OrdersUnique(db.inputs) && Layered(db, key) && TargetsSlotKeyed(targets, key)
    requires forall i :: 0 <= i < |targets| ==> targets[i].0.aiJobId == targets[0].0.aiJobId
    ensures Layered(Kept(CommitLayerRevisions(db, targets, now), db), key)
  {
    if CommitLayerRevisions(db, targets, now).Ok? {
      if JobSucceeded(db, targets[0].0.aiJobId) {
        TargetsReplayed(db, targets, [], now, targets[0].0.aiJobId);
      } else {
        TargetsKeepLayered(db, targets, [], now, targets[0].0.aiJobId, key);
      }
    }
  }

  lemma StepKeepsLayered(s: State, step: Step, key: SlotKey)
    requires ReadBackInv(s.db) && Layered(s.db, key) && Allowed(s, step)
    requires step.Commit? ==> TargetsSlotKeyed(step.targets, key)
    ensures Layered(Next(s, step).db, key)
  {
    if step.Commit? {
      CommitKeepsLayered(s.db, step.targets, s.now, key);
    } else {
      OtherStepsLeaveChains(s, step);
      SameRowsSameLayers(s.db, Next(s, step).db, key);
    }
  }

  lemma {:induction false} RunKeepsLayered(s: State, steps: seq<Step>, key: SlotKey)
    requires ReadBackInv(s.db) && Layered(s.db, key) && AllOwnAllowed(s, steps) && StepsSlotKeyed(steps, key)
    ensures ReadBackInv(OwnRun(s, steps).db) && Layered(OwnRun(s, steps).db, key)
    decreases |steps|
  {
    if steps != [] {
      StepKeepsReadBack(s, steps[0]);
      StepKeepsLayered(s, steps[0], key);
      RunKeepsLayered(Next(s, steps[0]), steps[1..], key);
    }
  }

  /** In a layered store a commit that expects a resolution finds the slot's layer. */
  lemma LayeredNeverBeginsLate(db: Db, input: CommitInput, seen: CommitReads, key: SlotKey)
    requires ChainsOk(db) && Layered(db, key) && SlotKeyed(input, key)
    requires input.checkpointId in db.checkpoints && input.aiJobId in db.jobs
    requires input.aiJobId in db.projections && input.traceId in db.traces
    requires PlanTarget(db, input, seen).Ok?
    ensures !LayerBeginsLate(db, input)
  {
    PlanParts(db, input, seen);
    if input.target.expectedCurrentResolutionId.Some? {
      var i: nat := input.target.expectedCurrentResolutionId.value;
      ExpectedIsOfSlot(db, input, seen);
      assert HasLayer(db, key, i);
      var r: nat :| LayerOfSlot(db, key, i, r);
      var id := db.revisions[r].link.owner;
      IdentityFound(db.identities, input.target.identityKeyDigest, 0);
      RowMeansCurrent(RevisionLinks(db.revisions), r);
    }
  }

  lemma ExpectedIsOfSlot(db: Db, input: CommitInput, seen: CommitReads)
    requires ChainsOk(db) && input.checkpointId in db.checkpoints && input.aiJobId in db.jobs
    requires input.aiJobId in db.projections && input.traceId in db.traces
    requires PlanTarget(db, input, seen).Ok? && input.target.expectedCurrentResolutionId.Some?
    ensures var i := input.target.expectedCurrentResolutionId.value;
            && i < |db.resolutions| && db.resolutions[i].projectId == input.projectId
            && db.resolutions[i].semanticKind == input.target.semanticKind
            && db.resolutions[i].canonicalKey == input.target.canonicalKey
  {
    PlanParts(db, input, seen);
    SlotFound(db.authorities, input, 0);
    assert ResolutionBacked(db, input.target.expectedCurrentResolutionId.value);
  }

  /**
   From a store without resolutions, over any run whose commits name layers by their slots: a commit made at the end is
   answered again in the same way and changes nothing.
   */
  lemma SlotKeyedCommitsReplay(s: State, steps: seq<Step>, key: SlotKey, input: CommitInput, seen: CommitReads,
                               again: CommitReads, now: Instant, later: Instant)
    requires Migrated(s.db) && s.db.resolutions == [] && AllOwnAllowed(s, steps)
    requires StepsSlotKeyed(steps, key) && SlotKeyed(input, key)
    requires var db := OwnRun(s, steps).db;
             CommitLayerRevisions(db, Single(input, seen), now).Ok? && !JobSucceeded(db, input.aiJobId)
    requires LeaseWellFormed(input.lease, later)
    ensures var (after, results) := CommitLayerRevisions(OwnRun(s, steps).db, Single(input, seen), now).value;
            CommitLayerRevisions(after, Single(input, again), later) == Ok((after, results))
  {
    MigratedStoreReadsBack(s.db);
    RunKeepsLayered(s, steps, key);
    LayeredCommitReplays(OwnRun(s, steps).db, key, input, seen, again, now, later);
  }

  lemma LayeredCommitReplays(db: Db, key: SlotKey, input: CommitInput, seen: CommitReads, again: CommitReads,
                             now: Instant, later: Instant)
    requires ReadBackInv(db) && Layered(db, key) && SlotKeyed(input, key) && LeaseWellFormed(input.lease, later)
    requires CommitLayerRevisions(db, Single(input, seen), now).Ok? && !JobSucceeded(db, input.aiJobId)
    ensures var (after, results) := CommitLayerRevisions(db, Single(input, seen), now).value;
            CommitLayerRevisions(after, Single(input, again), later) == Ok((after, results))
  {
    SingleIsTarget(db, input, seen, now);
    TargetParts(db, input, seen, now, true);
    LayeredNeverBeginsLate(db, input, seen, key);
    CommitReplays(db, input, seen, again, now, later);
  }
}
