/**
 Repeating requests. A freeze made again under its own token answers as before and writes nothing. A single-target
 commit made again does so too, unless it was the first of its layer for a slot that already had a resolution. Where
 the layer's key is a function of the slot, only slots whose resolutions came before P2 can be in that position.
 */
module MemoryP2Replay {
  import opened Options
  import opened MemoryP2Traces
  import opened RevisionChains
  import opened MemoryP2Store
  import opened MemoryP2Writes
  import opened MemoryP2Chains
  import opened MemoryP2ReadBack

  /** A repeated freeze names the rows the first one made, until the token runs out or is taken over. */
  lemma FreezeReplays(db: Db, input: FreezeInput, now: Instant, later: Instant)
    requires FreezeCheckpoint(db, input, now).Ok? && !FreezeCheckpoint(db, input, now).value.1.replayed
    requires LeaseWellFormed(input.lease, later)
    ensures var (after, frozen) := FreezeCheckpoint(db, input, now).value;
            FreezeCheckpoint(after, input, later) == Ok((after, frozen.(replayed := true)))
  {
    FirstFreezeWrites(db, input, now);
    FrozenRowsAnswer(db, input, db.jobs[input.aiJobId], now, later);
  }

  lemma FirstFreezeWrites(db: Db, input: FreezeInput, now: Instant)
    requires FreezeCheckpoint(db, input, now).Ok? && !FreezeCheckpoint(db, input, now).value.1.replayed
    ensures db.migrationCompleted && input.aiJobId in db.jobs
    ensures FreezeCheckpoint(db, input, now)
            == Ok((FrozenDb(db, input, db.jobs[input.aiJobId], now), FrozenCheckpoint(input.checkpointId, input.traceId, false)))
  {
  }

  lemma FrozenRowsAnswer(db: Db, input: FreezeInput, job: Job, now: Instant, later: Instant)
    requires db.migrationCompleted && LeaseWellFormed(input.lease, later)
    ensures var after := FrozenDb(db, input, job, now);
            FreezeCheckpoint(after, input, later) == Ok((after, FrozenCheckpoint(input.checkpointId, input.traceId, true)))
  {
    assert ReplayFreeze(FrozenDb(db, input, job, now), input) == Ok(FrozenCheckpoint(input.checkpointId, input.traceId, true));
  }

  lemma FreezeLongReplays(db: Db, input: FreezeLongInput, now: Instant, later: Instant)
    requires FreezeLongJob(db, input, now).Ok? && !FreezeLongJob(db, input, now).value.1.replayed
    requires LeaseWellFormed(input.lease, later)
    ensures var (after, frozen) := FreezeLongJob(db, input, now).value;
            FreezeLongJob(after, input, later) == Ok((after, frozen.(replayed := true)))
  {
  }

  /** A worker whose lease was taken over can no longer freeze again. */
  lemma TakenOverFreezeIsRefused(db: Db, input: FreezeInput, now: Instant)
    requires input.aiJobId in db.checkpointByJob && input.aiJobId in db.projections
    requires db.projections[input.aiJobId].lease != input.lease
    ensures FreezeCheckpoint(db, input, now).Err?
  {
  }

  /** The revision that is current for the layer identity a commit names, before the commit. */
  function CurrentLayer(db: Db, input: CommitInput): Option<Id> {
    match FindIdentity(db.identities, input.target.identityKeyDigest, 0)
    case Some(id) => CurrentRevision(db.revisions, id)
    case None => None
  }

  /** The commit continues the slot's resolutions but is the first of its layer. */
  predicate LayerBeginsLate(db: Db, input: CommitInput) {
    input.target.expectedCurrentResolutionId.Some? && CurrentLayer(db, input).None?
  }

  /** The identifiers a plan resolved are the ones the caller named, if it named any. */
  ghost predicate NamedByCaller(input: CommitInput, plan: TargetPlan) {
    && plan.identityId < |plan.identities|
    && plan.identities[plan.identityId].keyDigest == input.target.identityKeyDigest
    && (input.target.identityId.None? || input.target.identityId == Some(plan.identityId))
    && (input.target.authorityId.None? || input.target.authorityId == Some(plan.authorityId))
    && plan.previous == input.target.expectedCurrentResolutionId
  }

  lemma PlanIsNamed(db: Db, input: CommitInput, seen: CommitReads)
    requires input.checkpointId in db.checkpoints && input.aiJobId in db.jobs
    requires input.aiJobId in db.projections && input.traceId in db.traces
    requires PlanTarget(db, input, seen).Ok?
    ensures NamedByCaller(input, PlanTarget(db, input, seen).value)
  {
    PlanParts(db, input, seen);
    IdentityFound(db.identities, input.target.identityKeyDigest, 0);
  }

  lemma NoCurrentOfUnknown(rows: seq<LayerRevision>, identityId: Id)
    requires forall i :: 0 <= i < |rows| ==> rows[i].link.owner != identityId
    ensures CurrentRevision(rows, identityId).None?
  {
  }

  lemma PredecessorIsCurrentLayer(db: Db, input: CommitInput, seen: CommitReads)
    requires ChainsOk(db) && input.checkpointId in db.checkpoints && input.aiJobId in db.jobs
    requires input.aiJobId in db.projections && input.traceId in db.traces
    requires PlanTarget(db, input, seen).Ok?
    ensures PlanTarget(db, input, seen).value.predecessor == CurrentLayer(db, input)
  {
    PlanParts(db, input, seen);
    if FindIdentity(db.identities, input.target.identityKeyDigest, 0).None? {
      forall i | 0 <= i < |db.revisions| ensures db.revisions[i].link.owner != |db.identities| {
        assert RevisionBacked(db, i);
      }
      NoCurrentOfUnknown(db.revisions, |db.identities|);
    }
  }

  /** The number of a chain's current row is at least one. */
  lemma CurrentIsNumbered(links: seq<Link>, owner: nat)
    requires Chained(links)
    ensures NumberOf(links, FirstCurrent(links, owner)) == 0 <==> FirstCurrent(links, owner).None?
  {
    var row := FirstCurrent(links, owner);
    if row.Some? {
      assert RowInPlace(links, row.value);
    }
  }

  /** What the answer to a repeated commit is checked against, as the commit left it. */
  lemma RowsToReplay(db: Db, input: CommitInput, plan: TargetPlan, now: Instant)
    requires Committing(db, input, plan, now)
    ensures var after, j, n := Written(db, input, plan, now), input.aiJobId, |db.revisions|;
            && j in after.projections && input.traceId in after.traces && JobSucceeded(after, j)
            && after.projections[j].sourceCheckpointId == input.checkpointId
            && after.projections[j].targetIdentityId == Some(plan.identityId)
            && after.projections[j].targetRevisionId == Some(n)
            && after.projections[j].targetRevisionDigest == Some(LayerMemberDigest(plan.claims.members))
            && after.traces[input.traceId].aiJobId == j
            && after.traces[input.traceId].proposalDigest == Some(input.proposalDigest)
            && after.traces[input.traceId].planDigest == Some(input.planDigest)
            && after.traces[input.traceId].commitDigest == Some(input.commitDigest)
            && |after.revisions| == n + 1 && after.identities == plan.identities
            && after.revisions[n] == RevisionRow(input, plan, db.revisions, |db.resolutions|)
            && after.resolutions == SupersedeResolution(db.resolutions, plan.previous) + [ResolutionRow(input, plan)]
  {
  }

  lemma CheckpointStaysUsable(db: Db, input: CommitInput, plan: TargetPlan, now: Instant)
    requires Committing(db, input, plan, now)
    ensures Written(db, input, plan, now).migrationCompleted && CheckpointFrozenFor(Written(db, input, plan, now), input)
  {
  }

  lemma ReplayAnswers(db: Db, input: CommitInput, plan: TargetPlan, now: Instant)
    requires ChainsOk(db) && Committing(db, input, plan, now) && NamedByCaller(input, plan)
    ensures Replay(Written(db, input, plan, now), input)
            == if plan.previous.None? <==> plan.predecessor.None? then Some(ResultOf(db, input, plan)) else None
  {
    RowsToReplay(db, input, plan, now);
    CurrentIsNumbered(ResolutionLinks(db.resolutions), plan.authorityId);
    CurrentIsNumbered(RevisionLinks(db.revisions), plan.identityId);
    var after := Written(db, input, plan, now);
    assert after.resolutions[|db.resolutions|] == ResolutionRow(input, plan);
    forall i | 0 <= i < |plan.claims.members| ensures plan.claims.members[i].inputOrder == i {
      assert ClaimStored(db.inputs, input, plan.claims, plan.claims.members[i]);
    }
  }

  /** A chain that has a row has a current one. */
  lemma RowMeansCurrent(links: seq<Link>, i: nat)
    requires Chained(links) && i < |links|
    ensures FirstCurrent(links, links[i].owner).Some?
  {
    var owner := links[i].owner;
    FirstCurrentIsLastFrom(links, owner, 0);
    LastRowIsLast(links, owner, |links|);
  }

  /** A slot that has a layer has a resolution, so the layer never begins first. */
  lemma LayerHasResolution(db: Db, input: CommitInput, seen: CommitReads)
    requires ChainsOk(db) && input.checkpointId in db.checkpoints && input.aiJobId in db.jobs
    requires input.aiJobId in db.projections && input.traceId in db.traces
    requires PlanTarget(db, input, seen).Ok? && CurrentLayer(db, input).Some?
    ensures input.target.expectedCurrentResolutionId.Some?
  {
    PlanParts(db, input, seen);
    var plan := PlanTarget(db, input, seen).value;
    var r := db.revisions[CurrentLayer(db, input).value];
    assert RevisionBacked(db, CurrentLayer(db, input).value);
    assert db.identities[r.link.owner].originAuthorityId == plan.authorityId;
    RowMeansCurrent(ResolutionLinks(db.resolutions), r.resolutionRowId);
  }

  /**
   Right after a single-target commit, the same commit again (under a token that has not run out, whatever it would
   now read) returns the same result and changes nothing, unless the commit expected a resolution while its layer had
   no current revision; then the repeated commit is refused although it was made.
   */
  lemma CommitReplays(db: Db, input: CommitInput, seen: CommitReads, again: CommitReads, now: Instant, later: Instant)
    requires ReadBackInv(db) && CommitLayerRevisions(db, Single(input, seen), now).Ok? && !JobSucceeded(db, input.aiJobId)
    requires LeaseWellFormed(input.lease, later)
    ensures var (after, results) := CommitLayerRevisions(db, Single(input, seen), now).value;
            CommitLayerRevisions(after, Single(input, again), later)
            == if LayerBeginsLate(db, input) then Err(AlreadyTerminal) else Ok((after, results))
  {
    SingleIsTarget(db, input, seen, now);
    TargetParts(db, input, seen, now, true);
    SingleTargetShape(db, input, seen, now);
    var plan := PlanTarget(db, input, seen).value;
    PlanIsNamed(db, input, seen);
    PredecessorIsCurrentLayer(db, input, seen);
    if CurrentLayer(db, input).Some? {
      LayerHasResolution(db, input, seen);
    }
    ReplayAnswers(db, input, plan, now);
    RowsToReplay(db, input, plan, now);
    CheckpointStaysUsable(db, input, plan, now);
    SingleIsTarget(Written(db, input, plan, now), input, again, later);
    RepeatedTarget(Written(db, input, plan, now), input, again, later);
  }

  lemma RepeatedTarget(db: Db, input: CommitInput, seen: CommitReads, now: Instant)
    requires LeaseWellFormed(input.lease, now) && db.migrationCompleted && CheckpointFrozenFor(db, input)
    requires JobSucceeded(db, input.aiJobId)
    ensures CommitTarget(db, input, seen, now, true)
            == match Replay(db, input)
               case Some(result) => Ok((db, result))
               case None => Err(AlreadyTerminal)
  {
  }
}
