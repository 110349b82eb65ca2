/**
 The P2 memory repository and the recovery service in front of it. Each public method is one
 transaction: it works on a copy of the rows and stores the copy only if nothing was refused.
 */
module MemoryP2Repository {
  import opened Options
  import opened MemoryP2Traces
  import opened MemoryP2Recovery
  import opened RevisionChains
  import opened MemoryP2Store
  import W = MemoryP2Writes
  import opened MemoryP2RecoveryPass

  type CommitRequest = (W.CommitInput, W.CommitReads)

  class Repository {
    var db: Db

    constructor ()
      ensures db == EMPTY_DB
    {
      db := EMPTY_DB;
    }

    // -------------------------------------------------------------- freezing

    method FreezeCheckpoint(input: W.FreezeInput, now: Instant) returns (r: Result<W.Frozen, PersistError>)
      modifies this
      ensures match W.FreezeCheckpoint(old(db), input, now)
              case Ok(pair) => db == pair.0 && r == Ok(pair.1)
              case Err(error) => db == old(db) && r == Err(error)
    {
      if !db.migrationCompleted { return Err(MigrationIncomplete); }
      if !LeaseWellFormed(input.lease, now) { return Err(CheckpointInvalid); }
      if input.aiJobId in db.checkpointByJob {
        r := W.ReplayFreeze(db, input);
        return;
      }
      if input.aiJobId !in db.jobs || !W.JobAdmitsFreeze(db.jobs[input.aiJobId], input) { return Err(JobNotRunning); }
      var job := db.jobs[input.aiJobId];
      if input.lease.expiresAt > input.expiresAt { return Err(CheckpointInvalid); }
      if !W.MembersOrdered(input.members) || !W.SourcesOrdered(input.sources) { return Err(ManifestInvalid); }
      if !W.MembersUnique(input.members) || !W.SourcesUnique(input.sources) { return Err(ManifestInvalid); }
      if || input.expectedMemberCount != |input.members|
         || |input.members| == 0
         || CheckpointDigest(W.Entries(input.members)) != input.memberManifestHash { return Err(ManifestInvalid); }
      for index := 0 to |input.members|
        invariant forall i :: 0 <= i < index ==>
          W.ClaimCount(db.resolutions, input.members[i].resolutionRowId) == input.members[i].entry.claimCount
      {
        var member := input.members[index];
        if W.ClaimCount(db.resolutions, member.resolutionRowId) != member.entry.claimCount {
          assert member in input.members;
          return Err(SourceNotFrozen);
        }
      }
      if job.jobType != (if input.finalFlush then MidFinal else MidOnline) { return Err(InputScopeMismatch); }
      if || input.checkpointId in db.checkpoints || W.RootTaken(db, input.rootIdentity)
         || input.aiJobId in db.projections || input.traceId in db.traces
         || input.aiJobId in db.traceByJob || input.aiJobId in db.retention
         || W.TraceKeysTaken(db, input.requestId, input.generationId) { return Err(UniqueViolation); }
      if !W.FreezePermitted(db, input) { return Err(ConstraintViolation); }
      WriteFrozenRows(input, job, now);
      return Ok(W.FrozenCheckpoint(input.checkpointId, input.traceId, false));
    }

    /** The rows of a new checkpoint, its job's projection, its trace and its retention targets. */
    method WriteFrozenRows(input: W.FreezeInput, job: Job, now: Instant)
      modifies this
      ensures db == W.FrozenDb(old(db), input, job, now)
    {
      var tx := db;
      tx := tx.(checkpoints := tx.checkpoints[input.checkpointId := W.CheckpointRow(input)],
                checkpointByJob := tx.checkpointByJob[input.aiJobId := input.checkpointId]);
      tx := tx.(projections := tx.projections[input.aiJobId := W.MidProjectionRow(job, input, now)]);
      tx := tx.(traces := tx.traces[input.traceId :=
                  W.FrozenTrace(input.aiJobId, input.sessionId, input.requestId, input.generationId, input.expiresAt,
                                input.deletionScopeDigest, input.sourceRevisionDigest, input.sources, now)],
                traceByJob := tx.traceByJob[input.aiJobId := input.traceId]);
      tx := tx.(retention := tx.retention[input.aiJobId :=
                  [RetentionTarget(JobTarget, input.aiJobId, 0), RetentionTarget(TraceTarget, input.traceId, 1),
                   RetentionTarget(CheckpointTarget, input.checkpointId, 2)]]);
      db := tx;
    }

    method FreezeLongJob(input: W.FreezeLongInput, now: Instant) returns (r: Result<W.Frozen, PersistError>)
      modifies this
      ensures match W.FreezeLongJob(old(db), input, now)
              case Ok(pair) => db == pair.0 && r == Ok(pair.1)
              case Err(error) => db == old(db) && r == Err(error)
    {
      if !db.migrationCompleted { return Err(MigrationIncomplete); }
      if !LeaseWellFormed(input.lease, now) { return Err(CheckpointInvalid); }
      if input.aiJobId in db.projections {
        var replay := db.projections[input.aiJobId];
        if || TraceOfJob(db, input.aiJobId).None?
           || replay.finalMidCheckpointId != Some(input.finalMidCheckpointId)
           || replay.sourceRevisionDigest != input.sourceRevisionDigest
           || replay.deletionScopeDigest != input.deletionScopeDigest
           || replay.lease != input.lease { return Err(CheckpointInvalid); }
        return Ok(W.FrozenCheckpoint(input.finalMidCheckpointId, db.traceByJob[input.aiJobId], true));
      }
      if !W.JobAdmitsLongFreeze(db, input) { return Err(SourceNotFrozen); }
      if input.lease.expiresAt > input.expiresAt { return Err(CheckpointInvalid); }
      if !W.SourcesOrdered(input.sources) || !W.SourcesUnique(input.sources) { return Err(ManifestInvalid); }
      if || input.traceId in db.traces || input.aiJobId in db.traceByJob || input.aiJobId in db.retention
         || W.TraceKeysTaken(db, input.requestId, input.generationId) { return Err(UniqueViolation); }
      if !W.FreezeLongPermitted(input) { return Err(ConstraintViolation); }
      var tx := db;
      tx := tx.(projections := tx.projections[input.aiJobId := W.LongProjectionRow(input, now)]);
      tx := tx.(traces := tx.traces[input.traceId :=
                  W.FrozenTrace(input.aiJobId, input.sessionId, input.requestId, input.generationId, input.expiresAt,
                                input.deletionScopeDigest, input.sourceRevisionDigest, input.sources, now)],
                traceByJob := tx.traceByJob[input.aiJobId := input.traceId]);
      tx := tx.(retention := tx.retention[input.aiJobId :=
                  [RetentionTarget(JobTarget, input.aiJobId, 0), RetentionTarget(TraceTarget, input.traceId, 1)]]);
      db := tx;
      return Ok(W.FrozenCheckpoint(input.finalMidCheckpointId, input.traceId, false));
    }

    // -------------------------------------------------------------- committing

    /** The inner loop: resolves the evidences of one claim, adding the rows that do not exist yet. */
    method ResolveClaimEvidences(input: W.CommitInput, rows: seq<EvidenceAuthority>, claim: W.ClaimInput)
      returns (r: Result<(seq<EvidenceAuthority>, seq<Id>), PersistError>)
      ensures r == W.ResolveEvidences(db.inputs, input, rows, [], claim.evidences)
    {
      var evidences, ids := rows, [];
      for index := 0 to |claim.evidences|
        invariant W.ResolveEvidences(db.inputs, input, rows, [], claim.evidences)
                  == W.ResolveEvidences(db.inputs, input, evidences, ids, claim.evidences[index..])
      {
        var evidence := claim.evidences[index];
        assert claim.evidences[index..][1..] == claim.evidences[index + 1..];
        if evidence.inputSegmentId !in db.inputs || !W.FrozenFor(db.inputs[evidence.inputSegmentId], input, evidence) {
          return Err(SourceNotFrozen);
        }
        var frozen := db.inputs[evidence.inputSegmentId];
        var found := W.FindEvidence(evidences, input, evidence.sourceId, 0);
        match found {
          case None =>
            if evidence.expectedEvidenceId.Some? { return Err(CasMismatch); }
            ids := ids + [|evidences|];
            evidences := evidences + [W.EvidenceRow(input, evidence, frozen)];
          case Some(id) =>
            if || (evidence.expectedEvidenceId.Some? && evidence.expectedEvidenceId.value != id)
               || evidences[id] != W.EvidenceRow(input, evidence, frozen) { return Err(CasMismatch); }
            ids := ids + [id];
        }
      }
      return Ok((evidences, ids));
    }

    /** The outer loop: one claim row, its links and its manifest entry per claim. */
    method CreateClaims(input: W.CommitInput) returns (r: Result<W.ClaimState, PersistError>)
      ensures r == W.CreateClaims(db.inputs, input, W.ClaimState(db.claims, db.evidences, []), input.claims)
    {
      var s := W.ClaimState(db.claims, db.evidences, []);
      for index := 0 to |input.claims|
        invariant W.CreateClaims(db.inputs, input, W.ClaimState(db.claims, db.evidences, []), input.claims)
                  == W.CreateClaims(db.inputs, input, s, input.claims[index..])
      {
        var claim := input.claims[index];
        assert input.claims[index..][1..] == input.claims[index + 1..];
        if !W.EvidencesOrdered(claim.evidences) || !W.EvidencesUnique(claim.evidences) { return Err(ManifestInvalid); }
        if || claim.canonicalKey != input.target.canonicalKey
           || claim.semanticKind != input.target.semanticKind
           || claim.evidences == [] { return Err(InputScopeMismatch); }
        var resolved := ResolveClaimEvidences(input, s.evidences, claim);
        if resolved.Err? { return Err(resolved.error); }
        W.ResolvedCount(db.inputs, input, s.evidences, [], claim.evidences);
        var evidences, ids := resolved.value.0, resolved.value.1;
        var entry := LayerMemberEntry(|s.claims|, 1, claim.role, |s.members|, W.EvidenceDigest(input, claim.evidences, ids));
        s := W.ClaimState(s.claims + [W.ClaimRow(input, claim, ids)], evidences, s.members + [entry]);
      }
      return Ok(s);
    }

    /** The checks and lookups of one target, in the order the transaction makes them. */
    method PlanTarget(input: W.CommitInput, seen: W.CommitReads) returns (r: Result<W.TargetPlan, PersistError>)
      requires input.checkpointId in db.checkpoints && input.aiJobId in db.jobs
      requires input.aiJobId in db.projections && input.traceId in db.traces
      ensures r == W.PlanTarget(db, input, seen)
    {
      var checkpoint, job := db.checkpoints[input.checkpointId], db.jobs[input.aiJobId];
      var scopes := [checkpoint.deletionScopeDigest, db.projections[input.aiJobId].deletionScopeDigest,
                     db.traces[input.traceId].deletionScopeDigest];
      var before := W.DeletionScopeCheck(seen.deletionScope, scopes);
      if before.Fail? { return Err(before.error); }
      if input.claims == [] || input.target.layer != LayerOfKind(job.jobType) { return Err(ManifestInvalid); }
      var authority :- W.ResolveAuthority(db.authorities, input, checkpoint.threadId);
      var previous := CurrentResolution(db.resolutions, authority.1);
      if || previous != input.target.expectedCurrentResolutionId
         || NumberOf(ResolutionLinks(db.resolutions), previous) != input.target.expectedCurrentRevision {
        return Err(CasMismatch);
      }
      var gate :- W.GateCheck(input, seen, db.resolutions, previous, checkpoint.evidenceManifestHash);
      var after := W.DeletionScopeCheck(seen.deletionScopeAfterGate, scopes);
      if after.Fail? { return Err(after.error); }
      if previous.Some? {
        if || previous.value !in job.inputMemories
           || job.inputMemories[previous.value] != db.resolutions[previous.value].link.number {
          return Err(SourceNotFrozen);
        }
      }
      var claims :- CreateClaims(input);
      var identity :- W.ResolveLayerIdentity(db.identities, input, authority.1, checkpoint.threadId);
      var predecessor := CurrentRevision(db.revisions, identity.1);
      var long: Option<LongProjection> := None;
      if input.target.layer.LongLayer? {
        var projection :- W.LongProjectionFor(db, input, db.revisions, |db.revisions|);
        long := Some(projection);
      }
      return Ok(W.TargetPlan(authority.0, authority.1, previous, gate, claims, identity.0, identity.1, predecessor, long));
    }

    /** One target inside the caller's transaction; on refusal the caller restores the rows. */
    method CommitTarget(input: W.CommitInput, seen: W.CommitReads, now: Instant, finalize: bool)
      returns (r: Result<W.CommitResult, PersistError>)
      modifies this
      ensures match W.CommitTarget(old(db), input, seen, now, finalize)
              case Ok(pair) => db == pair.0 && r == Ok(pair.1)
              case Err(error) => r == Err(error)
    {
      if !LeaseWellFormed(input.lease, now) { return Err(CheckpointInvalid); }
      if !db.migrationCompleted { return Err(MigrationIncomplete); }
      if !W.CheckpointFrozenFor(db, input) { return Err(SourceNotFrozen); }
      if W.JobSucceeded(db, input.aiJobId) {
        var replay := W.Replay(db, input);
        if replay.Some? { return Ok(replay.value); }
        return Err(AlreadyTerminal);
      }
      if !W.CommitAdmitted(db, input, now) { return Err(JobNotRunning); }
      var plan :- PlanTarget(input, seen);
      if finalize && db.traces[input.traceId].errorCode.Some? { return Err(ConstraintViolation); }
      var result := W.ResultOf(db, input, plan);
      AddTargetRows(input, plan);
      if finalize {
        FinishJob(input, plan, result.revisionId, now);
      }
      db := W.WithRetentionTarget(db, input.aiJobId, result.revisionId);
      return Ok(result);
    }

    /** The rows each target adds: authority and resolution, claims, identity and layer revision. */
    method AddTargetRows(input: W.CommitInput, plan: W.TargetPlan)
      requires W.PlanFits(db, plan)
      modifies this
      ensures db == W.WithTarget(old(db), input, plan)
    {
      var resolutions, revisions := db.resolutions, db.revisions;
      var resolution := W.ResolutionRow(input, plan);
      var revision := W.RevisionRow(input, plan, revisions, |resolutions|);
      if plan.previous.Some? {
        var row := resolutions[plan.previous.value];
        resolutions := resolutions[plan.previous.value := row.(link := row.link.(current := false))];
      }
      resolutions := resolutions + [resolution];
      if plan.predecessor.Some? {
        var row := revisions[plan.predecessor.value];
        revisions := revisions[plan.predecessor.value := row.(link := row.link.(current := false))];
      }
      revisions := revisions + [revision];
      var longs := db.longs;
      if plan.long.Some? {
        longs := longs[input.aiJobId := plan.long.value];
      }
      db := db.(authorities := plan.authorities, resolutions := resolutions, claims := plan.claims.claims,
                evidences := plan.claims.evidences, identities := plan.identities, revisions := revisions, longs := longs);
    }

    /** The rows only the last target changes: checkpoint, job, projection and trace with its new references. */
    method FinishJob(input: W.CommitInput, plan: W.TargetPlan, revisionId: Id, now: Instant)
      requires input.checkpointId in db.checkpoints && input.aiJobId in db.jobs
      requires input.aiJobId in db.projections && input.traceId in db.traces
      modifies this
      ensures db == W.Finished(old(db), input, plan, revisionId, now)
    {
      var tx := db;
      var p, trace := tx.projections[input.aiJobId], tx.traces[input.traceId];
      var checkpoint := tx.checkpoints[input.checkpointId];
      if checkpoint.status.CpFrozen? {
        checkpoint := checkpoint.(status := CpCommitted, committedAt := Some(now));
      }
      tx := tx.(checkpoints := tx.checkpoints[input.checkpointId := checkpoint]);
      tx := tx.(jobs := tx.jobs[input.aiJobId := tx.jobs[input.aiJobId].(status := Succeeded, completedAt := Some(now))]);
      tx := tx.(projections := tx.projections[input.aiJobId :=
        W.FinishedProjection(p, plan.identityId, revisionId, LayerMemberDigest(plan.claims.members), now)]);
      var added := CollectCommittedSources(input.aiJobId, p.deletionScopeDigest, |trace.sources|);
      tx := tx.(traces := tx.traces[input.traceId := W.FinishedTrace(trace, input, p, added, now)]);
      db := tx;
    }

    /** Builds the references a finished job adds to its trace: its evidence first, then its resolutions. */
    method CollectCommittedSources(jobId: Id, deletionScopeDigest: Digest, offset: nat) returns (added: seq<Reference>)
      ensures added == W.CommittedSources(db, jobId, deletionScopeDigest, offset)
    {
      var evidenceIds := EvidenceOfJob(db, jobId, |db.evidences|);
      var revisionIds := RevisionsOfJob(db.revisions, jobId, |db.revisions|);
      added := [];
      for index := 0 to |evidenceIds|
        invariant |added| == index
        invariant forall i :: 0 <= i < index ==>
          added[i] == W.CommittedSources(db, jobId, deletionScopeDigest, offset)[i]
      {
        assert evidenceIds[index] in evidenceIds;
        added := added + [W.EvidenceReference(db, evidenceIds[index], deletionScopeDigest, offset + index)];
      }
      for index := 0 to |revisionIds|
        invariant |added| == |evidenceIds| + index
        invariant forall i :: 0 <= i < |evidenceIds| + index ==>
          added[i] == W.CommittedSources(db, jobId, deletionScopeDigest, offset)[i]
      {
        assert revisionIds[index] in revisionIds;
        added := added + [W.ResolutionReference(db, revisionIds[index], deletionScopeDigest, offset + |added|)];
      }
    }

    /** All targets in one transaction; the last one finishes the job. */
    method CommitLayerRevisions(targets: seq<CommitRequest>, now: Instant)
      returns (r: Result<seq<W.CommitResult>, PersistError>)
      modifies this
      ensures match W.CommitLayerRevisions(old(db), targets, now)
              case Ok(pair) => db == pair.0 && r == Ok(pair.1)
              case Err(error) => db == old(db) && r == Err(error)
    {
      if |targets| == 0 { return Err(ManifestInvalid); }
      var saved := db;
      var results: seq<W.CommitResult> := [];
      for index := 0 to |targets|
        invariant W.CommitTargets(saved, targets, [], now) == W.CommitTargets(db, targets[index..], results, now)
      {
        assert targets[index..][1..] == targets[index + 1..];
        var result := CommitTarget(targets[index].0, targets[index].1, now, index == |targets| - 1);
        if result.Err? {
          db := saved;
          return Err(result.error);
        }
        results := results + [result.value];
      }
      return Ok(results);
    }

    // -------------------------------------------------------------- terminalizing, leases, recovery

    method TerminalizeUnavailable(input: W.TerminalizeInput, now: Instant) returns (r: Check<PersistError>)
      requires W.TerminalizeStatus(input.status)
      modifies this
      ensures match W.Terminalize(old(db), input, now)
              case Ok(after) => db == after && r == Pass
              case Err(error) => db == old(db) && r == Fail(error)
    {
      if input.aiJobId !in db.jobs { return Fail(JobNotRunning); }
      var job := db.jobs[input.aiJobId];
      if !job.status.Running? {
        if job.status == input.status && job.failureCode == Some(input.errorCode) { return Pass; }
        return Fail(AlreadyTerminal);
      }
      if input.aiJobId !in db.projections || !HoldsLease(db.projections[input.aiJobId], input.lease, now) {
        return Fail(CasMismatch);
      }
      var tx := db;
      tx := tx.(jobs := tx.jobs[input.aiJobId :=
        job.(completedAt := Some(now), failureCode := Some(input.errorCode), status := input.status)]);
      tx := tx.(projections := tx.projections[input.aiJobId :=
        tx.projections[input.aiJobId].(terminalErrorCode := Some(input.errorCode), updatedAt := now)]);
      if input.traceId !in tx.traces { return Fail(RowMissing); }
      if !W.TracePermitsError(input.status) { return Fail(ConstraintViolation); }
      tx := tx.(traces := tx.traces[input.traceId :=
        W.TerminalizedTrace(tx.traces[input.traceId], input.status, input.errorCode, now)]);
      db := tx;
      return Pass;
    }

    method ClaimRecoveryLease(input: W.ClaimLeaseInput, now: Instant) returns (r: Result<Option<LeaseToken>, PersistError>)
      modifies this
      ensures match W.ClaimRecoveryLease(old(db), input, now)
              case Ok(pair) => db == pair.0 && r == Ok(pair.1)
              case Err(error) => db == old(db) && r == Err(error)
    {
      if !db.migrationCompleted { return Ok(None); }
      if input.expectedEpoch < 1 || !NonBlank(input.leaseOwner) || input.leaseExpiresAt <= now {
        return Err(CheckpointInvalid);
      }
      if !W.LeaseClaimable(db, input, now) { return Ok(None); }
      var p := db.projections[input.aiJobId];
      var token := LeaseToken(input.leaseOwner, p.lease.epoch + 1, input.leaseExpiresAt);
      db := db.(projections := db.projections[input.aiJobId := p.(lease := token, updatedAt := now)]);
      return Ok(Some(token));
    }

    method ApplyRecovery(c: RecoveryCommand, rows: seq<ReferenceAuthority>) returns (applied: bool)
      modifies this
      ensures (db, applied) == W.ApplyRecovery(old(db), c, rows)
    {
      if !W.RecoveryAdmitted(db, c, rows) { return false; }
      var tx := db;
      if !c.kind.RepairTerminalTrace? {
        tx := tx.(jobs := tx.jobs[c.jobId := W.RecoveredJob(tx.jobs[c.jobId], c)]);
      }
      var traceId := tx.traceByJob[c.jobId];
      tx := tx.(traces := tx.traces[traceId := W.RecoveredTrace(tx.traces[traceId], c.trace)]);
      assert c.kind.RepairTerminalTrace? ==> db.jobs[c.jobId := db.jobs[c.jobId]] == db.jobs;
      db := tx;
      return true;
    }

    /** One job of the recovery pass: read, decide, and apply what was planned. */
    method ReconcileOne(jobId: Id, rows: seq<ReferenceAuthority>, now: Instant)
      returns (r: Result<RecoveryOutcome, ErrorCode>)
      modifies this
      ensures match ReconcileJob(old(db), jobId, rows, now)
              case Ok(pair) => db == pair.0 && r == Ok(pair.1)
              case Err(error) => db == old(db) && r == Err(error)
    {
      var authority := ReadRecoveryAuthority(db, jobId, rows);
      if authority.None? { return Ok(NotFound); }
      var decision := Reconcile(authority.value, now);
      match decision {
        case AlreadyConverged => return Ok(ConvergedOutcome);
        case ActiveAttempt => return Ok(ActiveOutcome);
        case SucceededUnreadable(_) => return Ok(SucceededUnreadableOutcome);
        case TerminalUnreadable(_) => return Ok(TerminalUnreadableOutcome);
        case Raises(error) => return Err(error);
        case Apply(command) =>
          var applied := ApplyRecovery(command, rows);
          return Ok(if applied then AppliedOutcome(command.kind) else LostRace);
      }
    }

    /** The recovery pass: every candidate once, in order. */
    method ReconcilePersistedState(candidates: seq<Id>, rows: RowsOfJob, now: Instant)
      returns (r: Result<seq<RecoveryOutcome>, ErrorCode>)
      modifies this
      ensures (db, r) == ReconcileAll(old(db), Distinct(candidates), rows, now, [])
    {
      var ids: seq<Id> := [];
      for index := 0 to |candidates|
        invariant ids == Distinct(candidates[..index])
      {
        assert candidates[..index + 1][..index] == candidates[..index];
        if candidates[index] !in ids {
          ids := ids + [candidates[index]];
        }
      }
      assert candidates[..|candidates|] == candidates;
      var outcomes: seq<RecoveryOutcome> := [];
      for index := 0 to |ids|
        invariant ReconcileAll(old(db), ids, rows, now, []) == ReconcileAll(db, ids[index..], rows, now, outcomes)
      {
        assert ids[index..][1..] == ids[index + 1..];
        var outcome := ReconcileOne(ids[index], RowsFor(rows, ids[index]), now);
        if outcome.Err? { return Err(outcome.error); }
        outcomes := outcomes + [outcome.value];
      }
      return Ok(outcomes);
    }
  }
}
