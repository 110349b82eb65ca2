/**
 What a recovery pass does to the jobs of a reachable store, by kind: it never finds a job that has committed nothing
 converged, leaves such a Mid job exactly as it is, and at most abandons such a Long job.
 */
module MemoryP2StoredPasses {
  import opened Options
  import opened MemoryP2Traces
  import opened MemoryP2Recovery
  import opened MemoryP2Store
  import opened MemoryP2Writes
  import opened MemoryP2Runs
  import opened MemoryP2Chains
  import opened MemoryP2RecoveryPass
  import opened MemoryP2StoredRecovery

  /** The record of a stored job that has committed nothing. */
  ghost predicate Uncommitted(db: Db, j: Id, rows: seq<ReferenceAuthority>) {
    && ReadRecoveryAuthority(db, j, rows).Some?
    && ReadRecoveryAuthority(db, j, rows).value.committed.None?
  }

  /** The error every such record carries. */
  function StoredError(db: Db, j: Id, now: Instant): ErrorCode
    requires j in db.jobs && j in db.projections
  {
    if || MidType(db.projections[j].jobKind) || !db.jobs[j].retentionState.Active? || db.jobs[j].expiresAt <= now
    then RetentionUnavailable
    else SourceDrift
  }

  lemma UncommittedHasNoRevisions(db: Db, j: Id, rows: seq<ReferenceAuthority>)
    requires ReadRecoveryAuthority(db, j, rows).Some?
    ensures j in db.jobs && j in db.projections
    ensures ReadRecoveryAuthority(db, j, rows).value.committed.None? <==> !HasRevisions(db, j)
  {
    NoRevisionsNoIds(db, j);
  }

  /** What recovery reads of a Mid job that has committed nothing. */
  lemma MidRecordRead(db: Db, j: Id, rows: seq<ReferenceAuthority>)
    requires j in db.projections && MidRecord(db, j) && ReadRecoveryAuthority(db, j, rows).Some? && !HasRevisions(db, j)
    ensures var a := ReadRecoveryAuthority(db, j, rows).value;
            a.checkpoint.Some? && a.checkpoint.value.status.CpFrozen?
  {
  }

  /** What recovery reads of a Long job that has committed nothing. */
  lemma LongRecordRead(db: Db, j: Id, rows: seq<ReferenceAuthority>)
    requires j in db.projections && TraceOwned(db, j) && LongRecord(db, j) && !HasRevisions(db, j)
    requires ReadRecoveryAuthority(db, j, rows).Some? && j !in db.longs
    requires forall c :: c in db.checkpoints ==> db.checkpoints[c].memberManifestHash.CheckpointDigest?
    ensures var a := ReadRecoveryAuthority(db, j, rows).value;
            && a.checkpoint.Some? && a.checkpoint.value.status.CpCommitted?
            && a.checkpoint.value.sourceManifestHash.CheckpointDigest? && a.identity.sourceManifestHash.LayerMemberDigest?
            && a.targetLayer.LongLayer? && |a.sourceSessionIds| == 1
  {
  }

  /** The rest of the record, whatever the job's kind. */
  lemma RecordRead(db: Db, j: Id, rows: seq<ReferenceAuthority>)
    requires db.migrationCompleted && ReadRecoveryAuthority(db, j, rows).Some?
    ensures j in db.jobs && j in db.projections
    ensures var a, job, p := ReadRecoveryAuthority(db, j, rows).value, db.jobs[j], db.projections[j];
            && a.identity.aiJobId == j && a.identity.expiresAt == job.expiresAt && a.retentionState == job.retentionState
            && a.jobStatus == job.status && a.migrationStatus.MigrationCompleted? && a.legacyNullResolutionCount == 0
            && a.leaseOwnerId == Some(p.lease.owner) && a.leaseEpoch == p.lease.epoch
            && a.leaseExpiresAt == Some(p.lease.expiresAt) && a.trace.Some?
  {
  }

  /** Every stored record of a job that has committed nothing carries an error, and which one depends on its kind. */
  lemma UncommittedRecordHasError(db: Db, j: Id, rows: seq<ReferenceAuthority>, now: Instant)
    requires RecordsOk(db) && Uncommitted(db, j, rows)
    ensures j in db.jobs && j in db.projections
    ensures AuthorityError(ReadRecoveryAuthority(db, j, rows).value, now) == Some(StoredError(db, j, now))
  {
    UncommittedHasNoRevisions(db, j, rows);
    RecordRead(db, j, rows);
    assert JobRecord(db, j);
    if MidRecord(db, j) {
      MidRecordRead(db, j, rows);
    } else {
      assert j !in db.longs;
      LongRecordRead(db, j, rows);
    }
  }

  lemma LeaseIsReadable(db: Db, j: Id, rows: seq<ReferenceAuthority>, now: Instant)
    requires RecordsOk(db) && ReadRecoveryAuthority(db, j, rows).Some?
    ensures j in db.projections
    ensures DurableLeaseState(ReadRecoveryAuthority(db, j, rows).value, now)
            == if db.projections[j].lease.expiresAt > now then LeaseActive else LeaseExpired
  {
    RecordRead(db, j, rows);
    assert JobRecord(db, j);
  }

  // ---------------------------------------------------------------- what is decided

  /** A record whose error says that it may no longer be kept, of a job that has committed nothing. */
  lemma UnavailableDecision(a: RecoveryAuthority, now: Instant)
    requires a.committed.None? && AuthorityError(a, now) == Some(RetentionUnavailable)
    requires !DurableLeaseState(a, now).LeaseInvalid? && !a.jobStatus.Succeeded?
    ensures if Live(a.jobStatus) && DurableLeaseState(a, now).LeaseActive? then Reconcile(a, now) == ActiveAttempt
            else Reconcile(a, now).TerminalUnreadable?
  {
  }

  /** The trace of an abandoned attempt still reads as running and can be ended. */
  predicate MayBeEnded(a: RecoveryAuthority) {
    TraceMatchesRunning(a) && BaseError(BaseOf(a, a.retentionState)).None?
  }

  /** A record that has drifted, of a job that has committed nothing. */
  lemma DriftDecision(a: RecoveryAuthority, now: Instant)
    requires a.committed.None? && AuthorityError(a, now) == Some(SourceDrift)
    requires !DurableLeaseState(a, now).LeaseInvalid? && !a.jobStatus.Succeeded? && a.trace.Some?
    requires ScopeError(a.identity.sessionId, ScopeOf(a)).None?
    ensures if Live(a.jobStatus) && DurableLeaseState(a, now).LeaseActive? then Reconcile(a, now) == ActiveAttempt
            else if !Live(a.jobStatus) || !TraceMatchesRunning(a) then Reconcile(a, now).TerminalUnreadable?
            else if MayBeEnded(a) then
              && Reconcile(a, now).Apply?
              && var c := Reconcile(a, now).command;
              && c.kind.TerminalizeUncommitted? && c.terminalStatus.Unavailable? && c.errorCode == Some(SourceDrift)
              && c.jobId == a.identity.aiJobId && c.writeAt == now
            else Reconcile(a, now).Raises?
  {
  }

  // ---------------------------------------------------------------- what a pass does

  /** What a pass does to a stored job it does not change. */
  function QuietOutcome(db: Db, j: Id, now: Instant): RecoveryOutcome
    requires j in db.jobs && j in db.projections
  {
    if Live(db.jobs[j].status) && db.projections[j].lease.expiresAt > now then ActiveOutcome else TerminalUnreadableOutcome
  }

  lemma UnreadablePass(db: Db, j: Id, rows: seq<ReferenceAuthority>, now: Instant)
    requires ReadRecoveryAuthority(db, j, rows).Some?
    ensures var d := Reconcile(ReadRecoveryAuthority(db, j, rows).value, now);
            && (d.ActiveAttempt? ==> ReconcileJob(db, j, rows, now) == Ok((db, ActiveOutcome)))
            && (d.TerminalUnreadable? ==> ReconcileJob(db, j, rows, now) == Ok((db, TerminalUnreadableOutcome)))
            && (d.Raises? ==> ReconcileJob(db, j, rows, now).Err?)
  {
  }

  lemma UncommittedIsUnfinished(db: Db, j: Id, rows: seq<ReferenceAuthority>)
    requires Inv(db) && Uncommitted(db, j, rows)
    ensures j in db.jobs && j in db.projections && !db.jobs[j].status.Succeeded? && !HasRevisions(db, j)
    ensures !ReadRecoveryAuthority(db, j, rows).value.jobStatus.Succeeded?
  {
    UncommittedHasNoRevisions(db, j, rows);
  }

  /**
   A pass over a Mid job that has committed nothing, or over any such job once it is hidden or expired, changes
   nothing: while its lease lasts it is left to its worker, and afterwards it stays as it is.
   */
  lemma PassLeavesTheJob(db: Db, j: Id, rows: seq<ReferenceAuthority>, now: Instant)
    requires Inv(db) && RecordsOk(db) && Uncommitted(db, j, rows)
    requires j in db.jobs && j in db.projections && StoredError(db, j, now).RetentionUnavailable?
    ensures ReconcileJob(db, j, rows, now) == Ok((db, QuietOutcome(db, j, now)))
  {
    UncommittedIsUnfinished(db, j, rows);
    UncommittedRecordHasError(db, j, rows, now);
    LeaseIsReadable(db, j, rows, now);
    RecordRead(db, j, rows);
    UnavailableDecision(ReadRecoveryAuthority(db, j, rows).value, now);
    UnreadablePass(db, j, rows, now);
  }

  /** A pass abandons the job: its lease is over, its trace still runs, and the record is bound to its rows. */
  predicate Abandons(db: Db, j: Id, rows: seq<ReferenceAuthority>, now: Instant) {
    && j in db.jobs && j in db.projections && ReadRecoveryAuthority(db, j, rows).Some?
    && Live(db.jobs[j].status) && db.projections[j].lease.expiresAt <= now
    && var a := ReadRecoveryAuthority(db, j, rows).value;
    MayBeEnded(a) && SelfConsistent(a)
  }

  predicate EndsAsDrifted(db: Db, after: Db, j: Id, now: Instant)
    requires j in db.jobs
  {
    && j in after.jobs
    && after.jobs[j] == db.jobs[j].(status := Unavailable, failureCode := Some(SourceDrift), completedAt := Some(now))
    && after == db.(jobs := db.jobs[j := after.jobs[j]], traces := after.traces)
  }

  lemma AbandonedRows(db: Db, c: RecoveryCommand, rows: seq<ReferenceAuthority>)
    requires c.jobId in db.jobs && RecoveryAdmitted(db, c, rows)
    requires c.kind.TerminalizeUncommitted? && c.terminalStatus.Unavailable? && c.errorCode == Some(SourceDrift)
    ensures ApplyRecovery(db, c, rows).1 && EndsAsDrifted(db, ApplyRecovery(db, c, rows).0, c.jobId, c.writeAt)
  {
  }

  lemma DriftedScope(db: Db, j: Id, rows: seq<ReferenceAuthority>)
    requires RecordsOk(db) && Uncommitted(db, j, rows) && j in db.projections && !MidType(db.projections[j].jobKind)
    ensures var a := ReadRecoveryAuthority(db, j, rows).value;
            ScopeError(a.identity.sessionId, ScopeOf(a)).None?
  {
    UncommittedHasNoRevisions(db, j, rows);
    assert JobRecord(db, j);
    assert j !in db.longs;
    LongRecordRead(db, j, rows);
  }

  /**
   What a pass makes of a job whose record has drifted: it changes the job exactly when it abandons it, and then the
   job ends unavailable with "source drift". A pass that cannot build the ending raises; one whose record is not bound
   to its rows loses its own compare-and-set.
   */
  ghost predicate DriftedPass(db: Db, j: Id, rows: seq<ReferenceAuthority>, now: Instant)
    requires j in db.jobs && j in db.projections && ReadRecoveryAuthority(db, j, rows).Some?
  {
    var a, result := ReadRecoveryAuthority(db, j, rows).value, ReconcileJob(db, j, rows, now);
    if Abandons(db, j, rows, now) then
      result.Ok? && result.value.1.TerminalizedUncommitted? && EndsAsDrifted(db, result.value.0, j, now)
    else if !Live(db.jobs[j].status) || db.projections[j].lease.expiresAt > now || !TraceMatchesRunning(a) then
      result == Ok((db, QuietOutcome(db, j, now)))
    else if MayBeEnded(a) then result == Ok((db, LostRace))
    else result.Err?
  }

  lemma DriftedRecord(db: Db, j: Id, rows: seq<ReferenceAuthority>, now: Instant)
    requires Inv(db) && RecordsOk(db) && Uncommitted(db, j, rows)
    requires j in db.jobs && j in db.projections && StoredError(db, j, now).SourceDrift?
    ensures var a := ReadRecoveryAuthority(db, j, rows).value;
            && AuthorityError(a, now) == Some(SourceDrift) && a.jobStatus == db.jobs[j].status && !a.jobStatus.Succeeded?
            && DurableLeaseState(a, now) == (if db.projections[j].lease.expiresAt > now then LeaseActive else LeaseExpired)
            && a.trace.Some? && a.identity.aiJobId == j && ScopeError(a.identity.sessionId, ScopeOf(a)).None?
  {
    UncommittedIsUnfinished(db, j, rows);
    UncommittedRecordHasError(db, j, rows, now);
    LeaseIsReadable(db, j, rows, now);
    RecordRead(db, j, rows);
    DriftedScope(db, j, rows);
  }

  /** A pass over a retained, unexpired Long job that has committed nothing. */
  lemma PassOverLongJob(db: Db, j: Id, rows: seq<ReferenceAuthority>, now: Instant)
    requires Inv(db) && RecordsOk(db) && Uncommitted(db, j, rows)
    requires j in db.jobs && j in db.projections && StoredError(db, j, now).SourceDrift?
    ensures DriftedPass(db, j, rows, now)
  {
    var a := ReadRecoveryAuthority(db, j, rows).value;
    DriftedRecord(db, j, rows, now);
    DriftDecision(a, now);
    UnreadablePass(db, j, rows, now);
    if Reconcile(a, now).Apply? {
      AbandoningPass(db, j, rows, now, a);
    }
  }

  lemma AbandoningPass(db: Db, j: Id, rows: seq<ReferenceAuthority>, now: Instant, a: RecoveryAuthority)
    requires ReadRecoveryAuthority(db, j, rows) == Some(a) && a.committed.None? && a.identity.aiJobId == j
    requires Reconcile(a, now).Apply?
    requires var c := Reconcile(a, now).command;
             && c.kind.TerminalizeUncommitted? && c.terminalStatus.Unavailable? && c.errorCode == Some(SourceDrift)
             && c.jobId == j && c.writeAt == now
    ensures j in db.jobs
    ensures var result := ReconcileJob(db, j, rows, now);
            if SelfConsistent(a) then
              result.Ok? && result.value.1.TerminalizedUncommitted? && EndsAsDrifted(db, result.value.0, j, now)
            else result == Ok((db, LostRace))
  {
    var c := Reconcile(a, now).command;
    PlannedCommandMatchesOwnRecord(a, now);
    PassApplies(db, j, rows, now, a, c);
    if SelfConsistent(a) {
      AbandonedRows(db, c, rows);
    }
  }

  /** After the job has ended a pass, whatever rows it reads, finds it unreadable and changes nothing. */
  lemma AbandonedStaysUnreadable(db: Db, j: Id, rows: seq<ReferenceAuthority>, now: Instant)
    requires Inv(db) && RecordsOk(db) && Uncommitted(db, j, rows)
    requires j in db.jobs && j in db.projections && !Live(db.jobs[j].status)
    ensures ReconcileJob(db, j, rows, now) == Ok((db, TerminalUnreadableOutcome))
  {
    if StoredError(db, j, now).RetentionUnavailable? {
      PassLeavesTheJob(db, j, rows, now);
    } else {
      PassOverLongJob(db, j, rows, now);
    }
  }

  lemma EndedJobIsUnreadable(db: Db, j: Id, rows: seq<ReferenceAuthority>, now: Instant)
    requires Inv(db) && RecordsOk(db) && j in db.projections
    requires !Live(db.jobs[j].status) && !db.jobs[j].status.Succeeded?
    ensures ReadRecoveryAuthority(db, j, rows).Some? ==>
              ReconcileJob(db, j, rows, now) == Ok((db, TerminalUnreadableOutcome))
  {
    if ReadRecoveryAuthority(db, j, rows).Some? {
      UnfinishedJobHasNone(db, j);
      UncommittedHasNoRevisions(db, j, rows);
      AbandonedStaysUnreadable(db, j, rows, now);
    }
  }

  lemma PassKeepsRecords(s: State, j: Id, rows: seq<ReferenceAuthority>)
    requires Inv(s.db) && RecordsOk(s.db) && ReconcileJob(s.db, j, rows, s.now).Ok?
    ensures var after := ReconcileJob(s.db, j, rows, s.now).value.0;
            Inv(after) && RecordsOk(after)
  {
    var steps := ReconcilingIsAStep(s, j, rows);
    RunKeepsRecords(s, steps);
  }

  /** A job that a pass abandons ends as drifted, and any later pass, whatever it reads, finds it unreadable. */
  lemma AbandonedJobEnds(db: Db, j: Id, rows: seq<ReferenceAuthority>, now: Instant, again: seq<ReferenceAuthority>,
                         later: Instant)
    requires Inv(db) && RecordsOk(db) && Uncommitted(db, j, rows) && Abandons(db, j, rows, now)
    requires StoredError(db, j, now).SourceDrift?
    ensures ReconcileJob(db, j, rows, now).Ok?
    ensures var (after, outcome) := ReconcileJob(db, j, rows, now).value;
            && outcome.TerminalizedUncommitted? && EndsAsDrifted(db, after, j, now)
            && (ReadRecoveryAuthority(after, j, again).Some? ==>
                  ReconcileJob(after, j, again, later) == Ok((after, TerminalUnreadableOutcome)))
  {
    AbandoningEnds(db, j, rows, now);
    PassKeepsRecords(State(db, now), j, rows);
    DriftedStaysUnreadable(db, ReconcileJob(db, j, rows, now).value.0, j, now, again, later);
  }

  lemma AbandoningEnds(db: Db, j: Id, rows: seq<ReferenceAuthority>, now: Instant)
    requires Inv(db) && RecordsOk(db) && Uncommitted(db, j, rows) && Abandons(db, j, rows, now)
    requires StoredError(db, j, now).SourceDrift?
    ensures ReconcileJob(db, j, rows, now).Ok? && ReconcileJob(db, j, rows, now).value.1.TerminalizedUncommitted?
    ensures EndsAsDrifted(db, ReconcileJob(db, j, rows, now).value.0, j, now)
  {
    PassOverLongJob(db, j, rows, now);
  }

  lemma DriftedStaysUnreadable(db: Db, after: Db, j: Id, now: Instant, rows: seq<ReferenceAuthority>, later: Instant)
    requires j in db.jobs && j in db.projections && EndsAsDrifted(db, after, j, now) && Inv(after) && RecordsOk(after)
    ensures ReadRecoveryAuthority(after, j, rows).Some? ==>
              ReconcileJob(after, j, rows, later) == Ok((after, TerminalUnreadableOutcome))
  {
    EndedJobIsUnreadable(after, j, rows, later);
  }

  // ---------------------------------------------------------------- the run theorems

  lemma MigratedStoreRecords(db: Db)
    requires Migrated(db)
    ensures Inv(db) && RecordsOk(db)
  {
  }

  lemma RunFromMigrated(s: State, steps: seq<Step>)
    requires Migrated(s.db) && AllAllowed(s, steps)
    ensures Inv(Run(s, steps).db) && RecordsOk(Run(s, steps).db)
  {
    MigratedStoreRecords(s.db);
    RunKeepsRecords(s, steps);
  }

  /** What a pass makes of a job that has committed nothing: only a retained, unexpired Long job can be changed. */
  ghost predicate UncommittedPass(db: Db, j: Id, rows: seq<ReferenceAuthority>, now: Instant)
    requires j in db.jobs && j in db.projections && ReadRecoveryAuthority(db, j, rows).Some?
  {
    && (ReconcileJob(db, j, rows, now).Ok? ==> !ReconcileJob(db, j, rows, now).value.1.ConvergedOutcome?)
    && if StoredError(db, j, now).RetentionUnavailable?
       then ReconcileJob(db, j, rows, now) == Ok((db, QuietOutcome(db, j, now)))
       else DriftedPass(db, j, rows, now)
  }

  /**
   In every store a run reaches, the record of a job that has committed nothing carries an error at every instant, and
   no pass reports such a job converged: a Mid job is changed by none, a Long job at most abandoned.
   */
  lemma NoUncommittedJobConverges(s: State, steps: seq<Step>, j: Id, rows: seq<ReferenceAuthority>, now: Instant)
    requires Migrated(s.db) && AllAllowed(s, steps)
    ensures var db := Run(s, steps).db;
            Uncommitted(db, j, rows) ==>
              && j in db.jobs && j in db.projections
              && AuthorityError(ReadRecoveryAuthority(db, j, rows).value, now) == Some(StoredError(db, j, now))
              && UncommittedPass(db, j, rows, now)
  {
    RunFromMigrated(s, steps);
    if Uncommitted(Run(s, steps).db, j, rows) {
      UncommittedRecordHasError(Run(s, steps).db, j, rows, now);
      StoredPass(Run(s, steps).db, j, rows, now);
    }
  }

  lemma StoredPass(db: Db, j: Id, rows: seq<ReferenceAuthority>, now: Instant)
    requires Inv(db) && RecordsOk(db) && Uncommitted(db, j, rows) && j in db.jobs && j in db.projections
    ensures UncommittedPass(db, j, rows, now)
  {
    if StoredError(db, j, now).RetentionUnavailable? {
      PassLeavesTheJob(db, j, rows, now);
    } else {
      PassOverLongJob(db, j, rows, now);
    }
  }

  /** Once such a job has ended, every pass after any run finds it unreadable and changes nothing. */
  lemma EndedJobStaysUnreadable(s: State, steps: seq<Step>, j: Id, rows: seq<ReferenceAuthority>, now: Instant)
    requires Inv(s.db) && RecordsOk(s.db) && AllAllowed(s, steps) && j in s.db.projections
    requires !Live(s.db.jobs[j].status) && !s.db.jobs[j].status.Succeeded?
    ensures var db := Run(s, steps).db;
            ReadRecoveryAuthority(db, j, rows).Some? ==>
              ReconcileJob(db, j, rows, now) == Ok((db, TerminalUnreadableOutcome))
  {
    RunIsSafe(s, steps, j);
    RunKeepsRecords(s, steps);
    EndedJobIsUnreadable(Run(s, steps).db, j, rows, now);
  }

  /** No commit fence is ever issued for a stored job. */
  lemma NoFenceIsIssued(s: State, steps: seq<Step>, j: Id, rows: seq<ReferenceAuthority>, now: Instant, attemptNo: nat,
                        leaseOwnerId: string, leaseEpoch: int)
    requires Migrated(s.db) && AllAllowed(s, steps)
    ensures var authority := ReadRecoveryAuthority(Run(s, steps).db, j, rows);
            authority.Some? ==> CreateCommitFence(authority.value, now, attemptNo, leaseOwnerId, leaseEpoch).Err?
  {
    RunFromMigrated(s, steps);
    if ReadRecoveryAuthority(Run(s, steps).db, j, rows).Some? {
      RecordHasNoFence(Run(s, steps).db, j, rows, now, attemptNo, leaseOwnerId, leaseEpoch);
    }
  }

  lemma RecordHasNoFence(db: Db, j: Id, rows: seq<ReferenceAuthority>, now: Instant, attemptNo: nat,
                         leaseOwnerId: string, leaseEpoch: int)
    requires RecordsOk(db) && ReadRecoveryAuthority(db, j, rows).Some?
    ensures CreateCommitFence(ReadRecoveryAuthority(db, j, rows).value, now, attemptNo, leaseOwnerId, leaseEpoch).Err?
  {
    if Uncommitted(db, j, rows) {
      UncommittedRecordHasError(db, j, rows, now);
    }
  }
}
