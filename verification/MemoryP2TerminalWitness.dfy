/**
 A concrete run in which terminalizing one job with the trace of another hides the layer the other job has committed.
 */
module MemoryP2TerminalWitness {
  import opened MemoryP2Traces
  import opened MemoryP2Store
  import opened MemoryP2Writes
  import opened MemoryP2Runs
  import opened MemoryP2Chains
  import opened MemoryP2Reader
  import opened MemoryP2ReadBack
  import R = MemoryP2ReadBackRuns
  import opened MemoryP2Witness
  import opened MemoryP2RecoveryWitness

  /** The Long job of the run, ended with the trace of the Mid job. */
  const FOREIGN := TerminalizeInput(1, 0, SourceDrift, LEASE, Unavailable)
  const FROZEN_LONG_STEPS := COMMITTED_STEPS + [Admit(1, LONG_JOB, NO_SEGMENTS)] + [FreezeLong(LongFreeze(LongDigest()))]

  /** Rows of another job do not change what is read of a layer. */
  lemma ReadsBeside(a: Db, b: Db, identityId: Id, now: Instant)
    requires b == a.(jobs := b.jobs, projections := b.projections, traces := b.traces, traceByJob := b.traceByJob,
                     retention := b.retention)
    requires R.Includes(a.jobs, b.jobs) && R.Includes(a.projections, b.projections) && R.Includes(a.traces, b.traces)
    requires R.Includes(a.traceByJob, b.traceByJob) && R.Includes(a.retention, b.retention)
    requires ReadCurrentLayer(a, identityId, now).Some?
    ensures ReadCurrentLayer(b, identityId, now) == ReadCurrentLayer(a, identityId, now)
  {
    var id := CurrentRevision(a.revisions, identityId).value;
    var j := a.revisions[id].sourceJobId;
    assert RetentionOf(b, j) == RetentionOf(a, j) && TraceOfJob(b, j) == TraceOfJob(a, j);
    assert ReadableLongManifest(b, j, id, a.revisions[id].projectId) == ReadableLongManifest(a, j, id, a.revisions[id].projectId);
    assert HeaderReadable(b, identityId, id, now) && TraceReadable(b, id) && MembersReadable(b, id);
  }

  lemma CommittedReads()
    ensures ReadCurrentLayer(CommittedStore(), 0, 20).Some?
  {
    CommitsOnce();
    PlanIs();
    StoreIsOrderly();
    CommittedLayerReadsBack(FrozenStore(), COMMIT, READS, 0, 20);
  }

  lemma LongReads()
    ensures ReadCurrentLayer(LongStore(), 0, 20).Some?
  {
    CommittedReads();
    LongStoreIncludes();
    ReadsBeside(CommittedStore(), LongStore(), 0, 20);
  }

  lemma LongStoreIncludes()
    ensures var a, b := CommittedStore(), LongStore();
            && b == a.(jobs := b.jobs, projections := b.projections, traces := b.traces, traceByJob := b.traceByJob,
                       retention := b.retention)
            && R.Includes(a.jobs, b.jobs) && R.Includes(a.projections, b.projections) && R.Includes(a.traces, b.traces)
            && R.Includes(a.traceByJob, b.traceByJob) && R.Includes(a.retention, b.retention)
  {
    CommittedMaps();
    AdmittedKeys();
    FrozenLongIncludes(CommittedStore(), LONG_JOB, LongFreeze(LongDigest()), 0);
  }

  lemma FrozenLongIncludes(a: Db, job: Job, f: FreezeLongInput, now: Instant)
    requires f.aiJobId !in a.jobs && f.aiJobId !in a.projections && f.traceId !in a.traces
    requires f.aiJobId !in a.traceByJob && f.aiJobId !in a.retention
    ensures var b := FrozenLongDb(a.(jobs := a.jobs[f.aiJobId := job]), f, now);
            && b == a.(jobs := b.jobs, projections := b.projections, traces := b.traces, traceByJob := b.traceByJob,
                       retention := b.retention)
            && R.Includes(a.jobs, b.jobs) && R.Includes(a.projections, b.projections) && R.Includes(a.traces, b.traces)
            && R.Includes(a.traceByJob, b.traceByJob) && R.Includes(a.retention, b.retention)
  {
  }

  lemma ForeignIsAccepted()
    ensures JobIs(LongStore(), 1, Running) && Terminalize(LongStore(), FOREIGN, 0).Ok?
  {
    CommittedKeys();
    AcceptsForeign(AdmittedLong(), LongFreeze(LongDigest()));
  }

  lemma AcceptsForeign(db: Db, f: FreezeLongInput)
    requires f.aiJobId == 1 && f.lease == LEASE && 0 in db.traces && JobIs(db, 1, Running)
    ensures JobIs(FrozenLongDb(db, f, 0), 1, Running) && Terminalize(FrozenLongDb(db, f, 0), FOREIGN, 0).Ok?
  {
  }

  /** The layer's revision is the only one, and its job is job 0 with trace 0. */
  lemma LayerIsOfTheFirstJob()
    ensures LongStore().revisions == [LAYER_ROW] && TraceIs(LongStore(), 0, 0)
  {
    CommittedTables();
    CommittedKeys();
    TracesOfBoth(AdmittedLong(), LongFreeze(LongDigest()));
  }

  lemma TracesOfBoth(db: Db, f: FreezeLongInput)
    requires f.aiJobId == 1 && db.traceByJob == map[0 := 0]
    ensures TraceIs(FrozenLongDb(db, f, 0), 0, 0) && FrozenLongDb(db, f, 0).revisions == db.revisions
  {
  }

  lemma LongIsFrozen()
    ensures Migrated(START) && AllAllowed(State(START, 0), FROZEN_LONG_STEPS)
    ensures Run(State(START, 0), FROZEN_LONG_STEPS) == State(LongStore(), 0)
  {
    LongIsAdmitted();
    FreezesLong();
    OneMore(State(START, 0), COMMITTED_STEPS + [Admit(1, LONG_JOB, NO_SEGMENTS)], FreezeLong(LongFreeze(LongDigest())));
  }

  /** The Mid job's layer can be read until the Long job is terminalized with the Mid job's trace; then it cannot. */
  lemma ForeignTraceHidesTheLayer()
    ensures Migrated(START) && AllAllowed(State(START, 0), FROZEN_LONG_STEPS)
    ensures Run(State(START, 0), FROZEN_LONG_STEPS) == State(LongStore(), 0)
    ensures ReadCurrentLayer(LongStore(), 0, 20).Some?
    ensures Terminalize(LongStore(), FOREIGN, 0).Ok?
    ensures ReadCurrentLayer(Terminalize(LongStore(), FOREIGN, 0).value, 0, 20).None?
  {
    LongIsFrozen();
    LongReads();
    ForeignIsAccepted();
    LayerIsOfTheFirstJob();
    R.TerminalizingHidesExactlyWhen(LongStore(), FOREIGN, 0, 0, 20);
  }
}
