/**
 A concrete run in which a job of one project freezes and commits a checkpoint whose member is a resolution of another
 project: the checkpoint can never be read.
 */
module MemoryP2CheckpointWitness {
  import opened Options
  import opened MemoryP2Traces
  import G = MemoryGate
  import opened RevisionChains
  import opened MemoryP2Store
  import opened MemoryP2Writes
  import opened MemoryP2Runs
  import opened MemoryP2Chains
  import opened MemoryP2Reader
  import opened MemoryP2ReadBack
  import opened MemoryP2CheckpointReads
  import W = MemoryP2Witness

  // ---------------------------------------------------------------- project 1 freezes project 0's resolution

  const JOB := W.JOB.(projectId := 1, inputMemories := map[])
  const SEGMENTS: map<Id, InputSegment> := map[0 := InputSegment(0, 7, 1, 1, 1, Plain(4), Elder, true, 0)]
  const FREEZE := W.FREEZE.(projectId := 1, sessionId := 1)
  const ADMITTED_DB := W.START.(jobs := map[0 := JOB], inputs := SEGMENTS)
  const ADMIT := Admit(0, JOB, SEGMENTS)
  const STEPS := [ADMIT, Freeze(FREEZE), Commit(Single(COMMIT, READS))]

  function FrozenStore(): Db {
    FrozenDb(ADMITTED_DB, FREEZE, JOB, 0)
  }

  lemma Admits()
    ensures Allowed(State(W.START, 0), ADMIT) && Next(State(W.START, 0), ADMIT) == State(ADMITTED_DB, 0)
  {
    assert W.START.jobs[0 := JOB] == ADMITTED_DB.jobs && W.START.inputs + SEGMENTS == ADMITTED_DB.inputs;
  }

  lemma JobFreezes()
    ensures FreezeCheckpoint(ADMITTED_DB, FREEZE, 0) == Ok((FrozenStore(), FrozenCheckpoint(0, 0, false)))
  {
    assert W.LEASE.owner[0] == 'w' && LeaseWellFormed(W.LEASE, 0);
    assert Entries(W.MEMBERS) == [W.ENTRY];
  }

  lemma Freezes()
    ensures Allowed(State(ADMITTED_DB, 0), Freeze(FREEZE))
    ensures Next(State(ADMITTED_DB, 0), Freeze(FREEZE)) == State(FrozenStore(), 0)
  {
    JobFreezes();
  }

  // ---------------------------------------------------------------- it commits a layer for a slot of its own

  const CLAIM := ClaimInput(W.KEY, G.Fact, Primary, [W.EVIDENCE])
  const COMMIT := CommitInput(0, 0, 0, 1, 1, W.LEASE, W.SCOPE, Plain(9), Plain(10), Plain(11), [CLAIM],
                              TargetInput(MidLayer, None, W.KEY, G.Fact, Asserted, KnownKind(G.Single), true, None, 0, None,
                                          Plain(12)),
                              [], None, None)
  const SHOWN := G.GateEvidence(0, 1, 1, 1, true, G.ExplicitFactStatement, G.Authorized, G.Eligible, G.NotDeleted)
  const READS := CommitReads(Some(W.SCOPE), Some(W.SCOPE), true, Ok(([SHOWN], [[0]])))

  lemma ClaimIsCreated()
    ensures CreateClaims(SEGMENTS, COMMIT, ClaimState(W.START.claims, [], []), COMMIT.claims).Ok?
  {
    assert ResolveEvidence(SEGMENTS, COMMIT, [], W.EVIDENCE).Ok?;
    var found := ResolveEvidence(SEGMENTS, COMMIT, [], W.EVIDENCE).value;
    assert [W.EVIDENCE][1..] == [];
    assert ResolveEvidences(SEGMENTS, COMMIT, found.0, [] + [found.1], []).Ok?;
    assert ResolveEvidences(SEGMENTS, COMMIT, [], [], [W.EVIDENCE]).Ok?;
    assert CreateClaim(SEGMENTS, COMMIT, ClaimState(W.START.claims, [], []), CLAIM).Ok?;
    assert [CLAIM][1..] == [];
  }

  lemma GateAgrees(resolutions: seq<Resolution>)
    ensures GateCheck(COMMIT, READS, resolutions, None, Plain(6)).Ok?
  {
    var c := GateCandidate(COMMIT, resolutions, None, [SHOWN], [[0]], Plain(6));
    assert SHOWN in c.evidence;
    assert G.Cites(c.evidence, 0);
    assert G.HasRole(c.evidence, G.ExplicitFactStatement);
    G.PlannedExactlyWhen(c, GateSnapshot(COMMIT, Plain(6)));
  }

  lemma SlotIsNew()
    ensures ResolveAuthority(W.START.authorities, COMMIT, 0)
            == Ok((W.START.authorities + [ResolutionAuthority(1, G.Fact, W.KEY, 1, 0)], 1))
    ensures CurrentResolution(W.START.resolutions, 1).None?
  {
    assert FindSlot(W.START.authorities, COMMIT, 1).None?;
    var links := ResolutionLinks(W.START.resolutions);
    assert FirstCurrent(links, 1).None?;
  }

  lemma TargetIsPlanned()
    ensures PlanTarget(FrozenStore(), COMMIT, READS).Ok?
  {
    var db := FrozenStore();
    SlotIsNew();
    ClaimIsCreated();
    GateAgrees(db.resolutions);
    assert ResolveLayerIdentity(db.identities, COMMIT, 1, 0).Ok?;
  }

  lemma CommitIsAdmitted()
    ensures LeaseWellFormed(W.LEASE, 0) && FrozenStore().migrationCompleted
    ensures CheckpointFrozenFor(FrozenStore(), COMMIT) && CommitAdmitted(FrozenStore(), COMMIT, 0)
  {
    assert W.LEASE.owner[0] == 'w' && LeaseWellFormed(W.LEASE, 0);
    assert Entries(W.MEMBERS) == [W.ENTRY];
  }

  function CommittedStore(): Db {
    Kept(CommitLayerRevisions(FrozenStore(), Single(COMMIT, READS), 0), FrozenStore())
  }

  lemma Commits()
    ensures CommitLayerRevisions(FrozenStore(), Single(COMMIT, READS), 0).Ok?
    ensures PlanTarget(FrozenStore(), COMMIT, READS).Ok? && PlanFits(FrozenStore(), PlanTarget(FrozenStore(), COMMIT, READS).value)
    ensures CommittedStore() == Written(FrozenStore(), COMMIT, PlanTarget(FrozenStore(), COMMIT, READS).value, 0)
  {
    TargetIsPlanned();
    CommitIsAdmitted();
    SingleIsTarget(FrozenStore(), COMMIT, READS, 0);
    TargetParts(FrozenStore(), COMMIT, READS, 0, true);
  }

  lemma StoreIsReached()
    ensures AllAllowed(State(W.START, 0), STEPS)
    ensures Run(State(W.START, 0), STEPS) == State(CommittedStore(), 0)
  {
    Admits();
    Freezes();
    ThreeSteps(State(W.START, 0), ADMIT, Freeze(FREEZE), Commit(Single(COMMIT, READS)));
  }

  lemma ThreeSteps(s: State, first: Step, second: Step, third: Step)
    requires Allowed(s, first) && Allowed(Next(s, first), second) && Allowed(Next(Next(s, first), second), third)
    ensures AllAllowed(s, [first, second, third])
    ensures Run(s, [first, second, third]) == Next(Next(Next(s, first), second), third)
  {
    var s1 := Next(s, first);
    var s2 := Next(s1, second);
    assert [first, second, third][1..] == [second, third] && [second, third][1..] == [third] && [third][1..] == [];
    assert AllAllowed(Next(s2, third), []);
    assert AllAllowed(s2, [third]) && Run(s2, [third]) == Next(s2, third);
    assert AllAllowed(s1, [second, third]) && Run(s1, [second, third]) == Next(s2, third);
  }

  // ---------------------------------------------------------------- the checkpoint cannot be read

  /** What the commit leaves of the checkpoint, its producer and the member's resolution. */
  lemma WrittenRows(plan: TargetPlan)
    requires PlanFits(FrozenStore(), plan)
    ensures var db := Written(FrozenStore(), COMMIT, plan, 0);
            && JobSucceeded(db, 0) && db.jobs[0].retentionState.Active? && db.jobs[0].expiresAt == 100
            && 0 in db.checkpoints && db.checkpoints[0].status.CpCommitted? && db.checkpoints[0].producerJobId == 0
            && db.checkpoints[0].projectId == 1 && db.checkpoints[0].members == W.MEMBERS
            && |db.resolutions| > 0 && db.resolutions[0].projectId == 0
  {
  }

  /** The checkpoint is committed, its producer is retained and unexpired, and it cannot be read at any time. */
  lemma ForeignMemberHidesTheCheckpoint(now: Instant)
    ensures Migrated(W.START) && AllAllowed(State(W.START, 0), STEPS)
    ensures Run(State(W.START, 0), STEPS) == State(CommittedStore(), 0)
    ensures var db := CommittedStore();
            && JobSucceeded(db, 0) && db.jobs[0].retentionState.Active? && db.jobs[0].expiresAt == 100
            && 0 in db.checkpoints && db.checkpoints[0].status.CpCommitted?
            && ReadCheckpoint(db, 0, now).None?
  {
    W.StartIsMigrated();
    StoreIsReached();
    Commits();
    WrittenRows(PlanTarget(FrozenStore(), COMMIT, READS).value);
    assert W.MEMBERS[0] in CommittedStore().checkpoints[0].members;
    CheckpointsReadBackExactlyWhen(State(W.START, 0), STEPS, 0, now);
  }
}
