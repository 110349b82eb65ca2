/**
 A concrete run from a migrated store with one slot: the first layer of a slot that already has a resolution is
 committed, and the repeated commit is refused.
 */
module MemoryP2Witness {
  import opened Options
  import opened MemoryP2Traces
  import G = MemoryGate
  import opened RevisionChains
  import opened MemoryP2Store
  import opened MemoryP2Writes
  import opened MemoryP2Runs
  import opened MemoryP2Chains
  import opened MemoryP2ReadBack
  import opened MemoryP2ReadBackRuns
  import opened MemoryP2Replay

  const SCOPE := Plain(1)
  const LEASE := LeaseToken("worker", 1, 50)
  const KEY := "birthplace"

  // ---------------------------------------------------------------- the start: one slot, found by the migration

  const SLOT := ResolutionAuthority(0, G.Fact, KEY, 0, 0)
  const FOUND := Resolution(Link(0, 1, None, true), 9, 0, 0, MidLayer, KEY, G.Fact, Asserted, false, [0])
  const START := EMPTY_DB.(authorities := [SLOT], resolutions := [FOUND],
                           claims := [Claim(9, 0, 0, MidLayer, KEY, G.Fact, 1, [], [])])

  lemma StartIsMigrated()
    ensures Migrated(START) && CurrentResolution(START.resolutions, 0) == Some(0)
  {
    var links := ResolutionLinks(START.resolutions);
    assert links == [Link(0, 1, None, true)];
    assert Rows(links, 0, 0) == 0 && LastRow(links, 0, 0).None?;
    assert LastRow(links, 0, 1) == Some(0);
    assert RowInPlace(links, 0);
    assert RevisionLinks(START.revisions) == [];
  }

  // ---------------------------------------------------------------- a job is admitted and freezes the slot's resolution

  const JOB := Job(0, MidFinal, Running, true, 1, 0, 0, Active, 0, 100, Plain(3), 0, 0, None, None, map[0 := 1])
  const SEGMENTS: map<Id, InputSegment> := map[0 := InputSegment(0, 7, 0, 1, 1, Plain(4), Elder, true, 0)]
  const ENTRY := CheckpointEntry(0, 1, Asserted, 1, "active", Plain(20), 0)
  const MEMBERS := [CheckpointMember(ENTRY, 0)]

  /** The final flush after P1 job 9. */
  const FREEZE := FreezeInput(0, 0, 0, 0, 0, Plain(5), CheckpointDigest([ENTRY]), Plain(6), SCOPE, 0, 0, 100, LEASE, 1,
                              MEMBERS, true, true, 0, Some(9), CheckpointDigest([ENTRY]), "policy", "retention",
                              [Reference(JobSource, 0, 1, Plain(7), SCOPE, 0)], 0, 0)

  const ADMITTED_DB := START.(jobs := map[0 := JOB], inputs := SEGMENTS)

  function FrozenStore(): Db {
    FrozenDb(ADMITTED_DB, FREEZE, JOB, 0)
  }

  function FrozenSteps(): seq<Step> {
    [Admit(0, JOB, SEGMENTS), Freeze(FREEZE)]
  }

  lemma JobFreezes()
    ensures FreezeCheckpoint(ADMITTED_DB, FREEZE, 0)
            == Ok((FrozenStore(), FrozenCheckpoint(0, 0, false)))
  {
    assert LEASE.owner[0] == 'w' && LeaseWellFormed(LEASE, 0);
    assert Entries(MEMBERS) == [ENTRY];
  }

  lemma AdmitsFirst()
    ensures OwnAllowed(State(START, 0), Admit(0, JOB, SEGMENTS))
    ensures Next(State(START, 0), Admit(0, JOB, SEGMENTS)) == State(ADMITTED_DB, 0)
  {
    assert START.jobs[0 := JOB] == ADMITTED_DB.jobs && START.inputs + SEGMENTS == ADMITTED_DB.inputs;
  }

  lemma FreezesNext()
    ensures OwnAllowed(State(ADMITTED_DB, 0), Freeze(FREEZE))
    ensures Next(State(ADMITTED_DB, 0), Freeze(FREEZE)) == State(FrozenStore(), 0)
  {
    JobFreezes();
  }

  /** The frozen store is reached by a run. */
  lemma StoreIsReached()
    ensures AllOwnAllowed(State(START, 0), FrozenSteps())
    ensures OwnRun(State(START, 0), FrozenSteps()) == State(FrozenStore(), 0)
  {
    AdmitsFirst();
    FreezesNext();
    OwnTwoSteps(State(START, 0), Admit(0, JOB, SEGMENTS), Freeze(FREEZE));
  }

  lemma OwnTwoSteps(s: State, first: Step, second: Step)
    requires OwnAllowed(s, first) && OwnAllowed(Next(s, first), second)
    ensures AllOwnAllowed(s, [first, second]) && OwnRun(s, [first, second]) == Next(Next(s, first), second)
  {
    var s1 := Next(s, first);
    assert [first, second][1..] == [second] && [second][1..] == [];
    assert AllOwnAllowed(Next(s1, second), []);
    assert AllOwnAllowed(s1, [second]) && OwnRun(s1, [second]) == Next(s1, second);
  }

  lemma StoreIsOrderly()
    ensures ReadBackInv(FrozenStore())
  {
    StartIsMigrated();
    MigratedStoreReadsBack(START);
    StoreIsReached();
    RunsKeepReadBack(State(START, 0), FrozenSteps());
  }

  // ---------------------------------------------------------------- the job commits a layer for the slot

  const EVIDENCE := EvidenceInput(0, 7, 1, 1, Plain(4), Plain(8), None, 0)
  const CLAIM := ClaimInput(KEY, G.Fact, Primary, [EVIDENCE])
  const COMMIT := CommitInput(0, 0, 0, 0, 0, LEASE, SCOPE, Plain(9), Plain(10), Plain(11), [CLAIM],
                              TargetInput(MidLayer, Some(0), KEY, G.Fact, Asserted, KnownKind(G.Single), true, Some(0), 1,
                                          None, Plain(12)),
                              [], None, None)
  const SHOWN := G.GateEvidence(0, 0, 0, 1, true, G.ExplicitFactStatement, G.Authorized, G.Eligible, G.NotDeleted)
  const READS := CommitReads(Some(SCOPE), Some(SCOPE), true, Ok(([SHOWN], [[0]])))

  lemma ClaimIsCreated()
    ensures CreateClaims(SEGMENTS, COMMIT, ClaimState(START.claims, [], []), COMMIT.claims).Ok?
  {
    assert ResolveEvidence(SEGMENTS, COMMIT, [], EVIDENCE).Ok?;
    var found := ResolveEvidence(SEGMENTS, COMMIT, [], EVIDENCE).value;
    assert [EVIDENCE][1..] == [];
    assert ResolveEvidences(SEGMENTS, COMMIT, found.0, [] + [found.1], []).Ok?;
    assert ResolveEvidences(SEGMENTS, COMMIT, [], [], [EVIDENCE]).Ok?;
    assert CreateClaim(SEGMENTS, COMMIT, ClaimState(START.claims, [], []), CLAIM).Ok?;
    assert [CLAIM][1..] == [];
  }

  lemma GateAgrees()
    ensures GateCheck(COMMIT, READS, START.resolutions, Some(0), Plain(6)).Ok?
  {
    var c := GateCandidate(COMMIT, START.resolutions, Some(0), [SHOWN], [[0]], Plain(6));
    assert SHOWN in c.evidence;
    assert G.Cites(c.evidence, 0);
    assert G.HasRole(c.evidence, G.ExplicitFactStatement);
    G.PlannedExactlyWhen(c, GateSnapshot(COMMIT, Plain(6)));
  }

  lemma TargetIsPlanned()
    ensures PlanTarget(FrozenStore(), COMMIT, READS).Ok?
  {
    var db := FrozenStore();
    StartIsMigrated();
    ClaimIsCreated();
    GateAgrees();
    assert db.resolutions == START.resolutions && db.claims == START.claims && db.inputs == SEGMENTS;
    assert ResolveAuthority(db.authorities, COMMIT, 0) == Ok((db.authorities, 0));
    assert ResolveLayerIdentity(db.identities, COMMIT, 0, 0).Ok?;
  }

  lemma CommitIsAdmitted()
    ensures LeaseWellFormed(LEASE, 0) && FrozenStore().migrationCompleted
    ensures CheckpointFrozenFor(FrozenStore(), COMMIT) && CommitAdmitted(FrozenStore(), COMMIT, 0)
  {
    assert LEASE.owner[0] == 'w' && LeaseWellFormed(LEASE, 0);
    assert Entries(MEMBERS) == [ENTRY];
  }

  lemma CommitIsMade()
    ensures CommitLayerRevisions(FrozenStore(), Single(COMMIT, READS), 0).Ok?
  {
    TargetIsPlanned();
    CommitIsAdmitted();
    SingleIsTarget(FrozenStore(), COMMIT, READS, 0);
  }

  /** The run's commit, made under the slot's resolution but as the first of its layer, is refused when it is repeated. */
  lemma LaterLayerRefusesRepetition()
    ensures Migrated(START) && AllOwnAllowed(State(START, 0), FrozenSteps())
    ensures var db := OwnRun(State(START, 0), FrozenSteps()).db;
            && CommitLayerRevisions(db, Single(COMMIT, READS), 0).Ok?
            && var after := CommitLayerRevisions(db, Single(COMMIT, READS), 0).value.0;
            CommitLayerRevisions(after, Single(COMMIT, READS), 20) == Err(AlreadyTerminal)
  {
    StartIsMigrated();
    StoreIsReached();
    StoreIsOrderly();
    CommitIsMade();
    CommitReplays(FrozenStore(), COMMIT, READS, READS, 0, 20);
  }
}
