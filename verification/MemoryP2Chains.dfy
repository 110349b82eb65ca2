/**
 The append-only revision chains behind committed memories: over any run from an empty or migrated store each
 authority's resolutions and each identity's layer revisions form one numbered chain whose last row
 alone is current, and the gate's plan describes exactly the revision the commit writes.
 */
module MemoryP2Chains {
  import opened Options
  import opened MemoryP2Traces
  import opened MemoryP2Recovery
  import G = MemoryGate
  import opened RevisionChains
  import opened MemoryP2Store
  import opened MemoryP2Writes
  import opened MemoryP2Runs

  ghost predicate SlotsUnique(rows: seq<ResolutionAuthority>) {
    forall i, j :: 0 <= i < j < |rows| ==>
      (rows[i].projectId, rows[i].semanticKind, rows[i].canonicalKey)
      != (rows[j].projectId, rows[j].semanticKind, rows[j].canonicalKey)
  }

  ghost predicate KeysUnique(rows: seq<LayerIdentity>) {
    forall i, j :: 0 <= i < j < |rows| ==> rows[i].keyDigest != rows[j].keyDigest
  }

  /** A layer revision names the resolution row it was written with and an identity of that authority. */
  ghost predicate RevisionBacked(db: Db, i: nat)
    requires i < |db.revisions|
  {
    var r := db.revisions[i];
    && r.resolutionRowId < |db.resolutions|
    && db.resolutions[r.resolutionRowId].link.owner == r.authorityId
    && db.resolutions[r.resolutionRowId].link.number == r.resolutionRevision
    && r.link.owner < |db.identities|
    && db.identities[r.link.owner].originAuthorityId == r.authorityId
  }

  ghost predicate ResolutionBacked(db: Db, i: nat)
    requires i < |db.resolutions|
  {
    var r := db.resolutions[i];
    && r.link.owner < |db.authorities|
    && db.authorities[r.link.owner].projectId == r.projectId
    && db.authorities[r.link.owner].semanticKind == r.semanticKind
    && db.authorities[r.link.owner].canonicalKey == r.canonicalKey
  }

  ghost predicate ChainsOk(db: Db) {
    && Chained(ResolutionLinks(db.resolutions))
    && Chained(RevisionLinks(db.revisions))
    && SlotsUnique(db.authorities)
    && KeysUnique(db.identities)
    && (forall i :: 0 <= i < |db.resolutions| ==> ResolutionBacked(db, i))
    && (forall i :: 0 <= i < |db.revisions| ==> RevisionBacked(db, i))
  }

  // ---------------------------------------------------------------- one target

  lemma SupersedeThenAdd(before: seq<Link>, after: seq<Link>, owner: nat, added: Link)
    requires |after| == |before| + 1 && after[|before|] == added
    requires var row := FirstCurrent(before, owner);
             && after[..|before|] == Superseded(before, row)
             && added == Link(owner, NumberOf(before, row) + 1, row, true)
    ensures after == Append(before, owner)
  {
    assert after == after[..|before|] + [after[|before|]];
  }

  /** A written target extends one resolution chain and one layer chain by one row. */
  lemma TargetAppends(db: Db, input: CommitInput, plan: TargetPlan)
    requires plan.previous == CurrentResolution(db.resolutions, plan.authorityId)
    requires plan.predecessor == CurrentRevision(db.revisions, plan.identityId)
    requires NumberOf(ResolutionLinks(db.resolutions), plan.previous) == input.target.expectedCurrentRevision
    ensures var after := WithTarget(db, input, plan);
            && ResolutionLinks(after.resolutions) == Append(ResolutionLinks(db.resolutions), plan.authorityId)
            && RevisionLinks(after.revisions) == Append(RevisionLinks(db.revisions), plan.identityId)
  {
    var after := WithTarget(db, input, plan);
    var r0, r1 := ResolutionLinks(db.resolutions), ResolutionLinks(after.resolutions);
    assert r1[..|r0|] == Superseded(r0, plan.previous);
    SupersedeThenAdd(r0, r1, plan.authorityId, ResolutionRow(input, plan).link);
    var l0, l1 := RevisionLinks(db.revisions), RevisionLinks(after.revisions);
    assert l1[..|l0|] == Superseded(l0, plan.predecessor);
    SupersedeThenAdd(l0, l1, plan.identityId, l1[|l0|]);
  }

  lemma {:induction false} SlotFound(rows: seq<ResolutionAuthority>, input: CommitInput, i: nat)
    requires i <= |rows|
    ensures var r := FindSlot(rows, input, i);
            if r.None? then forall k :: i <= k < |rows| ==>
              !(rows[k].projectId == input.projectId && rows[k].semanticKind == input.target.semanticKind
                && rows[k].canonicalKey == input.target.canonicalKey)
            else && rows[r.value].projectId == input.projectId
                 && rows[r.value].semanticKind == input.target.semanticKind
                 && rows[r.value].canonicalKey == input.target.canonicalKey
    decreases |rows| - i
  {
    if i < |rows| {
      SlotFound(rows, input, i + 1);
    }
  }

  lemma {:induction false} IdentityFound(rows: seq<LayerIdentity>, keyDigest: Digest, i: nat)
    requires i <= |rows|
    ensures var r := FindIdentity(rows, keyDigest, i);
            if r.None? then forall k :: i <= k < |rows| ==> rows[k].keyDigest != keyDigest
            else rows[r.value].keyDigest == keyDigest
    decreases |rows| - i
  {
    if i < |rows| {
      IdentityFound(rows, keyDigest, i + 1);
    }
  }

  /** What the checks of a target establish about the rows it names. */
  ghost predicate PlanNames(db: Db, input: CommitInput, plan: TargetPlan) {
    && plan.authorityId < |plan.authorities|
    && |db.authorities| <= |plan.authorities| && plan.authorities[..|db.authorities|] == db.authorities
    && SlotsUnique(plan.authorities)
    && plan.authorities[plan.authorityId].projectId == input.projectId
    && plan.authorities[plan.authorityId].semanticKind == input.target.semanticKind
    && plan.authorities[plan.authorityId].canonicalKey == input.target.canonicalKey
    && plan.identityId < |plan.identities|
    && |db.identities| <= |plan.identities| && plan.identities[..|db.identities|] == db.identities
    && KeysUnique(plan.identities)
    && plan.identities[plan.identityId].originAuthorityId == plan.authorityId
    && plan.previous == CurrentResolution(db.resolutions, plan.authorityId)
    && plan.predecessor == CurrentRevision(db.revisions, plan.identityId)
    && NumberOf(ResolutionLinks(db.resolutions), plan.previous) == input.target.expectedCurrentRevision
  }

  /** How a target's plan is put together. */
  lemma PlanParts(db: Db, input: CommitInput, seen: CommitReads)
    requires input.checkpointId in db.checkpoints && input.aiJobId in db.jobs
    requires input.aiJobId in db.projections && input.traceId in db.traces
    requires PlanTarget(db, input, seen).Ok?
    ensures var plan, checkpoint := PlanTarget(db, input, seen).value, db.checkpoints[input.checkpointId];
            && ResolveAuthority(db.authorities, input, checkpoint.threadId) == Ok((plan.authorities, plan.authorityId))
            && ResolveLayerIdentity(db.identities, input, plan.authorityId, checkpoint.threadId)
               == Ok((plan.identities, plan.identityId))
            && plan.previous == CurrentResolution(db.resolutions, plan.authorityId)
            && plan.previous == input.target.expectedCurrentResolutionId
            && plan.predecessor == CurrentRevision(db.revisions, plan.identityId)
            && NumberOf(ResolutionLinks(db.resolutions), plan.previous) == input.target.expectedCurrentRevision
            && GateCheck(input, seen, db.resolutions, plan.previous, checkpoint.evidenceManifestHash) == Ok(plan.gate)
            && CreateClaims(db.inputs, input, ClaimState(db.claims, db.evidences, []), input.claims) == Ok(plan.claims)
            && input.claims != []
            && input.target.layer == LayerOfKind(db.jobs[input.aiJobId].jobType)
            && (if input.target.layer.LongLayer?
                then plan.long.Some? && LongProjectionFor(db, input, db.revisions, |db.revisions|) == Ok(plan.long.value)
                else plan.long.None?)
  {
  }

  lemma AuthorityResolved(rows: seq<ResolutionAuthority>, input: CommitInput, threadId: Id)
    requires SlotsUnique(rows) && ResolveAuthority(rows, input, threadId).Ok?
    ensures var (after, id) := ResolveAuthority(rows, input, threadId).value;
            && |rows| <= |after| && after[..|rows|] == rows && SlotsUnique(after) && id < |after|
            && after[id].projectId == input.projectId
            && after[id].semanticKind == input.target.semanticKind
            && after[id].canonicalKey == input.target.canonicalKey
  {
    SlotFound(rows, input, 0);
  }

  lemma IdentityResolved(rows: seq<LayerIdentity>, input: CommitInput, authorityId: Id, threadId: Id)
    requires KeysUnique(rows) && ResolveLayerIdentity(rows, input, authorityId, threadId).Ok?
    ensures var (after, id) := ResolveLayerIdentity(rows, input, authorityId, threadId).value;
            && |rows| <= |after| && after[..|rows|] == rows && KeysUnique(after) && id < |after|
            && after[id].originAuthorityId == authorityId
  {
    IdentityFound(rows, input.target.identityKeyDigest, 0);
  }

  lemma PlannedTargetNames(db: Db, input: CommitInput, seen: CommitReads)
    requires SlotsUnique(db.authorities) && KeysUnique(db.identities)
    requires input.checkpointId in db.checkpoints && input.aiJobId in db.jobs
    requires input.aiJobId in db.projections && input.traceId in db.traces
    requires PlanTarget(db, input, seen).Ok?
    ensures PlanNames(db, input, PlanTarget(db, input, seen).value)
  {
    PlanParts(db, input, seen);
    var plan, threadId := PlanTarget(db, input, seen).value, db.checkpoints[input.checkpointId].threadId;
    AuthorityResolved(db.authorities, input, threadId);
    IdentityResolved(db.identities, input, plan.authorityId, threadId);
  }

  lemma TargetKeepsChains(db: Db, input: CommitInput, plan: TargetPlan)
    requires ChainsOk(db) && PlanNames(db, input, plan)
    ensures ChainsOk(WithTarget(db, input, plan))
  {
    var after := WithTarget(db, input, plan);
    TargetAppends(db, input, plan);
    AppendKeepsChains(ResolutionLinks(db.resolutions), plan.authorityId);
    AppendKeepsChains(RevisionLinks(db.revisions), plan.identityId);
    forall i | 0 <= i < |after.resolutions| ensures ResolutionBacked(after, i) {
      if i < |db.resolutions| {
        assert ResolutionBacked(db, i);
        var owner := db.resolutions[i].link.owner;
        assert plan.authorities[..|db.authorities|][owner] == db.authorities[owner];
      }
    }
    forall i | 0 <= i < |after.revisions| ensures RevisionBacked(after, i) {
      if i < |db.revisions| {
        assert RevisionBacked(db, i);
        var owner := db.revisions[i].link.owner;
        assert plan.identities[..|db.identities|][owner] == db.identities[owner];
      }
    }
  }

  ghost predicate SameChains(a: Db, b: Db) {
    && a.authorities == b.authorities
    && a.resolutions == b.resolutions
    && a.identities == b.identities
    && a.revisions == b.revisions
  }

  lemma SameChainsOk(a: Db, b: Db)
    requires ChainsOk(a) && SameChains(a, b)
    ensures ChainsOk(b)
  {
    forall i | 0 <= i < |b.resolutions| ensures ResolutionBacked(b, i) {
      assert ResolutionBacked(a, i);
    }
    forall i | 0 <= i < |b.revisions| ensures RevisionBacked(b, i) {
      assert RevisionBacked(a, i);
    }
  }

  lemma CommitTargetKeepsChains(db: Db, input: CommitInput, seen: CommitReads, now: Instant, finalize: bool)
    requires ChainsOk(db) && CommitTarget(db, input, seen, now, finalize).Ok?
    ensures ChainsOk(CommitTarget(db, input, seen, now, finalize).value.0)
  {
    if !JobSucceeded(db, input.aiJobId) {
      var plan := PlanTarget(db, input, seen).value;
      PlannedTargetNames(db, input, seen);
      TargetKeepsChains(db, input, plan);
      SameChainsOk(WithTarget(db, input, plan), CommitTarget(db, input, seen, now, finalize).value.0);
    }
  }

  lemma {:induction false} CommitTargetsKeepChains(db: Db, targets: seq<(CommitInput, CommitReads)>,
                                                   results: seq<CommitResult>, now: Instant)
    requires ChainsOk(db) && CommitTargets(db, targets, results, now).Ok?
    ensures ChainsOk(CommitTargets(db, targets, results, now).value.0)
    decreases |targets|
  {
    if targets != [] {
      CommitTargetKeepsChains(db, targets[0].0, targets[0].1, now, |targets| == 1);
      var next := CommitTarget(db, targets[0].0, targets[0].1, now, |targets| == 1).value;
      CommitTargetsKeepChains(next.0, targets[1..], results + [next.1], now);
    }
  }

  // ---------------------------------------------------------------- runs

  lemma FreezeLeavesChains(db: Db, input: FreezeInput, now: Instant)
    ensures SameChains(db, Kept(FreezeCheckpoint(db, input, now), db))
  {
  }

  lemma FreezeLongLeavesChains(db: Db, input: FreezeLongInput, now: Instant)
    ensures SameChains(db, Kept(FreezeLongJob(db, input, now), db))
  {
  }

  /** Recovery and stage advances write jobs and traces only. */
  lemma RecoveryLeavesTables(db: Db, c: RecoveryCommand, rows: seq<ReferenceAuthority>)
    ensures var after := ApplyRecovery(db, c, rows).0;
            after == db.(jobs := after.jobs, projections := after.projections, traces := after.traces)
  {
  }

  lemma AdvanceLeavesTables(db: Db, input: AdvanceInput, authorized: bool)
    ensures var after := AdvanceStage(db, input, authorized).0;
            after == db.(jobs := after.jobs, projections := after.projections, traces := after.traces)
  {
  }

  lemma OtherStepsLeaveChains(s: State, step: Step)
    requires Allowed(s, step) && !step.Commit?
    ensures SameChains(s.db, NextDb(s, step))
  {
    match step
    case Freeze(input) => FreezeLeavesChains(s.db, input, s.now);
    case FreezeLong(input) => FreezeLongLeavesChains(s.db, input, s.now);
    case Recover(command, _, _, rows) => RecoveryLeavesTables(s.db, command, rows);
    case Advance(input, authorized) => AdvanceLeavesTables(s.db, input, authorized);
    case _ =>
  }

  lemma StepKeepsChains(s: State, step: Step)
    requires ChainsOk(s.db) && Allowed(s, step)
    ensures ChainsOk(Next(s, step).db)
  {
    if step.Commit? {
      if CommitLayerRevisions(s.db, step.targets, s.now).Ok? {
        CommitTargetsKeepChains(s.db, step.targets, [], s.now);
      }
    } else {
      OtherStepsLeaveChains(s, step);
      SameChainsOk(s.db, Next(s, step).db);
    }
  }

  lemma {:induction false} RunKeepsChains(s: State, steps: seq<Step>)
    requires ChainsOk(s.db) && AllAllowed(s, steps)
    ensures ChainsOk(Run(s, steps).db)
    decreases |steps|
  {
    if steps != [] {
      StepKeepsChains(s, steps[0]);
      RunKeepsChains(Next(s, steps[0]), steps[1..]);
    }
  }

  /** One numbered chain: rows of an owner carry 1..n once each, linked in order, only the last current. */
  ghost predicate OneChain(links: seq<Link>, owner: nat) {
    var n := Rows(links, owner, |links|);
    && (forall k: nat {:trigger Holder(links, owner, k)} :: 1 <= k <= n ==> Holder(links, owner, k))
    && (forall i, j :: 0 <= i < j < |links| && links[i].owner == owner && links[j].owner == owner ==>
          links[i].number < links[j].number)
    && (forall i :: 0 <= i < |links| && links[i].owner == owner ==> LinkedRow(links, owner, i, n))
  }

  ghost predicate Holder(links: seq<Link>, owner: nat, k: nat) {
    exists i :: 0 <= i < |links| && HasNumber(links, owner, i, k)
  }

  ghost predicate LinkedRow(links: seq<Link>, owner: nat, i: nat, n: nat)
    requires i < |links|
  {
    && 1 <= links[i].number <= n
    && (links[i].current <==> links[i].number == n)
    && if links[i].number == 1 then links[i].predecessor.None?
       else && links[i].predecessor.Some? && links[i].predecessor.value < i
            && HasNumber(links, owner, links[i].predecessor.value, links[i].number - 1)
  }

  lemma ChainedMeansOneChain(links: seq<Link>, owner: nat)
    requires Chained(links)
    ensures OneChain(links, owner)
  {
    forall k: nat | 1 <= k <= Rows(links, owner, |links|) ensures Holder(links, owner, k) {
      NumbersAreComplete(links, owner, k);
    }
    forall i, j | 0 <= i < j < |links| && links[i].owner == owner && links[j].owner == owner
      ensures links[i].number < links[j].number
    {
      NumbersGrow(links, i, j);
    }
    forall i | 0 <= i < |links| && links[i].owner == owner
      ensures LinkedRow(links, owner, i, Rows(links, owner, |links|))
    {
      RowShape(links, i);
    }
  }

  /**
   A store as the migration leaves it: slots with the resolutions found for them, in chains, and no row of the
   protocol. The empty store is one.
   */
  ghost predicate Migrated(db: Db) {
    && db == EMPTY_DB.(authorities := db.authorities, resolutions := db.resolutions, claims := db.claims)
    && ChainsOk(db)
  }

  lemma EmptyStoreIsMigrated()
    ensures Migrated(EMPTY_DB)
  {
  }

  /** From an empty or migrated store every run keeps every authority's and every identity's chain. */
  lemma RunsFormChains(s: State, steps: seq<Step>, authorityId: Id, identityId: Id)
    requires Migrated(s.db) && AllAllowed(s, steps)
    ensures var db := Run(s, steps).db;
            && OneChain(ResolutionLinks(db.resolutions), authorityId)
            && OneChain(RevisionLinks(db.revisions), identityId)
            && SlotsUnique(db.authorities) && KeysUnique(db.identities)
  {
    RunKeepsChains(s, steps);
    var db := Run(s, steps).db;
    ChainedMeansOneChain(ResolutionLinks(db.resolutions), authorityId);
    ChainedMeansOneChain(RevisionLinks(db.revisions), identityId);
  }

  lemma GatePlanFollows(input: CommitInput, seen: CommitReads, resolutions: seq<Resolution>, previous: Option<Id>,
                        evidenceDigest: Digest)
    requires previous.Some? ==> previous.value < |resolutions|
    requires GateCheck(input, seen, resolutions, previous, evidenceDigest).Ok?
    ensures var gate := GateCheck(input, seen, resolutions, previous, evidenceDigest).value;
            && gate.newRevisionNo == Some(NumberOf(ResolutionLinks(resolutions), previous) + 1)
            && gate.predecessorRevisionId == previous
  {
    var shown := seen.gateEvidence.value;
    G.PassedCandidate(GateCandidate(input, resolutions, previous, shown.0, shown.1, evidenceDigest),
                      GateSnapshot(input, evidenceDigest));
  }

  /**
   The gate's plan and the written row agree: the planned revision number is the number written, one
   more than the number of resolutions the authority had, and the planned predecessor is the row that
   stops being current.
   */
  lemma GatePlanIsWritten(db: Db, input: CommitInput, seen: CommitReads, now: Instant, finalize: bool)
    requires ChainsOk(db) && CommitTarget(db, input, seen, now, finalize).Ok? && !JobSucceeded(db, input.aiJobId)
    ensures var plan := PlanTarget(db, input, seen).value;
            var (after, result) := CommitTarget(db, input, seen, now, finalize).value;
            var row := after.resolutions[|db.resolutions|];
            && |after.resolutions| == |db.resolutions| + 1 && result.resolutionId == |db.resolutions|
            && plan.gate.newRevisionNo == Some(row.link.number)
            && row.link.number == result.resolutionRevision
            && row.link.number == Rows(ResolutionLinks(db.resolutions), result.authorityId, |db.resolutions|) + 1
            && plan.gate.predecessorRevisionId == row.link.predecessor
            && (row.link.predecessor.Some? ==> !after.resolutions[row.link.predecessor.value].link.current)
  {
    PlannedNumbers(db, input, seen);
    TargetRow(db, input, PlanTarget(db, input, seen).value);
    CommittedRows(db, input, seen, now, finalize);
  }

  lemma PlannedNumbers(db: Db, input: CommitInput, seen: CommitReads)
    requires input.checkpointId in db.checkpoints && input.aiJobId in db.jobs
    requires input.aiJobId in db.projections && input.traceId in db.traces
    requires ChainsOk(db) && PlanTarget(db, input, seen).Ok?
    ensures var plan := PlanTarget(db, input, seen).value;
            var row := ResolutionRow(input, plan);
            && PlanFits(db, plan)
            && plan.gate.newRevisionNo == Some(row.link.number)
            && row.link.number == input.target.expectedCurrentRevision + 1
            && row.link.number == Rows(ResolutionLinks(db.resolutions), plan.authorityId, |db.resolutions|) + 1
            && plan.gate.predecessorRevisionId == row.link.predecessor == plan.previous
  {
    var plan := PlanTarget(db, input, seen).value;
    PlanParts(db, input, seen);
    AppendKeepsChains(ResolutionLinks(db.resolutions), plan.authorityId);
    GatePlanFollows(input, seen, db.resolutions, plan.previous, db.checkpoints[input.checkpointId].evidenceManifestHash);
  }

  lemma CommittedRows(db: Db, input: CommitInput, seen: CommitReads, now: Instant, finalize: bool)
    requires CommitTarget(db, input, seen, now, finalize).Ok? && !JobSucceeded(db, input.aiJobId)
    ensures PlanTarget(db, input, seen).Ok? && PlanFits(db, PlanTarget(db, input, seen).value)
    ensures var plan := PlanTarget(db, input, seen).value;
            var (after, result) := CommitTarget(db, input, seen, now, finalize).value;
            after.resolutions == WithTarget(db, input, plan).resolutions && result == ResultOf(db, input, plan)
  {
  }

  lemma TargetRow(db: Db, input: CommitInput, plan: TargetPlan)
    requires PlanFits(db, plan)
    ensures var rows := WithTarget(db, input, plan).resolutions;
            && |rows| == |db.resolutions| + 1
            && rows[|db.resolutions|] == ResolutionRow(input, plan)
            && (plan.previous.Some? ==> !rows[plan.previous.value].link.current)
  {
  }
}
