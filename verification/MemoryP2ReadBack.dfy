/**
 Writer and reader of committed layers agree: what a single-target commit stored is exactly what the
 reader returns.
 */
module MemoryP2ReadBack {
  import opened Options
  import opened MemoryP2Traces
  import opened RevisionChains
  import opened MemoryP2Store
  import opened MemoryP2Writes
  import opened MemoryP2Runs
  import opened MemoryP2Chains
  import opened MemoryP2Reader

  // ---------------------------------------------------------------- two sorts, one result

  ghost predicate DistinctIds(entries: seq<EvidenceEntry>) {
    forall i, j :: 0 <= i < j < |entries| ==> entries[i].evidenceId != entries[j].evidenceId
  }

  lemma {:induction false} InsertedMembers(e: EvidenceEntry, sorted: seq<EvidenceEntry>, x: EvidenceEntry)
    requires x in InsertById(e, sorted)
    ensures x == e || x in sorted
  {
    if sorted != [] && sorted[0].evidenceId < e.evidenceId && x != sorted[0] {
      InsertedMembers(e, sorted[1..], x);
    }
  }

  lemma {:induction false} SortedMembers(entries: seq<EvidenceEntry>, x: EvidenceEntry)
    requires x in SortById(entries)
    ensures x in entries
  {
    if entries != [] {
      InsertedMembers(entries[0], SortById(entries[1..]), x);
      if x != entries[0] {
        SortedMembers(entries[1..], x);
      }
    }
  }

  lemma {:induction false} InsertsAgree(e: EvidenceEntry, sorted: seq<EvidenceEntry>)
    requires forall x :: x in sorted ==> x.evidenceId != e.evidenceId
    ensures InsertForRead(e, sorted) == InsertById(e, sorted)
  {
    if sorted != [] {
      assert sorted[0] in sorted;
      InsertsAgree(e, sorted[1..]);
    }
  }

  /** Sorting by identifier and sorting by the whole entry give the same manifest when identifiers differ. */
  lemma {:induction false} SortsAgree(entries: seq<EvidenceEntry>)
    requires DistinctIds(entries)
    ensures SortForRead(entries) == SortById(entries)
  {
    if entries != [] {
      SortsAgree(entries[1..]);
      forall x | x in SortById(entries[1..]) ensures x.evidenceId != entries[0].evidenceId {
        SortedMembers(entries[1..], x);
        var k :| 0 <= k < |entries[1..]| && entries[1..][k] == x;
        assert entries[k + 1] == x;
      }
      InsertsAgree(entries[0], SortById(entries[1..]));
    }
  }

  // ---------------------------------------------------------------- evidence of one claim

  /** A job's input segments each have their own place. */
  ghost predicate OrdersUnique(inputs: map<Id, InputSegment>) {
    forall k, l :: k in inputs && l in inputs
      && inputs[k].aiJobId == inputs[l].aiJobId && inputs[k].inputOrder == inputs[l].inputOrder
      ==> k == l
  }

  /** The evidence row stored under `id` is the one this evidence input describes. */
  ghost predicate Resolved(inputs: map<Id, InputSegment>, input: CommitInput, rows: seq<EvidenceAuthority>,
                           e: EvidenceInput, id: Id)
  {
    && id < |rows|
    && e.inputSegmentId in inputs
    && FrozenFor(inputs[e.inputSegmentId], input, e)
    && rows[id] == EvidenceRow(input, e, inputs[e.inputSegmentId])
  }

  lemma {:induction false} EvidencesResolved(inputs: map<Id, InputSegment>, input: CommitInput,
                                             rows: seq<EvidenceAuthority>, ids: seq<Id>, all: seq<EvidenceInput>)
    requires |ids| <= |all| && ResolveEvidences(inputs, input, rows, ids, all[|ids|..]).Ok?
    requires forall i :: 0 <= i < |ids| ==> Resolved(inputs, input, rows, all[i], ids[i])
    ensures var (after, found) := ResolveEvidences(inputs, input, rows, ids, all[|ids|..]).value;
            && |found| == |all|
            && |rows| <= |after| && after[..|rows|] == rows
            && forall i :: 0 <= i < |all| ==> Resolved(inputs, input, after, all[i], found[i])
    decreases |all| - |ids|
  {
    if |ids| < |all| {
      var rest := all[|ids|..];
      var next := ResolveEvidence(inputs, input, rows, rest[0]).value;
      assert next.0[..|rows|] == rows;
      assert rest[1..] == all[|ids| + 1..];
      EvidencesResolved(inputs, input, next.0, ids + [next.1], all);
      var after := ResolveEvidences(inputs, input, next.0, ids + [next.1], rest[1..]).value.0;
      assert after[..|rows|] == after[..|next.0|][..|rows|] == rows;
    }
  }

  /** Two evidences of one claim never share a stored row. */
  lemma ResolvedApart(inputs: map<Id, InputSegment>, input: CommitInput, rows: seq<EvidenceAuthority>,
                      all: seq<EvidenceInput>, ids: seq<Id>, i: nat, j: nat)
    requires OrdersUnique(inputs) && EvidencesUnique(all) && |ids| == |all| && i < j < |all|
    requires Resolved(inputs, input, rows, all[i], ids[i]) && Resolved(inputs, input, rows, all[j], ids[j])
    ensures ids[i] != ids[j]
  {
  }

  lemma {:induction false} BridgeFound(bridges: seq<EvidenceBridge>, i: nat, n: nat)
    requires i < n <= |bridges|
    requires forall k :: i < k < n ==> bridges[k].evidenceId != bridges[i].evidenceId
    ensures FindBridge(bridges, bridges[i].evidenceId, n) == Some(bridges[i])
  {
    if i < n - 1 {
      BridgeFound(bridges, i, n - 1);
    }
  }

  lemma ClaimEvidenceReadsBack(inputs: map<Id, InputSegment>, input: CommitInput, rows: seq<EvidenceAuthority>,
                               claim: ClaimInput, ids: seq<Id>)
    requires OrdersUnique(inputs) && EvidencesUnique(claim.evidences) && claim.evidences != []
    requires |ids| == |claim.evidences|
    requires forall i :: 0 <= i < |ids| ==> Resolved(inputs, input, rows, claim.evidences[i], ids[i])
    ensures EvidenceReadable(inputs, rows, ClaimRow(input, claim, ids), EvidenceDigest(input, claim.evidences, ids))
  {
    var row := ClaimRow(input, claim, ids);
    forall i, j | 0 <= i < j < |ids| ensures ids[i] != ids[j] {
      ResolvedApart(inputs, input, rows, claim.evidences, ids, i, j);
    }
    forall i | 0 <= i < |row.links| ensures LinkReadable(inputs, rows, row, row.links[i]) {
      BridgeFound(row.bridges, i, |row.bridges|);
      assert Resolved(inputs, input, rows, claim.evidences[i], ids[i]);
    }
    var entries := LinkEntries(rows, row.links);
    forall i | 0 <= i < |ids| ensures entries[i] == EvidenceEntries(input, claim.evidences, ids)[i] {
      assert Resolved(inputs, input, rows, claim.evidences[i], ids[i]);
    }
    assert entries == EvidenceEntries(input, claim.evidences, ids);
    SortsAgree(entries);
  }

  /** Adding evidence rows does not disturb a claim that was readable. */
  lemma EvidenceStaysReadable(inputs: map<Id, InputSegment>, inputs': map<Id, InputSegment>,
                              rows: seq<EvidenceAuthority>, rows': seq<EvidenceAuthority>, claim: Claim, expected: Digest)
    requires EvidenceReadable(inputs, rows, claim, expected)
    requires |rows| <= |rows'| && rows'[..|rows|] == rows
    requires forall k :: k in inputs ==> k in inputs' && inputs'[k] == inputs[k]
    ensures EvidenceReadable(inputs', rows', claim, expected)
  {
    forall i | 0 <= i < |claim.links| ensures LinkReadable(inputs', rows', claim, claim.links[i]) {
      assert LinkReadable(inputs, rows, claim, claim.links[i]);
      assert rows'[..|rows|][claim.links[i].evidenceId] == rows[claim.links[i].evidenceId];
    }
    forall i | 0 <= i < |claim.links|
      ensures LinkEntries(rows', claim.links)[i] == LinkEntries(rows, claim.links)[i]
    {
      assert LinkReadable(inputs, rows, claim, claim.links[i]);
      assert rows'[..|rows|][claim.links[i].evidenceId] == rows[claim.links[i].evidenceId];
    }
    assert LinkEntries(rows', claim.links) == LinkEntries(rows, claim.links);
  }

  // ---------------------------------------------------------------- all claims of a target

  /** A manifest entry and the claim it names, as the writer left them. */
  ghost predicate ClaimStored(inputs: map<Id, InputSegment>, input: CommitInput, s: ClaimState, m: LayerMemberEntry) {
    && m.claimId < |s.claims|
    && m.claimRevision == 1
    && var c := s.claims[m.claimId];
    && c.projectId == input.projectId
    && c.claimRevision == 1
    && c.layer == input.target.layer
    && c.sessionId == input.sessionId
    && c.semanticKind == input.target.semanticKind
    && EvidenceReadable(inputs, s.evidences, c, m.evidenceMembershipDigest)
  }

  ghost predicate AllStored(inputs: map<Id, InputSegment>, input: CommitInput, s: ClaimState) {
    forall i :: 0 <= i < |s.members| ==>
      s.members[i].inputOrder == i && ClaimStored(inputs, input, s, s.members[i])
  }

  ghost predicate StateExtends(s: ClaimState, s': ClaimState) {
    && |s.claims| <= |s'.claims| && s'.claims[..|s.claims|] == s.claims
    && |s.evidences| <= |s'.evidences| && s'.evidences[..|s.evidences|] == s.evidences
  }

  lemma ClaimStaysStored(inputs: map<Id, InputSegment>, input: CommitInput, s: ClaimState, s': ClaimState, m: LayerMemberEntry)
    requires ClaimStored(inputs, input, s, m) && StateExtends(s, s')
    ensures ClaimStored(inputs, input, s', m)
  {
    assert s'.claims[..|s.claims|][m.claimId] == s.claims[m.claimId];
    EvidenceStaysReadable(inputs, inputs, s.evidences, s'.evidences, s.claims[m.claimId], m.evidenceMembershipDigest);
  }

  lemma ClaimCreated(inputs: map<Id, InputSegment>, input: CommitInput, s: ClaimState, claim: ClaimInput)
    requires OrdersUnique(inputs) && AllStored(inputs, input, s) && CreateClaim(inputs, input, s, claim).Ok?
    ensures AllStored(inputs, input, CreateClaim(inputs, input, s, claim).value)
    ensures StateExtends(s, CreateClaim(inputs, input, s, claim).value)
    ensures |CreateClaim(inputs, input, s, claim).value.members| == |s.members| + 1
  {
    var s' := CreateClaim(inputs, input, s, claim).value;
    EvidencesResolved(inputs, input, s.evidences, [], claim.evidences);
    assert claim.evidences[0..] == claim.evidences;
    var resolved := ResolveEvidences(inputs, input, s.evidences, [], claim.evidences).value;
    ClaimEvidenceReadsBack(inputs, input, resolved.0, claim, resolved.1);
    assert s'.claims[..|s.claims|] == s.claims;
    forall i | 0 <= i < |s'.members| ensures s'.members[i].inputOrder == i && ClaimStored(inputs, input, s', s'.members[i]) {
      if i < |s.members| {
        ClaimStaysStored(inputs, input, s, s', s.members[i]);
      }
    }
  }

  lemma {:induction false} ClaimsCreated(inputs: map<Id, InputSegment>, input: CommitInput, s: ClaimState, rest: seq<ClaimInput>)
    requires OrdersUnique(inputs) && AllStored(inputs, input, s) && CreateClaims(inputs, input, s, rest).Ok?
    ensures AllStored(inputs, input, CreateClaims(inputs, input, s, rest).value)
    ensures StateExtends(s, CreateClaims(inputs, input, s, rest).value)
    ensures |CreateClaims(inputs, input, s, rest).value.members| == |s.members| + |rest|
    decreases |rest|
  {
    if rest == [] {
      assert s.claims[..|s.claims|] == s.claims && s.evidences[..|s.evidences|] == s.evidences;
    } else {
      ClaimCreated(inputs, input, s, rest[0]);
      var next := CreateClaim(inputs, input, s, rest[0]).value;
      ClaimsCreated(inputs, input, next, rest[1..]);
      var last := CreateClaims(inputs, input, next, rest[1..]).value;
      assert last.claims[..|s.claims|] == last.claims[..|next.claims|][..|s.claims|];
      assert last.evidences[..|s.evidences|] == last.evidences[..|next.evidences|][..|s.evidences|];
    }
  }

  // ---------------------------------------------------------------- what a run keeps for its running jobs

  function FrozenKinds(kind: JobType): seq<RetentionKind> {
    if kind.LongSessionEnd? then [JobTarget, TraceTarget] else [JobTarget, TraceTarget, CheckpointTarget]
  }

  /** A job under the protocol has its own trace; while it runs, the trace is as freezing left it. */
  ghost predicate JobTraced(db: Db, j: Id)
    requires j in db.projections
  {
    && j in db.jobs
    && db.projections[j].jobKind == db.jobs[j].jobType
    && j in db.traceByJob && db.traceByJob[j] in db.traces
    && var job, trace := db.jobs[j], db.traces[db.traceByJob[j]];
    && trace.aiJobId == j && trace.shape == MEMORY_TRACE
    && (Live(job.status) ==>
          && job.status.Running?
          && trace.status.Running? && trace.errorCode.None? && trace.commitDigest.None?
          && trace.expiresAt == job.expiresAt
          && SourcesOrdered(trace.sources) && SourcesInScope(trace.sources, db.projections[j].deletionScopeDigest)
          && TargetsAre(RetentionOf(db, j), FrozenKinds(job.jobType)))
    && (!Live(job.status) ==> !trace.status.Running?)
  }

  ghost predicate ReadBackInv(db: Db) {
    && ChainsOk(db)
    && OrdersUnique(db.inputs) && InputsOwned(db)
    && (forall j :: j in db.projections ==> JobTraced(db, j))
    && (forall t :: t in db.traces ==>
          db.traces[t].aiJobId in db.projections && TraceIs(db, db.traces[t].aiJobId, t))
  }

  ghost predicate InputsOwned(db: Db) {
    forall k :: k in db.inputs ==> db.inputs[k].aiJobId in db.jobs
  }

  ghost predicate TraceIs(db: Db, j: Id, t: Id) {
    j in db.traceByJob && db.traceByJob[j] == t
  }

  // ---------------------------------------------------------------- a single-target commit, part by part

  function Single(input: CommitInput, seen: CommitReads): seq<(CommitInput, CommitReads)> {
    [(input, seen)]
  }

  /** The rows as one target's commit leaves them. */
  ghost function AfterTarget(db: Db, input: CommitInput, plan: TargetPlan, now: Instant, finalize: bool): Db
    requires PlanFits(db, plan)
    requires input.checkpointId in db.checkpoints && input.aiJobId in db.jobs
    requires input.aiJobId in db.projections && input.traceId in db.traces
  {
    var targeted := WithTarget(db, input, plan);
    WithRetentionTarget(if finalize then Finished(targeted, input, plan, |db.revisions|, now) else targeted,
                        input.aiJobId, |db.revisions|)
  }

  ghost function Written(db: Db, input: CommitInput, plan: TargetPlan, now: Instant): Db
    requires PlanFits(db, plan)
    requires input.checkpointId in db.checkpoints && input.aiJobId in db.jobs
    requires input.aiJobId in db.projections && input.traceId in db.traces
  {
    AfterTarget(db, input, plan, now, true)
  }

  /** The facts a new commit was admitted under. */
  ghost predicate Committing(db: Db, input: CommitInput, plan: TargetPlan, now: Instant) {
    && db.migrationCompleted
    && CheckpointFrozenFor(db, input)
    && CommitAdmitted(db, input, now)
    && PlanNames(db, input, plan)
    && PlanFits(db, plan)
    && AllStored(db.inputs, input, plan.claims)
    && plan.claims.members != []
    && input.target.layer == LayerOfKind(db.jobs[input.aiJobId].jobType)
    && (if input.target.layer.LongLayer?
        then plan.long.Some? && LongProjectionFor(db, input, db.revisions, |db.revisions|) == Ok(plan.long.value)
        else plan.long.None?)
  }

  lemma SingleIsTarget(db: Db, input: CommitInput, seen: CommitReads, now: Instant)
    ensures CommitLayerRevisions(db, Single(input, seen), now)
            == match CommitTarget(db, input, seen, now, true)
               case Ok(pair) => Ok((pair.0, [pair.1]))
               case Err(error) => Err(error)
  {
    assert Single(input, seen)[1..] == [];
    if CommitTarget(db, input, seen, now, true).Ok? {
      var next := CommitTarget(db, input, seen, now, true).value;
      assert [] + [next.1] == [next.1];
      assert CommitTargets(next.0, [], [next.1], now) == Ok((next.0, [next.1]));
    }
  }

  lemma TargetParts(db: Db, input: CommitInput, seen: CommitReads, now: Instant, finalize: bool)
    requires CommitTarget(db, input, seen, now, finalize).Ok? && !JobSucceeded(db, input.aiJobId)
    ensures db.migrationCompleted && CheckpointFrozenFor(db, input) && CommitAdmitted(db, input, now)
    ensures PlanTarget(db, input, seen).Ok?
    ensures PlanFits(db, PlanTarget(db, input, seen).value)
    ensures var plan := PlanTarget(db, input, seen).value;
            CommitTarget(db, input, seen, now, finalize)
            == Ok((AfterTarget(db, input, plan, now, finalize), ResultOf(db, input, plan)))
  {
  }

  lemma SingleTargetShape(db: Db, input: CommitInput, seen: CommitReads, now: Instant)
    requires ReadBackInv(db) && CommitTarget(db, input, seen, now, true).Ok? && !JobSucceeded(db, input.aiJobId)
    ensures input.checkpointId in db.checkpoints && input.aiJobId in db.jobs
    ensures input.aiJobId in db.projections && input.traceId in db.traces
    ensures PlanTarget(db, input, seen).Ok?
    ensures Committing(db, input, PlanTarget(db, input, seen).value, now)
  {
    TargetParts(db, input, seen, now, true);
    PlanParts(db, input, seen);
    PlannedTargetNames(db, input, seen);
    ClaimsCreated(db.inputs, input, ClaimState(db.claims, db.evidences, []), input.claims);
  }

  lemma CurrentReadsBack(db: Db, input: CommitInput, plan: TargetPlan, now: Instant)
    requires ReadBackInv(db) && Committing(db, input, plan, now)
    ensures CurrentRevision(Written(db, input, plan, now).revisions, plan.identityId) == Some(|db.revisions|)
  {
    var after := WithTarget(db, input, plan);
    TargetKeepsChains(db, input, plan);
    FirstCurrentIsLastFrom(RevisionLinks(after.revisions), plan.identityId, 0);
  }

  lemma HeaderReadsBack(db: Db, input: CommitInput, plan: TargetPlan, now: Instant, later: Instant)
    requires ReadBackInv(db) && Committing(db, input, plan, now) && later < db.jobs[input.aiJobId].expiresAt
    ensures HeaderReadable(Written(db, input, plan, now), plan.identityId, |db.revisions|, later)
  {
    var after := Written(db, input, plan, now);
    var targets := RetentionOf(db, input.aiJobId);
    assert RetentionOf(after, input.aiJobId)
           == targets + [RetentionTarget(LayerRevisionTarget, |db.revisions|, |targets|)];
    assert RetentionOf(after, input.aiJobId)[|targets|] in RetentionOf(after, input.aiJobId);
    TargetRow(db, input, plan);
    assert after.revisions[|db.revisions|] == RevisionRow(input, plan, db.revisions, |db.resolutions|);
  }

  lemma MembersReadBack(db: Db, input: CommitInput, plan: TargetPlan, now: Instant)
    requires ReadBackInv(db) && Committing(db, input, plan, now)
    ensures var after := Written(db, input, plan, now);
            && after.revisions[|db.revisions|] == RevisionRow(input, plan, db.revisions, |db.resolutions|)
            && after.resolutions[|db.resolutions|] == ResolutionRow(input, plan)
            && |after.resolutions| == |db.resolutions| + 1
            && MembersReadable(after, |db.revisions|)
  {
    var after := Written(db, input, plan, now);
    var r, resolution := after.revisions[|db.revisions|], after.resolutions[|db.resolutions|];
    forall i | 0 <= i < |r.members|
      ensures MemberReadable(after.inputs, after.evidences, after.claims, r, resolution, r.members[i])
    {
      assert ClaimStored(db.inputs, input, plan.claims, plan.claims.members[i]);
    }
  }

  // ---------------------------------------------------------------- the trace and long sources

  predicate StrictlySorted(s: seq<Id>) {
    forall i, j :: 0 <= i < j < |s| ==> s[i] < s[j]
  }

  lemma {:induction false} InsertKeepsSorted(x: Id, s: seq<Id>)
    requires StrictlySorted(s)
    ensures StrictlySorted(InsertSession(x, s))
    ensures forall y :: y in InsertSession(x, s) <==> y == x || y in s
  {
    if s != [] && s[0] < x {
      InsertKeepsSorted(x, s[1..]);
      var rest := InsertSession(x, s[1..]);
      forall k | 0 <= k < |rest| ensures s[0] < rest[k] {
        assert rest[k] in rest;
      }
    }
  }

  lemma {:induction false} SessionsSorted(sources: seq<LongSourceEntry>)
    ensures StrictlySorted(SessionsOfSources(sources))
  {
    if sources != [] {
      SessionsSorted(sources[1..]);
      InsertKeepsSorted(sources[0].sourceSessionId, SessionsOfSources(sources[1..]));
    }
  }

  lemma {:induction false} SortingSortedIsIdentity(s: seq<Id>)
    requires StrictlySorted(s)
    ensures SortedSessions(s) == s
  {
    if s != [] {
      SortingSortedIsIdentity(s[1..]);
    }
  }

  lemma LongProjectionReads(before: Db, after: Db, input: CommitInput, p: LongProjection, revisionId: Id)
    requires LongProjectionFor(before, input, before.revisions, revisionId) == Ok(p)
    requires input.aiJobId in after.longs && after.longs[input.aiJobId] == p
    requires forall s :: s in input.longSources ==> MidRevisionBacks(after.revisions, input.projectId, s)
    ensures ReadableLongManifest(after, input.aiJobId, revisionId, input.projectId) == input.longSourceManifestHash
    ensures input.longSourceManifestHash.Some?
  {
    SessionsSorted(input.longSources);
    SortingSortedIsIdentity(SessionsOfSources(input.longSources));
  }

  /** Appending a revision and ending a predecessor's currency takes no Mid revision away from its sources. */
  lemma BackingStays(rows: seq<LayerRevision>, predecessor: Option<Id>, added: LayerRevision, projectId: Id,
                     sources: seq<LongSourceEntry>)
    requires predecessor.Some? ==> predecessor.value < |rows|
    requires forall s :: s in sources ==> MidRevisionBacks(rows, projectId, s)
    ensures forall s :: s in sources ==> MidRevisionBacks(SupersedeRevision(rows, predecessor) + [added], projectId, s)
  {
    forall s | s in sources ensures MidRevisionBacks(SupersedeRevision(rows, predecessor) + [added], projectId, s) {
      assert MidRevisionBacks(rows, projectId, s);
    }
  }

  lemma LongRowsWritten(db: Db, input: CommitInput, plan: TargetPlan, now: Instant)
    requires PlanFits(db, plan) && plan.long.Some? && input.checkpointId in db.checkpoints && input.aiJobId in db.jobs
    requires input.aiJobId in db.projections && input.traceId in db.traces
    ensures var after := Written(db, input, plan, now);
            && input.aiJobId in after.longs && after.longs[input.aiJobId] == plan.long.value
            && after.revisions == SupersedeRevision(db.revisions, plan.predecessor)
                                  + [RevisionRow(input, plan, db.revisions, |db.resolutions|)]
  {
  }

  lemma LongManifestReadsBack(db: Db, input: CommitInput, plan: TargetPlan, now: Instant)
    requires Committing(db, input, plan, now) && input.target.layer.LongLayer?
    ensures ReadableLongManifest(Written(db, input, plan, now), input.aiJobId, |db.revisions|, input.projectId)
            == input.longSourceManifestHash
    ensures input.longSourceManifestHash.Some?
  {
    var after := Written(db, input, plan, now);
    LongRowsWritten(db, input, plan, now);
    BackingStays(db.revisions, plan.predecessor, RevisionRow(input, plan, db.revisions, |db.resolutions|), input.projectId,
                 input.longSources);
    LongProjectionReads(db, after, input, plan.long.value, |db.revisions|);
  }

  lemma AddedSourcesOrdered(db: Db, jobId: Id, scope: Digest, offset: nat)
    ensures var added := CommittedSources(db, jobId, scope, offset);
            && (forall i :: 0 <= i < |added| ==> added[i].inputOrder == offset + i && added[i].deletionScopeDigest == scope)
            && (HasRevisions(db, jobId) ==> added != [])
  {
    NoRevisionsNoIds(db, jobId);
  }

  /** The rows of the committing job that its trace is checked against. */
  lemma JobRowsWritten(db: Db, input: CommitInput, plan: TargetPlan, now: Instant)
    requires Committing(db, input, plan, now)
    ensures var after, j, targeted := Written(db, input, plan, now), input.aiJobId, WithTarget(db, input, plan);
            && j in after.jobs && j in after.projections
            && after.jobs[j].expiresAt == db.jobs[j].expiresAt
            && after.projections[j].deletionScopeDigest == db.projections[j].deletionScopeDigest
            && after.projections[j].sourceRevisionDigest == db.projections[j].sourceRevisionDigest
            && after.traceByJob == db.traceByJob && input.traceId in after.traces
            && after.traces[input.traceId] ==
                 FinishedTrace(db.traces[input.traceId], input, db.projections[j],
                               CommittedSources(targeted, j, db.projections[j].deletionScopeDigest,
                                                |db.traces[input.traceId].sources|), now)
            && |after.revisions| == |db.revisions| + 1
            && after.revisions[|db.revisions|] == RevisionRow(input, plan, db.revisions, |db.resolutions|)
            && HasRevisions(targeted, j)
  {
    var targeted := WithTarget(db, input, plan);
    assert targeted.revisions[|db.revisions|] in targeted.revisions;
  }

  lemma RetentionReadsBack(db: Db, input: CommitInput, plan: TargetPlan, now: Instant)
    requires Committing(db, input, plan, now) && JobTraced(db, input.aiJobId)
    ensures TargetsAre(RetentionOf(Written(db, input, plan, now), input.aiJobId), ExpectedKinds(input.target.layer))
  {
    var after, j := Written(db, input, plan, now), input.aiJobId;
    var targets := RetentionOf(db, j);
    assert RetentionOf(after, j) == targets + [RetentionTarget(LayerRevisionTarget, |db.revisions|, |targets|)];
  }

  lemma TraceReadsBack(db: Db, input: CommitInput, plan: TargetPlan, now: Instant)
    requires ReadBackInv(db) && Committing(db, input, plan, now)
    ensures var after := Written(db, input, plan, now);
            after.revisions[|db.revisions|].sourceJobId == input.aiJobId && TraceReadable(after, |db.revisions|)
  {
    assert TraceIs(db, input.aiJobId, input.traceId) && JobTraced(db, input.aiJobId);
    TracedJobReadsBack(db, input, plan, now);
  }

  lemma TracedJobReadsBack(db: Db, input: CommitInput, plan: TargetPlan, now: Instant)
    requires Committing(db, input, plan, now)
    requires TraceIs(db, input.aiJobId, input.traceId) && JobTraced(db, input.aiJobId)
    ensures var after := Written(db, input, plan, now);
            after.revisions[|db.revisions|].sourceJobId == input.aiJobId && TraceReadable(after, |db.revisions|)
  {
    var after, j := Written(db, input, plan, now), input.aiJobId;
    var p, frozen := db.projections[j], db.traces[input.traceId];
    var targeted := WithTarget(db, input, plan);
    JobRowsWritten(db, input, plan, now);
    AddedSourcesOrdered(targeted, j, p.deletionScopeDigest, |frozen.sources|);
    SourcesAppended(frozen.sources, CommittedSources(targeted, j, p.deletionScopeDigest, |frozen.sources|),
                    p.deletionScopeDigest);
    if input.target.layer.LongLayer? {
      LongManifestReadsBack(db, input, plan, now);
    }
    RetentionReadsBack(db, input, plan, now);
  }

  lemma SourcesAppended(before: seq<Reference>, added: seq<Reference>, scope: Digest)
    requires SourcesOrdered(before) && SourcesInScope(before, scope) && added != []
    requires forall i :: 0 <= i < |added| ==> added[i].inputOrder == |before| + i && added[i].deletionScopeDigest == scope
    ensures SourcesOrdered(before + added) && SourcesReadable(before + added, scope) && before + added != []
  {
    forall s | s in before + added ensures SourceReadable(s, scope) {
      ColumnsWritten(s);
    }
  }

  predicate SourcesReadable(sources: seq<Reference>, scope: Digest) {
    forall s :: s in sources ==> SourceReadable(s, scope)
  }

  lemma ColumnsWritten(s: Reference)
    ensures ColumnsValid(s.kind, ColumnsOf(s))
  {
  }

  /** The layer a caller should see for a commit result. */
  function Expected(input: CommitInput, result: CommitResult, revisionNo: nat): ReadableLayer {
    ReadableLayer(result.authorityId, result.claimIds, result.identityId, input.target.layer, result.targetRevisionDigest,
                  result.resolutionId, result.resolutionRevision, result.revisionId, revisionNo, input.target.semanticStatus)
  }

  /**
   After a single-target commit the reader returns exactly what was committed until the job expires.
   */
  lemma CommittedLayerReadsBack(db: Db, input: CommitInput, seen: CommitReads, now: Instant, later: Instant)
    requires ReadBackInv(db) && CommitLayerRevisions(db, Single(input, seen), now).Ok? && !JobSucceeded(db, input.aiJobId)
    requires input.aiJobId in db.jobs && later < db.jobs[input.aiJobId].expiresAt
    ensures input.aiJobId in db.projections && input.traceId in db.traces
    ensures var (after, results) := CommitLayerRevisions(db, Single(input, seen), now).value;
            && |results| == 1 && results[0].revisionId < |after.revisions|
            && ReadCurrentLayer(after, results[0].identityId, later)
               == Some(Expected(input, results[0], after.revisions[results[0].revisionId].link.number))
  {
    SingleIsTarget(db, input, seen, now);
    TargetParts(db, input, seen, now, true);
    SingleTargetShape(db, input, seen, now);
    WrittenLayerReadsBack(db, input, PlanTarget(db, input, seen).value, now, later);
  }

  lemma WrittenLayerReadsBack(db: Db, input: CommitInput, plan: TargetPlan, now: Instant, later: Instant)
    requires ReadBackInv(db) && Committing(db, input, plan, now) && later < db.jobs[input.aiJobId].expiresAt
    ensures var after, result := Written(db, input, plan, now), ResultOf(db, input, plan);
            && |after.revisions| == |db.revisions| + 1
            && ReadCurrentLayer(after, result.identityId, later)
               == Some(Expected(input, result, after.revisions[result.revisionId].link.number))
  {
    CurrentReadsBack(db, input, plan, now);
    HeaderReadsBack(db, input, plan, now, later);
    MembersReadBack(db, input, plan, now);
    TraceReadsBack(db, input, plan, now);
    WrittenLayerIs(db, input, plan, now);
  }

  lemma WrittenLayerIs(db: Db, input: CommitInput, plan: TargetPlan, now: Instant)
    requires Committing(db, input, plan, now)
    ensures var after, result := Written(db, input, plan, now), ResultOf(db, input, plan);
            && |after.revisions| == |db.revisions| + 1
            && LayerOf(after, plan.identityId, |db.revisions|)
               == Expected(input, result, after.revisions[|db.revisions|].link.number)
  {
    JobRowsWritten(db, input, plan, now);
  }
}
