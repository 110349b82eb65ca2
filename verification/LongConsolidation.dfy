/**
 Validation of a Long consolidation: the Mid revisions of a project, in manifest order, are grouped into Long
 revisions. The validator reports every rule that is broken; what a valid pair guarantees is proved from the rules.
 */
module LongConsolidation {
  import opened Options

  type Id = nat

  datatype SemanticStatus = Active | Disputed | OtherStatus
  datatype Boundary = NoBoundary | ActiveBoundary | ClearedBoundary

  /** The fields of a Mid revision that its manifest digest covers. */
  datatype MidFields = MidFields(
    revisionId: Id, identityId: Id, resolutionId: Id, resolutionRevision: int, status: SemanticStatus,
    boundary: Boundary, membershipDigest: nat, inputOrder: int, jobId: Id, sessionId: Id)
  datatype Mid = Mid(fields: MidFields, projectId: Id, claimCount: int)
  datatype Member = Member(claimId: Id, role: nat, inputOrder: int, evidenceDigest: nat)

  datatype Digest = MidDigest(rows: seq<MidFields>) | MemberDigest(members: seq<Member>) | OtherDigest(value: nat)

  datatype Manifest = Manifest(hash: Digest, expectedCount: int, canonical: bool, revisions: seq<Mid>)
  datatype Context = Context(
    projectId: Id, checkpointId: Id, checkpointSucceeded: bool, sessionIds: seq<Id>, scopeActive: bool,
    retentionActive: bool, manifest: Manifest)

  datatype Revision = Revision(
    targetLong: bool, identityId: Id, sourceMidIds: seq<Id>, resolutionId: Id, resolutionRevision: int,
    status: SemanticStatus, members: seq<Member>, expectedCount: int, hash: Digest, canonical: bool)
  datatype Output = Output(
    checkpointId: Id, midHash: Digest, succeeded: bool, scopeProjectId: Option<Id>, revisions: seq<Revision>)

  datatype LongError =
    | FinalTerminalRequired | CheckpointMismatch | MidHashMismatch | ScopeNotActive | RetentionNotActive
    | OutputTerminalNotSucceeded | SessionSetRequired | ProjectMismatch
    | MidManifestParity | MidSourceDuplicate | MidHashInvalid
    | MidScopeMismatch | MidSessionNotInScope | BoundaryMustNotPromote | DisputedClaimsRequired | SessionSetMismatch
    | TargetLayerInvalid | IdentityDuplicate | SourceUnknown | IdentityMismatch | ResolutionIdMismatch
    | ResolutionRevisionMismatch | StatusMismatch | ClaimDuplicate | MemberParity | MemberHashMismatch
    | SourceSetMismatch

  // ---------------------------------------------------------------- the rules

  /** Orders count 0, 1, 2, ... and there is at least one. */
  predicate IsContiguous(orders: seq<int>) {
    |orders| > 0 && forall i :: 0 <= i < |orders| ==> orders[i] == i
  }

  function MidOrders(mids: seq<Mid>): (r: seq<int>)
    ensures |r| == |mids| && forall i :: 0 <= i < |mids| ==> r[i] == mids[i].fields.inputOrder
  {
    seq(|mids|, i requires 0 <= i < |mids| => mids[i].fields.inputOrder)
  }

  function MidRows(mids: seq<Mid>): (r: seq<MidFields>)
    ensures |r| == |mids| && forall i :: 0 <= i < |mids| ==> r[i] == mids[i].fields
  {
    seq(|mids|, i requires 0 <= i < |mids| => mids[i].fields)
  }

  function MidIds(mids: seq<Mid>): (r: seq<Id>)
    ensures |r| == |mids| && forall i :: 0 <= i < |mids| ==> r[i] == mids[i].fields.revisionId
  {
    seq(|mids|, i requires 0 <= i < |mids| => mids[i].fields.revisionId)
  }

  function MemberOrders(members: seq<Member>): seq<int> {
    seq(|members|, i requires 0 <= i < |members| => members[i].inputOrder)
  }

  /** Rows by identifier; of two rows with one identifier the later one is kept. */
  function ById(mids: seq<Mid>): map<Id, Mid> {
    if mids == [] then map[]
    else ById(mids[..|mids| - 1])[mids[|mids| - 1].fields.revisionId := mids[|mids| - 1]]
  }

  /** The stable sort by input order that the source list is compared with. */
  function Insert(mid: Mid, sorted: seq<Mid>): seq<Mid> {
    if sorted == [] || mid.fields.inputOrder <= sorted[0].fields.inputOrder then [mid] + sorted
    else [sorted[0]] + Insert(mid, sorted[1..])
  }

  function SortByOrder(mids: seq<Mid>): seq<Mid> {
    if mids == [] then [] else Insert(mids[0], SortByOrder(mids[1..]))
  }

  predicate Ordered(mids: seq<Mid>) {
    forall i :: 0 < i < |mids| ==> mids[i - 1].fields.inputOrder <= mids[i].fields.inputOrder
  }

  lemma {:induction false} InsertKeepsOrder(mid: Mid, sorted: seq<Mid>)
    requires Ordered(sorted)
    ensures Ordered(Insert(mid, sorted))
    ensures Insert(mid, sorted) != []
    ensures Insert(mid, sorted)[0] == mid || (sorted != [] && Insert(mid, sorted)[0] == sorted[0])
  {
    if sorted != [] && mid.fields.inputOrder > sorted[0].fields.inputOrder {
      assert forall i :: 0 < i < |sorted[1..]| ==> sorted[1..][i - 1] == sorted[i] && sorted[1..][i] == sorted[i + 1];
      InsertKeepsOrder(mid, sorted[1..]);
    }
  }

  lemma {:induction false} InsertAdds(mid: Mid, sorted: seq<Mid>)
    ensures multiset(Insert(mid, sorted)) == multiset{mid} + multiset(sorted)
  {
    if sorted != [] && mid.fields.inputOrder > sorted[0].fields.inputOrder {
      InsertAdds(mid, sorted[1..]);
      assert sorted == [sorted[0]] + sorted[1..];
    }
  }

  lemma {:induction false} SortOrders(mids: seq<Mid>)
    ensures Ordered(SortByOrder(mids)) && multiset(SortByOrder(mids)) == multiset(mids)
  {
    if mids != [] {
      SortOrders(mids[1..]);
      InsertKeepsOrder(mids[0], SortByOrder(mids[1..]));
      InsertAdds(mids[0], SortByOrder(mids[1..]));
      assert mids == [mids[0]] + mids[1..];
    }
  }

  function SourcesOf(revisions: seq<Revision>): seq<Id> {
    if revisions == [] then [] else SourcesOf(revisions[..|revisions| - 1]) + revisions[|revisions| - 1].sourceMidIds
  }

  ghost predicate Distinct<T(!new)>(s: seq<T>) {
    forall i, j :: 0 <= i < j < |s| ==> s[i] != s[j]
  }

  predicate MidViolates(e: LongError, ctx: Context, mid: Mid) {
    match e
    case MidScopeMismatch => mid.projectId != ctx.projectId
    case MidSessionNotInScope => mid.fields.sessionId !in ctx.sessionIds
    case BoundaryMustNotPromote => mid.fields.boundary.ActiveBoundary?
    case DisputedClaimsRequired => mid.fields.status.Disputed? && mid.claimCount < 2
    case _ => false
  }

  predicate SourceViolates(e: LongError, mids: map<Id, Mid>, revision: Revision, id: Id) {
    match e
    case SourceUnknown => id !in mids
    case IdentityMismatch => id in mids && revision.identityId != mids[id].fields.identityId
    case ResolutionIdMismatch => id in mids && revision.resolutionId != mids[id].fields.resolutionId
    case ResolutionRevisionMismatch => id in mids && revision.resolutionRevision != mids[id].fields.resolutionRevision
    case StatusMismatch => id in mids && revision.status != mids[id].fields.status
    case _ => false
  }

  ghost predicate RevisionViolates(e: LongError, mids: map<Id, Mid>, revision: Revision) {
    match e
    case TargetLayerInvalid => !revision.targetLong
    case ClaimDuplicate =>
      exists i, j :: 0 <= i < j < |revision.members| && revision.members[i].claimId == revision.members[j].claimId
    case MemberParity =>
      revision.expectedCount != |revision.members| || !IsContiguous(MemberOrders(revision.members))
    case MemberHashMismatch => revision.canonical && revision.hash != MemberDigest(revision.members)
    case _ => exists k :: 0 <= k < |revision.sourceMidIds| && SourceViolates(e, mids, revision, revision.sourceMidIds[k])
  }

  ghost predicate SharedIdentity(revisions: seq<Revision>, n: nat)
    requires n <= |revisions|
  {
    exists i, j :: 0 <= i < j < n && revisions[i].identityId == revisions[j].identityId
  }

  ghost predicate SomeRevisionViolates(e: LongError, mids: map<Id, Mid>, revisions: seq<Revision>, n: nat)
    requires n <= |revisions|
  {
    || (exists i :: 0 <= i < n && RevisionViolates(e, mids, revisions[i]))
    || (e.IdentityDuplicate? && SharedIdentity(revisions, n))
  }

  ghost predicate SomeMidViolates(e: LongError, ctx: Context) {
    var mids := ctx.manifest.revisions;
    || (exists i :: 0 <= i < |mids| && MidViolates(e, ctx, mids[i]))
    || (e.SessionSetMismatch?
        && exists s :: s in ctx.sessionIds && forall i :: 0 <= i < |mids| ==> mids[i].fields.sessionId != s)
  }

  /** The rules about the two headers. */
  predicate HeaderViolates(e: LongError, ctx: Context, out: Output) {
    match e
    case FinalTerminalRequired => !ctx.checkpointSucceeded
    case CheckpointMismatch => out.checkpointId != ctx.checkpointId
    case MidHashMismatch => out.midHash != ctx.manifest.hash
    case ScopeNotActive => !ctx.scopeActive
    case RetentionNotActive => !ctx.retentionActive
    case OutputTerminalNotSucceeded => !out.succeeded && out.revisions != []
    case SessionSetRequired => ctx.sessionIds == []
    case ProjectMismatch => out.scopeProjectId.Some? && out.scopeProjectId.value != ctx.projectId
    case _ => false
  }

  /** The rules about the Mid manifest as a list, and the list of all sources against it. */
  ghost predicate ManifestViolates(e: LongError, manifest: Manifest, referenced: seq<Id>) {
    match e
    case MidManifestParity =>
      manifest.expectedCount != |manifest.revisions| || !IsContiguous(MidOrders(manifest.revisions))
    case MidSourceDuplicate => !Distinct(MidIds(manifest.revisions))
    case MidHashInvalid => manifest.canonical && manifest.hash != MidDigest(MidRows(manifest.revisions))
    case SourceSetMismatch => referenced != MidIds(SortByOrder(manifest.revisions))
    case _ => false
  }

  ghost predicate Violated(e: LongError, ctx: Context, out: Output) {
    || HeaderViolates(e, ctx, out)
    || ManifestViolates(e, ctx.manifest, SourcesOf(out.revisions))
    || SomeMidViolates(e, ctx)
    || SomeRevisionViolates(e, ById(ctx.manifest.revisions), out.revisions, |out.revisions|)
  }

  ghost predicate Valid(ctx: Context, out: Output) {
    forall e :: !Violated(e, ctx, out)
  }

  // ---------------------------------------------------------------- the validator

  method CheckSources(mids: map<Id, Mid>, revision: Revision) returns (errors: set<LongError>)
    ensures forall e :: e in errors <==>
              exists k :: 0 <= k < |revision.sourceMidIds| && SourceViolates(e, mids, revision, revision.sourceMidIds[k])
  {
    errors := {};
    for index := 0 to |revision.sourceMidIds|
      invariant forall e :: e in errors <==>
                  exists k :: 0 <= k < index && SourceViolates(e, mids, revision, revision.sourceMidIds[k])
    {
      var id := revision.sourceMidIds[index];
      ghost var before := errors;
      if id !in mids {
        errors := errors + {SourceUnknown};
      } else {
        var mid := mids[id].fields;
        if revision.identityId != mid.identityId { errors := errors + {IdentityMismatch}; }
        if revision.resolutionId != mid.resolutionId { errors := errors + {ResolutionIdMismatch}; }
        if revision.resolutionRevision != mid.resolutionRevision { errors := errors + {ResolutionRevisionMismatch}; }
        if revision.status != mid.status { errors := errors + {StatusMismatch}; }
      }
      assert forall e :: e in errors <==> e in before || SourceViolates(e, mids, revision, id);
    }
  }

  method HasDuplicateClaim(members: seq<Member>) returns (found: bool)
    ensures found == exists i, j :: 0 <= i < j < |members| && members[i].claimId == members[j].claimId
  {
    var seen: set<Id> := {};
    found := false;
    for index := 0 to |members|
      invariant forall id :: id in seen <==> exists i :: 0 <= i < index && members[i].claimId == id
      invariant found == exists i, j :: 0 <= i < j < index && members[i].claimId == members[j].claimId
    {
      if members[index].claimId in seen { found := true; }
      seen := seen + {members[index].claimId};
    }
  }

  method CheckRevision(mids: map<Id, Mid>, revision: Revision) returns (errors: set<LongError>)
    ensures forall e :: e in errors <==> RevisionViolates(e, mids, revision)
  {
    errors := CheckSources(mids, revision);
    var duplicate := HasDuplicateClaim(revision.members);
    if !revision.targetLong { errors := errors + {TargetLayerInvalid}; }
    if duplicate { errors := errors + {ClaimDuplicate}; }
    if revision.expectedCount != |revision.members| || !IsContiguous(MemberOrders(revision.members)) {
      errors := errors + {MemberParity};
    }
    if revision.canonical && revision.hash != MemberDigest(revision.members) {
      errors := errors + {MemberHashMismatch};
    }
  }

  method CheckMids(ctx: Context) returns (errors: set<LongError>)
    ensures forall e :: e in errors <==> SomeMidViolates(e, ctx)
  {
    var mids := ctx.manifest.revisions;
    var actual: set<Id> := {};
    errors := {};
    for index := 0 to |mids|
      invariant forall e :: e in errors <==> exists i :: 0 <= i < index && MidViolates(e, ctx, mids[i])
      invariant forall s :: s in actual <==>
                  s in ctx.sessionIds && exists i :: 0 <= i < index && mids[i].fields.sessionId == s
    {
      var mid := mids[index];
      ghost var before := errors;
      if mid.projectId != ctx.projectId { errors := errors + {MidScopeMismatch}; }
      if mid.fields.sessionId !in ctx.sessionIds {
        errors := errors + {MidSessionNotInScope};
      } else {
        actual := actual + {mid.fields.sessionId};
      }
      if mid.fields.boundary.ActiveBoundary? { errors := errors + {BoundaryMustNotPromote}; }
      if mid.fields.status.Disputed? && mid.claimCount < 2 { errors := errors + {DisputedClaimsRequired}; }
      assert forall e :: e in errors <==> e in before || MidViolates(e, ctx, mid);
    }
    if exists s :: s in ctx.sessionIds && s !in actual { errors := errors + {SessionSetMismatch}; }
  }

  method CheckRevisions(mids: map<Id, Mid>, revisions: seq<Revision>)
    returns (errors: set<LongError>, referenced: seq<Id>)
    ensures referenced == SourcesOf(revisions)
    ensures forall e :: e in errors <==> SomeRevisionViolates(e, mids, revisions, |revisions|)
  {
    var identities: set<Id> := {};
    errors, referenced := {}, [];
    for index := 0 to |revisions|
      invariant forall id :: id in identities <==> exists i :: 0 <= i < index && revisions[i].identityId == id
      invariant referenced == SourcesOf(revisions[..index])
      invariant forall e :: e in errors <==> SomeRevisionViolates(e, mids, revisions, index)
    {
      var revision := revisions[index];
      var found := CheckRevision(mids, revision);
      var repeated := revision.identityId in identities;
      OneMoreRevision(mids, revisions, index);
      errors := errors + found + if repeated then {IdentityDuplicate} else {};
      identities := identities + {revision.identityId};
      SourcesOfNext(revisions, index);
      referenced := referenced + revision.sourceMidIds;
    }
    assert revisions[..|revisions|] == revisions;
  }

  lemma {:induction false} SourcesOfNext(revisions: seq<Revision>, n: nat)
    requires n < |revisions|
    ensures SourcesOf(revisions[..n + 1]) == SourcesOf(revisions[..n]) + revisions[n].sourceMidIds
  {
    assert revisions[..n + 1][..n] == revisions[..n];
  }

  lemma {:induction false} OneMoreRevision(mids: map<Id, Mid>, revisions: seq<Revision>, n: nat)
    requires n < |revisions|
    ensures forall e :: SomeRevisionViolates(e, mids, revisions, n + 1) <==>
              || SomeRevisionViolates(e, mids, revisions, n) || RevisionViolates(e, mids, revisions[n])
              || (e.IdentityDuplicate? && exists i :: 0 <= i < n && revisions[i].identityId == revisions[n].identityId)
  {
    assert SharedIdentity(revisions, n + 1) <==>
             SharedIdentity(revisions, n) || exists i :: 0 <= i < n && revisions[i].identityId == revisions[n].identityId;
  }

  method CheckHeader(ctx: Context, out: Output) returns (errors: set<LongError>)
    ensures forall e :: e in errors <==> HeaderViolates(e, ctx, out)
  {
    errors := {};
    if !ctx.checkpointSucceeded { errors := errors + {FinalTerminalRequired}; }
    if out.checkpointId != ctx.checkpointId { errors := errors + {CheckpointMismatch}; }
    if out.midHash != ctx.manifest.hash { errors := errors + {MidHashMismatch}; }
    if !ctx.scopeActive { errors := errors + {ScopeNotActive}; }
    if !ctx.retentionActive { errors := errors + {RetentionNotActive}; }
    if !out.succeeded && out.revisions != [] { errors := errors + {OutputTerminalNotSucceeded}; }
    if ctx.sessionIds == [] { errors := errors + {SessionSetRequired}; }
    if out.scopeProjectId.Some? && out.scopeProjectId.value != ctx.projectId { errors := errors + {ProjectMismatch}; }
  }

  method HasRepeatedId(ids: seq<Id>) returns (repeated: bool)
    ensures repeated == !Distinct(ids)
  {
    IdsAreDistinct(ids);
    repeated := |IdSet(ids)| != |ids|;
  }

  method ParityBroken(manifest: Manifest) returns (broken: bool)
    ensures broken == ManifestViolates(MidManifestParity, manifest, [])
  {
    broken := manifest.expectedCount != |manifest.revisions| || !IsContiguous(MidOrders(manifest.revisions));
  }

  method CheckManifest(manifest: Manifest, referenced: seq<Id>) returns (errors: set<LongError>)
    ensures forall e :: e in errors <==> ManifestViolates(e, manifest, referenced)
  {
    var parity := ParityBroken(manifest);
    var repeated := HasRepeatedId(MidIds(manifest.revisions));
    errors := (if parity then {MidManifestParity} else {}) + (if repeated then {MidSourceDuplicate} else {});
    if manifest.canonical && manifest.hash != MidDigest(MidRows(manifest.revisions)) {
      errors := errors + {MidHashInvalid};
    }
    if referenced != MidIds(SortByOrder(manifest.revisions)) { errors := errors + {SourceSetMismatch}; }
  }

  /** Every broken rule is reported, and nothing else. */
  method Validate(ctx: Context, out: Output) returns (errors: set<LongError>)
    ensures forall e :: e in errors <==> Violated(e, ctx, out)
    ensures errors == {} <==> Valid(ctx, out)
  {
    var fromMids := CheckMids(ctx);
    var fromRevisions, referenced := CheckRevisions(ById(ctx.manifest.revisions), out.revisions);
    var fromHeader := CheckHeader(ctx, out);
    var fromManifest := CheckManifest(ctx.manifest, referenced);
    errors := fromHeader + fromManifest + fromMids + fromRevisions;
    assert forall e :: e in errors <==> Violated(e, ctx, out);
  }

  function IdSet(s: seq<Id>): set<Id> {
    set id | id in s
  }

  /** The set of a sequence is as large as the sequence exactly when nothing repeats. */
  lemma {:induction false} IdsAreDistinct(s: seq<Id>)
    ensures |IdSet(s)| <= |s|
    ensures |IdSet(s)| == |s| <==> Distinct(s)
  {
    if s != [] {
      var n := |s| - 1;
      IdsAreDistinct(s[..n]);
      LastIdRepeats(s);
      assert IdSet(s) == IdSet(s[..n]) + {s[n]};
      if s[n] in s[..n] {
        assert IdSet(s) == IdSet(s[..n]);
      }
    }
  }

  lemma LastIdRepeats(s: seq<Id>)
    requires s != []
    ensures Distinct(s) <==> Distinct(s[..|s| - 1]) && s[|s| - 1] !in s[..|s| - 1]
  {
    var front, last := s[..|s| - 1], s[|s| - 1];
    if last in front {
      var k :| 0 <= k < |front| && front[k] == last;
      assert s[k] == s[|s| - 1];
    } else {
      assert forall i :: 0 <= i < |front| ==> s[i] == front[i];
    }
  }

  // ---------------------------------------------------------------- what a valid pair guarantees

  lemma {:induction false} ContiguousIsSorted(mids: seq<Mid>, from: int)
    requires forall i :: 0 <= i < |mids| ==> mids[i].fields.inputOrder == from + i
    ensures SortByOrder(mids) == mids
  {
    if mids != [] {
      ContiguousIsSorted(mids[1..], from + 1);
      assert mids == [mids[0]] + mids[1..];
    }
  }

  /** Which output a position of the concatenated source list comes from. */
  lemma {:induction false} SourceOfPosition(revisions: seq<Revision>, p: nat) returns (i: nat, k: nat)
    requires p < |SourcesOf(revisions)|
    ensures i < |revisions| && k < |revisions[i].sourceMidIds|
    ensures SourcesOf(revisions)[p] == revisions[i].sourceMidIds[k]
    ensures p == |SourcesOf(revisions[..i])| + k
  {
    var n := |revisions| - 1;
    var front := SourcesOf(revisions[..n]);
    if p < |front| {
      i, k := SourceOfPosition(revisions[..n], p);
      assert revisions[..n][..i] == revisions[..i];
    } else {
      i, k := n, p - |front|;
    }
  }

  lemma {:induction false} SourcesGrow(revisions: seq<Revision>, i: nat, j: nat)
    requires i <= j <= |revisions|
    ensures |SourcesOf(revisions[..i])| <= |SourcesOf(revisions[..j])|
  {
    if i < j {
      SourcesGrow(revisions, i, j - 1);
      assert revisions[..j][..j - 1] == revisions[..j - 1];
    }
  }

  lemma ManifestHolds(e: LongError, ctx: Context, out: Output)
    requires Valid(ctx, out)
    ensures !ManifestViolates(e, ctx.manifest, SourcesOf(out.revisions)) && !HeaderViolates(e, ctx, out)
  {
    assert !Violated(e, ctx, out);
  }

  /** The outputs' source lists, one after the other, are the Mid manifest in its order, each revision exactly once. */
  lemma SourcesAreTheManifest(ctx: Context, out: Output)
    requires Valid(ctx, out)
    ensures SourcesOf(out.revisions) == MidIds(ctx.manifest.revisions) && Distinct(SourcesOf(out.revisions))
    ensures ctx.manifest.revisions != []
  {
    ManifestHolds(MidManifestParity, ctx, out);
    ManifestHolds(MidSourceDuplicate, ctx, out);
    ManifestHolds(SourceSetMismatch, ctx, out);
    ContiguousManifestIsSorted(ctx.manifest.revisions);
  }

  lemma ContiguousManifestIsSorted(mids: seq<Mid>)
    requires IsContiguous(MidOrders(mids))
    ensures SortByOrder(mids) == mids && mids != []
  {
    forall i | 0 <= i < |mids| ensures mids[i].fields.inputOrder == 0 + i {
      assert MidOrders(mids)[i] == i;
    }
    ContiguousIsSorted(mids, 0);
  }

  lemma {:induction false} LookupOfDistinct(mids: seq<Mid>, p: nat)
    requires p < |mids| && forall i :: p < i < |mids| ==> mids[i].fields.revisionId != mids[p].fields.revisionId
    ensures mids[p].fields.revisionId in ById(mids) && ById(mids)[mids[p].fields.revisionId] == mids[p]
  {
    if p < |mids| - 1 {
      LookupOfDistinct(mids[..|mids| - 1], p);
    }
  }

  lemma LaterRowsDiffer(ctx: Context, out: Output, p: nat)
    requires Valid(ctx, out) && p < |ctx.manifest.revisions|
    ensures var mids := ctx.manifest.revisions;
            forall i :: p < i < |mids| ==> mids[i].fields.revisionId != mids[p].fields.revisionId
  {
    var mids := ctx.manifest.revisions;
    ManifestHolds(MidSourceDuplicate, ctx, out);
    forall i | p < i < |mids| ensures mids[i].fields.revisionId != mids[p].fields.revisionId {
      assert MidIds(mids)[p] != MidIds(mids)[i];
    }
  }

  lemma MidOfSource(ctx: Context, out: Output, i: nat, k: nat, p: nat)
    requires Valid(ctx, out) && i < |out.revisions| && k < |out.revisions[i].sourceMidIds|
    requires p < |ctx.manifest.revisions| && out.revisions[i].sourceMidIds[k] == ctx.manifest.revisions[p].fields.revisionId
    ensures var mid, revision := ctx.manifest.revisions[p].fields, out.revisions[i];
            && mid.identityId == revision.identityId && mid.resolutionId == revision.resolutionId
            && mid.resolutionRevision == revision.resolutionRevision && mid.status == revision.status
  {
    LaterRowsDiffer(ctx, out, p);
    LookupOfDistinct(ctx.manifest.revisions, p);
    SourceAgrees(IdentityMismatch, ctx, out, i, k);
    SourceAgrees(ResolutionIdMismatch, ctx, out, i, k);
    SourceAgrees(ResolutionRevisionMismatch, ctx, out, i, k);
    SourceAgrees(StatusMismatch, ctx, out, i, k);
  }

  lemma SourceAgrees(e: LongError, ctx: Context, out: Output, i: nat, k: nat)
    requires Valid(ctx, out) && i < |out.revisions| && k < |out.revisions[i].sourceMidIds|
    requires e.IdentityMismatch? || e.ResolutionIdMismatch? || e.ResolutionRevisionMismatch? || e.StatusMismatch?
    ensures !SourceViolates(e, ById(ctx.manifest.revisions), out.revisions[i], out.revisions[i].sourceMidIds[k])
  {
    assert !Violated(e, ctx, out);
    assert !RevisionViolates(e, ById(ctx.manifest.revisions), out.revisions[i]);
  }

  /**
   No layer identity is split: Mid revisions of one identity go to one output, lie next to each other in the manifest,
   and agree on their resolution and semantic status.
   */
  lemma IdentityIsNotSplit(ctx: Context, out: Output, p: nat, q: nat)
    requires Valid(ctx, out) && p <= q < |ctx.manifest.revisions|
    requires ctx.manifest.revisions[p].fields.identityId == ctx.manifest.revisions[q].fields.identityId
    ensures exists i: nat :: i < |out.revisions|
                             && out.revisions[i].identityId == ctx.manifest.revisions[p].fields.identityId
                             && forall r :: p <= r <= q ==> ctx.manifest.revisions[r].fields.revisionId in out.revisions[i].sourceMidIds
    ensures forall r :: p <= r <= q ==>
              && ctx.manifest.revisions[r].fields.identityId == ctx.manifest.revisions[p].fields.identityId
              && ctx.manifest.revisions[r].fields.resolutionId == ctx.manifest.revisions[p].fields.resolutionId
              && ctx.manifest.revisions[r].fields.resolutionRevision == ctx.manifest.revisions[p].fields.resolutionRevision
              && ctx.manifest.revisions[r].fields.status == ctx.manifest.revisions[p].fields.status
  {
    var mids, revisions := ctx.manifest.revisions, out.revisions;
    SourcesAreTheManifest(ctx, out);
    var i, k := SourceOfPosition(revisions, p);
    var j, l := SourceOfPosition(revisions, q);
    MidOfSource(ctx, out, i, k, p);
    MidOfSource(ctx, out, j, l, q);
    assert !Violated(IdentityDuplicate, ctx, out);
    assert i == j;
    forall r: nat | p <= r <= q
      ensures mids[r].fields.revisionId in revisions[i].sourceMidIds
      ensures && mids[r].fields.identityId == mids[p].fields.identityId
              && mids[r].fields.resolutionId == mids[p].fields.resolutionId
              && mids[r].fields.resolutionRevision == mids[p].fields.resolutionRevision
              && mids[r].fields.status == mids[p].fields.status
    {
      var o, m := SourceOfPosition(revisions, r);
      SourceBetween(revisions, i, k, l, o, m, r);
      MidOfSource(ctx, out, i, m, r);
    }
  }

  /** A position between two positions of one output belongs to that output. */
  lemma SourceBetween(revisions: seq<Revision>, i: nat, k: nat, l: nat, o: nat, m: nat, r: nat)
    requires i < |revisions| && k < |revisions[i].sourceMidIds| && l < |revisions[i].sourceMidIds|
    requires o < |revisions| && m < |revisions[o].sourceMidIds| && r == |SourcesOf(revisions[..o])| + m
    requires |SourcesOf(revisions[..i])| + k <= r <= |SourcesOf(revisions[..i])| + l
    ensures o == i
  {
    assert revisions[..i + 1][..i] == revisions[..i];
    assert revisions[..o + 1][..o] == revisions[..o];
    if o < i {
      SourcesGrow(revisions, o + 1, i);
    } else if i < o {
      SourcesGrow(revisions, i + 1, o);
    }
  }

  /** Only a succeeded job can have a valid consolidation, since a valid manifest is never empty. */
  lemma ValidMeansSucceeded(ctx: Context, out: Output)
    requires Valid(ctx, out)
    ensures out.succeeded && out.revisions != [] && ctx.manifest.revisions != []
  {
    SourcesAreTheManifest(ctx, out);
    ManifestHolds(OutputTerminalNotSucceeded, ctx, out);
  }

  /** The scoped sessions are exactly the sessions of the Mid revisions used. */
  lemma SessionsAreThoseUsed(ctx: Context, out: Output, session: Id)
    requires Valid(ctx, out)
    ensures session in ctx.sessionIds <==> exists i :: 0 <= i < |ctx.manifest.revisions|
                                                       && ctx.manifest.revisions[i].fields.sessionId == session
  {
    assert !Violated(SessionSetMismatch, ctx, out) && !Violated(MidSessionNotInScope, ctx, out);
    forall i | 0 <= i < |ctx.manifest.revisions| ensures ctx.manifest.revisions[i].fields.sessionId in ctx.sessionIds {
      assert !MidViolates(MidSessionNotInScope, ctx, ctx.manifest.revisions[i]);
    }
  }
}
