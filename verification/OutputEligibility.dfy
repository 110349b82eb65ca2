/**
 Eligibility of AI-derived outputs: an output may be used while it, its job and everything it was
 derived from still stand, found by recursion over stored dependencies. Retention hides expired roots
 and invalidates what was derived from them.
 */
module OutputEligibility {
  import opened Options

  type Id = nat
  type Instant = int

  datatype RetentionState = Active | Hidden | Purging | CleanupFailed

  datatype OutputType = ClaimOutput | ResolutionOutput | OtherOutput

  datatype QuestionKind = DisplaySnapshotTarget | ActualQuestionTarget | EvidenceEventTarget | OtherTarget

  datatype QuestionDependency = QuestionDependency(kind: QuestionKind, targetId: Id, revision: int, digest: nat)

  datatype SegmentEntry = SegmentEntry(inputId: Id, transcriptId: Id, textRevision: int, speakerRoleRevision: int, digest: nat)
  datatype MemoryEntry = MemoryEntry(inputId: Id, resolutionId: Id, revision: int)

  /** Expected manifests are kept as the entries they hash. */
  datatype Output = Output(
    jobId: Id, outputType: OutputType, businessId: Id, current: bool, segmentDeps: seq<Id>, memoryDeps: seq<Id>,
    questionDeps: seq<QuestionDependency>, expectedSegments: seq<SegmentEntry>, expectedMemories: seq<MemoryEntry>,
    expectedQuestions: seq<QuestionDependency>)

  datatype Claim = Claim(jobId: Id, readable: bool)

  datatype Resolution = Resolution(
    projectId: Id, jobId: Option<Id>, rootId: Option<Id>, current: bool, revision: int, readable: bool, automatic: bool,
    outputId: Option<Id>, supersedes: Option<Id>, claimIds: seq<Id>, blocked: bool)

  datatype SessionScope = SessionScope(sessionId: Id, speakerRoleRevision: int)

  datatype Job = Job(
    succeeded: bool, retention: RetentionState, expiresAt: Instant, policyRevision: int, projectId: Id,
    scopes: seq<SessionScope>, cleanupRequest: Option<Id>)

  /** What an input segment froze, and what the transcript now says. */
  datatype Spoken = Spoken(textRevision: int, speakerRoleRevision: int, conversation: bool, role: nat, authority: nat, digest: nat)
  datatype SegmentInput = SegmentInput(transcriptId: Id, frozen: Spoken)
  datatype MemoryInput = MemoryInput(resolutionId: Id, revision: int)

  datatype ActualQuestion = ActualQuestion(digest: nat, analysisId: Id, sessionId: Id)
  datatype Analysis = Analysis(jobId: Id, projectId: Id, sessionId: Id, published: bool, usable: bool, outputId: Option<Id>)
  datatype Snapshot = Snapshot(digest: nat, revision: int, retention: RetentionState, expiresAt: Instant, cleanupRequest: Option<Id>)
  datatype EventOwner = OwnedByJob(jobId: Id) | OwnedBySnapshot(snapshotId: Id) | NoOwner
  datatype Event = Event(digest: nat, owner: EventOwner)
  datatype MemoryRoot = MemoryRoot(retention: RetentionState, expiresAt: Instant, cleanupRequest: Option<Id>)

  datatype Store = Store(
    outputs: map<Id, Output>, claims: map<Id, Claim>, resolutions: map<Id, Resolution>, jobs: map<Id, Job>,
    segmentInputs: map<Id, SegmentInput>, transcripts: map<Id, Spoken>, memoryInputs: map<Id, MemoryInput>,
    questions: map<Id, ActualQuestion>, analyses: map<Id, Analysis>, snapshots: map<Id, Snapshot>,
    events: map<Id, Event>, memoryRoots: map<Id, MemoryRoot>, speakerRoles: map<Id, int>)

  /**
   The policy decisions for the asking actor: for a job's project and sessions the revision in force, for a project alone
   whether access is allowed. What is missing is refused.
   */
  datatype Ask = Ask(now: Instant, policies: map<Id, int>, projects: set<Id>)

  // ---------------------------------------------------------------- the checks that do not recurse

  predicate BusinessReadable(s: Store, o: Output) {
    match o.outputType
    case ClaimOutput => o.businessId in s.claims && s.claims[o.businessId].readable
    case ResolutionOutput => o.businessId in s.resolutions && s.resolutions[o.businessId].readable
    case OtherOutput => true
  }

  predicate JobStands(s: Store, jobId: Id, ask: Ask) {
    && jobId in s.jobs
    && var job := s.jobs[jobId];
    && job.succeeded
    && job.retention.Active?
    && job.expiresAt > ask.now
    && jobId in ask.policies && ask.policies[jobId] == job.policyRevision
    && forall c :: c in job.scopes ==>
         c.sessionId in s.speakerRoles && s.speakerRoles[c.sessionId] == c.speakerRoleRevision
  }

  predicate SegmentsStand(s: Store, o: Output) {
    && |o.segmentDeps| == |o.expectedSegments|
    && forall i :: 0 <= i < |o.segmentDeps| ==>
         && o.segmentDeps[i] in s.segmentInputs
         && var input := s.segmentInputs[o.segmentDeps[i]];
         && o.expectedSegments[i]
            == SegmentEntry(o.segmentDeps[i], input.transcriptId, input.frozen.textRevision,
                            input.frozen.speakerRoleRevision, input.frozen.digest)
         && input.transcriptId in s.transcripts
         && s.transcripts[input.transcriptId] == input.frozen
  }

  predicate MemoriesListed(s: Store, o: Output) {
    && |o.memoryDeps| == |o.expectedMemories|
    && forall i :: 0 <= i < |o.memoryDeps| ==>
         && o.memoryDeps[i] in s.memoryInputs
         && o.expectedMemories[i]
            == MemoryEntry(o.memoryDeps[i], s.memoryInputs[o.memoryDeps[i]].resolutionId,
                           s.memoryInputs[o.memoryDeps[i]].revision)
  }

  /** What the output's own resolution, if it is one, supersedes. */
  function SupersededBy(s: Store, o: Output): Option<Id> {
    if o.outputType.ResolutionOutput? && o.businessId in s.resolutions then s.resolutions[o.businessId].supersedes else None
  }

  predicate MemoryStands(s: Store, o: Output, input: MemoryInput) {
    && input.resolutionId in s.resolutions
    && var r := s.resolutions[input.resolutionId];
    && r.readable
    && (r.current || SupersededBy(s, o) == Some(input.resolutionId))
    && r.revision == input.revision
  }

  /** The memory's own output has to be eligible too, except for outputs that are resolutions themselves. */
  predicate MemoryRecurses(s: Store, o: Output, input: MemoryInput) {
    && !o.outputType.ResolutionOutput?
    && input.resolutionId in s.resolutions
    && s.resolutions[input.resolutionId].automatic
  }

  predicate SnapshotStands(s: Store, q: QuestionDependency, ask: Ask) {
    && q.targetId in s.snapshots
    && var row := s.snapshots[q.targetId];
    && row.digest == q.digest && row.revision == q.revision && row.retention.Active? && row.expiresAt > ask.now
  }

  predicate EventStands(s: Store, q: QuestionDependency, ask: Ask) {
    && q.targetId in s.events && q.revision == 0
    && var row := s.events[q.targetId];
    && row.digest == q.digest
    && match row.owner
       case OwnedByJob(id) => id in s.jobs && s.jobs[id].retention.Active? && s.jobs[id].expiresAt > ask.now
       case OwnedBySnapshot(id) => id in s.snapshots && s.snapshots[id].retention.Active? && s.snapshots[id].expiresAt > ask.now
       case NoOwner => false
  }

  predicate ActualStands(s: Store, q: QuestionDependency) {
    && q.targetId in s.questions
    && s.questions[q.targetId].digest == q.digest
    && s.questions[q.targetId].analysisId in s.analyses
    && s.analyses[s.questions[q.targetId].analysisId].published
    && s.analyses[s.questions[q.targetId].analysisId].outputId.Some?
  }

  // ---------------------------------------------------------------- the recursion

  /** The output a memory dependency hands the question on to. */
  function MemoryTarget(s: Store, o: Output, dep: Id): Option<Id> {
    if dep in s.memoryInputs && MemoryRecurses(s, o, s.memoryInputs[dep])
    then s.resolutions[s.memoryInputs[dep].resolutionId].outputId else None
  }

  function QuestionTarget(s: Store, q: QuestionDependency): Option<Id> {
    if q.kind.ActualQuestionTarget? && ActualStands(s, q)
    then s.analyses[s.questions[q.targetId].analysisId].outputId else None
  }

  /** Output `a` asks whether output `t` is eligible. */
  predicate AsksAbout(s: Store, a: Id, t: Id) {
    && a in s.outputs
    && var o := s.outputs[a];
    || (exists i :: 0 <= i < |o.memoryDeps| && MemoryTarget(s, o, o.memoryDeps[i]) == Some(t))
    || (exists i :: 0 <= i < |o.questionDeps| && QuestionTarget(s, o.questionDeps[i]) == Some(t))
  }

  function RankOf(rank: map<Id, nat>, id: Id): nat {
    if id in rank then rank[id] else 0
  }

  /** Dependencies never run in circles: every output outranks the outputs it asks about. */
  ghost predicate Acyclic(s: Store, rank: map<Id, nat>) {
    forall a, t :: AsksAbout(s, a, t) ==> RankOf(rank, t) < RankOf(rank, a)
  }

  ghost predicate Eligible(s: Store, rank: map<Id, nat>, ask: Ask, id: Id)
    requires Acyclic(s, rank)
    decreases RankOf(rank, id), 1
  {
    && id in s.outputs
    && var o := s.outputs[id];
    && o.current
    && BusinessReadable(s, o)
    && JobStands(s, o.jobId, ask)
    && SegmentsStand(s, o)
    && MemoriesListed(s, o)
    && (forall i :: 0 <= i < |o.memoryDeps| ==> MemoryAllows(s, rank, ask, id, i))
    && o.questionDeps == o.expectedQuestions
    && (forall i :: 0 <= i < |o.questionDeps| ==> QuestionAllows(s, rank, ask, id, i))
  }

  ghost predicate MemoryAllows(s: Store, rank: map<Id, nat>, ask: Ask, id: Id, i: nat)
    requires Acyclic(s, rank) && id in s.outputs && i < |s.outputs[id].memoryDeps|
    requires s.outputs[id].memoryDeps[i] in s.memoryInputs
    decreases RankOf(rank, id), 0
  {
    var o := s.outputs[id];
    var dep := o.memoryDeps[i];
    && MemoryStands(s, o, s.memoryInputs[dep])
    && (MemoryRecurses(s, o, s.memoryInputs[dep]) ==>
          && MemoryTarget(s, o, dep).Some?
          && AsksAbout(s, id, MemoryTarget(s, o, dep).value)
          && Eligible(s, rank, ask, MemoryTarget(s, o, dep).value))
  }

  ghost predicate QuestionAllows(s: Store, rank: map<Id, nat>, ask: Ask, id: Id, i: nat)
    requires Acyclic(s, rank) && id in s.outputs && i < |s.outputs[id].questionDeps|
    decreases RankOf(rank, id), 0
  {
    var q := s.outputs[id].questionDeps[i];
    match q.kind
    case DisplaySnapshotTarget => SnapshotStands(s, q, ask)
    case EvidenceEventTarget => EventStands(s, q, ask)
    case ActualQuestionTarget =>
      && ActualStands(s, q)
      && AsksAbout(s, id, QuestionTarget(s, q).value)
      && Eligible(s, rank, ask, QuestionTarget(s, q).value)
    case OtherTarget => false
  }

  ghost predicate MemoryResolutionEligible(s: Store, rank: map<Id, nat>, ask: Ask, projectId: Id, id: Id)
    requires Acyclic(s, rank)
  {
    && id in s.resolutions && projectId in ask.projects
    && var r := s.resolutions[id];
    && r.projectId == projectId && r.current && r.readable && !r.blocked
    && if r.automatic then r.outputId.Some? && Eligible(s, rank, ask, r.outputId.value)
       else && r.rootId.Some? && r.rootId.value in s.memoryRoots
            && s.memoryRoots[r.rootId.value].retention.Active?
            && s.memoryRoots[r.rootId.value].expiresAt > ask.now
  }

  /** The rank only makes the recursion end; any two agree. */
  lemma {:induction false} RankIsIrrelevant(s: Store, r1: map<Id, nat>, r2: map<Id, nat>, ask: Ask, id: Id)
    requires Acyclic(s, r1) && Acyclic(s, r2)
    ensures Eligible(s, r1, ask, id) <==> Eligible(s, r2, ask, id)
    decreases RankOf(r1, id)
  {
    if id in s.outputs {
      forall t | AsksAbout(s, id, t) ensures Eligible(s, r1, ask, t) <==> Eligible(s, r2, ask, t) {
        RankIsIrrelevant(s, r1, r2, ask, t);
      }
      if MemoriesListed(s, s.outputs[id]) {
        assert forall i :: 0 <= i < |s.outputs[id].memoryDeps| ==>
          (MemoryAllows(s, r1, ask, id, i) <==> MemoryAllows(s, r2, ask, id, i));
      }
      assert forall i :: 0 <= i < |s.outputs[id].questionDeps| ==>
        (QuestionAllows(s, r1, ask, id, i) <==> QuestionAllows(s, r2, ask, id, i));
    }
  }

  // ---------------------------------------------------------------- only downhill

  ghost predicate OutputsDegrade(a: map<Id, Output>, b: map<Id, Output>) {
    forall k :: k in b ==> k in a && (b[k] == a[k] || b[k] == a[k].(current := false))
  }

  ghost predicate ResolutionsDegrade(a: map<Id, Resolution>, b: map<Id, Resolution>) {
    && a.Keys == b.Keys
    && forall k :: k in b ==> b[k] == a[k] || b[k] == a[k].(current := false)
  }

  ghost predicate JobsDegrade(a: map<Id, Job>, b: map<Id, Job>) {
    forall k :: k in b ==> k in a && (b[k] == a[k] || !b[k].retention.Active?)
  }

  ghost predicate AnalysesDegrade(a: map<Id, Analysis>, b: map<Id, Analysis>) {
    && a.Keys == b.Keys
    && forall k :: k in b ==> b[k] == a[k] || b[k] == a[k].(published := false)
  }

  ghost predicate SnapshotsDegrade(a: map<Id, Snapshot>, b: map<Id, Snapshot>) {
    forall k :: k in b ==> k in a && (b[k] == a[k] || !b[k].retention.Active?)
  }

  ghost predicate RootsDegrade(a: map<Id, MemoryRoot>, b: map<Id, MemoryRoot>) {
    forall k :: k in b ==> k in a && (b[k] == a[k] || !b[k].retention.Active?)
  }

  /** Roots are hidden, outputs invalidated, resolutions superseded, analyses withdrawn; nothing else changes. */
  ghost predicate Degrades(a: Store, b: Store) {
    && OutputsDegrade(a.outputs, b.outputs)
    && ResolutionsDegrade(a.resolutions, b.resolutions)
    && JobsDegrade(a.jobs, b.jobs)
    && AnalysesDegrade(a.analyses, b.analyses)
    && SnapshotsDegrade(a.snapshots, b.snapshots)
    && RootsDegrade(a.memoryRoots, b.memoryRoots)
    && b == a.(outputs := b.outputs, resolutions := b.resolutions, jobs := b.jobs, analyses := b.analyses,
               snapshots := b.snapshots, memoryRoots := b.memoryRoots)
  }

  lemma MemoryTargetKept(a: Store, b: Store, o: Output, dep: Id)
    requires Degrades(a, b)
    ensures MemoryTarget(b, o, dep) == MemoryTarget(a, o, dep)
    ensures MemoryTarget(b, o.(current := false), dep) == MemoryTarget(a, o, dep)
  {
  }

  /** A degraded store asks no new questions, so the same ranks still show it acyclic. */
  lemma DegradedAsksLess(a: Store, b: Store, x: Id, t: Id)
    requires Degrades(a, b) && AsksAbout(b, x, t)
    ensures AsksAbout(a, x, t)
  {
    var o, p := b.outputs[x], a.outputs[x];
    if i :| 0 <= i < |o.memoryDeps| && MemoryTarget(b, o, o.memoryDeps[i]) == Some(t) {
      MemoryTargetKept(a, b, p, o.memoryDeps[i]);
      assert MemoryTarget(a, p, p.memoryDeps[i]) == Some(t);
    } else {
      var i :| 0 <= i < |o.questionDeps| && QuestionTarget(b, o.questionDeps[i]) == Some(t);
      assert QuestionTarget(a, p.questionDeps[i]) == Some(t);
    }
  }

  lemma DegradedIsAcyclic(a: Store, b: Store, rank: map<Id, nat>)
    requires Degrades(a, b) && Acyclic(a, rank)
    ensures Acyclic(b, rank)
  {
    forall x, t | AsksAbout(b, x, t) ensures RankOf(rank, t) < RankOf(rank, x) {
      DegradedAsksLess(a, b, x, t);
    }
  }

  /** Later, and allowed no more: every decision is as before or a refusal. */
  ghost predicate LaterAsk(first: Ask, second: Ask) {
    && first.now <= second.now
    && (forall j :: j in second.policies ==> j in first.policies && first.policies[j] == second.policies[j])
    && second.projects <= first.projects
  }

  /** Degrading the store or letting time pass never makes an output eligible. */
  lemma {:induction false} NothingBecomesEligible(a: Store, b: Store, rank: map<Id, nat>, first: Ask, second: Ask, id: Id)
    requires Acyclic(a, rank) && Acyclic(b, rank) && Degrades(a, b) && LaterAsk(first, second)
    requires Eligible(b, rank, second, id)
    ensures Eligible(a, rank, first, id)
    decreases RankOf(rank, id), 1
  {
    var o := b.outputs[id];
    assert a.outputs[id] == o;
    StandingKept(a, b, first, second, o);
    forall i | 0 <= i < |o.memoryDeps| ensures MemoryAllows(a, rank, first, id, i) {
      MemoryStillAllowed(a, b, rank, first, second, id, i);
    }
    forall i | 0 <= i < |o.questionDeps| ensures QuestionAllows(a, rank, first, id, i) {
      QuestionStillAllowed(a, b, rank, first, second, id, i);
    }
  }

  lemma StandingKept(a: Store, b: Store, first: Ask, second: Ask, o: Output)
    requires Degrades(a, b) && LaterAsk(first, second)
    requires BusinessReadable(b, o) && JobStands(b, o.jobId, second) && SegmentsStand(b, o) && MemoriesListed(b, o)
    ensures BusinessReadable(a, o) && JobStands(a, o.jobId, first) && SegmentsStand(a, o) && MemoriesListed(a, o)
  {
  }

  lemma {:induction false} MemoryStillAllowed(a: Store, b: Store, rank: map<Id, nat>, first: Ask, second: Ask, id: Id, i: nat)
    requires Acyclic(a, rank) && Acyclic(b, rank) && Degrades(a, b) && LaterAsk(first, second)
    requires id in b.outputs && a.outputs[id] == b.outputs[id] && i < |b.outputs[id].memoryDeps|
    requires b.outputs[id].memoryDeps[i] in b.memoryInputs && MemoryAllows(b, rank, second, id, i)
    ensures MemoryAllows(a, rank, first, id, i)
    decreases RankOf(rank, id), 0
  {
    var o := b.outputs[id];
    MemoryTargetKept(a, b, o, o.memoryDeps[i]);
    if MemoryRecurses(b, o, b.memoryInputs[o.memoryDeps[i]]) {
      var t := MemoryTarget(b, o, o.memoryDeps[i]).value;
      DegradedAsksLess(a, b, id, t);
      NothingBecomesEligible(a, b, rank, first, second, t);
    }
  }

  lemma {:induction false} QuestionStillAllowed(a: Store, b: Store, rank: map<Id, nat>, first: Ask, second: Ask, id: Id, i: nat)
    requires Acyclic(a, rank) && Acyclic(b, rank) && Degrades(a, b) && LaterAsk(first, second)
    requires id in b.outputs && a.outputs[id] == b.outputs[id] && i < |b.outputs[id].questionDeps|
    requires QuestionAllows(b, rank, second, id, i)
    ensures QuestionAllows(a, rank, first, id, i)
    decreases RankOf(rank, id), 0
  {
    var q := b.outputs[id].questionDeps[i];
    if q.kind.ActualQuestionTarget? {
      var t := QuestionTarget(b, q).value;
      DegradedAsksLess(a, b, id, t);
      NothingBecomesEligible(a, b, rank, first, second, t);
    }
  }

  lemma NoMemoryBecomesEligible(a: Store, b: Store, rank: map<Id, nat>, first: Ask, second: Ask, projectId: Id, id: Id)
    requires Acyclic(a, rank) && Acyclic(b, rank) && Degrades(a, b) && LaterAsk(first, second)
    requires MemoryResolutionEligible(b, rank, second, projectId, id)
    ensures MemoryResolutionEligible(a, rank, first, projectId, id)
  {
    var r := b.resolutions[id];
    if r.automatic {
      NothingBecomesEligible(a, b, rank, first, second, r.outputId.value);
    }
  }

  // ---------------------------------------------------------------- ineligibility spreads

  /** A chain of questions from one output to another. */
  ghost predicate Reaches(s: Store, rank: map<Id, nat>, a: Id, t: Id)
    requires Acyclic(s, rank)
    decreases RankOf(rank, a)
  {
    a == t || exists m :: AsksAbout(s, a, m) && Reaches(s, rank, m, t)
  }

  /** An output is ineligible as soon as one it asks about is. */
  lemma IneligibleTarget(s: Store, rank: map<Id, nat>, ask: Ask, a: Id, t: Id)
    requires Acyclic(s, rank) && AsksAbout(s, a, t) && !Eligible(s, rank, ask, t)
    ensures !Eligible(s, rank, ask, a)
  {
    var o := s.outputs[a];
    if i :| 0 <= i < |o.memoryDeps| && MemoryTarget(s, o, o.memoryDeps[i]) == Some(t) {
      assert o.memoryDeps[i] in s.memoryInputs && !MemoryAllows(s, rank, ask, a, i);
    } else {
      var i :| 0 <= i < |o.questionDeps| && QuestionTarget(s, o.questionDeps[i]) == Some(t);
      assert !QuestionAllows(s, rank, ask, a, i);
    }
  }

  lemma {:induction false} IneligibilitySpreads(s: Store, rank: map<Id, nat>, ask: Ask, a: Id, t: Id)
    requires Acyclic(s, rank) && Reaches(s, rank, a, t) && !Eligible(s, rank, ask, t)
    ensures !Eligible(s, rank, ask, a)
    decreases RankOf(rank, a)
  {
    if a != t {
      var m :| AsksAbout(s, a, m) && Reaches(s, rank, m, t);
      IneligibilitySpreads(s, rank, ask, m, t);
      IneligibleTarget(s, rank, ask, a, m);
    }
  }

  // ---------------------------------------------------------------- the recursion spelled out

  /** Everything the check asks of an output itself and of the rows it names, without asking about other outputs. */
  predicate StandsAlone(s: Store, ask: Ask, id: Id) {
    && id in s.outputs
    && var o := s.outputs[id];
    && o.current && BusinessReadable(s, o) && JobStands(s, o.jobId, ask) && SegmentsStand(s, o) && MemoriesListed(s, o)
    && (forall i :: 0 <= i < |o.memoryDeps| ==>
          && MemoryStands(s, o, s.memoryInputs[o.memoryDeps[i]])
          && (MemoryRecurses(s, o, s.memoryInputs[o.memoryDeps[i]]) ==> MemoryTarget(s, o, o.memoryDeps[i]).Some?))
    && o.questionDeps == o.expectedQuestions
    && (forall i :: 0 <= i < |o.questionDeps| ==> QuestionStandsAlone(s, ask, o.questionDeps[i]))
  }

  predicate QuestionStandsAlone(s: Store, ask: Ask, q: QuestionDependency) {
    match q.kind
    case DisplaySnapshotTarget => SnapshotStands(s, q, ask)
    case EvidenceEventTarget => EventStands(s, q, ask)
    case ActualQuestionTarget => ActualStands(s, q)
    case OtherTarget => false
  }

  lemma EligibleStandsAlone(s: Store, rank: map<Id, nat>, ask: Ask, id: Id)
    requires Acyclic(s, rank) && Eligible(s, rank, ask, id)
    ensures StandsAlone(s, ask, id)
  {
    var o := s.outputs[id];
    forall i | 0 <= i < |o.memoryDeps|
      ensures && MemoryStands(s, o, s.memoryInputs[o.memoryDeps[i]])
              && (MemoryRecurses(s, o, s.memoryInputs[o.memoryDeps[i]]) ==> MemoryTarget(s, o, o.memoryDeps[i]).Some?)
    {
      assert MemoryAllows(s, rank, ask, id, i);
    }
    forall i | 0 <= i < |o.questionDeps| ensures QuestionStandsAlone(s, ask, o.questionDeps[i]) {
      assert QuestionAllows(s, rank, ask, id, i);
    }
  }

  /** An output that stands and asks only about eligible ones is eligible. */
  lemma StandingAmongEligible(s: Store, rank: map<Id, nat>, ask: Ask, id: Id)
    requires Acyclic(s, rank) && StandsAlone(s, ask, id)
    requires forall m :: AsksAbout(s, id, m) ==> Eligible(s, rank, ask, m)
    ensures Eligible(s, rank, ask, id)
  {
    var o := s.outputs[id];
    forall i | 0 <= i < |o.memoryDeps| ensures MemoryAllows(s, rank, ask, id, i) {
      if MemoryTarget(s, o, o.memoryDeps[i]).Some? {
        assert AsksAbout(s, id, MemoryTarget(s, o, o.memoryDeps[i]).value);
      }
    }
    forall i | 0 <= i < |o.questionDeps| ensures QuestionAllows(s, rank, ask, id, i) {
      assert QuestionStandsAlone(s, ask, o.questionDeps[i]);
      if QuestionTarget(s, o.questionDeps[i]).Some? {
        assert AsksAbout(s, id, QuestionTarget(s, o.questionDeps[i]).value);
      }
    }
  }

  /** An output is eligible exactly when it and every output it reaches stand on their own. */
  lemma {:induction false} EligibleIffAllReachedStand(s: Store, rank: map<Id, nat>, ask: Ask, id: Id)
    requires Acyclic(s, rank)
    ensures Eligible(s, rank, ask, id) <==> forall t :: Reaches(s, rank, id, t) ==> StandsAlone(s, ask, t)
    decreases RankOf(rank, id)
  {
    if Eligible(s, rank, ask, id) {
      forall t | Reaches(s, rank, id, t) ensures StandsAlone(s, ask, t) {
        if !Eligible(s, rank, ask, t) {
          IneligibilitySpreads(s, rank, ask, id, t);
        }
        EligibleStandsAlone(s, rank, ask, t);
      }
    } else if forall t :: Reaches(s, rank, id, t) ==> StandsAlone(s, ask, t) {
      assert Reaches(s, rank, id, id);
      forall m | AsksAbout(s, id, m) ensures Eligible(s, rank, ask, m) {
        assert forall t :: Reaches(s, rank, m, t) ==> Reaches(s, rank, id, t);
        EligibleIffAllReachedStand(s, rank, ask, m);
      }
      StandingAmongEligible(s, rank, ask, id);
    }
  }
}
