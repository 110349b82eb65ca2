/**
 Recovery of question-generation attempts. A crash can leave the attempt, its AI job and its decision
 trace disagreeing; recovering the attempt repairs the three rows, rebuilding the trace's snapshot from
 the job's inputs unless a snapshot had already been frozen.
 */
module DecisionTraceRecovery {
  import opened Options

  type Id = nat
  type Instant = int

  // ---------------------------------------------------------------- rows

  datatype PublicationOutcome =
    | Published | NotBetter | DuplicateFiltered | NotApplicable | StaleBasis | SupersededByManual
    | PolicyBlocked | OtherPublication(text: string)

  datatype AttemptStatus = AttemptPending | AttemptRunning | AttemptSucceeded | AttemptFailed | AttemptCancelled

  datatype ResultKind = NoResult | Suggestion | ContinueListening | UnavailableResult

  datatype Attempt = Attempt(
    createdAt: Instant, startedAt: Option<Instant>, completedAt: Option<Instant>, status: AttemptStatus,
    resultKind: ResultKind, publicationOutcome: Option<PublicationOutcome>, failureCode: Option<string>)

  datatype JobStatus = JobPending | JobRunning | JobSucceeded | JobFailed | JobCancelled

  datatype Job = Job(status: JobStatus, completedAt: Option<Instant>, failureCode: Option<string>)

  datatype TraceStatus = TraceRunning | TraceSucceeded | TraceFailed | TraceUnavailable | TraceStale | TraceCancelled

  datatype DecisionOutcome = QuestionDecided | ListeningDecided | NothingDecided | OtherDecision(text: string)

  datatype Stage = ContextFrozen | Director | Publication | Recovered | OtherStage(text: string)

  datatype Section = InterviewState | WorkingMemory | RecentTranscript | ActualAsked | CurrentPresentation | QuestionBank | OtherSection

  /** Digests of single inputs are opaque; the digest of a context is determined by its items. */
  datatype Digest = Plain(n: nat) | ContextDigest(items: seq<P4Item>)

  datatype P4Item = P4Item(
    section: Section, sourceId: Id, revision: Option<int>, sourceVersion: Option<string>,
    membershipDigest: Option<Digest>, inputOrder: int, included: bool)

  datatype TranscriptMember = TranscriptMember(
    segmentId: Id, textRevision: int, speakerRoleRevision: int, textDigest: Digest, inputOrder: int)

  datatype MemoryMember = MemoryMember(memoryId: Id, revision: int, inputOrder: int)

  datatype Trace = Trace(
    attemptLinked: bool, startedAt: Instant, completedAt: Option<Instant>, durationMs: Option<int>,
    status: TraceStatus, stage: Option<Stage>, decisionOutcome: DecisionOutcome, directorInvoked: bool,
    publicationOutcome: Option<PublicationOutcome>, gateReason: Option<PublicationOutcome>,
    errorCode: Option<string>, contextDigest: Option<Digest>, p4: seq<P4Item>,
    transcripts: seq<TranscriptMember>, memories: seq<MemoryMember>)

  datatype Rows = Rows(attempt: Attempt, job: Job, trace: Option<Trace>)

  // ---------------------------------------------------------------- the job's inputs

  datatype SessionScope = SessionScope(sessionId: Id, speakerRoleRevision: int, manifestHash: Digest)
  datatype ActualQuestion = ActualQuestion(id: Id, analysisRevision: int, digest: Digest)
  datatype Presentation = Presentation(id: Id, revision: Option<int>, digest: Digest)
  datatype BankReference = BankReference(itemId: Option<Id>, questionId: Id, bankVersion: string, contentDigest: Digest)

  /** What the job was given, as its rows stand when they are read. */
  datatype Inputs = Inputs(
    scopes: seq<SessionScope>, memories: seq<MemoryMember>, segments: seq<TranscriptMember>,
    actualQuestions: seq<ActualQuestion>, presentation: Option<Presentation>, bank: seq<BankReference>,
    providerCalls: nat)

  /** A context item before it is given its place. */
  datatype Part = Part(
    section: Section, sourceId: Id, revision: Option<int>, sourceVersion: Option<string>, membershipDigest: Option<Digest>)

  function ScopeParts(s: seq<SessionScope>): seq<Part> {
    seq(|s|, i requires 0 <= i < |s| =>
      Part(InterviewState, s[i].sessionId, Some(s[i].speakerRoleRevision), None, Some(s[i].manifestHash)))
  }

  function MemoryParts(s: seq<MemoryMember>): seq<Part> {
    seq(|s|, i requires 0 <= i < |s| => Part(WorkingMemory, s[i].memoryId, Some(s[i].revision), None, None))
  }

  function SegmentParts(s: seq<TranscriptMember>): seq<Part> {
    seq(|s|, i requires 0 <= i < |s| =>
      Part(RecentTranscript, s[i].segmentId, Some(s[i].textRevision), None, Some(s[i].textDigest)))
  }

  function ActualParts(s: seq<ActualQuestion>): seq<Part> {
    seq(|s|, i requires 0 <= i < |s| => Part(ActualAsked, s[i].id, Some(s[i].analysisRevision), None, Some(s[i].digest)))
  }

  function PresentationParts(p: Option<Presentation>): seq<Part> {
    if p.None? then [] else [Part(CurrentPresentation, p.value.id, p.value.revision, None, Some(p.value.digest))]
  }

  function BankParts(s: seq<BankReference>): seq<Part> {
    seq(|s|, i requires 0 <= i < |s| =>
      Part(QuestionBank, s[i].itemId.GetOr(s[i].questionId), None, Some(s[i].bankVersion), Some(s[i].contentDigest)))
  }

  function Placed(p: Part, order: int): P4Item {
    P4Item(p.section, p.sourceId, p.revision, p.sourceVersion, p.membershipDigest, order, true)
  }

  /** Pushes the parts onto the context, each numbered by the length reached. */
  function Push(p4: seq<P4Item>, parts: seq<Part>): seq<P4Item>
    decreases |parts|
  {
    if parts == [] then p4 else Push(p4 + [Placed(parts[0], |p4|)], parts[1..])
  }

  /** The context rebuilt from the inputs, section by section. */
  function ContextItems(inputs: Inputs): seq<P4Item> {
    var scoped := Push([], ScopeParts(inputs.scopes));
    var remembered := Push(scoped, MemoryParts(inputs.memories));
    var spoken := Push(remembered, SegmentParts(inputs.segments));
    var asked := Push(spoken, ActualParts(inputs.actualQuestions));
    Push(Push(asked, PresentationParts(inputs.presentation)), BankParts(inputs.bank))
  }

  // ---------------------------------------------------------------- predicates of the service

  predicate AttemptLive(a: Attempt) {
    a.status.AttemptPending? || a.status.AttemptRunning?
  }

  predicate JobLive(j: Job) {
    j.status.JobPending? || j.status.JobRunning?
  }

  /** Whether the trace carries a snapshot that recovery must not replace. */
  predicate HasFrozenReferences(t: Trace) {
    && (t.stage == Some(ContextFrozen) || t.stage == Some(Director) || t.stage == Some(Publication))
    && t.contextDigest.Some?
    && t.p4 != []
  }

  predicate TraceMatchesAttempt(t: Trace, a: Attempt) {
    match a.status
    case AttemptSucceeded =>
      && t.status.TraceSucceeded?
      && t.decisionOutcome == (if a.resultKind.Suggestion? then QuestionDecided else ListeningDecided)
    case AttemptCancelled =>
      if a.publicationOutcome == Some(StaleBasis) then t.status.TraceStale? else t.status.TraceCancelled?
    case AttemptFailed => t.status.TraceFailed? || t.status.TraceUnavailable?
    case _ => t.status.TraceRunning?
  }

  function TraceStatusFromAttempt(a: Attempt): TraceStatus {
    if a.publicationOutcome == Some(StaleBasis) then TraceStale
    else if a.publicationOutcome == Some(SupersededByManual) || a.status.AttemptCancelled? then TraceCancelled
    else if a.status.AttemptSucceeded? then TraceSucceeded
    else if a.status.AttemptFailed? then TraceUnavailable
    else TraceRunning
  }

  function TerminalPublicationOutcome(t: Trace): PublicationOutcome {
    match t.publicationOutcome
    case Some(Published) => Published
    case Some(NotBetter) => NotBetter
    case Some(DuplicateFiltered) => DuplicateFiltered
    case Some(NotApplicable) => NotApplicable
    case _ => Published
  }

  function GateReason(outcome: Option<PublicationOutcome>): Option<PublicationOutcome> {
    if outcome == Some(Published) then None else outcome
  }

  const RESTARTED := "SYSTEM_COORDINATOR_RESTARTED"
  const MAX_DURATION_MS := 2_147_483_647

  function BoundedDuration(startedAt: Instant, completedAt: Instant): int {
    var elapsed := if completedAt - startedAt < 0 then 0 else completedAt - startedAt;
    if elapsed > MAX_DURATION_MS then MAX_DURATION_MS else elapsed
  }

  function FirstSome<T>(a: Option<T>, b: Option<T>): Option<T> {
    if a.Some? then a else b
  }

  // ---------------------------------------------------------------- the three repairs

  /** A live attempt takes the outcome of its finished trace. */
  function AttemptFromTrace(a: Attempt, t: Trace, now: Instant): Attempt {
    var completedAt := Some(t.completedAt.GetOr(now));
    match t.status
    case TraceSucceeded =>
      a.(completedAt := completedAt, failureCode := None,
         publicationOutcome := Some(TerminalPublicationOutcome(t)),
         resultKind := if t.decisionOutcome.QuestionDecided? then Suggestion else ContinueListening,
         status := AttemptSucceeded)
    case TraceStale =>
      a.(completedAt := completedAt, failureCode := None, publicationOutcome := Some(StaleBasis),
         resultKind := UnavailableResult, status := AttemptCancelled)
    case TraceCancelled =>
      a.(completedAt := completedAt, failureCode := None, publicationOutcome := Some(SupersededByManual),
         resultKind := UnavailableResult, status := AttemptCancelled)
    case _ =>
      a.(completedAt := completedAt, failureCode := Some(t.errorCode.GetOr(RESTARTED)),
         publicationOutcome := Some(PolicyBlocked), resultKind := UnavailableResult, status := AttemptFailed)
  }

  /** A live job takes the outcome of its finished attempt. */
  function JobFromAttempt(j: Job, a: Attempt, t: Trace, now: Instant): Job {
    if AttemptLive(a) || !JobLive(j) then j
    else
      var succeeded := a.status.AttemptSucceeded? || a.status.AttemptCancelled?;
      Job(if succeeded then JobSucceeded else JobFailed,
          Some(FirstSome(a.completedAt, t.completedAt).GetOr(now)),
          if succeeded then None else Some(FirstSome(a.failureCode, t.errorCode).GetOr(RESTARTED)))
  }

  const CUTOFF_MS := 30_000

  predicate PastCutoff(a: Attempt, now: Instant) {
    a.createdAt < now - CUTOFF_MS
  }

  function RestartedAttempt(a: Attempt, now: Instant): Attempt {
    a.(completedAt := Some(now), failureCode := Some(RESTARTED), publicationOutcome := Some(PolicyBlocked),
       resultKind := UnavailableResult, status := AttemptFailed)
  }

  function RestartedJob(j: Job, now: Instant): Job {
    if JobLive(j) then Job(JobFailed, Some(now), Some(RESTARTED)) else j
  }

  // ---------------------------------------------------------------- the trace

  /** Adds members that do not clash with one already present, as a create that skips duplicates does. */
  function AddTranscripts(present: seq<TranscriptMember>, added: seq<TranscriptMember>): seq<TranscriptMember>
    decreases |added|
  {
    if added == [] then present
    else
      var m := added[0];
      var clash := exists p :: p in present && (p.segmentId == m.segmentId || p.inputOrder == m.inputOrder);
      AddTranscripts(if clash then present else present + [m], added[1..])
  }

  function AddMemories(present: seq<MemoryMember>, added: seq<MemoryMember>): seq<MemoryMember>
    decreases |added|
  {
    if added == [] then present
    else
      var m := added[0];
      var clash := exists p ::
        p in present && ((p.memoryId == m.memoryId && p.revision == m.revision) || p.inputOrder == m.inputOrder);
      AddMemories(if clash then present else present + [m], added[1..])
  }

  function DecisionFromAttempt(a: Attempt): DecisionOutcome {
    if !a.status.AttemptSucceeded? then NothingDecided
    else if a.resultKind.Suggestion? then QuestionDecided
    else ListeningDecided
  }

  function StartOf(a: Attempt): Instant {
    a.startedAt.GetOr(a.createdAt)
  }

  function RecoveredDuration(a: Attempt): Option<int> {
    if a.completedAt.None? then None else Some(BoundedDuration(StartOf(a), a.completedAt.value))
  }

  /** The snapshot of a trace: kept if it was frozen, otherwise rebuilt from the inputs. */
  function WithSnapshot(t: Trace, inputs: Inputs): Trace {
    if HasFrozenReferences(t) then t
    else
      var items := ContextItems(inputs);
      t.(p4 := items, contextDigest := Some(ContextDigest(items)),
         transcripts := AddTranscripts(t.transcripts, inputs.segments),
         memories := AddMemories(t.memories, inputs.memories))
  }

  function WithOutcome(t: Trace, a: Attempt): Trace {
    t.(decisionOutcome := DecisionFromAttempt(a), status := TraceStatusFromAttempt(a), stage := Some(Recovered),
       gateReason := GateReason(a.publicationOutcome), publicationOutcome := a.publicationOutcome,
       errorCode := a.failureCode, completedAt := a.completedAt, durationMs := RecoveredDuration(a))
  }

  function NewTrace(a: Attempt, inputs: Inputs): Trace {
    var items := ContextItems(inputs);
    Trace(true, StartOf(a), a.completedAt, RecoveredDuration(a), TraceStatusFromAttempt(a), Some(Recovered),
          DecisionFromAttempt(a), inputs.providerCalls > 0, a.publicationOutcome, GateReason(a.publicationOutcome),
          a.failureCode, Some(ContextDigest(items)), items, inputs.segments, inputs.memories)
  }

  function RepairedTrace(t: Trace, a: Attempt, inputs: Inputs, preserve: bool): Trace {
    var linked := WithSnapshot(t, inputs).(attemptLinked := true, directorInvoked := inputs.providerCalls > 0);
    if preserve then linked else WithOutcome(linked, a)
  }

  // ---------------------------------------------------------------- one recovery

  function Recover(r: Rows, inputs: Inputs, now: Instant): Rows {
    var finished := r.trace.Some? && !r.trace.value.status.TraceRunning?;
    var preserve := finished && AttemptLive(r.attempt);
    var attempt := if preserve then AttemptFromTrace(r.attempt, r.trace.value, now) else r.attempt;
    var job := if finished then JobFromAttempt(r.job, attempt, r.trace.value, now) else r.job;
    if finished && !preserve && TraceMatchesAttempt(r.trace.value, attempt) && !JobLive(job) then
      Rows(attempt, job, r.trace)
    else
      var restart := PastCutoff(attempt, now) && AttemptLive(attempt);
      var attempt' := if restart then RestartedAttempt(attempt, now) else attempt;
      var job' := if restart then RestartedJob(job, now) else job;
      Rows(attempt', job',
           Some(if r.trace.Some? then RepairedTrace(r.trace.value, attempt', inputs, preserve)
                else NewTrace(attempt', inputs)))
  }

  // ---------------------------------------------------------------- the other writers of a trace

  datatype FinalResult = FinalResult(
    status: TraceStatus, decisionOutcome: Option<DecisionOutcome>, errorCode: Option<string>,
    publicationOutcome: Option<Option<PublicationOutcome>>, stage: Option<Option<Stage>>)

  /** Ends a running trace; None when it is missing, already terminal, or not allowed to end this way yet. */
  function Finalized(t: Option<Trace>, result: FinalResult, invoked: bool, completedAt: Instant): Option<Trace>
    requires !result.status.TraceRunning?
  {
    if t.None? || !t.value.status.TraceRunning? then None
    else if && t.value.attemptLinked
            && (result.status.TraceSucceeded? || result.status.TraceCancelled? || result.status.TraceStale?)
            && (t.value.stage != Some(ContextFrozen) || t.value.contextDigest.None?)
    then None
    else
      Some(t.value.(
        completedAt := Some(completedAt), status := result.status, errorCode := result.errorCode,
        durationMs := Some(BoundedDuration(t.value.startedAt, completedAt)), directorInvoked := invoked,
        decisionOutcome := result.decisionOutcome.GetOr(t.value.decisionOutcome),
        publicationOutcome := result.publicationOutcome.GetOr(t.value.publicationOutcome),
        gateReason := if result.publicationOutcome.Some? then GateReason(result.publicationOutcome.value)
                      else t.value.gateReason,
        stage := result.stage.GetOr(t.value.stage)))
  }

  function AddItems(present: seq<P4Item>, added: seq<P4Item>): seq<P4Item>
    decreases |added|
  {
    if added == [] then present
    else
      var m := added[0];
      var clash := exists p ::
        p in present && p.section == m.section && p.sourceId == m.sourceId && p.inputOrder == m.inputOrder;
      AddItems(if clash then present else present + [m], added[1..])
  }

  /** Freezes the context of a running trace; None when the trace is missing or terminal. */
  function Attached(t: Option<Trace>, items: seq<P4Item>, contextDigest: Option<Digest>): Option<Trace> {
    if t.None? || !t.value.status.TraceRunning? then None
    else Some(t.value.(p4 := if items == [] then t.value.p4 else AddItems([], items),
                       contextDigest := FirstSome(contextDigest, t.value.contextDigest),
                       stage := Some(ContextFrozen)))
  }

  class AttemptStore {
    var attempt: Attempt
    var job: Job
    var trace: Option<Trace>
    var inputs: Inputs

    constructor (attempt: Attempt, job: Job, inputs: Inputs)
      ensures Stored() == Rows(attempt, job, None) && this.inputs == inputs
    {
      this.attempt, this.job, this.trace, this.inputs := attempt, job, None, inputs;
    }

    function Stored(): Rows
      reads this
    {
      Rows(attempt, job, trace)
    }

    /** The loops that push the context items section by section. */
    method ProjectContext() returns (p4: seq<P4Item>)
      ensures p4 == ContextItems(inputs)
    {
      p4 := [];
      ghost var empty := p4;
      for i := 0 to |inputs.scopes|
        invariant Push(empty, ScopeParts(inputs.scopes)) == Push(p4, ScopeParts(inputs.scopes)[i..])
      {
        assert ScopeParts(inputs.scopes)[i..][1..] == ScopeParts(inputs.scopes)[i + 1..];
        p4 := p4 + [Placed(ScopeParts(inputs.scopes)[i], |p4|)];
      }
      assert p4 == Push(empty, ScopeParts(inputs.scopes));
      ghost var scoped := p4;
      for i := 0 to |inputs.memories|
        invariant Push(scoped, MemoryParts(inputs.memories)) == Push(p4, MemoryParts(inputs.memories)[i..])
      {
        assert MemoryParts(inputs.memories)[i..][1..] == MemoryParts(inputs.memories)[i + 1..];
        p4 := p4 + [Placed(MemoryParts(inputs.memories)[i], |p4|)];
      }
      assert p4 == Push(scoped, MemoryParts(inputs.memories));
      ghost var remembered := p4;
      for i := 0 to |inputs.segments|
        invariant Push(remembered, SegmentParts(inputs.segments)) == Push(p4, SegmentParts(inputs.segments)[i..])
      {
        assert SegmentParts(inputs.segments)[i..][1..] == SegmentParts(inputs.segments)[i + 1..];
        p4 := p4 + [Placed(SegmentParts(inputs.segments)[i], |p4|)];
      }
      assert p4 == Push(remembered, SegmentParts(inputs.segments));
      ghost var spoken := p4;
      for i := 0 to |inputs.actualQuestions|
        invariant Push(spoken, ActualParts(inputs.actualQuestions)) == Push(p4, ActualParts(inputs.actualQuestions)[i..])
      {
        assert ActualParts(inputs.actualQuestions)[i..][1..] == ActualParts(inputs.actualQuestions)[i + 1..];
        p4 := p4 + [Placed(ActualParts(inputs.actualQuestions)[i], |p4|)];
      }
      assert p4 == Push(spoken, ActualParts(inputs.actualQuestions));
      ghost var asked := p4;
      if inputs.presentation.Some? {
        assert PresentationParts(inputs.presentation)[1..] == [];
        p4 := p4 + [Placed(PresentationParts(inputs.presentation)[0], |p4|)];
      }
      assert p4 == Push(asked, PresentationParts(inputs.presentation));
      ghost var presented := p4;
      for i := 0 to |inputs.bank|
        invariant Push(presented, BankParts(inputs.bank)) == Push(p4, BankParts(inputs.bank)[i..])
      {
        assert BankParts(inputs.bank)[i..][1..] == BankParts(inputs.bank)[i + 1..];
        p4 := p4 + [Placed(BankParts(inputs.bank)[i], |p4|)];
      }
      assert p4 == Push(presented, BankParts(inputs.bank));
    }

    method RecoverAttempt(now: Instant)
      modifies this`attempt, this`job, this`trace
      ensures Stored() == Recover(old(Stored()), inputs, now)
    {
      var preserve := false;
      if trace.Some? && !trace.value.status.TraceRunning? {
        if AttemptLive(attempt) {
          attempt := AttemptFromTrace(attempt, trace.value, now);
          preserve := true;
        }
        job := JobFromAttempt(job, attempt, trace.value, now);
        if !preserve && TraceMatchesAttempt(trace.value, attempt) && !JobLive(job) {
          return;
        }
      }
      if PastCutoff(attempt, now) && AttemptLive(attempt) {
        attempt := RestartedAttempt(attempt, now);
        job := RestartedJob(job, now);
      }
      var p4 := ProjectContext();
      if trace.None? {
        trace := Some(NewTrace(attempt, inputs));
        return;
      }
      var repaired := trace.value;
      if !HasFrozenReferences(repaired) {
        repaired := repaired.(transcripts := AddTranscripts(repaired.transcripts, inputs.segments),
                              memories := AddMemories(repaired.memories, inputs.memories),
                              p4 := p4, contextDigest := Some(ContextDigest(p4)));
      }
      repaired := repaired.(attemptLinked := true, directorInvoked := inputs.providerCalls > 0);
      if !preserve {
        repaired := WithOutcome(repaired, attempt);
      }
      trace := Some(repaired);
    }

    method Finalize(result: FinalResult, completedAt: Instant) returns (ok: bool)
      requires !result.status.TraceRunning?
      modifies this`trace
      ensures var after := Finalized(old(trace), result, inputs.providerCalls > 0, completedAt);
              ok == after.Some? && trace == if ok then after else old(trace)
    {
      var after := Finalized(trace, result, inputs.providerCalls > 0, completedAt);
      ok := after.Some?;
      if ok { trace := after; }
    }

    method AttachReferences(items: seq<P4Item>, contextDigest: Option<Digest>) returns (ok: bool)
      modifies this`trace
      ensures var after := Attached(old(trace), items, contextDigest);
              ok == after.Some? && trace == if ok then after else old(trace)
    {
      if trace.None? || !trace.value.status.TraceRunning? { return false; }
      var p4 := trace.value.p4;
      if |items| > 0 {
        p4 := [];
        for i := 0 to |items|
          invariant AddItems([], items) == AddItems(p4, items[i..])
        {
          assert items[i..][1..] == items[i + 1..];
          var m := items[i];
          if !exists p :: p in p4 && p.section == m.section && p.sourceId == m.sourceId && p.inputOrder == m.inputOrder {
            p4 := p4 + [m];
          }
        }
      }
      trace := Some(trace.value.(p4 := p4, contextDigest := FirstSome(contextDigest, trace.value.contextDigest),
                                 stage := Some(ContextFrozen)));
      return true;
    }
  }

  // ---------------------------------------------------------------- convergence

  /** The three rows agree and are all terminal. */
  predicate Converged(r: Rows) {
    && !AttemptLive(r.attempt)
    && !JobLive(r.job)
    && r.trace.Some?
    && !r.trace.value.status.TraceRunning?
    && TraceMatchesAttempt(r.trace.value, r.attempt)
  }

  /** A publication outcome that contradicts the attempt's own status. */
  predicate Contradictory(a: Attempt) {
    && (a.status.AttemptSucceeded? || a.status.AttemptFailed?)
    && (a.publicationOutcome == Some(StaleBasis) || a.publicationOutcome == Some(SupersededByManual))
  }

  predicate TraceSettled(r: Rows) {
    && r.trace.Some?
    && !r.trace.value.status.TraceRunning?
    && TraceMatchesAttempt(r.trace.value, r.attempt)
  }

  /** When recovery can succeed: unless the attempt contradicts itself and the trace does not already agree with it. */
  predicate Recoverable(r: Rows) {
    AttemptLive(r.attempt) || !Contradictory(r.attempt) || TraceSettled(r)
  }

  lemma ConvergedIsFixed(r: Rows, inputs: Inputs, now: Instant)
    requires Converged(r)
    ensures Recover(r, inputs, now) == r
  {
  }

  /**
   Two recoveries of an attempt past the cutoff reach a state where the three rows agree, exactly when
   the attempt's publication outcome does not contradict its status, or the trace already agreed.
   */
  lemma TwoRecoveriesConverge(r: Rows, first: Inputs, second: Inputs, t1: Instant, t2: Instant)
    requires PastCutoff(r.attempt, t1)
    ensures Converged(Recover(Recover(r, first, t1), second, t2)) <==> Recoverable(r)
  {
    var once := Recover(r, first, t1);
    assert !AttemptLive(once.attempt) && once.trace.Some? && !once.trace.value.status.TraceRunning?;
    assert Recoverable(once) <==> Recoverable(r);
  }

  type Call = (Inputs, Instant)

  function RecoverAll(r: Rows, calls: seq<Call>): Rows
    decreases |calls|
  {
    if calls == [] then r else RecoverAll(Recover(r, calls[0].0, calls[0].1), calls[1..])
  }

  /** From two recoveries on nothing changes any more, however often recovery is repeated. */
  lemma {:induction false} RecoveryReachesAFixedPoint(r: Rows, calls: seq<Call>)
    requires Recoverable(r) && |calls| >= 2 && PastCutoff(r.attempt, calls[0].1)
    ensures RecoverAll(r, calls) == RecoverAll(r, calls[..2]) && Converged(RecoverAll(r, calls))
  {
    var once := Recover(r, calls[0].0, calls[0].1);
    var twice := Recover(once, calls[1].0, calls[1].1);
    TwoRecoveriesConverge(r, calls[0].0, calls[1].0, calls[0].1, calls[1].1);
    assert calls[..2][1..] == [calls[1]] && [calls[1]][1..] == [];
    assert RecoverAll(once, [calls[1]]) == RecoverAll(twice, []);
    assert RecoverAll(r, calls[..2]) == twice;
    assert RecoverAll(r, calls) == RecoverAll(twice, calls[1..][1..]);
    StaysConverged(twice, calls[1..][1..]);
  }

  lemma {:induction false} StaysConverged(r: Rows, calls: seq<Call>)
    requires Converged(r)
    ensures RecoverAll(r, calls) == r
    decreases |calls|
  {
    if calls != [] {
      ConvergedIsFixed(r, calls[0].0, calls[0].1);
      StaysConverged(r, calls[1..]);
    }
  }

  /** A contradictory attempt whose trace disagrees never converges, however often it is recovered. */
  lemma {:induction false} ContradictionNeverConverges(r: Rows, calls: seq<Call>)
    requires !Recoverable(r)
    ensures !Recoverable(RecoverAll(r, calls)) && !Converged(RecoverAll(r, calls))
    decreases |calls|
  {
    if calls != [] {
      assert !Recoverable(Recover(r, calls[0].0, calls[0].1));
      ContradictionNeverConverges(Recover(r, calls[0].0, calls[0].1), calls[1..]);
    }
  }

  // ---------------------------------------------------------------- frozen snapshots

  /** The snapshot a trace shows: its context digest and what it says the model was given. */
  ghost predicate SameSnapshot(a: Trace, b: Trace) {
    && a.contextDigest == b.contextDigest
    && a.p4 == b.p4
    && a.transcripts == b.transcripts
    && a.memories == b.memories
  }

  /**
   The first recovery settles the attempt: the rows do not contradict each other, and the attempt is past the cutoff, or
   has already ended, or has a finished trace to take its end from.
   */
  predicate SnapshotSafe(r: Rows, now: Instant) {
    && Recoverable(r)
    && (|| PastCutoff(r.attempt, now)
        || !AttemptLive(r.attempt)
        || (r.trace.Some? && !r.trace.value.status.TraceRunning?))
  }

  /** Either the snapshot is still marked frozen on a settled attempt, or nothing is left that would rebuild it. */
  ghost predicate SnapshotProtected(r: Rows) {
    && r.trace.Some? && Recoverable(r)
    && (!AttemptLive(r.attempt) || !r.trace.value.status.TraceRunning?)
    && (HasFrozenReferences(r.trace.value) || (TraceSettled(r) && !AttemptLive(r.attempt)))
  }

  lemma SafeRecoveryProtects(r: Rows, inputs: Inputs, now: Instant)
    requires r.trace.Some? && HasFrozenReferences(r.trace.value) && SnapshotSafe(r, now)
    ensures SnapshotProtected(Recover(r, inputs, now))
    ensures SameSnapshot(r.trace.value, Recover(r, inputs, now).trace.value)
  {
  }

  lemma ProtectedStays(r: Rows, inputs: Inputs, now: Instant)
    requires SnapshotProtected(r)
    ensures SnapshotProtected(Recover(r, inputs, now))
    ensures SameSnapshot(r.trace.value, Recover(r, inputs, now).trace.value)
  {
  }

  lemma {:induction false} ProtectedSurvives(r: Rows, calls: seq<Call>)
    requires SnapshotProtected(r)
    ensures KeepsSnapshot(r, calls)
    decreases |calls|
  {
    if calls != [] {
      ProtectedStays(r, calls[0].0, calls[0].1);
      ProtectedSurvives(Recover(r, calls[0].0, calls[0].1), calls[1..]);
    }
  }

  /** After these recoveries the trace still shows the snapshot it had. */
  ghost predicate KeepsSnapshot(r: Rows, calls: seq<Call>)
    requires r.trace.Some?
  {
    var after := RecoverAll(r, calls);
    after.trace.Some? && SameSnapshot(r.trace.value, after.trace.value)
  }

  /** A frozen snapshot survives any number of recoveries at any times, if it is safe at the first of them. */
  lemma FrozenSnapshotSurvives(r: Rows, calls: seq<Call>)
    requires r.trace.Some? && HasFrozenReferences(r.trace.value)
    requires calls != [] ==> SnapshotSafe(r, calls[0].1)
    ensures KeepsSnapshot(r, calls)
  {
    if calls != [] {
      SafeRecoveryProtects(r, calls[0].0, calls[0].1);
      ProtectedSurvives(Recover(r, calls[0].0, calls[0].1), calls[1..]);
    }
  }

  lemma TwoCalls(r: Rows, first: Call, second: Call)
    ensures RecoverAll(r, [first, second]) == Recover(Recover(r, first.0, first.1), second.0, second.1)
  {
    var once := Recover(r, first.0, first.1);
    assert [first, second][1..] == [second] && [second][1..] == [];
    assert RecoverAll(once, [second]) == RecoverAll(Recover(once, second.0, second.1), []);
  }

  /** Two recoveries keep a frozen snapshot exactly when it is safe, unless the inputs rebuild the same one by chance. */
  lemma SecondRecoveryDecides(r: Rows, first: Call, second: Call)
    requires r.trace.Some? && HasFrozenReferences(r.trace.value)
    requires ContextItems(second.0) != r.trace.value.p4
    ensures KeepsSnapshot(r, [first, second]) <==> SnapshotSafe(r, first.1)
  {
    TwoCalls(r, first, second);
  }

  const NO_INPUTS := Inputs([], [], [], [], None, [], 0)

  lemma NothingToProject()
    ensures ContextItems(NO_INPUTS) == []
  {
    assert ScopeParts([]) == [] && MemoryParts([]) == [] && SegmentParts([]) == [];
    assert ActualParts([]) == [] && PresentationParts(None) == [] && BankParts([]) == [];
  }

  /** A frozen snapshot survives everything that may follow a recovery exactly when it is safe at that recovery. */
  lemma SnapshotSurvivesExactlyWhen(r: Rows, first: Call)
    requires r.trace.Some? && HasFrozenReferences(r.trace.value)
    ensures SnapshotSafe(r, first.1) <==> forall later: seq<Call> :: KeepsSnapshot(r, [first] + later)
  {
    if SnapshotSafe(r, first.1) {
      forall later: seq<Call> ensures KeepsSnapshot(r, [first] + later) {
        FrozenSnapshotSurvives(r, [first] + later);
      }
    } else {
      NothingToProject();
      SecondRecoveryDecides(r, first, (NO_INPUTS, first.1));
      assert [first] + [(NO_INPUTS, first.1)] == [first, (NO_INPUTS, first.1)];
    }
  }

  /** An attempt recovered before the cutoff, while still live, loses its frozen snapshot at the next recovery. */
  lemma YoungAttemptLosesSnapshot(r: Rows, first: Inputs, second: Inputs, t1: Instant, t2: Instant)
    requires AttemptLive(r.attempt) && !PastCutoff(r.attempt, t1)
    requires r.trace.Some? && r.trace.value.status.TraceRunning? && HasFrozenReferences(r.trace.value)
    ensures SameSnapshot(r.trace.value, Recover(r, first, t1).trace.value)
    ensures Recover(Recover(r, first, t1), second, t2).trace.value.p4 == ContextItems(second)
    ensures Recover(Recover(r, first, t1), second, t2).trace.value.contextDigest == Some(ContextDigest(ContextItems(second)))
  {
  }

  /** So does a contradictory one, at every recovery after the first. */
  lemma ContradictoryAttemptLosesSnapshot(r: Rows, first: Inputs, second: Inputs, t1: Instant, t2: Instant)
    requires !Recoverable(r) && r.trace.Some? && HasFrozenReferences(r.trace.value)
    ensures SameSnapshot(r.trace.value, Recover(r, first, t1).trace.value)
    ensures Recover(Recover(r, first, t1), second, t2).trace.value.p4 == ContextItems(second)
  {
  }

  // ---------------------------------------------------------------- all writers together

  datatype Write =
    | RecoverCall(inputs: Inputs, now: Instant)
    | FinalizeCall(result: FinalResult, invoked: bool, completedAt: Instant)
    | AttachCall(items: seq<P4Item>, contextDigest: Option<Digest>)

  function Written(r: Rows, w: Write): Rows
    requires w.FinalizeCall? ==> !w.result.status.TraceRunning?
  {
    match w
    case RecoverCall(inputs, now) => Recover(r, inputs, now)
    case FinalizeCall(result, invoked, completedAt) =>
      var after := Finalized(r.trace, result, invoked, completedAt);
      if after.Some? then r.(trace := after) else r
    case AttachCall(items, contextDigest) =>
      var after := Attached(r.trace, items, contextDigest);
      if after.Some? then r.(trace := after) else r
  }

  /** Once the rows have converged no writer changes them again. */
  lemma ConvergedAbsorbs(r: Rows, w: Write)
    requires Converged(r) && (w.FinalizeCall? ==> !w.result.status.TraceRunning?)
    ensures Written(r, w) == r
  {
  }

  function ContextParts(inputs: Inputs): seq<Part> {
    ScopeParts(inputs.scopes) + MemoryParts(inputs.memories) + SegmentParts(inputs.segments)
    + ActualParts(inputs.actualQuestions) + PresentationParts(inputs.presentation) + BankParts(inputs.bank)
  }

  lemma {:induction false} PushPlaces(p4: seq<P4Item>, parts: seq<Part>)
    ensures var r := Push(p4, parts);
            && |r| == |p4| + |parts| && r[..|p4|] == p4
            && forall i :: 0 <= i < |parts| ==> r[|p4| + i] == Placed(parts[i], |p4| + i)
    decreases |parts|
  {
    if parts != [] {
      var next := p4 + [Placed(parts[0], |p4|)];
      PushPlaces(next, parts[1..]);
      var r := Push(next, parts[1..]);
      assert r[..|p4|] == r[..|next|][..|p4|] == p4;
      assert r[|p4|] == r[..|next|][|p4|];
      forall i | 0 < i < |parts| ensures r[|p4| + i] == Placed(parts[i], |p4| + i) {
        assert r[|next| + (i - 1)] == Placed(parts[1..][i - 1], |next| + (i - 1));
      }
    }
  }

  lemma {:induction false} PushTwice(p4: seq<P4Item>, xs: seq<Part>, ys: seq<Part>)
    ensures Push(p4, xs + ys) == Push(Push(p4, xs), ys)
    decreases |xs|
  {
    if xs == [] {
      assert xs + ys == ys;
    } else {
      assert (xs + ys)[1..] == xs[1..] + ys;
      PushTwice(p4 + [Placed(xs[0], |p4|)], xs[1..], ys);
    }
  }

  lemma ContextIsPushed(inputs: Inputs)
    ensures ContextItems(inputs) == Push([], ContextParts(inputs))
  {
    PushSix(ScopeParts(inputs.scopes), MemoryParts(inputs.memories), SegmentParts(inputs.segments),
            ActualParts(inputs.actualQuestions), PresentationParts(inputs.presentation), BankParts(inputs.bank));
  }

  /** The rebuilt context holds every input once, in section order, numbered 0, 1, 2, ... */
  lemma ContextItemsAreDense(inputs: Inputs)
    ensures var items, parts := ContextItems(inputs), ContextParts(inputs);
            |items| == |parts| && forall i :: 0 <= i < |items| ==> items[i] == Placed(parts[i], i)
  {
    ContextIsPushed(inputs);
    PushedIsDense(ContextParts(inputs));
  }

  lemma {:induction false} PushedIsDense(parts: seq<Part>)
    ensures var items := Push([], parts);
            |items| == |parts| && forall i :: 0 <= i < |items| ==> items[i] == Placed(parts[i], i)
  {
    PushPlaces([], parts);
  }

  lemma {:induction false} PushSix(a: seq<Part>, b: seq<Part>, c: seq<Part>, d: seq<Part>, e: seq<Part>, f: seq<Part>)
    ensures Push([], a + b + c + d + e + f) == Push(Push(Push(Push(Push(Push([], a), b), c), d), e), f)
  {
    PushTwice([], a, b);
    PushTwice([], a + b, c);
    PushTwice([], a + b + c, d);
    PushTwice([], a + b + c + d, e);
    PushTwice([], a + b + c + d + e, f);
  }
}
