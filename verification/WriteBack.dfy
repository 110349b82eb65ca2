/**
 Optimistic write-back of AI jobs. A transaction checks that nothing the job was given has drifted, writes its rows and
 moves the job to succeeded. Its locks keep other write-backs of the project out, but not the services that edit what was
 checked, nor those that fail or cancel the job.
 */
module WriteBack {
  import opened Options

  type Id = nat

  datatype Role = Elder | Interviewer | OtherRole

  datatype Segment = Segment(
    sessionId: Id, textRevision: int, speakerRoleRevision: int, conversation: bool, role: Role, textDigest: nat)

  /** `usable` stands for provenance, blocked keys and eligibility, which are checked elsewhere. */
  datatype Resolution = Resolution(projectId: Id, current: bool, revision: int, usable: bool)

  datatype Watermark = Watermark(startMs: int, segmentId: Id)

  /** A session with its last transcript segment. */
  datatype Session = Session(speakerRoleRevision: int, latest: Option<Watermark>)

  /** `usable` stands for the published, judgeable, succeeded and eligible analysis. */
  datatype Question = Question(digest: nat, analysisId: Id, analysisRevision: int, usable: bool)

  datatype FrozenSegment = FrozenSegment(segmentId: Id, frozen: Segment)
  datatype FrozenMemory = FrozenMemory(resolutionId: Id, revision: int)
  datatype FrozenScope = FrozenScope(sessionId: Id, speakerRoleRevision: int, latest: Option<Watermark>)
  datatype FrozenQuestion = FrozenQuestion(questionId: Id, digest: nat, analysisId: Id, analysisRevision: int)

  datatype Status = Pending | Running | Succeeded | Failed | Cancelled

  datatype Drift =
    | JobNotRunning | PolicyDrift | SessionScopeDrift | WatermarkDrift | InputDrift | MemoryInputDrift
    | ActualQuestionInputDrift

  datatype FailureCode = Drifted(drift: Drift) | Interrupted | WriteBackFailed

  /** The stored job with its session scopes. */
  datatype Job = Job(status: Status, maintainer: bool, inputHash: nat, scopes: seq<FrozenScope>, failureCode: Option<FailureCode>)

  /** The job as its worker holds it; `consumed` are the segments a maintainer's write marks as consumed. */
  datatype Held = Held(
    projectId: Id, sessionIds: seq<Id>, policyRevision: int, inputHash: nat, segments: seq<FrozenSegment>,
    consumed: set<Id>, memories: seq<FrozenMemory>, questions: seq<FrozenQuestion>)

  /**
   `checking` holds the transactions that have passed the drift check, `thrown` the failed write-backs whose handler has
   not yet looked at the job, and `failing` the handlers that saw the job running and are about to fail it.
   */
  datatype World = World(
    jobs: map<Id, Job>, transcripts: map<Id, Segment>, resolutions: map<Id, Resolution>, sessions: map<Id, Session>,
    questions: map<Id, Question>, written: set<Id>, checking: map<Id, Held>, thrown: multiset<Id>, failing: multiset<Id>)

  function Lookup<T>(table: map<Id, T>, id: Id): Option<T> {
    if id in table then Some(table[id]) else None
  }

  function Edited<T>(table: map<Id, T>, id: Id, value: Option<T>): map<Id, T> {
    if value.Some? then table[id := value.value] else table - {id}
  }

  // ---------------------------------------------------------------- the drift check

  predicate SegmentHolds(f: FrozenSegment, current: Option<Segment>) {
    current == Some(f.frozen)
  }

  predicate MemoryHolds(f: FrozenMemory, current: Option<Resolution>) {
    current.Some? && current.value.current && current.value.revision == f.revision && current.value.usable
  }

  /** A maintainer job does not mind segments that arrived since. */
  predicate ScopeHolds(maintainer: bool, f: FrozenScope, current: Option<Session>) {
    && current.Some?
    && current.value.speakerRoleRevision == f.speakerRoleRevision
    && (maintainer || current.value.latest == f.latest)
  }

  predicate QuestionHolds(f: FrozenQuestion, current: Option<Question>) {
    && current.Some?
    && current.value.digest == f.digest && current.value.analysisId == f.analysisId
    && current.value.analysisRevision == f.analysisRevision && current.value.usable
  }

  predicate InputsUnchanged(w: World, job: Job, held: Held) {
    && (forall s :: s in job.scopes ==> ScopeHolds(job.maintainer, s, Lookup(w.sessions, s.sessionId)))
    && (forall s :: s in held.segments ==> SegmentHolds(s, Lookup(w.transcripts, s.segmentId)))
    && (forall m :: m in held.memories ==> MemoryHolds(m, Lookup(w.resolutions, m.resolutionId)))
    && (forall q :: q in held.questions ==> QuestionHolds(q, Lookup(w.questions, q.questionId)))
  }

  /** The first drift found, in the order the checks are made; `policy` is the policy's revision, or None if it refuses. */
  function FindDrift(w: World, id: Id, held: Held, policy: Option<int>): Option<Drift> {
    if id !in w.jobs || !w.jobs[id].status.Running? || w.jobs[id].inputHash != held.inputHash then Some(JobNotRunning)
    else
      var job := w.jobs[id];
      if policy != Some(held.policyRevision) then Some(PolicyDrift)
      else if |job.scopes| != |held.sessionIds| then Some(SessionScopeDrift)
      else if exists s :: s in job.scopes && !ScopeHolds(job.maintainer, s, Lookup(w.sessions, s.sessionId)) then
        Some(WatermarkDrift)
      else if exists s :: s in held.segments && !SegmentHolds(s, Lookup(w.transcripts, s.segmentId)) then Some(InputDrift)
      else if exists m :: m in held.memories && !MemoryHolds(m, Lookup(w.resolutions, m.resolutionId)) then
        Some(MemoryInputDrift)
      else if exists q :: q in held.questions && !QuestionHolds(q, Lookup(w.questions, q.questionId)) then
        Some(ActualQuestionInputDrift)
      else None
  }

  /** The loops of the check over scopes, segments, memories and questions. */
  method CheckDrift(w: World, id: Id, held: Held, policy: Option<int>) returns (drift: Option<Drift>)
    ensures drift == FindDrift(w, id, held, policy)
    ensures drift.None? <==>
            && id in w.jobs && w.jobs[id].status.Running? && w.jobs[id].inputHash == held.inputHash
            && policy == Some(held.policyRevision) && |w.jobs[id].scopes| == |held.sessionIds|
            && InputsUnchanged(w, w.jobs[id], held)
  {
    if id !in w.jobs || !w.jobs[id].status.Running? || w.jobs[id].inputHash != held.inputHash { return Some(JobNotRunning); }
    var job := w.jobs[id];
    if policy != Some(held.policyRevision) { return Some(PolicyDrift); }
    if |job.scopes| != |held.sessionIds| { return Some(SessionScopeDrift); }
    for i := 0 to |job.scopes|
      invariant forall k :: 0 <= k < i ==> ScopeHolds(job.maintainer, job.scopes[k], Lookup(w.sessions, job.scopes[k].sessionId))
    {
      if !ScopeHolds(job.maintainer, job.scopes[i], Lookup(w.sessions, job.scopes[i].sessionId)) { return Some(WatermarkDrift); }
    }
    for i := 0 to |held.segments|
      invariant forall k :: 0 <= k < i ==> SegmentHolds(held.segments[k], Lookup(w.transcripts, held.segments[k].segmentId))
    {
      if !SegmentHolds(held.segments[i], Lookup(w.transcripts, held.segments[i].segmentId)) { return Some(InputDrift); }
    }
    for i := 0 to |held.memories|
      invariant forall k :: 0 <= k < i ==> MemoryHolds(held.memories[k], Lookup(w.resolutions, held.memories[k].resolutionId))
    {
      if !MemoryHolds(held.memories[i], Lookup(w.resolutions, held.memories[i].resolutionId)) { return Some(MemoryInputDrift); }
    }
    for i := 0 to |held.questions|
      invariant forall k :: 0 <= k < i ==> QuestionHolds(held.questions[k], Lookup(w.questions, held.questions[k].questionId))
    {
      if !QuestionHolds(held.questions[i], Lookup(w.questions, held.questions[i].questionId)) {
        return Some(ActualQuestionInputDrift);
      }
    }
    return None;
  }

  // ---------------------------------------------------------------- steps

  datatype Step =
    | Begin(id: Id, held: Held, policy: Option<int>, drift: Option<Drift>)
    | Finish(id: Id, writeSucceeds: bool)
    | ObserveFailure(id: Id)
    | MarkFailed(id: Id)
    | EndLive(id: Id, status: Status)
    | EditSegment(segmentId: Id, segment: Option<Segment>)
    | EditResolution(resolutionId: Id, resolution: Option<Resolution>)
    | EditSession(sessionId: Id, session: Option<Session>)
    | EditQuestion(questionId: Id, question: Option<Question>)

  predicate Live(status: Status) {
    status.Pending? || status.Running?
  }

  /**
   A write-back begins with what the check finds. Write-backs of one project wait for each other; nothing else waits for
   a write-back.
   */
  ghost predicate Allowed(w: World, step: Step) {
    match step
    case Begin(id, held, policy, drift) =>
      && drift == FindDrift(w, id, held, policy)
      && id !in w.checking
      && forall k :: k in w.checking ==> w.checking[k].projectId != held.projectId
    case Finish(id, _) => id in w.checking
    case ObserveFailure(id) => id in w.thrown
    case MarkFailed(id) => id in w.failing
    case EndLive(_, status) => status.Failed? || status.Cancelled?
    case _ => true
  }

  predicate IsRunning(w: World, id: Id) {
    id in w.jobs && w.jobs[id].status.Running?
  }

  predicate Passes(step: Step) {
    step.Begin? && step.drift.None?
  }

  /** What the database compares again when the transaction commits: the text revision of every consumed segment. */
  predicate ConsumedHold(w: World, held: Held) {
    forall f :: f in held.segments && f.segmentId in held.consumed ==>
      var current := Lookup(w.transcripts, f.segmentId);
      && current.Some?
      && current.value.sessionId == f.frozen.sessionId && current.value.textRevision == f.frozen.textRevision
  }

  /** The guarded update of the job, the write and the check at the commit all go through. */
  predicate Commits(w: World, step: Step) {
    && step.Finish? && step.writeSucceeds && IsRunning(w, step.id)
    && step.id in w.checking && ConsumedHold(w, w.checking[step.id])
  }

  function WithStatus(jobs: map<Id, Job>, id: Id, status: Status, code: Option<FailureCode>): map<Id, Job>
    requires id in jobs
  {
    jobs[id := jobs[id].(status := status, failureCode := code)]
  }

  /** Only the failure handler writes a status without looking at the one that is there. */
  function NextJobs(w: World, step: Step): map<Id, Job> {
    match step
    case Begin(id, _, _, drift) =>
      if drift.Some? && IsRunning(w, id) then WithStatus(w.jobs, id, Cancelled, Some(Drifted(drift.value))) else w.jobs
    case Finish(id, _) => if Commits(w, step) then WithStatus(w.jobs, id, Succeeded, None) else w.jobs
    case MarkFailed(id) => if id in w.jobs then WithStatus(w.jobs, id, Failed, Some(WriteBackFailed)) else w.jobs
    case EndLive(id, status) =>
      if id in w.jobs && Live(w.jobs[id].status) then WithStatus(w.jobs, id, status, Some(Interrupted)) else w.jobs
    case _ => w.jobs
  }

  function NextChecking(w: World, step: Step): map<Id, Held> {
    if Passes(step) then w.checking[step.id := step.held]
    else if step.Finish? then w.checking - {step.id} else w.checking
  }

  /** A transaction that found drift or did not commit throws. */
  function NextThrown(w: World, step: Step): multiset<Id> {
    match step
    case Begin(id, _, _, _) => if Passes(step) then w.thrown else w.thrown + multiset{id}
    case Finish(id, _) => if Commits(w, step) then w.thrown else w.thrown + multiset{id}
    case ObserveFailure(id) => w.thrown - multiset{id}
    case _ => w.thrown
  }

  function NextFailing(w: World, step: Step): multiset<Id> {
    match step
    case ObserveFailure(id) => if IsRunning(w, id) then w.failing + multiset{id} else w.failing
    case MarkFailed(id) => w.failing - multiset{id}
    case _ => w.failing
  }

  function Next(w: World, step: Step): World {
    World(
      NextJobs(w, step),
      if step.EditSegment? then Edited(w.transcripts, step.segmentId, step.segment) else w.transcripts,
      if step.EditResolution? then Edited(w.resolutions, step.resolutionId, step.resolution) else w.resolutions,
      if step.EditSession? then Edited(w.sessions, step.sessionId, step.session) else w.sessions,
      if step.EditQuestion? then Edited(w.questions, step.questionId, step.question) else w.questions,
      if Commits(w, step) then w.written + {step.id} else w.written,
      NextChecking(w, step), NextThrown(w, step), NextFailing(w, step))
  }

  // ---------------------------------------------------------------- runs

  /** The n-th step was allowed and leads to the next world. */
  ghost predicate Moves(worlds: seq<World>, steps: seq<Step>, n: nat)
    requires n < |steps| && |worlds| == |steps| + 1
  {
    Allowed(worlds[n], steps[n]) && worlds[n + 1] == Next(worlds[n], steps[n])
  }

  /** A run: the worlds before, between and after its steps. */
  ghost predicate IsRun(worlds: seq<World>, steps: seq<Step>) {
    && |worlds| == |steps| + 1
    && forall n: nat {:trigger Moves(worlds, steps, n)} :: n < |steps| ==> Moves(worlds, steps, n)
  }

  // ---------------------------------------------------------------- what happens between check and commit

  /** What the last edit among steps a to b wrote to the segment, if there is one; None stands for its removal. */
  function LastSegment(steps: seq<Step>, a: nat, b: nat, id: Id): Option<Option<Segment>>
    requires a <= b <= |steps|
  {
    if a == b then None
    else if steps[b - 1].EditSegment? && steps[b - 1].segmentId == id then Some(steps[b - 1].segment)
    else LastSegment(steps, a, b - 1, id)
  }

  function LastResolution(steps: seq<Step>, a: nat, b: nat, id: Id): Option<Option<Resolution>>
    requires a <= b <= |steps|
  {
    if a == b then None
    else if steps[b - 1].EditResolution? && steps[b - 1].resolutionId == id then Some(steps[b - 1].resolution)
    else LastResolution(steps, a, b - 1, id)
  }

  function LastSession(steps: seq<Step>, a: nat, b: nat, id: Id): Option<Option<Session>>
    requires a <= b <= |steps|
  {
    if a == b then None
    else if steps[b - 1].EditSession? && steps[b - 1].sessionId == id then Some(steps[b - 1].session)
    else LastSession(steps, a, b - 1, id)
  }

  function LastQuestion(steps: seq<Step>, a: nat, b: nat, id: Id): Option<Option<Question>>
    requires a <= b <= |steps|
  {
    if a == b then None
    else if steps[b - 1].EditQuestion? && steps[b - 1].questionId == id then Some(steps[b - 1].question)
    else LastQuestion(steps, a, b - 1, id)
  }

  predicate LeavesScope(maintainer: bool, f: FrozenScope, steps: seq<Step>, a: nat, b: nat)
    requires a <= b <= |steps|
  {
    var last := LastSession(steps, a, b, f.sessionId);
    last.Some? ==> ScopeHolds(maintainer, f, last.value)
  }

  predicate LeavesSegment(f: FrozenSegment, steps: seq<Step>, a: nat, b: nat)
    requires a <= b <= |steps|
  {
    var last := LastSegment(steps, a, b, f.segmentId);
    last.Some? ==> SegmentHolds(f, last.value)
  }

  predicate LeavesMemory(f: FrozenMemory, steps: seq<Step>, a: nat, b: nat)
    requires a <= b <= |steps|
  {
    var last := LastResolution(steps, a, b, f.resolutionId);
    last.Some? ==> MemoryHolds(f, last.value)
  }

  predicate LeavesQuestion(f: FrozenQuestion, steps: seq<Step>, a: nat, b: nat)
    requires a <= b <= |steps|
  {
    var last := LastQuestion(steps, a, b, f.questionId);
    last.Some? ==> QuestionHolds(f, last.value)
  }

  /** The last edit of each frozen input among these steps, if there is one, leaves the input as it was frozen. */
  predicate LeavesUnchanged(job: Job, held: Held, steps: seq<Step>, a: nat, b: nat)
    requires a <= b <= |steps|
  {
    && (forall s :: s in job.scopes ==> LeavesScope(job.maintainer, s, steps, a, b))
    && (forall s :: s in held.segments ==> LeavesSegment(s, steps, a, b))
    && (forall m :: m in held.memories ==> LeavesMemory(m, steps, a, b))
    && (forall q :: q in held.questions ==> LeavesQuestion(q, steps, a, b))
  }

  lemma StepSegment(w: World, step: Step, id: Id)
    ensures Lookup(Next(w, step).transcripts, id)
            == if step.EditSegment? && step.segmentId == id then step.segment else Lookup(w.transcripts, id)
  {
  }

  lemma {:induction false} LastSegmentDecides(worlds: seq<World>, steps: seq<Step>, a: nat, b: nat, id: Id)
    requires IsRun(worlds, steps) && a <= b <= |steps|
    ensures Lookup(worlds[b].transcripts, id)
            == LastSegment(steps, a, b, id).GetOr(Lookup(worlds[a].transcripts, id))
  {
    if a < b {
      LastSegmentDecides(worlds, steps, a, b - 1, id);
      assert Moves(worlds, steps, b - 1);
      StepSegment(worlds[b - 1], steps[b - 1], id);
    }
  }

  lemma StepResolution(w: World, step: Step, id: Id)
    ensures Lookup(Next(w, step).resolutions, id)
            == if step.EditResolution? && step.resolutionId == id then step.resolution else Lookup(w.resolutions, id)
  {
  }

  lemma {:induction false} LastResolutionDecides(worlds: seq<World>, steps: seq<Step>, a: nat, b: nat, id: Id)
    requires IsRun(worlds, steps) && a <= b <= |steps|
    ensures Lookup(worlds[b].resolutions, id)
            == LastResolution(steps, a, b, id).GetOr(Lookup(worlds[a].resolutions, id))
  {
    if a < b {
      LastResolutionDecides(worlds, steps, a, b - 1, id);
      assert Moves(worlds, steps, b - 1);
      StepResolution(worlds[b - 1], steps[b - 1], id);
    }
  }

  lemma StepSession(w: World, step: Step, id: Id)
    ensures Lookup(Next(w, step).sessions, id)
            == if step.EditSession? && step.sessionId == id then step.session else Lookup(w.sessions, id)
  {
  }

  lemma {:induction false} LastSessionDecides(worlds: seq<World>, steps: seq<Step>, a: nat, b: nat, id: Id)
    requires IsRun(worlds, steps) && a <= b <= |steps|
    ensures Lookup(worlds[b].sessions, id)
            == LastSession(steps, a, b, id).GetOr(Lookup(worlds[a].sessions, id))
  {
    if a < b {
      LastSessionDecides(worlds, steps, a, b - 1, id);
      assert Moves(worlds, steps, b - 1);
      StepSession(worlds[b - 1], steps[b - 1], id);
    }
  }

  lemma StepQuestion(w: World, step: Step, id: Id)
    ensures Lookup(Next(w, step).questions, id)
            == if step.EditQuestion? && step.questionId == id then step.question else Lookup(w.questions, id)
  {
  }

  lemma {:induction false} LastQuestionDecides(worlds: seq<World>, steps: seq<Step>, a: nat, b: nat, id: Id)
    requires IsRun(worlds, steps) && a <= b <= |steps|
    ensures Lookup(worlds[b].questions, id)
            == LastQuestion(steps, a, b, id).GetOr(Lookup(worlds[a].questions, id))
  {
    if a < b {
      LastQuestionDecides(worlds, steps, a, b - 1, id);
      assert Moves(worlds, steps, b - 1);
      StepQuestion(worlds[b - 1], steps[b - 1], id);
    }
  }

  /** Inputs that were unchanged are still unchanged some steps later exactly when no last edit left one changed. */
  lemma {:induction false} UnchangedExactlyWhen(worlds: seq<World>, steps: seq<Step>, a: nat, b: nat, job: Job, held: Held)
    requires IsRun(worlds, steps) && a <= b <= |steps| && InputsUnchanged(worlds[a], job, held)
    ensures InputsUnchanged(worlds[b], job, held) <==> LeavesUnchanged(job, held, steps, a, b)
  {
    var before, after := worlds[a], worlds[b];
    forall s | s in job.scopes
      ensures ScopeHolds(job.maintainer, s, Lookup(after.sessions, s.sessionId))
              <==> LeavesScope(job.maintainer, s, steps, a, b)
    {
      LastSessionDecides(worlds, steps, a, b, s.sessionId);
    }
    forall s | s in held.segments
      ensures SegmentHolds(s, Lookup(after.transcripts, s.segmentId)) <==> LeavesSegment(s, steps, a, b)
    {
      LastSegmentDecides(worlds, steps, a, b, s.segmentId);
    }
    forall m | m in held.memories
      ensures MemoryHolds(m, Lookup(after.resolutions, m.resolutionId)) <==> LeavesMemory(m, steps, a, b)
    {
      LastResolutionDecides(worlds, steps, a, b, m.resolutionId);
    }
    forall q | q in held.questions
      ensures QuestionHolds(q, Lookup(after.questions, q.questionId)) <==> LeavesQuestion(q, steps, a, b)
    {
      LastQuestionDecides(worlds, steps, a, b, q.questionId);
    }
  }

  /** What is fixed when a job is frozen. */
  predicate SameFrozen(a: Job, b: Job) {
    a.maintainer == b.maintainer && a.inputHash == b.inputHash && a.scopes == b.scopes
  }

  predicate FrozenAs(w: World, k: Id, job: Job) {
    k in w.jobs && SameFrozen(job, w.jobs[k])
  }

  lemma StepKeepsFrozen(w: World, step: Step, k: Id, job: Job)
    requires FrozenAs(w, k, job)
    ensures FrozenAs(Next(w, step), k, job)
  {
  }

  lemma {:induction false} RunKeepsFrozen(worlds: seq<World>, steps: seq<Step>, a: nat, b: nat, k: Id, job: Job)
    requires IsRun(worlds, steps) && a <= b <= |steps| && FrozenAs(worlds[a], k, job)
    ensures FrozenAs(worlds[b], k, job)
  {
    if a < b {
      RunKeepsFrozen(worlds, steps, a, b - 1, k, job);
      assert Moves(worlds, steps, b - 1);
      StepKeepsFrozen(worlds[b - 1], steps[b - 1], k, job);
    }
  }

  lemma StepOpens(w: World, step: Step, k: Id)
    requires Allowed(w, step) && k in Next(w, step).checking
    ensures if k in w.checking then Next(w, step).checking[k] == w.checking[k]
            else step.Begin? && step.id == k && step.held == Next(w, step).checking[k] && step.drift.None?
  {
  }

  /** The check with which a transaction began that is still open. */
  lemma {:induction false} OpenHasBegun(worlds: seq<World>, steps: seq<Step>, n: nat, k: Id) returns (i: nat)
    requires IsRun(worlds, steps) && n <= |steps| && k !in worlds[0].checking && k in worlds[n].checking
    ensures i < n && steps[i].Begin? && steps[i].id == k && steps[i].held == worlds[n].checking[k]
    ensures steps[i].drift.None?
  {
    assert Moves(worlds, steps, n - 1);
    StepOpens(worlds[n - 1], steps[n - 1], k);
    if k in worlds[n - 1].checking {
      i := OpenHasBegun(worlds, steps, n - 1, k);
    } else {
      i := n - 1;
    }
  }

  /** The job's transaction is open, and finishing it makes the running job succeeded together with its rows. */
  ghost predicate CommitsJob(w: World, k: Id) {
    && k in w.checking && IsRunning(w, k) && ConsumedHold(w, w.checking[k])
    && var after := Next(w, Finish(k, true));
    k in after.jobs && after.jobs[k].status.Succeeded? && k in after.written
  }

  lemma StepWrites(w: World, step: Step, k: Id)
    requires Allowed(w, step) && k !in w.written && k in Next(w, step).written
    ensures step == Finish(k, true) && k in w.checking && IsRunning(w, k) && ConsumedHold(w, w.checking[k])
  {
  }

  lemma FinishCommits(w: World, k: Id)
    requires k in w.checking && IsRunning(w, k) && ConsumedHold(w, w.checking[k])
    ensures CommitsJob(w, k)
  {
  }

  /** The commit that wrote a job's rows. */
  lemma {:induction false} WrittenByFinish(worlds: seq<World>, steps: seq<Step>, n: nat, k: Id) returns (j: nat)
    requires IsRun(worlds, steps) && n <= |steps| && k !in worlds[0].written && k in worlds[n].written
    ensures j < n && steps[j] == Finish(k, true) && CommitsJob(worlds[j], k)
  {
    assert Moves(worlds, steps, n - 1);
    if k in worlds[n - 1].written {
      j := WrittenByFinish(worlds, steps, n - 1, k);
    } else {
      j := n - 1;
      StepWrites(worlds[j], steps[j], k);
      FinishCommits(worlds[j], k);
    }
  }

  /** The check saw the job running and every input unchanged. */
  predicate SeenUnchanged(w: World, k: Id, held: Held) {
    IsRunning(w, k) && InputsUnchanged(w, w.jobs[k], held)
  }

  /** A check that finds no drift leaves the world as it saw it. */
  lemma CheckHolds(w: World, begin: Step, k: Id)
    requires begin.Begin? && begin.id == k && Allowed(w, begin) && begin.drift.None?
    ensures SeenUnchanged(w, k, begin.held)
    ensures FrozenAs(Next(w, begin), k, w.jobs[k]) && InputsUnchanged(Next(w, begin), w.jobs[k], begin.held)
  {
  }

  /**
   If rows of a job appear in a run, then a check at some step found every input unchanged, and at a later step, with
   the transaction open since, the job was running and became succeeded together with its rows. At that step every
   consumed segment still has the text revision it was frozen with, and all inputs are still unchanged exactly when no
   edit made in between leaves one of them changed.
   */
  lemma {:induction false} CommitsWereChecked(worlds: seq<World>, steps: seq<Step>, k: Id) returns (i: nat, j: nat)
    requires IsRun(worlds, steps)
    requires k !in worlds[0].checking && k !in worlds[0].written && k in worlds[|steps|].written
    ensures i < j < |steps| && steps[i].Begin? && steps[i].id == k && steps[j] == Finish(k, true)
    ensures var checked, committed, held := worlds[i], worlds[j], steps[i].held;
            && SeenUnchanged(checked, k, held)
            && CommitsJob(committed, k) && committed.checking[k] == held && ConsumedHold(committed, held)
            && (InputsUnchanged(committed, committed.jobs[k], held)
                <==> LeavesUnchanged(checked.jobs[k], held, steps, i + 1, j))
  {
    j := WrittenByFinish(worlds, steps, |steps|, k);
    i := OpenHasBegun(worlds, steps, j, k);
    CheckedToCommitted(worlds, steps, i, j, k);
  }

  lemma {:induction false} CheckedToCommitted(worlds: seq<World>, steps: seq<Step>, i: nat, j: nat, k: Id)
    requires IsRun(worlds, steps) && i < j <= |steps|
    requires steps[i].Begin? && steps[i].id == k && steps[i].drift.None?
    ensures SeenUnchanged(worlds[i], k, steps[i].held)
    ensures var job, committed, held := worlds[i].jobs[k], worlds[j], steps[i].held;
            && k in committed.jobs
            && (InputsUnchanged(committed, committed.jobs[k], held) <==> LeavesUnchanged(job, held, steps, i + 1, j))
  {
    assert Moves(worlds, steps, i);
    CheckHolds(worlds[i], steps[i], k);
    var job := worlds[i].jobs[k];
    RunKeepsFrozen(worlds, steps, i + 1, j, k, job);
    UnchangedExactlyWhen(worlds, steps, i + 1, j, job, steps[i].held);
    SameFrozenSameInputs(worlds[j], job, worlds[j].jobs[k], steps[i].held);
  }

  lemma SameFrozenSameInputs(w: World, a: Job, b: Job, held: Held)
    requires SameFrozen(a, b)
    ensures InputsUnchanged(w, a, held) <==> InputsUnchanged(w, b, held)
  {
  }

  // ---------------------------------------------------------------- statuses and rows

  /** A succeeded job has its rows. */
  ghost predicate Inv(w: World) {
    forall k :: k in w.jobs && w.jobs[k].status.Succeeded? ==> k in w.written
  }

  lemma StepKeepsInv(w: World, step: Step, k: Id)
    requires Inv(w) && Allowed(w, step) && k in w.jobs
    ensures Inv(Next(w, step)) && k in Next(w, step).jobs && (k in w.written ==> k in Next(w, step).written)
  {
  }

  /** How a job that has ended at one time may look at a later one. */
  ghost predicate EndedSafe(before: World, after: World, k: Id)
    requires k in before.jobs
  {
    && k in after.jobs && !Live(after.jobs[k].status)
    && (k in after.written <==> k in before.written)
    && after.failing[k] <= before.failing[k]
    && (after.jobs[k] == before.jobs[k] || (k in before.failing && after.jobs[k].status.Failed?))
  }

  lemma StepKeepsEnded(w: World, step: Step, k: Id)
    requires Allowed(w, step) && k in w.jobs && !Live(w.jobs[k].status)
    ensures EndedSafe(w, Next(w, step), k)
  {
    EndedJobRow(w, step, k);
  }

  lemma EndedJobRow(w: World, step: Step, k: Id)
    requires Allowed(w, step) && k in w.jobs && !Live(w.jobs[k].status)
    ensures k in NextJobs(w, step)
    ensures NextJobs(w, step)[k] == w.jobs[k]
            || (step == MarkFailed(k) && k in w.failing && NextJobs(w, step)[k].status.Failed?)
  {
  }

  /** Over any run a succeeded job has its rows, and rows stay. */
  lemma {:induction false} RunIsSafe(worlds: seq<World>, steps: seq<Step>, n: nat, k: Id)
    requires IsRun(worlds, steps) && n <= |steps| && Inv(worlds[0]) && k in worlds[0].jobs
    ensures Inv(worlds[n]) && k in worlds[n].jobs && (k in worlds[0].written ==> k in worlds[n].written)
  {
    if n > 0 {
      RunIsSafe(worlds, steps, n - 1, k);
      assert Moves(worlds, steps, n - 1);
      StepKeepsInv(worlds[n - 1], steps[n - 1], k);
    }
  }

  /**
   A job that has ended (the stale scan failed it, a drift cancelled it, or it committed) never gets rows afterwards, and
   it never changes again unless a failure handler had seen it running before; then it can only become failed.
   */
  lemma {:induction false} EndedJobsStay(worlds: seq<World>, steps: seq<Step>, m: nat, n: nat, k: Id)
    requires IsRun(worlds, steps) && m <= n <= |steps| && k in worlds[m].jobs && !Live(worlds[m].jobs[k].status)
    ensures EndedSafe(worlds[m], worlds[n], k)
    decreases n
  {
    if m < n {
      EndedJobsStay(worlds, steps, m, n - 1, k);
      assert Moves(worlds, steps, n - 1);
      StepKeepsEnded(worlds[n - 1], steps[n - 1], k);
    }
  }

  // ---------------------------------------------------------------- one write-back per job

  predicate BeginsJob(step: Step, k: Id) {
    step.Begin? && step.id == k
  }

  /** How often the first n steps begin a write-back of the job. */
  function Begins(steps: seq<Step>, n: nat, k: Id): nat
    requires n <= |steps|
  {
    if n == 0 then 0 else Begins(steps, n - 1, k) + (if BeginsJob(steps[n - 1], k) then 1 else 0)
  }

  /** No write-back of the job has begun. */
  ghost predicate Unbegun(w: World, k: Id) {
    && k in w.jobs && k !in w.checking && k !in w.thrown && k !in w.failing
    && (k in w.written <==> w.jobs[k].status.Succeeded?)
  }

  /** The job's only write-back is open, so no handler of it is at work. */
  ghost predicate OnlyOpen(w: World, k: Id) {
    && k in w.jobs && k in w.checking && k !in w.thrown && k !in w.failing
    && k !in w.written && !w.jobs[k].status.Succeeded?
  }

  /** The job's only write-back is over. */
  ghost predicate Over(w: World, k: Id) {
    && k in w.jobs && k !in w.checking && (k in w.written <==> w.jobs[k].status.Succeeded?)
    && (w.jobs[k].status.Succeeded? ==> k !in w.failing)
  }

  lemma UnbegunStep(w: World, step: Step, k: Id)
    requires Allowed(w, step) && Unbegun(w, k)
    ensures if BeginsJob(step, k) then OnlyOpen(Next(w, step), k) || Over(Next(w, step), k) else Unbegun(Next(w, step), k)
  {
    if BeginsJob(step, k) {
      FirstBegin(w, step, k);
    } else {
      OtherStepUnbegun(w, step, k);
    }
  }

  lemma FirstBegin(w: World, step: Step, k: Id)
    requires Unbegun(w, k) && BeginsJob(step, k) && Allowed(w, step)
    ensures OnlyOpen(Next(w, step), k) || Over(Next(w, step), k)
  {
  }

  /** Which steps may put a job among those being checked, among the thrown or among those about to be failed. */
  lemma CheckingAt(w: World, step: Step, k: Id)
    ensures k in NextChecking(w, step) ==> k in w.checking || BeginsJob(step, k)
  {
  }

  lemma ThrownAt(w: World, step: Step, k: Id)
    requires Allowed(w, step) && k in NextThrown(w, step)
    ensures k in w.thrown || BeginsJob(step, k) || k in w.checking
  {
  }

  lemma FailingAt(w: World, step: Step, k: Id)
    requires Allowed(w, step) && k in NextFailing(w, step)
    ensures k in w.failing || (k in w.thrown && IsRunning(w, k))
  {
  }

  predicate CommitsRow(w: World, step: Step, k: Id) {
    Commits(w, step) && step.id == k
  }

  /** A job succeeds only by its commit, and only the failure handler takes success away. */
  lemma SuccessMoves(w: World, step: Step, k: Id)
    requires Allowed(w, step) && k in w.jobs
    ensures k in NextJobs(w, step)
    ensures NextJobs(w, step)[k].status.Succeeded?
            <==> CommitsRow(w, step, k) || (w.jobs[k].status.Succeeded? && step != MarkFailed(k))
  {
  }

  lemma RowsMove(w: World, step: Step, k: Id)
    ensures k in Next(w, step).written <==> k in w.written || CommitsRow(w, step, k)
  {
  }

  /** A job no open write-back and no failing handler names keeps success and rows together. */
  lemma SuccessAt(w: World, step: Step, k: Id)
    requires Allowed(w, step) && k in w.jobs && k !in w.checking && k !in w.failing && !BeginsJob(step, k)
    requires k in w.written <==> w.jobs[k].status.Succeeded?
    ensures k in NextJobs(w, step)
    ensures k in Next(w, step).written <==> NextJobs(w, step)[k].status.Succeeded?
  {
    SuccessMoves(w, step, k);
    RowsMove(w, step, k);
  }

  lemma OtherStepUnbegun(w: World, step: Step, k: Id)
    requires Unbegun(w, k) && !BeginsJob(step, k) && Allowed(w, step)
    ensures Unbegun(Next(w, step), k)
  {
    SuccessAt(w, step, k);
    if k in NextChecking(w, step) {
      CheckingAt(w, step, k);
      assert false;
    }
    if k in NextThrown(w, step) {
      ThrownAt(w, step, k);
      assert false;
    }
    if k in NextFailing(w, step) {
      FailingAt(w, step, k);
      assert false;
    }
  }

  lemma OpenStep(w: World, step: Step, k: Id)
    requires Allowed(w, step) && OnlyOpen(w, k)
    ensures OnlyOpen(Next(w, step), k) || Over(Next(w, step), k)
  {
  }

  lemma OverStep(w: World, step: Step, k: Id)
    requires Allowed(w, step) && Over(w, k) && !BeginsJob(step, k)
    ensures Over(Next(w, step), k)
  {
    SuccessMoves(w, step, k);
    RowsMove(w, step, k);
    if k in NextChecking(w, step) {
      CheckingAt(w, step, k);
      assert false;
    }
    if k in NextFailing(w, step) {
      FailingAt(w, step, k);
    }
  }

  lemma {:induction false} OneWriteBack(worlds: seq<World>, steps: seq<Step>, n: nat, k: Id)
    requires IsRun(worlds, steps) && n <= |steps| && Unbegun(worlds[0], k) && Begins(steps, n, k) <= 1
    ensures var after := worlds[n];
            if Begins(steps, n, k) == 0 then Unbegun(after, k) else OnlyOpen(after, k) || Over(after, k)
  {
    if n > 0 {
      OneWriteBack(worlds, steps, n - 1, k);
      assert Moves(worlds, steps, n - 1);
      var before, step := worlds[n - 1], steps[n - 1];
      if Unbegun(before, k) {
        UnbegunStep(before, step, k);
      } else if OnlyOpen(before, k) {
        OpenStep(before, step, k);
      } else {
        OverStep(before, step, k);
      }
    }
  }

  /** With one write-back per job, as its worker makes, rows and success always go together. */
  lemma {:induction false} RowsMeanSuccess(worlds: seq<World>, steps: seq<Step>, k: Id)
    requires IsRun(worlds, steps) && Unbegun(worlds[0], k) && Begins(steps, |steps|, k) <= 1
    ensures var final := worlds[|steps|];
            k in final.jobs && (k in final.written <==> final.jobs[k].status.Succeeded?)
  {
    OneWriteBack(worlds, steps, |steps|, k);
  }

  // ---------------------------------------------------------------- concrete runs

  const SPOKEN := Segment(5, 1, 1, true, Elder, 7)
  const HELD := Held(0, [5], 1, 9, [FrozenSegment(3, SPOKEN)], {3}, [], [])
  const START := World(map[1 := Job(Running, true, 9, [FrozenScope(5, 1, None)], None)], map[3 := SPOKEN], map[],
                       map[5 := Session(1, None)], map[], {}, map[], multiset{}, multiset{})
  const BEGIN := Begin(1, HELD, Some(1), None)
  const CHECKED := START.(checking := map[1 := HELD])

  lemma BeginsFirst()
    ensures Allowed(START, BEGIN) && Next(START, BEGIN) == CHECKED
  {
    assert FindDrift(START, 1, HELD, Some(1)).None?;
  }

  const CORRECTED := SPOKEN.(speakerRoleRevision := 2, role := Interviewer)
  const DRIFTING := [BEGIN, EditSegment(3, Some(CORRECTED)), Finish(1, true)]
  const DRIFTED := CHECKED.(transcripts := map[3 := CORRECTED])

  /** The speaker of a consumed segment is corrected before the commit: the job still succeeds with its rows. */
  lemma CorrectionSlipsIn()
    ensures IsRun([START, CHECKED, DRIFTED, Next(DRIFTED, Finish(1, true))], DRIFTING)
    ensures CommitsJob(DRIFTED, 1) && !InputsUnchanged(DRIFTED, DRIFTED.jobs[1], HELD)
  {
    var worlds := [START, CHECKED, DRIFTED, Next(DRIFTED, Finish(1, true))];
    BeginsFirst();
    assert Moves(worlds, DRIFTING, 0) && Moves(worlds, DRIFTING, 1) && Moves(worlds, DRIFTING, 2);
    assert HELD.segments[0] in HELD.segments;
  }

  const HANDLED := [BEGIN, Finish(1, false), ObserveFailure(1), EndLive(1, Cancelled), MarkFailed(1)]
  const FAILED_WRITE := START.(thrown := multiset{1})
  const SEEN_RUNNING := START.(failing := multiset{1})
  const CANCELLED := SEEN_RUNNING.(jobs := map[1 := START.jobs[1].(status := Cancelled, failureCode := Some(Interrupted))])

  /** The handler of a failed write-back saw the job running and fails it although it was cancelled meanwhile. */
  lemma HandlerOverwritesCancellation()
    ensures IsRun([START, CHECKED, FAILED_WRITE, SEEN_RUNNING, CANCELLED, Next(CANCELLED, MarkFailed(1))], HANDLED)
    ensures CANCELLED.jobs[1].status.Cancelled?
    ensures 1 in Next(CANCELLED, MarkFailed(1)).jobs && Next(CANCELLED, MarkFailed(1)).jobs[1].status.Failed?
  {
    var worlds := [START, CHECKED, FAILED_WRITE, SEEN_RUNNING, CANCELLED, Next(CANCELLED, MarkFailed(1))];
    BeginsFirst();
    assert Moves(worlds, HANDLED, 0);
    assert Moves(worlds, HANDLED, 1);
    assert Moves(worlds, HANDLED, 2);
    assert Moves(worlds, HANDLED, 3);
    assert Moves(worlds, HANDLED, 4);
  }
}
