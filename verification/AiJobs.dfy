/**
 The table of AI jobs: how trigger keys deduplicate them, how maintainer jobs are retried, and how
 every job leaves its live states. A job's identifier is its position in the table; a discarded job
 leaves an empty place.
 */
module AiJobs {
  import opened Options
  import opened MaintainerContract

  type Id = nat

  datatype JobType = WorkingMemoryMaintain | OtherJobType(name: string)

  /** What a request asks for; its hash identifies it, so equal hashes mean equal requests. */
  datatype Request = Request(
    requestId: Id, actorId: Id, projectId: Id, jobType: JobType, sessionIds: seq<Id>, memoryIds: seq<Id>,
    exactSegmentIds: Option<set<Id>>, retryOf: Option<Id>, trigger: Option<string>, contextVersion: string)

  datatype Job = Job(
    request: Request, rejected: bool, status: JobStatus, attemptNo: nat, failureCode: Option<string>,
    segmentIds: set<Id>, calls: nat)

  type Table = seq<Option<Job>>

  datatype CoordinatorError =
    | IdentityConflict | RetryIdentityInvalid | SystemTriggerRequired | RetryPredecessorInvalid | RetryNotLatest
    | RetryScopeDrift | RetryPredecessorRequired | InputRefused | ReplayNotAllowed | ConstraintViolation

  /** The namespace of the trigger keys the runtime writes; the validator knows the one before it. */
  const RUNTIME_NAMESPACE := "memory-p1-v1.2:"

  /** The table's check of trigger keys: maintainers have a key, and the two namespaces are theirs alone. */
  predicate KeyPermitted(request: Request) {
    match request.trigger
    case None => !request.jobType.WorkingMemoryMaintain?
    case Some(key) =>
      request.jobType.WorkingMemoryMaintain?
      <==> StartsWith(key, MAINTAINER_NAMESPACE) || StartsWith(key, RUNTIME_NAMESPACE)
  }

  /** The table's deferred check of a job stored with attempt number 1: a maintainer retries nothing. */
  predicate FirstAttemptPermitted(request: Request) {
    request.jobType.WorkingMemoryMaintain? ==> request.retryOf.None?
  }

  predicate Live(status: JobStatus) {
    status.Pending? || status.Running?
  }

  predicate IsMaintainer(j: Job) {
    j.request.jobType.WorkingMemoryMaintain?
  }

  // ---------------------------------------------------------------- lookups

  predicate MaintainerOf(row: Option<Job>, trigger: string) {
    row.Some? && IsMaintainer(row.value) && row.value.request.trigger == Some(trigger)
  }

  predicate TriggerOf(row: Option<Job>, trigger: string) {
    row.Some? && row.value.request.trigger == Some(trigger)
  }

  /** Among the rows of a kind, the one with the highest attempt number; the first such row if several. */
  function Latest(jobs: Table, keep: Option<Job> -> bool, n: nat): (r: Option<Id>)
    requires n <= |jobs| && forall i :: 0 <= i < n && keep(jobs[i]) ==> jobs[i].Some?
    ensures r.Some? ==> r.value < n && keep(jobs[r.value])
    ensures r.None? ==> forall i :: 0 <= i < n ==> !keep(jobs[i])
    ensures forall i :: 0 <= i < n && keep(jobs[i]) ==>
              r.Some? && jobs[i].value.attemptNo <= jobs[r.value].value.attemptNo
  {
    if n == 0 then None
    else
      var before := Latest(jobs, keep, n - 1);
      if !keep(jobs[n - 1]) then before
      else if before.Some? && jobs[n - 1].value.attemptNo <= jobs[before.value].value.attemptNo then before
      else Some(n - 1)
  }

  function LatestMaintainer(jobs: Table, trigger: string): Option<Id> {
    Latest(jobs, row => MaintainerOf(row, trigger), |jobs|)
  }

  /** The job a new request with this trigger would replay. */
  function ReplayTarget(jobs: Table, request: Request, trigger: string): Option<Id> {
    if request.jobType.WorkingMemoryMaintain? then
      Latest(jobs, row => MaintainerOf(row, trigger) && Protected(row.value.status), |jobs|)
    else Latest(jobs, row => TriggerOf(row, trigger), |jobs|)
  }

  function ByRequest(jobs: Table, requestId: Id, n: nat): (r: Option<Id>)
    requires n <= |jobs|
    ensures r.Some? ==> r.value < n && jobs[r.value].Some? && jobs[r.value].value.request.requestId == requestId
  {
    if n == 0 then None
    else if jobs[n - 1].Some? && jobs[n - 1].value.request.requestId == requestId then Some(n - 1)
    else ByRequest(jobs, requestId, n - 1)
  }

  function JobAt(jobs: Table, id: Id): Option<Job> {
    if id < |jobs| then jobs[id] else None
  }

  // ---------------------------------------------------------------- freezing

  datatype Outcome = Replayed(id: Id) | Created(id: Id)

  /** A replay must be the same request; a trigger replay may carry another request identifier. */
  predicate SameBinding(job: Job, request: Request, triggered: bool) {
    && !job.rejected
    && job.request.(requestId := request.requestId) == request
    && (triggered || job.request.requestId == request.requestId)
  }

  function RetryError(jobs: Table, request: Request): Option<CoordinatorError> {
    if request.retryOf.None? then None
    else
      var retried := JobAt(jobs, request.retryOf.value);
      if || retried.None?
         || retried.value.request.projectId != request.projectId
         || retried.value.request.jobType != request.jobType
         || !(retried.value.status.Failed? || retried.value.status.Cancelled?)
      then Some(RetryIdentityInvalid)
      else None
  }

  /** The attempt number of a new maintainer job, or why it may not be created. */
  function MaintainerAttempt(jobs: Table, request: Request): Result<nat, CoordinatorError> {
    if request.trigger.None? then Err(SystemTriggerRequired)
    else
      var trigger := request.trigger.value;
      match request.retryOf
      case None =>
        if LatestMaintainer(jobs, trigger).Some? then Err(RetryPredecessorRequired) else Ok(1)
      case Some(id) =>
        var predecessor := JobAt(jobs, id);
        if || predecessor.None? || !IsMaintainer(predecessor.value) || !predecessor.value.status.Failed?
           || predecessor.value.request.trigger != request.trigger
        then Err(RetryPredecessorInvalid)
        else if LatestMaintainer(jobs, trigger) != Some(id) then Err(RetryNotLatest)
        else
          var p := predecessor.value;
          if || p.request.projectId != request.projectId
             || p.request.actorId != request.actorId
             || p.request.contextVersion != request.contextVersion
             || p.request.sessionIds != request.sessionIds
             || p.segmentIds != request.exactSegmentIds.GetOr({})
          then Err(RetryScopeDrift)
          else Ok(p.attemptNo + 1)
  }

  /** `inputs` are the segments the request resolves to, or the refusal of policy, scope or memory checks. */
  function Freeze(jobs: Table, request: Request, inputs: Result<set<Id>, CoordinatorError>)
    : Result<(Table, Outcome), CoordinatorError>
  {
    var byRequest := ByRequest(jobs, request.requestId, |jobs|);
    if byRequest.Some? then
      if SameBinding(jobs[byRequest.value].value, request, false) then Ok((jobs, Replayed(byRequest.value)))
      else Err(IdentityConflict)
    else
      var byTrigger := if request.trigger.Some? then ReplayTarget(jobs, request, request.trigger.value) else None;
      if byTrigger.Some? then
        if SameBinding(jobs[byTrigger.value].value, request, true) then Ok((jobs, Replayed(byTrigger.value)))
        else Err(IdentityConflict)
      else
        var retryError := RetryError(jobs, request);
        if retryError.Some? then Err(retryError.value)
        else
          var attempt :- if request.jobType.WorkingMemoryMaintain? then MaintainerAttempt(jobs, request) else Ok(1);
          :- Need(KeyPermitted(request), ConstraintViolation);
          var segments :- inputs;
          Ok((jobs + [Some(Job(request, false, Running, attempt, None, segments, 0))], Created(|jobs|)))
  }

  // ---------------------------------------------------------------- rejection

  predicate SameRejection(job: Job, request: Request, failureCode: string) {
    job.rejected ==>
      && job.request.(requestId := request.requestId) == request
      && job.failureCode == Some(failureCode)
  }

  function ExistingFor(jobs: Table, request: Request, trigger: string, n: nat): (r: Option<Id>)
    requires n <= |jobs|
    ensures r.Some? ==> r.value < n && jobs[r.value].Some?
    ensures r.None? ==> forall i :: 0 <= i < n ==> !TriggerOf(jobs[i], trigger)
  {
    if n == 0 then None
    else
      var before := ExistingFor(jobs, request, trigger, n - 1);
      if before.Some? then before
      else if jobs[n - 1].Some? && (jobs[n - 1].value.request.requestId == request.requestId || TriggerOf(jobs[n - 1], trigger))
      then Some(n - 1)
      else None
  }

  /** Records a system rejection as a cancelled job, once per trigger. */
  function Reject(jobs: Table, request: Request, failureCode: string): Result<(Table, Outcome), CoordinatorError> {
    if request.trigger.None? then Err(SystemTriggerRequired)
    else
      var existing := ExistingFor(jobs, request, request.trigger.value, |jobs|);
      if existing.Some? then
        if SameRejection(jobs[existing.value].value, request, failureCode) then Ok((jobs, Replayed(existing.value)))
        else Err(IdentityConflict)
      else
        :- Need(KeyPermitted(request) && FirstAttemptPermitted(request), ConstraintViolation);
        Ok((jobs + [Some(Job(request, true, Cancelled, 1, Some(failureCode), {}, 0))], Created(|jobs|)))
  }

  // ---------------------------------------------------------------- leaving the live states

  function WithStatus(jobs: Table, id: Id, status: JobStatus, failureCode: Option<string>): Table
    requires id < |jobs| && jobs[id].Some?
  {
    jobs[id := Some(jobs[id].value.(status := status, failureCode := failureCode))]
  }

  /** Moves a job out of `running`, as provider failure, drift and write-back do. */
  function EndRunning(jobs: Table, id: Id, status: JobStatus, failureCode: Option<string>): Table {
    if JobAt(jobs, id).Some? && jobs[id].value.status.Running? then WithStatus(jobs, id, status, failureCode) else jobs
  }

  /** Moves a job out of any live state, as policy cancellation and the stale scan do. */
  function EndLive(jobs: Table, id: Id, status: JobStatus, failureCode: Option<string>): Table {
    if JobAt(jobs, id).Some? && Live(jobs[id].value.status) then WithStatus(jobs, id, status, failureCode) else jobs
  }

  function CallProvider(jobs: Table, id: Id): Table {
    if JobAt(jobs, id).Some? then jobs[id := Some(jobs[id].value.(calls := jobs[id].value.calls + 1))] else jobs
  }

  /** Deletes a live job that never reached the provider. */
  function Discard(jobs: Table, id: Id): Table {
    if JobAt(jobs, id).Some? && jobs[id].value.calls == 0 && Live(jobs[id].value.status) then jobs[id := None] else jobs
  }

  const UNAVAILABLE := "AI_PROVIDER_UNAVAILABLE"
  const TIMEOUT := "AI_PROVIDER_TIMEOUT"
  const POLICY_DRIFT := "AI_POLICY_DRIFT"
  const REPLAYED := "AI_REQUEST_REPLAY"

  /**
   What one round of calling the provider meets: the deadline has passed before the call, the policy refuses, the answer
   comes in time and is valid, or the call or its validation fails or outlasts the deadline.
   */
  datatype Round = DeadlinePassed | PolicyDenies(error: string) | Answers(value: string) | Fails(error: string)

  /** Calls with the same input until a round answers, is denied or finds the deadline passed, or the rounds run out. */
  function CallRounds(jobs: Table, id: Id, rounds: seq<Round>, lastError: string): (Table, Result<string, string>)
    decreases |rounds|
  {
    if rounds == [] then (EndRunning(jobs, id, Failed, Some(lastError)), Err(lastError))
    else match rounds[0]
      case DeadlinePassed => (EndRunning(jobs, id, Failed, Some(TIMEOUT)), Err(TIMEOUT))
      case PolicyDenies(error) => (EndLive(jobs, id, Cancelled, Some(POLICY_DRIFT)), Err(error))
      case Answers(value) => (CallProvider(jobs, id), Ok(value))
      case Fails(error) => CallRounds(CallProvider(jobs, id), id, rounds[1..], error)
  }

  /** How many rounds failed before the first that did not. */
  function FailedRounds(rounds: seq<Round>): (n: nat)
    ensures n <= |rounds|
    ensures forall i :: 0 <= i < n ==> rounds[i].Fails?
    ensures n < |rounds| ==> !rounds[n].Fails?
  {
    if rounds == [] || !rounds[0].Fails? then 0 else 1 + FailedRounds(rounds[1..])
  }

  /**
   A running job is called once for every failed round and once for the answer. It stays running exactly if a round
   answers before the policy denies one or the deadline passes; a denial cancels it, anything else fails it.
   */
  lemma {:induction false} RoundsEndTheJob(jobs: Table, id: Id, rounds: seq<Round>, lastError: string)
    requires JobAt(jobs, id).Some? && jobs[id].value.status.Running?
    ensures var (after, r) := CallRounds(jobs, id, rounds, lastError);
            var n := FailedRounds(rounds);
            && JobAt(after, id).Some?
            && after[id].value.calls == jobs[id].value.calls + n + (if r.Ok? then 1 else 0)
            && (if n < |rounds| && rounds[n].Answers? then r == Ok(rounds[n].value) && after[id].value.status.Running?
                else && r.Err?
                     && after[id].value.status == (if n < |rounds| && rounds[n].PolicyDenies? then Cancelled else Failed))
    decreases |rounds|
  {
    if rounds != [] && rounds[0].Fails? {
      RoundsEndTheJob(CallProvider(jobs, id), id, rounds[1..], rounds[0].error);
    }
  }

  class AiJobCoordinator {
    var jobs: Table

    constructor ()
      ensures jobs == []
    {
      jobs := [];
    }

    method FreezeJob(request: Request, inputs: Result<set<Id>, CoordinatorError>)
      returns (r: Result<Outcome, CoordinatorError>)
      modifies this
      ensures match Freeze(old(jobs), request, inputs)
              case Ok(pair) => jobs == pair.0 && r == Ok(pair.1)
              case Err(error) => jobs == old(jobs) && r == Err(error)
    {
      var byRequest := ByRequest(jobs, request.requestId, |jobs|);
      if byRequest.Some? {
        if !SameBinding(jobs[byRequest.value].value, request, false) { return Err(IdentityConflict); }
        return Ok(Replayed(byRequest.value));
      }
      if request.trigger.Some? {
        var byTrigger := ReplayTarget(jobs, request, request.trigger.value);
        if byTrigger.Some? {
          if !SameBinding(jobs[byTrigger.value].value, request, true) { return Err(IdentityConflict); }
          return Ok(Replayed(byTrigger.value));
        }
      }
      var retryError := RetryError(jobs, request);
      if retryError.Some? { return Err(retryError.value); }
      var attemptNo := 1;
      if request.jobType.WorkingMemoryMaintain? {
        attemptNo :- MaintainerAttempt(jobs, request);
      }
      if !KeyPermitted(request) { return Err(ConstraintViolation); }
      var pending := Job(request, false, Pending, attemptNo, None, {}, 0);
      if inputs.Err? { return Err(inputs.error); }
      jobs := jobs + [Some(pending.(segmentIds := inputs.value, status := Running))];
      return Ok(Created(|jobs| - 1));
    }

    method RecordRejectedJob(request: Request, failureCode: string) returns (r: Result<Outcome, CoordinatorError>)
      modifies this
      ensures match Reject(old(jobs), request, failureCode)
              case Ok(pair) => jobs == pair.0 && r == Ok(pair.1)
              case Err(error) => jobs == old(jobs) && r == Err(error)
    {
      if request.trigger.None? { return Err(SystemTriggerRequired); }
      var existing := ExistingFor(jobs, request, request.trigger.value, |jobs|);
      if existing.Some? {
        if !SameRejection(jobs[existing.value].value, request, failureCode) { return Err(IdentityConflict); }
        return Ok(Replayed(existing.value));
      }
      if !KeyPermitted(request) || !FirstAttemptPermitted(request) { return Err(ConstraintViolation); }
      jobs := jobs + [Some(Job(request, true, Cancelled, 1, Some(failureCode), {}, 0))];
      return Ok(Created(|jobs| - 1));
    }

    /** The loop over the rounds; a replayed job is not called at all. */
    method CallProviderWithRetry(id: Id, replayed: bool, rounds: seq<Round>) returns (r: Result<string, string>)
      requires |rounds| == 2
      modifies this
      ensures if replayed then r.Err? && jobs == old(jobs)
              else (jobs, r) == CallRounds(old(jobs), id, rounds, UNAVAILABLE)
    {
      if replayed { return Err(REPLAYED); }
      var lastError := UNAVAILABLE;
      var callNo := 0;
      while callNo < 2
        invariant 0 <= callNo <= 2
        invariant CallRounds(old(jobs), id, rounds, UNAVAILABLE) == CallRounds(jobs, id, rounds[callNo..], lastError)
      {
        assert rounds[callNo..][1..] == rounds[callNo + 1..];
        match rounds[callNo] {
          case DeadlinePassed =>
            jobs := EndRunning(jobs, id, Failed, Some(TIMEOUT));
            return Err(TIMEOUT);
          case PolicyDenies(error) =>
            jobs := EndLive(jobs, id, Cancelled, Some(POLICY_DRIFT));
            return Err(error);
          case Answers(value) =>
            jobs := CallProvider(jobs, id);
            return Ok(value);
          case Fails(error) =>
            jobs := CallProvider(jobs, id);
            lastError := error;
        }
        callNo := callNo + 1;
      }
      jobs := EndRunning(jobs, id, Failed, Some(lastError));
      return Err(lastError);
    }

    method DiscardUncalledJob(id: Id)
      modifies this
      ensures jobs == Discard(old(jobs), id)
    {
      if JobAt(jobs, id).None? || jobs[id].value.calls != 0 { return; }
      if Live(jobs[id].value.status) { jobs := jobs[id := None]; }
    }

    method FailOrphanedSystemJob(id: Id, failureCode: string)
      modifies this
      ensures jobs == EndLive(old(jobs), id, Failed, Some(failureCode))
    {
      if JobAt(jobs, id).Some? && Live(jobs[id].value.status) {
        jobs := jobs[id := Some(jobs[id].value.(status := Failed, failureCode := Some(failureCode)))];
      }
    }
  }

  // ---------------------------------------------------------------- steps and the table invariant

  datatype Step =
    | FreezeStep(request: Request, inputs: Result<set<Id>, CoordinatorError>)
    | RejectStep(request: Request, rejection: string)
    | CallStep(id: Id)
    | EndRunningStep(id: Id, status: JobStatus, failureCode: Option<string>)
    | EndLiveStep(id: Id, status: JobStatus, failureCode: Option<string>)
    | DiscardStep(id: Id)

  function Kept(result: Result<(Table, Outcome), CoordinatorError>, jobs: Table): Table {
    match result
    case Ok(pair) => pair.0
    case Err(_) => jobs
  }

  function Next(jobs: Table, step: Step): Table {
    match step
    case FreezeStep(request, inputs) => Kept(Freeze(jobs, request, inputs), jobs)
    case RejectStep(request, failureCode) => Kept(Reject(jobs, request, failureCode), jobs)
    case CallStep(id) => CallProvider(jobs, id)
    case EndRunningStep(id, status, failureCode) => EndRunning(jobs, id, status, failureCode)
    case EndLiveStep(id, status, failureCode) => EndLive(jobs, id, status, failureCode)
    case DiscardStep(id) => Discard(jobs, id)
  }

  predicate Allowed(jobs: Table, step: Step) {
    match step
    case EndRunningStep(_, status, _) => !Live(status)
    case EndLiveStep(_, status, _) => status.Failed? || status.Cancelled?
    case _ => true
  }

  /** Two maintainer rows of one trigger, the earlier first. */
  predicate Ordered(jobs: Table, i: Id, j: Id)
    requires i < |jobs| && j < |jobs| && jobs[i].Some? && jobs[j].Some?
  {
    jobs[i].value.status.Failed? && jobs[i].value.attemptNo < jobs[j].value.attemptNo
  }

  predicate RowOk(jobs: Table, i: Id)
    requires i < |jobs|
  {
    && (jobs[i].Some? ==> KeyPermitted(jobs[i].value.request))
    && (jobs[i].Some? && IsMaintainer(jobs[i].value) ==>
      var job := jobs[i].value;
      && job.request.trigger.Some?
      && job.attemptNo >= 1
      && (job.attemptNo == 1 ==> job.request.retryOf.None?)
      && (job.attemptNo > 1 ==>
            && job.request.retryOf.Some? && job.request.retryOf.value < i
            && MaintainerOf(jobs[job.request.retryOf.value], job.request.trigger.value)
            && jobs[job.request.retryOf.value].value.attemptNo == job.attemptNo - 1
            && jobs[job.request.retryOf.value].value.status.Failed?))
  }

  predicate SameTrigger(jobs: Table, i: Id, j: Id) {
    && i < |jobs| && j < |jobs| && jobs[i].Some? && jobs[j].Some?
    && jobs[i].value.request.trigger.Some?
    && jobs[i].value.request.trigger == jobs[j].value.request.trigger
  }

  /** What every reachable table keeps. */
  ghost predicate TableOk(jobs: Table) {
    && (forall i :: 0 <= i < |jobs| ==> RowOk(jobs, i))
    && (forall i, j :: 0 <= i < j < |jobs| && SameTrigger(jobs, i, j) ==>
          && IsMaintainer(jobs[i].value) && IsMaintainer(jobs[j].value)
          && Ordered(jobs, i, j))
  }

  // ---------------------------------------------------------------- every step keeps the invariant

  lemma AddedJob(jobs: Table, job: Job)
    requires TableOk(jobs)
    requires RowOk(jobs + [Some(job)], |jobs|)
    requires job.request.trigger.Some? ==>
               forall i :: 0 <= i < |jobs| && TriggerOf(jobs[i], job.request.trigger.value) ==>
                 && IsMaintainer(jobs[i].value) && IsMaintainer(job)
                 && jobs[i].value.status.Failed? && jobs[i].value.attemptNo < job.attemptNo
    ensures TableOk(jobs + [Some(job)])
  {
    var after := jobs + [Some(job)];
    forall i | 0 <= i < |after| ensures RowOk(after, i) {
      if i < |jobs| {
        assert RowOk(jobs, i);
      }
    }
    forall i, j | 0 <= i < j < |after| && SameTrigger(after, i, j)
      ensures IsMaintainer(after[i].value) && IsMaintainer(after[j].value) && Ordered(after, i, j)
    {
      if j < |jobs| {
        assert SameTrigger(jobs, i, j);
      } else {
        assert TriggerOf(jobs[i], job.request.trigger.value);
      }
    }
  }

  /** Maintainers and other job types never share a trigger key. */
  lemma TriggersSeparate(jobs: Table, request: Request, i: Id)
    requires TableOk(jobs) && KeyPermitted(request) && request.trigger.Some?
    requires i < |jobs| && TriggerOf(jobs[i], request.trigger.value)
    ensures IsMaintainer(jobs[i].value) == request.jobType.WorkingMemoryMaintain?
  {
    assert RowOk(jobs, i);
  }

  lemma FreezeKeeps(jobs: Table, request: Request, inputs: Result<set<Id>, CoordinatorError>)
    requires TableOk(jobs)
    ensures TableOk(Kept(Freeze(jobs, request, inputs), jobs))
  {
    var after := Kept(Freeze(jobs, request, inputs), jobs);
    if after != jobs {
      var job := after[|jobs|].value;
      if request.jobType.WorkingMemoryMaintain? {
        MaintainerAdded(jobs, request, job);
      }
      AddedJob(jobs, job);
    }
  }

  /** A new maintainer is the first of its trigger, or follows the trigger's last attempt, which failed. */
  lemma MaintainerAdded(jobs: Table, request: Request, job: Job)
    requires TableOk(jobs) && KeyPermitted(request) && request.jobType.WorkingMemoryMaintain?
    requires MaintainerAttempt(jobs, request) == Ok(job.attemptNo)
    requires job.request == request
    ensures RowOk(jobs + [Some(job)], |jobs|)
    ensures forall i :: 0 <= i < |jobs| && TriggerOf(jobs[i], request.trigger.value) ==>
              && IsMaintainer(jobs[i].value) && jobs[i].value.status.Failed? && jobs[i].value.attemptNo < job.attemptNo
  {
    var trigger := request.trigger.value;
    if request.retryOf.Some? {
      assert RowOk(jobs, request.retryOf.value);
    }
    forall i | 0 <= i < |jobs| && TriggerOf(jobs[i], trigger)
      ensures IsMaintainer(jobs[i].value) && jobs[i].value.status.Failed? && jobs[i].value.attemptNo < job.attemptNo
    {
      TriggersSeparate(jobs, request, i);
      assert MaintainerOf(jobs[i], trigger);
      var last := LatestMaintainer(jobs, trigger).value;
      if i < last {
        assert SameTrigger(jobs, i, last);
      } else if last < i {
        assert SameTrigger(jobs, last, i);
      }
    }
  }

  lemma RejectKeeps(jobs: Table, request: Request, failureCode: string)
    requires TableOk(jobs)
    ensures TableOk(Kept(Reject(jobs, request, failureCode), jobs))
  {
    var after := Kept(Reject(jobs, request, failureCode), jobs);
    if after != jobs {
      AddedJob(jobs, after[|jobs|].value);
    }
  }

  /** Only a live job changes or disappears, and a live maintainer has no successor that relies on it. */
  lemma LiveJobChanged(jobs: Table, id: Id, row: Option<Job>)
    requires TableOk(jobs) && JobAt(jobs, id).Some? && Live(jobs[id].value.status)
    requires row.Some? ==> row.value.request == jobs[id].value.request && row.value.attemptNo == jobs[id].value.attemptNo
    ensures TableOk(jobs[id := row])
  {
    var after := jobs[id := row];
    forall i | 0 <= i < |after| ensures RowOk(after, i) {
      assert RowOk(jobs, i);
    }
    forall i, j | 0 <= i < j < |after| && SameTrigger(after, i, j)
      ensures IsMaintainer(after[i].value) && IsMaintainer(after[j].value) && Ordered(after, i, j)
    {
      assert SameTrigger(jobs, i, j);
    }
  }

  lemma CallKeeps(jobs: Table, id: Id)
    requires TableOk(jobs)
    ensures TableOk(CallProvider(jobs, id))
  {
    var after := CallProvider(jobs, id);
    forall i | 0 <= i < |after| ensures RowOk(after, i) {
      assert RowOk(jobs, i);
    }
    forall i, j | 0 <= i < j < |after| && SameTrigger(after, i, j)
      ensures IsMaintainer(after[i].value) && IsMaintainer(after[j].value) && Ordered(after, i, j)
    {
      assert SameTrigger(jobs, i, j);
    }
  }

  lemma StepKeepsTable(jobs: Table, step: Step)
    requires TableOk(jobs) && Allowed(jobs, step)
    ensures TableOk(Next(jobs, step))
  {
    match step
    case FreezeStep(request, inputs) => FreezeKeeps(jobs, request, inputs);
    case RejectStep(request, failureCode) => RejectKeeps(jobs, request, failureCode);
    case CallStep(id) => CallKeeps(jobs, id);
    case EndRunningStep(id, status, failureCode) =>
      if EndRunning(jobs, id, status, failureCode) != jobs {
        LiveJobChanged(jobs, id, EndRunning(jobs, id, status, failureCode)[id]);
      }
    case EndLiveStep(id, status, failureCode) =>
      if EndLive(jobs, id, status, failureCode) != jobs {
        LiveJobChanged(jobs, id, EndLive(jobs, id, status, failureCode)[id]);
      }
    case DiscardStep(id) =>
      if Discard(jobs, id) != jobs {
        LiveJobChanged(jobs, id, None);
      }
  }

  ghost predicate AllAllowed(jobs: Table, steps: seq<Step>)
    decreases |steps|
  {
    steps != [] ==> Allowed(jobs, steps[0]) && AllAllowed(Next(jobs, steps[0]), steps[1..])
  }

  function Run(jobs: Table, steps: seq<Step>): Table
    decreases |steps|
  {
    if steps == [] then jobs else Run(Next(jobs, steps[0]), steps[1..])
  }

  lemma {:induction false} RunKeepsTable(jobs: Table, steps: seq<Step>)
    requires TableOk(jobs) && AllAllowed(jobs, steps)
    ensures TableOk(Run(jobs, steps))
    decreases |steps|
  {
    if steps != [] {
      StepKeepsTable(jobs, steps[0]);
      RunKeepsTable(Next(jobs, steps[0]), steps[1..]);
    }
  }

  // ---------------------------------------------------------------- replay and retry

  /** A request that made a job is answered with that job ever after, whatever its inputs would resolve to now. */
  lemma FreezeReplays(jobs: Table, request: Request, inputs: Result<set<Id>, CoordinatorError>,
                      again: Result<set<Id>, CoordinatorError>)
    requires Freeze(jobs, request, inputs).Ok? && Freeze(jobs, request, inputs).value.1.Created?
    ensures var (after, made) := Freeze(jobs, request, inputs).value;
            Freeze(after, request, again) == Ok((after, Replayed(made.id)))
  {
  }

  /** The rest of a request that retries the job in the same scope. */
  predicate SameScope(job: Job, request: Request) {
    && request.projectId == job.request.projectId && request.actorId == job.request.actorId
    && request.contextVersion == job.request.contextVersion && request.sessionIds == job.request.sessionIds
    && request.exactSegmentIds.GetOr({}) == job.segmentIds
  }

  /** The last attempt has failed, so no attempt of the trigger is live or succeeded. */
  lemma NothingToReplay(jobs: Table, id: Id, request: Request, trigger: string)
    requires TableOk(jobs) && JobAt(jobs, id).Some? && jobs[id].value.status.Failed? && MaintainerOf(jobs[id], trigger)
    requires request.jobType.WorkingMemoryMaintain?
    requires forall i :: 0 <= i < |jobs| && MaintainerOf(jobs[i], trigger) ==>
               jobs[i].value.attemptNo <= jobs[id].value.attemptNo
    ensures ReplayTarget(jobs, request, trigger).None?
  {
    forall i | 0 <= i < |jobs| && MaintainerOf(jobs[i], trigger) ensures !Protected(jobs[i].value.status) {
      if i < id {
        assert SameTrigger(jobs, i, id);
      } else if id < i {
        assert SameTrigger(jobs, id, i);
      }
    }
  }

  lemma RetryAdmitted(jobs: Table, id: Id, request: Request)
    requires JobAt(jobs, id).Some? && IsMaintainer(jobs[id].value) && jobs[id].value.status.Failed?
    requires request.jobType.WorkingMemoryMaintain? && request.trigger == jobs[id].value.request.trigger
    requires request.trigger.Some? && LatestMaintainer(jobs, request.trigger.value) == Some(id)
    requires request.retryOf == Some(id) && SameScope(jobs[id].value, request)
    ensures RetryError(jobs, request).None? && MaintainerAttempt(jobs, request) == Ok(jobs[id].value.attemptNo + 1)
  {
  }

  lemma RetryKeyPermitted(jobs: Table, id: Id, request: Request)
    requires TableOk(jobs) && JobAt(jobs, id).Some? && IsMaintainer(jobs[id].value)
    requires request.jobType.WorkingMemoryMaintain? && request.trigger == jobs[id].value.request.trigger
    ensures KeyPermitted(request)
  {
    assert RowOk(jobs, id);
  }

  /** In a reachable table the last attempt of a trigger, if it failed, can always be retried as the next one. */
  lemma FailedAttemptCanBeRetried(jobs: Table, id: Id, request: Request, segments: set<Id>)
    requires TableOk(jobs) && JobAt(jobs, id).Some? && IsMaintainer(jobs[id].value) && jobs[id].value.status.Failed?
    requires request.jobType.WorkingMemoryMaintain? && request.trigger == jobs[id].value.request.trigger
    requires request.trigger.Some? && LatestMaintainer(jobs, request.trigger.value) == Some(id)
    requires request.retryOf == Some(id) && SameScope(jobs[id].value, request)
    requires ByRequest(jobs, request.requestId, |jobs|).None?
    ensures Freeze(jobs, request, Ok(segments))
            == Ok((jobs + [Some(Job(request, false, Running, jobs[id].value.attemptNo + 1, None, segments, 0))],
                   Created(|jobs|)))
  {
    RetryKeyPermitted(jobs, id, request);
    NothingToReplay(jobs, id, request, request.trigger.value);
    RetryAdmitted(jobs, id, request);
  }

  // ---------------------------------------------------------------- the invariant gives the contract

  function ObservationOf(jobs: Table, job: Job, trigger: string): Observation {
    Observation(IsMaintainer(job), job.status, trigger, job.attemptNo,
                if job.request.retryOf.None? || JobAt(jobs, job.request.retryOf.value).None? then None
                else Some(JobAt(jobs, job.request.retryOf.value).value.attemptNo))
  }

  /** The jobs with a trigger among the first n rows, as the contract observes them. */
  function Observations(jobs: Table, n: nat): seq<Observation>
    requires n <= |jobs|
  {
    if n == 0 then []
    else
      var before := Observations(jobs, n - 1);
      if jobs[n - 1].Some? && jobs[n - 1].value.request.trigger.Some?
      then before + [ObservationOf(jobs, jobs[n - 1].value, jobs[n - 1].value.request.trigger.value)]
      else before
  }

  /** The rows of one trigger, in table order. */
  function RowsOf(jobs: Table, trigger: string, n: nat): (r: seq<Id>)
    requires n <= |jobs|
    ensures forall i :: 0 <= i < |r| ==> r[i] < n && TriggerOf(jobs[r[i]], trigger)
    ensures forall i, j :: 0 <= i < j < |r| ==> r[i] < r[j]
  {
    if n == 0 then []
    else RowsOf(jobs, trigger, n - 1) + (if TriggerOf(jobs[n - 1], trigger) then [n - 1] else [])
  }

  lemma {:induction false} RowsOfComplete(jobs: Table, trigger: string, n: nat, i: Id) returns (k: nat)
    requires i < n <= |jobs| && TriggerOf(jobs[i], trigger)
    ensures k < |RowsOf(jobs, trigger, n)| && RowsOf(jobs, trigger, n)[k] == i
  {
    if i == n - 1 {
      k := |RowsOf(jobs, trigger, n)| - 1;
    } else {
      k := RowsOfComplete(jobs, trigger, n - 1, i);
    }
  }

  lemma {:induction false} GroupIsRows(jobs: Table, trigger: string, n: nat)
    requires n <= |jobs|
    ensures var group, rows := OfGroup(Observations(jobs, n), trigger), RowsOf(jobs, trigger, n);
            |group| == |rows|
            && forall k :: 0 <= k < |group| ==> group[k] == ObservationOf(jobs, jobs[rows[k]].value, trigger)
  {
    if n > 0 {
      GroupIsRows(jobs, trigger, n - 1);
      NextInGroup(jobs, trigger, n);
    }
  }

  lemma NextInGroup(jobs: Table, trigger: string, n: nat)
    requires 0 < n <= |jobs|
    ensures OfGroup(Observations(jobs, n), trigger)
            == OfGroup(Observations(jobs, n - 1), trigger)
               + (if TriggerOf(jobs[n - 1], trigger) then [ObservationOf(jobs, jobs[n - 1].value, trigger)] else [])
  {
    if jobs[n - 1].Some? && jobs[n - 1].value.request.trigger.Some? {
      OfGroupAppend(Observations(jobs, n - 1), ObservationOf(jobs, jobs[n - 1].value, jobs[n - 1].value.request.trigger.value),
                    trigger);
    }
  }

  lemma {:induction false} AllMaintainers(group: seq<Observation>)
    requires forall k :: 0 <= k < |group| ==> group[k].maintainer
    ensures Maintainers(group) == group
  {
    if group != [] {
      AllMaintainers(group[..|group| - 1]);
    }
  }

  lemma NoMaintainers(group: seq<Observation>)
    requires |group| == 1 && !group[0].maintainer
    ensures Maintainers(group) == []
  {
    assert Maintainers(group[..0]) == [];
  }

  lemma PairOk(jobs: Table, trigger: string, i: Id, j: Id)
    requires TableOk(jobs) && i < j < |jobs| && TriggerOf(jobs[i], trigger) && TriggerOf(jobs[j], trigger)
    ensures IsMaintainer(jobs[i].value) && IsMaintainer(jobs[j].value) && Ordered(jobs, i, j)
  {
    assert SameTrigger(jobs, i, j);
  }

  lemma RetryObserved(jobs: Table, trigger: string, group: seq<Observation>, rows: seq<Id>, k: nat)
    requires TableOk(jobs) && rows == RowsOf(jobs, trigger, |jobs|) && |group| == |rows| && k < |group|
    requires forall m :: 0 <= m < |group| ==> group[m] == ObservationOf(jobs, jobs[rows[m]].value, trigger)
    requires group[k].maintainer
    ensures RetryOk(group, group[k]) && group[k].attempt >= 1
  {
    assert RowOk(jobs, rows[k]);
    var job := jobs[rows[k]].value;
    if job.attemptNo > 1 {
      var p := job.request.retryOf.value;
      var m := RowsOfComplete(jobs, trigger, |jobs|, p);
      assert group[m] in group;
    }
  }

  /** The observation before failed and has the smaller attempt number. */
  predicate Earlier(group: seq<Observation>, a: nat, b: nat)
    requires a < b < |group|
  {
    group[a].status.Failed? && group[a].attempt < group[b].attempt
  }

  lemma GroupObeysRules(jobs: Table, trigger: string)
    requires TableOk(jobs)
    ensures GroupRules(OfGroup(Observations(jobs, |jobs|), trigger))
  {
    var rows := RowsOf(jobs, trigger, |jobs|);
    var group := OfGroup(Observations(jobs, |jobs|), trigger);
    GroupIsRows(jobs, trigger, |jobs|);
    if |group| == 1 && !group[0].maintainer {
      NoMaintainers(group);
    } else {
      forall k | 0 <= k < |group| ensures group[k].maintainer {
        if |group| > 1 {
          if k == 0 {
            PairOk(jobs, trigger, rows[0], rows[1]);
          } else {
            PairOk(jobs, trigger, rows[0], rows[k]);
          }
        }
      }
      forall a: nat, b: nat | a < b < |group| ensures Earlier(group, a, b) {
        PairOk(jobs, trigger, rows[a], rows[b]);
      }
      forall k | 0 <= k < |group| ensures RetryOk(group, group[k]) && group[k].attempt >= 1 {
        RetryObserved(jobs, trigger, group, rows, k);
      }
      RetryChainObeysRules(group);
    }
  }

  /** A chain of attempts, each but the last failed, each retrying the one before. */
  lemma {:induction false} RetryChainObeysRules(group: seq<Observation>)
    requires forall k :: 0 <= k < |group| ==> group[k].maintainer && RetryOk(group, group[k]) && group[k].attempt >= 1
    requires forall a: nat, b: nat :: a < b < |group| ==> Earlier(group, a, b)
    ensures GroupRules(group)
  {
    forall a, b | 0 <= a < b < |group| ensures group[a].status.Failed? && group[a].attempt < group[b].attempt {
      assert Earlier(group, a, b);
    }
    AllMaintainers(group);
    forall o | o in group ensures RetryOk(group, o) {
      var k :| 0 <= k < |group| && group[k] == o;
    }
  }

  /**
   Every table the coordinator can reach obeys the grouping rules of the dedupe contract: attempts of a
   trigger are consecutive, all but the last failed, and at most one is live or succeeded.
   */
  lemma ReachableTablesObeyRules(steps: seq<Step>)
    requires AllAllowed([], steps)
    ensures var jobs := Run([], steps);
            DedupeRules(Observations(jobs, |jobs|))
  {
    RunKeepsTable([], steps);
    var jobs := Run([], steps);
    forall t: string ensures GroupRules(OfGroup(Observations(jobs, |jobs|), t)) {
      GroupObeysRules(jobs, t);
    }
  }

  // ---------------------------------------------------------------- the validator and the namespaces

  predicate OfRuntime(row: Option<Job>) {
    row.Some? && IsMaintainer(row.value) && row.value.request.trigger.Some?
    && StartsWith(row.value.request.trigger.value, RUNTIME_NAMESPACE)
  }

  lemma {:induction false} ObservationsAreRows(jobs: Table, n: nat, o: Observation)
    requires n <= |jobs|
    ensures o in Observations(jobs, n) <==>
            exists i :: 0 <= i < n && jobs[i].Some? && jobs[i].value.request.trigger.Some?
                        && o == ObservationOf(jobs, jobs[i].value, jobs[i].value.request.trigger.value)
  {
    if n > 0 {
      ObservationsAreRows(jobs, n - 1, o);
    }
  }

  /** The two namespaces differ in one character. */
  lemma NamespacesApart(key: string)
    ensures !(StartsWith(key, MAINTAINER_NAMESPACE) && StartsWith(key, RUNTIME_NAMESPACE))
  {
    assert MAINTAINER_NAMESPACE[13] == '1' && RUNTIME_NAMESPACE[13] == '2';
  }

  lemma RowInNamespace(jobs: Table, i: Id)
    requires TableOk(jobs) && i < |jobs| && jobs[i].Some? && jobs[i].value.request.trigger.Some?
    ensures NamespaceOk(ObservationOf(jobs, jobs[i].value, jobs[i].value.request.trigger.value)) <==> !OfRuntime(jobs[i])
  {
    assert RowOk(jobs, i);
    NamespacesApart(jobs[i].value.request.trigger.value);
  }

  /**
   What the dedupe validator accepts of the tables the coordinator can reach: exactly those without a maintainer in the
   namespace the runtime writes.
   */
  lemma ReachableTablesAcceptedExactlyWhen(steps: seq<Step>)
    requires AllAllowed([], steps)
    ensures var jobs := Run([], steps);
            var observed := Observations(jobs, |jobs|);
            (forall o :: o in observed ==> NamespaceOk(o)) && DedupeRules(observed)
            <==> forall i :: 0 <= i < |jobs| ==> !OfRuntime(jobs[i])
  {
    ReachableTablesObeyRules(steps);
    RunKeepsTable([], steps);
    var jobs := Run([], steps);
    var observed := Observations(jobs, |jobs|);
    forall i | 0 <= i < |jobs| && OfRuntime(jobs[i]) ensures exists o :: o in observed && !NamespaceOk(o) {
      var o := ObservationOf(jobs, jobs[i].value, jobs[i].value.request.trigger.value);
      ObservationsAreRows(jobs, |jobs|, o);
      RowInNamespace(jobs, i);
    }
    forall o | o in observed && !NamespaceOk(o) ensures exists i :: 0 <= i < |jobs| && OfRuntime(jobs[i]) {
      ObservationsAreRows(jobs, |jobs|, o);
      var i :| 0 <= i < |jobs| && jobs[i].Some? && jobs[i].value.request.trigger.Some?
               && o == ObservationOf(jobs, jobs[i].value, jobs[i].value.request.trigger.value);
      RowInNamespace(jobs, i);
    }
  }
}
