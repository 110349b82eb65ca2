/**
 The recovery pass over stored jobs: each candidate's record is read, a decision is planned from it,
 and a planned command is applied by compare-and-set.
 */
module MemoryP2RecoveryPass {
  import opened Options
  import opened MemoryP2Traces
  import opened MemoryP2Recovery
  import opened MemoryP2Store
  import opened MemoryP2Writes
  import opened MemoryP2Runs

  datatype RecoveryOutcome =
    | NotFound | ActiveOutcome | ConvergedOutcome | TerminalizedUncommitted | PreservedCommitted
    | RepairedTerminalTrace | SucceededUnreadableOutcome | TerminalUnreadableOutcome | LostRace

  function AppliedOutcome(kind: CommandKind): RecoveryOutcome {
    match kind
    case TerminalizeUncommitted => TerminalizedUncommitted
    case PreserveCommitted => PreservedCommitted
    case RepairTerminalTrace => RepairedTerminalTrace
  }

  /** Reconciles one job; `rows` are the rows behind its trace references. */
  function ReconcileJob(db: Db, jobId: Id, rows: seq<ReferenceAuthority>, now: Instant)
    : Result<(Db, RecoveryOutcome), ErrorCode>
  {
    var authority := ReadRecoveryAuthority(db, jobId, rows);
    if authority.None? then Ok((db, NotFound))
    else match Reconcile(authority.value, now)
      case AlreadyConverged => Ok((db, ConvergedOutcome))
      case ActiveAttempt => Ok((db, ActiveOutcome))
      case SucceededUnreadable(_) => Ok((db, SucceededUnreadableOutcome))
      case TerminalUnreadable(_) => Ok((db, TerminalUnreadableOutcome))
      case Raises(error) => Err(error)
      case Apply(command) =>
        var applied := ApplyRecovery(db, command, rows);
        Ok((applied.0, if applied.1 then AppliedOutcome(command.kind) else LostRace))
  }

  // ---------------------------------------------------------------- the store follows the plan

  /** Reading a job back after an uncommitted command was applied gives the record the planner predicted. */
  lemma AppliedRecordIsRead(db: Db, c: RecoveryCommand, rows: seq<ReferenceAuthority>)
    requires RecoveryAdmitted(db, c, rows)
    requires ReadRecoveryAuthority(db, c.jobId, rows).value.committed.None?
    ensures ReadRecoveryAuthority(ApplyRecovery(db, c, rows).0, c.jobId, rows)
            == Some(Applied(ReadRecoveryAuthority(db, c.jobId, rows).value, c))
  {
    var after := ApplyRecovery(db, c, rows).0;
    assert TraceOfJob(after, c.jobId) == Some(RecoveredTrace(TraceOfJob(db, c.jobId).value, c.trace));
    assert SourceSessions(after, c.jobId) == SourceSessions(db, c.jobId);
    assert RecoveryCheckpointId(after, c.jobId) == RecoveryCheckpointId(db, c.jobId);
  }

  /**
   Over arbitrary rows: a job with nothing committed and no error in its record is settled by one pass: the planned
   command always wins its own compare-and-set, and any later pass before expiry finds the job converged. No store
   that a run reaches holds such a record (MemoryP2StoredPasses.NoUncommittedJobConverges).
   */
  lemma OnePassSettlesUncommittedJob(db: Db, jobId: Id, rows: seq<ReferenceAuthority>, now: Instant, later: Instant)
    requires ReadRecoveryAuthority(db, jobId, rows).Some?
    requires var a := ReadRecoveryAuthority(db, jobId, rows).value;
             && a.committed.None? && AuthorityError(a, now).None? && later < a.identity.expiresAt
             && Reconcile(a, now).Apply?
    ensures ReconcileJob(db, jobId, rows, now).Ok?
    ensures var (after, outcome) := ReconcileJob(db, jobId, rows, now).value;
            && (outcome.TerminalizedUncommitted? || outcome.RepairedTerminalTrace?)
            && ReconcileJob(after, jobId, rows, later) == Ok((after, ConvergedOutcome))
  {
    var a := ReadRecoveryAuthority(db, jobId, rows).value;
    var c := Reconcile(a, now).command;
    RecoveryIsSafe(a, now);
    PlannedForOwnJob(a, now);
    UncommittedRecoveryConverges(a, now, later);
    AppliedRecordIsRead(db, c, rows);
    PassApplies(db, jobId, rows, now, a, c);
    PassFindsConverged(ApplyRecovery(db, c, rows).0, jobId, rows, later, Applied(a, c));
  }

  lemma PassApplies(db: Db, jobId: Id, rows: seq<ReferenceAuthority>, now: Instant, a: RecoveryAuthority, c: RecoveryCommand)
    requires ReadRecoveryAuthority(db, jobId, rows) == Some(a) && Reconcile(a, now) == Apply(c)
    ensures ReconcileJob(db, jobId, rows, now)
            == Ok((ApplyRecovery(db, c, rows).0,
                   if ApplyRecovery(db, c, rows).1 then AppliedOutcome(c.kind) else LostRace))
  {
  }

  lemma PassFindsConverged(db: Db, jobId: Id, rows: seq<ReferenceAuthority>, now: Instant, a: RecoveryAuthority)
    requires ReadRecoveryAuthority(db, jobId, rows) == Some(a) && Reconcile(a, now) == AlreadyConverged
    ensures ReconcileJob(db, jobId, rows, now) == Ok((db, ConvergedOutcome))
  {
  }

  lemma PlannedForOwnJob(a: RecoveryAuthority, now: Instant)
    requires Reconcile(a, now).Apply?
    ensures Reconcile(a, now).command.jobId == a.identity.aiJobId
  {
  }

  // ---------------------------------------------------------------- the pass over all candidates

  type RowsOfJob = map<Id, seq<ReferenceAuthority>>

  function RowsFor(rows: RowsOfJob, jobId: Id): seq<ReferenceAuthority> {
    if jobId in rows then rows[jobId] else []
  }

  /** The pass stops at the first job whose planning raises; what earlier jobs changed stays. */
  function ReconcileAll(db: Db, jobIds: seq<Id>, rows: RowsOfJob, now: Instant, outcomes: seq<RecoveryOutcome>)
    : (Db, Result<seq<RecoveryOutcome>, ErrorCode>)
    decreases |jobIds|
  {
    if jobIds == [] then (db, Ok(outcomes))
    else match ReconcileJob(db, jobIds[0], RowsFor(rows, jobIds[0]), now)
      case Err(error) => (db, Err(error))
      case Ok(pair) => ReconcileAll(pair.0, jobIds[1..], rows, now, outcomes + [pair.1])
  }

  /** Reconciling a job either changes nothing or takes one recovery step. */
  lemma ReconcilingIsAStep(s: State, jobId: Id, rows: seq<ReferenceAuthority>) returns (steps: seq<Step>)
    requires ReconcileJob(s.db, jobId, rows, s.now).Ok?
    ensures |steps| <= 1 && AllAllowed(s, steps) && (forall step :: step in steps ==> step.Recover?)
    ensures Run(s, steps) == State(ReconcileJob(s.db, jobId, rows, s.now).value.0, s.now)
  {
    steps := [];
    var authority := ReadRecoveryAuthority(s.db, jobId, rows);
    if authority.Some? {
      var decision := Reconcile(authority.value, s.now);
      if decision.Apply? {
        PlannedForOwnJob(authority.value, s.now);
        var step := Recover(decision.command, authority.value, s.now, rows);
        steps := [step];
        OneStepRun(s, step);
        PassApplies(s.db, jobId, rows, s.now, authority.value, decision.command);
      }
    }
  }

  lemma OneStepRun(s: State, step: Step)
    requires Allowed(s, step)
    ensures AllAllowed(s, [step]) && Run(s, [step]) == Next(s, step)
  {
    assert [step][1..] == [];
    assert AllAllowed(Next(s, step), []);
    assert Run(s, [step]) == Run(Next(s, step), []);
  }

  lemma {:induction false} RunsCompose(s: State, first: seq<Step>, second: seq<Step>)
    requires AllAllowed(s, first) && AllAllowed(Run(s, first), second)
    ensures AllAllowed(s, first + second) && Run(s, first + second) == Run(Run(s, first), second)
    decreases |first|
  {
    if first == [] {
      assert first + second == second;
    } else {
      assert (first + second)[0] == first[0] && (first + second)[1..] == first[1..] + second;
      RunsCompose(Next(s, first[0]), first[1..], second);
    }
  }

  /** Every change a recovery pass makes is a recovery step the run theorems speak about. */
  lemma {:induction false} PassIsARun(s: State, jobIds: seq<Id>, rows: RowsOfJob, outcomes: seq<RecoveryOutcome>)
    returns (steps: seq<Step>)
    ensures AllAllowed(s, steps) && (forall step :: step in steps ==> step.Recover?)
    ensures Run(s, steps) == State(ReconcileAll(s.db, jobIds, rows, s.now, outcomes).0, s.now)
    decreases |jobIds|
  {
    steps := [];
    if jobIds != [] {
      var result := ReconcileJob(s.db, jobIds[0], RowsFor(rows, jobIds[0]), s.now);
      if result.Ok? {
        var first := ReconcilingIsAStep(s, jobIds[0], RowsFor(rows, jobIds[0]));
        var rest := PassIsARun(Run(s, first), jobIds[1..], rows, outcomes + [result.value.1]);
        RunsCompose(s, first, rest);
        steps := first + rest;
      }
    }
  }

  /** Candidate identifiers, each once, in the order they were first listed. */
  function Distinct(ids: seq<Id>): seq<Id> {
    if ids == [] then []
    else
      var front := Distinct(ids[..|ids| - 1]);
      if ids[|ids| - 1] in front then front else front + [ids[|ids| - 1]]
  }
}
