/**
 Topic threads of the memory maintainer. Applying an operation parks the session's active thread and
 opens or resumes another; every change appends a revision and supersedes the one before.
 */
module MaintainerThreads {
  import opened Options
  import opened RevisionChains

  type Id = nat

  datatype Thread = Thread(anchor: Option<Id>, originSession: Id)

  /** link.owner is the thread, link.current means not superseded. */
  datatype Revision = Revision(link: Link, session: Id, active: bool, topicKey: string)

  datatype OperationKind = New | Duplicate | Revise | Branch | Related

  /**
   targetThread is the thread of the resolution the operation targets; `accepted` says whether the
   operation's resolution, claims and evidence pass their own checks.
   */
  datatype Operation = Operation(
    kind: OperationKind, anchor: Option<Id>, expectedAnchorRevision: Option<nat>, targetThread: Option<Id>,
    topicKey: string, accepted: bool)

  datatype ThreadError = ThreadCasFailed | AnchorCasFailed | OperationRefused

  datatype Store = Store(threads: seq<Thread>, rows: seq<Revision>)

  function Links(rows: seq<Revision>): (r: seq<Link>)
    ensures |r| == |rows|
  {
    seq(|rows|, i requires 0 <= i < |rows| => rows[i].link)
  }

  function CurrentOf(rows: seq<Revision>, threadId: Id): (r: Option<Id>)
    ensures r.Some? ==> r.value < |rows| && rows[r.value].link.owner == threadId && rows[r.value].link.current
  {
    FirstCurrent(Links(rows), threadId)
  }

  predicate ActiveRow(rows: seq<Revision>, i: nat, session: Id) {
    i < |rows| && rows[i].session == session && rows[i].active && rows[i].link.current
  }

  /** The first unsuperseded active revision of a session. */
  function FirstActive(rows: seq<Revision>, session: Id, i: nat): (r: Option<Id>)
    requires i <= |rows|
    ensures r.Some? ==> i <= r.value && ActiveRow(rows, r.value, session)
    ensures r.None? ==> forall k :: i <= k < |rows| ==> !ActiveRow(rows, k, session)
    decreases |rows| - i
  {
    if i == |rows| then None
    else if ActiveRow(rows, i, session) then Some(i)
    else FirstActive(rows, session, i + 1)
  }

  /** Supersedes a revision and appends its successor. */
  function Succeed(rows: seq<Revision>, i: nat, session: Id, active: bool, topicKey: string): seq<Revision>
    requires i < |rows|
  {
    rows[i := rows[i].(link := rows[i].link.(current := false))]
    + [Revision(Link(rows[i].link.owner, rows[i].link.number + 1, Some(i), true), session, active, topicKey)]
  }

  function Park(rows: seq<Revision>, session: Id, except: Option<Id>): seq<Revision> {
    var active := FirstActive(rows, session, 0);
    if active.None? || Some(rows[active.value].link.owner) == except then rows
    else Succeed(rows, active.value, session, false, rows[active.value].topicKey)
  }

  /** Whether the thread's current revision is the one the operation expects. */
  function ExpectedRow(rows: seq<Revision>, threadId: Id, expected: Option<nat>): (r: Option<Id>)
    ensures r.Some? ==> r.value < |rows| && rows[r.value].link.owner == threadId && rows[r.value].link.current
  {
    var current := CurrentOf(rows, threadId);
    if current.None? || expected != Some(rows[current.value].link.number) then None else current
  }

  /** Resumes the operation's thread, or opens a new one. */
  function ResolveThread(s: Store, session: Id, op: Operation): Result<(Store, Id), ThreadError> {
    var existing := if op.targetThread.Some? then op.targetThread else op.anchor;
    if existing.Some? && !op.kind.Branch? && !op.kind.Related? then
      var row := ExpectedRow(s.rows, existing.value, op.expectedAnchorRevision);
      if row.None? then Err(ThreadCasFailed)
      else
        var parked := Park(s.rows, session, existing);
        if row.value < |parked|
        then Ok((s.(rows := Succeed(parked, row.value, session, true, op.topicKey)), existing.value))
        else Err(ThreadCasFailed)
    else if op.anchor.Some? && ExpectedRow(s.rows, op.anchor.value, op.expectedAnchorRevision).None? then Err(AnchorCasFailed)
    else
      var parked, threadId := Park(s.rows, session, None), |s.threads|;
      Ok((Store(s.threads + [Thread(op.anchor, session)],
                parked + [Revision(Link(threadId, 1, None, true), session, true, op.topicKey)]), threadId))
  }

  /** Applies a batch's operations in order; `last` is the thread of the latest applied one. */
  function ApplyOperations(s: Store, session: Id, ops: seq<Operation>, last: Option<Id>)
    : Result<(Store, Option<Id>), ThreadError>
    decreases |ops|
  {
    if ops == [] then Ok((s, last))
    else if ops[0].kind.Duplicate? then ApplyOperations(s, session, ops[1..], last)
    else if !ops[0].accepted then Err(OperationRefused)
    else
      var next :- ResolveThread(s, session, ops[0]);
      ApplyOperations(next.0, session, ops[1..], Some(next.1))
  }

  class ThreadStore {
    var threads: seq<Thread>
    var rows: seq<Revision>

    constructor ()
      ensures Stored() == Store([], [])
    {
      threads, rows := [], [];
    }

    function Stored(): Store
      reads this
    {
      Store(threads, rows)
    }

    method SupersedeAndAdd(i: Id, session: Id, active: bool, topicKey: string)
      requires i < |rows|
      modifies this`rows
      ensures rows == Succeed(old(rows), i, session, active, topicKey)
    {
      var current := rows[i];
      rows := rows[i := current.(link := current.link.(current := false))];
      rows := rows + [Revision(Link(current.link.owner, current.link.number + 1, Some(i), true), session, active, topicKey)];
    }

    method ParkCurrentActive(session: Id, except: Option<Id>)
      modifies this`rows
      ensures rows == Park(old(rows), session, except)
    {
      var active := FirstActive(rows, session, 0);
      if active.None? || Some(rows[active.value].link.owner) == except { return; }
      SupersedeAndAdd(active.value, session, false, rows[active.value].topicKey);
    }

    method ResolveOperation(session: Id, op: Operation) returns (r: Result<Id, ThreadError>)
      modifies this
      ensures match ResolveThread(old(Stored()), session, op)
              case Ok(pair) => Stored() == pair.0 && r == Ok(pair.1)
              case Err(error) => Stored() == old(Stored()) && r == Err(error)
    {
      var existing := if op.targetThread.Some? then op.targetThread else op.anchor;
      if existing.Some? && !op.kind.Branch? && !op.kind.Related? {
        var row := ExpectedRow(rows, existing.value, op.expectedAnchorRevision);
        if row.None? { return Err(ThreadCasFailed); }
        ParkCurrentActive(session, existing);
        SupersedeAndAdd(row.value, session, true, op.topicKey);
        return Ok(existing.value);
      }
      if op.anchor.Some? {
        var row := ExpectedRow(rows, op.anchor.value, op.expectedAnchorRevision);
        if row.None? { return Err(AnchorCasFailed); }
      }
      ParkCurrentActive(session, None);
      var threadId := |threads|;
      threads := threads + [Thread(op.anchor, session)];
      rows := rows + [Revision(Link(threadId, 1, None, true), session, true, op.topicKey)];
      return Ok(threadId);
    }

    /** One batch in one transaction: any refusal restores the rows. */
    method Apply(session: Id, ops: seq<Operation>) returns (r: Result<Option<Id>, ThreadError>)
      modifies this
      ensures match ApplyOperations(old(Stored()), session, ops, None)
              case Ok(pair) => Stored() == pair.0 && r == Ok(pair.1)
              case Err(error) => Stored() == old(Stored()) && r == Err(error)
    {
      var savedThreads, savedRows := threads, rows;
      var last: Option<Id> := None;
      for i := 0 to |ops|
        invariant ApplyOperations(old(Stored()), session, ops, None) == ApplyOperations(Stored(), session, ops[i..], last)
      {
        assert ops[i..][1..] == ops[i + 1..];
        if !ops[i].kind.Duplicate? {
          var result: Result<Id, ThreadError> := Err(OperationRefused);
          if ops[i].accepted { result := ResolveOperation(session, ops[i]); }
          if result.Err? {
            threads, rows := savedThreads, savedRows;
            return Err(result.error);
          }
          last := Some(result.value);
        }
      }
      return Ok(last);
    }
  }

  // ---------------------------------------------------------------- invariant

  ghost predicate OneActivePerSession(rows: seq<Revision>) {
    forall i: nat, j: nat, s: Id :: ActiveRow(rows, i, s) && ActiveRow(rows, j, s) ==> i == j
  }

  /** Every thread has a well-formed chain of at least one revision; a session has at most one active thread. */
  ghost predicate ThreadsOk(s: Store) {
    && Chained(Links(s.rows))
    && (forall i :: 0 <= i < |s.rows| ==> s.rows[i].link.owner < |s.threads|)
    && (forall t: Id :: t < |s.threads| ==> Rows(Links(s.rows), t, |s.rows|) >= 1)
    && OneActivePerSession(s.rows)
  }

  lemma {:induction false} RowsOfLonger(links: seq<Link>, more: seq<Link>, owner: nat, n: nat)
    requires n <= |links| <= |more| && forall i :: 0 <= i < |links| ==> more[i].owner == links[i].owner
    ensures Rows(more, owner, n) == Rows(links, owner, n)
  {
    SameOwnersSameRows(links, more, owner, n);
  }

  /** Superseding the current revision of a thread is an append to its chain. */
  lemma SucceedAppends(rows: seq<Revision>, i: nat, session: Id, active: bool, topicKey: string)
    requires i < |rows| && rows[i].link.current && Chained(Links(rows))
    ensures Links(Succeed(rows, i, session, active, topicKey)) == Append(Links(rows), rows[i].link.owner)
    ensures Chained(Links(Succeed(rows, i, session, active, topicKey)))
  {
    var links := Links(rows);
    var owner := links[i].owner;
    assert RowInPlace(links, i);
    AppendKeepsChains(links, owner);
    assert FirstCurrent(links, owner) == Some(i);
    assert Links(Succeed(rows, i, session, active, topicKey)) == Append(links, owner);
  }

  lemma RowCountGrows(before: seq<Revision>, after: seq<Revision>, t: Id)
    requires |before| <= |after| && forall i :: 0 <= i < |before| ==> after[i].link.owner == before[i].link.owner
    ensures Rows(Links(before), t, |before|) <= Rows(Links(after), t, |after|)
  {
    RowsOfLonger(Links(before), Links(after), t, |before|);
    RowsGrow(Links(after), t, |before|, |after|);
  }

  lemma ThreadsKeepRows(s: Store, after: seq<Revision>)
    requires ThreadsOk(s) && |s.rows| <= |after|
    requires forall i :: 0 <= i < |s.rows| ==> after[i].link.owner == s.rows[i].link.owner
    ensures forall t: Id :: t < |s.threads| ==> Rows(Links(after), t, |after|) >= 1
  {
    forall t: Id | t < |s.threads| ensures Rows(Links(after), t, |after|) >= 1 {
      RowCountGrows(s.rows, after, t);
    }
  }

  lemma ParkKeeps(s: Store, session: Id, except: Option<Id>)
    requires ThreadsOk(s)
    ensures ThreadsOk(s.(rows := Park(s.rows, session, except)))
    ensures var parked := Park(s.rows, session, except);
            && |s.rows| <= |parked|
            && (forall i: nat :: ActiveRow(parked, i, session) ==> i < |s.rows| && Some(parked[i].link.owner) == except)
            && (forall i :: 0 <= i < |s.rows| && Some(s.rows[i].link.owner) == except ==> parked[i] == s.rows[i])
  {
    var active := FirstActive(s.rows, session, 0);
    var parked := Park(s.rows, session, except);
    if parked != s.rows {
      SucceedAppends(s.rows, active.value, session, false, s.rows[active.value].topicKey);
      ThreadsKeepRows(s, parked);
      forall i: nat, j: nat, t: Id | ActiveRow(parked, i, t) && ActiveRow(parked, j, t) ensures i == j {
        assert ActiveRow(s.rows, i, t) && ActiveRow(s.rows, j, t);
      }
      forall i: nat | i < |parked| ensures !ActiveRow(parked, i, session) {
        assert ActiveRow(parked, i, session) ==> ActiveRow(s.rows, i, session);
      }
    } else if active.Some? {
      forall i: nat | ActiveRow(parked, i, session) ensures i == active.value {
        assert ActiveRow(s.rows, active.value, session);
      }
    }
  }

  /** The session's active thread after an operation is exactly the operation's thread. */
  ghost predicate OnlyActive(rows: seq<Revision>, session: Id, threadId: Id) {
    && (exists i: nat :: ActiveRow(rows, i, session))
    && (forall i: nat :: ActiveRow(rows, i, session) ==> rows[i].link.owner == threadId)
  }

  lemma ResumeKeeps(s: Store, session: Id, threadId: Id, row: Id, topicKey: string)
    requires ThreadsOk(s) && CurrentOf(s.rows, threadId) == Some(row)
    ensures var parked := Park(s.rows, session, Some(threadId));
            && row < |parked|
            && var after := Succeed(parked, row, session, true, topicKey);
               ThreadsOk(s.(rows := after)) && OnlyActive(after, session, threadId)
  {
    ParkKeeps(s, session, Some(threadId));
    var parked := Park(s.rows, session, Some(threadId));
    var p := s.(rows := parked);
    assert parked[row] == s.rows[row];
    SucceedAppends(parked, row, session, true, topicKey);
    var after := Succeed(parked, row, session, true, topicKey);
    ThreadsKeepRows(p, after);
    forall i: nat, t: Id | ActiveRow(after, i, t) && i < |parked| ensures ActiveRow(parked, i, t) && t != session {
      if t == session {
        assert ActiveRow(parked, i, session);
        CurrentIsUnique(parked, i, row);
      }
    }
    forall i: nat, j: nat, t: Id | ActiveRow(after, i, t) && ActiveRow(after, j, t) ensures i == j {
    }
    assert ActiveRow(after, |parked|, session);
  }

  lemma CurrentIsUnique(rows: seq<Revision>, i: nat, j: nat)
    requires Chained(Links(rows)) && i < |rows| && j < |rows|
    requires rows[i].link.current && rows[j].link.current && rows[i].link.owner == rows[j].link.owner
    ensures i == j
  {
    assert RowInPlace(Links(rows), i) && RowInPlace(Links(rows), j);
  }

  lemma OpenKeeps(s: Store, session: Id, anchor: Option<Id>, topicKey: string)
    requires ThreadsOk(s)
    ensures var threadId := |s.threads|;
            var after := Store(s.threads + [Thread(anchor, session)],
                               Park(s.rows, session, None)
                               + [Revision(Link(threadId, 1, None, true), session, true, topicKey)]);
            ThreadsOk(after) && OnlyActive(after.rows, session, threadId)
  {
    ParkKeeps(s, session, None);
    var parked, threadId := Park(s.rows, session, None), |s.threads|;
    var added := Revision(Link(threadId, 1, None, true), session, true, topicKey);
    var after := parked + [added];
    NewOwnerHasNoRows(Links(parked), threadId, |parked|);
    AppendKeepsChains(Links(parked), threadId);
    NoCurrentForNewOwner(Links(parked), threadId, 0);
    assert Links(after) == Links(parked) + [added.link] == Append(Links(parked), threadId);
    ThreadsKeepRows(s.(rows := parked), after);
    assert Rows(Links(after), threadId, |after|) >= 1;
    forall i: nat, j: nat, t: Id | ActiveRow(after, i, t) && ActiveRow(after, j, t) ensures i == j {
      assert i < |parked| ==> ActiveRow(parked, i, t);
      assert j < |parked| ==> ActiveRow(parked, j, t);
    }
    forall i: nat | ActiveRow(after, i, session) ensures i == |parked| {
      assert i < |parked| ==> ActiveRow(parked, i, session);
    }
    assert ActiveRow(after, |parked|, session);
  }

  lemma {:induction false} NewOwnerHasNoRows(links: seq<Link>, owner: nat, n: nat)
    requires n <= |links| && forall i :: 0 <= i < |links| ==> links[i].owner != owner
    ensures Rows(links, owner, n) == 0 && LastRow(links, owner, n).None?
  {
    if n > 0 {
      NewOwnerHasNoRows(links, owner, n - 1);
    }
  }

  lemma {:induction false} NoCurrentForNewOwner(links: seq<Link>, owner: nat, i: nat)
    requires i <= |links| && forall k :: 0 <= k < |links| ==> links[k].owner != owner
    ensures FirstCurrentFrom(links, owner, i).None?
    decreases |links| - i
  {
    if i < |links| {
      NoCurrentForNewOwner(links, owner, i + 1);
    }
  }

  lemma ResolveKeeps(s: Store, session: Id, op: Operation)
    requires ThreadsOk(s) && ResolveThread(s, session, op).Ok?
    ensures var (after, threadId) := ResolveThread(s, session, op).value;
            ThreadsOk(after) && OnlyActive(after.rows, session, threadId)
  {
    var existing := if op.targetThread.Some? then op.targetThread else op.anchor;
    if existing.Some? && !op.kind.Branch? && !op.kind.Related? {
      var row := ExpectedRow(s.rows, existing.value, op.expectedAnchorRevision).value;
      ResumeKeeps(s, session, existing.value, row, op.topicKey);
    } else {
      OpenKeeps(s, session, op.anchor, op.topicKey);
    }
  }

  /**
   Applying a batch keeps every thread's chain and the one active thread per session; if any operation
   was applied, the session's only active thread is the one of the last applied operation.
   */
  lemma {:induction false} BatchKeepsThreads(s: Store, session: Id, ops: seq<Operation>, last: Option<Id>)
    requires ThreadsOk(s) && (last.Some? ==> OnlyActive(s.rows, session, last.value))
    requires ApplyOperations(s, session, ops, last).Ok?
    ensures var (after, final) := ApplyOperations(s, session, ops, last).value;
            && ThreadsOk(after)
            && (final.Some? ==> OnlyActive(after.rows, session, final.value))
            && (final.Some? <==> last.Some? || exists i :: 0 <= i < |ops| && !ops[i].kind.Duplicate?)
    decreases |ops|
  {
    if ops != [] {
      if ops[0].kind.Duplicate? {
        BatchKeepsThreads(s, session, ops[1..], last);
        assert forall i :: 0 < i < |ops| ==> ops[i] == ops[1..][i - 1];
      } else {
        ResolveKeeps(s, session, ops[0]);
        var next := ResolveThread(s, session, ops[0]).value;
        BatchKeepsThreads(next.0, session, ops[1..], Some(next.1));
      }
    }
  }

  type Batch = (Id, seq<Operation>)

  function RunBatches(s: Store, batches: seq<Batch>): Store
    decreases |batches|
  {
    if batches == [] then s
    else
      var result := ApplyOperations(s, batches[0].0, batches[0].1, None);
      RunBatches(if result.Ok? then result.value.0 else s, batches[1..])
  }

  lemma {:induction false} RunsKeepThreads(s: Store, batches: seq<Batch>)
    requires ThreadsOk(s)
    ensures ThreadsOk(RunBatches(s, batches))
    decreases |batches|
  {
    if batches != [] {
      var result := ApplyOperations(s, batches[0].0, batches[0].1, None);
      if result.Ok? {
        BatchKeepsThreads(s, batches[0].0, batches[0].1, None);
      }
      RunsKeepThreads(if result.Ok? then result.value.0 else s, batches[1..]);
    }
  }

  /** A thread's one unsuperseded revision, numbered by how many revisions the thread has. */
  ghost predicate HasOneCurrent(s: Store, t: Id) {
    exists i :: 0 <= i < |s.rows| && IsOnlyCurrent(s, t, i)
  }

  ghost predicate IsOnlyCurrent(s: Store, t: Id, i: nat)
    requires i < |s.rows|
  {
    && s.rows[i].link.owner == t && s.rows[i].link.current
    && s.rows[i].link.number == Rows(Links(s.rows), t, |s.rows|)
    && forall j :: 0 <= j < |s.rows| && s.rows[j].link.owner == t && s.rows[j].link.current ==> j == i
  }

  /**
   In every state reached from an empty store each thread has exactly one unsuperseded revision, whose
   number is its revision count, and no session has two active threads.
   */
  lemma ReachableThreads(batches: seq<Batch>, t: Id)
    requires t < |RunBatches(Store([], []), batches).threads|
    ensures HasOneCurrent(RunBatches(Store([], []), batches), t)
    ensures OneActivePerSession(RunBatches(Store([], []), batches).rows)
  {
    RunsKeepThreads(Store([], []), batches);
    var s := RunBatches(Store([], []), batches);
    var links := Links(s.rows);
    NumbersAreComplete(links, t, Rows(links, t, |links|));
    var i :| 0 <= i < |links| && HasNumber(links, t, i, Rows(links, t, |links|));
    RowShape(links, i);
    forall j | 0 <= j < |s.rows| && s.rows[j].link.owner == t && s.rows[j].link.current ensures j == i {
      CurrentIsUnique(s.rows, j, i);
    }
    assert IsOnlyCurrent(s, t, i);
  }
}
