/**
 How the memory maintainer batches transcript segments and consumes them. Work is keyed by session: a
 wake-up, a scan or a final flush joins the work already running for its session.
 */
module MaintainerBatches {
  import opened Options

  type Id = nat

  /** A segment belongs to one session for good. */
  datatype SegmentId = SegmentId(session: Id, n: nat)

  datatype Role = Elder | Interviewer | OtherRole

  /** `useful` is the number of useful characters of the segment's text. */
  datatype Segment = Segment(id: SegmentId, startMs: int, createdAt: int, role: Role, useful: nat)

  datatype Config = Config(
    overlapSegments: int, batchThreshold: int, minimumUseful: int, timeThresholdMs: int)

  datatype TriggerKind = SessionFinalFlush | BatchThreshold | TimeThreshold

  datatype Batch = Batch(newIds: seq<SegmentId>, overlapIds: seq<SegmentId>, kind: TriggerKind)

  const MAX_CONTEXT_SEGMENTS := 80

  // ---------------------------------------------------------------- selection

  function PendingElder(segments: seq<Segment>, consumed: set<SegmentId>): (r: seq<Segment>) {
    if segments == [] then []
    else
      var rest := PendingElder(segments[1..], consumed);
      if segments[0].role.Elder? && segments[0].id !in consumed then [segments[0]] + rest else rest
  }

  /** The segments with a trusted role that start before the first new one. */
  function Earlier(segments: seq<Segment>, startMs: int): seq<Segment> {
    if segments == [] then []
    else
      var rest := Earlier(segments[1..], startMs);
      if segments[0].startMs < startMs && (segments[0].role.Elder? || segments[0].role.Interviewer?)
      then [segments[0]] + rest else rest
  }

  /** The first elements, as `slice(0, n)` gives them. */
  function FirstOf<T>(s: seq<T>, n: nat): seq<T> {
    if |s| <= n then s else s[..n]
  }

  /** The last elements, as `slice(-n)` gives them: all of them when n is 0, since -0 is 0. */
  function LastOf<T>(s: seq<T>, n: int): seq<T> {
    if n <= 0 then s[if -n <= |s| then -n else |s|..]
    else if |s| <= n then s
    else s[|s| - n..]
  }

  function Max(a: int, b: int): int {
    if a < b then b else a
  }

  function UsefulCharacters(segments: seq<Segment>): nat {
    if segments == [] then 0 else segments[0].useful + UsefulCharacters(segments[1..])
  }

  function Ids(segments: seq<Segment>): (r: seq<SegmentId>)
    ensures |r| == |segments|
  {
    seq(|segments|, i requires 0 <= i < |segments| => segments[i].id)
  }

  function DecideTrigger(minimumUseful: bool, finalFlush: bool, batchReached: bool, timeReached: bool): Option<TriggerKind> {
    if !minimumUseful then None
    else if finalFlush then Some(SessionFinalFlush)
    else if batchReached then Some(BatchThreshold)
    else if timeReached then Some(TimeThreshold)
    else None
  }

  function NewSegments(segments: seq<Segment>, consumed: set<SegmentId>, config: Config): seq<Segment> {
    FirstOf(PendingElder(segments, consumed), Max(0, MAX_CONTEXT_SEGMENTS - Max(0, config.overlapSegments)))
  }

  function SelectBatch(segments: seq<Segment>, consumed: set<SegmentId>, config: Config, finalFlush: bool, now: int)
    : Option<Batch>
  {
    var chosen := NewSegments(segments, consumed, config);
    if chosen == [] then None
    else
      var kind := DecideTrigger(UsefulCharacters(chosen) >= config.minimumUseful, finalFlush,
                                |chosen| >= config.batchThreshold,
                                now - chosen[0].createdAt >= config.timeThresholdMs);
      if kind.None? then None
      else
        var overlap := LastOf(Earlier(segments, chosen[0].startMs), config.overlapSegments);
        Some(Batch(Ids(chosen), Ids(overlap), kind.value))
  }

  /** A session's segments as the query orders them. */
  ghost predicate Transcript(segments: seq<Segment>, session: Id) {
    && (forall i, j :: 0 <= i < j < |segments| ==> segments[i].startMs <= segments[j].startMs)
    && (forall i, j :: 0 <= i < j < |segments| ==> segments[i].id != segments[j].id)
    && (forall i :: 0 <= i < |segments| ==> segments[i].id.session == session)
  }

  // ---------------------------------------------------------------- properties of one selection

  ghost predicate DistinctIds(ids: seq<SegmentId>) {
    forall i, j :: 0 <= i < j < |ids| ==> ids[i] != ids[j]
  }

  lemma {:induction false} PendingIsComplete(segments: seq<Segment>, consumed: set<SegmentId>, s: Segment)
    ensures s in PendingElder(segments, consumed) <==> s in segments && s.role.Elder? && s.id !in consumed
  {
    if segments != [] {
      PendingIsComplete(segments[1..], consumed, s);
      assert segments == [segments[0]] + segments[1..];
    }
  }

  lemma {:induction false} PendingKeepsOrder(segments: seq<Segment>, consumed: set<SegmentId>, session: Id)
    requires Transcript(segments, session)
    ensures Transcript(PendingElder(segments, consumed), session)
  {
    if segments != [] {
      PendingKeepsOrder(segments[1..], consumed, session);
      var rest := PendingElder(segments[1..], consumed);
      forall i | 0 <= i < |rest| ensures segments[0].startMs <= rest[i].startMs && segments[0].id != rest[i].id {
        PendingIsComplete(segments[1..], consumed, rest[i]);
        var k :| 0 <= k < |segments[1..]| && segments[1..][k] == rest[i];
        assert segments[k + 1] == rest[i];
      }
    }
  }

  lemma PendingShape(segments: seq<Segment>, consumed: set<SegmentId>, session: Id)
    requires Transcript(segments, session)
    ensures var r := PendingElder(segments, consumed);
            && Transcript(r, session)
            && forall s :: s in r ==> s in segments && s.id !in consumed
  {
    PendingKeepsOrder(segments, consumed, session);
    forall s | s in PendingElder(segments, consumed) ensures s in segments && s.id !in consumed {
      PendingIsComplete(segments, consumed, s);
    }
  }

  lemma {:induction false} EarlierShape(segments: seq<Segment>, startMs: int)
    ensures forall s :: s in Earlier(segments, startMs) ==> s.startMs < startMs && s in segments
  {
    if segments != [] {
      EarlierShape(segments[1..], startMs);
    }
  }

  /** The segments of a batch: new ones unconsumed, distinct and of this session; overlap ones all earlier. */
  lemma SelectedBatchShape(segments: seq<Segment>, consumed: set<SegmentId>, config: Config, finalFlush: bool, now: int,
                           session: Id)
    requires Transcript(segments, session) && SelectBatch(segments, consumed, config, finalFlush, now).Some?
    ensures var batch := SelectBatch(segments, consumed, config, finalFlush, now).value;
            && batch.newIds != [] && DistinctIds(batch.newIds)
            && (forall id :: id in batch.newIds ==> id !in consumed && id.session == session)
            && (forall id :: id in batch.newIds ==> id !in batch.overlapIds)
            && (config.overlapSegments >= 1 ==> |batch.newIds| + |batch.overlapIds| <= MAX_CONTEXT_SEGMENTS)
  {
    var batch := SelectBatch(segments, consumed, config, finalFlush, now).value;
    var pending, chosen := PendingElder(segments, consumed), NewSegments(segments, consumed, config);
    PendingShape(segments, consumed, session);
    var earlier := Earlier(segments, chosen[0].startMs);
    var overlap := LastOf(earlier, config.overlapSegments);
    EarlierShape(segments, chosen[0].startMs);
    forall i | 0 <= i < |chosen| ensures chosen[i] == pending[i] && chosen[i] in segments && chosen[i].id !in consumed {
      assert pending[i] in pending;
    }
    forall i, j | 0 <= i < |chosen| && 0 <= j < |overlap| ensures chosen[i].id != overlap[j].id {
      assert overlap[j] in earlier;
      SameIdSameSegment(segments, session, chosen[i], overlap[j]);
    }
  }

  lemma SameIdSameSegment(segments: seq<Segment>, session: Id, a: Segment, b: Segment)
    requires Transcript(segments, session) && a in segments && b in segments
    ensures a.id == b.id ==> a == b
  {
    var i :| 0 <= i < |segments| && segments[i] == a;
    var j :| 0 <= j < |segments| && segments[j] == b;
  }

  lemma {:induction false} ForeignIdChangesNothing(segments: seq<Segment>, consumed: set<SegmentId>, id: SegmentId)
    requires forall i :: 0 <= i < |segments| ==> segments[i].id != id
    ensures PendingElder(segments, consumed + {id}) == PendingElder(segments, consumed)
  {
    if segments != [] {
      ForeignIdChangesNothing(segments[1..], consumed, id);
    }
  }

  function IdSet(ids: seq<SegmentId>): set<SegmentId> {
    set id | id in ids
  }

  /** Consuming the first k pending segments leaves exactly the others pending, in their order. */
  lemma {:induction false} ConsumingAPrefix(segments: seq<Segment>, consumed: set<SegmentId>, k: nat)
    requires forall i, j :: 0 <= i < j < |segments| ==> segments[i].id != segments[j].id
    requires k <= |PendingElder(segments, consumed)|
    ensures var pending := PendingElder(segments, consumed);
            PendingElder(segments, consumed + IdSet(Ids(pending[..k]))) == pending[k..]
  {
    var pending := PendingElder(segments, consumed);
    var ids := Ids(pending[..k]);
    if segments != [] && k > 0 {
      var head, rest := segments[0], PendingElder(segments[1..], consumed);
      if head.role.Elder? && head.id !in consumed {
        assert pending == [head] + rest && pending[..k] == [head] + rest[..k - 1];
        var others := IdSet(Ids(rest[..k - 1]));
        assert ids == [head.id] + Ids(rest[..k - 1]);
        assert consumed + IdSet(ids) == (consumed + others) + {head.id};
        ConsumingAPrefix(segments[1..], consumed, k - 1);
        ForeignIdChangesNothing(segments[1..], consumed + others, head.id);
      } else {
        PendingHeadless(segments, consumed, ids);
        ConsumingAPrefix(segments[1..], consumed, k);
      }
    } else {
      assert consumed + IdSet(ids) == consumed;
    }
  }

  lemma PendingHeadless(segments: seq<Segment>, consumed: set<SegmentId>, ids: seq<SegmentId>)
    requires segments != [] && !(segments[0].role.Elder? && segments[0].id !in consumed)
    ensures PendingElder(segments, consumed + IdSet(ids)) == PendingElder(segments[1..], consumed + IdSet(ids))
  {
  }

  /**
   A batch takes the oldest pending segments, as many as fit beside the overlap, and when it is consumed exactly the
   others are still pending: no segment is skipped and none is offered again.
   */
  lemma NothingIsSkipped(segments: seq<Segment>, consumed: set<SegmentId>, config: Config, finalFlush: bool, now: int,
                         session: Id)
    requires Transcript(segments, session) && SelectBatch(segments, consumed, config, finalFlush, now).Some?
    ensures var ids, pending := SelectBatch(segments, consumed, config, finalFlush, now).value.newIds, PendingElder(segments, consumed);
            var room := MAX_CONTEXT_SEGMENTS - Max(0, config.overlapSegments);
            && |ids| == (if |pending| <= room then |pending| else room)
            && ids == Ids(pending[..|ids|])
            && PendingElder(segments, consumed + IdSet(ids)) == pending[|ids|..]
  {
    var ids := SelectBatch(segments, consumed, config, finalFlush, now).value.newIds;
    ConsumingAPrefix(segments, consumed, |ids|);
    assert NewSegments(segments, consumed, config) == PendingElder(segments, consumed)[..|ids|];
  }

  lemma {:induction false} EarlierAre(segments: seq<Segment>, startMs: int, s: Segment)
    ensures s in Earlier(segments, startMs)
            <==> s in segments && s.startMs < startMs && (s.role.Elder? || s.role.Interviewer?)
  {
    if segments != [] {
      EarlierAre(segments[1..], startMs, s);
      assert segments == [segments[0]] + segments[1..];
    }
  }

  lemma {:induction false} EarlierKeepsOrder(segments: seq<Segment>, startMs: int)
    requires forall i, j :: 0 <= i < j < |segments| ==> segments[i].startMs <= segments[j].startMs
    ensures var r := Earlier(segments, startMs);
            forall i, j :: 0 <= i < j < |r| ==> r[i].startMs <= r[j].startMs
  {
    if segments != [] {
      EarlierKeepsOrder(segments[1..], startMs);
      var rest := Earlier(segments[1..], startMs);
      forall i | 0 <= i < |rest| ensures segments[0].startMs <= rest[i].startMs {
        EarlierAre(segments[1..], startMs, rest[i]);
        var k :| 0 <= k < |segments[1..]| && segments[1..][k] == rest[i];
        assert segments[k + 1] == rest[i];
      }
    }
  }

  /** The last n of a sorted list: an element is among them, or starts no later than any of them. */
  lemma {:induction false} LastOfIsNearest(earlier: seq<Segment>, n: int, s: Segment)
    requires forall i, j :: 0 <= i < j < |earlier| ==> earlier[i].startMs <= earlier[j].startMs
    requires n >= 1 && s in earlier
    ensures var taken := LastOf(earlier, n);
            || s in taken
            || (|taken| == n && forall t :: t in taken ==> s.startMs <= t.startMs)
  {
    var taken := LastOf(earlier, n);
    var i :| 0 <= i < |earlier| && earlier[i] == s;
    if |earlier| > n && i < |earlier| - n {
      assert forall k :: 0 <= k < |taken| ==> taken[k] == earlier[|earlier| - n + k];
    } else {
      assert taken[i - (|earlier| - |taken|)] == s;
    }
  }

  /** The overlap is the nearest context: an earlier trusted segment is taken, or starts no later than any of n taken. */
  lemma OverlapIsNearest(segments: seq<Segment>, session: Id, startMs: int, n: int, s: Segment)
    requires Transcript(segments, session) && n >= 1
    requires s in segments && s.startMs < startMs && (s.role.Elder? || s.role.Interviewer?)
    ensures var taken := LastOf(Earlier(segments, startMs), n);
            || s in taken
            || (|taken| == n && forall t :: t in taken ==> s.startMs <= t.startMs)
  {
    EarlierKeepsOrder(segments, startMs);
    EarlierAre(segments, startMs, s);
    LastOfIsNearest(Earlier(segments, startMs), n, s);
  }

  /** With no overlap configured the batch takes every earlier segment, so its size has no bound. */
  lemma ZeroOverlapTakesEverythingEarlier(segments: seq<Segment>, consumed: set<SegmentId>, config: Config, finalFlush: bool,
                                          now: int)
    requires config.overlapSegments == 0 && SelectBatch(segments, consumed, config, finalFlush, now).Some?
    ensures var chosen := NewSegments(segments, consumed, config);
            && chosen != []
            && SelectBatch(segments, consumed, config, finalFlush, now).value.overlapIds
               == Ids(Earlier(segments, chosen[0].startMs))
  {
  }

  // ---------------------------------------------------------------- the runtime of one process

  datatype Status = Running | Succeeded | Failed | Cancelled

  datatype Job = Job(session: Id, status: Status, newIds: seq<SegmentId>, overlapIds: seq<SegmentId>)

  /** Where the work of one session stands. */
  datatype Phase = Selecting(finalFlush: bool) | Holding(batch: Batch) | Working(jobId: Id)

  datatype Consumption = Consumption(segmentId: SegmentId, jobId: Id)

  datatype World = World(
    transcripts: map<Id, seq<Segment>>, jobs: seq<Job>, consumptions: seq<Consumption>, active: map<Id, Phase>)

  function Consumed(rows: seq<Consumption>): set<SegmentId> {
    set i | 0 <= i < |rows| :: rows[i].segmentId
  }

  function TranscriptOf(w: World, session: Id): seq<Segment> {
    if session in w.transcripts then w.transcripts[session] else []
  }

  function RowsFor(ids: seq<SegmentId>, jobId: Id): (r: seq<Consumption>)
    ensures |r| == |ids|
  {
    seq(|ids|, i requires 0 <= i < |ids| => Consumption(ids[i], jobId))
  }

  datatype Step =
    | Wake(session: Id, finalFlush: bool)
    | Select(session: Id, config: Config, now: int)
    | FreezeSucceeds(session: Id)
    | FreezeFails(session: Id)
    | CommitSucceeds(session: Id)
    | WorkFails(session: Id, status: Status)
    | StaleScan(jobId: Id)
    | SetTranscript(session: Id, segments: seq<Segment>)
    | Crash

  ghost predicate Allowed(step: Step) {
    match step
    case SetTranscript(session, segments) => Transcript(segments, session)
    case WorkFails(_, status) => status.Failed? || status.Cancelled?
    case _ => true
  }

  function Next(w: World, step: Step): World {
    match step
    case Wake(session, finalFlush) =>
      if session in w.active then w else w.(active := w.active[session := Selecting(finalFlush)])
    case Select(session, config, now) =>
      if session !in w.active || !w.active[session].Selecting? then w
      else
        var batch := SelectBatch(TranscriptOf(w, session), Consumed(w.consumptions), config,
                                 w.active[session].finalFlush, now);
        w.(active := if batch.Some? then w.active[session := Holding(batch.value)] else w.active - {session})
    case FreezeSucceeds(session) =>
      if session !in w.active || !w.active[session].Holding? then w
      else
        var batch := w.active[session].batch;
        w.(jobs := w.jobs + [Job(session, Running, batch.newIds, batch.overlapIds)],
           active := w.active[session := Working(|w.jobs|)])
    case FreezeFails(session) =>
      if session in w.active && w.active[session].Holding? then w.(active := w.active - {session}) else w
    case CommitSucceeds(session) =>
      if session !in w.active || !w.active[session].Working? || w.active[session].jobId >= |w.jobs| then w
      else
        var id := w.active[session].jobId;
        if !w.jobs[id].status.Running? then w.(active := w.active - {session})
        else w.(jobs := w.jobs[id := w.jobs[id].(status := Succeeded)],
                consumptions := w.consumptions + RowsFor(w.jobs[id].newIds, id),
                active := w.active - {session})
    case WorkFails(session, status) =>
      if session !in w.active || !w.active[session].Working? || w.active[session].jobId >= |w.jobs| then w
      else
        var id := w.active[session].jobId;
        w.(jobs := if w.jobs[id].status.Running? then w.jobs[id := w.jobs[id].(status := status)] else w.jobs,
           active := w.active - {session})
    case StaleScan(jobId) =>
      if jobId < |w.jobs| && w.jobs[jobId].status.Running? then w.(jobs := w.jobs[jobId := w.jobs[jobId].(status := Failed)])
      else w
    case SetTranscript(session, segments) => w.(transcripts := w.transcripts[session := segments])
    case Crash => w.(active := map[])
  }

  /** The loop that records one consumption per new segment; the table refuses a segment twice. */
  method RecordConsumptions(rows: seq<Consumption>, newIds: seq<SegmentId>, jobId: Id)
    returns (after: seq<Consumption>, refused: bool)
    ensures refused <==> !DistinctIds(newIds) || exists id :: id in newIds && id in Consumed(rows)
    ensures after == if refused then rows else rows + RowsFor(newIds, jobId)
  {
    after, refused := rows, false;
    for i := 0 to |newIds|
      invariant after == rows + RowsFor(newIds[..i], jobId)
      invariant DistinctIds(newIds[..i]) && forall k :: 0 <= k < i ==> newIds[k] !in Consumed(rows)
    {
      ConsumedMore(rows, newIds[..i], jobId, newIds[i]);
      if newIds[i] in Consumed(after) {
        assert newIds[i] in Consumed(rows) || exists k :: 0 <= k < i && newIds[k] == newIds[i];
        return rows, true;
      }
      assert newIds[..i + 1] == newIds[..i] + [newIds[i]];
      after := after + [Consumption(newIds[i], jobId)];
    }
    assert newIds[..|newIds|] == newIds;
  }

  lemma ConsumedMore(rows: seq<Consumption>, ids: seq<SegmentId>, jobId: Id, id: SegmentId)
    ensures id in Consumed(rows + RowsFor(ids, jobId)) <==> id in Consumed(rows) || id in ids
  {
    var all := rows + RowsFor(ids, jobId);
    if id in Consumed(rows) {
      var i :| 0 <= i < |rows| && rows[i].segmentId == id;
      assert all[i].segmentId == id;
    }
    if id in ids {
      var i :| 0 <= i < |ids| && ids[i] == id;
      assert all[|rows| + i].segmentId == id;
    }
  }

  // ---------------------------------------------------------------- at most once

  ghost predicate ConsumedOnce(rows: seq<Consumption>) {
    forall i, j :: 0 <= i < j < |rows| ==> rows[i].segmentId != rows[j].segmentId
  }

  ghost predicate RowBacked(w: World, c: Consumption) {
    && c.jobId < |w.jobs|
    && w.jobs[c.jobId].status.Succeeded?
    && c.segmentId in w.jobs[c.jobId].newIds
  }

  /** The members a session's running work is about to consume. */
  ghost predicate Reserved(w: World, session: Id, ids: seq<SegmentId>) {
    && DistinctIds(ids)
    && forall id :: id in ids ==> id.session == session && id !in Consumed(w.consumptions)
  }

  ghost predicate PhaseOk(w: World, session: Id)
    requires session in w.active
  {
    match w.active[session]
    case Selecting(_) => true
    case Holding(batch) => Reserved(w, session, batch.newIds)
    case Working(jobId) => jobId < |w.jobs| && w.jobs[jobId].session == session && Reserved(w, session, w.jobs[jobId].newIds)
  }

  ghost predicate JobShape(job: Job) {
    && (forall id :: id in job.newIds ==> id.session == job.session)
    && (forall id :: id in job.newIds ==> id !in job.overlapIds)
  }

  /** What every reachable state keeps. */
  ghost predicate Inv(w: World) {
    && ConsumedOnce(w.consumptions)
    && (forall c :: c in w.consumptions ==> RowBacked(w, c))
    && (forall j :: 0 <= j < |w.jobs| && w.jobs[j].status.Succeeded? ==>
          forall id :: id in w.jobs[j].newIds ==> Consumption(id, j) in w.consumptions)
    && (forall s :: s in w.active ==> PhaseOk(w, s))
    && (forall j :: 0 <= j < |w.jobs| ==> JobShape(w.jobs[j]))
    && (forall s :: s in w.active && w.active[s].Holding? ==>
          forall id :: id in w.active[s].batch.newIds ==> id !in w.active[s].batch.overlapIds)
    && (forall s :: s in w.transcripts ==> Transcript(w.transcripts[s], s))
  }

  lemma CommitKeeps(w: World, session: Id)
    requires Inv(w)
    ensures Inv(Next(w, CommitSucceeds(session)))
  {
    var after := Next(w, CommitSucceeds(session));
    if after.consumptions != w.consumptions {
      var id := w.active[session].jobId;
      assert PhaseOk(w, session);
      var added := RowsFor(w.jobs[id].newIds, id);
      assert after.consumptions == w.consumptions + added;
      forall c | c in after.consumptions ensures RowBacked(after, c) {
        if c in w.consumptions {
          assert RowBacked(w, c);
        }
      }
      forall i, j | 0 <= i < j < |after.consumptions|
        ensures after.consumptions[i].segmentId != after.consumptions[j].segmentId
      {
        if i < |w.consumptions| <= j {
          assert after.consumptions[i].segmentId in Consumed(w.consumptions);
          assert added[j - |w.consumptions|].segmentId in w.jobs[id].newIds;
        }
      }
      forall s | s in after.active ensures PhaseOk(after, s) {
        assert PhaseOk(w, s);
        OtherSessionsKeepReserved(w, after, session, s, id);
      }
      NewIdsGetRows(w.jobs[id].newIds, id);
    }
  }

  lemma NewIdsGetRows(ids: seq<SegmentId>, jobId: Id)
    ensures forall sid :: sid in ids ==> Consumption(sid, jobId) in RowsFor(ids, jobId)
  {
    forall sid | sid in ids ensures Consumption(sid, jobId) in RowsFor(ids, jobId) {
      var k :| 0 <= k < |ids| && ids[k] == sid;
      assert RowsFor(ids, jobId)[k] == Consumption(sid, jobId);
    }
  }

  lemma OtherSessionsKeepReserved(w: World, after: World, session: Id, s: Id, id: Id)
    requires s in w.active && s != session && PhaseOk(w, s) && s in after.active && after.active[s] == w.active[s]
    requires id < |w.jobs| && w.jobs[id].session == session && Reserved(w, session, w.jobs[id].newIds)
    requires after.consumptions == w.consumptions + RowsFor(w.jobs[id].newIds, id)
    requires after.jobs == w.jobs[id := w.jobs[id].(status := Succeeded)]
    ensures PhaseOk(after, s)
  {
    forall x | x in Consumed(after.consumptions) ensures x in Consumed(w.consumptions) || x.session == session {
      ConsumedMore(w.consumptions, w.jobs[id].newIds, id, x);
    }
  }

  lemma SelectKeeps(w: World, session: Id, config: Config, now: int)
    requires Inv(w)
    ensures Inv(Next(w, Select(session, config, now)))
  {
    var after := Next(w, Select(session, config, now));
    if after != w && session in after.active {
      var segments := TranscriptOf(w, session);
      SelectedBatchShape(segments, Consumed(w.consumptions), config, w.active[session].finalFlush, now, session);
    }
    forall s | s in after.active ensures PhaseOk(after, s) {
      assert s != session || after == w ==> PhaseOk(w, s);
    }
  }

  lemma FreezeKeeps(w: World, session: Id)
    requires Inv(w)
    ensures Inv(Next(w, FreezeSucceeds(session)))
  {
    var after := Next(w, FreezeSucceeds(session));
    if after != w {
      assert PhaseOk(w, session);
      forall c | c in after.consumptions ensures RowBacked(after, c) {
        assert RowBacked(w, c);
      }
      forall s | s in after.active ensures PhaseOk(after, s) {
        assert PhaseOk(w, s);
      }
    }
  }

  /** Steps that touch neither consumptions nor what the running work holds. */
  lemma StatusChangeKeeps(w: World, after: World)
    requires Inv(w)
    requires after.consumptions == w.consumptions && |after.jobs| == |w.jobs|
    requires forall j :: 0 <= j < |w.jobs| ==>
               after.jobs[j] == w.jobs[j].(status := after.jobs[j].status)
               && (after.jobs[j].status.Succeeded? <==> w.jobs[j].status.Succeeded?)
    requires forall s :: s in after.active ==>
               (s in w.active && after.active[s] == w.active[s]) || after.active[s].Selecting?
    requires forall s :: s in after.transcripts ==> Transcript(after.transcripts[s], s)
    ensures Inv(after)
  {
    forall c | c in after.consumptions ensures RowBacked(after, c) {
      assert RowBacked(w, c);
    }
    forall s | s in after.active ensures PhaseOk(after, s) {
      assert s in w.active && after.active[s] == w.active[s] ==> PhaseOk(w, s);
    }
  }

  lemma StepKeepsInv(w: World, step: Step)
    requires Inv(w) && Allowed(step)
    ensures Inv(Next(w, step))
  {
    match step
    case Select(session, config, now) => SelectKeeps(w, session, config, now);
    case FreezeSucceeds(session) => FreezeKeeps(w, session);
    case CommitSucceeds(session) => CommitKeeps(w, session);
    case _ => StatusChangeKeeps(w, Next(w, step));
  }

  ghost predicate AllAllowed(steps: seq<Step>) {
    forall i :: 0 <= i < |steps| ==> Allowed(steps[i])
  }

  function Run(w: World, steps: seq<Step>): World
    decreases |steps|
  {
    if steps == [] then w else Run(Next(w, steps[0]), steps[1..])
  }

  lemma {:induction false} RunKeepsInv(w: World, steps: seq<Step>)
    requires Inv(w) && AllAllowed(steps)
    ensures Inv(Run(w, steps))
    decreases |steps|
  {
    if steps != [] {
      StepKeepsInv(w, steps[0]);
      RunKeepsInv(Next(w, steps[0]), steps[1..]);
    }
  }

  const EMPTY := World(map[], [], [], map[])

  /** The new members of all succeeded jobs. */
  function NewMembersOfSucceeded(jobs: seq<Job>): set<SegmentId> {
    set j, id | 0 <= j < |jobs| && jobs[j].status.Succeeded? && id in jobs[j].newIds :: id
  }

  /**
   In one process, over any sequence of wake-ups, scans, failures and crashes: a segment is consumed at
   most once, the consumed segments are exactly the new members of the succeeded jobs, and no job's new
   and overlap members meet.
   */
  lemma SegmentsAreConsumedAtMostOnce(steps: seq<Step>)
    requires AllAllowed(steps)
    ensures var w := Run(EMPTY, steps);
            && ConsumedOnce(w.consumptions)
            && Consumed(w.consumptions) == NewMembersOfSucceeded(w.jobs)
            && (forall j, id :: 0 <= j < |w.jobs| && id in w.jobs[j].newIds ==> id !in w.jobs[j].overlapIds)
  {
    RunKeepsInv(EMPTY, steps);
    var w := Run(EMPTY, steps);
    forall id ensures id in Consumed(w.consumptions) <==> id in NewMembersOfSucceeded(w.jobs) {
      if id in Consumed(w.consumptions) {
        var i :| 0 <= i < |w.consumptions| && w.consumptions[i].segmentId == id;
        assert RowBacked(w, w.consumptions[i]);
      }
      if id in NewMembersOfSucceeded(w.jobs) {
        var j :| 0 <= j < |w.jobs| && w.jobs[j].status.Succeeded? && id in w.jobs[j].newIds;
        assert Consumption(id, j) in w.consumptions;
        var i :| 0 <= i < |w.consumptions| && w.consumptions[i] == Consumption(id, j);
      }
    }
    forall j, id | 0 <= j < |w.jobs| && id in w.jobs[j].newIds ensures id !in w.jobs[j].overlapIds {
      assert JobShape(w.jobs[j]);
    }
  }

  /** So the consumption table never refuses a running commit. */
  lemma CommitIsNeverRefused(steps: seq<Step>, session: Id)
    requires AllAllowed(steps)
    requires var w := Run(EMPTY, steps);
             session in w.active && w.active[session].Working? && w.active[session].jobId < |w.jobs|
    ensures var w := Run(EMPTY, steps);
            var ids := w.jobs[w.active[session].jobId].newIds;
            DistinctIds(ids) && forall id :: id in ids ==> id !in Consumed(w.consumptions)
  {
    RunKeepsInv(EMPTY, steps);
    assert PhaseOk(Run(EMPTY, steps), session);
  }
}
