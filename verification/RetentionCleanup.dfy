/**
 The life of a retention root: hidden once it has expired, then purged by the cleanup request that hid it. A purge reads
 the request's audit, runs one transaction and, if that fails, marks the root and then the audit; other cleanups may come
 in between any two of these. Audits outlive the roots.
 */
module RetentionCleanup {
  import opened Options

  type Id = nat
  type Instant = int

  datatype RootState = Active | Hidden | CleanupFailed

  /** `expiresAt` never changes; the purging state lives only inside the transaction that deletes the root. */
  datatype Root = Root(expiresAt: Instant, state: RootState, request: Option<Id>, attempts: nat)

  datatype AuditOutcome = Purged | PurgeFailed
  datatype Audit = Audit(outcome: AuditOutcome, rootId: Id, attempts: nat)

  /** Roots of every kind, and one audit per cleanup request. */
  datatype Store = Store(roots: map<Id, Root>, audits: map<Id, Audit>)

  datatype CleanupError = NotExpired | IdentityMismatch | HideRequired | TransactionFailed

  function Hide(s: Store, id: Id, request: Id, now: Instant): Result<Store, CleanupError> {
    if id !in s.roots then Ok(s)
    else
      var root := s.roots[id];
      if root.expiresAt > now then Err(NotExpired)
      else if root.request.Some? && root.request != Some(request) then Err(IdentityMismatch)
      else if root.state.Hidden? || root.state.CleanupFailed? then Ok(s)
      else Ok(s.(roots := s.roots[id := root.(state := Hidden, request := Some(request), attempts := root.attempts + 1)]))
  }

  predicate AlreadyPurged(s: Store, request: Id) {
    request in s.audits && s.audits[request].outcome.Purged?
  }

  /** Writes the request's audit; an audit that is there keeps the root it names and counts one attempt more. */
  function Audited(s: Store, id: Id, request: Id, outcome: AuditOutcome, first: nat): Store {
    var audit := if request in s.audits
                 then s.audits[request].(outcome := outcome, attempts := s.audits[request].attempts + 1)
                 else Audit(outcome, id, first);
    s.(audits := s.audits[request := audit])
  }

  /** The transaction of a purge, unless it fails for a reason of its own. */
  function Transact(s: Store, id: Id, request: Id): Result<Store, CleanupError> {
    if id !in s.roots then Ok(s)
    else
      var root := s.roots[id];
      if root.request != Some(request) then Err(IdentityMismatch)
      else if !root.state.Hidden? && !root.state.CleanupFailed? then Err(HideRequired)
      else Ok(Audited(s.(roots := s.roots - {id}), id, request, Purged, root.attempts + 1))
  }

  /** Marks the root after a failed transaction; there is nothing more to do if it is gone. */
  function MarkRoot(s: Store, id: Id): Option<Store> {
    if id in s.roots then Some(s.(roots := s.roots[id := s.roots[id].(state := CleanupFailed)])) else None
  }

  function MarkAudit(s: Store, id: Id, request: Id): Store {
    Audited(s, id, request, PurgeFailed, 1)
  }

  /** A purge that nothing interrupts; `fails` says whether its transaction fails for a reason of its own. */
  function Purge(s: Store, id: Id, request: Id, fails: bool): (Store, Option<CleanupError>) {
    if AlreadyPurged(s, request) then (s, None)
    else if fails then
      (match MarkRoot(s, id)
       case Some(marked) => (MarkAudit(marked, id, request), Some(TransactionFailed))
       case None => (s, Some(TransactionFailed)))
    else
      match Transact(s, id, request)
      case Ok(after) => (after, None)
      case Err(error) => (s, Some(error))
  }

  class RetentionService {
    var roots: map<Id, Root>
    var audits: map<Id, Audit>

    constructor (roots: map<Id, Root>)
      ensures Rows() == Store(roots, map[])
    {
      this.roots, audits := roots, map[];
    }

    ghost function Rows(): Store
      reads this
    {
      Store(roots, audits)
    }

    method HideExpired(id: Id, request: Id, now: Instant) returns (error: Option<CleanupError>)
      modifies this
      ensures match Hide(old(Rows()), id, request, now)
              case Ok(after) => Rows() == after && error.None?
              case Err(e) => Rows() == old(Rows()) && error == Some(e)
    {
      if id !in roots { return None; }
      var root := roots[id];
      if root.expiresAt > now { return Some(NotExpired); }
      if root.request.Some? && root.request != Some(request) { return Some(IdentityMismatch); }
      if root.state.Active? {
        roots := roots[id := Root(root.expiresAt, Hidden, Some(request), root.attempts + 1)];
      }
      return None;
    }

    method UpsertAudit(id: Id, request: Id, outcome: AuditOutcome, first: nat)
      modifies this`audits
      ensures Rows() == Audited(old(Rows()), id, request, outcome, first)
    {
      if request in audits {
        var audit := audits[request];
        audits := audits[request := Audit(outcome, audit.rootId, audit.attempts + 1)];
      } else {
        audits := audits[request := Audit(outcome, id, first)];
      }
    }

    method RunTransaction(id: Id, request: Id) returns (error: Option<CleanupError>)
      modifies this
      ensures match Transact(old(Rows()), id, request)
              case Ok(after) => Rows() == after && error.None?
              case Err(e) => Rows() == old(Rows()) && error == Some(e)
    {
      if id !in roots { return None; }
      var root := roots[id];
      if root.request != Some(request) { return Some(IdentityMismatch); }
      if !root.state.Hidden? && !root.state.CleanupFailed? { return Some(HideRequired); }
      roots := roots - {id};
      UpsertAudit(id, request, Purged, root.attempts + 1);
      return None;
    }

    method PurgeRoot(id: Id, request: Id, fails: bool) returns (error: Option<CleanupError>)
      modifies this
      ensures (Rows(), error) == Purge(old(Rows()), id, request, fails)
    {
      if request in audits && audits[request].outcome.Purged? { return None; }
      if !fails {
        error := RunTransaction(id, request);
        return;
      }
      if id in roots {
        roots := roots[id := roots[id].(state := CleanupFailed)];
        UpsertAudit(id, request, PurgeFailed, 1);
      }
      return Some(TransactionFailed);
    }
  }

  // ---------------------------------------------------------------- steps

  datatype Phase = AuditRead | TransactionLost | RootMarked

  /** A purge under way. */
  datatype Purging = Purging(rootId: Id, request: Id, phase: Phase)

  /** `purges` are the purges under way; `used` are the identifiers roots ever had or callers ever named. */
  datatype World = World(s: Store, purges: map<Id, Purging>, used: set<Id>, now: Instant)

  datatype Step =
    | CreateRoot(id: Id, expiresAt: Instant)
    | HideRoot(id: Id, request: Id)
    | ReadAudit(h: Id, id: Id, request: Id)
    | TransactStep(h: Id, fails: bool)
    | MarkRootStep(h: Id)
    | MarkAuditStep(h: Id)
    | Crash(h: Id)
    | Wait(duration: nat)

  /** A new root gets an identifier of its own, a purge a handle of its own; each piece follows the one before it. */
  predicate Allowed(w: World, step: Step) {
    match step
    case CreateRoot(id, _) => id !in w.used
    case ReadAudit(h, _, _) => h !in w.purges
    case TransactStep(h, _) => h in w.purges && w.purges[h].phase.AuditRead?
    case MarkRootStep(h) => h in w.purges && w.purges[h].phase.TransactionLost?
    case MarkAuditStep(h) => h in w.purges && w.purges[h].phase.RootMarked?
    case _ => true
  }

  function Kept<T>(result: Result<T, CleanupError>, default: T): T {
    match result
    case Ok(value) => value
    case Err(_) => default
  }

  function At(w: World, h: Id, phase: Phase): map<Id, Purging>
    requires h in w.purges
  {
    w.purges[h := w.purges[h].(phase := phase)]
  }

  function Next(w: World, step: Step): World
    requires Allowed(w, step)
  {
    match step
    case CreateRoot(id, expiresAt) =>
      w.(s := w.s.(roots := w.s.roots[id := Root(expiresAt, Active, None, 0)]), used := w.used + {id})
    case HideRoot(id, request) => w.(s := Kept(Hide(w.s, id, request, w.now), w.s))
    case ReadAudit(h, id, request) =>
      w.(used := w.used + {id},
         purges := if AlreadyPurged(w.s, request) then w.purges else w.purges[h := Purging(id, request, AuditRead)])
    case TransactStep(h, fails) =>
      if fails then w.(purges := At(w, h, TransactionLost))
      else w.(s := Kept(Transact(w.s, w.purges[h].rootId, w.purges[h].request), w.s), purges := w.purges - {h})
    case MarkRootStep(h) =>
      (match MarkRoot(w.s, w.purges[h].rootId)
       case Some(marked) => w.(s := marked, purges := At(w, h, RootMarked))
       case None => w.(purges := w.purges - {h}))
    case MarkAuditStep(h) =>
      w.(s := MarkAudit(w.s, w.purges[h].rootId, w.purges[h].request), purges := w.purges - {h})
    case Crash(h) => w.(purges := w.purges - {h})
    case Wait(duration) => w.(now := w.now + duration)
  }

  ghost predicate Moves(worlds: seq<World>, steps: seq<Step>, n: nat)
    requires n < |steps| && |worlds| == |steps| + 1
  {
    Allowed(worlds[n], steps[n]) && worlds[n + 1] == Next(worlds[n], steps[n])
  }

  /** A run: the worlds before, between and after its steps. */
  ghost predicate IsRun(worlds: seq<World>, steps: seq<Step>) {
    && |worlds| == |steps| + 1
    && forall n: nat {:trigger Moves(worlds, steps, n)} :: n < |steps| ==> Moves(worlds, steps, n)
  }

  // ---------------------------------------------------------------- roots

  ghost predicate RootOk(w: World, id: Id)
    requires id in w.s.roots
  {
    var root := w.s.roots[id];
    && id in w.used
    && (root.state.Active? ==> root.request.None?)
    && (root.state.Hidden? ==> root.request.Some?)
    && (root.request.Some? ==> root.expiresAt <= w.now)
  }

  ghost predicate Inv(w: World) {
    && (forall id :: id in w.s.roots ==> RootOk(w, id))
    && (forall h :: h in w.purges ==> w.purges[h].rootId in w.used)
  }

  /** The purge is of this root, which has expired, under the request that hid it. */
  predicate OwnPurge(w: World, h: Id, id: Id) {
    && h in w.purges && w.purges[h].rootId == id
    && id in w.s.roots && w.s.roots[id].request == Some(w.purges[h].request) && w.s.roots[id].expiresAt <= w.now
  }

  /** How one step may treat a root that is there. */
  ghost predicate RootSafe(w: World, after: World, step: Step, id: Id)
    requires id in w.s.roots
  {
    var before := w.s.roots[id];
    if id in after.s.roots then
      && after.s.roots[id].expiresAt == before.expiresAt
      && (before.request.Some? ==> after.s.roots[id].request == before.request)
      && (!before.state.Active? ==> !after.s.roots[id].state.Active?)
    else step.TransactStep? && !step.fails && OwnPurge(w, step.h, id)
  }

  lemma StepKeepsRoots(w: World, step: Step)
    requires Inv(w) && Allowed(w, step)
    ensures Inv(Next(w, step)) && w.used <= Next(w, step).used
    ensures forall id :: id in w.s.roots ==> RootSafe(w, Next(w, step), step, id)
    ensures forall id :: id in w.used && id !in w.s.roots ==> id !in Next(w, step).s.roots
  {
    var after := Next(w, step);
    forall id | id in after.s.roots ensures RootOk(after, id) {
      if id in w.s.roots {
        assert RootOk(w, id);
      }
    }
    forall id | id in w.s.roots ensures RootSafe(w, after, step, id) {
      assert RootOk(w, id);
    }
  }

  lemma {:induction false} RunKeepsInv(worlds: seq<World>, steps: seq<Step>, n: nat)
    requires IsRun(worlds, steps) && n <= |steps| && Inv(worlds[0])
    ensures Inv(worlds[n])
  {
    if n > 0 {
      RunKeepsInv(worlds, steps, n - 1);
      assert Moves(worlds, steps, n - 1);
      StepKeepsRoots(worlds[n - 1], steps[n - 1]);
    }
  }

  /** A root that is gone never comes back. */
  lemma {:induction false} GoneStaysGone(worlds: seq<World>, steps: seq<Step>, m: nat, n: nat, id: Id)
    requires IsRun(worlds, steps) && m <= n <= |steps| && Inv(worlds[0])
    requires id in worlds[m].used && id !in worlds[m].s.roots
    ensures id in worlds[n].used && id !in worlds[n].s.roots
    decreases n
  {
    if m < n {
      GoneStaysGone(worlds, steps, m, n - 1, id);
      RunKeepsInv(worlds, steps, n - 1);
      assert Moves(worlds, steps, n - 1);
      StepKeepsRoots(worlds[n - 1], steps[n - 1]);
    }
  }

  /** If a root disappears during a run, then only after it expired and by a purge of the request that had hidden it. */
  lemma {:induction false} RootsLeaveByTheirOwnPurge(worlds: seq<World>, steps: seq<Step>, n: nat, id: Id) returns (i: nat)
    requires IsRun(worlds, steps) && n <= |steps| && Inv(worlds[0])
    requires id in worlds[0].s.roots && id !in worlds[n].s.roots
    ensures i < n && steps[i].TransactStep? && !steps[i].fails && OwnPurge(worlds[i], steps[i].h, id)
  {
    RunKeepsInv(worlds, steps, n - 1);
    assert Moves(worlds, steps, n - 1);
    StepKeepsRoots(worlds[n - 1], steps[n - 1]);
    if id in worlds[n - 1].s.roots {
      i := n - 1;
      assert RootSafe(worlds[i], worlds[n], steps[i], id);
    } else {
      i := RootsLeaveByTheirOwnPurge(worlds, steps, n - 1, id);
    }
  }

  /**
   A purge that reports success has removed the root, unless its request had already finished another purge: then the
   root is left where it was, silently.
   */
  lemma SuccessfulPurgeRemoves(s: Store, id: Id, request: Id, fails: bool)
    requires Purge(s, id, request, fails).1.None?
    ensures id in Purge(s, id, request, fails).0.roots <==> id in s.roots && AlreadyPurged(s, request)
  {
  }

  // ---------------------------------------------------------------- finished audits

  /** A purge under way that can still write the request's audit: its root is there, or was when it was marked. */
  predicate CanWrite(w: World, h: Id, request: Id) {
    h in w.purges && w.purges[h].request == request && (w.purges[h].phase.RootMarked? || w.purges[h].rootId in w.s.roots)
  }

  ghost predicate MayBeRewritten(w: World, request: Id) {
    exists h :: CanWrite(w, h, request)
  }

  /** Where no purge can still write a finished audit, none ever will. */
  lemma FinishedAuditStep(w: World, step: Step, request: Id)
    requires Inv(w) && Allowed(w, step) && AlreadyPurged(w.s, request) && !MayBeRewritten(w, request)
    ensures var after := Next(w, step);
            && request in after.s.audits && after.s.audits[request] == w.s.audits[request]
            && !MayBeRewritten(after, request)
  {
    var after := Next(w, step);
    forall h ensures !CanWrite(after, h, request) {
      assert !CanWrite(w, h, request);
    }
    if step.TransactStep? || step.MarkAuditStep? {
      assert !CanWrite(w, step.h, request);
    }
  }

  lemma {:induction false} FinishedAuditStays(worlds: seq<World>, steps: seq<Step>, m: nat, n: nat, request: Id)
    requires IsRun(worlds, steps) && m <= n <= |steps| && Inv(worlds[0])
    requires AlreadyPurged(worlds[m].s, request) && !MayBeRewritten(worlds[m], request)
    ensures request in worlds[n].s.audits && worlds[n].s.audits[request] == worlds[m].s.audits[request]
    ensures !MayBeRewritten(worlds[n], request)
    decreases n
  {
    if m < n {
      FinishedAuditStays(worlds, steps, m, n - 1, request);
      RunKeepsInv(worlds, steps, n - 1);
      assert Moves(worlds, steps, n - 1);
      FinishedAuditStep(worlds[n - 1], steps[n - 1], request);
    }
  }

  /** What is left of a purge whose transaction fails. */
  function FailingRest(p: Purging, h: Id): seq<Step> {
    match p.phase
    case AuditRead => [TransactStep(h, true), MarkRootStep(h), MarkAuditStep(h)]
    case TransactionLost => [MarkRootStep(h), MarkAuditStep(h)]
    case RootMarked => [MarkAuditStep(h)]
  }

  /** The worlds of a purge that fails from here on. */
  function FailingWorlds(w: World, h: Id): seq<World>
    requires h in w.purges && (w.purges[h].phase.RootMarked? || w.purges[h].rootId in w.s.roots)
  {
    match w.purges[h].phase
    case AuditRead =>
      var w1 := Next(w, TransactStep(h, true));
      var w2 := Next(w1, MarkRootStep(h));
      [w, w1, w2, Next(w2, MarkAuditStep(h))]
    case TransactionLost =>
      var w1 := Next(w, MarkRootStep(h));
      [w, w1, Next(w1, MarkAuditStep(h))]
    case RootMarked => [w, Next(w, MarkAuditStep(h))]
  }

  lemma FailingRestIsARun(w: World, h: Id, request: Id)
    requires AlreadyPurged(w.s, request) && CanWrite(w, h, request)
    ensures var worlds, steps := FailingWorlds(w, h), FailingRest(w.purges[h], h);
            && IsRun(worlds, steps) && worlds[0] == w
            && request in worlds[|steps|].s.audits && worlds[|steps|].s.audits[request].outcome.PurgeFailed?
  {
    var worlds, steps := FailingWorlds(w, h), FailingRest(w.purges[h], h);
    forall n: nat | n < |steps| ensures Moves(worlds, steps, n) {
    }
  }

  ghost predicate RewrittenBy(worlds: seq<World>, steps: seq<Step>, w: World, request: Id) {
    && IsRun(worlds, steps) && worlds[0] == w
    && (request in w.s.audits ==>
          request !in worlds[|steps|].s.audits || worlds[|steps|].s.audits[request] != w.s.audits[request])
  }

  /**
   A finished audit can still be rewritten exactly while some purge of its request is under way whose root is there, or
   has already been marked.
   */
  lemma FinishedAuditIsRewrittenExactlyWhen(w: World, request: Id)
    requires Inv(w) && AlreadyPurged(w.s, request)
    ensures MayBeRewritten(w, request) <==> exists worlds, steps :: RewrittenBy(worlds, steps, w, request)
  {
    if MayBeRewritten(w, request) {
      var h :| CanWrite(w, h, request);
      FailingRestIsARun(w, h, request);
      assert RewrittenBy(FailingWorlds(w, h), FailingRest(w.purges[h], h), w, request);
    } else {
      forall worlds, steps | RewrittenBy(worlds, steps, w, request) ensures false {
        FinishedAuditStays(worlds, steps, 0, |steps|, request);
      }
    }
  }

  // ---------------------------------------------------------------- roots that are left behind

  /** The request has finished a purge and has none under way. */
  ghost predicate RequestDone(w: World, request: Id) {
    AlreadyPurged(w.s, request) && forall h :: h in w.purges ==> w.purges[h].request != request
  }

  lemma LeftRootStep(w: World, step: Step, id: Id, request: Id)
    requires Inv(w) && Allowed(w, step) && RequestDone(w, request)
    requires id in w.s.roots && w.s.roots[id].request == Some(request)
    ensures var after := Next(w, step);
            RequestDone(after, request) && id in after.s.roots && after.s.roots[id].request == Some(request)
  {
    forall h ensures !CanWrite(w, h, request) {
    }
    FinishedAuditStep(w, step, request);
    StepKeepsRoots(w, step);
    assert RootSafe(w, Next(w, step), step, id);
  }

  /** A second root of a request that has finished stays for good, and every purge of it reports success. */
  lemma {:induction false} SecondRootStays(worlds: seq<World>, steps: seq<Step>, m: nat, n: nat, id: Id, request: Id)
    requires IsRun(worlds, steps) && m <= n <= |steps| && Inv(worlds[0]) && RequestDone(worlds[m], request)
    requires id in worlds[m].s.roots && worlds[m].s.roots[id].request == Some(request)
    ensures RequestDone(worlds[n], request)
    ensures id in worlds[n].s.roots && worlds[n].s.roots[id].request == Some(request)
    ensures Purge(worlds[n].s, id, request, false) == (worlds[n].s, None)
    decreases n
  {
    if m < n {
      SecondRootStays(worlds, steps, m, n - 1, id, request);
      RunKeepsInv(worlds, steps, n - 1);
      assert Moves(worlds, steps, n - 1);
      LeftRootStep(worlds[n - 1], steps[n - 1], id, request);
    }
  }

  /** A root that a failed transaction marked before it was ever hidden. */
  predicate Stranded(w: World, id: Id) {
    id in w.s.roots && w.s.roots[id].state.CleanupFailed? && w.s.roots[id].request.None?
  }

  lemma StrandedStep(w: World, step: Step, id: Id)
    requires Inv(w) && Allowed(w, step) && Stranded(w, id)
    ensures Stranded(Next(w, step), id)
  {
    assert RootOk(w, id);
    StepKeepsRoots(w, step);
  }

  /** Such a root is never hidden under a request and never purged. */
  lemma {:induction false} StrandedStays(worlds: seq<World>, steps: seq<Step>, m: nat, n: nat, id: Id)
    requires IsRun(worlds, steps) && m <= n <= |steps| && Inv(worlds[0]) && Stranded(worlds[m], id)
    ensures Stranded(worlds[n], id)
    decreases n
  {
    if m < n {
      StrandedStays(worlds, steps, m, n - 1, id);
      RunKeepsInv(worlds, steps, n - 1);
      assert Moves(worlds, steps, n - 1);
      StrandedStep(worlds[n - 1], steps[n - 1], id);
    }
  }

  // ---------------------------------------------------------------- concrete runs

  const FRESH := Root(10, Active, None, 0)
  const HIDDEN := Root(10, Hidden, Some(7), 1)
  const EMPTY := World(Store(map[], map[]), map[], {}, 10)
  const ONE_ROOT := World(Store(map[1 := FRESH], map[]), map[], {1}, 10)
  const TWO_ROOTS := World(Store(map[1 := FRESH, 2 := FRESH], map[]), map[], {1, 2}, 10)
  const ONE_HIDDEN := TWO_ROOTS.(s := Store(map[1 := HIDDEN, 2 := FRESH], map[]))
  const BOTH_HIDDEN := TWO_ROOTS.(s := Store(map[1 := HIDDEN, 2 := HIDDEN], map[]))

  const HIDING := [CreateRoot(1, 10), CreateRoot(2, 10), HideRoot(1, 7), HideRoot(2, 7)]
  const HIDING_WORLDS := [EMPTY, ONE_ROOT, TWO_ROOTS, ONE_HIDDEN, BOTH_HIDDEN]

  lemma BothAreHidden()
    ensures IsRun(HIDING_WORLDS, HIDING) && Inv(EMPTY)
  {
    assert Moves(HIDING_WORLDS, HIDING, 0) && Moves(HIDING_WORLDS, HIDING, 1);
    assert Moves(HIDING_WORLDS, HIDING, 2) && Moves(HIDING_WORLDS, HIDING, 3);
  }

  lemma {:induction false} Continued(worlds: seq<World>, steps: seq<Step>, step: Step)
    requires IsRun(worlds, steps) && Allowed(worlds[|steps|], step)
    ensures IsRun(worlds + [Next(worlds[|steps|], step)], steps + [step])
  {
    var worlds', steps' := worlds + [Next(worlds[|steps|], step)], steps + [step];
    forall n: nat | n < |steps'| ensures Moves(worlds', steps', n) {
      if n < |steps| {
        assert Moves(worlds, steps, n);
      }
    }
  }

  const READING := BOTH_HIDDEN.(purges := map[0 := Purging(1, 7, AuditRead)])
  const FIRST_PURGED := World(Store(map[2 := HIDDEN], map[7 := Audit(Purged, 1, 2)]), map[], {1, 2}, 10)

  /** One cleanup request for two expired roots: once it has purged the first, the second stays for good. */
  lemma SharedRequestLeavesARoot()
    ensures IsRun(HIDING_WORLDS + [READING] + [FIRST_PURGED], HIDING + [ReadAudit(0, 1, 7)] + [TransactStep(0, false)])
    ensures RequestDone(FIRST_PURGED, 7) && 2 in FIRST_PURGED.s.roots && FIRST_PURGED.s.roots[2].request == Some(7)
    ensures Purge(FIRST_PURGED.s, 2, 7, false) == (FIRST_PURGED.s, None)
  {
    BothAreHidden();
    Continued(HIDING_WORLDS, HIDING, ReadAudit(0, 1, 7));
    Continued(HIDING_WORLDS + [READING], HIDING + [ReadAudit(0, 1, 7)], TransactStep(0, false));
    assert Next(READING, TransactStep(0, false)) == FIRST_PURGED;
  }

  const BOTH_READ := BOTH_HIDDEN.(purges := map[0 := Purging(2, 7, AuditRead), 1 := Purging(1, 7, AuditRead)])
  const ONE_READ := BOTH_HIDDEN.(purges := map[0 := Purging(2, 7, AuditRead)])
  const OTHER_PURGED := FIRST_PURGED.(purges := map[0 := Purging(2, 7, AuditRead)])
  const RACING := HIDING + [ReadAudit(0, 2, 7)] + [ReadAudit(1, 1, 7)] + [TransactStep(1, false)]
  const RACING_WORLDS := HIDING_WORLDS + [ONE_READ] + [BOTH_READ] + [OTHER_PURGED]

  lemma PurgesRace()
    ensures IsRun(RACING_WORLDS, RACING)
  {
    BothAreHidden();
    Continued(HIDING_WORLDS, HIDING, ReadAudit(0, 2, 7));
    Continued(HIDING_WORLDS + [ONE_READ], HIDING + [ReadAudit(0, 2, 7)], ReadAudit(1, 1, 7));
    assert Next(ONE_READ, ReadAudit(1, 1, 7)) == BOTH_READ;
    Continued(HIDING_WORLDS + [ONE_READ] + [BOTH_READ], HIDING + [ReadAudit(0, 2, 7)] + [ReadAudit(1, 1, 7)],
              TransactStep(1, false));
    assert Next(BOTH_READ, TransactStep(1, false)) == OTHER_PURGED;
  }

  /**
   Two purges of one request read that there is no audit; one finishes and audits it, the transaction of the other fails:
   the finished audit becomes a failed one.
   */
  lemma FinishedAuditIsOverwritten()
    ensures IsRun(RACING_WORLDS, RACING) && AlreadyPurged(OTHER_PURGED.s, 7)
    ensures var worlds, steps := FailingWorlds(OTHER_PURGED, 0), [TransactStep(0, true), MarkRootStep(0), MarkAuditStep(0)];
            && IsRun(worlds, steps) && worlds[0] == OTHER_PURGED
            && 7 in worlds[3].s.audits && worlds[3].s.audits[7].outcome.PurgeFailed?
  {
    PurgesRace();
    assert CanWrite(OTHER_PURGED, 0, 7);
    FailingRestIsARun(OTHER_PURGED, 0, 7);
  }

  const EARLY := [CreateRoot(1, 10), ReadAudit(0, 1, 7), TransactStep(0, true), MarkRootStep(0)]
  const EARLY_READ := ONE_ROOT.(purges := map[0 := Purging(1, 7, AuditRead)])
  const EARLY_LOST := ONE_ROOT.(purges := map[0 := Purging(1, 7, TransactionLost)])
  const EARLY_MARKED := World(Store(map[1 := FRESH.(state := CleanupFailed)], map[]), map[0 := Purging(1, 7, RootMarked)],
                              {1}, 10)

  /** A purge before hiding whose transaction is lost marks the root, which then can be neither hidden nor purged. */
  lemma EarlyFailureStrands()
    ensures IsRun([EMPTY, ONE_ROOT, EARLY_READ, EARLY_LOST, EARLY_MARKED], EARLY) && Stranded(EARLY_MARKED, 1)
  {
    var worlds := [EMPTY, ONE_ROOT, EARLY_READ, EARLY_LOST, EARLY_MARKED];
    assert Moves(worlds, EARLY, 0) && Moves(worlds, EARLY, 1) && Moves(worlds, EARLY, 2) && Moves(worlds, EARLY, 3);
  }
}
