/**
 Write-once local audio storage. Several processes may put the same object key at once; each writes a
 temporary file of its own and links it to the target name, which only one can do. Any process may fail
 or stop between any two steps.
 */
module AudioStorage {
  import opened Options

  type Byte = b: int | 0 <= b < 256
  type WriterId = nat
  type Inode = nat

  /** What a put or an inspection reports; the checksum determines the bytes, so the bytes stand for both. */
  datatype Report = Report(bytes: seq<Byte>, created: bool)

  /** Where a writer stands. `written` counts the bytes that have reached its temporary file. */
  datatype Pc =
    | Idle
    | Absent
    | Writing(inode: Inode, written: nat)
    | Flushed(inode: Inode)
    | Closed(inode: Inode)
    | Racing
    | Cleaning(result: Option<Report>)
    | Done(report: Report)
    | Failed
    | Crashed

  datatype Writer = Writer(bytes: seq<Byte>, pc: Pc)

  /** Files by inode with the writer that made each, the temporary names still linked, and the target name. */
  datatype Disk = Disk(files: seq<seq<Byte>>, owners: seq<WriterId>, temporaries: map<WriterId, Inode>, target: Option<Inode>)

  datatype World = World(disk: Disk, writers: seq<Writer>, inspections: seq<seq<Byte>>)

  datatype Action = Proceed(amount: nat) | Error | Crash

  datatype Step = Act(writer: WriterId, action: Action) | Inspect

  function WithPc(w: World, id: WriterId, pc: Pc): World
    requires id < |w.writers|
  {
    w.(writers := w.writers[id := w.writers[id].(pc := pc)])
  }

  function TargetBytes(d: Disk): Option<seq<Byte>> {
    if d.target.Some? && d.target.value < |d.files| then Some(d.files[d.target.value]) else None
  }

  /** An error jumps to the cleanup; before the temporary file is opened there is nothing to clean. */
  function AfterError(w: World, id: WriterId): World
    requires id < |w.writers|
  {
    match w.writers[id].pc
    case Idle => WithPc(w, id, Failed)
    case Absent => WithPc(w, id, Cleaning(None))
    case Writing(_, _) => WithPc(w, id, Cleaning(None))
    case Flushed(_) => WithPc(w, id, Cleaning(None))
    case Closed(_) => WithPc(w, id, Cleaning(None))
    case Racing => WithPc(w, id, Cleaning(None))
    case Cleaning(_) => WithPc(w, id, Failed)
    case _ => w
  }

  function MinNat(a: nat, b: nat): nat {
    if a < b then a else b
  }

  /** One step of a put: look, open, write some bytes, flush, close, link, clean up. */
  function AfterProceed(w: World, id: WriterId, amount: nat): World
    requires id < |w.writers|
  {
    var me, d := w.writers[id], w.disk;
    match me.pc
    case Idle =>
      var present := TargetBytes(d);
      if present.Some? then WithPc(w, id, Done(Report(present.value, false))) else WithPc(w, id, Absent)
    case Absent =>
      WithPc(w.(disk := d.(files := d.files + [[]], owners := d.owners + [id],
                           temporaries := d.temporaries[id := |d.files|])), id, Writing(|d.files|, 0))
    case Writing(inode, written) =>
      if inode >= |d.files| then w
      else if written >= |me.bytes| then WithPc(w, id, Flushed(inode))
      else
        var reached := MinNat(|me.bytes|, written + amount);
        WithPc(w.(disk := d.(files := d.files[inode := me.bytes[..reached]])), id, Writing(inode, reached))
    case Flushed(inode) => WithPc(w, id, Closed(inode))
    case Closed(inode) =>
      if d.target.None? then WithPc(w.(disk := d.(target := Some(inode))), id, Cleaning(Some(Report(me.bytes, true))))
      else WithPc(w, id, Racing)
    case Racing =>
      var present := TargetBytes(d);
      WithPc(w, id, Cleaning(if present.Some? then Some(Report(present.value, false)) else None))
    case Cleaning(result) =>
      var removed := w.(disk := d.(temporaries := d.temporaries - {id}));
      WithPc(removed, id, if result.Some? then Done(result.value) else Failed)
    case _ => w
  }

  function Next(w: World, step: Step): World {
    match step
    case Inspect =>
      var present := TargetBytes(w.disk);
      if present.Some? then w.(inspections := w.inspections + [present.value]) else w
    case Act(id, action) =>
      if id >= |w.writers| then w
      else match action
        case Proceed(amount) => AfterProceed(w, id, amount)
        case Error => AfterError(w, id)
        case Crash => if w.writers[id].pc.Done? || w.writers[id].pc.Failed? then w else WithPc(w, id, Crashed)
  }

  // ---------------------------------------------------------------- invariant

  /** The file a writer may still write to, or is about to link. */
  function OwnFile(pc: Pc): Option<Inode> {
    match pc
    case Writing(inode, _) => Some(inode)
    case Flushed(inode) => Some(inode)
    case Closed(inode) => Some(inode)
    case _ => None
  }

  ghost predicate WriterOk(w: World, id: WriterId)
    requires id < |w.writers|
  {
    var me, d := w.writers[id], w.disk;
    && (OwnFile(me.pc).Some? ==>
          var inode := OwnFile(me.pc).value;
          && inode < |d.files| && inode < |d.owners| && d.owners[inode] == id && d.target != Some(inode)
          && d.files[inode] == if me.pc.Writing? then me.bytes[..MinNat(|me.bytes|, me.pc.written)] else me.bytes)
    && (me.pc.Cleaning? && me.pc.result.Some? ==> ReportTrue(d, id, me.pc.result.value))
    && (me.pc.Done? ==> ReportTrue(d, id, me.pc.report))
  }

  /** The report names the linked content, and claims to have created it only if the linked file is the writer's. */
  ghost predicate ReportTrue(d: Disk, id: WriterId, report: Report) {
    && TargetBytes(d) == Some(report.bytes)
    && (report.created ==> d.target.value < |d.owners| && d.owners[d.target.value] == id)
  }

  ghost predicate Inv(w: World) {
    && |w.disk.files| == |w.disk.owners|
    && (forall i :: 0 <= i < |w.disk.owners| ==> w.disk.owners[i] < |w.writers|)
    && (forall id :: 0 <= id < |w.writers| ==> WriterOk(w, id))
    && (w.disk.target.Some? ==>
          && w.disk.target.value < |w.disk.files|
          && w.disk.files[w.disk.target.value] == w.writers[w.disk.owners[w.disk.target.value]].bytes)
    && (forall i :: 0 <= i < |w.inspections| ==> TargetBytes(w.disk) == Some(w.inspections[i]))
  }

  /** Once linked, the target keeps its file and the file its bytes; writers keep what they set out to store. */
  ghost predicate TargetKept(a: World, b: World) {
    && |a.writers| == |b.writers|
    && (forall id :: 0 <= id < |a.writers| ==> b.writers[id].bytes == a.writers[id].bytes)
    && (a.disk.target.Some? ==> b.disk.target == a.disk.target && TargetBytes(b.disk) == TargetBytes(a.disk))
  }

  /** A step by one writer changes at most that writer and the file it owns, and links only its own file. */
  ghost predicate OnlyWriter(a: World, b: World, id: WriterId)
    requires id < |a.writers|
  {
    && |b.writers| == |a.writers|
    && (forall k :: 0 <= k < |a.writers| && k != id ==> b.writers[k] == a.writers[k])
    && b.writers[id].bytes == a.writers[id].bytes
    && |a.disk.owners| == |a.disk.files| && |b.disk.owners| == |b.disk.files| >= |a.disk.files|
    && (forall i :: 0 <= i < |a.disk.files| ==> b.disk.owners[i] == a.disk.owners[i])
    && (forall i :: |a.disk.files| <= i < |b.disk.files| ==> b.disk.owners[i] == id)
    && (forall i :: 0 <= i < |a.disk.files| && a.disk.owners[i] != id ==> b.disk.files[i] == a.disk.files[i])
    && (a.disk.target.Some? ==> b.disk.target == a.disk.target && TargetBytes(b.disk) == TargetBytes(a.disk))
    && (b.disk.target.Some? && a.disk.target.None? ==>
          && b.disk.target.value < |a.disk.files| && a.disk.owners[b.disk.target.value] == id
          && b.disk.files[b.disk.target.value] == a.writers[id].bytes)
    && b.inspections == a.inspections
  }

  lemma OthersUndisturbed(a: World, b: World, id: WriterId, other: WriterId)
    requires id < |a.writers| && other < |a.writers| && other != id && OnlyWriter(a, b, id) && WriterOk(a, other)
    ensures WriterOk(b, other)
  {
  }

  lemma ProceedIsLocal(w: World, id: WriterId, amount: nat)
    requires Inv(w) && id < |w.writers|
    ensures OnlyWriter(w, AfterProceed(w, id, amount), id)
  {
    assert WriterOk(w, id);
  }

  lemma ProceedKeepsOwn(w: World, id: WriterId, amount: nat)
    requires Inv(w) && id < |w.writers|
    ensures |AfterProceed(w, id, amount).writers| == |w.writers| && WriterOk(AfterProceed(w, id, amount), id)
  {
    assert WriterOk(w, id);
  }

  lemma LocalStepKeeps(a: World, b: World, id: WriterId)
    requires Inv(a) && id < |a.writers| && OnlyWriter(a, b, id) && WriterOk(b, id)
    ensures Inv(b) && TargetKept(a, b)
  {
    forall other | 0 <= other < |b.writers| ensures WriterOk(b, other) {
      if other != id {
        OthersUndisturbed(a, b, id, other);
      }
    }
  }

  lemma ProceedKeeps(w: World, id: WriterId, amount: nat)
    requires Inv(w) && id < |w.writers|
    ensures Inv(AfterProceed(w, id, amount)) && TargetKept(w, AfterProceed(w, id, amount))
  {
    ProceedIsLocal(w, id, amount);
    ProceedKeepsOwn(w, id, amount);
    LocalStepKeeps(w, AfterProceed(w, id, amount), id);
  }

  lemma StepKeeps(w: World, step: Step)
    requires Inv(w)
    ensures Inv(Next(w, step)) && TargetKept(w, Next(w, step))
  {
    match step
    case Inspect => InspectKeeps(w);
    case Act(id, action) =>
      if id < |w.writers| {
        match action {
          case Proceed(amount) => ProceedKeeps(w, id, amount);
          case _ => StopKeeps(w, id, action);
        }
      }
  }

  lemma InspectKeeps(w: World)
    requires Inv(w)
    ensures Inv(Next(w, Inspect)) && TargetKept(w, Next(w, Inspect))
  {
    var after := Next(w, Inspect);
    forall id | 0 <= id < |after.writers| ensures WriterOk(after, id) {
      assert WriterOk(w, id);
    }
  }

  /** A writer that fails or crashes touches nothing but itself. */
  lemma StopKeeps(w: World, id: nat, action: Action)
    requires Inv(w) && id < |w.writers| && !action.Proceed?
    ensures Inv(Next(w, Act(id, action))) && TargetKept(w, Next(w, Act(id, action)))
  {
    var after := Next(w, Act(id, action));
    forall other | 0 <= other < |after.writers| ensures WriterOk(after, other) {
      assert WriterOk(w, other);
    }
  }

  // ---------------------------------------------------------------- any interleaving

  function Run(w: World, steps: seq<Step>): World
    decreases |steps|
  {
    if steps == [] then w else Run(Next(w, steps[0]), steps[1..])
  }

  /** Writers about to put their bytes under a key nothing is stored under. */
  function Start(bytes: seq<seq<Byte>>): World {
    World(Disk([], [], map[], None), seq(|bytes|, i requires 0 <= i < |bytes| => Writer(bytes[i], Idle)), [])
  }

  lemma {:induction false} RunKeeps(w: World, steps: seq<Step>)
    requires Inv(w)
    ensures Inv(Run(w, steps)) && TargetKept(w, Run(w, steps))
    decreases |steps|
  {
    if steps != [] {
      StepKeeps(w, steps[0]);
      RunKeeps(Next(w, steps[0]), steps[1..]);
    }
  }

  lemma {:induction false} RunSplits(w: World, first: seq<Step>, second: seq<Step>)
    ensures Run(w, first + second) == Run(Run(w, first), second)
    decreases |first|
  {
    if first == [] {
      assert first + second == second;
    } else {
      assert (first + second)[0] == first[0] && (first + second)[1..] == first[1..] + second;
      RunSplits(Next(w, first[0]), first[1..], second);
    }
  }

  /**
   Under any interleaving with errors and crashes anywhere: what is linked under the key is the whole
   content of one writer and never changes afterwards, and every finished put and every inspection,
   whenever it was made, reports exactly that content.
   */
  lemma StoredContentIsImmutable(bytes: seq<seq<Byte>>, first: seq<Step>, second: seq<Step>)
    ensures var mid, final := Run(Start(bytes), first), Run(Start(bytes), first + second);
            && |final.writers| == |bytes|
            && (mid.disk.target.Some? ==>
                  && TargetBytes(mid.disk).Some? && TargetBytes(final.disk) == TargetBytes(mid.disk)
                  && exists id :: 0 <= id < |bytes| && bytes[id] == TargetBytes(mid.disk).value)
            && (forall id :: 0 <= id < |bytes| && final.writers[id].pc.Done? ==>
                  TargetBytes(final.disk) == Some(final.writers[id].pc.report.bytes))
            && (forall i :: 0 <= i < |final.inspections| ==> TargetBytes(final.disk) == Some(final.inspections[i]))
  {
    var start := Start(bytes);
    var mid := Run(start, first);
    RunSplits(start, first, second);
    RunKeeps(start, first);
    RunKeeps(mid, second);
    var final := Run(mid, second);
    if mid.disk.target.Some? {
      var id := mid.disk.owners[mid.disk.target.value];
      assert start.writers[id].bytes == bytes[id];
    }
    forall id | 0 <= id < |bytes| && final.writers[id].pc.Done?
      ensures TargetBytes(final.disk) == Some(final.writers[id].pc.report.bytes)
    {
      assert WriterOk(final, id);
    }
  }

  /** At most one put reports that it created the object, and it is the one whose bytes are stored. */
  lemma OnlyOneCreator(bytes: seq<seq<Byte>>, steps: seq<Step>, a: WriterId, b: WriterId)
    requires a < |bytes| && b < |bytes|
    ensures var final := Run(Start(bytes), steps);
            && |final.writers| == |bytes|
            && var pa, pb := final.writers[a].pc, final.writers[b].pc;
            && (pa.Done? && pa.report.created ==> TargetBytes(final.disk) == Some(bytes[a]))
            && (pa.Done? && pa.report.created && pb.Done? && pb.report.created ==> a == b)
  {
    RunKeeps(Start(bytes), steps);
    var final := Run(Start(bytes), steps);
    assert WriterOk(final, a) && WriterOk(final, b);
    assert Start(bytes).writers[a].bytes == bytes[a];
  }
}
