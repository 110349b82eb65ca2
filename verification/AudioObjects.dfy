/**
 Uploading and completing one audio object. Chunks are stored write-once and recorded in a transaction;
 completing the object freezes a manifest of all its chunks.
 */
module AudioObjects {
  import opened Options

  type Id = nat
  type Byte = b: int | 0 <= b < 256

  datatype Status = Initiated | Uploading | Complete | FailedObject

  /** A checksum is determined by the bytes it is taken of, so the bytes stand for it. */
  datatype Chunk = Chunk(startMs: nat, endMs: nat, checksum: seq<Byte>, sizeBytes: nat, mimeType: string)

  datatype Object = Object(
    status: Status, mimeType: string, chunkCount: Option<nat>, totalSize: Option<nat>, manifest: Option<seq<Chunk>>)

  datatype Response = ChunkStored(chunk: Chunk) | ManifestStored(manifest: seq<Chunk>, totalSize: nat)

  datatype Action = UploadAction(sequenceNo: nat) | CompleteAction

  /** What a request identifier was used for, by whom, and what it was answered. */
  datatype Remembered = Remembered(action: Action, actorId: Id, response: Response)

  datatype AudioError =
    | RequestReused | ChecksumMismatch | Forbidden | ObjectComplete | InvalidState | ChunkConflict | CommitmentConflict
    | StorageUnavailable | ManifestIncomplete

  /** The chunks promised when the session was finalized, if it was. */
  type Commitment = Option<seq<Chunk>>

  datatype World = World(
    audio: Object, chunks: map<nat, Chunk>, storage: map<nat, seq<Byte>>, remembered: map<Id, Remembered>,
    commitment: Commitment)

  /** `authorized` and `recording` are the policy and session checks; the storage may fail before or after it stored. */
  datatype UploadInput = UploadInput(
    requestId: Id, actorId: Id, sequenceNo: nat, startMs: nat, endMs: nat, checksum: seq<Byte>, mimeType: string,
    bytes: seq<Byte>, authorized: bool, recording: bool, storageFails: bool, storedBeforeFailing: bool)

  datatype CompleteInput = CompleteInput(
    requestId: Id, actorId: Id, expectedCount: nat, authorized: bool, recording: bool)

  // ---------------------------------------------------------------- checks

  function Replay(w: World, requestId: Id, actorId: Id, action: Action): Option<Result<Response, AudioError>> {
    if requestId !in w.remembered then None
    else if w.remembered[requestId].action == action && w.remembered[requestId].actorId == actorId
    then Some(Ok(w.remembered[requestId].response))
    else Some(Err(RequestReused))
  }

  function WritableError(audio: Object, recording: bool): Option<AudioError> {
    if audio.status.Complete? then Some(ObjectComplete)
    else if audio.status.FailedObject? || !recording then Some(InvalidState)
    else None
  }

  predicate Committed(commitment: Commitment, input: UploadInput) {
    commitment.Some? ==>
      && input.sequenceNo < |commitment.value|
      && var c := commitment.value[input.sequenceNo];
      && c.checksum == input.checksum && c.startMs == input.startMs && c.endMs == input.endMs
      && c.mimeType == input.mimeType
  }

  function NewChunk(input: UploadInput): Chunk {
    Chunk(input.startMs, input.endMs, input.checksum, |input.bytes|, input.mimeType)
  }

  /** The write-once put: what is already stored stays and is reported. */
  function Put(storage: map<nat, seq<Byte>>, sequenceNo: nat, bytes: seq<Byte>): map<nat, seq<Byte>> {
    if sequenceNo in storage then storage else storage[sequenceNo := bytes]
  }

  function UploadError(w: World, input: UploadInput): Option<AudioError> {
    if input.checksum != input.bytes then Some(ChecksumMismatch)
    else if !input.authorized then Some(Forbidden)
    else if !Committed(w.commitment, input) then Some(CommitmentConflict)
    else if WritableError(w.audio, input.recording).Some? then WritableError(w.audio, input.recording)
    else if w.audio.mimeType != input.mimeType then Some(ChunkConflict)
    else if input.sequenceNo in w.chunks && w.chunks[input.sequenceNo] != NewChunk(input) then Some(ChunkConflict)
    else None
  }

  function Upload(w: World, input: UploadInput): (World, Result<Response, AudioError>) {
    var replay := Replay(w, input.requestId, input.actorId, UploadAction(input.sequenceNo));
    if replay.Some? then (w, replay.value)
    else if UploadError(w, input).Some? then (w, Err(UploadError(w, input).value))
    else
      var stored := Put(w.storage, input.sequenceNo, input.bytes);
      if input.storageFails then
        (if input.storedBeforeFailing then w.(storage := stored) else w, Err(StorageUnavailable))
      else if stored[input.sequenceNo] != input.checksum then (w.(storage := stored), Err(ChunkConflict))
      else
        var response := ChunkStored(NewChunk(input));
        (w.(storage := stored,
            chunks := w.chunks[input.sequenceNo := NewChunk(input)],
            audio := if w.audio.status.Initiated? && input.sequenceNo !in w.chunks
                      then w.audio.(status := Uploading) else w.audio,
            remembered := w.remembered[input.requestId :=
              Remembered(UploadAction(input.sequenceNo), input.actorId, response)]), Ok(response))
  }

  // ---------------------------------------------------------------- completion

  /** The chunk starts where the one before it ends; the first starts at zero. */
  predicate Follows(chunks: map<nat, Chunk>, i: nat) {
    && i in chunks
    && if i == 0 then chunks[i].startMs == 0 else i - 1 in chunks && chunks[i].startMs == chunks[i - 1].endMs
  }

  predicate Continuous(chunks: map<nat, Chunk>, expected: nat) {
    && |chunks| == expected
    && (forall i: nat :: i < expected ==> i in chunks)
    && (forall i: nat :: i < expected ==> Follows(chunks, i))
  }

  predicate StoredAsRecorded(w: World, i: nat)
    requires i in w.chunks
  {
    i in w.storage && w.storage[i] == w.chunks[i].checksum && |w.storage[i]| == w.chunks[i].sizeBytes
  }

  function ManifestOf(chunks: map<nat, Chunk>, n: nat): (r: seq<Chunk>)
    requires forall i: nat :: i < n ==> i in chunks
    ensures |r| == n && forall i :: 0 <= i < n ==> r[i] == chunks[i]
  {
    if n == 0 then [] else ManifestOf(chunks, n - 1) + [chunks[n - 1]]
  }

  function TotalSize(chunks: map<nat, Chunk>, n: nat): nat
    requires forall i: nat :: i < n ==> i in chunks
  {
    if n == 0 then 0 else TotalSize(chunks, n - 1) + chunks[n - 1].sizeBytes
  }

  predicate ReadyToComplete(w: World, expected: nat) {
    && Continuous(w.chunks, expected)
    && (w.commitment.Some? ==> |w.commitment.value| == expected && ManifestOf(w.chunks, expected) == w.commitment.value)
    && forall i: nat :: i < expected ==> StoredAsRecorded(w, i)
  }

  function CompleteObject(w: World, input: CompleteInput): (World, Result<Response, AudioError>) {
    var replay := Replay(w, input.requestId, input.actorId, CompleteAction);
    if replay.Some? then (w, replay.value)
    else if w.commitment.None? && !input.authorized then (w, Err(Forbidden))
    else if w.commitment.Some? && (!input.authorized || |w.commitment.value| != input.expectedCount)
    then (w, Err(CommitmentConflict))
    else if WritableError(w.audio, input.recording).Some? then (w, Err(WritableError(w.audio, input.recording).value))
    else if !ReadyToComplete(w, input.expectedCount) then (w, Err(ManifestIncomplete))
    else
      var manifest := ManifestOf(w.chunks, input.expectedCount);
      var total := TotalSize(w.chunks, input.expectedCount);
      var response := ManifestStored(manifest, total);
      (w.(audio := w.audio.(status := Complete, chunkCount := Some(input.expectedCount), totalSize := Some(total),
                              manifest := Some(manifest)),
          remembered := w.remembered[input.requestId := Remembered(CompleteAction, input.actorId, response)]), Ok(response))
  }

  /** The later check of a completed object against its rows and the storage. */
  predicate ManifestVerifies(w: World) {
    && w.audio.status.Complete?
    && w.audio.chunkCount.Some? && w.audio.totalSize.Some? && w.audio.manifest.Some?
    && var n := w.audio.chunkCount.value;
    && Continuous(w.chunks, n)
    && (forall i: nat :: i < n ==> StoredAsRecorded(w, i))
    && TotalSize(w.chunks, n) == w.audio.totalSize.value
    && ManifestOf(w.chunks, n) == w.audio.manifest.value
  }

  /** The loops of the later check: order and continuity first, then storage and sizes. */
  method VerifyCompleteManifest(w: World) returns (ok: bool)
    ensures ok == ManifestVerifies(w)
  {
    var audio := w.audio;
    if || !audio.status.Complete? || audio.chunkCount.None? || audio.totalSize.None? || audio.manifest.None?
       || |w.chunks| != audio.chunkCount.value { return false; }
    var n := audio.chunkCount.value;
    for index := 0 to n
      invariant forall i: nat :: i < index ==> i in w.chunks
      invariant forall i: nat :: i < index ==> Follows(w.chunks, i)
    {
      if !Follows(w.chunks, index) { return false; }
    }
    var total := 0;
    for index := 0 to n
      invariant forall i: nat :: i < index ==> StoredAsRecorded(w, i)
      invariant total == TotalSize(w.chunks, index)
    {
      if !StoredAsRecorded(w, index) { return false; }
      total := total + w.chunks[index].sizeBytes;
    }
    return total == audio.totalSize.value && ManifestOf(w.chunks, n) == audio.manifest.value;
  }

  // ---------------------------------------------------------------- runs

  /** Stopping the session freezes the promised chunks once; it is a step of another service. */
  datatype Step =
    UploadStep(upload: UploadInput) | CompleteStep(complete: CompleteInput) | FinalizeStep(promised: seq<Chunk>)

  function Next(w: World, step: Step): World {
    match step
    case UploadStep(input) => Upload(w, input).0
    case CompleteStep(input) => CompleteObject(w, input).0
    case FinalizeStep(promised) => if w.commitment.None? then w.(commitment := Some(promised)) else w
  }

  /** Requests that reach the service have a chunk that ends after it starts, and at least one chunk to complete. */
  predicate Validated(step: Step) {
    match step
    case UploadStep(input) => input.startMs < input.endMs
    case CompleteStep(input) => input.expectedCount >= 1
    case FinalizeStep(_) => true
  }

  function Run(w: World, steps: seq<Step>): World
    decreases |steps|
  {
    if steps == [] then w else Run(Next(w, steps[0]), steps[1..])
  }

  ghost predicate Inv(w: World) {
    && (forall i :: i in w.chunks ==> StoredAsRecorded(w, i) && w.chunks[i].startMs < w.chunks[i].endMs)
    && (w.audio.status.Complete? ==> ManifestVerifies(w) && w.audio.chunkCount.value >= 1)
  }

  /** An upload records what is stored, and does nothing to a completed object. */
  lemma UploadKeeps(w: World, input: UploadInput)
    requires Inv(w) && input.startMs < input.endMs
    ensures Inv(Upload(w, input).0)
  {
    var after := Upload(w, input).0;
    forall i | i in after.chunks ensures StoredAsRecorded(after, i) && after.chunks[i].startMs < after.chunks[i].endMs {
      assert i in w.chunks ==> StoredAsRecorded(w, i);
    }
    if after.audio.status.Complete? {
      CompleteIgnoresUploads(w, input);
    }
  }

  lemma CompleteIgnoresUploads(w: World, input: UploadInput)
    requires Inv(w)
    ensures Upload(w, input).0.audio.status.Complete? ==> w.audio.status.Complete?
    ensures w.audio.status.Complete? ==> Upload(w, input).0 == w
  {
  }

  lemma UploadRewritesNothing(w: World, input: UploadInput)
    requires Inv(w)
    ensures var after := Upload(w, input).0;
            && (forall i :: i in w.storage ==> i in after.storage && after.storage[i] == w.storage[i])
            && (forall i :: i in w.chunks ==> i in after.chunks && after.chunks[i] == w.chunks[i])
  {
  }

  lemma CompletionKeeps(w: World, input: CompleteInput)
    requires Inv(w) && input.expectedCount >= 1
    ensures var after := CompleteObject(w, input).0;
            && Inv(after) && after.storage == w.storage && after.chunks == w.chunks
            && (w.audio.status.Complete? ==> after.audio == w.audio)
  {
    var after := CompleteObject(w, input).0;
    forall i | i in after.chunks ensures StoredAsRecorded(after, i) {
      assert StoredAsRecorded(w, i);
    }
  }

  lemma StepKeeps(w: World, step: Step)
    requires Inv(w) && Validated(step)
    ensures Inv(Next(w, step))
    ensures w.audio.status.Complete? ==>
              Next(w, step).audio == w.audio && Next(w, step).chunks == w.chunks && Next(w, step).storage == w.storage
    ensures forall i :: i in w.storage ==> i in Next(w, step).storage && Next(w, step).storage[i] == w.storage[i]
    ensures forall i :: i in w.chunks ==> i in Next(w, step).chunks && Next(w, step).chunks[i] == w.chunks[i]
  {
    match step
    case UploadStep(input) =>
      UploadKeeps(w, input);
      CompleteIgnoresUploads(w, input);
      UploadRewritesNothing(w, input);
    case CompleteStep(input) => CompletionKeeps(w, input);
    case FinalizeStep(promised) => PromiseKeeps(w, promised);
  }

  lemma PromiseKeeps(w: World, promised: seq<Chunk>)
    requires Inv(w)
    ensures Inv(w.(commitment := Some(promised)))
  {
    var after := w.(commitment := Some(promised));
    forall i | i in after.chunks ensures StoredAsRecorded(after, i) {
      assert StoredAsRecorded(w, i);
    }
  }

  /** Chunks and stored bytes are never rewritten, and a completed object keeps everything and keeps verifying. */
  lemma {:induction false} CompletedObjectsStay(w: World, steps: seq<Step>)
    requires Inv(w) && forall i :: 0 <= i < |steps| ==> Validated(steps[i])
    ensures Inv(Run(w, steps))
    ensures w.audio.status.Complete? ==>
              Run(w, steps).audio == w.audio && Run(w, steps).chunks == w.chunks && ManifestVerifies(Run(w, steps))
    ensures forall i :: i in w.chunks ==> i in Run(w, steps).chunks && Run(w, steps).chunks[i] == w.chunks[i]
    decreases |steps|
  {
    if steps != [] {
      StepKeeps(w, steps[0]);
      CompletedObjectsStay(Next(w, steps[0]), steps[1..]);
    }
  }

  /** From a new object, every run of requests: a completed object passes the later check and its total is the sum. */
  lemma CompletedObjectsVerify(audio: Object, steps: seq<Step>)
    requires !audio.status.Complete? && forall i :: 0 <= i < |steps| ==> Validated(steps[i])
    ensures var w := Run(World(audio, map[], map[], map[], None), steps);
            w.audio.status.Complete? ==>
              && ManifestVerifies(w)
              && w.audio.totalSize == Some(TotalSize(w.chunks, w.audio.chunkCount.value))
  {
    CompletedObjectsStay(World(audio, map[], map[], map[], None), steps);
  }

  // ---------------------------------------------------------------- what a complete manifest covers

  predicate Covers(c: Chunk, ms: int) {
    c.startMs <= ms < c.endMs
  }

  lemma {:induction false} EndsGrow(chunks: map<nat, Chunk>, n: nat, i: nat, j: nat)
    requires Continuous(chunks, n) && (forall k: nat :: k < n ==> chunks[k].startMs < chunks[k].endMs) && i < j < n
    ensures chunks[i].endMs <= chunks[j].startMs
  {
    assert Follows(chunks, j);
    if i < j - 1 {
      EndsGrow(chunks, n, i, j - 1);
    }
  }

  lemma {:induction false} SomeChunkCovers(chunks: map<nat, Chunk>, n: nat, m: nat, ms: nat)
    requires Continuous(chunks, n) && (forall k: nat :: k < n ==> chunks[k].startMs < chunks[k].endMs)
    requires 0 < m <= n && ms < chunks[m - 1].endMs
    ensures exists i :: 0 <= i < m && Covers(chunks[i], ms)
  {
    if chunks[m - 1].startMs <= ms {
      assert Covers(chunks[m - 1], ms);
    } else {
      assert Follows(chunks, m - 1);
      SomeChunkCovers(chunks, n, m - 1, ms);
    }
  }

  /** A complete object's chunks tile the time from 0 to the last end: every millisecond lies in exactly one chunk. */
  lemma ChunksTileTime(w: World, ms: nat)
    requires Inv(w) && w.audio.status.Complete?
    requires ms < w.chunks[w.audio.chunkCount.value - 1].endMs
    ensures var n := w.audio.chunkCount.value;
            && (exists i :: 0 <= i < n && Covers(w.chunks[i], ms))
            && (forall i, j :: 0 <= i < j < n ==> !(Covers(w.chunks[i], ms) && Covers(w.chunks[j], ms)))
  {
    var n := w.audio.chunkCount.value;
    SomeChunkCovers(w.chunks, n, n, ms);
    forall i, j | 0 <= i < j < n ensures !(Covers(w.chunks[i], ms) && Covers(w.chunks[j], ms)) {
      EndsGrow(w.chunks, n, i, j);
    }
  }

  /** Repeating an answered request changes nothing and gives the first answer. */
  lemma RequestsReplay(w: World, input: UploadInput, complete: CompleteInput)
    ensures Upload(w, input).1.Ok? ==>
              Upload(Upload(w, input).0, input) == Upload(w, input)
    ensures CompleteObject(w, complete).1.Ok? ==>
              CompleteObject(CompleteObject(w, complete).0, complete) == CompleteObject(w, complete)
  {
  }

  // ---------------------------------------------------------------- the service

  /** The rows of one audio object and its storage keys, changed in place by the two requests. */
  class AudioService {
    var audio: Object
    var chunks: map<nat, Chunk>
    var storage: map<nat, seq<Byte>>
    var remembered: map<Id, Remembered>
    var commitment: Commitment

    constructor (audio: Object)
      ensures Rows() == World(audio, map[], map[], map[], None)
    {
      this.audio, chunks, storage, remembered, commitment := audio, map[], map[], map[], None;
    }

    ghost function Rows(): World
      reads this
    {
      World(audio, chunks, storage, remembered, commitment)
    }

    method UploadChunk(input: UploadInput) returns (answer: Result<Response, AudioError>)
      modifies this
      ensures (Rows(), answer) == Upload(old(Rows()), input)
    {
      if input.requestId in remembered {
        var record := remembered[input.requestId];
        if record.action != UploadAction(input.sequenceNo) || record.actorId != input.actorId {
          return Err(RequestReused);
        }
        return Ok(record.response);
      }
      if input.checksum != input.bytes { return Err(ChecksumMismatch); }
      if !input.authorized { return Err(Forbidden); }
      if !Committed(commitment, input) { return Err(CommitmentConflict); }
      var writable := WritableError(audio, input.recording);
      if writable.Some? { return Err(writable.value); }
      if audio.mimeType != input.mimeType { return Err(ChunkConflict); }
      var chunk := NewChunk(input);
      if input.sequenceNo in chunks && chunks[input.sequenceNo] != chunk { return Err(ChunkConflict); }
      if input.storageFails && !input.storedBeforeFailing { return Err(StorageUnavailable); }
      if input.sequenceNo !in storage {
        storage := storage[input.sequenceNo := input.bytes];
      }
      if input.storageFails { return Err(StorageUnavailable); }
      if storage[input.sequenceNo] != input.checksum { return Err(ChunkConflict); }
      assert input.sequenceNo in chunks ==> chunks[input.sequenceNo := chunk] == chunks;
      if input.sequenceNo !in chunks {
        chunks := chunks[input.sequenceNo := chunk];
        if audio.status.Initiated? {
          audio := audio.(status := Uploading);
        }
      }
      answer := Ok(ChunkStored(chunk));
      remembered := remembered[input.requestId :=
        Remembered(UploadAction(input.sequenceNo), input.actorId, answer.value)];
    }

    /** Order and continuity first, then the promised chunks, then the stored bytes of every chunk. */
    method ManifestIsReady(expected: nat) returns (ready: bool)
      ensures ready == ReadyToComplete(Rows(), expected)
    {
      if |chunks| != expected { return false; }
      for index := 0 to expected
        invariant forall i: nat :: i < index ==> i in chunks
        invariant forall i: nat :: i < index ==> Follows(chunks, i)
      {
        if !Follows(chunks, index) { return false; }
      }
      if commitment.Some? {
        if |commitment.value| != expected { return false; }
        for index := 0 to expected
          invariant forall i: nat :: i < index ==> chunks[i] == commitment.value[i]
        {
          if chunks[index] != commitment.value[index] { return false; }
        }
      }
      for index := 0 to expected
        invariant forall i: nat :: i < index ==> StoredAsRecorded(Rows(), i)
      {
        if || index !in storage || storage[index] != chunks[index].checksum
           || |storage[index]| != chunks[index].sizeBytes {
          assert !StoredAsRecorded(Rows(), index);
          return false;
        }
      }
      return true;
    }

    /** The loop over the chunks that lists them and adds up their sizes. */
    method ReadManifest(expected: nat) returns (manifest: seq<Chunk>, total: nat)
      requires forall i: nat :: i < expected ==> i in chunks
      ensures manifest == ManifestOf(chunks, expected) && total == TotalSize(chunks, expected)
    {
      manifest, total := [], 0;
      for index := 0 to expected
        invariant manifest == ManifestOf(chunks, index) && total == TotalSize(chunks, index)
      {
        manifest := manifest + [chunks[index]];
        total := total + chunks[index].sizeBytes;
      }
    }

    method CompleteAudio(input: CompleteInput) returns (answer: Result<Response, AudioError>)
      modifies this
      ensures (Rows(), answer) == CompleteObject(old(Rows()), input)
    {
      if input.requestId in remembered {
        var record := remembered[input.requestId];
        if record.action != CompleteAction || record.actorId != input.actorId { return Err(RequestReused); }
        return Ok(record.response);
      }
      if commitment.None? && !input.authorized { return Err(Forbidden); }
      if commitment.Some? && (!input.authorized || |commitment.value| != input.expectedCount) {
        return Err(CommitmentConflict);
      }
      var writable := WritableError(audio, input.recording);
      if writable.Some? { return Err(writable.value); }
      var ready := ManifestIsReady(input.expectedCount);
      if !ready { return Err(ManifestIncomplete); }
      var manifest, total := ReadManifest(input.expectedCount);
      audio := audio.(status := Complete, chunkCount := Some(input.expectedCount), totalSize := Some(total),
                      manifest := Some(manifest));
      answer := Ok(ManifestStored(manifest, total));
      remembered := remembered[input.requestId := Remembered(CompleteAction, input.actorId, answer.value)];
    }
  }
}
