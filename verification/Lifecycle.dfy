/** The document lifecycle as a state machine. Requests and workers are processes; every database
    transaction and every call to the queue, the vector index or the file store is one atomic
    action, actions of all processes interleave freely, and a process may die between actions. */
module Lifecycle {
  import opened Results
  import opened Texts
  import opened Domain
  import opened Transactions

  type ProcessId = nat

  /** What queue and database may do to their callers beyond failing cleanly, each by itself:
      overlap: a job is delivered again while an earlier delivery of it still runs;
      lostEnqueue, lostInsert, lostCommit: the queue took a job, or the database committed the
      insert of a submit or the READY transaction of a worker, but reports failure. */
  datatype Regime = Regime(overlap: bool, lostEnqueue: bool, lostInsert: bool, lostCommit: bool)

  /** The content preparer as a fixed function of what it is given. */
  datatype Preparer = Preparer(run: (DocumentId, MediaType, Bytes) -> Result<seq<Chunk>, IngestionErrorCode>)
  {
    ghost predicate Valid() {
      forall d, m, b :: run(d, m, b).Success? ==> Prepared(d, run(d, m, b).value)
    }

    function Of(document: Document): Result<seq<Chunk>, IngestionErrorCode> {
      run(document.id, document.mediaType, document.sha256.of)
    }
  }

  datatype Point = Point(
    documentId: DocumentId, mediaType: MediaType, ordinal: nat,
    sectionPath: seq<string>, pageNumber: Option<nat>, contentHash: Digest<string>)

  function PointOf(mediaType: MediaType, chunk: Chunk): Point {
    Point(chunk.documentId, mediaType, chunk.ordinal, chunk.locator.sectionPath,
          chunk.locator.pageNumber, chunk.contentHash)
  }

  /** The chunk rows one clean preparation of an upload gives; none when it cannot be prepared. */
  function Expected(preparer: Preparer, upload: Document): map<ChunkId, Chunk> {
    var r := preparer.Of(upload);
    if r.Success? && Prepared(upload.id, r.value) then ChunkRows(upload.id, r.value) else map[]
  }

  datatype RejectCause = Duplicate(of: DocumentId) | Conflict | Other

  datatype SubmitOutcome = Accepted | RejectedDuplicate(of: DocumentId) | QueueError | OtherError

  datatype SubmitPc =
    | LookingUp
    | Inserting
    | Discarding(cause: RejectCause)
    | Rechecking
    | Enqueueing
    | Dispatching
    | Finished(outcome: SubmitOutcome)

  datatype WorkerPc =
    | Starting
    | Reading(documentId: DocumentId)
    | Preparing(document: Document)
    | Upserting(document: Document, chunks: seq<Chunk>)
    | Committing(document: Document, chunks: seq<Chunk>)
    | Failing(documentId: DocumentId, cause: FailureCause)
    | Cleaning(documentId: DocumentId)

  datatype DeletePc = Cancelling(jobs: set<JobId>) | DroppingVectors | DroppingFile | DroppingRow

  datatype Process =
    | Submit(document: Document, job: IngestionJob, submitPc: SubmitPc)
    | Worker(jobId: JobId, workerPc: WorkerPc)
    | Delete(documentId: DocumentId, storageKey: StorageKey, deletePc: DeletePc)

  /** Bookkeeping that no process reads: the files ever saved; the documents ever inserted, with
      their jobs and the chunk rows one clean preparation of each gives; and which documents have
      been made READY or put into DELETING so far. */
  datatype Log = Log(
    uploads: map<StorageKey, Bytes>,
    catalog: map<DocumentId, Document>, jobOf: map<DocumentId, JobId>,
    expected: map<DocumentId, map<ChunkId, Chunk>>,
    readied: set<DocumentId>, deleting: set<DocumentId>)

  datatype State = State(
    rows: Rows,
    points: map<ChunkId, Point>,
    files: map<StorageKey, Bytes>,
    queue: set<JobId>,
    delivered: set<JobId>,
    procs: map<ProcessId, Process>,
    clock: Timestamp,
    used: set<nat>,
    log: Log)
  {
    function At(p: ProcessId, process: Process): State {
      this.(procs := procs[p := process])
    }

    function Exit(p: ProcessId): State {
      this.(procs := procs - {p})
    }
  }

  ghost predicate Init(s: State) {
    s == State(Rows(map[], map[], map[], 0), map[], map[], {}, {}, map[], s.clock, {},
               Log(map[], map[], map[], map[], {}, {}))
  }

  datatype Ack = Acknowledged | Refused | Unacknowledged

  datatype Action =
    | BeginSubmit(p: ProcessId, d: DocumentId, j: JobId, filename: string, mediaType: MediaType, content: Bytes, now: Timestamp)
    | SubmitLookup(p: ProcessId, found: Option<DocumentId>)
    | SubmitInsert(p: ProcessId, ack: Ack)
    | SubmitDiscard(p: ProcessId)
    | SubmitRecheck(p: ProcessId, found: Option<DocumentId>)
    | SubmitEnqueue(p: ProcessId, ack: Ack)
    | SubmitDispatchFailed(p: ProcessId, now: Timestamp)
    | Deliver(p: ProcessId, j: JobId)
    | WorkerStart(p: ProcessId, now: Timestamp)
    | WorkerRead(p: ProcessId, ok: bool)
    | WorkerPrepare(p: ProcessId, failure: Option<FailureCause>)
    | WorkerUpsert(p: ProcessId, applied: set<ChunkId>, ok: bool)
    | WorkerCommit(p: ProcessId, ack: Ack, now: Timestamp)
    | WorkerMarkFailed(p: ProcessId, now: Timestamp)
    | WorkerCleanup(p: ProcessId, removed: set<ChunkId>)
    | StartDelete(p: ProcessId, d: DocumentId, now: Timestamp)
    | DeleteCancel(p: ProcessId, j: JobId)
    | DeleteVectors(p: ProcessId, removed: set<ChunkId>, ok: bool)
    | DeleteFile(p: ProcessId, ok: bool)
    | DeleteRow(p: ProcessId)
    | Crash(p: ProcessId)

  predicate SubmitAt(s: State, p: ProcessId, pc: SubmitPc) {
    p in s.procs && s.procs[p].Submit? && s.procs[p].submitPc == pc
  }

  predicate IsWorker(s: State, p: ProcessId) {
    p in s.procs && s.procs[p].Worker?
  }

  predicate IsDelete(s: State, p: ProcessId) {
    p in s.procs && s.procs[p].Delete?
  }

  function PointsOfDocument(s: State, d: DocumentId): set<ChunkId> {
    set c | c in s.points && s.points[c].documentId == d
  }

  /** A change whose success is not reported happens only where the regime loses that answer. */
  predicate Admits(lost: bool, ack: Ack) {
    ack == Unacknowledged ==> lost
  }

  /** Guards. `Prepared` in the last two worker guards excludes nothing: see WorkerHoldsPrepared. */
  predicate Enabled(regime: Regime, s: State, a: Action) {
    match a
    case BeginSubmit(p, d, j, filename, _, content, now) =>
      && p !in s.procs && d !in s.used && j !in s.used && d != j
      && !IsBlank(filename) && content != [] && s.clock <= now
    case SubmitLookup(p, found) =>
      SubmitAt(s, p, LookingUp) && s.rows.LookupAnswer(s.procs[p].document.sha256, found)
    case SubmitInsert(p, ack) =>
      && (SubmitAt(s, p, Inserting) || (SubmitAt(s, p, LookingUp) && ack == Refused))
      && Admits(regime.lostInsert, ack)
    case SubmitDiscard(p) => p in s.procs && s.procs[p].Submit? && s.procs[p].submitPc.Discarding?
    case SubmitRecheck(p, found) =>
      SubmitAt(s, p, Rechecking) && s.rows.LookupAnswer(s.procs[p].document.sha256, found)
    case SubmitEnqueue(p, ack) => SubmitAt(s, p, Enqueueing) && Admits(regime.lostEnqueue, ack)
    case SubmitDispatchFailed(p, now) => SubmitAt(s, p, Dispatching) && s.clock <= now
    case Deliver(p, j) =>
      && p !in s.procs && (j in s.queue || j in s.delivered)
      && (!regime.overlap ==> forall q :: q in s.procs && IsWorker(s, q) ==> s.procs[q].jobId != j)
    case WorkerStart(p, now) => IsWorker(s, p) && s.procs[p].workerPc == Starting && s.clock <= now
    case WorkerRead(p, ok) => IsWorker(s, p) && s.procs[p].workerPc.Reading?
    case WorkerPrepare(p, failure) => IsWorker(s, p) && s.procs[p].workerPc.Preparing?
    case WorkerUpsert(p, applied, ok) =>
      && IsWorker(s, p) && s.procs[p].workerPc.Upserting?
      && var pc := s.procs[p].workerPc;
      && Prepared(pc.document.id, pc.chunks)
      && applied <= ChunkRows(pc.document.id, pc.chunks).Keys
      && (ok ==> applied == ChunkRows(pc.document.id, pc.chunks).Keys)
    case WorkerCommit(p, ack, now) =>
      && IsWorker(s, p) && s.procs[p].workerPc.Committing? && Admits(regime.lostCommit, ack) && s.clock <= now
      && Prepared(s.procs[p].workerPc.document.id, s.procs[p].workerPc.chunks)
    case WorkerMarkFailed(p, now) => IsWorker(s, p) && s.procs[p].workerPc.Failing? && s.clock <= now
    case WorkerCleanup(p, removed) =>
      && IsWorker(s, p) && s.procs[p].workerPc.Cleaning?
      && removed <= PointsOfDocument(s, s.procs[p].workerPc.documentId)
    case StartDelete(p, d, now) => p !in s.procs && s.clock <= now
    case DeleteCancel(p, j) =>
      IsDelete(s, p) && s.procs[p].deletePc.Cancelling? && j in s.procs[p].deletePc.jobs
    case DeleteVectors(p, removed, ok) =>
      && IsDelete(s, p) && s.procs[p].deletePc == DroppingVectors
      && removed <= PointsOfDocument(s, s.procs[p].documentId)
      && (ok ==> removed == PointsOfDocument(s, s.procs[p].documentId))
    case DeleteFile(p, ok) => IsDelete(s, p) && s.procs[p].deletePc == DroppingFile
    case DeleteRow(p) => IsDelete(s, p) && s.procs[p].deletePc == DroppingRow
    case Crash(p) => p in s.procs
  }

  /** The points an upsert writes when only the given ids are applied. */
  function Upserted(document: Document, chunks: seq<Chunk>, applied: set<ChunkId>): map<ChunkId, Point>
    requires Prepared(document.id, chunks)
  {
    var rows := ChunkRows(document.id, chunks);
    map c | c in rows && c in applied :: PointOf(document.mediaType, rows[c])
  }

  function AfterCancel(jobs: set<JobId>): DeletePc {
    if jobs == {} then DroppingVectors else Cancelling(jobs)
  }

  function WithSubmit(s: State, p: ProcessId, pc: SubmitPc): State
    requires p in s.procs && s.procs[p].Submit?
  {
    s.At(p, s.procs[p].(submitPc := pc))
  }

  function WithWorker(s: State, p: ProcessId, pc: WorkerPc): State
    requires p in s.procs && s.procs[p].Worker?
  {
    s.At(p, s.procs[p].(workerPc := pc))
  }

  function WithDelete(s: State, p: ProcessId, pc: DeletePc): State
    requires p in s.procs && s.procs[p].Delete?
  {
    s.At(p, s.procs[p].(deletePc := pc))
  }

  function BeginSubmitEffect(s: State, p: ProcessId, d: DocumentId, j: JobId, filename: string,
                             mediaType: MediaType, content: Bytes, now: Timestamp): State {
    match NewDocument(d, filename, mediaType, content, now).Queue(now)
    case Failure(_) => s
    case Success(document) =>
      s.(files := s.files[document.storageKey := content], used := s.used + {d, j}, clock := now,
         log := s.log.(uploads := s.log.uploads[document.storageKey := content]))
       .At(p, Submit(document, NewJob(j, d, now), LookingUp))
  }

  function Cataloged(log: Log, document: Document, job: IngestionJob, rows: map<ChunkId, Chunk>): Log {
    log.(catalog := log.catalog[document.id := document], jobOf := log.jobOf[document.id := job.id],
         expected := log.expected[document.id := rows])
  }

  function Readied(log: Log, d: DocumentId): Log {
    log.(readied := log.readied + {d})
  }

  function Deleted(log: Log, d: DocumentId): Log {
    log.(deleting := log.deleting + {d})
  }

  function InsertEffect(preparer: Preparer, s: State, p: ProcessId, ack: Ack): State
    requires p in s.procs && s.procs[p].Submit?
  {
    var document, job := s.procs[p].document, s.procs[p].job;
    if ack == Refused then WithSubmit(s, p, Discarding(Other))
    else
      match InsertSubmission(s.rows, document, job)
      case Failure(_) => WithSubmit(s, p, Discarding(Conflict))
      case Success(rows) =>
        var log := Cataloged(s.log, document, job, Expected(preparer, document));
        WithSubmit(s.(rows := rows, log := log), p, if ack == Acknowledged then Enqueueing else Discarding(Other))
  }

  function DiscardEffect(s: State, p: ProcessId): State
    requires p in s.procs && s.procs[p].Submit? && s.procs[p].submitPc.Discarding?
  {
    WithSubmit(s.(files := s.files - {s.procs[p].document.storageKey}), p,
               match s.procs[p].submitPc.cause
               case Duplicate(existing) => Finished(RejectedDuplicate(existing))
               case Conflict => Rechecking
               case Other => Finished(OtherError))
  }

  function EnqueueEffect(s: State, p: ProcessId, ack: Ack): State
    requires p in s.procs && s.procs[p].Submit?
  {
    var queue := if ack == Refused then s.queue else s.queue + {s.procs[p].job.id};
    WithSubmit(s.(queue := queue), p, if ack == Acknowledged then Finished(Accepted) else Dispatching)
  }

  function DispatchFailedEffect(s: State, p: ProcessId, now: Timestamp): State
    requires p in s.procs && s.procs[p].Submit?
  {
    var s := s.(clock := now);
    match MarkDispatchFailed(s.rows, s.procs[p].document.id, s.procs[p].job.id, now)
    case Failure(_) => WithSubmit(s, p, Finished(OtherError))
    case Success(rows) => WithSubmit(s.(rows := rows), p, Finished(QueueError))
  }

  function StartEffect(s: State, p: ProcessId, now: Timestamp): State
    requires p in s.procs && s.procs[p].Worker?
  {
    var s := s.(clock := now);
    match StartJob(s.rows, s.procs[p].jobId, now)
    case Failure(_) => s.Exit(p)
    case Success((_, None)) => s.Exit(p)
    case Success((rows, Some(d))) => WithWorker(s.(rows := rows), p, Reading(d))
  }

  function ReadEffect(s: State, p: ProcessId, ok: bool): State
    requires p in s.procs && s.procs[p].Worker? && s.procs[p].workerPc.Reading?
  {
    var d := s.procs[p].workerPc.documentId;
    WithWorker(s, p, if ok && d in s.rows.docs then Preparing(s.rows.docs[d]) else Failing(d, Unexpected))
  }

  /** Opening the file, preparing, embedding and setting up the collection; `failure` is an
      error of any of them other than the preparer's own verdict. */
  function PrepareEffect(preparer: Preparer, s: State, p: ProcessId, failure: Option<FailureCause>): State
    requires p in s.procs && s.procs[p].Worker? && s.procs[p].workerPc.Preparing?
  {
    var document := s.procs[p].workerPc.document;
    WithWorker(s, p,
               if failure.Some? then Failing(document.id, failure.value)
               else if document.storageKey !in s.files then Failing(document.id, Unexpected)
               else
                 match preparer.run(document.id, document.mediaType, s.files[document.storageKey])
                 case Failure(code) => Failing(document.id, Rejected(code))
                 case Success(chunks) => Upserting(document, chunks))
  }

  function UpsertEffect(s: State, p: ProcessId, applied: set<ChunkId>, ok: bool): State
    requires p in s.procs && s.procs[p].Worker? && s.procs[p].workerPc.Upserting?
    requires Prepared(s.procs[p].workerPc.document.id, s.procs[p].workerPc.chunks)
  {
    var pc := s.procs[p].workerPc;
    WithWorker(s.(points := s.points + Upserted(pc.document, pc.chunks, applied)), p,
               if ok then Committing(pc.document, pc.chunks) else Failing(pc.document.id, VectorIndexFailed))
  }

  function CommitEffect(s: State, p: ProcessId, ack: Ack, now: Timestamp): State
    requires p in s.procs && s.procs[p].Worker? && s.procs[p].workerPc.Committing?
    requires Prepared(s.procs[p].workerPc.document.id, s.procs[p].workerPc.chunks)
  {
    var s := s.(clock := now);
    var d := s.procs[p].workerPc.document.id;
    var failing := Failing(d, Unexpected);
    match CommitReady(s.rows, d, s.procs[p].jobId, s.procs[p].workerPc.chunks, now)
    case Failure(_) => WithWorker(s, p, failing)
    case Success(rows) =>
      var done := s.(rows := rows, log := Readied(s.log, d));
      match ack
      case Acknowledged => done.Exit(p)
      case Refused => WithWorker(s, p, failing)
      case Unacknowledged => WithWorker(done, p, failing)
  }

  function MarkFailedEffect(s: State, p: ProcessId, now: Timestamp): State
    requires p in s.procs && s.procs[p].Worker? && s.procs[p].workerPc.Failing?
  {
    var s := s.(clock := now);
    var pc := s.procs[p].workerPc;
    match MarkFailed(s.rows, pc.documentId, s.procs[p].jobId, FailureCode(pc.cause), now)
    case Failure(_) => s.Exit(p)
    case Success(rows) => WithWorker(s.(rows := rows), p, Cleaning(pc.documentId))
  }

  function StartDeleteEffect(s: State, p: ProcessId, d: DocumentId, now: Timestamp): State {
    var s := s.(clock := now);
    match BeginDelete(s.rows, d, now)
    case Failure(_) => s
    case Success((rows, document, jobs)) =>
      s.(rows := rows, log := Deleted(s.log, d))
       .At(p, Delete(d, document.storageKey, AfterCancel(jobs)))
  }

  function CancelEffect(s: State, p: ProcessId, j: JobId): State
    requires p in s.procs && s.procs[p].Delete? && s.procs[p].deletePc.Cancelling?
  {
    WithDelete(s.(queue := s.queue - {j}), p, AfterCancel(s.procs[p].deletePc.jobs - {j}))
  }

  function DropVectorsEffect(s: State, p: ProcessId, removed: set<ChunkId>, ok: bool): State
    requires p in s.procs && s.procs[p].Delete?
  {
    var s := s.(points := s.points - removed);
    if ok then WithDelete(s, p, DroppingFile) else s.Exit(p)
  }

  function DropFileEffect(s: State, p: ProcessId, ok: bool): State
    requires p in s.procs && s.procs[p].Delete?
  {
    if ok then WithDelete(s.(files := s.files - {s.procs[p].storageKey}), p, DroppingRow) else s.Exit(p)
  }

  function Apply(preparer: Preparer, regime: Regime, s: State, a: Action): State
    requires Enabled(regime, s, a)
  {
    match a
    case BeginSubmit(p, d, j, filename, mediaType, content, now) =>
      BeginSubmitEffect(s, p, d, j, filename, mediaType, content, now)
    case SubmitLookup(p, found) =>
      WithSubmit(s, p, if found.Some? then Discarding(Duplicate(found.value)) else Inserting)
    case SubmitInsert(p, ack) => InsertEffect(preparer, s, p, ack)
    case SubmitDiscard(p) => DiscardEffect(s, p)
    case SubmitRecheck(p, found) =>
      WithSubmit(s, p, Finished(if found.Some? then RejectedDuplicate(found.value) else OtherError))
    case SubmitEnqueue(p, ack) => EnqueueEffect(s, p, ack)
    case SubmitDispatchFailed(p, now) => DispatchFailedEffect(s, p, now)
    case Deliver(p, j) =>
      s.(queue := s.queue - {j}, delivered := s.delivered + {j}).At(p, Worker(j, Starting))
    case WorkerStart(p, now) => StartEffect(s, p, now)
    case WorkerRead(p, ok) => ReadEffect(s, p, ok)
    case WorkerPrepare(p, failure) => PrepareEffect(preparer, s, p, failure)
    case WorkerUpsert(p, applied, ok) => UpsertEffect(s, p, applied, ok)
    case WorkerCommit(p, ack, now) => CommitEffect(s, p, ack, now)
    case WorkerMarkFailed(p, now) => MarkFailedEffect(s, p, now)
    case WorkerCleanup(p, removed) => s.(points := s.points - removed).Exit(p)
    case StartDelete(p, d, now) => StartDeleteEffect(s, p, d, now)
    case DeleteCancel(p, j) => CancelEffect(s, p, j)
    case DeleteVectors(p, removed, ok) => DropVectorsEffect(s, p, removed, ok)
    case DeleteFile(p, ok) => DropFileEffect(s, p, ok)
    case DeleteRow(p) => s.(rows := s.rows.DeleteDocument(s.procs[p].documentId)).Exit(p)
    case Crash(p) => s.Exit(p)
  }

  ghost predicate Next(preparer: Preparer, regime: Regime, s: State, s': State) {
    exists a :: Enabled(regime, s, a) && s' == Apply(preparer, regime, s, a)
  }

  /** A run: from an initial state by actions of any processes in any order. */
  ghost predicate IsRun(preparer: Preparer, regime: Regime, run: seq<State>) {
    && run != [] && Init(run[0])
    && forall i :: 0 < i < |run| ==> Next(preparer, regime, run[i - 1], run[i])
  }
}
