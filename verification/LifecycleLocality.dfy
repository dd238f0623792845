/** Every action concerns one document and leaves all others, and the processes that work on them,
    alone. The transactions are summed up by what they do to the document's row. */
module LifecycleLocality {
  import opened Results
  import opened Texts
  import opened Domain
  import opened Transactions
  import opened Lifecycle
  import opened LifecycleSafety
  import opened LifecycleSteps
  import opened LifecycleResults

  function StatusAt(s: State, d: DocumentId): Option<DocumentStatus> {
    if d in s.rows.docs then Some(s.rows.docs[d].status) else None
  }

  /** The document a worker is past `_start_job` with. */
  predicate Carries(pc: WorkerPc, d: DocumentId) {
    match pc
    case Starting => false
    case Reading(e) => e == d
    case Preparing(document) => document.id == d
    case Upserting(document, _) => document.id == d
    case Committing(document, _) => document.id == d
    case Failing(e, _) => e == d
    case Cleaning(e) => e == d
  }

  predicate CarriedBy(procs: map<ProcessId, Process>, p: ProcessId, d: DocumentId) {
    p in procs && procs[p].Worker? && Carries(procs[p].workerPc, d)
  }

  predicate About(process: Process, d: DocumentId) {
    match process
    case Submit(document, _, _) => document.id == d
    case Worker(_, pc) => Carries(pc, d)
    case Delete(e, _, _) => e == d
  }

  /** A process works on at most this document. */
  predicate Only(process: Process, d: DocumentId) {
    About(process, d) || (process.Worker? && process.workerPc.Starting?)
  }

  ghost predicate OthersStay(s: State, s': State, p: ProcessId) {
    && (forall q :: q != p ==> (q in s.procs <==> q in s'.procs))
    && (forall q :: q != p && q in s.procs && q in s'.procs ==> s'.procs[q] == s.procs[q])
  }

  /** Process p took a step that concerns document d. */
  ghost predicate Local(s: State, s': State, p: ProcessId, d: DocumentId) {
    && OthersStay(s, s', p)
    && (p in s.procs ==> Only(s.procs[p], d)) && (p in s'.procs ==> Only(s'.procs[p], d))
    && (forall e :: e != d ==> StatusAt(s', e) == StatusAt(s, e))
    && (forall c: ChunkId :: c.documentId != d ==> (c in s'.points <==> c in s.points))
    && (forall key: StorageKey :: key.documentId != d ==> (key in s'.files <==> key in s.files))
    && (forall e :: e != d ==> (e in s'.log.catalog <==> e in s.log.catalog))
    && (forall e :: e in s.log.catalog ==> e in s'.log.catalog && s'.log.catalog[e] == s.log.catalog[e])
    && (forall e :: e in s.log.expected ==> e in s'.log.expected && s'.log.expected[e] == s.log.expected[e])
  }

  /** Rows of documents stay, and so does what the log says of uploads. */
  predicate SameRows(s: State, s': State) {
    s'.rows.docs == s.rows.docs && SameLog(s, s')
  }

  predicate SameLog(s: State, s': State) {
    s'.log.catalog == s.log.catalog && s'.log.expected == s.log.expected
  }

  /** Points, files and queue stay. */
  predicate Still(s: State, s': State) {
    s'.points == s.points && s'.files == s.files && s'.queue == s.queue && s'.delivered == s.delivered
  }

  /** The row of d goes from one of these statuses to that one; all other rows stay. */
  ghost predicate RowMoves(s: State, s': State, d: DocumentId, before: set<DocumentStatus>, after: DocumentStatus) {
    && d in s.rows.docs && s.rows.docs[d].status in before
    && StatusAt(s', d) == Some(after)
    && (forall e :: e != d ==> StatusAt(s', e) == StatusAt(s, e))
    && SameLog(s, s')
  }

  // ---- facts of the states that runs get to

  ghost predicate Reachable(preparer: Preparer, s: State) {
    exists regime, run: seq<State>, i: nat :: IsRun(preparer, regime, run) && i < |run| && run[i] == s
  }

  lemma ReachedByRun(preparer: Preparer, regime: Regime, run: seq<State>, i: nat)
    requires IsRun(preparer, regime, run) && i < |run|
    ensures Reachable(preparer, run[i])
  {
    hide IsRun;
  }

  lemma ReachableIsSafe(preparer: Preparer, s: State)
    requires Reachable(preparer, s)
    ensures Safe(preparer, s)
  {
    hide IsRun, Safe;
    var regime, run: seq<State>, i: nat :| IsRun(preparer, regime, run) && i < |run| && run[i] == s;
    RunsAreSafe(preparer, regime, run, i);
  }

  lemma LogOfDocument(rows: Rows, log: Log, now: Timestamp, d: DocumentId)
    requires RowsOk(rows, log, now)
    ensures d in rows.docs ==> (rows.docs[d].status == Deleting <==> d in log.deleting)
    ensures d in rows.docs ==> d in log.catalog
    ensures OneDocumentPerJob(log)
  {
    hide UniqueHashes, ChunksOk, JobsOk;
    assert d in rows.docs ==> DocumentOk(rows, log, now, d);
  }

  lemma KeyOfEntry(preparer: Preparer, s: State, d: DocumentId)
    requires Reachable(preparer, s) && d in s.log.catalog
    ensures s.log.catalog[d].storageKey.documentId == d && s.log.catalog[d].id == d
  {
    hide Reachable, RowsOk, FilesOk, PointsOk, ProcessesOk;
    ReachableIsSafe(preparer, s);
    assert EntryOk(preparer, s.rows, s.log, s.used, d);
  }

  lemma PointOwners(preparer: Preparer, s: State)
    requires Reachable(preparer, s)
    ensures forall c :: c in s.points ==> s.points[c].documentId == c.documentId && c.documentId in s.log.catalog
  {
    hide Reachable, RowsOk, LogOk, FilesOk, ProcessesOk;
    ReachableIsSafe(preparer, s);
    forall c | c in s.points ensures s.points[c].documentId == c.documentId && c.documentId in s.log.catalog {
      assert PointOk(s.points, s.log, c);
    }
  }

  lemma LogDomainsOf(preparer: Preparer, s: State)
    requires Reachable(preparer, s)
    ensures s.log.deleting <= s.log.catalog.Keys && s.log.expected.Keys == s.log.catalog.Keys == s.log.jobOf.Keys
    ensures s.log.catalog.Keys <= s.used
  {
    hide Reachable, RowsOk, FilesOk, PointsOk, ProcessesOk;
    ReachableIsSafe(preparer, s);
    LogDomains(preparer, s.rows, s.log, s.used);
    forall d | d in s.log.catalog ensures d in s.used { assert EntryOk(preparer, s.rows, s.log, s.used, d); }
  }

  lemma CarriedWork(preparer: Preparer, s: State, p: ProcessId, d: DocumentId)
    requires Reachable(preparer, s) && p in s.procs && s.procs[p].Worker? && Carries(s.procs[p].workerPc, d)
    ensures WorksOn(s.log, s.procs[p].jobId, d)
  {
    hide Reachable, RowsOk, LogOk, FilesOk, PointsOk, ProcessesOk;
    ReachableIsSafe(preparer, s);
    ProcessFacts(preparer, s, p);
  }

  /** A process about a document knows it from the log, or is the submit that will insert it. */
  lemma AboutLogged(preparer: Preparer, s: State, p: ProcessId, d: DocumentId)
    requires Reachable(preparer, s) && p in s.procs && About(s.procs[p], d)
    ensures d in s.used
    ensures !s.procs[p].Submit? ==> d in s.log.catalog
    ensures s.procs[p].Delete? ==> s.procs[p].storageKey == s.log.catalog[d].storageKey && d in s.log.deleting
    ensures s.procs[p].Submit? ==> s.procs[p].document.storageKey.documentId == d
  {
    hide Reachable, RowsOk, LogOk, FilesOk, PointsOk, ProcessesOk;
    ReachableIsSafe(preparer, s);
    ProcessFacts(preparer, s, p);
    LogDomainsOf(preparer, s);
    if s.procs[p].Worker? { CarriedWork(preparer, s, p, d); }
  }

  lemma SubmitsDiffer(preparer: Preparer, s: State, p: ProcessId, q: ProcessId)
    requires Reachable(preparer, s) && p in s.procs && q in s.procs && p != q && s.procs[p].Submit? && s.procs[q].Submit?
    ensures s.procs[p].job.id != s.procs[q].job.id && s.procs[p].document.id != s.procs[q].document.id
  {
    hide Reachable, RowsOk, LogOk, FilesOk, PointsOk;
    ReachableIsSafe(preparer, s);
  }

  lemma DeletingStatus(preparer: Preparer, s: State, d: DocumentId)
    requires Reachable(preparer, s) && d in s.log.deleting
    ensures StatusAt(s, d) == None || StatusAt(s, d) == Some(Deleting)
  {
    hide Reachable, LogOk, FilesOk, PointsOk, ProcessesOk;
    ReachableIsSafe(preparer, s);
    LogOfDocument(s.rows, s.log, s.clock, d);
  }

  // ---- what the transactions do to the row

  predicate Starts(s: State, s': State, p: ProcessId, d: DocumentId)
    requires p in s.procs && s.procs[p].Worker?
  {
    s'.procs == s.procs[p := Worker(s.procs[p].jobId, Reading(d))] && WorksOn(s.log, s.procs[p].jobId, d)
  }

  /** The document of a job, if the job is stored. */
  function DocumentOfJob(rows: Rows, j: JobId): DocumentId {
    if j in rows.jobs then rows.jobs[j].documentId else 0
  }

  lemma StartMoves(preparer: Preparer, s: State, p: ProcessId, now: Timestamp)
    requires Reachable(preparer, s) && p in s.procs && s.procs[p].Worker? && s.clock <= now
    ensures var s' := StartEffect(s, p, now);
            var d := DocumentOfJob(s.rows, s.procs[p].jobId);
            Still(s, s')
            && (s' == s.(clock := now).Exit(p)
                || (Starts(s, s', p, d) && RowMoves(s, s', d, {Queued, Failed}, Processing)))
  {
    hide Reachable, RowsOk, LogOk, FilesOk, PointsOk, ProcessesOk, StartJob;
    ReachableIsSafe(preparer, s);
    var j := s.procs[p].jobId;
    var r := StartJob(s.rows, j, now);
    if r.Success? && r.value.1.Some? {
      LaterRows(s.rows, s.log, s.clock, now);
      StartedRow(s.rows, s.log, now, j);
    }
  }

  lemma StartedRow(rows: Rows, log: Log, now: Timestamp, j: JobId)
    requires RowsOk(rows, log, now) && StartJob(rows, j, now).Success? && StartJob(rows, j, now).value.1.Some?
    ensures var (rows', started) := StartJob(rows, j, now).value;
            var d := started.value;
            && d == DocumentOfJob(rows, j)
            && WorksOn(log, j, d) && d in rows.docs && rows.docs[d].status in {Queued, Failed}
            && d in rows'.docs && rows'.docs == rows.docs[d := rows'.docs[d]] && rows'.docs[d].status == Processing
  {
    hide UniqueHashes, ChunksOk, StartPair;
    StartJobOutcome(rows, log, now, j);
    var d := rows.jobs[j].documentId;
    assert JobOk(rows, log, now, j);
    StoredPair(rows, log, now, d);
    StartPairOutcome(rows.docs[d], rows.jobs[j], now);
  }

  lemma CommitMoves(preparer: Preparer, s: State, p: ProcessId, ack: Ack, now: Timestamp)
    requires Reachable(preparer, s) && p in s.procs && s.procs[p].Worker? && s.procs[p].workerPc.Committing? && s.clock <= now
    requires Prepared(s.procs[p].workerPc.document.id, s.procs[p].workerPc.chunks)
    ensures var d := s.procs[p].workerPc.document.id;
            var s' := CommitEffect(s, p, ack, now);
            && Still(s, s') && d in s.log.expected && s.log.expected[d] == ChunkRows(d, s.procs[p].workerPc.chunks)
            && if InFlight(s.rows, d) && ack != Refused
               then RowMoves(s, s', d, {Processing}, Ready)
                    && s'.procs == if ack == Acknowledged then s.procs - {p} else Fails(s, p, d)
               else SameRows(s, s') && s'.procs == Fails(s, p, d)
  {
    hide Reachable, CommitReady, ChunkRows, Prepared;
    CommittedRow(preparer, s, p, now);
  }

  function Fails(s: State, p: ProcessId, d: DocumentId): map<ProcessId, Process>
    requires p in s.procs && s.procs[p].Worker?
  {
    s.procs[p := Worker(s.procs[p].jobId, Failing(d, Unexpected))]
  }

  lemma CommittedRow(preparer: Preparer, s: State, p: ProcessId, now: Timestamp)
    requires Reachable(preparer, s) && p in s.procs && s.procs[p].Worker? && s.procs[p].workerPc.Committing? && s.clock <= now
    requires Prepared(s.procs[p].workerPc.document.id, s.procs[p].workerPc.chunks)
    ensures var d, chunks := s.procs[p].workerPc.document.id, s.procs[p].workerPc.chunks;
            var r := CommitReady(s.rows, d, s.procs[p].jobId, chunks, now);
            && d in s.log.expected && s.log.expected[d] == ChunkRows(d, chunks)
            && (r.Success? <==> InFlight(s.rows, d))
            && (r.Success? ==> d in r.value.docs && r.value.docs == s.rows.docs[d := r.value.docs[d]] && r.value.docs[d].status == Ready)
  {
    hide Reachable, RowsOk, LogOk, FilesOk, PointsOk, ProcessesOk, CommitReady, ChunkRows, Prepared;
    ReachableIsSafe(preparer, s);
    var pc, j := s.procs[p].workerPc, s.procs[p].jobId;
    ProcessFacts(preparer, s, p);
    SnapshotExpected(preparer, s, j, pc.document, pc.chunks);
    LaterRows(s.rows, s.log, s.clock, now);
    CommitReadyOutcome(s.rows, s.log, now, pc.document.id, j, pc.chunks);
  }

  lemma MarkFailedMoves(preparer: Preparer, s: State, p: ProcessId, now: Timestamp)
    requires Reachable(preparer, s) && p in s.procs && s.procs[p].Worker? && s.procs[p].workerPc.Failing? && s.clock <= now
    ensures var d := s.procs[p].workerPc.documentId;
            var s' := MarkFailedEffect(s, p, now);
            && Still(s, s') && s'.procs == s.procs[p := Worker(s.procs[p].jobId, Cleaning(d))]
            && if StatusAt(s, d) == Some(Processing) then RowMoves(s, s', d, {Processing}, Failed) else SameRows(s, s')
  {
    hide Reachable, RowsOk, LogOk, FilesOk, PointsOk, ProcessesOk, MarkFailed, FailureCode;
    ReachableIsSafe(preparer, s);
    var pc, j := s.procs[p].workerPc, s.procs[p].jobId;
    CarriedWork(preparer, s, p, pc.documentId);
    LaterRows(s.rows, s.log, s.clock, now);
    MarkFailedOutcome(s.rows, s.log, now, pc.documentId, j, pc.cause);
  }

  lemma DispatchMoves(preparer: Preparer, s: State, p: ProcessId, now: Timestamp)
    requires Reachable(preparer, s) && SubmitAt(s, p, Dispatching) && s.clock <= now
    ensures var d := s.procs[p].document.id;
            var s' := DispatchFailedEffect(s, p, now);
            && Still(s, s') && OthersStay(s, s', p)
            && p in s'.procs && s'.procs[p].Submit? && s'.procs[p].document == s.procs[p].document
            && s'.procs[p].job == s.procs[p].job && s'.procs[p].submitPc in {Finished(QueueError), Finished(OtherError)}
            && (StatusAt(s, d) == Some(Queued) ==> s'.procs[p].submitPc == Finished(QueueError))
            && (RowMoves(s, s', d, {Queued, Processing}, Failed) || SameRows(s, s'))
  {
    hide Reachable, RowsOk, LogOk, FilesOk, PointsOk, ProcessesOk, MarkDispatchFailed;
    ReachableIsSafe(preparer, s);
    ProcessFacts(preparer, s, p);
    LaterRows(s.rows, s.log, s.clock, now);
    MarkDispatchFailedOutcome(s.rows, s.log, now, s.procs[p].document.id, s.procs[p].job.id);
  }

  lemma StartDeleteMoves(preparer: Preparer, s: State, p: ProcessId, d: DocumentId, now: Timestamp)
    requires Reachable(preparer, s) && p !in s.procs && s.clock <= now
    ensures var s' := StartDeleteEffect(s, p, d, now);
            && Still(s, s') && OthersStay(s, s', p)
            && (s' == s.(clock := now)
                || (RowMoves(s, s', d, {Ready, Failed, Deleting}, Deleting)
                    && p in s'.procs && s'.procs[p].Delete? && s'.procs[p].documentId == d
                    && (s'.procs[p].deletePc.Cancelling? || s'.procs[p].deletePc.DroppingVectors?)))
  {
    hide Reachable, RowsOk, LogOk, FilesOk, PointsOk, ProcessesOk, BeginDelete;
    ReachableIsSafe(preparer, s);
    LaterRows(s.rows, s.log, s.clock, now);
    if BeginDelete(s.rows, d, now).Success? { BegunDelete(s.rows, s.log, now, d); }
  }

  lemma BegunDelete(rows: Rows, log: Log, now: Timestamp, d: DocumentId)
    requires RowsOk(rows, log, now) && BeginDelete(rows, d, now).Success?
    ensures var rows' := BeginDelete(rows, d, now).value.0;
            && d in rows.docs && rows.docs[d].status in {Ready, Failed, Deleting}
            && d in rows'.docs && rows'.docs[d].status == Deleting && rows'.docs == rows.docs[d := rows'.docs[d]]
  {
    hide UniqueHashes, ChunksOk;
    BeginDeleteOutcome(rows, log, now, d);
    if rows.docs[d].status == Deleting { assert rows.docs == rows.docs[d := rows.docs[d]]; }
  }

  /** The insert adds the row of a document that was never inserted before. */
  predicate Inserted(s: State, s': State, document: Document) {
    && document.id !in s.log.catalog && document.id !in s.rows.docs && StatusAt(s', document.id) == Some(Queued)
    && s'.rows.docs == s.rows.docs[document.id := document]
    && s'.log.catalog == s.log.catalog[document.id := document]
    && document.id in s'.log.expected && s'.log.expected == s.log.expected[document.id := s'.log.expected[document.id]]
  }

  lemma InsertMoves(preparer: Preparer, s: State, p: ProcessId, ack: Ack)
    requires Reachable(preparer, s)
    requires SubmitAt(s, p, Inserting) || (SubmitAt(s, p, LookingUp) && ack == Refused)
    ensures var document, job := s.procs[p].document, s.procs[p].job;
            var s' := InsertEffect(preparer, s, p, ack);
            && Still(s, s')
            && ((SameRows(s, s') && s'.procs == s.procs[p := Submit(document, job, Discarding(if ack == Refused then Other else Conflict))])
                || (Inserted(s, s', document) && ack != Refused
                    && s'.procs == s.procs[p := Submit(document, job, if ack == Acknowledged then Enqueueing else Discarding(Other))]))
  {
    hide Reachable, RowsOk, LogOk, FilesOk, PointsOk, ProcessesOk, Expected;
    ReachableIsSafe(preparer, s);
    var document, job := s.procs[p].document, s.procs[p].job;
    ProcessFacts(preparer, s, p);
    LogDomainsOf(preparer, s);
    LogOfDocument(s.rows, s.log, s.clock, document.id);
  }

  // ---- every step is local

  /** The document an action is about, if it is about any. */
  function Subject(s: State, a: Action): DocumentId {
    match a
    case BeginSubmit(_, d, _, _, _, _, _) => d
    case StartDelete(_, d, _) => d
    case _ => if a.p in s.procs then DocumentOf(s.rows, s.procs[a.p]) else 0
  }

  function DocumentOf(rows: Rows, process: Process): DocumentId {
    match process
    case Submit(document, _, _) => document.id
    case Delete(d, _, _) => d
    case Worker(j, pc) =>
      match pc
      case Starting => DocumentOfJob(rows, j)
      case Reading(d) => d
      case Preparing(document) => document.id
      case Upserting(document, _) => document.id
      case Committing(document, _) => document.id
      case Failing(d, _) => d
      case Cleaning(d) => d
  }

  lemma OnlyItsDocument(rows: Rows, process: Process)
    ensures Only(process, DocumentOf(rows, process))
    ensures process.Worker? && !process.workerPc.Starting? ==> Carries(process.workerPc, DocumentOf(rows, process))
  {
  }

  lemma BeginSubmitLocal(preparer: Preparer, s: State, p: ProcessId, d: DocumentId, j: JobId, filename: string,
                         mediaType: MediaType, content: Bytes, now: Timestamp)
    requires p !in s.procs
    ensures Local(s, BeginSubmitEffect(s, p, d, j, filename, mediaType, content, now), p, d)
  {
  }

  lemma InsertLocal(preparer: Preparer, s: State, p: ProcessId, ack: Ack)
    requires Reachable(preparer, s) && (SubmitAt(s, p, Inserting) || (SubmitAt(s, p, LookingUp) && ack == Refused))
    ensures Local(s, InsertEffect(preparer, s, p, ack), p, s.procs[p].document.id)
  {
    hide Reachable, InsertEffect;
    InsertMoves(preparer, s, p, ack);
    LogDomainsOf(preparer, s);
  }

  lemma DispatchLocal(preparer: Preparer, s: State, p: ProcessId, now: Timestamp)
    requires Reachable(preparer, s) && SubmitAt(s, p, Dispatching) && s.clock <= now
    ensures Local(s, DispatchFailedEffect(s, p, now), p, s.procs[p].document.id)
  {
    hide Reachable, DispatchFailedEffect;
    DispatchMoves(preparer, s, p, now);
  }

  lemma DiscardLocal(preparer: Preparer, s: State, p: ProcessId)
    requires Reachable(preparer, s) && p in s.procs && s.procs[p].Submit? && s.procs[p].submitPc.Discarding?
    ensures Local(s, DiscardEffect(s, p), p, s.procs[p].document.id)
  {
    hide Reachable;
    AboutLogged(preparer, s, p, s.procs[p].document.id);
  }

  /** A submit that only moves on, perhaps with its job in the queue. */
  lemma MovesOn(s: State, p: ProcessId, pc: SubmitPc, queue: set<JobId>)
    requires p in s.procs && s.procs[p].Submit?
    ensures Local(s, WithSubmit(s.(queue := queue), p, pc), p, s.procs[p].document.id)
  {
  }

  lemma SubmitLocal(preparer: Preparer, regime: Regime, s: State, a: Action)
    requires Enabled(regime, s, a) && Reachable(preparer, s)
    requires a.SubmitLookup? || a.SubmitRecheck? || a.SubmitInsert? || a.SubmitDiscard? || a.SubmitEnqueue? || a.SubmitDispatchFailed?
    ensures Local(s, Apply(preparer, regime, s, a), a.p, Subject(s, a))
  {
    hide Reachable, Local, InsertEffect, DispatchFailedEffect, DiscardEffect, WithSubmit;
    match a
    case SubmitInsert(p, ack) => InsertLocal(preparer, s, p, ack);
    case SubmitDispatchFailed(p, now) => DispatchLocal(preparer, s, p, now);
    case SubmitDiscard(p) => DiscardLocal(preparer, s, p);
    case SubmitLookup(p, found) => MovesOn(s, p, if found.Some? then Discarding(Duplicate(found.value)) else Inserting, s.queue);
    case SubmitRecheck(p, found) => MovesOn(s, p, Finished(if found.Some? then RejectedDuplicate(found.value) else OtherError), s.queue);
    case SubmitEnqueue(p, ack) =>
      MovesOn(s, p, if ack == Acknowledged then Finished(Accepted) else Dispatching,
              if ack == Refused then s.queue else s.queue + {s.procs[p].job.id});
  }

  lemma ReadLocal(preparer: Preparer, s: State, p: ProcessId, ok: bool)
    requires Reachable(preparer, s) && p in s.procs && s.procs[p].Worker? && s.procs[p].workerPc.Reading?
    ensures Local(s, ReadEffect(s, p, ok), p, s.procs[p].workerPc.documentId)
  {
    hide Reachable, RowsOk, LogOk, FilesOk, PointsOk, ProcessesOk;
    ReachableIsSafe(preparer, s);
    SnapshotTaken(s.rows, s.log, s.clock, s.procs[p].workerPc.documentId);
  }

  lemma UpsertLocal(s: State, p: ProcessId, applied: set<ChunkId>, ok: bool)
    requires p in s.procs && s.procs[p].Worker? && s.procs[p].workerPc.Upserting?
    requires Prepared(s.procs[p].workerPc.document.id, s.procs[p].workerPc.chunks)
    ensures Local(s, UpsertEffect(s, p, applied, ok), p, s.procs[p].workerPc.document.id)
  {
    hide Prepared, ChunkRows;
    var pc := s.procs[p].workerPc;
    var d := pc.document.id;
    var rows := ChunkRows(d, pc.chunks);
    assert forall c :: c in Upserted(pc.document, pc.chunks, applied) ==> c in rows && c.documentId == d;
  }

  lemma StartLocal(preparer: Preparer, s: State, p: ProcessId, now: Timestamp)
    requires Reachable(preparer, s) && p in s.procs && s.procs[p].Worker? && s.procs[p].workerPc == Starting && s.clock <= now
    ensures Local(s, StartEffect(s, p, now), p, DocumentOfJob(s.rows, s.procs[p].jobId))
  {
    hide Reachable, StartEffect;
    StartMoves(preparer, s, p, now);
  }

  lemma CommitLocal(preparer: Preparer, s: State, p: ProcessId, ack: Ack, now: Timestamp)
    requires Reachable(preparer, s) && p in s.procs && s.procs[p].Worker? && s.procs[p].workerPc.Committing? && s.clock <= now
    requires Prepared(s.procs[p].workerPc.document.id, s.procs[p].workerPc.chunks)
    ensures Local(s, CommitEffect(s, p, ack, now), p, s.procs[p].workerPc.document.id)
  {
    hide Reachable, CommitEffect, ChunkRows, Prepared;
    CommitMoves(preparer, s, p, ack, now);
  }

  lemma MarkFailedLocal(preparer: Preparer, s: State, p: ProcessId, now: Timestamp)
    requires Reachable(preparer, s) && p in s.procs && s.procs[p].Worker? && s.procs[p].workerPc.Failing? && s.clock <= now
    ensures Local(s, MarkFailedEffect(s, p, now), p, s.procs[p].workerPc.documentId)
  {
    hide Reachable, MarkFailedEffect;
    MarkFailedMoves(preparer, s, p, now);
  }

  lemma PrepareLocal(preparer: Preparer, s: State, p: ProcessId, failure: Option<FailureCause>)
    requires p in s.procs && s.procs[p].Worker? && s.procs[p].workerPc.Preparing?
    ensures Local(s, PrepareEffect(preparer, s, p, failure), p, s.procs[p].workerPc.document.id)
  {
  }

  lemma CleanupLocal(preparer: Preparer, s: State, p: ProcessId, removed: set<ChunkId>)
    requires Reachable(preparer, s) && p in s.procs && s.procs[p].Worker? && s.procs[p].workerPc.Cleaning?
    requires removed <= PointsOfDocument(s, s.procs[p].workerPc.documentId)
    ensures Local(s, s.(points := s.points - removed).Exit(p), p, s.procs[p].workerPc.documentId)
  {
    hide Reachable;
    PointOwners(preparer, s);
  }

  lemma WorkerLocal(preparer: Preparer, regime: Regime, s: State, a: Action)
    requires Enabled(regime, s, a) && Reachable(preparer, s)
    requires a.WorkerStart? || a.WorkerRead? || a.WorkerPrepare? || a.WorkerUpsert? || a.WorkerCommit? || a.WorkerMarkFailed? || a.WorkerCleanup?
    ensures Local(s, Apply(preparer, regime, s, a), a.p, Subject(s, a))
  {
    hide Reachable, Local, StartEffect, ReadEffect, PrepareEffect, UpsertEffect, CommitEffect, MarkFailedEffect, Prepared, ChunkRows;
    match a
    case WorkerStart(p, now) => StartLocal(preparer, s, p, now);
    case WorkerRead(p, ok) => ReadLocal(preparer, s, p, ok);
    case WorkerPrepare(p, failure) => PrepareLocal(preparer, s, p, failure);
    case WorkerUpsert(p, applied, ok) => UpsertLocal(s, p, applied, ok);
    case WorkerCommit(p, ack, now) => CommitLocal(preparer, s, p, ack, now);
    case WorkerMarkFailed(p, now) => MarkFailedLocal(preparer, s, p, now);
    case WorkerCleanup(p, removed) => CleanupLocal(preparer, s, p, removed);
  }

  lemma StartDeleteLocal(preparer: Preparer, s: State, p: ProcessId, d: DocumentId, now: Timestamp)
    requires Reachable(preparer, s) && p !in s.procs && s.clock <= now
    ensures Local(s, StartDeleteEffect(s, p, d, now), p, d)
  {
    hide Reachable, StartDeleteEffect;
    StartDeleteMoves(preparer, s, p, d, now);
  }

  lemma DropVectorsLocal(preparer: Preparer, s: State, p: ProcessId, removed: set<ChunkId>, ok: bool)
    requires Reachable(preparer, s) && p in s.procs && s.procs[p].Delete? && removed <= PointsOfDocument(s, s.procs[p].documentId)
    ensures Local(s, DropVectorsEffect(s, p, removed, ok), p, s.procs[p].documentId)
  {
    hide Reachable;
    PointOwners(preparer, s);
  }

  lemma DropFileLocal(preparer: Preparer, s: State, p: ProcessId, ok: bool)
    requires Reachable(preparer, s) && p in s.procs && s.procs[p].Delete?
    ensures Local(s, DropFileEffect(s, p, ok), p, s.procs[p].documentId)
  {
    hide Reachable;
    AboutLogged(preparer, s, p, s.procs[p].documentId);
    KeyOfEntry(preparer, s, s.procs[p].documentId);
  }

  lemma DropRowLocal(s: State, p: ProcessId)
    requires p in s.procs && s.procs[p].Delete?
    ensures Local(s, s.(rows := s.rows.DeleteDocument(s.procs[p].documentId)).Exit(p), p, s.procs[p].documentId)
  {
  }

  lemma CancelLocal(s: State, p: ProcessId, j: JobId)
    requires p in s.procs && s.procs[p].Delete? && s.procs[p].deletePc.Cancelling?
    ensures Local(s, CancelEffect(s, p, j), p, s.procs[p].documentId)
  {
    hide AfterCancel;
  }

  lemma DeleteLocal(preparer: Preparer, regime: Regime, s: State, a: Action)
    requires Enabled(regime, s, a) && Reachable(preparer, s)
    requires a.StartDelete? || a.DeleteCancel? || a.DeleteVectors? || a.DeleteFile? || a.DeleteRow?
    ensures Local(s, Apply(preparer, regime, s, a), a.p, Subject(s, a))
  {
    hide Reachable, Local, StartDeleteEffect, CancelEffect, DropVectorsEffect, DropFileEffect, PointsOfDocument;
    match a
    case StartDelete(p, d, now) => StartDeleteLocal(preparer, s, p, d, now);
    case DeleteCancel(p, j) => CancelLocal(s, p, j);
    case DeleteVectors(p, removed, ok) => DropVectorsLocal(preparer, s, p, removed, ok);
    case DeleteFile(p, ok) => DropFileLocal(preparer, s, p, ok);
    case DeleteRow(p) => DropRowLocal(s, p);
  }

  lemma DeliverLocal(s: State, p: ProcessId, j: JobId)
    requires p !in s.procs
    ensures Local(s, s.(queue := s.queue - {j}, delivered := s.delivered + {j}).At(p, Worker(j, Starting)), p, 0)
  {
  }

  lemma CrashLocal(s: State, p: ProcessId)
    requires p in s.procs
    ensures Local(s, s.Exit(p), p, DocumentOf(s.rows, s.procs[p]))
  {
    OnlyItsDocument(s.rows, s.procs[p]);
  }

  lemma QuietLocal(preparer: Preparer, regime: Regime, s: State, a: Action)
    requires Enabled(regime, s, a)
    requires a.BeginSubmit? || a.Deliver? || a.Crash?
    ensures Local(s, Apply(preparer, regime, s, a), a.p, Subject(s, a))
  {
    hide Local, BeginSubmitEffect, DocumentOf;
    match a
    case BeginSubmit(p, d, j, filename, mediaType, content, now) =>
      BeginSubmitLocal(preparer, s, p, d, j, filename, mediaType, content, now);
    case Deliver(p, j) => DeliverLocal(s, p, j);
    case Crash(p) => CrashLocal(s, p);
  }

  /** An action changes the row, the points and the file of its subject only, and what other
      processes are at not at all. */
  lemma StepIsLocal(preparer: Preparer, regime: Regime, s: State, a: Action)
    requires Enabled(regime, s, a) && Reachable(preparer, s)
    ensures Local(s, Apply(preparer, regime, s, a), a.p, Subject(s, a))
  {
    hide Reachable, Local, Enabled, Apply, Subject;
    if a.StartDelete? || a.DeleteCancel? || a.DeleteVectors? || a.DeleteFile? || a.DeleteRow? {
      DeleteLocal(preparer, regime, s, a);
    } else if a.BeginSubmit? || a.Deliver? || a.Crash? {
      QuietLocal(preparer, regime, s, a);
    } else if a.SubmitLookup? || a.SubmitRecheck? || a.SubmitInsert? || a.SubmitDiscard? || a.SubmitEnqueue? || a.SubmitDispatchFailed? {
      SubmitLocal(preparer, regime, s, a);
    } else {
      WorkerLocal(preparer, regime, s, a);
    }
  }

  // ---- what a step makes of its own process

  predicate OfSubmit(a: Action) {
    a.BeginSubmit? || a.SubmitLookup? || a.SubmitInsert? || a.SubmitDiscard? || a.SubmitRecheck? || a.SubmitEnqueue? || a.SubmitDispatchFailed?
  }

  predicate OfWorker(a: Action) {
    || a.Deliver? || a.WorkerStart? || a.WorkerRead? || a.WorkerPrepare? || a.WorkerUpsert? || a.WorkerCommit?
    || a.WorkerMarkFailed? || a.WorkerCleanup?
  }

  lemma SubmitStaysSubmit(preparer: Preparer, regime: Regime, s: State, a: Action)
    requires Enabled(regime, s, a) && OfSubmit(a)
    ensures var procs := Apply(preparer, regime, s, a).procs; a.p in procs && procs[a.p].Worker? ==> a.p in s.procs && procs[a.p] == s.procs[a.p]
  {
    hide MarkDispatchFailed, Expected, InsertSubmission;
  }

  lemma WorkerStaysWorker(preparer: Preparer, regime: Regime, s: State, a: Action)
    requires Enabled(regime, s, a) && OfWorker(a)
    ensures var procs := Apply(preparer, regime, s, a).procs;
            a.p in procs ==>
              && procs[a.p].Worker?
              && if a.Deliver? then procs[a.p].jobId == a.j
                 else a.p in s.procs && s.procs[a.p].Worker? && procs[a.p].jobId == s.procs[a.p].jobId
  {
    hide StartJob, MarkFailed, CommitReady, Upserted, ChunkRows, Prepared, FailureCode, PointsOfDocument;
  }

  lemma DeleteStaysDelete(preparer: Preparer, regime: Regime, s: State, a: Action)
    requires Enabled(regime, s, a) && !OfSubmit(a) && !OfWorker(a)
    ensures var procs := Apply(preparer, regime, s, a).procs; a.p in procs ==> procs[a.p].Delete? || (a.p in s.procs && procs[a.p] == s.procs[a.p])
  {
    hide BeginDelete, PointsOfDocument, AfterCancel;
  }

  /** Only a submit's own steps move it. */
  lemma NoSubmitThere(preparer: Preparer, regime: Regime, s: State, a: Action)
    requires Enabled(regime, s, a) && !OfSubmit(a)
    ensures var procs := Apply(preparer, regime, s, a).procs;
            a.p in procs && procs[a.p].Submit? ==> a.p in s.procs && s.procs[a.p] == procs[a.p]
  {
    hide Enabled, Apply;
    if OfWorker(a) { WorkerStaysWorker(preparer, regime, s, a); } else { DeleteStaysDelete(preparer, regime, s, a); }
  }

  /** A worker keeps its job. */
  lemma JobStays(preparer: Preparer, regime: Regime, s: State, a: Action)
    requires Enabled(regime, s, a)
    requires var procs := Apply(preparer, regime, s, a).procs; a.p in procs && procs[a.p].Worker?
    ensures var procs := Apply(preparer, regime, s, a).procs;
            if a.Deliver? then procs[a.p].jobId == a.j
            else a.p in s.procs && s.procs[a.p].Worker? && procs[a.p].jobId == s.procs[a.p].jobId
  {
    hide Enabled, Apply;
    if OfWorker(a) {
      WorkerStaysWorker(preparer, regime, s, a);
    } else if OfSubmit(a) {
      SubmitStaysSubmit(preparer, regime, s, a);
    } else {
      DeleteStaysDelete(preparer, regime, s, a);
    }
  }

  predicate SameQueue(s: State, s': State) {
    s'.queue == s.queue && s'.delivered == s.delivered
  }

  lemma QueueStaysInSubmit(preparer: Preparer, regime: Regime, s: State, a: Action)
    requires Enabled(regime, s, a) && OfSubmit(a) && !a.SubmitEnqueue?
    ensures SameQueue(s, Apply(preparer, regime, s, a))
  {
    hide MarkDispatchFailed, Expected, InsertSubmission;
  }

  lemma QueueStaysInWorker(preparer: Preparer, regime: Regime, s: State, a: Action)
    requires Enabled(regime, s, a) && OfWorker(a) && !a.Deliver?
    ensures SameQueue(s, Apply(preparer, regime, s, a))
  {
    hide StartJob, MarkFailed, CommitReady, Upserted, ChunkRows, Prepared, FailureCode, PointsOfDocument;
  }

  lemma QueueStaysInDelete(preparer: Preparer, regime: Regime, s: State, a: Action)
    requires Enabled(regime, s, a) && !OfSubmit(a) && !OfWorker(a) && !a.DeleteCancel?
    ensures SameQueue(s, Apply(preparer, regime, s, a))
  {
    hide BeginDelete, PointsOfDocument, AfterCancel;
  }

  /** Queue and deliveries change by an enqueue, a delivery and a cancellation only. */
  lemma QueueStays(preparer: Preparer, regime: Regime, s: State, a: Action)
    requires Enabled(regime, s, a) && !a.SubmitEnqueue? && !a.Deliver? && !a.DeleteCancel?
    ensures SameQueue(s, Apply(preparer, regime, s, a))
  {
    hide Enabled, Apply;
    if OfSubmit(a) {
      QueueStaysInSubmit(preparer, regime, s, a);
    } else if OfWorker(a) {
      QueueStaysInWorker(preparer, regime, s, a);
    } else {
      QueueStaysInDelete(preparer, regime, s, a);
    }
  }
}
