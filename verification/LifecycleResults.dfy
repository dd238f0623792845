/** What the safe states mean for the service: coupled statuses, exact chunk rows, and a revision
    that counts every change of the searchable corpus. All of it holds in any regime. */
module LifecycleResults {
  import opened Results
  import opened Texts
  import opened Domain
  import opened Transactions
  import opened Lifecycle
  import opened LifecycleSafety
  import opened LifecycleSteps

  /** In every state of every run each document has exactly one job, and their statuses are one
      of the coupled pairs. */
  lemma StatusesAreCoupled(preparer: Preparer, regime: Regime, run: seq<State>, i: nat, d: DocumentId)
    requires IsRun(preparer, regime, run) && i < |run| && d in run[i].rows.docs
    ensures exists j :: run[i].rows.JobIds(d) == {j} && j in run[i].rows.jobs
              && Coupled(run[i].rows.docs[d].status, run[i].rows.jobs[j].status)
  {
    hide IsRun, Coupled, FilesOk, PointsOk, ProcessesOk;
    var s := run[i];
    RunsAreSafe(preparer, regime, run, i);
    assert RowsOk(s.rows, s.log, s.clock);
    CoupledState(s.rows, s.log, s.clock, d);
  }

  lemma CoupledState(rows: Rows, log: Log, now: Timestamp, d: DocumentId)
    requires RowsOk(rows, log, now) && d in rows.docs
    ensures d in log.jobOf && log.jobOf[d] in rows.jobs && rows.jobs[log.jobOf[d]].documentId == d
    ensures Coupled(rows.docs[d].status, rows.jobs[log.jobOf[d]].status)
    ensures rows.JobIds(d) == {log.jobOf[d]}
  {
    hide UniqueHashes, ChunksOk, Coupled;
    StoredPair(rows, log, now, d);
    forall j | j in rows.jobs && rows.jobs[j].documentId == d ensures j == log.jobOf[d] {
      assert JobOk(rows, log, now, j);
    }
  }

  /** Every job belongs to a stored document. */
  lemma JobsHaveDocuments(preparer: Preparer, regime: Regime, run: seq<State>, i: nat, j: JobId)
    requires IsRun(preparer, regime, run) && i < |run| && j in run[i].rows.jobs
    ensures run[i].rows.jobs[j].documentId in run[i].rows.docs
  {
    RunsAreSafe(preparer, regime, run, i);
    assert JobOk(run[i].rows, run[i].log, run[i].clock, j);
  }

  /** A delivery in any reachable state: which of `_start_job`'s branches is taken is decided by
      the document's status; the inconsistent one is taken exactly at PROCESSING/RUNNING; and only
      a QUEUED or FAILED document makes the delivery change any table. */
  lemma DeliveryOutcome(preparer: Preparer, regime: Regime, run: seq<State>, i: nat, p: ProcessId, now: Timestamp)
    requires IsRun(preparer, regime, run) && i < |run|
    requires Enabled(regime, run[i], WorkerStart(p, now)) && run[i].procs[p].jobId in run[i].rows.jobs
    ensures var s, j := run[i], run[i].procs[p].jobId;
            var d := s.rows.jobs[j].documentId;
            var s' := Apply(preparer, regime, s, WorkerStart(p, now));
            && d in s.rows.docs
            && var status := s.rows.docs[d].status;
            && (StartJob(s.rows, j, now) == Failure(Inconsistent) <==> status == Processing && s.rows.jobs[j].status == Running)
            && (s'.rows == s.rows <==> status == Processing || status == Ready || status == Deleting)
            && (s'.rows != s.rows ==> d in s'.rows.docs && s'.rows.docs[d].status == Processing && s'.rows.revision == s.rows.revision)
  {
    hide IsRun, RowsOk, LogOk, FilesOk, PointsOk, ProcessesOk, StartJob;
    var s, j := run[i], run[i].procs[p].jobId;
    RunsAreSafe(preparer, regime, run, i);
    StartInState(s.rows, s.log, s.clock, now, j);
  }

  lemma StartInState(rows: Rows, log: Log, past: Timestamp, now: Timestamp, j: JobId)
    requires RowsOk(rows, log, past) && past <= now && j in rows.jobs
    ensures var d, r := rows.jobs[j].documentId, StartJob(rows, j, now);
            && d in rows.docs
            && var status := rows.docs[d].status;
            && status != Uploaded
            && (r == Failure(Inconsistent) <==> status == Processing && rows.jobs[j].status == Running)
            && (r.Success? && r.value.1.Some? <==> status == Queued || status == Failed)
            && (r.Success? && r.value.1.Some? ==>
                  d in r.value.0.docs && r.value.0.docs[d].status == Processing && r.value.0.revision == rows.revision)
  {
    LaterRows(rows, log, past, now);
    StartJobOutcome(rows, log, now, j);
    CoupledState(rows, log, now, rows.jobs[j].documentId);
    var r := StartJob(rows, j, now);
    if r.Success? && r.value.1.Some? {
      StartJobKeepsRows(rows, log, now, j);
    }
  }

  /** The document has been READY at some instant up to i. */
  ghost predicate WasReady(run: seq<State>, i: nat, d: DocumentId) {
    exists h :: 0 <= h <= i < |run| && IsReady(run[h].rows, d)
  }

  /** A document enters the log of READY ones by the step that makes it READY. */
  lemma NewlyReadied(preparer: Preparer, regime: Regime, s: State, a: Action, d: DocumentId)
    requires Enabled(regime, s, a) && Safe(preparer, s)
    requires d !in s.log.readied && d in Apply(preparer, regime, s, a).log.readied
    ensures d !in Apply(preparer, regime, s, a).log.deleting
  {
    hide Safe, Apply, Enabled;
    if a.WorkerCommit? {
      CommitReadies(preparer, regime, s, a.p, a.ack, a.now, d);
    } else if a.BeginSubmit? || a.SubmitInsert? || a.StartDelete? {
      ReadiedStays(preparer, regime, s, a);
    } else if a.SubmitLookup? || a.SubmitDiscard? || a.SubmitRecheck? || a.SubmitEnqueue? || a.SubmitDispatchFailed? || a.Crash? {
      QuietSubmit(preparer, regime, s, a);
    } else if a.DeleteCancel? || a.DeleteVectors? || a.DeleteFile? || a.DeleteRow? {
      QuietDelete(preparer, regime, s, a);
    } else {
      QuietWorker(preparer, regime, s, a);
    }
  }

  lemma ReadiedStays(preparer: Preparer, regime: Regime, s: State, a: Action)
    requires Enabled(regime, s, a) && (a.BeginSubmit? || a.SubmitInsert? || a.StartDelete?)
    ensures Apply(preparer, regime, s, a).log.readied == s.log.readied
  {
    hide InsertSubmission, BeginDelete, Expected;
  }

  lemma CommitReadies(preparer: Preparer, regime: Regime, s: State, p: ProcessId, ack: Ack, now: Timestamp, d: DocumentId)
    requires Enabled(regime, s, WorkerCommit(p, ack, now)) && Safe(preparer, s)
    requires d !in s.log.readied && d in Apply(preparer, regime, s, WorkerCommit(p, ack, now)).log.readied
    ensures d !in Apply(preparer, regime, s, WorkerCommit(p, ack, now)).log.deleting
  {
    hide RowsOk, LogOk, FilesOk, PointsOk, ProcessesOk, CommitReady, ChunkRows, Prepared;
    var pc, j := s.procs[p].workerPc, s.procs[p].jobId;
    ProcessFacts(preparer, s, p);
    SnapshotExpected(preparer, s, j, pc.document, pc.chunks);
    LaterRows(s.rows, s.log, s.clock, now);
    CommitReadyOutcome(s.rows, s.log, now, pc.document.id, j, pc.chunks);
    Whereabouts(preparer, s, d);
  }

  lemma WereReadyIsReadied(preparer: Preparer, regime: Regime, run: seq<State>, h: nat, i: nat, d: DocumentId)
    requires IsRun(preparer, regime, run) && h <= i < |run| && IsReady(run[h].rows, d)
    ensures d in run[i].log.readied
  {
    hide Safe, IsReady, IsDeleting, IsRun;
    RunsAreSafe(preparer, regime, run, h);
    Whereabouts(preparer, run[h], d);
    LogGrowsAlong(preparer, regime, run, h, i);
  }

  lemma {:induction false} ReadiedWereReady(preparer: Preparer, regime: Regime, run: seq<State>, i: nat, d: DocumentId)
    requires IsRun(preparer, regime, run) && i < |run| && d in run[i].log.readied
    ensures WasReady(run, i, d)
  {
    hide Safe, IsReady, IsDeleting, IsRun, Enabled, Apply;
    if i == 0 {
      StartsUnlogged(preparer, regime, run);
    } else if d in run[i - 1].log.readied {
      ReadiedWereReady(preparer, regime, run, i - 1, d);
    } else {
      RunsAreSafe(preparer, regime, run, i - 1);
      RunsAreSafe(preparer, regime, run, i);
      var a := StepTaken(preparer, regime, run, i);
      NewlyReadied(preparer, regime, run[i - 1], a, d);
      Whereabouts(preparer, run[i], d);
    }
  }

  /** The log says rightly which documents have been READY. */
  lemma ReadiedExactly(preparer: Preparer, regime: Regime, run: seq<State>, i: nat, d: DocumentId)
    requires IsRun(preparer, regime, run) && i < |run|
    ensures d in run[i].log.readied <==> WasReady(run, i, d)
  {
    hide IsReady, IsRun;
    if d in run[i].log.readied {
      ReadiedWereReady(preparer, regime, run, i, d);
    } else {
      forall h | 0 <= h <= i ensures !IsReady(run[h].rows, d) {
        if IsReady(run[h].rows, d) { WereReadyIsReadied(preparer, regime, run, h, i, d); }
      }
    }
  }

  lemma StartsUnlogged(preparer: Preparer, regime: Regime, run: seq<State>)
    requires IsRun(preparer, regime, run)
    ensures run != [] && run[0].log.readied == {}
  {
  }

  lemma StepTaken(preparer: Preparer, regime: Regime, run: seq<State>, i: nat) returns (a: Action)
    requires IsRun(preparer, regime, run) && 0 < i < |run|
    ensures Enabled(regime, run[i - 1], a) && run[i] == Apply(preparer, regime, run[i - 1], a)
  {
    hide Enabled, Apply;
    assert Next(preparer, regime, run[i - 1], run[i]);
    a :| Enabled(regime, run[i - 1], a) && run[i] == Apply(preparer, regime, run[i - 1], a);
  }

  /** The chunk rows of a stored document in any reachable state: exactly one clean preparation of
      the upload if the document has ever been READY, which it then still is unless it is DELETING;
      otherwise none. However many attempts failed, were retried or crashed leaves no trace. */
  lemma ChunkRowsAreExact(preparer: Preparer, regime: Regime, run: seq<State>, i: nat, d: DocumentId)
    requires IsRun(preparer, regime, run) && i < |run| && d in run[i].rows.docs
    ensures var rows := run[i].rows;
            var stored := map c | c in rows.chunks && rows.chunks[c].documentId == d :: rows.chunks[c];
            if WasReady(run, i, d)
            then rows.docs[d].status in {Ready, Deleting} && stored == Expected(preparer, rows.docs[d]) && stored != map[]
            else rows.docs[d].status != Ready && stored == map[]
  {
    hide Safe, Expected, ChunksOk, IsRun, WasReady;
    var s := run[i];
    RunsAreSafe(preparer, regime, run, i);
    DocumentFacts(preparer, s, d);
    ExpectedOwners(preparer, s);
    StoredChunks(s.rows, s.log, d);
    ReadiedExactly(preparer, regime, run, i, d);
  }

  lemma ExpectedOwners(preparer: Preparer, s: State)
    requires Safe(preparer, s)
    ensures forall d, c :: d in s.log.expected && c in s.log.expected[d] ==>
              c.documentId == d && s.log.expected[d][c].documentId == d
  {
    hide RowsOk, LogOk, FilesOk, PointsOk, ProcessesOk;
    ExpectedOwner(preparer, s.rows, s.log, s.used);
  }

  lemma DocumentFacts(preparer: Preparer, s: State, d: DocumentId)
    requires Safe(preparer, s) && d in s.rows.docs
    ensures d in s.log.catalog && d in s.log.expected
    ensures s.rows.docs[d].SameUpload(s.log.catalog[d]) && s.rows.docs[d].id == d
    ensures s.log.expected[d] == Expected(preparer, s.rows.docs[d])
    ensures s.rows.docs[d].storageKey == StorageKey(d, s.rows.docs[d].mediaType)
    ensures LogMatches(s.log, d, s.rows.docs[d].status)
    ensures ChunksOk(s.rows, s.log)
  {
    hide FilesOk, PointsOk, ProcessesOk, UniqueHashes, ChunksOk;
    assert DocumentOk(s.rows, s.log, s.clock, d);
    assert EntryOk(preparer, s.rows, s.log, s.used, d);
  }

  lemma StoredAreExpected(rows: Rows, log: Log, d: DocumentId)
    requires ChunksOk(rows, log)
    ensures forall c :: c in rows.chunks && rows.chunks[c].documentId == d ==>
              c.documentId == d && d in log.readied && d in log.expected && c in log.expected[d] && rows.chunks[c] == log.expected[d][c]
  {
    hide AllStored;
    forall c | c in rows.chunks && rows.chunks[c].documentId == d
      ensures c.documentId == d && d in log.readied && d in log.expected && c in log.expected[d] && rows.chunks[c] == log.expected[d][c]
    {
      assert ChunkOk(rows, log, c);
    }
  }

  lemma ExpectedAreStored(rows: Rows, log: Log, d: DocumentId)
    requires ChunksOk(rows, log) && d in rows.docs && d in log.readied
    ensures d in log.expected && log.expected[d] != map[]
    ensures forall c :: c in log.expected[d] ==> c in rows.chunks && rows.chunks[c].documentId == c.documentId
  {
    assert AllStored(rows, log, d);
    forall c | c in log.expected[d] ensures c in rows.chunks && rows.chunks[c].documentId == c.documentId {
      assert ChunkOk(rows, log, c);
    }
  }

  lemma StoredChunks(rows: Rows, log: Log, d: DocumentId)
    requires ChunksOk(rows, log) && d in rows.docs && d in log.expected
    requires forall c :: c in log.expected[d] ==> c.documentId == d && log.expected[d][c].documentId == d
    ensures var stored := map c | c in rows.chunks && rows.chunks[c].documentId == d :: rows.chunks[c];
            && (d in log.readied ==> stored == log.expected[d] && stored != map[])
            && (d !in log.readied ==> stored == map[])
  {
    hide ChunksOk;
    StoredAreExpected(rows, log, d);
    if d in log.readied {
      ExpectedAreStored(rows, log, d);
    }
  }

  /** The searchable corpus: READY documents and their chunk rows. */
  function ReadyDocuments(rows: Rows): map<DocumentId, Document> {
    map d | d in rows.docs && rows.docs[d].status == Ready :: rows.docs[d]
  }

  predicate IsReady(rows: Rows, d: DocumentId) {
    d in rows.docs && rows.docs[d].status == Ready
  }

  predicate IsDeleting(rows: Rows, d: DocumentId) {
    d in rows.docs && rows.docs[d].status == Deleting
  }

  function ReadyChunks(rows: Rows): map<ChunkId, Chunk> {
    map c | c in rows.chunks && IsReady(rows, c.documentId) :: rows.chunks[c]
  }

  ghost predicate BecomesReady(rows: Rows, rows': Rows) {
    exists d :: IsReady(rows', d) && !IsReady(rows, d)
  }

  ghost predicate EntersDeleting(rows: Rows, rows': Rows) {
    exists d :: IsDeleting(rows', d) && !IsDeleting(rows, d)
  }

  function Count(b: bool): nat {
    if b then 1 else 0
  }

  /** A change of tables either leaves the corpus alone or counts once. */
  ghost predicate Accounted(rows: Rows, rows': Rows) {
    && rows'.revision == rows.revision + Count(BecomesReady(rows, rows')) + Count(EntersDeleting(rows, rows'))
    && (rows'.revision == rows.revision ==>
          ReadyDocuments(rows') == ReadyDocuments(rows) && ReadyChunks(rows') == ReadyChunks(rows))
    && rows'.revision <= rows.revision + 1
  }

  predicate NoNewDocuments(rows: Rows, rows': Rows) {
    rows'.docs.Keys <= rows.docs.Keys
  }

  lemma SaveAccounted(rows: Rows, document: Document, job: IngestionJob)
    requires !IsReady(rows, document.id) && !IsDeleting(rows, document.id)
    requires document.status != Ready && document.status != Deleting
    ensures Accounted(rows, rows.Save(document, job))
  {
    var rows' := rows.Save(document, job);
    assert forall d :: IsReady(rows', d) <==> IsReady(rows, d);
    assert forall d :: IsDeleting(rows', d) <==> IsDeleting(rows, d);
  }

  lemma ReadyAccounted(rows: Rows, document: Document, job: IngestionJob, added: map<ChunkId, Chunk>)
    requires !IsReady(rows, document.id) && !IsDeleting(rows, document.id) && document.status == Ready
    ensures Accounted(rows, rows.Save(document, job).(chunks := rows.chunks + added, revision := rows.revision + 1))
  {
    var rows' := rows.Save(document, job).(chunks := rows.chunks + added, revision := rows.revision + 1);
    assert IsReady(rows', document.id);
    assert forall d :: IsDeleting(rows', d) <==> IsDeleting(rows, d);
  }

  lemma DeletingAccounted(rows: Rows, document: Document)
    requires document.id in rows.docs && !IsDeleting(rows, document.id) && document.status == Deleting
    ensures Accounted(rows, rows.SaveDocument(document).(revision := rows.revision + 1))
  {
    var rows' := rows.SaveDocument(document).(revision := rows.revision + 1);
    assert IsDeleting(rows', document.id);
    assert forall d :: IsReady(rows', d) ==> IsReady(rows, d);
  }

  lemma RemovalAccounted(rows: Rows, d: DocumentId)
    requires d in rows.docs ==> IsDeleting(rows, d)
    requires forall c :: c in rows.chunks ==> rows.chunks[c].documentId == c.documentId
    ensures Accounted(rows, rows.DeleteDocument(d))
  {
    var rows' := rows.DeleteDocument(d);
    assert forall e :: IsReady(rows', e) <==> IsReady(rows, e);
    assert forall e :: IsDeleting(rows', e) ==> IsDeleting(rows, e);
    assert ReadyDocuments(rows') == ReadyDocuments(rows);
    assert ReadyChunks(rows') == ReadyChunks(rows);
  }

  lemma SameAccounted(rows: Rows)
    ensures Accounted(rows, rows)
  {
  }

  lemma ChunkOwners(rows: Rows, log: Log)
    requires ChunksOk(rows, log)
    ensures forall c :: c in rows.chunks ==> rows.chunks[c].documentId == c.documentId
  {
    hide AllStored;
    forall c | c in rows.chunks ensures rows.chunks[c].documentId == c.documentId {
      assert ChunkOk(rows, log, c);
    }
  }

  lemma StatusInLog(rows: Rows, log: Log, now: Timestamp, d: DocumentId)
    requires RowsOk(rows, log, now)
    ensures d !in log.readied ==> !IsReady(rows, d)
    ensures d !in log.deleting ==> !IsDeleting(rows, d)
    ensures d in log.deleting && d in rows.docs ==> IsDeleting(rows, d)
  {
    hide UniqueHashes, ChunksOk, JobsOk;
    assert d in rows.docs ==> DocumentOk(rows, log, now, d);
  }

  lemma StartAccounted(rows: Rows, log: Log, past: Timestamp, now: Timestamp, j: JobId)
    requires RowsOk(rows, log, past) && past <= now
    requires StartJob(rows, j, now).Success? && StartJob(rows, j, now).value.1.Some?
    ensures Accounted(rows, StartJob(rows, j, now).value.0)
    ensures NoNewDocuments(rows, StartJob(rows, j, now).value.0)
  {
    hide Accounted;
    LaterRows(rows, log, past, now);
    StartJobKeepsRows(rows, log, now, j);
    StartJobOutcome(rows, log, now, j);
    var (rows', started) := StartJob(rows, j, now).value;
    SaveAccounted(rows, rows'.docs[started.value], rows'.jobs[j]);
  }

  lemma MarkFailedAccounted(rows: Rows, log: Log, past: Timestamp, now: Timestamp, d: DocumentId, j: JobId, cause: FailureCause)
    requires RowsOk(rows, log, past) && past <= now && WorksOn(log, j, d)
    ensures MarkFailed(rows, d, j, FailureCode(cause), now).Success?
    ensures Accounted(rows, MarkFailed(rows, d, j, FailureCode(cause), now).value)
    ensures NoNewDocuments(rows, MarkFailed(rows, d, j, FailureCode(cause), now).value)
  {
    hide Accounted, MarkFailed;
    LaterRows(rows, log, past, now);
    MarkFailedOutcome(rows, log, now, d, j, cause);
    var rows' := MarkFailed(rows, d, j, FailureCode(cause), now).value;
    if InFlight(rows, d) {
      SaveAccounted(rows, rows'.docs[d], rows'.jobs[j]);
    } else {
      SameAccounted(rows);
    }
  }

  lemma DispatchFailedAccounted(rows: Rows, log: Log, past: Timestamp, now: Timestamp, d: DocumentId, j: JobId)
    requires RowsOk(rows, log, past) && past <= now && WorksOn(log, j, d)
    requires MarkDispatchFailed(rows, d, j, now).Success?
    ensures Accounted(rows, MarkDispatchFailed(rows, d, j, now).value)
    ensures NoNewDocuments(rows, MarkDispatchFailed(rows, d, j, now).value)
  {
    hide Accounted, MarkDispatchFailed;
    LaterRows(rows, log, past, now);
    MarkDispatchFailedOutcome(rows, log, now, d, j);
    var rows' := MarkDispatchFailed(rows, d, j, now).value;
    if d in rows.docs {
      SaveAccounted(rows, rows'.docs[d], rows'.jobs[j]);
    } else {
      SameAccounted(rows);
    }
  }

  lemma CommitAccounted(rows: Rows, log: Log, past: Timestamp, now: Timestamp, d: DocumentId, j: JobId, chunks: seq<Chunk>)
    requires RowsOk(rows, log, past) && past <= now && WorksOn(log, j, d)
    requires d in log.expected && Prepared(d, chunks) && log.expected[d] == ChunkRows(d, chunks)
    requires CommitReady(rows, d, j, chunks, now).Success?
    ensures Accounted(rows, CommitReady(rows, d, j, chunks, now).value)
    ensures NoNewDocuments(rows, CommitReady(rows, d, j, chunks, now).value)
  {
    hide Accounted, CommitReady, ChunkRows;
    LaterRows(rows, log, past, now);
    CommitReadyOutcome(rows, log, now, d, j, chunks);
    var rows' := CommitReady(rows, d, j, chunks, now).value;
    ReadyAccounted(rows, rows'.docs[d], rows'.jobs[j], ChunkRows(d, chunks));
  }

  lemma BeginDeleteAccounted(rows: Rows, log: Log, past: Timestamp, now: Timestamp, d: DocumentId)
    requires RowsOk(rows, log, past) && past <= now && BeginDelete(rows, d, now).Success?
    ensures Accounted(rows, BeginDelete(rows, d, now).value.0)
    ensures NoNewDocuments(rows, BeginDelete(rows, d, now).value.0)
  {
    hide Accounted, BeginDelete;
    LaterRows(rows, log, past, now);
    BeginDeleteOutcome(rows, log, now, d);
    StatusInLog(rows, log, now, d);
    if d in log.deleting {
      SameAccounted(rows);
    } else {
      DeletingAccounted(rows, BeginDelete(rows, d, now).value.1);
    }
  }

  lemma InsertAccounted(rows: Rows, log: Log, now: Timestamp, document: Document, job: IngestionJob)
    requires RowsOk(rows, log, now) && InsertSubmission(rows, document, job).Success? && document.status == Queued
    ensures Accounted(rows, InsertSubmission(rows, document, job).value)
  {
    hide Accounted;
    SaveAccounted(rows, document, job);
  }

  lemma DropRowAccounted(preparer: Preparer, s: State, p: ProcessId)
    requires Safe(preparer, s) && p in s.procs && s.procs[p].Delete?
    ensures Accounted(s.rows, s.rows.DeleteDocument(s.procs[p].documentId))
  {
    hide Accounted, LogOk, FilesOk, PointsOk, ProcessesOk;
    ProcessFacts(preparer, s, p);
    StatusInLog(s.rows, s.log, s.clock, s.procs[p].documentId);
    ChunkOwners(s.rows, s.log);
    RemovalAccounted(s.rows, s.procs[p].documentId);
  }

  /** The steps that run a worker's transaction, or open a delete. */
  lemma TransactionAccounted(preparer: Preparer, regime: Regime, s: State, a: Action)
    requires Enabled(regime, s, a) && Safe(preparer, s)
    requires a.WorkerStart? || a.WorkerCommit? || a.WorkerMarkFailed? || a.StartDelete? || a.SubmitDispatchFailed?
    ensures Accounted(s.rows, Apply(preparer, regime, s, a).rows) && NoNewDocuments(s.rows, Apply(preparer, regime, s, a).rows)
  {
    hide Accounted, RowsOk, LogOk, FilesOk, PointsOk, ProcessesOk, StartJob, MarkFailed, MarkDispatchFailed, CommitReady, BeginDelete,
         ChunkRows, Prepared, FailureCode;
    if a.p in s.procs { ProcessFacts(preparer, s, a.p); }
    SameAccounted(s.rows);
    match a
    case SubmitDispatchFailed(p, now) =>
      if MarkDispatchFailed(s.rows, s.procs[p].document.id, s.procs[p].job.id, now).Success? {
        DispatchFailedAccounted(s.rows, s.log, s.clock, now, s.procs[p].document.id, s.procs[p].job.id);
      }
    case WorkerStart(p, now) =>
      var r := StartJob(s.rows, s.procs[p].jobId, now);
      if r.Success? && r.value.1.Some? { StartAccounted(s.rows, s.log, s.clock, now, s.procs[p].jobId); }
    case WorkerCommit(p, ack, now) =>
      var pc, j := s.procs[p].workerPc, s.procs[p].jobId;
      if CommitReady(s.rows, pc.document.id, j, pc.chunks, now).Success? {
        SnapshotExpected(preparer, s, j, pc.document, pc.chunks);
        CommitAccounted(s.rows, s.log, s.clock, now, pc.document.id, j, pc.chunks);
      }
    case WorkerMarkFailed(p, now) =>
      MarkFailedAccounted(s.rows, s.log, s.clock, now, s.procs[p].workerPc.documentId, s.procs[p].jobId, s.procs[p].workerPc.cause);
    case StartDelete(p, d, now) =>
      if BeginDelete(s.rows, d, now).Success? { BeginDeleteAccounted(s.rows, s.log, s.clock, now, d); }
  }

  lemma InsertStep(preparer: Preparer, s: State, p: ProcessId, ack: Ack)
    requires Safe(preparer, s) && (SubmitAt(s, p, Inserting) || (SubmitAt(s, p, LookingUp) && ack == Refused))
    ensures var rows := InsertEffect(preparer, s, p, ack).rows;
            && Accounted(s.rows, rows) && s.procs[p].document.id !in s.log.catalog
            && rows.docs.Keys <= s.rows.docs.Keys + {s.procs[p].document.id}
  {
    hide Accounted, RowsOk, LogOk, FilesOk, PointsOk, ProcessesOk, Expected;
    ProcessFacts(preparer, s, p);
    SameAccounted(s.rows);
    if InsertSubmission(s.rows, s.procs[p].document, s.procs[p].job).Success? {
      InsertAccounted(s.rows, s.log, s.clock, s.procs[p].document, s.procs[p].job);
    }
  }

  /** All other steps but the removal of a row leave the tables alone. */
  lemma TablesStay(preparer: Preparer, regime: Regime, s: State, a: Action)
    requires Enabled(regime, s, a) && !a.SubmitInsert? && !a.DeleteRow?
    requires !(a.WorkerStart? || a.WorkerCommit? || a.WorkerMarkFailed? || a.StartDelete? || a.SubmitDispatchFailed?)
    ensures Apply(preparer, regime, s, a).rows == s.rows
  {
    hide ChunkRows, Upserted, Prepared, PointsOfDocument, InsertEffect, StartEffect, CommitEffect, MarkFailedEffect, StartDeleteEffect, DispatchFailedEffect;
  }

  /** Every action is accounted for: the revision moves by one exactly when a document becomes
      READY or enters DELETING, and otherwise the searchable corpus stays what it was. */
  lemma StepIsAccounted(preparer: Preparer, regime: Regime, s: State, a: Action)
    requires Enabled(regime, s, a) && Safe(preparer, s)
    ensures Accounted(s.rows, Apply(preparer, regime, s, a).rows)
  {
    hide Accounted, Safe, InsertEffect;
    match a
    case SubmitInsert(p, ack) => InsertStep(preparer, s, p, ack);
    case DeleteRow(p) => DropRowAccounted(preparer, s, p);
    case _ =>
      hide Enabled, Apply;
      if a.WorkerStart? || a.WorkerCommit? || a.WorkerMarkFailed? || a.StartDelete? || a.SubmitDispatchFailed? {
        TransactionAccounted(preparer, regime, s, a);
      } else {
        TablesStay(preparer, regime, s, a);
        SameAccounted(s.rows);
      }
  }

  /** READY commits and entries into DELETING in a run up to state i. */
  ghost function Changes(run: seq<State>, i: nat): nat
    requires i < |run|
  {
    if i == 0 then 0
    else Changes(run, i - 1) + Count(BecomesReady(run[i - 1].rows, run[i].rows))
                             + Count(EntersDeleting(run[i - 1].rows, run[i].rows))
  }

  lemma RunStepAccounted(preparer: Preparer, regime: Regime, run: seq<State>, i: nat)
    requires IsRun(preparer, regime, run) && 0 < i < |run|
    ensures Accounted(run[i - 1].rows, run[i].rows)
  {
    hide Accounted, Safe;
    RunsAreSafe(preparer, regime, run, i - 1);
    var s, s' := run[i - 1], run[i];
    assert Next(preparer, regime, s, s');
    var a :| Enabled(regime, s, a) && s' == Apply(preparer, regime, s, a);
    StepIsAccounted(preparer, regime, s, a);
  }

  /** The revision is the number of READY commits plus the number of entries into DELETING. */
  lemma {:induction false} RevisionCountsChanges(preparer: Preparer, regime: Regime, run: seq<State>, i: nat)
    requires IsRun(preparer, regime, run) && i < |run|
    ensures run[i].rows.revision == Changes(run, i)
  {
    hide IsRun;
    if i > 0 {
      RevisionCountsChanges(preparer, regime, run, i - 1);
      RunStepAccounted(preparer, regime, run, i);
    } else {
      StartsAtZero(preparer, regime, run);
    }
  }

  lemma StartsAtZero(preparer: Preparer, regime: Regime, run: seq<State>)
    requires IsRun(preparer, regime, run)
    ensures run != [] && run[0].rows == Rows(map[], map[], map[], 0)
  {
  }

  /** The revision never decreases, and while it stays the same the searchable corpus does too. */
  lemma {:induction false} SameRevisionSameCorpus(preparer: Preparer, regime: Regime, run: seq<State>, i: nat, k: nat)
    requires IsRun(preparer, regime, run) && i <= k < |run|
    ensures run[i].rows.revision <= run[k].rows.revision
    ensures run[i].rows.revision == run[k].rows.revision ==>
              ReadyDocuments(run[i].rows) == ReadyDocuments(run[k].rows) && ReadyChunks(run[i].rows) == ReadyChunks(run[k].rows)
    decreases k
  {
    hide IsRun, ReadyDocuments, ReadyChunks, BecomesReady, EntersDeleting;
    if i < k {
      SameRevisionSameCorpus(preparer, regime, run, i, k - 1);
      RunStepAccounted(preparer, regime, run, k);
    }
  }

  predicate Logged(log: Log, log': Log) {
    log.readied <= log'.readied && log.deleting <= log'.deleting && log.catalog.Keys <= log'.catalog.Keys
  }

  lemma QuietSubmit(preparer: Preparer, regime: Regime, s: State, a: Action)
    requires Enabled(regime, s, a)
    requires a.SubmitLookup? || a.SubmitDiscard? || a.SubmitRecheck? || a.SubmitEnqueue? || a.SubmitDispatchFailed? || a.Crash?
    ensures Apply(preparer, regime, s, a).log == s.log
  {
    hide MarkDispatchFailed;
  }

  lemma QuietWorker(preparer: Preparer, regime: Regime, s: State, a: Action)
    requires Enabled(regime, s, a)
    requires a.Deliver? || a.WorkerStart? || a.WorkerRead? || a.WorkerPrepare? || a.WorkerUpsert? || a.WorkerMarkFailed? || a.WorkerCleanup?
    ensures Apply(preparer, regime, s, a).log == s.log
  {
    hide StartJob, MarkFailed, ChunkRows, Upserted, FailureCode, PointsOfDocument, Prepared;
  }

  lemma QuietDelete(preparer: Preparer, regime: Regime, s: State, a: Action)
    requires Enabled(regime, s, a)
    requires a.DeleteCancel? || a.DeleteVectors? || a.DeleteFile? || a.DeleteRow?
    ensures Apply(preparer, regime, s, a).log == s.log
  {
    hide PointsOfDocument, AfterCancel;
  }

  lemma LoggingStep(preparer: Preparer, regime: Regime, s: State, a: Action)
    requires Enabled(regime, s, a)
    requires a.BeginSubmit? || a.SubmitInsert? || a.WorkerCommit? || a.StartDelete?
    ensures Logged(s.log, Apply(preparer, regime, s, a).log)
  {
    hide InsertSubmission, CommitReady, BeginDelete, Expected, ChunkRows, Prepared;
  }

  lemma LogsOnlyGrow(preparer: Preparer, regime: Regime, s: State, a: Action)
    requires Enabled(regime, s, a)
    ensures Logged(s.log, Apply(preparer, regime, s, a).log)
  {
    hide Enabled, Apply;
    if a.BeginSubmit? || a.SubmitInsert? || a.WorkerCommit? || a.StartDelete? {
      LoggingStep(preparer, regime, s, a);
    } else if a.SubmitLookup? || a.SubmitDiscard? || a.SubmitRecheck? || a.SubmitEnqueue? || a.SubmitDispatchFailed? || a.Crash? {
      QuietSubmit(preparer, regime, s, a);
    } else if a.DeleteCancel? || a.DeleteVectors? || a.DeleteFile? || a.DeleteRow? {
      QuietDelete(preparer, regime, s, a);
    } else {
      QuietWorker(preparer, regime, s, a);
    }
  }

  lemma {:induction false} LogGrowsAlong(preparer: Preparer, regime: Regime, run: seq<State>, i: nat, k: nat)
    requires IsRun(preparer, regime, run) && i <= k < |run|
    ensures run[i].log.readied <= run[k].log.readied && run[i].log.deleting <= run[k].log.deleting
    ensures run[i].log.catalog.Keys <= run[k].log.catalog.Keys
    decreases k
  {
    hide Enabled, Apply;
    if i < k {
      LogGrowsAlong(preparer, regime, run, i, k - 1);
      var s, s' := run[k - 1], run[k];
      assert Next(preparer, regime, s, s');
      var a :| Enabled(regime, s, a) && s' == Apply(preparer, regime, s, a);
      LogsOnlyGrow(preparer, regime, s, a);
    }
  }

  lemma Whereabouts(preparer: Preparer, s: State, d: DocumentId)
    requires Safe(preparer, s)
    ensures IsReady(s.rows, d) <==> d in s.log.readied && d !in s.log.deleting
    ensures IsDeleting(s.rows, d) <==> d in s.log.deleting && d in s.rows.docs
    ensures d in s.rows.docs ==> d in s.log.catalog
    ensures d in s.log.catalog && d !in s.rows.docs ==> d in s.log.deleting
  {
    hide FilesOk, PointsOk, ProcessesOk, UniqueHashes, ChunksOk, JobsOk;
    if d in s.rows.docs {
      assert DocumentOk(s.rows, s.log, s.clock, d);
    }
    if d in s.log.catalog {
      assert EntryOk(preparer, s.rows, s.log, s.used, d);
    }
  }

  /** A row that is gone does not come back: only an insert adds a row, and it adds a new one. */
  lemma GoneStaysGone(preparer: Preparer, regime: Regime, s: State, a: Action, d: DocumentId)
    requires Enabled(regime, s, a) && Safe(preparer, s)
    requires d in s.log.catalog && d !in s.rows.docs
    ensures d !in Apply(preparer, regime, s, a).rows.docs
  {
    hide Accounted, Safe, InsertEffect;
    match a
    case SubmitInsert(p, ack) => InsertStep(preparer, s, p, ack);
    case DeleteRow(p) =>
    case _ =>
      hide Enabled, Apply;
      if a.WorkerStart? || a.WorkerCommit? || a.WorkerMarkFailed? || a.StartDelete? || a.SubmitDispatchFailed? {
        TransactionAccounted(preparer, regime, s, a);
      } else {
        TablesStay(preparer, regime, s, a);
      }
  }

  lemma {:induction false} GoneForever(preparer: Preparer, regime: Regime, run: seq<State>, d: DocumentId, i: nat, k: nat)
    requires IsRun(preparer, regime, run) && i <= k < |run|
    requires d in run[i].log.catalog && d !in run[i].rows.docs
    ensures d !in run[k].rows.docs
    decreases k
  {
    hide Enabled, Apply, Safe;
    if i < k {
      GoneForever(preparer, regime, run, d, i, k - 1);
      RunsAreSafe(preparer, regime, run, k - 1);
      LogGrowsAlong(preparer, regime, run, i, k - 1);
      var s, s' := run[k - 1], run[k];
      assert Next(preparer, regime, s, s');
      var a :| Enabled(regime, s, a) && s' == Apply(preparer, regime, s, a);
      GoneStaysGone(preparer, regime, s, a, d);
    }
  }

  /** A document is READY during one unbroken stretch of a run, and leaves it only for DELETING;
      DELETING lasts until the row goes; a row that is gone never comes back. So a document
      contributes at most one READY commit and one entry into DELETING to the revision. */
  lemma AtMostOnceEach(preparer: Preparer, regime: Regime, run: seq<State>, d: DocumentId, i: nat, m: nat, k: nat)
    requires IsRun(preparer, regime, run) && i <= m <= k < |run|
    ensures IsReady(run[i].rows, d) && IsReady(run[k].rows, d) ==> IsReady(run[m].rows, d)
    ensures IsReady(run[i].rows, d) ==> IsReady(run[k].rows, d) || IsDeleting(run[k].rows, d) || d !in run[k].rows.docs
    ensures IsDeleting(run[i].rows, d) ==> IsDeleting(run[k].rows, d) || d !in run[k].rows.docs
    ensures d in run[i].rows.docs && d !in run[m].rows.docs ==> d !in run[k].rows.docs
  {
    hide Safe, IsRun;
    RunsAreSafe(preparer, regime, run, i);
    RunsAreSafe(preparer, regime, run, m);
    RunsAreSafe(preparer, regime, run, k);
    Whereabouts(preparer, run[i], d);
    Whereabouts(preparer, run[m], d);
    Whereabouts(preparer, run[k], d);
    LogGrowsAlong(preparer, regime, run, i, m);
    LogGrowsAlong(preparer, regime, run, m, k);
    if d in run[i].rows.docs && d !in run[m].rows.docs {
      GoneForever(preparer, regime, run, d, m, k);
    }
  }
}
