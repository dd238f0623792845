/** Every action keeps Safe, in any regime; hence every state of every run is safe. */
module LifecycleSteps {
  import opened Results
  import opened Texts
  import opened Domain
  import opened Transactions
  import opened Lifecycle
  import opened LifecycleSafety

  lemma ExpectedOwner(preparer: Preparer, rows: Rows, log: Log, used: set<nat>)
    requires LogOk(preparer, rows, log, used)
    ensures forall d, c :: d in log.expected && c in log.expected[d] ==>
              c.documentId == d && log.expected[d][c].documentId == d && log.expected[d][c].id == c
  {
    forall d, c | d in log.expected && c in log.expected[d]
      ensures c.documentId == d && log.expected[d][c].documentId == d && log.expected[d][c].id == c
    {
      assert EntryOk(preparer, rows, log, used, d);
    }
  }

  lemma ExitKeepsSafe(preparer: Preparer, s: State, p: ProcessId)
    requires Safe(preparer, s)
    ensures Safe(preparer, s.Exit(p))
  {
    hide RowsOk, LogOk, FilesOk, PointsOk, ProcessesOk;
    ProcessesLeft(preparer, s.procs, p, s.log, s.log, s.used, s.clock, s.clock);
  }

  lemma ProcessFacts(preparer: Preparer, s: State, p: ProcessId)
    requires Safe(preparer, s) && p in s.procs
    ensures ProcessOk(preparer, s.log, s.used, s.clock, s.procs[p])
  {
    hide RowsOk, LogOk, FilesOk, PointsOk;
  }

  /** The process p takes a step that at most advances the clock, replaces the rows of existing
      documents, or touches files, points and queue within what the log allows. */
  predicate StepOf(s: State, s': State, p: ProcessId) {
    && s'.log == s.log && s'.used == s.used && s.clock <= s'.clock
    && s'.procs - {p} == s.procs - {p}
    && (p in s.procs && p in s'.procs && s'.procs[p].Submit? ==>
          s.procs[p].Submit? && s.procs[p].document == s'.procs[p].document && s.procs[p].job == s'.procs[p].job)
    && (p !in s.procs && p in s'.procs ==> !s'.procs[p].Submit?)
  }

  lemma StepKeepsProcesses(preparer: Preparer, s: State, s': State, p: ProcessId)
    requires ProcessesOk(preparer, s.procs, s.log, s.used, s.clock) && StepOf(s, s', p)
    requires p in s'.procs ==> ProcessOk(preparer, s.log, s.used, s'.clock, s'.procs[p])
    ensures ProcessesOk(preparer, s'.procs, s'.log, s'.used, s'.clock)
  {
    forall q | q in s'.procs ensures ProcessOk(preparer, s.log, s.used, s'.clock, s'.procs[q]) {
      if q != p {
        assert q in s'.procs - {p} && s'.procs[q] == s.procs[q];
        ProcessKept(preparer, s.log, s.log, s.used, s.used, s.clock, s'.clock, s.procs[q]);
      }
    }
    forall q, r | q in s'.procs && r in s'.procs && s'.procs[q].Submit? && s'.procs[r].Submit? && q != r
      ensures s'.procs[q].document.id != s'.procs[r].document.id && s'.procs[q].job.id != s'.procs[r].job.id
    {
      assert q != p ==> q in s'.procs - {p} && s'.procs[q] == s.procs[q];
      assert r != p ==> r in s'.procs - {p} && s'.procs[r] == s.procs[r];
    }
  }

  /** Rows of the same documents keep the log in order. */
  lemma StepKeepsLog(preparer: Preparer, rows: Rows, rows': Rows, log: Log, used: set<nat>)
    requires LogOk(preparer, rows, log, used)
    requires forall d :: d in rows.docs && d !in rows'.docs ==> d in log.deleting
    ensures LogOk(preparer, rows', log, used)
  {
    forall d | d in log.catalog ensures EntryOk(preparer, rows', log, used, d) {
      assert EntryOk(preparer, rows, log, used, d);
    }
  }

  lemma BeginSubmitSafe(preparer: Preparer, s: State, p: ProcessId, d: DocumentId, j: JobId, filename: string,
                        mediaType: MediaType, content: Bytes, now: Timestamp)
    requires Safe(preparer, s) && p !in s.procs && d !in s.used && j !in s.used && d != j
    requires !IsBlank(filename) && s.clock <= now
    ensures Safe(preparer, BeginSubmitEffect(s, p, d, j, filename, mediaType, content, now))
  {
    hide RowsOk, PointsOk, ProcessesOk, LogOk;
    var upload := NewDocument(d, filename, mediaType, content, now);
    DocumentTransitionOutcome(upload, Queued, now, None);
    var document, job := upload.Queue(now).value, NewJob(j, d, now);
    var s' := BeginSubmitEffect(s, p, d, j, filename, mediaType, content, now);
    LaterRows(s.rows, s.log, s.clock, now);
    UploadKeepsRows(s.rows, s.log, s'.log, now);
    FreshUpload(preparer, s, d);
    UploadKeepsLog(preparer, s, s');
    UploadKeepsProcesses(preparer, s, s', p, document, job);
    UploadKeepsPoints(s.points, s.log, s'.log);
  }

  lemma FreshUpload(preparer: Preparer, s: State, d: DocumentId)
    requires LogOk(preparer, s.rows, s.log, s.used) && d !in s.used
    ensures forall key :: key in s.log.uploads ==> key.documentId != d
  {
  }

  lemma UploadKeepsPoints(points: map<ChunkId, Point>, log: Log, log': Log)
    requires PointsOk(points, log) && log' == log.(uploads := log'.uploads)
    ensures PointsOk(points, log')
  {
    assert forall c :: c in points ==> PointOk(points, log, c);
  }

  lemma UploadKeepsRows(rows: Rows, log: Log, log': Log, now: Timestamp)
    requires RowsOk(rows, log, now) && log' == log.(uploads := log'.uploads)
    ensures RowsOk(rows, log', now)
  {
    assert DocumentsOk(rows, log', now) by { assert forall d :: d in rows.docs ==> DocumentOk(rows, log, now, d); }
    assert JobsOk(rows, log', now) by { assert forall j :: j in rows.jobs ==> JobOk(rows, log, now, j); }
    assert ChunksOk(rows, log') by { UploadKeepsChunks(rows, log, log'); }
  }

  lemma UploadKeepsChunks(rows: Rows, log: Log, log': Log)
    requires ChunksOk(rows, log) && log' == log.(uploads := log'.uploads)
    ensures ChunksOk(rows, log')
  {
    forall c | c in rows.chunks ensures ChunkOk(rows, log', c) {
      hide AllStored;
      assert ChunkOk(rows, log, c);
    }
    forall d | d in rows.docs && d in log.readied ensures AllStored(rows, log', d) {
      hide ChunkOk;
      assert AllStored(rows, log, d);
    }
  }

  lemma UploadKeepsLog(preparer: Preparer, s: State, s': State)
    requires LogOk(preparer, s.rows, s.log, s.used) && s'.rows == s.rows && s.used <= s'.used
    requires s'.log == s.log.(uploads := s'.log.uploads)
    requires forall key :: key in s.log.uploads ==> key in s'.log.uploads && s'.log.uploads[key] == s.log.uploads[key]
    requires forall key :: key in s'.log.uploads ==> key in s.log.uploads || key.documentId in s'.used
    ensures LogOk(preparer, s'.rows, s'.log, s'.used)
  {
    forall d | d in s'.log.catalog ensures EntryOk(preparer, s'.rows, s'.log, s'.used, d) {
      assert EntryOk(preparer, s.rows, s.log, s.used, d);
    }
  }

  lemma UploadKeepsProcesses(preparer: Preparer, s: State, s': State, p: ProcessId, document: Document, job: IngestionJob)
    requires ProcessesOk(preparer, s.procs, s.log, s.used, s.clock) && LogOk(preparer, s.rows, s.log, s.used)
    requires document.id !in s.used && job.id !in s.used
    requires s'.procs == s.procs[p := Submit(document, job, LookingUp)] && p !in s.procs
    requires LogGrows(s.log, s'.log) && s'.log.catalog == s.log.catalog && s'.log.jobOf == s.log.jobOf
    requires s'.used == s.used + {document.id, job.id} && s.clock <= s'.clock
    requires UploadOk(s'.log, document) && GoodRows(s'.clock, document, job) && document.status == Queued
    requires job.documentId == document.id
    ensures ProcessesOk(preparer, s'.procs, s'.log, s'.used, s'.clock)
  {
    forall e | e in s.log.catalog ensures e != document.id && s.log.jobOf[e] != job.id {
      assert EntryOk(preparer, s.rows, s.log, s.used, e);
    }
    forall q | q in s.procs && s.procs[q].Submit? ensures s.procs[q].document.id != document.id && s.procs[q].job.id != job.id {
      assert ProcessOk(preparer, s.log, s.used, s.clock, s.procs[q]);
    }
    ProcessesKept(preparer, s.procs, p, Submit(document, job, LookingUp), s.log, s'.log, s.used, s'.used, s.clock, s'.clock);
  }

  /** A submit moves on without touching the tables. */
  lemma SubmitMovesOn(preparer: Preparer, s: State, p: ProcessId, pc: SubmitPc)
    requires Safe(preparer, s) && p in s.procs && s.procs[p].Submit?
    requires SubmitOk(s.log, s.used, s.clock, s.procs[p].document, s.procs[p].job, pc)
    ensures Safe(preparer, WithSubmit(s, p, pc))
  {
    hide RowsOk, LogOk, FilesOk, PointsOk, ProcessesOk;
    StepKeepsProcesses(preparer, s, WithSubmit(s, p, pc), p);
  }

  lemma DiscardSafe(preparer: Preparer, s: State, p: ProcessId)
    requires Safe(preparer, s) && p in s.procs && s.procs[p].Submit? && s.procs[p].submitPc.Discarding?
    ensures Safe(preparer, DiscardEffect(s, p))
  {
    hide RowsOk, LogOk, PointsOk, ProcessesOk;
    ProcessFacts(preparer, s, p);
    StepKeepsProcesses(preparer, s, DiscardEffect(s, p), p);
  }

  lemma EnqueueSafe(preparer: Preparer, s: State, p: ProcessId, ack: Ack)
    requires Safe(preparer, s) && SubmitAt(s, p, Enqueueing)
    ensures Safe(preparer, EnqueueEffect(s, p, ack))
  {
    hide RowsOk, LogOk, FilesOk, PointsOk, ProcessesOk;
    ProcessFacts(preparer, s, p);
    StepKeepsProcesses(preparer, s, EnqueueEffect(s, p, ack), p);
  }

  lemma InsertSafe(preparer: Preparer, s: State, p: ProcessId, ack: Ack)
    requires Safe(preparer, s) && (SubmitAt(s, p, Inserting) || SubmitAt(s, p, LookingUp))
    ensures Safe(preparer, InsertEffect(preparer, s, p, ack))
  {
    hide RowsOk, LogOk, FilesOk, PointsOk, ProcessesOk;
    var document, job := s.procs[p].document, s.procs[p].job;
    ProcessFacts(preparer, s, p);
    if ack == Refused {
      SubmitMovesOn(preparer, s, p, Discarding(Other));
    } else if InsertSubmission(s.rows, document, job).Failure? {
      SubmitMovesOn(preparer, s, p, Discarding(Conflict));
    } else {
      InsertCommitSafe(preparer, s, p, if ack == Acknowledged then Enqueueing else Discarding(Other));
    }
  }

  lemma InsertCommitSafe(preparer: Preparer, s: State, p: ProcessId, pc: SubmitPc)
    requires Safe(preparer, s) && p in s.procs && s.procs[p].Submit? && !pc.LookingUp? && !pc.Inserting?
    requires s.procs[p].document.id !in s.log.catalog
    requires InsertSubmission(s.rows, s.procs[p].document, s.procs[p].job).Success?
    ensures var document, job := s.procs[p].document, s.procs[p].job;
            Safe(preparer, WithSubmit(s.(rows := s.rows.Save(document, job),
                                         log := Cataloged(s.log, document, job, Expected(preparer, document))), p, pc))
  {
    hide RowsOk, PointsOk, ProcessesOk;
    var document, job := s.procs[p].document, s.procs[p].job;
    assert SubmitOk(s.log, s.used, s.clock, document, job, s.procs[p].submitPc) by {
      ProcessFacts(preparer, s, p);
    }
    InsertKeepsRows(s.rows, s.log, s.clock, document, job, Expected(preparer, document));
    InsertKeepsLog(preparer, s, document, job);
    InsertKeepsPoints(s.points, s.log, document, job, Expected(preparer, document));
    InsertKeepsProcesses(preparer, s, p, pc);
  }

  lemma InsertKeepsProcesses(preparer: Preparer, s: State, p: ProcessId, pc: SubmitPc)
    requires ProcessesOk(preparer, s.procs, s.log, s.used, s.clock)
    requires s.log.jobOf.Keys == s.log.catalog.Keys && s.log.expected.Keys == s.log.catalog.Keys
    requires p in s.procs && s.procs[p].Submit? && !pc.LookingUp? && !pc.Inserting?
    requires s.procs[p].document.id !in s.log.catalog
    ensures var document, job := s.procs[p].document, s.procs[p].job;
            ProcessesOk(preparer, s.procs[p := s.procs[p].(submitPc := pc)],
                        Cataloged(s.log, document, job, Expected(preparer, document)), s.used, s.clock)
  {
    hide Expected;
    var document, job := s.procs[p].document, s.procs[p].job;
    var log' := Cataloged(s.log, document, job, Expected(preparer, document));
    assert ProcessOk(preparer, s.log, s.used, s.clock, s.procs[p]);
    OneMoreJob(s.log.jobOf, document.id, job.id);
    hide ProcessOk;
    assert ProcessOk(preparer, log', s.used, s.clock, s.procs[p].(submitPc := pc)) by {
      InsertedIsOk(preparer, s.log, s.used, s.clock, document, job, s.procs[p].submitPc, pc);
    }
    ProcessesKept(preparer, s.procs, p, s.procs[p].(submitPc := pc), s.log, log', s.used, s.used, s.clock, s.clock);
  }

  lemma OneMoreJob(jobOf: map<DocumentId, JobId>, d: DocumentId, j: JobId)
    requires d !in jobOf
    ensures jobOf[d := j].Values == jobOf.Values + {j}
  {
    assert forall e :: e in jobOf ==> e in jobOf[d := j] && jobOf[d := j][e] == jobOf[e];
    assert jobOf[d := j][d] == j;
  }

  lemma InsertedIsOk(preparer: Preparer, log: Log, used: set<nat>, now: Timestamp, document: Document, job: IngestionJob, before: SubmitPc, pc: SubmitPc)
    requires ProcessOk(preparer, log, used, now, Submit(document, job, before)) && document.id !in log.catalog
    requires !pc.LookingUp? && !pc.Inserting?
    ensures ProcessOk(preparer, Cataloged(log, document, job, Expected(preparer, document)), used, now, Submit(document, job, pc))
  {
    hide Expected;
  }

  lemma InsertKeepsLog(preparer: Preparer, s: State, document: Document, job: IngestionJob)
    requires LogOk(preparer, s.rows, s.log, s.used)
    requires document.id in s.used && job.id in s.used && UploadOk(s.log, document) && document.id !in s.log.catalog
    ensures LogOk(preparer, s.rows.Save(document, job), Cataloged(s.log, document, job, Expected(preparer, document)), s.used)
  {
    var rows', log' := s.rows.Save(document, job), Cataloged(s.log, document, job, Expected(preparer, document));
    forall d | d in log'.catalog ensures EntryOk(preparer, rows', log', s.used, d) {
      assert d != document.id ==> EntryOk(preparer, s.rows, s.log, s.used, d);
    }
  }

  lemma InsertKeepsPoints(points: map<ChunkId, Point>, log: Log, document: Document, job: IngestionJob, expected: map<ChunkId, Chunk>)
    requires PointsOk(points, log) && document.id !in log.catalog
    ensures PointsOk(points, Cataloged(log, document, job, expected))
  {
    assert forall c :: c in points ==> PointOk(points, log, c);
  }

  lemma DispatchFailedSafe(preparer: Preparer, s: State, p: ProcessId, now: Timestamp)
    requires Safe(preparer, s) && SubmitAt(s, p, Dispatching) && s.clock <= now
    ensures Safe(preparer, DispatchFailedEffect(s, p, now))
  {
    hide RowsOk, LogOk, FilesOk, PointsOk, ProcessesOk;
    var document, job := s.procs[p].document, s.procs[p].job;
    var s' := DispatchFailedEffect(s, p, now);
    assert SubmitOk(s.log, s.used, s.clock, document, job, Dispatching) by {
      ProcessFacts(preparer, s, p);
    }
    LaterRows(s.rows, s.log, s.clock, now);
    MarkDispatchFailedOutcome(s.rows, s.log, now, document.id, job.id);
    StepKeepsLog(preparer, s.rows, s'.rows, s.log, s.used);
    StepKeepsProcesses(preparer, s, s', p);
  }

  lemma DeliverSafe(preparer: Preparer, s: State, p: ProcessId, j: JobId)
    requires Safe(preparer, s) && p !in s.procs && (j in s.queue || j in s.delivered)
    ensures Safe(preparer, s.(queue := s.queue - {j}, delivered := s.delivered + {j}).At(p, Worker(j, Starting)))
  {
    hide RowsOk, LogOk, FilesOk, PointsOk, ProcessesOk;
    StepKeepsProcesses(preparer, s, s.At(p, Worker(j, Starting)), p);
  }

  lemma StartSafe(preparer: Preparer, s: State, p: ProcessId, now: Timestamp)
    requires Safe(preparer, s) && p in s.procs && s.procs[p].Worker? && s.clock <= now
    ensures Safe(preparer, StartEffect(s, p, now))
  {
    hide RowsOk, LogOk, FilesOk, PointsOk, ProcessesOk;
    var s' := StartEffect(s, p, now);
    var r := StartJob(s.rows, s.procs[p].jobId, now);
    LaterRows(s.rows, s.log, s.clock, now);
    if r.Success? && r.value.1.Some? {
      StartJobKeepsRows(s.rows, s.log, now, s.procs[p].jobId);
    }
    StepKeepsLog(preparer, s.rows, s'.rows, s.log, s.used);
    StepKeepsProcesses(preparer, s, s', p);
  }

  lemma SnapshotTaken(rows: Rows, log: Log, now: Timestamp, d: DocumentId)
    requires RowsOk(rows, log, now)
    ensures d in rows.docs ==> rows.docs[d].id == d && d in log.catalog && rows.docs[d].SameUpload(log.catalog[d])
  {
    assert d in rows.docs ==> DocumentOk(rows, log, now, d);
  }

  lemma UploadOfEntry(preparer: Preparer, s: State, d: DocumentId)
    requires LogOk(preparer, s.rows, s.log, s.used) && d in s.log.catalog
    ensures UploadOk(s.log, s.log.catalog[d])
  {
    assert EntryOk(preparer, s.rows, s.log, s.used, d);
  }

  lemma ReadSafe(preparer: Preparer, s: State, p: ProcessId, ok: bool)
    requires Safe(preparer, s) && p in s.procs && s.procs[p].Worker? && s.procs[p].workerPc.Reading?
    ensures Safe(preparer, ReadEffect(s, p, ok))
  {
    hide RowsOk, LogOk, FilesOk, PointsOk, ProcessesOk;
    var d := s.procs[p].workerPc.documentId;
    ProcessFacts(preparer, s, p);
    SnapshotTaken(s.rows, s.log, s.clock, d);
    StepKeepsProcesses(preparer, s, ReadEffect(s, p, ok), p);
  }

  lemma PrepareSafe(preparer: Preparer, s: State, p: ProcessId, failure: Option<FailureCause>)
    requires Safe(preparer, s) && p in s.procs && s.procs[p].Worker? && s.procs[p].workerPc.Preparing?
    ensures Safe(preparer, PrepareEffect(preparer, s, p, failure))
  {
    hide RowsOk, LogOk, PointsOk, ProcessesOk;
    var document := s.procs[p].workerPc.document;
    ProcessFacts(preparer, s, p);
    UploadOfEntry(preparer, s, document.id);
    assert document.storageKey in s.files ==> s.files[document.storageKey] == document.sha256.of;
    assert preparer.Of(document) == preparer.run(document.id, document.mediaType, document.sha256.of);
    StepKeepsProcesses(preparer, s, PrepareEffect(preparer, s, p, failure), p);
  }

  lemma UpsertSafe(preparer: Preparer, s: State, p: ProcessId, applied: set<ChunkId>, ok: bool)
    requires Safe(preparer, s) && p in s.procs && s.procs[p].Worker? && s.procs[p].workerPc.Upserting?
    requires Prepared(s.procs[p].workerPc.document.id, s.procs[p].workerPc.chunks)
    ensures Safe(preparer, UpsertEffect(s, p, applied, ok))
  {
    hide RowsOk, LogOk, FilesOk, PointsOk, ProcessesOk;
    var pc := s.procs[p].workerPc;
    ProcessFacts(preparer, s, p);
    SnapshotExpected(preparer, s, s.procs[p].jobId, pc.document, pc.chunks);
    UpsertKeepsPoints(s.points, s.log, pc.document, pc.chunks, applied);
    StepKeepsProcesses(preparer, s, UpsertEffect(s, p, applied, ok), p);
  }

  /** The chunks a worker carries are the expected ones. */
  lemma SnapshotExpected(preparer: Preparer, s: State, j: JobId, document: Document, chunks: seq<Chunk>)
    requires LogOk(preparer, s.rows, s.log, s.used)
    requires Snapshot(s.log, j, document) && preparer.Of(document) == Success(chunks) && Prepared(document.id, chunks)
    ensures document.id in s.log.catalog && document.id in s.log.expected
    ensures s.log.expected[document.id] == ChunkRows(document.id, chunks)
    ensures document.mediaType == s.log.catalog[document.id].mediaType
  {
    assert EntryOk(preparer, s.rows, s.log, s.used, document.id);
  }

  lemma UpsertKeepsPoints(points: map<ChunkId, Point>, log: Log, document: Document, chunks: seq<Chunk>, applied: set<ChunkId>)
    requires PointsOk(points, log) && Prepared(document.id, chunks)
    requires document.id in log.catalog && document.mediaType == log.catalog[document.id].mediaType
    requires document.id in log.expected && log.expected[document.id] == ChunkRows(document.id, chunks)
    ensures PointsOk(points + Upserted(document, chunks, applied), log)
  {
    var points' := points + Upserted(document, chunks, applied);
    forall c | c in points' ensures PointOk(points', log, c) {
      assert c !in Upserted(document, chunks, applied) ==> PointOk(points, log, c);
    }
  }

  lemma CommitSafe(preparer: Preparer, s: State, p: ProcessId, ack: Ack, now: Timestamp)
    requires Safe(preparer, s) && p in s.procs && s.procs[p].Worker? && s.procs[p].workerPc.Committing?
    requires Prepared(s.procs[p].workerPc.document.id, s.procs[p].workerPc.chunks) && s.clock <= now
    ensures Safe(preparer, CommitEffect(s, p, ack, now))
  {
    hide RowsOk, LogOk, FilesOk, PointsOk, ProcessesOk, CommitReady, ChunkRows, Prepared;
    var pc, j := s.procs[p].workerPc, s.procs[p].jobId;
    var d := pc.document.id;
    ProcessFacts(preparer, s, p);
    SnapshotExpected(preparer, s, j, pc.document, pc.chunks);
    LaterRows(s.rows, s.log, s.clock, now);
    CommitReadyOutcome(s.rows, s.log, now, d, j, pc.chunks);
    var r := CommitReady(s.rows, d, j, pc.chunks, now);
    if r.Failure? || ack == Refused {
      StepKeepsProcesses(preparer, s, CommitEffect(s, p, ack, now), p);
    } else {
      CommitDoneSafe(preparer, s, p, ack, now, r.value);
    }
  }

  lemma CommitDoneSafe(preparer: Preparer, s: State, p: ProcessId, ack: Ack, now: Timestamp, rows: Rows)
    requires Safe(preparer, s) && p in s.procs && s.procs[p].Worker? && s.procs[p].workerPc.Committing?
    requires s.clock <= now && ack != Refused
    requires var d := s.procs[p].workerPc.document.id;
             WorksOn(s.log, s.procs[p].jobId, d) && RowsOk(rows, Readied(s.log, d), now)
    requires s.rows.docs.Keys <= rows.docs.Keys
    ensures var d := s.procs[p].workerPc.document.id;
            var done := s.(clock := now, rows := rows, log := Readied(s.log, d));
            Safe(preparer, if ack == Acknowledged then done.Exit(p) else WithWorker(done, p, Failing(d, Unexpected)))
  {
    hide RowsOk, LogOk, FilesOk, PointsOk, ProcessesOk;
    var d := s.procs[p].workerPc.document.id;
    var log' := Readied(s.log, d);
    LogDomains(preparer, s.rows, s.log, s.used);
    GrownLog(preparer, s, log', rows);
    if ack == Acknowledged {
      ProcessesLeft(preparer, s.procs, p, s.log, log', s.used, s.clock, now);
    } else {
      ProcessesKept(preparer, s.procs, p, Worker(s.procs[p].jobId, Failing(d, Unexpected)), s.log, log', s.used, s.used, s.clock, now);
    }
  }

  lemma LogDomains(preparer: Preparer, rows: Rows, log: Log, used: set<nat>)
    requires LogOk(preparer, rows, log, used)
    ensures log.jobOf.Keys == log.catalog.Keys == log.expected.Keys
    ensures log.readied <= log.catalog.Keys && log.deleting <= log.catalog.Keys
  {
  }

  /** Logging a READY commit or an entry into DELETING disturbs neither log, files nor points. */
  lemma GrownLog(preparer: Preparer, s: State, log': Log, rows: Rows)
    requires LogOk(preparer, s.rows, s.log, s.used) && FilesOk(s.files, s.log) && PointsOk(s.points, s.log)
    requires log' == s.log.(readied := log'.readied, deleting := log'.deleting)
    requires log'.readied <= s.log.catalog.Keys && s.log.deleting <= log'.deleting <= s.log.catalog.Keys
    requires s.rows.docs.Keys <= rows.docs.Keys
    ensures LogOk(preparer, rows, log', s.used) && FilesOk(s.files, log') && PointsOk(s.points, log')
  {
    forall d | d in log'.catalog ensures EntryOk(preparer, rows, log', s.used, d) {
      hide PointsOk, FilesOk;
      assert EntryOk(preparer, s.rows, s.log, s.used, d);
    }
    forall c | c in s.points ensures PointOk(s.points, log', c) {
      hide LogOk, FilesOk;
      assert PointOk(s.points, s.log, c);
    }
    hide EntryOk, PointOk;
  }

  lemma MarkFailedSafe(preparer: Preparer, s: State, p: ProcessId, now: Timestamp)
    requires Safe(preparer, s) && p in s.procs && s.procs[p].Worker? && s.procs[p].workerPc.Failing? && s.clock <= now
    ensures Safe(preparer, MarkFailedEffect(s, p, now))
  {
    hide RowsOk, LogOk, FilesOk, PointsOk, ProcessesOk;
    var pc, j := s.procs[p].workerPc, s.procs[p].jobId;
    var s' := MarkFailedEffect(s, p, now);
    ProcessFacts(preparer, s, p);
    LaterRows(s.rows, s.log, s.clock, now);
    MarkFailedOutcome(s.rows, s.log, now, pc.documentId, j, pc.cause);
    StepKeepsLog(preparer, s.rows, s'.rows, s.log, s.used);
    StepKeepsProcesses(preparer, s, s', p);
  }

  lemma FewerPoints(points: map<ChunkId, Point>, log: Log, removed: set<ChunkId>)
    requires PointsOk(points, log)
    ensures PointsOk(points - removed, log)
  {
    forall c | c in points - removed ensures PointOk(points - removed, log, c) {
      assert PointOk(points, log, c);
    }
  }

  lemma CleanupSafe(preparer: Preparer, s: State, p: ProcessId, removed: set<ChunkId>)
    requires Safe(preparer, s)
    ensures Safe(preparer, s.(points := s.points - removed).Exit(p))
  {
    hide RowsOk, LogOk, FilesOk, PointsOk, ProcessesOk;
    FewerPoints(s.points, s.log, removed);
    ProcessesLeft(preparer, s.procs, p, s.log, s.log, s.used, s.clock, s.clock);
  }

  lemma StartDeleteSafe(preparer: Preparer, s: State, p: ProcessId, d: DocumentId, now: Timestamp)
    requires Safe(preparer, s) && p !in s.procs && s.clock <= now
    ensures Safe(preparer, StartDeleteEffect(s, p, d, now))
  {
    hide RowsOk, LogOk, FilesOk, PointsOk, ProcessesOk, BeginDelete;
    LaterRows(s.rows, s.log, s.clock, now);
    if BeginDelete(s.rows, d, now).Success? {
      DeleteBegunSafe(preparer, s, p, d, now);
    } else {
      StepKeepsProcesses(preparer, s, s.(clock := now), p);
    }
  }

  lemma DeleteBegunSafe(preparer: Preparer, s: State, p: ProcessId, d: DocumentId, now: Timestamp)
    requires Safe(preparer, s) && p !in s.procs && s.clock <= now && RowsOk(s.rows, s.log, now)
    requires BeginDelete(s.rows, d, now).Success?
    ensures Safe(preparer, StartDeleteEffect(s, p, d, now))
  {
    hide RowsOk, LogOk, FilesOk, PointsOk, ProcessesOk, BeginDelete;
    var (rows, document, jobs) := BeginDelete(s.rows, d, now).value;
    BeginDeleteKeepsRows(s.rows, s.log, now, d);
    BegunFacts(s.rows, s.log, now, d);
    LogDomains(preparer, s.rows, s.log, s.used);
    GrownLog(preparer, s, Deleted(s.log, d), rows);
    ProcessesKept(preparer, s.procs, p, Delete(d, document.storageKey, AfterCancel(jobs)),
                  s.log, Deleted(s.log, d), s.used, s.used, s.clock, now);
  }

  lemma BegunFacts(rows: Rows, log: Log, now: Timestamp, d: DocumentId)
    requires RowsOk(rows, log, now) && BeginDelete(rows, d, now).Success?
    ensures var r := BeginDelete(rows, d, now).value;
            d in log.catalog && r.1.storageKey == log.catalog[d].storageKey && rows.docs.Keys <= r.0.docs.Keys
  {
    hide ChunksOk, UniqueHashes, BeginDelete, DocumentsOk, JobsOk;
    BeginDeleteOutcome(rows, log, now, d);
  }

  lemma CancelSafe(preparer: Preparer, s: State, p: ProcessId, j: JobId)
    requires Safe(preparer, s) && p in s.procs && s.procs[p].Delete? && s.procs[p].deletePc.Cancelling?
    ensures Safe(preparer, CancelEffect(s, p, j))
  {
    hide RowsOk, LogOk, FilesOk, PointsOk, ProcessesOk;
    ProcessFacts(preparer, s, p);
    StepKeepsProcesses(preparer, s, CancelEffect(s, p, j), p);
  }

  lemma DropVectorsSafe(preparer: Preparer, s: State, p: ProcessId, removed: set<ChunkId>, ok: bool)
    requires Safe(preparer, s) && p in s.procs && s.procs[p].Delete?
    ensures Safe(preparer, DropVectorsEffect(s, p, removed, ok))
  {
    hide RowsOk, LogOk, FilesOk, PointsOk, ProcessesOk;
    ProcessFacts(preparer, s, p);
    FewerPoints(s.points, s.log, removed);
    StepKeepsProcesses(preparer, s, DropVectorsEffect(s, p, removed, ok), p);
  }

  lemma FewerFiles(files: map<StorageKey, Bytes>, log: Log, key: StorageKey)
    requires FilesOk(files, log)
    ensures FilesOk(files - {key}, log)
  {
  }

  lemma DropFileSafe(preparer: Preparer, s: State, p: ProcessId, ok: bool)
    requires Safe(preparer, s) && p in s.procs && s.procs[p].Delete?
    ensures Safe(preparer, DropFileEffect(s, p, ok))
  {
    hide RowsOk, LogOk, FilesOk, PointsOk, ProcessesOk;
    ProcessFacts(preparer, s, p);
    FewerFiles(s.files, s.log, s.procs[p].storageKey);
    StepKeepsProcesses(preparer, s, DropFileEffect(s, p, ok), p);
  }

  lemma DropRowSafe(preparer: Preparer, s: State, p: ProcessId)
    requires Safe(preparer, s) && p in s.procs && s.procs[p].Delete?
    ensures Safe(preparer, s.(rows := s.rows.DeleteDocument(s.procs[p].documentId)).Exit(p))
  {
    hide RowsOk, LogOk, FilesOk, PointsOk, ProcessesOk;
    var d := s.procs[p].documentId;
    ProcessFacts(preparer, s, p);
    ExpectedOwner(preparer, s.rows, s.log, s.used);
    DeleteDocumentKeepsRows(s.rows, s.log, s.clock, d);
    StepKeepsLog(preparer, s.rows, s.rows.DeleteDocument(d), s.log, s.used);
    ProcessesLeft(preparer, s.procs, p, s.log, s.log, s.used, s.clock, s.clock);
  }

  lemma LookupSafe(preparer: Preparer, s: State, p: ProcessId, found: Option<DocumentId>)
    requires Safe(preparer, s) && (SubmitAt(s, p, LookingUp) || SubmitAt(s, p, Rechecking))
    ensures SubmitAt(s, p, LookingUp) ==>
              Safe(preparer, WithSubmit(s, p, if found.Some? then Discarding(Duplicate(found.value)) else Inserting))
    ensures SubmitAt(s, p, Rechecking) ==>
              Safe(preparer, WithSubmit(s, p, Finished(if found.Some? then RejectedDuplicate(found.value) else OtherError)))
  {
    hide RowsOk, LogOk, FilesOk, PointsOk, ProcessesOk;
    ProcessFacts(preparer, s, p);
    if SubmitAt(s, p, LookingUp) {
      SubmitMovesOn(preparer, s, p, if found.Some? then Discarding(Duplicate(found.value)) else Inserting);
    } else {
      SubmitMovesOn(preparer, s, p, Finished(if found.Some? then RejectedDuplicate(found.value) else OtherError));
    }
  }

  /** No action of any process leaves the safe states, whatever the regime. */
  lemma StepKeepsSafe(preparer: Preparer, regime: Regime, s: State, a: Action)
    requires Enabled(regime, s, a) && Safe(preparer, s)
    ensures Safe(preparer, Apply(preparer, regime, s, a))
  {
    hide RowsOk, LogOk, FilesOk, PointsOk, ProcessesOk;
    match a
    case BeginSubmit(p, d, j, filename, mediaType, content, now) =>
      BeginSubmitSafe(preparer, s, p, d, j, filename, mediaType, content, now);
    case SubmitLookup(p, found) => LookupSafe(preparer, s, p, found);
    case SubmitInsert(p, ack) => InsertSafe(preparer, s, p, ack);
    case SubmitDiscard(p) => DiscardSafe(preparer, s, p);
    case SubmitRecheck(p, found) => LookupSafe(preparer, s, p, found);
    case SubmitEnqueue(p, ack) => EnqueueSafe(preparer, s, p, ack);
    case SubmitDispatchFailed(p, now) => DispatchFailedSafe(preparer, s, p, now);
    case Deliver(p, j) => DeliverSafe(preparer, s, p, j);
    case WorkerStart(p, now) => StartSafe(preparer, s, p, now);
    case WorkerRead(p, ok) => ReadSafe(preparer, s, p, ok);
    case WorkerPrepare(p, failure) => PrepareSafe(preparer, s, p, failure);
    case WorkerUpsert(p, applied, ok) => UpsertSafe(preparer, s, p, applied, ok);
    case WorkerCommit(p, ack, now) => CommitSafe(preparer, s, p, ack, now);
    case WorkerMarkFailed(p, now) => MarkFailedSafe(preparer, s, p, now);
    case WorkerCleanup(p, removed) => CleanupSafe(preparer, s, p, removed);
    case StartDelete(p, d, now) => StartDeleteSafe(preparer, s, p, d, now);
    case DeleteCancel(p, j) => CancelSafe(preparer, s, p, j);
    case DeleteVectors(p, removed, ok) => DropVectorsSafe(preparer, s, p, removed, ok);
    case DeleteFile(p, ok) => DropFileSafe(preparer, s, p, ok);
    case DeleteRow(p) => DropRowSafe(preparer, s, p);
    case Crash(p) => ExitKeepsSafe(preparer, s, p);
  }

  lemma {:induction false} RunsAreSafe(preparer: Preparer, regime: Regime, run: seq<State>, i: nat)
    requires IsRun(preparer, regime, run) && i < |run|
    ensures Safe(preparer, run[i])
  {
    if i == 0 {
      InitIsSafe(preparer, run[0]);
    } else {
      RunsAreSafe(preparer, regime, run, i - 1);
      var s, s' := run[i - 1], run[i];
      assert Next(preparer, regime, s, s');
      var a :| Enabled(regime, s, a) && s' == Apply(preparer, regime, s, a);
      StepKeepsSafe(preparer, regime, s, a);
    }
  }

  lemma RunsBegin(preparer: Preparer, regime: Regime, run: seq<State>)
    requires IsRun(preparer, regime, run)
    ensures run != []
  {
    hide Next;
  }

  lemma RunExtends(preparer: Preparer, regime: Regime, run: seq<State>, a: Action)
    requires IsRun(preparer, regime, run) && Enabled(regime, run[|run| - 1], a)
    ensures IsRun(preparer, regime, run + [Apply(preparer, regime, run[|run| - 1], a)])
  {
    hide Enabled, Apply;
    var s, s' := run[|run| - 1], Apply(preparer, regime, run[|run| - 1], a);
    assert Next(preparer, regime, s, s');
    var longer := run + [s'];
    forall i | 0 < i < |longer| ensures Next(preparer, regime, longer[i - 1], longer[i]) {
      if i < |run| { assert Next(preparer, regime, run[i - 1], run[i]); }
    }
  }
}
