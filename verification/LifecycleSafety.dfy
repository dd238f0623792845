/** What every reachable state satisfies whatever the regime: overlapping deliveries, lost
    acknowledgements, crashes anywhere. */
module LifecycleSafety {
  import opened Results
  import opened Texts
  import opened Domain
  import opened Transactions
  import opened Lifecycle

  /** The document and job statuses that occur together. */
  predicate Coupled(document: DocumentStatus, job: JobStatus) {
    || (document == Queued && job == Waiting)
    || (document == Processing && job == Running)
    || (document == Ready && job == Succeeded)
    || (document == Failed && job == Broken)
    || (document == Deleting && (job == Succeeded || job == Broken))
  }

  /** A document row, its job and its place in the log agree. */
  ghost predicate DocumentOk(rows: Rows, log: Log, now: Timestamp, d: DocumentId)
    requires d in rows.docs
  {
    var document := rows.docs[d];
    && document.id == d && document.Valid() && document.updatedAt <= now
    && d in log.catalog && document.SameUpload(log.catalog[d])
    && d in log.jobOf && log.jobOf[d] in rows.jobs
    && rows.jobs[log.jobOf[d]].documentId == d
    && Coupled(document.status, rows.jobs[log.jobOf[d]].status)
    && (document.status == Ready ==> d in log.readied)
    && (d in log.readied ==> document.status == Ready || document.status == Deleting)
    && (document.status == Deleting <==> d in log.deleting)
  }

  ghost predicate JobOk(rows: Rows, log: Log, now: Timestamp, j: JobId)
    requires j in rows.jobs
  {
    var job := rows.jobs[j];
    && job.id == j && job.Valid() && job.StartedBefore() && job.updatedAt <= now
    && job.documentId in rows.docs
    && job.documentId in log.jobOf && log.jobOf[job.documentId] == j
  }

  ghost predicate DocumentsOk(rows: Rows, log: Log, now: Timestamp) {
    forall d :: d in rows.docs ==> DocumentOk(rows, log, now, d)
  }

  ghost predicate JobsOk(rows: Rows, log: Log, now: Timestamp) {
    forall j :: j in rows.jobs ==> JobOk(rows, log, now, j)
  }

  ghost predicate UniqueHashes(rows: Rows) {
    forall d, e :: d in rows.docs && e in rows.docs && rows.docs[d].sha256 == rows.docs[e].sha256 ==> d == e
  }

  ghost predicate OneDocumentPerJob(log: Log) {
    forall d, e :: d in log.jobOf && e in log.jobOf && log.jobOf[d] == log.jobOf[e] ==> d == e
  }

  /** Exactly the chunks of one clean preparation are stored, for exactly the documents that
      have been READY and still have a row. */
  ghost predicate ChunksOk(rows: Rows, log: Log) {
    && (forall c :: c in rows.chunks ==> ChunkOk(rows, log, c))
    && (forall d :: d in rows.docs && d in log.readied ==> AllStored(rows, log, d))
  }

  predicate ChunkOk(rows: Rows, log: Log, c: ChunkId)
    requires c in rows.chunks
  {
    && c.documentId in rows.docs && c.documentId in log.readied && rows.chunks[c].documentId == c.documentId
    && c.documentId in log.expected && c in log.expected[c.documentId]
    && rows.chunks[c] == log.expected[c.documentId][c]
  }

  predicate AllStored(rows: Rows, log: Log, d: DocumentId) {
    d in log.expected && log.expected[d] != map[] && log.expected[d].Keys <= rows.chunks.Keys
  }

  ghost predicate RowsOk(rows: Rows, log: Log, now: Timestamp) {
    match log
    case Log(_, _, _, _, readied, deleting) =>
      && DocumentsOk(rows, log, now)
      && JobsOk(rows, log, now)
      && UniqueHashes(rows)
      && OneDocumentPerJob(log)
      && ChunksOk(rows, log)
      && rows.revision == |readied| + |deleting|
  }

  ghost predicate LogOk(preparer: Preparer, rows: Rows, log: Log, used: set<nat>) {
    match log
    case Log(uploads, catalog, jobOf, expected, readied, deleting) =>
      && jobOf.Keys == catalog.Keys && expected.Keys == catalog.Keys
      && readied <= catalog.Keys && deleting <= catalog.Keys
      && (forall key :: key in uploads ==> key.documentId in used)
      && (forall d :: d in catalog ==> EntryOk(preparer, rows, log, used, d))
  }

  /** A catalog entry: its identifiers, its upload, its clean preparation; a row only goes away
      by way of DELETING. */
  ghost predicate EntryOk(preparer: Preparer, rows: Rows, log: Log, used: set<nat>, d: DocumentId)
    requires d in log.catalog && d in log.jobOf && d in log.expected
  {
    && d in used && log.jobOf[d] in used && log.catalog[d].id == d
    && UploadOk(log, log.catalog[d])
    && log.expected[d] == Expected(preparer, log.catalog[d])
    && (d !in rows.docs ==> d in log.deleting)
  }

  predicate UploadOk(log: Log, document: Document) {
    && document.storageKey == StorageKey(document.id, document.mediaType)
    && document.storageKey in log.uploads && log.uploads[document.storageKey] == document.sha256.of
  }

  ghost predicate FilesOk(files: map<StorageKey, Bytes>, log: Log) {
    forall key :: key in files ==> key in log.uploads && files[key] == log.uploads[key]
  }

  /** Every vector point is what an upsert of a clean preparation writes. */
  ghost predicate PointsOk(points: map<ChunkId, Point>, log: Log) {
    forall c :: c in points ==> PointOk(points, log, c)
  }

  predicate PointOk(points: map<ChunkId, Point>, log: Log, c: ChunkId)
    requires c in points
  {
    && c.documentId in log.catalog && points[c].documentId == c.documentId
    && c.documentId in log.expected && c in log.expected[c.documentId]
    && points[c] == PointOf(log.catalog[c.documentId].mediaType, log.expected[c.documentId][c])
  }

  /** A worker that carries a document works on the document of its job. */
  predicate WorksOn(log: Log, j: JobId, d: DocumentId) {
    d in log.catalog && d in log.jobOf && log.jobOf[d] == j
  }

  predicate Snapshot(log: Log, j: JobId, document: Document) {
    WorksOn(log, j, document.id) && document.SameUpload(log.catalog[document.id])
  }

  predicate SubmitOk(log: Log, used: set<nat>, now: Timestamp, document: Document, job: IngestionJob, pc: SubmitPc) {
    && document.id in used && job.id in used
    && document.Valid() && document.status == Queued && document.updatedAt <= now
    && UploadOk(log, document)
    && job.Valid() && job.StartedBefore() && job.status == Waiting && job.updatedAt <= now
    && job.documentId == document.id
    && (document.id in log.catalog ==> Snapshot(log, job.id, document))
    && (document.id !in log.catalog ==> job.id !in log.jobOf.Values)
    && (pc.LookingUp? || pc.Inserting? ==> document.id !in log.catalog)
    && (pc.Enqueueing? || pc.Dispatching? ==> document.id in log.catalog)
  }

  predicate WorkerOk(preparer: Preparer, log: Log, j: JobId, pc: WorkerPc) {
    match pc
    case Starting => true
    case Reading(d) => WorksOn(log, j, d)
    case Preparing(document) => Snapshot(log, j, document)
    case Upserting(document, chunks) => Snapshot(log, j, document) && preparer.Of(document) == Success(chunks)
    case Committing(document, chunks) => Snapshot(log, j, document) && preparer.Of(document) == Success(chunks)
    case Failing(d, _) => WorksOn(log, j, d)
    case Cleaning(d) => WorksOn(log, j, d)
  }

  predicate ProcessOk(preparer: Preparer, log: Log, used: set<nat>, now: Timestamp, process: Process) {
    match process
    case Submit(document, job, pc) => SubmitOk(log, used, now, document, job, pc)
    case Worker(j, pc) => WorkerOk(preparer, log, j, pc)
    case Delete(d, key, _) => d in log.catalog && key == log.catalog[d].storageKey && d in log.deleting
  }

  ghost predicate DistinctSubmits(procs: map<ProcessId, Process>) {
    forall p, q :: p in procs && q in procs && procs[p].Submit? && procs[q].Submit? && p != q ==>
      procs[p].document.id != procs[q].document.id && procs[p].job.id != procs[q].job.id
  }

  ghost predicate ProcessesOk(preparer: Preparer, procs: map<ProcessId, Process>, log: Log, used: set<nat>, now: Timestamp) {
    && (forall p :: p in procs ==> ProcessOk(preparer, log, used, now, procs[p]))
    && DistinctSubmits(procs)
  }

  ghost predicate Safe(preparer: Preparer, s: State) {
    match s
    case State(rows, points, files, queue, delivered, procs, clock, used, log) =>
      && queue <= used && delivered <= used
      && RowsOk(rows, log, clock)
      && LogOk(preparer, rows, log, used)
      && FilesOk(files, log)
      && PointsOk(points, log)
      && ProcessesOk(preparer, procs, log, used, clock)
  }

  lemma InitIsSafe(preparer: Preparer, s: State)
    requires Init(s)
    ensures Safe(preparer, s)
  {
  }

  /** One process takes a step and everything else keeps its facts: the log only grows. */
  predicate LogGrows(log: Log, log': Log) {
    && (forall key :: key in log.uploads ==> key in log'.uploads && log'.uploads[key] == log.uploads[key])
    && (forall d :: d in log.catalog ==> d in log'.catalog && log'.catalog[d] == log.catalog[d])
    && (forall d :: d in log.expected ==> d in log'.expected && log'.expected[d] == log.expected[d])
    && (forall d :: d in log.jobOf ==> d in log'.jobOf && log'.jobOf[d] == log.jobOf[d])
    && log.readied <= log'.readied && log.deleting <= log'.deleting
  }

  predicate SameStanding(log: Log, log': Log, process: Process)
    requires process.Submit?
  {
    && (process.document.id in log.catalog <==> process.document.id in log'.catalog)
    && (process.job.id in log.jobOf.Values <==> process.job.id in log'.jobOf.Values)
  }

  lemma ProcessKept(preparer: Preparer, log: Log, log': Log, used: set<nat>, used': set<nat>,
                    now: Timestamp, now': Timestamp, process: Process)
    requires ProcessOk(preparer, log, used, now, process)
    requires LogGrows(log, log') && used <= used' && now <= now'
    requires process.Submit? ==> SameStanding(log, log', process)
    ensures ProcessOk(preparer, log', used', now', process)
  {
  }

  /** Replacing process p, with the log grown only for documents no other submit carries. */
  lemma ProcessesKept(preparer: Preparer, procs: map<ProcessId, Process>, p: ProcessId, process: Process,
                      log: Log, log': Log, used: set<nat>, used': set<nat>, now: Timestamp, now': Timestamp)
    requires ProcessesOk(preparer, procs, log, used, now)
    requires LogGrows(log, log') && used <= used' && now <= now'
    requires forall q :: q in procs && q != p && procs[q].Submit? ==> SameStanding(log, log', procs[q])
    requires ProcessOk(preparer, log', used', now', process)
    requires process.Submit? ==> forall q :: q in procs && q != p && procs[q].Submit? ==>
               procs[q].document.id != process.document.id && procs[q].job.id != process.job.id
    ensures ProcessesOk(preparer, procs[p := process], log', used', now')
  {
    forall q | q in procs && q != p ensures ProcessOk(preparer, log', used', now', procs[q]) {
      ProcessKept(preparer, log, log', used, used', now, now', procs[q]);
    }
  }

  lemma ProcessesLeft(preparer: Preparer, procs: map<ProcessId, Process>, p: ProcessId,
                      log: Log, log': Log, used: set<nat>, now: Timestamp, now': Timestamp)
    requires ProcessesOk(preparer, procs, log, used, now)
    requires LogGrows(log, log') && now <= now'
    requires log.catalog == log'.catalog && log.jobOf == log'.jobOf
    ensures ProcessesOk(preparer, procs - {p}, log', used, now')
  {
    forall q | q in procs && q != p ensures ProcessOk(preparer, log', used, now', procs[q]) {
      ProcessKept(preparer, log, log', used, used, now, now', procs[q]);
    }
  }

  lemma LaterRows(rows: Rows, log: Log, now: Timestamp, now': Timestamp)
    requires RowsOk(rows, log, now) && now <= now'
    ensures RowsOk(rows, log, now')
  {
    assert forall d :: d in rows.docs ==> DocumentOk(rows, log, now, d);
    assert forall j :: j in rows.jobs ==> JobOk(rows, log, now, j);
  }

  /** A document and its job may be saved together. */
  predicate GoodPair(log: Log, now: Timestamp, document: Document, job: IngestionJob) {
    && document.Valid() && document.updatedAt <= now
    && job.documentId == document.id && job.Valid() && job.StartedBefore() && job.updatedAt <= now
    && document.id in log.catalog && document.SameUpload(log.catalog[document.id])
    && document.id in log.jobOf && log.jobOf[document.id] == job.id
    && Coupled(document.status, job.status)
    && (document.status == Ready ==> document.id in log.readied)
    && (document.id in log.readied ==> document.status == Ready || document.status == Deleting)
    && (document.status == Deleting <==> document.id in log.deleting)
  }

  /** The other documents and jobs do not notice. */
  lemma DocumentsAfterSave(rows: Rows, log: Log, log': Log, now: Timestamp, document: Document, job: IngestionJob)
    requires DocumentsOk(rows, log, now)
    requires GoodPair(log', now, document, job)
    requires LogGrows(log, log')
    requires log'.readied <= log.readied + {document.id} && log'.deleting <= log.deleting + {document.id}
    requires job.id in rows.jobs ==> rows.jobs[job.id].documentId == document.id
    ensures DocumentsOk(rows.Save(document, job), log', now)
  {
    var rows' := rows.Save(document, job);
    forall d | d in rows'.docs ensures DocumentOk(rows', log', now, d) {
      if d != document.id {
        assert DocumentOk(rows, log, now, d);
      }
    }
  }

  lemma JobsAfterSave(rows: Rows, log: Log, log': Log, now: Timestamp, document: Document, job: IngestionJob)
    requires JobsOk(rows, log, now)
    requires GoodPair(log', now, document, job)
    requires LogGrows(log, log')
    ensures JobsOk(rows.Save(document, job), log', now)
  {
    var rows' := rows.Save(document, job);
    forall j | j in rows'.jobs ensures JobOk(rows', log', now, j) {
      if j != job.id {
        assert JobOk(rows, log, now, j);
      }
    }
  }

  predicate GoodRows(now: Timestamp, document: Document, job: IngestionJob) {
    && document.Valid() && document.updatedAt <= now
    && job.Valid() && job.StartedBefore() && job.updatedAt <= now
    && Coupled(document.status, job.status)
  }

  /** The changed rows a transaction may save for a document and its job. */
  predicate Moved(now: Timestamp, document: Document, job: IngestionJob, document': Document, job': IngestionJob) {
    && GoodRows(now, document', job')
    && document'.SameUpload(document)
    && job'.id == job.id && job'.documentId == job.documentId
  }

  lemma StartPairOutcome(document: Document, job: IngestionJob, now: Timestamp)
    requires GoodRows(now, document, job)
    ensures var r := StartPair(document, job, now);
            && (document.status == Deleting || document.status == Ready <==> r == Success(None))
            && (document.status == Processing <==> r == Failure(Inconsistent))
            && (document.status == Queued || document.status == Failed <==> r.Success? && r.value.Some?)
            && (r.Success? && r.value.Some? ==>
                  && Moved(now, document, job, r.value.value.0, r.value.value.1)
                  && r.value.value.0.status == Processing)
  {
  }

  lemma FailPairOutcome(document: Document, job: IngestionJob, code: string, now: Timestamp)
    requires GoodRows(now, document, job) && !IsBlank(code)
    ensures var d, j := document.MarkFailed(code, now), job.Fail(code, now);
            && (document.status == Queued || document.status == Processing <==> d.Success?)
            && (d.Success? ==> j.Success? && Moved(now, document, job, d.value, j.value) && d.value.status == Failed)
  {
  }

  lemma ReadyPairOutcome(document: Document, job: IngestionJob, now: Timestamp)
    requires GoodRows(now, document, job)
    ensures var r := ReadyPair(document, job, now);
            && (document.status == Processing <==> r.Success?)
            && (r.Success? ==> Moved(now, document, job, r.value.0, r.value.1) && r.value.0.status == Ready)
  {
  }

  lemma DeletingPairOutcome(document: Document, job: IngestionJob, now: Timestamp)
    requires GoodRows(now, document, job)
    ensures var d := document.MarkDeleting(now);
            && (document.status == Ready || document.status == Failed <==> d.Success?)
            && (d.Success? ==> Moved(now, document, job, d.value, job) && d.value.status == Deleting)
  {
  }

  /** A stored document together with its job. */
  lemma StoredPair(rows: Rows, log: Log, now: Timestamp, d: DocumentId)
    requires DocumentsOk(rows, log, now) && JobsOk(rows, log, now) && d in rows.docs
    ensures d in log.jobOf && log.jobOf[d] in rows.jobs && d in log.catalog
    ensures var document, job := rows.docs[d], rows.jobs[log.jobOf[d]];
            && GoodRows(now, document, job) && GoodPair(log, now, document, job)
            && document.id == d && job.id == log.jobOf[d] && job.documentId == d
            && (d in log.readied ==> document.status == Ready || document.status == Deleting)
            && (document.status == Ready ==> d in log.readied)
            && (document.status == Deleting <==> d in log.deleting)
  {
    assert DocumentOk(rows, log, now, d);
    assert JobOk(rows, log, now, log.jobOf[d]);
  }

  /** What `_start_job` does on reachable tables: which outcome depends on the document's status
      alone, the inconsistent branch is exactly PROCESSING/RUNNING, and nothing else raises. */
  lemma StartJobOutcome(rows: Rows, log: Log, now: Timestamp, j: JobId)
    requires DocumentsOk(rows, log, now) && JobsOk(rows, log, now)
    ensures j !in rows.jobs <==> StartJob(rows, j, now) == Failure(JobNotFound)
    ensures j in rows.jobs ==>
              var d := rows.jobs[j].documentId;
              && d in rows.docs && WorksOn(log, j, d)
              && var status := rows.docs[d].status;
              var r := StartJob(rows, j, now);
              && (status == Deleting || status == Ready <==> r == Success((rows, None)))
              && (status == Processing <==> r == Failure(Inconsistent))
              && (status == Processing ==> rows.jobs[j].status == Running)
              && (status == Queued || status == Failed <==> r.Success? && r.value.1 == Some(d))
  {
    if j in rows.jobs {
      assert JobOk(rows, log, now, j);
      var d := rows.jobs[j].documentId;
      StoredPair(rows, log, now, d);
      StartPairOutcome(rows.docs[d], rows.jobs[j], now);
    }
  }

  /** Where a document may be in the log, by its status. */
  predicate LogMatches(log: Log, d: DocumentId, status: DocumentStatus) {
    && (status == Ready ==> d in log.readied)
    && (d in log.readied ==> status == Ready || status == Deleting)
    && (status == Deleting <==> d in log.deleting)
  }

  /** Saving a moved pair, perhaps with a new revision and chunks, and logging the move. */
  lemma MovePair(rows: Rows, log: Log, log': Log, now: Timestamp, d: DocumentId, document: Document, job: IngestionJob, rows': Rows)
    requires DocumentsOk(rows, log, now) && JobsOk(rows, log, now) && UniqueHashes(rows)
    requires d in rows.docs && d in log.jobOf && log.jobOf[d] in rows.jobs
    requires Moved(now, rows.docs[d], rows.jobs[log.jobOf[d]], document, job)
    requires log' == log || log' == Readied(log, d) || log' == Deleted(log, d)
    requires LogMatches(log', d, document.status)
    requires rows'.docs == rows.Save(document, job).docs && rows'.jobs == rows.Save(document, job).jobs
    ensures DocumentsOk(rows', log', now) && JobsOk(rows', log', now) && UniqueHashes(rows')
  {
    hide DocumentsOk, JobsOk, UniqueHashes;
    StoredPair(rows, log, now, d);
    var saved := rows.Save(document, job);
    DocumentsAfterSave(rows, log, log', now, document, job);
    JobsAfterSave(rows, log, log', now, document, job);
    SaveKeepsUnique(rows, document, job);
    SameTables(saved, rows', log', now);
  }

  lemma CountsOneMore(s: set<DocumentId>, d: DocumentId)
    requires d !in s
    ensures |s + {d}| == |s| + 1
  {
  }

  /** Saving a moved pair that stays outside READY and DELETING. */
  lemma SaveKeepsRows(rows: Rows, log: Log, now: Timestamp, d: DocumentId, document: Document, job: IngestionJob)
    requires RowsOk(rows, log, now) && d in rows.docs && d in log.jobOf && log.jobOf[d] in rows.jobs
    requires Moved(now, rows.docs[d], rows.jobs[log.jobOf[d]], document, job)
    requires document.status != Ready && document.status != Deleting
    requires d !in log.readied && d !in log.deleting
    ensures RowsOk(rows.Save(document, job), log, now)
  {
    MovePair(rows, log, log, now, d, document, job, rows.Save(document, job));
    assert document.id == d by { StoredPair(rows, log, now, d); }
    SaveKeepsChunks(rows, log, document, job);
  }

  lemma SaveKeepsUnique(rows: Rows, document: Document, job: IngestionJob)
    requires UniqueHashes(rows) && document.id in rows.docs && document.SameUpload(rows.docs[document.id])
    ensures UniqueHashes(rows.Save(document, job))
  {
  }

  lemma SaveKeepsChunks(rows: Rows, log: Log, document: Document, job: IngestionJob)
    requires ChunksOk(rows, log) && document.id in rows.docs
    ensures ChunksOk(rows.Save(document, job), log)
  {
    assert rows.Save(document, job).docs.Keys == rows.docs.Keys;
  }

  lemma StartJobKeepsRows(rows: Rows, log: Log, now: Timestamp, j: JobId)
    requires RowsOk(rows, log, now)
    requires StartJob(rows, j, now).Success? && StartJob(rows, j, now).value.1.Some?
    ensures var (rows', started) := StartJob(rows, j, now).value;
            var d := started.value;
            && RowsOk(rows', log, now)
            && WorksOn(log, j, d) && d in rows.docs && j in rows.jobs
            && d in rows'.docs && rows'.docs[d].status == Processing
            && rows' == rows.Save(rows'.docs[d], rows'.jobs[j])
            && rows'.docs[d].id == d && d !in log.readied
  {
    StartJobOutcome(rows, log, now, j);
    var d := rows.jobs[j].documentId;
    StoredPair(rows, log, now, d);
    StartPairOutcome(rows.docs[d], rows.jobs[j], now);
    var (document, job) := StartPair(rows.docs[d], rows.jobs[j], now).value.value;
    SaveKeepsRows(rows, log, now, d, document, job);
  }

  predicate InFlight(rows: Rows, d: DocumentId) {
    d in rows.docs && rows.docs[d].status == Processing
  }

  /** `_mark_failed` never raises; it fails a PROCESSING document with its job and otherwise
      changes nothing. */
  lemma MarkFailedOutcome(rows: Rows, log: Log, now: Timestamp, d: DocumentId, j: JobId, cause: FailureCause)
    requires RowsOk(rows, log, now) && WorksOn(log, j, d)
    ensures var r := MarkFailed(rows, d, j, FailureCode(cause), now);
            && r.Success? && RowsOk(r.value, log, now)
            && (!InFlight(rows, d) ==> r.value == rows)
            && (InFlight(rows, d) ==>
                  && d in r.value.docs && j in r.value.jobs && r.value == rows.Save(r.value.docs[d], r.value.jobs[j])
                  && r.value.docs[d].status == Failed && r.value.docs[d].id == d)
  {
    var r := MarkFailed(rows, d, j, FailureCode(cause), now);
    if d in rows.docs {
      StoredPair(rows, log, now, d);
      FailPairOutcome(rows.docs[d], rows.jobs[j], FailureCode(cause), now);
      if rows.docs[d].status == Processing {
        var document, job := r.value.docs[d], r.value.jobs[j];
        SaveKeepsRows(rows, log, now, d, document, job);
      }
    } else {
      assert j !in rows.jobs by { NoOrphanJob(rows, log, now, j, d); }
    }
  }

  lemma NoOrphanJob(rows: Rows, log: Log, now: Timestamp, j: JobId, d: DocumentId)
    requires JobsOk(rows, log, now) && OneDocumentPerJob(log) && WorksOn(log, j, d) && d !in rows.docs
    ensures j !in rows.jobs
  {
    assert j in rows.jobs ==> JobOk(rows, log, now, j);
  }

  lemma JobNamesDocument(rows: Rows, log: Log, now: Timestamp, j: JobId, d: DocumentId)
    requires JobsOk(rows, log, now) && OneDocumentPerJob(log)
    requires j in rows.jobs && WorksOn(log, j, d)
    ensures rows.jobs[j].documentId == d && d in rows.docs
  {
    assert JobOk(rows, log, now, j);
  }

  /** The dispatch-failure transaction raises exactly when the job has already moved on. */
  lemma MarkDispatchFailedOutcome(rows: Rows, log: Log, now: Timestamp, d: DocumentId, j: JobId)
    requires RowsOk(rows, log, now) && WorksOn(log, j, d)
    ensures var r := MarkDispatchFailed(rows, d, j, now);
            && (r.Success? <==> (d in rows.docs ==> rows.docs[d].status == Queued || rows.docs[d].status == Processing))
            && (r.Success? ==> RowsOk(r.value, log, now))
            && (d !in rows.docs ==> r.value == rows)
            && (r.Success? && d in rows.docs ==>
                  && d in r.value.docs && j in r.value.jobs && r.value == rows.Save(r.value.docs[d], r.value.jobs[j])
                  && r.value.docs[d].status == Failed && r.value.docs[d].id == d)
  {
    assert !IsBlank("queue_unavailable") by { assert !IsSpace("queue_unavailable"[0]); }
    var r := MarkDispatchFailed(rows, d, j, now);
    if d in rows.docs {
      StoredPair(rows, log, now, d);
      FailPairOutcome(rows.docs[d], rows.jobs[j], "queue_unavailable", now);
      if r.Success? {
        SaveKeepsRows(rows, log, now, d, r.value.docs[d], r.value.jobs[j]);
      }
    }
  }

  lemma CommitKeepsChunks(rows: Rows, log: Log, d: DocumentId, added: map<ChunkId, Chunk>, rows': Rows)
    requires ChunksOk(rows, log)
    requires d in rows.docs && d !in log.readied && d in log.expected && added == log.expected[d] && added != map[]
    requires forall c :: c in added ==> c.documentId == d && added[c].documentId == d
    requires rows'.docs.Keys == rows.docs.Keys && rows'.chunks == rows.chunks + added
    ensures ChunksOk(rows', Readied(log, d))
  {
    var log' := Readied(log, d);
    forall c | c in rows'.chunks ensures ChunkOk(rows', log', c) {
      assert c !in added ==> ChunkOk(rows, log, c);
    }
    forall e | e in rows'.docs && e in log'.readied ensures AllStored(rows', log', e) {
      assert e != d ==> AllStored(rows, log, e);
    }
  }

  lemma NoChunksBeforeReady(rows: Rows, log: Log, d: DocumentId)
    requires ChunksOk(rows, log) && d !in log.readied
    ensures forall c :: c in rows.chunks ==> c.documentId != d && rows.chunks[c].documentId != d
  {
  }

  /** The READY commit goes through exactly when the document is still PROCESSING; it finds no
      chunk rows to delete, stores the expected ones and counts once. */
  lemma CommitReadyOutcome(rows: Rows, log: Log, now: Timestamp, d: DocumentId, j: JobId, chunks: seq<Chunk>)
    requires RowsOk(rows, log, now) && WorksOn(log, j, d)
    requires d in log.expected && Prepared(d, chunks) && log.expected[d] == ChunkRows(d, chunks)
    ensures var r := CommitReady(rows, d, j, chunks, now);
            && (r.Success? <==> InFlight(rows, d))
            && (r.Success? ==>
                  && d !in log.readied
                  && RowsOk(r.value, Readied(log, d), now)
                  && d in r.value.docs && j in r.value.jobs
                  && r.value == rows.Save(r.value.docs[d], r.value.jobs[j]).(chunks := rows.chunks + ChunkRows(d, chunks), revision := rows.revision + 1)
                  && r.value.docs[d].status == Ready && r.value.docs[d].id == d)
  {
    hide DocumentsOk, JobsOk, ChunksOk, UniqueHashes, ReadyPair, ReplaceChunks, Prepared, ChunkRows;
    var r := CommitReady(rows, d, j, chunks, now);
    if d in rows.docs {
      StoredPair(rows, log, now, d);
      ReadyPairOutcome(rows.docs[d], rows.jobs[j], now);
      if rows.docs[d].status == Processing {
        NoChunksBeforeReady(rows, log, d);
        CommitReadyResult(rows, d, j, chunks, now);
        var (document, job) := ReadyPair(rows.docs[d], rows.jobs[j], now).value;
        ReadyCommitKeepsRows(rows, log, now, d, document, job, ChunkRows(d, chunks));
      }
    }
  }

  lemma CommitReadyResult(rows: Rows, d: DocumentId, j: JobId, chunks: seq<Chunk>, now: Timestamp)
    requires Prepared(d, chunks) && d in rows.docs && j in rows.jobs
    requires forall c :: c in rows.chunks ==> c.documentId != d && rows.chunks[c].documentId != d
    ensures var r, pair := CommitReady(rows, d, j, chunks, now), ReadyPair(rows.docs[d], rows.jobs[j], now);
            && (r.Success? <==> pair.Success?)
            && (pair.Success? ==>
                  r.value == rows.Save(pair.value.0, pair.value.1)
                                 .(chunks := rows.chunks + ChunkRows(d, chunks), revision := rows.revision + 1))
  {
    hide ReadyPair, ReplaceChunks, ChunkRows;
    FirstChunks(rows, d, chunks);
  }

  /** Before the READY commit there is nothing to delete. */
  lemma FirstChunks(rows: Rows, d: DocumentId, chunks: seq<Chunk>)
    requires Prepared(d, chunks)
    requires forall c :: c in rows.chunks ==> c.documentId != d && rows.chunks[c].documentId != d
    ensures ReplaceChunks(rows, d, chunks) == Success(rows.(chunks := rows.chunks + ChunkRows(d, chunks)))
  {
    assert rows.OtherChunks(d) == rows.chunks;
  }

  lemma ReadyCommitKeepsRows(rows: Rows, log: Log, now: Timestamp, d: DocumentId,
                             document: Document, job: IngestionJob, added: map<ChunkId, Chunk>)
    requires RowsOk(rows, log, now) && InFlight(rows, d)
    requires d in log.jobOf && log.jobOf[d] in rows.jobs
    requires Moved(now, rows.docs[d], rows.jobs[log.jobOf[d]], document, job) && document.status == Ready
    requires d in log.expected && added == log.expected[d] && added != map[]
    requires forall c :: c in added ==> c.documentId == d && added[c].documentId == d
    ensures RowsOk(rows.Save(document, job).(chunks := rows.chunks + added, revision := rows.revision + 1),
                   Readied(log, d), now)
  {
    hide DocumentsOk, JobsOk, ChunksOk, UniqueHashes, Moved;
    var rows' := rows.Save(document, job).(chunks := rows.chunks + added, revision := rows.revision + 1);
    ReadyPairSaved(rows, log, now, d, document, job, rows');
    CommitKeepsChunks(rows, log, d, added, rows');
    CountsOneMore(log.readied, d);
  }

  lemma ReadyPairSaved(rows: Rows, log: Log, now: Timestamp, d: DocumentId, document: Document, job: IngestionJob, rows': Rows)
    requires DocumentsOk(rows, log, now) && JobsOk(rows, log, now) && UniqueHashes(rows) && InFlight(rows, d)
    requires d in log.jobOf && log.jobOf[d] in rows.jobs
    requires Moved(now, rows.docs[d], rows.jobs[log.jobOf[d]], document, job) && document.status == Ready
    requires rows'.docs == rows.Save(document, job).docs && rows'.jobs == rows.Save(document, job).jobs
    ensures DocumentsOk(rows', Readied(log, d), now) && JobsOk(rows', Readied(log, d), now) && UniqueHashes(rows')
    ensures d !in log.readied && document.id == d
  {
    StoredPair(rows, log, now, d);
    MovePair(rows, log, Readied(log, d), now, d, document, job, rows');
  }

  lemma SameTables(rows: Rows, rows': Rows, log: Log, now: Timestamp)
    requires rows.docs == rows'.docs && rows.jobs == rows'.jobs
    requires DocumentsOk(rows, log, now) && JobsOk(rows, log, now)
    ensures DocumentsOk(rows', log, now) && JobsOk(rows', log, now)
    ensures UniqueHashes(rows) ==> UniqueHashes(rows')
  {
    assert forall d :: d in rows.docs ==> DocumentOk(rows, log, now, d);
    assert forall j :: j in rows.jobs ==> JobOk(rows, log, now, j);
  }

  /** Deletion may begin exactly on READY and FAILED documents, and counts once; on a DELETING
      document it only resumes the cleanup. */
  lemma BeginDeleteOutcome(rows: Rows, log: Log, now: Timestamp, d: DocumentId)
    requires DocumentsOk(rows, log, now) && JobsOk(rows, log, now)
    ensures var r := BeginDelete(rows, d, now);
            && (r.Success? <==> d in rows.docs && rows.docs[d].status in {Ready, Failed, Deleting})
            && (r.Success? ==>
                  && d in log.catalog && r.value.1.storageKey == log.catalog[d].storageKey
                  && r.value.1.id == d && r.value.1.status == Deleting
                  && (rows.docs[d].status == Deleting <==> d in log.deleting)
                  && (d in log.deleting ==> r.value.0 == rows)
                  && (d !in log.deleting ==>
                        r.value.0 == rows.SaveDocument(r.value.1).(revision := rows.revision + 1)))
  {
    if d in rows.docs {
      StoredPair(rows, log, now, d);
      DeletingPairOutcome(rows.docs[d], rows.jobs[log.jobOf[d]], now);
    }
  }

  lemma BeginDeleteKeepsRows(rows: Rows, log: Log, now: Timestamp, d: DocumentId)
    requires RowsOk(rows, log, now) && BeginDelete(rows, d, now).Success?
    ensures RowsOk(BeginDelete(rows, d, now).value.0, Deleted(log, d), now)
  {
    BeginDeleteOutcome(rows, log, now, d);
    StoredPair(rows, log, now, d);
    if d in log.deleting {
      assert Deleted(log, d) == log;
    } else {
      DeletingPairOutcome(rows.docs[d], rows.jobs[log.jobOf[d]], now);
      StartDeleteKeepsRows(rows, log, now, d, rows.docs[d].MarkDeleting(now).value);
    }
  }

  lemma StartDeleteKeepsRows(rows: Rows, log: Log, now: Timestamp, d: DocumentId, document: Document)
    requires RowsOk(rows, log, now) && d in rows.docs && rows.docs[d].status != Deleting
    requires d in log.jobOf && log.jobOf[d] in rows.jobs
    requires Moved(now, rows.docs[d], rows.jobs[log.jobOf[d]], document, rows.jobs[log.jobOf[d]]) && document.status == Deleting
    ensures RowsOk(rows.SaveDocument(document).(revision := rows.revision + 1), Deleted(log, d), now)
  {
    var rows' := rows.SaveDocument(document).(revision := rows.revision + 1);
    DeletingPairSaved(rows, log, now, d, document, rows');
    SaveDocumentKeepsChunks(rows, log, d, document);
    CountsOneMore(log.deleting, d);
  }

  lemma DeletingPairSaved(rows: Rows, log: Log, now: Timestamp, d: DocumentId, document: Document, rows': Rows)
    requires DocumentsOk(rows, log, now) && JobsOk(rows, log, now) && UniqueHashes(rows)
    requires d in rows.docs && rows.docs[d].status != Deleting
    requires d in log.jobOf && log.jobOf[d] in rows.jobs
    requires Moved(now, rows.docs[d], rows.jobs[log.jobOf[d]], document, rows.jobs[log.jobOf[d]]) && document.status == Deleting
    requires rows' == rows.SaveDocument(document).(revision := rows.revision + 1)
    ensures DocumentsOk(rows', Deleted(log, d), now) && JobsOk(rows', Deleted(log, d), now) && UniqueHashes(rows')
    ensures d !in log.deleting && document.id == d
  {
    StoredPair(rows, log, now, d);
    MovePair(rows, log, Deleted(log, d), now, d, document, rows.jobs[log.jobOf[d]], rows');
  }

  lemma SaveDocumentKeepsChunks(rows: Rows, log: Log, d: DocumentId, document: Document)
    requires ChunksOk(rows, log) && d in rows.docs && document.id == d
    ensures ChunksOk(rows.SaveDocument(document).(revision := rows.revision + 1), Deleted(log, d))
  {
    var rows', log' := rows.SaveDocument(document).(revision := rows.revision + 1), Deleted(log, d);
    assert rows'.docs.Keys == rows.docs.Keys;
    forall c | c in rows'.chunks ensures ChunkOk(rows', log', c) {
      assert ChunkOk(rows, log, c);
    }
    forall e | e in rows'.docs && e in log'.readied ensures AllStored(rows', log', e) {
      assert AllStored(rows, log, e);
    }
  }

  /** Removing a row in DELETING with all that cascades. */
  lemma DeleteDocumentKeepsRows(rows: Rows, log: Log, now: Timestamp, d: DocumentId)
    requires RowsOk(rows, log, now)
    requires forall e, c :: e in log.expected && c in log.expected[e] ==> c.documentId == e
    ensures RowsOk(rows.DeleteDocument(d), log, now)
  {
    var rows' := rows.DeleteDocument(d);
    forall e | e in rows'.docs ensures DocumentOk(rows', log, now, e) {
      assert DocumentOk(rows, log, now, e);
    }
    forall j | j in rows'.jobs ensures JobOk(rows', log, now, j) {
      assert JobOk(rows, log, now, j);
    }
    DeleteKeepsChunks(rows, log, d);
    DeleteKeepsUnique(rows, d);
  }

  lemma DeleteKeepsUnique(rows: Rows, d: DocumentId)
    requires UniqueHashes(rows)
    ensures UniqueHashes(rows.DeleteDocument(d))
  {
  }

  lemma DeleteKeepsChunks(rows: Rows, log: Log, d: DocumentId)
    requires ChunksOk(rows, log)
    requires forall e, c :: e in log.expected && c in log.expected[e] ==> c.documentId == e
    ensures ChunksOk(rows.DeleteDocument(d), log)
  {
    var rows' := rows.DeleteDocument(d);
    forall c | c in rows'.chunks ensures ChunkOk(rows', log, c) {
      assert ChunkOk(rows, log, c);
    }
    forall e | e in rows'.docs && e in log.readied ensures AllStored(rows', log, e) {
      assert AllStored(rows, log, e);
      forall c | c in log.expected[e] ensures c in rows'.chunks {
        assert c in rows.chunks && ChunkOk(rows, log, c);
      }
    }
  }

  lemma InsertKeepsRows(rows: Rows, log: Log, now: Timestamp, document: Document, job: IngestionJob, expected: map<ChunkId, Chunk>)
    requires RowsOk(rows, log, now)
    requires log.expected.Keys == log.catalog.Keys && log.readied <= log.catalog.Keys && log.deleting <= log.catalog.Keys && log.jobOf.Keys == log.catalog.Keys
    requires InsertSubmission(rows, document, job).Success?
    requires document.id !in log.catalog && job.id !in log.jobOf.Values
    requires GoodRows(now, document, job) && document.status == Queued && job.documentId == document.id
    ensures RowsOk(rows.Save(document, job), Cataloged(log, document, job, expected), now)
  {
    InsertKeepsPairs(rows, log, now, document, job, expected);
    InsertKeepsUnique(rows, document, job);
    InsertKeepsChunks(rows, log, document, job, expected);
    assert OneDocumentPerJob(Cataloged(log, document, job, expected));
  }

  lemma InsertKeepsPairs(rows: Rows, log: Log, now: Timestamp, document: Document, job: IngestionJob, expected: map<ChunkId, Chunk>)
    requires DocumentsOk(rows, log, now) && JobsOk(rows, log, now)
    requires log.expected.Keys == log.catalog.Keys && log.readied <= log.catalog.Keys && log.deleting <= log.catalog.Keys
    requires log.jobOf.Keys == log.catalog.Keys
    requires document.id !in log.catalog && job.id !in rows.jobs
    requires GoodRows(now, document, job) && document.status == Queued && job.documentId == document.id
    ensures DocumentsOk(rows.Save(document, job), Cataloged(log, document, job, expected), now)
    ensures JobsOk(rows.Save(document, job), Cataloged(log, document, job, expected), now)
  {
    var log' := Cataloged(log, document, job, expected);
    DocumentsAfterSave(rows, log, log', now, document, job);
    JobsAfterSave(rows, log, log', now, document, job);
  }

  lemma InsertKeepsUnique(rows: Rows, document: Document, job: IngestionJob)
    requires UniqueHashes(rows) && !rows.HashTaken(document.sha256)
    ensures UniqueHashes(rows.Save(document, job))
  {
    forall d | d in rows.docs ensures rows.docs[d].sha256 != document.sha256 {
      assert !rows.HoldsHash(d, document.sha256);
    }
  }

  lemma InsertKeepsChunks(rows: Rows, log: Log, document: Document, job: IngestionJob, expected: map<ChunkId, Chunk>)
    requires ChunksOk(rows, log)
    requires log.readied <= log.catalog.Keys && log.expected.Keys == log.catalog.Keys && document.id !in log.catalog
    ensures ChunksOk(rows.Save(document, job), Cataloged(log, document, job, expected))
  {
    var rows', log' := rows.Save(document, job), Cataloged(log, document, job, expected);
    assert forall c :: c in rows.chunks ==> ChunkOk(rows, log, c);
    forall d | d in rows'.docs && d in log'.readied ensures AllStored(rows', log', d) {
      assert AllStored(rows, log, d);
    }
  }
}
