/** DocumentSubmissionService and DocumentDeletionService (application/documents.py) in the form of
    the program. */
module DocumentServices {
  import opened Results
  import opened Texts
  import opened Domain
  import T = Transactions
  import opened Lifecycle
  import opened LifecycleSafety
  import opened LifecycleSteps
  import R = LifecycleResults
  import opened LifecycleGuarantees
  import opened Platform

  type Rows = T.Rows
  type AppError = T.AppError

  datatype SubmissionError = DuplicateDocument(existing: DocumentId) | QueueDispatchFailed | NotSubmitted

  /** Stored by instant i and in the queue at instant k, both at or after `since`. */
  ghost predicate AcceptedDuring(trace: seq<State>, since: nat, document: Document, job: IngestionJob) {
    exists i, k :: since <= i <= k < |trace| && HoldsUpload(trace[i].rows, document, job) && job.id in trace[k].queue
  }

  ghost predicate StoredDuring(trace: seq<State>, since: nat, document: Document, job: IngestionJob) {
    exists i :: since <= i < |trace| && HoldsUpload(trace[i].rows, document, job)
  }

  /** The pair a submit stores: the upload as it came, QUEUED, and a job that was never tried. */
  predicate IsUpload(document: Document, job: IngestionJob, filename: string, mediaType: MediaType, content: Bytes) {
    && document.originalFilename == filename && document.mediaType == mediaType
    && document.sha256 == Digest(content) && document.sizeBytes == |content|
    && document.status == Queued && document.failureCode == None
    && document.createdAt == document.updatedAt == job.createdAt == job.updatedAt
    && job.documentId == document.id && job.status == Waiting && job.attemptCount == 0
  }

  predicate HoldsUpload(rows: Rows, document: Document, job: IngestionJob) {
    document.id in rows.docs && rows.docs[document.id] == document && job.id in rows.jobs && rows.jobs[job.id] == job
  }

  /** The document held the hash at an instant at or after `since`. */
  ghost predicate HeldDuring(trace: seq<State>, since: nat, existing: DocumentId, sha256: Digest<Bytes>) {
    exists i :: since <= i < |trace| && trace[i].rows.HoldsHash(existing, sha256)
  }

  /** Nothing of the pair is there to be failed, or both are failed for want of the queue. */
  predicate DispatchFailed(rows: Rows, documentId: DocumentId, jobId: JobId) {
    documentId in rows.docs ==>
      && rows.docs[documentId].status == Failed && rows.docs[documentId].failureCode == Some("queue_unavailable")
      && jobId in rows.jobs && rows.jobs[jobId].status == Broken && rows.jobs[jobId].failureCode == Some("queue_unavailable")
  }

  ghost predicate DispatchFailedDuring(trace: seq<State>, since: nat, documentId: DocumentId, jobId: JobId) {
    exists k :: since <= k < |trace| && DispatchFailed(trace[k].rows, documentId, jobId)
  }

  /** The pair was stored by instant i and failed at a later instant k, if it was still there. */
  ghost predicate StoredThenFailed(trace: seq<State>, since: nat, documentId: DocumentId, jobId: JobId) {
    exists i, k :: since <= i < k < |trace| && documentId in trace[i].rows.docs && jobId in trace[i].rows.jobs
                   && DispatchFailed(trace[k].rows, documentId, jobId)
  }

  class DocumentSubmissionService {
    const platform: Platform

    constructor (platform: Platform)
      ensures this.platform == platform
    {
      this.platform := platform;
    }

    ghost predicate At(p: ProcessId, document: Document, job: IngestionJob, pc: SubmitPc)
      reads this, platform
    {
      platform.Valid() && p in platform.procs && platform.procs[p] == Submit(document, job, pc)
    }

    /** `get_by_hash` */
    method GetByHash(sha256: Digest<Bytes>) returns (found: Option<DocumentId>)
      ensures platform.Tables().LookupAnswer(sha256, found)
    {
      if d :| d in platform.docs && platform.docs[d].sha256 == sha256 {
        found := Some(d);
      } else {
        found := None;
      }
    }

    /** The insert; the unique columns reject it when another submit was faster. */
    method Insert(document: Document, job: IngestionJob) returns (r: Result<(), AppError>)
      modifies platform`docs, platform`jobs
      ensures match T.InsertSubmission(old(platform.Tables()), document, job)
              case Success(rows) => r == Success(()) && platform.Tables() == rows
              case Failure(error) => r == Failure(error) && platform.Tables() == old(platform.Tables())
    {
      var taken := GetByHash(document.sha256);
      if taken.Some? || document.id in platform.docs || job.id in platform.jobs {
        return Failure(T.UniqueViolation);
      }
      platform.AddDocument(document);
      platform.AddJob(job);
      return Success(());
    }

    /** `_mark_dispatch_failed` */
    method MarkDispatchFailed(documentId: DocumentId, jobId: JobId, now: Timestamp) returns (r: Result<(), AppError>)
      requires platform.Keyed()
      modifies platform`docs, platform`jobs, platform`chunks, platform`revision
      ensures match T.MarkDispatchFailed(old(platform.Tables()), documentId, jobId, now)
              case Success(rows) => r == Success(()) && platform.Tables() == rows
              case Failure(error) => r == Failure(error) && platform.Tables() == old(platform.Tables())
    {
      var saved := platform.Tables();
      if documentId !in platform.docs || jobId !in platform.jobs {
        return Success(());
      }
      var job := platform.jobs[jobId];
      var failedDocument := platform.docs[documentId].MarkFailed("queue_unavailable", now);
      if failedDocument.Failure? {
        return Failure(T.InvalidAggregate(failedDocument.error));
      }
      platform.SaveDocument(failedDocument.value);
      var failedJob := job.Fail("queue_unavailable", now);
      if failedJob.Failure? {
        platform.Rollback(saved);
        return Failure(T.InvalidAggregate(failedJob.error));
      }
      platform.SaveJob(failedJob.value);
      return Success(());
    }

    /** Storing the file and creating both aggregates. */
    method Store(p: ProcessId, documentId: DocumentId, jobId: JobId, filename: string, mediaType: MediaType, content: Bytes)
      returns (document: Document, job: IngestionJob)
      requires platform.Valid() && p !in platform.procs && !IsBlank(filename) && content != []
      requires documentId !in platform.used && jobId !in platform.used && documentId != jobId
      modifies platform
      ensures platform.trace == old(platform.trace) + [platform.Current()]
      ensures At(p, document, job, LookingUp)
      ensures document.id == documentId && document.sha256 == Digest(content) && job.id == jobId
      ensures document.storageKey == StorageKey(documentId, mediaType)
      ensures IsUpload(document, job, filename, mediaType, content)
    {
      hide IsRun;
      ghost var before := platform.Current();
      var now := platform.Now();
      document := NewDocument(documentId, filename, mediaType, content, now);
      document := document.Queue(now).value;
      job := NewJob(jobId, documentId, now);
      platform.files := platform.files[document.storageKey := content];
      platform.used := platform.used + {documentId, jobId};
      platform.clock := now;
      platform.log := platform.log.(uploads := platform.log.uploads[document.storageKey := content]);
      platform.procs := platform.procs[p := Submit(document, job, LookingUp)];
      platform.Record(before, BeginSubmit(p, documentId, jobId, filename, mediaType, content, now));
    }

    method LookUp(p: ProcessId, document: Document, job: IngestionJob) returns (found: Option<DocumentId>)
      requires At(p, document, job, LookingUp)
      modifies platform
      ensures platform.trace == old(platform.trace) + [platform.Current()]
      ensures found.Some? ==> platform.Tables().HoldsHash(found.value, document.sha256)
      ensures At(p, document, job, if found.Some? then Discarding(Duplicate(found.value)) else Inserting)
    {
      hide IsRun;
      ghost var before := platform.Current();
      found := GetByHash(document.sha256);
      platform.procs := platform.procs[p := Submit(document, job, if found.Some? then Discarding(Duplicate(found.value)) else Inserting)];
      platform.Record(before, SubmitLookup(p, found));
    }

    /** The insert and the database's answer to its commit: Conflict stands for an IntegrityError,
        Other for any other error, one of them a commit whose success was not reported. */
    method TryInsert(document: Document, job: IngestionJob, ack: Ack) returns (failure: Option<RejectCause>)
      modifies platform`docs, platform`jobs, platform`log
      ensures failure.Some? ==> failure.value in {Conflict, Other}
      ensures failure.None? ==> HoldsUpload(platform.Tables(), document, job)
      ensures var r := T.InsertSubmission(old(platform.Tables()), document, job);
              if ack == Refused || r.Failure?
              then platform.Tables() == old(platform.Tables()) && platform.log == old(platform.log)
                   && failure == Some(if ack == Refused then Other else Conflict)
              else platform.Tables() == r.value
                   && platform.log == Cataloged(old(platform.log), document, job, Expected(platform.preparer, document))
                   && failure == if ack == Acknowledged then None else Some(Other)
    {
      hide Expected;
      if ack == Refused {
        return Some(Other);
      }
      var r := Insert(document, job);
      if r.Failure? {
        return Some(Conflict);
      }
      platform.log := Cataloged(platform.log, document, job, Expected(platform.preparer, document));
      return if ack == Acknowledged then None else Some(Other);
    }

    /** The insert as one step. */
    method InsertRows(p: ProcessId, document: Document, job: IngestionJob) returns (failure: Option<RejectCause>)
      requires At(p, document, job, Inserting)
      modifies platform
      ensures platform.trace == old(platform.trace) + [platform.Current()]
      ensures failure.None? ==> At(p, document, job, Enqueueing) && HoldsUpload(platform.Tables(), document, job)
      ensures failure.Some? ==> failure.value in {Conflict, Other} && At(p, document, job, Discarding(failure.value))
    {
      hide IsRun, Expected, T.InsertSubmission, HoldsUpload;
      ghost var before := platform.Current();
      var ack: Ack := *;
      if ack == Unacknowledged && !platform.regime.lostInsert {
        ack := Acknowledged;
      }
      failure := TryInsert(document, job, ack);
      platform.procs := platform.procs[p := Submit(document, job, if failure.Some? then Discarding(failure.value) else Enqueueing)];
      platform.Record(before, SubmitInsert(p, ack));
    }

    method Discard(p: ProcessId, document: Document, job: IngestionJob, cause: RejectCause)
      requires At(p, document, job, Discarding(cause))
      modifies platform
      ensures platform.trace == old(platform.trace) + [platform.Current()]
      ensures At(p, document, job,
                 match cause
                 case Duplicate(existing) => Finished(RejectedDuplicate(existing))
                 case Conflict => Rechecking
                 case Other => Finished(OtherError))
    {
      hide IsRun;
      ghost var before := platform.Current();
      platform.files := platform.files - {document.storageKey};
      platform.procs := platform.procs[p := Submit(document, job,
                                                   match cause
                                                   case Duplicate(existing) => Finished(RejectedDuplicate(existing))
                                                   case Conflict => Rechecking
                                                   case Other => Finished(OtherError))];
      platform.Record(before, SubmitDiscard(p));
    }

    method Recheck(p: ProcessId, document: Document, job: IngestionJob) returns (found: Option<DocumentId>)
      requires At(p, document, job, Rechecking)
      modifies platform
      ensures platform.trace == old(platform.trace) + [platform.Current()]
      ensures found.Some? ==> platform.Tables().HoldsHash(found.value, document.sha256)
      ensures At(p, document, job, Finished(if found.Some? then RejectedDuplicate(found.value) else OtherError))
    {
      hide IsRun;
      ghost var before := platform.Current();
      found := GetByHash(document.sha256);
      platform.procs := platform.procs[p := Submit(document, job, Finished(if found.Some? then RejectedDuplicate(found.value) else OtherError))];
      platform.Record(before, SubmitRecheck(p, found));
    }

    method Enqueue(p: ProcessId, document: Document, job: IngestionJob) returns (ok: bool)
      requires At(p, document, job, Enqueueing)
      modifies platform
      ensures platform.trace == old(platform.trace) + [platform.Current()]
      ensures ok ==> At(p, document, job, Finished(Accepted)) && job.id in platform.queue
      ensures !ok ==> At(p, document, job, Dispatching)
    {
      hide IsRun;
      ghost var before := platform.Current();
      var ack: Ack := *;
      if ack == Unacknowledged && !platform.regime.lostEnqueue {
        ack := Acknowledged;
      }
      if ack != Refused {
        platform.queue := platform.queue + {job.id};
      }
      ok := ack == Acknowledged;
      platform.procs := platform.procs[p := Submit(document, job, if ok then Finished(Accepted) else Dispatching)];
      platform.Record(before, SubmitEnqueue(p, ack));
    }

    method RecordDispatchFailure(p: ProcessId, document: Document, job: IngestionJob) returns (ok: bool)
      requires At(p, document, job, Dispatching)
      modifies platform
      ensures platform.trace == old(platform.trace) + [platform.Current()]
      ensures At(p, document, job, Finished(if ok then QueueError else OtherError))
      ensures ok ==> DispatchFailed(platform.Tables(), document.id, job.id)
    {
      hide IsRun, T.MarkDispatchFailed, Safe, DispatchFailed, Enabled, Apply;
      platform.SafeNow();
      ghost var before := platform.Current();
      var now := platform.Now();
      var r := MarkDispatchFailed(document.id, job.id, now);
      ok := r.Success?;
      DispatchFailureMeans(platform.preparer, before, p, now);
      platform.clock := now;
      platform.procs := platform.procs[p := Submit(document, job, Finished(if ok then QueueError else OtherError))];
      DispatchFails(platform.preparer, platform.regime, before, p, now);
      assert platform.Current() == DispatchFailedEffect(before, p, now);
      platform.Record(before, SubmitDispatchFailed(p, now));
    }

    /** The handlers behind the insert: the file is deleted, and after an IntegrityError the hash is
        looked up once more to name the duplicate. */
    method Reject(p: ProcessId, document: Document, job: IngestionJob, cause: RejectCause) returns (error: SubmissionError)
      requires At(p, document, job, Discarding(cause))
      modifies platform
      ensures platform.Valid() && old(platform.trace) <= platform.trace
      ensures match cause
              case Duplicate(existing) => error == DuplicateDocument(existing)
              case Conflict => error.DuplicateDocument? ==>
                                 HeldDuring(platform.trace, |old(platform.trace)|, error.existing, document.sha256)
              case Other => error == NotSubmitted
      ensures error.DuplicateDocument? ==> At(p, document, job, Finished(RejectedDuplicate(error.existing)))
      ensures !error.DuplicateDocument? ==> error == NotSubmitted && At(p, document, job, Finished(OtherError))
    {
      hide IsRun;
      platform.Interfere(p);
      Discard(p, document, job, cause);
      match cause {
        case Duplicate(existing) => return DuplicateDocument(existing);
        case Conflict =>
          platform.Interfere(p);
          var existing := Recheck(p, document, job);
          if existing.None? {
            return NotSubmitted;
          }
          assert platform.trace[|platform.trace| - 1].rows.HoldsHash(existing.value, document.sha256);
          return DuplicateDocument(existing.value);
        case Other => return NotSubmitted;
      }
    }

    /** The transaction of `submit` with its handlers. */
    method Register(p: ProcessId, document: Document, job: IngestionJob) returns (failure: Option<SubmissionError>)
      requires At(p, document, job, LookingUp)
      modifies platform
      ensures platform.Valid() && old(platform.trace) <= platform.trace
      ensures failure.None? ==> At(p, document, job, Enqueueing)
                                && StoredDuring(platform.trace, |old(platform.trace)|, document, job)
      ensures failure.Some? && failure.value.DuplicateDocument? ==>
                && HeldDuring(platform.trace, |old(platform.trace)|, failure.value.existing, document.sha256)
                && At(p, document, job, Finished(RejectedDuplicate(failure.value.existing)))
      ensures failure.Some? && !failure.value.DuplicateDocument? ==>
                failure.value == NotSubmitted && At(p, document, job, Finished(OtherError))
    {
      hide IsRun, HoldsUpload;
      platform.Interfere(p);
      var existing := LookUp(p, document, job);
      if existing.Some? {
        assert platform.trace[|platform.trace| - 1].rows.HoldsHash(existing.value, document.sha256);
        var error := Reject(p, document, job, Duplicate(existing.value));
        return Some(error);
      }
      platform.Interfere(p);
      var rejected := InsertRows(p, document, job);
      if rejected.Some? {
        var error := Reject(p, document, job, rejected.value);
        return Some(error);
      }
      assert HoldsUpload(platform.trace[|platform.trace| - 1].rows, document, job);
      return None;
    }

    /** Handing the job to the queue; a refusal fails document and job. */
    method Dispatch(p: ProcessId, document: Document, job: IngestionJob) returns (failure: Option<SubmissionError>)
      requires At(p, document, job, Enqueueing)
      modifies platform
      ensures platform.Valid() && old(platform.trace) <= platform.trace
      ensures failure.None? ==> job.id in platform.trace[|platform.trace| - 1].queue
      ensures failure.Some? ==>
                || (failure.value == QueueDispatchFailed && DispatchFailedDuring(platform.trace, |old(platform.trace)|, document.id, job.id))
                || (failure.value == NotSubmitted && At(p, document, job, Finished(OtherError)))
    {
      hide IsRun, DispatchFailed;
      platform.Interfere(p);
      var queued := Enqueue(p, document, job);
      if queued {
        return None;
      }
      platform.Interfere(p);
      var recorded := RecordDispatchFailure(p, document, job);
      if recorded {
        assert DispatchFailed(platform.trace[|platform.trace| - 1].rows, document.id, job.id);
        return Some(QueueDispatchFailed);
      }
      return Some(NotSubmitted);
    }

    /** `submit` on validated input, with fresh random identifiers. The state goes through a run of
        the lifecycle. Accepted: the two rows were stored and then the job was queued. Rejected as a
        duplicate: the named document held the very hash at an instant of this call, and neither a
        file nor a row of this upload is left. Queue error: the two rows were stored, and later both
        failed for want of the queue, if they still were there. Any other error leaves nothing
        either where no answer to insert or enqueue gets lost. */
    method SubmitDocument(p: ProcessId, documentId: DocumentId, jobId: JobId, filename: string, mediaType: MediaType, content: Bytes)
      returns (r: Result<(Document, IngestionJob), SubmissionError>)
      requires platform.Valid() && p !in platform.procs && !IsBlank(filename) && content != []
      requires documentId !in platform.used && jobId !in platform.used && documentId != jobId
      modifies platform
      ensures platform.Valid() && old(platform.trace) <= platform.trace
      ensures r.Success? ==>
                && r.value.0.id == documentId && r.value.0.sha256 == Digest(content) && r.value.1.id == jobId
                && IsUpload(r.value.0, r.value.1, filename, mediaType, content)
                && AcceptedDuring(platform.trace, |old(platform.trace)|, r.value.0, r.value.1)
      ensures r.Failure? ==>
                match r.error
                case DuplicateDocument(existing) =>
                  HeldDuring(platform.trace, |old(platform.trace)|, existing, Digest(content)) && NothingKept(documentId, mediaType)
                case QueueDispatchFailed => StoredThenFailed(platform.trace, |old(platform.trace)|, documentId, jobId)
                case NotSubmitted =>
                  !platform.regime.lostInsert && !platform.regime.lostEnqueue ==> NothingKept(documentId, mediaType)
    {
      hide IsRun, HoldsUpload, DispatchFailed, NothingKept;
      var document, job := Store(p, documentId, jobId, filename, mediaType, content);
      var rejection := Register(p, document, job);
      if rejection.Some? {
        NothingIsKept(p, document, job, mediaType);
        return Failure(rejection.value);
      }
      ghost var stored :| |old(platform.trace)| <= stored < |platform.trace| && HoldsUpload(platform.trace[stored].rows, document, job);
      ghost var since := |platform.trace|;
      var failure := Dispatch(p, document, job);
      assert HoldsUpload(platform.trace[stored].rows, document, job);
      if failure.Some? {
        if failure.value == NotSubmitted {
          NothingIsKept(p, document, job, mediaType);
        } else {
          FailedAfterStoring(platform.trace, |old(platform.trace)|, stored, since, document, job);
        }
        return Failure(failure.value);
      }
      return Success((document, job));
    }

    /** Neither a file nor a row of the upload. */
    predicate NothingKept(documentId: DocumentId, mediaType: MediaType)
      reads this, platform
    {
      StorageKey(documentId, mediaType) !in platform.files && documentId !in platform.docs
    }

    lemma NothingIsKept(p: ProcessId, document: Document, job: IngestionJob, mediaType: MediaType)
      requires document.storageKey == StorageKey(document.id, mediaType)
      requires platform.Valid() && p in platform.procs && platform.procs[p].Submit? && platform.procs[p].document == document
      requires platform.procs[p].submitPc.Finished?
      ensures var outcome := platform.procs[p].submitPc.outcome;
              outcome.RejectedDuplicate? || (outcome == OtherError && !platform.regime.lostInsert && !platform.regime.lostEnqueue)
              ==> NothingKept(document.id, mediaType)
    {
      hide IsRun;
      RunsBegin(platform.preparer, platform.regime, platform.trace);
      var outcome := platform.procs[p].submitPc.outcome;
      if outcome.RejectedDuplicate? || (outcome == OtherError && !platform.regime.lostInsert && !platform.regime.lostEnqueue) {
        RejectionLeavesNothing(platform.preparer, platform.regime, platform.trace, |platform.trace| - 1, p);
      }
    }
  }

  lemma FailedAfterStoring(trace: seq<State>, begun: nat, stored: nat, since: nat, document: Document, job: IngestionJob)
    requires begun <= stored < since && stored < |trace| && HoldsUpload(trace[stored].rows, document, job)
    requires DispatchFailedDuring(trace, since, document.id, job.id)
    ensures StoredThenFailed(trace, begun, document.id, job.id)
  {
  }

  lemma DispatchFails(preparer: Preparer, regime: Regime, s: State, p: ProcessId, now: Timestamp)
    requires SubmitAt(s, p, Dispatching) && s.clock <= now
    ensures Enabled(regime, s, SubmitDispatchFailed(p, now))
    ensures DispatchFailedEffect(s, p, now) == Apply(preparer, regime, s, SubmitDispatchFailed(p, now))
  {
    hide DispatchFailedEffect;
  }

  lemma DeleteBegins(preparer: Preparer, regime: Regime, s: State, p: ProcessId, d: DocumentId, now: Timestamp)
    requires p !in s.procs && s.clock <= now
    ensures Enabled(regime, s, StartDelete(p, d, now))
    ensures StartDeleteEffect(s, p, d, now) == Apply(preparer, regime, s, StartDelete(p, d, now))
  {
    hide StartDeleteEffect;
  }

  /** `_mark_dispatch_failed` that does not raise. */
  lemma DispatchFailureMeans(preparer: Preparer, s: State, p: ProcessId, now: Timestamp)
    requires Safe(preparer, s) && SubmitAt(s, p, Dispatching) && s.clock <= now
    ensures var d, j := s.procs[p].document.id, s.procs[p].job.id;
            var r := T.MarkDispatchFailed(s.rows, d, j, now);
            r.Success? ==> DispatchFailed(r.value, d, j)
  {
    hide RowsOk, LogOk, FilesOk, PointsOk, ProcessesOk, T.MarkDispatchFailed;
    var d, j := s.procs[p].document.id, s.procs[p].job.id;
    ProcessFacts(preparer, s, p);
    LaterRows(s.rows, s.log, s.clock, now);
    MarkDispatchFailedOutcome(s.rows, s.log, now, d, j);
    if d in s.rows.docs && T.MarkDispatchFailed(s.rows, d, j, now).Success? {
      R.CoupledState(s.rows, s.log, s.clock, d);
      RowsAreKeyed(preparer, s);
      DispatchCodes(s.rows, d, j, now);
    }
  }

  lemma DispatchCodes(rows: Rows, d: DocumentId, j: JobId, now: Timestamp)
    requires T.MarkDispatchFailed(rows, d, j, now).Success?
    requires d in rows.docs && rows.docs[d].id == d && j in rows.jobs && rows.jobs[j].id == j
    ensures DispatchFailed(T.MarkDispatchFailed(rows, d, j, now).value, d, j)
  {
  }

  /** Nothing else raises: see `Open`. */
  datatype DeletionError = NotFound | InFlightConflict | CleanupFailed

  class DocumentDeletionService {
    const platform: Platform

    constructor (platform: Platform)
      ensures this.platform == platform
    {
      this.platform := platform;
    }

    ghost predicate At(p: ProcessId, documentId: DocumentId, pc: DeletePc)
      reads this, platform
    {
      && platform.Valid() && p in platform.procs && platform.procs[p].Delete?
      && platform.procs[p].documentId == documentId && platform.procs[p].deletePc == pc
    }

    /** The opening transaction: a READY or FAILED document enters DELETING and counts once; a
        DELETING one is picked up again. */
    method BeginDelete(documentId: DocumentId, now: Timestamp) returns (r: Result<(Document, set<JobId>), AppError>)
      requires platform.Keyed()
      modifies platform`docs, platform`revision
      ensures match T.BeginDelete(old(platform.Tables()), documentId, now)
              case Success((rows, document, jobs)) => r == Success((document, jobs)) && platform.Tables() == rows
              case Failure(error) => r == Failure(error) && platform.Tables() == old(platform.Tables())
    {
      if documentId !in platform.docs {
        return Failure(T.DocumentNotFound);
      }
      var document := platform.docs[documentId];
      if document.status != Deleting {
        if document.status != Ready && document.status != Failed {
          return Failure(T.DeletionConflict);
        }
        var deleting := document.MarkDeleting(now);
        if deleting.Failure? {
          return Failure(T.InvalidAggregate(deleting.error));
        }
        document := deleting.value;
        platform.SaveDocument(document);
        platform.IncrementRevision();
      }
      return Success((document, platform.Tables().JobIds(documentId)));
    }

    /** The opening transaction, and where it puts the request. */
    method TryOpen(p: ProcessId, documentId: DocumentId, now: Timestamp) returns (r: Result<(Document, set<JobId>), AppError>)
      requires platform.Keyed()
      modifies platform`docs, platform`revision, platform`clock, platform`log, platform`procs
      ensures platform.Current() == StartDeleteEffect(old(platform.Current()), p, documentId, now)
      ensures match T.BeginDelete(old(platform.Tables()), documentId, now)
              case Success((rows, document, jobs)) => r == Success((document, jobs)) && platform.Tables() == rows
              case Failure(error) => r == Failure(error)
    {
      hide T.BeginDelete;
      r := BeginDelete(documentId, now);
      platform.clock := now;
      if r.Success? {
        platform.log := Deleted(platform.log, documentId);
        platform.procs := platform.procs[p := Delete(documentId, r.value.0.storageKey, AfterCancel(r.value.1))];
      }
    }

    method Open(p: ProcessId, documentId: DocumentId) returns (r: Result<(Document, set<JobId>), AppError>)
      requires platform.Valid() && p !in platform.procs
      modifies platform
      ensures platform.trace == old(platform.trace) + [platform.Current()]
      ensures platform.Valid()
      ensures r.Success? ==> At(p, documentId, AfterCancel(r.value.1)) && platform.procs[p].storageKey == r.value.0.storageKey
      ensures r.Success? ==> documentId in platform.docs && r.value.0 == platform.docs[documentId] && r.value.0.status == Deleting
      ensures r.Failure? ==> p !in platform.procs
      ensures r == Failure(T.DocumentNotFound) ==> documentId !in platform.docs
      ensures r == Failure(T.DeletionConflict) ==>
                documentId in platform.docs && platform.docs[documentId].status in {Queued, Processing}
      ensures r.Failure? ==> r.error == T.DocumentNotFound || r.error == T.DeletionConflict
      ensures r.Success? ==> JobsOf(platform.jobs, documentId, r.value.1)
    {
      hide IsRun, T.BeginDelete, Safe, Enabled, Apply, StartDeleteEffect;
      platform.SafeNow();
      ghost var before := platform.Current();
      var now := platform.Now();
      r := TryOpen(p, documentId, now);
      BeginDeleteMeans(before, p, documentId, now);
      BeginDeleteFails(platform.preparer, before, documentId, now);
      DeleteBegins(platform.preparer, platform.regime, before, p, documentId, now);
      platform.Record(before, StartDelete(p, documentId, now));
    }

    /** A call of the queue, the index or the store fails: the request ends there. */
    method Abandon(p: ProcessId)
      requires platform.Valid() && p in platform.procs
      modifies platform
      ensures platform.Valid() && platform.trace == old(platform.trace) + [platform.Current()] && p !in platform.procs
    {
      hide IsRun;
      ghost var before := platform.Current();
      platform.procs := platform.procs - {p};
      platform.Record(before, Crash(p));
    }

    method Cancel(p: ProcessId, documentId: DocumentId, jobs: set<JobId>, j: JobId)
      requires At(p, documentId, Cancelling(jobs)) && j in jobs
      modifies platform
      ensures platform.trace == old(platform.trace) + [platform.Current()]
      ensures At(p, documentId, AfterCancel(jobs - {j})) && platform.procs[p].storageKey == old(platform.procs[p].storageKey)
      ensures j !in platform.queue
    {
      hide IsRun;
      ghost var before := platform.Current();
      platform.queue := platform.queue - {j};
      platform.procs := platform.procs[p := platform.procs[p].(deletePc := AfterCancel(jobs - {j}))];
      platform.Record(before, DeleteCancel(p, j));
    }

    /** A failed removal may have removed any of the points. */
    method DropVectors(p: ProcessId, documentId: DocumentId) returns (ok: bool)
      requires At(p, documentId, DroppingVectors)
      modifies platform
      ensures platform.trace == old(platform.trace) + [platform.Current()] && platform.Valid()
      ensures ok ==> At(p, documentId, DroppingFile) && platform.procs[p].storageKey == old(platform.procs[p].storageKey)
      ensures !ok ==> p !in platform.procs
    {
      hide IsRun;
      ghost var before := platform.Current();
      ok := *;
      var some: set<ChunkId> := *;
      var all := PointsOfDocument(platform.Current(), documentId);
      var removed := if ok then all else some * all;
      platform.points := platform.points - removed;
      platform.procs := if ok then platform.procs[p := platform.procs[p].(deletePc := DroppingFile)] else platform.procs - {p};
      platform.Record(before, DeleteVectors(p, removed, ok));
    }

    method DropFile(p: ProcessId, documentId: DocumentId) returns (ok: bool)
      requires At(p, documentId, DroppingFile)
      modifies platform
      ensures platform.trace == old(platform.trace) + [platform.Current()] && platform.Valid()
      ensures ok ==> At(p, documentId, DroppingRow)
      ensures !ok ==> p !in platform.procs
    {
      hide IsRun;
      ghost var before := platform.Current();
      ok := *;
      if ok {
        platform.files := platform.files - {platform.procs[p].storageKey};
        platform.procs := platform.procs[p := platform.procs[p].(deletePc := DroppingRow)];
      } else {
        platform.procs := platform.procs - {p};
      }
      platform.Record(before, DeleteFile(p, ok));
    }

    method DropRow(p: ProcessId, documentId: DocumentId)
      requires At(p, documentId, DroppingRow)
      modifies platform
      ensures platform.trace == old(platform.trace) + [platform.Current()] && platform.Valid()
      ensures p !in platform.procs && documentId !in platform.docs
    {
      hide IsRun;
      ghost var before := platform.Current();
      platform.DeleteDocument(documentId);
      platform.procs := platform.procs - {p};
      platform.Record(before, DeleteRow(p));
    }

    /** Withdrawing the queued jobs, one after the other. */
    method CancelJobs(p: ProcessId, documentId: DocumentId, jobs: set<JobId>) returns (ok: bool)
      requires At(p, documentId, AfterCancel(jobs))
      modifies platform
      ensures platform.Valid() && old(platform.trace) <= platform.trace
      ensures ok ==> At(p, documentId, DroppingVectors)
      ensures !ok ==> p !in platform.procs
      ensures ok ==> forall j :: j in jobs ==> OutOfQueue(platform.trace, |old(platform.trace)|, j)
    {
      hide IsRun;
      var left := jobs;
      while left != {}
        invariant At(p, documentId, AfterCancel(left)) && old(platform.trace) <= platform.trace
        invariant left <= jobs && forall j :: j in jobs && j !in left ==> OutOfQueue(platform.trace, |old(platform.trace)|, j)
        decreases |left|
      {
        ghost var cancelled := platform.trace;
        var j :| j in left;
        platform.Interfere(p);
        var reached: bool := *;
        if !reached {
          Abandon(p);
          return false;
        }
        Cancel(p, documentId, left, j);
        assert j !in platform.trace[|platform.trace| - 1].queue;
        StillOutOfQueue(cancelled, platform.trace, |old(platform.trace)|);
        left := left - {j};
      }
      return true;
    }

    /** Points, file, row, in this order. */
    method Remove(p: ProcessId, documentId: DocumentId) returns (ok: bool)
      requires At(p, documentId, DroppingVectors)
      modifies platform
      ensures platform.Valid() && old(platform.trace) <= platform.trace && p !in platform.procs
      ensures ok ==> documentId !in platform.docs
    {
      hide IsRun;
      platform.Interfere(p);
      ok := DropVectors(p, documentId);
      if !ok {
        return;
      }
      platform.Interfere(p);
      ok := DropFile(p, documentId);
      if !ok {
        return;
      }
      platform.Interfere(p);
      DropRow(p, documentId);
    }

    /** `delete`. The state goes through a run of the lifecycle. After a normal return the row is gone,
        its jobs were withdrawn from the queue on the way, and its jobs, chunks and file are gone, and
        its vector points too where an accepted job is reported as accepted. Each error says what the
        document was at an instant of the call. */
    method DeleteDocument(p: ProcessId, documentId: DocumentId) returns (r: Result<(), DeletionError>)
      requires platform.Valid() && p !in platform.procs
      modifies platform
      ensures platform.Valid() && old(platform.trace) <= platform.trace && p !in platform.procs
      ensures r.Success? ==> documentId !in platform.docs && LeftNoTrace(documentId, |old(platform.trace)|)
      ensures r.Success? ==> JobsWithdrawn(platform.trace, |old(platform.trace)|, documentId)
      ensures r.Failure? ==>
                match r.error
                case NotFound => AbsentDuring(platform.trace, |old(platform.trace)|, documentId)
                case InFlightConflict => HadStatusDuring(platform.trace, |old(platform.trace)|, documentId, {Queued, Processing})
                case CleanupFailed => HadStatusDuring(platform.trace, |old(platform.trace)|, documentId, {Deleting})
    {
      hide IsRun, LeftNoTrace, JobsOf;
      platform.Interfere(p);
      var opening := Open(p, documentId);
      ghost var begun := |platform.trace| - 1;
      assert platform.trace[begun].rows == platform.Tables();
      if opening.Failure? {
        return Failure(if opening.error == T.DocumentNotFound then NotFound else InFlightConflict);
      }
      assert documentId in platform.trace[begun].rows.docs && platform.trace[begun].rows.docs[documentId].status == Deleting;
      var cancelled := CancelJobs(p, documentId, opening.value.1);
      if !cancelled {
        return Failure(CleanupFailed);
      }
      ghost var withdrawn := platform.trace;
      var removed := Remove(p, documentId);
      if !removed {
        return Failure(CleanupFailed);
      }
      NothingIsLeft(documentId, |old(platform.trace)|, begun);
      StillOutOfQueue(withdrawn, platform.trace, begun + 1);
      AllWithdrawn(platform.trace, |old(platform.trace)|, begun, documentId, opening.value.1);
      return Success(());
    }

    /** No job or chunk of the document, not the file it had when deletion began, and no vector point
        unless an accepted job may go unreported. */
    ghost predicate LeftNoTrace(documentId: DocumentId, since: nat)
      reads this, platform
    {
      && (forall j :: j in platform.jobs ==> platform.jobs[j].documentId != documentId)
      && (forall c :: c in platform.chunks ==> platform.chunks[c].documentId != documentId)
      && (!platform.regime.lostEnqueue ==> forall c :: c in platform.points ==> platform.points[c].documentId != documentId)
      && exists i :: since <= i < |platform.trace| && FileGone(platform.trace[i].rows, platform.files, documentId)
    }

    lemma NothingIsLeft(documentId: DocumentId, since: nat, begun: nat)
      requires platform.Valid() && since <= begun < |platform.trace|
      requires documentId in platform.trace[begun].rows.docs && documentId !in platform.docs
      ensures LeftNoTrace(documentId, since)
    {
      hide IsRun;
      var last := |platform.trace| - 1;
      DeletionIsFinal(platform.preparer, platform.regime, platform.trace, documentId, begun, last, last);
      assert FileGone(platform.trace[begun].rows, platform.files, documentId);
    }
  }

  ghost predicate JobsOf(jobs: map<JobId, IngestionJob>, documentId: DocumentId, ids: set<JobId>) {
    forall j :: j in ids <==> j in jobs && jobs[j].documentId == documentId
  }

  ghost predicate OutOfQueue(trace: seq<State>, since: nat, j: JobId) {
    exists k :: since <= k < |trace| && j !in trace[k].queue
  }

  lemma StillOutOfQueue(trace: seq<State>, longer: seq<State>, since: nat)
    requires trace <= longer
    ensures forall j :: OutOfQueue(trace, since, j) ==> OutOfQueue(longer, since, j)
  {
    forall j | OutOfQueue(trace, since, j) ensures OutOfQueue(longer, since, j) {
      var k :| since <= k < |trace| && j !in trace[k].queue;
      assert longer[k] == trace[k];
    }
  }

  ghost predicate AbsentDuring(trace: seq<State>, since: nat, documentId: DocumentId) {
    exists i :: since <= i < |trace| && documentId !in trace[i].rows.docs
  }

  ghost predicate HadStatusDuring(trace: seq<State>, since: nat, documentId: DocumentId, statuses: set<DocumentStatus>) {
    exists i :: since <= i < |trace| && documentId in trace[i].rows.docs && trace[i].rows.docs[documentId].status in statuses
  }

  /** The document was DELETING at an instant, and each job it had then was out of the queue at a
      later one. */
  ghost predicate JobsWithdrawn(trace: seq<State>, since: nat, documentId: DocumentId) {
    exists i :: since <= i < |trace| && documentId in trace[i].rows.docs && trace[i].rows.docs[documentId].status == Deleting
                && forall j :: j in trace[i].rows.jobs && trace[i].rows.jobs[j].documentId == documentId ==> OutOfQueue(trace, i + 1, j)
  }

  lemma AllWithdrawn(trace: seq<State>, since: nat, i: nat, documentId: DocumentId, ids: set<JobId>)
    requires since <= i < |trace| && documentId in trace[i].rows.docs && trace[i].rows.docs[documentId].status == Deleting
    requires JobsOf(trace[i].rows.jobs, documentId, ids) && forall j :: j in ids ==> OutOfQueue(trace, i + 1, j)
    ensures JobsWithdrawn(trace, since, documentId)
  {
    hide OutOfQueue;
  }

  /** Deletion fails to begin only for a missing document and for one in flight. */
  lemma BeginDeleteFails(preparer: Preparer, s: State, d: DocumentId, now: Timestamp)
    requires Safe(preparer, s) && s.clock <= now
    ensures match T.BeginDelete(s.rows, d, now)
            case Failure(error) =>
              || error == T.DocumentNotFound
              || (error == T.DeletionConflict && d in s.rows.docs && s.rows.docs[d].status in {Queued, Processing})
            case Success((rows, _, jobs)) => rows.jobs == s.rows.jobs && JobsOf(rows.jobs, d, jobs)
  {
    hide RowsOk, LogOk, FilesOk, PointsOk, ProcessesOk;
    LaterRows(s.rows, s.log, s.clock, now);
    DeleteOutcomeOf(s.rows, s.log, now, d);
    if d in s.rows.docs { R.CoupledState(s.rows, s.log, now, d); }
  }

  lemma DeleteOutcomeOf(rows: Rows, log: Log, now: Timestamp, d: DocumentId)
    requires RowsOk(rows, log, now)
    ensures T.BeginDelete(rows, d, now).Success? <==> d in rows.docs && rows.docs[d].status in {Ready, Failed, Deleting}
  {
    hide ChunksOk, UniqueHashes, DocumentsOk, JobsOk, T.BeginDelete;
    BeginDeleteOutcome(rows, log, now, d);
  }

  predicate FileGone(rows: Rows, files: map<StorageKey, Bytes>, documentId: DocumentId) {
    documentId in rows.docs && rows.docs[documentId].storageKey !in files
  }

  lemma BeginDeleteMeans(s: State, p: ProcessId, d: DocumentId, now: Timestamp)
    requires p !in s.procs && (d in s.rows.docs ==> s.rows.docs[d].id == d)
    ensures var r, s' := T.BeginDelete(s.rows, d, now), StartDeleteEffect(s, p, d, now);
            && (match r
                case Success((rows, document, jobs)) =>
                  && d in s'.rows.docs && document == s'.rows.docs[d] && document.status == Deleting
                  && p in s'.procs && s'.procs[p] == Delete(d, document.storageKey, AfterCancel(jobs))
                case Failure(error) => p !in s'.procs && s'.rows == s.rows)
            && (r == Failure(T.DocumentNotFound) ==> d !in s.rows.docs)
            && (r == Failure(T.DeletionConflict) ==> d in s.rows.docs && s.rows.docs[d].status !in {Ready, Failed, Deleting})
  {
  }
}
