/** IngestionJobProcessor (application/ingestion.py) in the form of the program. */
module IngestionService {
  import opened Results
  import opened Domain
  import T = Transactions
  import opened Lifecycle
  import opened LifecycleSafety
  import opened LifecycleSteps
  import R = LifecycleResults
  import G = LifecycleGuarantees
  import opened Platform

  type Rows = T.Rows
  type AppError = T.AppError
  type FailureCause = T.FailureCause

  /** There was nothing to do, or it is done: the job's document is going away, or it is READY. */
  predicate Settled(rows: Rows, jobId: JobId) {
    && jobId in rows.jobs && rows.jobs[jobId].documentId in rows.docs
    && var job, document := rows.jobs[jobId], rows.docs[rows.jobs[jobId].documentId];
    && (document.status == Deleting || (job.status == Succeeded && document.status == Ready))
  }

  /** At one of the instants from `since` on. */
  ghost predicate SettledDuring(trace: seq<State>, since: nat, jobId: JobId) {
    exists i :: since <= i < |trace| && Settled(trace[i].rows, jobId)
  }

  predicate JobInFlight(rows: Rows, jobId: JobId) {
    jobId in rows.jobs && InFlight(rows, rows.jobs[jobId].documentId)
  }

  /** The document is FAILED and its job broken, both with this code. */
  predicate FailedWith(rows: Rows, jobId: JobId, code: string) {
    && jobId in rows.jobs && rows.jobs[jobId].documentId in rows.docs
    && var job, document := rows.jobs[jobId], rows.docs[rows.jobs[jobId].documentId];
    && job.status == Broken && job.failureCode == Some(code)
    && document.status == Failed && document.failureCode == Some(code)
  }

  /** What recording the failure of a job does to the rows. */
  predicate Recorded(rows: Rows, rows': Rows, jobId: JobId, cause: FailureCause) {
    && !JobInFlight(rows', jobId)
    && (JobInFlight(rows, jobId) ==> FailedWith(rows', jobId, T.FailureCode(cause)))
  }

  /** Worker p itself starts its job, which counts one attempt more. */
  predicate Started(s: State, s': State, p: ProcessId, jobId: JobId) {
    && p in s.procs && s.procs[p] == Worker(jobId, Starting)
    && JobInFlight(s'.rows, jobId)
    && p in s'.procs && s'.procs[p] == Worker(jobId, Reading(s'.rows.jobs[jobId].documentId))
    && jobId in s.rows.jobs && s'.rows.jobs[jobId].attemptCount == s.rows.jobs[jobId].attemptCount + 1
    && s'.rows.jobs[jobId].startedAt == Some(s'.clock)
  }

  /** Worker p itself takes the step from its failure path to its cleanup, recording this failure.
      Where enqueues and READY commits are reported, the job is still in flight before that. */
  predicate RecordsFailure(regime: Regime, s: State, s': State, p: ProcessId, jobId: JobId, cause: FailureCause) {
    && p in s.procs && s.procs[p].Worker? && s.procs[p].workerPc.Failing?
    && s.procs[p] == Worker(jobId, Failing(s.procs[p].workerPc.documentId, cause))
    && p in s'.procs && s'.procs[p] == Worker(jobId, Cleaning(s.procs[p].workerPc.documentId))
    && Recorded(s.rows, s'.rows, jobId, cause)
    && (!regime.lostEnqueue && !regime.lostCommit ==>
          JobInFlight(s.rows, jobId) && FailedWith(s'.rows, jobId, T.FailureCode(cause)))
  }

  /** The step to instant k, one of those from `since` on, is worker p recording the failure. */
  ghost predicate RecordedDuring(regime: Regime, trace: seq<State>, since: nat, p: ProcessId, jobId: JobId, cause: FailureCause) {
    exists k :: 0 < k && since <= k < |trace| && RecordsFailure(regime, trace[k - 1], trace[k], p, jobId, cause)
  }

  /** Worker p started the job by the step to instant i, and recorded the failure by its step to a later
      instant k. */
  ghost predicate FailedDuring(regime: Regime, trace: seq<State>, since: nat, p: ProcessId, jobId: JobId, cause: FailureCause) {
    exists i, k :: 0 < i && since <= i < k < |trace| && Started(trace[i - 1], trace[i], p, jobId)
                   && RecordsFailure(regime, trace[k - 1], trace[k], p, jobId, cause)
  }

  /** The job was missing, or in flight with another worker, at an instant from `since` on. */
  ghost predicate UnstartableDuring(trace: seq<State>, since: nat, jobId: JobId, error: AppError) {
    || (error == T.JobNotFound && exists i :: since <= i < |trace| && jobId !in trace[i].rows.jobs)
    || (error == T.Inconsistent && exists i :: since <= i < |trace| && JobInFlight(trace[i].rows, jobId))
  }

  class IngestionJobProcessor {
    const platform: Platform

    constructor (platform: Platform)
      ensures this.platform == platform
    {
      this.platform := platform;
    }

    /** `_start_job` */
    method StartJob(jobId: JobId, now: Timestamp) returns (r: Result<Option<DocumentId>, AppError>)
      requires platform.Keyed()
      modifies platform`docs, platform`jobs, platform`chunks, platform`revision
      ensures match T.StartJob(old(platform.Tables()), jobId, now)
              case Success((rows, started)) => r == Success(started) && platform.Tables() == rows
              case Failure(error) => r == Failure(error) && platform.Tables() == old(platform.Tables())
    {
      var saved := platform.Tables();
      if jobId !in platform.jobs {
        return Failure(T.JobNotFound);
      }
      var job := platform.jobs[jobId];
      if job.documentId !in platform.docs {
        return Failure(T.DocumentNotFound);
      }
      var document := platform.docs[job.documentId];
      if document.status == Deleting {
        return Success(None);
      }
      if job.status == Succeeded && document.status == Ready {
        return Success(None);
      }
      if job.status == Broken && document.status == Failed {
        job :- T.Lift(job.Requeue(now));
        document :- T.Lift(document.Queue(now));
      }
      if job.status != Waiting || document.status != Queued {
        return Failure(T.Inconsistent);
      }
      var processing := document.StartProcessing(now);
      if processing.Failure? {
        return Failure(T.InvalidAggregate(processing.error));
      }
      platform.SaveDocument(processing.value);
      var running := job.Start(now);
      if running.Failure? {
        platform.Rollback(saved);
        return Failure(T.InvalidAggregate(running.error));
      }
      platform.SaveJob(running.value);
      return Success(Some(document.id));
    }

    /** `_mark_failed` */
    method MarkFailed(documentId: DocumentId, jobId: JobId, code: string, now: Timestamp) returns (r: Result<(), AppError>)
      requires platform.Keyed()
      modifies platform`docs, platform`jobs, platform`chunks, platform`revision
      ensures match T.MarkFailed(old(platform.Tables()), documentId, jobId, code, now)
              case Success(rows) => r == Success(()) && platform.Tables() == rows
              case Failure(error) => r == Failure(error) && platform.Tables() == old(platform.Tables())
    {
      var saved := platform.Tables();
      if documentId in platform.docs && platform.docs[documentId].status == Processing {
        var failed := platform.docs[documentId].MarkFailed(code, now);
        if failed.Failure? {
          return Failure(T.InvalidAggregate(failed.error));
        }
        platform.SaveDocument(failed.value);
      }
      if jobId in platform.jobs && platform.jobs[jobId].status == Running {
        var failed := platform.jobs[jobId].Fail(code, now);
        if failed.Failure? {
          platform.Rollback(saved);
          return Failure(T.InvalidAggregate(failed.error));
        }
        platform.SaveJob(failed.value);
      }
      return Success(());
    }

    /** Marking document and job done, and saving both; what a raise has saved is rolled back by the
        transaction around it. */
    method SaveReady(document: Document, job: IngestionJob, now: Timestamp) returns (r: Result<(), AppError>)
      requires document.id in platform.docs && job.id in platform.jobs
      modifies platform`docs, platform`jobs
      ensures match T.ReadyPair(document, job, now)
              case Success((ready, succeeded)) => r == Success(()) && platform.Tables() == old(platform.Tables()).Save(ready, succeeded)
              case Failure(error) => r == Failure(error)
    {
      var ready := document.MarkReady(now);
      if ready.Failure? {
        return Failure(T.InvalidAggregate(ready.error));
      }
      platform.SaveDocument(ready.value);
      var succeeded := job.Succeed(now);
      if succeeded.Failure? {
        return Failure(T.InvalidAggregate(succeeded.error));
      }
      platform.SaveJob(succeeded.value);
      return Success(());
    }

    /** The closing transaction of `process`. */
    method CommitReady(documentId: DocumentId, jobId: JobId, chunks: seq<Chunk>, now: Timestamp) returns (r: Result<(), AppError>)
      requires T.Prepared(documentId, chunks)
      requires platform.Keyed()
      modifies platform`docs, platform`jobs, platform`chunks, platform`revision
      ensures match T.CommitReady(old(platform.Tables()), documentId, jobId, chunks, now)
              case Success(rows) => r == Success(()) && platform.Tables() == rows
              case Failure(error) => r.Failure? && platform.Tables() == old(platform.Tables())
    {
      hide T.Prepared, T.ChunkRows, T.ReadyPair;
      var saved := platform.Tables();
      if documentId !in platform.docs {
        return Failure(T.DocumentNotFound);
      }
      if jobId !in platform.jobs {
        return Failure(T.JobNotFound);
      }
      var storedDocument := platform.docs[documentId];
      var storedJob := platform.jobs[jobId];
      platform.DeleteChunksFor(documentId);
      var added := platform.AddChunks(documentId, chunks);
      if !added {
        platform.Rollback(saved);
        return Failure(T.UniqueViolation);
      }
      var saves := SaveReady(storedDocument, storedJob, now);
      if saves.Failure? {
        platform.Rollback(saved);
        return saves;
      }
      platform.IncrementRevision();
      return Success(());
    }

    /** Where process p is. */
    ghost predicate At(p: ProcessId, jobId: JobId, pc: WorkerPc)
      reads this, platform
    {
      platform.Valid() && p in platform.procs && platform.procs[p] == Worker(jobId, pc)
    }

    ghost predicate Left(p: ProcessId)
      reads this, platform
    {
      platform.Valid() && p !in platform.procs
    }

    /** The opening transaction, and where it puts the process. */
    method TryStart(p: ProcessId, jobId: JobId, now: Timestamp) returns (r: Result<Option<DocumentId>, AppError>)
      requires platform.Keyed() && p in platform.procs && platform.procs[p] == Worker(jobId, Starting)
      modifies platform`docs, platform`jobs, platform`chunks, platform`revision, platform`clock, platform`procs
      ensures platform.Current() == StartEffect(old(platform.Current()), p, now)
      ensures match T.StartJob(old(platform.Tables()), jobId, now)
              case Success((_, started)) => r == Success(started)
              case Failure(error) => r == Failure(error)
    {
      hide T.StartJob, Settled;
      NothingToDo(platform.Tables(), jobId, now);
      r := StartJob(jobId, now);
      platform.clock := now;
      platform.procs := if r.Success? && r.value.Some? then platform.procs[p := Worker(jobId, Reading(r.value.value))]
                        else platform.procs - {p};
    }

    /** The opening transaction as one step of the process. */
    method Begin(p: ProcessId, jobId: JobId) returns (r: Result<Option<DocumentId>, AppError>)
      requires At(p, jobId, Starting)
      modifies platform
      ensures platform.trace == old(platform.trace) + [platform.Current()]
      ensures r.Success? && r.value.Some? ==> At(p, jobId, Reading(r.value.value))
      ensures !(r.Success? && r.value.Some?) ==> Left(p)
      ensures r == Success(None) ==> Settled(platform.Tables(), jobId)
      ensures r.Success? && r.value.Some? ==> Started(old(platform.Current()), platform.Current(), p, jobId)
      ensures r.Failure? ==>
                || (r.error == T.JobNotFound && jobId !in platform.jobs)
                || (r.error == T.Inconsistent && JobInFlight(platform.Tables(), jobId))
    {
      hide T.StartJob, IsRun, Safe, Settled, Started, Enabled, Apply, StartEffect, JobInFlight;
      platform.SafeNow();
      ghost var before := platform.Current();
      var now := platform.Now();
      r := TryStart(p, jobId, now);
      StartMeans(before, p, now);
      StartFails(platform.preparer, before, p, now);
      WorkerSteps(platform.preparer, platform.regime, before, p, now);
      platform.Record(before, WorkerStart(p, now));
    }

    method ReadDocument(p: ProcessId, jobId: JobId, documentId: DocumentId) returns (document: Option<Document>)
      requires At(p, jobId, Reading(documentId))
      modifies platform
      ensures platform.trace == old(platform.trace) + [platform.Current()]
      ensures document.Some? ==> document.value.id == documentId && At(p, jobId, Preparing(document.value))
      ensures document.None? ==> At(p, jobId, Failing(documentId, T.Unexpected))
    {
      hide IsRun, Safe;
      platform.SafeNow();
      ghost var before := platform.Current();
      var ok: bool := *;
      document := if ok && documentId in platform.docs then Some(platform.docs[documentId]) else None;
      platform.procs := platform.procs[p := Worker(jobId, if document.Some? then Preparing(document.value)
                                                          else Failing(documentId, T.Unexpected))];
      platform.Record(before, WorkerRead(p, ok));
    }

    /** Opening the file, preparing the content, embedding, setting up the collection. */
    method PrepareContent(p: ProcessId, jobId: JobId, document: Document) returns (r: Result<seq<Chunk>, FailureCause>)
      requires At(p, jobId, Preparing(document))
      modifies platform
      ensures platform.trace == old(platform.trace) + [platform.Current()]
      ensures match r
              case Success(chunks) => At(p, jobId, Upserting(document, chunks))
              case Failure(cause) => At(p, jobId, Failing(document.id, cause))
    {
      ghost var before := platform.Current();
      var failure: Option<FailureCause> := *;
      if failure.Some? {
        r := Failure(failure.value);
      } else if document.storageKey !in platform.files {
        r := Failure(T.Unexpected);
      } else {
        var prepared := platform.preparer.run(document.id, document.mediaType, platform.files[document.storageKey]);
        r := if prepared.Success? then Success(prepared.value) else Failure(T.Rejected(prepared.error));
      }
      platform.procs := platform.procs[p := Worker(jobId, if r.Success? then Upserting(document, r.value)
                                                          else Failing(document.id, r.error))];
      platform.Record(before, WorkerPrepare(p, failure));
    }

    /** A failed upsert may have written any of its points. */
    method Upsert(p: ProcessId, jobId: JobId, document: Document, chunks: seq<Chunk>) returns (ok: bool)
      requires At(p, jobId, Upserting(document, chunks)) && T.Prepared(document.id, chunks)
      modifies platform
      ensures platform.trace == old(platform.trace) + [platform.Current()]
      ensures ok ==> At(p, jobId, Committing(document, chunks))
      ensures !ok ==> At(p, jobId, Failing(document.id, T.VectorIndexFailed))
    {
      hide T.ChunkRows, T.Prepared, IsRun;
      ghost var before := platform.Current();
      ok := *;
      var some: set<ChunkId> := *;
      var all := T.ChunkRows(document.id, chunks).Keys;
      var applied := if ok then all else some * all;
      platform.points := platform.points + Upserted(document, chunks, applied);
      platform.procs := platform.procs[p := Worker(jobId, if ok then Committing(document, chunks)
                                                          else Failing(document.id, T.VectorIndexFailed))];
      platform.Record(before, WorkerUpsert(p, applied, ok));
    }

    /** The closing transaction and the database's answer to its commit. */
    method TryCommit(documentId: DocumentId, jobId: JobId, chunks: seq<Chunk>, now: Timestamp, ack: Ack) returns (applied: bool)
      requires T.Prepared(documentId, chunks) && platform.Keyed()
      modifies platform`docs, platform`jobs, platform`chunks, platform`revision, platform`log
      ensures var r := T.CommitReady(old(platform.Tables()), documentId, jobId, chunks, now);
              && (applied <==> r.Success? && ack != Refused)
              && (applied ==> platform.Tables() == r.value && platform.log == Readied(old(platform.log), documentId))
              && (!applied ==> platform.Tables() == old(platform.Tables()) && platform.log == old(platform.log))
    {
      hide T.CommitReady, T.Prepared;
      var saved := platform.Tables();
      var r := CommitReady(documentId, jobId, chunks, now);
      if r.Success? && ack == Refused {
        platform.Rollback(saved);
      }
      applied := r.Success? && ack != Refused;
      if applied {
        platform.log := Readied(platform.log, documentId);
      }
    }

    /** The closing transaction as one step; the commit itself may fail, or, where the regime loses
        such answers, fail for the client only. */
    method Commit(p: ProcessId, jobId: JobId, document: Document, chunks: seq<Chunk>) returns (ok: bool)
      requires At(p, jobId, Committing(document, chunks)) && T.Prepared(document.id, chunks)
      modifies platform
      ensures platform.trace == old(platform.trace) + [platform.Current()]
      ensures ok ==> Left(p) && Settled(platform.Tables(), jobId)
      ensures !ok ==> At(p, jobId, Failing(document.id, T.Unexpected))
    {
      hide T.CommitReady, T.Prepared, IsRun, Safe, Settled, Enabled, Apply;
      platform.SafeNow();
      ghost var before := platform.Current();
      var ack: Ack := *;
      if ack == Unacknowledged && !platform.regime.lostCommit {
        ack := Acknowledged;
      }
      var now := platform.Now();
      var applied := TryCommit(document.id, jobId, chunks, now, ack);
      ok := applied && ack == Acknowledged;
      platform.clock := now;
      platform.procs := if ok then platform.procs - {p}
                        else platform.procs[p := Worker(jobId, Failing(document.id, T.Unexpected))];
      if ok { CommitSettles(platform.preparer, before, p, now); }
      CommitStep(platform.preparer, platform.regime, before, platform.Current(), p, ack, now);
      platform.Record(before, WorkerCommit(p, ack, now));
    }

    /** `_mark_failed` as one step. */
    method RecordFailure(p: ProcessId, jobId: JobId, documentId: DocumentId, cause: FailureCause) returns (r: Result<(), AppError>)
      requires At(p, jobId, Failing(documentId, cause))
      modifies platform
      ensures platform.trace == old(platform.trace) + [platform.Current()]
      ensures r.Success? && At(p, jobId, Cleaning(documentId))
      ensures RecordsFailure(platform.regime, old(platform.Current()), platform.Current(), p, jobId, cause)
    {
      hide T.MarkFailed, T.FailureCode, IsRun, Safe, JobInFlight, RecordsFailure, Enabled, Apply;
      platform.SafeNow();
      StillInFlight(p, jobId, documentId, cause);
      ghost var before := platform.Current();
      var now := platform.Now();
      r := MarkFailed(documentId, jobId, T.FailureCode(cause), now);
      NeverRaises(platform.preparer, platform.regime, before, p, now);
      platform.clock := now;
      platform.procs := platform.procs[p := Worker(jobId, Cleaning(documentId))];
      assert platform.Current() == MarkFailedEffect(before, p, now);
      WorkerSteps(platform.preparer, platform.regime, before, p, now);
      platform.Record(before, WorkerMarkFailed(p, now));
    }

    /** Where enqueues and READY commits are reported, a worker in its failure path still owns its
        document. */
    lemma StillInFlight(p: ProcessId, jobId: JobId, documentId: DocumentId, cause: FailureCause)
      requires At(p, jobId, Failing(documentId, cause))
      ensures !platform.regime.lostEnqueue && !platform.regime.lostCommit ==> JobInFlight(platform.Tables(), jobId)
    {
      hide IsRun, Safe;
      RunsBegin(platform.preparer, platform.regime, platform.trace);
      if !platform.regime.lostEnqueue && !platform.regime.lostCommit {
        G.SoleOwner(platform.preparer, platform.regime, platform.trace, |platform.trace| - 1, p, documentId);
        platform.SafeNow();
        OwnedIsInFlight(platform.preparer, platform.Current(), p, documentId);
      }
    }

    /** Removing the document's points; an index error on the way is swallowed. */
    method DropPoints(p: ProcessId, jobId: JobId, documentId: DocumentId)
      requires At(p, jobId, Cleaning(documentId))
      modifies platform
      ensures platform.trace == old(platform.trace) + [platform.Current()]
      ensures Left(p)
    {
      ghost var before := platform.Current();
      var some: set<ChunkId> := *;
      var removed := some * PointsOfDocument(platform.Current(), documentId);
      platform.points := platform.points - removed;
      platform.procs := platform.procs - {p};
      platform.Record(before, WorkerCleanup(p, removed));
    }

    /** Reading and preparing; the first half of the try block. */
    method Gather(p: ProcessId, jobId: JobId, documentId: DocumentId) returns (r: Result<(Document, seq<Chunk>), FailureCause>)
      requires At(p, jobId, Reading(documentId)) && platform.preparer.Valid()
      modifies platform
      ensures old(platform.trace) <= platform.trace
      ensures r.Failure? ==> At(p, jobId, Failing(documentId, r.error))
      ensures r.Success? ==> r.value.0.id == documentId && T.Prepared(documentId, r.value.1)
                             && At(p, jobId, Upserting(r.value.0, r.value.1))
    {
      hide IsRun, T.Prepared;
      platform.Interfere(p);
      var document := ReadDocument(p, jobId, documentId);
      if document.None? {
        return Failure(T.Unexpected);
      }
      platform.Interfere(p);
      var prepared := PrepareContent(p, jobId, document.value);
      if prepared.Failure? {
        return Failure(prepared.error);
      }
      PreparedHere(p, jobId, document.value, prepared.value);
      return Success((document.value, prepared.value));
    }

    /** The try block of `process`: None once the READY commit is through, else the failure. */
    method Attempt(p: ProcessId, jobId: JobId, documentId: DocumentId) returns (failure: Option<FailureCause>)
      requires At(p, jobId, Reading(documentId)) && platform.preparer.Valid()
      modifies platform
      ensures old(platform.trace) <= platform.trace
      ensures failure.None? ==> Left(p) && SettledDuring(platform.trace, |old(platform.trace)|, jobId)
      ensures failure.Some? ==> At(p, jobId, Failing(documentId, failure.value))
    {
      hide IsRun, T.Prepared, Settled;
      var gathered := Gather(p, jobId, documentId);
      if gathered.Failure? {
        return Some(gathered.error);
      }
      var (document, chunks) := gathered.value;
      platform.Interfere(p);
      var indexed := Upsert(p, jobId, document, chunks);
      if !indexed {
        return Some(T.VectorIndexFailed);
      }
      platform.Interfere(p);
      var committed := Commit(p, jobId, document, chunks);
      if !committed {
        return Some(T.Unexpected);
      }
      assert Settled(platform.trace[|platform.trace| - 1].rows, jobId);
      return None;
    }

    /** The except block: record the failure, then remove the points. */
    method HandleFailure(p: ProcessId, jobId: JobId, documentId: DocumentId, cause: FailureCause)
      requires At(p, jobId, Failing(documentId, cause))
      modifies platform
      ensures Left(p) && old(platform.trace) <= platform.trace
      ensures RecordedDuring(platform.regime, platform.trace, |old(platform.trace)|, p, jobId, cause)
    {
      hide IsRun, RecordsFailure;
      platform.Interfere(p);
      ghost var k := |platform.trace|;
      RunsBegin(platform.preparer, platform.regime, platform.trace);
      assert platform.trace[k - 1] == platform.Current();
      var recorded := RecordFailure(p, jobId, documentId, cause);
      assert RecordsFailure(platform.regime, platform.trace[k - 1], platform.trace[k], p, jobId, cause);
      platform.Interfere(p);
      DropPoints(p, jobId, documentId);
      assert RecordsFailure(platform.regime, platform.trace[k - 1], platform.trace[k], p, jobId, cause);
    }

    /** A worker past its preparation holds prepared chunks. */
    lemma PreparedHere(p: ProcessId, jobId: JobId, document: Document, chunks: seq<Chunk>)
      requires At(p, jobId, Upserting(document, chunks)) && platform.preparer.Valid()
      ensures T.Prepared(document.id, chunks)
    {
      hide Safe;
      platform.SafeNow();
      ProcessFacts(platform.preparer, platform.Current(), p);
    }

    /** `process`, from delivery to return. Whatever happens around it, the state goes through a run
        of the lifecycle. A normal return means that at some instant of the call the job was settled.
        A call that cannot start the job raises because the job was missing or in flight already. When
        it raises after it started the job, which counted one attempt more, a later step of
        this very call recorded the failure: after that step the job is no longer in flight, and if it
        was until then, document and job are FAILED with the code of this failure. Where enqueues and
        READY commits are reported, it always was. */
    method Process(p: ProcessId, jobId: JobId) returns (r: Result<(), ProcessError>)
      requires At(p, jobId, Starting) && platform.preparer.Valid()
      modifies platform
      ensures Left(p) && old(platform.trace) <= platform.trace
      ensures r.Success? ==> SettledDuring(platform.trace, |old(platform.trace)|, jobId)
      ensures r.Failure? ==>
                match r.error
                case NotStarted(error) => UnstartableDuring(platform.trace, |old(platform.trace)|, jobId, error)
                case NotIngested(cause) => FailedDuring(platform.regime, platform.trace, |old(platform.trace)|, p, jobId, cause)
    {
      hide IsRun, Settled, Started, RecordsFailure, JobInFlight;
      platform.Interfere(p);
      RunsBegin(platform.preparer, platform.regime, platform.trace);
      ghost var i := |platform.trace|;
      assert platform.trace[i - 1] == platform.Current();
      var started := Begin(p, jobId);
      if started.Failure? {
        assert platform.trace[i].rows == platform.Tables();
        return Failure(NotStarted(started.error));
      }
      if started.value.None? {
        assert Settled(platform.trace[|platform.trace| - 1].rows, jobId);
        return Success(());
      }
      assert Started(platform.trace[i - 1], platform.trace[i], p, jobId);
      var documentId := started.value.value;
      var failure := Attempt(p, jobId, documentId);
      if failure.None? {
        return Success(());
      }
      HandleFailure(p, jobId, documentId, failure.value);
      return Failure(NotIngested(failure.value));
    }
  }

  datatype ProcessError = NotStarted(error: AppError) | NotIngested(cause: FailureCause)

  lemma NothingToDo(rows: Rows, jobId: JobId, now: Timestamp)
    ensures var r := T.StartJob(rows, jobId, now);
            r.Success? && r.value.1.None? ==> r.value.0 == rows && Settled(rows, jobId)
  {
  }

  /** What the opening transaction makes of worker p. */
  lemma StartMeans(s: State, p: ProcessId, now: Timestamp)
    requires p in s.procs && s.procs[p].Worker? && s.procs[p].workerPc == Starting
    requires forall d :: d in s.rows.docs ==> s.rows.docs[d].id == d
    requires forall j :: j in s.rows.jobs ==> s.rows.jobs[j].id == j
    ensures var s', j := StartEffect(s, p, now), s.procs[p].jobId;
            match T.StartJob(s.rows, j, now)
            case Success((_, Some(d))) => p in s'.procs && s'.procs[p] == Worker(j, Reading(d)) && Started(s, s', p, j)
            case Success((_, None)) => p !in s'.procs && Settled(s'.rows, j)
            case Failure(_) => p !in s'.procs && s'.rows == s.rows
  {
    hide T.StartJob, Settled, JobInFlight;
    NothingToDo(s.rows, s.procs[p].jobId, now);
    StartsInFlight(s.rows, s.procs[p].jobId, now);
  }

  /** A job fails to start only when it is missing, or in flight already. */
  lemma StartFails(preparer: Preparer, s: State, p: ProcessId, now: Timestamp)
    requires Safe(preparer, s) && p in s.procs && s.procs[p].Worker? && s.clock <= now
    ensures var j := s.procs[p].jobId;
            match T.StartJob(s.rows, j, now)
            case Failure(error) =>
              (error == T.JobNotFound && j !in s.rows.jobs) || (error == T.Inconsistent && JobInFlight(s.rows, j))
            case _ => true
  {
    hide RowsOk, LogOk, FilesOk, PointsOk, ProcessesOk, T.StartJob;
    LaterRows(s.rows, s.log, s.clock, now);
    StartVerdict(s.rows, s.log, now, s.procs[p].jobId);
  }

  lemma StartVerdict(rows: Rows, log: Log, now: Timestamp, j: JobId)
    requires RowsOk(rows, log, now)
    ensures match T.StartJob(rows, j, now)
            case Failure(error) => (error == T.JobNotFound && j !in rows.jobs) || (error == T.Inconsistent && JobInFlight(rows, j))
            case _ => true
  {
    hide DocumentsOk, JobsOk, ChunksOk, UniqueHashes, T.StartJob;
    StartJobOutcome(rows, log, now, j);
    if j in rows.jobs { R.CoupledState(rows, log, now, rows.jobs[j].documentId); }
  }

  /** The opening and the failure transaction are one action each. */
  lemma WorkerSteps(preparer: Preparer, regime: Regime, s: State, p: ProcessId, now: Timestamp)
    requires p in s.procs && s.procs[p].Worker? && s.clock <= now
    ensures s.procs[p].workerPc == Starting ==>
              Enabled(regime, s, WorkerStart(p, now)) && StartEffect(s, p, now) == Apply(preparer, regime, s, WorkerStart(p, now))
    ensures s.procs[p].workerPc.Failing? ==>
              Enabled(regime, s, WorkerMarkFailed(p, now))
              && MarkFailedEffect(s, p, now) == Apply(preparer, regime, s, WorkerMarkFailed(p, now))
  {
    hide StartEffect, MarkFailedEffect;
  }

  lemma StartsInFlight(rows: Rows, jobId: JobId, now: Timestamp)
    requires jobId in rows.jobs ==> rows.jobs[jobId].id == jobId
    requires forall d :: d in rows.docs ==> rows.docs[d].id == d
    ensures var r := T.StartJob(rows, jobId, now);
            r.Success? && r.value.1.Some? ==>
              && JobInFlight(r.value.0, jobId) && r.value.1.value == r.value.0.jobs[jobId].documentId
              && jobId in rows.jobs && r.value.0.jobs[jobId].attemptCount == rows.jobs[jobId].attemptCount + 1
              && r.value.0.jobs[jobId].startedAt == Some(now)
  {
  }

  /** The closing transaction with the answer to its commit is one action. */
  lemma CommitStep(preparer: Preparer, regime: Regime, s: State, s': State, p: ProcessId, ack: Ack, now: Timestamp)
    requires p in s.procs && s.procs[p].Worker? && s.procs[p].workerPc.Committing?
    requires T.Prepared(s.procs[p].workerPc.document.id, s.procs[p].workerPc.chunks)
    requires Admits(regime.lostCommit, ack) && s.clock <= now
    requires s' == s.(clock := now, rows := s'.rows, log := s'.log, procs := s'.procs)
    requires var d, j := s.procs[p].workerPc.document.id, s.procs[p].jobId;
             var r := T.CommitReady(s.rows, d, j, s.procs[p].workerPc.chunks, now);
             var applied := r.Success? && ack != Refused;
             && s'.rows == (if applied then r.value else s.rows)
             && s'.log == (if applied then Readied(s.log, d) else s.log)
             && s'.procs == if applied && ack == Acknowledged then s.procs - {p} else s.procs[p := Worker(j, Failing(d, T.Unexpected))]
    ensures Enabled(regime, s, WorkerCommit(p, ack, now)) && s' == Apply(preparer, regime, s, WorkerCommit(p, ack, now))
  {
    hide T.CommitReady, T.Prepared;
  }

  lemma CommitSettles(preparer: Preparer, s: State, p: ProcessId, now: Timestamp)
    requires Safe(preparer, s) && p in s.procs && s.procs[p].Worker? && s.procs[p].workerPc.Committing?
    requires T.Prepared(s.procs[p].workerPc.document.id, s.procs[p].workerPc.chunks)
    requires T.CommitReady(s.rows, s.procs[p].workerPc.document.id, s.procs[p].jobId, s.procs[p].workerPc.chunks, now).Success?
    ensures Settled(T.CommitReady(s.rows, s.procs[p].workerPc.document.id, s.procs[p].jobId, s.procs[p].workerPc.chunks, now).value, s.procs[p].jobId)
  {
    hide FilesOk, PointsOk, ProcessesOk, LogOk, RowsOk, T.CommitReady, T.Prepared;
    var j, d, chunks := s.procs[p].jobId, s.procs[p].workerPc.document.id, s.procs[p].workerPc.chunks;
    ProcessFacts(preparer, s, p);
    JobOfWorker(preparer, s, j, d);
    RowsAreKeyed(preparer, s);
    CommitMakesReady(s.rows, d, j, chunks, now);
  }

  lemma JobOfWorker(preparer: Preparer, s: State, j: JobId, d: DocumentId)
    requires Safe(preparer, s) && WorksOn(s.log, j, d)
    ensures j in s.rows.jobs ==> s.rows.jobs[j].documentId == d
  {
    hide FilesOk, PointsOk, ProcessesOk, LogOk, DocumentsOk, ChunksOk, JobsOk, OneDocumentPerJob;
    if j in s.rows.jobs { JobNamesDocument(s.rows, s.log, s.clock, j, d); }
  }

  lemma CommitMakesReady(rows: Rows, d: DocumentId, j: JobId, chunks: seq<Chunk>, now: Timestamp)
    requires T.Prepared(d, chunks) && T.CommitReady(rows, d, j, chunks, now).Success?
    requires j in rows.jobs ==> rows.jobs[j].documentId == d && rows.jobs[j].id == j
    requires d in rows.docs ==> rows.docs[d].id == d
    ensures Settled(T.CommitReady(rows, d, j, chunks, now).value, j)
  {
    hide T.ChunkRows, T.Prepared;
  }

  /** Recording a failure never raises, and does what it is for. */
  lemma NeverRaises(preparer: Preparer, regime: Regime, s: State, p: ProcessId, now: Timestamp)
    requires Safe(preparer, s) && s.clock <= now && p in s.procs && s.procs[p].Worker? && s.procs[p].workerPc.Failing?
    requires !regime.lostEnqueue && !regime.lostCommit ==> JobInFlight(s.rows, s.procs[p].jobId)
    ensures var j, d, cause := s.procs[p].jobId, s.procs[p].workerPc.documentId, s.procs[p].workerPc.cause;
            && T.MarkFailed(s.rows, d, j, T.FailureCode(cause), now).Success?
            && RecordsFailure(regime, s, MarkFailedEffect(s, p, now), p, j, cause)
  {
    hide Safe, T.MarkFailed, T.FailureCode, JobInFlight, FailedWith;
    FailureIsRecorded(preparer, s, p, now);
  }

  lemma FailureIsRecorded(preparer: Preparer, s: State, p: ProcessId, now: Timestamp)
    requires Safe(preparer, s) && s.clock <= now && p in s.procs && s.procs[p].Worker? && s.procs[p].workerPc.Failing?
    ensures var j, cause := s.procs[p].jobId, s.procs[p].workerPc.cause;
            var r := T.MarkFailed(s.rows, s.procs[p].workerPc.documentId, j, T.FailureCode(cause), now);
            r.Success? && Recorded(s.rows, r.value, j, cause)
  {
    hide FilesOk, PointsOk, ProcessesOk, LogOk, RowsOk, T.MarkFailed, T.FailureCode;
    var d, j, cause := s.procs[p].workerPc.documentId, s.procs[p].jobId, s.procs[p].workerPc.cause;
    ProcessFacts(preparer, s, p);
    LaterRows(s.rows, s.log, s.clock, now);
    MarkFailedOutcome(s.rows, s.log, now, d, j, cause);
    var rows := T.MarkFailed(s.rows, d, j, T.FailureCode(cause), now).value;
    if j in rows.jobs { NamedInRows(rows, s.log, now, j, d); }
    if JobInFlight(s.rows, j) {
      NamedInRows(s.rows, s.log, now, j, d);
      R.CoupledState(s.rows, s.log, now, d);
      RowsAreKeyed(preparer, s);
      CodeRecorded(s.rows, d, j, T.FailureCode(cause), now);
    }
  }

  lemma CodeRecorded(rows: Rows, d: DocumentId, j: JobId, code: string, now: Timestamp)
    requires T.MarkFailed(rows, d, j, code, now).Success?
    requires InFlight(rows, d) && rows.docs[d].id == d
    requires j in rows.jobs && rows.jobs[j].id == j && rows.jobs[j].documentId == d && rows.jobs[j].status == Running
    ensures FailedWith(T.MarkFailed(rows, d, j, code, now).value, j, code)
  {
  }

  lemma OwnedIsInFlight(preparer: Preparer, s: State, p: ProcessId, d: DocumentId)
    requires Safe(preparer, s) && p in s.procs && s.procs[p].Worker? && s.procs[p].workerPc.Failing? && s.procs[p].workerPc.documentId == d
    requires G.Owns(s, p, d)
    ensures JobInFlight(s.rows, s.procs[p].jobId)
  {
    hide FilesOk, PointsOk, ProcessesOk, LogOk, RowsOk;
    ProcessFacts(preparer, s, p);
    NamedInRows(s.rows, s.log, s.clock, s.procs[p].jobId, d);
  }

  lemma NamedInRows(rows: Rows, log: Log, now: Timestamp, j: JobId, d: DocumentId)
    requires RowsOk(rows, log, now) && WorksOn(log, j, d) && j in rows.jobs
    ensures rows.jobs[j].documentId == d
  {
    hide DocumentsOk, JobsOk, ChunksOk, OneDocumentPerJob, UniqueHashes;
    JobNamesDocument(rows, log, now, j, d);
  }
}
