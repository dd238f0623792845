/** One run for each thing a regime may allow, and what it breaks. Every one of them works for any
    upload that can be prepared, and needs nothing else from the regime. */
module CounterRuns {
  import opened Results
  import opened Texts
  import opened Domain
  import opened Transactions
  import opened Lifecycle
  import opened LifecycleSafety
  import opened LifecycleSteps
  import opened LifecycleResults

  /** Any upload, and the chunks its preparation gives. */
  datatype Upload = Upload(d: DocumentId, j: JobId, filename: string, mediaType: MediaType, content: Bytes, chunks: seq<Chunk>) {
    predicate Valid() {
      d != j && !IsBlank(filename) && content != [] && Prepared(d, chunks)
    }

    /** The preparer gives these chunks for this upload. */
    predicate PreparedBy(preparer: Preparer) {
      preparer.run(d, mediaType, content) == Success(chunks)
    }

    function Key(): StorageKey {
      StorageKey(d, mediaType)
    }

    /** Everything happens at one reading of the clock. */
    function Doc(status: DocumentStatus, code: string): Document {
      Document(d, filename, Key(), mediaType, Digest(content), |content|, status, 0, 0,
               if status == Failed then Some(code) else None)
    }

    function Job(status: JobStatus, attempts: nat, code: string): IngestionJob {
      IngestionJob(j, d, status, attempts, 0, 0, if attempts == 0 then None else Some(0),
                   if status == Broken || status == Succeeded then Some(0) else None,
                   if status == Broken then Some(code) else None)
    }

    function Uploading(pc: SubmitPc): Process {
      Submit(Doc(Queued, ""), Job(Waiting, 0, ""), pc)
    }

    function Chunks(): map<ChunkId, Chunk>
      requires Valid()
    {
      ChunkRows(d, chunks)
    }

    function Points(): map<ChunkId, Point>
      requires Valid()
    {
      Upserted(Doc(Processing, ""), chunks, Chunks().Keys)
    }

    function LogOf(ready: bool): Log
      requires Valid()
    {
      Log(map[Key() := content], map[d := Doc(Queued, "")], map[d := j], map[d := Chunks()], if ready then {d} else {}, {})
    }

    /** The state with the two rows stored, the submit at its place and the given workers. */
    function Stage(document: Document, job: IngestionJob, points: map<ChunkId, Point>,
                   queue: set<JobId>, delivered: set<JobId>, submit: SubmitPc, workers: map<ProcessId, Process>): State
      requires Valid()
    {
      var ready := document.status == Ready;
      State(Rows(map[d := document], map[j := job], if ready then Chunks() else map[], if ready then 1 else 0),
            points, map[Key() := content], queue, delivered, workers[0 := Uploading(submit)], 0, {d, j}, LogOf(ready))
    }

    /** Worker p on its n-th attempt, next to other workers. */
    function Attempt(p: ProcessId, n: nat, pc: WorkerPc, points: map<ChunkId, Point>, submit: SubmitPc, others: map<ProcessId, Process>): State
      requires Valid()
    {
      Stage(Doc(Processing, ""), Job(Running, n, ""), points, {}, {j}, submit, others[p := Worker(j, pc)])
    }
  }

  predicate Steps(preparer: Preparer, regime: Regime, s: State, a: Action, s': State) {
    Enabled(regime, s, a) && Apply(preparer, regime, s, a) == s'
  }

  ghost predicate Reaches(preparer: Preparer, regime: Regime, run: seq<State>, s: State) {
    IsRun(preparer, regime, run) && run[|run| - 1] == s
  }

  lemma Extended(preparer: Preparer, regime: Regime, run: seq<State>, s: State, a: Action, s': State) returns (longer: seq<State>)
    requires Reaches(preparer, regime, run, s) && Steps(preparer, regime, s, a, s')
    ensures Reaches(preparer, regime, longer, s') && run <= longer
  {
    hide Enabled, Apply, IsRun;
    assert run != [] by { RunsBegin(preparer, regime, run); }
    RunExtends(preparer, regime, run, a);
    longer := run + [s'];
  }

  // ---- the upload

  function Empty(): State {
    State(Rows(map[], map[], map[], 0), map[], map[], {}, {}, map[], 0, {}, Log(map[], map[], map[], map[], {}, {}))
  }

  function Begun(u: Upload, pc: SubmitPc): State {
    State(Rows(map[], map[], map[], 0), map[], map[u.Key() := u.content], {}, {}, map[0 := u.Uploading(pc)], 0, {u.d, u.j},
          Log(map[u.Key() := u.content], map[], map[], map[], {}, {}))
  }

  lemma SubmitBegins(preparer: Preparer, regime: Regime, u: Upload)
    requires u.d != u.j && !IsBlank(u.filename) && u.content != []
    ensures Steps(preparer, regime, Empty(), BeginSubmit(0, u.d, u.j, u.filename, u.mediaType, u.content, 0), Begun(u, LookingUp))
    ensures Steps(preparer, regime, Begun(u, LookingUp), SubmitLookup(0, None), Begun(u, Inserting))
  {
  }

  lemma FreshRun(preparer: Preparer, regime: Regime)
    ensures Reaches(preparer, regime, [Empty()], Empty())
  {
  }

  lemma UploadedRun(preparer: Preparer, regime: Regime, u: Upload) returns (run: seq<State>)
    requires u.d != u.j && !IsBlank(u.filename) && u.content != []
    ensures Reaches(preparer, regime, run, Begun(u, Inserting))
  {
    hide Reaches, Steps;
    FreshRun(preparer, regime);
    SubmitBegins(preparer, regime, u);
    run := Extended(preparer, regime, [Empty()], Empty(), BeginSubmit(0, u.d, u.j, u.filename, u.mediaType, u.content, 0), Begun(u, LookingUp));
    run := Extended(preparer, regime, run, Begun(u, LookingUp), SubmitLookup(0, None), Begun(u, Inserting));
  }

  function Stored(u: Upload, queue: set<JobId>, submit: SubmitPc): State
    requires u.Valid()
  {
    u.Stage(u.Doc(Queued, ""), u.Job(Waiting, 0, ""), map[], queue, {}, submit, map[])
  }

  lemma SubmitStores(preparer: Preparer, regime: Regime, u: Upload)
    requires u.Valid() && u.PreparedBy(preparer)
    ensures Steps(preparer, regime, Begun(u, Inserting), SubmitInsert(0, Acknowledged), Stored(u, {}, Enqueueing))
  {
    hide Prepared, ChunkRows;
    assert Expected(preparer, u.Doc(Queued, "")) == u.Chunks();
  }

  /** The job gets into the queue, whether the submit learns of it or not. */
  lemma SubmitQueues(preparer: Preparer, regime: Regime, u: Upload, ack: Ack)
    requires u.Valid() && ack != Refused && Admits(regime.lostEnqueue, ack)
    ensures Steps(preparer, regime, Stored(u, {}, Enqueueing), SubmitEnqueue(0, ack),
                  Stored(u, {u.j}, if ack == Acknowledged then Finished(Accepted) else Dispatching))
  {
    hide Prepared, ChunkRows;
  }

  lemma QueuedRun(preparer: Preparer, regime: Regime, u: Upload, ack: Ack) returns (run: seq<State>)
    requires u.Valid() && u.PreparedBy(preparer) && ack != Refused && Admits(regime.lostEnqueue, ack)
    ensures Reaches(preparer, regime, run, Stored(u, {u.j}, if ack == Acknowledged then Finished(Accepted) else Dispatching))
  {
    hide Reaches, Steps, Prepared;
    run := UploadedRun(preparer, regime, u);
    SubmitStores(preparer, regime, u);
    run := Extended(preparer, regime, run, Begun(u, Inserting), SubmitInsert(0, Acknowledged), Stored(u, {}, Enqueueing));
    SubmitQueues(preparer, regime, u, ack);
    run := Extended(preparer, regime, run, Stored(u, {}, Enqueueing), SubmitEnqueue(0, ack),
                    Stored(u, {u.j}, if ack == Acknowledged then Finished(Accepted) else Dispatching));
  }

  // ---- a delivery

  /** The rows before the n-th attempt, with worker p about to start it. */
  function AboutToStart(u: Upload, p: ProcessId, n: nat, submit: SubmitPc, others: map<ProcessId, Process>): State
    requires u.Valid()
  {
    u.Stage(Before(u, n).0, Before(u, n).1, map[], {}, {u.j}, submit, others[p := Worker(u.j, Starting)])
  }

  function Before(u: Upload, n: nat): (Document, IngestionJob) {
    if n <= 1 then (u.Doc(Queued, ""), u.Job(Waiting, 0, ""))
    else (u.Doc(Failed, "ingestion_failed"), u.Job(Broken, n - 1, "ingestion_failed"))
  }

  lemma FirstDelivered(preparer: Preparer, regime: Regime, u: Upload, submit: SubmitPc)
    requires u.Valid()
    ensures Steps(preparer, regime, Stored(u, {u.j}, submit), Deliver(1, u.j), AboutToStart(u, 1, 1, submit, map[]))
  {
    hide Prepared, ChunkRows;
    var s, s' := Stored(u, {u.j}, submit), AboutToStart(u, 1, 1, submit, map[]);
    assert s.procs[1 := Worker(u.j, Starting)] == s'.procs;
  }

  lemma Started(preparer: Preparer, regime: Regime, u: Upload, p: ProcessId, n: nat, submit: SubmitPc, others: map<ProcessId, Process>)
    requires u.Valid() && p !in others && p != 0 && 1 <= n <= 2
    ensures Steps(preparer, regime, AboutToStart(u, p, n, submit, others), WorkerStart(p, 0), u.Attempt(p, n, Reading(u.d), map[], submit, others))
  {
    hide Prepared, ChunkRows, StartJob;
    var s, s' := AboutToStart(u, p, n, submit, others), u.Attempt(p, n, Reading(u.d), map[], submit, others);
    StartedRows(u, s.rows, n);
    assert s.procs[p] == Worker(u.j, Starting);
    assert s.procs[p := Worker(u.j, Reading(u.d))] == s'.procs;
    assert StartEffect(s, p, 0) == s';
  }

  lemma StartedRows(u: Upload, rows: Rows, n: nat)
    requires u.Valid() && 1 <= n <= 2
    requires rows == Rows(map[u.d := Before(u, n).0], map[u.j := Before(u, n).1], map[], 0)
    ensures StartJob(rows, u.j, 0)
            == Success((Rows(map[u.d := u.Doc(Processing, "")], map[u.j := u.Job(Running, n, "")], map[], 0), Some(u.d)))
  {
    hide Prepared, ChunkRows, StartPair;
    StartedPair(u, n);
    SingleUpdate(u.d, rows.docs[u.d], u.Doc(Processing, ""));
    SingleUpdate(u.j, rows.jobs[u.j], u.Job(Running, n, ""));
  }

  lemma SingleUpdate<K, V>(key: K, before: V, after: V)
    ensures map[key := before][key := after] == map[key := after]
  {
  }

  lemma StartedPair(u: Upload, n: nat)
    requires !IsBlank(u.filename) && 1 <= n <= 2
    ensures StartPair(Before(u, n).0, Before(u, n).1, 0) == Success(Some((u.Doc(Processing, ""), u.Job(Running, n, ""))))
  {
  }

  lemma Working(preparer: Preparer, regime: Regime, u: Upload, p: ProcessId, n: nat, submit: SubmitPc, others: map<ProcessId, Process>)
    requires u.Valid() && u.PreparedBy(preparer) && p !in others && p != 0
    ensures Steps(preparer, regime, u.Attempt(p, n, Reading(u.d), map[], submit, others), WorkerRead(p, true),
                  u.Attempt(p, n, Preparing(u.Doc(Processing, "")), map[], submit, others))
    ensures Steps(preparer, regime, u.Attempt(p, n, Preparing(u.Doc(Processing, "")), map[], submit, others), WorkerPrepare(p, None),
                  u.Attempt(p, n, Upserting(u.Doc(Processing, ""), u.chunks), map[], submit, others))
  {
    hide Prepared, ChunkRows;
    var document := u.Doc(Processing, "");
    Goes(u, p, n, Reading(u.d), Preparing(document), submit, others);
    Goes(u, p, n, Preparing(document), Upserting(document, u.chunks), submit, others);
  }

  lemma Goes(u: Upload, p: ProcessId, n: nat, a: WorkerPc, b: WorkerPc, submit: SubmitPc, others: map<ProcessId, Process>)
    requires u.Valid() && p !in others && p != 0
    ensures var s := u.Attempt(p, n, a, map[], submit, others);
            p in s.procs && s.procs[p] == Worker(u.j, a)
            && s.procs[p := Worker(u.j, b)] == u.Attempt(p, n, b, map[], submit, others).procs
  {
    hide Prepared, ChunkRows;
  }

  lemma Written(preparer: Preparer, regime: Regime, u: Upload, p: ProcessId, n: nat, submit: SubmitPc, others: map<ProcessId, Process>)
    requires u.Valid() && p !in others && p != 0
    ensures Steps(preparer, regime, u.Attempt(p, n, Upserting(u.Doc(Processing, ""), u.chunks), map[], submit, others),
                  WorkerUpsert(p, u.Chunks().Keys, true),
                  u.Attempt(p, n, Committing(u.Doc(Processing, ""), u.chunks), u.Points(), submit, others))
  {
    hide Prepared, ChunkRows, Upserted;
    var document := u.Doc(Processing, "");
    Goes(u, p, n, Upserting(document, u.chunks), Committing(document, u.chunks), submit, others);
    assert map[] + u.Points() == u.Points();
  }

  /** From the start of an attempt to the chunks in the hands of its worker. */
  lemma PreparedRun(preparer: Preparer, regime: Regime, u: Upload, p: ProcessId, n: nat, submit: SubmitPc,
                    others: map<ProcessId, Process>, before: seq<State>) returns (run: seq<State>)
    requires u.Valid() && u.PreparedBy(preparer) && p !in others && p != 0 && 1 <= n <= 2
    requires Reaches(preparer, regime, before, AboutToStart(u, p, n, submit, others))
    ensures Reaches(preparer, regime, run, u.Attempt(p, n, Upserting(u.Doc(Processing, ""), u.chunks), map[], submit, others))
  {
    hide Reaches, Steps, Prepared;
    var document := u.Doc(Processing, "");
    var s1 := u.Attempt(p, n, Reading(u.d), map[], submit, others);
    var s2 := u.Attempt(p, n, Preparing(document), map[], submit, others);
    Started(preparer, regime, u, p, n, submit, others);
    run := Extended(preparer, regime, before, AboutToStart(u, p, n, submit, others), WorkerStart(p, 0), s1);
    Working(preparer, regime, u, p, n, submit, others);
    run := Extended(preparer, regime, run, s1, WorkerRead(p, true), s2);
    run := Extended(preparer, regime, run, s2, WorkerPrepare(p, None),
                    u.Attempt(p, n, Upserting(document, u.chunks), map[], submit, others));
  }

  // ---- READY

  function Done(u: Upload, n: nat, points: map<ChunkId, Point>, submit: SubmitPc, workers: map<ProcessId, Process>): State
    requires u.Valid()
  {
    u.Stage(u.Doc(Ready, ""), u.Job(Succeeded, n, ""), points, {}, {u.j}, submit, workers)
  }

  lemma Committed(preparer: Preparer, regime: Regime, u: Upload, p: ProcessId, n: nat, ack: Ack, submit: SubmitPc, others: map<ProcessId, Process>)
    requires u.Valid() && p !in others && p != 0 && n >= 1 && ack != Refused && Admits(regime.lostCommit, ack)
    ensures Steps(preparer, regime, u.Attempt(p, n, Committing(u.Doc(Processing, ""), u.chunks), u.Points(), submit, others),
                  WorkerCommit(p, ack, 0), Done(u, n, u.Points(), submit, CommitLeaves(u, p, ack, others)))
  {
    hide Prepared, ChunkRows, Upserted, CommitReady;
    var s, s' := u.Attempt(p, n, Committing(u.Doc(Processing, ""), u.chunks), u.Points(), submit, others),
                 Done(u, n, u.Points(), submit, CommitLeaves(u, p, ack, others));
    CommittedRows(u, s.rows, n);
    CommitProcesses(u, p, ack, submit, others, Worker(u.j, Committing(u.Doc(Processing, ""), u.chunks)));
    hide CommitLeaves;
    assert CommitEffect(s, p, ack, 0) == s';
  }

  /** The processes a committing worker leaves. */
  function CommitLeaves(u: Upload, p: ProcessId, ack: Ack, others: map<ProcessId, Process>): map<ProcessId, Process> {
    if ack == Acknowledged then others else others[p := Worker(u.j, Failing(u.d, Unexpected))]
  }

  lemma CommitProcesses(u: Upload, p: ProcessId, ack: Ack, submit: SubmitPc, others: map<ProcessId, Process>, worker: Process)
    requires p !in others && p != 0
    ensures var procs := others[p := worker][0 := u.Uploading(submit)];
            && p in procs && procs[p] == worker
            && (if ack == Acknowledged then procs - {p} else procs[p := Worker(u.j, Failing(u.d, Unexpected))])
               == CommitLeaves(u, p, ack, others)[0 := u.Uploading(submit)]
  {
  }

  lemma CommittedRows(u: Upload, rows: Rows, n: nat)
    requires u.Valid() && n >= 1 && rows == Rows(map[u.d := u.Doc(Processing, "")], map[u.j := u.Job(Running, n, "")], map[], 0)
    ensures CommitReady(rows, u.d, u.j, u.chunks, 0)
            == Success(Rows(map[u.d := u.Doc(Ready, "")], map[u.j := u.Job(Succeeded, n, "")], u.Chunks(), 1))
  {
    hide Prepared, ChunkRows, CommitReady, ReadyPair;
    ReadyPairOf(u, n);
    CommitReadyResult(rows, u.d, u.j, u.chunks, 0);
    assert map[] + u.Chunks() == u.Chunks();
    SingleUpdate(u.d, u.Doc(Processing, ""), u.Doc(Ready, ""));
    SingleUpdate(u.j, u.Job(Running, n, ""), u.Job(Succeeded, n, ""));
  }

  lemma ReadyPairOf(u: Upload, n: nat)
    requires !IsBlank(u.filename) && n >= 1
    ensures ReadyPair(u.Doc(Processing, ""), u.Job(Running, n, ""), 0) == Success((u.Doc(Ready, ""), u.Job(Succeeded, n, "")))
  {
  }

  // ---- overlapping deliveries

  /** The first delivery fails to read the document, records the failure, and has not cleaned up yet. */
  lemma FirstFails(preparer: Preparer, regime: Regime, u: Upload) returns (run: seq<State>)
    requires u.Valid() && u.PreparedBy(preparer)
    ensures Reaches(preparer, regime, run, Cleaned(u, map[]))
  {
    hide Reaches, Steps, Prepared;
    var s1 := u.Attempt(1, 1, Reading(u.d), map[], Finished(Accepted), map[]);
    var s2 := u.Attempt(1, 1, Failing(u.d, Unexpected), map[], Finished(Accepted), map[]);
    run := QueuedRun(preparer, regime, u, Acknowledged);
    FirstDelivered(preparer, regime, u, Finished(Accepted));
    run := Extended(preparer, regime, run, Stored(u, {u.j}, Finished(Accepted)), Deliver(1, u.j), AboutToStart(u, 1, 1, Finished(Accepted), map[]));
    Started(preparer, regime, u, 1, 1, Finished(Accepted), map[]);
    run := Extended(preparer, regime, run, AboutToStart(u, 1, 1, Finished(Accepted), map[]), WorkerStart(1, 0), s1);
    ReadFails(preparer, regime, u, s1, s2);
    run := Extended(preparer, regime, run, s1, WorkerRead(1, false), s2);
    FailureRecorded(preparer, regime, u, s2);
    run := Extended(preparer, regime, run, s2, WorkerMarkFailed(1, 0), Cleaned(u, map[]));
  }

  /** Worker 1 has recorded its failure and has its cleanup still to do. */
  function Cleaned(u: Upload, others: map<ProcessId, Process>): State
    requires u.Valid()
  {
    u.Stage(Before(u, 2).0, Before(u, 2).1, map[], {}, {u.j}, Finished(Accepted), others[1 := Worker(u.j, Cleaning(u.d))])
  }

  lemma ReadFails(preparer: Preparer, regime: Regime, u: Upload, s1: State, s2: State)
    requires u.Valid()
    requires s1 == u.Attempt(1, 1, Reading(u.d), map[], Finished(Accepted), map[])
    requires s2 == u.Attempt(1, 1, Failing(u.d, Unexpected), map[], Finished(Accepted), map[])
    ensures Steps(preparer, regime, s1, WorkerRead(1, false), s2)
  {
    hide Prepared, ChunkRows;
    Goes(u, 1, 1, Reading(u.d), Failing(u.d, Unexpected), Finished(Accepted), map[]);
  }

  lemma FailureRecorded(preparer: Preparer, regime: Regime, u: Upload, s: State)
    requires u.Valid() && s == u.Attempt(1, 1, Failing(u.d, Unexpected), map[], Finished(Accepted), map[])
    ensures Steps(preparer, regime, s, WorkerMarkFailed(1, 0), Cleaned(u, map[]))
  {
    hide Prepared, ChunkRows, MarkFailed;
    FailedRows(u, s.rows);
    assert s.procs[1] == Worker(u.j, Failing(u.d, Unexpected));
    assert s.procs[1 := Worker(u.j, Cleaning(u.d))] == Cleaned(u, map[]).procs;
  }

  lemma FailedRows(u: Upload, rows: Rows)
    requires u.Valid() && rows == Rows(map[u.d := u.Doc(Processing, "")], map[u.j := u.Job(Running, 1, "")], map[], 0)
    ensures MarkFailed(rows, u.d, u.j, FailureCode(Unexpected), 0)
            == Success(Rows(map[u.d := Before(u, 2).0], map[u.j := Before(u, 2).1], map[], 0))
  {
    hide Prepared, ChunkRows;
    assert FailureCode(Unexpected) == "ingestion_failed";
    assert rows.docs[u.d].MarkFailed("ingestion_failed", 0) == Success(Before(u, 2).0);
    assert rows.jobs[u.j].Fail("ingestion_failed", 0) == Success(Before(u, 2).1);
    SingleUpdate(u.d, u.Doc(Processing, ""), Before(u, 2).0);
    SingleUpdate(u.j, u.Job(Running, 1, ""), Before(u, 2).1);
  }

  lemma Redelivered(preparer: Preparer, regime: Regime, u: Upload, others: map<ProcessId, Process>)
    requires u.Valid() && regime.overlap && others == map[1 := Worker(u.j, Cleaning(u.d))]
    ensures Steps(preparer, regime, Cleaned(u, map[]), Deliver(2, u.j), AboutToStart(u, 2, 2, Finished(Accepted), others))
  {
    hide Prepared, ChunkRows;
    var s, s' := Cleaned(u, map[]), AboutToStart(u, 2, 2, Finished(Accepted), others);
    assert s.procs[2 := Worker(u.j, Starting)] == s'.procs;
  }

  /** Two workers with one document: the first has its cleanup still to do, the second is at work. */
  lemma OverlapMeets(preparer: Preparer, regime: Regime, u: Upload, others: map<ProcessId, Process>) returns (run: seq<State>)
    requires u.Valid() && u.PreparedBy(preparer) && regime.overlap && others == map[1 := Worker(u.j, Cleaning(u.d))]
    ensures Reaches(preparer, regime, run, u.Attempt(2, 2, Upserting(u.Doc(Processing, ""), u.chunks), map[], Finished(Accepted), others))
  {
    hide Reaches, Steps, Prepared;
    run := FirstFails(preparer, regime, u);
    Redelivered(preparer, regime, u, others);
    run := Extended(preparer, regime, run, Cleaned(u, map[]), Deliver(2, u.j), AboutToStart(u, 2, 2, Finished(Accepted), others));
    run := PreparedRun(preparer, regime, u, 2, 2, Finished(Accepted), others, run);
  }

  /** READY with its chunk rows, and not a single vector point. */
  predicate Emptied(u: Upload, s: State) {
    IsReady(s.rows, u.d) && s.rows.chunks != map[] && s.points == map[]
  }

  /** The failure path records the failure first and removes the points afterwards; in between
      another delivery of the job brings the document to READY. */
  lemma OverlapEmpties(preparer: Preparer, regime: Regime, u: Upload) returns (run: seq<State>, s: State)
    requires u.Valid() && u.PreparedBy(preparer) && regime.overlap
    ensures Reaches(preparer, regime, run, s) && Emptied(u, s)
  {
    hide Reaches, Steps, Prepared, Emptied;
    var others: map<ProcessId, Process> := map[1 := Worker(u.j, Cleaning(u.d))];
    run := OverlapMeets(preparer, regime, u, others);
    run := ReadyRun(preparer, regime, u, 2, 2, Acknowledged, Finished(Accepted), others, run);
    run, s := CleanupRun(preparer, regime, u, 2, others, run);
  }

  lemma ReadyRun(preparer: Preparer, regime: Regime, u: Upload, p: ProcessId, n: nat, ack: Ack, submit: SubmitPc,
                 others: map<ProcessId, Process>, before: seq<State>) returns (run: seq<State>)
    requires u.Valid() && p !in others && p != 0 && n >= 1 && ack != Refused && Admits(regime.lostCommit, ack)
    requires Reaches(preparer, regime, before, u.Attempt(p, n, Upserting(u.Doc(Processing, ""), u.chunks), map[], submit, others))
    ensures Reaches(preparer, regime, run,
                    Done(u, n, u.Points(), submit, CommitLeaves(u, p, ack, others)))
  {
    hide Reaches, Steps, Prepared;
    var s1 := u.Attempt(p, n, Upserting(u.Doc(Processing, ""), u.chunks), map[], submit, others);
    var s2 := u.Attempt(p, n, Committing(u.Doc(Processing, ""), u.chunks), u.Points(), submit, others);
    Written(preparer, regime, u, p, n, submit, others);
    run := Extended(preparer, regime, before, s1, WorkerUpsert(p, u.Chunks().Keys, true), s2);
    Committed(preparer, regime, u, p, n, ack, submit, others);
    run := Extended(preparer, regime, run, s2, WorkerCommit(p, ack, 0),
                    Done(u, n, u.Points(), submit, CommitLeaves(u, p, ack, others)));
  }

  lemma CleanupRun(preparer: Preparer, regime: Regime, u: Upload, n: nat, workers: map<ProcessId, Process>, before: seq<State>)
    returns (run: seq<State>, s: State)
    requires u.Valid() && workers == map[1 := Worker(u.j, Cleaning(u.d))]
    requires Reaches(preparer, regime, before, Done(u, n, u.Points(), Finished(Accepted), workers))
    ensures Reaches(preparer, regime, run, s) && Emptied(u, s)
  {
    hide Reaches, Steps, Prepared;
    var ready := Done(u, n, u.Points(), Finished(Accepted), workers);
    s := ready.(points := map[], procs := ready.procs - {1});
    AllPointsGo(preparer, regime, u, n, ready, s);
    run := Extended(preparer, regime, before, ready, WorkerCleanup(1, ready.points.Keys), s);
  }

  lemma AllPointsGo(preparer: Preparer, regime: Regime, u: Upload, n: nat, s: State, s': State)
    requires u.Valid() && s == Done(u, n, u.Points(), Finished(Accepted), map[1 := Worker(u.j, Cleaning(u.d))])
    requires s' == s.(points := map[], procs := s.procs - {1})
    ensures Steps(preparer, regime, s, WorkerCleanup(1, s.points.Keys), s') && Emptied(u, s')
  {
    hide Prepared, ChunkRows, Upserted, PointsOfDocument;
    assert u.Chunks().Keys != {};
    PointsAreOfUpload(u, s);
    AllDropped(s.points);
    assert s.procs[1] == Worker(u.j, Cleaning(u.d));
  }

  lemma PointsAreOfUpload(u: Upload, s: State)
    requires u.Valid() && s.points == u.Points()
    ensures s.points.Keys <= PointsOfDocument(s, u.d)
  {
    hide Prepared;
  }

  lemma AllDropped(points: map<ChunkId, Point>)
    ensures points - points.Keys == map[]
  {
  }

  // ---- a READY commit that is not reported

  /** The document is READY and its worker in the failure path. */
  lemma LostCommitFails(preparer: Preparer, regime: Regime, u: Upload, failing: map<ProcessId, Process>) returns (run: seq<State>)
    requires u.Valid() && u.PreparedBy(preparer) && regime.lostCommit && failing == map[1 := Worker(u.j, Failing(u.d, Unexpected))]
    ensures Reaches(preparer, regime, run, Done(u, 1, u.Points(), Finished(Accepted), failing))
  {
    hide Reaches, Steps, Prepared;
    run := QueuedRun(preparer, regime, u, Acknowledged);
    FirstDelivered(preparer, regime, u, Finished(Accepted));
    run := Extended(preparer, regime, run, Stored(u, {u.j}, Finished(Accepted)), Deliver(1, u.j), AboutToStart(u, 1, 1, Finished(Accepted), map[]));
    run := PreparedRun(preparer, regime, u, 1, 1, Finished(Accepted), map[], run);
    run := ReadyRun(preparer, regime, u, 1, 1, Unacknowledged, Finished(Accepted), map[], run);
    assert map[][1 := Worker(u.j, Failing(u.d, Unexpected))] == failing;
  }

  /** The worker takes the stored READY for a failure. Its document is no longer PROCESSING, so it
      records nothing, and removes the points. */
  lemma LostCommitEmpties(preparer: Preparer, regime: Regime, u: Upload) returns (run: seq<State>, s: State)
    requires u.Valid() && u.PreparedBy(preparer) && regime.lostCommit
    ensures Reaches(preparer, regime, run, s) && Emptied(u, s)
  {
    hide Reaches, Steps, Prepared, Emptied;
    var failing: map<ProcessId, Process> := map[1 := Worker(u.j, Failing(u.d, Unexpected))];
    var cleaning: map<ProcessId, Process> := map[1 := Worker(u.j, Cleaning(u.d))];
    run := LostCommitFails(preparer, regime, u, failing);
    NothingRecorded(preparer, regime, u, failing, cleaning);
    run := Extended(preparer, regime, run, Done(u, 1, u.Points(), Finished(Accepted), failing), WorkerMarkFailed(1, 0),
                    Done(u, 1, u.Points(), Finished(Accepted), cleaning));
    run, s := CleanupRun(preparer, regime, u, 1, cleaning, run);
  }

  lemma NothingRecorded(preparer: Preparer, regime: Regime, u: Upload, failing: map<ProcessId, Process>, cleaning: map<ProcessId, Process>)
    requires u.Valid()
    requires failing == map[1 := Worker(u.j, Failing(u.d, Unexpected))] && cleaning == map[1 := Worker(u.j, Cleaning(u.d))]
    ensures Steps(preparer, regime, Done(u, 1, u.Points(), Finished(Accepted), failing), WorkerMarkFailed(1, 0),
                  Done(u, 1, u.Points(), Finished(Accepted), cleaning))
  {
    hide Prepared, ChunkRows, Upserted, FailureCode, MarkFailedEffect;
    NothingChanges(u, failing, cleaning);
  }

  lemma NothingChanges(u: Upload, failing: map<ProcessId, Process>, cleaning: map<ProcessId, Process>)
    requires u.Valid()
    requires failing == map[1 := Worker(u.j, Failing(u.d, Unexpected))] && cleaning == map[1 := Worker(u.j, Cleaning(u.d))]
    ensures var s := Done(u, 1, u.Points(), Finished(Accepted), failing);
            && 1 in s.procs && s.procs[1] == Worker(u.j, Failing(u.d, Unexpected))
            && MarkFailedEffect(s, 1, 0) == Done(u, 1, u.Points(), Finished(Accepted), cleaning)
  {
    hide Prepared, ChunkRows, Upserted, FailureCode, MarkFailed;
    var s, s' := Done(u, 1, u.Points(), Finished(Accepted), failing), Done(u, 1, u.Points(), Finished(Accepted), cleaning);
    ReadyStays(u, s.rows);
    assert s.procs[1 := Worker(u.j, Cleaning(u.d))] == s'.procs;
  }

  lemma ReadyStays(u: Upload, rows: Rows)
    requires rows.docs == map[u.d := u.Doc(Ready, "")] && rows.jobs == map[u.j := u.Job(Succeeded, 1, "")]
    ensures MarkFailed(rows, u.d, u.j, FailureCode(Unexpected), 0) == Success(rows)
  {
    hide FailureCode;
  }

  // ---- an accepted job that is not reported

  /** The pair `_mark_dispatch_failed` leaves. */
  function Undispatched(u: Upload): (Document, IngestionJob) {
    (u.Doc(Failed, "queue_unavailable"), u.Job(Broken, 1, "queue_unavailable"))
  }

  /** FAILED for want of a queue, with a worker at work on it. */
  function Contested(u: Upload, document: Document, others: map<ProcessId, Process>): State
    requires u.Valid()
  {
    u.Stage(document, Undispatched(u).1, map[], {}, {u.j}, Finished(QueueError),
            others[1 := Worker(u.j, Upserting(u.Doc(Processing, ""), u.chunks))])
  }

  lemma DispatchRecorded(preparer: Preparer, regime: Regime, u: Upload)
    requires u.Valid()
    ensures Steps(preparer, regime, u.Attempt(1, 1, Upserting(u.Doc(Processing, ""), u.chunks), map[], Dispatching, map[]),
                  SubmitDispatchFailed(0, 0), Contested(u, Undispatched(u).0, map[]))
  {
    hide Prepared, ChunkRows, MarkDispatchFailed;
    var s := u.Attempt(1, 1, Upserting(u.Doc(Processing, ""), u.chunks), map[], Dispatching, map[]);
    UndispatchedRows(u, s.rows);
    assert s.procs[0 := u.Uploading(Finished(QueueError))] == Contested(u, Undispatched(u).0, map[]).procs;
  }

  lemma UndispatchedRows(u: Upload, rows: Rows)
    requires u.Valid() && rows == Rows(map[u.d := u.Doc(Processing, "")], map[u.j := u.Job(Running, 1, "")], map[], 0)
    ensures MarkDispatchFailed(rows, u.d, u.j, 0) == Success(Rows(map[u.d := Undispatched(u).0], map[u.j := Undispatched(u).1], map[], 0))
  {
    hide Prepared, ChunkRows;
    assert !IsBlank("queue_unavailable") by { assert !IsSpace("queue_unavailable"[0]); }
    assert rows.docs[u.d].MarkFailed("queue_unavailable", 0) == Success(Undispatched(u).0);
    assert rows.jobs[u.j].Fail("queue_unavailable", 0) == Success(Undispatched(u).1);
    SingleUpdate(u.d, u.Doc(Processing, ""), Undispatched(u).0);
    SingleUpdate(u.j, u.Job(Running, 1, ""), Undispatched(u).1);
  }

  /** The submit takes the queued job for a failure and fails the document under its worker. */
  lemma LostEnqueueContests(preparer: Preparer, regime: Regime, u: Upload) returns (run: seq<State>)
    requires u.Valid() && u.PreparedBy(preparer) && regime.lostEnqueue
    ensures Reaches(preparer, regime, run, Contested(u, Undispatched(u).0, map[]))
  {
    hide Reaches, Steps, Prepared;
    run := QueuedRun(preparer, regime, u, Unacknowledged);
    FirstDelivered(preparer, regime, u, Dispatching);
    run := Extended(preparer, regime, run, Stored(u, {u.j}, Dispatching), Deliver(1, u.j), AboutToStart(u, 1, 1, Dispatching, map[]));
    run := PreparedRun(preparer, regime, u, 1, 1, Dispatching, map[], run);
    DispatchRecorded(preparer, regime, u);
    run := Extended(preparer, regime, run, u.Attempt(1, 1, Upserting(u.Doc(Processing, ""), u.chunks), map[], Dispatching, map[]),
                    SubmitDispatchFailed(0, 0), Contested(u, Undispatched(u).0, map[]));
  }

  /** Or the job brings the document to READY first; then the transaction that would record the
      dispatch failure raises, and the submit ends in an error with its row and file in place. */
  lemma LostEnqueueLeavesReady(preparer: Preparer, regime: Regime, u: Upload) returns (run: seq<State>)
    requires u.Valid() && u.PreparedBy(preparer) && regime.lostEnqueue
    ensures Reaches(preparer, regime, run, Done(u, 1, u.Points(), Finished(OtherError), map[]))
  {
    hide Reaches, Steps, Prepared;
    run := QueuedRun(preparer, regime, u, Unacknowledged);
    FirstDelivered(preparer, regime, u, Dispatching);
    run := Extended(preparer, regime, run, Stored(u, {u.j}, Dispatching), Deliver(1, u.j), AboutToStart(u, 1, 1, Dispatching, map[]));
    run := PreparedRun(preparer, regime, u, 1, 1, Dispatching, map[], run);
    run := ReadyRun(preparer, regime, u, 1, 1, Acknowledged, Dispatching, map[], run);
    DispatchRaises(preparer, regime, u);
    run := Extended(preparer, regime, run, Done(u, 1, u.Points(), Dispatching, map[]), SubmitDispatchFailed(0, 0),
                    Done(u, 1, u.Points(), Finished(OtherError), map[]));
  }

  lemma DispatchRaises(preparer: Preparer, regime: Regime, u: Upload)
    requires u.Valid()
    ensures Steps(preparer, regime, Done(u, 1, u.Points(), Dispatching, map[]), SubmitDispatchFailed(0, 0),
                  Done(u, 1, u.Points(), Finished(OtherError), map[]))
  {
    hide Prepared, ChunkRows, Upserted, DispatchFailedEffect;
    SubmitEnds(u);
  }

  lemma SubmitEnds(u: Upload)
    requires u.Valid()
    ensures var s := Done(u, 1, u.Points(), Dispatching, map[]);
            && 0 in s.procs && s.procs[0] == u.Uploading(Dispatching)
            && DispatchFailedEffect(s, 0, 0) == Done(u, 1, u.Points(), Finished(OtherError), map[])
  {
    hide Prepared, ChunkRows, Upserted, MarkDispatchFailed;
    ReadyIsNotFailed(u, Done(u, 1, u.Points(), Dispatching, map[]).rows);
  }

  lemma ReadyIsNotFailed(u: Upload, rows: Rows)
    requires rows.docs == map[u.d := u.Doc(Ready, "")] && rows.jobs == map[u.j := u.Job(Succeeded, 1, "")]
    ensures MarkDispatchFailed(rows, u.d, u.j, 0).Failure?
  {
  }

  /** A delete of the contested document under way. */
  function Removing(u: Upload, files: map<StorageKey, Bytes>, pc: DeletePc): State
    requires u.Valid()
  {
    var s := Contested(u, u.Doc(Deleting, ""), map[2 := Delete(u.d, u.Key(), pc)]);
    s.(rows := s.rows.(revision := 1), files := files, log := Deleted(s.log, u.d))
  }

  lemma DeleteBegins(preparer: Preparer, regime: Regime, u: Upload)
    requires u.Valid()
    ensures Steps(preparer, regime, Contested(u, Undispatched(u).0, map[]), StartDelete(2, u.d, 0),
                  Removing(u, map[u.Key() := u.content], Cancelling({u.j})))
  {
    hide Prepared, ChunkRows, BeginDelete;
    var s, s' := Contested(u, Undispatched(u).0, map[]), Removing(u, map[u.Key() := u.content], Cancelling({u.j}));
    BegunRows(u, s.rows);
    assert s.procs[2 := Delete(u.d, u.Key(), Cancelling({u.j}))] == s'.procs;
  }

  lemma BegunRows(u: Upload, rows: Rows)
    requires u.Valid() && rows == Rows(map[u.d := Undispatched(u).0], map[u.j := Undispatched(u).1], map[], 0)
    ensures BeginDelete(rows, u.d, 0)
            == Success((Rows(map[u.d := u.Doc(Deleting, "")], map[u.j := Undispatched(u).1], map[], 1), u.Doc(Deleting, ""), {u.j}))
  {
    hide Prepared, ChunkRows;
    assert rows.docs[u.d].MarkDeleting(0) == Success(u.Doc(Deleting, ""));
    assert rows.JobIds(u.d) == {u.j};
    SingleUpdate(u.d, Undispatched(u).0, u.Doc(Deleting, ""));
  }

  lemma JobCancelled(preparer: Preparer, regime: Regime, u: Upload, files: map<StorageKey, Bytes>)
    requires u.Valid()
    ensures Steps(preparer, regime, Removing(u, files, Cancelling({u.j})), DeleteCancel(2, u.j), Removing(u, files, DroppingVectors))
  {
    hide Prepared, ChunkRows;
    DeleteAt(u, files, Cancelling({u.j}), DroppingVectors);
    assert {u.j} - {u.j} == {};
  }

  lemma VectorsDropped(preparer: Preparer, regime: Regime, u: Upload, files: map<StorageKey, Bytes>)
    requires u.Valid()
    ensures Steps(preparer, regime, Removing(u, files, DroppingVectors), DeleteVectors(2, {}, true), Removing(u, files, DroppingFile))
  {
    hide Prepared, ChunkRows;
    DeleteAt(u, files, DroppingVectors, DroppingFile);
    assert PointsOfDocument(Removing(u, files, DroppingVectors), u.d) == {};
    NothingDropped(Removing(u, files, DroppingVectors).points);
  }

  lemma FileDropped(preparer: Preparer, regime: Regime, u: Upload, files: map<StorageKey, Bytes>)
    requires u.Valid() && files == map[u.Key() := u.content]
    ensures Steps(preparer, regime, Removing(u, files, DroppingFile), DeleteFile(2, true), Removing(u, map[], DroppingRow))
  {
    hide Prepared, ChunkRows;
    DeleteAt(u, files, DroppingFile, DroppingRow);
    assert files - {u.Key()} == map[];
  }

  lemma NothingDropped(points: map<ChunkId, Point>)
    ensures points - {} == points
  {
  }

  lemma DeleteAt(u: Upload, files: map<StorageKey, Bytes>, a: DeletePc, b: DeletePc)
    requires u.Valid()
    ensures var s := Removing(u, files, a);
            2 in s.procs && s.procs[2] == Delete(u.d, u.Key(), a)
            && s.procs[2 := Delete(u.d, u.Key(), b)] == Removing(u, files, b).procs
  {
    hide Prepared, ChunkRows;
  }

  function Removed(u: Upload, points: map<ChunkId, Point>, pc: WorkerPc): State
    requires u.Valid()
  {
    var s := Removing(u, map[], DroppingRow);
    s.(rows := Rows(map[], map[], map[], 1), points := points, procs := map[0 := u.Uploading(Finished(QueueError)), 1 := Worker(u.j, pc)])
  }

  lemma RowGoes(preparer: Preparer, regime: Regime, u: Upload)
    requires u.Valid()
    ensures Steps(preparer, regime, Removing(u, map[], DroppingRow), DeleteRow(2), Removed(u, map[], Upserting(u.Doc(Processing, ""), u.chunks)))
  {
    hide Prepared, ChunkRows;
    var s, s' := Removing(u, map[], DroppingRow), Removed(u, map[], Upserting(u.Doc(Processing, ""), u.chunks));
    assert s.procs[2] == Delete(u.d, u.Key(), DroppingRow);
    assert s.procs - {2} == s'.procs;
    assert s.rows.DeleteDocument(u.d) == s'.rows;
  }

  lemma PointsArrive(preparer: Preparer, regime: Regime, u: Upload)
    requires u.Valid()
    ensures Steps(preparer, regime, Removed(u, map[], Upserting(u.Doc(Processing, ""), u.chunks)), WorkerUpsert(1, u.Chunks().Keys, true),
                  Removed(u, u.Points(), Committing(u.Doc(Processing, ""), u.chunks)))
  {
    hide Prepared, ChunkRows, Upserted;
    var document := u.Doc(Processing, "");
    var s, s' := Removed(u, map[], Upserting(document, u.chunks)), Removed(u, u.Points(), Committing(document, u.chunks));
    assert s.procs[1 := Worker(u.j, Committing(document, u.chunks))] == s'.procs;
    assert map[] + u.Points() == u.Points();
  }

  /** The delete of the contested document completes before its worker writes the points. */
  lemma LostEnqueueOrphans(preparer: Preparer, regime: Regime, u: Upload, before: seq<State>) returns (run: seq<State>)
    requires u.Valid() && Reaches(preparer, regime, before, Contested(u, Undispatched(u).0, map[]))
    ensures Reaches(preparer, regime, run, Removed(u, u.Points(), Committing(u.Doc(Processing, ""), u.chunks))) && before <= run
  {
    hide Reaches, Steps, Prepared;
    var files: map<StorageKey, Bytes> := map[u.Key() := u.content];
    var gone := Removed(u, map[], Upserting(u.Doc(Processing, ""), u.chunks));
    DeleteBegins(preparer, regime, u);
    run := Extended(preparer, regime, before, Contested(u, Undispatched(u).0, map[]), StartDelete(2, u.d, 0), Removing(u, files, Cancelling({u.j})));
    JobCancelled(preparer, regime, u, files);
    VectorsDropped(preparer, regime, u, files);
    FileDropped(preparer, regime, u, files);
    run := Extended(preparer, regime, run, Removing(u, files, Cancelling({u.j})), DeleteCancel(2, u.j), Removing(u, files, DroppingVectors));
    run := Extended(preparer, regime, run, Removing(u, files, DroppingVectors), DeleteVectors(2, {}, true), Removing(u, files, DroppingFile));
    run := Extended(preparer, regime, run, Removing(u, files, DroppingFile), DeleteFile(2, true), Removing(u, map[], DroppingRow));
    RowGoes(preparer, regime, u);
    run := Extended(preparer, regime, run, Removing(u, map[], DroppingRow), DeleteRow(2), gone);
    PointsArrive(preparer, regime, u);
    run := Extended(preparer, regime, run, gone, WorkerUpsert(1, u.Chunks().Keys, true),
                    Removed(u, u.Points(), Committing(u.Doc(Processing, ""), u.chunks)));
  }

  lemma PointsOfUpload(u: Upload)
    requires u.Valid()
    ensures exists c :: c in u.Points() && u.Points()[c].documentId == u.d
  {
    hide Prepared;
    assert u.Chunks().Keys != {};
    var c :| c in u.Chunks().Keys;
    assert c in u.Points() && u.Points()[c].documentId == u.d;
  }

  // ---- a committed insert that is not reported

  /** The submit takes the stored rows for a failure and deletes the file. */
  lemma LostInsertUnfiles(preparer: Preparer, regime: Regime, u: Upload) returns (run: seq<State>, s: State)
    requires u.d != u.j && !IsBlank(u.filename) && u.content != [] && regime.lostInsert
    ensures Reaches(preparer, regime, run, s)
    ensures u.d in s.rows.docs && s.rows.docs[u.d].status == Queued && s.rows.docs[u.d].storageKey !in s.files
    ensures 0 in s.procs && s.procs[0] == u.Uploading(Finished(OtherError))
  {
    hide Reaches, Steps;
    run := UploadedRun(preparer, regime, u);
    var stored := InsertEffect(preparer, Begun(u, Inserting), 0, Unacknowledged);
    FileDiscarded(preparer, regime, u, stored);
    s := DiscardEffect(stored, 0);
    run := Extended(preparer, regime, run, Begun(u, Inserting), SubmitInsert(0, Unacknowledged), stored);
    run := Extended(preparer, regime, run, stored, SubmitDiscard(0), s);
  }

  lemma FileDiscarded(preparer: Preparer, regime: Regime, u: Upload, stored: State)
    requires regime.lostInsert && stored == InsertEffect(preparer, Begun(u, Inserting), 0, Unacknowledged)
    ensures Steps(preparer, regime, Begun(u, Inserting), SubmitInsert(0, Unacknowledged), stored)
    ensures 0 in stored.procs && stored.procs[0].Submit? && stored.procs[0].submitPc.Discarding?
    ensures var s := DiscardEffect(stored, 0);
            && Steps(preparer, regime, stored, SubmitDiscard(0), s)
            && u.d in s.rows.docs && s.rows.docs[u.d].status == Queued && s.rows.docs[u.d].storageKey !in s.files
            && 0 in s.procs && s.procs[0] == u.Uploading(Finished(OtherError))
  {
    hide Expected;
  }
}
