/** The shared mutable state the application services work on, and everything else that happens to
    it. Services step through it in program order; between two of their steps any other processes
    may take any steps of their own. A ghost trace records the states so far, and every method keeps
    it a run of the lifecycle, so that all that is proved of runs holds of the program. */
module Platform {
  import opened Results
  import opened Texts
  import opened Domain
  import opened Transactions
  import opened Lifecycle
  import opened LifecycleSafety
  import opened LifecycleSteps
  import opened LifecycleGuarantees

  class Platform {
    const preparer: Preparer
    const regime: Regime

    // PostgreSQL
    var docs: map<DocumentId, Document>
    var jobs: map<JobId, IngestionJob>
    var chunks: map<ChunkId, Chunk>
    var revision: nat
    // Qdrant, the file store and the queue
    var points: map<ChunkId, Point>
    var files: map<StorageKey, Bytes>
    var queue: set<JobId>
    var delivered: set<JobId>
    // where each process is, and bookkeeping that none reads
    var procs: map<ProcessId, Process>
    var clock: Timestamp
    var used: set<nat>
    var log: Log
    ghost var trace: seq<State>

    function Tables(): Rows
      reads this`docs, this`jobs, this`chunks, this`revision
    {
      Rows(docs, jobs, chunks, revision)
    }

    function Current(): State
      reads this
    {
      State(Tables(), points, files, queue, delivered, procs, clock, used, log)
    }

    ghost predicate Valid()
      reads this
    {
      IsRun(preparer, regime, trace) && trace[|trace| - 1] == Current()
    }

    /** Rows are stored under their identifiers. */
    predicate Keyed()
      reads this`docs, this`jobs
    {
      (forall d :: d in docs ==> docs[d].id == d) && (forall j :: j in jobs ==> jobs[j].id == j)
    }

    lemma SafeNow()
      requires Valid()
      ensures Safe(preparer, Current()) && Keyed()
    {
      hide Safe;
      RunsAreSafe(preparer, regime, trace, |trace| - 1);
      RowsAreKeyed(preparer, Current());
    }

    constructor (preparer: Preparer, regime: Regime, now: Timestamp)
      ensures Valid() && this.preparer == preparer && this.regime == regime
    {
      this.preparer, this.regime := preparer, regime;
      docs, jobs, chunks, revision := map[], map[], map[], 0;
      points, files, queue, delivered := map[], map[], {}, {};
      procs, clock, used := map[], now, {};
      log := Log(map[], map[], map[], map[], {}, {});
      new;
      trace := [Current()];
    }

    // ---- repositories, within a transaction

    method AddDocument(document: Document)
      modifies this`docs
      ensures Tables() == old(Tables()).SaveDocument(document)
    {
      docs := docs[document.id := document];
    }

    method AddJob(job: IngestionJob)
      modifies this`jobs
      ensures Tables() == old(Tables()).SaveJob(job)
    {
      jobs := jobs[job.id := job];
    }

    method SaveDocument(document: Document)
      requires document.id in docs
      modifies this`docs
      ensures Tables() == old(Tables()).SaveDocument(document)
    {
      docs := docs[document.id := document];
    }

    method SaveJob(job: IngestionJob)
      requires job.id in jobs
      modifies this`jobs
      ensures Tables() == old(Tables()).SaveJob(job)
    {
      jobs := jobs[job.id := job];
    }

    /** Foreign keys cascade. */
    method DeleteDocument(id: DocumentId)
      modifies this`docs, this`jobs, this`chunks
      ensures Tables() == old(Tables()).DeleteDocument(id)
    {
      docs := map d | d in docs && d != id :: docs[d];
      jobs := map j | j in jobs && jobs[j].documentId != id :: jobs[j];
      chunks := map c | c in chunks && chunks[c].documentId != id :: chunks[c];
    }

    method DeleteChunksFor(id: DocumentId)
      modifies this`chunks
      ensures chunks == old(Tables()).OtherChunks(id)
    {
      chunks := map c | c in chunks && chunks[c].documentId != id :: chunks[c];
    }

    /** Refused when an identifier is taken; the caller's transaction then rolls back. */
    method AddChunks(id: DocumentId, added: seq<Chunk>) returns (ok: bool)
      requires Prepared(id, added)
      modifies this`chunks
      ensures ok <==> old(chunks).Keys !! ChunkRows(id, added).Keys
      ensures ok ==> chunks == old(chunks) + ChunkRows(id, added)
    {
      hide Prepared, ChunkRows, FirstRows;
      ghost var before := chunks;
      NoRowsYet(id, added);
      for k := 0 to |added|
        invariant forall c :: c in FirstRows(id, added, k) ==> c !in before
        invariant chunks == before + FirstRows(id, added, k)
      {
        var chunk := added[k];
        OneMoreRow(id, added, k);
        if chunk.id in chunks {
          return false;
        }
        chunks := chunks[chunk.id := chunk];
      }
      AllRows(id, added);
      return true;
    }

    method IncrementRevision()
      modifies this`revision
      ensures revision == old(revision) + 1
    {
      revision := revision + 1;
    }

    /** What a transaction does when its body raises. */
    method Rollback(saved: Rows)
      modifies this`docs, this`jobs, this`chunks, this`revision
      ensures Tables() == saved
    {
      docs, jobs, chunks, revision := saved.docs, saved.jobs, saved.chunks, saved.revision;
    }

    // ---- the world moves on

    /** A later reading of the clock. */
    method Now() returns (now: Timestamp)
      ensures clock <= now
    {
      var elapsed: int := *;
      now := if elapsed >= 0 then clock + elapsed else clock;
    }

    /** Some change of the state was this action. */
    ghost method Record(before: State, a: Action)
      requires IsRun(preparer, regime, trace) && trace[|trace| - 1] == before
      requires Enabled(regime, before, a) && Current() == Apply(preparer, regime, before, a)
      modifies this`trace
      ensures Valid() && trace == old(trace) + [Current()]
    {
      RunExtends(preparer, regime, trace, a);
      trace := trace + [Current()];
    }

    method Become(s: State)
      modifies this`docs, this`jobs, this`chunks, this`revision, this`points, this`files, this`queue,
               this`delivered, this`procs, this`clock, this`used, this`log
      ensures Current() == s
    {
      docs, jobs, chunks, revision := s.rows.docs, s.rows.jobs, s.rows.chunks, s.rows.revision;
      points, files, queue, delivered := s.points, s.files, s.queue, s.delivered;
      procs, clock, used, log := s.procs, s.clock, s.used, s.log;
    }

    /** Any number of steps of any other processes: other requests, workers, deliveries, crashes. */
    method Interfere(p: ProcessId)
      requires Valid()
      modifies this
      ensures Valid() && old(trace) <= trace
      ensures p in procs <==> p in old(procs)
      ensures p in procs ==> procs[p] == old(procs)[p]
    {
      hide IsRun, Enabled, Apply;
      var steps: int := *;
      for i := 0 to if steps >= 0 then steps else 0
        invariant Valid() && old(trace) <= trace
        invariant p in procs <==> p in old(procs)
        invariant p in procs ==> procs[p] == old(procs)[p]
      {
        var a: Action := *;
        if a.p != p && Enabled(regime, Current(), a) {
          ghost var before := Current();
          OthersUntouched(preparer, regime, before, a, p);
          var after := Apply(preparer, regime, Current(), a);
          Become(after);
          Record(before, a);
        }
      }
    }
  }

  lemma RowsAreKeyed(preparer: Preparer, s: State)
    requires Safe(preparer, s)
    ensures forall d :: d in s.rows.docs ==> s.rows.docs[d].id == d
    ensures forall j :: j in s.rows.jobs ==> s.rows.jobs[j].id == j
  {
    hide FilesOk, PointsOk, ProcessesOk, LogOk, UniqueHashes, ChunksOk;
    forall d | d in s.rows.docs ensures s.rows.docs[d].id == d { assert DocumentOk(s.rows, s.log, s.clock, d); }
    forall j | j in s.rows.jobs ensures s.rows.jobs[j].id == j { assert JobOk(s.rows, s.log, s.clock, j); }
  }

  /** The rows of the first k chunks. */
  function FirstRows(id: DocumentId, added: seq<Chunk>, k: nat): map<ChunkId, Chunk>
    requires Prepared(id, added)
  {
    map c | c in ChunkRows(id, added) && c.ordinal < k :: ChunkRows(id, added)[c]
  }

  lemma NoRowsYet(id: DocumentId, added: seq<Chunk>)
    requires Prepared(id, added)
    ensures FirstRows(id, added, 0) == map[]
  {
  }

  lemma OneMoreRow(id: DocumentId, added: seq<Chunk>, k: nat)
    requires Prepared(id, added) && k < |added|
    ensures FirstRows(id, added, k + 1) == FirstRows(id, added, k)[added[k].id := added[k]]
    ensures added[k].id in ChunkRows(id, added) && added[k].id !in FirstRows(id, added, k)
  {
    RowsAreListed(id, added);
  }

  lemma AllRows(id: DocumentId, added: seq<Chunk>)
    requires Prepared(id, added)
    ensures FirstRows(id, added, |added|) == ChunkRows(id, added)
  {
    RowsAreListed(id, added);
  }

  lemma RowsAreListed(id: DocumentId, added: seq<Chunk>)
    requires Prepared(id, added)
    ensures var rows := ChunkRows(id, added);
            forall c :: c in rows ==> c.ordinal < |added| && c == added[c.ordinal].id
    ensures forall k :: 0 <= k < |added| ==> added[k].id.ordinal == k
  {
  }
}
