/** The backfiller as an object. Submitting, taking, running and cleaning up jobs are steps, or runs of
    steps, of the system in WorkerPools; running a job is the batch loop of Backfills on the store. */
module Backfillers {
  import opened Types
  import opened StoreSpec
  import opened MemoryStores
  import opened GrpcServers
  import opened Backfills
  import WorkerPools

  const DEFAULT_BATCH_SIZE: Int32 := 1000

  datatype RequestError = SourceRequired | TimesReversed | GaveUpWaiting

  datatype JobError = SourceUnavailable | InvalidRange | FetchFailed | ContextDone

  datatype Status = StatusRunning | StatusFailed | StatusCompleted

  class BackfillProgress {
    const startTime: Time
    var status: Status
    var totalRecords: int
    var processedRecords: int
    var successRecords: int
    var failedRecords: int
    var currentBatch: int
    var progress: real

    constructor (startTime: Time)
      ensures this.startTime == startTime
      ensures status == StatusRunning && totalRecords == processedRecords == successRecords == 0
      ensures failedRecords == currentBatch == 0 && progress == 0.0
    {
      this.startTime := startTime;
      status, totalRecords, processedRecords, successRecords := StatusRunning, 0, 0, 0;
      failedRecords, currentBatch, progress := 0, 0, 0.0;
    }

    /** Counts a batch of `n` offers, which went through or failed. */
    method CountBatch(n: int, written: bool)
      requires totalRecords > 0
      modifies this
      ensures totalRecords == old(totalRecords) && status == old(status)
      ensures processedRecords == old(processedRecords) + (if written then n else 0)
      ensures successRecords == old(successRecords) + (if written then n else 0)
      ensures failedRecords == old(failedRecords) + (if written then 0 else n)
      ensures currentBatch == old(currentBatch) + (if written then 1 else 0)
      ensures progress == if written then processedRecords as real / totalRecords as real else old(progress)
    {
      if !written {
        failedRecords := failedRecords + n;
        return;
      }
      processedRecords := processedRecords + n;
      successRecords := successRecords + n;
      currentBatch := currentBatch + 1;
      progress := processedRecords as real / totalRecords as real;
    }

    method Finish(ok: bool)
      modifies this
      ensures progress == 1.0 && status == if ok then StatusCompleted else StatusFailed
      ensures forall b :: Counts(b) <==> old(Counts(b))
    {
      progress := 1.0;
      status := if ok then StatusCompleted else StatusFailed;
    }

    /** The counters are those of a run of the batch loop. */
    ghost predicate Counts(b: Batching)
      reads this
    {
      processedRecords == successRecords == b.processed && failedRecords == b.failed && currentBatch == b.currentBatch
    }

    ghost predicate Shows(b: Batching)
      reads this
    {
      Counts(b) && progress == b.progress
    }
  }

  /** What the chain is asked for comes back as an arbitrary list of offers, or as an error. */
  datatype Fetched = Pools(offers: seq<MarginOffer>) | FetchError

  class BackfillRequest {
    const source: string
    const startTime: Time
    const endTime: Time
    const hasChainParams: bool
    const dryRun: bool
    var batchSize: Int32

    constructor (source: string, startTime: Time, endTime: Time, hasChainParams: bool, dryRun: bool, batchSize: Int32)
      ensures this.source == source && this.startTime == startTime && this.endTime == endTime
      ensures this.hasChainParams == hasChainParams && this.dryRun == dryRun && this.batchSize == batchSize
    {
      this.source, this.startTime, this.endTime := source, startTime, endTime;
      this.hasChainParams, this.dryRun, this.batchSize := hasChainParams, dryRun, batchSize;
    }
  }

  class Job {
    const id: string
    const request: BackfillRequest
    /** The result channel, which has room for one. */
    var result: seq<Option<JobError>>

    constructor (id: string, request: BackfillRequest)
      ensures this.id == id && this.request == request && result == []
    {
      this.id, this.request, result := id, request, [];
    }
  }

  /** Running a job from the store `s`: only the chain is a source that can be asked. */
  ghost function RunOf(request: BackfillRequest, fetched: Fetched, os: seq<Offer>, cancels: nat -> bool, now: Time,
                       s: State): Batching
    reads request
    requires request.batchSize >= 1
  {
    if request.source == "chain" && request.hasChainParams && fetched.Pools?
    then Batches(Start(s), os, 0, request.batchSize, request.dryRun, cancels, now)
    else Start(s)
  }

  /** The error that a run ends with. */
  function ErrorOf(request: BackfillRequest, fetched: Fetched, cancelled: bool): Option<JobError> {
    if request.source != "chain" then Some(SourceUnavailable)
    else if !request.hasChainParams then Some(InvalidRange)
    else if fetched.FetchError? then Some(FetchFailed)
    else if cancelled then Some(ContextDone)
    else None
  }

  /** A job succeeds if it names the chain, says which part of it, gets an answer, and is not cancelled
      before all batches have been dealt with; one that does not get so far leaves the store as it is. */
  lemma JobOutcome(request: BackfillRequest, fetched: Fetched, os: seq<Offer>, cancels: nat -> bool, now: Time, s: State)
    requires request.batchSize >= 1
    ensures var end := RunOf(request, fetched, os, cancels, now, s);
            var error := ErrorOf(request, fetched, end.cancelled);
            && (error == None ==> request.source == "chain" && end.done == |Slices(os, request.batchSize)|)
            && (error != None && error != Some(ContextDone) ==>
                  end.state == s && (request.source != "chain" || !request.hasChainParams || fetched.FetchError?))
            && (error == Some(ContextDone) ==> exists k: nat :: cancels(k))
            && (request.source != "chain" || !request.hasChainParams || fetched.FetchError? ==> error != None)
            && (end.cancelled ==> error == Some(ContextDone))
  {
    var end := RunOf(request, fetched, os, cancels, now, s);
    BatchAccounting(s, os, request.batchSize, request.dryRun, cancels, now);
    if forall k: nat :: !cancels(k) {
      NeverCancelled(Start(s), os, 0, request.batchSize, request.dryRun, cancels, now);
    }
  }

  /** The results in a channel, as success or failure. */
  function Successes(result: seq<Option<JobError>>): seq<bool> {
    seq(|result|, i requires 0 <= i < |result| => result[i].None?)
  }

  /** From position `i` on, the objects have the values `os`; all of them point into `cells`. */
  ghost predicate Awaits(offers: seq<MarginOffer>, os: seq<Offer>, i: nat, cells: set<object>)
    reads offers, cells
  {
    |offers| == |os| && forall j :: i <= j < |offers| ==>
      PointInto(offers[j].fields.pointers, cells) && offers[j].Value() == os[j]
  }

  class Backfiller {
    const store: MemoryStore
    var jobQueue: seq<Job>
    var activeJobs: map<string, BackfillProgress>
    var completedJobs: int
    var failedJobs: int

    /** The system this object implements, with its history. */
    ghost var pool: WorkerPools.Pool

    constructor (store: MemoryStore)
      ensures this.store == store && pool == WorkerPools.STARTED && Mirrors()
    {
      this.store, jobQueue, activeJobs, completedJobs, failedJobs := store, [], map[], 0, 0;
      pool := WorkerPools.STARTED;
    }

    ghost predicate Mirrors()
      reads this
    {
      && |jobQueue| == |pool.queue| && (forall i :: 0 <= i < |jobQueue| ==> jobQueue[i].id == pool.queue[i])
      && activeJobs.Keys == pool.active.Keys
      && (forall id :: id in activeJobs ==> activeJobs[id].startTime == pool.active[id])
      && completedJobs == pool.completed && failedJobs == pool.failed
    }

    /** Objects just made from the fetched pools: distinct, none of them the store's, and none of them,
        nor the store, one of the cells. */
    ghost predicate NewOffers(offers: seq<MarginOffer>, cells: set<object>)
      reads store
    {
      && (forall i, j :: 0 <= i < j < |offers| ==> offers[i] != offers[j])
      && (forall o :: o in offers ==> Outside(o, cells)) && store !in cells
    }

    /** Not one of the store's objects, nor one of the cells. */
    ghost predicate Outside(o: object, cells: set<object>)
      reads store
    {
      o !in store.repr && o !in cells
    }

    /** What was fetched has the values `os`. */
    ghost predicate Fetches(fetched: Fetched, os: seq<Offer>, cells: set<object>)
      reads store, if fetched.Pools? then fetched.offers else [], cells
    {
      fetched.Pools? ==> NewOffers(fetched.offers, cells) && Awaits(fetched.offers, os, 0, cells)
    }

    /** Accepts a request, giving it the default batch size if it has none that is positive. */
    method ValidateBackfillRequest(request: BackfillRequest) returns (error: Option<RequestError>)
      modifies request
      ensures request.source == "" ==> error == Some(SourceRequired)
      ensures request.source != "" && request.startTime > request.endTime ==> error == Some(TimesReversed)
      ensures request.source != "" && request.startTime <= request.endTime ==> error == None && request.batchSize >= 1
      ensures error == None && old(request.batchSize) <= 0 ==> request.batchSize == DEFAULT_BATCH_SIZE
      ensures error != None || old(request.batchSize) >= 1 ==> request.batchSize == old(request.batchSize)
      ensures error != Some(GaveUpWaiting)
    {
      if request.source == "" {
        return Some(SourceRequired);
      }
      if request.startTime > request.endTime {
        return Some(TimesReversed);
      }
      if request.batchSize <= 0 {
        request.batchSize := DEFAULT_BATCH_SIZE;
      }
      return None;
    }

    /** Queues a job for a request, unless the caller gives up before there is room. `id` is a fresh
        unique identifier. */
    method Submit(request: BackfillRequest, id: string) returns (job: Job?, error: Option<RequestError>)
      requires Mirrors() && id !in pool.submitted
      modifies this`jobQueue, this`pool, request
      ensures Mirrors()
      ensures error == None <==> job != null
      ensures error == None ==> fresh(job) && job.request == request && request.batchSize >= 1 && job.result == []
      ensures error == None ==> WorkerPools.Enabled(old(pool), WorkerPools.Submit(id)) && job.id == id
                                && pool == WorkerPools.Next(old(pool), WorkerPools.Submit(id))
      ensures error != None ==> pool == old(pool)
      ensures error == Some(GaveUpWaiting) ==> |old(jobQueue)| >= WorkerPools.QUEUE_CAPACITY
    {
      job := null;
      error := ValidateBackfillRequest(request);
      if error != None {
        return;
      }
      if |jobQueue| >= WorkerPools.QUEUE_CAPACITY {
        return null, Some(GaveUpWaiting);
      }
      job := new Job(id, request);
      jobQueue := jobQueue + [job];
      pool := WorkerPools.Next(pool, WorkerPools.Submit(id));
    }

    /** Worker `w` takes the next job. */
    method TakeJob(ghost w: nat) returns (job: Job)
      requires Mirrors() && jobQueue != [] && w < |pool.workers| && pool.workers[w].Idle?
      modifies this`jobQueue, this`pool
      ensures Mirrors() && job == old(jobQueue)[0] && jobQueue == old(jobQueue)[1..]
      ensures WorkerPools.Enabled(old(pool), WorkerPools.Take(w)) && pool == WorkerPools.Next(old(pool), WorkerPools.Take(w))
      ensures pool.workers[w] == WorkerPools.Holding(job.id)
    {
      job := jobQueue[0];
      jobQueue := jobQueue[1..];
      pool := WorkerPools.Next(pool, WorkerPools.Take(w));
    }

    /** Ranges over the active jobs and drops those that have run for too long. */
    method PerformCleanup(now: Time)
      requires Mirrors() && pool.clock <= now
      modifies this`activeJobs, this`pool
      ensures Mirrors()
      ensures pool == WorkerPools.Next(WorkerPools.Next(old(pool), WorkerPools.Tick(now)), WorkerPools.Cleanup)
    {
      var todo := activeJobs.Keys;
      ghost var all := activeJobs;
      while todo != {}
        invariant todo <= activeJobs.Keys <= all.Keys && pool == old(pool)
        invariant forall id :: id in activeJobs ==> activeJobs[id] == all[id]
        invariant forall id :: id in all ==>
          (id in activeJobs <==> id in todo || now - all[id].startTime <= WorkerPools.TIMEOUT)
      {
        var id :| id in todo;
        todo := todo - {id};
        if now - activeJobs[id].startTime > WorkerPools.TIMEOUT {
          activeJobs := activeJobs - {id};
        }
      }
      pool := WorkerPools.Next(WorkerPools.Next(pool, WorkerPools.Tick(now)), WorkerPools.Cleanup);
    }

    method ProcessChainBackfill(request: BackfillRequest, fetched: Fetched, ghost os: seq<Offer>,
                                ghost cells: set<object>, cancels: nat -> bool,
                                progress: BackfillProgress, now: Time)
        returns (error: Option<JobError>)
      requires store.Valid() && request.batchSize >= 1 && request.source == "chain" && Outside(progress, cells)
      requires progress.Shows(Start(store.State()))
      requires Fetches(fetched, os, cells)
      modifies store, progress, if fetched.Pools? then fetched.offers else []
      ensures store.Valid() && store.Grew()
      ensures progress.status == old(progress.status)
      ensures var end := RunOf(request, fetched, os, cancels, now, old(store.State()));
              store.State() == end.state && progress.Shows(end) && error == ErrorOf(request, fetched, end.cancelled)
    {
      if !request.hasChainParams {
        return Some(InvalidRange);
      }
      if fetched.FetchError? {
        return Some(FetchFailed);
      }
      var offers := fetched.offers;
      progress.totalRecords := |offers|;
      var cancelled, end := RunBatches(offers, os, cells, request.batchSize, request.dryRun, cancels, progress, now);
      return if cancelled then Some(ContextDone) else None;
    }

    method RunBatches(offers: seq<MarginOffer>, ghost os: seq<Offer>, ghost cells: set<object>, size: Int32, dryRun: bool,
                      cancels: nat -> bool, progress: BackfillProgress, now: Time)
        returns (stop: bool, ghost b: Batching)
      requires size >= 1 && Outside(progress, cells) && Batched(offers, os, cells, 0, Start(store.State()), progress)
      modifies store, progress, offers
      ensures store.Valid() && store.Grew()
      ensures b == Batches(Start(old(store.State())), os, 0, size, dryRun, cancels, now)
      ensures store.State() == b.state && progress.Shows(b) && stop == b.cancelled
      ensures progress.status == old(progress.status) && progress.totalRecords == |offers|
    {
      b := Start(store.State());
      ghost var all := Batches(b, os, 0, size, dryRun, cancels, now);
      stop := false;
      var i := 0;
      while i < |offers| && !stop
        invariant 0 <= i <= |offers| && Batched(offers, os, cells, i, b, progress) && stop == b.cancelled
        invariant Outside(progress, cells)
        invariant store.Grew() && progress.status == old(progress.status)
        invariant Batches(b, os, i, size, dryRun, cancels, now) == all
        decreases |offers| - i
      {
        stop, b := DoBatch(offers, os, cells, i, size, dryRun, cancels(i), b, progress, now);
        i := if i + size > |offers| then |offers| else i + size;
      }
    }

    /** The loop has come to position `i`: the store and the counters are those of `b`, and the
        offers from there on are as they were fetched. */
    ghost predicate Batched(offers: seq<MarginOffer>, os: seq<Offer>, cells: set<object>, i: nat, b: Batching,
                            progress: BackfillProgress)
      reads store, store.repr, offers, cells, progress
    {
      && store.Valid() && store.State() == b.state && progress.Shows(b) && progress.totalRecords == |offers|
      && NewOffers(offers, cells) && Awaits(offers, os, i, cells)
    }

    /** One batch; says whether the run stops here because it was cancelled. */
    method DoBatch(offers: seq<MarginOffer>, ghost os: seq<Offer>, ghost cells: set<object>, i: nat, size: Int32,
                   dryRun: bool,
                   cancel: bool, ghost b: Batching, progress: BackfillProgress, now: Time)
        returns (stop: bool, ghost b': Batching)
      requires size >= 1 && i < |offers| && Batched(offers, os, cells, i, b, progress) && !b.cancelled
          && Outside(progress, cells)
      modifies store, progress, offers
      ensures b' == OneBatch(b, os, i, size, dryRun, cancel, now) && stop == b'.cancelled
      ensures Batched(offers, os, cells, EndOf(i, size, |os|), b', progress) && store.Grew()
      ensures progress.status == old(progress.status)
    {
      var end := if i + size > |offers| then |offers| else i + size;
      var batch := offers[i..end];
      b' := OneBatch(b, os, i, size, dryRun, cancel, now);
      assert |batch| == |os[i..end]|;
      var written := WriteBatch(batch, offers, os, cells, i, end, dryRun, now);
      BatchCounts(b, os, i, size, dryRun, cancel, now, written);
      progress.CountBatch(|batch|, written);
      stop := written && cancel;
    }

    /** The counters after one batch. */
    static lemma BatchCounts(b: Batching, os: seq<Offer>, i: nat, size: nat, dryRun: bool, cancel: bool, now: Time, written: bool)
      requires i < |os| && size >= 1 && !b.cancelled
      requires written <==> dryRun || Passes(os[i..EndOf(i, size, |os|)])
      ensures var b', n := OneBatch(b, os, i, size, dryRun, cancel, now), EndOf(i, size, |os|) - i;
              && b'.processed == b.processed + (if written then n else 0)
              && b'.failed == b.failed + (if written then 0 else n)
              && b'.currentBatch == b.currentBatch + (if written then 1 else 0)
              && b'.progress == (if written then b'.processed as real / |os| as real else b.progress)
              && b'.cancelled == (written && cancel)
              && b'.state == if written && !dryRun then Replaced(b.state, os[i..EndOf(i, size, |os|)], now) else b.state
    {
    }

    /** Replaces the store by the batch, except in a dry run; says whether that went well. */
    method WriteBatch(batch: seq<MarginOffer>, ghost offers: seq<MarginOffer>, ghost os: seq<Offer>, ghost cells: set<object>,
                      i: nat, end: nat, dryRun: bool, now: Time)
        returns (written: bool)
      requires store.Valid() && NewOffers(offers, cells) && i <= end <= |offers| && batch == offers[i..end]
      requires Awaits(offers, os, i, cells)
      modifies store, batch
      ensures store.Valid() && store.Grew() && NewOffers(offers, cells)
      ensures Awaits(offers, os, end, cells)
      ensures written <==> dryRun || Passes(os[i..end])
      ensures store.State() == if written && !dryRun then Replaced(old(store.State()), os[i..end], now)
                               else old(store.State())
    {
      if dryRun {
        return true;
      }
      BatchValues(batch, offers, os, cells, i, end);
      ghost var s := store.State();
      var outcome, order := store.BulkOverwrite(batch, now);
      if outcome == Ok {
        ReplacedIsOverwrite(s, os[i..end], order, now);
      }
      return outcome == Ok;
    }

    static lemma BatchValues(batch: seq<MarginOffer>, offers: seq<MarginOffer>, os: seq<Offer>, cells: set<object>,
                             i: nat, end: nat)
      requires i <= end <= |offers| && batch == offers[i..end] && Awaits(offers, os, i, cells)
      requires forall j, k :: 0 <= j < k < |offers| ==> offers[j] != offers[k]
      ensures ValuesOf(batch) == Somes(os[i..end])
      ensures forall o :: o in batch ==> o in offers
      ensures forall j :: end <= j < |offers| ==> offers[j] !in batch
    {
      assert forall j :: 0 <= j < |batch| ==> batch[j] == offers[i + j];
    }

    /** Worker `w` runs the job that it holds: registers it, runs it, counts it, delivers its result
        and deregisters it. */
    method ProcessJob(job: Job, ghost w: nat, fetched: Fetched, ghost os: seq<Offer>, ghost cells: set<object>,
                      cancels: nat -> bool, now: Time)
        returns (error: Option<JobError>, progress: BackfillProgress)
      requires store.Valid() && job.request.batchSize >= 1
      requires Outside(this, cells) && Outside(job, cells)
      requires Mirrors() && pool.clock <= now && Holds(job, w)
      requires Fetches(fetched, os, cells)
      modifies this, job, store, if fetched.Pools? then fetched.offers else []
      ensures store.Valid() && store.Grew()
      ensures var end := RunOf(job.request, fetched, os, cancels, now, old(store.State()));
              && store.State() == end.state && error == ErrorOf(job.request, fetched, end.cancelled)
              && progress.Counts(end) && progress.progress == 1.0
              && progress.status == if error.None? then StatusCompleted else StatusFailed
      ensures Mirrors() && PossibleJob(old(pool), w, now) && pool == AfterJob(old(pool), w, now, error.None?)
      ensures job.id in pool.results && Successes(job.result) == pool.results[job.id]
    {
      progress := RegisterJob(job, w, now);
      assert Fetches(fetched, os, cells) && store.Valid();
      error := RunRegistered(job, w, progress, fetched, os, cells, cancels, now);
    }

    method RunRegistered(job: Job, ghost w: nat, progress: BackfillProgress, fetched: Fetched, ghost os: seq<Offer>,
                         ghost cells: set<object>, cancels: nat -> bool, now: Time)
        returns (error: Option<JobError>)
      requires store.Valid() && job.request.batchSize >= 1
      requires Outside(this, cells) && Outside(job, cells) && Outside(progress, cells)
      requires Mirrors() && w < |pool.workers| && pool.workers[w] == WorkerPools.Running(job.id)
      requires job.id in pool.results && job.id in pool.sent && Successes(job.result) == pool.results[job.id]
      requires Fetches(fetched, os, cells) && progress.Shows(Start(store.State()))
      modifies this, job, store, progress, if fetched.Pools? then fetched.offers else []
      ensures store.Valid() && store.Grew()
      ensures var end := RunOf(job.request, fetched, os, cancels, now, old(store.State()));
              && store.State() == end.state && error == ErrorOf(job.request, fetched, end.cancelled)
              && progress.Counts(end) && progress.progress == 1.0
              && progress.status == if error.None? then StatusCompleted else StatusFailed
      ensures Mirrors() && PossibleEnd(old(pool), w) && pool == AfterEnd(old(pool), w, error.None?)
      ensures job.id in pool.results && Successes(job.result) == pool.results[job.id]
    {
      error := RunJob(job.request, fetched, os, cells, cancels, progress, now);
      ghost var s := store.State();
      Conclude(job, w, progress, error);
      assert store.Valid() && store.State() == s;
    }

    /** Worker `w` holds the job, and its channel holds what the system says. */
    ghost predicate Holds(job: Job, w: nat)
      reads this, job
    {
      && w < |pool.workers| && pool.workers[w] == WorkerPools.Holding(job.id)
      && job.id in pool.results && job.id in pool.sent && Successes(job.result) == pool.results[job.id]
    }

    method RegisterJob(job: Job, ghost w: nat, now: Time) returns (progress: BackfillProgress)
      requires Mirrors() && pool.clock <= now && Holds(job, w)
      modifies this`activeJobs, this`pool
      ensures Mirrors() && fresh(progress) && progress.Shows(Start(store.State()))
      ensures pool == AfterRegister(old(pool), w, now)
    {
      progress := new BackfillProgress(now);
      activeJobs := activeJobs[job.id := progress];
      pool := AfterRegister(pool, w, now);
    }

    /** Runs a job on the source that it names; only the chain is available. */
    method RunJob(request: BackfillRequest, fetched: Fetched, ghost os: seq<Offer>, ghost cells: set<object>,
                  cancels: nat -> bool, progress: BackfillProgress, now: Time)
        returns (error: Option<JobError>)
      requires store.Valid() && request.batchSize >= 1 && Outside(progress, cells) && progress.Shows(Start(store.State()))
      requires Fetches(fetched, os, cells)
      modifies store, progress, if fetched.Pools? then fetched.offers else []
      ensures store.Valid() && store.Grew()
      ensures var end := RunOf(request, fetched, os, cancels, now, old(store.State()));
              store.State() == end.state && progress.Shows(end) && error == ErrorOf(request, fetched, end.cancelled)
    {
      if request.source == "chain" {
        error := ProcessChainBackfill(request, fetched, os, cells, cancels, progress, now);
      } else {
        error := Some(SourceUnavailable);
      }
    }

    /** Counts a job that has run, delivers its result without blocking, and deregisters it. */
    method Conclude(job: Job, ghost w: nat, progress: BackfillProgress, error: Option<JobError>)
      requires Mirrors() && w < |pool.workers| && pool.workers[w] == WorkerPools.Running(job.id)
      requires job.id in pool.results && job.id in pool.sent && Successes(job.result) == pool.results[job.id]
      modifies this, job, progress
      ensures Mirrors() && PossibleEnd(old(pool), w) && pool == AfterEnd(old(pool), w, error.None?)
      ensures job.id in pool.results && Successes(job.result) == pool.results[job.id]
      ensures progress.progress == 1.0 && progress.status == if error.None? then StatusCompleted else StatusFailed
      ensures forall b :: progress.Counts(b) <==> old(progress.Counts(b))
    {
      progress.Finish(error.None?);
      if error.Some? {
        failedJobs := failedJobs + 1;
      } else {
        completedJobs := completedJobs + 1;
      }
      if |job.result| < 1 {
        job.result := job.result + [error];
      }
      activeJobs := activeJobs - {job.id};
      AfterEndIs(pool, w, error.None?);
      pool := AfterEnd(pool, w, error.None?);
    }
  }

  // The steps of one worker on one job, undisturbed

  function AfterRegister(p: WorkerPools.Pool, w: nat, now: Time): WorkerPools.Pool
    requires p.clock <= now && w < |p.workers| && p.workers[w].Holding?
  {
    WorkerPools.Next(WorkerPools.Next(p, WorkerPools.Tick(now)), WorkerPools.Register(w, now))
  }

  predicate PossibleEnd(p: WorkerPools.Pool, w: nat) {
    w < |p.workers| && p.workers[w].Running? && p.workers[w].job in p.results && p.workers[w].job in p.sent
  }

  function AfterEnd(p: WorkerPools.Pool, w: nat, ok: bool): WorkerPools.Pool
    requires PossibleEnd(p, w)
  {
    var counted := WorkerPools.Next(p, WorkerPools.Count(w, ok));
    WorkerPools.Next(WorkerPools.Next(counted, WorkerPools.Report(w)), WorkerPools.Deregister(w))
  }

  lemma AfterEndIs(p: WorkerPools.Pool, w: nat, ok: bool)
    requires PossibleEnd(p, w)
    ensures var q, job := AfterEnd(p, w, ok), p.workers[w].job;
            && q.queue == p.queue && q.active == p.active - {job}
            && q.completed == p.completed + (if ok then 1 else 0) && q.failed == p.failed + (if ok then 0 else 1)
            && job in q.results && q.results[job] == if |p.results[job]| < 1 then p.results[job] + [ok] else p.results[job]
  {
  }

  predicate PossibleJob(p: WorkerPools.Pool, w: nat, now: Time) {
    p.clock <= now && w < |p.workers| && p.workers[w].Holding? && PossibleEnd(AfterRegister(p, w, now), w)
  }

  function AfterJob(p: WorkerPools.Pool, w: nat, now: Time, ok: bool): WorkerPools.Pool
    requires PossibleJob(p, w, now)
  {
    AfterEnd(AfterRegister(p, w, now), w, ok)
  }
}
