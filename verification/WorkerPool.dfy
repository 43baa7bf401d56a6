/** The backfill worker pool as a system of steps: jobs are submitted to a bounded queue, workers
    take them, register them, run them, count them, deliver one result and deregister them, while
    a cleanup drops stale registrations. */
module WorkerPools {
  import opened Types

  const QUEUE_CAPACITY := 100
  const WORKERS := 5
  const TIMEOUT: Time := HOUR

  type JobId = string

  datatype Worker =
    | Idle
    | Holding(job: JobId)
    | Running(job: JobId)
    | Counted(job: JobId, ok: bool)
    | Reported(job: JobId)

  /** `results` is what is in each job's result channel, which has room for one; `sent` is all that was
      ever sent to it, and `skips` how often a send was skipped because a channel was full. */
  datatype Pool = Pool(
    queue: seq<JobId>,
    workers: seq<Worker>,
    submitted: set<JobId>,
    active: map<JobId, Time>,
    completed: int,
    failed: int,
    completedJobs: set<JobId>,
    failedJobs: set<JobId>,
    results: map<JobId, seq<bool>>,
    sent: map<JobId, seq<bool>>,
    skips: nat,
    clock: Time)

  const STARTED := Pool([], [Idle, Idle, Idle, Idle, Idle], {}, map[], 0, 0, {}, {}, map[], map[], 0, ZERO_TIME)

  datatype Step =
    | Submit(job: JobId)
    | Take(w: nat)
    | Register(w: nat, start: Time)
    | Count(w: nat, ok: bool)
    | Report(w: nat)
    | Deregister(w: nat)
    | Cleanup
    | Collect(job: JobId)
    | Tick(now: Time)

  predicate Enabled(p: Pool, step: Step) {
    match step
    case Submit(job) => job !in p.submitted && |p.queue| < QUEUE_CAPACITY
    case Take(w) => w < |p.workers| && p.workers[w].Idle? && p.queue != []
    case Register(w, start) => start <= p.clock && w < |p.workers| && p.workers[w].Holding?
    case Count(w, _) => w < |p.workers| && p.workers[w].Running?
    case Report(w) => w < |p.workers| && p.workers[w].Counted? && p.workers[w].job in p.results
                      && p.workers[w].job in p.sent
    case Deregister(w) => w < |p.workers| && p.workers[w].Reported?
    case Cleanup => true
    case Collect(job) => job in p.results && p.results[job] != []
    case Tick(now) => p.clock <= now
  }

  function Next(p: Pool, step: Step): Pool
    requires Enabled(p, step)
  {
    match step
    case Submit(job) =>
      p.(submitted := p.submitted + {job}, queue := p.queue + [job],
         results := p.results[job := []], sent := p.sent[job := []])
    case Take(w) => p.(queue := p.queue[1..], workers := p.workers[w := Holding(p.queue[0])])
    case Register(w, start) =>
      var job := p.workers[w].job;
      p.(active := p.active[job := start], workers := p.workers[w := Running(job)])
    case Count(w, ok) =>
      var job := p.workers[w].job;
      var q := p.(workers := p.workers[w := Counted(job, ok)]);
      if ok then q.(completed := p.completed + 1, completedJobs := p.completedJobs + {job})
      else q.(failed := p.failed + 1, failedJobs := p.failedJobs + {job})
    case Report(w) =>
      var job := p.workers[w].job;
      var q := p.(workers := p.workers[w := Reported(job)]);
      if |p.results[job]| < 1 then
        q.(results := p.results[job := p.results[job] + [p.workers[w].ok]],
            sent := p.sent[job := p.sent[job] + [p.workers[w].ok]])
      else q.(skips := p.skips + 1)
    case Deregister(w) => p.(active := p.active - {p.workers[w].job}, workers := p.workers[w := Idle])
    case Cleanup => p.(active := map job | job in p.active && p.clock - p.active[job] <= TIMEOUT :: p.active[job])
    case Collect(job) => p.(results := p.results[job := p.results[job][1..]])
    case Tick(now) => p.(clock := now)
  }

  ghost predicate PossibleRun(p: Pool, steps: seq<Step>)
    decreases |steps|
  {
    steps == [] || (Enabled(p, steps[0]) && PossibleRun(Next(p, steps[0]), steps[1..]))
  }

  ghost function Run(p: Pool, steps: seq<Step>): Pool
    requires PossibleRun(p, steps)
    decreases |steps|
  {
    if steps == [] then p else Run(Next(p, steps[0]), steps[1..])
  }

  // Invariants

  /** The jobs of workers, whatever they are doing with them. */
  function JobsOf(ws: seq<Worker>): set<JobId> {
    if ws == [] then {}
    else JobsOf(ws[1..]) + if ws[0].Idle? then {} else {ws[0].job}
  }

  predicate Unfinished(w: Worker) {
    w.Holding? || w.Running?
  }

  /** The jobs that workers hold and have not yet counted. */
  function HeldJobs(p: Pool): set<JobId> {
    set w | w in p.workers && Unfinished(w) :: w.job
  }

  /** How far a job has come. */
  datatype Stage = Unknown | Queued | Held | Done

  function StageOf(p: Pool, job: JobId): Stage {
    if job !in p.submitted then Unknown
    else if job in p.queue then Queued
    else if job in p.completedJobs || job in p.failedJobs then Done
    else Held
  }

  ghost predicate WorkerInv(p: Pool, w: nat)
    requires w < |p.workers|
  {
    match p.workers[w]
    case Idle => true
    case Holding(job) => StageOf(p, job) == Held
    case Running(job) => StageOf(p, job) == Held
    case Counted(job, ok) =>
      StageOf(p, job) == Done && (job in p.completedJobs <==> ok) && job in p.sent && job in p.results
      && p.sent[job] == [] && p.results[job] == []
    case Reported(job) => StageOf(p, job) == Done && job in p.sent && p.sent[job] == [job in p.completedJobs]
  }

  predicate HoldsJob(w: Worker, job: JobId) {
    !w.Idle? && w.job == job
  }

  ghost predicate HeldBySome(p: Pool, job: JobId) {
    exists w :: 0 <= w < |p.workers| && Unfinished(p.workers[w]) && HoldsJob(p.workers[w], job)
  }

  ghost predicate CountedBySome(p: Pool, job: JobId) {
    exists w :: 0 <= w < |p.workers| && p.workers[w].Counted? && HoldsJob(p.workers[w], job)
  }

  ghost predicate WithSome(p: Pool, job: JobId) {
    exists w :: 0 <= w < |p.workers| && HoldsJob(p.workers[w], job)
  }

  /** No job is with two workers. */
  ghost predicate NotShared(p: Pool) {
    forall v, w :: 0 <= v < w < |p.workers| && !p.workers[v].Idle? ==> !HoldsJob(p.workers[w], p.workers[v].job)
  }

  ghost predicate JobInv(p: Pool, job: JobId) {
    && job in p.sent && job in p.results
    && (StageOf(p, job) == Queued || StageOf(p, job) == Held ==> p.sent[job] == [] && p.results[job] == [])
    && (StageOf(p, job) == Held ==> HeldBySome(p, job))
    && (StageOf(p, job) == Done ==>
          && (p.results[job] == [] || p.results[job] == p.sent[job])
          && (p.sent[job] == [job in p.completedJobs] || (p.sent[job] == [] && CountedBySome(p, job))))
  }

  ghost predicate NoRepeats(q: seq<JobId>) {
    forall i, j :: 0 <= i < j < |q| ==> q[i] != q[j]
  }

  ghost predicate Inv(p: Pool) {
    && |p.workers| == WORKERS && |p.queue| <= QUEUE_CAPACITY && NoRepeats(p.queue)
    && (forall job :: job in p.queue ==> job in p.submitted && job !in p.completedJobs && job !in p.failedJobs)
    && p.completedJobs <= p.submitted && p.failedJobs <= p.submitted && p.completedJobs !! p.failedJobs
    && p.completed == |p.completedJobs| && p.failed == |p.failedJobs|
    && (forall w :: 0 <= w < |p.workers| ==> WorkerInv(p, w)) && NotShared(p)
    && (forall job :: job in p.submitted ==> JobInv(p, job))
    && (forall job :: job in p.active ==> WithSome(p, job))
    && p.skips == 0
  }

  lemma SubmitKeepsInv(p: Pool, job: JobId)
    requires Inv(p) && Enabled(p, Submit(job))
    ensures Inv(Next(p, Submit(job)))
  {
    var p' := Next(p, Submit(job));
    forall w | 0 <= w < |p'.workers| ensures WorkerInv(p', w) {
      assert WorkerInv(p, w);
    }
    forall x | x in p'.submitted ensures JobInv(p', x) {
      SameWorkers(p, p', x);
      if x != job {
        assert JobInv(p, x);
      }
    }
    forall x | x in p'.active ensures WithSome(p', x) {
      SameWorkers(p, p', x);
    }
  }

  /** A job with a worker other than `w` is still with that worker. */
  lemma KeepsWitness(p: Pool, p': Pool, w: nat, job: JobId)
    requires w < |p.workers| == |p'.workers| && p'.workers == p.workers[w := p'.workers[w]]
    requires !HoldsJob(p.workers[w], job)
    ensures HeldBySome(p, job) ==> HeldBySome(p', job)
    ensures CountedBySome(p, job) ==> CountedBySome(p', job)
  {
    if HeldBySome(p, job) {
      var v :| 0 <= v < |p.workers| && Unfinished(p.workers[v]) && HoldsJob(p.workers[v], job);
      assert p'.workers[v] == p.workers[v];
    }
    if CountedBySome(p, job) {
      var v :| 0 <= v < |p.workers| && p.workers[v].Counted? && HoldsJob(p.workers[v], job);
      assert p'.workers[v] == p.workers[v];
    }
  }

  /** What a step of worker `w` on `job` has to show of every other job. */
  lemma OtherJobsKeep(p: Pool, p': Pool, w: nat, job: JobId)
    requires Inv(p) && w < |p.workers| == |p'.workers| && p'.workers == p.workers[w := p'.workers[w]]
    requires p.workers[w].Idle? || HoldsJob(p.workers[w], job)
    requires p'.submitted == p.submitted
    requires forall x :: x in p.submitted && x != job ==>
      && StageOf(p', x) == StageOf(p, x) && (x in p'.completedJobs <==> x in p.completedJobs)
      && x in p'.sent && x in p'.results
      && (x in p.sent && x in p.results ==> p'.sent[x] == p.sent[x] && p'.results[x] == p.results[x])
    ensures forall x :: x in p.submitted && x != job ==> JobInv(p', x)
  {
    forall x | x in p.submitted && x != job ensures JobInv(p', x) {
      assert JobInv(p, x);
      KeepsWitness(p, p', w, x);
    }
  }

  lemma ActiveStays(p: Pool, p': Pool, w: nat)
    requires w < |p.workers| == |p'.workers| && p'.workers == p.workers[w := p'.workers[w]]
    requires forall job :: job in p.active ==> WithSome(p, job)
    requires !p.workers[w].Idle? ==> HoldsJob(p'.workers[w], p.workers[w].job) || p.workers[w].job !in p'.active
    requires forall job :: job in p'.active ==> job in p.active || HoldsJob(p'.workers[w], job)
    ensures forall job :: job in p'.active ==> WithSome(p', job)
  {
    forall job | job in p'.active ensures WithSome(p', job) {
      if !HoldsJob(p'.workers[w], job) {
        var v :| 0 <= v < |p.workers| && HoldsJob(p.workers[v], job);
        assert HoldsJob(p'.workers[v], job);
      }
    }
  }

  /** No worker other than `w` has the job that `w` has. */
  lemma OnlyWorker(p: Pool, w: nat, v: nat)
    requires NotShared(p) && w < |p.workers| && v < |p.workers| && v != w && !p.workers[w].Idle?
    ensures !HoldsJob(p.workers[v], p.workers[w].job)
  {
    if v < w && !p.workers[v].Idle? {
      assert !HoldsJob(p.workers[w], p.workers[v].job);
    }
  }

  lemma TakeKeepsInv(p: Pool, w: nat)
    requires Inv(p) && Enabled(p, Take(w))
    ensures Inv(Next(p, Take(w)))
  {
    var p', job := Next(p, Take(w)), p.queue[0];
    assert p.queue == [job] + p'.queue && job in p.queue && job !in p'.queue;
    assert p'.workers[w] == Holding(job) && HoldsJob(p'.workers[w], job);
    assert StageOf(p, job) == Queued && JobInv(p, job);
    forall v | 0 <= v < |p'.workers| ensures WorkerInv(p', v) && !HoldsJob(p.workers[v], job) {
      assert WorkerInv(p, v);
    }
    assert HeldBySome(p', job) && JobInv(p', job);
    OtherJobsKeep(p, p', w, job);
    ActiveStays(p, p', w);
  }

  lemma RegisterKeepsInv(p: Pool, w: nat, start: Time)
    requires Inv(p) && Enabled(p, Register(w, start))
    ensures Inv(Next(p, Register(w, start)))
  {
    var p', job := Next(p, Register(w, start)), p.workers[w].job;
    assert p'.workers[w] == Running(job) && HoldsJob(p'.workers[w], job) && WorkerInv(p, w);
    forall v | 0 <= v < |p'.workers| ensures WorkerInv(p', v) {
      assert WorkerInv(p, v);
    }
    assert JobInv(p, job);
    OtherJobsKeep(p, p', w, job);
    ActiveStays(p, p', w);
  }

  lemma CountKeepsWorkers(p: Pool, w: nat, ok: bool)
    requires Inv(p) && Enabled(p, Count(w, ok))
    ensures var p' := Next(p, Count(w, ok));
            NotShared(p') && forall v :: 0 <= v < |p'.workers| ==> WorkerInv(p', v)
  {
    var p', job := Next(p, Count(w, ok)), p.workers[w].job;
    assert p'.workers[w] == Counted(job, ok) && WorkerInv(p, w) && JobInv(p, job);
    forall v | 0 <= v < |p'.workers| ensures WorkerInv(p', v) {
      assert WorkerInv(p, v);
      if v != w {
        OnlyWorker(p, w, v);
      }
    }
  }

  lemma CountKeepsSets(p: Pool, w: nat, ok: bool)
    requires Inv(p) && Enabled(p, Count(w, ok))
    ensures var p' := Next(p, Count(w, ok));
            && p'.completedJobs <= p'.submitted && p'.failedJobs <= p'.submitted && p'.completedJobs !! p'.failedJobs
            && p'.completed == |p'.completedJobs| && p'.failed == |p'.failedJobs|
            && (forall job :: job in p'.queue ==> job !in p'.completedJobs && job !in p'.failedJobs)
  {
    assert WorkerInv(p, w);
  }

  lemma CountKeepsStages(p: Pool, w: nat, ok: bool)
    requires Enabled(p, Count(w, ok))
    ensures var p', job := Next(p, Count(w, ok)), p.workers[w].job;
            && p'.submitted == p.submitted && p'.sent == p.sent && p'.results == p.results
            && p'.workers == p.workers[w := Counted(job, ok)]
            && (forall x :: x != job ==> StageOf(p', x) == StageOf(p, x))
            && (StageOf(p, job) == Held ==> StageOf(p', job) == Done)
  {
  }

  lemma CountKeepsJobs(p: Pool, w: nat, ok: bool)
    requires Inv(p) && Enabled(p, Count(w, ok))
    ensures var p' := Next(p, Count(w, ok));
            forall job :: job in p'.submitted ==> JobInv(p', job)
  {
    var p', job := Next(p, Count(w, ok)), p.workers[w].job;
    CountKeepsStages(p, w, ok);
    assert WorkerInv(p, w) && JobInv(p, job);
    CountedJob(p, p', w, job);
    forall x | x in p.submitted && x != job ensures JobInv(p', x) {
      assert JobInv(p, x);
      KeepsWitness(p, p', w, x);
    }
  }

  lemma CountedJob(p: Pool, p': Pool, w: nat, job: JobId)
    requires JobInv(p, job) && StageOf(p, job) == Held && StageOf(p', job) == Done
    requires p'.sent == p.sent && p'.results == p.results
    requires w < |p'.workers| && p'.workers[w].Counted? && HoldsJob(p'.workers[w], job)
    ensures JobInv(p', job)
  {
    assert CountedBySome(p', job);
  }

  lemma CountKeepsInv(p: Pool, w: nat, ok: bool)
    requires Inv(p) && Enabled(p, Count(w, ok))
    ensures Inv(Next(p, Count(w, ok)))
  {
    var p', job := Next(p, Count(w, ok)), p.workers[w].job;
    assert p'.queue == p.queue && p'.active == p.active && p'.workers[w] == Counted(job, ok);
    CountKeepsSets(p, w, ok);
    CountKeepsWorkers(p, w, ok);
    CountKeepsJobs(p, w, ok);
    ActiveStays(p, p', w);
  }

  lemma ReportKeepsInv(p: Pool, w: nat)
    requires Inv(p) && Enabled(p, Report(w))
    ensures Inv(Next(p, Report(w)))
  {
    var p', job := Next(p, Report(w)), p.workers[w].job;
    assert p'.workers[w] == Reported(job) && HoldsJob(p'.workers[w], job) && WorkerInv(p, w) && JobInv(p, job);
    forall v | 0 <= v < |p'.workers| ensures WorkerInv(p', v) {
      assert WorkerInv(p, v);
      if v != w {
        OnlyWorker(p, w, v);
      }
    }
    OtherJobsKeep(p, p', w, job);
    ActiveStays(p, p', w);
  }

  lemma DeregisterKeepsInv(p: Pool, w: nat)
    requires Inv(p) && Enabled(p, Deregister(w))
    ensures Inv(Next(p, Deregister(w)))
  {
    var p', job := Next(p, Deregister(w)), p.workers[w].job;
    assert p'.workers[w] == Idle && WorkerInv(p, w) && JobInv(p, job);
    forall v | 0 <= v < |p'.workers| ensures WorkerInv(p', v) {
      assert WorkerInv(p, v);
    }
    OtherJobsKeep(p, p', w, job);
    ActiveStays(p, p', w);
  }

  lemma OtherStepsKeepInv(p: Pool, step: Step)
    requires Inv(p) && Enabled(p, step) && (step.Cleanup? || step.Collect? || step.Tick?)
    ensures Inv(Next(p, step))
  {
    var p' := Next(p, step);
    forall v | 0 <= v < |p'.workers| ensures WorkerInv(p', v) {
      assert WorkerInv(p, v);
    }
    forall x | x in p'.submitted ensures JobInv(p', x) {
      assert JobInv(p, x);
      SameWorkers(p, p', x);
    }
    forall x | x in p'.active ensures WithSome(p', x) {
      SameWorkers(p, p', x);
    }
  }

  lemma SameWorkers(p: Pool, p': Pool, job: JobId)
    requires p'.workers == p.workers
    ensures HeldBySome(p', job) == HeldBySome(p, job) && CountedBySome(p', job) == CountedBySome(p, job)
    ensures WithSome(p', job) == WithSome(p, job)
  {
  }

  lemma StepKeepsInv(p: Pool, step: Step)
    requires Inv(p) && Enabled(p, step)
    ensures Inv(Next(p, step))
  {
    match step
    case Submit(job) => SubmitKeepsInv(p, job);
    case Take(w) => TakeKeepsInv(p, w);
    case Register(w, start) => RegisterKeepsInv(p, w, start);
    case Count(w, ok) => CountKeepsInv(p, w, ok);
    case Report(w) => ReportKeepsInv(p, w);
    case Deregister(w) => DeregisterKeepsInv(p, w);
    case _ => OtherStepsKeepInv(p, step);
  }

  lemma {:induction false} RunKeepsInv(p: Pool, steps: seq<Step>)
    requires Inv(p) && PossibleRun(p, steps)
    ensures Inv(Run(p, steps))
    decreases |steps|
  {
    if steps != [] {
      StepKeepsInv(p, steps[0]);
      RunKeepsInv(Next(p, steps[0]), steps[1..]);
    }
  }

  // What every run guarantees

  lemma {:induction false} JobsOfWorkers(ws: seq<Worker>)
    ensures |JobsOf(ws)| <= |ws|
    ensures forall w :: 0 <= w < |ws| && !ws[w].Idle? ==> ws[w].job in JobsOf(ws)
  {
    if ws != [] {
      JobsOfWorkers(ws[1..]);
      assert forall w :: 1 <= w < |ws| ==> ws[w] == ws[1..][w - 1];
    }
  }

  lemma {:induction false} QueueSize(q: seq<JobId>, jobs: set<JobId>)
    requires NoRepeats(q) && forall job :: job in q <==> job in jobs
    ensures |q| == |jobs|
  {
    if q == [] {
      assert jobs == {};
    } else {
      assert q == [q[0]] + q[1..];
      assert forall i :: 0 <= i < |q[1..]| ==> q[1..][i] == q[i + 1];
      assert q[0] !in q[1..];
      QueueSize(q[1..], jobs - {q[0]});
    }
  }

  lemma HeldIsRest(p: Pool)
    requires Inv(p)
    ensures HeldJobs(p) == set job | job in p.submitted && StageOf(p, job) == Held
  {
    forall job | job in p.submitted && StageOf(p, job) == Held ensures job in HeldJobs(p) {
      assert JobInv(p, job);
    }
    forall job | job in HeldJobs(p) ensures job in p.submitted && StageOf(p, job) == Held {
      var worker :| worker in p.workers && Unfinished(worker) && worker.job == job;
      var w :| 0 <= w < |p.workers| && p.workers[w] == worker;
      assert WorkerInv(p, w);
    }
  }

  /** Under every interleaving, every submitted job is queued, held by one worker, completed or
      failed; no more jobs are registered as active than there are workers, stale ones included; a
      finished job is sent exactly one result once its worker has reported it, a success if and only if
      the job counts as completed; and no send is ever skipped because the channel is full. */
  lemma PoolProtocol(steps: seq<Step>)
    requires PossibleRun(STARTED, steps)
    ensures var p := Run(STARTED, steps);
            && |p.submitted| == |p.queue| + |HeldJobs(p)| + p.completed + p.failed
            && |p.active| <= WORKERS
            && p.skips == 0
            && forall job :: job in p.submitted ==>
                 && job in p.sent && |p.sent[job]| <= 1
                 && (p.sent[job] != [] ==> p.sent[job] == [job in p.completedJobs])
                 && (p.sent[job] != [] ==> job in p.completedJobs || job in p.failedJobs)
                 && (job in p.completedJobs || job in p.failedJobs ==>
                       p.sent[job] != [] || CountedBySome(p, job))
  {
    RunKeepsInv(STARTED, steps);
    var p := Run(STARTED, steps);
    PoolAccounts(p);
    ActiveBound(p);
    forall job | job in p.submitted
      ensures job in p.sent && |p.sent[job]| <= 1
      ensures p.sent[job] != [] ==>
                p.sent[job] == [job in p.completedJobs] && (job in p.completedJobs || job in p.failedJobs)
      ensures job in p.completedJobs || job in p.failedJobs ==> p.sent[job] != [] || CountedBySome(p, job)
    {
      assert JobInv(p, job);
    }
  }

  lemma PoolAccounts(p: Pool)
    requires Inv(p)
    ensures |p.submitted| == |p.queue| + |HeldJobs(p)| + p.completed + p.failed
  {
    HeldIsRest(p);
    var queued := set job | job in p.queue;
    QueueSize(p.queue, queued);
    var rest := HeldJobs(p);
    assert p.submitted == queued + rest + p.completedJobs + p.failedJobs;
    assert queued !! rest && queued + rest !! p.completedJobs && queued + rest + p.completedJobs !! p.failedJobs;
  }

  lemma ActiveBound(p: Pool)
    requires Inv(p)
    ensures |p.active| <= WORKERS
  {
    JobsOfWorkers(p.workers);
    assert p.active.Keys <= JobsOf(p.workers);
    SubsetSize(p.active.Keys, JobsOf(p.workers));
    assert |p.active| == |p.active.Keys|;
  }

  lemma SubsetSize(a: set<JobId>, b: set<JobId>)
    requires a <= b
    ensures |a| <= |b|
  {
    assert |b| == |a| + |b - a|;
  }

  // Stale registrations

  /** Worker `w` has registered the job, which it started at `start`, and the job is still active unless
      that was more than an hour ago. */
  ghost predicate Working(p: Pool, w: nat, job: JobId, start: Time) {
    && w < |p.workers| && HoldsJob(p.workers[w], job) && !p.workers[w].Holding?
    && (job in p.active ==> p.active[job] == start)
    && (p.clock - start <= HOUR ==> job in p.active)
  }

  lemma StepKeepsWorker(p: Pool, step: Step, w: nat, job: JobId)
    requires Enabled(p, step) && step != Deregister(w)
    requires w < |p.workers| && HoldsJob(p.workers[w], job) && !p.workers[w].Holding?
    ensures w < |Next(p, step).workers| && HoldsJob(Next(p, step).workers[w], job) && !Next(p, step).workers[w].Holding?
  {
  }

  lemma StepKeepsWorking(p: Pool, step: Step, w: nat, job: JobId, start: Time)
    requires Inv(p) && Working(p, w, job, start) && Enabled(p, step) && step != Deregister(w)
    ensures Working(Next(p, step), w, job, start)
  {
    StepKeepsWorker(p, step, w, job);
    if step.Register? || step.Deregister? {
      OnlyWorker(p, w, step.w);
    }
  }

  /** Under every interleaving a job that a worker has registered stays active, with the time at which it
      was started, until the worker deregisters it, unless a cleanup finds it more than an hour old. */
  lemma {:induction false} ActiveUntilStale(p: Pool, steps: seq<Step>, w: nat, job: JobId, start: Time)
    requires Inv(p) && Working(p, w, job, start) && PossibleRun(p, steps)
    requires forall i :: 0 <= i < |steps| ==> steps[i] != Deregister(w)
    ensures Working(Run(p, steps), w, job, start)
    decreases |steps|
  {
    if steps != [] {
      StepKeepsWorking(p, steps[0], w, job, start);
      StepKeepsInv(p, steps[0]);
      assert forall i :: 0 <= i < |steps[1..]| ==> steps[1..][i] == steps[i + 1];
      ActiveUntilStale(Next(p, steps[0]), steps[1..], w, job, start);
    }
  }

  lemma RegisterWorks(p: Pool, w: nat, start: Time)
    requires Enabled(p, Register(w, start))
    ensures Working(Next(p, Register(w, start)), w, p.workers[w].job, start)
  {
  }

  lemma CleanupDropsIff(p: Pool, w: nat, job: JobId, start: Time)
    requires Working(p, w, job, start)
    ensures job in Next(p, Cleanup).active <==> p.clock - start <= HOUR
  {
  }

  /** From the registration on; and a cleanup drops the job exactly if it finds it more than an hour old. */
  lemma RegisteredUntilStale(p: Pool, steps: seq<Step>, w: nat, start: Time)
    requires Inv(p) && Enabled(p, Register(w, start)) && PossibleRun(Next(p, Register(w, start)), steps)
    requires forall i :: 0 <= i < |steps| ==> steps[i] != Deregister(w)
    ensures var q, job := Run(Next(p, Register(w, start)), steps), p.workers[w].job;
            && (q.clock - start <= HOUR ==> job in q.active && q.active[job] == start)
            && (job in Next(q, Cleanup).active <==> q.clock - start <= HOUR)
  {
    RegisterKeepsInv(p, w, start);
    RegisterWorks(p, w, start);
    var job := p.workers[w].job;
    ActiveUntilStale(Next(p, Register(w, start)), steps, w, job, start);
    CleanupDropsIff(Run(Next(p, Register(w, start)), steps), w, job, start);
  }

  // First in, first out

  /** The job that a step puts into the queue. */
  function PutIn(p: Pool, step: Step): seq<JobId> {
    if step.Submit? then [step.job] else []
  }

  /** The job that a worker takes up in a step. */
  function TakenUp(p: Pool, step: Step): seq<JobId>
    requires Enabled(p, step)
  {
    if step.Take? then [Next(p, step).workers[step.w].job] else []
  }

  ghost function AllPutIn(p: Pool, steps: seq<Step>): seq<JobId>
    requires PossibleRun(p, steps)
    decreases |steps|
  {
    if steps == [] then [] else PutIn(p, steps[0]) + AllPutIn(Next(p, steps[0]), steps[1..])
  }

  ghost function AllTakenUp(p: Pool, steps: seq<Step>): seq<JobId>
    requires PossibleRun(p, steps)
    decreases |steps|
  {
    if steps == [] then [] else TakenUp(p, steps[0]) + AllTakenUp(Next(p, steps[0]), steps[1..])
  }

  lemma QueueMoves(p: Pool, step: Step)
    requires Enabled(p, step)
    ensures p.queue + PutIn(p, step) == TakenUp(p, step) + Next(p, step).queue
  {
  }

  /** Under every interleaving jobs are taken up, by whichever worker, in the order in which they were
      submitted; those not taken up yet are what the queue holds. */
  lemma {:induction false} FirstInFirstOut(p: Pool, steps: seq<Step>)
    requires PossibleRun(p, steps)
    ensures p.queue + AllPutIn(p, steps) == AllTakenUp(p, steps) + Run(p, steps).queue
    decreases |steps|
  {
    if steps != [] {
      var next, rest := Next(p, steps[0]), steps[1..];
      QueueMoves(p, steps[0]);
      FirstInFirstOut(next, rest);
      QueueSteps(p.queue, PutIn(p, steps[0]), TakenUp(p, steps[0]), next.queue,
                 AllPutIn(next, rest), AllTakenUp(next, rest), Run(next, rest).queue);
    }
  }
}
