/** The job queue: pending jobs, idle workers, jobs in flight, and everything it tells the outside. */
module JobQueue {
  import opened Options
  import opened Pids
  import opened Sequences

  datatype JobType = Resize | Thumbnail | Watermark | Compress

  /** What a job is, apart from how often it has been retried. */
  datatype Spec = Spec(id: nat, jobType: JobType, filename: string)
  datatype Job = Job(spec: Spec, retryCount: nat)

  const MAX_RETRIES: nat := 3
  const MAX_QUEUE_DEPTH: nat := 100

  datatype JobResult = Success(jobId: nat, durationMs: nat) | Failed(jobId: nat, error: string) | Crashed(jobId: nat)

  /** What the queue tells its surroundings, in order, with the job concerned: reports to the statistics server,
      the log line for a rejected job, casts to workers, the dead-letter store and the timer service. */
  datatype Effect =
    | Accept(job: Job)
    | Reject(job: Job)
    | Process(worker: Pid, job: Job)
    | Done(done: Option<Job>, jobId: nat, durationMs: nat)
    | Failure(jobId: nat)
    | Retry(job: Job, seconds: nat)
    | DeadLetter(job: Job)
    | Terminate(worker: Pid)

  datatype Queue = Queue(pending: seq<Job>, inFlight: map<Pid, Job>, idle: seq<Pid>, all: seq<Pid>, out: seq<Effect>)

  function Empty(): Queue { Queue([], map[], [], [], []) }

  /** `retain(|w| w != pid)`. */
  function Except(pids: seq<Pid>, pid: Pid): (r: seq<Pid>)
    ensures forall w :: w in r <==> w in pids && w != pid
    ensures NoDup(pids) ==> NoDup(r)
  {
    if pids == [] then [] else
      var r := Except(pids[..|pids| - 1], pid);
      var last := pids[|pids| - 1];
      assert pids == pids[..|pids| - 1] + [last];
      assert NoDup(pids) ==> last !in pids[..|pids| - 1];
      if last == pid then r else r + [last]
  }

  function Pow2(n: nat): nat {
    if n == 0 then 1 else 2 * Pow2(n - 1)
  }

  // ---------- the operations ----------

  function Bump(job: Job): Job {
    job.(retryCount := job.retryCount + 1)
  }

  /** A failed job is retried after 1, 2 or 4 seconds, and set aside after its last retry. */
  function SendToRetry(q: Queue, job: Job): Queue {
    var again := Bump(job);
    q.(out := q.out + [if again.retryCount > MAX_RETRIES then DeadLetter(again)
                       else Retry(again, Pow2(again.retryCount - 1))])
  }

  /** Pairs idle workers with pending jobs, the worker idle last with the job waiting longest. `up` are the workers
      that answer as alive; the others are forgotten. */
  function DispatchNext(q: Queue, up: set<Pid>): Queue
    decreases |q.idle|
  {
    if q.idle == [] then q else
      var w := q.idle[|q.idle| - 1];
      var rest := q.(idle := q.idle[..|q.idle| - 1]);
      if w !in up then DispatchNext(rest.(all := Except(q.all, w)), up)
      else if q.pending == [] then q
      else DispatchNext(rest.(pending := q.pending[1..], inFlight := q.inFlight[w := q.pending[0]],
                              out := q.out + [Process(w, q.pending[0])]), up)
  }

  function Enqueue(q: Queue, job: Job, up: set<Pid>): Queue {
    if |q.pending| >= MAX_QUEUE_DEPTH then q.(out := q.out + [Reject(job)])
    else DispatchNext(q.(pending := q.pending + [job], out := q.out + [Accept(job)]), up)
  }

  function EnqueueBatch(q: Queue, jobs: seq<Job>, ups: seq<set<Pid>>): Queue
    requires |ups| == |jobs|
  {
    if jobs == [] then q
    else Enqueue(EnqueueBatch(q, jobs[..|jobs| - 1], ups[..|ups| - 1]), jobs[|jobs| - 1], ups[|ups| - 1])
  }

  function InFlight(q: Queue, w: Pid): Option<Job> {
    if w in q.inFlight then Some(q.inFlight[w]) else None
  }

  /** A result frees its worker; a success settles the job, anything else sends it to retry. */
  function Settle(q: Queue, w: Pid, result: JobResult): Queue {
    var freed := q.(inFlight := q.inFlight - {w}, idle := q.idle + [w]);
    match result
    case Success(id, ms) => freed.(out := q.out + [Done(InFlight(q, w), id, ms)])
    case _ =>
      var failed := freed.(out := q.out + [Failure(result.jobId)]);
      if w in q.inFlight then SendToRetry(failed, q.inFlight[w]) else failed
  }

  function HandleJobResult(q: Queue, w: Pid, result: JobResult, up: set<Pid>): Queue {
    DispatchNext(Settle(q, w, result), up)
  }

  function SpawnWorker(q: Queue, spawned: Option<Pid>, up: set<Pid>): Queue {
    if spawned.None? then q
    else DispatchNext(q.(all := q.all + [spawned.value], idle := q.idle + [spawned.value]), up)
  }

  function RemoveIdleWorker(q: Queue): Queue {
    if q.idle == [] then q else
      var w := q.idle[|q.idle| - 1];
      q.(idle := q.idle[..|q.idle| - 1], all := Except(q.all, w), out := q.out + [Terminate(w)])
  }

  /** A tracked worker that died is forgotten and its job goes to retry. */
  function Bury(q: Queue, w: Pid): Queue {
    var buried := q.(all := Except(q.all, w), idle := Except(q.idle, w), inFlight := q.inFlight - {w});
    if w in q.inFlight then SendToRetry(buried, q.inFlight[w]) else buried
  }

  /** The death of a worker that is no longer tracked is ignored; otherwise a replacement is spawned. */
  function HandleDown(q: Queue, w: Pid, spawned: Option<Pid>, up: set<Pid>): Queue {
    if w !in q.all then q else SpawnWorker(Bury(q, w), spawned, up)
  }

  // ---------- nothing said is taken back ----------

  lemma {:induction false} DispatchGrows(q: Queue, up: set<Pid>)
    ensures q.out <= DispatchNext(q, up).out
    decreases |q.idle|
  {
    if q.idle != [] {
      var w := q.idle[|q.idle| - 1];
      var rest := q.(idle := q.idle[..|q.idle| - 1]);
      if w !in up {
        DispatchGrows(rest.(all := Except(q.all, w)), up);
      } else if q.pending != [] {
        DispatchGrows(rest.(pending := q.pending[1..], inFlight := q.inFlight[w := q.pending[0]],
                            out := q.out + [Process(w, q.pending[0])]), up);
      }
    }
  }

  lemma {:induction false} BatchGrows(q: Queue, jobs: seq<Job>, ups: seq<set<Pid>>)
    requires |ups| == |jobs|
    ensures q.out <= EnqueueBatch(q, jobs, ups).out
  {
    if jobs != [] {
      var n := |jobs| - 1;
      BatchGrows(q, jobs[..n], ups[..n]);
      EnqueueGrows(EnqueueBatch(q, jobs[..n], ups[..n]), jobs[n], ups[n]);
    }
  }

  lemma EnqueueGrows(q: Queue, job: Job, up: set<Pid>)
    ensures q.out <= Enqueue(q, job, up).out
  {
    DispatchGrows(q.(pending := q.pending + [job], out := q.out + [Accept(job)]), up);
  }

  lemma SpawnGrows(q: Queue, spawned: Option<Pid>, up: set<Pid>)
    ensures q.out <= SpawnWorker(q, spawned, up).out
  {
    if spawned.Some? {
      DispatchGrows(q.(all := q.all + [spawned.value], idle := q.idle + [spawned.value]), up);
    }
  }

  // ---------- the object ----------

  class JobQueue {
    var pending: seq<Job>
    var inFlight: map<Pid, Job>
    var idle: seq<Pid>
    var all: seq<Pid>
    var out: seq<Effect>

    ghost function State(): Queue
      reads this
    {
      Queue(pending, inFlight, idle, all, out)
    }

    constructor ()
      ensures State() == Empty()
    {
      pending, inFlight, idle, all, out := [], map[], [], [], [];
    }

    method DoDispatchNext(up: set<Pid>)
      modifies this
      ensures State() == DispatchNext(old(State()), up)
    {
      while idle != []
        invariant DispatchNext(State(), up) == DispatchNext(old(State()), up)
        decreases |idle|
      {
        var w := idle[|idle| - 1];
        idle := idle[..|idle| - 1];
        if w !in up {
          all := Except(all, w);
          continue;
        }
        if pending != [] {
          var job := pending[0];
          pending := pending[1..];
          out := out + [Process(w, job)];
          inFlight := inFlight[w := job];
        } else {
          idle := idle + [w];
          break;
        }
      }
    }

    method DoEnqueue(job: Job, up: set<Pid>)
      modifies this
      ensures State() == Enqueue(old(State()), job, up)
    {
      if |pending| >= MAX_QUEUE_DEPTH {
        out := out + [Reject(job)];
        return;
      }
      out := out + [Accept(job)];
      pending := pending + [job];
      DoDispatchNext(up);
    }

    method DoEnqueueBatch(jobs: seq<Job>, ups: seq<set<Pid>>)
      requires |ups| == |jobs|
      modifies this
      ensures State() == EnqueueBatch(old(State()), jobs, ups)
    {
      var i := 0;
      while i < |jobs|
        invariant 0 <= i <= |jobs|
        invariant State() == EnqueueBatch(old(State()), jobs[..i], ups[..i])
      {
        assert jobs[..i + 1][..i] == jobs[..i] && ups[..i + 1][..i] == ups[..i];
        DoEnqueue(jobs[i], ups[i]);
        i := i + 1;
      }
      assert jobs[..i] == jobs && ups[..i] == ups;
    }

    method DoSendToRetry(job: Job)
      modifies this`out
      ensures State() == SendToRetry(old(State()), job)
    {
      var again := job.(retryCount := job.retryCount + 1);
      if again.retryCount > MAX_RETRIES {
        out := out + [DeadLetter(again)];
      } else {
        out := out + [Retry(again, Pow2(again.retryCount - 1))];
      }
    }

    method DoHandleJobResult(w: Pid, result: JobResult, up: set<Pid>)
      modifies this
      ensures State() == HandleJobResult(old(State()), w, result, up)
    {
      var job := if w in inFlight then Some(inFlight[w]) else None;
      inFlight := inFlight - {w};
      idle := idle + [w];
      match result {
        case Success(id, ms) => out := out + [Done(job, id, ms)];
        case Failed(id, _) =>
          out := out + [Failure(id)];
          if job.Some? { DoSendToRetry(job.value); }
        case Crashed(id) =>
          out := out + [Failure(id)];
          if job.Some? { DoSendToRetry(job.value); }
      }
      assert State() == Settle(old(State()), w, result);
      DoDispatchNext(up);
    }

    method DoSpawnWorker(spawned: Option<Pid>, up: set<Pid>)
      modifies this
      ensures State() == SpawnWorker(old(State()), spawned, up)
    {
      if spawned.Some? {
        all := all + [spawned.value];
        idle := idle + [spawned.value];
        DoDispatchNext(up);
      }
    }

    method DoRemoveIdleWorker()
      modifies this
      ensures State() == RemoveIdleWorker(old(State()))
    {
      if idle != [] {
        var w := idle[|idle| - 1];
        idle := idle[..|idle| - 1];
        all := Except(all, w);
        out := out + [Terminate(w)];
      }
    }

    method DoHandleDown(w: Pid, spawned: Option<Pid>, up: set<Pid>)
      modifies this
      ensures State() == HandleDown(old(State()), w, spawned, up)
    {
      if w !in all {
        return;
      }
      all := Except(all, w);
      idle := Except(idle, w);
      if w in inFlight {
        var job := inFlight[w];
        inFlight := inFlight - {w};
        DoSendToRetry(job);
      }
      assert State() == Bury(old(State()), w);
      DoSpawnWorker(spawned, up);
    }
  }
}
