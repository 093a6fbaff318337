/** What dispatching, backpressure and the worker pool do, said without the functions that compute it. */
module JobScheduling {
  import opened Options
  import opened Pids
  import opened Sequences
  import opened JobQueue
  import opened JobRuns

  // ---------- dispatching ----------

  /** The workers that answer as alive, in order. */
  function Living(idle: seq<Pid>, up: set<Pid>): (r: seq<Pid>)
    ensures forall w :: w in r <==> w in idle && w in up
    ensures |r| <= |idle|
  {
    if idle == [] then []
    else
      var last := idle[|idle| - 1];
      assert idle == idle[..|idle| - 1] + [last];
      Living(idle[..|idle| - 1], up) + (if last in up then [last] else [])
  }

  function Min(a: nat, b: nat): nat {
    if a < b then a else b
  }

  /** As many jobs are sent as there are pending jobs and living idle workers: the jobs waiting longest, in order, to
      the workers that became idle last, most recent first. */
  ghost predicate Sends(out: seq<Effect>, living: seq<Pid>, pending: seq<Job>, sent: seq<Effect>) {
    && out <= sent && |sent| == |out| + Min(|pending|, |living|)
    && forall k :: 0 <= k < |sent| - |out| ==> sent[|out| + k] == Process(living[|living| - 1 - k], pending[k])
  }

  /** The jobs sent are no longer pending and their workers no longer idle; the living workers left are idle as
      before. */
  ghost predicate DispatchesTo(q: Queue, up: set<Pid>, r: Queue) {
    var living := Living(q.idle, up);
    var n := Min(|q.pending|, |living|);
    && Sends(q.out, living, q.pending, r.out)
    && r.pending == q.pending[n..]
    && Living(r.idle, up) == living[..|living| - n]
    && r.idle <= q.idle
  }

  lemma {:induction false} DispatchExact(q: Queue, up: set<Pid>)
    ensures DispatchesTo(q, up, DispatchNext(q, up))
    decreases |q.idle|
  {
    hide Living, DispatchesTo;
    if q.idle == [] {
      NoneSent(q, up);
    } else {
      var w := q.idle[|q.idle| - 1];
      var rest := q.(idle := q.idle[..|q.idle| - 1]);
      if w !in up {
        var next := rest.(all := Except(q.all, w));
        DispatchExact(next, up);
        DeadSkipped(q, next, up, DispatchNext(next, up), w);
      } else if q.pending == [] {
        NoneSent(q, up);
      } else {
        var next := rest.(pending := q.pending[1..], inFlight := q.inFlight[w := q.pending[0]],
                          out := q.out + [Process(w, q.pending[0])]);
        DispatchExact(next, up);
        DispatchOneMore(q, next, up, DispatchNext(next, up), w);
      }
    }
  }

  lemma NoneSent(q: Queue, up: set<Pid>)
    requires q.idle == [] || q.pending == []
    ensures DispatchesTo(q, up, q)
  {
    var living := Living(q.idle, up);
    hide Living, Sends;
    SendsNone(q.out, living, q.pending);
    assert q.pending[0..] == q.pending;
    assert living[..|living|] == living;
  }

  lemma SendsNone(out: seq<Effect>, living: seq<Pid>, pending: seq<Job>)
    requires living == [] || pending == []
    ensures Sends(out, living, pending, out)
  {}

  lemma DeadSkipped(q: Queue, next: Queue, up: set<Pid>, r: Queue, w: Pid)
    requires q.idle == next.idle + [w] && w !in up && next.pending == q.pending && next.out == q.out
    requires DispatchesTo(next, up, r)
    ensures DispatchesTo(q, up, r)
  {
    LivingLast(next.idle, w, up);
    hide Living, Sends;
    assert Living(next.idle, up) + [] == Living(next.idle, up);
  }

  lemma DispatchOneMore(q: Queue, next: Queue, up: set<Pid>, r: Queue, w: Pid)
    requires q.idle == next.idle + [w] && q.pending != [] && w in up
    requires next.pending == q.pending[1..] && next.out == q.out + [Process(w, q.pending[0])]
    requires DispatchesTo(next, up, r)
    ensures DispatchesTo(q, up, r)
  {
    var fewer := Living(next.idle, up);
    LivingLast(next.idle, w, up);
    hide Living, Sends;
    OneMoreSent(q.out, w, fewer, q.pending, r.out);
    var n := Min(|next.pending|, |fewer|);
    assert next.pending[n..] == q.pending[n + 1..];
    assert fewer[..|fewer| - n] == (fewer + [w])[..|fewer| + 1 - (n + 1)];
  }

  lemma LivingLast(idle: seq<Pid>, w: Pid, up: set<Pid>)
    ensures Living(idle + [w], up) == Living(idle, up) + if w in up then [w] else []
  {
    assert (idle + [w])[..|idle|] == idle;
  }

  /** The sends after the first one are the sends that remain. */
  lemma OneMoreSent(out: seq<Effect>, w: Pid, fewer: seq<Pid>, pending: seq<Job>, sent: seq<Effect>)
    requires pending != [] && Sends(out + [Process(w, pending[0])], fewer, pending[1..], sent)
    ensures Sends(out, fewer + [w], pending, sent)
  {
    var first := out + [Process(w, pending[0])];
    assert sent[|out|] == first[|out|];
    forall k: nat | k < |sent| - |out| ensures sent[|out| + k] == Process((fewer + [w])[|fewer| - k], pending[k]) {
      if k > 0 { assert sent[|first| + (k - 1)] == Process(fewer[|fewer| - 1 - (k - 1)], pending[1..][k - 1]); }
    }
  }

  /** What is in flight after a dispatch is what was, and what was dispatched. */
  ghost predicate Flies(q: Queue, up: set<Pid>, r: Queue, w: Pid) {
    && (w in q.inFlight ==> w in r.inFlight && r.inFlight[w] == q.inFlight[w])
    && (w in r.inFlight && w !in q.inFlight ==>
          w in q.idle && w in up && q.out <= r.out && Process(w, r.inFlight[w]) in r.out[|q.out|..])
  }

  lemma {:induction false} DispatchInFlight(q: Queue, up: set<Pid>, w: Pid)
    requires NoDup(q.idle) && forall v :: v in q.idle ==> v !in q.inFlight
    ensures Flies(q, up, DispatchNext(q, up), w)
    decreases |q.idle|
  {
    if q.idle != [] {
      var v := q.idle[|q.idle| - 1];
      var rest := q.(idle := q.idle[..|q.idle| - 1]);
      assert v !in rest.idle;
      if v !in up {
        DispatchInFlight(rest.(all := Except(q.all, v)), up, w);
      } else if q.pending != [] {
        var next := rest.(pending := q.pending[1..], inFlight := q.inFlight[v := q.pending[0]],
                          out := q.out + [Process(v, q.pending[0])]);
        assert forall u :: u in next.idle ==> u in q.idle && u != v;
        DispatchInFlight(next, up, w);
        DispatchGrows(next, up);
        hide DispatchNext;
        OneMoreFlies(q, next, up, DispatchNext(next, up), v, w);
      }
    }
  }

  lemma OneMoreFlies(q: Queue, next: Queue, up: set<Pid>, r: Queue, v: Pid, w: Pid)
    requires q.idle == next.idle + [v] && v in up && v !in q.inFlight && q.pending != []
    requires next.inFlight == q.inFlight[v := q.pending[0]] && next.out == q.out + [Process(v, q.pending[0])]
    requires next.out <= r.out && Flies(next, up, r, w)
    ensures Flies(q, up, r, w)
  {
    assert r.out[|q.out|..] == [Process(v, q.pending[0])] + r.out[|next.out|..];
  }

  // ---------- which workers are tracked ----------

  /** A dispatch forgets only idle workers that do not answer. */
  lemma {:induction false} DispatchTracked(q: Queue, up: set<Pid>, w: Pid)
    ensures w in DispatchNext(q, up).all ==> w in q.all
    ensures w in q.all && (w in up || w !in q.idle) ==> w in DispatchNext(q, up).all
    decreases |q.idle|
  {
    if q.idle != [] {
      var v := q.idle[|q.idle| - 1];
      var rest := q.(idle := q.idle[..|q.idle| - 1]);
      if v !in up {
        DispatchTracked(rest.(all := Except(q.all, v)), up, w);
      } else if q.pending != [] {
        DispatchTracked(rest.(pending := q.pending[1..], inFlight := q.inFlight[v := q.pending[0]],
                              out := q.out + [Process(v, q.pending[0])]), up, w);
      }
    }
  }

  ghost predicate AnswersAlways(ups: seq<set<Pid>>, w: Pid) {
    forall i :: 0 <= i < |ups| ==> w in ups[i]
  }

  lemma {:induction false} BatchTracked(q: Queue, jobs: seq<Job>, ups: seq<set<Pid>>, w: Pid)
    requires |ups| == |jobs|
    ensures w in EnqueueBatch(q, jobs, ups).all ==> w in q.all
    ensures w in q.all && AnswersAlways(ups, w) ==> w in EnqueueBatch(q, jobs, ups).all
  {
    if jobs != [] {
      var n := |jobs| - 1;
      BatchTracked(q, jobs[..n], ups[..n], w);
      EnqueueTracked(EnqueueBatch(q, jobs[..n], ups[..n]), jobs[n], ups[n], w);
    }
  }

  lemma EnqueueTracked(q: Queue, job: Job, up: set<Pid>, w: Pid)
    ensures w in Enqueue(q, job, up).all ==> w in q.all
    ensures w in q.all && w in up ==> w in Enqueue(q, job, up).all
  {
    DispatchTracked(q.(pending := q.pending + [job], out := q.out + [Accept(job)]), up, w);
  }

  /** The worker a message adds to the pool: one is spawned on request, and in place of a tracked worker that died. */
  predicate Joins(q: Queue, msg: Msg, spawned: Option<Pid>, w: Pid) {
    (msg.AddWorkerMsg? || (msg.DownMsg? && msg.worker in q.all)) && spawned == Some(w)
  }

  /** The worker a message takes out of the pool: one that died, or on request the one idle last. */
  predicate Goes(q: Queue, msg: Msg, w: Pid) {
    msg == DownMsg(w) || (msg.RemoveWorkerMsg? && q.idle != [] && q.idle[|q.idle| - 1] == w)
  }

  /** The pool changes by the workers that join and go and by nothing else, except that workers that do not answer are
      forgotten; in particular a worker keeps its place when it answers a job, and a worker that died is replaced. */
  lemma TrackedExact(q: Queue, msg: Msg, ups: seq<set<Pid>>, spawned: Option<Pid>, w: Pid)
    requires msg.BatchMsg? ==> |ups| == |msg.jobs|
    requires !msg.BatchMsg? ==> |ups| == 1
    ensures var r := Handler(q, msg, ups, spawned);
      && (w in r.all ==> Joins(q, msg, spawned, w) || (w in q.all && !Goes(q, msg, w)))
      && (AnswersAlways(ups, w) && (Joins(q, msg, spawned, w) || (w in q.all && !Goes(q, msg, w))) ==> w in r.all)
  {
    match msg
    case EnqueueMsg(job) => EnqueueTracked(q, job, ups[0], w);
    case BatchMsg(jobs) => BatchTracked(q, jobs, ups, w);
    case ResultMsg(v, result) => ResultTracked(q, v, result, ups[0], w);
    case DownMsg(v) => DownTracked(q, v, spawned, ups[0], w);
    case AddWorkerMsg => SpawnTracked(q, spawned, ups[0], w);
    case RemoveWorkerMsg =>
  }

  lemma ResultTracked(q: Queue, v: Pid, result: JobResult, up: set<Pid>, w: Pid)
    ensures w in HandleJobResult(q, v, result, up).all ==> w in q.all
    ensures w in q.all && w in up ==> w in HandleJobResult(q, v, result, up).all
  {
    assert Settle(q, v, result).all == q.all;
    DispatchTracked(Settle(q, v, result), up, w);
  }

  lemma SpawnTracked(q: Queue, spawned: Option<Pid>, up: set<Pid>, w: Pid)
    ensures w in SpawnWorker(q, spawned, up).all ==> w in q.all || spawned == Some(w)
    ensures (w in q.all || spawned == Some(w)) && w in up ==> w in SpawnWorker(q, spawned, up).all
  {
    if spawned.Some? {
      DispatchTracked(q.(all := q.all + [spawned.value], idle := q.idle + [spawned.value]), up, w);
    }
  }

  lemma DownTracked(q: Queue, v: Pid, spawned: Option<Pid>, up: set<Pid>, w: Pid)
    ensures var r := HandleDown(q, v, spawned, up);
      && (w in r.all ==> (v in q.all && spawned == Some(w)) || (w in q.all && w != v))
      && (w in up && ((v in q.all && spawned == Some(w)) || (w in q.all && w != v)) ==> w in r.all)
  {
    assert Bury(q, v).all == Except(q.all, v);
    SpawnTracked(Bury(q, v), spawned, up, w);
  }

  // ---------- backpressure ----------

  /** A job is rejected exactly when the accepted jobs not dispatched yet are as many as the queue takes. */
  ghost predicate Backpressure(out: seq<Effect>) {
    forall i :: 0 <= i < |out| ==>
      && (out[i].Reject? ==> |Accepted(out[..i])| >= |Dispatched(out[..i])| + MAX_QUEUE_DEPTH)
      && (out[i].Accept? ==> |Accepted(out[..i])| < |Dispatched(out[..i])| + MAX_QUEUE_DEPTH)
  }

  ghost predicate Good(q: Queue) {
    Fifo(q) && Backpressure(q.out)
  }

  lemma BackpressureMore(out: seq<Effect>, e: Effect)
    requires Backpressure(out)
    requires e.Reject? ==> |Accepted(out)| >= |Dispatched(out)| + MAX_QUEUE_DEPTH
    requires e.Accept? ==> |Accepted(out)| < |Dispatched(out)| + MAX_QUEUE_DEPTH
    ensures Backpressure(out + [e])
  {
    hide Accepted, Dispatched;
    var more := out + [e];
    assert more[..|out|] == out;
    forall i | 0 <= i < |out| ensures more[..i] == out[..i] && more[i] == out[i] {}
  }

  lemma GoodMore(q: Queue, q': Queue, e: Effect)
    requires Good(q) && q'.out == q.out + [e] && q'.pending == q.pending
    requires !e.Accept? && !e.Process? && (e.Reject? ==> |q.pending| >= MAX_QUEUE_DEPTH)
    ensures Good(q')
  {
    Snoc(q.out, e);
    hide Accepted, Dispatched, Backpressure;
    BackpressureMore(q.out, e);
  }

  lemma {:induction false} DispatchGood(q: Queue, up: set<Pid>)
    requires Good(q)
    ensures Good(DispatchNext(q, up))
    decreases |q.idle|
  {
    hide Accepted, Dispatched, Backpressure;
    if q.idle != [] {
      var w := q.idle[|q.idle| - 1];
      var rest := q.(idle := q.idle[..|q.idle| - 1]);
      if w !in up {
        DispatchGood(rest.(all := Except(q.all, w)), up);
      } else if q.pending != [] {
        var e := Process(w, q.pending[0]);
        var next := rest.(pending := q.pending[1..], inFlight := q.inFlight[w := q.pending[0]], out := q.out + [e]);
        Snoc(q.out, e);
        BackpressureMore(q.out, e);
        assert q.pending == [q.pending[0]] + q.pending[1..];
        assert Dispatched(q.out) + q.pending == Dispatched(q.out) + [q.pending[0]] + q.pending[1..];
        DispatchGood(next, up);
      }
    }
  }

  lemma EnqueueGood(q: Queue, job: Job, up: set<Pid>)
    requires Good(q)
    ensures Good(Enqueue(q, job, up))
  {
    hide Accepted, Dispatched, Backpressure;
    if |q.pending| >= MAX_QUEUE_DEPTH {
      GoodMore(q, q.(out := q.out + [Reject(job)]), Reject(job));
    } else {
      var q' := q.(pending := q.pending + [job], out := q.out + [Accept(job)]);
      Snoc(q.out, Accept(job));
      BackpressureMore(q.out, Accept(job));
      assert Accepted(q'.out) == Dispatched(q.out) + q.pending + [job];
      DispatchGood(q', up);
    }
  }

  lemma {:induction false} BatchGood(q: Queue, jobs: seq<Job>, ups: seq<set<Pid>>)
    requires |ups| == |jobs| && Good(q)
    ensures Good(EnqueueBatch(q, jobs, ups))
  {
    hide Good;
    if jobs != [] {
      var n := |jobs| - 1;
      BatchGood(q, jobs[..n], ups[..n]);
      EnqueueGood(EnqueueBatch(q, jobs[..n], ups[..n]), jobs[n], ups[n]);
    }
  }

  lemma RetryGood(q: Queue, job: Job)
    requires Good(q)
    ensures Good(SendToRetry(q, job))
  {
    hide Good, Pow2;
    var again := Bump(job);
    var e := if again.retryCount > MAX_RETRIES then DeadLetter(again) else Retry(again, Pow2(again.retryCount - 1));
    GoodMore(q, q.(out := q.out + [e]), e);
  }

  lemma SameGood(q: Queue, q': Queue)
    requires Good(q) && q'.out == q.out && q'.pending == q.pending
    ensures Good(q')
  {}

  lemma SettleGood(q: Queue, w: Pid, result: JobResult)
    requires Good(q)
    ensures Good(Settle(q, w, result))
  {
    hide Good, SendToRetry;
    var freed := q.(inFlight := q.inFlight - {w}, idle := q.idle + [w]);
    SameGood(q, freed);
    match result
    case Success(id, ms) =>
      GoodMore(freed, freed.(out := q.out + [Done(InFlight(q, w), id, ms)]), Done(InFlight(q, w), id, ms));
    case _ =>
      var failed := freed.(out := q.out + [Failure(result.jobId)]);
      GoodMore(freed, failed, Failure(result.jobId));
      if w in q.inFlight { RetryGood(failed, q.inFlight[w]); }
  }

  lemma SpawnGood(q: Queue, spawned: Option<Pid>, up: set<Pid>)
    requires Good(q)
    ensures Good(SpawnWorker(q, spawned, up))
  {
    hide Good;
    if spawned.Some? {
      var q' := q.(all := q.all + [spawned.value], idle := q.idle + [spawned.value]);
      SameGood(q, q');
      DispatchGood(q', up);
    }
  }

  lemma DownGood(q: Queue, w: Pid, spawned: Option<Pid>, up: set<Pid>)
    requires Good(q)
    ensures Good(HandleDown(q, w, spawned, up))
  {
    hide Good, SendToRetry;
    if w in q.all {
      var buried := q.(all := Except(q.all, w), idle := Except(q.idle, w), inFlight := q.inFlight - {w});
      SameGood(q, buried);
      if w in q.inFlight { RetryGood(buried, q.inFlight[w]); }
      SpawnGood(Bury(q, w), spawned, up);
    }
  }

  lemma HandlerGood(q: Queue, msg: Msg, ups: seq<set<Pid>>, spawned: Option<Pid>)
    requires msg.BatchMsg? ==> |ups| == |msg.jobs|
    requires !msg.BatchMsg? ==> |ups| == 1
    requires Good(q)
    ensures Good(Handler(q, msg, ups, spawned))
  {
    hide Good;
    match msg
    case EnqueueMsg(job) => EnqueueGood(q, job, ups[0]);
    case BatchMsg(jobs) => BatchGood(q, jobs, ups);
    case ResultMsg(w, result) =>
      SettleGood(q, w, result);
      DispatchGood(Settle(q, w, result), ups[0]);
    case DownMsg(w) => DownGood(q, w, spawned, ups[0]);
    case AddWorkerMsg => SpawnGood(q, spawned, ups[0]);
    case RemoveWorkerMsg =>
      if q.idle != [] {
        var w := q.idle[|q.idle| - 1];
        GoodMore(q, RemoveIdleWorker(q), Terminate(w));
      }
  }

  lemma {:induction false} RunGood(initialWorkers: nat, xs: seq<World>, steps: seq<Step>, k: nat)
    requires IsRun(initialWorkers, xs, steps) && k < |xs|
    ensures Good(xs[k].q)
  {
    hide Good, Handler;
    if k == 0 {
      assert xs[0].q == Empty();
      assert Good(Empty()) by { NothingGood(); }
    } else {
      RunGood(initialWorkers, xs, steps, k - 1);
      GoodNext(xs[k - 1], steps[k - 1]);
    }
  }

  lemma NothingGood()
    ensures Good(Empty())
  {}

  lemma GoodNext(x: World, st: Step)
    requires Good(x.q) && Enabled(x, st)
    ensures Good(Exec(x, st).q)
  {
    hide Good, Handler;
    if st.Handle? {
      HandlerGood(x.q, x.mailbox[0], st.ups, st.spawned);
    }
  }

  /** In every run a job is rejected exactly when 100 accepted jobs are waiting to be dispatched, and accepted exactly
      when fewer are. */
  lemma RejectsOnlyWhenFull(initialWorkers: nat, xs: seq<World>, steps: seq<Step>, k: nat, i: nat)
    requires IsRun(initialWorkers, xs, steps) && k < |xs| && i < |xs[k].q.out|
    ensures var out := xs[k].q.out;
      && (out[i].Reject? ==> |Accepted(out[..i])| - |Dispatched(out[..i])| >= MAX_QUEUE_DEPTH)
      && (out[i].Accept? ==> |Accepted(out[..i])| - |Dispatched(out[..i])| < MAX_QUEUE_DEPTH)
  {
    RunGood(initialWorkers, xs, steps, k);
  }

  // ---------- reports ----------

  /** Every result is reported first, under the job's own number; only then its job is retried or set aside. */
  lemma ResultReported(q: Queue, w: Pid, result: JobResult, up: set<Pid>)
    ensures var r := HandleJobResult(q, w, result, up);
      && |q.out| < |r.out|
      && r.out[|q.out|] == match result
                           case Success(id, ms) => Done(InFlight(q, w), id, ms)
                           case Failed(id, _) => Failure(id)
                           case Crashed(id) => Failure(id)
  {
    DispatchGrows(Settle(q, w, result), up);
    assert q.out < Settle(q, w, result).out;
  }

  // ---------- dismissals ----------

  /** More was said, and nobody was told to stop. */
  ghost predicate NobodyStopped(out: seq<Effect>, more: seq<Effect>) {
    out <= more && forall i :: |out| <= i < |more| ==> !more[i].Terminate?
  }

  lemma SendsStopNobody(out: seq<Effect>, living: seq<Pid>, pending: seq<Job>, sent: seq<Effect>)
    requires Sends(out, living, pending, sent)
    ensures NobodyStopped(out, sent)
  {
    forall i | |out| <= i < |sent| ensures !sent[i].Terminate? {
      var k := i - |out|;
      assert sent[|out| + k] == Process(living[|living| - 1 - k], pending[k]);
    }
  }

  lemma DispatchStopsNobody(q: Queue, up: set<Pid>)
    ensures NobodyStopped(q.out, DispatchNext(q, up).out)
  {
    DispatchExact(q, up);
    SendsStopNobody(q.out, Living(q.idle, up), q.pending, DispatchNext(q, up).out);
  }

  lemma EnqueueStopsNobody(q: Queue, job: Job, up: set<Pid>)
    ensures NobodyStopped(q.out, Enqueue(q, job, up).out)
  {
    DispatchStopsNobody(q.(pending := q.pending + [job], out := q.out + [Accept(job)]), up);
  }

  lemma {:induction false} BatchStopsNobody(q: Queue, jobs: seq<Job>, ups: seq<set<Pid>>)
    requires |ups| == |jobs|
    ensures NobodyStopped(q.out, EnqueueBatch(q, jobs, ups).out)
  {
    if jobs != [] {
      var n := |jobs| - 1;
      BatchStopsNobody(q, jobs[..n], ups[..n]);
      EnqueueStopsNobody(EnqueueBatch(q, jobs[..n], ups[..n]), jobs[n], ups[n]);
    }
  }

  lemma SpawnStopsNobody(q: Queue, spawned: Option<Pid>, up: set<Pid>)
    ensures NobodyStopped(q.out, SpawnWorker(q, spawned, up).out)
  {
    if spawned.Some? {
      DispatchStopsNobody(q.(all := q.all + [spawned.value], idle := q.idle + [spawned.value]), up);
    }
  }

  /** A worker is told to stop exactly when a removal is asked for and it is the one idle last; no other message and no
      failure dismisses anybody. */
  lemma TerminatesExactly(q: Queue, msg: Msg, ups: seq<set<Pid>>, spawned: Option<Pid>, w: Pid)
    requires msg.BatchMsg? ==> |ups| == |msg.jobs|
    requires !msg.BatchMsg? ==> |ups| == 1
    ensures q.out <= Handler(q, msg, ups, spawned).out
    ensures Terminate(w) in Handler(q, msg, ups, spawned).out[|q.out|..] <==>
      msg.RemoveWorkerMsg? && q.idle != [] && q.idle[|q.idle| - 1] == w
  {
    hide DispatchNext, Enqueue, EnqueueBatch, SpawnWorker, Pow2;
    match msg
    case EnqueueMsg(job) => EnqueueStopsNobody(q, job, ups[0]);
    case BatchMsg(jobs) => BatchStopsNobody(q, jobs, ups);
    case ResultMsg(v, result) => DispatchStopsNobody(Settle(q, v, result), ups[0]);
    case DownMsg(v) => SpawnStopsNobody(Bury(q, v), spawned, ups[0]);
    case AddWorkerMsg => SpawnStopsNobody(q, spawned, ups[0]);
    case RemoveWorkerMsg =>
  }
}
