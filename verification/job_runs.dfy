/** Whole runs of the job queue with its workers, timers and crashes.

    The queue handles one message at a time from a FIFO mailbox. A worker answers the job it was sent with one
    result, or dies; then its monitor posts a Down message, behind any result it had posted before. New workers
    have pids never used before. The named servers stay registered, so every report, cast and timer is accepted.
    Which workers answer as alive is decided anew at every dispatch, in any way. */
module JobRuns {
  import opened Options
  import opened Pids
  import opened Sequences
  import opened JobQueue

  datatype Msg =
    | EnqueueMsg(job: Job)
    | BatchMsg(jobs: seq<Job>)
    | ResultMsg(worker: Pid, result: JobResult)
    | DownMsg(worker: Pid)
    | AddWorkerMsg
    | RemoveWorkerMsg

  /** `live` maps each living worker to the jobs it was sent and has not answered; `inHand` are the jobs of the
      message being handled that are neither accepted nor rejected yet (none between messages). */
  datatype World = World(
    q: Queue, mailbox: seq<Msg>, inHand: multiset<Job>, live: map<Pid, seq<Job>>, known: set<Pid>,
    timers: multiset<Job>, submitted: multiset<Job>)

  datatype Step =
    | Submit(msg: Msg)
    | Command(msg: Msg)
    | Handle(ups: seq<set<Pid>>, spawned: Option<Pid>)
    | Fire(job: Job)
    | Answer(worker: Pid, result: JobResult)
    | Crash(worker: Pid)

  function JobsIn(msg: Msg): multiset<Job> {
    match msg
    case EnqueueMsg(job) => multiset{job}
    case BatchMsg(jobs) => multiset(jobs)
    case _ => multiset{}
  }

  function MailJobs(mailbox: seq<Msg>): multiset<Job> {
    if mailbox == [] then multiset{} else JobsIn(mailbox[0]) + MailJobs(mailbox[1..])
  }

  /** What a message makes the queue do. */
  function Handler(q: Queue, msg: Msg, ups: seq<set<Pid>>, spawned: Option<Pid>): Queue
    requires msg.BatchMsg? ==> |ups| == |msg.jobs|
    requires !msg.BatchMsg? ==> |ups| == 1
  {
    match msg
    case EnqueueMsg(job) => Enqueue(q, job, ups[0])
    case BatchMsg(jobs) => EnqueueBatch(q, jobs, ups)
    case ResultMsg(w, result) => HandleJobResult(q, w, result, ups[0])
    case DownMsg(w) => HandleDown(q, w, spawned, ups[0])
    case AddWorkerMsg => SpawnWorker(q, spawned, ups[0])
    case RemoveWorkerMsg => RemoveIdleWorker(q)
  }

  lemma HandlerGrows(q: Queue, msg: Msg, ups: seq<set<Pid>>, spawned: Option<Pid>)
    requires msg.BatchMsg? ==> |ups| == |msg.jobs|
    requires !msg.BatchMsg? ==> |ups| == 1
    ensures q.out <= Handler(q, msg, ups, spawned).out
  {
    match msg
    case EnqueueMsg(job) => EnqueueGrows(q, job, ups[0]);
    case BatchMsg(jobs) => BatchGrows(q, jobs, ups);
    case ResultMsg(w, result) => DispatchGrows(Settle(q, w, result), ups[0]);
    case DownMsg(w) => SpawnGrows(Bury(q, w), spawned, ups[0]);
    case AddWorkerMsg => SpawnGrows(q, spawned, ups[0]);
    case RemoveWorkerMsg =>
  }

  predicate Spawns(q: Queue, msg: Msg) {
    msg.AddWorkerMsg? || (msg.DownMsg? && msg.worker in q.all)
  }

  ghost predicate Enabled(x: World, st: Step) {
    match st
    case Submit(msg) => (msg.EnqueueMsg? || msg.BatchMsg?) && forall j :: j in JobsIn(msg) ==> j.retryCount == 0
    case Command(msg) => msg.AddWorkerMsg? || msg.RemoveWorkerMsg?
    case Handle(ups, spawned) =>
      && x.mailbox != []
      && |ups| == (if x.mailbox[0].BatchMsg? then |x.mailbox[0].jobs| else 1)
      && (spawned.Some? ==> spawned.value !in x.known)
    case Fire(job) => job in x.timers
    case Answer(w, result) => w in x.live && x.live[w] != [] && result.jobId == x.live[w][0].spec.id
    case Crash(w) => w in x.live
  }

  /** Casts reach the workers that still live. */
  function Deliver(live: map<Pid, seq<Job>>, e: Effect): map<Pid, seq<Job>> {
    if e.Process? && e.worker in live then live[e.worker := live[e.worker] + [e.job]] else live
  }

  function DeliverAll(live: map<Pid, seq<Job>>, out: seq<Effect>): map<Pid, seq<Job>> {
    if out == [] then live else Deliver(DeliverAll(live, out[..|out| - 1]), out[|out| - 1])
  }

  /** The world after the queue went on to `q`: its new casts are delivered and its new timers run. */
  function Onward(x: World, q: Queue): World
    requires |x.q.out| <= |q.out|
  {
    var news := q.out[|x.q.out|..];
    x.(q := q, live := DeliverAll(x.live, news), timers := x.timers + Tally(news, Retries))
  }

  ghost function Exec(x: World, st: Step): World
    requires Enabled(x, st)
  {
    match st
    case Submit(msg) => x.(mailbox := x.mailbox + [msg], submitted := x.submitted + JobsIn(msg))
    case Command(msg) => x.(mailbox := x.mailbox + [msg])
    case Handle(ups, spawned) =>
      var msg := x.mailbox[0];
      var taken := Take(x);
      var ready := if Spawns(x.q, msg) then Hatch(taken, spawned) else taken;
      HandlerGrows(x.q, msg, ups, spawned);
      Onward(ready, Handler(x.q, msg, ups, spawned)).(inHand := multiset{})
    case Fire(job) => x.(timers := x.timers - multiset{job}, mailbox := x.mailbox + [EnqueueMsg(job)])
    case Answer(w, result) => x.(live := x.live[w := x.live[w][1..]], mailbox := x.mailbox + [ResultMsg(w, result)])
    case Crash(w) => x.(live := x.live - {w}, mailbox := x.mailbox + [DownMsg(w)])
  }

  /** The first message is taken out of the mailbox; its jobs are in hand. */
  function Take(x: World): World
    requires x.mailbox != []
  {
    x.(mailbox := x.mailbox[1..], inHand := JobsIn(x.mailbox[0]))
  }

  /** A spawned worker lives, with nothing to do. */
  function Hatch(x: World, spawned: Option<Pid>): World {
    if spawned.None? then x else x.(live := x.live[spawned.value := []], known := x.known + {spawned.value})
  }

  /** The queue starts by spawning its initial workers, before it handles anything else. */
  ghost function Start(initialWorkers: nat): World {
    World(Empty(), seq(initialWorkers, _ => AddWorkerMsg), multiset{}, map[], {}, multiset{}, multiset{})
  }

  ghost predicate IsRun(initialWorkers: nat, xs: seq<World>, steps: seq<Step>) {
    && |xs| == |steps| + 1
    && xs[0] == Start(initialWorkers)
    && forall i :: 0 <= i < |steps| ==> Enabled(xs[i], steps[i]) && xs[i + 1] == Exec(xs[i], steps[i])
  }

  // ---------- where jobs have gone ----------

  datatype Kind = Rejects | Dones | Retries | Deads

  function Share(e: Effect, kind: Kind): multiset<Job> {
    match (e, kind)
    case (Reject(job), Rejects) => multiset{job}
    case (Done(Some(job), _, _), Dones) => multiset{job}
    case (Retry(job, _), Retries) => multiset{job}
    case (DeadLetter(job), Deads) => multiset{job}
    case _ => multiset{}
  }

  /** The jobs the effects of one kind are about. */
  function Tally(out: seq<Effect>, kind: Kind): multiset<Job> {
    if out == [] then multiset{} else Tally(out[..|out| - 1], kind) + Share(out[|out| - 1], kind)
  }

  function Accepted(out: seq<Effect>): seq<Job> {
    if out == [] then [] else
      Accepted(out[..|out| - 1]) + (if out[|out| - 1].Accept? then [out[|out| - 1].job] else [])
  }

  function Dispatched(out: seq<Effect>): seq<Job> {
    if out == [] then [] else
      Dispatched(out[..|out| - 1]) + (if out[|out| - 1].Process? then [out[|out| - 1].job] else [])
  }

  ghost function Any(m: map<Pid, Job>): (w: Pid)
    requires m != map[]
    ensures w in m
  {
    var w :| w in m;
    w
  }

  /** The jobs in flight, as often as they are. */
  ghost function Bag(m: map<Pid, Job>): multiset<Job>
    decreases m.Keys
  {
    if m == map[] then multiset{} else multiset{m[Any(m)]} + Bag(m - {Any(m)})
  }

  lemma {:induction false} BagTake(m: map<Pid, Job>, w: Pid)
    requires w in m
    ensures Bag(m) == multiset{m[w]} + Bag(m - {w})
    decreases m.Keys
  {
    hide Bag;
    var v := Any(m);
    BagAny(m);
    if v != w {
      var mv, mw := m - {v}, m - {w};
      assert mv - {w} == mw - {v};
      BagTake(mv, w);
      BagTake(mw, v);
    }
  }

  lemma BagAny(m: map<Pid, Job>)
    requires m != map[]
    ensures Bag(m) == multiset{m[Any(m)]} + Bag(m - {Any(m)})
  {}

  lemma BagPut(m: map<Pid, Job>, w: Pid, job: Job)
    requires w !in m
    ensures Bag(m[w := job]) == Bag(m) + multiset{job}
  {
    BagTake(m[w := job], w);
    assert m[w := job] - {w} == m;
  }

  lemma Snoc(out: seq<Effect>, e: Effect)
    ensures forall kind :: Tally(out + [e], kind) == Tally(out, kind) + Share(e, kind)
    ensures Accepted(out + [e]) == Accepted(out) + (if e.Accept? then [e.job] else [])
    ensures Dispatched(out + [e]) == Dispatched(out) + (if e.Process? then [e.job] else [])
  {}

  lemma {:induction false} MailAppend(mailbox: seq<Msg>, msg: Msg)
    ensures MailJobs(mailbox + [msg]) == MailJobs(mailbox) + JobsIn(msg)
  {
    if mailbox != [] {
      assert (mailbox + [msg])[1..] == mailbox[1..] + [msg];
      MailAppend(mailbox[1..], msg);
    } else {
      assert [msg][1..] == [];
      assert mailbox + [msg] == [msg];
    }
  }

  // ---------- the invariant ----------

  /** What was submitted or sent to retry is in the mailbox, in hand, on a timer, accepted or rejected. */
  ghost predicate FlowIn(x: World) {
    x.submitted + Tally(x.q.out, Retries) ==
      MailJobs(x.mailbox) + x.inHand + x.timers + multiset(Accepted(x.q.out)) + Tally(x.q.out, Rejects)
  }

  /** What was accepted was dispatched, in order, or is pending. */
  ghost predicate Fifo(q: Queue) {
    Accepted(q.out) == Dispatched(q.out) + q.pending
  }

  /** What was dispatched is in flight, done, sent to retry or set aside; a failed job moves on one retry older. */
  ghost predicate FlowOut(q: Queue) {
    forall j :: multiset(Dispatched(q.out))[j] ==
      Bag(q.inFlight)[j] + Tally(q.out, Dones)[j] + Tally(q.out, Retries)[Bump(j)] + Tally(q.out, Deads)[Bump(j)]
  }

  ghost predicate Levels(x: World) {
    && (forall j :: j in x.submitted ==> j.retryCount == 0)
    && (forall j :: j in Tally(x.q.out, Retries) ==> 1 <= j.retryCount <= MAX_RETRIES)
    && (forall j :: j in Tally(x.q.out, Deads) ==> j.retryCount == MAX_RETRIES + 1)
  }

  ghost predicate Flow(x: World) {
    FlowIn(x) && Fifo(x.q) && FlowOut(x.q) && Levels(x)
  }

  /** Every tracked worker is either idle or busy, once; and no other worker is. */
  ghost predicate Pool(q: Queue) {
    && NoDup(q.idle) && NoDup(q.all)
    && (forall w :: w in q.idle ==> w in q.all && w !in q.inFlight)
    && (forall w :: w in q.inFlight ==> w in q.all)
    && (forall w :: w in q.all ==> w in q.idle || w in q.inFlight)
  }

  ghost predicate HasResult(mailbox: seq<Msg>, w: Pid) {
    exists i :: 0 <= i < |mailbox| && mailbox[i].ResultMsg? && mailbox[i].worker == w
  }

  ghost predicate HasDown(mailbox: seq<Msg>, w: Pid) {
    DownMsg(w) in mailbox
  }

  /** A result in the mailbox is about the job its worker has in flight, there is one per worker, and none after
      the worker's Down. */
  ghost predicate MailOk(x: World) {
    && (forall i :: 0 <= i < |x.mailbox| && x.mailbox[i].ResultMsg? ==>
          var w := x.mailbox[i].worker;
          && w in x.q.inFlight && x.q.inFlight[w].spec.id == x.mailbox[i].result.jobId
          && (w in x.live ==> x.live[w] == []))
    && (forall i, j ::
          0 <= i < j < |x.mailbox| && x.mailbox[j].ResultMsg? && (x.mailbox[i].ResultMsg? || x.mailbox[i].DownMsg?) ==>
            x.mailbox[i].worker != x.mailbox[j].worker)
    && (forall i :: 0 <= i < |x.mailbox| && x.mailbox[i].DownMsg? ==>
          x.mailbox[i].worker !in x.live && x.mailbox[i].worker in x.known)
  }

  /** A living worker has at most the job the queue has in flight with it; a tracked worker lives or its Down is on
      the way; and every job in flight is with its living worker, or its result or its worker's Down is on the way. */
  ghost predicate WorkersOk(x: World) {
    && (forall w :: w in x.live ==>
          w in x.known && (x.live[w] == [] || (w in x.q.inFlight && x.live[w] == [x.q.inFlight[w]])))
    && (forall w :: w in x.q.all ==> w in x.known && (w in x.live || HasDown(x.mailbox, w)))
    && (forall w :: w in x.q.inFlight ==>
          (w in x.live && x.live[w] == [x.q.inFlight[w]]) || HasResult(x.mailbox, w) || HasDown(x.mailbox, w))
  }

  ghost predicate Bounds(q: Queue) {
    && |q.pending| <= MAX_QUEUE_DEPTH
    && forall i :: 0 <= i < |q.out| && q.out[i].Retry? ==>
         1 <= q.out[i].job.retryCount <= MAX_RETRIES && q.out[i].seconds == Pow2(q.out[i].job.retryCount - 1)
  }

  ghost predicate Core(x: World) {
    Flow(x) && Pool(x.q) && MailOk(x) && WorkersOk(x) && Bounds(x.q)
  }

  /** Between messages nothing is in hand, and there is no idle worker while a job is pending. */
  ghost predicate WorldOk(x: World) {
    Core(x) && x.inHand == multiset{} && (x.q.idle == [] || x.q.pending == [])
  }

  // ---------- one effect at a time ----------

  /** The world after one more effect of the queue. */
  function Next(x: World, q: Queue, e: Effect): World {
    x.(q := q, live := Deliver(x.live, e), timers := x.timers + Share(e, Retries))
  }

  lemma OnwardNext(x: World, q: Queue, q': Queue, e: Effect)
    requires |x.q.out| <= |q.out| && q'.out == q.out + [e]
    ensures Onward(x, q') == Next(Onward(x, q), q', e)
  {
    var n := |x.q.out|;
    assert q'.out[n..] == q.out[n..] + [e];
    assert (q.out[n..] + [e])[..|q.out[n..] + [e]| - 1] == q.out[n..];
  }

  lemma OnwardSame(x: World, q: Queue, q': Queue)
    requires |x.q.out| <= |q.out| && q'.out == q.out
    ensures Onward(x, q') == Onward(x, q).(q := q')
  {}

  lemma OnwardStill(x: World)
    ensures Onward(x, x.q) == x
  {}

  /** An idle worker that does not answer is forgotten. */
  lemma ForgetOk(x: World, w: Pid)
    requires Core(x) && x.q.idle != [] && w == x.q.idle[|x.q.idle| - 1]
    ensures Core(x.(q := x.q.(idle := x.q.idle[..|x.q.idle| - 1], all := Except(x.q.all, w))))
  {
    hide Flow, Pool, MailOk, WorkersOk, Bounds;
    var q := x.q.(idle := x.q.idle[..|x.q.idle| - 1], all := Except(x.q.all, w));
    FlowSame(x, x.(q := q));
    MailSame(x, x.(q := q));
    PoolForget(x.q, w);
    WorkersForget(x, x.(q := q));
    BoundsSame(x.q, q);
  }

  lemma PoolForget(q: Queue, w: Pid)
    requires Pool(q) && q.idle != [] && w == q.idle[|q.idle| - 1]
    ensures w in q.all && w !in q.inFlight
    ensures Pool(q.(idle := q.idle[..|q.idle| - 1], all := Except(q.all, w)))
  {}

  lemma WorkersForget(x: World, x': World)
    requires WorkersOk(x) && x' == x.(q := x'.q) && x'.q.inFlight == x.q.inFlight
    requires forall v :: v in x'.q.all ==> v in x.q.all
    ensures WorkersOk(x')
  {}

  lemma FlowSame(x: World, x': World)
    requires Flow(x) && x'.q.out == x.q.out && x'.q.pending == x.q.pending && x'.q.inFlight == x.q.inFlight
    requires x'.submitted == x.submitted && x'.timers == x.timers && x'.inHand == x.inHand
    requires MailJobs(x'.mailbox) == MailJobs(x.mailbox)
    ensures Flow(x')
  {}

  lemma MailSame(x: World, x': World)
    requires MailOk(x) && x' == x.(q := x'.q) && x'.q.inFlight == x.q.inFlight
    ensures MailOk(x')
  {}

  lemma BoundsSame(q: Queue, q': Queue)
    requires Bounds(q) && q'.out == q.out && |q'.pending| <= |q.pending|
    ensures Bounds(q')
  {}

  lemma BoundsMore(q: Queue, q': Queue, e: Effect)
    requires Bounds(q) && q'.out == q.out + [e] && |q'.pending| <= MAX_QUEUE_DEPTH
    requires e.Retry? ==> 1 <= e.job.retryCount <= MAX_RETRIES && e.seconds == Pow2(e.job.retryCount - 1)
    ensures Bounds(q')
  {}

  /** The world after an idle worker got the job waiting longest. */
  function Assigned(q: Queue): Queue
    requires q.idle != [] && q.pending != []
  {
    var w, job := q.idle[|q.idle| - 1], q.pending[0];
    q.(idle := q.idle[..|q.idle| - 1], pending := q.pending[1..], inFlight := q.inFlight[w := job],
       out := q.out + [Process(w, job)])
  }

  /** An idle worker has no job in flight, so assigning it one overwrites nothing. */
  lemma AssignOk(x: World)
    requires Core(x) && x.q.idle != [] && x.q.pending != []
    ensures var w, job := x.q.idle[|x.q.idle| - 1], x.q.pending[0];
      w !in x.q.inFlight && Core(Next(x, Assigned(x.q), Process(w, job)))
  {
    hide Flow, Pool, MailOk, WorkersOk, Bounds;
    var w, job := x.q.idle[|x.q.idle| - 1], x.q.pending[0];
    PoolForget(x.q, w);
    AssignFlow(x);
    AssignPool(x.q);
    AssignWorkers(x);
    BoundsMore(x.q, Assigned(x.q), Process(w, job)) by { PendingBound(x.q); }
  }

  lemma PendingBound(q: Queue)
    requires Bounds(q)
    ensures |q.pending| <= MAX_QUEUE_DEPTH
  {}

  lemma AssignPool(q: Queue)
    requires Pool(q) && q.idle != [] && q.pending != []
    ensures Pool(Assigned(q))
  {}

  lemma AssignWorkers(x: World)
    requires Pool(x.q) && MailOk(x) && WorkersOk(x) && x.q.idle != [] && x.q.pending != []
    ensures var x' := Next(x, Assigned(x.q), Process(x.q.idle[|x.q.idle| - 1], x.q.pending[0]));
      MailOk(x') && WorkersOk(x')
  {}

  lemma AssignFlow(x: World)
    requires Flow(x) && x.q.idle != [] && x.q.pending != [] && x.q.idle[|x.q.idle| - 1] !in x.q.inFlight
    ensures Flow(Next(x, Assigned(x.q), Process(x.q.idle[|x.q.idle| - 1], x.q.pending[0])))
  {
    hide FlowIn, FlowOut, Fifo, Levels;
    AssignFifo(x.q);
    AssignFlowIn(x, x.q.idle[|x.q.idle| - 1], x.q.pending[0]);
  }

  lemma AssignFlowIn(x: World, w: Pid, job: Job)
    requires FlowIn(x) && Levels(x) && x.q.idle != [] && x.q.pending != []
    requires w == x.q.idle[|x.q.idle| - 1] && job == x.q.pending[0]
    ensures FlowIn(Next(x, Assigned(x.q), Process(w, job))) && Levels(Next(x, Assigned(x.q), Process(w, job)))
  {
    hide FlowIn, Levels;
    ProcessTallies(x.q.out, w, job);
    FlowInSame(x, Next(x, Assigned(x.q), Process(w, job)));
  }

  lemma {:induction false} ProcessTallies(out: seq<Effect>, w: Pid, job: Job)
    ensures var out' := out + [Process(w, job)];
      && (forall kind :: Tally(out', kind) == Tally(out, kind))
      && Accepted(out') == Accepted(out) && Dispatched(out') == Dispatched(out) + [job]
  {
    Snoc(out, Process(w, job));
    forall kind ensures Tally(out + [Process(w, job)], kind) == Tally(out, kind) {
      assert Share(Process(w, job), kind) == multiset{};
    }
  }

  lemma FlowInSame(x: World, x': World)
    requires FlowIn(x) && Levels(x)
    requires forall kind :: Tally(x'.q.out, kind) == Tally(x.q.out, kind)
    requires Accepted(x'.q.out) == Accepted(x.q.out)
    requires x'.submitted == x.submitted && x'.timers == x.timers && x'.inHand == x.inHand
    requires MailJobs(x'.mailbox) == MailJobs(x.mailbox)
    ensures FlowIn(x') && Levels(x')
  {}

  lemma AssignFifo(q: Queue)
    requires Fifo(q) && FlowOut(q) && q.idle != [] && q.pending != [] && q.idle[|q.idle| - 1] !in q.inFlight
    ensures Fifo(Assigned(q)) && FlowOut(Assigned(q))
  {
    hide Tally, Accepted, Dispatched, MailJobs, Bag;
    var w, job := q.idle[|q.idle| - 1], q.pending[0];
    Snoc(q.out, Process(w, job));
    BagPut(q.inFlight, w, job);
    assert q.pending == [job] + q.pending[1..];
    assert Dispatched(q.out) + q.pending == Dispatched(q.out) + [job] + q.pending[1..];
  }

  /** Dispatching keeps the invariant, leaves no idle worker beside a pending job, and only shrinks what is pending. */
  lemma {:induction false} DispatchOk(x: World, q: Queue, up: set<Pid>)
    requires |x.q.out| <= |q.out| && Core(Onward(x, q))
    ensures var r := DispatchNext(q, up);
      && |q.out| <= |r.out| && Core(Onward(x, r))
      && (r.idle == [] || r.pending == [])
    decreases |q.idle|
  {
    hide Core, Onward;
    if q.idle != [] {
      var w := q.idle[|q.idle| - 1];
      var rest := q.(idle := q.idle[..|q.idle| - 1]);
      OnwardQ(x, q);
      if w !in up {
        var q' := rest.(all := Except(q.all, w));
        ForgetOk(Onward(x, q), w);
        OnwardSame(x, q, q');
        DispatchOk(x, q', up);
      } else if q.pending != [] {
        var e := Process(w, q.pending[0]);
        var q' := Assigned(q);
        AssignOk(Onward(x, q));
        OnwardNext(x, q, q', e);
        DispatchOk(x, q', up);
      }
    }
  }

  lemma OnwardQ(x: World, q: Queue)
    requires |x.q.out| <= |q.out|
    ensures Onward(x, q).q == q && Onward(x, q).mailbox == x.mailbox && Onward(x, q).inHand == x.inHand
    ensures Onward(x, q).known == x.known && Onward(x, q).submitted == x.submitted
  {}

  // ---------- taking jobs in ----------

  lemma OnwardInHand(x: World, q: Queue, inHand: multiset<Job>)
    requires |x.q.out| <= |q.out|
    ensures Onward(x.(inHand := inHand), q) == Onward(x, q).(inHand := inHand)
  {}

  /** The world after a job in hand was accepted or rejected. */
  function Decided(x: World, q: Queue, e: Effect, job: Job): World {
    Next(x, q, e).(inHand := x.inHand - multiset{job})
  }

  lemma DecideTallies(out: seq<Effect>, job: Job)
    ensures var a := out + [Accept(job)]; var r := out + [Reject(job)];
      && (forall kind :: Tally(a, kind) == Tally(out, kind))
      && Accepted(a) == Accepted(out) + [job] && Dispatched(a) == Dispatched(out)
      && (forall kind :: kind != Rejects ==> Tally(r, kind) == Tally(out, kind))
      && Tally(r, Rejects) == Tally(out, Rejects) + multiset{job}
      && Accepted(r) == Accepted(out) && Dispatched(r) == Dispatched(out)
  {
    Snoc(out, Accept(job));
    Snoc(out, Reject(job));
    hide Tally, Accepted, Dispatched;
  }

  lemma AcceptOk(x: World, job: Job)
    requires Core(x) && job in x.inHand && |x.q.pending| < MAX_QUEUE_DEPTH
    ensures Core(Decided(x, x.q.(pending := x.q.pending + [job], out := x.q.out + [Accept(job)]), Accept(job), job))
  {
    hide Flow, MailOk, WorkersOk, Bounds, Deliver;
    var q := x.q.(pending := x.q.pending + [job], out := x.q.out + [Accept(job)]);
    var x' := Decided(x, q, Accept(job), job);
    assert x'.live == x.live by { NothingDelivered(x.live, Accept(job)); }
    SameWorkers(x, x');
    BoundsMore(x.q, q, Accept(job));
    AcceptFlow(x, job);
  }

  lemma NothingDelivered(live: map<Pid, seq<Job>>, e: Effect)
    ensures !e.Process? ==> Deliver(live, e) == live
  {}

  lemma SameWorkers(x: World, x': World)
    requires MailOk(x) && WorkersOk(x) && x'.mailbox == x.mailbox && x'.live == x.live && x'.known == x.known
    requires x'.q.inFlight == x.q.inFlight && x'.q.all == x.q.all
    ensures MailOk(x') && WorkersOk(x')
  {}

  lemma AcceptFlow(x: World, job: Job)
    requires Flow(x) && job in x.inHand
    ensures Flow(Decided(x, x.q.(pending := x.q.pending + [job], out := x.q.out + [Accept(job)]), Accept(job), job))
  {
    hide Tally, Accepted, Dispatched, MailJobs, Bag, Deliver, Share, FlowOut, Levels;
    var q := x.q.(pending := x.q.pending + [job], out := x.q.out + [Accept(job)]);
    var x' := Decided(x, q, Accept(job), job);
    DecideTallies(x.q.out, job);
    NoTimer(Accept(job));
    assert Fifo(q) by { assert Accepted(q.out) == Dispatched(x.q.out) + x.q.pending + [job]; }
    assert FlowIn(x') by {
      MoveOne(x.submitted + Tally(x.q.out, Retries), MailJobs(x.mailbox), x.inHand, x.timers,
              multiset(Accepted(x.q.out)), Tally(x.q.out, Rejects), job);
      assert multiset(Accepted(x.q.out) + [job]) == multiset(Accepted(x.q.out)) + multiset{job};
      assert Tally(q.out, Rejects) == Tally(x.q.out, Rejects) && Tally(q.out, Retries) == Tally(x.q.out, Retries);
    }
    SameOut(x.q, q);
    SameLevels(x, x');
  }

  lemma RejectOk(x: World, job: Job)
    requires Core(x) && job in x.inHand
    ensures Core(Decided(x, x.q.(out := x.q.out + [Reject(job)]), Reject(job), job))
  {
    hide Flow, MailOk, WorkersOk, Bounds, Deliver;
    var q := x.q.(out := x.q.out + [Reject(job)]);
    NothingDelivered(x.live, Reject(job));
    SameWorkers(x, Decided(x, q, Reject(job), job));
    PendingBound(x.q);
    BoundsMore(x.q, q, Reject(job));
    RejectFlow(x, job);
  }

  lemma RejectFlow(x: World, job: Job)
    requires Flow(x) && job in x.inHand
    ensures Flow(Decided(x, x.q.(out := x.q.out + [Reject(job)]), Reject(job), job))
  {
    hide Tally, Accepted, Dispatched, MailJobs, Bag, Deliver, Share, FlowOut, Levels;
    var q := x.q.(out := x.q.out + [Reject(job)]);
    var x' := Decided(x, q, Reject(job), job);
    DecideTallies(x.q.out, job);
    NoTimer(Reject(job));
    assert FlowIn(x') by {
      MoveOne(x.submitted + Tally(x.q.out, Retries), MailJobs(x.mailbox), x.inHand, x.timers,
              multiset(Accepted(x.q.out)), Tally(x.q.out, Rejects), job);
    }
    SameOut(x.q, q);
    SameLevels(x, x');
  }

  /** A job in hand is counted among the accepted or among the rejected instead. */
  lemma MoveOne(total: multiset<Job>, mail: multiset<Job>, hand: multiset<Job>, timers: multiset<Job>,
                accepted: multiset<Job>, rejected: multiset<Job>, job: Job)
    requires total == mail + hand + timers + accepted + rejected && job in hand
    ensures total == mail + (hand - multiset{job}) + timers + (accepted + multiset{job}) + rejected
    ensures total == mail + (hand - multiset{job}) + timers + accepted + (rejected + multiset{job})
  {
    assert hand == hand - multiset{job} + multiset{job};
  }

  lemma NoTimer(e: Effect)
    requires !e.Retry?
    ensures Share(e, Retries) == multiset{}
  {}

  lemma SameOut(q: Queue, q': Queue)
    requires FlowOut(q) && q'.inFlight == q.inFlight && Dispatched(q'.out) == Dispatched(q.out)
    requires forall kind :: kind != Rejects ==> Tally(q'.out, kind) == Tally(q.out, kind)
    ensures FlowOut(q')
  {
    hide Tally, Dispatched, Bag;
    assert Tally(q'.out, Dones) == Tally(q.out, Dones);
    assert Tally(q'.out, Retries) == Tally(q.out, Retries);
    assert Tally(q'.out, Deads) == Tally(q.out, Deads);
  }

  lemma SameLevels(x: World, x': World)
    requires Levels(x) && x'.submitted == x.submitted
    requires forall kind :: kind != Rejects ==> Tally(x'.q.out, kind) == Tally(x.q.out, kind)
    ensures Levels(x')
  {
    hide Tally;
    assert Tally(x'.q.out, Retries) == Tally(x.q.out, Retries) && Tally(x'.q.out, Deads) == Tally(x.q.out, Deads);
  }

  ghost predicate Dry(q: Queue) {
    q.idle == [] || q.pending == []
  }

  lemma EnqueueOk(x: World, q: Queue, job: Job, up: set<Pid>)
    requires |x.q.out| <= |q.out| && Core(Onward(x, q)) && Dry(q) && job in x.inHand
    ensures var r := Enqueue(q, job, up);
      |q.out| <= |r.out| && Core(Onward(x.(inHand := x.inHand - multiset{job}), r)) && Dry(r)
  {
    hide Core, Onward;
    var x' := x.(inHand := x.inHand - multiset{job});
    OnwardQ(x, q);
    if |q.pending| >= MAX_QUEUE_DEPTH {
      var q' := q.(out := q.out + [Reject(job)]);
      RejectOk(Onward(x, q), job);
      OnwardNext(x, q, q', Reject(job));
      OnwardInHand(x, q', x'.inHand);
    } else {
      var q' := q.(pending := q.pending + [job], out := q.out + [Accept(job)]);
      AcceptOk(Onward(x, q), job);
      OnwardNext(x, q, q', Accept(job));
      OnwardInHand(x, q', x'.inHand);
      DispatchOk(x', q', up);
    }
  }

  lemma {:induction false} BatchOk(x: World, q: Queue, jobs: seq<Job>, ups: seq<set<Pid>>)
    requires |ups| == |jobs| && |x.q.out| <= |q.out| && Core(Onward(x, q)) && Dry(q) && multiset(jobs) <= x.inHand
    ensures var r := EnqueueBatch(q, jobs, ups);
      |q.out| <= |r.out| && Core(Onward(x.(inHand := x.inHand - multiset(jobs)), r)) && Dry(r)
  {
    hide Core, Onward, Enqueue;
    if jobs == [] {
      assert x.inHand - multiset(jobs) == x.inHand;
    } else {
      var n := |jobs| - 1;
      assert jobs == jobs[..n] + [jobs[n]];
      assert multiset(jobs) == multiset(jobs[..n]) + multiset{jobs[n]};
      BatchOk(x, q, jobs[..n], ups[..n]);
      var x1 := x.(inHand := x.inHand - multiset(jobs[..n]));
      EnqueueOk(x1, EnqueueBatch(q, jobs[..n], ups[..n]), jobs[n], ups[n]);
      assert x1.inHand - multiset{jobs[n]} == x.inHand - multiset(jobs);
    }
  }

  // ---------- results and deaths ----------

  /** Every job that was accepted, and so every job that was dispatched or is in flight, has at most 3 retries behind
      it. */
  lemma AcceptedLevel(x: World, j: Job)
    requires FlowIn(x) && Levels(x) && j in multiset(Accepted(x.q.out))
    ensures j.retryCount <= MAX_RETRIES
  {
    hide Tally, Accepted, MailJobs;
    assert (x.submitted + Tally(x.q.out, Retries))[j] > 0;
    assert j in x.submitted || j in Tally(x.q.out, Retries);
  }

  lemma InFlightLevel(x: World, w: Pid)
    requires Flow(x) && w in x.q.inFlight
    ensures x.q.inFlight[w].retryCount <= MAX_RETRIES
  {
    hide Tally, MailJobs, Accepted, Dispatched, FlowIn, Levels;
    var j := x.q.inFlight[w];
    BagTake(x.q.inFlight, w);
    hide Bag;
    assert multiset(Dispatched(x.q.out))[j] > 0;
    assert multiset(Accepted(x.q.out)) == multiset(Dispatched(x.q.out)) + multiset(x.q.pending);
    AcceptedLevel(x, j);
  }

  /** A job left its worker, and the effect says what became of it. */
  ghost predicate Leaves(q: Queue, q': Queue, w: Pid, e: Effect) {
    && w in q.inFlight && q'.inFlight == q.inFlight - {w} && q'.pending == q.pending && q'.out == q.out + [e]
    && (match e
        case Done(Some(j), _, _) => j == q.inFlight[w]
        case Retry(j, _) => j == Bump(q.inFlight[w]) && j.retryCount <= MAX_RETRIES
        case DeadLetter(j) => j == Bump(q.inFlight[w]) && j.retryCount == MAX_RETRIES + 1
        case _ => false)
  }

  lemma LeavesOut(q: Queue, q': Queue, w: Pid, e: Effect)
    requires Fifo(q) && FlowOut(q) && Leaves(q, q', w, e)
    ensures Fifo(q') && FlowOut(q')
  {
    hide Tally, Accepted, Dispatched, Bag, Share, Leaves;
    LeavesTallies(q, q', w, e);
    BagTake(q.inFlight, w);
    forall j ensures multiset(Dispatched(q'.out))[j] ==
      Bag(q'.inFlight)[j] + Tally(q'.out, Dones)[j] + Tally(q'.out, Retries)[Bump(j)] + Tally(q'.out, Deads)[Bump(j)]
    {
      ShareSum(q, q', w, e, j);
      assert Tally(q'.out, Dones)[j] == Tally(q.out, Dones)[j] + Share(e, Dones)[j];
      assert Tally(q'.out, Retries)[Bump(j)] == Tally(q.out, Retries)[Bump(j)] + Share(e, Retries)[Bump(j)];
      assert Tally(q'.out, Deads)[Bump(j)] == Tally(q.out, Deads)[Bump(j)] + Share(e, Deads)[Bump(j)];
    }
  }

  lemma LeavesTallies(q: Queue, q': Queue, w: Pid, e: Effect)
    requires Leaves(q, q', w, e)
    ensures forall kind :: Tally(q'.out, kind) == Tally(q.out, kind) + Share(e, kind)
    ensures Accepted(q'.out) == Accepted(q.out) && Dispatched(q'.out) == Dispatched(q.out)
    ensures Share(e, Rejects) == multiset{}
    ensures w in q.inFlight && q'.inFlight == q.inFlight - {w} && q'.pending == q.pending
  {
    Snoc(q.out, e);
    hide Tally, Accepted, Dispatched;
  }

  lemma ShareSum(q: Queue, q': Queue, w: Pid, e: Effect, j: Job)
    requires Leaves(q, q', w, e)
    ensures Share(e, Dones)[j] + Share(e, Retries)[Bump(j)] + Share(e, Deads)[Bump(j)] == multiset{q.inFlight[w]}[j]
  {}

  lemma {:induction false} LeavesIn(x: World, x': World, w: Pid, e: Effect)
    requires FlowIn(x) && Levels(x) && Leaves(x.q, x'.q, w, e)
    requires x'.timers == x.timers + Share(e, Retries)
    requires x'.submitted == x.submitted && x'.inHand == x.inHand && MailJobs(x'.mailbox) == MailJobs(x.mailbox)
    ensures FlowIn(x') && Levels(x')
  {
    LeavesTallies(x.q, x'.q, w, e);
    LeavesLevels(x.q, x'.q, w, e);
    RetryMoves(x, x', Share(e, Retries), Share(e, Deads));
  }

  /** A job sent to retry appears on a timer. */
  lemma RetryMoves(x: World, x': World, again: multiset<Job>, dead: multiset<Job>)
    requires FlowIn(x) && Levels(x)
    requires Tally(x'.q.out, Retries) == Tally(x.q.out, Retries) + again
    requires Tally(x'.q.out, Deads) == Tally(x.q.out, Deads) + dead
    requires Tally(x'.q.out, Rejects) == Tally(x.q.out, Rejects) + multiset{} && Accepted(x'.q.out) == Accepted(x.q.out)
    requires x'.timers == x.timers + again
    requires x'.submitted == x.submitted && x'.inHand == x.inHand && MailJobs(x'.mailbox) == MailJobs(x.mailbox)
    requires forall j :: j in again ==> 1 <= j.retryCount <= MAX_RETRIES
    requires forall j :: j in dead ==> j.retryCount == MAX_RETRIES + 1
    ensures FlowIn(x') && Levels(x')
  {
    hide Tally, MailJobs, Accepted;
    var rest := MailJobs(x.mailbox) + x.inHand;
    var decided := multiset(Accepted(x.q.out)) + Tally(x.q.out, Rejects);
    assert x'.submitted + Tally(x'.q.out, Retries) == x.submitted + Tally(x.q.out, Retries) + again;
    assert rest + (x.timers + again) + decided == rest + x.timers + decided + again;
  }

  lemma LeavesLevels(q: Queue, q': Queue, w: Pid, e: Effect)
    requires Leaves(q, q', w, e)
    ensures forall j :: j in Share(e, Retries) ==> 1 <= j.retryCount <= MAX_RETRIES
    ensures forall j :: j in Share(e, Deads) ==> j.retryCount == MAX_RETRIES + 1
  {}

  /** The first message is gone, and with it only what it said. */
  lemma TakenMail(x: World)
    requires MailOk(x) && x.mailbox != []
    ensures MailOk(Take(x))
    ensures forall v :: HasResult(x.mailbox, v) && !(x.mailbox[0].ResultMsg? && x.mailbox[0].worker == v) ==>
      HasResult(x.mailbox[1..], v)
    ensures forall v :: HasDown(x.mailbox, v) && x.mailbox[0] != DownMsg(v) ==> HasDown(x.mailbox[1..], v)
    ensures (x.mailbox[0].ResultMsg? || x.mailbox[0].DownMsg?) ==> !HasResult(x.mailbox[1..], x.mailbox[0].worker)
  {}

  /** The job of a worker left it together with the first message, which was the worker's result or Down. */
  lemma LeaveMail(x: World, x': World, w: Pid)
    requires MailOk(x) && x.mailbox != [] && x'.mailbox == x.mailbox[1..] && x'.live == x.live && x'.known == x.known
    requires (x.mailbox[0].ResultMsg? || x.mailbox[0].DownMsg?) && x.mailbox[0].worker == w
    requires x'.q.inFlight == x.q.inFlight - {w}
    ensures MailOk(x')
  {}

  lemma LeaveWorkers(x: World, x': World, w: Pid)
    requires MailOk(x) && WorkersOk(x) && x.mailbox != [] && x'.mailbox == x.mailbox[1..]
    requires x'.live == x.live && x'.known == x.known
    requires (x.mailbox[0].ResultMsg? || x.mailbox[0].DownMsg?) && x.mailbox[0].worker == w
    requires x'.q.inFlight == x.q.inFlight - {w}
    requires forall v :: v in x'.q.all ==> v in x.q.all && (x.mailbox[0].DownMsg? ==> v != w)
    ensures WorkersOk(x')
  {}

  /** What becomes of the job of a worker that failed or died. */
  function RetryEffect(job: Job): Effect {
    if Bump(job).retryCount > MAX_RETRIES then DeadLetter(Bump(job))
      else Retry(Bump(job), Pow2(Bump(job).retryCount - 1))
  }

  lemma OneEffect(x: World, q: Queue, e: Effect)
    requires q.out == x.q.out + [e]
    ensures Onward(x, q) == Next(x, q, e)
  {
    OnwardStill(x);
    OnwardNext(x, x.q, q, e);
  }

  lemma TwoEffects(x: World, q: Queue, d: Effect, e: Effect)
    requires q.out == x.q.out + [d] + [e] && !d.Process? && Share(d, Retries) == multiset{}
    ensures Onward(x, q) == Next(x, q, e)
  {
    var q1 := q.(out := x.q.out + [d]);
    OneEffect(x, q1, d);
    OnwardNext(x, q1, q, e);
  }

  /** A note that is about no job at all. */
  lemma NoteFlow(q: Queue, id: nat)
    requires Fifo(q) && FlowOut(q)
    ensures Fifo(q.(out := q.out + [Failure(id)])) && FlowOut(q.(out := q.out + [Failure(id)]))
    ensures forall kind :: Tally(q.out + [Failure(id)], kind) == Tally(q.out, kind)
    ensures Accepted(q.out + [Failure(id)]) == Accepted(q.out)
  {
    NoteTallies(q.out, id);
    hide Tally, Accepted, Dispatched, Bag;
    var out' := q.out + [Failure(id)];
    assert Tally(out', Dones) == Tally(q.out, Dones);
    assert Tally(out', Retries) == Tally(q.out, Retries);
    assert Tally(out', Deads) == Tally(q.out, Deads);
  }

  lemma NoteTallies(out: seq<Effect>, id: nat)
    ensures forall kind :: Tally(out + [Failure(id)], kind) == Tally(out, kind)
    ensures Accepted(out + [Failure(id)]) == Accepted(out) && Dispatched(out + [Failure(id)]) == Dispatched(out)
  {
    Snoc(out, Failure(id));
    hide Tally, Accepted, Dispatched;
  }

  lemma SettlePool(q: Queue, w: Pid, result: JobResult)
    requires Pool(q) && w in q.inFlight
    ensures Pool(Settle(q, w, result))
    ensures Settle(q, w, result).all == q.all && Settle(q, w, result).inFlight == q.inFlight - {w}
    ensures Settle(q, w, result).pending == q.pending
  {}

  lemma SettleLeaves(x: World, w: Pid, result: JobResult)
    requires Flow(x) && w in x.q.inFlight
    ensures var q := if result.Success? then x.q else x.q.(out := x.q.out + [Failure(result.jobId)]);
      var e := if result.Success? then Done(Some(x.q.inFlight[w]), result.jobId, result.durationMs)
               else RetryEffect(x.q.inFlight[w]);
      Leaves(q, Settle(x.q, w, result), w, e)
  {
    hide Flow, Pow2, RetryEffect;
    InFlightLevel(x, w);
    RetryFits(x.q.inFlight[w]);
    if !result.Success? { SettleAppends(x.q, w, result); }
  }

  lemma SettleAppends(q: Queue, w: Pid, result: JobResult)
    requires w in q.inFlight && !result.Success?
    ensures var q' := Settle(q, w, result);
      && q'.inFlight == q.inFlight - {w} && q'.pending == q.pending
      && q'.out == q.out + [Failure(result.jobId)] + [RetryEffect(q.inFlight[w])]
  {}

  lemma RetryFits(job: Job)
    requires job.retryCount <= MAX_RETRIES
    ensures match RetryEffect(job)
      case Retry(j, _) => j == Bump(job) && j.retryCount <= MAX_RETRIES
      case DeadLetter(j) => j == Bump(job) && j.retryCount == MAX_RETRIES + 1
      case _ => false
  {}

  lemma SettleFlow(x: World, w: Pid, result: JobResult)
    requires Flow(x) && x.mailbox != [] && x.mailbox[0] == ResultMsg(w, result)
    requires w in x.q.inFlight && x.inHand == multiset{}
    ensures Flow(Onward(Take(x), Settle(x.q, w, result)))
  {
    hide FlowIn, FlowOut, Fifo, Levels, MailJobs, Leaves, Settle, Tally, Onward, RetryEffect, Accepted, Share;
    SettleLeaves(x, w, result);
    MailHead(x.mailbox);
    var y, q' := Take(x), Settle(x.q, w, result);
    if result.Success? {
      var e := Done(Some(x.q.inFlight[w]), result.jobId, result.durationMs);
      SettleOne(x, y, q', w, e);
    } else {
      var q := x.q.(out := x.q.out + [Failure(result.jobId)]);
      NoteFlow(x.q, result.jobId);
      FlowInSame(x, x.(q := q));
      NoTimer(Failure(result.jobId));
      SettleTwo(x.(q := q), y, q', w, Failure(result.jobId), RetryEffect(x.q.inFlight[w]));
    }
  }

  lemma SettleOne(x: World, y: World, q': Queue, w: Pid, e: Effect)
    requires Flow(x) && Leaves(x.q, q', w, e)
    requires y.q.out == x.q.out && y.submitted == x.submitted && y.inHand == x.inHand && y.timers == x.timers
    requires MailJobs(y.mailbox) == MailJobs(x.mailbox)
    ensures Flow(Onward(y, q'))
  {
    OneEffect(y, q', e) by { LeavesAppends(x.q, q', w, e); }
    LeavesOut(x.q, q', w, e);
    hide FlowIn, FlowOut, Fifo, Levels, MailJobs, Leaves, Tally, Onward;
    LeavesIn(x, Next(y, q', e), w, e);
  }

  lemma LeavesAppends(q: Queue, q': Queue, w: Pid, e: Effect)
    requires Leaves(q, q', w, e)
    ensures q'.out == q.out + [e]
  {}

  lemma SettleTwo(x: World, y: World, q': Queue, w: Pid, d: Effect, e: Effect)
    requires Flow(x) && Leaves(x.q, q', w, e) && !d.Process? && Share(d, Retries) == multiset{}
    requires x.q.out == y.q.out + [d] && y.submitted == x.submitted && y.inHand == x.inHand && y.timers == x.timers
    requires MailJobs(y.mailbox) == MailJobs(x.mailbox)
    ensures Flow(Onward(y, q'))
  {
    TwoEffects(y, q', d, e) by { LeavesAppends(x.q, q', w, e); }
    LeavesOut(x.q, q', w, e);
    hide FlowIn, FlowOut, Fifo, Levels, MailJobs, Leaves, Tally, Onward;
    LeavesIn(x, Next(y, q', e), w, e);
  }

  lemma SettleBounds(q: Queue, w: Pid, result: JobResult)
    requires Bounds(q)
    ensures Bounds(Settle(q, w, result))
  {}

  lemma SettleOk(x: World, w: Pid, result: JobResult)
    requires Core(x) && x.mailbox != [] && x.mailbox[0] == ResultMsg(w, result) && x.inHand == multiset{}
    ensures |x.q.out| <= |Settle(x.q, w, result).out| && Core(Onward(Take(x), Settle(x.q, w, result)))
  {
    assert w in x.q.inFlight;
    hide Flow, MailOk, WorkersOk, Bounds, Pool;
    SettleFlow(x, w, result);
    SettlePool(x.q, w, result);
    SettleBounds(x.q, w, result);
    var x' := Onward(Take(x), Settle(x.q, w, result));
    SettleLive(x, w, result);
    LeaveMail(x, x', w);
    LeaveWorkers(x, x', w);
  }

  lemma SettleLive(x: World, w: Pid, result: JobResult)
    requires x.mailbox != []
    ensures |x.q.out| <= |Settle(x.q, w, result).out|
    ensures Onward(Take(x), Settle(x.q, w, result)).live == x.live
  {
    var q', y := Settle(x.q, w, result), Take(x);
    if result.Success? {
      OneEffect(y, q', Done(InFlight(x.q, w), result.jobId, result.durationMs));
    } else if w in x.q.inFlight {
      TwoEffects(y, q', Failure(result.jobId), RetryEffect(x.q.inFlight[w]));
    } else {
      OneEffect(y, q', Failure(result.jobId));
    }
  }

  lemma BuryFlow(x: World, w: Pid)
    requires Flow(x) && x.mailbox != [] && x.mailbox[0] == DownMsg(w) && x.inHand == multiset{}
    ensures |x.q.out| <= |Bury(x.q, w).out|
    ensures Flow(Onward(Take(x), Bury(x.q, w))) && Onward(Take(x), Bury(x.q, w)).live == x.live
  {
    hide Flow, MailJobs, Leaves, Bury, Onward, RetryEffect;
    var y, q' := Take(x), Bury(x.q, w);
    MailHead(x.mailbox);
    if w in x.q.inFlight {
      InFlightLevel(x, w);
      BuryLeaves(x.q, w);
      BuryAppends(x.q, w);
      OneEffect(y, q', RetryEffect(x.q.inFlight[w]));
      SettleOne(x, y, q', w, RetryEffect(x.q.inFlight[w]));
      NothingDelivered(y.live, RetryEffect(x.q.inFlight[w]));
    } else {
      BuryIdle(x.q, w);
      OnwardStill(y);
      OnwardSame(y, y.q, q');
      FlowSame(x, y.(q := q'));
    }
  }

  lemma MailHead(mailbox: seq<Msg>)
    requires mailbox != []
    ensures MailJobs(mailbox) == JobsIn(mailbox[0]) + MailJobs(mailbox[1..])
    ensures JobsIn(mailbox[0]) == multiset{} ==> MailJobs(mailbox) == MailJobs(mailbox[1..])
  {}

  lemma BuryAppends(q: Queue, w: Pid)
    requires w in q.inFlight
    ensures Bury(q, w).out == q.out + [RetryEffect(q.inFlight[w])] && !RetryEffect(q.inFlight[w]).Process?
  {}

  lemma BuryIdle(q: Queue, w: Pid)
    requires w !in q.inFlight
    ensures Bury(q, w).out == q.out && Bury(q, w).inFlight == q.inFlight && Bury(q, w).pending == q.pending
  {}

  lemma BuryLeaves(q: Queue, w: Pid)
    requires w in q.inFlight && q.inFlight[w].retryCount <= MAX_RETRIES
    ensures Leaves(q, Bury(q, w), w, RetryEffect(q.inFlight[w]))
  {}

  lemma BuryOk(x: World, w: Pid)
    requires Core(x) && x.mailbox != [] && x.mailbox[0] == DownMsg(w) && x.inHand == multiset{}
    ensures |x.q.out| <= |Bury(x.q, w).out| && Core(Onward(Take(x), Bury(x.q, w)))
  {
    hide Flow, MailOk, WorkersOk, Bounds, Pool;
    BuryFlow(x, w);
    BuryQueue(x.q, w);
    var x' := Onward(Take(x), Bury(x.q, w));
    LeaveMail(x, x', w);
    LeaveWorkers(x, x', w);
  }

  lemma BuryQueue(q: Queue, w: Pid)
    requires Pool(q) && Bounds(q)
    ensures var q' := Bury(q, w);
      && Pool(q') && Bounds(q')
      && q'.inFlight == q.inFlight - {w} && q'.pending == q.pending && q'.idle == Except(q.idle, w)
      && (forall v :: v in q'.all <==> v in q.all && v != w)
  {}

  /** A spawned worker joins the pool, idle. */
  lemma JoinPoolOk(x: World, q: Queue, p: Pid)
    requires |x.q.out| <= |q.out| && Core(Onward(x, q)) && p in Onward(x, q).live && p !in q.all
    ensures Core(Onward(x, q.(all := q.all + [p], idle := q.idle + [p])))
  {
    hide Flow, MailOk, Bounds, Pool, WorkersOk, Onward;
    var q' := q.(all := q.all + [p], idle := q.idle + [p]);
    var y := Onward(x, q);
    OnwardQ(x, q);
    OnwardSame(x, q, q');
    FlowSame(y, y.(q := q'));
    MailSame(y, y.(q := q'));
    BoundsSame(q, q');
    PoolJoin(q, p);
    WorkersJoin(y, p);
  }

  lemma PoolJoin(q: Queue, p: Pid)
    requires Pool(q) && p !in q.all
    ensures Pool(q.(all := q.all + [p], idle := q.idle + [p]))
  {}

  lemma WorkersJoin(y: World, p: Pid)
    requires WorkersOk(y) && p in y.live
    ensures WorkersOk(y.(q := y.q.(all := y.q.all + [p], idle := y.q.idle + [p])))
  {
    hide HasResult, HasDown;
  }

  lemma HatchOk(x: World, spawned: Option<Pid>)
    requires Core(x) && (spawned.Some? ==> spawned.value !in x.known)
    ensures Core(Hatch(x, spawned))
    ensures spawned.Some? ==> spawned.value !in x.q.all
  {
    hide Flow, Bounds, Pool;
    if spawned.Some? {
      FlowSame(x, Hatch(x, spawned));
      HatchMail(x, spawned.value);
      hide MailOk;
      hide HasResult, HasDown;
    }
  }

  lemma HatchMail(x: World, w: Pid)
    requires MailOk(x) && WorkersOk(x) && w !in x.known
    ensures MailOk(Hatch(x, Some(w)))
  {
    hide HasResult, HasDown;
  }

  /** Spawning while handling a message; the worker already lives. */
  lemma SpawnOk(x: World, q: Queue, spawned: Option<Pid>, up: set<Pid>)
    requires |x.q.out| <= |q.out| && Core(Onward(x, q))
    requires spawned.Some? ==> spawned.value in Onward(x, q).live && spawned.value !in q.all
    requires spawned.None? ==> Dry(q)
    ensures var r := SpawnWorker(q, spawned, up); |q.out| <= |r.out| && Core(Onward(x, r)) && Dry(r)
  {
    hide Core, Onward;
    if spawned.Some? {
      var p := spawned.value;
      JoinPoolOk(x, q, p);
      DispatchOk(x, q.(all := q.all + [p], idle := q.idle + [p]), up);
    }
  }

  /** Taking a message that is about no worker's job. */
  lemma TakeOk(x: World)
    requires Core(x) && x.mailbox != [] && x.inHand == multiset{} && !x.mailbox[0].ResultMsg?
    requires x.mailbox[0].DownMsg? ==> x.mailbox[0].worker !in x.q.all
    ensures Core(Take(x))
  {
    hide Flow, MailOk, Bounds, WorkersOk, Pool;
    TakeFlow(x);
    TakenMail(x);
    TakeWorkers(x);
  }

  lemma TakeWorkers(x: World)
    requires Pool(x.q) && MailOk(x) && WorkersOk(x) && x.mailbox != [] && !x.mailbox[0].ResultMsg?
    requires x.mailbox[0].DownMsg? ==> x.mailbox[0].worker !in x.q.all
    ensures WorkersOk(Take(x))
  {}

  lemma TakeFlow(x: World)
    requires Flow(x) && x.mailbox != [] && x.inHand == multiset{}
    ensures Flow(Take(x))
  {
    hide Tally, Accepted, Fifo, FlowOut;
    var msg, rest := x.mailbox[0], x.mailbox[1..];
    assert MailJobs(x.mailbox) == JobsIn(msg) + MailJobs(rest);
    hide MailJobs, JobsIn;
    assert MailJobs(x.mailbox) + x.inHand == MailJobs(rest) + JobsIn(msg);
  }

  lemma RemoveOk(y: World)
    requires Core(y) && Dry(y.q)
    ensures var r := RemoveIdleWorker(y.q); |y.q.out| <= |r.out| && Core(Onward(y, r)) && Dry(r)
  {
    hide Flow, MailOk, WorkersOk, Bounds, Pool;
    if y.q.idle == [] {
      OnwardStill(y);
    } else {
      var w := y.q.idle[|y.q.idle| - 1];
      var mid := y.(q := y.q.(idle := y.q.idle[..|y.q.idle| - 1], all := Except(y.q.all, w)));
      ForgetOk(y, w);
      var r := RemoveIdleWorker(y.q);
      OneEffect(y, r, Terminate(w));
      TerminateOk(mid, w);
      assert Onward(y, r) == Next(mid, mid.q.(out := mid.q.out + [Terminate(w)]), Terminate(w));
    }
  }

  lemma TerminateOk(x: World, w: Pid)
    requires Core(x)
    ensures Core(Next(x, x.q.(out := x.q.out + [Terminate(w)]), Terminate(w)))
  {
    hide MailOk, WorkersOk, Bounds;
    var q := x.q.(out := x.q.out + [Terminate(w)]);
    TerminateFlow(x, w);
    hide Flow;
    PendingBound(x.q);
    BoundsMore(x.q, q, Terminate(w));
    SameWorkers(x, Next(x, q, Terminate(w)));
  }

  lemma TerminateFlow(x: World, w: Pid)
    requires Flow(x)
    ensures Flow(Next(x, x.q.(out := x.q.out + [Terminate(w)]), Terminate(w)))
  {
    var x' := Next(x, x.q.(out := x.q.out + [Terminate(w)]), Terminate(w));
    TerminateTallies(x.q.out, w);
    assert x'.timers == x.timers;
    hide FlowIn, Levels, FlowOut, Fifo;
    FlowInSame(x, x');
    TerminateOut(x.q, w);
  }

  lemma TerminateTallies(out: seq<Effect>, w: Pid)
    ensures forall kind :: Tally(out + [Terminate(w)], kind) == Tally(out, kind)
    ensures Accepted(out + [Terminate(w)]) == Accepted(out) && Dispatched(out + [Terminate(w)]) == Dispatched(out)
  {
    Snoc(out, Terminate(w));
    hide Tally, Accepted, Dispatched;
  }

  lemma TerminateOut(q: Queue, w: Pid)
    requires Fifo(q) && FlowOut(q)
    ensures Fifo(q.(out := q.out + [Terminate(w)])) && FlowOut(q.(out := q.out + [Terminate(w)]))
  {
    TerminateTallies(q.out, w);
    hide Tally, Accepted, Dispatched, Bag;
    var out' := q.out + [Terminate(w)];
    assert Tally(out', Dones) == Tally(q.out, Dones);
    assert Tally(out', Retries) == Tally(q.out, Retries);
    assert Tally(out', Deads) == Tally(q.out, Deads);
  }

  // ---------- every step ----------

  lemma InHandDone(x: World, r: Queue)
    requires |x.q.out| <= |r.out| && Core(Onward(x, r)) && x.inHand == multiset{} && Dry(r)
    ensures WorldOk(Onward(x, r).(inHand := multiset{}))
  {}

  lemma HandleEnqueue(x: World, st: Step)
    requires WorldOk(x) && st.Handle? && Enabled(x, st) && (x.mailbox[0].EnqueueMsg? || x.mailbox[0].BatchMsg?)
    ensures WorldOk(Exec(x, st))
  {
    hide Core, Onward;
    var y := Take(x);
    TakeOk(x);
    OnwardStill(y);
    var r := Handler(x.q, x.mailbox[0], st.ups, st.spawned);
    var y' := y.(inHand := multiset{});
    if x.mailbox[0].EnqueueMsg? {
      var job := x.mailbox[0].job;
      EnqueueOk(y, y.q, job, st.ups[0]);
      assert y.(inHand := y.inHand - multiset{job}) == y';
    } else {
      BatchOk(y, y.q, x.mailbox[0].jobs, st.ups);
      assert y.(inHand := y.inHand - multiset(x.mailbox[0].jobs)) == y';
    }
    InHandDone(y', r);
    OnwardInHand(y, r, multiset{});
  }

  lemma HandleResult(x: World, st: Step)
    requires WorldOk(x) && st.Handle? && Enabled(x, st) && x.mailbox[0].ResultMsg?
    ensures WorldOk(Exec(x, st))
  {
    hide Core, Onward, Settle;
    var w, result := x.mailbox[0].worker, x.mailbox[0].result;
    SettleOk(x, w, result);
    DispatchOk(Take(x), Settle(x.q, w, result), st.ups[0]);
    InHandDone(Take(x), Handler(x.q, x.mailbox[0], st.ups, st.spawned));
  }

  lemma HandleDeath(x: World, st: Step)
    requires WorldOk(x) && st.Handle? && Enabled(x, st) && x.mailbox[0].DownMsg?
    ensures WorldOk(Exec(x, st))
  {
    hide Core, Onward, Bury;
    var w := x.mailbox[0].worker;
    if w in x.q.all {
      var x1 := Hatch(x, st.spawned);
      HatchOk(x, st.spawned);
      BuryOk(x1, w);
      BuryQueue(x.q, w) by { CoreParts(x); }
      assert Take(x1) == Hatch(Take(x), st.spawned);
      assert Dry(Bury(x.q, w)) by { assert x.q.idle == [] ==> Except(x.q.idle, w) == []; }
      BuryLive(x1, w);
      SpawnOk(Take(x1), Bury(x.q, w), st.spawned, st.ups[0]);
      InHandDone(Take(x1), Handler(x.q, x.mailbox[0], st.ups, st.spawned));
    } else {
      TakeOk(x);
      OnwardStill(Take(x));
      InHandDone(Take(x), x.q);
    }
  }

  lemma CoreParts(x: World)
    requires Core(x)
    ensures Pool(x.q) && Bounds(x.q) && Flow(x) && MailOk(x) && WorkersOk(x)
  {}

  lemma BuryLive(x: World, w: Pid)
    requires Core(x) && x.mailbox != [] && x.mailbox[0] == DownMsg(w) && x.inHand == multiset{}
    ensures |x.q.out| <= |Bury(x.q, w).out| && Onward(Take(x), Bury(x.q, w)).live == x.live
  {
    BuryFlow(x, w);
  }

  lemma HandleCommand(x: World, st: Step)
    requires WorldOk(x) && st.Handle? && Enabled(x, st) && (x.mailbox[0].AddWorkerMsg? || x.mailbox[0].RemoveWorkerMsg?)
    ensures WorldOk(Exec(x, st))
  {
    hide Core, Onward;
    TakeOk(x);
    if x.mailbox[0].AddWorkerMsg? {
      var y := Hatch(Take(x), st.spawned);
      HatchOk(Take(x), st.spawned);
      OnwardStill(y);
      SpawnOk(y, y.q, st.spawned, st.ups[0]);
      InHandDone(y, Handler(x.q, x.mailbox[0], st.ups, st.spawned));
    } else {
      RemoveOk(Take(x));
      InHandDone(Take(x), Handler(x.q, x.mailbox[0], st.ups, st.spawned));
    }
  }

  /** A message is added that is neither a result nor a Down. */
  lemma PostOk(x: World, msg: Msg, x': World)
    requires WorldOk(x) && !msg.ResultMsg? && !msg.DownMsg?
    requires x'.mailbox == x.mailbox + [msg]
    requires x'.q == x.q && x'.live == x.live && x'.known == x.known && x'.inHand == x.inHand
    requires x'.submitted + x.timers + multiset{} == x.submitted + x'.timers + JobsIn(msg)
    requires forall j :: j in x'.submitted ==> j.retryCount == 0
    ensures WorldOk(x')
  {
    hide Flow, MailOk, WorkersOk, Bounds, Pool;
    PostFlow(x, msg, x');
    PostMail(x, msg, x');
  }

  lemma PostFlow(x: World, msg: Msg, x': World)
    requires Flow(x)
    requires x'.mailbox == x.mailbox + [msg] && x'.q == x.q && x'.inHand == x.inHand
    requires x'.submitted + x.timers + multiset{} == x.submitted + x'.timers + JobsIn(msg)
    requires forall j :: j in x'.submitted ==> j.retryCount == 0
    ensures Flow(x')
  {
    MailAppend(x.mailbox, msg);
    hide Tally, Accepted, MailJobs, JobsIn, Fifo, FlowOut;
    forall j ensures (x'.submitted + Tally(x'.q.out, Retries))[j] ==
      (MailJobs(x'.mailbox) + x'.inHand + x'.timers + multiset(Accepted(x'.q.out)) + Tally(x'.q.out, Rejects))[j]
    {
      assert (x.submitted + Tally(x.q.out, Retries))[j] ==
        (MailJobs(x.mailbox) + x.inHand + x.timers + multiset(Accepted(x.q.out)) + Tally(x.q.out, Rejects))[j];
      assert (x'.submitted + x.timers + multiset{})[j] == (x.submitted + x'.timers + JobsIn(msg))[j];
    }
  }

  lemma PostMail(x: World, msg: Msg, x': World)
    requires MailOk(x) && WorkersOk(x) && !msg.ResultMsg? && !msg.DownMsg?
    requires x'.mailbox == x.mailbox + [msg] && x'.q == x.q && x'.live == x.live && x'.known == x.known
    ensures MailOk(x') && WorkersOk(x')
  {
    forall w | HasResult(x.mailbox, w) ensures HasResult(x'.mailbox, w) {
      var i :| 0 <= i < |x.mailbox| && x.mailbox[i].ResultMsg? && x.mailbox[i].worker == w;
      assert x'.mailbox[i] == x.mailbox[i];
    }
    forall w | HasDown(x.mailbox, w) ensures HasDown(x'.mailbox, w) {}
    hide HasResult, HasDown;
  }

  lemma AnswerOk(x: World, st: Step)
    requires WorldOk(x) && st.Answer? && Enabled(x, st)
    ensures WorldOk(Exec(x, st))
  {
    hide Flow, Bounds, Pool, MailJobs, MailOk, WorkersOk;
    var x' := Exec(x, st);
    MailAppend(x.mailbox, ResultMsg(st.worker, st.result));
    assert MailJobs(x'.mailbox) == MailJobs(x.mailbox);
    FlowSame(x, x');
    AnswerMail(x, st);
    AnswerWorkers(x, st);
  }

  lemma AnswerMail(x: World, st: Step)
    requires MailOk(x) && WorkersOk(x) && st.Answer? && Enabled(x, st)
    ensures MailOk(Exec(x, st))
  {}

  lemma AnswerWorkers(x: World, st: Step)
    requires WorkersOk(x) && st.Answer? && Enabled(x, st)
    ensures WorkersOk(Exec(x, st))
  {
    var w, x' := st.worker, Exec(x, st);
    PostKeeps(x.mailbox, ResultMsg(w, st.result));
    assert x.live[w] == [x.q.inFlight[w]];
    hide HasResult, HasDown;
  }

  lemma PostKeeps(mailbox: seq<Msg>, msg: Msg)
    ensures forall w :: HasResult(mailbox, w) ==> HasResult(mailbox + [msg], w)
    ensures forall w :: HasDown(mailbox, w) ==> HasDown(mailbox + [msg], w)
    ensures msg.ResultMsg? ==> HasResult(mailbox + [msg], msg.worker)
    ensures msg.DownMsg? ==> HasDown(mailbox + [msg], msg.worker)
  {
    var longer := mailbox + [msg];
    assert longer[|mailbox|] == msg;
    forall w | HasResult(mailbox, w) ensures HasResult(longer, w) {
      var i :| 0 <= i < |mailbox| && mailbox[i].ResultMsg? && mailbox[i].worker == w;
      assert longer[i] == mailbox[i];
    }
  }

  lemma CrashOk(x: World, st: Step)
    requires WorldOk(x) && st.Crash? && Enabled(x, st)
    ensures WorldOk(Exec(x, st))
  {
    hide Flow, Bounds, Pool;
    var w, x' := st.worker, Exec(x, st);
    MailAppend(x.mailbox, DownMsg(w));
    assert MailJobs(x'.mailbox) == MailJobs(x.mailbox);
    FlowSame(x, x');
    CrashMail(x, st);
    CrashWorkers(x, st);
    hide HasResult, HasDown, MailOk, WorkersOk;
  }

  lemma CrashWorkers(x: World, st: Step)
    requires WorkersOk(x) && st.Crash? && Enabled(x, st)
    ensures WorkersOk(Exec(x, st))
  {
    PostKeeps(x.mailbox, DownMsg(st.worker));
    hide HasResult, HasDown;
  }

  lemma CrashMail(x: World, st: Step)
    requires MailOk(x) && WorkersOk(x) && st.Crash? && Enabled(x, st)
    ensures MailOk(Exec(x, st))
  {}

  lemma PostStep(x: World, st: Step)
    requires WorldOk(x) && (st.Submit? || st.Command? || st.Fire?) && Enabled(x, st)
    ensures WorldOk(Exec(x, st))
  {
    assert forall j :: j in x.submitted ==> j.retryCount == 0 by { CoreParts(x); }
    hide Core, WorldOk;
    match st
    case Submit(msg) => PostOk(x, msg, Exec(x, st));
    case Command(msg) => PostOk(x, msg, Exec(x, st));
    case Fire(job) => PostOk(x, EnqueueMsg(job), Exec(x, st));
  }

  lemma StepOk(x: World, st: Step)
    requires WorldOk(x) && Enabled(x, st)
    ensures WorldOk(Exec(x, st))
  {
    hide WorldOk, Exec;
    match st
    case Handle(_, _) =>
      match x.mailbox[0] {
        case EnqueueMsg(_) => HandleEnqueue(x, st);
        case BatchMsg(_) => HandleEnqueue(x, st);
        case ResultMsg(_, _) => HandleResult(x, st);
        case DownMsg(_) => HandleDeath(x, st);
        case AddWorkerMsg => HandleCommand(x, st);
        case RemoveWorkerMsg => HandleCommand(x, st);
      }
    case Answer(_, _) => AnswerOk(x, st);
    case Crash(_) => CrashOk(x, st);
    case _ => PostStep(x, st);
  }

  lemma {:induction false} StartMail(n: nat)
    ensures MailJobs(seq(n, _ => AddWorkerMsg)) == multiset{}
  {
    if n > 0 {
      assert seq(n, _ => AddWorkerMsg)[1..] == seq(n - 1, _ => AddWorkerMsg);
      StartMail(n - 1);
    }
  }

  lemma StartOk(n: nat)
    ensures WorldOk(Start(n))
  {
    hide Flow, MailJobs, Pool, MailOk, WorkersOk, Bounds;
    var x := Start(n);
    StartMail(n);
    StartFlow(x);
    StartIdle(x);
  }

  lemma StartIdle(x: World)
    requires x.q == Empty() && x.live == map[] && forall i :: 0 <= i < |x.mailbox| ==> x.mailbox[i] == AddWorkerMsg
    ensures Pool(x.q) && MailOk(x) && WorkersOk(x) && Bounds(x.q)
  {}

  lemma StartFlow(x: World)
    requires x.q == Empty() && MailJobs(x.mailbox) == multiset{} && x.inHand == x.timers == x.submitted == multiset{}
    ensures Flow(x)
  {}

  lemma {:induction false} RunOk(initialWorkers: nat, xs: seq<World>, steps: seq<Step>, k: nat)
    requires IsRun(initialWorkers, xs, steps) && k < |xs|
    ensures WorldOk(xs[k])
  {
    hide WorldOk, Enabled, Exec;
    if k == 0 {
      StartOk(initialWorkers);
    } else {
      RunOk(initialWorkers, xs, steps, k - 1);
      StepOk(xs[k - 1], steps[k - 1]);
    }
  }

  // ---------- what every run guarantees ----------

  /** How many jobs with a specification there are, whatever their retry count; no job is ever retried a fifth time. */
  function Copies(m: multiset<Job>, s: Spec): nat {
    m[Job(s, 0)] + m[Job(s, 1)] + m[Job(s, 2)] + m[Job(s, 3)] + m[Job(s, 4)]
  }

  /** The levels a job passes through. */
  lemma FlowAt(x: World, s: Spec, r: nat)
    requires WorldOk(x)
    ensures x.submitted[Job(s, r)] + Tally(x.q.out, Retries)[Job(s, r)] ==
      MailJobs(x.mailbox)[Job(s, r)] + x.timers[Job(s, r)] + multiset(Dispatched(x.q.out))[Job(s, r)]
      + multiset(x.q.pending)[Job(s, r)] + Tally(x.q.out, Rejects)[Job(s, r)]
    ensures multiset(Dispatched(x.q.out))[Job(s, r)] ==
      Bag(x.q.inFlight)[Job(s, r)] + Tally(x.q.out, Dones)[Job(s, r)]
      + Tally(x.q.out, Retries)[Job(s, r + 1)] + Tally(x.q.out, Deads)[Job(s, r + 1)]
    ensures (r > 0 ==> x.submitted[Job(s, r)] == 0)
      && (r == 0 || r > MAX_RETRIES ==> Tally(x.q.out, Retries)[Job(s, r)] == 0)
      && (r != MAX_RETRIES + 1 ==> Tally(x.q.out, Deads)[Job(s, r)] == 0)
  {
    hide Tally, Accepted, Dispatched, Bag, MailJobs, MailOk, WorkersOk, Pool, Bounds, FlowIn, FlowOut, Levels, Fifo;
    var j := Job(s, r);
    FlowInAt(x, j);
    FlowOutAt(x.q, j);
    LevelsAt(x, j);
    assert Bump(j) == Job(s, r + 1);
    LevelsAt(x, Bump(j));
  }

  lemma FlowInAt(x: World, j: Job)
    requires FlowIn(x) && Fifo(x.q) && x.inHand == multiset{}
    ensures x.submitted[j] + Tally(x.q.out, Retries)[j] ==
      MailJobs(x.mailbox)[j] + x.timers[j] + multiset(Dispatched(x.q.out))[j] + multiset(x.q.pending)[j]
      + Tally(x.q.out, Rejects)[j]
  {
    hide Tally, Accepted, Dispatched, MailJobs;
    assert multiset(Dispatched(x.q.out) + x.q.pending) == multiset(Dispatched(x.q.out)) + multiset(x.q.pending);
    assert (x.submitted + Tally(x.q.out, Retries))[j] ==
      (MailJobs(x.mailbox) + x.inHand + x.timers + multiset(Accepted(x.q.out)) + Tally(x.q.out, Rejects))[j];
  }

  lemma FlowOutAt(q: Queue, j: Job)
    requires FlowOut(q)
    ensures multiset(Dispatched(q.out))[j] ==
      Bag(q.inFlight)[j] + Tally(q.out, Dones)[j] + Tally(q.out, Retries)[Bump(j)] + Tally(q.out, Deads)[Bump(j)]
  {
    hide Tally, Dispatched, Bag;
  }

  lemma LevelsAt(x: World, j: Job)
    requires Levels(x)
    ensures j.retryCount > 0 ==> x.submitted[j] == 0
    ensures j.retryCount == 0 || j.retryCount > MAX_RETRIES ==> Tally(x.q.out, Retries)[j] == 0
    ensures j.retryCount != MAX_RETRIES + 1 ==> Tally(x.q.out, Deads)[j] == 0
  {
    hide Tally;
  }

  /** Conservation: in every run, every job ever submitted is in exactly one place: waiting in the mailbox, on a retry
      timer, pending, in flight, done, set aside as dead, or rejected because the queue was full. */
  lemma JobsConserved(initialWorkers: nat, xs: seq<World>, steps: seq<Step>, k: nat, s: Spec)
    requires IsRun(initialWorkers, xs, steps) && k < |xs|
    ensures var x := xs[k];
      Copies(x.submitted, s) ==
        Copies(MailJobs(x.mailbox), s) + Copies(x.timers, s)
        + Copies(multiset(x.q.pending), s) + Copies(Bag(x.q.inFlight), s)
        + Copies(Tally(x.q.out, Dones), s) + Copies(Tally(x.q.out, Deads), s) + Copies(Tally(x.q.out, Rejects), s)
  {
    hide WorldOk, Tally, Dispatched, Bag, MailJobs;
    RunOk(initialWorkers, xs, steps, k);
    FlowAt(xs[k], s, 0);
    FlowAt(xs[k], s, 1);
    FlowAt(xs[k], s, 2);
    FlowAt(xs[k], s, 3);
    FlowAt(xs[k], s, 4);
    FlowAt(xs[k], s, 5);
  }

  /** No job is dispatched more than four times for each time it was submitted, nor with more than three retries behind
      it. */
  lemma DispatchesBounded(initialWorkers: nat, xs: seq<World>, steps: seq<Step>, k: nat, s: Spec)
    requires IsRun(initialWorkers, xs, steps) && k < |xs|
    ensures Copies(multiset(Dispatched(xs[k].q.out)), s) <= 4 * Copies(xs[k].submitted, s)
    ensures forall j :: j in Dispatched(xs[k].q.out) ==> j.retryCount <= MAX_RETRIES
  {
    hide WorldOk, Tally, Dispatched, Bag, MailJobs;
    RunOk(initialWorkers, xs, steps, k);
    FlowAt(xs[k], s, 0);
    FlowAt(xs[k], s, 1);
    FlowAt(xs[k], s, 2);
    FlowAt(xs[k], s, 3);
    FlowAt(xs[k], s, 4);
    forall j | j in Dispatched(xs[k].q.out) ensures j.retryCount <= MAX_RETRIES {
      FlowAt(xs[k], j.spec, j.retryCount);
      assert multiset(Dispatched(xs[k].q.out))[j] > 0;
      assert j == Job(j.spec, j.retryCount);
    }
  }

  /** Every place a job can be holds only jobs with at most three retries; the dead have exactly used them up. */
  lemma LiveJobsYoung(initialWorkers: nat, xs: seq<World>, steps: seq<Step>, k: nat, j: Job)
    requires IsRun(initialWorkers, xs, steps) && k < |xs|
    ensures var x := xs[k];
      (j in MailJobs(x.mailbox) || j in x.timers || j in x.q.pending || j in Bag(x.q.inFlight)
        || j in Tally(x.q.out, Dones) || j in Tally(x.q.out, Rejects)) ==> j.retryCount <= MAX_RETRIES
    ensures j in Tally(xs[k].q.out, Deads) ==> j.retryCount == MAX_RETRIES + 1
  {
    hide WorldOk, Tally, Dispatched, Bag, MailJobs;
    RunOk(initialWorkers, xs, steps, k);
    FlowAt(xs[k], j.spec, j.retryCount);
    assert j == Job(j.spec, j.retryCount);
    assert j in xs[k].q.pending ==> multiset(xs[k].q.pending)[j] > 0;
  }

  /** The first retry waits one second, the second two, the third four. */
  predicate BacksOff(e: Effect)
    requires e.Retry?
  {
    1 <= e.job.retryCount <= 3 && e.seconds == [1, 2, 4][e.job.retryCount - 1]
  }

  /** Between messages: jobs are dispatched in the order they were accepted; no worker idles while a job is pending, so
      then every tracked worker is busy; at most 100 jobs are pending; the tracked workers are exactly the idle and the
      busy ones, each once; and every retry waits as long as its number demands. */
  lemma SchedulingHolds(initialWorkers: nat, xs: seq<World>, steps: seq<Step>, k: nat)
    requires IsRun(initialWorkers, xs, steps) && k < |xs|
    ensures var q := xs[k].q;
      && Accepted(q.out) == Dispatched(q.out) + q.pending
      && (q.idle == [] || q.pending == [])
      && |q.pending| <= MAX_QUEUE_DEPTH
      && NoDup(q.idle) && NoDup(q.all)
      && (forall w :: w in q.idle ==> w in q.all && w !in q.inFlight)
      && (forall w :: w in q.inFlight ==> w in q.all)
      && (forall w :: w in q.all ==> w in q.idle || w in q.inFlight)
      && (q.pending != [] ==> forall w :: w in q.all ==> w in q.inFlight)
      && (forall i :: 0 <= i < |q.out| && q.out[i].Retry? ==> BacksOff(q.out[i]))
  {
    RunOk(initialWorkers, xs, steps, k);
    hide *;
    WorldParts(xs[k]);
  }

  lemma WorldParts(x: World)
    requires WorldOk(x)
    ensures Accepted(x.q.out) == Dispatched(x.q.out) + x.q.pending
    ensures x.q.idle == [] || x.q.pending == []
    ensures |x.q.pending| <= MAX_QUEUE_DEPTH
    ensures NoDup(x.q.idle) && NoDup(x.q.all)
    ensures forall w :: w in x.q.idle ==> w in x.q.all && w !in x.q.inFlight
    ensures forall w :: w in x.q.inFlight ==> w in x.q.all
    ensures forall w :: w in x.q.all ==> w in x.q.idle || w in x.q.inFlight
    ensures forall i :: 0 <= i < |x.q.out| && x.q.out[i].Retry? ==> BacksOff(x.q.out[i])
  {
    hide Accepted, Dispatched, FlowIn, FlowOut, Levels, MailOk, WorkersOk, Pow2, NoDup, Bounds, BacksOff;
    Backoffs(x.q);
  }

  lemma Backoffs(q: Queue)
    requires Bounds(q)
    ensures |q.pending| <= MAX_QUEUE_DEPTH
    ensures forall i :: 0 <= i < |q.out| && q.out[i].Retry? ==> BacksOff(q.out[i])
  {
    assert Pow2(0) == 1 && Pow2(1) == 2 && Pow2(2) == 4;
  }

  /** No job is stranded: a job in flight is with its living worker, or that worker's result for it, or its Down, is on
      the way, so it will be settled or sent to retry when the mailbox is worked off. */
  lemma NoJobStranded(initialWorkers: nat, xs: seq<World>, steps: seq<Step>, k: nat, w: Pid)
    requires IsRun(initialWorkers, xs, steps) && k < |xs| && w in xs[k].q.inFlight
    ensures var x := xs[k];
      || (w in x.live && x.live[w] == [x.q.inFlight[w]])
      || (exists i :: 0 <= i < |x.mailbox| && x.mailbox[i].ResultMsg? && x.mailbox[i].worker == w
                      && x.mailbox[i].result.jobId == x.q.inFlight[w].spec.id)
      || DownMsg(w) in x.mailbox
  {
    RunOk(initialWorkers, xs, steps, k);
    CoreParts(xs[k]);
  }
}
