/** Waiting for causal order never blocks: from any point of any run whose pending deltas may be sent, sending them and
    delivering what has been sent leads to a settled cluster. */
module PresenceSettling {
  import opened Pids
  import opened PresenceState
  import opened PresenceInvariant
  import opened PresenceAlgebra
  import opened PresenceConvergence

  // ---------- deltas in the order of sending ----------

  type Ranks = map<(Replica, nat), nat>

  /** Every delta comes after those its sender had merged or sent. */
  ghost predicate Ranked(logs: Logs, ranks: Ranks) {
    forall n, i: nat :: i < |LogOf(logs, n)| ==>
      (n, i) in ranks && Follows(ranks, LogOf(logs, n)[i].deps, ranks[(n, i)])
  }

  ghost predicate Follows(ranks: Ranks, deps: Context, rank: nat) {
    forall r, k: nat :: k < At(deps, r) ==> (r, k) in ranks && ranks[(r, k)] < rank
  }

  ghost predicate Below(ranks: Ranks, top: nat) {
    forall x :: x in ranks ==> ranks[x] < top
  }

  ghost predicate Sent(logs: Logs, deps: Context) {
    forall r :: At(deps, r) <= |LogOf(logs, r)|
  }

  /** One more delta goes after all others. */
  lemma AppendRanked(logs: Logs, n: Replica, p: Parcel, ranks: Ranks, top: nat)
    requires Ranked(logs, ranks) && Below(ranks, top) && Sent(logs, p.deps)
    requires forall r, i: nat :: i < |LogOf(logs, r)| ==> Sent(logs, LogOf(logs, r)[i].deps)
    ensures Ranked(Append(logs, n, p), ranks[(n, |LogOf(logs, n)|) := top])
  {
    var logs', at := Append(logs, n, p), |LogOf(logs, n)|;
    var ranks' := ranks[(n, at) := top];
    forall r, i: nat | i < |LogOf(logs', r)|
      ensures (r, i) in ranks' && Follows(ranks', LogOf(logs', r)[i].deps, ranks'[(r, i)])
    {
      if r == n && i == at {
        FollowsTop(logs, ranks, top, n, p.deps);
      } else {
        assert LogOf(logs', r)[i] == LogOf(logs, r)[i];
        var deps := LogOf(logs, r)[i].deps;
        assert Follows(ranks, deps, ranks[(r, i)]) && Sent(logs, deps);
        hide Ranked, Below;
        forall q, k: nat | k < At(deps, q) ensures (q, k) in ranks' && ranks'[(q, k)] < ranks'[(r, i)] {
          assert k < |LogOf(logs, q)|;
        }
      }
    }
  }

  lemma FollowsTop(logs: Logs, ranks: Ranks, top: nat, n: Replica, deps: Context)
    requires Ranked(logs, ranks) && Below(ranks, top) && Sent(logs, deps)
    ensures Follows(ranks[(n, |LogOf(logs, n)|) := top], deps, top)
  {
    forall q, k: nat | k < At(deps, q)
      ensures (q, k) in ranks && ranks[(q, k)] < top && (q, k) != (n, |LogOf(logs, n)|)
    {
      assert k < |LogOf(logs, q)|;
    }
  }

  lemma SendRanked(c: Cluster, n: Replica, ranks: Ranks, top: nat)
    requires ClusterOk(c) && n in c.nodes && n in c.seen && !c.nodes[n].delta.IsEmpty() && Enabled(c, Broadcast(n))
    requires Ranked(c.logs, ranks) && Below(ranks, top)
    ensures Ranked(Exec(c, Broadcast(n)).logs, ranks[(n, |LogOf(c.logs, n)|) := top])
  {
    hide ClusterOk, Ranked, Below, Append, Enabled, Exec;
    SentLogs(c, n);
    SeenSent(c, n);
    AllSent(c);
    AppendRanked(c.logs, n, Parcel(c.nodes[n].delta, c.seen[n]), ranks, top);
  }

  lemma AllSent(c: Cluster)
    requires ClusterOk(c)
    ensures forall r, i: nat :: i < |LogOf(c.logs, r)| ==> Sent(c.logs, LogOf(c.logs, r)[i].deps)
  {
    hide MemberOk;
    forall r, i: nat | i < |LogOf(c.logs, r)| ensures Sent(c.logs, LogOf(c.logs, r)[i].deps) {
      assert ParcelOk(c.logs, r, i);
    }
  }

  /** Nobody has seen more than was sent, and each has seen all of its own. */
  lemma SeenSent(c: Cluster, m: Replica)
    requires ClusterOk(c) && m in c.nodes
    ensures forall r :: At(c.seen[m], r) <= |LogOf(c.logs, r)|
    ensures At(c.seen[m], m) == |LogOf(c.logs, m)|
  {
    hide LogsOk, HistoryOk, PendingOk, Inv, Determined, Entries;
    assert MemberOk(c, m);
  }

  lemma SameLogs(c: Cluster, st: Step)
    requires ClusterOk(c) && Enabled(c, st)
    ensures !st.Broadcast? ==> Exec(c, st).logs == c.logs
    ensures st.Broadcast? ==> st.n in c.nodes && st.n in c.seen
    ensures st.Broadcast? && c.nodes[st.n].delta.IsEmpty() ==> Exec(c, st) == c
  {
    hide MemberOk, LogsOk;
  }

  lemma StepRanked(c: Cluster, st: Step, ranks: Ranks, top: nat) returns (ranks': Ranks, top': nat)
    requires ClusterOk(c) && Enabled(c, st) && Ranked(c.logs, ranks) && Below(ranks, top)
    ensures Ranked(Exec(c, st).logs, ranks') && Below(ranks', top')
  {
    hide ClusterOk, Ranked, Exec, Enabled, LogOf;
    SameLogs(c, st);
    ranks', top' := ranks, top;
    if st.Broadcast? && !c.nodes[st.n].delta.IsEmpty() {
      SendRanked(c, st.n, ranks, top);
      ranks', top' := ranks[(st.n, |LogOf(c.logs, st.n)|) := top], top + 1;
    }
  }

  lemma {:induction false} RanksExist(replicas: set<Replica>, cs: seq<Cluster>, steps: seq<Step>, k: nat)
    returns (ranks: Ranks, top: nat)
    requires IsRun(replicas, cs, steps) && k < |cs|
    ensures Ranked(cs[k].logs, ranks) && Below(ranks, top)
  {
    hide Ranked, Below, ClusterOk, Exec, Enabled;
    if k == 0 {
      ranks, top := map[], 0;
      NothingSent(replicas);
    } else {
      ranks, top := RanksExist(replicas, cs, steps, k - 1);
      RunOk(replicas, cs, steps, k - 1);
      ranks, top := StepRanked(cs[k - 1], steps[k - 1], ranks, top);
    }
  }

  lemma NothingSent(replicas: set<Replica>)
    ensures Ranked(Start(replicas).logs, map[]) && Below(map[], 0)
  {}

  // ---------- something can always be delivered ----------

  lemma DepsOf(c: Cluster, ranks: Ranks, n: Replica, i: nat)
    requires ClusterOk(c) && Ranked(c.logs, ranks) && i < |LogOf(c.logs, n)|
    ensures n in c.nodes && (n, i) in ranks
    ensures Sent(c.logs, LogOf(c.logs, n)[i].deps) && At(LogOf(c.logs, n)[i].deps, n) == i
    ensures Follows(ranks, LogOf(c.logs, n)[i].deps, ranks[(n, i)])
  {
    hide MemberOk, Follows;
    assert ParcelOk(c.logs, n, i);
  }

  /** As long as a replica has not merged some delta, it may merge some delta. */
  lemma {:induction false} FindDeliverable(c: Cluster, ranks: Ranks, m: Replica, n: Replica, i: nat)
      returns (from: Replica)
    requires ClusterOk(c) && Ranked(c.logs, ranks) && m in c.nodes && m in c.seen
    requires At(c.seen[m], n) <= i < |LogOf(c.logs, n)| && (n, i) in ranks
    ensures Enabled(c, Deliver(m, from))
    decreases ranks[(n, i)]
  {
    hide ClusterOk, Ranked, LogOf;
    SeenSent(c, m);
    DepsOf(c, ranks, n, i);
    var deps, next := LogOf(c.logs, n)[i].deps, At(c.seen[m], n);
    if next < i {
      from := FindDeliverable(c, ranks, m, n, next);
    } else if ContextLeq(deps, c.seen[m]) {
      from := n;
    } else {
      var r :| At(deps, r) > At(c.seen[m], r);
      from := FindDeliverable(c, ranks, m, r, At(c.seen[m], r));
    }
  }

  /** What is still to be merged, and where. */
  ghost function Todo(c: Cluster): set<(Replica, Replica, int)> {
    set m, n, i | m in c.nodes && n in c.nodes && 0 <= i < |LogOf(c.logs, n)| && Unseen(c, m, n, i) :: (m, n, i)
  }

  ghost predicate Unseen(c: Cluster, m: Replica, n: Replica, i: int) {
    m in c.seen && At(c.seen[m], n) <= i
  }

  ghost predicate NonePending(c: Cluster) {
    forall n :: n in c.nodes ==> c.nodes[n].delta.IsEmpty()
  }

  lemma DeliverLess(c: Cluster, m: Replica, n: Replica)
    requires ClusterOk(c) && Enabled(c, Deliver(m, n))
    ensures Todo(Exec(c, Deliver(m, n))) < Todo(c)
    ensures NonePending(c) ==> NonePending(Exec(c, Deliver(m, n)))
  {
    hide MemberOk, LogsOk, Merge, ContextLeq;
    var c' := Exec(c, Deliver(m, n));
    var i := At(c.seen[m], n);
    MergeKeeps(c.nodes[m], LogOf(c.logs, n)[i].delta);
    forall x | x in Todo(c') ensures x in Todo(c) {
      assert Unseen(c', x.0, x.1, x.2);
      assert Unseen(c, x.0, x.1, x.2);
    }
    assert (m, n, i) in Todo(c) by { assert Unseen(c, m, n, i); }
    assert (m, n, i) !in Todo(c') by { assert !Unseen(c', m, n, i); }
  }

  lemma TodoDone(c: Cluster)
    requires ClusterOk(c) && NonePending(c) && Todo(c) == {}
    ensures Settled(c)
  {
    hide MemberOk, LogsOk;
    forall m, n | m in c.seen && n in c.nodes ensures At(c.seen[m], n) == |LogOf(c.logs, n)| {
      SeenSent(c, m);
      UnseenTodo(c, m, n);
    }
  }

  lemma UnseenTodo(c: Cluster, m: Replica, n: Replica)
    requires m in c.nodes && m in c.seen && n in c.nodes
    ensures At(c.seen[m], n) < |LogOf(c.logs, n)| ==> (m, n, At(c.seen[m], n)) in Todo(c)
  {
    assert Unseen(c, m, n, At(c.seen[m], n));
  }

  /** The second run continues the first by deliveries and broadcasts alone. */
  ghost predicate Continues(cs: seq<Cluster>, steps: seq<Step>, cs': seq<Cluster>, steps': seq<Step>) {
    && cs <= cs' && steps <= steps'
    && forall i :: |steps| <= i < |steps'| ==> steps'[i].Deliver? || steps'[i].Broadcast?
  }

  lemma {:induction false} DeliverAll(replicas: set<Replica>, cs: seq<Cluster>, steps: seq<Step>)
    returns (cs': seq<Cluster>, steps': seq<Step>)
    requires IsRun(replicas, cs, steps) && |cs| == |steps| + 1 && NonePending(cs[|steps|])
    ensures IsRun(replicas, cs', steps') && |cs'| == |steps'| + 1 && Settled(cs'[|steps'|])
    ensures Continues(cs, steps, cs', steps')
    decreases Todo(cs[|steps|])
  {
    hide IsRun, ClusterOk, Exec, Enabled, Settled, Ranked, NonePending, Todo;
    var c := cs[|steps|];
    RunOk(replicas, cs, steps, |steps|);
    if Todo(c) == {} {
      TodoDone(c);
      cs', steps' := cs, steps;
    } else {
      var m, from := Deliverable(replicas, cs, steps);
      var st := Deliver(m, from);
      ExtendRun(replicas, cs, steps, st);
      DeliverLess(c, m, from);
      cs', steps' := DeliverAll(replicas, cs + [Exec(c, st)], steps + [st]);
    }
  }

  lemma Deliverable(replicas: set<Replica>, cs: seq<Cluster>, steps: seq<Step>) returns (m: Replica, from: Replica)
    requires IsRun(replicas, cs, steps) && |cs| == |steps| + 1 && Todo(cs[|steps|]) != {}
    ensures Enabled(cs[|steps|], Deliver(m, from))
  {
    hide IsRun, ClusterOk, Enabled, Ranked;
    var c := cs[|steps|];
    RunOk(replicas, cs, steps, |steps|);
    var ranks, _ := RanksExist(replicas, cs, steps, |steps|);
    var x :| x in Todo(c);
    m := x.0;
    DepsOf(c, ranks, x.1, x.2);
    from := FindDeliverable(c, ranks, m, x.1, x.2);
  }

  // ---------- sending what is pending ----------

  ghost predicate AllClean(c: Cluster) {
    forall n :: n in c.nodes ==> Clean(c.nodes[n].delta)
  }

  ghost function WithPending(c: Cluster): set<Replica> {
    set n | n in c.nodes && !c.nodes[n].delta.IsEmpty()
  }

  lemma SendLess(c: Cluster, n: Replica)
    requires ClusterOk(c) && AllClean(c) && n in WithPending(c)
    ensures Enabled(c, Broadcast(n)) && AllClean(Exec(c, Broadcast(n)))
    ensures WithPending(Exec(c, Broadcast(n))) < WithPending(c)
  {
    hide MemberOk, LogsOk;
    var c' := Exec(c, Broadcast(n));
    assert n !in WithPending(c');
  }

  lemma {:induction false} SendAll(replicas: set<Replica>, cs: seq<Cluster>, steps: seq<Step>)
    returns (cs': seq<Cluster>, steps': seq<Step>)
    requires IsRun(replicas, cs, steps) && |cs| == |steps| + 1 && AllClean(cs[|steps|])
    ensures IsRun(replicas, cs', steps') && |cs'| == |steps'| + 1 && NonePending(cs'[|steps'|])
    ensures Continues(cs, steps, cs', steps')
    decreases WithPending(cs[|steps|])
  {
    hide IsRun, ClusterOk, Exec, Enabled, AllClean;
    var c := cs[|steps|];
    RunOk(replicas, cs, steps, |steps|);
    if WithPending(c) == {} {
      assert forall n :: n in c.nodes && !c.nodes[n].delta.IsEmpty() ==> n in WithPending(c);
      cs', steps' := cs, steps;
    } else {
      var n :| n in WithPending(c);
      SendLess(c, n);
      ExtendRun(replicas, cs, steps, Broadcast(n));
      cs', steps' := SendAll(replicas, cs + [Exec(c, Broadcast(n))], steps + [Broadcast(n)]);
    }
  }

  /** Every run whose pending deltas are clean can be continued, by sending and delivering alone, until it has settled;
      and then every replica holds exactly the entries ever tracked whose tags were never removed. */
  lemma CanSettle(replicas: set<Replica>, cs: seq<Cluster>, steps: seq<Step>)
    returns (cs': seq<Cluster>, steps': seq<Step>)
    requires IsRun(replicas, cs, steps) && |cs| == |steps| + 1 && AllClean(cs[|steps|])
    ensures IsRun(replicas, cs', steps') && |cs'| == |steps'| + 1 && Continues(cs, steps, cs', steps')
    ensures Settled(cs'[|steps'|])
    ensures forall m :: m in cs'[|steps'|].nodes ==>
      Entries(cs'[|steps'|].nodes[m].values) == set e | e in Issued(cs'[|steps'|]) && e.tag !in Removed(cs'[|steps'|])
  {
    hide IsRun, AllClean, NonePending, Settled, Issued, Removed, Entries;
    cs', steps' := SendAll(replicas, cs, steps);
    cs', steps' := DeliverAll(replicas, cs', steps');
    forall m | m in cs'[|steps'|].nodes
      ensures Entries(cs'[|steps'|].nodes[m].values) ==
        set e | e in Issued(cs'[|steps'|]) && e.tag !in Removed(cs'[|steps'|])
    {
      Converges(replicas, cs', steps', |steps'|, m);
    }
  }
}
