/** Whole histories of adding monitors, cancelling them and nodes going down. */
module NodeMonitorRuns {
  import opened Pids
  import opened NodeMonitors

  datatype World = World(refs: Refs, nextRef: Ref, sent: seq<Notice>)

  datatype Step =
    | Monitor(node: Node, pid: Pid)
    | Demonitor(ref: Ref)
    | NodeDown(node: Node, reason: Reason, notices: seq<Notice>)

  const START := World(map[], 0, [])

  ghost predicate Enabled(w: World, st: Step) {
    st.NodeDown? ==> AreNotices(w.refs, st.node, st.reason, st.notices)
  }

  function Exec(w: World, st: Step): World {
    match st
    case Monitor(n, p) => World(w.refs[w.nextRef := (n, p)], w.nextRef + 1, w.sent)
    case Demonitor(r) => w.(refs := w.refs - {r})
    case NodeDown(n, _, notices) => w.(refs := Elsewhere(w.refs, n), sent := w.sent + notices)
  }

  ghost predicate IsRun(ws: seq<World>, steps: seq<Step>) {
    && |ws| == |steps| + 1
    && ws[0] == START
    && forall i :: 0 <= i < |steps| ==> Enabled(ws[i], steps[i]) && ws[i + 1] == Exec(ws[i], steps[i])
  }

  /** After the monitor was made in step i and before step j, it was neither cancelled nor did its node go down. */
  ghost predicate Untouched(steps: seq<Step>, i: nat, j: nat, ref: Ref)
    requires i < j <= |steps| && steps[i].Monitor?
  {
    forall k :: i < k < j ==>
      !(steps[k].Demonitor? && steps[k].ref == ref) && !(steps[k].NodeDown? && steps[k].node == steps[i].node)
  }

  ghost predicate Told(w: World, ref: Ref) {
    exists x :: 0 <= x < |w.sent| && w.sent[x].ref == ref
  }

  /** References are drawn once, and no two notices carry the same one. */
  ghost predicate WorldOk(w: World) {
    && (forall r :: r in w.refs ==> r < w.nextRef)
    && (forall x :: 0 <= x < |w.sent| ==> w.sent[x].ref < w.nextRef && w.sent[x].ref !in w.refs)
    && (forall x, y :: 0 <= x < y < |w.sent| ==> w.sent[x].ref != w.sent[y].ref)
  }

  lemma StepOk(w: World, st: Step)
    requires WorldOk(w) && Enabled(w, st)
    ensures WorldOk(Exec(w, st)) && w.sent <= Exec(w, st).sent
    ensures forall r :: Told(Exec(w, st), r) <==>
      Told(w, r) || (st.NodeDown? && r in w.refs && w.refs[r].0 == st.node)
  {
    var u := Exec(w, st);
    forall r ensures Told(u, r) <==> Told(w, r) || (st.NodeDown? && r in w.refs && w.refs[r].0 == st.node) {
      if Told(w, r) {
        var x :| 0 <= x < |w.sent| && w.sent[x].ref == r;
        assert u.sent[x].ref == r;
      } else if st.NodeDown? && r in w.refs && w.refs[r].0 == st.node {
        var x :| 0 <= x < |st.notices| && st.notices[x].ref == r;
        assert u.sent[|w.sent| + x].ref == r;
      }
    }
  }

  lemma {:induction false} RunOk(ws: seq<World>, steps: seq<Step>, i: nat)
    requires IsRun(ws, steps) && i < |ws|
    ensures WorldOk(ws[i])
  {
    if i > 0 {
      RunOk(ws, steps, i - 1);
      StepOk(ws[i - 1], steps[i - 1]);
    }
  }

  /** A monitor is registered exactly while it is untouched, and its process has been told exactly if its node was the
      first thing to touch it. */
  lemma {:induction false} MonitorLife(ws: seq<World>, steps: seq<Step>, i: nat, j: nat)
    requires IsRun(ws, steps) && i < j < |ws| && steps[i].Monitor?
    ensures var ref := ws[i].nextRef;
      && ref < ws[j].nextRef
      && (ref in ws[j].refs <==> Untouched(steps, i, j, ref))
      && (ref in ws[j].refs ==> ws[j].refs[ref] == (steps[i].node, steps[i].pid))
      && (Told(ws[j], ref) <==>
            exists k ::
              i < k < j && steps[k].NodeDown? && steps[k].node == steps[i].node && Untouched(steps, i, k, ref))
    decreases j
  {
    var ref := ws[i].nextRef;
    RunOk(ws, steps, j - 1);
    StepOk(ws[j - 1], steps[j - 1]);
    if j > i + 1 {
      hide WorldOk, Told;
      MonitorLife(ws, steps, i, j - 1);
    }
  }

  /** Every notice about a monitor goes to the process that made it, names its node, and carries the reason of the
      step in which that node went down. */
  lemma {:induction false} NoticeFaithful(ws: seq<World>, steps: seq<Step>, i: nat, j: nat, x: nat) returns (k: nat)
    requires IsRun(ws, steps) && i < j < |ws| && steps[i].Monitor?
    requires x < |ws[j].sent| && ws[j].sent[x].ref == ws[i].nextRef
    ensures i < k < j && steps[k].NodeDown? && steps[k].node == steps[i].node
    ensures ws[j].sent[x] == Notice(steps[i].pid, steps[i].node, steps[k].reason, ws[i].nextRef)
    decreases j
  {
    k := j - 1;
    RunOk(ws, steps, i);
    RunOk(ws, steps, k);
    var w, st := ws[k], steps[k];
    assert ws[j] == Exec(w, st) && Enabled(w, st);
    hide IsRun, Untouched, Told;
    if x < |w.sent| {
      assert i < k;
      k := NoticeFaithful(ws, steps, i, k, x);
    } else {
      assert st.NodeDown? && ws[j].sent[x] == st.notices[x - |w.sent|];
      MonitorLife(ws, steps, i, k);
    }
  }

  /** Exactly once if the node goes down while the monitor stands; never after a cancellation, never a second time. */
  lemma FiresExactlyOnce(ws: seq<World>, steps: seq<Step>, i: nat, j: nat)
    requires IsRun(ws, steps) && i < j < |ws| && steps[i].Monitor?
    ensures var ref := ws[i].nextRef;
      && (forall x, y :: 0 <= x < y < |ws[j].sent| ==> !(ws[j].sent[x].ref == ref && ws[j].sent[y].ref == ref))
      && ((exists x :: 0 <= x < |ws[j].sent| && ws[j].sent[x].ref == ref) <==>
          (exists k ::
             i < k < j && steps[k].NodeDown? && steps[k].node == steps[i].node && Untouched(steps, i, k, ref)))
  {
    RunOk(ws, steps, j);
    MonitorLife(ws, steps, i, j);
    assert Told(ws[j], ws[i].nextRef) <==> exists x :: 0 <= x < |ws[j].sent| && ws[j].sent[x].ref == ws[i].nextRef;
  }
}
