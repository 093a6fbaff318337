/** Monitors on remote nodes: who is to be told when a node goes down, by node and by reference. */
module NodeMonitors {
  import opened Pids
  import opened SetMaps

  type Node = string
  type Ref = nat

  datatype Reason = Disconnect | ConnectionLost | Shutdown | Other(text: string)

  /** A message to a process that a node it monitors went down. */
  datatype Notice = Notice(to: Pid, node: Node, reason: Reason, ref: Ref)

  function ReasonOf(s: string): Reason {
    if s == "disconnect" || s == "disconnect requested" then Disconnect
    else if s == "shutdown" then Shutdown
    else if s == "connection closed" || s == "connection lost" then ConnectionLost
    else Other(s)
  }

  /** What each reason text is reported as, and that no two texts are confused except the two pairs of synonyms. */
  lemma ReasonExact(s: string, t: string)
    ensures ReasonOf("disconnect") == ReasonOf("disconnect requested") == Disconnect
    ensures ReasonOf("connection closed") == ReasonOf("connection lost") == ConnectionLost
    ensures ReasonOf("shutdown") == Shutdown
    ensures ReasonOf(s).Other? ==> ReasonOf(s).text == s
    ensures ReasonOf(s) == ReasonOf(t) <==>
      || s == t
      || {s, t} == {"disconnect", "disconnect requested"}
      || {s, t} == {"connection closed", "connection lost"}
  {
    if {s, t} == {"disconnect", "disconnect requested"} || {s, t} == {"connection closed", "connection lost"} {
      assert s in {s, t} && t in {s, t};
    }
    if ReasonOf(s) == ReasonOf(t) && s != t {
      assert {s, t} == {"disconnect", "disconnect requested"} || {s, t} == {"connection closed", "connection lost"};
    }
  }

  type Refs = map<Ref, (Node, Pid)>

  /** The registrations that do not concern this node. */
  function Elsewhere(refs: Refs, node: Node): Refs {
    map r | r in refs && refs[r].0 != node :: refs[r]
  }

  /** One notice for every registration on this node, to its process, and nothing else. */
  ghost predicate AreNotices(refs: Refs, node: Node, reason: Reason, notices: seq<Notice>) {
    && (forall i :: 0 <= i < |notices| ==>
          var x := notices[i]; x.ref in refs && refs[x.ref] == (node, x.to) && x.node == node && x.reason == reason)
    && (forall r :: r in refs && refs[r].0 == node ==> exists i :: 0 <= i < |notices| && notices[i].ref == r)
    && (forall i, j :: 0 <= i < j < |notices| ==> notices[i].ref != notices[j].ref)
  }

  /** The sets by node and the reverse lookup hold the same registrations. */
  ghost predicate Agree(monitors: map<Node, set<(Pid, Ref)>>, refs: Refs) {
    forall n, p, r :: Has(monitors, n, (p, r)) <==> r in refs && refs[r] == (n, p)
  }

  lemma AgreeElsewhere(monitors: map<Node, set<(Pid, Ref)>>, refs: Refs, node: Node)
    requires Agree(monitors, refs)
    ensures Agree(monitors - {node}, Elsewhere(refs, node))
    ensures node !in monitors ==> Elsewhere(refs, node) == refs
  {
    forall n, p: Pid, r: Ref
      ensures Has(monitors - {node}, n, (p, r)) <==> r in Elsewhere(refs, node) && Elsewhere(refs, node)[r] == (n, p)
    {
      assert Has(monitors, n, (p, r)) <==> r in refs && refs[r] == (n, p);
    }
    if node !in monitors {
      forall r | r in refs ensures refs[r].0 != node { assert !Has(monitors, node, (refs[r].1, r)); }
    }
  }

  lemma AgreeWithout(monitors: map<Node, set<(Pid, Ref)>>, refs: Refs, ref: Ref)
    requires Agree(monitors, refs) && ref in refs
    ensures var (node, pid) := refs[ref];
      node in monitors && Agree(monitors[node := monitors[node] - {(pid, ref)}], refs - {ref})
  {
    var (node, pid) := refs[ref];
    assert Has(monitors, node, (pid, ref));
    var fewer := monitors[node := monitors[node] - {(pid, ref)}];
    forall n, p: Pid, r: Ref ensures Has(fewer, n, (p, r)) <==> r in refs - {ref} && (refs - {ref})[r] == (n, p) {
      assert Has(monitors, n, (p, r)) <==> r in refs && refs[r] == (n, p);
    }
  }

  class NodeMonitorRegistry {
    var localMonitors: map<Node, set<(Pid, Ref)>>
    var monitorRefs: Refs
    var remoteMonitors: map<Node, set<Pid>>
    var nextRef: Ref
    var sent: seq<Notice>

    /** The reverse lookup and the sets by node hold the same registrations, all with references already drawn. */
    ghost predicate Valid()
      reads this
    {
      && Agree(localMonitors, monitorRefs)
      && (forall r :: r in monitorRefs ==> r < nextRef)
    }

    constructor ()
      ensures Valid() && monitorRefs == map[] && remoteMonitors == map[] && nextRef == 0 && sent == []
    {
      localMonitors, monitorRefs, remoteMonitors, nextRef, sent := map[], map[], map[], 0, [];
    }

    method AddLocalMonitor(node: Node, pid: Pid) returns (ref: Ref)
      requires Valid()
      modifies this`localMonitors, this`monitorRefs, this`nextRef
      ensures Valid()
      ensures ref == old(nextRef) && ref !in old(monitorRefs) && nextRef == ref + 1
      ensures monitorRefs == old(monitorRefs)[ref := (node, pid)]
    {
      ref := nextRef;
      nextRef := nextRef + 1;
      WithHas(localMonitors, node, (pid, ref));
      localMonitors := With(localMonitors, node, (pid, ref));
      monitorRefs := monitorRefs[ref := (node, pid)];
    }

    method RemoveLocalMonitor(ref: Ref)
      requires Valid()
      modifies this`localMonitors, this`monitorRefs
      ensures Valid()
      ensures monitorRefs == old(monitorRefs) - {ref}
    {
      if ref in monitorRefs {
        var (node, pid) := monitorRefs[ref];
        AgreeWithout(localMonitors, monitorRefs, ref);
        monitorRefs := monitorRefs - {ref};
        if node in localMonitors {
          localMonitors := localMonitors[node := localMonitors[node] - {(pid, ref)}];
        }
      }
    }

    method AddRemoteMonitor(fromNode: Node, pid: Pid)
      modifies this`remoteMonitors
      ensures forall n, p :: Has(remoteMonitors, n, p) <==> Has(old(remoteMonitors), n, p) || (n, p) == (fromNode, pid)
    {
      WithHas(remoteMonitors, fromNode, pid);
      remoteMonitors := With(remoteMonitors, fromNode, pid);
    }

    method RemoveRemoteMonitor(fromNode: Node, pid: Pid)
      modifies this`remoteMonitors
      ensures forall n, p :: Has(remoteMonitors, n, p) <==> Has(old(remoteMonitors), n, p) && (n, p) != (fromNode, pid)
    {
      if fromNode in remoteMonitors {
        remoteMonitors := remoteMonitors[fromNode := remoteMonitors[fromNode] - {pid}];
      }
    }

    /** Tells every process with a registration on the node, once for each, and forgets those registrations. */
    method NotifyNodeDown(node: Node, reason: string)
      requires Valid()
      modifies this
      ensures Valid() && nextRef == old(nextRef)
      ensures monitorRefs == Elsewhere(old(monitorRefs), node)
      ensures remoteMonitors == old(remoteMonitors) - {node}
      ensures |old(sent)| <= |sent| && sent[..|old(sent)|] == old(sent)
      ensures AreNotices(old(monitorRefs), node, ReasonOf(reason), sent[|old(sent)|..])
    {
      AgreeElsewhere(localMonitors, monitorRefs, node);
      if node in localMonitors {
        var monitors := localMonitors[node];
        assert forall p: Pid, r: Ref :: (p, r) in monitors <==> Has(localMonitors, node, (p, r));
        hide Agree;
        localMonitors := localMonitors - {node};
        NotifyEach(node, reason, monitors);
      } else {
        assert localMonitors - {node} == localMonitors;
      }
      remoteMonitors := remoteMonitors - {node};
    }

    /** The notification loop. */
    method NotifyEach(node: Node, reason: string, monitors: set<(Pid, Ref)>)
      requires forall p, r :: (p, r) in monitors <==> r in monitorRefs && monitorRefs[r] == (node, p)
      modifies this`monitorRefs, this`sent
      ensures monitorRefs == Elsewhere(old(monitorRefs), node)
      ensures |old(sent)| <= |sent| && sent[..|old(sent)|] == old(sent)
      ensures AreNotices(old(monitorRefs), node, ReasonOf(reason), sent[|old(sent)|..])
    {
      var todo := monitors;
      var notices: seq<Notice> := [];
      ghost var before := sent;
      while todo != {}
        invariant todo <= monitors
        invariant monitorRefs.Keys <= old(monitorRefs).Keys
        invariant forall r :: r in old(monitorRefs) ==>
          (r in monitorRefs <==> old(monitorRefs)[r].0 != node || (old(monitorRefs)[r].1, r) in todo)
        invariant forall r :: r in monitorRefs ==> monitorRefs[r] == old(monitorRefs)[r]
        invariant sent == before + notices
        invariant NoticesFor(notices, node, ReasonOf(reason), monitors - todo)
        decreases todo
      {
        var monitor :| monitor in todo;
        assert monitor == (monitor.0, monitor.1);
        monitorRefs := monitorRefs - {monitor.1};
        var notice := Notice(monitor.0, node, ReasonOf(reason), monitor.1);
        assert monitors - (todo - {monitor}) == monitors - todo + {monitor};
        NoticeAppended(notices, node, ReasonOf(reason), monitors - todo, monitor);
        notices := notices + [notice];
        sent := sent + [notice];
        todo := todo - {monitor};
      }
      assert monitors - todo == monitors;
      assert sent[|old(sent)|..] == notices;
      NoticesComplete(old(monitorRefs), notices, node, ReasonOf(reason), monitors);
    }
  }

  /** One notice for each of these registrations. */
  ghost predicate NoticesFor(notices: seq<Notice>, node: Node, reason: Reason, monitors: set<(Pid, Ref)>) {
    && (forall i :: 0 <= i < |notices| ==>
          (notices[i].to, notices[i].ref) in monitors && notices[i].node == node && notices[i].reason == reason)
    && (forall p, r :: (p, r) in monitors ==> exists i :: 0 <= i < |notices| && notices[i].ref == r)
    && (forall i, j :: 0 <= i < j < |notices| ==> notices[i].ref != notices[j].ref)
  }

  lemma NoticeAppended(notices: seq<Notice>, node: Node, reason: Reason, monitors: set<(Pid, Ref)>, m: (Pid, Ref))
    requires NoticesFor(notices, node, reason, monitors)
    requires forall p :: (p, m.1) !in monitors
    ensures NoticesFor(notices + [Notice(m.0, node, reason, m.1)], node, reason, monitors + {m})
  {
    var more := notices + [Notice(m.0, node, reason, m.1)];
    assert m == (m.0, m.1);
    forall p, r | (p, r) in monitors + {m} ensures exists i :: 0 <= i < |more| && more[i].ref == r {
      if (p, r) in monitors {
        var i :| 0 <= i < |notices| && notices[i].ref == r;
        assert more[i].ref == r;
      } else {
        assert more[|notices|].ref == r;
      }
    }
  }

  lemma NoticesComplete(refs: Refs, notices: seq<Notice>, node: Node, reason: Reason, monitors: set<(Pid, Ref)>)
    requires forall p, r :: (p, r) in monitors <==> r in refs && refs[r] == (node, p)
    requires NoticesFor(notices, node, reason, monitors)
    ensures AreNotices(refs, node, reason, notices)
  {}
}
