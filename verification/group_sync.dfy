/** How nodes keep each other's group memberships: joins and leaves broadcast over FIFO links, snapshots on
    connect and on request, and cleanup on disconnect.

    A pair (n, k) in `conn` says that n has a connection to k. Connecting is one step for both ends; either end
    may lose the connection first. A link keeps what n has sent to k and k has not handled. */
module GroupSync {
  import opened Pids
  import opened G = ProcessGroups

  type Node = string
  type Queue = seq<Message>

  datatype Cluster = Cluster(views: map<Node, set<Member>>, conn: set<(Node, Node)>, links: map<(Node, Node), Queue>)

  datatype Step =
    | DoJoin(n: Node, group: Group, pid: Pid)
    | DoLeave(n: Node, group: Group, pid: Pid)
    | DoLeaveAll(n: Node, pid: Pid)
    | Connect(n: Node, k: Node, mine: Roster, theirs: Roster)
    | Disconnect(n: Node, k: Node)
    | AskSync(n: Node, k: Node, mine: Roster)
    | Handle(n: Node, k: Node, reply: Roster)

  function Link(c: Cluster, n: Node, k: Node): Queue {
    if (n, k) in c.links then c.links[(n, k)] else []
  }

  /** What `RequestSync` sends: a request, and the own memberships unless there are none. */
  function Greeting(local: set<Member>, roster: Roster): Queue {
    if local == {} then [SyncRequest] else [SyncRequest, SyncResponse(roster)]
  }

  ghost predicate Enabled(c: Cluster, st: Step) {
    match st
    case DoJoin(n, _, p) => n in c.views && p.node == n
    case DoLeave(n, _, p) => n in c.views && p.node == n
    case DoLeaveAll(n, p) => n in c.views && p.node == n
    case Connect(n, k, mine, theirs) =>
      && n in c.views && k in c.views && n != k && (n, k) !in c.conn
      && IsRoster(mine, Of(c.views[n], n)) && IsRoster(theirs, Of(c.views[k], k))
    case Disconnect(n, k) => n in c.views && k in c.views && (n, k) in c.conn
    case AskSync(n, k, mine) => n in c.views && k in c.views && (n, k) in c.conn && IsRoster(mine, Of(c.views[n], n))
    case Handle(n, k, reply) =>
      && n in c.views && k in c.views && (k, n) in c.conn && Link(c, n, k) != []
      && IsRoster(reply, Of(c.views[k], k))
  }

  /** A broadcast reaches the link to every node n is connected to. */
  function Broadcast(c: Cluster, n: Node, msg: Message): map<(Node, Node), Queue> {
    map l | l in c.links.Keys + c.conn ::
      if l.0 == n && l in c.conn then Link(c, l.0, l.1) + [msg] else Link(c, l.0, l.1)
  }

  function Drop(view: set<Member>, node: Node): set<Member> {
    view - Of(view, node)
  }

  ghost function Exec(c: Cluster, st: Step): Cluster
    requires Enabled(c, st)
  {
    match st
    case DoJoin(n, g, p) =>
      c.(views := c.views[n := Apply(c.views[n], Join(g, p))], links := Broadcast(c, n, Join(g, p)))
    case DoLeave(n, g, p) =>
      c.(views := c.views[n := Apply(c.views[n], Leave(g, p))], links := Broadcast(c, n, Leave(g, p)))
    case DoLeaveAll(n, p) =>
      if exists g :: (g, p) in c.views[n] then
        c.(views := c.views[n := Apply(c.views[n], LeaveAll(p))], links := Broadcast(c, n, LeaveAll(p)))
      else c
    case Connect(n, k, mine, theirs) =>
      // the accepting end replaces whatever connection it still had
      c.(views := if (k, n) in c.conn then c.views[k := Drop(c.views[k], n)] else c.views,
         conn := c.conn + {(n, k), (k, n)},
         links := c.links[(n, k) := Greeting(Of(c.views[n], n), mine)][(k, n) := Greeting(Of(c.views[k], k), theirs)])
    case Disconnect(n, k) =>
      c.(views := c.views[n := Drop(c.views[n], k)], conn := c.conn - {(n, k)}, links := c.links[(k, n) := []])
    case AskSync(n, k, mine) =>
      c.(links := c.links[(n, k) := Link(c, n, k) + Greeting(Of(c.views[n], n), mine)])
    case Handle(n, k, reply) =>
      var msg, rest := Link(c, n, k)[0], Link(c, n, k)[1..];
      var links := c.links[(n, k) := rest];
      c.(views := c.views[k := Apply(c.views[k], msg)],
         links := if msg.SyncRequest? then links[(k, n) := Link(c, k, n) + [SyncResponse(reply)]] else links)
  }

  ghost function Start(nodes: set<Node>): Cluster {
    Cluster(map n | n in nodes :: {}, {}, map[])
  }

  ghost predicate IsRun(nodes: set<Node>, cs: seq<Cluster>, steps: seq<Step>) {
    && |cs| == |steps| + 1
    && cs[0] == Start(nodes)
    && forall i :: 0 <= i < |steps| ==> Enabled(cs[i], steps[i]) && cs[i + 1] == Exec(cs[i], steps[i])
  }

  // ---------- applying what is in flight ----------

  function ApplyAll(view: set<Member>, queue: Queue): set<Member> {
    if queue == [] then view else Apply(ApplyAll(view, queue[..|queue| - 1]), queue[|queue| - 1])
  }

  /** The message is about processes of `n` only. */
  ghost predicate Speaks(msg: Message, n: Node) {
    match msg
    case Join(_, p) => p.node == n
    case Leave(_, p) => p.node == n
    case LeaveAll(p) => p.node == n
    case SyncRequest => true
    case SyncResponse(roster) => forall m :: m in Listed(roster) ==> m.1.node == n
  }

  lemma ApplyAllSnoc(view: set<Member>, queue: Queue, msg: Message)
    ensures ApplyAll(view, queue + [msg]) == Apply(ApplyAll(view, queue), msg)
  {}

  lemma {:induction false} ApplyHead(view: set<Member>, queue: Queue)
    requires queue != []
    ensures ApplyAll(view, queue) == ApplyAll(Apply(view, queue[0]), queue[1..])
  {
    var n := |queue| - 1;
    if n > 0 {
      ApplyHead(view, queue[..n]);
      assert queue[..n][1..] == queue[1..][..n - 1];
      assert queue[1..][|queue[1..]| - 1] == queue[n];
    }
  }

  lemma ApplyOf(view: set<Member>, msg: Message, n: Node, r: Node)
    requires Speaks(msg, n)
    ensures Of(Apply(view, msg), n) == Apply(Of(view, n), msg)
    ensures r != n ==> Of(Apply(view, msg), r) == Of(view, r)
  {}

  /** A snapshot of the sender's own memberships, appended where everything in flight leads to them, is harmless. */
  lemma GreetingHarmless(view: set<Member>, queue: Queue, local: set<Member>, roster: Roster)
    requires IsRoster(roster, local) && ApplyAll(view, queue) == local
    ensures ApplyAll(view, queue + Greeting(local, roster)) == local
    ensures ApplyAll(view, queue + [SyncResponse(roster)]) == local
  {
    ApplyAllSnoc(view, queue, SyncRequest);
    ApplyAllSnoc(view, queue, SyncResponse(roster));
    ApplyAllSnoc(view, queue + [SyncRequest], SyncResponse(roster));
    assert queue + [SyncRequest] + [SyncResponse(roster)] == queue + [SyncRequest, SyncResponse(roster)];
  }

  lemma GreetingFresh(local: set<Member>, roster: Roster)
    requires IsRoster(roster, local)
    ensures ApplyAll({}, Greeting(local, roster)) == local
  {
    var q := Greeting(local, roster);
    assert q[..0] == [];
    ApplyAllSnoc({}, [], SyncRequest);
    ApplyAllSnoc({}, [SyncRequest], SyncResponse(roster));
    assert [] + [SyncRequest] == [SyncRequest] && [SyncRequest] + [SyncResponse(roster)] ==
      [SyncRequest, SyncResponse(roster)];
    assert ApplyAll({}, []) == {};
  }

  // ---------- the invariant ----------

  ghost predicate LinkOk(c: Cluster, n: Node, k: Node)
    requires n in c.views && k in c.views
  {
    && (forall i :: 0 <= i < |Link(c, n, k)| ==> Speaks(Link(c, n, k)[i], n))
    && ((n, k) in c.conn && (k, n) in c.conn ==> ApplyAll(Of(c.views[k], n), Link(c, n, k)) == Of(c.views[n], n))
    && ((k, n) !in c.conn ==> Of(c.views[k], n) == {})
  }

  ghost predicate ViewOk(c: Cluster, n: Node)
    requires n in c.views
  {
    forall m :: m in c.views[n] ==> m.1.node in c.views
  }

  ghost predicate ClusterOk(c: Cluster) {
    && (forall l :: l in c.conn ==> l.0 in c.views && l.1 in c.views && l.0 != l.1)
    && (forall n :: n in c.views ==> ViewOk(c, n))
    && forall n, k :: n in c.views && k in c.views && n != k ==> LinkOk(c, n, k)
  }

  lemma LinkAt(c: Cluster, n: Node, k: Node, msg: Message)
    ensures var c' := c.(links := Broadcast(c, n, msg));
      && Link(c', n, k) == (if (n, k) in c.conn then Link(c, n, k) + [msg] else Link(c, n, k))
      && forall r, q :: r != n ==> Link(c', r, q) == Link(c, r, q)
  {}

  /** A node changes its own memberships and tells everyone it is connected to. */
  lemma BroadcastOk(c: Cluster, n: Node, msg: Message, c': Cluster)
    requires ClusterOk(c) && n in c.views && Speaks(msg, n)
    requires forall m :: m in Apply(c.views[n], msg) && m !in c.views[n] ==> m.1.node == n
    requires c' == c.(views := c.views[n := Apply(c.views[n], msg)], links := Broadcast(c, n, msg))
    ensures ClusterOk(c')
  {
    hide Speaks, ApplyAll, Broadcast;
    forall r, k | r in c'.views && k in c'.views && r != k ensures LinkOk(c', r, k) {
      BroadcastLink(c, n, msg, c', r, k);
    }
    hide LinkOk;
    forall r | r in c'.views ensures ViewOk(c', r) {
      assert ViewOk(c, r);
    }
  }

  lemma BroadcastLink(c: Cluster, n: Node, msg: Message, c': Cluster, r: Node, k: Node)
    requires ClusterOk(c) && n in c.views && Speaks(msg, n) && r in c.views && k in c.views && r != k
    requires c' == c.(views := c.views[n := Apply(c.views[n], msg)], links := Broadcast(c, n, msg))
    ensures LinkOk(c', r, k)
  {
    hide Speaks, ApplyAll, Broadcast, Of, Apply, ViewOk;
    assert LinkOk(c, r, k);
    LinkAt(c, n, k, msg);
    if r == n {
      ApplyAllSnoc(Of(c.views[k], n), Link(c, n, k), msg);
      ApplyOf(c.views[n], msg, n, k);
    } else if k == n {
      ApplyOf(c.views[n], msg, n, r);
    }
  }

  lemma DropOf(view: set<Member>, node: Node, r: Node)
    ensures Of(Drop(view, node), r) == if r == node then {} else Of(view, r)
  {}

  lemma SpeaksRoster(c: Cluster, n: Node, roster: Roster)
    requires n in c.views && IsRoster(roster, Of(c.views[n], n))
    ensures Speaks(SyncResponse(roster), n)
    ensures forall i :: 0 <= i < |Greeting(Of(c.views[n], n), roster)| ==>
      Speaks(Greeting(Of(c.views[n], n), roster)[i], n)
  {}

  lemma ConnectOk(c: Cluster, st: Step)
    requires ClusterOk(c) && st.Connect? && Enabled(c, st)
    ensures ClusterOk(Exec(c, st))
  {
    hide IsRoster, Speaks, ApplyAll, Greeting;
    var n, k, c' := st.n, st.k, Exec(c, st);
    SpeaksRoster(c, n, st.mine);
    SpeaksRoster(c, k, st.theirs);
    GreetingFresh(Of(c.views[n], n), st.mine);
    GreetingFresh(Of(c.views[k], k), st.theirs);
    forall a, b | a in c'.views && b in c'.views && a != b ensures LinkOk(c', a, b) {
      ConnectLink(c, st, a, b);
    }
    forall r | r in c'.views ensures ViewOk(c', r) { assert ViewOk(c, r); }
  }

  lemma ConnectLink(c: Cluster, st: Step, a: Node, b: Node)
    requires ClusterOk(c) && st.Connect? && Enabled(c, st) && a in c.views && b in c.views && a != b
    ensures LinkOk(Exec(c, st), a, b)
  {
    hide IsRoster, Speaks, ApplyAll, Greeting, Of, Drop;
    var n, k, c' := st.n, st.k, Exec(c, st);
    assert LinkOk(c, a, b) && LinkOk(c, k, n) && LinkOk(c, n, k);
    SpeaksRoster(c, n, st.mine);
    SpeaksRoster(c, k, st.theirs);
    GreetingFresh(Of(c.views[n], n), st.mine);
    GreetingFresh(Of(c.views[k], k), st.theirs);
    DropOf(c.views[k], n, a);
    DropOf(c.views[k], n, b);
    DropOf(c.views[k], n, n);
    assert Link(c', a, b) ==
      if a == n && b == k then Greeting(Of(c.views[n], n), st.mine)
      else if a == k && b == n then Greeting(Of(c.views[k], k), st.theirs)
      else Link(c, a, b);
    assert (a, b) in c'.conn <==> (a, b) in c.conn || (a == n && b == k) || (a == k && b == n);
    assert (b, a) in c'.conn <==> (b, a) in c.conn || (a == n && b == k) || (a == k && b == n);
  }

  lemma DisconnectOk(c: Cluster, st: Step)
    requires ClusterOk(c) && st.Disconnect? && Enabled(c, st)
    ensures ClusterOk(Exec(c, st))
  {
    hide Speaks, ApplyAll;
    var n, k, c' := st.n, st.k, Exec(c, st);
    forall a, b | a in c'.views && b in c'.views && a != b ensures LinkOk(c', a, b) {
      assert LinkOk(c, a, b);
      DropOf(c.views[n], k, a);
      DropOf(c.views[n], k, b);
      assert Link(c', a, b) == if a == k && b == n then [] else Link(c, a, b);
      assert (a, b) in c'.conn <==> (a, b) in c.conn && !(a == n && b == k);
      assert (b, a) in c'.conn <==> (b, a) in c.conn && !(b == n && a == k);
    }
    forall r | r in c'.views ensures ViewOk(c', r) { assert ViewOk(c, r); }
  }

  lemma AskSyncOk(c: Cluster, st: Step)
    requires ClusterOk(c) && st.AskSync? && Enabled(c, st)
    ensures ClusterOk(Exec(c, st))
  {
    hide IsRoster, Speaks, ApplyAll, Greeting;
    var n, k, c' := st.n, st.k, Exec(c, st);
    SpeaksRoster(c, n, st.mine);
    forall a, b | a in c'.views && b in c'.views && a != b ensures LinkOk(c', a, b) {
      assert LinkOk(c, a, b);
      assert Link(c', a, b) ==
        if a == n && b == k then Link(c, n, k) + Greeting(Of(c.views[n], n), st.mine) else Link(c, a, b);
      if a == n && b == k && (k, n) in c.conn {
        GreetingHarmless(Of(c.views[k], n), Link(c, n, k), Of(c.views[n], n), st.mine);
      }
    }
    forall r | r in c'.views ensures ViewOk(c', r) { assert ViewOk(c, r); }
  }

  lemma HandleOk(c: Cluster, st: Step)
    requires ClusterOk(c) && st.Handle? && Enabled(c, st)
    ensures ClusterOk(Exec(c, st))
  {
    hide IsRoster, Speaks, ApplyAll;
    var n, k, c' := st.n, st.k, Exec(c, st);
    var queue := Link(c, n, k);
    var msg := queue[0];
    assert n != k && LinkOk(c, n, k);
    SpeaksRoster(c, k, st.reply);
    forall a, b | a in c'.views && b in c'.views && a != b ensures LinkOk(c', a, b) {
      assert LinkOk(c, a, b);
      HandleLink(c, st, a, b);
    }
    HandleViews(c, st);
  }

  lemma HandleViews(c: Cluster, st: Step)
    requires ClusterOk(c) && st.Handle? && Enabled(c, st)
    ensures forall r :: r in Exec(c, st).views ==> ViewOk(Exec(c, st), r)
  {}

  lemma HandleLink(c: Cluster, st: Step, a: Node, b: Node)
    requires ClusterOk(c) && st.Handle? && Enabled(c, st)
    requires a in c.views && b in c.views && a != b && LinkOk(c, a, b)
    ensures LinkOk(Exec(c, st), a, b)
  {
    hide IsRoster, Speaks, ApplyAll, Apply, Of;
    var n, k, c' := st.n, st.k, Exec(c, st);
    var queue := Link(c, n, k);
    var msg := queue[0];
    assert LinkOk(c, n, k);
    SpeaksRoster(c, k, st.reply);
    assert Speaks(msg, n);
    ApplyOf(c.views[k], msg, n, a);
    ApplyOf(c.views[k], msg, n, n);
    assert Link(c', a, b) ==
      if a == n && b == k then queue[1..]
      else if a == k && b == n && msg.SyncRequest? then Link(c, k, n) + [SyncResponse(st.reply)]
      else Link(c, a, b);
    if a == n && b == k {
      ApplyHead(Of(c.views[k], n), queue);
    } else if a == k && b == n {
      if (k, n) in c.conn && (n, k) in c.conn {
        GreetingHarmless(Of(c.views[n], k), Link(c, k, n), Of(c.views[k], k), st.reply);
      }
    } else {
      assert Link(c', a, b) == Link(c, a, b);
    }
  }

  lemma LocalOk(c: Cluster, st: Step)
    requires ClusterOk(c) && (st.DoJoin? || st.DoLeave? || st.DoLeaveAll?) && Enabled(c, st)
    ensures ClusterOk(Exec(c, st))
  {
    hide ClusterOk, Broadcast;
    match st
    case DoJoin(n, g, p) => BroadcastOk(c, n, Join(g, p), Exec(c, st));
    case DoLeave(n, g, p) => BroadcastOk(c, n, Leave(g, p), Exec(c, st));
    case DoLeaveAll(n, p) =>
      if exists g :: (g, p) in c.views[n] { BroadcastOk(c, n, LeaveAll(p), Exec(c, st)); }
  }

  lemma StepOk(c: Cluster, st: Step)
    requires ClusterOk(c) && Enabled(c, st)
    ensures ClusterOk(Exec(c, st))
  {
    hide ClusterOk, Enabled, Exec;
    match st
    case Connect(_, _, _, _) => ConnectOk(c, st);
    case Disconnect(_, _) => DisconnectOk(c, st);
    case AskSync(_, _, _) => AskSyncOk(c, st);
    case Handle(_, _, _) => HandleOk(c, st);
    case _ => LocalOk(c, st);
  }

  lemma {:induction false} RunOk(nodes: set<Node>, cs: seq<Cluster>, steps: seq<Step>, i: nat)
    requires IsRun(nodes, cs, steps) && i < |cs|
    ensures ClusterOk(cs[i]) && cs[i].views.Keys == nodes
  {
    hide ClusterOk, Enabled;
    if i == 0 {
      StartOk(nodes);
    } else {
      RunOk(nodes, cs, steps, i - 1);
      StepOk(cs[i - 1], steps[i - 1]);
      SameNodes(cs[i - 1], steps[i - 1]);
    }
  }

  lemma StartOk(nodes: set<Node>)
    ensures ClusterOk(Start(nodes))
  {}

  lemma SameNodes(c: Cluster, st: Step)
    requires Enabled(c, st)
    ensures Exec(c, st).views.Keys == c.views.Keys
  {}

  /** In every run: while two nodes are connected, what k knows of n's processes plus what is in flight from n to k
      is exactly n's own memberships; when nothing is in flight, the two agree; and k knows nothing of the processes
      of a node it is not connected to. */
  lemma ViewsAgree(nodes: set<Node>, cs: seq<Cluster>, steps: seq<Step>, i: nat, n: Node, k: Node)
    requires IsRun(nodes, cs, steps) && i < |cs| && n in nodes && k in nodes && n != k
    ensures n in cs[i].views && k in cs[i].views
    ensures (n, k) in cs[i].conn && (k, n) in cs[i].conn ==>
      ApplyAll(Of(cs[i].views[k], n), Link(cs[i], n, k)) == Of(cs[i].views[n], n)
    ensures (n, k) in cs[i].conn && (k, n) in cs[i].conn && Link(cs[i], n, k) == [] ==>
      Of(cs[i].views[k], n) == Of(cs[i].views[n], n)
    ensures (k, n) !in cs[i].conn ==> Of(cs[i].views[k], n) == {}
  {
    RunOk(nodes, cs, steps, i);
    assert LinkOk(cs[i], n, k);
  }

  /** When all nodes are connected and all links are quiet, all nodes have one view. */
  lemma QuietClusterAgrees(nodes: set<Node>, cs: seq<Cluster>, steps: seq<Step>, i: nat, a: Node, b: Node)
    requires IsRun(nodes, cs, steps) && i < |cs| && a in nodes && b in nodes
    requires forall n, k :: n in nodes && k in nodes && n != k ==> (n, k) in cs[i].conn && Link(cs[i], n, k) == []
    ensures a in cs[i].views && b in cs[i].views && cs[i].views[a] == cs[i].views[b]
  {
    RunOk(nodes, cs, steps, i);
    var c := cs[i];
    assert ViewOk(c, a) && ViewOk(c, b);
    forall m ensures m in c.views[a] <==> m in c.views[b] {
      var n := m.1.node;
      if n in nodes {
        if n != a { ViewsAgree(nodes, cs, steps, i, n, a); }
        if n != b { ViewsAgree(nodes, cs, steps, i, n, b); }
        assert m in Of(c.views[a], n) <==> m in Of(c.views[b], n);
      }
    }
  }

  // ---------- what a node's own memberships are ----------

  /** The step ends this membership at the node of its process. */
  predicate Ends(st: Step, m: Member) {
    st == DoLeave(m.1.node, m.0, m.1) || st == DoLeaveAll(m.1.node, m.1)
  }

  /** The process joined the group at its node, and since then has not left it there. */
  ghost predicate JoinStands(steps: seq<Step>, i: nat, m: Member)
    requires i <= |steps|
  {
    exists j :: 0 <= j < i && steps[j] == DoJoin(m.1.node, m.0, m.1) && forall k :: j < k < i ==> !Ends(steps[k], m)
  }

  lemma JoinStandsNext(steps: seq<Step>, i: nat, m: Member)
    requires i < |steps|
    ensures JoinStands(steps, i + 1, m) <==>
      steps[i] == DoJoin(m.1.node, m.0, m.1) || (JoinStands(steps, i, m) && !Ends(steps[i], m))
  {
    if steps[i] == DoJoin(m.1.node, m.0, m.1) {
      assert JoinStands(steps, i + 1, m);
    } else if JoinStands(steps, i, m) && !Ends(steps[i], m) {
      var j :| 0 <= j < i && steps[j] == DoJoin(m.1.node, m.0, m.1) && forall k :: j < k < i ==> !Ends(steps[k], m);
      assert forall k :: j < k < i + 1 ==> !Ends(steps[k], m);
    }
  }

  /** Only joins and leaves at its own node change what a node says of its own processes. */
  lemma OwnNext(c: Cluster, st: Step, m: Member)
    requires ClusterOk(c) && Enabled(c, st) && m.1.node in c.views
    ensures m in Exec(c, st).views[m.1.node] <==>
      st == DoJoin(m.1.node, m.0, m.1) || (m in c.views[m.1.node] && !Ends(st, m))
  {
    hide IsRoster, Broadcast, Greeting;
    if st.Handle? {
      OwnHandled(c, st, m);
    } else if st.DoJoin? || st.DoLeave? || st.DoLeaveAll? {
      hide ClusterOk, Apply;
      ApplyExact(c.views[st.n], if st.DoJoin? then Join(st.group, st.pid)
                                else if st.DoLeave? then Leave(st.group, st.pid) else LeaveAll(st.pid), m);
    }
  }

  lemma OwnHandled(c: Cluster, st: Step, m: Member)
    requires ClusterOk(c) && st.Handle? && Enabled(c, st) && m.1.node in c.views
    ensures m in Exec(c, st).views[m.1.node] <==> m in c.views[m.1.node]
  {
    hide IsRoster, Broadcast, Greeting, Apply, Speaks;
    var n, k := st.n, st.k;
    assert n != k && LinkOk(c, n, k);
    ApplyOf(c.views[k], Link(c, n, k)[0], n, m.1.node);
    if k == m.1.node {
      assert m in Of(c.views[k], k) <==> m in c.views[k];
      assert m in Of(Exec(c, st).views[k], k) <==> m in Exec(c, st).views[k];
    }
  }

  /** A node counts one of its processes to a group exactly when it joined there and has not left since. */
  lemma {:induction false} OwnByHistory(nodes: set<Node>, cs: seq<Cluster>, steps: seq<Step>, i: nat, m: Member)
    requires IsRun(nodes, cs, steps) && i < |cs| && m.1.node in nodes
    ensures m.1.node in cs[i].views && (m in cs[i].views[m.1.node] <==> JoinStands(steps, i, m))
  {
    hide ClusterOk, Enabled, Exec;
    RunOk(nodes, cs, steps, i);
    if i > 0 {
      hide JoinStands;
      RunOk(nodes, cs, steps, i - 1);
      OwnByHistory(nodes, cs, steps, i - 1, m);
      JoinStandsNext(steps, i - 1, m);
      OwnNext(cs[i - 1], steps[i - 1], m);
    }
  }

  /** What a connected node knows over a quiet link is the history of joins and leaves at the other end. */
  lemma ViewByHistory(nodes: set<Node>, cs: seq<Cluster>, steps: seq<Step>, i: nat, m: Member, k: Node)
    requires IsRun(nodes, cs, steps) && i < |cs| && m.1.node in nodes && k in nodes && k != m.1.node
    requires (m.1.node, k) in cs[i].conn && (k, m.1.node) in cs[i].conn && Link(cs[i], m.1.node, k) == []
    ensures k in cs[i].views && (m in cs[i].views[k] <==> JoinStands(steps, i, m))
  {
    hide IsRun, JoinStands, Link, ApplyAll;
    OwnByHistory(nodes, cs, steps, i, m);
    ViewsAgree(nodes, cs, steps, i, m.1.node, k);
    assert m in Of(cs[i].views[k], m.1.node) <==> m in Of(cs[i].views[m.1.node], m.1.node);
  }

  /** A process that left everything and joined nothing since is in no view: not at its own node, not at a node
      connected over a quiet link, and not at a node that is not connected. */
  lemma LeftEverywhere(nodes: set<Node>, cs: seq<Cluster>, steps: seq<Step>, j: nat, i: nat, p: Pid, g: Group, k: Node)
    requires IsRun(nodes, cs, steps) && j < i < |cs| && p.node in nodes && k in nodes
    requires steps[j] == DoLeaveAll(p.node, p)
    requires forall l, h :: j < l < i ==> steps[l] != DoJoin(p.node, h, p)
    requires k != p.node && (k, p.node) in cs[i].conn ==> (p.node, k) in cs[i].conn && Link(cs[i], p.node, k) == []
    ensures k in cs[i].views && (g, p) !in cs[i].views[k]
  {
    var m := (g, p);
    forall l | 0 <= l < i && steps[l] == DoJoin(p.node, g, p) ensures exists x :: l < x < i && Ends(steps[x], m) {
      assert l < j && Ends(steps[j], m);
    }
    assert !JoinStands(steps, i, m);
    hide IsRun, JoinStands, Link, ApplyAll, Ends;
    OwnByHistory(nodes, cs, steps, i, m);
    if k != p.node {
      ViewsAgree(nodes, cs, steps, i, p.node, k);
      assert m in Of(cs[i].views[k], p.node) <==> m in cs[i].views[k];
      if (k, p.node) in cs[i].conn { ViewByHistory(nodes, cs, steps, i, m, k); }
    }
  }
}
