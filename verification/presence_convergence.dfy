/** Convergence of presence replicas that broadcast their pending deltas.

    A cluster holds the replicas, for every replica the deltas it has broadcast so far, and for every
    replica how many deltas of each peer it has merged. Links are reliable but slow: a delta may arrive
    at any later time, and again any number of times. Two provisos are part of the step relation:
    a delta arrives only after the deltas its sender had merged or sent before it (merging raises the
    whole context, so an overtaken join would be taken for seen), and a pending delta is broadcast
    before it holds a join and a leave of the same tag (leaves run before joins). */
module PresenceConvergence {
  import opened Pids
  import opened PresenceState
  import opened PresenceInvariant
  import opened PresenceAlgebra

  /** A broadcast delta and how many deltas of each replica its sender had merged or sent before it. */
  datatype Parcel = Parcel(delta: Delta, deps: Context)
  type Logs = map<Replica, seq<Parcel>>

  datatype Cluster = Cluster(
    nodes: map<Replica, State>, logs: Logs, seen: map<Replica, Context>,
    issued: map<Replica, set<Entry>>, removed: map<Replica, set<Tag>>)

  datatype Step =
    | DoTrack(n: Replica, topic: string, pid: Pid, key: string, meta: seq<int>)
    | DoUntrack(n: Replica, topic: string, key: string, pid: Pid)
    | DoUntrackAll(n: Replica, pid: Pid)
    | Broadcast(n: Replica)
    | Deliver(m: Replica, n: Replica)
    | Redeliver(m: Replica, n: Replica, i: nat)

  function LogOf(logs: Logs, n: Replica): seq<Parcel> {
    if n in logs then logs[n] else []
  }

  /** The first `k` deltas of `n` have been merged or sent. */
  function Mark(seen: Context, n: Replica, k: nat): Context {
    seen[n := k]
  }

  predicate Clean(d: Delta) {
    forall e :: e in d.joins ==> e.tag !in d.leaveTags
  }

  ghost predicate Enabled(c: Cluster, st: Step) {
    match st
    case DoTrack(n, _, _, _, _) => n in c.nodes
    case DoUntrack(n, _, _, _) => n in c.nodes
    case DoUntrackAll(n, _) => n in c.nodes
    case Broadcast(n) => n in c.nodes && Clean(c.nodes[n].delta)
    case Deliver(m, n) =>
      && m in c.nodes && n in c.nodes && m != n && m in c.seen
      && At(c.seen[m], n) < |LogOf(c.logs, n)|
      && ContextLeq(LogOf(c.logs, n)[At(c.seen[m], n)].deps, c.seen[m])
    case Redeliver(m, n, i) =>
      m in c.nodes && n in c.nodes && m in c.seen && i < At(c.seen[m], n) <= |LogOf(c.logs, n)|
  }

  function Grow<T>(m: map<Replica, set<T>>, n: Replica, more: set<T>): map<Replica, set<T>> {
    m[n := (if n in m then m[n] else {}) + more]
  }

  ghost function Exec(c: Cluster, st: Step): Cluster
    requires Enabled(c, st)
  {
    match st
    case DoTrack(n, topic, pid, key, meta) =>
      var s := Track(c.nodes[n], topic, pid, key, meta);
      c.(nodes := c.nodes[n := s],
         issued := Grow(c.issued, n, {Entry(topic, pid, key, meta, Tag(n, s.clock))}))
    case DoUntrack(n, topic, key, pid) =>
      c.(nodes := c.nodes[n := Untrack(c.nodes[n], topic, key, pid)],
         removed := Grow(c.removed, n, TagSet(UntrackedTags(c.nodes[n], topic, key, pid))))
    case DoUntrackAll(n, pid) =>
      c.(nodes := c.nodes[n := UntrackAll(c.nodes[n], pid)],
         removed := Grow(c.removed, n, TagSet(TagsOf(UntrackedEntries(c.nodes[n], pid)))))
    case Broadcast(n) =>
      var s := c.nodes[n];
      if s.delta.IsEmpty() || n !in c.seen then c else
        var log := LogOf(c.logs, n) + [Parcel(s.delta, c.seen[n])];
        c.(nodes := c.nodes[n := TakeDelta(s)],
           logs := c.logs[n := log],
           seen := c.seen[n := Mark(c.seen[n], n, |log|)])
    case Deliver(m, n) =>
      var i := At(c.seen[m], n);
      c.(nodes := c.nodes[m := Merge(c.nodes[m], LogOf(c.logs, n)[i].delta)],
         seen := c.seen[m := Mark(c.seen[m], n, i + 1)])
    case Redeliver(m, n, i) =>
      c.(nodes := c.nodes[m := Merge(c.nodes[m], LogOf(c.logs, n)[i].delta)])
  }

  ghost function Start(replicas: set<Replica>): Cluster {
    Cluster(map r | r in replicas :: Fresh(r), map r | r in replicas :: [], map r | r in replicas :: map[],
            map r | r in replicas :: {}, map r | r in replicas :: {})
  }

  /** A run: the clusters passed through and the steps between them. */
  ghost predicate IsRun(replicas: set<Replica>, cs: seq<Cluster>, steps: seq<Step>) {
    && |cs| == |steps| + 1
    && cs[0] == Start(replicas)
    && forall i :: 0 <= i < |steps| ==> Enabled(cs[i], steps[i]) && cs[i + 1] == Exec(cs[i], steps[i])
  }

  lemma StartRun(replicas: set<Replica>)
    ensures IsRun(replicas, [Start(replicas)], [])
  {
    hide Start;
  }

  lemma ExtendRun(replicas: set<Replica>, cs: seq<Cluster>, steps: seq<Step>, st: Step)
    requires IsRun(replicas, cs, steps) && Enabled(cs[|steps|], st)
    ensures |cs| == |steps| + 1 && IsRun(replicas, cs + [Exec(cs[|steps|], st)], steps + [st])
  {
    hide Enabled, Exec;
  }

  // ---------- the invariant ----------

  /** The clock of `n` as of its first `k` deltas. */
  function Stamp(logs: Logs, n: Replica, k: nat): nat {
    if k == 0 || k > |LogOf(logs, n)| then 0 else At(LogOf(logs, n)[k - 1].delta.context, n)
  }

  ghost predicate ParcelOk(logs: Logs, n: Replica, i: nat)
    requires i < |LogOf(logs, n)|
  {
    var p := LogOf(logs, n)[i];
    && At(p.deps, n) == i
    && (forall r :: At(p.deps, r) <= |LogOf(logs, r)|)
    && WellFormed(p.delta)
    && Stamp(logs, n, i) <= Stamp(logs, n, i + 1)
    && (forall e :: e in p.delta.joins ==>
          e.tag.replica == n && Stamp(logs, n, i) < e.tag.clock <= Stamp(logs, n, i + 1))
    && (forall r :: r != n ==> At(p.delta.context, r) <= Stamp(logs, r, At(p.deps, r)))
    && (forall t :: t in p.delta.leaveTags ==> t.clock <= Stamp(logs, t.replica, At(p.deps, t.replica)))
  }

  ghost predicate LogsOk(logs: Logs) {
    forall n, i: nat :: i < |LogOf(logs, n)| ==> ParcelOk(logs, n, i)
  }

  /** Joins, and leaves, of the deltas counted by `seen`. */
  ghost function JoinedIn(logs: Logs, seen: Context): set<Entry> {
    set n, i, e | n in logs && 0 <= i < |logs[n]| && i < At(seen, n) && e in logs[n][i].delta.joins :: e
  }
  ghost function LeftIn(logs: Logs, seen: Context): set<Tag> {
    set n, i, t | n in logs && 0 <= i < |logs[n]| && i < At(seen, n) && t in logs[n][i].delta.leaveTags :: t
  }

  ghost predicate SeenOk(logs: Logs, seen: Context) {
    && (forall r :: At(seen, r) <= |LogOf(logs, r)|)
    && (forall n, i: nat :: i < At(seen, n) && i < |LogOf(logs, n)| ==> ContextLeq(LogOf(logs, n)[i].deps, seen))
  }

  /** The clock of a replica as of its last broadcast. */
  function SentClock(logs: Logs, s: State): nat {
    Stamp(logs, s.replica, |LogOf(logs, s.replica)|)
  }

  ghost predicate PendingOk(logs: Logs, s: State) {
    var sent := SentClock(logs, s);
    && sent <= s.clock
    && (if s.delta.IsEmpty() then sent == s.clock else At(s.delta.context, s.replica) == s.clock)
    && TagsIdentify(set e | e in s.delta.joins)
    && (forall e :: e in s.delta.joins ==> e.tag.replica == s.replica && sent < e.tag.clock <= s.clock)
    && ContextLeq(s.delta.context, s.context)
    && (forall t :: t in s.delta.leaveTags ==> Covers(s.context, t))
    && (forall t :: t in s.delta.leaveTags && t.replica == s.replica && sent < t.clock ==>
          exists e :: e in s.delta.joins && e.tag == t)
  }

  /** What a replica holds is determined by the deltas it has merged or sent and its pending delta. */
  ghost function Determined(logs: Logs, seen: Context, d: Delta): set<Entry> {
    set e | e in JoinedIn(logs, seen) + (set j | j in d.joins) && e.tag !in LeftIn(logs, seen) && e.tag !in d.leaveTags
  }

  ghost predicate NodeOk(logs: Logs, seen: Context, s: State) {
    && Inv(s)
    && SeenOk(logs, seen)
    && At(seen, s.replica) == |LogOf(logs, s.replica)|
    && (forall r :: r != s.replica ==> At(s.context, r) == Stamp(logs, r, At(seen, r)))
    && PendingOk(logs, s)
    && Entries(s.values) == Determined(logs, seen, s.delta)
  }

  // ---------- bounds ----------

  lemma {:induction false} StampMonotone(logs: Logs, n: Replica, i: nat, j: nat)
    requires LogsOk(logs) && i <= j <= |LogOf(logs, n)|
    ensures Stamp(logs, n, i) <= Stamp(logs, n, j)
    decreases j - i
  {
    if i < j {
      assert ParcelOk(logs, n, j - 1);
      StampMonotone(logs, n, i, j - 1);
    }
  }

  lemma JoinedBound(logs: Logs, seen: Context, e: Entry)
    requires LogsOk(logs) && SeenOk(logs, seen) && e in JoinedIn(logs, seen)
    ensures 1 <= e.tag.clock <= Stamp(logs, e.tag.replica, At(seen, e.tag.replica))
  {
    var n, i :| n in logs && 0 <= i < |logs[n]| && i < At(seen, n) && e in logs[n][i].delta.joins;
    assert LogOf(logs, n) == logs[n];
    assert ParcelOk(logs, n, i);
    StampMonotone(logs, n, i + 1, At(seen, n));
  }

  lemma LeftBound(logs: Logs, seen: Context, t: Tag)
    requires LogsOk(logs) && SeenOk(logs, seen) && t in LeftIn(logs, seen)
    ensures t.clock <= Stamp(logs, t.replica, At(seen, t.replica))
  {
    var n, i :| n in logs && 0 <= i < |logs[n]| && i < At(seen, n) && t in logs[n][i].delta.leaveTags;
    assert LogOf(logs, n) == logs[n];
    assert ParcelOk(logs, n, i);
    var p := logs[n][i];
    assert ContextLeq(p.deps, seen);
    assert At(p.deps, t.replica) <= At(seen, t.replica);
    StampMonotone(logs, t.replica, At(p.deps, t.replica), At(seen, t.replica));
  }

  lemma SeenOneMore(logs: Logs, seen: Context, n: Replica)
    requires n in logs && At(seen, n) < |logs[n]|
    ensures var d := logs[n][At(seen, n)].delta; var seen' := Mark(seen, n, At(seen, n) + 1);
      && JoinedIn(logs, seen') == JoinedIn(logs, seen) + (set e | e in d.joins)
      && LeftIn(logs, seen') == LeftIn(logs, seen) + TagSet(d.leaveTags)
  {}

  // ---------- delivery ----------

  /** The next delta of a peer is acceptable, all its joins are new, and none of its joins was ever left. */
  lemma NextDelta(logs: Logs, seen: Context, s: State, n: Replica)
    requires LogsOk(logs) && NodeOk(logs, seen, s) && n in logs && n != s.replica
    requires At(seen, n) < |logs[n]| && ContextLeq(logs[n][At(seen, n)].deps, seen)
    ensures var d := logs[n][At(seen, n)].delta;
      && Acceptable(s, d)
      && (forall e :: e in d.joins ==> !Dominated(s.context, e.tag))
      && (forall e :: e in d.joins ==>
            e.tag !in LeftIn(logs, seen) && e.tag !in d.leaveTags && e.tag !in s.delta.leaveTags)
      && (forall r :: r != n && r != s.replica ==> At(d.context, r) <= At(s.context, r))
      && At(s.context, n) <= At(d.context, n) == Stamp(logs, n, At(seen, n) + 1)
  {
    var k := At(seen, n);
    var p := logs[n][k];
    assert LogOf(logs, n) == logs[n];
    assert ParcelOk(logs, n, k);
    forall r | r != n ensures At(p.delta.context, r) <= Stamp(logs, r, At(seen, r)) {
      assert At(p.deps, r) <= At(seen, r);
      StampMonotone(logs, r, At(p.deps, r), At(seen, r));
    }
    forall e | e in p.delta.joins
      ensures !Dominated(s.context, e.tag) && e.tag !in LeftIn(logs, seen)
        && e.tag !in p.delta.leaveTags && e.tag !in s.delta.leaveTags
    {
      if e.tag in LeftIn(logs, seen) { LeftBound(logs, seen, e.tag); }
    }
  }

  lemma SeenGrows(logs: Logs, seen: Context, n: Replica)
    requires SeenOk(logs, seen) && n in logs && At(seen, n) < |logs[n]| && ContextLeq(logs[n][At(seen, n)].deps, seen)
    ensures SeenOk(logs, Mark(seen, n, At(seen, n) + 1))
  {}

  lemma DeliverEntries(logs: Logs, seen: Context, s: State, n: Replica)
    requires LogsOk(logs) && NodeOk(logs, seen, s) && n in logs && n != s.replica
    requires At(seen, n) < |logs[n]| && ContextLeq(logs[n][At(seen, n)].deps, seen)
    ensures var d := logs[n][At(seen, n)].delta;
      MergedEntries(s, d) == Determined(logs, Mark(seen, n, At(seen, n) + 1), s.delta)
  {
    hide JoinedIn, LeftIn, LogsOk, Stamp, LogOf;
    var d := logs[n][At(seen, n)].delta;
    NextDelta(logs, seen, s, n);
    SeenOneMore(logs, seen, n);
  }

  lemma DeliverNode(logs: Logs, seen: Context, s: State, n: Replica)
    requires LogsOk(logs) && NodeOk(logs, seen, s) && n in logs && n != s.replica
    requires At(seen, n) < |logs[n]| && ContextLeq(logs[n][At(seen, n)].deps, seen)
    ensures NodeOk(logs, Mark(seen, n, At(seen, n) + 1), Merge(s, logs[n][At(seen, n)].delta))
  {
    hide Inv, Merge, Entries, Determined, LogsOk, JoinContext, SeenOk, PendingOk, Stamp, LogOf, Acceptable;
    var d := logs[n][At(seen, n)].delta;
    NextDelta(logs, seen, s, n);
    MergeOutcome(s, d);
    DeliverEntries(logs, seen, s, n);
    SeenGrows(logs, seen, n);
    DeliverContext(logs, seen, s, n);
    PendingMerge(logs, s, Merge(s, d));
  }

  lemma DeliverContext(logs: Logs, seen: Context, s: State, n: Replica)
    requires LogsOk(logs) && NodeOk(logs, seen, s) && n in logs && n != s.replica
    requires At(seen, n) < |logs[n]| && ContextLeq(logs[n][At(seen, n)].deps, seen)
    ensures forall r :: r != s.replica ==>
      At(JoinContext(s.context, logs[n][At(seen, n)].delta.context), r) ==
        Stamp(logs, r, At(Mark(seen, n, At(seen, n) + 1), r))
  {
    hide Inv, Entries, Determined, LogsOk, JoinContext, PendingOk, SeenOk, Stamp, LogOf, Acceptable;
    NextDelta(logs, seen, s, n);
  }

  lemma PendingMerge(logs: Logs, s: State, s': State)
    requires PendingOk(logs, s) && s'.replica == s.replica && s'.clock == s.clock && s'.delta == s.delta
    requires ContextLeq(s.context, s'.context)
    ensures PendingOk(logs, s')
  {}

  /** Merging a delta again changes nothing at all. */
  lemma RedeliverNode(logs: Logs, seen: Context, s: State, n: Replica, i: nat)
    requires LogsOk(logs) && NodeOk(logs, seen, s) && n in logs && i < At(seen, n)
    ensures i < |logs[n]| && Merge(s, logs[n][i].delta) == s
  {
    assert LogOf(logs, n) == logs[n];
    var p := logs[n][i];
    assert ParcelOk(logs, n, i);
    assert ContextLeq(p.deps, seen);
    StampMonotone(logs, n, i + 1, At(seen, n));
    forall r ensures At(p.delta.context, r) <= At(s.context, r) {
      if r != n { StampMonotone(logs, r, At(p.deps, r), At(seen, r)); }
    }
    forall e | e in p.delta.joins ensures Dominated(s.context, e.tag) {
      assert At(p.delta.context, n) <= At(s.context, n);
    }
    forall t | t in p.delta.leaveTags ensures t in LeftIn(logs, seen) {}
    MergeNothing(s, p.delta);
  }

  // ---------- local operations ----------

  lemma {:induction false} TrackNode(logs: Logs, seen: Context, s: State, topic: string, pid: Pid, key: string,
      meta: seq<int>)
    requires LogsOk(logs) && NodeOk(logs, seen, s)
    ensures NodeOk(logs, seen, Track(s, topic, pid, key, meta))
  {
    hide Inv, Entries, JoinedIn, LeftIn, LogsOk, SeenOk, Track;
    TrackEntries(s, topic, pid, key, meta);
    TrackDetermined(logs, seen, s, topic, pid, key, meta);
    TrackPending(logs, s, topic, pid, key, meta);
    assert forall r :: r != s.replica ==> At(Track(s, topic, pid, key, meta).context, r) == At(s.context, r) by {
      TrackContext(s, topic, pid, key, meta);
    }
  }

  lemma TrackContext(s: State, topic: string, pid: Pid, key: string, meta: seq<int>)
    ensures var s' := Track(s, topic, pid, key, meta);
      s'.replica == s.replica && forall r :: r != s.replica ==> At(s'.context, r) == At(s.context, r)
  {}

  lemma TrackDetermined(logs: Logs, seen: Context, s: State, topic: string, pid: Pid, key: string, meta: seq<int>)
    requires LogsOk(logs) && NodeOk(logs, seen, s)
    ensures var s' := Track(s, topic, pid, key, meta);
      s'.replica == s.replica && Entries(s'.values) == Determined(logs, seen, s'.delta)
  {
    hide Inv, JoinedIn, LeftIn, Entries, SeenOk, LogsOk, Stamp, LogOf, Track, Determined, PendingOk;
    var e := Entry(topic, pid, key, meta, Tag(s.replica, s.clock + 1));
    TrackEntries(s, topic, pid, key, meta);
    OwnClock(s);
    TrackFields(s, topic, pid, key, meta);
    NewTagNotLeft(logs, seen, s, e.tag);
    DeterminedMore(logs, seen, s.delta, Track(s, topic, pid, key, meta).delta, e);
  }

  /** A tag not issued yet is in no leave, sent or pending. */
  lemma NewTagNotLeft(logs: Logs, seen: Context, s: State, t: Tag)
    requires LogsOk(logs) && NodeOk(logs, seen, s) && t == Tag(s.replica, s.clock + 1)
    ensures t !in LeftIn(logs, seen) && t !in s.delta.leaveTags
  {
    hide JoinedIn, LeftIn, Entries, Determined;
    if t in LeftIn(logs, seen) { LeftBound(logs, seen, t); }
    OwnClock(s);
    hide Inv;
    assert !Covers(s.context, t);
  }

  lemma DeterminedMore(logs: Logs, seen: Context, d: Delta, d': Delta, e: Entry)
    requires d'.joins == d.joins + [e] && d'.leaveTags == d.leaveTags
    requires e.tag !in LeftIn(logs, seen) && e.tag !in d.leaveTags
    ensures Determined(logs, seen, d') == Determined(logs, seen, d) + {e}
  {
    hide JoinedIn, LeftIn;
    assert (set j | j in d.joins + [e]) == (set j | j in d.joins) + {e};
  }

  lemma TrackPending(logs: Logs, s: State, topic: string, pid: Pid, key: string, meta: seq<int>)
    requires PendingOk(logs, s) && Inv(s)
    ensures PendingOk(logs, Track(s, topic, pid, key, meta))
  {
    hide Inv, Stamp, LogOf, TagsIdentify, Covers, ContextLeq;
    OwnClock(s);
    var e := Entry(topic, pid, key, meta, Tag(s.replica, s.clock + 1));
    var s' := Track(s, topic, pid, key, meta);
    TrackFields(s, topic, pid, key, meta);
    hide Track;
    TrackTags(s, e);
    TrackLeaves(logs, s, s', e);
  }

  lemma TrackFields(s: State, topic: string, pid: Pid, key: string, meta: seq<int>)
    requires At(s.context, s.replica) == s.clock
    ensures var s' := Track(s, topic, pid, key, meta);
      && s'.replica == s.replica && s'.clock == s.clock + 1 && s'.delta.context == s'.context
      && s'.delta.joins == s.delta.joins + [Entry(topic, pid, key, meta, Tag(s.replica, s.clock + 1))]
      && s'.delta.leaveTags == s.delta.leaveTags && At(s'.context, s.replica) == s.clock + 1
      && ContextLeq(s.context, s'.context) && ContextLeq(s'.context, s'.context)
  {}

  lemma TrackTags(s: State, e: Entry)
    requires TagsIdentify(set j | j in s.delta.joins)
    requires forall j :: j in s.delta.joins ==> j.tag.clock < e.tag.clock
    ensures TagsIdentify(set j | j in s.delta.joins + [e])
  {}

  lemma TrackLeaves(logs: Logs, s: State, s': State, e: Entry)
    requires PendingOk(logs, s) && ContextLeq(s.context, s'.context)
    requires s'.replica == s.replica && s'.delta.joins == s.delta.joins + [e] && s'.delta.leaveTags == s.delta.leaveTags
    ensures forall t :: t in s'.delta.leaveTags ==> Covers(s'.context, t)
    ensures forall t :: t in s'.delta.leaveTags && t.replica == s.replica && SentClock(logs, s) < t.clock ==>
      exists f :: f in s'.delta.joins && f.tag == t
  {
    hide Stamp, LogOf, TagsIdentify;
    forall t | t in s'.delta.leaveTags ensures Covers(s'.context, t) {
      assert Covers(s.context, t);
    }
    forall t | t in s'.delta.leaveTags && t.replica == s.replica && SentClock(logs, s) < t.clock
      ensures exists f :: f in s'.delta.joins && f.tag == t
    {
      var f :| f in s.delta.joins && f.tag == t;
      assert f in s'.delta.joins;
    }
  }

  /** A local removal: some held entries go, and exactly their tags become pending leaves. */
  ghost predicate Removal(s: State, s': State, gone: set<Entry>, tags: seq<Tag>) {
    && gone <= Entries(s.values)
    && Inv(s') && Entries(s'.values) == Entries(s.values) - gone
    && s'.replica == s.replica && s'.clock == s.clock && s'.context == s.context
    && (forall t :: t in tags <==> exists e :: e in gone && e.tag == t)
    && s'.delta == Delta(s.delta.joins, s.delta.leaveTags + tags, if tags != [] then s.context else s.delta.context)
  }

  lemma RemovalEntries(logs: Logs, seen: Context, s: State, s': State, gone: set<Entry>, tags: seq<Tag>)
    requires NodeOk(logs, seen, s) && Removal(s, s', gone, tags)
    ensures Entries(s'.values) == Determined(logs, seen, s'.delta)
  {}

  lemma RemovalNode(logs: Logs, seen: Context, s: State, s': State, gone: set<Entry>, tags: seq<Tag>)
    requires LogsOk(logs) && NodeOk(logs, seen, s) && Removal(s, s', gone, tags)
    ensures NodeOk(logs, seen, s')
  {
    RemovalEntries(logs, seen, s, s', gone, tags);
    RemovalPending(logs, seen, s, s', gone, tags);
    hide Inv, PendingOk, Determined, Entries, SeenOk;
  }

  lemma RemovalPending(logs: Logs, seen: Context, s: State, s': State, gone: set<Entry>, tags: seq<Tag>)
    requires LogsOk(logs) && NodeOk(logs, seen, s) && Removal(s, s', gone, tags)
    ensures PendingOk(logs, s')
  {
    hide JoinedIn, LeftIn, Inv, SeenOk, TagsIdentify;
    RemovedTags(logs, seen, s, gone, tags);
    OwnClock(s);
    if tags != [] {
      assert tags[0] in tags;
    }
  }

  /** The tags of held entries are covered, and those not yet sent are pending. */
  lemma RemovedTags(logs: Logs, seen: Context, s: State, gone: set<Entry>, tags: seq<Tag>)
    requires LogsOk(logs) && NodeOk(logs, seen, s) && gone <= Entries(s.values)
    requires forall t :: t in tags <==> exists e :: e in gone && e.tag == t
    ensures forall t :: t in tags ==> Covers(s.context, t)
    ensures forall t :: t in tags && t.replica == s.replica && SentClock(logs, s) < t.clock ==>
      exists e :: e in s.delta.joins && e.tag == t
  {
    hide JoinedIn, LeftIn, Inv;
    HeldCovered(s);
    forall t | t in tags ensures Covers(s.context, t) &&
      (t.replica == s.replica && SentClock(logs, s) < t.clock ==> exists e :: e in s.delta.joins && e.tag == t)
    {
      var e :| e in gone && e.tag == t;
      if e in JoinedIn(logs, seen) { JoinedBound(logs, seen, e); }
    }
  }

  lemma HeldCovered(s: State)
    requires Inv(s)
    ensures forall e :: e in Entries(s.values) ==> Covers(s.context, e.tag)
  {}

  lemma OwnClock(s: State)
    requires Inv(s)
    ensures At(s.context, s.replica) == s.clock
  {}

  lemma UntrackNode(logs: Logs, seen: Context, s: State, topic: string, key: string, pid: Pid)
    requires LogsOk(logs) && NodeOk(logs, seen, s)
    ensures NodeOk(logs, seen, Untrack(s, topic, key, pid))
  {
    var gone := set e | e in Entries(s.values) && e.pid == pid && e.Slot() == (topic, key);
    UntrackEntries(s, topic, key, pid);
    UntrackInv(s, topic, key, pid);
    assert Removal(s, Untrack(s, topic, key, pid), gone, UntrackedTags(s, topic, key, pid));
    RemovalNode(logs, seen, s, Untrack(s, topic, key, pid), gone, UntrackedTags(s, topic, key, pid));
  }

  lemma UntrackAllNode(logs: Logs, seen: Context, s: State, pid: Pid)
    requires LogsOk(logs) && NodeOk(logs, seen, s)
    ensures NodeOk(logs, seen, UntrackAll(s, pid))
  {
    var gone := set e | e in Entries(s.values) && e.pid == pid;
    UntrackAllEntries(s, pid);
    UntrackAllInv(s, pid);
    var tags := TagsOf(UntrackedEntries(s, pid));
    assert Removal(s, UntrackAll(s, pid), gone, tags);
    RemovalNode(logs, seen, s, UntrackAll(s, pid), gone, tags);
  }

  // ---------- broadcasting ----------

  ghost function Append(logs: Logs, n: Replica, p: Parcel): Logs {
    logs[n := LogOf(logs, n) + [p]]
  }

  lemma AppendStamps(logs: Logs, n: Replica, p: Parcel)
    ensures var logs' := Append(logs, n, p);
      && (forall r :: |LogOf(logs, r)| <= |LogOf(logs', r)|)
      && (forall r, k: nat :: k <= |LogOf(logs, r)| ==> Stamp(logs', r, k) == Stamp(logs, r, k))
      && (forall r, i: nat :: i < |LogOf(logs, r)| ==> LogOf(logs', r)[i] == LogOf(logs, r)[i])
      && Stamp(logs', n, |LogOf(logs, n)| + 1) == At(p.delta.context, n)
  {}

  lemma AppendLogsOk(logs: Logs, seen: Context, s: State)
    requires LogsOk(logs) && NodeOk(logs, seen, s) && !s.delta.IsEmpty() && Clean(s.delta)
    ensures LogsOk(Append(logs, s.replica, Parcel(s.delta, seen)))
  {
    hide NodeOk;
    var n := s.replica;
    var logs' := Append(logs, n, Parcel(s.delta, seen));
    NewParcelOk(logs, seen, s);
    forall r, i: nat | i < |LogOf(logs', r)| ensures ParcelOk(logs', r, i) {
      if i < |LogOf(logs, r)| {
        OldParcelOk(logs, n, Parcel(s.delta, seen), r, i);
      } else {
        assert r == n && i == |LogOf(logs, n)|;
      }
    }
  }

  lemma OldParcelOk(logs: Logs, n: Replica, p: Parcel, r: Replica, i: nat)
    requires LogsOk(logs) && i < |LogOf(logs, r)|
    ensures i < |LogOf(Append(logs, n, p), r)| && ParcelOk(Append(logs, n, p), r, i)
  {
    AppendStamps(logs, n, p);
    assert ParcelOk(logs, r, i);
    hide LogsOk, Append, Stamp, WellFormed;
  }

  lemma NewParcelOk(logs: Logs, seen: Context, s: State)
    requires LogsOk(logs) && NodeOk(logs, seen, s) && !s.delta.IsEmpty() && Clean(s.delta)
    ensures ParcelOk(Append(logs, s.replica, Parcel(s.delta, seen)), s.replica, |LogOf(logs, s.replica)|)
  {
    hide Inv, LogsOk, JoinedIn, LeftIn, Determined, Entries, TagsIdentify;
    AppendStamps(logs, s.replica, Parcel(s.delta, seen));
    LeavesSeen(logs, seen, s);
  }

  lemma LeavesSeen(logs: Logs, seen: Context, s: State)
    requires NodeOk(logs, seen, s) && Clean(s.delta) && !s.delta.IsEmpty()
    ensures forall t :: t in s.delta.leaveTags ==> t.clock <= Stamp(logs, t.replica, At(seen, t.replica))
  {
    hide Inv, JoinedIn, LeftIn, Determined, Entries, TagsIdentify, SeenOk;
    forall t | t in s.delta.leaveTags ensures t.clock <= Stamp(logs, t.replica, At(seen, t.replica)) {
      assert Covers(s.context, t);
    }
  }

  lemma AppendSeen(logs: Logs, n: Replica, p: Parcel, seen: Context)
    requires SeenOk(logs, seen)
    ensures SeenOk(Append(logs, n, p), seen)
    ensures JoinedIn(Append(logs, n, p), seen) == JoinedIn(logs, seen)
    ensures LeftIn(Append(logs, n, p), seen) == LeftIn(logs, seen)
  {
    var logs' := Append(logs, n, p);
    AppendStamps(logs, n, p);
    forall e ensures e in JoinedIn(logs', seen) <==> e in JoinedIn(logs, seen) {
      if e in JoinedIn(logs, seen) {
        var r, i :| r in logs && 0 <= i < |logs[r]| && i < At(seen, r) && e in logs[r][i].delta.joins;
        assert logs'[r][i] == logs[r][i];
      }
      if e in JoinedIn(logs', seen) {
        var r, i :| r in logs' && 0 <= i < |logs'[r]| && i < At(seen, r) && e in logs'[r][i].delta.joins;
        assert i < |LogOf(logs, r)| && logs'[r][i] == logs[r][i];
      }
    }
    forall t ensures t in LeftIn(logs', seen) <==> t in LeftIn(logs, seen) {
      if t in LeftIn(logs, seen) {
        var r, i :| r in logs && 0 <= i < |logs[r]| && i < At(seen, r) && t in logs[r][i].delta.leaveTags;
        assert logs'[r][i] == logs[r][i];
      }
      if t in LeftIn(logs', seen) {
        var r, i :| r in logs' && 0 <= i < |logs'[r]| && i < At(seen, r) && t in logs'[r][i].delta.leaveTags;
        assert i < |LogOf(logs, r)| && logs'[r][i] == logs[r][i];
      }
    }
  }

  /** Someone else's broadcast does not touch what a replica has merged. */
  lemma AppendOther(logs: Logs, n: Replica, p: Parcel, seen: Context, s: State)
    requires NodeOk(logs, seen, s) && n != s.replica
    ensures NodeOk(Append(logs, n, p), seen, s)
  {
    hide Inv, Entries, JoinedIn, LeftIn, SeenOk;
    AppendStamps(logs, n, p);
    AppendSeen(logs, n, p, seen);
    assert SeenOk(logs, seen) ==> forall r :: At(seen, r) <= |LogOf(logs, r)| by { SeenBounds(logs, seen); }
  }

  lemma SeenBounds(logs: Logs, seen: Context)
    ensures SeenOk(logs, seen) ==> forall r :: At(seen, r) <= |LogOf(logs, r)|
  {}

  lemma BroadcastNode(logs: Logs, seen: Context, s: State)
    requires LogsOk(logs) && NodeOk(logs, seen, s) && !s.delta.IsEmpty() && Clean(s.delta)
    ensures var p := Parcel(s.delta, seen);
      NodeOk(Append(logs, s.replica, p), Mark(seen, s.replica, |LogOf(logs, s.replica)| + 1), TakeDelta(s))
  {
    hide Inv, Entries, JoinedIn, LeftIn, LogsOk, SeenOk, Determined;
    var n, p := s.replica, Parcel(s.delta, seen);
    var logs' := Append(logs, n, p);
    AppendStamps(logs, n, p);
    AppendSeen(logs, n, p, seen);
    assert logs'[n][At(seen, n)] == p;
    SeenBounds(logs, seen);
    TakeDeltaInv(s);
    SeenGrows(logs', seen, n);
    BroadcastDetermined(logs, seen, s);
  }

  /** What was pending is now what the replica has sent. */
  lemma BroadcastDetermined(logs: Logs, seen: Context, s: State)
    requires SeenOk(logs, seen) && At(seen, s.replica) == |LogOf(logs, s.replica)| && Clean(s.delta)
    requires s.delta.leaveTags != [] || s.delta.joins != []
    ensures var n := s.replica;
      Determined(Append(logs, n, Parcel(s.delta, seen)), Mark(seen, n, |LogOf(logs, n)| + 1), NO_DELTA)
        == Determined(logs, seen, s.delta)
  {
    hide JoinedIn, LeftIn, SeenOk;
    var n, p := s.replica, Parcel(s.delta, seen);
    var logs' := Append(logs, n, p);
    AppendSeen(logs, n, p, seen);
    assert logs'[n][At(seen, n)] == p;
    SeenOneMore(logs', seen, n);
  }

  lemma TakeDeltaInv(s: State)
    requires Inv(s)
    ensures Inv(TakeDelta(s))
  {}

  // ---------- clusters ----------

  ghost function AllJoins(log: seq<Parcel>): set<Entry> {
    set i, e | 0 <= i < |log| && e in log[i].delta.joins :: e
  }
  ghost function AllLeaves(log: seq<Parcel>): set<Tag> {
    set i, t | 0 <= i < |log| && t in log[i].delta.leaveTags :: t
  }

  /** What a replica ever tracked or removed is in the deltas it broadcast or in its pending delta. */
  ghost predicate HistoryOk(log: seq<Parcel>, d: Delta, issued: set<Entry>, removed: set<Tag>) {
    && issued == AllJoins(log) + (set e | e in d.joins)
    && removed == AllLeaves(log) + TagSet(d.leaveTags)
  }

  ghost predicate MemberOk(c: Cluster, m: Replica)
    requires m in c.nodes && m in c.seen && m in c.issued && m in c.removed
  {
    && c.nodes[m].replica == m
    && NodeOk(c.logs, c.seen[m], c.nodes[m])
    && HistoryOk(LogOf(c.logs, m), c.nodes[m].delta, c.issued[m], c.removed[m])
  }

  ghost predicate ClusterOk(c: Cluster) {
    && c.nodes.Keys == c.logs.Keys == c.seen.Keys == c.issued.Keys == c.removed.Keys
    && LogsOk(c.logs)
    && forall m :: m in c.nodes ==> MemberOk(c, m)
  }

  lemma StartOk(replicas: set<Replica>)
    ensures ClusterOk(Start(replicas))
  {
    hide NodeOk, LogsOk, HistoryOk;
    var c := Start(replicas);
    EmptyLogs(c.logs);
    forall m | m in c.nodes ensures MemberOk(c, m) {
      FreshNode(c.logs, m);
    }
  }

  lemma EmptyLogs(logs: Logs)
    requires forall r :: LogOf(logs, r) == []
    ensures LogsOk(logs)
  {}

  lemma FreshNode(logs: Logs, m: Replica)
    requires forall r :: LogOf(logs, r) == []
    ensures NodeOk(logs, map[], Fresh(m)) && HistoryOk([], NO_DELTA, {}, {})
  {}

  /** A step that changes one replica and nothing it has merged or sent. */
  lemma LocalStep(c: Cluster, n: Replica, s: State, issued: set<Entry>, removed: set<Tag>, c': Cluster)
    requires ClusterOk(c) && n in c.nodes && s.replica == n && NodeOk(c.logs, c.seen[n], s)
    requires HistoryOk(LogOf(c.logs, n), s.delta, issued, removed)
    requires c' == c.(nodes := c.nodes[n := s], issued := c.issued[n := issued], removed := c.removed[n := removed])
    ensures ClusterOk(c')
  {
    hide NodeOk, LogsOk, HistoryOk, LogOf;
    forall m | m in c'.nodes ensures MemberOk(c', m) {
      if m != n { assert MemberOk(c, m); }
    }
  }

  lemma TrackStep(c: Cluster, st: Step)
    requires ClusterOk(c) && st.DoTrack? && Enabled(c, st)
    ensures ClusterOk(Exec(c, st))
  {
    hide NodeOk, LogsOk, HistoryOk, Track;
    var n, s := st.n, c.nodes[st.n];
    assert MemberOk(c, n);
    TrackNode(c.logs, c.seen[n], s, st.topic, st.pid, st.key, st.meta);
    var s' := Track(s, st.topic, st.pid, st.key, st.meta);
    var e := Entry(st.topic, st.pid, st.key, st.meta, Tag(n, s'.clock));
    TrackHistory(LogOf(c.logs, n), s, st.topic, st.pid, st.key, st.meta, c.issued[n], c.removed[n]);
    LocalStep(c, n, s', c.issued[n] + {e}, c.removed[n], Exec(c, st));
  }

  lemma TrackHistory(log: seq<Parcel>, s: State, topic: string, pid: Pid, key: string, meta: seq<int>,
                     issued: set<Entry>, removed: set<Tag>)
    requires HistoryOk(log, s.delta, issued, removed)
    ensures var s' := Track(s, topic, pid, key, meta);
      s'.replica == s.replica &&
      HistoryOk(log, s'.delta, issued + {Entry(topic, pid, key, meta, Tag(s.replica, s'.clock))}, removed)
  {}

  lemma LeaveHistory(log: seq<Parcel>, d: Delta, d': Delta, tags: seq<Tag>, issued: set<Entry>, removed: set<Tag>)
    requires HistoryOk(log, d, issued, removed)
    requires d'.joins == d.joins && d'.leaveTags == d.leaveTags + tags
    ensures HistoryOk(log, d', issued, removed + TagSet(tags))
  {}

  lemma UntrackStep(c: Cluster, st: Step)
    requires ClusterOk(c) && st.DoUntrack? && Enabled(c, st)
    ensures ClusterOk(Exec(c, st))
  {
    hide NodeOk, LogsOk, HistoryOk, UntrackedTags;
    var n, s := st.n, c.nodes[st.n];
    assert MemberOk(c, n);
    UntrackNode(c.logs, c.seen[n], s, st.topic, st.key, st.pid);
    var s', tags := Untrack(s, st.topic, st.key, st.pid), UntrackedTags(s, st.topic, st.key, st.pid);
    LeaveHistory(LogOf(c.logs, n), s.delta, s'.delta, tags, c.issued[n], c.removed[n]);
    LocalStep(c, n, s', c.issued[n], c.removed[n] + TagSet(tags), Exec(c, st));
  }

  lemma UntrackAllStep(c: Cluster, st: Step)
    requires ClusterOk(c) && st.DoUntrackAll? && Enabled(c, st)
    ensures ClusterOk(Exec(c, st))
  {
    hide NodeOk, LogsOk, HistoryOk, SweepSlots, TagsOf, UntrackedEntries;
    var n, s := st.n, c.nodes[st.n];
    assert MemberOk(c, n);
    UntrackAllNode(c.logs, c.seen[n], s, st.pid);
    var s', tags := UntrackAll(s, st.pid), TagsOf(UntrackedEntries(s, st.pid));
    assert s'.delta.leaveTags == s.delta.leaveTags + tags by { UntrackAllDelta(s, st.pid); }
    LeaveHistory(LogOf(c.logs, n), s.delta, s'.delta, tags, c.issued[n], c.removed[n]);
    LocalStep(c, n, s', c.issued[n], c.removed[n] + TagSet(tags), Exec(c, st));
  }

  lemma UntrackAllDelta(s: State, pid: Pid)
    ensures var s' := UntrackAll(s, pid);
      && s'.replica == s.replica && s'.delta.joins == s.delta.joins
      && s'.delta.leaveTags == s.delta.leaveTags + TagsOf(UntrackedEntries(s, pid))
  {}

  lemma HistoryAppend(log: seq<Parcel>, d: Delta, seen: Context, issued: set<Entry>, removed: set<Tag>)
    requires HistoryOk(log, d, issued, removed)
    ensures HistoryOk(log + [Parcel(d, seen)], NO_DELTA, issued, removed)
  {
    var log' := log + [Parcel(d, seen)];
    assert log'[|log|].delta == d;
    forall e ensures e in AllJoins(log') <==> e in AllJoins(log) || e in d.joins {
      if e in AllJoins(log) {
        var i :| 0 <= i < |log| && e in log[i].delta.joins;
        assert log'[i] == log[i];
      }
    }
    forall t ensures t in AllLeaves(log') <==> t in AllLeaves(log) || t in d.leaveTags {
      if t in AllLeaves(log) {
        var i :| 0 <= i < |log| && t in log[i].delta.leaveTags;
        assert log'[i] == log[i];
      }
    }
  }

  lemma BroadcastStep(c: Cluster, st: Step)
    requires ClusterOk(c) && st.Broadcast? && Enabled(c, st)
    ensures ClusterOk(Exec(c, st))
  {
    hide MemberOk, LogsOk, Clean;
    var n := st.n;
    if c.nodes[n].delta.IsEmpty() {
      assert Exec(c, st) == c;
    } else {
      SentLogs(c, n);
      var c' := Exec(c, st);
      forall m | m in c'.nodes ensures MemberOk(c', m) {
        BroadcastMember(c, n, m);
      }
    }
  }

  lemma SentLogs(c: Cluster, n: Replica)
    requires ClusterOk(c) && Enabled(c, Broadcast(n)) && !c.nodes[n].delta.IsEmpty()
    ensures Exec(c, Broadcast(n)).logs == Append(c.logs, n, Parcel(c.nodes[n].delta, c.seen[n]))
    ensures LogsOk(Exec(c, Broadcast(n)).logs)
  {
    hide NodeOk, LogsOk, HistoryOk, Clean;
    assert MemberOk(c, n);
    AppendLogsOk(c.logs, c.seen[n], c.nodes[n]);
  }

  lemma BroadcastMember(c: Cluster, n: Replica, m: Replica)
    requires ClusterOk(c) && Enabled(c, Broadcast(n)) && !c.nodes[n].delta.IsEmpty() && m in c.nodes
    ensures MemberOk(Exec(c, Broadcast(n)), m)
  {
    hide NodeOk, LogsOk, HistoryOk, Clean;
    var s, p := c.nodes[n], Parcel(c.nodes[n].delta, c.seen[n]);
    assert MemberOk(c, n) && MemberOk(c, m);
    assert Exec(c, Broadcast(n)).logs == Append(c.logs, n, p);
    if m == n {
      BroadcastNode(c.logs, c.seen[n], s);
      HistoryAppend(LogOf(c.logs, n), s.delta, c.seen[n], c.issued[n], c.removed[n]);
    } else {
      AppendOther(c.logs, n, p, c.seen[m], c.nodes[m]);
    }
  }

  lemma DeliverStep(c: Cluster, st: Step)
    requires ClusterOk(c) && (st.Deliver? || st.Redeliver?) && Enabled(c, st)
    ensures ClusterOk(Exec(c, st))
  {
    hide NodeOk, LogsOk, HistoryOk, Merge;
    var m, n := st.m, st.n;
    assert MemberOk(c, m);
    assert LogOf(c.logs, n) == c.logs[n];
    if st.Deliver? {
      FirstDelivery(c, m, n);
    } else {
      RedeliverNode(c.logs, c.seen[m], c.nodes[m], n, st.i);
      assert Exec(c, st).nodes == c.nodes;
    }
  }

  lemma FirstDelivery(c: Cluster, m: Replica, n: Replica)
    requires ClusterOk(c) && Enabled(c, Deliver(m, n))
    ensures ClusterOk(Exec(c, Deliver(m, n)))
  {
    hide NodeOk, LogsOk, HistoryOk, Merge, ContextLeq, Mark;
    DelivererOk(c, m, n);
    var c' := Exec(c, Deliver(m, n));
    forall k | k in c'.nodes ensures MemberOk(c', k) {
      assert MemberOk(c, k);
    }
  }

  lemma DelivererOk(c: Cluster, m: Replica, n: Replica)
    requires ClusterOk(c) && Enabled(c, Deliver(m, n))
    ensures var c' := Exec(c, Deliver(m, n));
      && c'.nodes[m].replica == m && c'.nodes[m].delta == c.nodes[m].delta
      && NodeOk(c.logs, c'.seen[m], c'.nodes[m])
  {
    hide NodeOk, LogsOk, HistoryOk, Merge;
    var s := c.nodes[m];
    assert MemberOk(c, m);
    DeliverNode(c.logs, c.seen[m], s, n);
    MergeKeeps(s, LogOf(c.logs, n)[At(c.seen[m], n)].delta);
  }

  lemma MergeKeeps(s: State, d: Delta)
    ensures Merge(s, d).replica == s.replica && Merge(s, d).delta == s.delta
  {}

  lemma StepOk(c: Cluster, st: Step)
    requires ClusterOk(c) && Enabled(c, st)
    ensures ClusterOk(Exec(c, st))
  {
    hide ClusterOk, Enabled, Exec;
    match st
    case DoTrack(_, _, _, _, _) => TrackStep(c, st);
    case DoUntrack(_, _, _, _) => UntrackStep(c, st);
    case DoUntrackAll(_, _) => UntrackAllStep(c, st);
    case Broadcast(_) => BroadcastStep(c, st);
    case Deliver(_, _) => DeliverStep(c, st);
    case Redeliver(_, _, _) => DeliverStep(c, st);
  }

  /** Every cluster of every run satisfies the invariant. */
  lemma {:induction false} RunOk(replicas: set<Replica>, cs: seq<Cluster>, steps: seq<Step>, k: nat)
    requires IsRun(replicas, cs, steps) && k < |cs|
    ensures ClusterOk(cs[k])
  {
    hide ClusterOk, Enabled, Exec;
    if k == 0 {
      StartOk(replicas);
    } else {
      RunOk(replicas, cs, steps, k - 1);
      StepOk(cs[k - 1], steps[k - 1]);
    }
  }

  // ---------- convergence ----------

  ghost function Issued(c: Cluster): set<Entry> {
    set n, e | n in c.issued && e in c.issued[n] :: e
  }
  ghost function Removed(c: Cluster): set<Tag> {
    set n, t | n in c.removed && t in c.removed[n] :: t
  }

  /** Nothing is pending and every replica has merged every delta. */
  ghost predicate Settled(c: Cluster) {
    && (forall n :: n in c.nodes ==> c.nodes[n].delta.IsEmpty())
    && forall m, n :: m in c.seen && n in c.nodes ==> At(c.seen[m], n) == |LogOf(c.logs, n)|
  }

  lemma SettledHistory(c: Cluster, m: Replica)
    requires ClusterOk(c) && Settled(c) && m in c.nodes
    ensures JoinedIn(c.logs, c.seen[m]) == Issued(c) && LeftIn(c.logs, c.seen[m]) == Removed(c)
  {
    hide MemberOk, LogsOk, AllJoins, AllLeaves, JoinedIn, LeftIn, Issued, Removed;
    forall n | n in c.nodes ensures c.issued[n] == AllJoins(c.logs[n]) && c.removed[n] == AllLeaves(c.logs[n]) {
      MemberHistory(c, n);
    }
    JoinedEverything(c, m);
  }

  lemma MemberHistory(c: Cluster, n: Replica)
    requires ClusterOk(c) && n in c.nodes && c.nodes[n].delta.IsEmpty()
    ensures c.issued[n] == AllJoins(c.logs[n]) && c.removed[n] == AllLeaves(c.logs[n])
  {
    hide LogsOk, NodeOk, AllJoins, AllLeaves;
    assert MemberOk(c, n);
  }

  lemma JoinedEverything(c: Cluster, m: Replica)
    requires m in c.seen && c.issued.Keys == c.removed.Keys == c.logs.Keys
    requires forall n :: n in c.logs ==> c.issued[n] == AllJoins(c.logs[n]) && c.removed[n] == AllLeaves(c.logs[n])
    requires forall n :: n in c.logs ==> At(c.seen[m], n) == |c.logs[n]|
    ensures JoinedIn(c.logs, c.seen[m]) == Issued(c) && LeftIn(c.logs, c.seen[m]) == Removed(c)
  {
    forall e ensures e in JoinedIn(c.logs, c.seen[m]) <==> e in Issued(c) {
      if e in Issued(c) {
        var n :| n in c.issued && e in c.issued[n];
        var i :| 0 <= i < |c.logs[n]| && e in c.logs[n][i].delta.joins;
      }
      if e in JoinedIn(c.logs, c.seen[m]) {
        var n, i :| n in c.logs && 0 <= i < |c.logs[n]| && i < At(c.seen[m], n) && e in c.logs[n][i].delta.joins;
        assert e in c.issued[n];
      }
    }
    forall t ensures t in LeftIn(c.logs, c.seen[m]) <==> t in Removed(c) {
      if t in Removed(c) {
        var n :| n in c.removed && t in c.removed[n];
        var i :| 0 <= i < |c.logs[n]| && t in c.logs[n][i].delta.leaveTags;
      }
      if t in LeftIn(c.logs, c.seen[m]) {
        var n, i :| n in c.logs && 0 <= i < |c.logs[n]| && i < At(c.seen[m], n) && t in c.logs[n][i].delta.leaveTags;
        assert t in c.removed[n];
      }
    }
  }

  /** Convergence: in every run, once every delta has been broadcast and merged everywhere, every replica
      holds exactly the entries ever tracked whose tags were never removed, and knows every clock. */
  lemma Converges(replicas: set<Replica>, cs: seq<Cluster>, steps: seq<Step>, k: nat, m: Replica)
    requires IsRun(replicas, cs, steps) && k < |cs| && Settled(cs[k]) && m in cs[k].nodes
    ensures Entries(cs[k].nodes[m].values) == set e | e in Issued(cs[k]) && e.tag !in Removed(cs[k])
    ensures forall n :: n in cs[k].nodes ==> At(cs[k].nodes[m].context, n) == cs[k].nodes[n].clock
  {
    var c := cs[k];
    RunOk(replicas, cs, steps, k);
    hide IsRun, ClusterOk, Entries, Issued, Removed, Settled;
    SettledEntries(c, m);
    forall n | n in c.nodes ensures At(c.nodes[m].context, n) == c.nodes[n].clock {
      SettledContext(c, m, n);
    }
  }

  lemma SettledEntries(c: Cluster, m: Replica)
    requires ClusterOk(c) && Settled(c) && m in c.nodes
    ensures Entries(c.nodes[m].values) == set e | e in Issued(c) && e.tag !in Removed(c)
  {
    hide LogsOk, Inv, Entries, JoinedIn, LeftIn, SeenOk, Issued, Removed, PendingOk, HistoryOk;
    SettledHistory(c, m);
    assert MemberOk(c, m);
    assert c.nodes[m].delta.IsEmpty();
  }

  lemma SettledContext(c: Cluster, m: Replica, n: Replica)
    requires ClusterOk(c) && Settled(c) && m in c.nodes && n in c.nodes
    ensures At(c.nodes[m].context, n) == c.nodes[n].clock
  {
    hide LogsOk, Inv, Entries, JoinedIn, LeftIn, SeenOk, HistoryOk;
    assert MemberOk(c, m) && MemberOk(c, n);
    assert c.nodes[m].delta.IsEmpty() && c.nodes[n].delta.IsEmpty();
    OwnClock(c.nodes[m]);
    assert At(c.seen[m], n) == |LogOf(c.logs, n)|;
  }

  /** At any moment, two replicas with nothing pending that have merged the same deltas hold the same entries. */
  lemma SameDeltasSameEntries(c: Cluster, m: Replica, n: Replica)
    requires ClusterOk(c) && m in c.nodes && n in c.nodes
    requires c.nodes[m].delta.IsEmpty() && c.nodes[n].delta.IsEmpty()
    requires forall r :: At(c.seen[m], r) == At(c.seen[n], r)
    ensures Entries(c.nodes[m].values) == Entries(c.nodes[n].values)
  {
    hide LogsOk, Inv, Entries, SeenOk, PendingOk, JoinedIn, LeftIn, LogOf, Stamp, HistoryOk, At;
    assert MemberOk(c, m) && MemberOk(c, n);
    SameJoined(c.logs, c.seen[m], c.seen[n]);
  }

  lemma SameJoined(logs: Logs, a: Context, b: Context)
    requires forall r :: At(a, r) == At(b, r)
    ensures JoinedIn(logs, a) == JoinedIn(logs, b) && LeftIn(logs, a) == LeftIn(logs, b)
  {}

  // ---------- why the provisos are needed ----------

  /** A peer that has merged everything, when handed a pending delta, ends with the sender's entries exactly
      when the delta holds no join and leave of the same tag. */
  lemma BroadcastFaithfulIff(logs: Logs, seen: Context, s: State, peer: State)
    requires LogsOk(logs) && NodeOk(logs, seen, s) && NodeOk(logs, seen, peer)
    requires peer.replica != s.replica && peer.delta.IsEmpty()
    ensures Entries(Merge(peer, s.delta).values) == Entries(s.values) <==> Clean(s.delta)
  {
    PendingAcceptable(logs, seen, s, seen, peer);
    PendingUnseen(logs, seen, s, seen, peer);
    PendingNotLeft(logs, seen, s);
    DeterminedBy(logs, seen, s);
    DeterminedBy(logs, seen, peer);
    hide NodeOk, Merge, Entries, JoinedIn, LeftIn, LogsOk, Acceptable, Dominated, Inv;
    MergeOutcome(peer, s.delta);
    var mine, theirs := Determined(logs, seen, s.delta), MergedEntries(peer, s.delta);
    if !Clean(s.delta) {
      var e :| e in s.delta.joins && e.tag in s.delta.leaveTags;
      assert e in theirs && e !in mine;
    }
  }

  lemma DeterminedBy(logs: Logs, seen: Context, s: State)
    requires NodeOk(logs, seen, s)
    ensures Inv(s) && Entries(s.values) == Determined(logs, seen, s.delta)
  {}

  lemma PendingNotLeft(logs: Logs, seen: Context, s: State)
    requires LogsOk(logs) && NodeOk(logs, seen, s)
    ensures forall e :: e in s.delta.joins ==> e.tag !in LeftIn(logs, seen)
  {
    hide Inv, Entries, JoinedIn, LeftIn, Determined;
    forall e | e in s.delta.joins ensures e.tag !in LeftIn(logs, seen) {
      if e.tag in LeftIn(logs, seen) { LeftBound(logs, seen, e.tag); }
    }
  }

  lemma PendingAcceptable(logs: Logs, seen: Context, s: State, peerSeen: Context, peer: State)
    requires LogsOk(logs) && NodeOk(logs, seen, s) && NodeOk(logs, peerSeen, peer) && peer.replica != s.replica
    ensures Acceptable(peer, s.delta)
  {
    hide Inv, Entries, JoinedIn, LeftIn, Determined;
    StampMonotone(logs, peer.replica, At(seen, peer.replica), |LogOf(logs, peer.replica)|);
  }

  /** Whatever a peer has merged: after it merges a pending delta it holds no entry that the delta tells to leave
      exactly when the delta holds no join and leave of the same tag. */
  lemma NoLeaverStaysIff(logs: Logs, seen: Context, s: State, peerSeen: Context, peer: State)
    requires LogsOk(logs) && NodeOk(logs, seen, s) && NodeOk(logs, peerSeen, peer) && peer.replica != s.replica
    ensures (forall e :: e in Entries(Merge(peer, s.delta).values) ==> e.tag !in s.delta.leaveTags) <==> Clean(s.delta)
  {
    PendingAcceptable(logs, seen, s, peerSeen, peer);
    PendingUnseen(logs, seen, s, peerSeen, peer);
    hide Inv, Merge, Entries, NodeOk, LogsOk, Acceptable, Dominated, Determined;
    DeterminedBy(logs, peerSeen, peer);
    MergeOutcome(peer, s.delta);
    if !Clean(s.delta) {
      var e :| e in s.delta.joins && e.tag in s.delta.leaveTags;
      assert e in MergedEntries(peer, s.delta);
    }
  }

  lemma PendingUnseen(logs: Logs, seen: Context, s: State, peerSeen: Context, peer: State)
    requires LogsOk(logs) && NodeOk(logs, seen, s) && NodeOk(logs, peerSeen, peer) && peer.replica != s.replica
    ensures forall e :: e in s.delta.joins ==> !Dominated(peer.context, e.tag)
  {
    hide Inv, Entries, JoinedIn, LeftIn, Determined;
    StampMonotone(logs, s.replica, At(peerSeen, s.replica), |LogOf(logs, s.replica)|);
  }

  /** The same for any two replicas at any point of any run. */
  lemma NoLeaverStaysInRunIff(replicas: set<Replica>, cs: seq<Cluster>, steps: seq<Step>, i: nat, n: Replica,
      m: Replica)
    requires IsRun(replicas, cs, steps) && i < |cs| && n in cs[i].nodes && m in cs[i].nodes && m != n
    ensures var d := cs[i].nodes[n].delta;
      (forall e :: e in Entries(Merge(cs[i].nodes[m], d).values) ==> e.tag !in d.leaveTags) <==> Clean(d)
  {
    RunOk(replicas, cs, steps, i);
    var c := cs[i];
    assert MemberOk(c, n) && MemberOk(c, m);
    hide IsRun, NodeOk, LogsOk, Entries, Merge, Clean;
    NoLeaverStaysIff(c.logs, c.seen[n], c.nodes[n], c.seen[m], c.nodes[m]);
  }

  /** What a replica has not merged yet it may merge, and has not seen; and no two broadcast deltas share a join. */
  lemma UnseenFacts(logs: Logs, seen: Context, s: State, n: Replica, k: nat, r: Replica, j: nat, e: Entry)
    requires LogsOk(logs) && NodeOk(logs, seen, s) && n != s.replica && r != s.replica
    requires At(seen, n) <= k < |LogOf(logs, n)| && j < |LogOf(logs, r)| && (r, j) != (n, k)
    requires e in LogOf(logs, n)[k].delta.joins
    ensures Acceptable(s, LogOf(logs, n)[k].delta) && Acceptable(s, LogOf(logs, r)[j].delta)
    ensures !Dominated(s.context, e.tag) && e !in LogOf(logs, r)[j].delta.joins
  {
    hide Inv, Entries, JoinedIn, LeftIn, SeenOk, Determined, PendingOk, LogsOk, Acceptable, Stamp;
    LogAcceptable(logs, seen, s, n, k);
    LogAcceptable(logs, seen, s, r, j);
    JoinInterval(logs, n, k, e);
    StampMonotone(logs, n, At(seen, n), k);
    if e in LogOf(logs, r)[j].delta.joins {
      JoinInterval(logs, r, j, e);
      if j < k { StampMonotone(logs, n, j + 1, k); } else { StampMonotone(logs, n, k + 1, j); }
    }
  }

  lemma LogAcceptable(logs: Logs, seen: Context, s: State, n: Replica, k: nat)
    requires LogsOk(logs) && NodeOk(logs, seen, s) && n != s.replica && k < |LogOf(logs, n)|
    ensures Acceptable(s, LogOf(logs, n)[k].delta)
  {
    hide Inv, Entries, JoinedIn, LeftIn, SeenOk, Determined;
    assert ParcelOk(logs, n, k);
    StampMonotone(logs, s.replica, At(LogOf(logs, n)[k].deps, s.replica), |LogOf(logs, s.replica)|);
  }

  /** A later delta of the same sender covers every join of an earlier one; a delta whose sender had not merged the
      other one covers none of its joins. */
  lemma OvertakenCovers(logs: Logs, r: Replica, j: nat, n: Replica, k: nat, e: Entry)
    requires LogsOk(logs) && j < |LogOf(logs, r)| && k < |LogOf(logs, n)| && (r, j) != (n, k)
    requires e in LogOf(logs, n)[k].delta.joins
    ensures r == n && k < j ==> Covers(LogOf(logs, r)[j].delta.context, e.tag)
    ensures At(LogOf(logs, r)[j].deps, n) <= k ==> !Covers(LogOf(logs, r)[j].delta.context, e.tag)
  {
    hide LogsOk, Stamp;
    JoinInterval(logs, n, k, e);
    assert ParcelOk(logs, r, j) by { ParcelAt(logs, r, j); }
    if r == n {
      if k < j { StampMonotone(logs, n, k + 1, j + 1); } else { StampMonotone(logs, n, j + 1, k); }
      StampIs(logs, n, j);
    } else if At(LogOf(logs, r)[j].deps, n) <= k {
      StampMonotone(logs, n, At(LogOf(logs, r)[j].deps, n), k);
    }
  }

  lemma ParcelAt(logs: Logs, n: Replica, k: nat)
    requires LogsOk(logs) && k < |LogOf(logs, n)|
    ensures ParcelOk(logs, n, k)
  {}

  lemma StampIs(logs: Logs, n: Replica, k: nat)
    requires k < |LogOf(logs, n)|
    ensures Stamp(logs, n, k + 1) == At(LogOf(logs, n)[k].delta.context, n)
  {}

  /** The tags a delta joins are those issued since the delta before. */
  lemma JoinInterval(logs: Logs, n: Replica, k: nat, e: Entry)
    requires LogsOk(logs) && k < |LogOf(logs, n)| && e in LogOf(logs, n)[k].delta.joins
    ensures e.tag.replica == n && Stamp(logs, n, k) < e.tag.clock <= Stamp(logs, n, k + 1)
  {
    hide Stamp;
    assert ParcelOk(logs, n, k);
  }

  /** When some other delta is merged before one that has not been merged yet, the joins of the overtaken delta are kept
      exactly as far as the context of the other does not cover them. */
  lemma OvertakenKept(logs: Logs, seen: Context, s: State, r: Replica, j: nat, n: Replica, k: nat, e: Entry)
    requires LogsOk(logs) && NodeOk(logs, seen, s) && n != s.replica && r != s.replica
    requires At(seen, n) <= k < |LogOf(logs, n)| && j < |LogOf(logs, r)| && (r, j) != (n, k)
    requires e in LogOf(logs, n)[k].delta.joins
    ensures var late, early := LogOf(logs, r)[j].delta, LogOf(logs, n)[k].delta;
      e in Entries(Merge(Merge(s, late), early).values) <==> !Covers(late.context, e.tag)
  {
    UnseenFacts(logs, seen, s, n, k, r, j, e);
    hide Inv, Entries, Merge, Acceptable, Covers, Dominated, LogsOk, SeenOk, PendingOk, Determined;
    OvertakenIff(s, LogOf(logs, r)[j].delta, LogOf(logs, n)[k].delta, e);
  }

  /** A delta merged after any later delta of its own sender brings none of its joins. */
  lemma OvertakenJoinsLost(logs: Logs, seen: Context, s: State, n: Replica, j: nat, k: nat, e: Entry)
    requires LogsOk(logs) && NodeOk(logs, seen, s) && n != s.replica
    requires At(seen, n) <= k < j < |LogOf(logs, n)| && e in LogOf(logs, n)[k].delta.joins
    ensures e !in Entries(Merge(Merge(s, LogOf(logs, n)[j].delta), LogOf(logs, n)[k].delta).values)
  {
    hide NodeOk, LogsOk, Entries, Merge, Covers;
    OvertakenCovers(logs, n, j, n, k, e);
    OvertakenKept(logs, seen, s, n, j, n, k, e);
  }

  /** The same in any run, with what tells the two cases apart: a later delta of the same sender covers all joins of the
      overtaken one, and a delta whose sender had not merged the overtaken one covers none of them. */
  lemma OvertakenInRunIff(replicas: set<Replica>, cs: seq<Cluster>, steps: seq<Step>, i: nat, m: Replica,
                          r: Replica, j: nat, n: Replica, k: nat, e: Entry)
    requires IsRun(replicas, cs, steps) && i < |cs| && m in cs[i].nodes && m in cs[i].seen && n != m && r != m
    requires j < |LogOf(cs[i].logs, r)| && At(cs[i].seen[m], n) <= k < |LogOf(cs[i].logs, n)| && (r, j) != (n, k)
    requires e in LogOf(cs[i].logs, n)[k].delta.joins
    ensures var late, early := LogOf(cs[i].logs, r)[j], LogOf(cs[i].logs, n)[k];
      && (e in Entries(Merge(Merge(cs[i].nodes[m], late.delta), early.delta).values)
          <==> !Covers(late.delta.context, e.tag))
      && (r == n && k < j ==> Covers(late.delta.context, e.tag))
      && (At(late.deps, n) <= k ==> !Covers(late.delta.context, e.tag))
  {
    RunOk(replicas, cs, steps, i);
    assert MemberOk(cs[i], m);
    hide IsRun, NodeOk, LogsOk, Entries, Merge, Covers;
    OvertakenKept(cs[i].logs, cs[i].seen[m], cs[i].nodes[m], r, j, n, k, e);
    OvertakenCovers(cs[i].logs, r, j, n, k, e);
  }
}
