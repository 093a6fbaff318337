/** Anti-entropy between presence replicas: one replica extracts what another has not seen, and the other
    merges it at any later time, in any order, any number of times. Nothing is lost and nothing comes back. */
module PresenceAntiEntropy {
  import opened Pids
  import opened PresenceState
  import opened PresenceInvariant
  import opened PresenceAlgebra
  import opened Sequences

  // ---------- one replica, fed by any well-formed deltas ----------

  datatype Act =
    | TrackIt(topic: string, pid: Pid, key: string, meta: seq<int>)
    | UntrackIt(topic: string, key: string, pid: Pid)
    | UntrackAllOf(pid: Pid)
    | MergeIn(d: Delta)
    | MarkUp(r: Replica)
    | MarkDown(r: Replica, temporary: bool)
    | Purge(r: Replica)
    | Take

  ghost predicate Allowed(s: State, a: Act) {
    a.MergeIn? ==> Acceptable(s, a.d)
  }

  function Do(s: State, a: Act): State {
    match a
    case TrackIt(topic, pid, key, meta) => Track(s, topic, pid, key, meta)
    case UntrackIt(topic, key, pid) => Untrack(s, topic, key, pid)
    case UntrackAllOf(pid) => UntrackAll(s, pid)
    case MergeIn(d) => Merge(s, d)
    case MarkUp(r) => ReplicaUp(s, r)
    case MarkDown(r, temporary) => ReplicaDown(s, r, temporary)
    case Purge(r) => RemoveDownReplica(s, r)
    case Take => TakeDelta(s)
  }

  function After(s: State, acts: seq<Act>): State {
    if acts == [] then s else Do(After(s, acts[..|acts| - 1]), acts[|acts| - 1])
  }

  ghost predicate AllAllowed(s: State, acts: seq<Act>) {
    acts == [] || (AllAllowed(s, acts[..|acts| - 1]) && Allowed(After(s, acts[..|acts| - 1]), acts[|acts| - 1]))
  }

  /** The tag has been seen and nothing with it is held. */
  ghost predicate Gone(s: State, t: Tag) {
    Covers(s.context, t) && forall e :: e in Entries(s.values) ==> e.tag != t
  }

  lemma TrackKeeps(s: State, topic: string, pid: Pid, key: string, meta: seq<int>, t: Tag)
    requires Inv(s)
    ensures var s' := Track(s, topic, pid, key, meta);
      Inv(s') && ContextLeq(s.context, s'.context) && (Gone(s, t) ==> Gone(s', t))
  {
    hide Entries;
    TrackEntries(s, topic, pid, key, meta);
    hide Inv;
    assert At(s.context, s.replica) == s.clock by { ClockKnown(s); }
  }

  lemma ClockKnown(s: State)
    requires Inv(s)
    ensures At(s.context, s.replica) == s.clock
  {}

  lemma MergeKeepsGone(s: State, d: Delta, t: Tag)
    requires Inv(s) && Acceptable(s, d)
    ensures var s' := Merge(s, d);
      Inv(s') && ContextLeq(s.context, s'.context) && (Gone(s, t) ==> Gone(s', t))
  {
    hide Inv, Entries, Merge, JoinContext;
    MergeOutcome(s, d);
    if Gone(s, t) {
      forall e | e in d.joins && !Dominated(s.context, e.tag) ensures e.tag != t {}
    }
  }

  /** Every operation keeps the invariant, lets the context only grow, and brings no tag back. */
  lemma {:induction false} ActKeeps(s: State, a: Act, t: Tag)
    requires Inv(s) && Allowed(s, a)
    ensures Inv(Do(s, a)) && ContextLeq(s.context, Do(s, a).context)
    ensures Gone(s, t) ==> Gone(Do(s, a), t)
  {
    hide Track, Merge, UntrackAll, Untrack, RemoveDownReplica;
    match a
    case TrackIt(topic, pid, key, meta) => TrackKeeps(s, topic, pid, key, meta, t);
    case MergeIn(d) => MergeKeepsGone(s, d, t);
    case UntrackIt(topic, key, pid) =>
      UntrackInv(s, topic, key, pid);
      UntrackEntries(s, topic, key, pid);
      UntrackContext(s, topic, key, pid);
    case UntrackAllOf(pid) =>
      UntrackAllInv(s, pid);
      UntrackAllEntries(s, pid);
      UntrackAllContext(s, pid);
    case Purge(r) =>
      RemoveDownReplicaInv(s, r);
      DropEntries(s.values, OfReplicas({r}));
      PurgeContext(s, r);
    case _ =>
  }

  lemma UntrackContext(s: State, topic: string, key: string, pid: Pid)
    ensures Untrack(s, topic, key, pid).context == s.context
  {}
  lemma UntrackAllContext(s: State, pid: Pid)
    ensures UntrackAll(s, pid).context == s.context
  {}
  lemma PurgeContext(s: State, r: Replica)
    ensures RemoveDownReplica(s, r).context == s.context
    ensures RemoveDownReplica(s, r).values == DropAll(s.values, OfReplicas({r}))
  {}

  /** No resurrection: over any run fed by well-formed deltas contexts only grow, the invariant holds, and a tag
      once seen and gone stays gone. */
  lemma {:induction false} NoResurrection(s: State, acts: seq<Act>, t: Tag)
    requires Inv(s) && AllAllowed(s, acts)
    ensures Inv(After(s, acts)) && ContextLeq(s.context, After(s, acts).context)
    ensures Gone(s, t) ==> Gone(After(s, acts), t)
  {
    hide Inv, Do, Gone, Allowed;
    if acts != [] {
      NoResurrection(s, acts[..|acts| - 1], t);
      ActKeeps(After(s, acts[..|acts| - 1]), acts[|acts| - 1], t);
    }
  }

  /** What is purged with a replica never returns, whatever well-formed deltas are merged later: not even when the
      replica comes back and sends its entries again. */
  lemma PurgedStaysGone(s: State, r: Replica, acts: seq<Act>, t: Tag)
    requires Inv(s) && t.replica == r && Covers(s.context, t) && AllAllowed(RemoveDownReplica(s, r), acts)
    ensures forall e :: e in Entries(After(RemoveDownReplica(s, r), acts).values) ==> e.tag != t
  {
    RemoveDownReplicaInv(s, r);
    DropEntries(s.values, OfReplicas({r}));
    PurgeContext(s, r);
    hide Inv, RemoveDownReplica, After, AllAllowed;
    assert Gone(RemoveDownReplica(s, r), t);
    NoResurrection(RemoveDownReplica(s, r), acts, t);
  }

  /** The last thing said about a replica's status, if anything was, is that it is down. */
  predicate LastSaidDown(acts: seq<Act>, r: Replica, before: bool) {
    if acts == [] then before
    else
      match acts[|acts| - 1]
      case MarkDown(q, _) => q == r || LastSaidDown(acts[..|acts| - 1], r, before)
      case MarkUp(q) => q != r && LastSaidDown(acts[..|acts| - 1], r, before)
      case Purge(q) => q != r && LastSaidDown(acts[..|acts| - 1], r, before)
      case _ => LastSaidDown(acts[..|acts| - 1], r, before)
  }

  /** A replica is hidden exactly when it was marked down and neither marked up nor purged since. */
  lemma {:induction false} HiddenByHistory(s: State, acts: seq<Act>, r: Replica)
    ensures !IsUp(After(s, acts), r) <==> LastSaidDown(acts, r, !IsUp(s, r))
  {
    if acts != [] {
      HiddenByHistory(s, acts[..|acts| - 1], r);
      StatusNext(After(s, acts[..|acts| - 1]), acts[|acts| - 1], r);
    }
  }

  lemma StatusNext(s: State, a: Act, r: Replica)
    ensures IsUp(Do(s, a), r) <==>
      match a
      case MarkDown(q, _) => q != r && IsUp(s, r)
      case MarkUp(q) => q == r || IsUp(s, r)
      case Purge(q) => q == r || IsUp(s, r)
      case _ => IsUp(s, r)
  {}

  /** Why deltas must cover their joins: a single new join comes back after being told to leave, when its delta is
      merged again, exactly when the delta's context does not cover it. */
  lemma UncoveredJoinReturnsIff(s: State, e: Entry, ctx: Context)
    requires Inv(s) && 1 <= e.tag.clock && !Covers(s.context, e.tag)
    ensures var d := Delta([e], [], ctx);
      e in Entries(Merge(Merge(Merge(s, d), Delta([], [e.tag], map[])), d).values) <==> !Covers(ctx, e.tag)
  {
    hide Merge, Inv, Entries, JoinContext, Covers, Dominated;
    var d, leave := Delta([e], [], ctx), Delta([], [e.tag], map[]);
    var s1 := Merge(s, d);
    var s2 := Merge(s1, leave);
    JoinAlone(s, e, ctx);
    LeaveOnly(s1, e.tag);
    SingleJoin(s2, e, ctx);
    MergeContextOf(s, d);
    DominatedByEither(s.context, ctx, e.tag);
    UncoveredIsNew(s.context, e.tag);
  }

  lemma UncoveredIsNew(ctx: Context, t: Tag)
    requires !Covers(ctx, t)
    ensures !Dominated(ctx, t)
  {}

  lemma JoinAlone(s: State, e: Entry, ctx: Context)
    requires Inv(s)
    ensures Placed(Merge(s, Delta([e], [], ctx)).values)
  {
    hide Entries, Merge, Placed;
    MergeEntries(s, Delta([e], [], ctx));
  }

  lemma MergeContextOf(s: State, d: Delta)
    ensures Merge(s, d).context == JoinContext(s.context, d.context)
  {}

  lemma LeaveOnly(s: State, t: Tag)
    requires Placed(s.values)
    ensures var s' := Merge(s, Delta([], [t], map[]));
      && Placed(s'.values) && s'.context == s.context
      && (forall f :: f in Entries(s'.values) ==> f.tag != t)
  {
    DropEntries(s.values, WithTag(TagSet([t])));
    JoinContextAgain(s.context, map[]);
    assert [t][0] in [t];
  }

  lemma SingleJoin(s: State, e: Entry, ctx: Context)
    requires Placed(s.values) && forall f :: f in Entries(s.values) ==> f.tag != e.tag
    ensures e in Entries(Merge(s, Delta([e], [], ctx)).values) <==> !Dominated(s.context, e.tag)
  {
    var start := Intake(DropAll(s.values, WithTag(TagSet([]))), s.pidIndex, []);
    DropNothing(s.values, WithTag(TagSet([])));
    var joins := [e];
    assert joins[..|joins| - 1] == [];
    assert TakeJoins(s.context, start, joins[..|joins| - 1]) == start;
    assert TakeJoins(s.context, start, joins) == TakeJoin(s.context, start, e);
    var bucket := Bucket(s.values, e.Slot());
    forall i | 0 <= i < |bucket| ensures bucket[i].tag != e.tag { InEntries(s.values, e.Slot(), bucket[i]); }
    PushEntries(s.values, e);
    HeldInOwnBucket(s.values, e);
  }

  // ---------- replicas exchanging extracts ----------

  /** An extract on its way: whom it is for, which context it was extracted for, and the delta. */
  datatype Letter = Letter(to: Replica, since: Context, delta: Delta)

  /** `letters` keeps every extract ever made: any of them may be merged at any time, again and again. The tags ever
      untracked are `removed`, those ever dropped together with their replica `purged`. */
  datatype Net = Net(
    nodes: map<Replica, State>, letters: seq<Letter>, issued: set<Entry>, removed: set<Tag>, purged: set<Tag>)

  function Dropped(c: Net): set<Tag> {
    c.removed + c.purged
  }

  /** The tags a replica holds of another. */
  function TagsHeldOf(values: Values, r: Replica): set<Tag> {
    set e | e in Entries(values) && e.tag.replica == r :: e.tag
  }

  datatype Step =
    | DoTrack(n: Replica, topic: string, pid: Pid, key: string, meta: seq<int>)
    | DoUntrack(n: Replica, topic: string, key: string, pid: Pid)
    | DoUntrackAll(n: Replica, pid: Pid)
    | DoTakeDelta(n: Replica)
    | DoUp(n: Replica, r: Replica)
    | DoDown(n: Replica, r: Replica, temporary: bool)
    | DoPurge(n: Replica, r: Replica)
    | Extract(n: Replica, letter: Letter)
    | Receive(i: nat)

  ghost predicate Enabled(c: Net, st: Step) {
    match st
    case DoTrack(n, _, _, _, _) => n in c.nodes
    case DoUntrack(n, _, _, _) => n in c.nodes
    case DoUntrackAll(n, _) => n in c.nodes
    case DoTakeDelta(n) => n in c.nodes
    case DoUp(n, _) => n in c.nodes
    case DoDown(n, _, _) => n in c.nodes
    case DoPurge(n, _) => n in c.nodes
    case Extract(n, l) =>
      && n in c.nodes && l.to in c.nodes
      && ContextLeq(l.since, c.nodes[l.to].context)
      && (IsExtract(c.nodes[n], l.since, l.delta) || (l.since == map[] && IsFullExtract(c.nodes[n], l.delta)))
    case Receive(i) => i < |c.letters| && c.letters[i].to in c.nodes
  }

  ghost function Exec(c: Net, st: Step): Net
    requires Enabled(c, st)
  {
    match st
    case DoTrack(n, topic, pid, key, meta) =>
      var s := Track(c.nodes[n], topic, pid, key, meta);
      c.(nodes := c.nodes[n := s], issued := c.issued + {Entry(topic, pid, key, meta, Tag(n, s.clock))})
    case DoUntrack(n, topic, key, pid) =>
      c.(nodes := c.nodes[n := Untrack(c.nodes[n], topic, key, pid)],
         removed := c.removed + TagSet(UntrackedTags(c.nodes[n], topic, key, pid)))
    case DoUntrackAll(n, pid) =>
      c.(nodes := c.nodes[n := UntrackAll(c.nodes[n], pid)],
         removed := c.removed + TagSet(TagsOf(UntrackedEntries(c.nodes[n], pid))))
    case DoTakeDelta(n) => c.(nodes := c.nodes[n := TakeDelta(c.nodes[n])])
    case DoUp(n, r) => c.(nodes := c.nodes[n := ReplicaUp(c.nodes[n], r)])
    case DoDown(n, r, temporary) => c.(nodes := c.nodes[n := ReplicaDown(c.nodes[n], r, temporary)])
    case DoPurge(n, r) =>
      c.(nodes := c.nodes[n := RemoveDownReplica(c.nodes[n], r)], purged := c.purged + TagsHeldOf(c.nodes[n].values, r))
    case Extract(_, l) => c.(letters := c.letters + [l])
    case Receive(i) =>
      var l := c.letters[i];
      c.(nodes := c.nodes[l.to := Merge(c.nodes[l.to], l.delta)])
  }

  ghost function Start(replicas: set<Replica>): Net {
    Net(map r | r in replicas :: Fresh(r), [], {}, {}, {})
  }

  ghost predicate IsRun(replicas: set<Replica>, cs: seq<Net>, steps: seq<Step>) {
    && |cs| == |steps| + 1
    && cs[0] == Start(replicas)
    && forall i :: 0 <= i < |steps| ==> Enabled(cs[i], steps[i]) && cs[i + 1] == Exec(cs[i], steps[i])
  }

  lemma StartRun(replicas: set<Replica>)
    ensures IsRun(replicas, [Start(replicas)], [])
  {
    hide Start;
  }

  lemma ExtendRun(replicas: set<Replica>, cs: seq<Net>, steps: seq<Step>, st: Step)
    requires IsRun(replicas, cs, steps) && Enabled(cs[|steps|], st)
    ensures |cs| == |steps| + 1 && IsRun(replicas, cs + [Exec(cs[|steps|], st)], steps + [st])
  {
    hide Enabled, Exec;
  }

  function ClockOf(nodes: map<Replica, State>, r: Replica): nat {
    if r in nodes then nodes[r].clock else 0
  }

  ghost predicate NoAhead(nodes: map<Replica, State>, ctx: Context) {
    forall r :: At(ctx, r) <= ClockOf(nodes, r)
  }

  /** Every issued tag a context covers is accounted for: held, or dropped by someone. */
  ghost predicate Accounted(issued: set<Entry>, dropped: set<Tag>, ctx: Context, held: set<Entry>) {
    forall e :: e in issued && Covers(ctx, e.tag) ==> e in held || e.tag in dropped
  }

  ghost predicate NodeOk(c: Net, m: Replica)
    requires m in c.nodes
  {
    var s := c.nodes[m];
    && s.replica == m && Inv(s) && Entries(s.values) <= c.issued
    && NoAhead(c.nodes, s.context)
    && Accounted(c.issued, Dropped(c), s.context, Entries(s.values))
  }

  ghost predicate LetterOk(c: Net, l: Letter) {
    && l.to in c.nodes && ContextLeq(l.since, c.nodes[l.to].context)
    && l.delta.leaveTags == [] && WellFormed(l.delta)
    && (forall e :: e in l.delta.joins ==> e in c.issued)
    && NoAhead(c.nodes, l.delta.context)
    && (forall e :: e in c.issued && Covers(l.delta.context, e.tag) && !Covers(l.since, e.tag) ==>
          e in l.delta.joins || e.tag in Dropped(c))
  }

  ghost predicate IssuedOk(c: Net) {
    TagsIdentify(c.issued) && forall e :: e in c.issued ==> 1 <= e.tag.clock <= ClockOf(c.nodes, e.tag.replica)
  }

  ghost predicate NetOk(c: Net) {
    && IssuedOk(c)
    && (forall m :: m in c.nodes ==> NodeOk(c, m))
    && forall i :: 0 <= i < |c.letters| ==> LetterOk(c, c.letters[i])
  }

  lemma StartOk(replicas: set<Replica>)
    ensures NetOk(Start(replicas))
  {}

  /** One replica moves on; its clock and context only grow, and what is issued and dropped only grows. */
  ghost predicate Moves(c: Net, c': Net, m: Replica) {
    && m in c.nodes && c'.nodes.Keys == c.nodes.Keys
    && (forall r :: r in c.nodes && r != m ==> c'.nodes[r] == c.nodes[r])
    && c.nodes[m].clock <= c'.nodes[m].clock && ContextLeq(c.nodes[m].context, c'.nodes[m].context)
    && Dropped(c) <= Dropped(c') && c.issued <= c'.issued && c'.letters == c.letters
    && (forall e :: e in c'.issued && e !in c.issued ==> e.tag.replica == m && c.nodes[m].clock < e.tag.clock)
  }

  lemma MoveOthers(c: Net, c': Net, m: Replica)
    requires NetOk(c) && Moves(c, c', m) && IssuedOk(c') && NodeOk(c', m)
    ensures NetOk(c')
  {
    hide Inv, Entries, WellFormed;
    forall r ensures ClockOf(c.nodes, r) <= ClockOf(c'.nodes, r) {}
    forall r | r in c'.nodes ensures NodeOk(c', r) {
      if r != m {
        assert NodeOk(c, r);
        AheadGrows(c, c', m, c.nodes[r].context);
      }
    }
    forall i | 0 <= i < |c'.letters| ensures LetterOk(c', c'.letters[i]) {
      var l := c.letters[i];
      assert LetterOk(c, l);
      AheadGrows(c, c', m, l.delta.context);
      assert ContextLeq(l.since, c'.nodes[l.to].context) by {
        forall r ensures At(l.since, r) <= At(c'.nodes[l.to].context, r) {
          assert At(l.since, r) <= At(c.nodes[l.to].context, r);
        }
      }
    }
  }

  lemma AheadGrows(c: Net, c': Net, m: Replica, ctx: Context)
    requires Moves(c, c', m) && NoAhead(c.nodes, ctx)
    ensures NoAhead(c'.nodes, ctx)
    ensures forall e :: e in c'.issued && e !in c.issued ==> !Covers(ctx, e.tag)
  {}

  lemma TrackStep(c: Net, st: Step)
    requires NetOk(c) && st.DoTrack? && Enabled(c, st)
    ensures NetOk(Exec(c, st))
  {
    hide Inv, Entries, Track, LetterOk, NodeOk, IssuedOk;
    TrackerOk(c, st);
    var c' := Exec(c, st);
    hide Moves;
    MoveOthers(c, c', st.n);
  }

  lemma TrackerOk(c: Net, st: Step)
    requires NetOk(c) && st.DoTrack? && Enabled(c, st)
    ensures Moves(c, Exec(c, st), st.n) && NodeOk(Exec(c, st), st.n) && IssuedOk(Exec(c, st))
  {
    hide Inv, Entries, Track, LetterOk, TagsIdentify;
    var n, s, c' := st.n, c.nodes[st.n], Exec(c, st);
    var s' := Track(s, st.topic, st.pid, st.key, st.meta);
    var e := Entry(st.topic, st.pid, st.key, st.meta, Tag(n, s'.clock));
    assert NodeOk(c, n);
    TrackEntries(s, st.topic, st.pid, st.key, st.meta);
    TrackClock(s, st.topic, st.pid, st.key, st.meta);
    assert Moves(c, c', n);
    assert NodeOk(c', n) by {
      AheadGrows(c, c', n, s.context);
      forall r ensures At(s'.context, r) <= ClockOf(c'.nodes, r) { assert At(s.context, r) <= ClockOf(c'.nodes, r); }
      forall f | f in c'.issued && Covers(s'.context, f.tag) ensures f in Entries(s'.values) || f.tag in Dropped(c') {
        if f != e { assert Covers(s.context, f.tag); }
      }
    }
    IssuedMore(c, e);
  }

  lemma IssuedMore(c: Net, e: Entry)
    requires IssuedOk(c) && e.tag.clock > ClockOf(c.nodes, e.tag.replica)
    ensures TagsIdentify(c.issued + {e})
  {}

  lemma TrackClock(s: State, topic: string, pid: Pid, key: string, meta: seq<int>)
    requires Inv(s)
    ensures var s' := Track(s, topic, pid, key, meta);
      && s'.clock == s.clock + 1 && s'.replica == s.replica
      && (forall r :: At(s'.context, r) == if r == s.replica then s.clock + 1 else At(s.context, r))
      && At(s.context, s.replica) == s.clock
  {}

  /** A local removal, whichever it is. */
  lemma {:induction false} RemovalStep(c: Net, c': Net, n: Replica, s': State, gone: set<Entry>)
    requires NetOk(c) && n in c.nodes
    requires Inv(s') && s'.replica == n && s'.clock == c.nodes[n].clock && s'.context == c.nodes[n].context
    requires gone <= Entries(c.nodes[n].values) && Entries(s'.values) == Entries(c.nodes[n].values) - gone
    requires c' == c.(nodes := c.nodes[n := s'], removed := c'.removed, purged := c'.purged)
    requires Dropped(c) <= Dropped(c') && forall e :: e in gone ==> e.tag in Dropped(c')
    ensures NetOk(c')
  {
    hide Inv, Entries, LetterOk;
    assert NodeOk(c, n);
    assert Moves(c, c', n);
    AheadGrows(c, c', n, s'.context);
    assert NodeOk(c', n);
    assert IssuedOk(c');
    hide Moves, NodeOk, IssuedOk;
    MoveOthers(c, c', n);
  }

  lemma UntrackStep(c: Net, st: Step)
    requires NetOk(c) && (st.DoUntrack? || st.DoUntrackAll?) && Enabled(c, st)
    ensures NetOk(Exec(c, st))
  {
    hide Inv, Entries, IssuedOk, LetterOk, TagsOf;
    var n, s, c' := st.n, c.nodes[st.n], Exec(c, st);
    assert NodeOk(c, n);
    InvParts(s);
    if st.DoUntrack? {
      var gone := set e | e in Entries(s.values) && e.pid == st.pid && e.Slot() == (st.topic, st.key);
      UntrackEntries(s, st.topic, st.key, st.pid);
      UntrackInv(s, st.topic, st.key, st.pid);
      RemovalStep(c, c', n, Untrack(s, st.topic, st.key, st.pid), gone);
    } else {
      var gone := set e | e in Entries(s.values) && e.pid == st.pid;
      UntrackAllEntries(s, st.pid);
      UntrackAllInv(s, st.pid);
      TagsListed(UntrackedEntries(s, st.pid));
      RemovalStep(c, c', n, UntrackAll(s, st.pid), gone);
    }
  }

  lemma TagsListed(es: seq<Entry>)
    ensures forall e :: e in es ==> e.tag in TagsOf(es)
  {}

  lemma InvParts(s: State)
    requires Inv(s)
    ensures Placed(s.values) && NoDuplicates(s.values) && IndexCovers(s.pidIndex, Entries(s.values))
  {}

  lemma PurgeStep(c: Net, st: Step)
    requires NetOk(c) && st.DoPurge? && Enabled(c, st)
    ensures NetOk(Exec(c, st))
  {
    hide Inv, Entries, IssuedOk, LetterOk;
    var n, s := st.n, c.nodes[st.n];
    assert NodeOk(c, n);
    InvParts(s);
    RemoveDownReplicaInv(s, st.r);
    DropEntries(s.values, OfReplicas({st.r}));
    RemovalStep(c, Exec(c, st), n, RemoveDownReplica(s, st.r), set e | e in Entries(s.values) && e.tag.replica == st.r);
  }

  lemma TakeStep(c: Net, st: Step)
    requires NetOk(c) && (st.DoTakeDelta? || st.DoUp? || st.DoDown?) && Enabled(c, st)
    ensures NetOk(Exec(c, st))
  {
    hide Entries, LetterOk, Inv;
    var n, c' := st.n, Exec(c, st);
    assert NodeOk(c, n);
    StatusOnly(c.nodes[n], c'.nodes[n]);
    assert Moves(c, c', n);
    AheadGrows(c, c', n, c.nodes[n].context);
    assert NodeOk(c', n);
    assert IssuedOk(c') by { IssuedKept(c, c', n); }
    hide Moves, NodeOk, IssuedOk;
    MoveOthers(c, c', n);
  }

  /** The invariant says nothing about the pending delta and the statuses. */
  lemma StatusOnly(s: State, s': State)
    requires Inv(s) && s' == s.(delta := s'.delta, replicas := s'.replicas)
    ensures Inv(s')
  {}

  lemma ExtractStep(c: Net, st: Step)
    requires NetOk(c) && st.Extract? && Enabled(c, st)
    ensures NetOk(Exec(c, st))
  {
    hide Inv, Entries, IsExtract, IsFullExtract;
    var n, l, s := st.n, st.letter, c.nodes[st.n];
    assert NodeOk(c, n);
    if IsExtract(s, l.since, l.delta) {
      ExtractJoins(s, l.since, l.delta);
      ExtractParts(s, l.since, l.delta);
    } else {
      FullExtractJoins(s, l.delta);
      FullExtractParts(s, l.delta);
    }
    assert LetterOk(c, l);
    var c' := Exec(c, st);
    hide LetterOk, NodeOk;
    forall m | m in c'.nodes ensures NodeOk(c', m) { SameNode(c, c', m); }
    forall i | 0 <= i < |c'.letters| ensures LetterOk(c', c'.letters[i]) { SameLetter(c, c', c'.letters[i]); }
  }

  lemma ExtractParts(s: State, since: Context, d: Delta)
    requires IsExtract(s, since, d)
    ensures d.leaveTags == [] && d.context == s.context
  {}

  lemma FullExtractParts(s: State, d: Delta)
    requires IsFullExtract(s, d)
    ensures d.leaveTags == [] && d.context == s.context
  {}

  lemma SameNode(c: Net, c': Net, m: Replica)
    requires c' == c.(letters := c'.letters) && m in c.nodes && NodeOk(c, m)
    ensures NodeOk(c', m)
  {}

  lemma SameLetter(c: Net, c': Net, l: Letter)
    requires c' == c.(letters := c'.letters) && LetterOk(c, l)
    ensures LetterOk(c', l)
  {}

  lemma ReceiveStep(c: Net, st: Step)
    requires NetOk(c) && st.Receive? && Enabled(c, st)
    ensures NetOk(Exec(c, st))
  {
    hide Inv, Entries, Merge, NodeOk, LetterOk;
    var l := c.letters[st.i];
    ReceiverOk(c, l);
    var c' := Exec(c, st);
    assert c' == c.(nodes := c.nodes[l.to := Merge(c.nodes[l.to], l.delta)]);
    assert IssuedOk(c') by { IssuedKept(c, c', l.to); }
    hide Moves, IssuedOk;
    MoveOthers(c, c', l.to);
  }

  lemma IssuedKept(c: Net, c': Net, m: Replica)
    requires IssuedOk(c) && Moves(c, c', m) && c'.issued == c.issued
    ensures IssuedOk(c')
  {
    hide TagsIdentify;
    forall r ensures ClockOf(c.nodes, r) <= ClockOf(c'.nodes, r) {}
  }

  /** The replica that merges an extract. */
  lemma ReceiverOk(c: Net, l: Letter)
    requires NetOk(c) && LetterOk(c, l)
    ensures var c' := c.(nodes := c.nodes[l.to := Merge(c.nodes[l.to], l.delta)]);
      Moves(c, c', l.to) && NodeOk(c', l.to)
  {
    hide Inv, Entries, Merge, JoinContext, MergedEntries, WellFormed;
    var m, s := l.to, c.nodes[l.to];
    var c' := c.(nodes := c.nodes[m := Merge(s, l.delta)]);
    assert NodeOk(c, m);
    assert Acceptable(s, l.delta) by { assert At(l.delta.context, m) <= ClockOf(c.nodes, m); }
    MergeOutcome(s, l.delta);
    ReceiveAccounts(c, s, l, m);
    assert Moves(c, c', m);
    forall r ensures At(JoinContext(s.context, l.delta.context), r) <= ClockOf(c'.nodes, r) {
      assert At(s.context, r) <= ClockOf(c.nodes, r) && At(l.delta.context, r) <= ClockOf(c.nodes, r);
    }
  }

  /** What was accounted for stays so, and what the extract newly covers it either carries or someone dropped. */
  lemma ReceiveAccounts(c: Net, s: State, l: Letter, m: Replica)
    requires NetOk(c) && m in c.nodes && s == c.nodes[m] && l.to == m && LetterOk(c, l)
    ensures Accounted(c.issued, Dropped(c), JoinContext(s.context, l.delta.context), MergedEntries(s, l.delta))
    ensures MergedEntries(s, l.delta) <= c.issued
  {}

  lemma StepOk(c: Net, st: Step)
    requires NetOk(c) && Enabled(c, st)
    ensures NetOk(Exec(c, st))
  {
    hide NetOk, Enabled, Exec;
    match st
    case DoTrack(_, _, _, _, _) => TrackStep(c, st);
    case DoUntrack(_, _, _, _) => UntrackStep(c, st);
    case DoUntrackAll(_, _) => UntrackStep(c, st);
    case DoTakeDelta(_) => TakeStep(c, st);
    case DoUp(_, _) => TakeStep(c, st);
    case DoDown(_, _, _) => TakeStep(c, st);
    case DoPurge(_, _) => PurgeStep(c, st);
    case Extract(_, _) => ExtractStep(c, st);
    case Receive(_) => ReceiveStep(c, st);
  }

  lemma {:induction false} RunOk(replicas: set<Replica>, cs: seq<Net>, steps: seq<Step>, k: nat)
    requires IsRun(replicas, cs, steps) && k < |cs|
    ensures NetOk(cs[k])
  {
    hide NetOk, Enabled, Exec;
    if k == 0 {
      StartOk(replicas);
    } else {
      RunOk(replicas, cs, steps, k - 1);
      StepOk(cs[k - 1], steps[k - 1]);
    }
  }

  /** Nothing is lost: in every run, an issued entry whose tag a replica has seen is held there, or was removed by some
      untrack, or was purged somewhere together with its replica; and nothing is invented: what is held was issued. */
  lemma NothingLost(replicas: set<Replica>, cs: seq<Net>, steps: seq<Step>, k: nat, m: Replica, e: Entry)
    requires IsRun(replicas, cs, steps) && k < |cs| && m in cs[k].nodes
    ensures e in cs[k].issued && Covers(cs[k].nodes[m].context, e.tag) ==>
      e in Entries(cs[k].nodes[m].values) || e.tag in cs[k].removed || e.tag in cs[k].purged
    ensures e in Entries(cs[k].nodes[m].values) ==> e in cs[k].issued && Covers(cs[k].nodes[m].context, e.tag)
  {
    RunOk(replicas, cs, steps, k);
    assert NodeOk(cs[k], m);
  }

  /** Tags are globally unique: in every run, entries with one tag at any two replicas are one entry. */
  lemma TagsGloballyUnique(replicas: set<Replica>, cs: seq<Net>, steps: seq<Step>, k: nat,
                           m: Replica, n: Replica, e: Entry, f: Entry)
    requires IsRun(replicas, cs, steps) && k < |cs| && m in cs[k].nodes && n in cs[k].nodes
    requires e in Entries(cs[k].nodes[m].values) && f in Entries(cs[k].nodes[n].values) && e.tag == f.tag
    ensures e == f
  {
    RunOk(replicas, cs, steps, k);
    assert NodeOk(cs[k], m) && NodeOk(cs[k], n);
  }

  /** An extract only adds: the removal of an entry is not carried by it. */
  lemma ExtractNeverRemoves(c: Net, l: Letter)
    requires NetOk(c) && LetterOk(c, l)
    ensures Entries(c.nodes[l.to].values) <= Entries(Merge(c.nodes[l.to], l.delta).values)
  {
    hide Entries, Merge;
    var m := l.to;
    assert NodeOk(c, m);
    assert At(l.delta.context, m) <= ClockOf(c.nodes, m);
    hide Inv;
    MergeOutcome(c.nodes[m], l.delta);
  }

  /** When two replicas at any point of a run exchange extracts, or full extracts, and merge them, they then hold the
      same entries exactly when neither held an entry that the other had seen and no longer holds; in particular when
      nothing either holds was ever untracked or purged. */
  lemma ExchangeInRunIff(replicas: set<Replica>, cs: seq<Net>, steps: seq<Step>, k: nat, m: Replica, n: Replica,
                         toM: Delta, toN: Delta)
    requires IsRun(replicas, cs, steps) && k < |cs| && m in cs[k].nodes && n in cs[k].nodes
    requires var a, b := cs[k].nodes[m], cs[k].nodes[n];
      && (IsExtract(b, a.context, toM) || IsFullExtract(b, toM))
      && (IsExtract(a, b.context, toN) || IsFullExtract(a, toN))
    ensures var a, b := cs[k].nodes[m], cs[k].nodes[n];
      && (Entries(Merge(a, toM).values) == Entries(Merge(b, toN).values) <==> KeptBy(a, b) && KeptBy(b, a))
      && ((forall e :: e in Entries(a.values) + Entries(b.values) ==> e.tag !in cs[k].removed && e.tag !in cs[k].purged)
          ==> KeptBy(a, b) && KeptBy(b, a))
  {
    RunOk(replicas, cs, steps, k);
    hide IsRun, NetOk, Inv, Entries, Merge, IsExtract, IsFullExtract, KeptBy;
    MeetAsExtracts(cs[k], m, n);
    MeetAsExtracts(cs[k], n, m);
    ExchangeAgreesIff(cs[k].nodes[m], cs[k].nodes[n], toM, toN);
  }

  /** What two replicas of a network are to each other. */
  lemma MeetAsExtracts(c: Net, m: Replica, n: Replica)
    requires NetOk(c) && m in c.nodes && n in c.nodes
    ensures var a, b := c.nodes[m], c.nodes[n];
      && Inv(a) && At(b.context, a.replica) <= a.clock
      && ((forall e :: e in Entries(a.values) + Entries(b.values) ==> e.tag !in c.removed && e.tag !in c.purged)
          ==> KeptBy(a, b))
  {
    hide Inv, Entries;
    assert NodeOk(c, m) && NodeOk(c, n);
  }
}
