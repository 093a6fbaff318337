/** Laws of one replica's operations: what a merge conserves, when it is idempotent and commutative,
    why a delta is as good as the full state, and what the queries show. */
module PresenceAlgebra {
  import opened Pids
  import opened PresenceState
  import opened PresenceInvariant
  import opened Sequences

  // ---------- conservation ----------

  lemma {:induction false} JoinsConserve(ctx: Context, into: Intake, joins: seq<Entry>, e: Entry)
    ensures var r := TakeJoins(ctx, into, joins);
      Count(r.values, e) + multiset(into.accepted)[e] == Count(into.values, e) + multiset(r.accepted)[e]
  {
    if joins != [] {
      JoinsConserve(ctx, into, joins[..|joins| - 1], e);
    }
  }

  /** Whatever is merged, the entries held before plus the joins reported are the entries held after
      plus the leaves reported, each as often. */
  lemma MergeConserves(s: State, d: Delta, left: seq<Entry>, e: Entry)
    requires Placed(s.values)
    requires Enumerates(s.values, WithTag(TagSet(d.leaveTags)), left)
    ensures Count(s.values, e) + multiset(MergeJoins(s, d))[e] == Count(Merge(s, d).values, e) + multiset(left)[e]
  {
    var sel := WithTag(TagSet(d.leaveTags));
    var start := Intake(DropAll(s.values, sel), s.pidIndex, []);
    JoinsConserve(s.context, start, d.joins, e);
    SplitBucket(Bucket(s.values, e.Slot()), sel);
    assert Bucket(start.values, e.Slot()) == Without(Bucket(s.values, e.Slot()), sel);
  }

  // ---------- idempotence ----------

  lemma DominatedAfter(s: State, d: Delta, t: Tag)
    requires 1 <= t.clock && (Covers(s.context, t) || Covers(d.context, t))
    ensures Dominated(JoinContext(s.context, d.context), t)
  {}

  lemma {:induction false} TakeNoJoins(ctx: Context, into: Intake, joins: seq<Entry>)
    requires forall e :: e in joins ==> Dominated(ctx, e.tag)
    ensures TakeJoins(ctx, into, joins) == into
  {
    if joins != [] {
      assert joins == joins[..|joins| - 1] + [joins[|joins| - 1]];
      TakeNoJoins(ctx, into, joins[..|joins| - 1]);
    }
  }

  lemma JoinContextAgain(a: Context, b: Context)
    requires ContextLeq(b, a)
    ensures JoinContext(a, b) == a
  {}

  /** A delta that brings nothing new: its leaves are gone and its joins have been seen. */
  lemma MergeNothing(s: State, d: Delta)
    requires Placed(s.values) && ContextLeq(d.context, s.context)
    requires forall e :: e in d.joins ==> Dominated(s.context, e.tag)
    requires forall e :: e in Entries(s.values) ==> e.tag !in d.leaveTags
    ensures Merge(s, d) == s && MergeJoins(s, d) == []
  {
    DropNothing(s.values, WithTag(TagSet(d.leaveTags)));
    TakeNoJoins(s.context, Intake(s.values, s.pidIndex, []), d.joins);
    JoinContextAgain(s.context, d.context);
  }

  /** No join the state has yet to see is also told to leave. */
  ghost predicate NewJoinsStay(s: State, d: Delta) {
    forall e :: e in d.joins && !Dominated(s.context, e.tag) ==> e.tag !in d.leaveTags
  }

  /** Merging twice is merging once, exactly when no new join is also a leave of the same delta:
      leaves run before joins, so such a join survives the first merge and not the second. */
  lemma MergeIdempotentIff(s: State, d: Delta)
    requires Inv(s) && Acceptable(s, d)
    ensures Merge(Merge(s, d), d) == Merge(s, d) <==> NewJoinsStay(s, d)
    ensures NewJoinsStay(s, d) ==> MergeJoins(Merge(s, d), d) == []
  {
    hide Merge, Inv, Entries, Dominated, JoinContext;
    MergeOutcome(s, d);
    MergePlaced(s, d);
    var once := Merge(s, d);
    assert ContextLeq(d.context, once.context);
    forall e | e in d.joins ensures Dominated(once.context, e.tag) { DominatedAfter(s, d, e.tag); }
    if NewJoinsStay(s, d) {
      forall e | e in Entries(once.values) ensures e.tag !in d.leaveTags {}
      MergeNothing(once, d);
    } else {
      OwnClockKept(s, d, d);
      MergeOutcome(once, d);
      var e :| e in d.joins && !Dominated(s.context, e.tag) && e.tag in d.leaveTags;
      assert e in Entries(once.values);
      assert e !in MergedEntries(once, d);
    }
  }

  lemma MergePlaced(s: State, d: Delta)
    requires Inv(s) && Acceptable(s, d)
    ensures Placed(Merge(s, d).values)
  {
    hide Placed, Entries, Merge, NoDuplicates, IndexCovers;
    MergeEntries(s, d);
  }

  // ---------- commutativity ----------

  /** The new joins of each delta that the other claims to have seen are joins of the other, too. */
  ghost predicate Agree(s: State, a: Delta, b: Delta) {
    && (forall e :: e in a.joins && !Dominated(s.context, e.tag) && Covers(b.context, e.tag) ==> e in b.joins)
    && (forall e :: e in b.joins && !Dominated(s.context, e.tag) && Covers(a.context, e.tag) ==> e in a.joins)
  }

  lemma SecondMerge(s: State, a: Delta, b: Delta)
    requires Inv(s) && Acceptable(s, a) && Acceptable(s, b) && a.leaveTags == [] && b.leaveTags == []
    ensures Inv(Merge(s, a)) && Acceptable(Merge(s, a), b)
    ensures forall e :: e in Entries(Merge(Merge(s, a), b).values) <==>
      || e in Entries(s.values)
      || (e in a.joins && !Dominated(s.context, e.tag))
      || (e in b.joins && !Dominated(s.context, e.tag) && !Covers(a.context, e.tag))
  {
    hide Merge, Inv, Entries, Dominated, Covers, JoinContext;
    var s' := Merge(s, a);
    MergeOutcome(s, a);
    OwnClockKept(s, a, b);
    MergeOutcome(s', b);
    forall e | e in b.joins
      ensures Dominated(s'.context, e.tag) <==> Dominated(s.context, e.tag) || Covers(a.context, e.tag)
    {
      DominatedByEither(s.context, a.context, e.tag);
    }
  }

  lemma OwnClockKept(s: State, a: Delta, b: Delta)
    requires Inv(s) && Acceptable(s, a) && Acceptable(s, b)
    ensures Acceptable(Merge(s, a), b)
  {}

  lemma DominatedByEither(a: Context, b: Context, t: Tag)
    requires 1 <= t.clock
    ensures Dominated(JoinContext(a, b), t) <==> Dominated(a, t) || Covers(b, t)
  {}

  /** Two leave-free deltas may be merged in either order with the same context always, and with the
      same entries exactly when they agree on the new tags both contexts cover. */
  lemma MergeCommutesIff(s: State, a: Delta, b: Delta)
    requires Inv(s) && Acceptable(s, a) && Acceptable(s, b) && a.leaveTags == [] && b.leaveTags == []
    ensures Merge(Merge(s, a), b).context == Merge(Merge(s, b), a).context
    ensures Entries(Merge(Merge(s, a), b).values) == Entries(Merge(Merge(s, b), a).values) <==> Agree(s, a, b)
  {
    hide Merge, Inv, Entries, Dominated, Covers, JoinContext, MergedEntries;
    MergeOutcome(s, a);
    MergeOutcome(s, b);
    JoinContextCommutes(s.context, a.context, b.context);
    SecondMerge(s, a, b);
    SecondMerge(s, b, a);
    TwoMergesContext(s, a, b);
    TwoMergesContext(s, b, a);
    NotHeldIfNew(s);
    TwoOrders(Entries(Merge(Merge(s, a), b).values), Entries(Merge(Merge(s, b), a).values), s, a, b);
  }

  lemma TwoMergesContext(s: State, a: Delta, b: Delta)
    requires Inv(s) && Acceptable(s, a) && Acceptable(s, b)
    ensures Merge(Merge(s, a), b).context == JoinContext(JoinContext(s.context, a.context), b.context)
  {
    hide JoinContext, Entries, MergeIntake;
  }

  /** What the two orders of merging hold, compared. */
  lemma TwoOrders(ab: set<Entry>, ba: set<Entry>, s: State, a: Delta, b: Delta)
    requires forall e :: e in Entries(s.values) ==> Dominated(s.context, e.tag)
    requires forall e :: e in ab <==>
      || e in Entries(s.values)
      || (e in a.joins && !Dominated(s.context, e.tag))
      || (e in b.joins && !Dominated(s.context, e.tag) && !Covers(a.context, e.tag))
    requires forall e :: e in ba <==>
      || e in Entries(s.values)
      || (e in b.joins && !Dominated(s.context, e.tag))
      || (e in a.joins && !Dominated(s.context, e.tag) && !Covers(b.context, e.tag))
    ensures ab == ba <==> Agree(s, a, b)
  {
    hide Entries, Dominated, Covers;
    if ab == ba {
      forall e | e in a.joins && !Dominated(s.context, e.tag) && Covers(b.context, e.tag) ensures e in b.joins {
        assert e in ab;
        assert e in ba;
      }
      forall e | e in b.joins && !Dominated(s.context, e.tag) && Covers(a.context, e.tag) ensures e in a.joins {
        assert e in ba;
        assert e in ab;
      }
    }
  }

  lemma JoinContextCommutes(c: Context, a: Context, b: Context)
    ensures JoinContext(JoinContext(c, a), b) == JoinContext(JoinContext(c, b), a)
  {
    hide JoinContext, ContextLeq;
    var x, y := JoinContext(JoinContext(c, a), b), JoinContext(JoinContext(c, b), a);
    forall r: Replica ensures (r in x <==> r in y) && At(x, r) == At(y, r) {
      JoinKeys(c, a, r);
      JoinKeys(c, b, r);
      JoinKeys(JoinContext(c, a), b, r);
      JoinKeys(JoinContext(c, b), a, r);
    }
    forall r | r in x ensures x[r] == y[r] { assert At(x, r) == At(y, r); }
  }

  lemma JoinKeys(a: Context, b: Context, r: Replica)
    ensures r in JoinContext(a, b) <==> r in a || At(b, r) > 0
  {}

  lemma NotHeldIfNew(s: State)
    requires Inv(s)
    ensures forall e :: e in Entries(s.values) ==> Dominated(s.context, e.tag)
  {}

  // ---------- order of delivery ----------

  /** A join the state has yet to see, merged only after another delta that does not bring it, is kept exactly when that
      other delta does not claim to have seen it. */
  lemma OvertakenIff(s: State, late: Delta, early: Delta, e: Entry)
    requires Inv(s) && Acceptable(s, late) && Acceptable(s, early)
    requires e in early.joins && !Dominated(s.context, e.tag) && e !in late.joins
    ensures e in Entries(Merge(Merge(s, late), early).values) <==> !Covers(late.context, e.tag)
  {
    hide Merge, Inv, Entries, Dominated, Covers, JoinContext;
    MergeOutcome(s, late);
    OwnClockKept(s, late, early);
    MergeOutcome(Merge(s, late), early);
    DominatedByEither(s.context, late.context, e.tag);
    NotHeldIfNew(s);
  }

  // ---------- extracting ----------

  lemma EnumeratedEntries(values: Values, sel: Selector, joins: seq<Entry>)
    requires Placed(values) && Enumerates(values, sel, joins)
    ensures forall e :: e in joins <==> e in Entries(values) && sel.Hits(e)
  {
    forall e ensures e in joins <==> e in Entries(values) && sel.Hits(e) {
      HeldInOwnBucket(values, e);
      assert e in joins <==> multiset(joins)[e] > 0;
      assert e in Only(Bucket(values, e.Slot()), sel) <==> multiset(Only(Bucket(values, e.Slot()), sel))[e] > 0;
    }
  }

  lemma ExtractJoins(r: State, since: Context, d: Delta)
    requires Inv(r) && IsExtract(r, since, d)
    ensures forall e :: e in d.joins <==> e in Entries(r.values) && !Covers(since, e.tag)
    ensures WellFormed(d)
  {
    hide Entries, Enumerates, Placed;
    EnumeratedEntries(r.values, NewerThan(since), d.joins);
    assert TagsIdentify(Entries(r.values));
  }

  lemma FullExtractJoins(r: State, d: Delta)
    requires Inv(r) && IsFullExtract(r, d)
    ensures forall e :: e in d.joins <==> e in Entries(r.values)
    ensures WellFormed(d)
  {
    hide Entries, Enumerates, Placed;
    EnumeratedEntries(r.values, Anything, d.joins);
    assert TagsIdentify(Entries(r.values));
  }

  /** Sending only what the receiver has not seen does for it what sending everything does. */
  lemma ExtractRefinesFull(s: State, r: State, d: Delta, full: Delta)
    requires Inv(s) && Inv(r) && At(r.context, s.replica) <= s.clock
    requires IsExtract(r, s.context, d) && IsFullExtract(r, full)
    ensures var a, b := Merge(s, d), Merge(s, full);
      && Inv(a) && Inv(b)
      && Entries(a.values) == Entries(b.values)
      && a.context == b.context
      && (forall e :: e in MergeJoins(s, d) <==> e in MergeJoins(s, full))
  {
    ExtractJoins(r, s.context, d);
    FullExtractJoins(r, full);
    ExtractContext(s, r, d);
    ExtractContext(s, r, full);
    hide Merge, Entries, IsExtract, IsFullExtract, Covers, Dominated, Inv;
    MergeOutcome(s, d);
    MergeOutcome(s, full);
    ReportedJoins(s, d);
    ReportedJoins(s, full);
    forall e | e in Entries(r.values) ensures Dominated(s.context, e.tag) <==> Covers(s.context, e.tag) {
      SeenIsDominated(s, r, e);
    }
    assert MergedEntries(s, d) == MergedEntries(s, full);
  }

  lemma ReportedJoins(s: State, d: Delta)
    requires Inv(s) && Acceptable(s, d)
    ensures forall e :: e in MergeJoins(s, d) <==> e in d.joins && !Dominated(s.context, e.tag)
  {
    hide Entries, Merge, MergeJoins, Dominated;
    MergeEntries(s, d);
  }

  /** Merging an extract, or a full one, adds exactly the sender's entries that the receiver has not seen. */
  lemma ExtractAdds(s: State, r: State, d: Delta)
    requires Inv(s) && Inv(r) && At(r.context, s.replica) <= s.clock
    requires IsExtract(r, s.context, d) || IsFullExtract(r, d)
    ensures Entries(Merge(s, d).values) ==
      Entries(s.values) + set e | e in Entries(r.values) && !Covers(s.context, e.tag)
  {
    if IsExtract(r, s.context, d) { ExtractJoins(r, s.context, d); } else { FullExtractJoins(r, d); }
    ExtractContext(s, r, d);
    hide Merge, Entries, IsExtract, IsFullExtract, Dominated, Covers;
    forall e | e in Entries(r.values) ensures Dominated(s.context, e.tag) <==> Covers(s.context, e.tag) {
      SeenIsDominated(s, r, e);
    }
    MergeOutcome(s, d);
  }

  lemma ExtractContext(s: State, r: State, d: Delta)
    requires IsExtract(r, s.context, d) || IsFullExtract(r, d)
    ensures d.leaveTags == [] && d.context == r.context
  {}

  lemma SeenIsDominated(s: State, r: State, e: Entry)
    requires Inv(r) && e in Entries(r.values)
    ensures Dominated(s.context, e.tag) <==> Covers(s.context, e.tag)
  {}

  /** Whatever `a` holds and `b` has seen, `b` still holds. */
  ghost predicate KeptBy(a: State, b: State) {
    forall e :: e in Entries(a.values) && Covers(b.context, e.tag) ==> e in Entries(b.values)
  }

  /** Two replicas that merge each other's extracts end with the same entries exactly when neither holds an entry that
      the other has seen and no longer holds: an extract carries no removal. */
  lemma ExchangeAgreesIff(a: State, b: State, toA: Delta, toB: Delta)
    requires Inv(a) && Inv(b) && At(b.context, a.replica) <= a.clock && At(a.context, b.replica) <= b.clock
    requires IsExtract(b, a.context, toA) || IsFullExtract(b, toA)
    requires IsExtract(a, b.context, toB) || IsFullExtract(a, toB)
    ensures Entries(Merge(a, toA).values) == Entries(Merge(b, toB).values) <==> KeptBy(a, b) && KeptBy(b, a)
  {
    ExtractAdds(a, b, toA);
    ExtractAdds(b, a, toB);
    HeldIsCovered(a);
    HeldIsCovered(b);
    hide Inv, Merge, Entries, IsExtract, IsFullExtract, Covers;
    ExchangedSets(Entries(a.values), Entries(b.values), a.context, b.context);
  }

  lemma ExchangedSets(x: set<Entry>, y: set<Entry>, seenX: Context, seenY: Context)
    requires forall e :: e in x ==> Covers(seenX, e.tag)
    requires forall e :: e in y ==> Covers(seenY, e.tag)
    ensures x + (set e | e in y && !Covers(seenX, e.tag)) == y + (set e | e in x && !Covers(seenY, e.tag)) <==>
      (forall e :: e in x && Covers(seenY, e.tag) ==> e in y) && (forall e :: e in y && Covers(seenX, e.tag) ==> e in x)
  {
    hide Covers;
    var a, b := x + (set e | e in y && !Covers(seenX, e.tag)), y + (set e | e in x && !Covers(seenY, e.tag));
    if a == b {
      forall e | e in x && Covers(seenY, e.tag) ensures e in y { assert e in a; assert e in b; }
      forall e | e in y && Covers(seenX, e.tag) ensures e in x { assert e in b; assert e in a; }
    }
  }

  lemma HeldIsCovered(s: State)
    requires Inv(s)
    ensures forall e :: e in Entries(s.values) ==> Covers(s.context, e.tag)
  {}

  // ---------- what the queries show ----------

  /** `list` shows exactly the entries of the topic whose replica is not down, under their keys. */
  lemma ListingExact(s: State, topic: string, e: Entry)
    requires Placed(s.values)
    ensures (e.key in Listing(s, topic) && e in Listing(s, topic)[e.key]) <==>
      e in Entries(s.values) && e.topic == topic && IsUp(s, e.tag.replica)
  {}

  /** Every listed entry stands under its own key, as often as it is held, and no key is listed without entries. */
  lemma ListingKeyed(s: State, topic: string, k: string, e: Entry)
    requires Placed(s.values) && k in Listing(s, topic)
    ensures Listing(s, topic)[k] != []
    ensures multiset(Listing(s, topic)[k])[e] ==
      if e.topic == topic && e.key == k && IsUp(s, e.tag.replica) then Count(s.values, e) else 0
  {
    var bucket := s.values[(topic, k)];
    SplitBucket(bucket, OfReplicas(DownReplicas(s)));
    assert e in Listing(s, topic)[k] <==> multiset(Listing(s, topic)[k])[e] > 0;
    assert e !in Only(bucket, OfReplicas(DownReplicas(s))) ==>
      multiset(Only(bucket, OfReplicas(DownReplicas(s))))[e] == 0;
  }

  /** The entry is listed under its key. */
  predicate IsListed(s: State, topic: string, e: Entry) {
    e.key in Listing(s, topic) && e in Listing(s, topic)[e.key]
  }

  /** Marking a replica down hides it and no other: its entries are listed no more, the others as before. */
  lemma DownHides(s: State, r: Replica, temporary: bool, topic: string, e: Entry)
    requires Placed(s.values)
    ensures var s' := ReplicaDown(s, r, temporary);
      && !IsUp(s', r) && (forall q :: q != r ==> (IsUp(s', q) <==> IsUp(s, q)))
      && Entries(s'.values) == Entries(s.values)
      && (IsListed(s', topic, e) <==>
            e in Entries(s.values) && e.topic == topic && e.tag.replica != r && IsUp(s, e.tag.replica))
  {
    hide Listing, Placed, Entries, DownReplicas;
    ListingExact(ReplicaDown(s, r, temporary), topic, e);
  }

  /** Marking a replica up shows it and no other: all its entries are listed, the others as before. */
  lemma UpShows(s: State, r: Replica, topic: string, e: Entry)
    requires Placed(s.values)
    ensures var s' := ReplicaUp(s, r);
      && IsUp(s', r) && (forall q :: q != r ==> (IsUp(s', q) <==> IsUp(s, q)))
      && Entries(s'.values) == Entries(s.values)
      && (IsListed(s', topic, e) <==>
            e in Entries(s.values) && e.topic == topic && (e.tag.replica == r || IsUp(s, e.tag.replica)))
  {
    hide Listing, Placed, Entries, DownReplicas;
    ListingExact(ReplicaUp(s, r), topic, e);
  }

  /** Purging a replica drops exactly its entries and forgets that it was down; what it sends later is listed. */
  lemma PurgeExact(s: State, r: Replica, topic: string, e: Entry)
    requires Placed(s.values)
    ensures var s' := RemoveDownReplica(s, r);
      && r !in s'.replicas && IsUp(s', r) && (forall q :: q != r ==> (IsUp(s', q) <==> IsUp(s, q)))
      && (e in Entries(s'.values) <==> e in Entries(s.values) && e.tag.replica != r)
      && (IsListed(s', topic, e) <==>
            e in Entries(s.values) && e.topic == topic && e.tag.replica != r && IsUp(s, e.tag.replica))
      && s'.context == s.context && s'.delta == s.delta
  {
    hide Entries, DropAll, Placed, Listing, DownReplicas;
    DropEntries(s.values, OfReplicas({r}));
    ListingExact(RemoveDownReplica(s, r), topic, e);
  }

  /** Marking a visible replica down and up again restores every listing. */
  lemma DownThenUp(s: State, r: Replica, temporary: bool, topic: string)
    requires IsUp(s, r)
    ensures Listing(ReplicaUp(ReplicaDown(s, r, temporary), r), topic) == Listing(s, topic)
  {
    hide Shown;
    assert DownReplicas(ReplicaUp(ReplicaDown(s, r, temporary), r)) == DownReplicas(s);
  }

  /** The map `untrack_all` returns holds the removed entries under their topics, as often as they were removed. */
  lemma {:induction false} ByTopicExact(es: seq<Entry>, e: Entry)
    ensures var m := ByTopic(es);
      && multiset(es)[e] == (if e.topic in m then multiset(m[e.topic])[e] else 0)
      && (forall t :: t in m ==> forall f :: f in m[t] ==> f.topic == t && f in es)
  {
    if es != [] {
      assert es == es[..|es| - 1] + [es[|es| - 1]];
      ByTopicExact(es[..|es| - 1], e);
    }
  }

  function OnTopic(es: seq<Entry>, topic: string): seq<Entry> {
    if es == [] then [] else (if es[0].topic == topic then [es[0]] else []) + OnTopic(es[1..], topic)
  }

  /** The grouping keeps the order of removal within each topic, and has a topic only when it has entries. */
  lemma {:induction false} ByTopicOrder(es: seq<Entry>, topic: string)
    ensures topic in ByTopic(es) <==> OnTopic(es, topic) != []
    ensures topic in ByTopic(es) ==> ByTopic(es)[topic] == OnTopic(es, topic)
  {
    if es != [] {
      var n := |es| - 1;
      ByTopicOrder(es[..n], topic);
      assert es[..n] + [es[n]] == es;
      OnTopicAppend(es[..n], es[n], topic);
    }
  }

  lemma {:induction false} OnTopicAppend(es: seq<Entry>, e: Entry, topic: string)
    ensures OnTopic(es + [e], topic) == OnTopic(es, topic) + if e.topic == topic then [e] else []
  {
    if es != [] {
      assert (es + [e])[1..] == es[1..] + [e];
      OnTopicAppend(es[1..], e, topic);
    }
  }

  /** The index forgets exactly what an untracking takes away: one slot of the process, or all of them. */
  lemma IndexExact(s: State, topic: string, key: string, pid: Pid, q: Pid, k: Slot)
    ensures k in Slots(Untrack(s, topic, key, pid).pidIndex, q) <==>
      k in Slots(s.pidIndex, q) && !(q == pid && k == (topic, key))
    ensures k in Slots(UntrackAll(s, pid).pidIndex, q) <==> k in Slots(s.pidIndex, q) && q != pid
    ensures pid !in UntrackAll(s, pid).pidIndex
  {}

  /** What `untrack_all` does, from the caller's side: the process holds nothing afterwards, nothing else is
      touched, and the pending delta gains exactly the removed tags as leaves. */
  lemma UntrackAllExact(s: State, pid: Pid)
    requires Inv(s)
    ensures var s' := UntrackAll(s, pid);
      && Entries(s'.values) == (set e | e in Entries(s.values) && e.pid != pid)
      && s'.delta.joins == s.delta.joins
      && s'.delta.leaveTags[..|s.delta.leaveTags|] == s.delta.leaveTags
      && (forall t :: t in s'.delta.leaveTags[|s.delta.leaveTags|..] <==>
            exists e :: e in Entries(s.values) && e.pid == pid && e.tag == t)
      && NoDup(s'.delta.leaveTags[|s.delta.leaveTags|..])
  {
    UntrackAllEntries(s, pid);
    var es := UntrackedEntries(s, pid);
    assert UntrackAll(s, pid).delta.leaveTags[|s.delta.leaveTags|..] == TagsOf(es);
    forall i, j | 0 <= i < j < |es| ensures TagsOf(es)[i] != TagsOf(es)[j] {
      assert es[i] in es && es[j] in es;
    }
  }
}
