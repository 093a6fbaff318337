/** What the operations of one replica keep, and what each does to the set of entries held. */
module PresenceInvariant {
  import opened Pids
  import opened PresenceState
  import opened Sequences

  // ---------- buckets ----------

  lemma {:induction false} WithoutSnoc(s: seq<Entry>, e: Entry, sel: Selector)
    ensures Without(s + [e], sel) == if sel.Hits(e) then Without(s, sel) else Without(s, sel) + [e]
    ensures Only(s + [e], sel) == if sel.Hits(e) then Only(s, sel) + [e] else Only(s, sel)
  {}

  /** Taking entries out of a bucket splits it. */
  lemma {:induction false} SplitBucket(s: seq<Entry>, sel: Selector)
    ensures multiset(s) == multiset(Without(s, sel)) + multiset(Only(s, sel))
  {
    if s != [] {
      var n := |s| - 1;
      assert s == s[..n] + [s[n]];
      SplitBucket(s[..n], sel);
    }
  }

  lemma {:induction false} WithoutTwice(s: seq<Entry>, a: set<Tag>, b: set<Tag>)
    ensures Without(Without(s, WithTag(a)), WithTag(b)) == Without(s, WithTag(a + b))
  {
    if s != [] {
      var n := |s| - 1;
      assert s == s[..n] + [s[n]];
      WithoutTwice(s[..n], a, b);
      var before := Without(s[..n], WithTag(a));
      WithoutSnoc(s[..n], s[n], WithTag(a));
      WithoutSnoc(s[..n], s[n], WithTag(a + b));
      if s[n].tag !in a { WithoutSnoc(before, s[n], WithTag(b)); }
    }
  }

  lemma {:induction false} WithoutNothing(s: seq<Entry>, sel: Selector)
    requires forall e :: e in s ==> !sel.Hits(e)
    ensures Without(s, sel) == s && Only(s, sel) == []
  {
    if s != [] {
      assert s == s[..|s| - 1] + [s[|s| - 1]];
      WithoutNothing(s[..|s| - 1], sel);
    }
  }

  lemma InEntries(values: Values, k: Slot, e: Entry)
    requires k in values && e in values[k]
    ensures e in Entries(values)
  {}

  /** Under `Placed`, an entry is held exactly when it is in the bucket of its own slot. */
  lemma HeldInOwnBucket(values: Values, e: Entry)
    requires Placed(values)
    ensures e in Entries(values) <==> e in Bucket(values, e.Slot())
  {}

  // ---------- removal ----------

  lemma DropEntries(values: Values, sel: Selector)
    requires Placed(values)
    ensures Placed(DropAll(values, sel))
    ensures Entries(DropAll(values, sel)) == set e | e in Entries(values) && !sel.Hits(e)
    ensures NoDuplicates(values) ==> NoDuplicates(DropAll(values, sel))
  {
    var after := DropAll(values, sel);
    forall e ensures e in Entries(after) <==> e in Entries(values) && !sel.Hits(e) {
      if e in Entries(values) && !sel.Hits(e) {
        assert e in values[e.Slot()];
        assert e in after[e.Slot()];
      }
    }
  }

  lemma DropNothing(values: Values, sel: Selector)
    requires Placed(values)
    requires forall e :: e in Entries(values) ==> !sel.Hits(e)
    ensures DropAll(values, sel) == values
  {
    forall k | k in values ensures Without(values[k], sel) == values[k] {
      forall e | e in values[k] ensures !sel.Hits(e) { InEntries(values, k, e); }
      WithoutNothing(values[k], sel);
    }
  }

  lemma UntrackEntries(s: State, topic: string, key: string, pid: Pid)
    requires Placed(s.values)
    ensures var s' := Untrack(s, topic, key, pid);
      && Placed(s'.values)
      && Entries(s'.values) == (set e | e in Entries(s.values) && !(e.pid == pid && e.Slot() == (topic, key)))
      && (NoDuplicates(s.values) ==> NoDuplicates(s'.values))
    ensures forall t :: t in UntrackedTags(s, topic, key, pid) <==>
      exists e :: e in Entries(s.values) && e.pid == pid && e.Slot() == (topic, key) && e.tag == t
  {
    var slot := (topic, key);
    var after := Untrack(s, topic, key, pid).values;
    forall e ensures e in Entries(after) <==> e in Entries(s.values) && !(e.pid == pid && e.Slot() == slot) {
      HeldInOwnBucket(s.values, e);
      if e in Entries(s.values) && !(e.pid == pid && e.Slot() == slot) {
        assert e in after[e.Slot()];
      }
    }
    var out := Only(Bucket(s.values, slot), OfPid(pid));
    forall e ensures e in out <==> e in Entries(s.values) && e.pid == pid && e.Slot() == slot {
      HeldInOwnBucket(s.values, e);
    }
  }

  lemma OnlyHere(values: Values, slot: Slot, pid: Pid)
    requires forall k, e :: k in values && e in values[k] ==> e.Slot() == k
    requires slot in values
    ensures forall e ::
      e in Only(values[slot], OfPid(pid)) <==> e in Entries(values) && e.pid == pid && e.Slot() == slot
  {
    forall e ensures e in Only(values[slot], OfPid(pid)) <==> e in Entries(values) && e.pid == pid && e.Slot() == slot {
      if e in Entries(values) && e.Slot() == slot { assert e in values[slot]; }
    }
  }

  /** One pass over a list of slots takes out exactly the entries of the process in those slots. */
  lemma {:induction false} SweepEntries(values: Values, slots: seq<Slot>, pid: Pid)
    requires forall k, e :: k in values && e in values[k] ==> e.Slot() == k
    ensures var sw := SweepSlots(values, slots, pid);
      && sw.values.Keys == values.Keys
      && (forall k :: k in values ==>
            sw.values[k] == if k in slots then Without(values[k], OfPid(pid)) else values[k])
      && (forall e :: e in sw.removed <==> e in Entries(values) && e.pid == pid && e.Slot() in slots)
      && (NoDuplicates(values) ==> NoDup(sw.removed))
  {
    if slots != [] {
      var n := |slots| - 1;
      var slot := slots[n];
      assert slots == slots[..n] + [slot];
      SweepEntries(values, slots[..n], pid);
      var before := SweepSlots(values, slots[..n], pid);
      hide Entries, NoDup;
      if slot in values {
        if slot in slots[..n] {
          WithoutNothing(before.values[slot], OfPid(pid));
          assert before.removed + [] == before.removed;
        } else {
          assert before.values[slot] == values[slot];
          OnlyHere(values, slot, pid);
          if NoDuplicates(values) { NoDupAppend(before.removed, Only(values[slot], OfPid(pid))); }
        }
      }
    }
  }

  /** `untrack_all` takes out exactly the entries of the process, although it only looks where the pid index points. */
  lemma UntrackAllEntries(s: State, pid: Pid)
    requires Placed(s.values) && NoDuplicates(s.values) && IndexCovers(s.pidIndex, Entries(s.values))
    ensures var s' := UntrackAll(s, pid);
      && Placed(s'.values) && NoDuplicates(s'.values)
      && Entries(s'.values) == (set e | e in Entries(s.values) && e.pid != pid)
    ensures forall e :: e in UntrackedEntries(s, pid) <==> e in Entries(s.values) && e.pid == pid
    ensures NoDup(UntrackedEntries(s, pid))
  {
    var slots := Slots(s.pidIndex, pid);
    SweepEntries(s.values, slots, pid);
    var sw := SweepSlots(s.values, slots, pid);
    var after := Prune(sw.values);
    forall e ensures e in Entries(after) <==> e in Entries(s.values) && e.pid != pid {
      HeldInOwnBucket(s.values, e);
      if e in Entries(s.values) && e.pid != pid {
        assert e in after[e.Slot()];
      }
    }
  }

  // ---------- joins ----------

  /** What incoming joins keep of the state they extend. */
  ghost predicate Sound(into: Intake) {
    Placed(into.values) && NoDuplicates(into.values) && IndexCovers(into.pidIndex, Entries(into.values))
  }

  lemma PushEntries(values: Values, e: Entry)
    requires Placed(values)
    ensures var after := values[e.Slot() := Bucket(values, e.Slot()) + [e]];
      Placed(after) && Entries(after) == Entries(values) + {e}
      && (NoDuplicates(values) && e !in Entries(values) ==> NoDuplicates(after))
  {
    var after := values[e.Slot() := Bucket(values, e.Slot()) + [e]];
    HeldInOwnBucket(values, e);
    forall f ensures f in Entries(after) <==> f in Entries(values) || f == e {
      if f in Entries(values) {
        HeldInOwnBucket(values, f);
        assert f in after[f.Slot()];
      }
      if f == e { assert f in after[e.Slot()]; }
    }
  }

  lemma IndexPush(index: PidIndex, es: set<Entry>, e: Entry)
    requires IndexCovers(index, es)
    ensures IndexCovers(index[e.pid := Slots(index, e.pid) + [e.Slot()]], es + {e})
  {}

  lemma TakeJoinEntries(ctx: Context, into: Intake, e: Entry)
    requires Sound(into)
    requires forall f :: f in Entries(into.values) && f.tag == e.tag ==> f == e
    ensures var r := TakeJoin(ctx, into, e);
      && Sound(r)
      && Entries(r.values) == Entries(into.values) + (if Dominated(ctx, e.tag) then {} else {e})
      && r.accepted == into.accepted + (if Dominated(ctx, e.tag) || e in Entries(into.values) then [] else [e])
  {
    var bucket := Bucket(into.values, e.Slot());
    HeldInOwnBucket(into.values, e);
    forall i | 0 <= i < |bucket| && bucket[i].tag == e.tag ensures bucket[i] == e {
      InEntries(into.values, e.Slot(), bucket[i]);
    }
    if !Dominated(ctx, e.tag) && !HasTag(bucket, e.tag) {
      PushEntries(into.values, e);
      IndexPush(into.pidIndex, Entries(into.values), e);
    }
  }

  lemma TagsAmong(all: set<Entry>, some: set<Entry>)
    requires TagsIdentify(all) && some <= all
    ensures TagsIdentify(some)
  {}

  lemma TagNames(all: set<Entry>, held: set<Entry>, e: Entry)
    requires TagsIdentify(all) && held <= all && e in all
    ensures forall f :: f in held && f.tag == e.tag ==> f == e
  {}

  lemma JoinsSnoc(ctx: Context, es: set<Entry>, joins: seq<Entry>, e: Entry)
    ensures (set f | f in joins + [e]) == (set f | f in joins) + {e}
    ensures (set f | f in joins + [e] && !Dominated(ctx, f.tag)) ==
      (set f | f in joins && !Dominated(ctx, f.tag)) + (if Dominated(ctx, e.tag) then {} else {e})
    ensures es + (set f | f in joins) <= es + (set f | f in joins + [e])
    ensures es + (set f | f in joins && !Dominated(ctx, f.tag)) <= es + (set f | f in joins + [e])
    ensures e in es + (set f | f in joins + [e])
  {
    hide Dominated;
  }

  lemma {:induction false} TakeJoinsEntries(ctx: Context, into: Intake, joins: seq<Entry>)
    requires Sound(into)
    requires TagsIdentify(Entries(into.values) + set e | e in joins)
    ensures var r := TakeJoins(ctx, into, joins);
      && Sound(r)
      && Entries(r.values) == Entries(into.values) + (set e | e in joins && !Dominated(ctx, e.tag))
  {
    hide Placed, NoDuplicates, IndexCovers, Entries, TakeJoin, Sound, Dominated, TagsIdentify;
    if joins != [] {
      var n := |joins| - 1;
      var e := joins[n];
      assert joins == joins[..n] + [e];
      var es := Entries(into.values);
      JoinsSnoc(ctx, es, joins[..n], e);
      TagsAmong(es + (set f | f in joins), es + (set f | f in joins[..n]));
      TakeJoinsEntries(ctx, into, joins[..n]);
      var before := TakeJoins(ctx, into, joins[..n]);
      TagNames(es + (set f | f in joins), Entries(before.values), e);
      TakeJoinEntries(ctx, before, e);
    } else {
      assert (set e | e in joins && !Dominated(ctx, e.tag)) == {};
    }
  }

  /** The reported joins are exactly the new ones, each once. */
  lemma {:induction false} TakeJoinsAccepted(ctx: Context, into: Intake, joins: seq<Entry>)
    requires Sound(into) && into.accepted == []
    requires TagsIdentify(Entries(into.values) + set e | e in joins)
    ensures var r := TakeJoins(ctx, into, joins).accepted;
      && NoDup(r)
      && (forall f :: f in r <==> f in joins && !Dominated(ctx, f.tag) && f !in Entries(into.values))
  {
    hide Placed, NoDuplicates, IndexCovers, Entries, TakeJoin, Sound, Dominated, TagsIdentify;
    if joins != [] {
      var n := |joins| - 1;
      var e := joins[n];
      assert joins == joins[..n] + [e];
      JoinsSnoc(ctx, Entries(into.values), joins[..n], e);
      TagsAmong(Entries(into.values) + (set f | f in joins), Entries(into.values) + (set f | f in joins[..n]));
      TakeJoinsEntries(ctx, into, joins[..n]);
      TakeJoinsAccepted(ctx, into, joins[..n]);
      var before := TakeJoins(ctx, into, joins[..n]);
      TagNames(Entries(into.values) + (set f | f in joins), Entries(before.values), e);
      TakeJoinEntries(ctx, before, e);
    }
  }

  /** What a merge holds afterwards: what it held and was not told left, and every join it had not seen. */
  lemma MergeEntries(s: State, d: Delta)
    requires Inv(s) && TagsIdentify(set e | e in d.joins)
    ensures var s' := Merge(s, d);
      && Placed(s'.values) && NoDuplicates(s'.values)
      && IndexCovers(s'.pidIndex, Entries(s'.values))
      && Entries(s'.values) == MergedEntries(s, d)
    ensures forall e :: e in MergeJoins(s, d) <==> e in d.joins && !Dominated(s.context, e.tag)
    ensures NoDup(MergeJoins(s, d))
  {
    hide Placed, NoDuplicates, IndexCovers, Entries, TakeJoin, TakeJoins, DropAll, Dominated, Sound;
    var start := Intake(DropAll(s.values, WithTag(TagSet(d.leaveTags))), s.pidIndex, []);
    StartSound(s, d);
    var unseen := NewJoins(s.context, d.joins);
    NewJoinsFacts(s.context, d.joins);
    SkipDominated(s.context, start, d.joins);
    UnseenNotHeld(s, d, unseen);
    assert Entries(start.values) <= Entries(s.values);
    TakeJoinsEntries(s.context, start, unseen);
    TakeJoinsAccepted(s.context, start, unseen);
    assert (set e | e in unseen && !Dominated(s.context, e.tag)) ==
      set e | e in d.joins && !Dominated(s.context, e.tag);
    SoundParts(TakeJoins(s.context, start, unseen));
  }

  lemma SoundParts(into: Intake)
    requires Sound(into)
    ensures Placed(into.values) && NoDuplicates(into.values) && IndexCovers(into.pidIndex, Entries(into.values))
  {}

  lemma StartSound(s: State, d: Delta)
    requires Inv(s)
    ensures var start := Intake(DropAll(s.values, WithTag(TagSet(d.leaveTags))), s.pidIndex, []);
      Sound(start) && Entries(start.values) == set e | e in Entries(s.values) && e.tag !in d.leaveTags
  {
    DropEntries(s.values, WithTag(TagSet(d.leaveTags)));
  }

  lemma UnseenNotHeld(s: State, d: Delta, unseen: seq<Entry>)
    requires Inv(s) && TagsIdentify(set e | e in d.joins)
    requires forall e :: e in unseen <==> e in d.joins && !Dominated(s.context, e.tag)
    ensures forall e :: e in unseen ==> e !in Entries(s.values)
    ensures TagsIdentify(Entries(s.values) + set e | e in unseen)
  {}

  function MergedEntries(s: State, d: Delta): set<Entry> {
    (set e | e in Entries(s.values) && e.tag !in d.leaveTags) +
    (set e | e in d.joins && !Dominated(s.context, e.tag))
  }

  /** The joins a context has not seen. */
  function NewJoins(ctx: Context, joins: seq<Entry>): seq<Entry> {
    if joins == [] then [] else
      var r := NewJoins(ctx, joins[..|joins| - 1]);
      if Dominated(ctx, joins[|joins| - 1].tag) then r else r + [joins[|joins| - 1]]
  }

  lemma {:induction false} NewJoinsFacts(ctx: Context, joins: seq<Entry>)
    ensures forall e :: e in NewJoins(ctx, joins) <==> e in joins && !Dominated(ctx, e.tag)
  {
    if joins != [] {
      assert joins == joins[..|joins| - 1] + [joins[|joins| - 1]];
      NewJoinsFacts(ctx, joins[..|joins| - 1]);
    }
  }

  lemma {:induction false} SkipDominated(ctx: Context, into: Intake, joins: seq<Entry>)
    ensures TakeJoins(ctx, into, joins) == TakeJoins(ctx, into, NewJoins(ctx, joins))
  {
    if joins != [] {
      var n := |joins| - 1;
      var r := NewJoins(ctx, joins[..n]);
      SkipDominated(ctx, into, joins[..n]);
      if !Dominated(ctx, joins[n].tag) {
        assert (r + [joins[n]])[..|r|] == r;
      }
    }
  }

  // ---------- every operation keeps the invariant ----------

  lemma FreshInv(r: Replica)
    ensures Inv(Fresh(r)) && Entries(Fresh(r).values) == {}
  {}

  lemma TrackEntries(s: State, topic: string, pid: Pid, key: string, meta: seq<int>)
    requires Inv(s)
    ensures Inv(Track(s, topic, pid, key, meta))
    ensures Entries(Track(s, topic, pid, key, meta).values) ==
            Entries(s.values) + {Entry(topic, pid, key, meta, Tag(s.replica, s.clock + 1))}
  {
    hide Placed, NoDuplicates, Entries, IndexCovers;
    var e := Entry(topic, pid, key, meta, Tag(s.replica, s.clock + 1));
    assert e !in Entries(s.values);
    PushEntries(s.values, e);
    IndexPush(s.pidIndex, Entries(s.values), e);
    hide Slots;
  }

  lemma UntrackInv(s: State, topic: string, key: string, pid: Pid)
    requires Inv(s)
    ensures Inv(Untrack(s, topic, key, pid))
  {
    UntrackEntries(s, topic, key, pid);
  }

  lemma UntrackAllInv(s: State, pid: Pid)
    requires Inv(s)
    ensures Inv(UntrackAll(s, pid))
  {
    UntrackAllEntries(s, pid);
  }

  lemma MergeInv(s: State, d: Delta)
    requires Inv(s) && Acceptable(s, d)
    ensures Inv(Merge(s, d))
  {
    hide Placed, NoDuplicates, IndexCovers, Entries, Merge, MergedEntries, TagsIdentify, TagsCovered;
    MergeEntries(s, d);
    MergeFields(s, d);
    MergedTags(s, d);
    MergedCovered(s, d);
  }

  lemma MergeFields(s: State, d: Delta)
    ensures var s' := Merge(s, d);
      && s'.replica == s.replica && s'.clock == s.clock && s'.delta == s.delta
      && s'.context == JoinContext(s.context, d.context)
  {}

  lemma MergedTags(s: State, d: Delta)
    requires TagsIdentify(Entries(s.values)) && TagsCovered(s.context, Entries(s.values))
    requires WellFormed(d)
    ensures TagsIdentify(MergedEntries(s, d))
  {
    hide Entries;
    forall e | e in Entries(s.values) ensures Dominated(s.context, e.tag) {}
  }

  lemma MergedCovered(s: State, d: Delta)
    requires TagsCovered(s.context, Entries(s.values)) && WellFormed(d)
    ensures TagsCovered(JoinContext(s.context, d.context), MergedEntries(s, d))
  {
    hide Entries, Dominated, TagsIdentify;
  }

  /** A merge, seen from outside. */
  lemma MergeOutcome(s: State, d: Delta)
    requires Inv(s) && Acceptable(s, d)
    ensures var s' := Merge(s, d);
      && Inv(s')
      && s'.replica == s.replica && s'.clock == s.clock && s'.delta == s.delta
      && s'.context == JoinContext(s.context, d.context)
      && Entries(s'.values) == MergedEntries(s, d)
  {
    MergeEntries(s, d);
    MergeInv(s, d);
  }

  lemma RemoveDownReplicaInv(s: State, r: Replica)
    requires Inv(s)
    ensures Inv(RemoveDownReplica(s, r))
  {}
}
