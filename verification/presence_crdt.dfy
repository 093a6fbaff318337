/** The presence CRDT object: its methods change the fields step by step, and each is proved to
    compute the function of the same name in `PresenceState`. */
module PresenceCrdt {
  import opened Options
  import opened Pids
  import S = PresenceState
  import opened PresenceInvariant

  type Entry = S.Entry
  type Tag = S.Tag

  /** Buckets while a removal is under way: emptied ones are still there. */
  ghost function Strip(values: S.Values, sel: S.Selector): S.Values {
    map k | k in values :: S.Without(values[k], sel)
  }

  ghost predicate AtHome(values: S.Values) {
    forall k :: k in values ==> forall e :: e in values[k] ==> e.Slot() == k
  }

  lemma StripTwice(values: S.Values, a: set<Tag>, b: set<Tag>)
    ensures Strip(Strip(values, S.WithTag(a)), S.WithTag(b)) == Strip(values, S.WithTag(a + b))
  {
    forall k | k in values
      ensures S.Without(S.Without(values[k], S.WithTag(a)), S.WithTag(b)) == S.Without(values[k], S.WithTag(a + b))
    {
      WithoutTwice(values[k], a, b);
    }
  }

  lemma StripNothing(values: S.Values)
    ensures Strip(values, S.WithTag({})) == values
  {
    forall k | k in values ensures S.Without(values[k], S.WithTag({})) == values[k] {
      WithoutNothing(values[k], S.WithTag({}));
    }
  }

  /** Every selected entry of the buckets in `done` has been found, and nothing else. */
  ghost predicate FoundIn(values: S.Values, sel: S.Selector, done: set<S.Slot>, found: seq<Entry>) {
    forall e :: multiset(found)[e] ==
      (if e.Slot() in done then multiset(S.Only(S.Bucket(values, e.Slot()), sel))[e] else 0)
  }

  lemma FoundMore(values: S.Values, sel: S.Selector, done: set<S.Slot>, found: seq<Entry>, k: S.Slot)
    requires AtHome(values) && k in values && k !in done
    requires FoundIn(values, sel, done, found)
    ensures FoundIn(values, sel, done + {k}, found + S.Only(values[k], sel))
  {}

  lemma FoundNothing(values: S.Values, sel: S.Selector)
    ensures FoundIn(values, sel, {}, [])
  {}

  lemma StripHome(values: S.Values, sel: S.Selector)
    requires AtHome(values)
    ensures AtHome(Strip(values, sel))
  {}

  lemma FoundAll(values: S.Values, sel: S.Selector, found: seq<Entry>)
    requires FoundIn(values, sel, values.Keys, found)
    ensures S.Enumerates(values, sel, found)
  {}

  lemma ShownNothing(hidden: set<S.Replica>, topic: string)
    ensures S.Shown(map[], hidden, topic) == map[]
  {}

  lemma ShownMore(values: S.Values, hidden: set<S.Replica>, topic: string, slot: S.Slot, bucket: seq<Entry>)
    requires slot !in values
    ensures var online := S.Without(bucket, S.OfReplicas(hidden));
      S.Shown(values[slot := bucket], hidden, topic) ==
        if slot.0 == topic && online != [] then S.Shown(values, hidden, topic)[slot.1 := online]
        else S.Shown(values, hidden, topic)
  {
    hide S.Without, S.Shown;
    var sel := S.OfReplicas(hidden);
    var m := values[slot := bucket];
    var a, b := S.Shown(values, hidden, topic), S.Shown(m, hidden, topic);
    forall k: string ensures k in b <==> k in a || (slot == (topic, k) && S.Without(bucket, sel) != []) {
      ShownAt(values, hidden, topic, k);
      ShownAt(m, hidden, topic, k);
    }
    forall k | k in a ensures b[k] == a[k] && (topic, k) != slot {
      ShownAt(values, hidden, topic, k);
      ShownAt(m, hidden, topic, k);
    }
    if slot.0 == topic { ShownAt(m, hidden, topic, slot.1); }
  }

  lemma ShownAt(values: S.Values, hidden: set<S.Replica>, topic: string, k: string)
    ensures k in S.Shown(values, hidden, topic) <==>
      (topic, k) in values && S.Without(values[(topic, k)], S.OfReplicas(hidden)) != []
    ensures k in S.Shown(values, hidden, topic) ==>
      S.Shown(values, hidden, topic)[k] == S.Without(values[(topic, k)], S.OfReplicas(hidden))
  {}

  lemma JoinMore(a: S.Context, b: S.Context, r: S.Replica, clock: nat)
    requires r !in b
    ensures S.JoinContext(a, b[r := clock]) ==
      if clock > S.At(S.JoinContext(a, b), r) then S.JoinContext(a, b)[r := clock] else S.JoinContext(a, b)
  {}

  class PresenceCrdt {
    var replica: S.Replica
    var clock: nat
    var context: S.Context
    var values: S.Values
    var pidIndex: S.PidIndex
    var replicas: map<S.Replica, S.Status>
    var delta: S.Delta

    ghost function State(): S.State
      reads this
    {
      S.State(replica, clock, context, values, pidIndex, replicas, delta)
    }

    ghost predicate Valid()
      reads this
    {
      S.Placed(values)
    }

    constructor (replica: S.Replica)
      ensures Valid() && State() == S.Fresh(replica)
    {
      this.replica, clock, context := replica, 0, map[replica := 0];
      values, pidIndex, replicas, delta := map[], map[], map[], S.NO_DELTA;
    }

    method Track(topic: string, pid: Pid, key: string, meta: seq<int>) returns (tag: Tag)
      requires Valid()
      modifies this
      ensures Valid() && State() == S.Track(old(State()), topic, pid, key, meta)
      ensures tag == S.Tag(replica, clock)
    {
      hide S.Placed, S.Entries, S.NoDuplicates, S.Bucket, S.Slots;
      PushEntries(values, S.Entry(topic, pid, key, meta, S.Tag(replica, clock + 1)));
      clock := clock + 1;
      tag := S.Tag(replica, clock);
      context := context[replica := clock];
      var entry := S.Entry(topic, pid, key, meta, tag);
      values := values[(topic, key) := S.Bucket(values, (topic, key)) + [entry]];
      pidIndex := pidIndex[pid := S.Slots(pidIndex, pid) + [(topic, key)]];
      delta := delta.(joins := delta.joins + [entry]);
      delta := delta.(context := context);
    }

    method Untrack(topic: string, key: string, pid: Pid) returns (removedTags: seq<Tag>)
      requires Valid()
      modifies this
      ensures Valid() && State() == S.Untrack(old(State()), topic, key, pid)
      ensures removedTags == S.UntrackedTags(old(State()), topic, key, pid)
    {
      UntrackEntries(State(), topic, key, pid);
      hide S.Only, S.Without, S.Prune, S.ForgetSlot, S.TagsOf, S.Placed, S.Entries, S.NoDuplicates;
      var slot := (topic, key);
      removedTags := [];
      if slot in values {
        removedTags := S.TagsOf(S.Only(values[slot], S.OfPid(pid)));
        values := values[slot := S.Without(values[slot], S.OfPid(pid))];
      }
      delta := delta.(leaveTags := delta.leaveTags + removedTags);
      values := S.Prune(values);
      UpdateIndex(slot, pid);
      if removedTags != [] {
        delta := delta.(context := context);
      }
    }

    /** The part of `untrack` that keeps the pid index. */
    method UpdateIndex(slot: S.Slot, pid: Pid)
      modifies this`pidIndex
      ensures pidIndex == S.ForgetSlot(old(pidIndex), pid, slot)
    {
      hide S.OtherSlots;
      if pid in pidIndex {
        pidIndex := pidIndex[pid := S.OtherSlots(pidIndex[pid], slot)];
        if pidIndex[pid] == [] {
          pidIndex := pidIndex - {pid};
        }
      }
    }

    method UntrackAll(pid: Pid) returns (removedByTopic: map<string, seq<Entry>>)
      requires Valid()
      modifies this
      ensures Valid() && State() == S.UntrackAll(old(State()), pid)
      ensures removedByTopic == S.ByTopic(S.UntrackedEntries(old(State()), pid))
    {
      hide S.Without, S.Only, S.ByTopic, S.TagsOf, S.SweepSlots, S.SweepSlot, S.Prune;
      removedByTopic := map[];
      ghost var removed: seq<Entry> := [];
      SweepStart(values, pid);
      var slots := S.Slots(pidIndex, pid);
      pidIndex := pidIndex - {pid};
      var n := 0;
      while n < |slots|
        invariant 0 <= n <= |slots|
        invariant unchanged(`replica, `clock, `context, `replicas) && pidIndex == old(pidIndex) - {pid}
        invariant S.Sweep(values, removed) == S.SweepSlots(old(values), slots[..n], pid)
        invariant AtHome(values)
        invariant removedByTopic == S.ByTopic(removed)
        invariant delta == old(delta).(leaveTags := old(delta).leaveTags + S.TagsOf(removed))
      {
        SweepNext(old(values), slots, n, pid);
        SweepOneSlot(S.Sweep(values, removed), slots[n], pid);
        if slots[n] in values {
          ghost var out := S.Only(values[slots[n]], S.OfPid(pid));
          removedByTopic := UntrackSlot(slots[n], pid, removedByTopic, removed);
          TagsJoin(removed, out);
          removed := removed + out;
        }
        n := n + 1;
      }
      assert slots[..n] == slots;
      PruneHome(values);
      values := S.Prune(values);
      ByTopicEmpty(removed);
      if removedByTopic != map[] {
        delta := delta.(context := context);
      }
    }

    /** The inner loop of `untrack_all`: the entries of the process leave one bucket and are recorded. */
    method UntrackSlot(slot: S.Slot, pid: Pid, before: map<string, seq<Entry>>, ghost removed: seq<Entry>)
      returns (removedByTopic: map<string, seq<Entry>>)
      requires AtHome(values) && slot in values && before == S.ByTopic(removed)
      modifies this`values, this`delta
      ensures AtHome(values)
      ensures values == old(values)[slot := S.Without(old(values)[slot], S.OfPid(pid))]
      ensures var out := S.Only(old(values)[slot], S.OfPid(pid));
        && removedByTopic == S.ByTopic(removed + out)
        && delta == old(delta).(leaveTags := old(delta).leaveTags + S.TagsOf(out))
    {
      hide S.Without, S.Only, S.ByTopic, S.TagsOf, AtHome, Halfway;
      SlotHome(values, slot, S.OfPid(pid));
      var entries := values[slot];
      ghost var bucket, out: seq<Entry>, j := entries, [], 0;
      removedByTopic := before;
      assert removed + [] == removed;
      HalfwayStart(bucket, S.OfPid(pid));
      RecordNone();
      var i := 0;
      while i < |entries|
        invariant 0 <= i <= |entries| && 0 <= j && Halfway(bucket, j, entries, i, out, S.OfPid(pid))
        invariant removedByTopic == S.ByTopic(removed + out)
        invariant delta == old(delta).(leaveTags := old(delta).leaveTags + S.TagsOf(out))
        invariant unchanged(`values)
        decreases |entries| - i
      {
        HalfwayStep(bucket, j, entries, i, out, S.OfPid(pid));
        var entry := entries[i];
        if entry.pid == pid {
          entries := entries[..i] + entries[i + 1..];
          delta := delta.(leaveTags := delta.leaveTags + [entry.tag]);
          RecordNext(removed, out, entry);
          var others := if slot.0 in removedByTopic then removedByTopic[slot.0] else [];
          removedByTopic := removedByTopic[slot.0 := others + [entry]];
          out := out + [entry];
        } else {
          i := i + 1;
        }
        j := j + 1;
      }
      HalfwayEnd(bucket, j, entries, i, out, S.OfPid(pid));
      values := values[slot := entries];
    }

    /** The removal loop `merge` and `remove_down_replica` share: every bucket loses the selected entries. */
    method RemoveEverywhere(sel: S.Selector) returns (removed: seq<Entry>)
      requires AtHome(values)
      modifies this`values
      ensures AtHome(values) && values == Strip(old(values), sel)
      ensures S.Enumerates(old(values), sel, removed)
    {
      hide S.Without, S.Only, S.Enumerates, FoundIn;
      removed := [];
      var todo := values.Keys;
      FoundNothing(values, sel);
      assert values.Keys - todo == {};
      while todo != {}
        invariant todo <= values.Keys == old(values).Keys
        invariant AtHome(old(values))
        invariant forall k :: k in values ==>
          values[k] == if k in todo then old(values)[k] else S.Without(old(values)[k], sel)
        invariant FoundIn(old(values), sel, old(values).Keys - todo, removed)
        decreases todo
      {
        var k :| k in todo;
        var entries, out := TakeOut(values[k], sel);
        FoundMore(old(values), sel, old(values).Keys - todo, removed, k);
        assert old(values).Keys - todo + {k} == old(values).Keys - (todo - {k});
        values := values[k := entries];
        removed := removed + out;
        todo := todo - {k};
      }
      assert old(values).Keys - todo == old(values).Keys;
      FoundAll(old(values), sel, removed);
      StripHome(old(values), sel);
      assert values == Strip(old(values), sel);
    }

    method Merge(remote: S.Delta) returns (joined: seq<Entry>, left: seq<Entry>)
      requires Valid()
      modifies this
      ensures Valid() && State() == S.Merge(old(State()), remote)
      ensures joined == S.MergeJoins(old(State()), remote)
      ensures S.Enumerates(old(values), S.WithTag(S.TagSet(remote.leaveTags)), left)
    {
      hide S.Without, S.Only, S.TakeJoins, S.JoinContext, S.Enumerates, S.DropAll, S.Prune, AtHome, S.Placed;
      var originalContext := context;
      left := MergeLeaves(remote.leaveTags);
      PruneStrip(old(values), values, S.WithTag(S.TagSet(remote.leaveTags)));
      values := S.Prune(values);
      joined := MergeTheJoins(originalContext, remote.joins);
      MergeContext(remote.context);
    }

    /** Leaves first: each tag is looked for in every bucket. */
    method MergeLeaves(leaveTags: seq<Tag>) returns (left: seq<Entry>)
      requires Valid()
      modifies this`values
      ensures AtHome(values) && values == Strip(old(values), S.WithTag(S.TagSet(leaveTags)))
      ensures S.Enumerates(old(values), S.WithTag(S.TagSet(leaveTags)), left)
    {
      hide S.Without, S.Only, S.Enumerates, Strip;
      left := [];
      StripNothing(values);
      NoneYet(values);
      assert S.TagSet(leaveTags[..0]) == {};
      var n := 0;
      while n < |leaveTags|
        invariant 0 <= n <= |leaveTags|
        invariant AtHome(values) && values == Strip(old(values), S.WithTag(S.TagSet(leaveTags[..n])))
        invariant S.Enumerates(old(values), S.WithTag(S.TagSet(leaveTags[..n])), left)
      {
        ghost var seen, tag := S.TagSet(leaveTags[..n]), leaveTags[n];
        var out := RemoveEverywhere(S.WithTag({leaveTags[n]}));
        assert S.TagSet(leaveTags[..n + 1]) == seen + {tag};
        StripTwice(old(values), seen, {tag});
        EnumerateMore(old(values), seen, tag, left, out);
        left := left + out;
        n := n + 1;
      }
      assert leaveTags[..n] == leaveTags;
    }

    /** Then joins, judged by the context from before the merge. */
    method MergeTheJoins(originalContext: S.Context, joins: seq<Entry>) returns (joined: seq<Entry>)
      requires Valid()
      modifies this`values, this`pidIndex
      ensures Valid()
      ensures S.Intake(values, pidIndex, joined) ==
              S.TakeJoins(originalContext, S.Intake(old(values), old(pidIndex), []), joins)
    {
      hide S.TakeJoins, S.Placed, S.Entries, S.NoDuplicates;
      joined := [];
      JoinsStep(originalContext, S.Intake(values, pidIndex, []), joins);
      var n := 0;
      while n < |joins|
        invariant 0 <= n <= |joins|
        invariant S.Intake(values, pidIndex, joined) ==
                  S.TakeJoins(originalContext, S.Intake(old(values), old(pidIndex), []), joins[..n])
        invariant Valid()
      {
        var entry := joins[n];
        var dominated := entry.tag.replica in originalContext && entry.tag.clock <= originalContext[entry.tag.replica];
        if !dominated {
          var key := (entry.topic, entry.key);
          var known := key in values && S.HasTag(values[key], entry.tag);
          if !known {
            PushEntries(values, entry);
            values := values[key := S.Bucket(values, key) + [entry]];
            joined := joined + [entry];
            pidIndex := pidIndex[entry.pid := S.Slots(pidIndex, entry.pid) + [key]];
          }
        }
        n := n + 1;
      }
      assert joins[..n] == joins;
    }

    /** Last the context, clock by clock. */
    method MergeContext(remoteContext: S.Context)
      modifies this`context
      ensures context == S.JoinContext(old(context), remoteContext)
    {
      var todo := remoteContext.Keys;
      while todo != {}
        invariant todo <= remoteContext.Keys
        invariant context == S.JoinContext(old(context), remoteContext - todo)
        decreases todo
      {
        var r :| r in todo;
        assert remoteContext - (todo - {r}) == (remoteContext - todo)[r := remoteContext[r]];
        JoinMore(old(context), remoteContext - todo, r, remoteContext[r]);
        if remoteContext[r] > S.At(context, r) {
          context := context[r := remoteContext[r]];
        }
        todo := todo - {r};
      }
      assert remoteContext - todo == remoteContext;
    }

    /** The filtering loop the read-only operations share. */
    method Collect(sel: S.Selector) returns (found: seq<Entry>)
      requires Valid()
      ensures S.Enumerates(values, sel, found)
    {
      hide S.Only, S.Enumerates, FoundIn;
      found := [];
      var todo := values.Keys;
      FoundNothing(values, sel);
      assert values.Keys - todo == {};
      while todo != {}
        invariant todo <= values.Keys
        invariant FoundIn(values, sel, values.Keys - todo, found)
        decreases todo
      {
        var k :| k in todo;
        var _, out := TakeOut(values[k], sel);
        FoundMore(values, sel, values.Keys - todo, found, k);
        assert values.Keys - todo + {k} == values.Keys - (todo - {k});
        found := found + out;
        todo := todo - {k};
      }
      assert values.Keys - todo == values.Keys;
      FoundAll(values, sel, found);
    }

    method Extract(remoteContext: S.Context) returns (d: S.Delta)
      requires Valid()
      ensures S.IsExtract(State(), remoteContext, d)
    {
      var joins := Collect(S.NewerThan(remoteContext));
      d := S.Delta(joins, [], context);
    }

    method ExtractAll() returns (d: S.Delta)
      requires Valid()
      ensures S.IsFullExtract(State(), d)
    {
      var joins := Collect(S.Anything);
      d := S.Delta(joins, [], context);
    }

    method List(topic: string) returns (result: map<string, seq<Entry>>)
      ensures result == S.Listing(State(), topic)
    {
      hide S.Shown, S.Without;
      result := map[];
      ShownNothing(S.DownReplicas(State()), topic);
      ghost var hidden := S.DownReplicas(State());
      var todo := values.Keys;
      assert values - todo == map[];
      while todo != {}
        invariant todo <= values.Keys
        invariant result == S.Shown(values - todo, hidden, topic)
        decreases todo
      {
        var slot :| slot in todo;
        assert values - (todo - {slot}) == (values - todo)[slot := values[slot]];
        ShownMore(values - todo, hidden, topic, slot, values[slot]);
        if slot.0 == topic {
          var down := set r | r in replicas && replicas[r].Down?;
          var online := S.Without(values[slot], S.OfReplicas(down));
          if online != [] {
            result := result[slot.1 := online];
          }
        }
        todo := todo - {slot};
      }
      assert values - todo == values;
    }

    method ReplicaUp(r: S.Replica) returns (shown: seq<Entry>)
      requires Valid()
      modifies this
      ensures Valid() && State() == S.ReplicaUp(old(State()), r)
      ensures if S.IsUp(old(State()), r) then shown == [] else S.Enumerates(values, S.OfReplicas({r}), shown)
    {
      var wasDown := r in replicas && replicas[r].Down?;
      replicas := replicas[r := S.Up];
      shown := [];
      if wasDown {
        shown := Collect(S.OfReplicas({r}));
      }
    }

    method ReplicaDown(r: S.Replica, temporary: bool) returns (hidden: seq<Entry>)
      requires Valid()
      modifies this
      ensures Valid() && State() == S.ReplicaDown(old(State()), r, temporary)
      ensures if S.IsUp(old(State()), r) then S.Enumerates(values, S.OfReplicas({r}), hidden) else hidden == []
    {
      var wasUp := !(r in replicas && replicas[r].Down?);
      replicas := replicas[r := S.Down(temporary)];
      hidden := [];
      if wasUp {
        hidden := Collect(S.OfReplicas({r}));
      }
    }

    method RemoveDownReplica(r: S.Replica) returns (removed: seq<Entry>)
      requires Valid()
      modifies this
      ensures Valid() && State() == S.RemoveDownReplica(old(State()), r)
      ensures S.Enumerates(old(values), S.OfReplicas({r}), removed)
    {
      removed := RemoveEverywhere(S.OfReplicas({r}));
      values := S.Prune(values);
      assert values == S.DropAll(old(values), S.OfReplicas({r}));
      replicas := replicas - {r};
    }

    method TakeDelta() returns (taken: Option<S.Delta>)
      requires Valid()
      modifies this
      ensures Valid() && State() == S.TakeDelta(old(State()))
      ensures taken == if old(delta).IsEmpty() then None else Some(old(delta))
    {
      if delta.IsEmpty() {
        taken := None;
      } else {
        taken := Some(delta);
        delta := S.NO_DELTA;
      }
    }
  }

  /** The in-place removal loop over one bucket. */
  method TakeOut(bucket: seq<Entry>, sel: S.Selector) returns (entries: seq<Entry>, out: seq<Entry>)
    ensures entries == S.Without(bucket, sel) && out == S.Only(bucket, sel)
  {
    hide S.Without, S.Only, Halfway;
    entries, out := bucket, [];
    var i := 0;
    ghost var j := 0;
    HalfwayStart(bucket, sel);
    while i < |entries|
      invariant 0 <= i <= |entries| && 0 <= j && Halfway(bucket, j, entries, i, out, sel)
      decreases |entries| - i
    {
      HalfwayStep(bucket, j, entries, i, out, sel);
      if sel.Hits(entries[i]) {
        out := out + [entries[i]];
        entries := entries[..i] + entries[i + 1..];
      } else {
        i := i + 1;
      }
      j := j + 1;
    }
    HalfwayEnd(bucket, j, entries, i, out, sel);
  }

  /** The removal loop has looked at the first `j` entries of the bucket: `entries[..i]` are those that stay, `out`
      those taken out, `entries[i..]` the unseen ones. */
  ghost predicate Halfway(bucket: seq<Entry>, j: nat, entries: seq<Entry>, i: nat, out: seq<Entry>, sel: S.Selector) {
    && j <= |bucket| && i <= |entries|
    && entries[..i] == S.Without(bucket[..j], sel) && entries[i..] == bucket[j..]
    && out == S.Only(bucket[..j], sel)
  }

  lemma HalfwayStart(bucket: seq<Entry>, sel: S.Selector)
    ensures Halfway(bucket, 0, bucket, 0, [], sel)
  {}

  lemma HalfwayStep(bucket: seq<Entry>, j: nat, entries: seq<Entry>, i: nat, out: seq<Entry>, sel: S.Selector)
    requires Halfway(bucket, j, entries, i, out, sel) && i < |entries|
    ensures j < |bucket| && entries[i] == bucket[j]
    ensures if sel.Hits(entries[i])
            then Halfway(bucket, j + 1, entries[..i] + entries[i + 1..], i, out + [entries[i]], sel)
            else Halfway(bucket, j + 1, entries, i + 1, out, sel)
  {
    hide S.Without, S.Only;
    assert bucket[..j + 1] == bucket[..j] + [bucket[j]];
    WithoutSnoc(bucket[..j], bucket[j], sel);
    Unseen(bucket, j, entries, i);
  }

  lemma Unseen(bucket: seq<Entry>, j: nat, entries: seq<Entry>, i: nat)
    requires j < |bucket| && i < |entries| && entries[i..] == bucket[j..]
    ensures entries[i] == bucket[j] && entries[i + 1..] == bucket[j + 1..]
    ensures entries[..i + 1] == entries[..i] + [entries[i]]
    ensures var rest := entries[..i] + entries[i + 1..]; rest[..i] == entries[..i] && rest[i..] == entries[i + 1..]
  {
    assert entries[i] == entries[i..][0] == bucket[j];
    assert entries[i + 1..] == entries[i..][1..] == bucket[j..][1..];
  }

  lemma HalfwayEnd(bucket: seq<Entry>, j: nat, entries: seq<Entry>, i: nat, out: seq<Entry>, sel: S.Selector)
    requires Halfway(bucket, j, entries, i, out, sel) && i == |entries|
    ensures entries == S.Without(bucket, sel) && out == S.Only(bucket, sel)
  {
    hide S.Without, S.Only;
    assert |bucket[j..]| == 0 && bucket[..j] == bucket && entries[..i] == entries;
  }

  /** Removing the entries of one more tag from what the earlier tags left over. */
  lemma EnumerateMore(values: S.Values, seen: set<Tag>, tag: Tag, left: seq<Entry>, out: seq<Entry>)
    requires S.Enumerates(values, S.WithTag(seen), left)
    requires S.Enumerates(Strip(values, S.WithTag(seen)), S.WithTag({tag}), out)
    ensures S.Enumerates(values, S.WithTag(seen + {tag}), left + out)
  {
    hide S.Only, S.Without;
    forall e
      ensures multiset(left + out)[e] == multiset(S.Only(S.Bucket(values, e.Slot()), S.WithTag(seen + {tag})))[e]
    {
      OneTagMore(S.Bucket(values, e.Slot()), seen, tag, e);
      BucketStripped(values, S.WithTag(seen), e.Slot());
    }
  }

  lemma BucketStripped(values: S.Values, sel: S.Selector, slot: S.Slot)
    ensures S.Bucket(Strip(values, sel), slot) == S.Without(S.Bucket(values, slot), sel)
  {}

  lemma OneTagMore(b: seq<Entry>, seen: set<Tag>, tag: Tag, e: Entry)
    ensures var rest := S.Without(b, S.WithTag(seen));
      multiset(S.Only(b, S.WithTag(seen)))[e] + multiset(S.Only(rest, S.WithTag({tag})))[e]
        == multiset(S.Only(b, S.WithTag(seen + {tag})))[e]
  {
    hide S.Only, S.Without;
    var rest := S.Without(b, S.WithTag(seen));
    WithoutTwice(b, seen, {tag});
    SplitAt(b, S.WithTag(seen), e);
    SplitAt(rest, S.WithTag({tag}), e);
    SplitAt(b, S.WithTag(seen + {tag}), e);
  }

  lemma SplitAt(b: seq<Entry>, sel: S.Selector, e: Entry)
    ensures multiset(b)[e] == multiset(S.Without(b, sel))[e] + multiset(S.Only(b, sel))[e]
  {
    hide S.Only, S.Without;
    SplitBucket(b, sel);
  }

  lemma NoneYet(values: S.Values)
    ensures S.Enumerates(values, S.WithTag({}), [])
  {
    forall e: Entry ensures S.Only(S.Bucket(values, e.Slot()), S.WithTag({})) == [] {
      WithoutNothing(S.Bucket(values, e.Slot()), S.WithTag({}));
    }
  }

  lemma PruneStrip(before: S.Values, values: S.Values, sel: S.Selector)
    requires AtHome(values) && values == Strip(before, sel)
    ensures S.Prune(values) == S.DropAll(before, sel) && S.Placed(S.Prune(values))
  {}

  lemma PruneHome(values: S.Values)
    requires AtHome(values)
    ensures S.Placed(S.Prune(values))
  {}

  lemma SweepStart(values: S.Values, pid: Pid)
    ensures S.SweepSlots(values, [], pid) == S.Sweep(values, [])
    ensures S.ByTopic([]) == map[] && S.TagsOf([]) == []
  {}

  lemma SweepNext(values: S.Values, slots: seq<S.Slot>, n: nat, pid: Pid)
    requires n < |slots|
    ensures S.SweepSlots(values, slots[..n + 1], pid) ==
      S.SweepSlot(S.SweepSlots(values, slots[..n], pid), slots[n], pid)
  {
    assert slots[..n + 1][..n] == slots[..n];
  }

  lemma SweepOneSlot(sw: S.Sweep, slot: S.Slot, pid: Pid)
    ensures S.SweepSlot(sw, slot, pid) ==
      if slot in sw.values then
        S.Sweep(sw.values[slot := S.Without(sw.values[slot], S.OfPid(pid))],
                sw.removed + S.Only(sw.values[slot], S.OfPid(pid)))
      else sw
  {}

  lemma TagsJoin(a: seq<Entry>, b: seq<Entry>)
    ensures S.TagsOf(a + b) == S.TagsOf(a) + S.TagsOf(b)
  {}

  lemma SlotHome(values: S.Values, slot: S.Slot, sel: S.Selector)
    requires AtHome(values) && slot in values
    ensures AtHome(values[slot := S.Without(values[slot], sel)])
    ensures forall i :: 0 <= i < |values[slot]| ==> values[slot][i].topic == slot.0
  {
    forall i | 0 <= i < |values[slot]| ensures values[slot][i].topic == slot.0 {
      assert values[slot][i] in values[slot];
    }
  }

  lemma RecordNone()
    ensures S.TagsOf([]) == []
  {}

  lemma RecordOne(es: seq<Entry>, e: Entry)
    ensures S.TagsOf(es + [e]) == S.TagsOf(es) + [e.tag]
    ensures S.ByTopic(es + [e]) ==
      S.ByTopic(es)[e.topic := (if e.topic in S.ByTopic(es) then S.ByTopic(es)[e.topic] else []) + [e]]
  {}

  lemma RecordNext(removed: seq<Entry>, out: seq<Entry>, e: Entry)
    ensures S.TagsOf(out + [e]) == S.TagsOf(out) + [e.tag]
    ensures var m := S.ByTopic(removed + out);
      S.ByTopic(removed + (out + [e])) == m[e.topic := (if e.topic in m then m[e.topic] else []) + [e]]
  {
    hide S.TagsOf, S.ByTopic;
    RecordOne(out, e);
    RecordOne(removed + out, e);
    assert removed + (out + [e]) == removed + out + [e];
  }

  lemma JoinsStep(ctx: S.Context, into: S.Intake, joins: seq<Entry>)
    ensures S.TakeJoins(ctx, into, joins[..0]) == into
    ensures forall n :: 0 <= n < |joins| ==>
      S.TakeJoins(ctx, into, joins[..n + 1]) == S.TakeJoin(ctx, S.TakeJoins(ctx, into, joins[..n]), joins[n])
  {
    forall n | 0 <= n < |joins|
      ensures S.TakeJoins(ctx, into, joins[..n + 1]) == S.TakeJoin(ctx, S.TakeJoins(ctx, into, joins[..n]), joins[n])
    {
      assert joins[..n + 1][..n] == joins[..n];
    }
  }

  lemma ByTopicEmpty(es: seq<Entry>)
    ensures S.ByTopic(es) == map[] <==> es == []
  {}
}
