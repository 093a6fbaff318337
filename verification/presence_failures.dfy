/** Runs of presence replicas that reach the failing side of each exact condition: a delta with a join and a leave of
    one tag, an overtaken delta, extracts that disagree, and replicas that an exchange of extracts leaves apart. */
module PresenceFailures {
  import opened Pids
  import opened PresenceState
  import opened PresenceInvariant
  import opened PresenceAlgebra
  import C = PresenceConvergence
  import N = PresenceAntiEntropy

  const P := Pid("a", 1, 0)

  /** What replica "a" tracks first, and second. */
  const FIRST := Entry("room", P, "user", [], Tag("a", 1))
  const SECOND := Entry("room", P, "user", [], Tag("a", 2))

  function Tracked(): State {
    Track(Fresh("a"), "room", P, "user", [])
  }

  function Untracked(): State {
    Untrack(Tracked(), "room", "user", P)
  }

  lemma TrackedHolds()
    ensures Inv(Tracked()) && Entries(Tracked().values) == {FIRST} && Tracked().clock == 1
    ensures Tracked().delta == Delta([FIRST], [], map["a" := 1]) && Tracked().context == map["a" := 1]
    ensures Tracked().replica == "a" && Tracked().values == map[("room", "user") := [FIRST]]
  {
    FirstTracked("a", "room", P, "user", []);
    FreshInv("a");
    hide Track, Entries, Inv, Fresh;
    assert Fresh("a").clock == 0 && Fresh("a").replica == "a" by { FreshFields("a"); }
    TrackEntries(Fresh("a"), "room", P, "user", []);
  }

  lemma FreshFields(r: Replica)
    ensures Fresh(r).clock == 0 && Fresh(r).replica == r
  {}

  lemma UntrackedHolds()
    ensures Inv(Untracked()) && Entries(Untracked().values) == {} && Untracked().context == map["a" := 1]
    ensures Untracked().delta == Delta([FIRST], [Tag("a", 1)], map["a" := 1])
    ensures Untracked().values == map[] && Untracked().replica == "a" && Untracked().clock == 1
  {
    TrackedHolds();
    hide Tracked, Untrack, Entries, Inv;
    ThenUntracked(Tracked(), FIRST);
    UntrackInv(Tracked(), "room", "user", P);
    NothingHeld();
  }

  lemma NothingHeld()
    ensures Entries(map[]) == {}
  {}

  lemma OneEntry(e: Entry, sel: Selector)
    ensures Only([e], sel) == (if sel.Hits(e) then [e] else [])
    ensures Without([e], sel) == (if sel.Hits(e) then [] else [e])
    ensures TagsOf([e]) == [e.tag] && Only([], sel) == []
  {
    NoEntry(sel);
    hide Without, Only;
    WithoutSnoc([], e, sel);
    assert [] + [e] == [e];
  }

  lemma NoEntry(sel: Selector)
    ensures Only([], sel) == [] && Without([], sel) == []
  {}

  lemma FirstTracked(r: Replica, topic: string, pid: Pid, key: string, meta: seq<int>)
    ensures var s := Track(Fresh(r), topic, pid, key, meta);
      var e := Entry(topic, pid, key, meta, Tag(r, 1));
      && s.values == map[(topic, key) := [e]] && s.pidIndex == map[pid := [(topic, key)]]
      && s.delta == Delta([e], [], map[r := 1]) && s.context == map[r := 1] && s.replica == r && s.clock == 1
  {
    var e := Entry(topic, pid, key, meta, Tag(r, 1));
    assert map[r := 0][r := 1] == map[r := 1];
    assert [] + [e] == [e] && [] + [(topic, key)] == [(topic, key)];
  }

  /** Whatever is tracked and untracked again, the pending delta still joins it, and tells it to leave. */
  lemma ThenUntracked(s: State, e: Entry)
    requires s.values == map[e.Slot() := [e]]
    ensures var u := Untrack(s, e.topic, e.key, e.pid);
      && u.values == map[] && u.context == s.context && u.replica == s.replica && u.clock == s.clock
      && u.delta == Delta(s.delta.joins, s.delta.leaveTags + [e.tag], s.context)
  {
    OneEntry(e, OfPid(e.pid));
    hide Only, Without, TagsOf, ForgetSlot;
    assert s.values[e.Slot() := []] == map[e.Slot() := []];
    PrunedAway(e.Slot());
  }

  lemma PrunedAway(slot: Slot)
    ensures Prune(map[slot := []]) == map[]
  {}

  // ---------- broadcasts ----------

  const TRACK := C.DoTrack("a", "room", P, "user", [])
  const UNTRACK := C.DoUntrack("a", "room", "user", P)

  /** Replica "a" after its first track, with "b" beside it. */
  lemma FirstTrack() returns (cs: seq<C.Cluster>)
    ensures C.IsRun({"a", "b"}, cs, [TRACK]) && |cs| == 2
    ensures cs[1].nodes == map["a" := Tracked(), "b" := Fresh("b")]
    ensures cs[1].logs == map["a" := [], "b" := []] && cs[1].seen == map["a" := map[], "b" := map[]]
  {
    hide Fresh, Track, C.IsRun;
    StartAB();
    cs := [C.Start({"a", "b"})];
    C.ExtendRun({"a", "b"}, cs, [], TRACK);
    assert [] + [TRACK] == [TRACK];
    hide C.Start;
    cs := cs + [C.Exec(cs[0], TRACK)];
  }

  lemma StartAB()
    ensures C.IsRun({"a", "b"}, [C.Start({"a", "b"})], [])
    ensures var c := C.Start({"a", "b"});
      c.nodes == map["a" := Fresh("a"), "b" := Fresh("b")] && c.logs == map["a" := [], "b" := []]
      && c.seen == map["a" := map[], "b" := map[]]
  {
    hide Fresh;
    C.StartRun({"a", "b"});
    hide C.IsRun;
  }

  /** Tracking and untracking before the pending delta is sent: the sender holds nothing, the peer that merges the delta
      holds the entry, and merging the delta again changes the peer again. */
  lemma UncleanRun() returns (cs: seq<C.Cluster>, steps: seq<C.Step>)
    ensures C.IsRun({"a", "b"}, cs, steps) && |steps| == 2 && |cs| == 3
    ensures "a" in cs[2].nodes && "b" in cs[2].nodes && Entries(cs[2].nodes["a"].values) == {}
    ensures !C.Clean(cs[2].nodes["a"].delta)
    ensures FIRST in Entries(Merge(cs[2].nodes["b"], cs[2].nodes["a"].delta).values)
    ensures var once := Merge(cs[2].nodes["b"], cs[2].nodes["a"].delta); Merge(once, cs[2].nodes["a"].delta) != once
  {
    cs := FirstTrack();
    UntrackedHolds();
    UncleanMerge();
    hide Fresh, Tracked, Merge, Entries, C.IsRun;
    assert cs[1].nodes["a"] == Tracked();
    C.ExtendRun({"a", "b"}, cs, [TRACK], UNTRACK);
    cs, steps := cs + [C.Exec(cs[1], UNTRACK)], [TRACK] + [UNTRACK];
    assert cs[2].nodes["a"] == Untracked() && cs[2].nodes["b"] == Fresh("b");
  }

  lemma UncleanMerge()
    ensures !C.Clean(Untracked().delta)
    ensures FIRST in Entries(Merge(Fresh("b"), Untracked().delta).values)
    ensures var once := Merge(Fresh("b"), Untracked().delta); Merge(once, Untracked().delta) != once
  {
    UntrackedHolds();
    hide Untracked, Merge, Entries;
    var d, peer := Untracked().delta, Fresh("b");
    FreshInv("b");
    assert FIRST in d.joins && FIRST.tag in d.leaveTags;
    assert Acceptable(peer, d);
    MergeOutcome(peer, d);
    MergeIdempotentIff(peer, d);
  }

  lemma SendFirst() returns (cs: seq<C.Cluster>, steps: seq<C.Step>)
    ensures C.IsRun({"a", "b"}, cs, steps) && |steps| == 2 && |cs| == 3
    ensures cs[2].nodes.Keys == {"a", "b"} && cs[2].nodes["a"].delta == NO_DELTA
    ensures cs[2].seen.Keys == {"a", "b"} && cs[2].seen["b"] == map[]
    ensures cs[2].logs == map["a" := [C.Parcel(Tracked().delta, map[])], "b" := []]
  {
    cs := FirstTrack();
    TrackedHolds();
    hide C.IsRun, Tracked, Fresh;
    C.ExtendRun({"a", "b"}, cs, [TRACK], C.Broadcast("a"));
    cs, steps := cs + [C.Exec(cs[1], C.Broadcast("a"))], [TRACK] + [C.Broadcast("a")];
    assert [] + [C.Parcel(Tracked().delta, map[])] == [C.Parcel(Tracked().delta, map[])];
  }

  lemma SendSecond() returns (cs: seq<C.Cluster>, steps: seq<C.Step>)
    ensures C.IsRun({"a", "b"}, cs, steps) && |steps| == 4 && |cs| == 5
    ensures "b" in cs[4].nodes && "b" in cs[4].seen && cs[4].seen["b"] == map[]
    ensures |C.LogOf(cs[4].logs, "a")| == 2 && C.LogOf(cs[4].logs, "a")[0] == C.Parcel(Tracked().delta, map[])
  {
    cs, steps := SendFirst();
    hide C.IsRun, Tracked, Fresh;
    C.ExtendRun({"a", "b"}, cs, steps, TRACK);
    cs, steps := cs + [C.Exec(cs[2], TRACK)], steps + [TRACK];
    C.ExtendRun({"a", "b"}, cs, steps, C.Broadcast("a"));
    cs, steps := cs + [C.Exec(cs[3], C.Broadcast("a"))], steps + [C.Broadcast("a")];
  }

  /** Two deltas sent one after the other and merged the other way round: the join of the first is lost. */
  lemma OvertakenRun() returns (cs: seq<C.Cluster>, steps: seq<C.Step>)
    ensures C.IsRun({"a", "b"}, cs, steps) && |steps| == 4 && |cs| == 5
    ensures "b" in cs[4].nodes && |C.LogOf(cs[4].logs, "a")| == 2
    ensures var log, b := C.LogOf(cs[4].logs, "a"), cs[4].nodes["b"];
      (FIRST in log[0].delta.joins && FIRST !in Entries(Merge(Merge(b, log[1].delta), log[0].delta).values))
  {
    cs, steps := SendSecond();
    TrackedHolds();
    hide C.IsRun, Merge, Entries, Tracked;
    C.OvertakenInRunIff({"a", "b"}, cs, steps, 4, "b", "a", 1, "a", 0, FIRST);
  }

  /** No replica sends a delta that does not cover its joins; merged all the same, told to leave and merged again, the
      join of such a delta is back. */
  lemma UncoveredJoinReturns()
    ensures var d := Delta([FIRST], [], map[]);
      FIRST in Entries(Merge(Merge(Merge(Fresh("b"), d), Delta([], [FIRST.tag], map[])), d).values)
  {
    FreshInv("b");
    hide Merge, Entries, Inv;
    N.UncoveredJoinReturnsIff(Fresh("b"), FIRST, map[]);
  }

  // ---------- extracts ----------

  const BEFORE := Delta([FIRST], [], map["a" := 1])
  const AFTER := Delta([], [], map["a" := 1])

  lemma ExtractsMade()
    ensures IsFullExtract(Tracked(), BEFORE) && IsFullExtract(Untracked(), AFTER)
  {
    TrackedHolds();
    UntrackedHolds();
    AllOfFirst();
    hide Tracked, Untracked, Only;
    forall e: Entry ensures multiset([FIRST])[e] == multiset(Only(Bucket(Tracked().values, e.Slot()), Anything))[e] {
      if e.Slot() != ("room", "user") { assert e != FIRST; }
    }
  }

  lemma AllOfFirst()
    ensures Only([], Anything) == [] && Only([FIRST], Anything) == [FIRST]
  {
    hide Only, Without, TagsOf;
    NoEntry(Anything);
    OneEntry(FIRST, Anything);
  }

  const TRACK_IT := N.DoTrack("a", "room", P, "user", [])
  const UNTRACK_IT := N.DoUntrack("a", "room", "user", P)

  lemma TrackedAlone() returns (cs: seq<N.Net>)
    ensures N.IsRun({"a", "b", "c"}, cs, [TRACK_IT]) && |cs| == 2
    ensures cs[1].nodes == map["a" := Tracked(), "b" := Fresh("b"), "c" := Fresh("c")] && cs[1].letters == []
  {
    hide Fresh, Track, N.IsRun;
    N.StartRun({"a", "b", "c"});
    cs := [N.Start({"a", "b", "c"})];
    N.ExtendRun({"a", "b", "c"}, cs, [], TRACK_IT);
    assert [] + [TRACK_IT] == [TRACK_IT];
    cs := cs + [N.Exec(cs[0], TRACK_IT)];
  }

  /** The entry reaches "b" in an extract, and another copy is on its way to "c". */
  lemma EntrySent() returns (cs: seq<N.Net>, steps: seq<N.Step>)
    ensures N.IsRun({"a", "b", "c"}, cs, steps) && |steps| == 4 && |cs| == 5
    ensures cs[4].nodes == map["a" := Tracked(), "b" := Merge(Fresh("b"), BEFORE), "c" := Fresh("c")]
    ensures cs[4].letters == [N.Letter("b", map[], BEFORE), N.Letter("c", map[], BEFORE)]
  {
    cs := TrackedAlone();
    ExtractsMade();
    hide Fresh, Untracked, Merge, IsExtract, IsFullExtract, N.IsRun, Tracked;
    steps := [TRACK_IT];
    var all, toB, toC := {"a", "b", "c"}, N.Letter("b", map[], BEFORE), N.Letter("c", map[], BEFORE);
    N.ExtendRun(all, cs, steps, N.Extract("a", toB));
    cs, steps := cs + [N.Exec(cs[1], N.Extract("a", toB))], steps + [N.Extract("a", toB)];
    N.ExtendRun(all, cs, steps, N.Receive(0));
    cs, steps := cs + [N.Exec(cs[2], N.Receive(0))], steps + [N.Receive(0)];
    N.ExtendRun(all, cs, steps, N.Extract("a", toC));
    cs, steps := cs + [N.Exec(cs[3], N.Extract("a", toC))], steps + [N.Extract("a", toC)];
  }

  /** One extract made before an untrack and one after it: a replica that merges both ends with the entry or without it,
      depending on the order, and the replica that got the first one is not reconciled with the sender by exchanging
      extracts. */
  lemma DisagreeingRun() returns (cs: seq<N.Net>, steps: seq<N.Step>)
    ensures N.IsRun({"a", "b", "c"}, cs, steps) && |steps| == 6 && |cs| == 7
    ensures cs[6].nodes.Keys == {"a", "b", "c"} && !KeptBy(cs[6].nodes["b"], cs[6].nodes["a"])
    ensures cs[6].letters ==
      [N.Letter("b", map[], BEFORE), N.Letter("c", map[], BEFORE), N.Letter("c", map[], AFTER)]
    ensures var c := cs[6].nodes["c"];
      !Agree(c, BEFORE, AFTER)
      && Entries(Merge(Merge(c, BEFORE), AFTER).values) != Entries(Merge(Merge(c, AFTER), BEFORE).values)
  {
    cs, steps := BothExtractsSent();
    DisagreeingMerges();
    hide Fresh, Untracked, Merge, Entries, Agree, KeptBy, N.IsRun;
  }

  lemma SecondExtract(net: N.Net)
    requires net.nodes == map["a" := Untracked(), "b" := Merge(Fresh("b"), BEFORE), "c" := Fresh("c")]
    ensures var st := N.Extract("a", N.Letter("c", map[], AFTER));
      && N.Enabled(net, st) && N.Exec(net, st).nodes == net.nodes
      && N.Exec(net, st).letters == net.letters + [N.Letter("c", map[], AFTER)]
  {
    ExtractsMade();
    hide Untracked, Merge, Fresh, IsExtract, IsFullExtract;
  }

  lemma UntrackThere(net: N.Net)
    requires net.nodes == map["a" := Tracked(), "b" := Merge(Fresh("b"), BEFORE), "c" := Fresh("c")]
    ensures N.Enabled(net, UNTRACK_IT) && N.Exec(net, UNTRACK_IT).letters == net.letters
    ensures N.Exec(net, UNTRACK_IT).nodes ==
      map["a" := Untracked(), "b" := Merge(Fresh("b"), BEFORE), "c" := Fresh("c")]
  {
    hide Tracked, Untrack, Merge, Fresh;
  }

  lemma BothExtractsSent() returns (cs: seq<N.Net>, steps: seq<N.Step>)
    ensures N.IsRun({"a", "b", "c"}, cs, steps) && |steps| == 6 && |cs| == 7
    ensures cs[6].nodes == map["a" := Untracked(), "b" := Merge(Fresh("b"), BEFORE), "c" := Fresh("c")]
    ensures cs[6].letters ==
      [N.Letter("b", map[], BEFORE), N.Letter("c", map[], BEFORE), N.Letter("c", map[], AFTER)]
  {
    hide Fresh, Tracked, Untracked, Merge, N.IsRun, N.Enabled, N.Exec;
    cs, steps := EntrySent();
    var all, send := {"a", "b", "c"}, N.Extract("a", N.Letter("c", map[], AFTER));
    UntrackThere(cs[4]);
    N.ExtendRun(all, cs, steps, UNTRACK_IT);
    cs, steps := cs + [N.Exec(cs[4], UNTRACK_IT)], steps + [UNTRACK_IT];
    SecondExtract(cs[5]);
    N.ExtendRun(all, cs, steps, send);
    cs, steps := cs + [N.Exec(cs[5], send)], steps + [send];
  }

  lemma DisagreeingMerges()
    ensures !Agree(Fresh("c"), BEFORE, AFTER)
    ensures var c := Fresh("c");
      Entries(Merge(Merge(c, BEFORE), AFTER).values) != Entries(Merge(Merge(c, AFTER), BEFORE).values)
    ensures !KeptBy(Merge(Fresh("b"), BEFORE), Untracked())
  {
    UntrackedHolds();
    FreshInv("c");
    FreshInv("b");
    hide Untracked, Merge, Entries;
    assert FIRST in BEFORE.joins && Covers(AFTER.context, FIRST.tag) && !Dominated(Fresh("c").context, FIRST.tag);
    assert Acceptable(Fresh("c"), BEFORE) && Acceptable(Fresh("c"), AFTER) && Acceptable(Fresh("b"), BEFORE);
    MergeCommutesIff(Fresh("c"), BEFORE, AFTER);
    MergeOutcome(Fresh("b"), BEFORE);
    assert FIRST in Entries(Merge(Fresh("b"), BEFORE).values);
  }
}
