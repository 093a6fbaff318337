/** The state of one presence replica and the functions its operations compute.

    The state is an observed-remove set without tombstones: entries carry a tag
    (replica, clock), and the causal context says which tags a replica has already seen. */
module PresenceState {
  import opened Pids
  import opened Sequences

  type Replica = string
  type Context = map<Replica, nat>
  type Slot = (string, string)

  datatype Tag = Tag(replica: Replica, clock: nat)
  datatype Entry = Entry(topic: string, pid: Pid, key: string, meta: seq<int>, tag: Tag)
  {
    function Slot(): Slot { (topic, key) }
  }
  type Values = map<Slot, seq<Entry>>
  type PidIndex = map<Pid, seq<Slot>>

  datatype Status = Up | Down(temporary: bool)
  datatype Delta = Delta(joins: seq<Entry>, leaveTags: seq<Tag>, context: Context)
  {
    predicate IsEmpty() { joins == [] && leaveTags == [] }
  }
  const NO_DELTA := Delta([], [], map[])

  datatype State = State(
    replica: Replica, clock: nat, context: Context, values: Values, pidIndex: PidIndex,
    replicas: map<Replica, Status>, delta: Delta)

  function Fresh(replica: Replica): State {
    State(replica, 0, map[replica := 0], map[], map[], map[], NO_DELTA)
  }

  // ---------- contexts ----------

  /** The clock a context records for a replica; an absent replica counts as 0. */
  function At(ctx: Context, r: Replica): nat {
    if r in ctx then ctx[r] else 0
  }

  /** The test `merge` applies to a join. */
  predicate Dominated(ctx: Context, t: Tag) {
    t.replica in ctx && t.clock <= ctx[t.replica]
  }

  /** The tag has been seen by anyone holding this context. */
  predicate Covers(ctx: Context, t: Tag) {
    t.clock <= At(ctx, t.replica)
  }

  ghost predicate ContextLeq(a: Context, b: Context) {
    forall r :: At(a, r) <= At(b, r)
  }

  /** The context after adopting every larger clock of `b`. */
  function JoinContext(a: Context, b: Context): (c: Context)
    ensures forall r :: At(c, r) == if At(a, r) < At(b, r) then At(b, r) else At(a, r)
    ensures ContextLeq(a, c) && ContextLeq(b, c)
  {
    map r | r in a.Keys + b.Keys && (r in a || b[r] > 0) ::
      if At(a, r) < At(b, r) then At(b, r) else At(a, r)
  }

  // ---------- selecting entries ----------

  /** Which entries an operation picks: those of a process, those with one of some tags, those of
      some replicas, those a context has not seen, or all. */
  datatype Selector = OfPid(pid: Pid) | WithTag(tags: set<Tag>) | OfReplicas(replicas: set<Replica>)
                    | NewerThan(context: Context) | Anything
  {
    predicate Hits(e: Entry) {
      match this
      case OfPid(p) => e.pid == p
      case WithTag(tags) => e.tag in tags
      case OfReplicas(rs) => e.tag.replica in rs
      case NewerThan(ctx) => e.tag.clock > At(ctx, e.tag.replica)
      case Anything => true
    }
  }

  /** The entries of a bucket the selector leaves in place, in order. */
  function Without(s: seq<Entry>, sel: Selector): (r: seq<Entry>)
    ensures forall e :: e in r <==> e in s && !sel.Hits(e)
    ensures |r| <= |s|
    ensures NoDup(s) ==> NoDup(r)
  {
    if s == [] then [] else
      var r := Without(s[..|s| - 1], sel);
      var e := s[|s| - 1];
      assert s == s[..|s| - 1] + [e];
      if sel.Hits(e) then r else r + [e]
  }

  /** The entries of a bucket the selector takes out, in order. */
  function Only(s: seq<Entry>, sel: Selector): (r: seq<Entry>)
    ensures forall e :: e in r <==> e in s && sel.Hits(e)
    ensures |r| <= |s|
    ensures NoDup(s) ==> NoDup(r)
  {
    if s == [] then [] else
      var r := Only(s[..|s| - 1], sel);
      var e := s[|s| - 1];
      assert s == s[..|s| - 1] + [e];
      if sel.Hits(e) then r + [e] else r
  }

  function TagsOf(s: seq<Entry>): (r: seq<Tag>)
    ensures |r| == |s|
    ensures forall i :: 0 <= i < |s| ==> r[i] == s[i].tag
    ensures forall t :: t in r <==> exists e :: e in s && e.tag == t
  {
    var r := seq(|s|, i requires 0 <= i < |s| => s[i].tag);
    assert forall i :: 0 <= i < |s| ==> r[i] in r && s[i] in s;
    r
  }

  function Bucket(values: Values, slot: Slot): seq<Entry> {
    if slot in values then values[slot] else []
  }

  function Prune(values: Values): Values {
    map k | k in values && values[k] != [] :: values[k]
  }

  /** Every bucket without the selected entries, emptied buckets gone. */
  function DropAll(values: Values, sel: Selector): Values {
    map k | k in values && Without(values[k], sel) != [] :: Without(values[k], sel)
  }

  function Slots(pidIndex: PidIndex, pid: Pid): seq<Slot> {
    if pid in pidIndex then pidIndex[pid] else []
  }

  // ---------- the operations ----------

  function Track(s: State, topic: string, pid: Pid, key: string, meta: seq<int>): State {
    var e := Entry(topic, pid, key, meta, Tag(s.replica, s.clock + 1));
    var context := s.context[s.replica := s.clock + 1];
    s.(clock := s.clock + 1,
       context := context,
       values := s.values[e.Slot() := Bucket(s.values, e.Slot()) + [e]],
       pidIndex := s.pidIndex[pid := Slots(s.pidIndex, pid) + [e.Slot()]],
       delta := Delta(s.delta.joins + [e], s.delta.leaveTags, context))
  }

  function OtherSlots(slots: seq<Slot>, slot: Slot): (r: seq<Slot>)
    ensures forall k :: k in r <==> k in slots && k != slot
  {
    if slots == [] then [] else
      var r := OtherSlots(slots[..|slots| - 1], slot);
      assert slots == slots[..|slots| - 1] + [slots[|slots| - 1]];
      if slots[|slots| - 1] == slot then r else r + [slots[|slots| - 1]]
  }

  function ForgetSlot(pidIndex: PidIndex, pid: Pid, slot: Slot): PidIndex {
    if pid !in pidIndex then pidIndex
    else if OtherSlots(pidIndex[pid], slot) == [] then pidIndex - {pid}
    else pidIndex[pid := OtherSlots(pidIndex[pid], slot)]
  }

  /** The tags `untrack` removes. */
  function UntrackedTags(s: State, topic: string, key: string, pid: Pid): seq<Tag> {
    TagsOf(Only(Bucket(s.values, (topic, key)), OfPid(pid)))
  }

  function Untrack(s: State, topic: string, key: string, pid: Pid): State {
    var slot := (topic, key);
    var tags := UntrackedTags(s, topic, key, pid);
    s.(values := Prune(if slot in s.values then s.values[slot := Without(s.values[slot], OfPid(pid))] else s.values),
       pidIndex := ForgetSlot(s.pidIndex, pid, slot),
       delta := s.delta.(leaveTags := s.delta.leaveTags + tags,
                         context := if tags != [] then s.context else s.delta.context))
  }

  /** `untrack_all` visits the slots listed for a process one after the other; a slot may be
      listed twice or no longer hold anything of the process. */
  datatype Sweep = Sweep(values: Values, removed: seq<Entry>)

  function SweepSlots(values: Values, slots: seq<Slot>, pid: Pid): Sweep {
    if slots == [] then Sweep(values, []) else
      var before := SweepSlots(values, slots[..|slots| - 1], pid);
      SweepSlot(before, slots[|slots| - 1], pid)
  }

  function SweepSlot(sw: Sweep, slot: Slot, pid: Pid): Sweep {
    if slot in sw.values then
      Sweep(sw.values[slot := Without(sw.values[slot], OfPid(pid))],
            sw.removed + Only(sw.values[slot], OfPid(pid)))
    else sw
  }

  /** The entries `untrack_all` removes. */
  function UntrackedEntries(s: State, pid: Pid): seq<Entry> {
    SweepSlots(s.values, Slots(s.pidIndex, pid), pid).removed
  }

  function UntrackAll(s: State, pid: Pid): State {
    var sw := SweepSlots(s.values, Slots(s.pidIndex, pid), pid);
    s.(values := Prune(sw.values),
       pidIndex := s.pidIndex - {pid},
       delta := s.delta.(leaveTags := s.delta.leaveTags + TagsOf(sw.removed),
                         context := if sw.removed != [] then s.context else s.delta.context))
  }

  /** The part of a state that incoming joins extend. */
  datatype Intake = Intake(values: Values, pidIndex: PidIndex, accepted: seq<Entry>)

  predicate HasTag(s: seq<Entry>, t: Tag) {
    exists i :: 0 <= i < |s| && s[i].tag == t
  }

  function TakeJoin(ctx: Context, into: Intake, e: Entry): Intake {
    if Dominated(ctx, e.tag) || HasTag(Bucket(into.values, e.Slot()), e.tag) then into
    else Intake(into.values[e.Slot() := Bucket(into.values, e.Slot()) + [e]],
                into.pidIndex[e.pid := Slots(into.pidIndex, e.pid) + [e.Slot()]],
                into.accepted + [e])
  }

  function TakeJoins(ctx: Context, into: Intake, joins: seq<Entry>): Intake {
    if joins == [] then into
    else TakeJoin(ctx, TakeJoins(ctx, into, joins[..|joins| - 1]), joins[|joins| - 1])
  }

  function TagSet(tags: seq<Tag>): set<Tag> {
    set t | t in tags
  }

  function MergeIntake(s: State, d: Delta): Intake {
    TakeJoins(s.context, Intake(DropAll(s.values, WithTag(TagSet(d.leaveTags))), s.pidIndex, []), d.joins)
  }

  /** The joins `merge` reports. */
  function MergeJoins(s: State, d: Delta): seq<Entry> {
    MergeIntake(s, d).accepted
  }

  function Merge(s: State, d: Delta): State {
    var into := MergeIntake(s, d);
    s.(values := into.values, pidIndex := into.pidIndex, context := JoinContext(s.context, d.context))
  }

  function TakeDelta(s: State): State {
    if s.delta.IsEmpty() then s else s.(delta := NO_DELTA)
  }

  predicate IsUp(s: State, r: Replica) {
    !(r in s.replicas && s.replicas[r].Down?)
  }

  function ReplicaUp(s: State, r: Replica): State {
    s.(replicas := s.replicas[r := Up])
  }

  function ReplicaDown(s: State, r: Replica, temporary: bool): State {
    s.(replicas := s.replicas[r := Down(temporary)])
  }

  function RemoveDownReplica(s: State, r: Replica): State {
    s.(values := DropAll(s.values, OfReplicas({r})), replicas := s.replicas - {r})
  }

  // ---------- what a state shows and sends ----------

  function DownReplicas(s: State): set<Replica> {
    set r | r in s.replicas && s.replicas[r].Down?
  }

  /** Bucket by bucket, the entries of a topic that are not hidden; keys without any are left out. */
  function Shown(values: Values, hidden: set<Replica>, topic: string): map<string, seq<Entry>> {
    map k: Slot | k in values && k.0 == topic && Without(values[k], OfReplicas(hidden)) != [] ::
      k.1 := Without(values[k], OfReplicas(hidden))
  }

  /** What `list` shows for a topic. */
  function Listing(s: State, topic: string): map<string, seq<Entry>> {
    Shown(s.values, DownReplicas(s), topic)
  }

  /** `joins` lists the selected entries of a state, as often as they are held, in any order of the buckets. */
  ghost predicate Enumerates(values: Values, sel: Selector, joins: seq<Entry>) {
    forall e :: multiset(joins)[e] == multiset(Only(Bucket(values, e.Slot()), sel))[e]
  }

  /** A delta `extract` may return for a peer that has seen `since`. */
  ghost predicate IsExtract(s: State, since: Context, d: Delta) {
    d.leaveTags == [] && d.context == s.context && Enumerates(s.values, NewerThan(since), d.joins)
  }

  /** A delta `extract_all` may return. */
  ghost predicate IsFullExtract(s: State, d: Delta) {
    d.leaveTags == [] && d.context == s.context && Enumerates(s.values, Anything, d.joins)
  }

  /** Entries grouped by topic, in order. */
  function ByTopic(es: seq<Entry>): map<string, seq<Entry>> {
    if es == [] then map[] else
      var m := ByTopic(es[..|es| - 1]);
      var e := es[|es| - 1];
      m[e.topic := (if e.topic in m then m[e.topic] else []) + [e]]
  }

  // ---------- what a state holds ----------

  /** The entries a state holds, whatever their order. */
  function Entries(values: Values): set<Entry> {
    set k, e | k in values && e in values[k] :: e
  }

  /** How often an entry is held. */
  ghost function Count(values: Values, e: Entry): nat {
    multiset(Bucket(values, e.Slot()))[e]
  }

  /** Buckets are non-empty and every entry is in the bucket of its topic and key: what every operation keeps,
      whatever it is fed. */
  ghost predicate Placed(values: Values) {
    forall k :: k in values ==> values[k] != [] && forall e :: e in values[k] ==> e.Slot() == k
  }

  /** A tag names one entry. */
  ghost predicate TagsIdentify(es: set<Entry>) {
    forall e, f :: e in es && f in es && e.tag == f.tag ==> e == f
  }

  /** The pid index lists every slot where a process holds an entry. */
  ghost predicate IndexCovers(pidIndex: PidIndex, es: set<Entry>) {
    forall e :: e in es ==> e.Slot() in Slots(pidIndex, e.pid)
  }

  ghost predicate TagsCovered(ctx: Context, es: set<Entry>) {
    forall e :: e in es ==> 1 <= e.tag.clock && Covers(ctx, e.tag)
  }

  ghost predicate NoDuplicates(values: Values) {
    forall k :: k in values ==> NoDup(values[k])
  }

  /** The invariant of one replica. */
  ghost predicate Inv(s: State) {
    && Placed(s.values)
    && NoDuplicates(s.values)
    && TagsIdentify(Entries(s.values))
    && TagsCovered(s.context, Entries(s.values))
    && IndexCovers(s.pidIndex, Entries(s.values))
    && s.replica in s.context && s.context[s.replica] == s.clock
  }

  /** What a peer sends: joins that its context covers and whose tags name one entry each. */
  ghost predicate WellFormed(d: Delta) {
    && (forall e :: e in d.joins ==> 1 <= e.tag.clock && Covers(d.context, e.tag))
    && TagsIdentify(set e | e in d.joins)
  }

  /** A peer never claims to have seen more of this replica than this replica has issued. */
  ghost predicate Acceptable(s: State, d: Delta) {
    WellFormed(d) && At(d.context, s.replica) <= s.clock
  }
}
