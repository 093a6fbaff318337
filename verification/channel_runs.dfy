/** Whole runs of one client's channel server, while other processes use the same process groups. */
module ChannelRuns {
  import opened Pids
  import PG = ProcessGroups
  import opened ChannelServer
  import opened Sequences

  datatype Step =
    | Join(topic: Topic, accepted: bool)
    | Event(topic: Topic, result: HandleResult)
    | Leave(topic: Topic)
    | Terminate(topics: seq<Topic>, reason: TerminateReason)
    | Elsewhere(members: set<PG.Member>)

  /** Memberships of this client in channel groups are changed by its channel server alone. */
  ghost predicate OursKept(client: Pid, before: set<PG.Member>, after: set<PG.Member>) {
    forall t :: (GroupOf(t), client) in before <==> (GroupOf(t), client) in after
  }

  ghost predicate Enabled(s: State, client: Pid, st: Step) {
    match st
    case Terminate(topics, _) => Lists(topics, s.joined)
    case Elsewhere(members) => OursKept(client, s.members, members)
    case _ => true
  }

  /** `accepted` says whether a handler was found and accepted. */
  function Exec(s: State, client: Pid, st: Step): State {
    match st
    case Join(topic, accepted) => if topic in s.joined || !accepted then s else AfterJoin(s, client, topic)
    case Event(topic, result) => if result.Stop? then AfterLeave(s, client, topic, Left) else s
    case Leave(topic) => AfterLeave(s, client, topic, Left)
    case Terminate(topics, reason) => AfterLeaves(s, client, topics, reason)
    case Elsewhere(members) => s.(members := members)
  }

  ghost predicate IsRun(client: Pid, ss: seq<State>, steps: seq<Step>) {
    && |ss| == |steps| + 1
    && ss[0].joined == map[] && ss[0].made == 0 && ss[0].ended == []
    && (forall t :: (GroupOf(t), client) !in ss[0].members)
    && forall i :: 0 <= i < |steps| ==> Enabled(ss[i], client, steps[i]) && ss[i + 1] == Exec(ss[i], client, steps[i])
  }

  ghost predicate Running(s: State, instance: Instance) {
    exists t :: t in s.joined && s.joined[t] == instance
  }

  ghost predicate Ended(s: State, instance: Instance) {
    exists i :: 0 <= i < |s.ended| && s.ended[i].0 == instance
  }

  /** No instance has been told twice that it ended. */
  ghost predicate NoneTwice(s: State) {
    forall i, j :: 0 <= i < j < |s.ended| ==> s.ended[i].0 != s.ended[j].0
  }

  /** The client is in exactly the groups of its joined topics; every instance ever made is either running for one
      topic or has been told once that it ended. */
  ghost predicate StateOk(s: State, client: Pid) {
    && (forall t :: t in s.joined <==> (GroupOf(t), client) in s.members)
    && (forall t, u :: t in s.joined && u in s.joined && t != u ==> s.joined[t] != s.joined[u])
    && NoneTwice(s)
    && (forall t :: t in s.joined ==> s.joined[t] < s.made)
    && (forall i :: 0 <= i < |s.ended| ==> s.ended[i].0 < s.made)
    && (forall x: Instance :: x < s.made ==> (Running(s, x) <==> !Ended(s, x)))
  }

  lemma JoinOk(s: State, client: Pid, topic: Topic)
    requires StateOk(s, client) && topic !in s.joined
    ensures StateOk(AfterJoin(s, client, topic), client)
  {
    var u := AfterJoin(s, client, topic);
    forall x: Instance | x < u.made ensures Running(u, x) <==> !Ended(u, x) {
      assert Ended(u, x) <==> Ended(s, x);
      if x == s.made {
        assert u.joined[topic] == x;
      } else if Running(s, x) {
        var t :| t in s.joined && s.joined[t] == x;
        assert u.joined[t] == x;
      }
    }
    JoinGroups(s, client, topic);
  }

  lemma JoinGroups(s: State, client: Pid, topic: Topic)
    requires StateOk(s, client)
    ensures var u := AfterJoin(s, client, topic); forall t :: t in u.joined <==> (GroupOf(t), client) in u.members
  {
    forall t: Topic ensures GroupOf(t) == GroupOf(topic) <==> t == topic { GroupsDiffer(t, topic); }
    hide GroupOf;
  }

  lemma LeaveOk(s: State, client: Pid, topic: Topic, reason: TerminateReason)
    requires StateOk(s, client)
    ensures StateOk(AfterLeave(s, client, topic, reason), client)
  {
    var u := AfterLeave(s, client, topic, reason);
    if topic in s.joined {
      LeaveGroups(s, client, topic, reason);
      assert Running(s, s.joined[topic]);
      forall x: Instance | x < u.made ensures Running(u, x) <==> !Ended(u, x) {
        EndedAfter(s, client, topic, reason, x);
        if Running(s, x) && x != s.joined[topic] {
          var t :| t in s.joined && s.joined[t] == x;
          assert u.joined[t] == x;
        }
      }
    }
  }

  lemma EndedAfter(s: State, client: Pid, topic: Topic, reason: TerminateReason, x: Instance)
    requires topic in s.joined
    ensures Ended(AfterLeave(s, client, topic, reason), x) <==> Ended(s, x) || x == s.joined[topic]
  {
    var u := AfterLeave(s, client, topic, reason);
    if Ended(s, x) {
      var i :| 0 <= i < |s.ended| && s.ended[i].0 == x;
      assert u.ended[i].0 == x;
    } else if x == s.joined[topic] {
      assert u.ended[|s.ended|].0 == x;
    }
  }

  lemma LeaveGroups(s: State, client: Pid, topic: Topic, reason: TerminateReason)
    requires StateOk(s, client)
    ensures var u := AfterLeave(s, client, topic, reason);
      forall t :: t in u.joined <==> (GroupOf(t), client) in u.members
  {
    forall t: Topic ensures GroupOf(t) == GroupOf(topic) <==> t == topic { GroupsDiffer(t, topic); }
    hide GroupOf;
  }

  lemma {:induction false} LeavesOk(s: State, client: Pid, topics: seq<Topic>, reason: TerminateReason)
    requires StateOk(s, client)
    ensures StateOk(AfterLeaves(s, client, topics, reason), client)
    ensures forall t :: t in AfterLeaves(s, client, topics, reason).joined <==> t in s.joined && t !in topics
    ensures AfterLeaves(s, client, topics, reason).made == s.made
  {
    hide StateOk;
    if topics != [] {
      var n := |topics| - 1;
      LeavesOk(s, client, topics[..n], reason);
      LeaveOk(AfterLeaves(s, client, topics[..n], reason), client, topics[n], reason);
      assert topics == topics[..n] + [topics[n]];
    }
  }

  lemma ElsewhereOk(s: State, client: Pid, members: set<PG.Member>)
    requires StateOk(s, client) && OursKept(client, s.members, members)
    ensures StateOk(s.(members := members), client)
  {
    var u := s.(members := members);
    hide GroupOf;
    forall x: Instance ensures (Running(u, x) <==> Running(s, x)) && (Ended(u, x) <==> Ended(s, x)) {}
  }

  lemma StepOk(s: State, client: Pid, st: Step)
    requires StateOk(s, client) && Enabled(s, client, st)
    ensures StateOk(Exec(s, client, st), client)
  {
    hide StateOk;
    match st
    case Join(topic, accepted) => if topic !in s.joined { JoinOk(s, client, topic); }
    case Event(topic, _) => LeaveOk(s, client, topic, Left);
    case Leave(topic) => LeaveOk(s, client, topic, Left);
    case Terminate(topics, reason) => LeavesOk(s, client, topics, reason);
    case Elsewhere(members) => ElsewhereOk(s, client, members);
  }

  lemma {:induction false} RunOk(client: Pid, ss: seq<State>, steps: seq<Step>, i: nat)
    requires IsRun(client, ss, steps) && i < |ss|
    ensures StateOk(ss[i], client)
  {
    if i > 0 {
      RunOk(client, ss, steps, i - 1);
      StepOk(ss[i - 1], client, steps[i - 1]);
    }
  }

  /** In every reachable state the client is in the group of a topic exactly when the topic is joined. */
  lemma MemberIffJoined(client: Pid, ss: seq<State>, steps: seq<Step>, i: nat, topic: Topic)
    requires IsRun(client, ss, steps) && i < |ss|
    ensures (GroupOf(topic), client) in ss[i].members <==> topic in ss[i].joined
  {
    RunOk(client, ss, steps, i);
  }

  /** The step is a join that takes effect. */
  predicate Succeeds(s: State, st: Step) {
    st.Join? && st.accepted && st.topic !in s.joined
  }

  lemma StepMakes(s: State, client: Pid, st: Step)
    requires StateOk(s, client)
    ensures Exec(s, client, st).made == s.made + if Succeeds(s, st) then 1 else 0
  {
    if st.Terminate? { LeavesOk(s, client, st.topics, st.reason); }
  }

  lemma {:induction false} MadeGrows(client: Pid, ss: seq<State>, steps: seq<Step>, i: nat, j: nat)
    requires IsRun(client, ss, steps) && i <= j < |ss|
    ensures ss[i].made <= ss[j].made
    decreases j
  {
    if i < j {
      MadeGrows(client, ss, steps, i, j - 1);
      RunOk(client, ss, steps, j - 1);
      StepMakes(ss[j - 1], client, steps[j - 1]);
    }
  }

  /** Every instance was made by a successful join. */
  lemma {:induction false} MadeByJoin(client: Pid, ss: seq<State>, steps: seq<Step>, i: nat, instance: Instance)
      returns (j: nat)
    requires IsRun(client, ss, steps) && i < |ss| && instance < ss[i].made
    ensures j < i && Succeeds(ss[j], steps[j]) && ss[j].made == instance
  {
    j := i - 1;
    RunOk(client, ss, steps, j);
    StepMakes(ss[j], client, steps[j]);
    if instance < ss[j].made {
      j := MadeByJoin(client, ss, steps, j, instance);
    }
  }

  /** Once the server has terminated, every successful join before has been answered by exactly one terminate call on
      its instance, no topic is joined, and the client is in no channel group. */
  lemma EveryJoinEndsOnce(client: Pid, ss: seq<State>, steps: seq<Step>, j: nat, i: nat)
    requires IsRun(client, ss, steps) && j < i < |steps| && Succeeds(ss[j], steps[j]) && steps[i].Terminate?
    ensures Ended(ss[i + 1], ss[j].made) && NoneTwice(ss[i + 1])
    ensures ss[i + 1].joined == map[]
    ensures forall t :: (GroupOf(t), client) !in ss[i + 1].members
  {
    var x := ss[j].made;
    RunOk(client, ss, steps, j);
    StepMakes(ss[j], client, steps[j]);
    MadeGrows(client, ss, steps, j + 1, i + 1);
    RunOk(client, ss, steps, i);
    RunOk(client, ss, steps, i + 1);
    LeavesOk(ss[i], client, steps[i].topics, steps[i].reason);
    assert !Running(ss[i + 1], x);
    assert Ended(ss[i + 1], x);
  }

  /** No terminate call without a join: at any time, the call on an instance answers the join that made it. */
  lemma EndedWasJoined(client: Pid, ss: seq<State>, steps: seq<Step>, i: nat, k: nat) returns (j: nat)
    requires IsRun(client, ss, steps) && i < |ss| && k < |ss[i].ended|
    ensures j < i && Succeeds(ss[j], steps[j]) && ss[j].made == ss[i].ended[k].0
    ensures forall t :: t in ss[i].joined ==> ss[i].joined[t] != ss[i].ended[k].0
  {
    RunOk(client, ss, steps, i);
    var x := ss[i].ended[k].0;
    assert Ended(ss[i], x) && !Running(ss[i], x);
    j := MadeByJoin(client, ss, steps, i, x);
  }

  // ---------- what each step does, without the functions of the server ----------

  /** The step leaves the topic, if it is joined. */
  predicate Leaves(st: Step, t: Topic) {
    match st
    case Event(topic, result) => topic == t && result.Stop?
    case Leave(topic) => topic == t
    case Terminate(topics, _) => t in topics
    case _ => false
  }

  /** The reason given to the instances that the step ends. */
  function ReasonFor(st: Step): TerminateReason {
    if st.Terminate? then st.reason else Left
  }

  lemma {:induction false} LeavesExact(s: State, client: Pid, topics: seq<Topic>, reason: TerminateReason)
    requires NoDup(topics) && forall t :: t in topics ==> t in s.joined
    ensures var u := AfterLeaves(s, client, topics, reason);
      && (forall t :: t in u.joined <==> t in s.joined && t !in topics)
      && (forall t :: t in u.joined ==> u.joined[t] == s.joined[t])
      && s.ended <= u.ended && |u.ended| == |s.ended| + |topics|
      && (forall k :: 0 <= k < |topics| ==> u.ended[|s.ended| + k] == (s.joined[topics[k]], reason))
      && (forall m :: m in u.members <==>
            m in s.members && !(m.1 == client && exists t :: t in topics && m.0 == GroupOf(t)))
      && u.made == s.made
  {
    hide GroupOf;
    if topics != [] {
      var n := |topics| - 1;
      assert topics == topics[..n] + [topics[n]];
      LeavesExact(s, client, topics[..n], reason);
    }
  }

  /** A join that takes effect adds the topic with a new instance, and the client to the topic's group; a step that
      leaves a joined topic takes the client out of the group; nothing else is joined, left or changed. */
  ghost predicate JoinedExactly(s: State, client: Pid, st: Step, u: State) {
    && (forall t :: t in u.joined <==> (t in s.joined && !Leaves(st, t)) || (Succeeds(s, st) && t == st.topic))
    && (forall t :: t in u.joined ==> u.joined[t] == if t in s.joined then s.joined[t] else s.made)
    && (forall m :: m in u.members <==>
          || (m in s.members && !(m.1 == client && exists t :: t in s.joined && Leaves(st, t) && m.0 == GroupOf(t)))
          || (Succeeds(s, st) && m == (GroupOf(st.topic), client)))
  }

  /** The instance runs for a joined topic that the step leaves. */
  ghost predicate IsLeft(s: State, st: Step, x: Instance) {
    exists t :: t in s.joined && Leaves(st, t) && s.joined[t] == x
  }

  /** A step that leaves a joined topic tells its instance once that it ended, with the step's reason; no other is
      told. */
  ghost predicate EndedExactly(s: State, st: Step, u: State) {
    && s.ended <= u.ended
    && forall x :: x in u.ended[|s.ended|..] <==> IsLeft(s, st, x.0) && x.1 == ReasonFor(st)
  }

  lemma StepExact(s: State, client: Pid, st: Step)
    requires Enabled(s, client, st) && !st.Elsewhere?
    ensures JoinedExactly(s, client, st, Exec(s, client, st)) && EndedExactly(s, st, Exec(s, client, st))
  {
    hide GroupOf, JoinedExactly, EndedExactly;
    match st
    case Terminate(topics, reason) => TerminateExact(s, client, topics, reason);
    case Join(topic, accepted) => JoinExact(s, client, topic, accepted);
    case _ => LeaveExact(s, client, st);
  }

  lemma JoinExact(s: State, client: Pid, topic: Topic, accepted: bool)
    ensures var st := Join(topic, accepted);
      JoinedExactly(s, client, st, Exec(s, client, st)) && EndedExactly(s, st, Exec(s, client, st))
  {
    hide GroupOf;
  }

  lemma LeaveExact(s: State, client: Pid, st: Step)
    requires st.Leave? || st.Event?
    ensures JoinedExactly(s, client, st, Exec(s, client, st)) && EndedExactly(s, st, Exec(s, client, st))
  {
    hide GroupOf;
    var u := Exec(s, client, st);
    if Leaves(st, st.topic) && st.topic in s.joined {
      assert u.ended[|s.ended|..] == [(s.joined[st.topic], Left)];
    } else {
      assert u.ended[|s.ended|..] == [];
    }
  }

  lemma TerminateExact(s: State, client: Pid, topics: seq<Topic>, reason: TerminateReason)
    requires Lists(topics, s.joined)
    ensures var st := Terminate(topics, reason);
      JoinedExactly(s, client, st, Exec(s, client, st)) && EndedExactly(s, st, Exec(s, client, st))
  {
    hide GroupOf, AfterLeaves, JoinedExactly, EndedExactly;
    TerminateJoined(s, client, topics, reason);
    TerminateEnded(s, client, topics, reason);
  }

  lemma TerminateJoined(s: State, client: Pid, topics: seq<Topic>, reason: TerminateReason)
    requires Lists(topics, s.joined)
    ensures JoinedExactly(s, client, Terminate(topics, reason), AfterLeaves(s, client, topics, reason))
  {
    hide GroupOf, AfterLeaves, NoDup;
    LeavesExact(s, client, topics, reason);
  }

  lemma TerminateEnded(s: State, client: Pid, topics: seq<Topic>, reason: TerminateReason)
    requires Lists(topics, s.joined)
    ensures EndedExactly(s, Terminate(topics, reason), AfterLeaves(s, client, topics, reason))
  {
    hide GroupOf, AfterLeaves, NoDup;
    LeavesExact(s, client, topics, reason);
    var u, st := AfterLeaves(s, client, topics, reason), Terminate(topics, reason);
    var more := u.ended[|s.ended|..];
    assert forall k :: 0 <= k < |topics| ==> more[k] == (s.joined[topics[k]], reason);
    forall x: (Instance, TerminateReason) | IsLeft(s, st, x.0) && x.1 == reason ensures x in more {
      var t :| t in s.joined && s.joined[t] == x.0;
      var i :| 0 <= i < |topics| && topics[i] == t;
      assert more[i] == x;
    }
  }

  /** A handler accepted a join of the topic, and since then it has not been left. */
  ghost predicate JoinStands(steps: seq<Step>, i: nat, t: Topic)
    requires i <= |steps|
  {
    exists j :: 0 <= j < i && steps[j] == Join(t, true) && forall k :: j < k < i ==> !Leaves(steps[k], t)
  }

  lemma JoinStandsNext(steps: seq<Step>, i: nat, t: Topic)
    requires i < |steps|
    ensures JoinStands(steps, i + 1, t) <==>
      steps[i] == Join(t, true) || (JoinStands(steps, i, t) && !Leaves(steps[i], t))
  {
    hide Leaves;
    if steps[i] == Join(t, true) {
      assert JoinStands(steps, i + 1, t);
    } else if JoinStands(steps, i, t) && !Leaves(steps[i], t) {
      var j :| 0 <= j < i && steps[j] == Join(t, true) && forall k :: j < k < i ==> !Leaves(steps[k], t);
      assert forall k :: j < k < i + 1 ==> !Leaves(steps[k], t);
    }
  }

  /** A topic is joined exactly when a handler accepted a join of it and it has not been left since. */
  lemma {:induction false} JoinedByHistory(client: Pid, ss: seq<State>, steps: seq<Step>, i: nat, t: Topic)
    requires IsRun(client, ss, steps) && i < |ss|
    ensures t in ss[i].joined <==> JoinStands(steps, i, t)
  {
    if i > 0 {
      var s, st := ss[i - 1], steps[i - 1];
      assert Enabled(s, client, st) && ss[i] == Exec(s, client, st);
      hide IsRun, JoinStands;
      JoinedByHistory(client, ss, steps, i - 1, t);
      JoinStandsNext(steps, i - 1, t);
      JoinedNext(s, client, st, t);
    }
  }

  lemma JoinedNext(s: State, client: Pid, st: Step, t: Topic)
    requires Enabled(s, client, st)
    ensures t in Exec(s, client, st).joined <==> st == Join(t, true) || (t in s.joined && !Leaves(st, t))
  {
    if !st.Elsewhere? {
      hide Exec, EndedExactly, GroupOf;
      StepExact(s, client, st);
    }
  }
}
