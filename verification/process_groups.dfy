/** Process groups of one node: two maps of sets that are each other's inverse, and the messages the node sends. */
module ProcessGroups {
  import opened Pids
  import opened SetMaps

  type Group = string
  type Member = (Group, Pid)
  type Roster = seq<(Group, seq<Pid>)>

  datatype Message =
    | Join(group: Group, pid: Pid)
    | Leave(group: Group, pid: Pid)
    | LeaveAll(pid: Pid)
    | SyncRequest
    | SyncResponse(roster: Roster)

  datatype Outgoing = ToAll(msg: Message) | To(node: string, msg: Message)

  // ---------- memberships as a relation ----------

  /** The members whose processes live on a node. */
  function Of(view: set<Member>, node: string): set<Member> {
    set m | m in view && m.1.node == node
  }

  /** The processes in a group. */
  function MembersOf(view: set<Member>, group: Group): (pids: set<Pid>)
    ensures forall p :: p in pids <==> (group, p) in view
  {
    set m | m in view && m.0 == group :: m.1
  }

  function Listed(roster: Roster): set<Member> {
    set i, j | 0 <= i < |roster| && 0 <= j < |roster[i].1| :: (roster[i].0, roster[i].1[j])
  }

  /** What a message does to a node's view of the memberships. */
  function Apply(view: set<Member>, msg: Message): set<Member> {
    match msg
    case Join(g, p) => view + {(g, p)}
    case Leave(g, p) => view - {(g, p)}
    case LeaveAll(p) => set m | m in view && m.1 != p
    case SyncRequest => view
    case SyncResponse(roster) => view + Listed(roster)
  }

  /** The message is about the end of this membership. */
  predicate TakesOut(msg: Message, m: Member) {
    msg == Leave(m.0, m.1) || msg == LeaveAll(m.1)
  }

  /** The message says that this membership exists. */
  ghost predicate PutsIn(msg: Message, m: Member) {
    msg == Join(m.0, m.1) || (msg.SyncResponse? && Lists(msg.roster, m))
  }

  /** Some line of the roster is about the member's group and has the member's process. */
  ghost predicate Lists(roster: Roster, m: Member) {
    exists i, j :: 0 <= i < |roster| && 0 <= j < |roster[i].1| && roster[i].0 == m.0 && roster[i].1[j] == m.1
  }

  /** A message changes exactly the memberships it is about. */
  lemma ApplyExact(view: set<Member>, msg: Message, m: Member)
    ensures m in Apply(view, msg) <==> (m in view && !TakesOut(msg, m)) || PutsIn(msg, m)
  {
    if msg.SyncResponse? { ListedExact(msg.roster, m); }
  }

  lemma ListedExact(roster: Roster, m: Member)
    ensures m in Listed(roster) <==> Lists(roster, m)
  {
    if Lists(roster, m) {
      var i, j :| 0 <= i < |roster| && 0 <= j < |roster[i].1| && roster[i].0 == m.0 && roster[i].1[j] == m.1;
      assert m == (roster[i].0, roster[i].1[j]);
    }
  }

  /** A roster for some memberships: one line per group, without empty lines. */
  ghost predicate IsRoster(roster: Roster, members: set<Member>) {
    && Listed(roster) == members
    && (forall i :: 0 <= i < |roster| ==> roster[i].1 != [])
    && (forall i, j :: 0 <= i < j < |roster| ==> roster[i].0 != roster[j].0)
  }

  // ---------- leaving one group after the other ----------

  /** The groups are those of the reverse index, except that the process is left only in the groups still to do. */
  ghost predicate StillIn(groups: map<Group, set<Pid>>, was: map<Pid, set<Group>>, pid: Pid, todo: set<Group>) {
    forall g, p :: Has(groups, g, p) <==> (if p == pid then g in todo else Has(was, p, g))
  }

  lemma StillInAll(groups: map<Group, set<Pid>>, was: map<Pid, set<Group>>, pid: Pid)
    requires Inverse(groups, was) && NoEmpty(was)
    ensures StillIn(groups, was, pid, Get(was, pid)) && NoEmpty(was - {pid})
  {}

  lemma StillInFewer(groups: map<Group, set<Pid>>, was: map<Pid, set<Group>>, pid: Pid, todo: set<Group>, group: Group)
    requires StillIn(groups, was, pid, todo) && group in todo && NoEmpty(groups)
    ensures group in groups && NoEmpty(Without(groups, group, pid))
    ensures StillIn(Without(groups, group, pid), was, pid, todo - {group})
  {
    WithoutHas(groups, group, pid);
    assert Has(groups, group, pid);
    hide Without;
  }

  lemma StillInNone(before: map<Group, set<Pid>>, groups: map<Group, set<Pid>>, was: map<Pid, set<Group>>, pid: Pid)
    requires Inverse(before, was) && StillIn(groups, was, pid, {})
    ensures Inverse(groups, was - {pid})
    ensures Relation(groups) == set m | m in Relation(before) && m.1 != pid
  {
    forall g: Group, p: Pid ensures (g, p) in Relation(groups) <==> (g, p) in Relation(before) && p != pid {
      InRelation(before, g, p);
      InRelation(groups, g, p);
    }
  }

  class ProcessGroups {
    const node: string
    var groups: map<Group, set<Pid>>
    var pidToGroups: map<Pid, set<Group>>
    var outgoing: seq<Outgoing>

    /** The two indexes are exact inverses without empty entries. */
    ghost predicate Valid()
      reads this
    {
      Inverse(groups, pidToGroups) && NoEmpty(groups) && NoEmpty(pidToGroups)
    }

    ghost function Members(): set<Member>
      reads this
    {
      Relation(groups)
    }

    constructor (node: string)
      ensures Valid() && Members() == {} && outgoing == [] && this.node == node
    {
      this.node := node;
      groups, pidToGroups, outgoing := map[], map[], [];
    }

    /** Both indexes gain a pair. */
    method Add(group: Group, pid: Pid)
      requires Valid()
      modifies this`groups, this`pidToGroups
      ensures Valid() && Members() == old(Members()) + {(group, pid)}
    {
      RelationWith(groups, group, pid);
      InverseWith(groups, pidToGroups, group, pid);
      groups := With(groups, group, pid);
      pidToGroups := With(pidToGroups, pid, group);
    }

    /** Both indexes lose a pair. */
    method Remove(group: Group, pid: Pid)
      requires Valid()
      modifies this`groups, this`pidToGroups
      ensures Valid() && Members() == old(Members()) - {(group, pid)}
    {
      RelationWithout(groups, group, pid);
      InverseWithout(groups, pidToGroups, group, pid);
      if group in groups {
        groups := groups[group := groups[group] - {pid}];
        if groups[group] == {} {
          groups := groups - {group};
        }
      }
      assert groups == Without(old(groups), group, pid);
      if pid in pidToGroups {
        pidToGroups := pidToGroups[pid := pidToGroups[pid] - {group}];
        if pidToGroups[pid] == {} {
          pidToGroups := pidToGroups - {pid};
        }
      }
      assert pidToGroups == Without(old(pidToGroups), pid, group);
    }

    /** The process leaves every group the reverse index lists for it. */
    method RemoveAll(pid: Pid)
      requires Valid()
      modifies this`groups, this`pidToGroups
      ensures Valid() && Members() == set m | m in old(Members()) && m.1 != pid
    {
      var todo := Get(pidToGroups, pid);
      StillInAll(groups, pidToGroups, pid);
      hide StillIn, Has, Inverse, Relation;
      pidToGroups := pidToGroups - {pid};
      while todo != {}
        invariant NoEmpty(groups) && pidToGroups == old(pidToGroups) - {pid}
        invariant StillIn(groups, old(pidToGroups), pid, todo)
        decreases todo
      {
        var group :| group in todo;
        StillInFewer(groups, old(pidToGroups), pid, todo, group);
        ghost var before := groups;
        groups := groups[group := groups[group] - {pid}];
        if groups[group] == {} {
          groups := groups - {group};
        }
        assert groups == Without(before, group, pid);
        todo := todo - {group};
      }
      StillInNone(old(groups), groups, old(pidToGroups), pid);
    }

    method Join(group: Group, pid: Pid)
      requires Valid()
      modifies this
      ensures Valid() && Members() == Apply(old(Members()), Message.Join(group, pid))
      ensures forall m :: m in Members() <==> m in old(Members()) || m == (group, pid)
      ensures outgoing == old(outgoing) + (if pid.node == node then [ToAll(Message.Join(group, pid))] else [])
    {
      Add(group, pid);
      if pid.node == node {
        outgoing := outgoing + [ToAll(Message.Join(group, pid))];
      }
    }

    method Leave(group: Group, pid: Pid)
      requires Valid()
      modifies this
      ensures Valid() && Members() == Apply(old(Members()), Message.Leave(group, pid))
      ensures forall m :: m in Members() <==> m in old(Members()) && m != (group, pid)
      ensures outgoing == old(outgoing) + (if pid.node == node then [ToAll(Message.Leave(group, pid))] else [])
    {
      Remove(group, pid);
      if pid.node == node {
        outgoing := outgoing + [ToAll(Message.Leave(group, pid))];
      }
    }

    /** Nothing is sent for a process that is in no group. */
    method LeaveAll(pid: Pid)
      requires Valid()
      modifies this
      ensures Valid() && Members() == Apply(old(Members()), Message.LeaveAll(pid))
      ensures forall m :: m in Members() <==> m in old(Members()) && m.1 != pid
      ensures outgoing == old(outgoing) +
        (if pid.node == node && (exists g :: (g, pid) in old(Members())) then [ToAll(Message.LeaveAll(pid))] else [])
    {
      if pid in pidToGroups {
        var g :| g in pidToGroups[pid];
        InRelation(groups, g, pid);
        RemoveAll(pid);
        if pid.node == node {
          outgoing := outgoing + [ToAll(Message.LeaveAll(pid))];
        }
      } else {
        forall g: Group ensures (g, pid) !in old(Members()) {
          InRelation(groups, g, pid);
          assert !Has(pidToGroups, pid, g);
        }
        assert forall m :: m in old(Members()) ==> m.1 != pid by {
          forall m | m in old(Members()) ensures m.1 != pid { assert (m.0, pid) !in old(Members()); }
        }
      }
    }

    /** What arrives from another node changes the view as `Apply` says; a sync request is answered with the
        memberships of this node's own processes, provided the asking node is still connected. */
    method HandleMessage(msg: Message, fromNode: string, connected: bool)
      requires Valid()
      modifies this
      ensures Valid() && Members() == Apply(old(Members()), msg)
      ensures forall m :: m in Members() <==> (m in old(Members()) && !TakesOut(msg, m)) || PutsIn(msg, m)
      ensures if msg.SyncRequest? && connected
        then exists r :: IsRoster(r, Of(Members(), node)) && outgoing == old(outgoing) + [To(fromNode, SyncResponse(r))]
        else outgoing == old(outgoing)
    {
      match msg {
        case Join(group, pid) => Add(group, pid);
        case Leave(group, pid) => Remove(group, pid);
        case LeaveAll(pid) => RemoveAll(pid);
        case SyncRequest =>
          var roster := LocalRoster();
          if connected {
            outgoing := outgoing + [To(fromNode, SyncResponse(roster))];
          }
        case SyncResponse(roster) => AddRoster(roster);
      }
      forall m: Member ensures m in Members() <==> (m in old(Members()) && !TakesOut(msg, m)) || PutsIn(msg, m) {
        ApplyExact(old(Members()), msg, m);
      }
    }

    method AddRoster(roster: Roster)
      requires Valid()
      modifies this`groups, this`pidToGroups
      ensures Valid() && Members() == old(Members()) + Listed(roster)
    {
      var i := 0;
      while i < |roster|
        invariant 0 <= i <= |roster|
        invariant Valid() && Members() == old(Members()) + Listed(roster[..i])
      {
        var pids := roster[i].1;
        var j := 0;
        while j < |pids|
          invariant 0 <= j <= |pids|
          invariant Valid()
          invariant Members() == old(Members()) + Listed(roster[..i]) + Listed([(roster[i].0, pids[..j])])
        {
          Add(roster[i].0, pids[j]);
          ListedLine(roster[i].0, pids, j);
          j := j + 1;
        }
        assert pids[..j] == pids;
        ListedMore(roster, i);
        i := i + 1;
      }
      assert roster[..i] == roster;
    }

    /** The groups with members on this node, each with exactly those members. */
    method LocalRoster() returns (roster: Roster)
      requires Valid()
      ensures IsRoster(roster, Of(Members(), node))
    {
      roster := [];
      var todo := groups.Keys;
      while todo != {}
        invariant todo <= groups.Keys
        invariant IsRoster(roster, set m | m in Of(Members(), node) && m.0 !in todo)
        invariant forall i :: 0 <= i < |roster| ==> roster[i].0 !in todo
        decreases todo
      {
        var group :| group in todo;
        var local := LocalMembers(groups[group]);
        if local != [] {
          RosterAppend(roster, group, local);
          roster := roster + [(group, local)];
        }
        assert (set m | m in Of(Members(), node) && m.0 !in todo - {group}) ==
          (set m | m in Of(Members(), node) && m.0 !in todo) + (set p | p in local :: (group, p));
        todo := todo - {group};
      }
      assert (set m | m in Of(Members(), node) && m.0 !in todo) == Of(Members(), node);
    }

    method LocalMembers(members: set<Pid>) returns (local: seq<Pid>)
      ensures forall p :: p in local <==> p in members && p.node == node
    {
      local := [];
      var todo := members;
      while todo != {}
        invariant todo <= members
        invariant forall p :: p in local <==> p in members && p !in todo && p.node == node
        decreases todo
      {
        var p :| p in todo;
        if p.node == node {
          local := local + [p];
        }
        todo := todo - {p};
      }
    }

    /** A disconnected node takes all its processes with it, and nobody else's. */
    method RemoveNodeMembers(gone: string)
      requires Valid()
      modifies this`groups, this`pidToGroups
      ensures Valid() && Members() == old(Members()) - Of(old(Members()), gone)
    {
      var todo := set p | p in pidToGroups && p.node == gone;
      forall m | m in Of(Members(), gone) ensures m.1 in todo { InRelation(groups, m.0, m.1); }
      while todo != {}
        invariant Valid() && forall p :: p in todo ==> p.node == gone
        invariant Members() == set m | m in old(Members()) && (m.1.node == gone ==> m.1 in todo)
        decreases todo
      {
        var pid :| pid in todo;
        RemoveAll(pid);
        todo := todo - {pid};
      }
    }

    /** Greets a newly connected node: asks for its memberships and pushes our own, if there are any. */
    method RequestSync(toNode: string, connected: bool)
      requires Valid()
      modifies this`outgoing
      ensures Valid() && Members() == old(Members())
      ensures if !connected then outgoing == old(outgoing)
        else if Of(Members(), node) == {} then outgoing == old(outgoing) + [To(toNode, SyncRequest)]
        else exists r :: IsRoster(r, Of(Members(), node))
               && outgoing == old(outgoing) + [To(toNode, SyncRequest), To(toNode, SyncResponse(r))]
    {
      if connected {
        outgoing := outgoing + [To(toNode, SyncRequest)];
        var roster := LocalRoster();
        RosterEmpty(roster, Of(Members(), node));
        if roster != [] {
          outgoing := outgoing + [To(toNode, SyncResponse(roster))];
        }
      }
    }

    method GetMembers(group: Group) returns (members: set<Pid>)
      requires Valid()
      ensures members == MembersOf(Members(), group)
    {
      forall p: Pid ensures (group, p) in Members() <==> Has(groups, group, p) { InRelation(groups, group, p); }
      members := Get(groups, group);
    }

    method WhichGroups(pid: Pid) returns (of: set<Group>)
      requires Valid()
      ensures forall g :: g in of <==> (g, pid) in Members()
    {
      forall g: Group ensures (g, pid) in Members() <==> Has(pidToGroups, pid, g) {
        InRelation(groups, g, pid);
      }
      of := Get(pidToGroups, pid);
    }
  }

  // ---------- rosters ----------

  lemma ListedLine(g: Group, pids: seq<Pid>, j: nat)
    requires j < |pids|
    ensures Listed([(g, pids[..j + 1])]) == Listed([(g, pids[..j])]) + {(g, pids[j])}
  {
    LineMembers(g, pids[..j + 1]);
    LineMembers(g, pids[..j]);
    assert pids[..j + 1] == pids[..j] + [pids[j]];
  }

  lemma LineMembers(g: Group, pids: seq<Pid>)
    ensures Listed([(g, pids)]) == set p | p in pids :: (g, p)
  {
    var line := [(g, pids)];
    forall p | p in pids ensures (g, p) in Listed(line) {
      var j :| 0 <= j < |pids| && pids[j] == p;
      assert (line[0].0, line[0].1[j]) in Listed(line);
    }
  }

  lemma ListedAppend(roster: Roster, line: (Group, seq<Pid>))
    ensures Listed(roster + [line]) == Listed(roster) + Listed([line])
  {
    var longer := roster + [line];
    forall m | m in Listed(roster) + Listed([line]) ensures m in Listed(longer) {
      if m in Listed(roster) {
        var i, j :| 0 <= i < |roster| && 0 <= j < |roster[i].1| && m == (roster[i].0, roster[i].1[j]);
        assert longer[i] == roster[i];
      } else {
        var i, j :| 0 <= i < |[line]| && 0 <= j < |[line][i].1| && m == ([line][i].0, [line][i].1[j]);
        assert longer[|roster|] == line;
      }
    }
    forall m | m in Listed(longer) ensures m in Listed(roster) + Listed([line]) {
      var i, j :| 0 <= i < |longer| && 0 <= j < |longer[i].1| && m == (longer[i].0, longer[i].1[j]);
      if i < |roster| { assert longer[i] == roster[i]; } else { assert [line][0] == longer[i]; }
    }
  }

  lemma ListedMore(roster: Roster, i: nat)
    requires i < |roster|
    ensures Listed(roster[..i + 1]) == Listed(roster[..i]) + Listed([roster[i]])
  {}

  lemma RosterAppend(roster: Roster, group: Group, pids: seq<Pid>)
    requires IsRoster(roster, Listed(roster)) && pids != [] && forall i :: 0 <= i < |roster| ==> roster[i].0 != group
    ensures IsRoster(roster + [(group, pids)], Listed(roster) + set p | p in pids :: (group, p))
  {
    ListedAppend(roster, (group, pids));
    LineMembers(group, pids);
  }

  lemma RosterEmpty(roster: Roster, members: set<Member>)
    requires IsRoster(roster, members)
    ensures roster == [] <==> members == {}
  {
    if roster != [] {
      assert (roster[0].0, roster[0].1[0]) in Listed(roster);
    }
  }
}
