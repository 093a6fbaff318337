/** The channels of one client: which topics it has joined, through which channel instances, and its membership in the
    process group of every joined topic. */
module ChannelServer {
  import opened Options
  import opened Pids
  import PG = ProcessGroups
  import opened Sequences

  type Topic = string
  type Payload = seq<int>
  type Instance = nat

  datatype Handler = Handler(pattern: string, id: nat)

  datatype JoinVerdict = Accepted(reply: Option<Payload>) | Refused(reason: string)

  datatype Status = Ok | Error

  datatype HandleResult =
    | NoReply
    | Answer(status: Status, payload: Payload)
    | Broadcast(event: string, payload: Payload)
    | BroadcastFrom(event: string, payload: Payload)
    | PushBack(event: string, payload: Payload)
    | Stop(reason: string)

  datatype Reply =
    | JoinOk(msgRef: string, welcome: Option<Payload>)
    | JoinError(msgRef: string, reason: string)
    | Replied(msgRef: string, status: string, payload: Payload)
    | Push(topic: Topic, event: string, payload: Payload)

  datatype TerminateReason = Left | Closed | Other(text: string)

  // ---------- topics ----------

  predicate TopicMatches(pattern: string, topic: Topic) {
    if pattern != [] && pattern[|pattern| - 1] == '*' then pattern[..|pattern| - 1] <= topic else pattern == topic
  }

  function TopicWildcard(pattern: string, topic: Topic): Option<string> {
    if pattern != [] && pattern[|pattern| - 1] == '*' && pattern[..|pattern| - 1] <= topic
    then Some(topic[|pattern| - 1..])
    else None
  }

  /** A topic matches a pattern when it is the pattern or fills in the pattern's final star; the wildcard part is
      exactly what fills it in. */
  lemma MatchesExactly(pattern: string, topic: Topic, part: string)
    ensures TopicMatches(pattern, topic) <==>
      pattern == topic || exists prefix :: pattern == prefix + "*" && prefix <= topic
    ensures TopicWildcard(pattern, topic) == Some(part) <==>
      exists prefix :: pattern == prefix + "*" && topic == prefix + part
  {
    if pattern != [] && pattern[|pattern| - 1] == '*' {
      var prefix := pattern[..|pattern| - 1];
      assert pattern == prefix + "*";
      if prefix <= topic {
        assert topic == prefix + topic[|prefix|..];
      }
    }
    forall prefix | pattern == prefix + "*"
      ensures pattern != [] && pattern[|pattern| - 1] == '*' && pattern[..|pattern| - 1] == prefix
    {}
  }

  function FirstMatch(handlers: seq<Handler>, topic: Topic): Option<Handler> {
    if handlers == [] then None
    else if TopicMatches(handlers[0].pattern, topic) then Some(handlers[0])
    else FirstMatch(handlers[1..], topic)
  }

  /** The pattern is the topic, or a prefix of it followed by a star. */
  ghost predicate Fits(pattern: string, topic: Topic) {
    pattern == topic || exists prefix :: pattern == prefix + "*" && prefix <= topic
  }

  ghost predicate FirstFitting(handlers: seq<Handler>, topic: Topic, i: nat) {
    i < |handlers| && Fits(handlers[i].pattern, topic) && forall j :: 0 <= j < i ==> !Fits(handlers[j].pattern, topic)
  }

  ghost predicate IsFirst(handlers: seq<Handler>, topic: Topic, h: Handler) {
    exists i: nat :: FirstFitting(handlers, topic, i) && handlers[i] == h
  }

  /** The handler found is the first one, in the order of registration, whose pattern fits the topic; none is found
      exactly when no pattern fits. */
  lemma {:induction false} FirstMatchExactly(handlers: seq<Handler>, topic: Topic)
    ensures FirstMatch(handlers, topic).None? <==> forall i :: 0 <= i < |handlers| ==> !Fits(handlers[i].pattern, topic)
    ensures forall h :: FirstMatch(handlers, topic) == Some(h) <==> IsFirst(handlers, topic, h)
  {
    if handlers != [] {
      var rest := handlers[1..];
      FirstMatchExactly(rest, topic);
      MatchesExactly(handlers[0].pattern, topic, "");
      assert TopicMatches(handlers[0].pattern, topic) <==> Fits(handlers[0].pattern, topic);
      hide Fits, TopicMatches;
      if Fits(handlers[0].pattern, topic) {
        assert FirstFitting(handlers, topic, 0);
      } else {
        forall h ensures IsFirst(handlers, topic, h) <==> IsFirst(rest, topic, h) {
          if i: nat :| FirstFitting(handlers, topic, i) && handlers[i] == h {
            FittingLater(handlers, topic, i - 1);
            assert rest[i - 1] == h;
          }
          if i: nat :| FirstFitting(rest, topic, i) && rest[i] == h {
            FittingLater(handlers, topic, i);
            assert handlers[i + 1] == h;
          }
        }
      }
    }
  }

  lemma FittingLater(handlers: seq<Handler>, topic: Topic, i: nat)
    requires handlers != [] && !Fits(handlers[0].pattern, topic)
    ensures FirstFitting(handlers[1..], topic, i) <==> FirstFitting(handlers, topic, i + 1)
  {
    hide Fits;
    var rest := handlers[1..];
    assert forall j :: 0 <= j < |rest| ==> rest[j] == handlers[j + 1];
    if FirstFitting(rest, topic, i) {
      forall j | 0 <= j < i + 1 ensures !Fits(handlers[j].pattern, topic) {
        if j > 0 { assert handlers[j] == rest[j - 1]; }
      }
    }
  }

  function GroupOf(topic: Topic): PG.Group {
    "channel:" + topic
  }

  lemma GroupsDiffer(s: Topic, t: Topic)
    ensures GroupOf(s) == GroupOf(t) <==> s == t
  {
    assert GroupOf(s)[8..] == s && GroupOf(t)[8..] == t;
  }

  // ---------- the effect of the operations ----------

  /** The joined topics with their instances, the number of instances made, the terminate calls made, and all group
      memberships known on the node. */
  datatype State = State(
    joined: map<Topic, Instance>, made: nat, ended: seq<(Instance, TerminateReason)>, members: set<PG.Member>)

  function AfterJoin(s: State, client: Pid, topic: Topic): State {
    State(s.joined[topic := s.made], s.made + 1, s.ended, s.members + {(GroupOf(topic), client)})
  }

  function AfterLeave(s: State, client: Pid, topic: Topic, reason: TerminateReason): State {
    if topic !in s.joined then s
    else State(s.joined - {topic}, s.made, s.ended + [(s.joined[topic], reason)],
               s.members - {(GroupOf(topic), client)})
  }

  /** Leaving these topics one after the other. */
  function AfterLeaves(s: State, client: Pid, topics: seq<Topic>, reason: TerminateReason): State {
    if topics == [] then s
    else AfterLeave(AfterLeaves(s, client, topics[..|topics| - 1], reason), client, topics[|topics| - 1], reason)
  }

  /** Some order of the joined topics. */
  ghost predicate Lists(topics: seq<Topic>, joined: map<Topic, Instance>) {
    NoDup(topics) && forall t :: t in topics <==> t in joined
  }

  /** One copy of the message to each of these processes, and to nobody else. */
  ghost predicate FanOut(sent: seq<(Pid, Reply)>, to: set<Pid>, msg: Reply) {
    && (forall i :: 0 <= i < |sent| ==> sent[i].0 in to && sent[i].1 == msg)
    && (forall p :: p in to ==> exists i :: 0 <= i < |sent| && sent[i].0 == p)
    && (forall i, j :: 0 <= i < j < |sent| ==> sent[i].0 != sent[j].0)
  }

  class ChannelServer {
    const clientPid: Pid
    const pg: PG.ProcessGroups
    var handlers: seq<Handler>
    var channels: map<Topic, Instance>
    var made: nat
    var ended: seq<(Instance, TerminateReason)>
    var sent: seq<(Pid, Reply)>

    ghost predicate Valid()
      reads this, pg
    {
      pg.Valid()
    }

    ghost function Contents(): State
      reads this, pg
    {
      State(channels, made, ended, pg.Members())
    }

    constructor (clientPid: Pid, pg: PG.ProcessGroups, handlers: seq<Handler>)
      requires pg.Valid()
      ensures Valid() && this.clientPid == clientPid && this.pg == pg && this.handlers == handlers
      ensures Contents() == State(map[], 0, [], pg.Members()) && sent == []
    {
      this.clientPid, this.pg, this.handlers := clientPid, pg, handlers;
      channels, made, ended, sent := map[], 0, [], [];
    }

    method FindHandler(topic: Topic) returns (found: Option<Handler>)
      ensures found == FirstMatch(handlers, topic)
    {
      var i := 0;
      while i < |handlers|
        invariant 0 <= i <= |handlers|
        invariant FirstMatch(handlers, topic) == FirstMatch(handlers[i..], topic)
      {
        if TopicMatches(handlers[i].pattern, topic) {
          return Some(handlers[i]);
        }
        i := i + 1;
      }
      found := None;
    }

    /** A join takes effect exactly when the topic is not joined yet, some handler matches, and the first that does
        accepts; the answer says which. `verdict` is what the handlers answer to this join. */
    method HandleJoin(topic: Topic, msgRef: string, verdict: Handler -> JoinVerdict) returns (reply: Reply)
      requires Valid()
      modifies this`channels, this`made, pg
      ensures Valid()
      ensures var h := FirstMatch(handlers, topic);
        if topic in old(channels) then
          reply == JoinError(msgRef, "already joined") && Contents() == old(Contents())
        else if h.None? then
          reply == JoinError(msgRef, "no handler for topic: " + topic) && Contents() == old(Contents())
        else if verdict(h.value).Refused? then
          reply == JoinError(msgRef, verdict(h.value).reason) && Contents() == old(Contents())
        else
          reply == JoinOk(msgRef, verdict(h.value).reply) && Contents() == AfterJoin(old(Contents()), clientPid, topic)
    {
      if topic in channels {
        return JoinError(msgRef, "already joined");
      }
      var handler := FindHandler(topic);
      if handler.None? {
        return JoinError(msgRef, "no handler for topic: " + topic);
      }
      match verdict(handler.value) {
        case Accepted(payload) =>
          pg.Join(GroupOf(topic), clientPid);
          channels := channels[topic := made];
          made := made + 1;
          reply := JoinOk(msgRef, payload);
        case Refused(reason) =>
          reply := JoinError(msgRef, reason);
      }
    }

    /** An event for a topic that is not joined is dropped; a stop leaves the topic; broadcasts reach the members of
        the topic's group. `result` is what the instance answers. */
    method HandleEvent(topic: Topic, msgRef: string, result: HandleResult) returns (reply: Option<Reply>)
      requires Valid()
      modifies this`channels, this`ended, this`sent, pg
      ensures Valid()
      ensures Contents() ==
        if result.Stop? then AfterLeave(old(Contents()), clientPid, topic, Left) else old(Contents())
      ensures reply ==
        if topic !in old(channels) then None
        else match result
             case Answer(status, payload) => Some(Replied(msgRef, if status.Ok? then "ok" else "error", payload))
             case PushBack(event, payload) => Some(Push(topic, event, payload))
             case _ => None
      ensures |old(sent)| <= |sent| && sent[..|old(sent)|] == old(sent)
      ensures var news := sent[|old(sent)|..];
        var all := PG.MembersOf(old(pg.Members()), GroupOf(topic));
        if topic !in old(channels) then news == []
        else match result
             case Broadcast(event, payload) => FanOut(news, all, Push(topic, event, payload))
             case BroadcastFrom(event, payload) => FanOut(news, all - {clientPid}, Push(topic, event, payload))
             case _ => news == []
    {
      reply := None;
      if topic !in channels {
        return;
      }
      match result {
        case NoReply =>
        case Answer(status, payload) =>
          reply := Some(Replied(msgRef, if status.Ok? then "ok" else "error", payload));
        case Broadcast(event, payload) =>
          DoBroadcast(topic, {}, event, payload);
          assert PG.MembersOf(pg.Members(), GroupOf(topic)) - {} == PG.MembersOf(pg.Members(), GroupOf(topic));
        case BroadcastFrom(event, payload) =>
          DoBroadcast(topic, {clientPid}, event, payload);
        case PushBack(event, payload) =>
          reply := Some(Push(topic, event, payload));
        case Stop(_) =>
          HandleLeave(topic);
      }
    }

    method HandleLeave(topic: Topic)
      requires Valid()
      modifies this`channels, this`ended, pg
      ensures Valid() && Contents() == AfterLeave(old(Contents()), clientPid, topic, Left)
    {
      EndChannel(topic, Left);
    }

    /** The part that leaving and terminating share. */
    method EndChannel(topic: Topic, reason: TerminateReason)
      requires Valid()
      modifies this`channels, this`ended, pg
      ensures Valid() && channels == old(channels) - {topic}
      ensures Contents() == AfterLeave(old(Contents()), clientPid, topic, reason)
    {
      if topic in channels {
        var instance := channels[topic];
        channels := channels - {topic};
        ended := ended + [(instance, reason)];
        pg.Leave(GroupOf(topic), clientPid);
      }
    }

    /** To every member of the topic's group except those named. */
    method DoBroadcast(topic: Topic, except: set<Pid>, event: string, payload: Payload)
      requires Valid()
      modifies this`sent
      ensures |old(sent)| <= |sent| && sent[..|old(sent)|] == old(sent)
      ensures FanOut(sent[|old(sent)|..], PG.MembersOf(pg.Members(), GroupOf(topic)) - except,
                     Push(topic, event, payload))
    {
      var members := pg.GetMembers(GroupOf(topic));
      var todo := members;
      ghost var before := sent;
      ghost var news: seq<(Pid, Reply)> := [];
      var msg := Push(topic, event, payload);
      while todo != {}
        invariant todo <= members
        invariant sent == before + news
        invariant FanOut(news, members - todo - except, msg)
        decreases todo
      {
        var pid :| pid in todo;
        if pid !in except {
          FanOutOne(news, members - todo - except, msg, pid);
          sent := sent + [(pid, msg)];
          news := news + [(pid, msg)];
        }
        assert members - (todo - {pid}) - except == if pid in except then members - todo - except
          else members - todo - except + {pid};
        todo := todo - {pid};
      }
      assert members - {} - except == PG.MembersOf(pg.Members(), GroupOf(topic)) - except;
      assert sent[|old(sent)|..] == news;
    }

    /** Leaves every joined topic, in some order, telling each instance once why. */
    method Terminate(reason: TerminateReason) returns (ghost topics: seq<Topic>)
      requires Valid()
      modifies this`channels, this`ended, pg
      ensures Valid() && channels == map[]
      ensures Lists(topics, old(channels))
      ensures Contents() == AfterLeaves(old(Contents()), clientPid, topics, reason)
    {
      hide AfterLeave;
      topics := [];
      var todo := channels.Keys;
      while todo != {}
        invariant Valid()
        invariant channels.Keys == todo <= old(channels).Keys
        invariant forall t :: t in topics <==> t in old(channels) && t !in todo
        invariant NoDup(topics)
        invariant Contents() == AfterLeaves(old(Contents()), clientPid, topics, reason)
        decreases todo
      {
        var topic :| topic in todo;
        ghost var more := topics + [topic];
        assert more[..|more| - 1] == topics;
        EndChannel(topic, reason);
        topics := more;
        todo := todo - {topic};
      }
    }
  }

  lemma FanOutOne(news: seq<(Pid, Reply)>, to: set<Pid>, msg: Reply, pid: Pid)
    requires FanOut(news, to, msg) && pid !in to
    ensures FanOut(news + [(pid, msg)], to + {pid}, msg)
  {
    var more := news + [(pid, msg)];
    forall p | p in to + {pid} ensures exists i :: 0 <= i < |more| && more[i].0 == p {
      if p in to {
        var i :| 0 <= i < |news| && news[i].0 == p;
        assert more[i].0 == p;
      } else {
        assert more[|news|].0 == p;
      }
    }
  }
}
