/** The application controller: it resolves dependencies depth first, starts applications after their
    dependencies, and stops everything in the reverse order. */
module AppController {
  import opened Options
  import opened AppGraph
  import opened Pids
  import opened Sequences

  type Config = map<string, string>

  datatype StartError =
    | NotFound(name: Name)
    | AlreadyRunning(name: Name)
    | StartFailed(message: string)
    | CircularDependency(path: seq<Name>)

  datatype Result<T> = Ok(value: T) | Err(error: StartError)

  /** What an application's own start function answers. */
  datatype StartResult = Started(pid: Option<Pid>) | Refused(message: string)

  datatype RunningApp = RunningApp(name: Name, pid: Option<Pid>, config: Config)
  datatype Event = Start(name: Name, config: Config) | Stop(name: Name, pid: Option<Pid>)

  /** The accumulators of one depth-first walk. */
  class DepWalk {
    var result: seq<Name>
    var visited: set<Name>
    var path: seq<Name>

    constructor ()
      ensures result == [] && visited == {} && path == []
    {
      result, visited, path := [], {}, [];
    }

    ghost predicate Valid(reg: Registry)
      reads this
    {
      Ordered(reg, result) && visited == NameSet(result)
    }
  }

  lemma PathGrows(reg: Registry, path: seq<Name>, name: Name)
    requires name in reg && name !in path
    ensures reg.Keys - NameSet(path + [name]) < reg.Keys - NameSet(path)
  {
    assert name in reg.Keys - NameSet(path);
    assert name in path + [name];
  }

  /** The recursive visitor. It appends the names reachable from `name` that are not in the result yet, each after
      its dependencies, or reports a real cycle or a reachable name that is not registered. */
  method VisitDeps(name: Name, reg: Registry, w: DepWalk) returns (r: Result<()>)
    requires w.Valid(reg)
    requires IsWalk(reg, w.path + [name]) && NoDup(w.path)
    requires forall x :: x in w.path ==> x in reg && x !in w.visited
    modifies w
    decreases reg.Keys - NameSet(w.path)
    ensures w.Valid(reg) && old(w.result) <= w.result
    ensures forall x :: x in w.result && x !in old(w.result) ==> Reaches(reg, name, x) && x !in old(w.path)
    ensures r.Ok? ==> w.path == old(w.path) && name in w.result
    ensures r.Err? ==>
      match r.error
      case CircularDependency(p) => IsCycleFrom(reg, old(w.path) + [name], p)
      case NotFound(n) => n !in reg && Reaches(reg, name, n)
      case _ => false
  {
    hide Ordered, Reaches, IsWalk;
    if name in w.path {
      w.path := w.path + [name];
      assert w.path[..|w.path| - 1] == old(w.path);
      return Err(CircularDependency(w.path));
    }
    if name in w.visited {
      return Ok(());
    }
    WalkAlone(reg, name);
    if name !in reg {
      return Err(NotFound(name));
    }
    PathGrows(reg, w.path, name);
    w.path := w.path + [name];
    var deps := reg[name];
    var i := 0;
    while i < |deps|
      invariant 0 <= i <= |deps|
      invariant w.Valid(reg) && old(w.result) <= w.result
      invariant w.path == old(w.path) + [name]
      invariant forall x :: x in w.result && x !in old(w.result) ==> Reaches(reg, name, x) && x !in w.path
      invariant forall j :: 0 <= j < i ==> deps[j] in w.result
    {
      var dep := deps[i];
      WalkExtend(reg, w.path, dep);
      ghost var before := w.result;
      var visit := VisitDeps(dep, reg, w);
      forall x | x in w.result && x !in before ensures Reaches(reg, name, x) {
        ReachesThrough(reg, name, dep, x);
      }
      if visit.Err? {
        if visit.error.NotFound? { ReachesThrough(reg, name, dep, visit.error.name); }
        return visit;
      }
      i := i + 1;
    }
    assert w.path[..|w.path| - 1] == old(w.path);
    w.path := w.path[..|w.path| - 1];
    OrderedAppend(reg, w.result, name);
    w.visited := w.visited + {name};
    w.result := w.result + [name];
    return Ok(());
  }

  /** The names running after some events, from those running before. */
  ghost function RunningAfter(running: set<Name>, events: seq<Event>): set<Name> {
    if events == [] then running else
      var before := RunningAfter(running, events[..|events| - 1]);
      match events[|events| - 1]
      case Start(n, _) => before + {n}
      case Stop(n, _) => before - {n}
  }

  /** Every application was started once, while all its dependencies were running. */
  ghost predicate StartsInOrder(reg: Registry, running: set<Name>, events: seq<Event>) {
    events == [] || (
      && StartsInOrder(reg, running, events[..|events| - 1])
      && (var e := events[|events| - 1];
          var before := RunningAfter(running, events[..|events| - 1]);
          e.Start? ==> e.name in reg && e.name !in before && forall d :: d in reg[e.name] ==> d in before))
  }

  ghost predicate DependencyClosed(reg: Registry, running: set<Name>) {
    forall n, d :: n in running && n in reg && d in reg[n] ==> d in running
  }

  /** Among stop events, no later application depends on an earlier one. */
  ghost predicate StopsInOrder(reg: Registry, events: seq<Event>) {
    && (forall i :: 0 <= i < |events| ==> events[i].Stop?)
    && forall i, j :: 0 <= i < j < |events| ==> !Reaches(reg, events[j].name, events[i].name)
  }

  /** Part of a startup order has been worked through: what runs now, compared with before. */
  ghost predicate Progress(reg: Registry, before: map<Name, RunningApp>, now: map<Name, RunningApp>, events: seq<Event>,
                           order: seq<Name>, name: Name, config: Config, starts: Name -> StartResult) {
    && now.Keys == RunningAfter(before.Keys, events)
    && StartsInOrder(reg, before.Keys, events)
    && (DependencyClosed(reg, before.Keys) ==> DependencyClosed(reg, now.Keys))
    && (forall n :: n in before ==> n in now && now[n] == before[n])
    && (forall n :: n in now && n !in before ==>
          && n in order && starts(n).Started?
          && now[n] == RunningApp(n, starts(n).pid, if n == name then config else map[]))
    && StartsConfigured(events, name, config)
  }

  /** The application refused to start, with this message, although all its dependencies were running. */
  ghost predicate RefusedIn(reg: Registry, running: map<Name, RunningApp>, starts: Name -> StartResult, n: Name,
                            message: string) {
    n !in running && starts(n) == Refused(message) && n in reg && forall d :: d in reg[n] ==> d in running
  }

  /** Applications are only started, the requested one with the given configuration and the others with an empty one. */
  ghost predicate StartsConfigured(events: seq<Event>, name: Name, config: Config) {
    forall i :: 0 <= i < |events| ==>
      events[i].Start? && events[i].config == if events[i].name == name then config else map[]
  }

  /** Applications are only stopped: each one that stops running once, with its own process, and no other. */
  ghost predicate StopsEachOnce(before: map<Name, RunningApp>, now: map<Name, RunningApp>, events: seq<Event>) {
    && (forall i :: 0 <= i < |events| ==>
          && events[i].Stop? && events[i].name in before && events[i].name !in now
          && events[i].pid == before[events[i].name].pid)
    && (forall i, j :: 0 <= i < j < |events| ==> events[i].name != events[j].name)
    && (forall n :: n in before && n !in now ==> exists i :: 0 <= i < |events| && events[i].name == n)
  }

  lemma NoStops(running: map<Name, RunningApp>)
    ensures StopsEachOnce(running, running, []) && RunningAfter(running.Keys, []) == running.Keys
  {}

  lemma StopsOneMore(before: map<Name, RunningApp>, now: map<Name, RunningApp>, events: seq<Event>, n: Name)
    requires StopsEachOnce(before, now, events) && now.Keys <= before.Keys && n in now && n in before
    requires now.Keys == RunningAfter(before.Keys, events)
    ensures var more := events + [Stop(n, before[n].pid)];
      StopsEachOnce(before, now - {n}, more) && (now - {n}).Keys == RunningAfter(before.Keys, more)
  {
    var more := events + [Stop(n, before[n].pid)];
    assert more[..|more| - 1] == events;
    forall m | m in before && m !in now - {n} ensures exists i :: 0 <= i < |more| && more[i].name == m {
      if m == n {
        assert more[|events|].name == m;
      } else {
        var i :| 0 <= i < |events| && events[i].name == m;
        assert more[i].name == m;
      }
    }
  }

  lemma ProgressStep(reg: Registry, before: map<Name, RunningApp>, now: map<Name, RunningApp>, events: seq<Event>,
                     order: seq<Name>, name: Name, config: Config, starts: Name -> StartResult, app: Name)
    requires Progress(reg, before, now, events, order, name, config, starts)
    requires app in order && app !in now && starts(app).Started?
    requires app in reg && forall d :: d in reg[app] ==> d in now
    ensures var appConfig := if app == name then config else map[];
      Progress(reg, before, now[app := RunningApp(app, starts(app).pid, appConfig)], events + [Start(app, appConfig)],
               order, name, config, starts)
  {
    OneMoreStarted(reg, before.Keys, now.Keys, events, app, if app == name then config else map[]);
    OneMoreConfigured(events, app, name, config);
    hide StartsConfigured, RunningAfter, StartsInOrder, DependencyClosed;
  }

  lemma OneMoreStarted(reg: Registry, before: set<Name>, now: set<Name>, events: seq<Event>, app: Name, config: Config)
    requires now == RunningAfter(before, events) && StartsInOrder(reg, before, events)
    requires app in reg && app !in now && forall d :: d in reg[app] ==> d in now
    ensures var more := events + [Start(app, config)];
      RunningAfter(before, more) == now + {app} && StartsInOrder(reg, before, more)
    ensures DependencyClosed(reg, now) ==> DependencyClosed(reg, now + {app})
  {
    var more := events + [Start(app, config)];
    assert more[..|more| - 1] == events;
  }

  lemma OneMoreConfigured(events: seq<Event>, app: Name, name: Name, config: Config)
    requires StartsConfigured(events, name, config)
    ensures StartsConfigured(events + [Start(app, if app == name then config else map[])], name, config)
  {}

  lemma NoProgress(reg: Registry, now: map<Name, RunningApp>, order: seq<Name>, name: Name, config: Config,
                   starts: Name -> StartResult)
    ensures Progress(reg, now, now, [], order, name, config, starts)
  {}

  lemma ProgressParts(reg: Registry, before: map<Name, RunningApp>, now: map<Name, RunningApp>, events: seq<Event>,
                      order: seq<Name>, name: Name, config: Config, starts: Name -> StartResult)
    requires Progress(reg, before, now, events, order, name, config, starts)
    ensures before.Keys <= now.Keys
    ensures forall n :: n in now && n !in before ==> n in order && starts(n).Started?
  {}

  class Controller {
    var registered: Registry
    var running: map<Name, RunningApp>
    var log: seq<Event>

    constructor ()
      ensures registered == map[] && running == map[] && log == []
    {
      registered, running, log := map[], map[], [];
    }

    method Register(name: Name, dependencies: seq<Name>)
      modifies this`registered
      ensures registered == old(registered)[name := dependencies]
    {
      registered := registered[name := dependencies];
    }

    /** Succeeds exactly when everything reachable is registered and acyclic; the order is then exactly the
        reachable names, each once and after its dependencies, the requested name last. */
    method ResolveDependencies(name: Name) returns (r: Result<seq<Name>>)
      ensures r.Ok? <==> Resolvable(registered, name)
      ensures r.Ok? ==>
        && Ordered(registered, r.value)
        && (forall x :: x in r.value <==> Reaches(registered, name, x))
        && |r.value| > 0 && r.value[|r.value| - 1] == name
      ensures r.Err? ==>
        match r.error
        case CircularDependency(p) => IsCycleFrom(registered, [name], p)
        case NotFound(n) => n !in registered && Reaches(registered, name, n)
        case _ => false
    {
      var w := new DepWalk();
      WalkAlone(registered, name);
      assert w.path + [name] == [name];
      var visit := VisitDeps(name, registered, w);
      if visit.Err? {
        if visit.error.CircularDependency? {
          CycleNotResolvable(registered, name, visit.error.path);
        } else {
          MissingNotResolvable(registered, name, visit.error.name);
        }
        return Err(visit.error);
      }
      OrderedResolves(registered, w.result, name);
      RequestedLast(registered, w.result, name);
      return Ok(w.result);
    }

    /** Starts what is not running yet, dependencies first. `starts` is what each application's start function
        answers. Whatever happens, applications are started only while all their dependencies run. */
    method StartWithConfig(name: Name, config: Config, starts: Name -> StartResult) returns (r: Result<()>)
      modifies this`running, this`log
      ensures old(log) <= log
      ensures running.Keys == RunningAfter(old(running).Keys, log[|old(log)|..])
      ensures StartsInOrder(registered, old(running).Keys, log[|old(log)|..])
      ensures DependencyClosed(registered, old(running).Keys) ==> DependencyClosed(registered, running.Keys)
      ensures forall n :: n in old(running) ==> n in running && running[n] == old(running)[n]
      ensures forall n :: n in running && n !in old(running) ==>
        && Reaches(registered, name, n) && starts(n).Started?
        && running[n] == RunningApp(n, starts(n).pid, if n == name then config else map[])
      ensures r.Ok? <==>
        && name !in old(running) && Resolvable(registered, name)
        && forall n :: Reaches(registered, name, n) && n !in old(running) ==> starts(n).Started?
      ensures r.Ok? ==> forall n :: Reaches(registered, name, n) ==> n in running
      ensures r.Err? && !r.error.StartFailed? ==> running == old(running) && log == old(log)
      ensures r == Err(AlreadyRunning(name)) <==> name in old(running)
      ensures StartsConfigured(log[|old(log)|..], name, config)
      ensures r.Err? ==>
        match r.error
        case AlreadyRunning(n) => n == name
        case CircularDependency(p) => IsCycleFrom(registered, [name], p)
        case NotFound(n) => n !in registered && Reaches(registered, name, n)
        case StartFailed(message) =>
          exists n :: Reaches(registered, name, n) && RefusedIn(registered, running, starts, n, message)
    {
      if name in running {
        return Err(AlreadyRunning(name));
      }
      var resolved := ResolveDependencies(name);
      if resolved.Err? {
        return Err(resolved.error);
      }
      var failed := StartOrder(resolved.value, name, config, starts);
      if failed.Some? {
        return Err(StartFailed(failed.value));
      }
      return Ok(());
    }

    /** The startup loop of `StartWithConfig`: it ends early with the message of the first refusal. */
    method StartOrder(order: seq<Name>, name: Name, config: Config, starts: Name -> StartResult)
        returns (failed: Option<string>)
      requires Ordered(registered, order)
      modifies this`running, this`log
      ensures old(log) <= log
      ensures Progress(registered, old(running), running, log[|old(log)|..], order, name, config, starts)
      ensures failed.None? ==> forall n :: n in order ==> n in running
      ensures failed.Some? ==> exists n :: n in order && RefusedIn(registered, running, starts, n, failed.value)
      ensures failed.None? <==> forall n :: n in order && n !in old(running) ==> starts(n).Started?
    {
      hide RunningAfter, StartsInOrder, DependencyClosed, Progress, Ordered;
      ghost var events: seq<Event> := [];
      NoProgress(registered, running, order, name, config, starts);
      var i := 0;
      while i < |order|
        invariant 0 <= i <= |order|
        invariant log == old(log) + events
        invariant Progress(registered, old(running), running, events, order, name, config, starts)
        invariant forall j :: 0 <= j < i ==> order[j] in running
      {
        var app := order[i];
        StartsNext(registered, order, i, running.Keys);
        if app !in running {
          var appConfig := if app == name then config else map[];
          var result := starts(app);
          if result.Refused? {
            assert RefusedIn(registered, running, starts, app, result.message);
            assert log[|old(log)|..] == events;
            ProgressParts(registered, old(running), running, events, order, name, config, starts);
            return Some(result.message);
          }
          ProgressStep(registered, old(running), running, events, order, name, config, starts, app);
          running := running[app := RunningApp(app, result.pid, appConfig)];
          log := log + [Start(app, appConfig)];
          events := events + [Start(app, appConfig)];
        }
        i := i + 1;
      }
      assert log[|old(log)|..] == events;
      ProgressParts(registered, old(running), running, events, order, name, config, starts);
      return None;
    }

    /** Stops one application; answers whether it was running. */
    method StopApp(name: Name) returns (stopped: bool)
      modifies this`running, this`log
      ensures stopped <==> name in old(running)
      ensures running == old(running) - {name}
      ensures log == if stopped then old(log) + [Stop(name, old(running)[name].pid)] else old(log)
    {
      if name !in running {
        return false;
      }
      log := log + [Stop(name, running[name].pid)];
      running := running - {name};
      return true;
    }

    /** Stops everything that resolves, dependents before their dependencies, whatever the order in which the
        running applications are listed. Exactly the running applications that do not resolve stay. */
    method StopAll()
      modifies this`running, this`log
      ensures running == map n | n in old(running) && !Resolvable(registered, n) :: old(running)[n]
      ensures old(log) <= log && StopsInOrder(registered, log[|old(log)|..])
      ensures StopsEachOnce(old(running), running, log[|old(log)|..])
      ensures running.Keys == RunningAfter(old(running).Keys, log[|old(log)|..])
    {
      if running == map[] {
        assert log[|old(log)|..] == [];
        return;
      }
      var startupOrder := StartupOrderOfRunning();
      OrderResolves(registered, startupOrder);
      StopReversed(startupOrder);
    }

    /** The startup order of everything that runs, as far as it resolves; errors are ignored. */
    method StartupOrderOfRunning() returns (order: seq<Name>)
      ensures Ordered(registered, order)
      ensures forall n :: n in running ==> (n in order <==> Resolvable(registered, n))
    {
      hide Ordered, Resolvable, IsWalk, IsCycleFrom;
      var w := new DepWalk();
      NothingOrdered(registered);
      var names := running.Keys;
      while names != {}
        invariant names <= running.Keys
        invariant w.Valid(registered)
        invariant forall n :: n in running && n !in names ==> (n in w.result <==> Resolvable(registered, n))
        decreases names
      {
        var name :| name in names;
        w.path := [];
        WalkAlone(registered, name);
        assert w.path + [name] == [name];
        var visit := VisitDeps(name, registered, w);
        OrderResolves(registered, w.result);
        if visit.Err? {
          if visit.error.CircularDependency? {
            CycleNotResolvable(registered, name, visit.error.path);
          } else {
            MissingNotResolvable(registered, name, visit.error.name);
          }
        }
        names := names - {name};
      }
      return w.result;
    }

    /** The shutdown loop: the order backwards; names that do not run are passed over. */
    method StopReversed(order: seq<Name>)
      requires Ordered(registered, order)
      modifies this`running, this`log
      ensures running == old(running) - NameSet(order)
      ensures old(log) <= log && StopsInOrder(registered, log[|old(log)|..])
      ensures StopsEachOnce(old(running), running, log[|old(log)|..])
      ensures running.Keys == RunningAfter(old(running).Keys, log[|old(log)|..])
    {
      hide Ordered, Reaches, StopsEachOnce, RunningAfter, StopsInOrder;
      NoStops(running);
      NoneStopped(registered);
      var i := |order|;
      ghost var events: seq<Event> := [];
      while i > 0
        invariant 0 <= i <= |order|
        invariant log == old(log) + events
        invariant running == old(running) - NameSet(order[i..])
        invariant StopsInOrder(registered, events) && forall k :: 0 <= k < |events| ==> events[k].name in order[i..]
        invariant StopsEachOnce(old(running), running, events)
        invariant running.Keys == RunningAfter(old(running).Keys, events)
      {
        i := i - 1;
        assert order[i..] == [order[i]] + order[i + 1..];
        ghost var before := running;
        var stopped := StopApp(order[i]);
        if stopped {
          StopsNext(registered, order, i, events, old(running)[order[i]].pid);
          StopsOneMore(old(running), before, events, order[i]);
          events := events + [Stop(order[i], old(running)[order[i]].pid)];
        } else {
          assert running == before;
        }
      }
      assert order[0..] == order;
      assert log[|old(log)|..] == events;
    }
  }

  /** One more stop: whatever was stopped before comes later in the order and does not depend on it. */
  lemma StopsNext(reg: Registry, order: seq<Name>, i: nat, events: seq<Event>, pid: Option<Pid>)
    requires Ordered(reg, order) && i < |order| && StopsInOrder(reg, events)
    requires forall k :: 0 <= k < |events| ==> events[k].name in order[i + 1..]
    ensures StopsInOrder(reg, events + [Stop(order[i], pid)])
    ensures forall k :: 0 <= k <= |events| ==> (events + [Stop(order[i], pid)])[k].name in order[i..]
  {
    LaterNotDependent(reg, order, i);
    hide Ordered, Reaches;
    assert order[i..] == [order[i]] + order[i + 1..];
  }

  lemma NoneStopped(reg: Registry)
    ensures StopsInOrder(reg, [])
  {}

  lemma NothingOrdered(reg: Registry)
    ensures Ordered(reg, [])
  {}

  lemma OrderResolves(reg: Registry, order: seq<Name>)
    requires Ordered(reg, order)
    ensures forall n :: n in order ==> Resolvable(reg, n)
  {
    forall n | n in order ensures Resolvable(reg, n) { OrderedResolves(reg, order, n); }
  }

  /** The next application in the order has all its dependencies running. */
  lemma StartsNext(reg: Registry, order: seq<Name>, i: nat, running: set<Name>)
    requires Ordered(reg, order) && i < |order| && forall j :: 0 <= j < i ==> order[j] in running
    ensures order[i] in reg && forall d :: d in reg[order[i]] ==> d in running
  {}

  lemma RequestedLast(reg: Registry, order: seq<Name>, name: Name)
    requires Ordered(reg, order) && name in order
    requires forall x :: x in order ==> Reaches(reg, name, x)
    ensures |order| > 0 && order[|order| - 1] == name
  {
    OrderedResolves(reg, order, name);
    var last := order[|order| - 1];
    assert last in order;
    assert IndexOf(order, last) <= IndexOf(order, name);
  }

  /** No name at or before position `i` depends on a later one. */
  lemma LaterNotDependent(reg: Registry, order: seq<Name>, i: nat)
    requires Ordered(reg, order) && i < |order|
    ensures forall x :: x in order[i + 1..] ==> !Reaches(reg, order[i], x)
  {
    OrderedResolves(reg, order, order[i]);
    forall x | x in order[i + 1..] ensures !Reaches(reg, order[i], x) {
      var j :| 0 <= j < |order[i + 1..]| && order[i + 1..][j] == x;
      assert order[i + 1 + j] == x;
    }
  }

  /** Registering a running application anew can leave it running but unresolvable, and `stop_all` passes it over. */
  method ReregisteredStaysUp() returns (c: Controller)
    ensures fresh(c) && "a" in c.running && !Resolvable(c.registered, "a")
  {
    c := new Controller();
    c.Register("a", []);
    AloneResolves(c.registered, "a");
    var started := c.StartWithConfig("a", map[], _ => Started(None));
    c.Register("a", ["a"]);
    LoopUnresolvable(c.registered, "a");
    c.StopAll();
  }

  lemma LoopUnresolvable(reg: Registry, a: Name)
    requires a in reg && a in reg[a]
    ensures !Resolvable(reg, a)
  {
    var p := [a, a];
    assert IsWalk(reg, p) && p[0] == p[1];
  }

  lemma AloneResolves(reg: Registry, a: Name)
    requires a in reg && reg[a] == []
    ensures Resolvable(reg, a)
  {
    OrderedResolves(reg, [a], a);
  }
}
