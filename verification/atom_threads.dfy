/** Threads interning and reading back strings at the same time: each access to the shared map, to the lock and to the
    list is one step, and the steps of different threads interleave freely. */
module AtomThreads {
  import opened Options
  import opened AtomTable

  type Tid = nat

  datatype Pc =
    | Idle
    | Fast(s: string)                    // about to look the string up without the lock
    | Waiting(s: string)                 // about to take the write lock
    | Locked(s: string)                  // holds the lock, about to look again
    | Absent(s: string)                  // still not there: about to push
    | Pushed(s: string, index: Atom)     // about to publish the index
    | Unlocking(s: string, index: Atom)  // about to return, which drops the lock
    | Asking(a: Atom)                    // about to take the read lock
    | Reading(a: Atom)                   // holds the read lock

  datatype World = World(table: Table, writer: Option<Tid>, readers: set<Tid>, pcs: map<Tid, Pc>, log: seq<Event>)

  datatype Step =
    | CallIntern(t: Tid, s: string)
    | CallGet(t: Tid, a: Atom)
    | Advance(t: Tid)

  const START := World(EMPTY, None, {}, map[], [])

  function PcOf(w: World, t: Tid): Pc {
    if t in w.pcs then w.pcs[t] else Idle
  }

  predicate Enabled(w: World, st: Step) {
    match st
    case CallIntern(t, _) => PcOf(w, t).Idle?
    case CallGet(t, _) => PcOf(w, t).Idle?
    case Advance(t) =>
      match PcOf(w, t)
      case Idle => false
      case Waiting(_) => w.writer.None? && w.readers == {}
      case Asking(_) => w.writer.None?
      case _ => true
  }

  function Exec(w: World, st: Step): World {
    match st
    case CallIntern(t, s) => w.(pcs := w.pcs[t := Fast(s)])
    case CallGet(t, a) => w.(pcs := w.pcs[t := Asking(a)])
    case Advance(t) =>
      match PcOf(w, t)
      case Idle => w
      case Fast(s) =>
        if s in w.table.index then w.(pcs := w.pcs[t := Idle], log := w.log + [Interned(s, w.table.index[s])])
        else w.(pcs := w.pcs[t := Waiting(s)])
      case Waiting(s) => w.(writer := Some(t), pcs := w.pcs[t := Locked(s)])
      case Locked(s) =>
        if s in w.table.index then w.(pcs := w.pcs[t := Unlocking(s, w.table.index[s])])
        else w.(pcs := w.pcs[t := Absent(s)])
      case Absent(s) =>
        w.(table := w.table.(strings := w.table.strings + [s]),
           pcs := w.pcs[t := Pushed(s, Truncate(|w.table.strings|))])
      case Pushed(s, i) =>
        w.(table := w.table.(index := w.table.index[s := i]), pcs := w.pcs[t := Unlocking(s, i)])
      case Unlocking(s, i) => w.(writer := None, pcs := w.pcs[t := Idle], log := w.log + [Interned(s, i)])
      case Asking(a) => w.(readers := w.readers + {t}, pcs := w.pcs[t := Reading(a)])
      case Reading(a) =>
        w.(readers := w.readers - {t}, pcs := w.pcs[t := Idle], log := w.log + [Got(a, Lookup(w.table, a))])
  }

  ghost predicate IsRun(ws: seq<World>, steps: seq<Step>) {
    && |ws| == |steps| + 1
    && ws[0] == START
    && forall i :: 0 <= i < |steps| ==> Enabled(ws[i], steps[i]) && ws[i + 1] == Exec(ws[i], steps[i])
  }

  predicate HoldsWrite(pc: Pc) {
    pc.Locked? || pc.Absent? || pc.Pushed? || pc.Unlocking?
  }

  /** At most one thread is past the write lock, and no reader is beside it. */
  ghost predicate LocksOk(w: World) {
    && (forall t: Tid :: HoldsWrite(PcOf(w, t)) <==> w.writer == Some(t))
    && (forall t: Tid :: PcOf(w, t).Reading? <==> t in w.readers)
    && (w.writer.Some? ==> w.readers == {})
  }

  /** How far the shared table has come from the table `t` of the finished calls, by where the lock holder stands. */
  ghost predicate Underway(w: World, t: Table, pc: Pc) {
    match pc
    case Absent(s) => w.table == t && s !in t.index
    case Pushed(s, i) =>
      s !in t.index && i == Truncate(|t.strings|) && w.table == Table(t.index, t.strings + [s])
    case Unlocking(s, i) => (w.table == t || w.table == WithString(t, s)) && s in w.table.index && w.table.index[s] == i
    case _ => w.table == t
  }

  /** Where the holder of the write lock stands, if there is one. */
  function Holder(w: World): Pc {
    if w.writer.Some? then PcOf(w, w.writer.value) else Idle
  }

  ghost predicate WorldOk(w: World) {
    && LocksOk(w)
    && Legal(w.log)
    && Underway(w, Replay(w.log), Holder(w))
  }

  lemma StepLocks(w: World, st: Step)
    requires LocksOk(w) && Enabled(w, st)
    ensures LocksOk(Exec(w, st))
  {}

  /** A call that finishes reports what the call reports when made after all calls finished before it. */
  lemma StepOk(w: World, st: Step)
    requires WorldOk(w) && Enabled(w, st)
    ensures WorldOk(Exec(w, st))
  {
    StepLocks(w, st);
    var u := Exec(w, st);
    if u.log != w.log {
      FinishOk(w, st);
    } else {
      hide Legal, Replay, LocksOk;
      AdvanceOk(w, st);
    }
  }

  lemma AdvanceOk(w: World, st: Step)
    requires WorldOk(w) && Enabled(w, st) && Exec(w, st).log == w.log
    ensures Underway(Exec(w, st), Replay(w.log), Holder(Exec(w, st)))
  {}

  lemma FinishOk(w: World, st: Step)
    requires WorldOk(w) && Enabled(w, st) && Exec(w, st).log != w.log
    ensures Legal(Exec(w, st).log)
    ensures Underway(Exec(w, st), Replay(Exec(w, st).log), Holder(Exec(w, st)))
  {
    hide Legal, Replay, Truncate;
    var u, pc := Exec(w, st), PcOf(w, st.t);
    assert HoldsWrite(pc) <==> w.writer == Some(st.t);
    assert pc.Reading? <==> st.t in w.readers;
    ReplaySnoc(w.log, u.log[|u.log| - 1]);
  }

  lemma {:induction false} RunOk(ws: seq<World>, steps: seq<Step>, i: nat)
    requires IsRun(ws, steps) && i < |ws|
    ensures WorldOk(ws[i])
  {
    if i > 0 {
      RunOk(ws, steps, i - 1);
      StepOk(ws[i - 1], steps[i - 1]);
    }
  }

  /** In every interleaving the calls return what they return when made one after the other in the order in which they
      finish; whenever nobody holds the write lock, the table is the one those calls leave. */
  lemma Linearizable(ws: seq<World>, steps: seq<Step>, i: nat)
    requires IsRun(ws, steps) && i < |ws|
    ensures Legal(ws[i].log)
    ensures ws[i].writer.None? ==> ws[i].table == Replay(ws[i].log) && Consistent(ws[i].table)
  {
    RunOk(ws, steps, i);
    ReplayConsistent(ws[i].log);
  }

  /** The main promises of interning, in every interleaving: equal strings get equal atoms; different strings get
      different atoms exactly while at most 2^32 strings were interned; asking for the string of an atom handed out
      earlier succeeds, and gives that string back while at most 2^32 strings were interned. */
  lemma InterningIsFaithful(ws: seq<World>, steps: seq<Step>, i: nat)
    requires IsRun(ws, steps) && i < |ws|
    ensures var log := ws[i].log;
      && (forall j, k ::
            0 <= j < |log| && 0 <= k < |log| && log[j].Interned? && log[k].Interned? && log[j].s == log[k].s ==>
              log[j].atom == log[k].atom)
      && (AtomsDistinct(log) <==> |Replay(log).strings| <= ATOMS)
      && (forall j, k :: 0 <= j < k < |log| && log[j].Interned? && log[k].Got? && log[k].a == log[j].atom ==>
            log[k].found.Some? && (|Replay(log).strings| <= ATOMS ==> log[k].found.value == log[j].s))
  {
    var log := ws[i].log;
    RunOk(ws, steps, i);
    hide IsRun, WorldOk, Replay, Legal, AtomsDistinct;
    AtomsDistinctIff(log);
    forall j, k | 0 <= j < |log| && 0 <= k < |log| && log[j].Interned? && log[k].Interned? && log[j].s == log[k].s
      ensures log[j].atom == log[k].atom
    {
      EqualStringsEqualAtoms(log, j, k);
    }
    forall j, k | 0 <= j < k < |log| && log[j].Interned? && log[k].Got? && log[k].a == log[j].atom
      ensures log[k].found.Some? && (|Replay(log).strings| <= ATOMS ==> log[k].found.value == log[j].s)
    {
      GetGivesBackIff(log, j, k);
      var n := PositionOf(log, j);
    }
  }

  lemma StepGrows(w: World, st: Step)
    requires WorldOk(w) && Enabled(w, st)
    ensures w.table.strings <= Exec(w, st).table.strings
    ensures forall s :: s in w.table.index ==>
      s in Exec(w, st).table.index && Exec(w, st).table.index[s] == w.table.index[s]
  {}

  /** Even between the push and the insert, no entry of the shared table ever changes or goes away. */
  lemma {:induction false} TableOnlyGrows(ws: seq<World>, steps: seq<Step>, i: nat, j: nat)
    requires IsRun(ws, steps) && i <= j < |ws|
    ensures ws[i].table.strings <= ws[j].table.strings
    ensures forall s :: s in ws[i].table.index ==>
      s in ws[j].table.index && ws[j].table.index[s] == ws[i].table.index[s]
    decreases j
  {
    hide WorldOk, Enabled, Exec;
    if i < j {
      TableOnlyGrows(ws, steps, i, j - 1);
      RunOk(ws, steps, j - 1);
      StepGrows(ws[j - 1], steps[j - 1]);
    }
  }

  /** As long as some call is unfinished, some thread can take a step of its call. */
  lemma NeverStuck(ws: seq<World>, steps: seq<Step>, i: nat, t: Tid) returns (able: Tid)
    requires IsRun(ws, steps) && i < |ws| && !PcOf(ws[i], t).Idle?
    ensures Enabled(ws[i], Advance(able))
  {
    RunOk(ws, steps, i);
    var w := ws[i];
    able := t;
    if w.writer.Some? {
      able := w.writer.value;
      assert HoldsWrite(PcOf(w, able));
    } else if w.readers != {} {
      able :| able in w.readers;
      assert PcOf(w, able).Reading?;
    }
  }

  // ---------- every legal history is the history of some run ----------

  lemma ExtendRun(ws: seq<World>, steps: seq<Step>, st: Step)
    requires IsRun(ws, steps) && Enabled(ws[|steps|], st)
    ensures |ws| == |steps| + 1 && IsRun(ws + [Exec(ws[|steps|], st)], steps + [st])
  {
    hide Enabled, Exec;
  }

  /** Nobody holds a lock, and thread 0 is in no call. */
  ghost predicate Quiet(w: World) {
    w.writer.None? && w.readers == {} && PcOf(w, 0).Idle? && w.table == Replay(w.log)
  }

  lemma PcAgain(pcs: map<Tid, Pc>, a: Pc, b: Pc)
    ensures pcs[0 := a][0 := b] == pcs[0 := b]
  {}

  /** One slow call up to the point where the lock is held and the string is known to be absent. */
  lemma SlowStart(ws: seq<World>, steps: seq<Step>, s: string) returns (ws': seq<World>, steps': seq<Step>)
    requires IsRun(ws, steps) && |ws| == |steps| + 1 && Quiet(ws[|steps|]) && s !in ws[|steps|].table.index
    ensures IsRun(ws', steps') && |ws'| == |steps'| + 1
    ensures var w := ws[|steps|]; ws'[|steps'|] == w.(writer := Some(0), pcs := w.pcs[0 := Absent(s)])
  {
    hide IsRun, Replay;
    var w := ws[|steps|];
    ExtendRun(ws, steps, CallIntern(0, s));
    ws', steps' := ws + [w.(pcs := w.pcs[0 := Fast(s)])], steps + [CallIntern(0, s)];
    ExtendRun(ws', steps', Advance(0));
    PcAgain(w.pcs, Fast(s), Waiting(s));
    ws', steps' := ws' + [w.(pcs := w.pcs[0 := Waiting(s)])], steps' + [Advance(0)];
    ExtendRun(ws', steps', Advance(0));
    PcAgain(w.pcs, Waiting(s), Locked(s));
    ws', steps' := ws' + [w.(writer := Some(0), pcs := w.pcs[0 := Locked(s)])], steps' + [Advance(0)];
    ExtendRun(ws', steps', Advance(0));
    PcAgain(w.pcs, Locked(s), Absent(s));
    ws', steps' := ws' + [w.(writer := Some(0), pcs := w.pcs[0 := Absent(s)])], steps' + [Advance(0)];
  }

  /** And from there to its end. */
  lemma SlowEnd(ws: seq<World>, steps: seq<Step>, s: string) returns (ws': seq<World>, steps': seq<Step>)
    requires IsRun(ws, steps) && |ws| == |steps| + 1 && PcOf(ws[|steps|], 0) == Absent(s)
    requires s !in ws[|steps|].table.index
    ensures IsRun(ws', steps') && |ws'| == |steps'| + 1
    ensures var w, i := ws[|steps|], Truncate(|ws[|steps|].table.strings|);
      ws'[|steps'|] ==
        World(WithString(w.table, s), None, w.readers, w.pcs[0 := Idle], w.log + [Interned(s, i)])
  {
    hide IsRun, Truncate;
    var w, i := ws[|steps|], Truncate(|ws[|steps|].table.strings|);
    var pushed := w.table.(strings := w.table.strings + [s]);
    ExtendRun(ws, steps, Advance(0));
    ws', steps' := ws + [w.(table := pushed, pcs := w.pcs[0 := Pushed(s, i)])], steps + [Advance(0)];
    ExtendRun(ws', steps', Advance(0));
    PcAgain(w.pcs, Pushed(s, i), Unlocking(s, i));
    ws', steps' := ws' + [w.(table := WithString(w.table, s), pcs := w.pcs[0 := Unlocking(s, i)])],
      steps' + [Advance(0)];
    ExtendRun(ws', steps', Advance(0));
    PcAgain(w.pcs, Unlocking(s, i), Idle);
    ws' := ws' + [World(WithString(w.table, s), None, w.readers, w.pcs[0 := Idle], w.log + [Interned(s, i)])];
    steps' := steps' + [Advance(0)];
  }

  /** Thread 0 makes one more call. */
  lemma OneCall(ws: seq<World>, steps: seq<Step>, e: Event) returns (ws': seq<World>, steps': seq<Step>)
    requires IsRun(ws, steps) && |ws| == |steps| + 1 && Quiet(ws[|steps|]) && Answers(Replay(ws[|steps|].log), e)
    ensures IsRun(ws', steps') && |ws'| == |steps'| + 1
    ensures Quiet(ws'[|steps'|]) && ws'[|steps'|].log == ws[|steps|].log + [e]
  {
    hide IsRun, Replay, Truncate;
    var w := ws[|steps|];
    ReplaySnoc(w.log, e);
    if e.Got? {
      ExtendRun(ws, steps, CallGet(0, e.a));
      ws', steps' := ws + [w.(pcs := w.pcs[0 := Asking(e.a)])], steps + [CallGet(0, e.a)];
      ExtendRun(ws', steps', Advance(0));
      PcAgain(w.pcs, Asking(e.a), Reading(e.a));
      assert w.readers + {0} == {0};
      ws', steps' := ws' + [w.(readers := {0}, pcs := w.pcs[0 := Reading(e.a)])], steps' + [Advance(0)];
      ExtendRun(ws', steps', Advance(0));
      ws', steps' := ws' + [Exec(ws'[|steps'|], Advance(0))], steps' + [Advance(0)];
    } else if e.s in w.table.index {
      ExtendRun(ws, steps, CallIntern(0, e.s));
      ws', steps' := ws + [w.(pcs := w.pcs[0 := Fast(e.s)])], steps + [CallIntern(0, e.s)];
      ExtendRun(ws', steps', Advance(0));
      ws', steps' := ws' + [Exec(ws'[|steps'|], Advance(0))], steps' + [Advance(0)];
    } else {
      ws', steps' := SlowStart(ws, steps, e.s);
      ws', steps' := SlowEnd(ws', steps', e.s);
    }
  }

  /** Conversely to `Linearizable`: every legal history is the history of some run. So what is shown to be possible in a
      legal history, such as two strings sharing an atom, is possible in a run. */
  lemma {:induction false} EveryLegalHistoryRuns(log: seq<Event>) returns (ws: seq<World>, steps: seq<Step>)
    requires Legal(log)
    ensures IsRun(ws, steps) && |ws| == |steps| + 1 && ws[|steps|].log == log && Quiet(ws[|steps|])
  {
    if log == [] {
      ws, steps := [START], [];
    } else {
      var n := |log| - 1;
      LegalPrefix(log, n);
      assert Answers(Replay(log[..n]), log[n]) && log == log[..n] + [log[n]];
      hide Legal, Replay, IsRun;
      ws, steps := EveryLegalHistoryRuns(log[..n]);
      ws, steps := OneCall(ws, steps, log[n]);
    }
  }
}
