/** The table of interned strings: a map from string to index beside the list of strings, with 32-bit indexes. */
module AtomTable {
  import opened Options
  import opened Sequences

  /** The number of different indexes an atom can hold. */
  const ATOMS: nat := 0x1_0000_0000

  /** An atom: the list position, truncated to 32 bits. */
  type Atom = nat

  datatype Table = Table(index: map<string, Atom>, strings: seq<string>)

  const EMPTY := Table(map[], [])

  /** The conversion of a list length to 32 bits. */
  function Truncate(n: nat): (a: Atom)
    ensures a < ATOMS && a <= n && (n < ATOMS ==> a == n)
  {
    n % ATOMS
  }

  /** Truncation wraps: two positions give the same atom exactly when they are a multiple of 2^32 apart. */
  lemma TruncateAlike(m: nat, n: nat)
    ensures Truncate(m) == Truncate(n) <==> (m - n) % ATOMS == 0
  {
    if Truncate(m) == Truncate(n) {
      Multiple(m - n, m / ATOMS - n / ATOMS, 0);
    }
    if (m - n) % ATOMS == 0 {
      Multiple(m, (m - n) / ATOMS + n / ATOMS, n % ATOMS);
    }
  }

  lemma Multiple(m: int, k: int, rest: nat)
    requires m == k * ATOMS + rest && rest < ATOMS
    ensures m % ATOMS == rest
  {}

  // ---------- one call at a time ----------

  function WithString(t: Table, s: string): Table {
    if s in t.index then t else Table(t.index[s := Truncate(|t.strings|)], t.strings + [s])
  }

  function Lookup(t: Table, a: Atom): Option<string> {
    if a < |t.strings| then Some(t.strings[a]) else None
  }

  /** Every string is listed once, and its index is its position modulo 2^32. */
  ghost predicate Consistent(t: Table) {
    && NoDup(t.strings)
    && (forall s :: s in t.index <==> s in t.strings)
    && (forall i :: 0 <= i < |t.strings| ==> t.index[t.strings[i]] == Truncate(i))
  }

  lemma InternKeeps(t: Table, s: string)
    requires Consistent(t)
    ensures Consistent(WithString(t, s)) && s in WithString(t, s).index
    ensures t.strings <= WithString(t, s).strings
    ensures forall r :: r in t.index ==> r in WithString(t, s).index && WithString(t, s).index[r] == t.index[r]
  {
    var u := WithString(t, s);
    if s !in t.index {
      assert u.strings[|t.strings|] == s;
    }
  }

  class AtomTable {
    var stringToIndex: map<string, Atom>
    var indexToString: seq<string>

    ghost function Contents(): Table
      reads this
    {
      Table(stringToIndex, indexToString)
    }

    constructor ()
      ensures Contents() == EMPTY
    {
      stringToIndex, indexToString := map[], [];
    }

    method Intern(s: string) returns (atom: Atom)
      requires Consistent(Contents())
      modifies this
      ensures Consistent(Contents())
      ensures s in stringToIndex && atom == stringToIndex[s] < ATOMS
      ensures Contents() == WithString(old(Contents()), s)
    {
      InternKeeps(Contents(), s);
      if s in stringToIndex {
        assert s in indexToString;
        return stringToIndex[s];
      }
      var index := Truncate(|indexToString|);
      indexToString := indexToString + [s];
      stringToIndex := stringToIndex[s := index];
      atom := index;
    }

    method Get(atom: Atom) returns (found: Option<string>)
      ensures found == Lookup(Contents(), atom)
    {
      if atom < |indexToString| {
        found := Some(indexToString[atom]);
      } else {
        found := None;
      }
    }
  }

  // ---------- histories of calls ----------

  datatype Event = Interned(s: string, atom: Atom) | Got(a: Atom, found: Option<string>)

  /** The table after the calls of a history, made one after the other. */
  function Replay(log: seq<Event>): Table {
    if log == [] then EMPTY
    else
      var t := Replay(log[..|log| - 1]);
      match log[|log| - 1]
      case Interned(s, _) => WithString(t, s)
      case Got(_, _) => t
  }

  /** What the event reports is what the call returns on this table. */
  predicate Answers(t: Table, e: Event) {
    match e
    case Interned(s, atom) => s in WithString(t, s).index && WithString(t, s).index[s] == atom
    case Got(a, found) => Lookup(t, a) == found
  }

  /** A history in which every call returned what it returns when the calls are made one after the other. */
  ghost predicate Legal(log: seq<Event>) {
    forall k :: 0 <= k < |log| ==> Answers(Replay(log[..k]), log[k])
  }

  lemma ReplaySnoc(log: seq<Event>, e: Event)
    ensures Replay(log + [e]) == if e.Interned? then WithString(Replay(log), e.s) else Replay(log)
    ensures Legal(log) && Answers(Replay(log), e) ==> Legal(log + [e])
  {
    assert (log + [e])[..|log + [e]| - 1] == log;
    forall k | 0 <= k < |log| && Legal(log) ensures Answers(Replay((log + [e])[..k]), (log + [e])[k]) {
      assert (log + [e])[..k] == log[..k];
    }
  }

  lemma {:induction false} ReplayConsistent(log: seq<Event>)
    ensures Consistent(Replay(log))
  {
    if log != [] {
      var n := |log| - 1;
      ReplayConsistent(log[..n]);
      if log[n].Interned? { InternKeeps(Replay(log[..n]), log[n].s); }
    }
  }

  /** A table only grows: no index ever changes its meaning. */
  lemma {:induction false} ReplayGrows(log: seq<Event>, j: nat)
    requires j <= |log|
    ensures Replay(log[..j]).strings <= Replay(log).strings
    ensures forall s :: s in Replay(log[..j]).index ==>
      s in Replay(log).index && Replay(log).index[s] == Replay(log[..j]).index[s]
    decreases |log|
  {
    if j == |log| {
      assert log[..j] == log;
    } else {
      var n := |log| - 1;
      ReplayGrows(log[..n], j);
      assert log[..n][..j] == log[..j];
      ReplayConsistent(log[..n]);
      if log[n].Interned? { InternKeeps(Replay(log[..n]), log[n].s); }
    }
  }

  /** What an intern call returned is what the final table says of its string. */
  lemma {:induction false} InternedAtom(log: seq<Event>, k: nat)
    requires Legal(log) && k < |log| && log[k].Interned?
    ensures log[k].s in Replay(log[..k + 1]).index && Replay(log[..k + 1]).index[log[k].s] == log[k].atom
    ensures log[k].s in Replay(log).index && Replay(log).index[log[k].s] == log[k].atom
  {
    assert log[..k + 1] == log[..k] + [log[k]];
    ReplaySnoc(log[..k], log[k]);
    ReplayGrows(log, k + 1);
  }

  /** Every listed string was put there by some call. */
  lemma {:induction false} ListedWasInterned(log: seq<Event>, s: string) returns (k: nat)
    requires s in Replay(log).strings
    ensures k < |log| && log[k].Interned? && log[k].s == s
  {
    var n := |log| - 1;
    if log[n].Interned? && log[n].s == s {
      k := n;
    } else {
      k := ListedWasInterned(log[..n], s);
    }
  }

  /** Equal strings have equal atoms, however many strings there are. */
  lemma EqualStringsEqualAtoms(log: seq<Event>, j: nat, k: nat)
    requires Legal(log) && j < |log| && k < |log| && log[j].Interned? && log[k].Interned?
    requires log[j].s == log[k].s
    ensures log[j].atom == log[k].atom
  {
    InternedAtom(log, j);
    InternedAtom(log, k);
  }

  /** Different strings never share an atom. */
  ghost predicate AtomsDistinct(log: seq<Event>) {
    forall j, k :: 0 <= j < |log| && 0 <= k < |log| && log[j].Interned? && log[k].Interned? && log[j].s != log[k].s ==>
      log[j].atom != log[k].atom
  }

  /** Different strings have different atoms exactly as long as at most 2^32 strings have been interned. */
  lemma {:induction false} AtomsDistinctIff(log: seq<Event>)
    requires Legal(log)
    ensures AtomsDistinct(log) <==> |Replay(log).strings| <= ATOMS
  {
    if |Replay(log).strings| <= ATOMS {
      forall j, k | 0 <= j < |log| && 0 <= k < |log| && log[j].Interned? && log[k].Interned? && log[j].s != log[k].s
        ensures log[j].atom != log[k].atom
      {
        var a := PositionOf(log, j);
        var b := PositionOf(log, k);
      }
    } else {
      FirstCollision(log);
    }
  }

  /** The string of an intern call has a position, and the atom returned is that position in 32 bits. */
  lemma {:induction false} PositionOf(log: seq<Event>, k: nat) returns (i: nat)
    requires Legal(log) && k < |log| && log[k].Interned?
    ensures i < |Replay(log).strings| && Replay(log).strings[i] == log[k].s && log[k].atom == Truncate(i)
  {
    hide Legal, Replay, Truncate;
    ReplayConsistent(log);
    InternedAtom(log, k);
    i :| 0 <= i < |Replay(log).strings| && Replay(log).strings[i] == log[k].s;
  }

  /** The first string beyond the 2^32-th shares its atom with the very first. */
  lemma {:induction false} FirstCollision(log: seq<Event>)
    requires Legal(log) && |Replay(log).strings| > ATOMS
    ensures !AtomsDistinct(log)
  {
    hide Legal, Replay;
    var t := Replay(log);
    ReplayConsistent(log);
    var j := ListedWasInterned(log, t.strings[0]);
    var k := ListedWasInterned(log, t.strings[ATOMS]);
    InternedAtom(log, j);
    InternedAtom(log, k);
    assert Truncate(ATOMS) == 0 && Truncate(0) == 0;
    assert t.index[t.strings[0]] == Truncate(0) && t.index[t.strings[ATOMS]] == Truncate(ATOMS);
    assert t.strings[0] != t.strings[ATOMS];
  }

  /** The calls before the k-th form a legal history of their own. */
  lemma LegalPrefix(log: seq<Event>, k: nat)
    requires Legal(log) && k <= |log|
    ensures Legal(log[..k])
  {
    forall n | 0 <= n < k ensures Answers(Replay(log[..k][..n]), log[..k][n]) {
      assert log[..k][..n] == log[..n];
    }
  }

  /** Asking for the string of an atom that an earlier call returned always succeeds, and gives the string back exactly
      when that string is among the first 2^32. */
  lemma GetGivesBackIff(log: seq<Event>, j: nat, k: nat)
    requires Legal(log) && j < k < |log| && log[j].Interned? && log[k].Got? && log[k].a == log[j].atom
    ensures log[k].found.Some?
    ensures log[k].found.value == log[j].s <==>
      exists i :: 0 <= i < |Replay(log).strings| && i < ATOMS && Replay(log).strings[i] == log[j].s
  {
    assert Answers(Replay(log[..k]), log[k]);
    hide Legal, Replay, Truncate;
    var t, u := Replay(log[..k]), Replay(log);
    ReplayConsistent(log);
    LegalPrefix(log, k);
    assert log[..k][j] == log[j];
    var i := PositionOf(log[..k], j);
    ReplayGrows(log, k);
    assert u.strings[i] == log[j].s && log[k].found == Some(t.strings[Truncate(i)]);
    assert t.strings[Truncate(i)] == u.strings[Truncate(i)];
    forall n | 0 <= n < |u.strings| && n < ATOMS && u.strings[n] == log[j].s ensures n == i { }
  }

  // ---------- too many strings ----------

  /** One string of every length. */
  function Nth(n: nat): string {
    seq(n, _ => 'a')
  }

  /** The first `n` of them interned in order. */
  function Flood(n: nat): (log: seq<Event>)
    ensures |log| == n
    ensures forall i :: 0 <= i < n ==> log[i] == Interned(Nth(i), Truncate(i))
  {
    if n == 0 then [] else Flood(n - 1) + [Interned(Nth(n - 1), Truncate(n - 1))]
  }

  lemma FloodOnce(t: Table, n: nat)
    requires Consistent(t) && |t.strings| == n && forall i :: 0 <= i < n ==> t.strings[i] == Nth(i)
    ensures Answers(t, Interned(Nth(n), Truncate(n))) && WithString(t, Nth(n)).strings == t.strings + [Nth(n)]
  {
    hide Truncate;
    forall i | 0 <= i < n ensures t.strings[i] != Nth(n) { assert |Nth(i)| == i && |Nth(n)| == n; }
  }

  ghost predicate FloodOk(n: nat) {
    && Legal(Flood(n))
    && |Replay(Flood(n)).strings| == n
    && forall i :: 0 <= i < n ==> Replay(Flood(n)).strings[i] == Nth(i)
  }

  lemma FloodStart()
    ensures FloodOk(0)
  {}

  lemma FloodMore(n: nat)
    requires FloodOk(n)
    ensures FloodOk(n + 1)
  {
    hide Legal, Replay, Truncate, Nth, WithString, Answers, Consistent, Flood;
    ReplayConsistent(Flood(n));
    FloodOnce(Replay(Flood(n)), n);
    ReplaySnoc(Flood(n), Interned(Nth(n), Truncate(n)));
    FloodSnoc(n);
  }

  lemma FloodSnoc(n: nat)
    ensures Flood(n + 1) == Flood(n) + [Interned(Nth(n), Truncate(n))]
  {
    hide Nth, Truncate;
  }

  lemma {:induction false} FloodLegal(n: nat)
    ensures FloodOk(n)
  {
    hide FloodOk;
    if n == 0 {
      FloodStart();
    } else {
      FloodLegal(n - 1);
      FloodMore(n - 1);
    }
  }

  /** The bound is passed by an actual history: after 2^32 + 1 strings the last shares its atom with the first, and
      asking for the string of that atom gives the first. */
  lemma AtomsRunOut() returns (log: seq<Event>)
    ensures Legal(log) && |Replay(log).strings| == ATOMS + 1 && !AtomsDistinct(log)
    ensures |log| == ATOMS + 2 && log[ATOMS].Interned? && log[ATOMS + 1] == Got(log[ATOMS].atom, Some(Nth(0)))
    ensures log[ATOMS].s != Nth(0)
  {
    var flood, got := Flood(ATOMS + 1), Got(0, Some(Nth(0)));
    FloodLegal(ATOMS + 1);
    log := flood + [got];
    assert Truncate(ATOMS) == 0;
    hide Legal, Replay, Truncate, Flood;
    ReplaySnoc(flood, got);
    FirstCollision(log);
    assert |Nth(ATOMS)| == ATOMS && |Nth(0)| == 0;
  }
}
