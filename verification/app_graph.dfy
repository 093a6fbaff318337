/** Dependency graphs of applications: walks, reachability, and what a startup order is. */
module AppGraph {
  import opened Sequences

  type Name = string

  /** The registered applications, each with its dependencies in the order they were declared. */
  type Registry = map<Name, seq<Name>>

  /** A dependency walk: each name depends on the next. The last name need not be registered. */
  ghost predicate IsWalk(reg: Registry, p: seq<Name>) {
    |p| > 0 && forall i :: 0 <= i < |p| - 1 ==> p[i] in reg && p[i + 1] in reg[p[i]]
  }

  ghost predicate Reaches(reg: Registry, a: Name, b: Name) {
    exists p :: IsWalk(reg, p) && p[0] == a && p[|p| - 1] == b
  }

  /** Everything reachable is registered and no walk repeats a name. */
  ghost predicate Resolvable(reg: Registry, a: Name) {
    forall p :: IsWalk(reg, p) && p[0] == a ==> p[|p| - 1] in reg && NoDup(p)
  }

  /** A startup order: registered names without repetition, each after its dependencies. */
  ghost predicate Ordered(reg: Registry, order: seq<Name>) {
    && NoDup(order)
    && forall i :: 0 <= i < |order| ==> order[i] in reg && forall d :: d in reg[order[i]] ==> d in order[..i]
  }

  function NameSet(order: seq<Name>): set<Name> {
    set x | x in order
  }

  /** A circular-dependency report: a walk that begins with `start` and first repeats a name at its end. */
  ghost predicate IsCycleFrom(reg: Registry, start: seq<Name>, p: seq<Name>) {
    && IsWalk(reg, p) && start <= p && |p| >= 2
    && p[|p| - 1] in p[..|p| - 1] && NoDup(p[..|p| - 1])
  }

  // ---------- walks ----------

  lemma WalkAlone(reg: Registry, a: Name)
    ensures IsWalk(reg, [a]) && Reaches(reg, a, a)
  {}

  lemma WalkExtend(reg: Registry, p: seq<Name>, d: Name)
    requires IsWalk(reg, p) && p[|p| - 1] in reg && d in reg[p[|p| - 1]]
    ensures IsWalk(reg, p + [d])
  {}

  lemma ReachesThrough(reg: Registry, a: Name, d: Name, x: Name)
    requires a in reg && d in reg[a] && Reaches(reg, d, x)
    ensures Reaches(reg, a, x)
  {
    var p :| IsWalk(reg, p) && p[0] == d && p[|p| - 1] == x;
    var q := [a] + p;
    forall i | 0 <= i < |q| - 1 ensures q[i] in reg && q[i + 1] in reg[q[i]] {
      if i > 0 { assert q[i] == p[i - 1] && q[i + 1] == p[i]; }
    }
    assert IsWalk(reg, q) && q[0] == a && q[|q| - 1] == x;
  }

  // ---------- orders ----------

  function IndexOf(order: seq<Name>, x: Name): (i: nat)
    requires x in order
    ensures i < |order| && order[i] == x
  {
    if order[0] == x then 0 else
      assert order == [order[0]] + order[1..];
      1 + IndexOf(order[1..], x)
  }

  lemma DependencyEarlier(reg: Registry, order: seq<Name>, x: Name, d: Name)
    requires Ordered(reg, order) && x in order && x in reg && d in reg[x]
    ensures d in order && IndexOf(order, d) < IndexOf(order, x)
  {}

  /** Along a walk from a name in the order, positions only go down. */
  lemma {:induction false} WalkDescends(reg: Registry, order: seq<Name>, p: seq<Name>, i: nat, j: nat)
    requires Ordered(reg, order) && IsWalk(reg, p) && p[0] in order && i <= j < |p|
    ensures p[i] in order && p[j] in order && IndexOf(order, p[j]) + (j - i) <= IndexOf(order, p[i])
    decreases j
  {
    if j > 0 {
      WalkDescends(reg, order, p, if i < j then i else i - 1, j - 1);
      DependencyEarlier(reg, order, p[j - 1], p[j]);
    }
  }

  /** Names in a startup order resolve, and reach only names in the order that come no later. */
  lemma OrderedResolves(reg: Registry, order: seq<Name>, a: Name)
    requires Ordered(reg, order) && a in order
    ensures Resolvable(reg, a)
    ensures forall x :: Reaches(reg, a, x) ==> x in order && IndexOf(order, x) <= IndexOf(order, a)
  {
    forall p | IsWalk(reg, p) && p[0] == a ensures p[|p| - 1] in reg && NoDup(p) {
      WalkDescends(reg, order, p, 0, |p| - 1);
      assert order[IndexOf(order, p[|p| - 1])] in reg;
      forall i, j | 0 <= i < j < |p| ensures p[i] != p[j] {
        WalkDescends(reg, order, p, i, j);
      }
    }
    forall x | Reaches(reg, a, x) ensures x in order && IndexOf(order, x) <= IndexOf(order, a) {
      var p :| IsWalk(reg, p) && p[0] == a && p[|p| - 1] == x;
      WalkDescends(reg, order, p, 0, |p| - 1);
    }
  }

  lemma CycleNotResolvable(reg: Registry, a: Name, p: seq<Name>)
    requires IsCycleFrom(reg, [a], p)
    ensures !Resolvable(reg, a)
  {}

  lemma MissingNotResolvable(reg: Registry, a: Name, n: Name)
    requires Reaches(reg, a, n) && n !in reg
    ensures !Resolvable(reg, a)
  {}

  lemma OrderedAppend(reg: Registry, order: seq<Name>, x: Name)
    requires Ordered(reg, order) && x in reg && x !in order && forall d :: d in reg[x] ==> d in order
    ensures Ordered(reg, order + [x])
  {
    var longer := order + [x];
    forall i | 0 <= i < |longer| ensures longer[i] in reg && forall d :: d in reg[longer[i]] ==> d in longer[..i] {
      if i < |order| {
        assert longer[..i] == order[..i];
      } else {
        assert longer[..i] == order;
      }
    }
  }
}
