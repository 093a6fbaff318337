/** A local process registry: entries listed under keys, and the keys of every process in a second index. */
module Registry {
  import opened Options
  import opened Pids
  import opened SetMaps

  datatype RegistryType = Unique | Duplicate

  datatype Entry<V> = Entry(pid: Pid, value: V)

  datatype Outcome = Registered | AlreadyRegistered

  // ---------- entries ----------

  function Listing<K(!new), V>(entries: map<K, seq<Entry<V>>>, key: K): seq<Entry<V>> {
    if key in entries then entries[key] else []
  }

  /** The entries of other processes, in their order. */
  function Others<V>(list: seq<Entry<V>>, pid: Pid): seq<Entry<V>> {
    if list == [] then []
    else (if list[0].pid == pid then [] else [list[0]]) + Others(list[1..], pid)
  }

  predicate Owns<V>(list: seq<Entry<V>>, pid: Pid) {
    exists i :: 0 <= i < |list| && list[i].pid == pid
  }

  ghost predicate NoEmptyLists<K(!new), V>(entries: map<K, seq<Entry<V>>>) {
    forall k :: k in entries ==> entries[k] != []
  }

  ghost predicate Single<K(!new), V>(entries: map<K, seq<Entry<V>>>) {
    forall k :: k in entries ==> |entries[k]| == 1
  }

  /** The second index lists under a process exactly the keys where it has an entry. */
  ghost predicate Indexed<K(!new), V>(entries: map<K, seq<Entry<V>>>, pidToKeys: map<Pid, set<K>>) {
    forall k, p :: Has(pidToKeys, p, k) <==> Owns(Listing(entries, k), p)
  }

  /** A key's list without a process's entries; an emptied list goes with its key. */
  function Dropped<K(!new), V(!new)>(entries: map<K, seq<Entry<V>>>, key: K, pid: Pid): map<K, seq<Entry<V>>> {
    if key !in entries then entries
    else if Others(entries[key], pid) == [] then entries - {key}
    else entries[key := Others(entries[key], pid)]
  }

  lemma {:induction false} OthersExact<V(!new)>(list: seq<Entry<V>>, pid: Pid)
    ensures forall e :: e in Others(list, pid) <==> e in list && e.pid != pid
    ensures forall p :: Owns(Others(list, pid), p) <==> Owns(list, p) && p != pid
    ensures !Owns(list, pid) ==> Others(list, pid) == list
    ensures |Others(list, pid)| <= |list|
  {
    if list != [] {
      OthersExact(list[1..], pid);
      OwnsHead(list);
      var head := if list[0].pid == pid then [] else [list[0]];
      assert Others(list, pid) == head + Others(list[1..], pid);
      assert list == [list[0]] + list[1..];
      if head != [] {
        OwnsHead(Others(list, pid));
        assert Others(list, pid)[1..] == Others(list[1..], pid);
      }
    }
  }

  lemma OwnsHead<V(!new)>(list: seq<Entry<V>>)
    requires list != []
    ensures forall p :: Owns(list, p) <==> list[0].pid == p || Owns(list[1..], p)
  {}

  lemma OwnsAppend<V(!new)>(list: seq<Entry<V>>, e: Entry<V>)
    ensures forall p :: Owns(list + [e], p) <==> Owns(list, p) || p == e.pid
  {
    forall p | Owns(list, p) || p == e.pid ensures Owns(list + [e], p) {
      if p == e.pid {
        assert (list + [e])[|list|].pid == p;
      } else {
        var i :| 0 <= i < |list| && list[i].pid == p;
        assert (list + [e])[i].pid == p;
      }
    }
  }

  lemma DroppedListing<K(!new), V(!new)>(entries: map<K, seq<Entry<V>>>, key: K, pid: Pid)
    ensures forall k ::
      Listing(Dropped(entries, key, pid), k) ==
        if k == key then Others(Listing(entries, k), pid) else Listing(entries, k)
    ensures NoEmptyLists(entries) ==> NoEmptyLists(Dropped(entries, key, pid))
    ensures |Listing(Dropped(entries, key, pid), key)| <= |Listing(entries, key)|
    ensures Dropped(entries, key, pid).Keys <= entries.Keys
  {
    OthersExact(Listing(entries, key), pid);
  }

  lemma DroppedIndexed<K(!new), V(!new)>(entries: map<K, seq<Entry<V>>>, pidToKeys: map<Pid, set<K>>, key: K, pid: Pid)
    requires Indexed(entries, pidToKeys)
    ensures Indexed(Dropped(entries, key, pid), Without(pidToKeys, pid, key))
  {
    hide Has, Without, Owns, Dropped, Listing;
    DroppedListing(entries, key, pid);
    WithoutHas(pidToKeys, pid, key);
    OthersExact(Listing(entries, key), pid);
  }

  lemma AddedIndexed<K(!new), V(!new)>(entries: map<K, seq<Entry<V>>>, pidToKeys: map<Pid, set<K>>, key: K, e: Entry<V>)
    requires Indexed(entries, pidToKeys)
    ensures Indexed(entries[key := Listing(entries, key) + [e]], With(pidToKeys, e.pid, key))
    ensures NoEmpty(pidToKeys) ==> NoEmpty(With(pidToKeys, e.pid, key))
  {
    hide Has, With, Owns;
    WithHas(pidToKeys, e.pid, key);
    OwnsAppend(Listing(entries, key), e);
  }

  class Registry<K(!new, ==), V(!new, ==)> {
    const registryType: RegistryType
    var entries: map<K, seq<Entry<V>>>
    var pidToKeys: map<Pid, set<K>>

    /** The indexes agree, neither keeps anything empty, and a unique registry has one entry for a key. */
    ghost predicate Valid()
      reads this
    {
      && NoEmptyLists(entries)
      && NoEmpty(pidToKeys)
      && Indexed(entries, pidToKeys)
      && (registryType.Unique? ==> Single(entries))
    }

    constructor (registryType: RegistryType)
      ensures Valid() && entries == map[] && this.registryType == registryType
    {
      this.registryType := registryType;
      entries, pidToKeys := map[], map[];
    }

    /** A unique registry refuses a key that is taken; otherwise the entry goes last. */
    method Register(key: K, pid: Pid, value: V) returns (r: Outcome)
      requires Valid()
      modifies this
      ensures Valid()
      ensures r.AlreadyRegistered? <==> registryType.Unique? && key in old(entries)
      ensures r.AlreadyRegistered? ==> entries == old(entries)
      ensures r.Registered? ==> entries == old(entries)[key := Listing(old(entries), key) + [Entry(pid, value)]]
    {
      AddedIndexed(entries, pidToKeys, key, Entry(pid, value));
      hide Indexed, Has, With, NoEmpty;
      match registryType {
        case Unique =>
          if key in entries {
            return AlreadyRegistered;
          }
          assert Listing(entries, key) + [Entry(pid, value)] == [Entry(pid, value)];
          entries := entries[key := [Entry(pid, value)]];
        case Duplicate =>
          entries := entries[key := Listing(entries, key) + [Entry(pid, value)]];
      }
      pidToKeys := With(pidToKeys, pid, key);
      r := Registered;
    }

    /** Exactly the entries of this process under this key go. */
    method Unregister(key: K, pid: Pid)
      requires Valid()
      modifies this
      ensures Valid()
      ensures entries == Dropped(old(entries), key, pid)
      ensures pidToKeys == Without(old(pidToKeys), pid, key)
    {
      DroppedListing(entries, key, pid);
      DroppedIndexed(entries, pidToKeys, key, pid);
      WithoutHas(pidToKeys, pid, key);
      hide Indexed, Has;
      DropEntries(key, pid);
      if pid in pidToKeys {
        pidToKeys := pidToKeys[pid := pidToKeys[pid] - {key}];
        if pidToKeys[pid] == {} {
          pidToKeys := pidToKeys - {pid};
        }
      }
      StillSingle(old(entries), key, pid);
    }

    /** The part `unregister` and `unregister_all` share. */
    method DropEntries(key: K, pid: Pid)
      modifies this`entries
      ensures entries == Dropped(old(entries), key, pid)
    {
      if key in entries {
        entries := entries[key := Others(entries[key], pid)];
        if entries[key] == [] {
          entries := entries - {key};
        }
      }
      assert entries == Dropped(old(entries), key, pid);
    }

    /** Exactly the entries of this process go, under whatever key. */
    method UnregisterAll(pid: Pid)
      requires Valid()
      modifies this
      ensures Valid()
      ensures forall k :: Listing(entries, k) == Others(Listing(old(entries), k), pid)
      ensures pidToKeys == old(pidToKeys) - {pid}
    {
      UnlistedKept(entries, pidToKeys, pid);
      hide Has, Owns, Listing, Indexed, Dropped, NoEmpty, Single;
      var todo := Get(pidToKeys, pid);
      pidToKeys := pidToKeys - {pid};
      while todo != {}
        invariant pidToKeys == old(pidToKeys) - {pid}
        invariant NoEmptyLists(entries)
        invariant registryType.Unique? ==> Single(entries)
        invariant forall k ::
          Listing(entries, k) == if k in todo then Listing(old(entries), k) else Others(Listing(old(entries), k), pid)
        decreases todo
      {
        var key :| key in todo;
        DroppedListing(entries, key, pid);
        StillSingle(entries, key, pid);
        DropEntries(key, pid);
        todo := todo - {key};
      }
      AllDropped(old(entries), entries, old(pidToKeys), pid);
    }

    /** The processes listed under a key are exactly those whose own key sets hold it; a unique registry lists at
        most one. */
    function Lookup(key: K): (list: seq<(Pid, V)>)
      requires Valid()
      reads this
      ensures forall p :: Has(pidToKeys, p, key) <==> exists i :: 0 <= i < |list| && list[i].0 == p
      ensures forall p, v :: (p, v) in list <==> Entry(p, v) in Listing(entries, key)
      ensures registryType.Unique? ==> |list| <= 1
    {
      var es := Listing(entries, key);
      var list := seq(|es|, i requires 0 <= i < |es| => (es[i].pid, es[i].value));
      PairsOf(es, list);
      list
    }

    /** The keys under which the process has an entry. */
    function Keys(pid: Pid): (keys: set<K>)
      requires Valid()
      reads this
      ensures forall k :: k in keys <==> Owns(Listing(entries, k), pid)
    {
      Get(pidToKeys, pid)
    }

    /** Changes the value of the process's own entry in a unique registry, and nothing otherwise. */
    method UpdateValue(key: K, pid: Pid, newValue: V) returns (was: Option<V>)
      requires Valid()
      modifies this`entries
      ensures Valid()
      ensures was.Some? <==> registryType.Unique? && Owns(Listing(old(entries), key), pid)
      ensures was.None? ==> entries == old(entries)
      ensures was.Some? ==> Listing(old(entries), key) == [Entry(pid, was.value)]
      ensures was.Some? ==> entries == old(entries)[key := [Entry(pid, newValue)]]
    {
      if registryType.Duplicate? || key !in entries {
        return None;
      }
      var i := 0;
      while i < |entries[key]|
        invariant 0 <= i <= |entries[key]|
        invariant forall j :: 0 <= j < i ==> entries[key][j].pid != pid
      {
        if entries[key][i].pid == pid {
          was := Some(entries[key][i].value);
          SameOwner(entries, pidToKeys, key, Entry(pid, newValue));
          assert entries[key][i := Entry(pid, newValue)] == [Entry(pid, newValue)];
          entries := entries[key := entries[key][i := Entry(pid, newValue)]];
          return;
        }
        i := i + 1;
      }
      was := None;
    }

    /** The number of entries under all keys. */
    method CountAll() returns (n: nat)
      ensures n == Total(entries)
    {
      n := 0;
      var rest := entries;
      while rest != map[]
        invariant n + Total(rest) == Total(entries)
        decreases |rest|
      {
        var key :| key in rest;
        TotalWithout(rest, key);
        n := n + |rest[key]|;
        MapSmaller(rest, key);
        rest := rest - {key};
      }
    }
  }

  lemma PairsOf<V(!new)>(es: seq<Entry<V>>, list: seq<(Pid, V)>)
    requires |list| == |es| && forall i :: 0 <= i < |es| ==> list[i] == (es[i].pid, es[i].value)
    ensures forall p :: Owns(es, p) <==> exists i :: 0 <= i < |list| && list[i].0 == p
    ensures forall p, v :: (p, v) in list <==> Entry(p, v) in es
  {
    forall p | Owns(es, p) ensures exists i :: 0 <= i < |list| && list[i].0 == p {
      var i :| 0 <= i < |es| && es[i].pid == p;
      assert list[i].0 == p;
    }
    forall p | exists i :: 0 <= i < |list| && list[i].0 == p ensures Owns(es, p) {
      var i :| 0 <= i < |list| && list[i].0 == p;
      assert es[i].pid == p;
    }
    forall p, v | Entry(p, v) in es ensures (p, v) in list {
      var i :| 0 <= i < |es| && es[i] == Entry(p, v);
      assert list[i] == (p, v);
    }
  }

  lemma StillSingle<K(!new), V(!new)>(entries: map<K, seq<Entry<V>>>, key: K, pid: Pid)
    requires NoEmptyLists(entries)
    ensures Single(entries) ==> Single(Dropped(entries, key, pid))
  {
    OthersExact(Listing(entries, key), pid);
  }

  /** Where the second index does not list a process, it has no entry to lose. */
  lemma UnlistedKept<K(!new), V(!new)>(entries: map<K, seq<Entry<V>>>, pidToKeys: map<Pid, set<K>>, pid: Pid)
    requires Indexed(entries, pidToKeys)
    ensures forall k :: k !in Get(pidToKeys, pid) ==> Others(Listing(entries, k), pid) == Listing(entries, k)
  {
    hide Owns, Listing;
    forall k | k !in Get(pidToKeys, pid) ensures Others(Listing(entries, k), pid) == Listing(entries, k) {
      assert !Has(pidToKeys, pid, k);
      OthersExact(Listing(entries, k), pid);
    }
  }

  lemma AllDropped<K(!new), V(!new)>(before: map<K, seq<Entry<V>>>, after: map<K, seq<Entry<V>>>,
                                     pidToKeys: map<Pid, set<K>>, pid: Pid)
    requires Indexed(before, pidToKeys)
    requires forall k :: Listing(after, k) == Others(Listing(before, k), pid)
    ensures Indexed(after, pidToKeys - {pid})
    ensures NoEmpty(pidToKeys) ==> NoEmpty(pidToKeys - {pid})
  {
    hide Owns, Listing;
    forall k, p ensures Has(pidToKeys - {pid}, p, k) <==> Owns(Listing(after, k), p) {
      OthersExact(Listing(before, k), pid);
      assert Has(pidToKeys, p, k) <==> Owns(Listing(before, k), p);
    }
  }

  lemma SameOwner<K(!new), V(!new)>(entries: map<K, seq<Entry<V>>>, pidToKeys: map<Pid, set<K>>, key: K, e: Entry<V>)
    requires Indexed(entries, pidToKeys)
    requires key in entries && |entries[key]| == 1 && entries[key][0].pid == e.pid
    ensures Indexed(entries[key := [e]], pidToKeys)
  {}

  // ---------- counting ----------

  ghost function Total<K(!new), V>(entries: map<K, seq<Entry<V>>>): nat
    decreases |entries|
  {
    if entries == map[] then 0
    else
      var k :| k in entries;
      MapSmaller(entries, k);
      |entries[k]| + Total(entries - {k})
  }

  lemma MapSmaller<K(!new), V>(m: map<K, V>, k: K)
    requires k in m
    ensures |m - {k}| < |m|
  {}

  /** The total does not depend on the order of counting. */
  lemma {:induction false} TotalWithout<K(!new), V(!new)>(entries: map<K, seq<Entry<V>>>, key: K)
    requires key in entries
    ensures Total(entries) == |entries[key]| + Total(entries - {key})
    decreases |entries|
  {
    var k :| k in entries && Total(entries) == |entries[k]| + Total(entries - {k});
    if k != key {
      MapSmaller(entries, k);
      MapSmaller(entries, key);
      TotalWithout(entries - {k}, key);
      TotalWithout(entries - {key}, k);
      assert entries - {k} - {key} == entries - {key} - {k};
    }
  }

  /** With one entry for a key, there are as many entries as keys. */
  lemma {:induction false} UniqueTotal<K(!new), V(!new)>(entries: map<K, seq<Entry<V>>>)
    requires Single(entries)
    ensures Total(entries) == |entries|
    decreases |entries|
  {
    if entries != map[] {
      var k :| k in entries;
      MapSmaller(entries, k);
      TotalWithout(entries, k);
      UniqueTotal(entries - {k});
      assert (entries - {k}).Keys == entries.Keys - {k};
    }
  }
}
