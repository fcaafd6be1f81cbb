// The open-addressing hash table of libfiu/hash.c.
module HashTables {
  import opened Slots

  // The ratio tests of auto_resize_table, in integers: at least 30% of the slots were never used,
  // and above the minimum size at least 30% are live.
  predicate UsableOk(size: nat, live: nat, removed: nat) {
    10 * (size as int - live - removed) >= 3 * size
  }

  predicate LiveOk(size: nat, live: nat) {
    size <= MIN_SIZE || 10 * live >= 3 * size
  }

  predicate Balanced(size: nat, live: nat, removed: nat) {
    size >= MIN_SIZE && UsableOk(size, live, removed) && LiveOk(size, live)
  }

  function Max(a: nat, b: nat): nat {
    if a < b then b else a
  }

  class HashTable<V> {
    const hash: HashFn
    var entries: array<Slot<V>>  // `entries` and `table_size`
    var nentries: nat
    var nremoved: nat

    // The map the table stands for, and every value handed to the destructor, in order.
    ghost var contents: map<string, V>
    ghost var destroyed: seq<V>

    // Cost accounting: completed sets and deletes, those since the last rebuild, the live count
    // right after that rebuild, and the old slots scanned by all rebuilds so far.
    ghost var ops: nat
    ghost var since: nat
    ghost var baseLive: nat
    ghost var scanned: nat

    ghost predicate WellFormed()
      reads this, entries
    {
      && entries.Length > 0 && Consistent(entries[..], hash, contents)
      && nentries == LiveCount(entries[..])
      && nremoved == RemovedCount(entries[..])
    }

    // A table of size T was built with at most T/2 live entries, and more than T/5 operations
    // separate it from the next rebuild; each pays for five scanned slots.
    ghost predicate Paid()
      reads this, entries
    {
      && entries.Length == Max(MIN_SIZE, 2 * baseLive)
      && baseLive <= nentries + since
      && nentries + nremoved <= baseLive + since
      && since <= ops
      && scanned <= 5 * (ops - since)
    }

    ghost predicate Valid()
      reads this, entries
    {
      WellFormed() && Balanced(entries.Length, nentries, nremoved) && Paid()
    }

    // The values the table owns.
    ghost function Owned(): multiset<V>
      reads this, entries
    {
      LiveValues(entries[..])
    }

    // Every value the table was ever given: those it destroyed and those it still owns.
    ghost function Accounted(): multiset<V>
      reads this, entries
    {
      multiset(destroyed) + Owned()
    }

    constructor (hash: HashFn)
      ensures Valid() && fresh(entries) && this.hash == hash
      ensures contents == map[] && Owned() == multiset{} && destroyed == []
      ensures ops == 0 && scanned == 0 && entries.Length == MIN_SIZE
      ensures forall i :: 0 <= i < entries.Length ==> entries[i].Never?
    {
      this.hash := hash;
      entries := new Slot<V>[MIN_SIZE](_ => Never);
      nentries, nremoved := 0, 0;
      contents, destroyed := map[], [];
      ops, since, baseLive, scanned := 0, 0, 0, 0;
      new;
      CountsOfFresh(entries[..]);
    }

    // At least 30% of the slots were never used, and the size is within 10/3 of the number of keys.
    lemma Occupancy()
      requires Valid()
      ensures nentries == |contents|
      ensures 10 * NeverCount(entries[..]) >= 3 * entries.Length
      ensures entries.Length == MIN_SIZE || 10 * |contents| >= 3 * entries.Length
      ensures entries.Length <= Max(MIN_SIZE, 10 * |contents| / 3)
      ensures HasNever(entries[..])
    {
      LiveCountIsSize(entries[..], contents);
      CountsPartition(entries[..]);
      SpareSlot(entries[..]);
    }

    // All rebuilds together scanned at most five old slots per set or delete.
    lemma RebuildCost()
      requires Valid()
      ensures scanned <= 5 * ops
    {
    }

    // hash_free: the destructor runs once on every owned value.
    method Free()
      modifies `destroyed
      ensures multiset(destroyed) == old(Accounted())
    {
      hide Consistent, LiveCount, RemovedCount, LiveValues;
      NoValues<V>();
      var i := 0;
      while i < entries.Length
        invariant i <= entries.Length
        invariant multiset(destroyed) == multiset(old(destroyed)) + LiveValues(entries[..i])
      {
        LastValues(entries[..i + 1]);
        assert entries[..i + 1][..i] == entries[..i];
        if entries[i].InUse? {
          destroyed := destroyed + [entries[i].value];
        }
        i := i + 1;
      }
      assert entries[..i] == entries[..];
    }

    // The search loop of hash_get and hash_del. `exhausted` reports the exit after a full circle.
    method Find(key: string) returns (found: bool, pos: nat, ghost exhausted: bool)
      requires WellFormed()
      ensures found == (key in contents)
      ensures found ==> pos < entries.Length && entries[pos].InUse? && entries[pos].key == key
      ensures exhausted ==> !HasNever(entries[..])
    {
      hide Consistent, Passed, ProbeAt, LiveCount, RemovedCount, LiveValues, HasNever;
      ghost var slots := entries[..];
      ghost var home := Home(hash, key, entries.Length);
      pos := Home(hash, key, entries.Length);
      PassedStart(slots, home, key);
      var i := 0;
      while i < entries.Length
        invariant i <= entries.Length
        invariant pos == ProbeAt(home, i, entries.Length)
        invariant Passed(slots, home, i, key)
      {
        if entries[pos].Never? {
          NeverEndsProbe(slots, hash, contents, key, i);
          return false, pos, false;
        } else if entries[pos].InUse? && entries[pos].key == key {
          MatchEndsProbe(slots, hash, contents, pos);
          return true, pos, false;
        }
        PassedNext(slots, home, i, key);
        pos := (pos + 1) % entries.Length;
        i := i + 1;
      }
      FullProbe(slots, hash, contents, key);
      return false, pos, true;
    }

    // hash_get: in a table kept balanced the probe never goes full circle.
    method Get(key: string) returns (value: Option<V>, ghost exhausted: bool)
      requires WellFormed()
      ensures value == if key in contents then Some(contents[key]) else None
      ensures Valid() ==> !exhausted
    {
      var found, pos;
      found, pos, exhausted := Find(key);
      SpareSlot(entries[..]);
      value := if found then Some(entries[pos].value) else None;
    }

    // _hash_set: insert without growing. Only never-used slots are taken, and an overridden value
    // is destroyed.
    method SetNoResize(key: string, value: V) returns (ok: bool)
      requires WellFormed()
      modifies `nentries, `contents, `destroyed, entries
      ensures WellFormed()
      ensures ok <==> key in old(contents) || HasNever(old(entries[..]))
      ensures contents == if ok then old(contents)[key := value] else old(contents)
      ensures destroyed == if key in old(contents) then old(destroyed) + [old(contents)[key]] else old(destroyed)
      ensures nentries == old(nentries) + if ok && key !in old(contents) then 1 else 0
      ensures ok ==>
                Owned() + (if key in old(contents) then multiset{old(contents)[key]} else multiset{})
                == old(Owned()) + multiset{value}
      ensures WroteOnly(old(entries[..]), entries[..], key, value)
    {
      hide Represents, Home, Consistent, Passed, ProbeAt, LiveCount, RemovedCount, LiveValues, HasNever;
      ghost var slots := entries[..];
      ghost var home := Home(hash, key, entries.Length);
      var pos := Home(hash, key, entries.Length);
      PassedStart(slots, home, key);
      var i := 0;
      while i < entries.Length
        invariant i <= entries.Length
        invariant pos == ProbeAt(home, i, entries.Length)
        invariant Passed(slots, home, i, key)
        invariant entries[..] == slots
        invariant nentries == old(nentries) && contents == old(contents) && destroyed == old(destroyed)
      {
        if entries[pos].Never? {
          entries[pos] := InUse(key, value);
          InsertFacts(slots, hash, contents, key, value, i, entries[..]);
          nentries := nentries + 1;
          contents := contents[key := value];
          return true;
        } else if entries[pos].InUse? && entries[pos].key == key {
          destroyed := destroyed + [entries[pos].value];
          entries[pos] := InUse(key, value);
          OverrideFacts(slots, hash, contents, key, value, pos, entries[..]);
          contents := contents[key := value];
          return true;
        }
        PassedNext(slots, home, i, key);
        pos := (pos + 1) % entries.Length;
        i := i + 1;
      }
      FullProbe(slots, hash, contents, key);
      return false;
    }

    // resize_table: rebuild into a fresh array, dropping tombstones. The old array may be any slots
    // at all (the cache keeps slots off their probe paths); a table with unique keys that fits
    // keeps its map, its values and every one of its reinsertions.
    method ResizeTable(newSize: nat)
      modifies `entries, `nentries, `nremoved, `contents, `destroyed
      ensures fresh(entries) && entries.Length == Max(newSize, MIN_SIZE)
      ensures WellFormed() && nremoved == 0
      ensures Subsumed(old(entries[..]), entries[..])
      ensures old(UniqueKeys(entries[..])) && old(LiveCount(entries[..])) < entries.Length ==>
                && contents == old(ContentsOf(entries[..])) && nentries == old(LiveCount(entries[..]))
                && Owned() == old(Owned()) && destroyed == old(destroyed)
    {
      hide Consistent, Rebuilt, LiveCount, RemovedCount, LiveValues, HasNever, WroteOnly, UniqueKeys, ContentsOf;
      var oldEntries := entries;
      ghost var was := entries[..];
      ghost var fits := UniqueKeys(was) && LiveCount(was) < Max(newSize, MIN_SIZE);
      entries := new Slot<V>[if newSize < MIN_SIZE then MIN_SIZE else newSize](_ => Never);
      nentries, nremoved := 0, 0;
      contents := map[];
      FreshConsistent(entries[..], hash);
      RebuildStart(was, entries[..]);
      var i := 0;
      while i < oldEntries.Length
        invariant i <= oldEntries.Length
        invariant fresh(entries) && entries.Length == Max(newSize, MIN_SIZE)
        invariant WellFormed() && nremoved == 0
        invariant oldEntries[..] == was
        invariant Subsumed(was, entries[..])
        invariant fits ==> Rebuilt(was, i, entries[..], contents) && destroyed == old(destroyed)
      {
        if oldEntries[i].InUse? {
          ghost var before, m := entries[..], contents;
          if fits {
            RoomForNext(was, i, before, m);
          }
          var ok := SetNoResize(oldEntries[i].key, oldEntries[i].value);
          WroteSubsumed(was, before, entries[..], was[i].key, was[i].value);
          if fits {
            assert ok;
            RebuildStep(was, i, before, m, entries[..]);
          }
        } else {
          SkipStep(was, i, entries[..], contents);
        }
        i := i + 1;
      }
      if fits {
        RebuildEnd(was, entries[..], contents);
      }
    }

    // auto_resize_table: every rebuild goes to twice the live entries.
    method AutoResizeTable()
      requires WellFormed() && Paid()
      modifies `entries, `nentries, `nremoved, `contents, `destroyed, `since, `baseLive, `scanned
      ensures Valid() && (entries == old(entries) || fresh(entries))
      ensures contents == old(contents) && Owned() == old(Owned()) && destroyed == old(destroyed)
      ensures scanned == old(scanned) + if entries == old(entries) then 0 else old(entries.Length)
      ensures old(10 * (entries.Length - nentries - nremoved) < 3 * entries.Length)
              || old(entries.Length > 10 && 10 * nentries < 3 * entries.Length)
              ==> entries.Length == Max(10, 2 * nentries) && nremoved == 0
      ensures old(10 * (entries.Length - nentries - nremoved) >= 3 * entries.Length)
              && old(entries.Length <= 10 || 10 * nentries >= 3 * entries.Length)
              ==> entries == old(entries) && entries[..] == old(entries[..])
    {
      hide LiveCount, RemovedCount, LiveValues, HasNever, UniqueKeys, ContentsOf, ProbePaths, Represents;
      SpareSlot(entries[..]);
      ContentsOfRepresents(entries[..]);
      RepresentsOneMap(entries[..], contents, ContentsOf(entries[..]));
      var size := entries.Length;
      if !UsableOk(size, nentries, nremoved) || !LiveOk(size, nentries) {
        ResizeTable(nentries * 2);
        scanned := scanned + size;
        since, baseLive := 0, nentries;
      }
    }

    // hash_set.
    method Set(key: string, value: V) returns (ok: bool)
      requires Valid()
      modifies this, entries
      ensures Valid() && (entries == old(entries) || fresh(entries))
      ensures ok && contents == old(contents)[key := value]
      ensures destroyed == if key in old(contents) then old(destroyed) + [old(contents)[key]] else old(destroyed)
      ensures Accounted() == old(Accounted()) + multiset{value}
      ensures ops == old(ops) + 1
    {
      hide Consistent, LiveCount, RemovedCount, LiveValues, HasNever, UniqueKeys, ContentsOf;
      SpareSlot(entries[..]);
      ok := SetNoResize(key, value);
      OverrideAccount(old(contents), key, value, old(destroyed), destroyed, old(Owned()), Owned());
      ops, since := ops + 1, since + 1;
      AutoResizeTable();
    }

    // hash_del.
    method Del(key: string) returns (found: bool, ghost exhausted: bool)
      requires Valid()
      modifies this, entries
      ensures Valid() && (entries == old(entries) || fresh(entries))
      ensures !exhausted && found == (key in old(contents)) && contents == old(contents) - {key}
      ensures destroyed == if found then old(destroyed) + [old(contents)[key]] else old(destroyed)
      ensures Accounted() == old(Accounted())
      ensures ops == old(ops) + 1
    {
      hide Consistent, LiveCount, RemovedCount, LiveValues, HasNever, UniqueKeys, ContentsOf;
      var pos;
      found, pos, exhausted := Find(key);
      SpareSlot(entries[..]);
      if found {
        RemoveAt(key, pos);
        RemoveAccount(old(contents)[key], old(destroyed), destroyed, old(Owned()), Owned());
      }
      ops, since := ops + 1, since + 1;
      if found {
        AutoResizeTable();
      }
    }

    // The removal half of hash_del: the slot becomes a tombstone.
    method RemoveAt(key: string, pos: nat)
      requires WellFormed() && pos < entries.Length && entries[pos].InUse? && entries[pos].key == key
      modifies `nentries, `nremoved, `contents, `destroyed, entries
      ensures WellFormed() && nentries == old(nentries) - 1 && nremoved == old(nremoved) + 1
      ensures key in old(contents) && contents == old(contents) - {key}
      ensures destroyed == old(destroyed) + [old(contents)[key]]
      ensures Owned() + multiset{old(contents)[key]} == old(Owned())
    {
      ghost var slots := entries[..];
      destroyed := destroyed + [entries[pos].value];
      entries[pos] := Removed;
      RemoveFacts(slots, hash, contents, key, pos, entries[..]);
      nentries, nremoved := nentries - 1, nremoved + 1;
      contents := contents - {key};
    }
  }

  // The new slots and map hold exactly the live entries among the first `i` old slots.
  ghost predicate Rebuilt<V>(was: seq<Slot<V>>, i: nat, slots: seq<Slot<V>>, m: map<string, V>)
    requires i <= |was|
  {
    m == ContentsOf(was[..i]) && LiveCount(slots) == LiveCount(was[..i]) && LiveValues(slots) == LiveValues(was[..i])
  }

  lemma RebuildStart<V>(was: seq<Slot<V>>, slots: seq<Slot<V>>)
    requires LiveCount(slots) == 0 && LiveValues(slots) == multiset{}
    ensures Rebuilt(was, 0, slots, map[])
  {
  }

  lemma RebuildEnd<V>(was: seq<Slot<V>>, slots: seq<Slot<V>>, m: map<string, V>)
    requires Rebuilt(was, |was|, slots, m)
    ensures m == ContentsOf(was) && LiveCount(slots) == LiveCount(was) && LiveValues(slots) == LiveValues(was)
  {
    assert was[..|was|] == was;
  }

  lemma SkipStep<V>(was: seq<Slot<V>>, i: nat, slots: seq<Slot<V>>, m: map<string, V>)
    requires i < |was| && !was[i].InUse?
    ensures Rebuilt(was, i, slots, m) ==> Rebuilt(was, i + 1, slots, m)
  {
    assert was[..i + 1][..i] == was[..i];
  }

  // With unique keys and room, the next live old entry is new to the table and finds a slot.
  lemma RoomForNext<V>(was: seq<Slot<V>>, i: nat, before: seq<Slot<V>>, m: map<string, V>)
    requires i < |was| && was[i].InUse? && UniqueKeys(was) && Rebuilt(was, i, before, m)
    requires LiveCount(was) < |before| && RemovedCount(before) == 0
    ensures was[i].key !in m && HasNever(before)
  {
    ContentsOfRepresents(was[..i]);
    assert forall j :: 0 <= j < i && was[..i][j].InUse? ==> was[j].key != was[i].key;
    PrefixCount(was, i);
    SpareSlot(before);
  }

  lemma RebuildStep<V>(was: seq<Slot<V>>, i: nat, before: seq<Slot<V>>, m: map<string, V>, after: seq<Slot<V>>)
    requires i < |was| && was[i].InUse? && Rebuilt(was, i, before, m)
    requires LiveCount(after) == LiveCount(before) + 1
    requires LiveValues(after) == LiveValues(before) + multiset{was[i].value}
    ensures Rebuilt(was, i + 1, after, m[was[i].key := was[i].value])
  {
    assert was[..i + 1][..i] == was[..i];
  }

  // An overridden value moves from the owned to the destroyed ones.
  lemma OverrideAccount<V>(m: map<string, V>, key: string, value: V, gone: seq<V>, gone': seq<V>, owned: multiset<V>,
                           owned': multiset<V>)
    requires gone' == if key in m then gone + [m[key]] else gone
    requires owned' + (if key in m then multiset{m[key]} else multiset{}) == owned + multiset{value}
    ensures multiset(gone') + owned' == multiset(gone) + owned + multiset{value}
  {
    if key in m {
      RemoveAccount(m[key], gone, gone', owned + multiset{value}, owned');
    } else {
      assert owned' == owned' + multiset{};
    }
  }

  lemma RemoveAccount<V>(v: V, gone: seq<V>, gone': seq<V>, owned: multiset<V>, owned': multiset<V>)
    requires gone' == gone + [v] && owned' + multiset{v} == owned
    ensures multiset(gone') + owned' == multiset(gone) + owned
  {
  }

  lemma WroteSubsumed<V>(was: seq<Slot<V>>, before: seq<Slot<V>>, after: seq<Slot<V>>, key: string, value: V)
    requires WroteOnly(before, after, key, value) && InUse(key, value) in was
    ensures Subsumed(was, before) ==> Subsumed(was, after)
  {
    forall i | Subsumed(was, before) && 0 <= i < |after| && after[i].InUse? ensures after[i] in was {
      assert after[i] == before[i] || after[i] == InUse(key, value);
    }
  }

  lemma {:induction false} PrefixCount<V>(slots: seq<Slot<V>>, i: nat)
    requires i < |slots| && slots[i].InUse?
    ensures LiveCount(slots[..i]) < LiveCount(slots)
  {
    var n := |slots| - 1;
    if i == n {
    } else {
      assert slots[..n][..i] == slots[..i];
      PrefixCount(slots[..n], i);
    }
  }
}
