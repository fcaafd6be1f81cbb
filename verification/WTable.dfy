// The wildcard table of libfiu/wtable.c: exact entries in a hash table, patterns in an array, and a
// cache of array lookups in between.
module WTables {
  import opened Slots
  import opened HashTables
  import opened Caches
  import opened Wildcards

  // strlast: how far two strings agree.
  method StrLast(s1: string, s2: string) returns (i: nat)
    ensures i <= |s1| && i <= |s2| && s1[..i] == s2[..i]
    ensures i < |s1| && i < |s2| ==> s1[i] != s2[i]
  {
    i := 0;
    while i < |s1| && i < |s2| && s1[i] == s2[i]
      invariant i <= |s1| && i <= |s2| && s1[..i] == s2[..i]
    {
      i := i + 1;
    }
  }

  // ws_matches_s, on a pattern that is there and not empty.
  method WsMatches(ws: string, wsLen: nat, s: string, sLen: nat, exact: bool) returns (r: bool)
    requires wsLen == |ws| > 0 && sLen == |s|
    ensures r <==> if exact || ws[|ws| - 1] != '*' then ws == s
                   else |s| >= |ws| - 1 && s[..|ws| - 1] == ws[..|ws| - 1]
    ensures r == if exact then ws == s else Matches(ws, s)
  {
    if exact || ws[wsLen - 1] != '*' {
      r := wsLen == sLen && ws == s;
    } else {
      var i := StrLast(ws, s);
      r := i >= wsLen - 1;
      assert r ==> ws[..wsLen - 1] == s[..wsLen - 1] by {
        assert r ==> ws[..i][..wsLen - 1] == ws[..wsLen - 1] && s[..i][..wsLen - 1] == s[..wsLen - 1];
      }
      assert !r && i < |s| ==> ws[..wsLen - 1][i] != s[i];
    }
  }

  // A cached answer, positive or negative, is the array's current answer.
  ghost predicate Agrees<V>(slots: seq<Slot<Option<V>>>, ws: seq<WEntry<V>>) {
    forall i :: 0 <= i < |slots| && slots[i].InUse? ==> slots[i].value == FirstMatch(ws, slots[i].key)
  }

  lemma AgreesSubsumed<V>(from: seq<Slot<Option<V>>>, to: seq<Slot<Option<V>>>, ws: seq<WEntry<V>>)
    requires Agrees(from, ws) && Subsumed(from, to)
    ensures Agrees(to, ws)
  {
    forall i | 0 <= i < |to| && to[i].InUse? ensures to[i].value == FirstMatch(ws, to[i].key) {
      var j :| 0 <= j < |from| && from[j] == to[i];
    }
  }

  lemma AgreesWhenEmpty<V>(slots: seq<Slot<Option<V>>>, ws: seq<WEntry<V>>)
    requires NothingLive(slots)
    ensures Agrees(slots, ws)
  {
  }

  // The cache-free answer: the exact entry, else the first matching pattern, else nothing.
  function Lookup<V>(finals: map<string, V>, ws: seq<WEntry<V>>, key: string): Option<V> {
    if key in finals then Some(finals[key]) else FirstMatch(ws, key)
  }

  lemma NamesBind<V>(f: map<string, V>, p: map<string, V>, key: string, value: V)
    ensures (f + p)[key := value] == f + p[key := value]
    ensures key !in p ==> (f + p)[key := value] == f[key := value] + p
  {
  }

  lemma NamesUnbind<V>(f: map<string, V>, p: map<string, V>, key: string)
    ensures key !in f ==> f + p - {key} == f + (p - {key})
    ensures key !in p ==> f + p - {key} == (f - {key}) + p
  {
  }

  lemma MoreAccounted<V>(a: multiset<V>, b: multiset<V>, more: multiset<V>)
    ensures a + more + b == a + b + more && a + (b + more) == a + b + more
  {
  }

  lemma EmptyArray<V>(ws: seq<WEntry<V>>)
    requires |ws| == MIN_SIZE && forall i :: 0 <= i < |ws| ==> ws[i].Free?
    ensures ws == Packed([], MIN_SIZE)
    ensures SoundArray(ws, map[]) && Live(ws) == [] && ValuesOf(ws) == multiset{}
  {
    assert ws == Packed([], MIN_SIZE);
    LiveOfPacked<V>([], MIN_SIZE);
    ValuesOfLive(ws);
  }

  class WTable<V> {
    const finals: HashTable<V>
    var wildcards: array<WEntry<V>>  // `wildcards` and `ws_size`
    var usedCount: nat
    const wcache: Cache<Option<V>>

    // The patterns the array stands for, and the values destroyed out of it, in order.
    ghost var patterns: map<string, V>
    ghost var destroyed: seq<V>

    ghost function Repr(): set<object>
      reads this, finals, wcache, wcache.table
    {
      {this, finals, finals.entries, wildcards, wcache, wcache.table, wcache.table.entries}
    }

    ghost predicate Separate()
      reads this, finals, wcache, wcache.table
    {
      && finals as object != wcache.table
      && finals.entries as object != wildcards
      && finals.entries as object != wcache.table.entries
      && wildcards as object != wcache.table.entries
    }

    ghost predicate ArrayOk()
      reads this, wildcards
    {
      SoundArray(wildcards[..], patterns) && usedCount == |Live(wildcards[..])|
    }

    ghost predicate Valid()
      reads this, finals, finals.entries, wildcards, wcache, wcache.table, wcache.table.entries
    {
      Separate() && FinalsOk() && PatternsOk()
    }

    ghost predicate FinalsOk()
      reads finals, finals.entries
    {
      finals.Valid() && forall k :: k in finals.contents ==> !IsWildcard(k)
    }

    // Whatever is cached, in any slot, is the array's answer.
    ghost predicate PatternsOk()
      reads this, wildcards, wcache, wcache.table, wcache.table.entries
    {
      && ArrayOk() && (forall k :: k in patterns ==> IsWildcard(k))
      && wcache.Valid() && Agrees(wcache.table.entries[..], wildcards[..])
    }

    // Every name set and not deleted since, with its value.
    ghost function Names(): map<string, V>
      reads this, finals
    {
      finals.contents + patterns
    }

    // The values destroyed so far, and all the values ever accepted.
    ghost function Gone(): multiset<V>
      reads this, finals
    {
      multiset(finals.destroyed) + multiset(destroyed)
    }

    ghost function Accounted(): multiset<V>
      reads this, finals, finals.entries, wildcards
    {
      finals.Accounted() + ArrayAccounted()
    }

    // Each array is still the same object or newly allocated.
    twostate predicate Refreshed()
      reads this, finals, wcache.table
    {
      && (finals.entries == old(finals.entries) || fresh(finals.entries))
      && (wildcards == old(wildcards) || fresh(wildcards))
      && (wcache.table.entries == old(wcache.table.entries) || fresh(wcache.table.entries))
    }

    constructor (hash: HashFn, leftover: nat)
      ensures Valid() && fresh(Repr())
      ensures finals.contents == map[] && wildcards[..] == Packed([], MIN_SIZE)
      ensures Names() == map[] && Gone() == multiset{} && Accounted() == multiset{}
    {
      hide HashTable.Valid, ValuesOf, WellKeyed;
      finals := new HashTable<V>(hash);
      wildcards := new WEntry<V>[MIN_SIZE](_ => Free);
      usedCount := 0;
      wcache := new Cache<Option<V>>(hash, leftover);
      patterns, destroyed := map[], [];
      new;
      EmptyArray<V>(wildcards[..]);
    }

    // wtable_free.
    method FreeTable()
      requires Valid()
      modifies finals`destroyed, `destroyed
      ensures Gone() == old(Accounted())
    {
      hide HashTable.Valid, HashTable.Owned, ArrayOk, Agrees, FirstMatch, Live;
      finals.Free();
      var i := 0;
      while i < wildcards.Length
        invariant i <= wildcards.Length
        invariant multiset(destroyed) == multiset(old(destroyed)) + ValuesOf(wildcards[..i])
        invariant multiset(finals.destroyed) == old(finals.Accounted())
      {
        assert wildcards[..i + 1][..i] == wildcards[..i];
        if wildcards[i].Used? {
          destroyed := destroyed + [wildcards[i].value];
        }
        i := i + 1;
      }
      assert wildcards[..i] == wildcards[..];
      assert multiset(destroyed) == old(ArrayAccounted());
    }

    // wildcards_find_entry.
    method FindEntry(key: string, exact: bool) returns (found: Option<nat>, firstFree: Option<nat>)
      requires WellKeyed(wildcards[..])
      ensures found.Some? ==> found.value < wildcards.Length && wildcards[found.value].Used?
      ensures exact ==> found == IndexOf(wildcards[..], key)
      ensures !exact ==>
                  FirstMatch(wildcards[..], key) == if found.Some? then Some(wildcards[found.value].value) else None
      ensures found.None? ==> firstFree == FreeIndex(wildcards[..])
    {
      ghost var ws := wildcards[..];
      firstFree := None;
      var pos := 0;
      while pos < wildcards.Length
        invariant pos <= wildcards.Length
        invariant exact ==> IndexOf(ws[..pos], key).None?
        invariant !exact ==> FirstMatch(ws[..pos], key).None?
        invariant firstFree == FreeIndex(ws[..pos])
      {
        assert ws[..pos + 1][..pos] == ws[..pos];
        match wildcards[pos] {
          case Free =>
            if firstFree.None? {
              firstFree := Some(pos);
            }
          case Used(k, len, v) =>
            var matches := WsMatches(k, len, key, |key|, exact);
            if matches {
              if exact {
                OnlyIndex(ws, pos, key);
              } else {
                FirstMatchPrefix(ws, pos + 1, key);
              }
              return Some(pos), firstFree;
            }
        }
        pos := pos + 1;
      }
      assert ws[..pos] == ws;
      return None, firstFree;
    }

    // wtable_get: the answer never depends on the cache, and the fill keeps the cache truthful. `walked` tells
    // whether the array was searched.
    method Get(key: string) returns (r: Option<V>, ghost walked: bool)
      requires Valid()
      modifies wcache.table.entries
      ensures Valid() && r == Lookup(finals.contents, wildcards[..], key)
      ensures key !in finals.contents ==> Hit(wcache.table.entries[..], wcache.table.hash, key) == Some(r)
      ensures wildcards[..] == old(wildcards[..]) && Accounted() == old(Accounted())
      ensures walked <==> key !in finals.contents && old(Hit(wcache.table.entries[..], wcache.table.hash, key)).None?
    {
      hide FirstMatch, Live, ValuesOf;
      walked := false;
      var value, _ := finals.Get(key);
      if value.Some? {
        return value, walked;
      }
      var cached := wcache.Get(key);
      if cached.Some? {
        return cached.value, walked;
      }
      walked := true;
      var entry, _ := FindEntry(key, false);
      r := if entry.Some? then Some(wildcards[entry.value].value) else None;
      wcache.Set(key, r);
    }

    // wildcards_set.
    method WildcardsSet(key: string, value: V) returns (ok: bool)
      requires WellKeyed(wildcards[..])
      modifies `usedCount, `destroyed, wildcards
      ensures wildcards[..] == Put(old(wildcards[..]), key, value)
      ensures ok <==> old(IndexOf(wildcards[..], key)).Some? || old(FreeIndex(wildcards[..])).Some?
      ensures usedCount == old(usedCount) + if ok && old(IndexOf(wildcards[..], key)).None? then 1 else 0
      ensures destroyed == match old(IndexOf(wildcards[..], key))
                           case Some(i) => old(destroyed) + [old(wildcards[..])[i].value]
                           case None => old(destroyed)
    {
      ghost var ws := wildcards[..];
      var entry, firstFree := FindEntry(key, true);
      if entry.Some? {
        destroyed := destroyed + [wildcards[entry.value].value];
        wildcards[entry.value] := wildcards[entry.value].(key := key, value := value);
        ok := true;
      } else if firstFree.Some? {
        wildcards[firstFree.value] := Used(key, |key|, value);
        usedCount := usedCount + 1;
        ok := true;
      } else {
        ok := false;
      }
      assert wildcards[..] == Put(ws, key, value);
    }

    // resize_table of the wildcard array: below the minimum size nothing happens at all.
    method ResizeTable(newSize: nat)
      requires WellKeyed(wildcards[..]) && |Live(wildcards[..])| <= newSize && Separate() && wcache.Valid()
      modifies `wildcards, `usedCount, `destroyed, wcache, wcache.table, wcache.table.entries
      ensures destroyed == old(destroyed) && wcache.Valid() && Separate()
      ensures newSize < MIN_SIZE ==>
                && wildcards == old(wildcards) && usedCount == old(usedCount)
                && wcache.table.entries == old(wcache.table.entries)
                && wcache.table.entries[..] == old(wcache.table.entries[..])
      ensures newSize >= MIN_SIZE ==>
                && fresh(wildcards) && wildcards[..] == Packed(old(Live(wildcards[..])), newSize)
                && usedCount == |old(Live(wildcards[..]))|
                && fresh(wcache.table.entries) && Subsumed(old(wcache.table.entries[..]), wcache.table.entries[..])
    {
      hide FirstMatch, Live, IndexOf, FreeIndex;
      if newSize < MIN_SIZE {
        return;
      }
      var oldWildcards := wildcards;
      ghost var was := wildcards[..];
      wildcards := new WEntry<V>[newSize](_ => WEntry.Free);
      usedCount := 0;
      var i := 0;
      while i < oldWildcards.Length
        invariant i <= oldWildcards.Length && oldWildcards[..] == was
        invariant fresh(wildcards) && |Live(was[..i])| <= newSize
        invariant wildcards[..] == Packed(Live(was[..i]), newSize)
        invariant usedCount == |Live(was[..i])| && destroyed == old(destroyed)
        modifies `usedCount, `destroyed, wildcards
      {
        PackStep(was, i, newSize);
        if oldWildcards[i].Used? {
          var ok := WildcardsSet(oldWildcards[i].key, oldWildcards[i].value);
          assert ok;
        }
        i := i + 1;
      }
      assert was[..i] == was;
      wcache.Resize(newSize);
    }

    // The values accepted into the array.
    ghost function ArrayAccounted(): multiset<V>
      reads this, wildcards
    {
      multiset(destroyed) + ValuesOf(wildcards[..])
    }

    // The growing half of wtable_set.
    method MakeRoom()
      requires ArrayOk() && Separate() && wcache.Valid()
      modifies `wildcards, `usedCount, `destroyed, wcache, wcache.table, wcache.table.entries
      ensures Separate() && wcache.Valid() && destroyed == old(destroyed)
      ensures wildcards[..] == Grown(old(wildcards[..])) && usedCount == |Live(wildcards[..])|
      ensures wildcards == old(wildcards) || fresh(wildcards)
      ensures wcache.table.entries == old(wcache.table.entries) || fresh(wcache.table.entries)
    {
      GrownFacts(wildcards[..], patterns);
      if wildcards.Length - usedCount <= 1 {
        ghost var was := wildcards[..];
        ResizeTable(13 * wildcards.Length / 10 + 1);
        CompactionKeepsLookups(was, |wildcards[..]|);
      }
    }

    // wtable_set on a pattern: make room, drop the cache, then insert.
    method StorePattern(key: string, value: V) returns (ok: bool)
      requires ArrayOk() && Separate() && wcache.Valid() && IsWildcard(key)
      modifies `wildcards, `usedCount, `destroyed, `patterns, wildcards, wcache, wcache.table, wcache.table.entries
      ensures ArrayOk() && Separate() && wcache.Valid() && NothingLive(wcache.table.entries[..])
      ensures ok && patterns == old(patterns)[key := value]
      ensures wildcards[..] == AfterSet(old(wildcards[..]), key, value)
      ensures destroyed == if key in old(patterns) then old(destroyed) + [old(patterns)[key]] else old(destroyed)
      ensures wildcards == old(wildcards) || fresh(wildcards)
      ensures wcache.table.entries == old(wcache.table.entries) || fresh(wcache.table.entries)
    {
      hide Put, Packed, FirstMatch, Live, Grown, Holds, WellKeyed, Bounded, IndexOf, FreeIndex, SoundArray,
        NothingLive, ValuesOf, Cache.Valid;
      ghost var was := wildcards[..];
      AfterSetFacts(was, patterns, key, value);
      MakeRoom();
      wcache.Invalidate();
      ok := WildcardsSet(key, value);
      patterns := patterns[key := value];
    }

    method SetPattern(key: string, value: V) returns (ok: bool)
      requires PatternsOk() && Separate() && IsWildcard(key)
      modifies `wildcards, `usedCount, `destroyed, `patterns, wildcards, wcache, wcache.table, wcache.table.entries
      ensures PatternsOk() && Separate()
      ensures ok && patterns == old(patterns)[key := value]
      ensures wildcards[..] == AfterSet(old(wildcards[..]), key, value)
      ensures destroyed == if key in old(patterns) then old(destroyed) + [old(patterns)[key]] else old(destroyed)
      ensures ArrayAccounted() == old(ArrayAccounted()) + multiset{value}
      ensures wildcards == old(wildcards) || fresh(wildcards)
      ensures wcache.table.entries == old(wcache.table.entries) || fresh(wcache.table.entries)
    {
      hide FirstMatch, Live, AfterSet, ValuesOf, SoundArray, NothingLive, Agrees;
      AfterSetFacts(wildcards[..], patterns, key, value);
      ok := StorePattern(key, value);
      AgreesWhenEmpty(wcache.table.entries[..], wildcards[..]);
      OverrideAccount(old(patterns), key, value, old(destroyed), destroyed, old(ValuesOf(wildcards[..])),
                      ValuesOf(wildcards[..]));
    }

    // The removing half of wtable_del: the value is destroyed and the entry freed.
    method FreeEntry(pos: nat, key: string)
      requires ArrayOk() && pos < wildcards.Length && IndexOf(wildcards[..], key) == Some(pos)
      modifies `usedCount, `destroyed, `patterns, wildcards
      ensures wildcards[..] == old(wildcards[..])[pos := WEntry.Free]
      ensures usedCount == |Live(wildcards[..])| && usedCount + 1 == old(usedCount)
      ensures key in old(patterns) && patterns == old(patterns) - {key}
      ensures destroyed == old(destroyed) + [old(patterns)[key]]
    {
      RemoveUnbinds(wildcards[..], key, patterns);
      UpdateLive(wildcards[..], pos, WEntry.Free);
      destroyed := destroyed + [wildcards[pos].value];
      wildcards[pos] := WEntry.Free;
      usedCount := usedCount - 1;
      patterns := patterns - {key};
    }

    // The shrinking half of wtable_del; below the minimum size nothing happens.
    method Shrink()
      requires WellKeyed(wildcards[..]) && usedCount == |Live(wildcards[..])| && Separate() && wcache.Valid()
      modifies `wildcards, `usedCount, `destroyed, wcache, wcache.table, wcache.table.entries
      ensures Separate() && wcache.Valid() && destroyed == old(destroyed)
      ensures wildcards[..] == Shrunk(old(wildcards[..])) && usedCount == old(usedCount)
      ensures wildcards == old(wildcards) || fresh(wildcards)
      ensures wcache.table.entries == old(wcache.table.entries) || fresh(wcache.table.entries)
    {
      if wildcards.Length > MIN_SIZE && 5 * usedCount < 3 * wildcards.Length {
        ResizeTable(usedCount + 3);
      }
    }

    // wtable_del on a pattern: destroy, free the entry, shrink, and only then drop the cache.
    method DropPattern(key: string) returns (found: bool)
      requires ArrayOk() && Separate() && wcache.Valid()
      modifies `wildcards, `usedCount, `destroyed, `patterns, wildcards, wcache, wcache.table, wcache.table.entries
      ensures ArrayOk() && Separate() && wcache.Valid()
      ensures if found then NothingLive(wcache.table.entries[..])
              else wcache.table.entries == old(wcache.table.entries)
                   && wcache.table.entries[..] == old(wcache.table.entries[..])
      ensures found == (key in old(patterns)) && patterns == old(patterns) - {key}
      ensures wildcards[..] == AfterDel(old(wildcards[..]), key)
      ensures destroyed == if found then old(destroyed) + [old(patterns)[key]] else old(destroyed)
      ensures wildcards == old(wildcards) || fresh(wildcards)
      ensures wcache.table.entries == old(wcache.table.entries) || fresh(wcache.table.entries)
    {
      hide FirstMatch, Live, Packed, IndexOf, Holds, WellKeyed, Bounded, SoundArray, NothingLive, Shrunk;
      ghost var was := wildcards[..];
      AfterDelFacts(was, patterns, key);
      var entry, _ := FindEntry(key, true);
      found := entry.Some?;
      if found {
        FreeEntry(entry.value, key);
        Shrink();
        wcache.Invalidate();
      }
    }

    method DelPattern(key: string) returns (found: bool)
      requires PatternsOk() && Separate()
      modifies `wildcards, `usedCount, `destroyed, `patterns, wildcards, wcache, wcache.table, wcache.table.entries
      ensures PatternsOk() && Separate()
      ensures found == (key in old(patterns)) && patterns == old(patterns) - {key}
      ensures wildcards[..] == AfterDel(old(wildcards[..]), key)
      ensures destroyed == if found then old(destroyed) + [old(patterns)[key]] else old(destroyed)
      ensures ArrayAccounted() == old(ArrayAccounted())
      ensures wildcards == old(wildcards) || fresh(wildcards)
      ensures wcache.table.entries == old(wcache.table.entries) || fresh(wcache.table.entries)
    {
      hide FirstMatch, Live, ValuesOf, SoundArray, NothingLive, Agrees, Packed, Shrunk;
      AfterDelFacts(wildcards[..], patterns, key);
      found := DropPattern(key);
      if found {
        AgreesWhenEmpty(wcache.table.entries[..], wildcards[..]);
        RemoveAccount(old(patterns)[key], old(destroyed), destroyed, old(ValuesOf(wildcards[..])),
                      ValuesOf(wildcards[..]));
      }
    }

    // wtable_set.
    method Set(key: string, value: V) returns (ok: bool)
      requires Valid() && key != []
      modifies Repr()
      ensures Valid() && Refreshed()
      ensures ok && Names() == old(Names())[key := value]
      ensures finals.contents == if IsWildcard(key) then old(finals.contents) else old(finals.contents)[key := value]
      ensures wildcards[..] == if IsWildcard(key) then AfterSet(old(wildcards[..]), key, value) else old(wildcards[..])
      ensures Gone() == old(Gone()) + if key in old(Names()) then multiset{old(Names())[key]} else multiset{}
      ensures Accounted() == old(Accounted()) + multiset{value}
    {
      hide HashTable.Valid, HashTable.Accounted, ArrayOk, Agrees, AfterSet, AfterDel, ArrayAccounted;
      NamesBind(finals.contents, patterns, key, value);
      MoreAccounted(finals.Accounted(), ArrayAccounted(), multiset{value});
      if key[|key| - 1] == '*' {
        ok := SetPattern(key, value);
      } else {
        ok := finals.Set(key, value);
      }
    }

    // wtable_del.
    method Del(key: string) returns (found: bool)
      requires Valid() && key != []
      modifies Repr()
      ensures Valid() && Refreshed()
      ensures found == (key in old(Names())) && Names() == old(Names()) - {key}
      ensures finals.contents == if IsWildcard(key) then old(finals.contents) else old(finals.contents) - {key}
      ensures wildcards[..] == if IsWildcard(key) then AfterDel(old(wildcards[..]), key) else old(wildcards[..])
      ensures Gone() == old(Gone()) + if found then multiset{old(Names())[key]} else multiset{}
      ensures Accounted() == old(Accounted())
    {
      hide HashTable.Valid, HashTable.Accounted, ArrayOk, Agrees, AfterSet, AfterDel, ArrayAccounted, Cache.Valid;
      NamesUnbind(finals.contents, patterns, key);
      if key[|key| - 1] == '*' {
        found := DelPattern(key);
      } else {
        var r, _ := finals.Del(key);
        found := r;
      }
    }
  }

  // One reinsertion of the rebuild loop: never an override, always the first free entry.
  lemma PackStep<V>(was: seq<WEntry<V>>, i: nat, size: nat)
    requires i < |was| && WellKeyed(was) && |Live(was)| <= size
    ensures |Live(was[..i])| <= |Live(was[..i + 1])| <= size && WellKeyed(Packed(Live(was[..i]), size))
    ensures !was[i].Used? ==> Live(was[..i + 1]) == Live(was[..i])
    ensures was[i].Used? ==>
              var packed := Packed(Live(was[..i]), size);
              && IndexOf(packed, was[i].key).None?
              && FreeIndex(packed).Some?
              && Put(packed, was[i].key, was[i].value) == Packed(Live(was[..i + 1]), size)
              && |Live(was[..i + 1])| == |Live(was[..i])| + 1
  {
    hide IsWildcard, IndexOf;
    assert was[..i + 1][..i] == was[..i];
    LivePrefix(was, i + 1);
    LiveWellKeyed(was[..i]);
    if was[i].Used? {
      var live := Live(was[..i]);
      var packed := Packed(live, size);
      assert IndexOf(packed, was[i].key).None? by {
        forall k | 0 <= k < |live| ensures live[k].key != was[i].key {
          var j := LiveFrom(was[..i], k);
          assert was[j] == live[k];
        }
      }
      assert packed[|live|].Free?;
      assert Put(packed, was[i].key, was[i].value) == Packed(Live(was[..i + 1]), size);
    }
  }

  lemma {:induction false} LivePrefix<V>(ws: seq<WEntry<V>>, i: nat)
    requires i <= |ws|
    ensures |Live(ws[..i])| <= |Live(ws)|
  {
    if i < |ws| {
      assert ws[..|ws| - 1][..i] == ws[..i];
      LivePrefix(ws[..|ws| - 1], i);
    } else {
      assert ws[..i] == ws;
    }
  }

  lemma OnlyIndex<V>(ws: seq<WEntry<V>>, i: nat, key: string)
    requires WellKeyed(ws) && i < |ws| && EntryIs(ws[i], key)
    ensures IndexOf(ws, key) == Some(i)
  {
  }
}
