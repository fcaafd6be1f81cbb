// The lookup cache of libfiu/hash.c: a hash table's slot array, read and written at home slots only.
module Caches {
  import opened Slots
  import opened HashTables

  // What cache_get finds: the home slot, if it is live and holds the key.
  function Hit<V>(slots: seq<Slot<V>>, hash: HashFn, key: string): Option<V>
    requires |slots| > 0
  {
    var s := slots[Home(hash, key, |slots|)];
    if s.InUse? && s.key == key then Some(s.value) else None
  }

  function Store<V>(slots: seq<Slot<V>>, hash: HashFn, key: string, value: V): seq<Slot<V>>
    requires |slots| > 0
  {
    slots[Home(hash, key, |slots|) := InUse(key, value)]
  }

  function Invalidated<V>(slots: seq<Slot<V>>): (r: seq<Slot<V>>)
    ensures |r| == |slots|
    ensures forall i :: 0 <= i < |r| ==> r[i] == if slots[i].InUse? then Never else slots[i]
  {
    seq(|slots|, i requires 0 <= i < |slots| => if slots[i].InUse? then Never else slots[i])
  }

  ghost predicate NothingLive<V>(slots: seq<Slot<V>>) {
    forall i :: 0 <= i < |slots| ==> !slots[i].InUse?
  }

  // A stored entry is found; another key keeps its entry unless both share a home.
  lemma HitAfterStore<V>(slots: seq<Slot<V>>, hash: HashFn, key: string, value: V, other: string)
    requires |slots| > 0
    ensures Hit(Store(slots, hash, key, value), hash, other) ==
            if other == key then Some(value)
            else if Home(hash, other, |slots|) == Home(hash, key, |slots|) then None
            else Hit(slots, hash, other)
  {
  }

  class Cache<V> {
    const table: HashTable<V>
    var size: nat

    ghost predicate Valid()
      reads table
    {
      table.entries.Length > 0
    }

    // cache_create leaves `size` uninitialised; `leftover` is whatever the memory held.
    constructor (hash: HashFn, leftover: nat)
      ensures Valid() && fresh(table) && fresh(table.entries) && table.hash == hash
      ensures NothingLive(table.entries[..])
    {
      table := new HashTable<V>(hash);
      size := leftover;
    }

    // cache_get.
    method Get(key: string) returns (r: Option<V>)
      requires Valid()
      ensures r == Hit(table.entries[..], table.hash, key)
    {
      var s := table.entries[Home(table.hash, key, table.entries.Length)];
      r := if s.InUse? && s.key == key then Some(s.value) else None;
    }

    // cache_set.
    method Set(key: string, value: V)
      requires Valid()
      modifies table.entries
      ensures table.entries[..] == Store(old(table.entries[..]), table.hash, key, value)
    {
      table.entries[Home(table.hash, key, table.entries.Length)] := InUse(key, value);
    }

    // cache_del.
    method Del(key: string) returns (found: bool)
      requires Valid()
      modifies table.entries
      ensures found == old(Hit(table.entries[..], table.hash, key)).Some?
      ensures table.entries[..]
           == if found then old(table.entries[..])[Home(table.hash, key, table.entries.Length) := Never]
                                   else old(table.entries[..])
    {
      var pos := Home(table.hash, key, table.entries.Length);
      found := table.entries[pos].InUse? && table.entries[pos].key == key;
      if found {
        table.entries[pos] := Never;
      }
    }

    // cache_invalidate.
    method Invalidate()
      requires Valid()
      modifies table.entries
      ensures table.entries[..] == Invalidated(old(table.entries[..])) && NothingLive(table.entries[..])
    {
      var i := 0;
      while i < table.entries.Length
        invariant i <= table.entries.Length
        invariant forall j :: 0 <= j < i ==>
                      table.entries[j] == if old(table.entries[j]).InUse? then Never else old(table.entries[j])
        invariant forall j :: i <= j < table.entries.Length ==> table.entries[j] == old(table.entries[j])
      {
        if table.entries[i].InUse? {
          table.entries[i] := Never;
        }
        i := i + 1;
      }
    }

    // cache_resize: growing moves the entries by probing, anything else drops them all first.
    method Resize(newSize: nat)
      requires Valid()
      modifies this, table, table.entries
      ensures Valid() && fresh(table.entries) && table.entries.Length == Max(newSize, MIN_SIZE) && size == newSize
      ensures if newSize > old(size) then Subsumed(old(table.entries[..]), table.entries[..])
              else NothingLive(table.entries[..])
      ensures newSize > old(size) && old(UniqueKeys(table.entries[..]))
              && old(LiveCount(table.entries[..])) < table.entries.Length
              ==> Represents(table.entries[..], old(ContentsOf(table.entries[..])))
    {
      if newSize <= size {
        Invalidate();
      }
      table.ResizeTable(newSize);
      size := newSize;
    }
  }
}
