// The slot array of libfiu/hash.c as a value: probing, the invariant that makes linear probing
// correct, and the occupancy and ownership counts.
module Slots {
  import opened Arithmetic

  datatype Option<+T> = None | Some(value: T)

  // The table theorems hold for every hash function of the key.
  type HashFn = string -> nat

  // `struct entry` with its `enum used_as` tag.
  datatype Slot<V> = Never | InUse(key: string, value: V) | Removed

  const MIN_SIZE: nat := 10

  function Home(hash: HashFn, key: string, size: nat): (pos: nat)
    requires size > 0
    ensures pos < size
  {
    hash(key) % size
  }

  // The position reached from `home` after `i` probes of a circle of `size` slots.
  function ProbeAt(home: nat, i: nat, size: nat): (pos: nat)
    requires home < size && i <= size
    ensures pos < size
  {
    if home + i < size then home + i else home + i - size
  }

  // `pos = (pos + 1) % size`, the step of all three probe loops.
  lemma ProbeStep(home: nat, i: nat, size: nat)
    requires home < size && i < size
    ensures (ProbeAt(home, i, size) + 1) % size == ProbeAt(home, i + 1, size)
  {
  }

  // A key is looked for at (hash + i) modulo the size, for i = 0, 1, 2, ...
  lemma ProbeOrder(hash: HashFn, key: string, size: nat, i: nat)
    requires i < size
    ensures ProbeAt(Home(hash, key, size), i, size) == (hash(key) + i) % size
  {
    hide Home, ProbeAt;
    var h, q := hash(key), hash(key) / size;
    var r := Home(hash, key, size);
    HomeIs(hash, key, size);
    ProbeIs(r, i, size);
    assert (q + 1) * size == q * size + size;
    RemainderUnique(h + i, size, if r + i < size then q else q + 1, ProbeAt(r, i, size));
  }

  lemma HomeIs(hash: HashFn, key: string, size: nat)
    requires size > 0
    ensures hash(key) == hash(key) / size * size + Home(hash, key, size)
  {
  }

  lemma ProbeIs(home: nat, i: nat, size: nat)
    requires home < size && i < size
    ensures ProbeAt(home, i, size) == if home + i < size then home + i else home + i - size
  {
  }

  // Position `j` is among the first `i` positions probed from `home`.
  predicate Visited(home: nat, i: nat, size: nat, j: nat) {
    home <= j < home + i || home <= j + size < home + i
  }

  // Position `j` lies on the circular path from `home` up to, but excluding, `target`.
  predicate OnPath(home: nat, target: nat, j: nat) {
    if home <= target then home <= j < target else home <= j || j < target
  }

  ghost predicate UniqueKeys<V>(slots: seq<Slot<V>>) {
    forall i, j :: 0 <= i < |slots| && 0 <= j < |slots| && slots[i].InUse? && slots[j].InUse?
                   && slots[i].key == slots[j].key ==>
                     i == j
  }

  // No never-used slot separates a live key from its home.
  ghost predicate ProbePaths<V>(slots: seq<Slot<V>>, hash: HashFn) {
    forall i, j :: 0 <= i < |slots| && 0 <= j < |slots| && slots[i].InUse?
                   && OnPath(Home(hash, slots[i].key, |slots|), i, j)
                   ==> !slots[j].Never?
  }

  // The live slots hold exactly the bindings of `m`.
  ghost predicate Represents<V>(slots: seq<Slot<V>>, m: map<string, V>) {
    && (forall i :: 0 <= i < |slots| && slots[i].InUse? ==> slots[i].key in m && m[slots[i].key] == slots[i].value)
    && (forall k :: k in m ==> exists i :: 0 <= i < |slots| && slots[i].InUse? && slots[i].key == k)
  }

  ghost predicate Consistent<V>(slots: seq<Slot<V>>, hash: HashFn, m: map<string, V>) {
    |slots| > 0 && UniqueKeys(slots) && ProbePaths(slots, hash) && Represents(slots, m)
  }

  ghost predicate HasNever<V>(slots: seq<Slot<V>>) {
    exists i :: 0 <= i < |slots| && slots[i].Never?
  }

  // Every live slot of `to` is a live slot of `from` with the same key and value.
  ghost predicate Subsumed<V>(from: seq<Slot<V>>, to: seq<Slot<V>>) {
    forall i :: 0 <= i < |to| && to[i].InUse? ==> to[i] in from
  }

  // A write of one binding: tombstones are never reused and no other slot changes.
  ghost predicate WroteOnly<V>(before: seq<Slot<V>>, after: seq<Slot<V>>, key: string, value: V) {
    && |after| == |before|
    && (forall i :: 0 <= i < |after| ==>
                      after[i] == before[i] || (after[i] == InUse(key, value) && !before[i].Removed?))
  }

  // ---- counts ----

  function LiveCount<V>(slots: seq<Slot<V>>): nat {
    if slots == [] then 0
    else LiveCount(slots[..|slots| - 1]) + if slots[|slots| - 1].InUse? then 1 else 0
  }

  function RemovedCount<V>(slots: seq<Slot<V>>): nat {
    if slots == [] then 0
    else RemovedCount(slots[..|slots| - 1]) + if slots[|slots| - 1].Removed? then 1 else 0
  }

  function NeverCount<V>(slots: seq<Slot<V>>): nat {
    if slots == [] then 0
    else NeverCount(slots[..|slots| - 1]) + if slots[|slots| - 1].Never? then 1 else 0
  }

  lemma {:induction false} CountsPartition<V>(slots: seq<Slot<V>>)
    ensures LiveCount(slots) + RemovedCount(slots) + NeverCount(slots) == |slots|
  {
    if slots != [] {
      CountsPartition(slots[..|slots| - 1]);
    }
  }

  // The values the table owns, with multiplicity.
  ghost function LiveValues<V>(slots: seq<Slot<V>>): multiset<V> {
    if slots == [] then multiset{}
    else LiveValues(slots[..|slots| - 1]) + SlotValues(slots[|slots| - 1])
  }

  ghost function SlotValues<V>(s: Slot<V>): multiset<V> {
    if s.InUse? then multiset{s.value} else multiset{}
  }

  lemma {:induction false} CountsOfUpdate<V>(slots: seq<Slot<V>>, p: nat, s: Slot<V>)
    requires p < |slots|
    ensures LiveCount(slots[p := s]) + (if slots[p].InUse? then 1 else 0)
         == LiveCount(slots) + (if s.InUse? then 1 else 0)
    ensures RemovedCount(slots[p := s]) + (if slots[p].Removed? then 1 else 0)
         == RemovedCount(slots) + (if s.Removed? then 1 else 0)
  {
    var n := |slots| - 1;
    var updated := slots[p := s];
    if p == n {
      assert updated[..n] == slots[..n];
    } else {
      assert updated[..n] == slots[..n][p := s];
      CountsOfUpdate(slots[..n], p, s);
    }
  }

  lemma NoValues<V>()
    ensures LiveValues<V>([]) == multiset{}
  {
  }

  lemma LastValues<V>(slots: seq<Slot<V>>)
    requires slots != []
    ensures LiveValues(slots) == LiveValues(slots[..|slots| - 1]) + SlotValues(slots[|slots| - 1])
  {
  }

  lemma {:induction false} ValuesOfUpdate<V>(slots: seq<Slot<V>>, p: nat, s: Slot<V>)
    requires p < |slots|
    ensures LiveValues(slots[p := s]) + SlotValues(slots[p]) == LiveValues(slots) + SlotValues(s)
  {
    hide LiveValues, SlotValues;
    var n := |slots| - 1;
    var updated := slots[p := s];
    LastValues(slots);
    LastValues(updated);
    var last := SlotValues(slots[n]);
    if p == n {
      assert updated[..n] == slots[..n];
      SwapLast(LiveValues(slots[..n]), SlotValues(s), last);
    } else {
      assert updated[..n] == slots[..n][p := s];
      ValuesOfUpdate(slots[..n], p, s);
      SwapLast(LiveValues(updated[..n]), last, SlotValues(slots[p]));
      SwapLast(LiveValues(slots[..n]), SlotValues(s), last);
    }
  }

  lemma SwapLast<V>(a: multiset<V>, b: multiset<V>, c: multiset<V>)
    ensures a + b + c == a + c + b
  {
  }

  lemma {:induction false} CountsOfFresh<V>(slots: seq<Slot<V>>)
    requires forall i :: 0 <= i < |slots| ==> slots[i].Never?
    ensures LiveCount(slots) == 0 && RemovedCount(slots) == 0 && LiveValues(slots) == multiset{}
  {
    if slots != [] {
      CountsOfFresh(slots[..|slots| - 1]);
    }
  }

  // A table whose live and removed slots do not fill it still has a never-used slot.
  lemma {:induction false} SpareSlot<V>(slots: seq<Slot<V>>)
    ensures LiveCount(slots) + RemovedCount(slots) <= |slots|
    ensures LiveCount(slots) + RemovedCount(slots) < |slots| ==> HasNever(slots)
  {
    if slots != [] {
      var n := |slots| - 1;
      SpareSlot(slots[..n]);
      if LiveCount(slots) + RemovedCount(slots) < |slots| && !slots[n].Never? {
        var i :| 0 <= i < n && slots[..n][i].Never?;
        assert slots[i].Never?;
      }
    }
  }

  // Without its last slot, the array still represents the map less that slot's binding.
  lemma FrontRepresents<V>(slots: seq<Slot<V>>, m: map<string, V>)
    requires slots != [] && UniqueKeys(slots) && Represents(slots, m)
    ensures UniqueKeys(slots[..|slots| - 1])
    ensures var last := slots[|slots| - 1];
            && (last.InUse? ==> last.key in m)
            && Represents(slots[..|slots| - 1], if last.InUse? then m - {last.key} else m)
  {
    var n := |slots| - 1;
    var front := slots[..n];
    var rest := if slots[n].InUse? then m - {slots[n].key} else m;
    forall k | k in rest ensures exists i :: 0 <= i < |front| && front[i].InUse? && front[i].key == k {
      var i :| 0 <= i < |slots| && slots[i].InUse? && slots[i].key == k;
      assert front[i] == slots[i];
    }
  }

  lemma OneKeyLess<V>(m: map<string, V>, key: string)
    requires key in m
    ensures |m - {key}| + 1 == |m|
  {
    var rest := m - {key};
    assert m.Keys == rest.Keys + {key};
    assert |m.Keys| == |rest.Keys| + 1;
  }

  lemma {:induction false} LiveCountIsSize<V>(slots: seq<Slot<V>>, m: map<string, V>)
    requires UniqueKeys(slots) && Represents(slots, m)
    ensures LiveCount(slots) == |m|
  {
    if slots == [] {
      assert m == map[];
    } else {
      hide Represents, UniqueKeys;
      var last := slots[|slots| - 1];
      FrontRepresents(slots, m);
      if last.InUse? {
        LiveCountIsSize(slots[..|slots| - 1], m - {last.key});
        OneKeyLess(m, last.key);
      } else {
        LiveCountIsSize(slots[..|slots| - 1], m);
      }
    }
  }

  lemma RepresentsOneMap<V>(slots: seq<Slot<V>>, m: map<string, V>, m': map<string, V>)
    requires Represents(slots, m) && Represents(slots, m')
    ensures m == m'
  {
    assert m.Keys == m'.Keys;
    forall k | k in m ensures m[k] == m'[k] {
      var i :| 0 <= i < |slots| && slots[i].InUse? && slots[i].key == k;
    }
  }

  // The bindings of the live slots, a later slot winning.
  ghost function ContentsOf<V>(slots: seq<Slot<V>>): map<string, V> {
    if slots == [] then map[]
    else
      var last := slots[|slots| - 1];
      var front := ContentsOf(slots[..|slots| - 1]);
      if last.InUse? then front[last.key := last.value] else front
  }

  lemma {:induction false} ContentsOfRepresents<V>(slots: seq<Slot<V>>)
    requires UniqueKeys(slots)
    ensures Represents(slots, ContentsOf(slots))
  {
    if slots != [] {
      var n := |slots| - 1;
      var front := slots[..n];
      ContentsOfRepresents(front);
      var m := ContentsOf(slots);
      forall k | k in m ensures exists i :: 0 <= i < |slots| && slots[i].InUse? && slots[i].key == k {
        if slots[n].InUse? && k == slots[n].key {
        } else {
          var i :| 0 <= i < n && front[i].InUse? && front[i].key == k;
          assert slots[i] == front[i];
        }
      }
      assert forall i :: 0 <= i < n && slots[i].InUse? ==> front[i] == slots[i];
    }
  }

  // ---- probing ----

  // `i` probes from the home of `key` met neither a never-used slot nor `key`.
  ghost predicate Passed<V>(slots: seq<Slot<V>>, home: nat, i: nat, key: string) {
    forall j :: 0 <= j < |slots| && Visited(home, i, |slots|, j) ==>
                  !slots[j].Never? && !(slots[j].InUse? && slots[j].key == key)
  }

  lemma PassedStart<V>(slots: seq<Slot<V>>, home: nat, key: string)
    requires home < |slots|
    ensures Passed(slots, home, 0, key) && ProbeAt(home, 0, |slots|) == home
  {
  }

  lemma PassedNext<V>(slots: seq<Slot<V>>, home: nat, i: nat, key: string)
    requires home < |slots| && i < |slots| && Passed(slots, home, i, key)
    requires var s := slots[ProbeAt(home, i, |slots|)]; !s.Never? && !(s.InUse? && s.key == key)
    ensures Passed(slots, home, i + 1, key)
    ensures (ProbeAt(home, i, |slots|) + 1) % |slots| == ProbeAt(home, i + 1, |slots|)
  {
    ProbeStep(home, i, |slots|);
  }

  // Stopping at a never-used slot is safe: the key is nowhere in the table.
  lemma NeverEndsProbe<V>(slots: seq<Slot<V>>, hash: HashFn, m: map<string, V>, key: string, i: nat)
    requires Consistent(slots, hash, m) && i < |slots|
    requires Passed(slots, Home(hash, key, |slots|), i, key)
    requires slots[ProbeAt(Home(hash, key, |slots|), i, |slots|)].Never?
    ensures key !in m
  {
    assert forall k :: 0 <= k < |slots| && slots[k].InUse? ==> slots[k].key != key;
  }

  lemma MatchEndsProbe<V>(slots: seq<Slot<V>>, hash: HashFn, m: map<string, V>, pos: nat)
    requires Consistent(slots, hash, m) && pos < |slots| && slots[pos].InUse?
    ensures slots[pos].key in m && m[slots[pos].key] == slots[pos].value
  {
  }

  // A probe of the whole circle has looked at every slot.
  lemma FullProbe<V>(slots: seq<Slot<V>>, hash: HashFn, m: map<string, V>, key: string)
    requires Consistent(slots, hash, m)
    requires Passed(slots, Home(hash, key, |slots|), |slots|, key)
    ensures key !in m && !HasNever(slots)
  {
    var home := Home(hash, key, |slots|);
    assert forall j :: 0 <= j < |slots| ==> Visited(home, |slots|, |slots|, j);
  }

  lemma FreshConsistent<V>(slots: seq<Slot<V>>, hash: HashFn)
    requires |slots| > 0 && forall i :: 0 <= i < |slots| ==> slots[i].Never?
    ensures Consistent(slots, hash, map[]) && Subsumed([], slots)
    ensures LiveCount(slots) == 0 && RemovedCount(slots) == 0 && LiveValues(slots) == multiset{}
  {
    CountsOfFresh(slots);
  }

  // _hash_set on the never-used slot that ended its probe.
  lemma InsertFacts<V>(slots: seq<Slot<V>>, hash: HashFn, m: map<string, V>, key: string, value: V, i: nat,
                       after: seq<Slot<V>>)
    requires Consistent(slots, hash, m) && i < |slots|
    requires Passed(slots, Home(hash, key, |slots|), i, key)
    requires slots[ProbeAt(Home(hash, key, |slots|), i, |slots|)].Never?
    requires after == slots[ProbeAt(Home(hash, key, |slots|), i, |slots|) := InUse(key, value)]
    ensures key !in m && HasNever(slots)
    ensures Consistent(after, hash, m[key := value]) && WroteOnly(slots, after, key, value)
    ensures LiveCount(after) == LiveCount(slots) + 1 && RemovedCount(after) == RemovedCount(slots)
    ensures LiveValues(after) == LiveValues(slots) + multiset{value}
  {
    hide LiveCount, LiveValues, RemovedCount, Home;
    NeverEndsProbe(slots, hash, m, key, i);
    var home := Home(hash, key, |slots|);
    var pos := ProbeAt(home, i, |slots|);
    assert forall j :: 0 <= j < |slots| && OnPath(home, pos, j) ==> Visited(home, i, |slots|, j);
    assert ProbePaths(after, hash);
    assert UniqueKeys(after);
    RebindRepresents(slots, m, key, value, pos);
    CountsOfUpdate(slots, pos, InUse(key, value));
    ValuesOfUpdate(slots, pos, InUse(key, value));
  }

  // _hash_set on the live slot of its key.
  lemma OverrideFacts<V>(slots: seq<Slot<V>>, hash: HashFn, m: map<string, V>, key: string, value: V, pos: nat,
                         after: seq<Slot<V>>)
    requires Consistent(slots, hash, m) && pos < |slots| && slots[pos].InUse? && slots[pos].key == key
    requires after == slots[pos := InUse(key, value)]
    ensures key in m && m[key] == slots[pos].value
    ensures Consistent(after, hash, m[key := value]) && WroteOnly(slots, after, key, value)
    ensures LiveCount(after) == LiveCount(slots) && RemovedCount(after) == RemovedCount(slots)
    ensures LiveValues(after) + multiset{m[key]} == LiveValues(slots) + multiset{value}
  {
    RebindRepresents(slots, m, key, value, pos);
    CountsOfUpdate(slots, pos, InUse(key, value));
    ValuesOfUpdate(slots, pos, InUse(key, value));
  }

  lemma RebindRepresents<V>(slots: seq<Slot<V>>, m: map<string, V>, key: string, value: V, pos: nat)
    requires Represents(slots, m) && UniqueKeys(slots) && pos < |slots|
    requires (slots[pos].Never? && key !in m) || (slots[pos].InUse? && slots[pos].key == key)
    ensures Represents(slots[pos := InUse(key, value)], m[key := value])
  {
    var after := slots[pos := InUse(key, value)];
    var bound := m[key := value];
    forall k | k in bound ensures exists i :: 0 <= i < |after| && after[i].InUse? && after[i].key == k {
      if k == key {
        assert after[pos].key == key;
      } else {
        var i :| 0 <= i < |slots| && slots[i].InUse? && slots[i].key == k;
        assert after[i] == slots[i];
      }
    }
  }

  // hash_del turns the live slot of its key into a tombstone.
  lemma RemoveFacts<V>(slots: seq<Slot<V>>, hash: HashFn, m: map<string, V>, key: string, pos: nat, after: seq<Slot<V>>)
    requires Consistent(slots, hash, m) && pos < |slots| && slots[pos].InUse? && slots[pos].key == key
    requires after == slots[pos := Removed]
    ensures key in m && m[key] == slots[pos].value
    ensures Consistent(after, hash, m - {key})
    ensures LiveCount(after) == LiveCount(slots) - 1 && RemovedCount(after) == RemovedCount(slots) + 1
    ensures LiveValues(after) + multiset{m[key]} == LiveValues(slots)
  {
    hide LiveValues, RemovedCount;
    CountsOfUpdate(slots, pos, Removed);
    ValuesOfUpdate(slots, pos, Removed);
    var rest := m - {key};
    forall k | k in rest ensures exists i :: 0 <= i < |after| && after[i].InUse? && after[i].key == k {
      var i :| 0 <= i < |slots| && slots[i].InUse? && slots[i].key == k;
      assert after[i] == slots[i];
    }
  }
}
