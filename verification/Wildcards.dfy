// The wildcard array of libfiu/wtable.c as a value: matching, the cache-free lookup, insertion into
// the first free entry, and resizing as a compaction.
module Wildcards {
  import opened Slots

  // `struct wentry`.
  datatype WEntry<V> = Free | Used(key: string, keyLen: nat, value: V)

  predicate IsWildcard(s: string) {
    s != [] && s[|s| - 1] == '*'
  }

  // The language of a pattern: `p*` stands for every string that starts with `p`.
  predicate Matches(pattern: string, s: string) {
    if IsWildcard(pattern) then pattern[..|pattern| - 1] <= s else pattern == s
  }

  // In terms of strings alone: `p*` accepts what starts with `p`, anything else accepts itself.
  lemma PatternLanguage(p: string, s: string)
    ensures Matches(p + "*", s) <==> exists rest :: s == p + rest
    ensures p == [] || p[|p| - 1] != '*' ==> (Matches(p, s) <==> p == s)
  {
    assert (p + "*")[..|p|] == p;
    if p <= s {
      assert s == p + s[|p|..];
    }
  }

  predicate EntryMatches<V>(e: WEntry<V>, key: string) {
    e.Used? && Matches(e.key, key)
  }

  predicate EntryIs<V>(e: WEntry<V>, key: string) {
    e.Used? && e.key == key
  }

  // The cache-free lookup: the value of the first entry, in array order, that matches.
  function FirstMatch<V>(ws: seq<WEntry<V>>, key: string): Option<V> {
    if ws == [] then None
    else
      var last := ws[|ws| - 1];
      var earlier := FirstMatch(ws[..|ws| - 1], key);
      if earlier.Some? then earlier else if EntryMatches(last, key) then Some(last.value) else None
  }

  // The used entries, in array order.
  function Live<V>(ws: seq<WEntry<V>>): (r: seq<WEntry<V>>)
    ensures |r| <= |ws|
  {
    if ws == [] then []
    else Live(ws[..|ws| - 1]) + if ws[|ws| - 1].Used? then [ws[|ws| - 1]] else []
  }

  ghost function ValuesOf<V>(ws: seq<WEntry<V>>): multiset<V> {
    if ws == [] then multiset{}
    else ValuesOf(ws[..|ws| - 1]) + EntryValues(ws[|ws| - 1])
  }

  ghost function EntryValues<V>(e: WEntry<V>): multiset<V> {
    if e.Used? then multiset{e.value} else multiset{}
  }

  ghost predicate WellKeyed<V>(ws: seq<WEntry<V>>) {
    && (forall i :: 0 <= i < |ws| && ws[i].Used? ==> IsWildcard(ws[i].key) && ws[i].keyLen == |ws[i].key|)
    && (forall i, j :: 0 <= i < j < |ws| && ws[i].Used? && ws[j].Used? ==> ws[i].key != ws[j].key)
  }

  // The array holds exactly the patterns of `m`.
  ghost predicate Holds<V>(ws: seq<WEntry<V>>, m: map<string, V>) {
    && (forall i :: 0 <= i < |ws| && ws[i].Used? ==> ws[i].key in m && m[ws[i].key] == ws[i].value)
    && (forall k :: k in m ==> exists i :: 0 <= i < |ws| && EntryIs(ws[i], k))
  }

  // ---- the first match ----

  lemma {:induction false} FirstMatchMeaning<V>(ws: seq<WEntry<V>>, key: string)
    ensures FirstMatch(ws, key).Some? <==> exists i :: 0 <= i < |ws| && EntryMatches(ws[i], key)
    ensures FirstMatch(ws, key).Some? ==>
              exists i :: 0 <= i < |ws| && EntryMatches(ws[i], key) && FirstMatch(ws, key) == Some(ws[i].value)
                          && forall j :: 0 <= j < i ==> !EntryMatches(ws[j], key)
  {
    if ws != [] {
      var n := |ws| - 1;
      var front := ws[..n];
      FirstMatchMeaning(front, key);
      assert forall i :: 0 <= i < n ==> front[i] == ws[i];
      if FirstMatch(front, key).Some? {
        var i :| 0 <= i < n && EntryMatches(front[i], key) && FirstMatch(front, key) == Some(front[i].value)
                 && forall j :: 0 <= j < i ==> !EntryMatches(front[j], key);
        assert EntryMatches(ws[i], key);
      } else if EntryMatches(ws[n], key) {
        assert forall j :: 0 <= j < n ==> !EntryMatches(ws[j], key) by {
          forall j | 0 <= j < n ensures !EntryMatches(ws[j], key) {
            assert !EntryMatches(front[j], key);
          }
        }
      }
    }
  }

  lemma {:induction false} FirstMatchPrefix<V>(ws: seq<WEntry<V>>, i: nat, key: string)
    requires i <= |ws| && FirstMatch(ws[..i], key).Some?
    ensures FirstMatch(ws, key) == FirstMatch(ws[..i], key)
  {
    if i == |ws| {
      assert ws[..i] == ws;
    } else {
      assert ws[..|ws| - 1][..i] == ws[..i];
      FirstMatchPrefix(ws[..|ws| - 1], i, key);
    }
  }

  // Only the used entries and their order matter to a lookup.
  lemma {:induction false} FirstMatchOfLive<V>(ws: seq<WEntry<V>>, key: string)
    ensures FirstMatch(Live(ws), key) == FirstMatch(ws, key)
  {
    if ws != [] {
      var n := |ws| - 1;
      FirstMatchOfLive(ws[..n], key);
      if ws[n].Used? {
        assert Live(ws)[..|Live(ws)| - 1] == Live(ws[..n]);
      } else {
        assert Live(ws) == Live(ws[..n]);
      }
    }
  }

  // ---- compaction ----

  function Packed<V>(live: seq<WEntry<V>>, size: nat): (r: seq<WEntry<V>>)
    requires |live| <= size
    ensures |r| == size
  {
    live + seq(size - |live|, _ => Free)
  }

  lemma {:induction false} LiveOfPacked<V>(live: seq<WEntry<V>>, size: nat)
    requires |live| <= size && forall i :: 0 <= i < |live| ==> live[i].Used?
    ensures Live(Packed(live, size)) == live
  {
    if |live| < size {
      assert Packed(live, size)[..size - 1] == Packed(live, size - 1);
      LiveOfPacked(live, size - 1);
    } else if size > 0 {
      var front := live[..size - 1];
      assert Packed(live, size)[..size - 1] == Packed(front, size - 1);
      LiveOfPacked(front, size - 1);
    }
  }

  lemma {:induction false} ValuesOfLive<V>(ws: seq<WEntry<V>>)
    ensures ValuesOf(Live(ws)) == ValuesOf(ws)
  {
    if ws != [] {
      var n := |ws| - 1;
      ValuesOfLive(ws[..n]);
      if ws[n].Used? {
        assert Live(ws)[..|Live(ws)| - 1] == Live(ws[..n]);
      } else {
        assert Live(ws) == Live(ws[..n]);
        assert ValuesOf(ws) == ValuesOf(ws[..n]);
      }
    }
  }

  lemma {:induction false} LiveFrom<V>(ws: seq<WEntry<V>>, k: nat) returns (i: nat)
    requires k < |Live(ws)|
    ensures i < |ws| && ws[i] == Live(ws)[k] && ws[i].Used?
  {
    var n := |ws| - 1;
    if k < |Live(ws[..n])| {
      i := LiveFrom(ws[..n], k);
    } else {
      i := n;
    }
  }

  lemma {:induction false} LiveHas<V>(ws: seq<WEntry<V>>, i: nat) returns (k: nat)
    requires i < |ws| && ws[i].Used?
    ensures k < |Live(ws)| && Live(ws)[k] == ws[i]
  {
    var n := |ws| - 1;
    if i < n {
      k := LiveHas(ws[..n], i);
    } else {
      k := |Live(ws[..n])|;
    }
  }

  lemma {:induction false} LiveWellKeyed<V>(ws: seq<WEntry<V>>)
    requires WellKeyed(ws)
    ensures WellKeyed(Live(ws))
    ensures forall k :: 0 <= k < |Live(ws)| ==> Live(ws)[k].Used?
  {
    if ws != [] {
      var n := |ws| - 1;
      LiveWellKeyed(ws[..n]);
      if ws[n].Used? {
        forall k | 0 <= k < |Live(ws[..n])| ensures Live(ws[..n])[k].key != ws[n].key {
          var i := LiveFrom(ws[..n], k);
          assert ws[i] == ws[..n][i];
        }
      }
    }
  }

  // A resize is a stable compaction: same patterns, same order, so the same answer for every key.
  lemma CompactionKeepsLookups<V>(ws: seq<WEntry<V>>, size: nat)
    requires |Live(ws)| <= size
    ensures Live(Packed(Live(ws), size)) == Live(ws)
    ensures forall key :: FirstMatch(Packed(Live(ws), size), key) == FirstMatch(ws, key)
    ensures ValuesOf(Packed(Live(ws), size)) == ValuesOf(ws)
  {
    ValuesOfLive(ws);
    var packed := Packed(Live(ws), size);
    forall k | 0 <= k < |Live(ws)| ensures Live(ws)[k].Used? {
      var _ := LiveFrom(ws, k);
    }
    LiveOfPacked(Live(ws), size);
    ValuesOfLive(packed);
    forall key ensures FirstMatch(packed, key) == FirstMatch(ws, key) {
      FirstMatchOfLive(ws, key);
      FirstMatchOfLive(packed, key);
    }
  }

  lemma CompactionKeepsKeys<V>(ws: seq<WEntry<V>>, size: nat, m: map<string, V>)
    requires |Live(ws)| <= size && WellKeyed(ws) && Holds(ws, m)
    ensures WellKeyed(Packed(Live(ws), size)) && Holds(Packed(Live(ws), size), m)
  {
    LiveWellKeyed(ws);
    var live := Live(ws);
    var packed := Packed(live, size);
    forall i | 0 <= i < |packed| && packed[i].Used? ensures packed[i].key in m && m[packed[i].key] == packed[i].value {
      var j := LiveFrom(ws, i);
    }
    forall k | k in m ensures exists i :: 0 <= i < |packed| && EntryIs(packed[i], k) {
      var i :| 0 <= i < |ws| && EntryIs(ws[i], k);
      var j := LiveHas(ws, i);
      assert EntryIs(packed[j], k);
    }
  }

  // ---- insertion and removal ----

  function IndexOf<V>(ws: seq<WEntry<V>>, key: string): (r: Option<nat>)
    ensures r.Some? ==> r.value < |ws| && EntryIs(ws[r.value], key)
    ensures r.None? ==> forall i :: 0 <= i < |ws| ==> !EntryIs(ws[i], key)
  {
    if ws == [] then None
    else
      var n := |ws| - 1;
      var earlier := IndexOf(ws[..n], key);
      assert forall i :: 0 <= i < n ==> ws[..n][i] == ws[i];
      if earlier.Some? then earlier else if EntryIs(ws[n], key) then Some(n) else None
  }

  function FreeIndex<V>(ws: seq<WEntry<V>>): (r: Option<nat>)
    ensures r.Some? ==> r.value < |ws| && ws[r.value].Free? && forall i :: 0 <= i < r.value ==> ws[i].Used?
    ensures r.None? ==> forall i :: 0 <= i < |ws| ==> ws[i].Used?
  {
    if ws == [] then None
    else
      var n := |ws| - 1;
      var earlier := FreeIndex(ws[..n]);
      assert forall i :: 0 <= i < n ==> ws[..n][i] == ws[i];
      if earlier.Some? then earlier else if ws[n].Free? then Some(n) else None
  }

  // wildcards_set: override the entry with this key, else take the first free one.
  function Put<V>(ws: seq<WEntry<V>>, key: string, value: V): (r: seq<WEntry<V>>)
    ensures |r| == |ws|
  {
    match IndexOf(ws, key)
    case Some(i) => ws[i := ws[i].(key := key, value := value)]
    case None =>
      match FreeIndex(ws)
      case Some(i) => ws[i := Used(key, |key|, value)]
      case None => ws
  }

  lemma {:induction false} UpdateLive<V>(ws: seq<WEntry<V>>, p: nat, e: WEntry<V>)
    requires p < |ws|
    ensures |Live(ws[p := e])| + (if ws[p].Used? then 1 else 0) == |Live(ws)| + (if e.Used? then 1 else 0)
  {
    var n := |ws| - 1;
    var updated := ws[p := e];
    if p == n {
      assert updated[..n] == ws[..n];
    } else {
      assert updated[..n] == ws[..n][p := e];
      UpdateLive(ws[..n], p, e);
    }
  }

  lemma LastEntryValues<V>(ws: seq<WEntry<V>>)
    requires ws != []
    ensures ValuesOf(ws) == ValuesOf(ws[..|ws| - 1]) + EntryValues(ws[|ws| - 1])
  {
  }

  lemma {:induction false} UpdateValues<V>(ws: seq<WEntry<V>>, p: nat, e: WEntry<V>)
    requires p < |ws|
    ensures ValuesOf(ws[p := e]) + EntryValues(ws[p]) == ValuesOf(ws) + EntryValues(e)
  {
    hide ValuesOf, EntryValues;
    var n := |ws| - 1;
    var updated := ws[p := e];
    LastEntryValues(ws);
    LastEntryValues(updated);
    var last := EntryValues(ws[n]);
    if p == n {
      assert updated[..n] == ws[..n];
      SwapLast(ValuesOf(ws[..n]), EntryValues(e), last);
    } else {
      assert updated[..n] == ws[..n][p := e];
      UpdateValues(ws[..n], p, e);
      SwapLast(ValuesOf(updated[..n]), last, EntryValues(ws[p]));
      SwapLast(ValuesOf(ws[..n]), EntryValues(e), last);
    }
  }

  lemma {:induction false} FreeWhenNotFull<V>(ws: seq<WEntry<V>>)
    requires |Live(ws)| < |ws|
    ensures FreeIndex(ws).Some?
  {
    var n := |ws| - 1;
    ValuesOfLive(ws[..n]);
    if ws[n].Used? {
      FreeWhenNotFull(ws[..n]);
    }
  }

  // Binding a pattern leaves every other pattern alone.
  lemma PutBinds<V>(ws: seq<WEntry<V>>, key: string, value: V, m: map<string, V>)
    requires WellKeyed(ws) && Holds(ws, m) && IsWildcard(key)
    requires IndexOf(ws, key).Some? || FreeIndex(ws).Some?
    ensures IndexOf(ws, key).Some? <==> key in m
    ensures key in m ==> ws[IndexOf(ws, key).value].value == m[key]
    ensures WellKeyed(Put(ws, key, value)) && Holds(Put(ws, key, value), m[key := value])
  {
    hide IndexOf, FreeIndex, IsWildcard;
    var after, bound := Put(ws, key, value), m[key := value];
    var p := if IndexOf(ws, key).Some? then IndexOf(ws, key).value else FreeIndex(ws).value;
    assert after[p] == Used(key, |key|, value);
    assert forall i :: 0 <= i < |ws| && i != p ==> after[i] == ws[i];
    assert forall i :: 0 <= i < |ws| && i != p && ws[i].Used? ==> ws[i].key != key by {
      assert forall i :: 0 <= i < |ws| && i != p && EntryIs(ws[i], key) ==> ws[p].Used?;
    }
    forall k | k in bound ensures exists i :: 0 <= i < |after| && EntryIs(after[i], k) {
      if k == key {
        assert EntryIs(after[p], k);
      } else {
        var i :| 0 <= i < |ws| && EntryIs(ws[i], k);
        assert EntryIs(after[i], k);
      }
    }
  }

  // Where a pattern goes: its own entry, or the first free one; every other entry stays where it is.
  lemma PutPlace<V>(ws: seq<WEntry<V>>, key: string, value: V) returns (p: nat)
    requires IndexOf(ws, key).Some? || FreeIndex(ws).Some?
    ensures p < |ws| && Put(ws, key, value)[p].Used?
    ensures Put(ws, key, value)[p].key == key && Put(ws, key, value)[p].value == value
    ensures forall i :: 0 <= i < |ws| && i != p ==> Put(ws, key, value)[i] == ws[i]
    ensures EntryIs(ws[p], key) || (ws[p].Free? && forall i :: 0 <= i < |ws| ==> !EntryIs(ws[i], key))
    ensures ws[p].Free? ==> forall i :: 0 <= i < p ==> ws[i].Used?
  {
    p := if IndexOf(ws, key).Some? then IndexOf(ws, key).value else FreeIndex(ws).value;
  }

  lemma {:induction false} UpdateUnmatched<V>(ws: seq<WEntry<V>>, p: nat, e: WEntry<V>, s: string)
    requires p < |ws| && !EntryMatches(ws[p], s) && !EntryMatches(e, s)
    ensures FirstMatch(ws[p := e], s) == FirstMatch(ws, s)
  {
    hide EntryMatches;
    var n := |ws| - 1;
    if p == n {
      assert ws[p := e][..n] == ws[..n];
    } else {
      assert ws[p := e][..n] == ws[..n][p := e];
      UpdateUnmatched(ws[..n], p, e, s);
    }
  }

  // A pattern matters only to the keys it covers.
  lemma PutUnmatched<V>(ws: seq<WEntry<V>>, key: string, value: V, s: string)
    requires (IndexOf(ws, key).Some? || FreeIndex(ws).Some?) && !Matches(key, s)
    ensures FirstMatch(Put(ws, key, value), s) == FirstMatch(ws, s)
  {
    hide Matches, Put, FirstMatch, IndexOf, FreeIndex;
    var p := PutPlace(ws, key, value);
    assert Put(ws, key, value) == ws[p := Put(ws, key, value)[p]];
    UpdateUnmatched(ws, p, Put(ws, key, value)[p], s);
  }

  lemma FreeUnmatched<V>(ws: seq<WEntry<V>>, key: string, p: nat, s: string)
    requires p < |ws| && EntryIs(ws[p], key) && !Matches(key, s)
    ensures FirstMatch(ws[p := Free], s) == FirstMatch(ws, s)
  {
    UpdateUnmatched(ws, p, Free, s);
  }

  lemma RemoveUnbinds<V>(ws: seq<WEntry<V>>, key: string, m: map<string, V>)
    requires WellKeyed(ws) && Holds(ws, m)
    ensures IndexOf(ws, key).Some? <==> key in m
    ensures key in m ==>
              var p := IndexOf(ws, key).value;
              ws[p].value == m[key] && WellKeyed(ws[p := Free]) && Holds(ws[p := Free], m - {key})
  {
    if IndexOf(ws, key).Some? {
      var p := IndexOf(ws, key).value;
      var after, rest := ws[p := Free], m - {key};
      forall k | k in rest ensures exists i :: 0 <= i < |after| && EntryIs(after[i], k) {
        var i :| 0 <= i < |ws| && EntryIs(ws[i], k);
        assert EntryIs(after[i], k);
      }
    }
  }

  // ---- the array after a whole operation ----

  // Size bounds kept by growing 30% plus one at one spare entry, and by shrinking to three spare
  // entries below 60% use.
  predicate Bounded(size: nat, used: nat) {
    size >= MIN_SIZE && used < size && (size <= 11 || 5 * used >= 3 * size)
  }

  function Grown<V>(ws: seq<WEntry<V>>): seq<WEntry<V>> {
    if |ws| - |Live(ws)| <= 1 then Packed(Live(ws), 13 * |ws| / 10 + 1) else ws
  }

  predicate Shrinks(size: nat, used: nat) {
    size > MIN_SIZE && 5 * used < 3 * size && used + 3 >= MIN_SIZE
  }

  function Shrunk<V>(ws: seq<WEntry<V>>): seq<WEntry<V>> {
    if Shrinks(|ws|, |Live(ws)|) then Packed(Live(ws), |Live(ws)| + 3) else ws
  }

  function AfterSet<V>(ws: seq<WEntry<V>>, key: string, value: V): seq<WEntry<V>> {
    Put(Grown(ws), key, value)
  }

  function AfterDel<V>(ws: seq<WEntry<V>>, key: string): seq<WEntry<V>> {
    match IndexOf(ws, key)
    case Some(i) => Shrunk(ws[i := Free])
    case None => ws
  }

  ghost predicate SoundArray<V>(ws: seq<WEntry<V>>, m: map<string, V>) {
    WellKeyed(ws) && Holds(ws, m) && Bounded(|ws|, |Live(ws)|)
  }

  // Growing adds 30%, rounded down, and one; shrinking keeps three free entries, and stops at ten.
  lemma ResizedSizes<V>(ws: seq<WEntry<V>>)
    ensures |Grown(ws)| == |ws| + if |Live(ws)| + 1 >= |ws| then 3 * |ws| / 10 + 1 else 0
    ensures |Shrunk(ws)| == if |ws| > 10 && |Live(ws)| >= 7 && 10 * |Live(ws)| < 6 * |ws| then |Live(ws)| + 3
                            else |ws|
  {
    hide Live, Packed;
  }

  // Growing keeps every lookup and makes room for one more entry.
  lemma GrownFacts<V>(ws: seq<WEntry<V>>, m: map<string, V>)
    requires SoundArray(ws, m)
    ensures SoundArray(Grown(ws), m) && |Live(Grown(ws))| + 1 < |Grown(ws)|
    ensures forall key :: FirstMatch(Grown(ws), key) == FirstMatch(ws, key)
    ensures ValuesOf(Grown(ws)) == ValuesOf(ws)
  {
    if |ws| - |Live(ws)| <= 1 {
      CompactionKeepsLookups(ws, 13 * |ws| / 10 + 1);
      CompactionKeepsKeys(ws, 13 * |ws| / 10 + 1, m);
    }
  }

  lemma ShrunkFacts<V>(ws: seq<WEntry<V>>, m: map<string, V>)
    requires WellKeyed(ws) && Holds(ws, m) && Bounded(|ws|, |Live(ws)| + 1)
    ensures SoundArray(Shrunk(ws), m) && Live(Shrunk(ws)) == Live(ws)
    ensures forall key :: FirstMatch(Shrunk(ws), key) == FirstMatch(ws, key)
    ensures ValuesOf(Shrunk(ws)) == ValuesOf(ws)
  {
    if Shrinks(|ws|, |Live(ws)|) {
      CompactionKeepsLookups(ws, |Live(ws)| + 3);
      CompactionKeepsKeys(ws, |Live(ws)| + 3, m);
    }
  }

  lemma AfterSetFacts<V>(ws: seq<WEntry<V>>, m: map<string, V>, key: string, value: V)
    requires SoundArray(ws, m) && IsWildcard(key)
    ensures SoundArray(AfterSet(ws, key, value), m[key := value]) && WellKeyed(Grown(ws))
    ensures IndexOf(Grown(ws), key).Some? || FreeIndex(Grown(ws)).Some?
    ensures IndexOf(Grown(ws), key).Some? <==> key in m
    ensures key in m ==> Grown(ws)[IndexOf(Grown(ws), key).value].value == m[key]
    ensures |Live(AfterSet(ws, key, value))| == |Live(Grown(ws))| + if key in m then 0 else 1
    ensures ValuesOf(AfterSet(ws, key, value)) + (if key in m then multiset{m[key]} else multiset{})
         == ValuesOf(ws) + multiset{value}
  {
    GrownFacts(ws, m);
    var grown := Grown(ws);
    FreeWhenNotFull(grown);
    PutBinds(grown, key, value, m);
    var p := if IndexOf(grown, key).Some? then IndexOf(grown, key).value else FreeIndex(grown).value;
    assert Put(grown, key, value) == grown[p := Used(key, |key|, value)];
    UpdateLive(grown, p, Used(key, |key|, value));
    UpdateValues(grown, p, Used(key, |key|, value));
  }

  lemma AfterDelFacts<V>(ws: seq<WEntry<V>>, m: map<string, V>, key: string)
    requires SoundArray(ws, m)
    ensures SoundArray(AfterDel(ws, key), m - {key}) && WellKeyed(ws)
    ensures key !in m ==> m - {key} == m
    ensures IndexOf(ws, key).Some? <==> key in m
    ensures key in m ==> var freed := ws[IndexOf(ws, key).value := Free];
                         |Live(freed)| + 1 == |Live(ws)| && |Live(Shrunk(freed))| == |Live(freed)| && WellKeyed(freed)
    ensures ValuesOf(AfterDel(ws, key)) + (if key in m then multiset{m[key]} else multiset{}) == ValuesOf(ws)
  {
    RemoveUnbinds(ws, key, m);
    if key in m {
      var p := IndexOf(ws, key).value;
      UpdateLive(ws, p, Free);
      UpdateValues(ws, p, Free);
      ShrunkFacts(ws[p := Free], m - {key});
    } else {
      assert m - {key} == m;
    }
  }
  // Setting or deleting a pattern changes no answer for a key it does not cover, whatever is resized on the
  // way; a key that had no answer gets the new value if the pattern covers it.
  lemma OthersKeepTheirAnswers<V>(ws: seq<WEntry<V>>, m: map<string, V>, key: string, value: V, s: string)
    requires SoundArray(ws, m) && IsWildcard(key)
    ensures !Matches(key, s) ==> FirstMatch(AfterSet(ws, key, value), s) == FirstMatch(ws, s)
    ensures !Matches(key, s) ==> FirstMatch(AfterDel(ws, key), s) == FirstMatch(ws, s)
    ensures Matches(key, s) && FirstMatch(ws, s).None? ==> FirstMatch(AfterSet(ws, key, value), s) == Some(value)
  {
    hide Matches, FirstMatch, Live, IndexOf, FreeIndex, Put, Grown, Shrunk, WellKeyed, Holds, Bounded, IsWildcard;
    GrownFacts(ws, m);
    AfterSetFacts(ws, m, key, value);
    AfterDelFacts(ws, m, key);
    if !Matches(key, s) {
      PutUnmatched(Grown(ws), key, value, s);
      if IndexOf(ws, key).Some? {
        var p := IndexOf(ws, key).value;
        FreeUnmatched(ws, key, p, s);
        UpdateLive(ws, p, Free);
        RemoveUnbinds(ws, key, m);
        ShrunkFacts(ws[p := Free], m - {key});
      }
    } else if FirstMatch(ws, s).None? {
      OnlyCover(Grown(ws), key, value, s);
    }
  }

  lemma OnlyCover<V>(ws: seq<WEntry<V>>, key: string, value: V, s: string)
    requires (IndexOf(ws, key).Some? || FreeIndex(ws).Some?) && Matches(key, s) && FirstMatch(ws, s).None?
    ensures FirstMatch(Put(ws, key, value), s) == Some(value)
  {
    hide Matches, FirstMatch, IndexOf, FreeIndex, Put;
    var p := PutPlace(ws, key, value);
    FirstMatchMeaning(ws, s);
    FirstMatchMeaning(Put(ws, key, value), s);
    assert EntryMatches(Put(ws, key, value)[p], s);
    assert forall i :: 0 <= i < |ws| && i != p ==> !EntryMatches(ws[i], s);
  }
}
