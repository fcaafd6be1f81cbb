// Whole runs of the wildcard table, from wtable_create to wtable_free, against a table without a
// cache and against the plain map of the names in force.
module WTableRuns {
  import opened Slots
  import opened Wildcards
  import opened WTables
  import opened HashRuns

  // The cache-free table: exact entries and the array of patterns.
  datatype Plain<V> = Plain(finals: map<string, V>, ws: seq<WEntry<V>>)

  function PlainStep<V>(p: Plain<V>, op: Op<V>): Plain<V> {
    match op
    case SetOp(k, v) => if IsWildcard(k) then p.(ws := AfterSet(p.ws, k, v)) else p.(finals := p.finals[k := v])
    case DelOp(k) => if IsWildcard(k) then p.(ws := AfterDel(p.ws, k)) else p.(finals := p.finals - {k})
    case GetOp(_) => p
  }

  function PlainAfter<V>(ops: seq<Op<V>>): Plain<V> {
    if ops == [] then Plain(map[], Packed([], MIN_SIZE)) else PlainStep(PlainAfter(ops[..|ops| - 1]), ops[|ops| - 1])
  }

  function PlainOutcome<V>(p: Plain<V>, names: map<string, V>, op: Op<V>): Outcome<V> {
    match op
    case SetOp(_, _) => Done(true)
    case DelOp(k) => Done(k in names)
    case GetOp(k) => Got(Lookup(p.finals, p.ws, k))
  }

  function PlainOutcomes<V>(ops: seq<Op<V>>): seq<Outcome<V>> {
    if ops == [] then []
    else
      var before := ops[..|ops| - 1];
      PlainOutcomes(before) + [PlainOutcome(PlainAfter(before), MapAfter(before), ops[|ops| - 1])]
  }

  // is_wildcard reads the last character of every key set or deleted.
  predicate KeyOk<V>(op: Op<V>) {
    op.GetOp? || op.key != []
  }

  method Apply<V>(t: WTable<V>, op: Op<V>) returns (outcome: Outcome<V>)
    requires t.Valid() && KeyOk(op)
    modifies t.Repr()
    ensures t.Valid() && t.Refreshed()
    ensures outcome == PlainOutcome(old(Plain(t.finals.contents, t.wildcards[..])), old(t.Names()), op)
    ensures Plain(t.finals.contents, t.wildcards[..]) == PlainStep(old(Plain(t.finals.contents, t.wildcards[..])), op)
    ensures t.Names() == MapStep(old(t.Names()), op)
    ensures t.Accounted() == old(t.Accounted()) + Given(op)
  {
    hide AfterSet, AfterDel, FirstMatch, WTable.Valid, WTable.Accounted;
    match op {
      case SetOp(k, v) =>
        var ok := t.Set(k, v);
        outcome := Done(ok);
      case DelOp(k) =>
        var found := t.Del(k);
        outcome := Done(found);
      case GetOp(k) =>
        var value, _ := t.Get(k);
        outcome := Got(value);
    }
  }

  lemma NoOps<V>()
    ensures PlainAfter<V>([]) == Plain(map[], Packed([], MIN_SIZE)) && MapAfter<V>([]) == map[]
    ensures PlainOutcomes<V>([]) == [] && AllGiven<V>([]) == multiset{}
  {
  }

  lemma OneMoreOp<V>(ops: seq<Op<V>>, op: Op<V>)
    ensures PlainAfter(ops + [op]) == PlainStep(PlainAfter(ops), op)
    ensures MapAfter(ops + [op]) == MapStep(MapAfter(ops), op)
    ensures PlainOutcomes(ops + [op]) == PlainOutcomes(ops) + [PlainOutcome(PlainAfter(ops), MapAfter(ops), op)]
    ensures AllGiven(ops + [op]) == AllGiven(ops) + Given(op)
  {
    hide PlainStep, MapStep, PlainOutcome, Given;
    assert (ops + [op])[..|ops|] == ops;
  }

  // Over every run, whatever the hash function, the leftover cache size and the cache's contents:
  // the answers are those of the cache-free table, and every value is destroyed exactly once.
  method Run<V>(hash: HashFn, leftover: nat, ops: seq<Op<V>>)
    returns (outcomes: seq<Outcome<V>>, ghost destroyed: multiset<V>)
    requires forall i :: 0 <= i < |ops| ==> KeyOk(ops[i])
    ensures outcomes == PlainOutcomes(ops)
    ensures destroyed == AllGiven(ops)
  {
    hide WTable.Valid, WTable.Accounted, WTable.Names, PlainStep, MapStep, PlainOutcome, Given;
    hide PlainAfter, MapAfter, PlainOutcomes, AllGiven;
    NoOps<V>();
    var t := new WTable<V>(hash, leftover);
    outcomes := [];
    var i := 0;
    while i < |ops|
      invariant i <= |ops|
      invariant fresh(t.Repr()) && t.Valid()
      invariant Plain(t.finals.contents, t.wildcards[..]) == PlainAfter(ops[..i])
      invariant t.Names() == MapAfter(ops[..i])
      invariant outcomes == PlainOutcomes(ops[..i])
      invariant t.Accounted() == AllGiven(ops[..i])
    {
      assert ops[..i + 1] == ops[..i] + [ops[i]];
      OneMoreOp(ops[..i], ops[i]);
      var outcome := Apply(t, ops[i]);
      outcomes := outcomes + [outcome];
      i := i + 1;
    }
    assert ops[..i] == ops;
    t.FreeTable();
    destroyed := t.Gone();
  }

  lemma {:induction false} OutcomeAt<V>(ops: seq<Op<V>>, i: nat)
    requires i < |ops|
    ensures |PlainOutcomes(ops)| == |ops|
    ensures PlainOutcomes(ops)[i] == PlainOutcome(PlainAfter(ops[..i]), MapAfter(ops[..i]), ops[i])
    decreases |ops|
  {
    hide PlainOutcome, PlainAfter, MapAfter;
    var n := |ops| - 1;
    if n > 0 {
      OutcomeAt(ops[..n], if i < n then i else 0);
      assert i < n ==> ops[..n][..i] == ops[..i];
    } else {
      assert ops[..0] == [];
    }
  }

  // ---- the cache-free table against the names in force ----

  function ExactNames<V>(names: map<string, V>): map<string, V> {
    map k | k in names && !IsWildcard(k) :: names[k]
  }

  function PatternNames<V>(names: map<string, V>): map<string, V> {
    map k | k in names && IsWildcard(k) :: names[k]
  }

  lemma NamesStep<V>(names: map<string, V>, op: Op<V>)
    ensures op.SetOp? && IsWildcard(op.key) ==>
              ExactNames(names[op.key := op.value]) == ExactNames(names)
              && PatternNames(names[op.key := op.value]) == PatternNames(names)[op.key := op.value]
    ensures op.SetOp? && !IsWildcard(op.key) ==>
              ExactNames(names[op.key := op.value]) == ExactNames(names)[op.key := op.value]
              && PatternNames(names[op.key := op.value]) == PatternNames(names)
    ensures op.DelOp? && IsWildcard(op.key) ==>
              ExactNames(names - {op.key}) == ExactNames(names)
              && PatternNames(names - {op.key}) == PatternNames(names) - {op.key}
    ensures op.DelOp? && !IsWildcard(op.key) ==>
              ExactNames(names - {op.key}) == ExactNames(names) - {op.key}
              && PatternNames(names - {op.key}) == PatternNames(names)
  {
  }

  // In every reachable state the array is sound: distinct patterns, true key lengths, size bounds.
  lemma {:induction false} PlainTracksNames<V>(ops: seq<Op<V>>)
    requires forall i :: 0 <= i < |ops| ==> KeyOk(ops[i])
    ensures PlainAfter(ops).finals == ExactNames(MapAfter(ops))
    ensures SoundArray(PlainAfter(ops).ws, PatternNames(MapAfter(ops)))
  {
    hide SoundArray, AfterSet, AfterDel, ExactNames, PatternNames;
    if ops == [] {
      EmptyArray<V>(Packed([], MIN_SIZE));
      NoNames<V>();
    } else {
      var before, op := ops[..|ops| - 1], ops[|ops| - 1];
      PlainTracksNames(before);
      var p, names := PlainAfter(before), MapAfter(before);
      NamesStep(names, op);
      if op.SetOp? && IsWildcard(op.key) {
        AfterSetFacts(p.ws, PatternNames(names), op.key, op.value);
      } else if op.DelOp? && IsWildcard(op.key) {
        AfterDelFacts(p.ws, PatternNames(names), op.key);
      }
    }
  }

  lemma NoNames<V>()
    ensures ExactNames<V>(map[]) == map[] && PatternNames<V>(map[]) == map[]
  {
  }

  // The array answers by the patterns it holds.
  lemma FirstMatchByNames<V>(ws: seq<WEntry<V>>, patterns: map<string, V>, key: string)
    requires Holds(ws, patterns)
    ensures FirstMatch(ws, key).Some? ==>
              exists name :: name in patterns && Matches(name, key) && patterns[name] == FirstMatch(ws, key).value
    ensures FirstMatch(ws, key).None? ==> forall name :: name in patterns ==> !Matches(name, key)
  {
    hide FirstMatch, Matches;
    FirstMatchMeaning(ws, key);
    if FirstMatch(ws, key).Some? {
      var i :| 0 <= i < |ws| && EntryMatches(ws[i], key) && FirstMatch(ws, key) == Some(ws[i].value);
      assert ws[i].key in patterns && Matches(ws[i].key, key);
    } else {
      forall name | name in patterns ensures !Matches(name, key) {
        var i :| 0 <= i < |ws| && EntryIs(ws[i], name);
        assert !EntryMatches(ws[i], key);
      }
    }
  }

  // A lookup finds something exactly when some name in force is the key or a pattern covering it;
  // what it finds is the value of such a name, and the exact name comes first.
  lemma LookupByNames<V>(ops: seq<Op<V>>, key: string)
    requires forall i :: 0 <= i < |ops| ==> KeyOk(ops[i])
    ensures var names, answer := MapAfter(ops), Lookup(PlainAfter(ops).finals, PlainAfter(ops).ws, key);
            && (answer.Some? <==> exists name :: name in names && Matches(name, key))
            && (answer.Some? ==> exists name :: name in names && Matches(name, key) && names[name] == answer.value)
            && (key in names && !IsWildcard(key) ==> answer == Some(names[key]))
  {
    hide PlainAfter, MapAfter, FirstMatch, WellKeyed, Live, Bounded;
    PlainTracksNames(ops);
    var p, names := PlainAfter(ops), MapAfter(ops);
    FirstMatchByNames(p.ws, PatternNames(names), key);
    var answer := Lookup(p.finals, p.ws, key);
    if key in p.finals {
      assert key in names && Matches(key, key);
    } else if answer.Some? {
      var name :| name in PatternNames(names) && Matches(name, key) && PatternNames(names)[name] == answer.value;
      assert name in names && Matches(name, key) && names[name] == answer.value;
    } else {
      forall name | name in names ensures !Matches(name, key) {
        if IsWildcard(name) {
          assert name in PatternNames(names);
        }
      }
    }
  }
  // What the answers of a run are, in terms of the operations before each: a name is in force when it was set
  // and not deleted since; a get finds something exactly when one in force covers its key, and then the value
  // of such a one, the key's own first; a delete reports whether its name was in force; a set succeeds.
  lemma AnswersByHistory<V>(ops: seq<Op<V>>, i: nat)
    requires i < |ops| && forall j :: 0 <= j < |ops| ==> KeyOk(ops[j])
    ensures |PlainOutcomes(ops)| == |ops|
    ensures match ops[i]
            case SetOp(_, _) => PlainOutcomes(ops)[i] == Done(true)
            case DelOp(k) => PlainOutcomes(ops)[i] == Done(exists v :: LastSet(ops, i, k, v))
            case GetOp(k) =>
              && PlainOutcomes(ops)[i].Got?
              && (PlainOutcomes(ops)[i] != Got(None) <==>
                  exists name, v :: LastSet(ops, i, name, v) && Matches(name, k))
              && (forall v :: PlainOutcomes(ops)[i] == Got(Some(v)) ==>
                                exists name :: LastSet(ops, i, name, v) && Matches(name, k))
              && (forall v :: LastSet(ops, i, k, v) && !IsWildcard(k) ==> PlainOutcomes(ops)[i] == Got(Some(v)))
  {
    hide PlainOutcomes, PlainAfter, MapAfter, LastSet, Matches, FirstMatch, IsWildcard, Lookup;
    var names := MapAfter(ops[..i]);
    OutcomeAt(ops, i);
    LookupByNames(ops[..i], ops[i].key);
    forall name ensures name in names ==> LastSet(ops, i, name, names[name])
                ensures forall v :: LastSet(ops, i, name, v) ==> name in names && names[name] == v
                ensures name in names <==> exists v :: LastSet(ops, i, name, v) {
      MapByHistory(ops, i, name);
    }
  }
}
