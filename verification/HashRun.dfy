// Whole runs of the hash table, from hash_create to hash_free, against a finite map.
module HashRuns {
  import opened Slots
  import opened HashTables

  datatype Op<V> = SetOp(key: string, value: V) | DelOp(key: string) | GetOp(key: string)

  datatype Outcome<V> = Done(ok: bool) | Got(value: Option<V>)

  function MapStep<V>(m: map<string, V>, op: Op<V>): map<string, V> {
    match op
    case SetOp(k, v) => m[k := v]
    case DelOp(k) => m - {k}
    case GetOp(_) => m
  }

  // What a finite map answers to `op`.
  function MapOutcome<V>(m: map<string, V>, op: Op<V>): Outcome<V> {
    match op
    case SetOp(_, _) => Done(true)
    case DelOp(k) => Done(k in m)
    case GetOp(k) => Got(if k in m then Some(m[k]) else None)
  }

  // The map after a run of operations.
  function MapAfter<V>(ops: seq<Op<V>>): map<string, V> {
    if ops == [] then map[] else MapStep(MapAfter(ops[..|ops| - 1]), ops[|ops| - 1])
  }

  function MapOutcomes<V>(ops: seq<Op<V>>): seq<Outcome<V>> {
    if ops == [] then []
    else MapOutcomes(ops[..|ops| - 1]) + [MapOutcome(MapAfter(ops[..|ops| - 1]), ops[|ops| - 1])]
  }

  // The last write of `k` among the first `n` operations set it to `v`.
  predicate LastSet<V(==)>(ops: seq<Op<V>>, n: nat, k: string, v: V) {
    exists j :: 0 <= j < n && j < |ops| && ops[j] == SetOp(k, v)
                && forall i :: j < i < n && i < |ops| ==> ops[i].GetOp? || ops[i].key != k
  }

  lemma {:induction false} MapByHistory<V>(ops: seq<Op<V>>, n: nat, k: string)
    requires n <= |ops|
    ensures k in MapAfter(ops[..n]) ==> LastSet(ops, n, k, MapAfter(ops[..n])[k])
    ensures forall v :: LastSet(ops, n, k, v) ==> k in MapAfter(ops[..n]) && MapAfter(ops[..n])[k] == v
    ensures k in MapAfter(ops[..n]) <==> exists v :: LastSet(ops, n, k, v)
  {
    hide LastSet;
    if n == 0 {
      NothingSet(ops, k);
    } else {
      MapByHistory(ops, n - 1, k);
      assert ops[..n][..n - 1] == ops[..n - 1];
      forall v | LastSet(ops, n, k, v) ensures k in MapAfter(ops[..n]) && MapAfter(ops[..n])[k] == v {
        SetEarlier(ops, n - 1, k, v);
      }
      var op := ops[n - 1];
      if op.SetOp? && op.key == k {
        SetNow(ops, n - 1);
      } else if k in MapAfter(ops[..n]) {
        SetBefore(ops, n - 1, k, MapAfter(ops[..n])[k]);
      }
    }
  }

  lemma NothingSet<V>(ops: seq<Op<V>>, k: string)
    ensures forall v :: !LastSet(ops, 0, k, v)
  {
  }

  lemma SetNow<V>(ops: seq<Op<V>>, n: nat)
    requires n < |ops| && ops[n].SetOp?
    ensures LastSet(ops, n + 1, ops[n].key, ops[n].value)
  {
    assert ops[n] == SetOp(ops[n].key, ops[n].value);
  }

  lemma SetEarlier<V>(ops: seq<Op<V>>, n: nat, k: string, v: V)
    requires n < |ops| && LastSet(ops, n + 1, k, v)
    ensures ops[n] == SetOp(k, v) || ((ops[n].GetOp? || ops[n].key != k) && LastSet(ops, n, k, v))
  {
    var j :| 0 <= j < n + 1 && j < |ops| && ops[j] == SetOp(k, v)
             && forall i :: j < i < n + 1 && i < |ops| ==> ops[i].GetOp? || ops[i].key != k;
    assert j < n ==> ops[n].GetOp? || ops[n].key != k;
  }

  lemma SetBefore<V>(ops: seq<Op<V>>, n: nat, k: string, v: V)
    requires n < |ops| && LastSet(ops, n, k, v) && (ops[n].GetOp? || ops[n].key != k)
    ensures LastSet(ops, n + 1, k, v)
  {
    var j :| 0 <= j < n && j < |ops| && ops[j] == SetOp(k, v)
             && forall i :: j < i < n && i < |ops| ==> ops[i].GetOp? || ops[i].key != k;
    assert j < n + 1;
  }

  lemma {:induction false} OutcomeAt<V>(ops: seq<Op<V>>, i: nat)
    requires i < |ops|
    ensures |MapOutcomes(ops)| == |ops| && MapOutcomes(ops)[i] == MapOutcome(MapAfter(ops[..i]), ops[i])
    decreases |ops|
  {
    hide MapOutcome, MapAfter;
    var n := |ops| - 1;
    if n > 0 {
      OutcomeAt(ops[..n], if i < n then i else 0);
      assert i < n ==> ops[..n][..i] == ops[..i];
    } else {
      assert ops[..0] == [];
    }
  }

  // What the answers are, in terms of the operations before: a get finds the value that was set last and
  // not deleted since, a delete reports whether there is one, a set always succeeds.
  lemma AnswersByHistory<V>(ops: seq<Op<V>>, i: nat)
    requires i < |ops|
    ensures |MapOutcomes(ops)| == |ops|
    ensures match ops[i]
            case SetOp(_, _) => MapOutcomes(ops)[i] == Done(true)
            case DelOp(k) => MapOutcomes(ops)[i] == Done(exists v :: LastSet(ops, i, k, v))
            case GetOp(k) =>
              && (forall v :: LastSet(ops, i, k, v) ==> MapOutcomes(ops)[i] == Got(Some(v)))
              && ((forall v :: !LastSet(ops, i, k, v)) ==> MapOutcomes(ops)[i] == Got(None))
  {
    hide MapOutcomes, MapAfter, LastSet;
    OutcomeAt(ops, i);
    MapByHistory(ops, i, ops[i].key);
  }

  // The values handed over to the table.
  ghost function Given<V>(op: Op<V>): multiset<V> {
    if op.SetOp? then multiset{op.value} else multiset{}
  }

  ghost function AllGiven<V>(ops: seq<Op<V>>): multiset<V> {
    if ops == [] then multiset{} else AllGiven(ops[..|ops| - 1]) + Given(ops[|ops| - 1])
  }

  function Writes<V>(ops: seq<Op<V>>): nat {
    if ops == [] then 0 else Writes(ops[..|ops| - 1]) + if ops[|ops| - 1].GetOp? then 0 else 1
  }

  method Apply<V>(t: HashTable<V>, op: Op<V>) returns (outcome: Outcome<V>)
    requires t.Valid()
    modifies t, t.entries
    ensures t.Valid() && (t.entries == old(t.entries) || fresh(t.entries))
    ensures outcome == MapOutcome(old(t.contents), op) && t.contents == MapStep(old(t.contents), op)
    ensures t.Accounted() == old(t.Accounted()) + Given(op)
    ensures t.ops == old(t.ops) + if op.GetOp? then 0 else 1
  {
    match op {
      case SetOp(k, v) =>
        var ok := t.Set(k, v);
        outcome := Done(ok);
      case DelOp(k) =>
        var found, _ := t.Del(k);
        outcome := Done(found);
      case GetOp(k) =>
        var value, _ := t.Get(k);
        outcome := Got(value);
    }
  }

  // Over every run, whatever the hash function and wherever the rebuilds fall: the answers are a
  // finite map's, every value set is destroyed exactly once, and the rebuilds scanned at most five
  // old slots per set or delete.
  method Run<V>(hash: HashFn, ops: seq<Op<V>>)
    returns (outcomes: seq<Outcome<V>>, ghost destroyed: seq<V>, ghost scanned: nat)
    ensures outcomes == MapOutcomes(ops)
    ensures multiset(destroyed) == AllGiven(ops)
    ensures scanned <= 5 * Writes(ops)
  {
    hide HashTable.Valid, HashTable.Owned, MapStep, MapOutcome, Given;
    var t := new HashTable<V>(hash);
    outcomes := [];
    var i := 0;
    while i < |ops|
      invariant i <= |ops|
      invariant fresh(t) && fresh(t.entries) && t.Valid()
      invariant t.contents == MapAfter(ops[..i])
      invariant outcomes == MapOutcomes(ops[..i])
      invariant t.Accounted() == AllGiven(ops[..i])
      invariant t.ops == Writes(ops[..i])
    {
      assert ops[..i + 1][..i] == ops[..i];
      var outcome := Apply(t, ops[i]);
      outcomes := outcomes + [outcome];
      i := i + 1;
    }
    assert ops[..i] == ops;
    t.RebuildCost();
    t.Free();
    destroyed, scanned := t.destroyed, t.scanned;
  }
}
