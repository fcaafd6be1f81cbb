// Injected error state of streams in preload/posix/modules/posix.custom.c: a hash table used as a
// set of streams behind ferror, clearerr and fclose.
module Ferrors {
  import opened Slots
  import opened HashTables

  // A uintptr_t.
  type Stream = x: nat | x < 0x1_0000_0000_0000_0000

  // sizeof(uintptr_t) * 2 + 1
  const STREAM_KEY_SIZE: nat := 17

  const EOF: int := -1

  // ---- keys ----

  function HexDigit(d: nat): char
    requires d < 16
  {
    if d < 10 then '0' + d as char else 'a' + (d - 10) as char
  }

  // "%" PRIxPTR
  function Hex(x: nat): string {
    if x < 16 then [HexDigit(x)] else Hex(x / 16) + [HexDigit(x % 16)]
  }

  function HexDigitValue(c: char): int {
    if c < 'a' then c as int - '0' as int else c as int - 'a' as int + 10
  }

  function HexValue(s: string): int {
    if s == [] then 0 else 16 * HexValue(s[..|s| - 1]) + HexDigitValue(s[|s| - 1])
  }

  // stream_to_key: snprintf keeps at most STREAM_KEY_SIZE - 1 characters.
  function StreamKey(stream: Stream): string {
    var s := Hex(stream);
    if |s| > STREAM_KEY_SIZE - 1 then s[..STREAM_KEY_SIZE - 1] else s
  }

  lemma {:induction false} HexReadsBack(x: nat)
    ensures HexValue(Hex(x)) == x
  {
    if x >= 16 {
      HexReadsBack(x / 16);
      assert Hex(x)[..|Hex(x)| - 1] == Hex(x / 16);
    } else {
      assert Hex(x)[..0] == [];
      assert HexValue([]) == 0;
    }
  }

  lemma KnownHex()
    ensures Hex(0) == "0" && Hex(0xdeadbeef) == "deadbeef"
  {
    var s := "deadbeef";
    assert [HexDigit(0xd)] == s[..1] && Hex(0xde) == s[..2] && Hex(0xdea) == s[..3] && Hex(0xdead) == s[..4];
    assert Hex(0xdeadb) == s[..5] && Hex(0xdeadbe) == s[..6] && Hex(0xdeadbee) == s[..7];
  }

  lemma {:induction false} HexLength(x: nat, digits: nat, bound: nat)
    requires digits > 0 && bound == Power16(digits) && x < bound
    ensures |Hex(x)| <= digits
  {
    if x >= 16 {
      HexLength(x / 16, digits - 1, Power16(digits - 1));
    }
  }

  function Power16(n: nat): nat {
    if n == 0 then 1 else 16 * Power16(n - 1)
  }

  // The key always fits its buffer, and different streams have different keys.
  lemma KeysInjective(a: Stream, b: Stream)
    ensures |Hex(a)| <= STREAM_KEY_SIZE - 1 && StreamKey(a) == Hex(a)
    ensures StreamKey(a) == StreamKey(b) ==> a == b
  {
    assert Power16(4) == 0x1_0000;
    assert Power16(8) == 0x1_0000_0000;
    assert Power16(12) == 0x1_0000_0000_0000;
    assert Power16(16) == 0x1_0000_0000_0000_0000;
    HexLength(a, 16, Power16(16));
    HexLength(b, 16, Power16(16));
    HexReadsBack(a);
    HexReadsBack(b);
  }

  lemma AllKeysInjective()
    ensures forall a: Stream, b: Stream :: StreamKey(a) == StreamKey(b) ==> a == b
  {
    forall a: Stream, b: Stream ensures StreamKey(a) == StreamKey(b) ==> a == b {
      KeysInjective(a, b);
    }
  }

  // ---- events, and the marks they leave ----

  // `own` says that the wrapper's own point of failure fires; `libc` is what libc answers.
  datatype Event =
    | InjectedError(stream: Stream)
    | FerrorCall(stream: Stream, own: bool, libc: int)
    | ClearerrCall(stream: Stream)
    | FcloseCall(stream: Stream, own: bool, libc: int)

  // An fclose that fails by injection returns before it clears anything.
  predicate Clears(e: Event, s: Stream) {
    (e.ClearerrCall? && e.stream == s) || (e.FcloseCall? && e.stream == s && !e.own)
  }

  // The stream had an injected error after it was last cleared.
  ghost predicate Marked(events: seq<Event>, s: Stream) {
    exists i :: 0 <= i < |events| && events[i] == InjectedError(s)
                && forall j :: i < j < |events| ==> !Clears(events[j], s)
  }

  lemma MarkedNext(events: seq<Event>, e: Event, s: Stream)
    ensures Marked(events + [e], s) <==> e == InjectedError(s) || (Marked(events, s) && !Clears(e, s))
  {
    var n := |events|;
    var after := events + [e];
    if e == InjectedError(s) {
      assert after[n] == InjectedError(s);
    } else if Marked(events, s) && !Clears(e, s) {
      var i :| 0 <= i < n && events[i] == InjectedError(s) && forall j :: i < j < n ==> !Clears(events[j], s);
      assert after[i] == InjectedError(s);
      assert forall j :: i < j < n ==> after[j] == events[j];
    } else if Marked(after, s) {
      var i :| 0 <= i < |after| && after[i] == InjectedError(s) && forall j :: i < j < |after| ==> !Clears(after[j], s);
      assert i < n && events[i] == InjectedError(s);
      assert !Clears(after[n], s);
      forall j | i < j < n ensures !Clears(events[j], s) {
        assert !Clears(after[j], s);
      }
    }
  }

  // The marks, one event at a time: an injected error marks its stream; clearerr, and an fclose that reaches
  // libc, unmark it; an fclose that fails by injection leaves it as it was, and so does everything else.
  lemma MarkLaws(events: seq<Event>, e: Event, s: Stream, libc: int)
    ensures Marked(events + [InjectedError(s)], s)
    ensures !Marked(events + [ClearerrCall(s)], s) && !Marked(events + [FcloseCall(s, false, libc)], s)
    ensures Marked(events + [FcloseCall(s, true, libc)], s) <==> Marked(events, s)
    ensures e.stream != s || e.FerrorCall? ==> (Marked(events + [e], s) <==> Marked(events, s))
    ensures !Marked([], s)
  {
    hide Marked;
    MarkedNext(events, InjectedError(s), s);
    MarkedNext(events, ClearerrCall(s), s);
    MarkedNext(events, FcloseCall(s, false, libc), s);
    MarkedNext(events, FcloseCall(s, true, libc), s);
    MarkedNext(events, e, s);
    NothingMarked();
  }

  // What the caller of the wrapper sees; a void function answers 0.
  function Answer(e: Event, marked: bool): int {
    match e
    case FerrorCall(_, own, libc) => if own then 1 else if libc != 0 then libc else if marked then 1 else 0
    case FcloseCall(_, own, libc) => if own then EOF else libc
    case _ => 0
  }

  // ---- the wrappers ----

  class FerrorState {
    const hash: HashFn
    var table: HashTable?<nat>  // ferror_hash_table, created on first use

    ghost predicate Valid()
      reads this, table, if table == null then {} else {table.entries}
    {
      table != null ==> table.Valid()
    }

    ghost predicate Holds(s: Stream)
      reads this, table
    {
      table != null && StreamKey(s) in table.contents
    }

    ghost function Repr(): set<object?>
      reads this, table
    {
      if table == null then {this} else {this, table, table.entries}
    }

    constructor (hash: HashFn)
      ensures Valid() && table == null && forall s: Stream :: !Holds(s)
    {
      this.hash := hash;
      table := null;
    }

    // pthread_once on _fiu_init_ferror_hash_table.
    method Once()
      requires Valid()
      modifies this
      ensures Valid() && table != null && fresh(Repr() - old(Repr()))
      ensures forall s: Stream :: Holds(s) == old(Holds(s))
    {
      if table == null {
        table := new HashTable<nat>(hash);
      }
    }

    // set_ferror.
    method SetFerror(stream: Stream)
      requires Valid()
      modifies Repr()
      ensures Valid() && fresh(Repr() - old(Repr()))
      ensures forall s: Stream :: Holds(s) == (old(Holds(s)) || s == stream)
    {
      AllKeysInjective();
      Once();
      var _ := table.Set(StreamKey(stream), 0xDEAD);
    }

    // get_ferror.
    method GetFerror(stream: Stream) returns (r: bool)
      requires Valid()
      modifies this
      ensures Valid() && fresh(Repr() - old(Repr()))
      ensures r == Holds(stream) && forall s: Stream :: Holds(s) == old(Holds(s))
    {
      Once();
      var value, _ := table.Get(StreamKey(stream));
      r := value.Some?;
    }

    // clear_ferror.
    method ClearFerror(stream: Stream)
      requires Valid()
      modifies Repr()
      ensures Valid() && fresh(Repr() - old(Repr()))
      ensures forall s: Stream :: Holds(s) == (old(Holds(s)) && s != stream)
    {
      AllKeysInjective();
      Once();
      var _, _ := table.Del(StreamKey(stream));
    }

    // The ferror wrapper: libc is asked first, the table only when libc sees no error.
    method Ferror(stream: Stream, own: bool, libc: int) returns (r: int)
      requires Valid()
      modifies this
      ensures Valid() && fresh(Repr() - old(Repr()))
      ensures r == if own then 1 else if libc != 0 then libc else if old(Holds(stream)) then 1 else 0
      ensures forall s: Stream :: Holds(s) == old(Holds(s))
    {
      if own {
        return 1;
      }
      r := libc;
      if r == 0 {
        var marked := GetFerror(stream);
        if marked {
          r := 1;
        }
      }
    }

    // The clearerr wrapper, after the original has run.
    method Clearerr(stream: Stream)
      requires Valid()
      modifies Repr()
      ensures Valid() && fresh(Repr() - old(Repr()))
      ensures forall s: Stream :: Holds(s) == (old(Holds(s)) && s != stream)
    {
      ClearFerror(stream);
    }

    // The fclose wrapper.
    method Fclose(stream: Stream, own: bool, libc: int) returns (r: int)
      requires Valid()
      modifies Repr()
      ensures Valid() && fresh(Repr() - old(Repr()))
      ensures r == if own then -1 else libc
      ensures forall s: Stream :: Holds(s) == (old(Holds(s)) && (own || s != stream))
    {
      if own {
        return EOF;
      }
      ClearFerror(stream);
      r := libc;
    }
  }

  method Apply(f: FerrorState, e: Event) returns (r: int)
    requires f.Valid()
    modifies f.Repr()
    ensures f.Valid() && fresh(f.Repr() - old(f.Repr()))
    ensures r == Answer(e, old(f.Holds(e.stream)))
    ensures forall s: Stream :: f.Holds(s) == (e == InjectedError(s) || (old(f.Holds(s)) && !Clears(e, s)))
  {
    match e {
      case InjectedError(stream) =>
        f.SetFerror(stream);
        r := 0;
      case FerrorCall(stream, own, libc) =>
        r := f.Ferror(stream, own, libc);
      case ClearerrCall(stream) =>
        f.Clearerr(stream);
        r := 0;
      case FcloseCall(stream, own, libc) =>
        r := f.Fclose(stream, own, libc);
    }
  }

  // Over every run of outermost calls, whatever the hash function: ferror is non-zero exactly when
  // its own point fires, libc says so, or the stream is marked.
  method Run(hash: HashFn, events: seq<Event>) returns (answers: seq<int>)
    ensures |answers| == |events|
    ensures forall i :: 0 <= i < |events| ==> answers[i] == Answer(events[i], Marked(events[..i], events[i].stream))
    ensures forall i :: 0 <= i < |events| && events[i].FerrorCall? ==>
              && (answers[i] != 0 <==> events[i].own || events[i].libc != 0 || Marked(events[..i], events[i].stream))
              && answers[i] == if events[i].own then 1 else if events[i].libc != 0 then events[i].libc
                               else if Marked(events[..i], events[i].stream) then 1 else 0
    ensures forall i :: 0 <= i < |events| && events[i].FcloseCall? ==>
              answers[i] == if events[i].own then -1 else events[i].libc
  {
    hide FerrorState.Valid, FerrorState.Holds, Marked, Answer, Clears, HashTable.Valid;
    var f := new FerrorState(hash);
    NothingMarked();
    answers := [];
    var i := 0;
    while i < |events|
      invariant i <= |events| == |events[..i]| + |events| - i
      invariant f.Valid() && fresh(f.Repr())
      invariant |answers| == i
      invariant forall s: Stream :: f.Holds(s) == Marked(events[..i], s)
      invariant forall j :: 0 <= j < i ==> answers[j] == Answer(events[j], Marked(events[..j], events[j].stream))
    {
      var r := Apply(f, events[i]);
      answers := answers + [r];
      forall s: Stream ensures f.Holds(s) == Marked(events[..i + 1], s) {
        assert events[..i + 1] == events[..i] + [events[i]];
        MarkedNext(events[..i], events[i], s);
      }
      i := i + 1;
    }
    forall i | 0 <= i < |events|
      ensures events[i].FcloseCall? ==> answers[i] == if events[i].own then -1 else events[i].libc
      ensures events[i].FerrorCall? ==>
                && (answers[i] != 0 <==> events[i].own || events[i].libc != 0 || Marked(events[..i], events[i].stream))
                && answers[i] == if events[i].own then 1 else if events[i].libc != 0 then events[i].libc
                                 else if Marked(events[..i], events[i].stream) then 1 else 0
    {
      PlainAnswers(events[i], Marked(events[..i], events[i].stream));
    }
  }

  lemma PlainAnswers(e: Event, marked: bool)
    ensures e.FerrorCall? ==> (Answer(e, marked) != 0 <==> e.own || e.libc != 0 || marked)
    ensures e.FerrorCall? ==> Answer(e, marked) == if e.own then 1 else if e.libc != 0 then e.libc
                                                   else if marked then 1 else 0
    ensures e.FcloseCall? ==> Answer(e, marked) == if e.own then -1 else e.libc
  {
  }

  lemma NothingMarked()
    ensures forall s: Stream :: !Marked([], s)
  {
  }
}
