// The library as a program uses it: initialise, enable, fail, disable, one call after the other; and how much
// the steps of the engine leave open.
module EngineUse {
  import opened Slots
  import opened Caches
  import opened Wildcards
  import opened WTables
  import opened Engine
  import opened EngineInvariants
  import opened EngineRuns
  import opened EngineProgress
  import opened EngineSolo
  import Names = WTableRuns
  import HashRuns

  // One whole call by thread `t`, on its own, from `s` to `s'`.
  ghost predicate Does(hash: HashFn, s: State, t: Tid, first: Action, s': State) {
    exists acts :: OneCall(acts, first) && Perform(hash, s, t, acts) == Some(s')
                   && t in s'.threads && s'.threads[t].pc.Idle?
  }

  // ---- what a lookup finds, by the names in force ----

  lemma OnlyNameAnswers(table: Table, name: string, key: string)
    requires Sound(table) && name in table.enabled && Matches(name, key)
    requires forall k :: k in table.enabled && k != name ==> !Matches(k, key)
    ensures Answer(table, key) == Some(table.enabled[name])
  {
    hide FirstMatch, WellKeyed;
    Names.FirstMatchByNames(table.ws, Names.PatternNames(table.enabled), key);
    if key in table.finals {
      ItselfMatches(key);
      assert !IsWildcard(key) && key in table.enabled;
    } else {
      PatternOrItself(name, key);
      assert IsWildcard(name) && name in Names.PatternNames(table.enabled);
    }
  }

  lemma ItselfMatches(key: string)
    ensures !IsWildcard(key) ==> Matches(key, key)
  {
  }

  lemma PatternOrItself(name: string, key: string)
    requires Matches(name, key)
    ensures IsWildcard(name) || name == key
  {
  }

  lemma NoNameNoAnswer(table: Table, key: string)
    requires Sound(table) && forall k :: k in table.enabled ==> !Matches(k, key)
    ensures Answer(table, key) == None
  {
    hide FirstMatch, WellKeyed, Matches;
    Names.FirstMatchByNames(table.ws, Names.PatternNames(table.enabled), key);
    if key in table.finals {
      ItselfMatches(key);
    }
  }

  lemma SoundTable(s: State)
    requires Inv(s)
    ensures Sound(s.table)
  {
    hide LocksOk, CountsOk, CacheOk, ThreadsOk, PendingDistinct, MutexOk, CallsOk, WinnersOk, Sound, Tracks, Named,
      Roomy;
  }

  // ---- one call after the other ----

  lemma KeepsOnItsOwn(hash: HashFn, s: State, t: Tid, first: Action, s': State)
    requires Inv(s) && Does(hash, s, t, first, s')
    ensures Inv(s')
  {
    hide Inv, OneCall;
    var acts :| OneCall(acts, first) && Perform(hash, s, t, acts) == Some(s')
                && t in s'.threads && s'.threads[t].pc.Idle?;
    PerformKeeps(hash, s, t, acts);
  }

  lemma Fails(hash: HashFn, s: State, t: Tid, key: string, s': State)
    requires Inv(s) && Alone(s, t) && Does(hash, s, t, Call(key), s')
    ensures Alone(s', t) && s'.table == s.table.(cache := s'.table.cache)
    ensures Answer(s.table, key) == None ==> s'.threads[t].last == 0 && s'.points == s.points
    ensures Answer(s.table, key).Some? && Answer(s.table, key).value in s.points ==>
              var p := Answer(s.table, key).value;
              var pt := s.points[p];
              && p in s'.points && s'.points[p].decide == pt.decide && s'.points[p].onetime == pt.onetime
              && (pt.decide.Always? ==>
                    && s'.threads[t].last == (if pt.onetime && pt.failedOnce then 0 else pt.failnum)
                    && s'.points[p].failnum == pt.failnum && (pt.onetime ==> s'.points[p].failedOnce))
  {
    hide Inv, Lookup, OneCall, Enabled, Apply;
    var acts :| OneCall(acts, Call(key)) && Perform(hash, s, t, acts) == Some(s')
                && t in s'.threads && s'.threads[t].pc.Idle?;
    FailAlone(hash, s, t, key, acts, s');
  }

  lemma Enables(hash: HashFn, s: State, t: Tid, name: string, decide: Method, onetime: bool, failnum: int, s': State)
    requires Inv(s) && Alone(s, t) && Does(hash, s, t, StartEnable(name, decide, onetime, failnum), s')
    ensures Alone(s', t) && name in s'.table.enabled && s'.table.enabled.Keys == s.table.enabled.Keys + {name}
    ensures s'.table.enabled[name] in s'.points
    ensures var pt := s'.points[s'.table.enabled[name]];
            pt.decide == decide && pt.onetime == onetime && pt.failnum == failnum && !pt.failedOnce
  {
    hide Inv, OneCall, Enabled, Apply, NewPoint, Unlinked;
    var acts :| OneCall(acts, StartEnable(name, decide, onetime, failnum)) && Perform(hash, s, t, acts) == Some(s')
                && t in s'.threads && s'.threads[t].pc.Idle?;
    EnableAlone(hash, s, t, name, decide, onetime, failnum, acts, s');
    var p :| Linked(s, NewPoint(name, decide, onetime, failnum), p, s');
    NewName(name, decide, onetime, failnum);
    assert s'.table.enabled == s.table.enabled[name := p];
  }

  lemma NewName(name: string, decide: Method, onetime: bool, failnum: int)
    ensures NewPoint(name, decide, onetime, failnum).name == name
  {
  }

  lemma Disables(hash: HashFn, s: State, t: Tid, name: string, s': State)
    requires Inv(s) && Alone(s, t) && Does(hash, s, t, StartDisable(name), s')
    ensures Alone(s', t) && s'.table.enabled == s.table.enabled - {name}
  {
    hide Inv, OneCall, Enabled, Apply, Unlinked;
    var acts :| OneCall(acts, StartDisable(name)) && Perform(hash, s, t, acts) == Some(s')
                && t in s'.threads && s'.threads[t].pc.Idle?;
    DisableAlone(hash, s, t, name, acts, s');
  }

  // No other name in force covers the key.
  ghost predicate Only(s: State, name: string, key: string) {
    forall k :: k in s.table.enabled && k != name ==> !Matches(k, key)
  }

  // Enabled, a name fails every key it covers with its failnum, each time, or the first time only if ONETIME;
  // disabled again, it fails none.
  lemma EnabledFailsUntilDisabled(hash: HashFn, s0: State, s1: State, s2: State, s3: State, s4: State, s5: State,
                                  t: Tid, name: string, key: string, onetime: bool, failnum: int)
    requires Inv(s0) && Alone(s0, t) && Matches(name, key) && Only(s0, name, key)
    requires Does(hash, s0, t, StartEnable(name, Always, onetime, failnum), s1)
    requires Does(hash, s1, t, Call(key), s2) && Does(hash, s2, t, Call(key), s3)
    requires Does(hash, s3, t, StartDisable(name), s4) && Does(hash, s4, t, Call(key), s5)
    ensures t in s2.threads && s2.threads[t].last == failnum
    ensures t in s3.threads && s3.threads[t].last == if onetime then 0 else failnum
    ensures t in s5.threads && s5.threads[t].last == 0
  {
    hide Inv, Does, Matches, Sound, Lookup;
    Enables(hash, s0, t, name, Always, onetime, failnum, s1);
    KeepsOnItsOwn(hash, s0, t, StartEnable(name, Always, onetime, failnum), s1);
    SoundTable(s1);
    OnlyNameAnswers(s1.table, name, key);
    Fails(hash, s1, t, key, s2);
    KeepsOnItsOwn(hash, s1, t, Call(key), s2);
    SoundTable(s2);
    OnlyNameAnswers(s2.table, name, key);
    Fails(hash, s2, t, key, s3);
    KeepsOnItsOwn(hash, s2, t, Call(key), s3);
    Disables(hash, s3, t, name, s4);
    KeepsOnItsOwn(hash, s3, t, StartDisable(name), s4);
    SoundTable(s4);
    NoNameNoAnswer(s4.table, key);
    Fails(hash, s4, t, key, s5);
  }

  // ---- a program can do all that ----

  lemma CanDo(hash: HashFn, s: State, t: Tid, first: Action) returns (s': State)
    requires Inv(s) && Alone(s, t) && Starts(first) && Enabled(s, t, first)
    ensures Does(hash, s, t, first, s') && Inv(s')
  {
    hide Inv, Enabled, Apply;
    var s1 := Apply(hash, s, t, first);
    Step(hash, s, t, first);
    StillAlone(hash, s, t, first);
    var rest := CompletesAlone(hash, s1, t);
    var acts := [first] + rest;
    assert acts[1..] == rest;
    assert OneCall(acts, first);
    s' := Perform(hash, s1, t, rest).value;
    assert Perform(hash, s, t, acts) == Some(s');
    PerformKeeps(hash, s1, t, rest);
  }

  lemma StillAlone(hash: HashFn, s: State, t: Tid, first: Action)
    requires Inv(s) && Alone(s, t) && Starts(first) && Enabled(s, t, first)
    ensures NobodyElse(Apply(hash, s, t, first), t)
  {
    hide CountsOk, TableOk, CacheOk, ThreadsOk, PendingDistinct, MutexOk, CallsOk, WinnersOk, CacheMove, Phase;
    assert LocksOk(s);
  }

  // Any thread outside the library may start any call: the control API once the table is there, fiu_fail and
  // fiu_init at any time.
  lemma AnyCallStarts(s: State, t: Tid, name: string, decide: Method, onetime: bool, failnum: int)
    requires t in s.threads && s.threads[t].pc.Idle? && s.threads[t].nested == 0
    ensures Enabled(s, t, Call(name)) && Enabled(s, t, StartInit)
    ensures s.table.inited && name != [] ==>
              Enabled(s, t, StartEnable(name, decide, onetime, failnum)) && Enabled(s, t, StartDisable(name))
  {
    hide CacheMove;
  }

  // From a fresh start a program can initialise the library, enable a name, see it fail, and disable it; and
  // however those calls go, the answers are these.
  lemma FirstUse(hash: HashFn, s: State, t: Tid, name: string, key: string, onetime: bool, failnum: int)
    returns (s2: State, s3: State, s5: State)
    requires Initial(s) && t in s.threads && name != [] && Matches(name, key)
    ensures exists s0, s1, s4 ::
              && Does(hash, s, t, StartInit, s0) && Does(hash, s0, t, StartEnable(name, Always, onetime, failnum), s1)
              && Does(hash, s1, t, Call(key), s2) && Does(hash, s2, t, Call(key), s3)
              && Does(hash, s3, t, StartDisable(name), s4) && Does(hash, s4, t, Call(key), s5)
    ensures t in s2.threads && s2.threads[t].last == failnum
    ensures t in s3.threads && s3.threads[t].last == if onetime then 0 else failnum
    ensures t in s5.threads && s5.threads[t].last == 0
  {
    hide Inv, Does, Matches, Lookup, Enabled;
    InitialHolds(s);
    FreshStart(s, t);
    AnyCallStarts(s, t, name, Always, onetime, failnum);
    var s0 := CanDo(hash, s, t, StartInit);
    Initialised(hash, s, t, s0);
    AnyCallStarts(s0, t, name, Always, onetime, failnum);
    var s1 := CanDo(hash, s0, t, StartEnable(name, Always, onetime, failnum));
    Enables(hash, s0, t, name, Always, onetime, failnum, s1);
    AnyCallStarts(s1, t, key, Always, onetime, failnum);
    s2 := CanDo(hash, s1, t, Call(key));
    Fails(hash, s1, t, key, s2);
    AnyCallStarts(s2, t, key, Always, onetime, failnum);
    s3 := CanDo(hash, s2, t, Call(key));
    Fails(hash, s2, t, key, s3);
    StillInited(hash, s0, s1, t, name, onetime, failnum);
    AnyCallStarts(s3, t, name, Always, onetime, failnum);
    var s4 := CanDo(hash, s3, t, StartDisable(name));
    Disables(hash, s3, t, name, s4);
    AnyCallStarts(s4, t, key, Always, onetime, failnum);
    s5 := CanDo(hash, s4, t, Call(key));
    EnabledFailsUntilDisabled(hash, s0, s1, s2, s3, s4, s5, t, name, key, onetime, failnum);
  }

  lemma FreshStart(s: State, t: Tid)
    requires Initial(s) && t in s.threads
    ensures Alone(s, t) && s.table.enabled == map[]
  {
    hide Packed, NothingLive;
  }

  lemma Initialised(hash: HashFn, s: State, t: Tid, s': State)
    requires Alone(s, t) && Does(hash, s, t, StartInit, s') && s.table.enabled == map[]
    ensures Alone(s', t) && s'.table.inited && s'.table.enabled == map[]
  {
    hide OneCall;
    var acts :| OneCall(acts, StartInit) && Perform(hash, s, t, acts) == Some(s')
                && t in s'.threads && s'.threads[t].pc.Idle?;
    InitAlone(hash, s, t, acts, s');
  }

  lemma StillInited(hash: HashFn, s: State, s': State, t: Tid, name: string, onetime: bool, failnum: int)
    requires Inv(s) && Alone(s, t) && Does(hash, s, t, StartEnable(name, Always, onetime, failnum), s')
    ensures s'.table.inited
  {
    hide Inv, OneCall, Enabled, Apply, NewPoint, Unlinked;
    var acts :| OneCall(acts, StartEnable(name, Always, onetime, failnum)) && Perform(hash, s, t, acts) == Some(s')
                && t in s'.threads && s'.threads[t].pc.Idle?;
    EnableAlone(hash, s, t, name, Always, onetime, failnum, acts, s');
  }

  // ---- what the steps leave open ----

  // Any number of threads read at once, and only a writer keeps one out.
  lemma ReadersEnter(s: State, t: Tid)
    requires t in s.threads && s.threads[t].pc.FailWant? && s.threads[t].nested == 0
    ensures Enabled(s, t, TakeRead) <==> s.writer.None?
  {
    hide CacheMove;
  }

  // A point that always fails does; any other may fail or not, and an external callback may leave any failnum.
  lemma AnyDecision(s: State, t: Tid, p: Pid, fails: bool, failnum: int)
    requires t in s.threads && s.threads[t].nested == 0 && s.threads[t].pc.FailDecide? && s.threads[t].pc.p == p
    requires p in s.points
    ensures Enabled(s, t, Decide(fails, failnum)) <==>
            (fails || !s.points[p].decide.Always?) && (failnum == s.points[p].failnum || s.points[p].decide.External?)
  {
    hide CacheMove;
  }

  // A thread inside the library may call fiu_fail again at any point, and a call so nested may end at any time.
  lemma NestedCallsAnywhere(s: State, t: Tid, name: string)
    requires t in s.threads && Inside(s.threads[t].pc)
    ensures Enabled(s, t, Call(name)) && (s.threads[t].nested > 0 ==> Enabled(s, t, Unnest))
  {
    hide CacheMove;
  }

  // A resize of the cache may leave any of its entries anywhere, or none, in a cache of any size.
  lemma AnyResize(s: State, t: Tid, newCache: seq<Slot<Option<Pid>>>)
    requires t in s.threads && s.threads[t].nested == 0 && newCache != []
    requires forall i :: 0 <= i < |newCache| && newCache[i].InUse? ==> newCache[i] in s.table.cache
    requires match s.threads[t].pc
             case WriteIn(SetOp(p)) =>
               && p in s.points && s.points[p].name != [] && s.points[p].name[|s.points[p].name| - 1] == '*'
               && |Live(s.table.ws)| + 1 >= |s.table.ws|
             case DelFreed =>
               |s.table.ws| > 10 && 10 * |Live(s.table.ws)| < 6 * |s.table.ws| && |Live(s.table.ws)| >= 7
             case _ => false
    ensures Enabled(s, t, WriteStep(newCache))
  {
    hide Live;
  }

  // Any number of threads, and any cache without a live entry, make a start.
  lemma AnyThreadsStart(tids: set<Tid>, cache: seq<Slot<Option<Pid>>>) returns (s: State)
    requires cache != [] && NothingLive(cache)
    ensures Initial(s) && s.threads.Keys == tids && s.table.cache == cache
  {
    var threads := map t | t in tids :: Thread(Idle, 0, 0, 0, 0);
    s := State(Table(false, map[], Packed([], MIN_SIZE), cache, [], map[]), map[], {}, None, threads, [], []);
  }
}
