// What holds of the engine over every run.
module EngineRuns {
  import opened Slots
  import opened Caches
  import opened Wildcards
  import opened WTables
  import opened Engine
  import opened EngineInvariants
  import Names = WTableRuns
  import HashRuns

  datatype Event = Event(t: Tid, a: Action)

  ghost predicate Next(hash: HashFn, s: State, e: Event, s': State) {
    s.table.cache != [] && Enabled(s, e.t, e.a) && s' == Apply(hash, s, e.t, e.a)
  }

  ghost predicate Steps(hash: HashFn, states: seq<State>, events: seq<Event>) {
    |states| == |events| + 1 && forall i :: 0 <= i < |events| ==> Next(hash, states[i], events[i], states[i + 1])
  }

  // Any interleaving of any calls, from the start.
  ghost predicate Reachable(hash: HashFn, s: State) {
    exists states, events :: Steps(hash, states, events) && Initial(states[0]) && states[|events|] == s
  }

  lemma {:induction false} StepsKeep(hash: HashFn, states: seq<State>, events: seq<Event>)
    requires Steps(hash, states, events) && Inv(states[0])
    ensures Inv(states[|events|])
  {
    hide Inv, Enabled, Apply;
    if events != [] {
      var n := |events| - 1;
      StepsKeep(hash, states[..n + 1], events[..n]);
      assert Next(hash, states[n], events[n], states[n + 1]);
      Step(hash, states[n], events[n].t, events[n].a);
    }
  }

  lemma InvHolds(hash: HashFn, s: State)
    requires Reachable(hash, s)
    ensures Inv(s)
  {
    hide Inv, Initial, Next;
    var states, events :| Steps(hash, states, events) && Initial(states[0]) && states[|events|] == s;
    InitialHolds(states[0]);
    StepsKeep(hash, states, events);
  }

  lemma PartOfRun(hash: HashFn, states: seq<State>, events: seq<Event>, n: nat)
    requires Steps(hash, states, events) && Initial(states[0]) && n <= |events|
    ensures Inv(states[n])
  {
    hide Inv, Initial, Enabled, Apply;
    InitialHolds(states[0]);
    StepsKeep(hash, states[..n + 1], events[..n]);
  }

  lemma LogPart(s: State, i: nat)
    requires Inv(s) && i < |s.log|
    ensures LoggedOk(s, s.log[i])
  {
    hide LocksOk, CountsOk, TableOk, CacheOk, ThreadsOk, PendingDistinct, MutexOk, WinnersOk, LoggedOk, CallOk,
      Placed;
  }

  // ---- the cache ----

  // Whenever no writer is inside, every live slot holds the current array lookup of its key.
  lemma NoStaleCache(hash: HashFn, s: State)
    requires Reachable(hash, s) && s.writer.None?
    ensures forall i :: 0 <= i < |s.table.cache| && s.table.cache[i].InUse? ==>
                          s.table.cache[i].value == FirstMatch(s.table.ws, s.table.cache[i].key)
  {
    hide LocksOk, CountsOk, TableOk, ThreadsOk, PendingDistinct, MutexOk, CallsOk, WinnersOk, FirstMatch;
    InvHolds(hash, s);
  }

  // A reader between its walk and its fill still carries the current answer, so no stale fill can follow
  // an invalidation.
  lemma FillCarriesCurrentAnswer(hash: HashFn, s: State, t: Tid)
    requires Reachable(hash, s) && t in s.threads && s.threads[t].pc.FailFill?
    ensures s.writer.None?
    ensures s.threads[t].pc.found == Lookup(s.table.finals, s.table.ws, s.threads[t].pc.name)
  {
    hide Inv, LocksOk, CountsOk, TableOk, CacheOk, ThreadsOk, PendingDistinct, MutexOk, CallsOk, WinnersOk, CountOk,
      FirstMatch;
    InvHolds(hash, s);
    Parts(s);
    OwnPart(s, t);
    ReaderSeesNoWriter(s, t);
  }

  // ---- ONETIME points ----

  // Of all the completed calls that resolved to one ONETIME point, through any name, at most one failed.
  lemma OneTimeFailsOnce(hash: HashFn, s: State, p: Pid, i: nat, j: nat)
    requires Reachable(hash, s) && p in s.points && s.points[p].onetime
    requires i < |s.log| && j < |s.log| && s.log[i].found == Some(p) && s.log[j].found == Some(p)
    requires s.log[i].fired && s.log[j].fired
    ensures i == j
  {
    hide LocksOk, CountsOk, TableOk, CacheOk, ThreadsOk, PendingDistinct, MutexOk, WinnersOk, Sound, Named, Lookup;
    InvHolds(hash, s);
    assert RecordOk(s.points, s.log[i]) && RecordOk(s.points, s.log[j]);
  }

  // If it always fails, then once any such call is complete some call has failed, or is about to return
  // the failure.
  lemma OneTimeDoesFail(hash: HashFn, s: State, p: Pid, i: nat)
    requires Reachable(hash, s) && p in s.points && s.points[p].onetime && s.points[p].decide.Always?
    requires i < |s.log| && s.log[i].found == Some(p)
    ensures || (exists j :: 0 <= j < |s.log| && s.log[j].found == Some(p) && s.log[j].fired)
            || (exists t :: t in s.threads && Returning(s.threads[t], s.threads[t].call, p))
  {
    hide Inv, LocksOk, CountsOk, TableOk, CacheOk, ThreadsOk, PendingDistinct, MutexOk, CallsOk, Sound, Settled,
      Named, Lookup;
    InvHolds(hash, s);
    Parts(s);
    LogPart(s, i);
    assert Witnessed(s.threads, s.log, s.points[p].winner.value, p);
  }

  // With no call in flight: exactly one.
  lemma OneTimeExactlyOnce(hash: HashFn, s: State, p: Pid, i: nat)
    requires Reachable(hash, s) && p in s.points && s.points[p].onetime && s.points[p].decide.Always?
    requires i < |s.log| && s.log[i].found == Some(p)
    requires forall t :: t in s.threads ==> !InFail(s.threads[t].pc)
    ensures exists j :: 0 <= j < |s.log| && s.log[j].found == Some(p) && s.log[j].fired
                        && forall k :: 0 <= k < |s.log| && s.log[k].found == Some(p) && s.log[k].fired ==> k == j
  {
    hide Reachable;
    OneTimeDoesFail(hash, s, p, i);
    var j :| 0 <= j < |s.log| && s.log[j].found == Some(p) && s.log[j].fired;
    forall k | 0 <= k < |s.log| && s.log[k].found == Some(p) && s.log[k].fired ensures k == j {
      OneTimeFailsOnce(hash, s, p, k, j);
    }
  }

  // ---- points in use are live ----

  predicate Uses(pc: Pc, p: Pid) {
    match pc
    case FailFill(_, found) => found == Some(p)
    case FailFound(_, found) => found == Some(p)
    case _ => AtMutex(pc, p) || Pending(pc) == Some(p)
  }

  lemma NoUseAfterFree(hash: HashFn, s: State, t: Tid, p: Pid)
    requires Reachable(hash, s) && t in s.threads && Uses(s.threads[t].pc, p)
    ensures p in s.points && !s.points[p].freed
  {
    hide Inv, LocksOk, CountsOk, TableOk, CacheOk, ThreadsOk, PendingDistinct, MutexOk, CallsOk, WinnersOk, CountOk,
      FirstMatch, RecordOk, OutcomeOk;
    InvHolds(hash, s);
    Parts(s);
    OwnPart(s, t);
    var pc := s.threads[t].pc;
    if HoldsRead(pc) {
      AnswerIsLive(s, t, pc.name);
    }
  }

  // A point is never destroyed while its mutex is held.
  lemma FreedIsUnlocked(hash: HashFn, s: State, p: Pid)
    requires Reachable(hash, s) && p in s.points && s.points[p].freed
    ensures s.points[p].owner.None?
  {
    hide Inv, LocksOk, CountsOk, TableOk, CacheOk, ThreadsOk, PendingDistinct, CallsOk, WinnersOk, FlagsOk;
    InvHolds(hash, s);
    Parts(s);
    if s.points[p].owner.Some? {
      NoUseAfterFree(hash, s, s.points[p].owner.value, p);
    }
  }

  // Outside the writers' sections every cached point is a live pattern point.
  lemma CachedIsLive(hash: HashFn, s: State, i: nat)
    requires Reachable(hash, s) && s.writer.None? && i < |s.table.cache| && s.table.cache[i].InUse?
    requires s.table.cache[i].value.Some?
    ensures var p := s.table.cache[i].value.value;
            && p in s.points && !s.points[p].freed
            && IsWildcard(s.points[p].name) && Matches(s.points[p].name, s.table.cache[i].key)
  {
    hide LocksOk, CountsOk, CacheOk, ThreadsOk, PendingDistinct, MutexOk, CallsOk, WinnersOk, FirstMatch, Matches,
      IsWildcard, WellKeyed;
    InvHolds(hash, s);
    NoStaleCache(hash, s);
    Names.FirstMatchByNames(s.table.ws, Names.PatternNames(s.table.enabled), s.table.cache[i].key);
  }

  // ---- calls and their records ----

  // The names of the outermost calls of fiu_fail in a run, in order.
  function Outermost(states: seq<State>, events: seq<Event>): seq<string>
    requires |states| == |events| + 1
    decreases |events|
  {
    if events == [] then []
    else
      var n := |events| - 1;
      Outermost(states[..n + 1], events[..n]) + CallMade(states[n], events[n])
  }

  function CallMade(s: State, e: Event): seq<string> {
    if e.a.Call? && e.t in s.threads && s.threads[e.t].rec == 0 then [e.a.name] else []
  }

  lemma CallsChange(hash: HashFn, s: State, e: Event)
    requires s.table.cache != [] && Enabled(s, e.t, e.a)
    ensures Apply(hash, s, e.t, e.a).calls == s.calls + CallMade(s, e)
  {
    hide Hit, Store, FirstMatch, Grown, Shrunk, Put, IndexOf, Invalidated, IsWildcard, CacheMove, Destroy;
    assert s.calls + [] == s.calls;
  }

  // The calls counted are the outermost calls of the run, in order.
  lemma {:induction false} CallsAreThoseMade(hash: HashFn, states: seq<State>, events: seq<Event>)
    requires Steps(hash, states, events) && Initial(states[0])
    ensures states[|events|].calls == Outermost(states, events)
  {
    if events == [] {
      assert states[0].calls == [];
    } else {
      hide Enabled, Apply, Initial, CallMade;
      var n := |events| - 1;
      CallsAreThoseMade(hash, states[..n + 1], events[..n]);
      assert Next(hash, states[n], events[n], states[n + 1]);
      CallsChange(hash, states[n], events[n]);
    }
  }

  // Every one of them is either in progress or on record exactly once, under its own name; nothing else is
  // on record.
  lemma EveryCallAnsweredOnce(hash: HashFn, s: State)
    requires Reachable(hash, s)
    ensures forall id: nat :: id < |s.calls| ==> Placed(s, id)
    ensures forall i :: 0 <= i < |s.log| ==> s.log[i].id < |s.calls| && s.log[i].name == s.calls[s.log[i].id]
    ensures forall i, j :: 0 <= i < j < |s.log| ==> s.log[i].id != s.log[j].id
  {
    hide LocksOk, CountsOk, TableOk, CacheOk, ThreadsOk, PendingDistinct, MutexOk, WinnersOk, Placed, CallOk,
      RecordOk;
    InvHolds(hash, s);
  }

  // ---- answers ----

  // Whenever no writer is inside, the table is what the sets and deletes so far, taken one at a time in
  // the order of the exclusive sections, make of the sequential table of WTableRuns.
  lemma TableIsSequential(hash: HashFn, s: State)
    requires Reachable(hash, s) && s.writer.None?
    ensures Names.Plain(s.table.finals, s.table.ws) == Names.PlainAfter(s.table.ops)
    ensures s.table.enabled == HashRuns.MapAfter(s.table.ops)
    ensures Bounded(|s.table.ws|, |Live(s.table.ws)|)
  {
    hide LocksOk, CountsOk, CacheOk, ThreadsOk, PendingDistinct, MutexOk, CallsOk, WinnersOk, Live, Sound, Named;
    InvHolds(hash, s);
  }

  // Every completed fiu_fail found what a get of the sequential table would have returned between the
  // sets and deletes before it and those after it, whatever the cache held.
  lemma CallsAreSequentialGets(hash: HashFn, s: State, i: nat)
    requires Reachable(hash, s) && i < |s.log|
    ensures var r := s.log[i];
            && r.table.ops <= s.table.ops && r.table.enabled == HashRuns.MapAfter(r.table.ops)
            && Names.PlainOutcome(Names.PlainAfter(r.table.ops), r.table.enabled, HashRuns.GetOp(r.name))
            == HashRuns.Got(r.found)
  {
    hide Inv, FirstMatch, OutcomeOk, Sound, Named;
    InvHolds(hash, s);
    LogPart(s, i);
  }

  // Some name in force is the key, or a pattern that covers it.
  ghost predicate Covered(table: Table, name: string) {
    exists k :: k in table.enabled && Matches(k, name)
  }

  // A completed call found a point exactly when a name in force covers its own, and then the point of
  // such a name, an exact one first.
  lemma CallsFindTheNamesInForce(hash: HashFn, s: State, i: nat)
    requires Reachable(hash, s) && i < |s.log|
    ensures var r := s.log[i];
            && (r.found.Some? <==> Covered(r.table, r.name))
            && (r.found.Some? ==>
                  exists k :: k in r.table.enabled && Matches(k, r.name) && r.table.enabled[k] == r.found.value)
            && (r.name in r.table.enabled && !IsWildcard(r.name) ==> r.found == Some(r.table.enabled[r.name]))
  {
    hide Inv, OutcomeOk, Settled, FirstMatch, WellKeyed, IsWildcard;
    InvHolds(hash, s);
    LogPart(s, i);
    var r := s.log[i];
    Names.FirstMatchByNames(r.table.ws, Names.PatternNames(r.table.enabled), r.name);
    if r.name in r.table.finals {
      assert r.name in r.table.enabled && Matches(r.name, r.name);
    } else if r.found.Some? {
      var k :| k in Names.PatternNames(r.table.enabled) && Matches(k, r.name)
               && Names.PatternNames(r.table.enabled)[k] == r.found.value;
      assert k in r.table.enabled && Matches(k, r.name) && r.table.enabled[k] == r.found.value;
    } else {
      forall k | k in r.table.enabled ensures !Matches(k, r.name) {
        if IsWildcard(k) {
          assert k in Names.PatternNames(r.table.enabled);
        } else {
          assert k in r.table.finals;
        }
      }
    }
  }

  // Any enabling and disabling of always-failing points with non-zero failnums: fiu_fail is non-zero
  // exactly when an enabled name or prefix covers the name asked for, and then returns that point's failnum.
  lemma CallsFailWhenCovered(hash: HashFn, s: State, i: nat)
    requires Reachable(hash, s) && i < |s.log|
    requires forall k :: k in s.log[i].table.enabled ==>
                           s.log[i].table.enabled[k] in s.points
                           && var pt := s.points[s.log[i].table.enabled[k]];
                              pt.decide.Always? && !pt.onetime && pt.failnum != 0
    ensures var r := s.log[i];
            && (r.result != 0 <==> Covered(r.table, r.name))
            && (r.result != 0 ==> exists k :: k in r.table.enabled && Matches(k, r.name)
                                              && r.result == s.points[r.table.enabled[k]].failnum)
  {
    hide Reachable, Covered, Matches, IsWildcard;
    CallsFindTheNamesInForce(hash, s, i);
    CompletedCall(hash, s, i);
  }

  // A completed call returned 0 or the failnum of the point it found.
  lemma CompletedCall(hash: HashFn, s: State, i: nat)
    requires Reachable(hash, s) && i < |s.log|
    ensures var r := s.log[i];
            && (!r.fired ==> r.result == 0)
            && (r.fired ==> r.found.Some?)
            && (r.found.Some? ==>
                  && r.found.value in s.points
                  && var pt := s.points[r.found.value];
                     && (r.fired ==> r.result in pt.stored && (!pt.decide.External? ==> r.result == pt.failnum))
                     && (pt.decide.Always? && !pt.onetime ==> r.fired)
                     && (pt.onetime && r.fired ==> pt.winner == Some(r.id)))
  {
    hide Inv;
    InvHolds(hash, s);
    LogPart(s, i);
  }

  // ---- the recursion guard ----

  // rec_count is back to 0 whenever a thread is outside the library, and counts the nesting inside.
  lemma GuardRestored(hash: HashFn, s: State, t: Tid)
    requires Reachable(hash, s) && t in s.threads
    ensures s.threads[t].rec == (if Inside(s.threads[t].pc) then 1 else 0) + s.threads[t].nested
    ensures s.threads[t].pc.Idle? ==> s.threads[t].rec == 0
  {
    hide LocksOk, TableOk, CacheOk, ThreadsOk, PendingDistinct, MutexOk, CallsOk, WinnersOk;
    InvHolds(hash, s);
  }

  function Enter(s: State, t: Tid, names: seq<string>): State
    requires t in s.threads
  {
    if names == [] then s
    else DoCall(Enter(s, t, names[..|names| - 1]), t, names[|names| - 1])
  }

  // The thread with the result of a call.
  function Returned(s: State, t: Tid, result: int): State
    requires t in s.threads
  {
    s.(threads := s.threads[t := s.threads[t].(last := result)])
  }

  lemma {:induction false} NestedCallsCancel(s: State, t: Tid, names: seq<string>)
    requires t in s.threads && s.threads[t].rec >= 1
    ensures t in Enter(s, t, names).threads
    ensures Enter(s, t, names) == s.(threads := s.threads[t := s.threads[t].(rec := s.threads[t].rec + |names|,
                                                                              nested := s.threads[t].nested + |names|)])
    ensures names != [] ==> DoUnnest(Enter(s, t, names), t) == Returned(Enter(s, t, names[..|names| - 1]), t, 0)
  {
    if names != [] {
      NestedCallsCancel(s, t, names[..|names| - 1]);
    }
  }

  // fiu_fail called inside the library, to any depth, touches no lock, no point and not the table; each
  // of those calls returns 0 and is undone by its return.
  lemma NestedCallsAreInert(hash: HashFn, s: State, t: Tid, names: seq<string>)
    requires Reachable(hash, s) && t in s.threads && Inside(s.threads[t].pc)
    ensures t in Enter(s, t, names).threads
    ensures Enter(s, t, names) == s.(threads := s.threads[t := s.threads[t].(rec := s.threads[t].rec + |names|,
                                                                              nested := s.threads[t].nested + |names|)])
    ensures names != [] ==> DoUnnest(Enter(s, t, names), t) == Returned(Enter(s, t, names[..|names| - 1]), t, 0)
  {
    hide Reachable, Inside, Enter, DoUnnest, Returned;
    GuardRestored(hash, s, t);
    NestedCallsCancel(s, t, names);
  }
}
