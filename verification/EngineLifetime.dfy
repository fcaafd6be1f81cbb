// How long a point lives: from pf_create until the set or delete that takes it out of force.
module EngineLifetimes {
  import opened Slots
  import opened Caches
  import opened Wildcards
  import opened WTables
  import opened Engine
  import opened EngineInvariants
  import opened EngineRuns

  ghost predicate InForce(table: Table, p: Pid) {
    exists k :: k in table.enabled && table.enabled[k] == p
  }

  // pf_create has returned it, and its insertion has not taken effect yet.
  ghost predicate Awaits(threads: map<Tid, Thread>, p: Pid) {
    exists t :: t in threads && Pending(threads[t].pc) == Some(p)
  }

  ghost predicate NoLeak(s: State) {
    forall p :: p in s.points && !s.points[p].freed ==> InForce(s.table, p) || Awaits(s.threads, p)
  }

  ghost predicate StillNeeded(s: State, s': State, t: Tid, p: Pid)
    requires t in s.threads && t in s'.threads
  {
    || Pending(s'.threads[t].pc) == Some(p)
    || (&& p in s.points && !s.points[p].freed && (InForce(s.table, p) ==> InForce(s'.table, p))
        && (Pending(s.threads[t].pc) == Some(p) ==> InForce(s'.table, p)))
  }

  lemma NoLeakKept(s: State, s': State, t: Tid)
    requires NoLeak(s) && OneMoves(s, s', t)
    requires forall p :: p in s'.points && !s'.points[p].freed ==> StillNeeded(s, s', t, p)
    ensures NoLeak(s')
  {
    hide InForce, Pending;
    forall p | p in s'.points && !s'.points[p].freed ensures InForce(s'.table, p) || Awaits(s'.threads, p) {
      assert StillNeeded(s, s', t, p);
      if Pending(s'.threads[t].pc) == Some(p) {
        assert Awaits(s'.threads, p);
      } else if !InForce(s.table, p) {
        var u :| u in s.threads && Pending(s.threads[u].pc) == Some(p);
        assert u != t ==> s'.threads[u] == s.threads[u];
      }
    }
  }

  // Steps that leave the names in force, and every point's life, as they were.
  ghost predicate Lifeless(s: State, s': State, t: Tid) {
    && OneMoves(s, s', t) && s'.table.enabled == s.table.enabled
    && (forall p :: p in s'.points ==> p in s.points && s'.points[p].freed == s.points[p].freed)
    && (Pending(s.threads[t].pc).None? || Pending(s'.threads[t].pc) == Pending(s.threads[t].pc))
  }

  lemma LifelessKept(s: State, s': State, t: Tid)
    requires NoLeak(s) && Lifeless(s, s', t)
    ensures NoLeak(s')
  {
    hide Pending;
    NoLeakKept(s, s', t);
  }

  lemma DecisionIsLifeless(hash: HashFn, s: State, t: Tid, a: Action)
    requires Enabled(s, t, a) && s.table.cache != [] && AfterLookup(a)
    ensures Lifeless(s, Apply(hash, s, t, a), t)
  {
    hide DoWriteStep, DoCreate, DoCall, DoUnnest, DoProbeFinals, DoProbeCache, DoWalk, DoFill, Enabled, Apply,
      CacheMove;
    Performs(hash, s, t, a);
  }

  lemma QuietIsLifeless(hash: HashFn, s: State, t: Tid, a: Action)
    requires Enabled(s, t, a) && s.table.cache != [] && t in s.threads && CountOk(s.threads[t])
    requires !a.WriteStep? && !a.Create? && !AfterLookup(a)
    ensures Lifeless(s, Apply(hash, s, t, a), t)
  {
    hide Hit, Store, FirstMatch, CacheMove, DoWriteStep, DoResolve, DoCheck, DoDecide, DoFire, DoPass, DoReleaseRead,
      DoReturn, NewPoint;
  }

  lemma CreateKeeps(hash: HashFn, s: State, t: Tid, p: Pid)
    requires NoLeak(s) && s.table.cache != [] && Enabled(s, t, Create(p))
    ensures NoLeak(Apply(hash, s, t, Create(p)))
  {
    hide CacheMove, NewPoint;
    NoLeakKept(s, Apply(hash, s, t, Create(p)), t);
  }

  // The name's new point is in force; its old one is destroyed, and the others stand for other names.
  lemma BindsKeeps(s: State, s': State, t: Tid, name: string, p: Pid)
    requires NoLeak(s) && OneMoves(s, s', t) && Binds(s, s', name, p) && Pending(s.threads[t].pc) == Some(p)
    ensures NoLeak(s')
  {
    hide Pending;
    assert s'.table.enabled[name] == p;
    forall q | q in s'.points && !s'.points[q].freed ensures StillNeeded(s, s', t, q) {
      if InForce(s.table, q) {
        var k :| k in s.table.enabled && s.table.enabled[k] == q;
        assert k != name && s'.table.enabled[k] == q;
      }
    }
    NoLeakKept(s, s', t);
  }

  lemma UnbindsKeeps(s: State, s': State, t: Tid, name: string)
    requires NoLeak(s) && OneMoves(s, s', t) && Unbinds(s, s', name) && Pending(s.threads[t].pc).None?
    ensures NoLeak(s')
  {
    hide Pending;
    forall q | q in s'.points && !s'.points[q].freed ensures StillNeeded(s, s', t, q) {
      if InForce(s.table, q) {
        var k :| k in s.table.enabled && s.table.enabled[k] == q;
        assert k != name && s'.table.enabled[k] == q;
      }
    }
    NoLeakKept(s, s', t);
  }

  lemma SetKeeps(s: State, t: Tid, p: Pid, newCache: seq<Slot<Option<Pid>>>)
    requires Inv(s) && NoLeak(s) && t in s.threads && s.threads[t].pc == WriteIn(SetOp(p)) && p in s.points
    ensures NoLeak(DoSet(s, t, p, newCache))
  {
    hide Inv, NoLeak, Binds, IsWildcard, Grown, Destroy;
    if IsWildcard(s.points[p].name) {
      LifelessKept(s, DoSet(s, t, p, newCache), t);
    } else {
      SetExactStep(s, t, p, newCache);
      BindsKeeps(s, DoSet(s, t, p, newCache), t, s.points[p].name, p);
    }
  }

  lemma PutKeeps(s: State, t: Tid, p: Pid)
    requires Inv(s) && NoLeak(s) && t in s.threads && s.threads[t].pc == SetCleared(p) && p in s.points
    ensures NoLeak(DoPut(s, t, p))
  {
    hide Inv, NoLeak, Binds, IndexOf, Put, Destroy;
    PutStep(s, t, p);
    BindsKeeps(s, DoPut(s, t, p), t, s.points[p].name, p);
  }

  lemma DelKeeps(s: State, t: Tid, name: string)
    requires Inv(s) && NoLeak(s) && t in s.threads && s.threads[t].pc == WriteIn(DelOp(name))
    ensures NoLeak(DoDel(s, t, name))
  {
    hide Inv, NoLeak, Unbinds, IsWildcard, IndexOf, Destroy;
    DelStep(s, t, name);
    UnbindsKeeps(s, DoDel(s, t, name), t, name);
  }

  lemma Rearranged(s: State, s': State, t: Tid)
    requires NoLeak(s) && OneMoves(s, s', t) && s'.points == s.points && s'.table.enabled == s.table.enabled
    requires Pending(s.threads[t].pc).None? || Pending(s'.threads[t].pc) == Pending(s.threads[t].pc)
    ensures NoLeak(s')
  {
    hide NoLeak, Pending;
    LifelessKept(s, s', t);
  }

  lemma WriteKeeps(hash: HashFn, s: State, t: Tid, a: Action)
    requires Inv(s) && NoLeak(s) && s.table.cache != [] && a.WriteStep? && Enabled(s, t, a)
    ensures NoLeak(Apply(hash, s, t, a))
  {
    hide Inv, NoLeak, Grown, Shrunk, Invalidated, DoSet, DoPut, DoDel, Enabled, Apply, CacheMove;
    Performs(hash, s, t, a);
    var s' := Apply(hash, s, t, a);
    match s.threads[t].pc {
      case WriteIn(SetOp(p)) => SetKeeps(s, t, p, a.newCache);
      case WriteIn(DelOp(name)) => DelKeeps(s, t, name);
      case SetCleared(p) => PutKeeps(s, t, p);
      case WriteIn(InitOp) => Rearranged(s, s', t);
      case SetGrown(_) => Rearranged(s, s', t);
      case DelFreed => Rearranged(s, s', t);
      case DelShrunk => Rearranged(s, s', t);
    }
  }

  lemma StepKeeps(hash: HashFn, s: State, t: Tid, a: Action)
    requires Inv(s) && NoLeak(s) && s.table.cache != [] && Enabled(s, t, a)
    ensures NoLeak(Apply(hash, s, t, a))
  {
    hide Inv, NoLeak, Apply, CacheMove, Lifeless, CountOk, PcOk;
    if a.WriteStep? {
      WriteKeeps(hash, s, t, a);
    } else if a.Create? {
      CreateKeeps(hash, s, t, a.p);
    } else {
      OwnPart(s, t);
      if AfterLookup(a) {
        DecisionIsLifeless(hash, s, t, a);
      } else {
        QuietIsLifeless(hash, s, t, a);
      }
      LifelessKept(s, Apply(hash, s, t, a), t);
    }
  }

  lemma {:induction false} StepsLeakNothing(hash: HashFn, states: seq<State>, events: seq<Event>)
    requires Steps(hash, states, events) && Initial(states[0])
    ensures Inv(states[|events|]) && NoLeak(states[|events|])
  {
    hide Inv, Enabled, Apply;
    if events == [] {
      InitialHolds(states[0]);
    } else {
      hide Initial, NoLeak;
      var n := |events| - 1;
      StepsLeakNothing(hash, states[..n + 1], events[..n]);
      assert Next(hash, states[n], events[n], states[n + 1]);
      Step(hash, states[n], events[n].t, events[n].a);
      StepKeeps(hash, states[n], events[n].t, events[n].a);
    }
  }

  // In every interleaving a created point is live exactly while some name stands for it or its insertion is
  // still to come: none is destroyed early, and none is left behind.
  lemma LiveExactlyWhenNeeded(hash: HashFn, s: State, p: Pid)
    requires Reachable(hash, s) && p in s.points
    ensures !s.points[p].freed <==> InForce(s.table, p) || Awaits(s.threads, p)
  {
    hide Inv, LocksOk, CountsOk, CacheOk, ThreadsOk, PendingDistinct, MutexOk, CallsOk, WinnersOk, Sound, Tracks,
      Roomy, Initial, Next, Phase, InForce, Awaits, Pending, Uses;
    var states, events :| Steps(hash, states, events) && Initial(states[0]) && states[|events|] == s;
    StepsLeakNothing(hash, states, events);
    if Awaits(s.threads, p) {
      AwaitingIsLive(hash, s, p);
    }
    if InForce(s.table, p) {
      InForceIsLive(s, p);
    }
  }

  lemma AwaitingIsLive(hash: HashFn, s: State, p: Pid)
    requires Reachable(hash, s) && Awaits(s.threads, p)
    ensures p in s.points && !s.points[p].freed
  {
    hide Reachable;
    var t :| t in s.threads && Pending(s.threads[t].pc) == Some(p);
    NoUseAfterFree(hash, s, t, p);
  }

  lemma InForceIsLive(s: State, p: Pid)
    requires Inv(s) && InForce(s.table, p)
    ensures p in s.points && !s.points[p].freed
  {
    hide Inv, LocksOk, CountsOk, CacheOk, ThreadsOk, PendingDistinct, MutexOk, CallsOk, WinnersOk, Sound, Tracks,
      Roomy, Phase;
    Parts(s);
  }
}
